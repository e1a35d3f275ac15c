/**
 Whether a withdrawal marked COMPLETED really left. The gateway's report is written over whatever stood there,
 so it does exactly as long as no success report comes for a withdrawal that was already reversed.
 */
module TransferReports {
  import opened Option
  import opened Money
  import opened Ledger
  import opened WalletSpec
  import opened Transfers
  import opened PaymentsSpec
  import opened TopUps
  import opened Clearing
  import opened Withdrawals

  /** What is marked COMPLETED still stands in the books. */
  ghost predicate Honest(p: Payments) {
    forall id <- p.withdrawals :: p.withdrawals[id].status == TransferCompleted ==>
      id < |p.books.ledger.log| && p.books.ledger.log[id].status == Completed
  }

  /** A success report for a withdrawal whose money went back. */
  predicate LateSuccess(p: Payments, o: PayOp) {
    var known, log := p.books.ledger.byReference, p.books.ledger.log;
    && o.Webhook? && o.succeeded && WithdrawalRef(o.token, Plain) in known
    && known[WithdrawalRef(o.token, Plain)] in p.withdrawals
    && known[WithdrawalRef(o.token, Plain)] < |log| && log[known[WithdrawalRef(o.token, Plain)]].status == Reversed
  }

  predicate SomeLateSuccess(p: Payments, os: seq<PayOp>)
    decreases |os|
  {
    os != [] && (SomeLateSuccess(p, os[..|os| - 1]) || LateSuccess(RunPay(p, os[..|os| - 1]), os[|os| - 1]))
  }

  /** A COMPLETED withdrawal that is reversed. */
  predicate Misreported(p: Payments, id: nat) {
    && id in p.withdrawals && p.withdrawals[id].status == TransferCompleted
    && id < |p.books.ledger.log| && p.books.ledger.log[id].status == Reversed
  }

  // ---------------------------------------------------------------- what an operation leaves alone

  /** The transactions there were are untouched. */
  ghost predicate Untouched(l: Ledger, m: Ledger) {
    |l.log| <= |m.log| && forall i :: 0 <= i < |l.log| ==> m.log[i] == l.log[i]
  }

  lemma RefundTouchesOne(b: Books, id: nat)
    ensures var l, m := b.ledger, Step(b, RefundTransaction(id)).0.ledger;
            |l.log| <= |m.log| && forall i :: 0 <= i < |l.log| && i != id ==> m.log[i] == l.log[i]
  {
    hide Apply, EntriesOf;
  }

  lemma ReverseTouchesTwo(b: Books, id: nat, settlement: Option<nat>)
    ensures var l, m := b.ledger, Reverse(b, id, settlement).0.ledger;
            |l.log| <= |m.log| && forall i :: 0 <= i < |l.log| && i != id && Some(i) != settlement ==> m.log[i] == l.log[i]
  {
    RefundTouchesOne(b, id);
    if settlement.Some? {
      RefundTouchesOne(Step(b, RefundTransaction(id)).0, settlement.value);
    }
    hide Step;
  }

  /** A fresh operation that succeeds is the next transaction. */
  lemma FreshIsNext(b: Books, op: Op)
    requires !op.RefundTransaction? && !op.PayInvoice? && op.reference !in b.ledger.byReference
    ensures Untouched(b.ledger, Step(b, op).0.ledger) && Step(b, op).0.ledger.byReference.Keys <= b.ledger.byReference.Keys + {op.reference}
    ensures Step(b, op).1.Ok? ==>
              && Step(b, op).1.value == |b.ledger.log| && |Step(b, op).0.ledger.log| == |b.ledger.log| + 1
              && Step(b, op).0.ledger.log[|b.ledger.log|].status == Completed
  {
    OpenAllGrows(b.ledger, PlanOf(op).opens);
    PlanReference(op);
    hide PlanOf, OpenAll, Missing, Apply, EntriesOf;
  }

  lemma ReserveIsNext(b: Books, driver: nat, x: real, token: nat)
    requires WithdrawalRef(token, Plain) !in b.ledger.byReference && WithdrawalRef(token, Settle) !in b.ledger.byReference
    ensures var (after, withdrawal, settlement) := Reserve(b, driver, x, token);
            && Untouched(b.ledger, after.ledger)
            && (withdrawal.Ok? ==> withdrawal.value == |b.ledger.log| < |after.ledger.log| && after.ledger.log[|b.ledger.log|].status == Completed)
            && (withdrawal.Ok? && settlement.Ok? ==> settlement.value >= |b.ledger.log|)
  {
    var ready := OpenPayable(b, driver);
    var first := RequestWithdrawal(driver, x, WithdrawalRef(token, Plain));
    FreshIsNext(ready, first);
    FreshIsNext(Step(ready, first).0, SettleCommission(driver, Min(Owed(ready, driver) as real, x), WithdrawalRef(token, Settle)));
    hide Step;
  }

  /** The outcomes of a withdrawal: refused, or on record and then perhaps reversed, but not when nothing had to be sent. */
  lemma WithdrawOutcomes(p: Payments, driver: nat, x: real, token: nat, accepted: bool)
    ensures var (reserved, withdrawal, settlement) := Reserve(p.books, driver, x, token);
            var q := InitiateWithdrawal(p, driver, x, token, accepted);
            && (withdrawal.Err? || settlement.Err? ==> q.books == reserved && q.withdrawals == p.withdrawals)
            && (withdrawal.Ok? && settlement.Ok? ==>
                  var id := withdrawal.value;
                  id in q.withdrawals && q.withdrawals == p.withdrawals[id := q.withdrawals[id]]
                  && (q.books == reserved
                      || (q.withdrawals[id].status != TransferCompleted
                          && (q.books == Reverse(reserved, id, None).0 || q.books == Reverse(reserved, id, Some(settlement.value)).0))))
  {
    hide Reserve, Reverse, Column, ToKobo, Owed, OpenPayable;
  }

  /** A new withdrawal is marked COMPLETED only when nothing had to be sent, and then nothing is reversed. */
  lemma WithdrawIsNext(p: Payments, driver: nat, x: real, token: nat, accepted: bool)
    requires WithdrawalRef(token, Plain) !in p.books.ledger.byReference && WithdrawalRef(token, Settle) !in p.books.ledger.byReference
    ensures var l, q := p.books.ledger, InitiateWithdrawal(p, driver, x, token, accepted);
            && Untouched(l, q.books.ledger)
            && (q.withdrawals == p.withdrawals
                || (|l.log| in q.withdrawals && q.withdrawals == p.withdrawals[|l.log| := q.withdrawals[|l.log|]]
                    && (q.withdrawals[|l.log|].status == TransferCompleted ==>
                          |l.log| < |q.books.ledger.log| && q.books.ledger.log[|l.log|].status == Completed)))
  {
    ReserveIsNext(p.books, driver, x, token);
    WithdrawOutcomes(p, driver, x, token, accepted);
    var (reserved, withdrawal, settlement) := Reserve(p.books, driver, x, token);
    if withdrawal.Ok? && settlement.Ok? {
      ReverseTouchesTwo(reserved, withdrawal.value, None);
      ReverseTouchesTwo(reserved, withdrawal.value, Some(settlement.value));
    }
    hide Reserve, Reverse, InitiateWithdrawal;
  }

  // ---------------------------------------------------------------- honesty, step by step

  lemma UntouchedIsHonest(p: Payments, q: Payments)
    requires Honest(p) && q.withdrawals == p.withdrawals && Untouched(p.books.ledger, q.books.ledger)
    ensures Honest(q)
  {}

  lemma WithdrawIsHonest(p: Payments, driver: nat, x: real, token: nat, accepted: bool)
    requires Orderly(p) && Honest(p) && WithdrawalRef(token, Plain) !in p.books.ledger.byReference
    ensures Honest(InitiateWithdrawal(p, driver, x, token, accepted))
  {
    hide InitiateWithdrawal, Orderly;
    WithdrawalsAreKnown(p);
    SettleIsUnused(p, token);
    WithdrawIsNext(p, driver, x, token, accepted);
  }

  /** Every withdrawal on record is a transaction under its plain reference. */
  lemma WithdrawalsAreKnown(p: Payments)
    requires Orderly(p)
    ensures forall id <- p.withdrawals :: id < |p.books.ledger.log| && p.books.ledger.log[id].reference.suffix.Plain?
  {
    hide Sturdy, Seeded, DeliveriesOutside;
    forall id <- p.withdrawals
      ensures id < |p.books.ledger.log| && p.books.ledger.log[id].reference.suffix.Plain?
    {
      assert Recorded(p.books.ledger, id, p.withdrawals[id]);
    }
  }

  lemma SettleIsUnused(p: Payments, token: nat)
    requires Orderly(p) && WithdrawalRef(token, Plain) !in p.books.ledger.byReference
    ensures WithdrawalRef(token, Settle) !in p.books.ledger.byReference
  {
    hide Sturdy, Seeded, DeliveriesOutside, Recorded;
    SettleIsFresh(p, token);
  }

  lemma VerifyOutcomes(p: Payments, v: Verified)
    ensures var q := StepPay(p, Verify(v));
            && q.withdrawals == p.withdrawals
            && (q.books == p.books
                || (v.user.Some? && v.user.value in p.drives
                    && q.books == CreditTopUp(p.books, p.drives[v.user.value], v.user.value, v.kobo, v.token).0))
  {
    hide CreditTopUp, Credited;
  }

  lemma VerifyUntouches(p: Payments, v: Verified)
    requires DeliveriesOutside(p.books.ledger)
    ensures var q := StepPay(p, Verify(v));
            q.withdrawals == p.withdrawals && Untouched(p.books.ledger, q.books.ledger)
  {
    hide CreditTopUp, StepPay, DeliveriesOutside;
    VerifyOutcomes(p, v);
    if v.user.Some? && v.user.value in p.drives {
      CreditTopUpAdds(p.books, p.drives[v.user.value], v.user.value, v.kobo, v.token);
    }
  }

  lemma VerifyIsHonest(p: Payments, v: Verified)
    requires Orderly(p) && Honest(p)
    ensures Honest(StepPay(p, Verify(v)))
  {
    OrderlyIsSturdy(p);
    VerifyUntouches(p, v);
    UntouchedIsHonest(p, StepPay(p, Verify(v)));
    hide Orderly, Honest, Untouched, StepPay, Sturdy, Indexed, Solvent, DeliveriesOutside;
  }

  lemma OtherIsHonest(p: Payments, op: Op)
    requires Honest(p) && CallerOp(op)
    ensures Honest(StepPay(p, Other(op)))
  {
    StepGrows(p.books, op);
    hide Step, Column;
  }

  lemma DisputeIsHonest(p: Payments, id: nat)
    requires Orderly(p) && Honest(p) && OwedPay(p, Dispute(id))
    ensures Honest(StepPay(p, Dispute(id)))
  {
    hide Orderly, Step;
    RefundTouchesOne(p.books, id);
    WithdrawalsAreKnown(p);
    if id in p.withdrawals {
      WithdrawalsAreInside(p, id);
    }
  }

  /** A withdrawal is no delivery payment. */
  lemma WithdrawalsAreInside(p: Payments, id: nat)
    requires Orderly(p) && id in p.withdrawals
    ensures id < |p.books.ledger.log| && p.books.ledger.log[id].kind != DeliveryPaymentWallet
  {
    assert Recorded(p.books.ledger, id, p.withdrawals[id]);
    var t := p.books.ledger.log[id];
    assert t.entries[1] in t.entries && InPosition(t.entries[1].account);
    hide Sturdy;
  }

  /** What a failure report leaves of a withdrawal that still stands. */
  lemma FailureOutcome(p: Payments, token: nat, id: nat)
    requires WithdrawalRef(token, Plain) in p.books.ledger.byReference && id == p.books.ledger.byReference[WithdrawalRef(token, Plain)]
    requires id in p.withdrawals
    ensures var (restored, outcome) := Reverse(p.books, id, SettlementOf(p.books.ledger, token));
            var q := StepPay(p, Webhook(token, false));
            && (outcome.Ok? ==> q.books == restored && q.withdrawals == p.withdrawals[id := p.withdrawals[id].(status := TransferFailed)])
            && (outcome.Err? ==> q.books == restored && q.withdrawals == p.withdrawals)
  {
    hide Reverse;
  }

  /** A failure report marks FAILED what it reverses, and reverses no other withdrawal. */
  lemma FailureIsHonest(p: Payments, token: nat)
    requires Orderly(p) && Honest(p)
    ensures Honest(StepPay(p, Webhook(token, false)))
  {
    hide Orderly, Reverse, Recorded, Honest, SettlementOf;
    var known := p.books.ledger.byReference;
    if WithdrawalRef(token, Plain) in known && known[WithdrawalRef(token, Plain)] in p.withdrawals {
      var id := known[WithdrawalRef(token, Plain)];
      StandingOrReversed(p, token);
      hide StepPay;
      FailureOutcome(p, token, id);
      if p.books.ledger.log[id].status == Completed {
        StandingFailureIsHonest(p, token, id);
      } else {
        ReverseTwiceFails(p.books, id, SettlementOf(p.books.ledger, token));
        UntouchedIsHonest(p, StepPay(p, Webhook(token, false)));
      }
    }
  }

  lemma StandingOrReversed(p: Payments, token: nat)
    requires Orderly(p) && WithdrawalRef(token, Plain) in p.books.ledger.byReference
    requires p.books.ledger.byReference[WithdrawalRef(token, Plain)] in p.withdrawals
    ensures p.books.ledger.byReference[WithdrawalRef(token, Plain)] < |p.books.ledger.log|
  {
    WithdrawalsAreKnown(p);
    hide Orderly;
  }

  lemma StandingFailureIsHonest(p: Payments, token: nat, id: nat)
    requires Orderly(p) && Honest(p) && WithdrawalRef(token, Plain) in p.books.ledger.byReference
    requires id == p.books.ledger.byReference[WithdrawalRef(token, Plain)] && id in p.withdrawals
    requires id < |p.books.ledger.log| && p.books.ledger.log[id].status == Completed
    ensures Honest(StepPay(p, Webhook(token, false)))
  {
    hide Orderly, Reverse, Recorded, Honest, StepPay;
    var settlement := SettlementOf(p.books.ledger, token);
    WebhookTarget(p, token);
    FailingUndoes(p, id);
    FailureOutcome(p, token, id);
    ReverseTouchesTwo(p.books, id, settlement);
    if settlement.Some? {
      SettlementsAreNoWithdrawals(p, token);
    }
    FailingIsHonest(p, StepPay(p, Webhook(token, false)), id, settlement);
  }

  lemma FailingIsHonest(p: Payments, q: Payments, id: nat, settlement: Option<nat>)
    requires Honest(p) && id in p.withdrawals && (settlement.Some? ==> settlement.value !in p.withdrawals)
    requires q.withdrawals == p.withdrawals[id := p.withdrawals[id].(status := TransferFailed)]
    requires var l, m := p.books.ledger, q.books.ledger;
             |l.log| <= |m.log| && forall i :: 0 <= i < |l.log| && i != id && Some(i) != settlement ==> m.log[i] == l.log[i]
    ensures Honest(q)
  {}

  lemma SettlementsAreNoWithdrawals(p: Payments, token: nat)
    requires Orderly(p) && WithdrawalRef(token, Settle) in p.books.ledger.byReference
    ensures p.books.ledger.byReference[WithdrawalRef(token, Settle)] !in p.withdrawals
  {
    hide Orderly, Sturdy, AllRecorded, Seeded, Solvent, Wellformed, DeliveriesOutside;
    WithdrawalsAreKnown(p);
    OrderlyIsSturdy(p);
  }

  /** A success report is honest iff the withdrawal still stands. */
  lemma SuccessIsHonestIff(p: Payments, token: nat)
    requires Orderly(p) && Honest(p)
    ensures Honest(StepPay(p, Webhook(token, true))) <==> !LateSuccess(p, Webhook(token, true))
  {
    hide Orderly, Reverse, Honest;
    var known := p.books.ledger.byReference;
    if WithdrawalRef(token, Plain) in known && known[WithdrawalRef(token, Plain)] in p.withdrawals {
      WithdrawalsAreKnown(p);
      CompletingIsHonestIff(p, known[WithdrawalRef(token, Plain)]);
    }
  }

  lemma CompletingIsHonestIff(p: Payments, id: nat)
    requires Honest(p) && id in p.withdrawals && id < |p.books.ledger.log|
    ensures Honest(p.(withdrawals := p.withdrawals[id := p.withdrawals[id].(status := TransferCompleted)]))
            <==> p.books.ledger.log[id].status == Completed
  {
    var q := p.(withdrawals := p.withdrawals[id := p.withdrawals[id].(status := TransferCompleted)]);
    assert id in q.withdrawals && q.withdrawals[id].status == TransferCompleted;
  }

  /**
   From a state in which every COMPLETED withdrawal stands, one operation keeps it so iff it is not a success
   report for a withdrawal that was already reversed.
   */
  lemma StepPayIsHonestIff(p: Payments, o: PayOp)
    requires Orderly(p) && Honest(p) && OwedPay(p, o)
    ensures Honest(StepPay(p, o)) <==> !LateSuccess(p, o)
  {
    match o
    case Verify(v) => VerifyIsHonest(p, v);
    case Withdraw(d, x, t, a) => WithdrawIsHonest(p, d, x, t, a);
    case Webhook(t, s) => if s { SuccessIsHonestIff(p, t); } else { FailureIsHonest(p, t); }
    case Other(op) => OtherIsHonest(p, op);
    case Dispute(id) => DisputeIsHonest(p, id);
    case _ => hide Orderly;
  }

  // ---------------------------------------------------------------- over runs

  lemma WebhookStaysMisreported(p: Payments, token: nat, succeeded: bool, id: nat)
    requires Misreported(p, id) && Grows(p.books.ledger, StepPay(p, Webhook(token, succeeded)).books.ledger)
    ensures Misreported(StepPay(p, Webhook(token, succeeded)), id)
  {
    ReverseTwiceFails(p.books, id, SettlementOf(p.books.ledger, token));
    hide Reverse;
  }

  lemma OthersLeaveWithdrawals(p: Payments, o: PayOp)
    requires !o.Withdraw? && !o.Webhook?
    ensures StepPay(p, o).withdrawals == p.withdrawals
  {
    hide Step, CreditTopUp, Credited, Column;
  }

  lemma WithdrawStaysMisreported(p: Payments, q: Payments, id: nat)
    requires Misreported(p, id) && Untouched(p.books.ledger, q.books.ledger)
    requires q.withdrawals == p.withdrawals
             || (|p.books.ledger.log| in q.withdrawals
                 && q.withdrawals == p.withdrawals[|p.books.ledger.log| := q.withdrawals[|p.books.ledger.log|]])
    ensures Misreported(q, id)
  {}

  /** A misreported withdrawal stays so: no report undoes its reversal, and a failure report is refused. */
  lemma StaysMisreported(p: Payments, o: PayOp, id: nat)
    requires Orderly(p) && OwedPay(p, o) && Misreported(p, id)
    ensures Misreported(StepPay(p, o), id)
  {
    StepPayGrows(p, o);
    if o.Webhook? {
      WebhookStaysMisreported(p, o.token, o.succeeded, id);
    } else if o.Withdraw? {
      SettleIsUnused(p, o.token);
      WithdrawIsNext(p, o.driver, o.amount, o.token, o.accepted);
      WithdrawStaysMisreported(p, InitiateWithdrawal(p, o.driver, o.amount, o.token, o.accepted), id);
    } else {
      OthersLeaveWithdrawals(p, o);
    }
    hide Orderly, InitiateWithdrawal, CallerOp, ApplyVerifiedTopUp, ProcessTransferWebhook, Step, FailTopUp, Untouched;
  }

  lemma HonestOrMisreported(p: Payments)
    requires Orderly(p)
    ensures Honest(p) <==> forall id <- p.withdrawals :: !Misreported(p, id)
  {
    hide Orderly;
    WithdrawalsAreKnown(p);
  }

  /**
   Over every run: what is marked COMPLETED at the end really left iff no success report of the run came for a
   withdrawal that was already reversed.
   */
  lemma {:induction false} RunIsHonestIff(p: Payments, os: seq<PayOp>)
    requires Orderly(p) && Honest(p) && OwedPayRun(p, os)
    ensures Honest(RunPay(p, os)) <==> !SomeLateSuccess(p, os)
    decreases |os|
  {
    hide Orderly, Honest, StepPay, OwedPay, Gap, PaySlip, LateSuccess, Misreported;
    if os != [] {
      var before, last := RunPay(p, os[..|os| - 1]), os[|os| - 1];
      RunIsHonestIff(p, os[..|os| - 1]);
      RunMovesGap(p, os[..|os| - 1]);
      if SomeLateSuccess(p, os[..|os| - 1]) {
        HonestOrMisreported(before);
        var id :| id in before.withdrawals && Misreported(before, id);
        StaysMisreported(before, last, id);
        StepPayMovesGap(before, last);
        HonestOrMisreported(RunPay(p, os));
        MisreportedIsKnown(RunPay(p, os), id);
      } else {
        StepPayIsHonestIff(before, last);
      }
    }
  }

  lemma MisreportedIsKnown(p: Payments, id: nat)
    requires Misreported(p, id)
    ensures id in p.withdrawals
  {}
}
