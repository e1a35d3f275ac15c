/**
 What half a kobo does to the payment protocols: they keep the books valid, and clearing what it stands for,
 exactly until a withdrawal of half a kobo that the wallet covers, and nothing later repairs it. Revenue is
 never negative throughout.
 */
module HalfWithdrawals {
  import opened Option
  import opened Money
  import opened Ledger
  import opened WalletSpec
  import opened Transfers
  import opened PaymentsSpec
  import opened TopUps
  import opened Clearing
  import opened Revenue
  import opened Withdrawals
  import opened Drift
  import opened HalfKobo

  /** The wallet covers a withdrawal of half a kobo. */
  predicate PaysHalf(p: Payments, o: PayOp) {
    o.Withdraw? && CoveredHalf(p.books.ledger, o.driver, o.amount)
  }

  predicate SomePaysHalf(p: Payments, os: seq<PayOp>)
    decreases |os|
  {
    os != [] && (SomePaysHalf(p, os[..|os| - 1]) || PaysHalf(RunPay(p, os[..|os| - 1]), os[|os| - 1]))
  }

  // ---------------------------------------------------------------- an overstated balance stays so

  lemma OpeningKeepsOverstated(b: Books, driver: nat)
    requires Overstated(b.ledger)
    ensures Overstated(OpenPayable(b, driver).ledger)
  {
    var a: Account :| a.Owned? && DriftOf(b.ledger, a) > 0;
    OpeningDrifts(b.ledger, Payable(driver), a);
    hide Steady, DriftOf, OpenAccount;
  }

  lemma CreditKeepsOverstated(b: Books, drives: bool, user: nat, kobo: nat, token: nat)
    requires Overstated(b.ledger)
    ensures Overstated(CreditTopUp(b, drives, user, kobo, token).0.ledger)
  {
    hide Overstated, Step, Whole;
    var ready := if drives then OpenPayable(b, user) else b;
    OpeningKeepsOverstated(b, user);
    WholeShare(Owed(ready, user), kobo);
    if drives && Owed(ready, user) > 0 {
      var settle := Min(Owed(ready, user) as real, kobo as real);
      var first := SettleCommission(user, settle, TopUpRef(token, Settle));
      StepKeepsOverstated(ready, first);
      if kobo as real - settle > 0.0 {
        StepKeepsOverstated(Step(ready, first).0, TopUp(user, kobo as real - settle, TopUpRef(token, CreditPart)));
      }
    } else {
      StepKeepsOverstated(ready, TopUp(user, kobo as real, TopUpRef(token, Plain)));
    }
  }

  lemma ReverseKeepsOverstated(b: Books, id: nat, settlement: Option<nat>)
    requires Overstated(b.ledger)
    ensures Overstated(Reverse(b, id, settlement).0.ledger)
  {
    hide Overstated, Step;
    StepKeepsOverstated(b, RefundTransaction(id));
    if settlement.Some? {
      StepKeepsOverstated(Step(b, RefundTransaction(id)).0, RefundTransaction(settlement.value));
    }
  }

  /** Whatever a withdrawal does after its debit keeps what the debit left overstated. */
  lemma AfterDebitOverstated(p: Payments, driver: nat, x: real, token: nat, accepted: bool)
    requires x >= 0.0
    requires Overstated(Step(OpenPayable(p.books, driver), RequestWithdrawal(driver, x, WithdrawalRef(token, Plain))).0.ledger)
    ensures Overstated(InitiateWithdrawal(p, driver, x, token, accepted).books.ledger)
  {
    hide Overstated, Step, Reverse, Column, ToKobo, Owed;
    var ready := OpenPayable(p.books, driver);
    var debited := Step(ready, RequestWithdrawal(driver, x, WithdrawalRef(token, Plain))).0;
    var settle := Min(Owed(ready, driver) as real, x);
    var (reserved, withdrawal, settlement) := Reserve(p.books, driver, x, token);
    if settle > 0.0 {
      StepKeepsOverstated(debited, SettleCommission(driver, settle, WithdrawalRef(token, Settle)));
    }
    assert Overstated(reserved.ledger);
    if withdrawal.Ok? && settlement.Ok? {
      ReverseKeepsOverstated(reserved, withdrawal.value, Some(settlement.value));
      ReverseKeepsOverstated(reserved, withdrawal.value, None);
    }
    hide Reserve, OpenPayable;
  }

  lemma StepPayKeepsOverstated(p: Payments, o: PayOp)
    requires Overstated(p.books.ledger) && OwedPay(p, o)
    ensures Overstated(StepPay(p, o).books.ledger)
  {
    hide Overstated, Step, CreditTopUp, Reverse, InitiateWithdrawal;
    match o
    case Verify(v) =>
      if v.user.Some? && v.user.value in p.drives {
        CreditKeepsOverstated(p.books, p.drives[v.user.value], v.user.value, v.kobo, v.token);
      }
    case Withdraw(d, x, t, a) =>
      OpeningKeepsOverstated(p.books, d);
      StepKeepsOverstated(OpenPayable(p.books, d), RequestWithdrawal(d, x, WithdrawalRef(t, Plain)));
      AfterDebitOverstated(p, d, x, t, a);
    case Webhook(t, s) =>
      var known := p.books.ledger.byReference;
      if WithdrawalRef(t, Plain) in known {
        ReverseKeepsOverstated(p.books, known[WithdrawalRef(t, Plain)],
                               if WithdrawalRef(t, Settle) in known then Some(known[WithdrawalRef(t, Settle)]) else None);
      }
    case Other(op) => StepKeepsOverstated(p.books, op);
    case Dispute(id) => StepKeepsOverstated(p.books, RefundTransaction(id));
    case _ =>
  }

  // ---------------------------------------------------------------- revenue, whatever the amounts

  lemma OpeningKeepsFirm(b: Books, driver: nat)
    requires Firm(b.ledger)
    ensures Firm(OpenPayable(b, driver).ledger)
  {
    OpenAccountKeepsSturdy(b.ledger, Payable(driver));
    hide Sturdy, Standing, History, EntrySum;
  }

  /** What a pass or a withdrawal settles is owed, and so are the refunds of either. */
  lemma SettlementIsOwed(l: Ledger, user: nat, amount: real, reference: Reference)
    requires amount >= 0.0 && !reference.subject.RefundOf?
    ensures OwedOp(l, SettleCommission(user, amount, reference)) && OwedOp(l, RequestWithdrawal(user, amount, reference))
    ensures Whole(amount) ==> OwedOp(l, TopUp(user, amount, reference))
  {}

  lemma CreditKeepsFirm(b: Books, drives: bool, user: nat, kobo: nat, token: nat)
    requires Firm(b.ledger)
    ensures Firm(CreditTopUp(b, drives, user, kobo, token).0.ledger)
  {
    hide Firm, Step, OwedOp, Whole;
    var ready := if drives then OpenPayable(b, user) else b;
    OpeningKeepsFirm(b, user);
    WholeShare(Owed(ready, user), kobo);
    if drives && Owed(ready, user) > 0 {
      var settle := Min(Owed(ready, user) as real, kobo as real);
      SettlementIsOwed(ready.ledger, user, settle, TopUpRef(token, Settle));
      StepKeepsFirm(ready, SettleCommission(user, settle, TopUpRef(token, Settle)));
      var settled := Step(ready, SettleCommission(user, settle, TopUpRef(token, Settle))).0;
      if kobo as real - settle > 0.0 {
        SettlementIsOwed(settled.ledger, user, kobo as real - settle, TopUpRef(token, CreditPart));
        StepKeepsFirm(settled, TopUp(user, kobo as real - settle, TopUpRef(token, CreditPart)));
      }
    } else {
      SettlementIsOwed(ready.ledger, user, kobo as real, TopUpRef(token, Plain));
      StepKeepsFirm(ready, TopUp(user, kobo as real, TopUpRef(token, Plain)));
    }
  }

  lemma ReserveKeepsFirm(b: Books, driver: nat, x: real, token: nat)
    requires Firm(b.ledger) && x >= 0.0
    ensures Firm(Reserve(b, driver, x, token).0.ledger)
  {
    hide Firm, Step, OwedOp;
    var ready := OpenPayable(b, driver);
    OpeningKeepsFirm(b, driver);
    var settle := Min(Owed(ready, driver) as real, x);
    SettlementIsOwed(ready.ledger, driver, x, WithdrawalRef(token, Plain));
    StepKeepsFirm(ready, RequestWithdrawal(driver, x, WithdrawalRef(token, Plain)));
    var debited := Step(ready, RequestWithdrawal(driver, x, WithdrawalRef(token, Plain))).0;
    if settle > 0.0 {
      SettlementIsOwed(debited.ledger, driver, settle, WithdrawalRef(token, Settle));
      StepKeepsFirm(debited, SettleCommission(driver, settle, WithdrawalRef(token, Settle)));
    }
  }

  lemma ReverseKeepsFirm(b: Books, id: nat, settlement: Option<nat>)
    requires Firm(b.ledger) && Refundable(b.ledger, id)
    requires settlement.Some? ==> Refundable(b.ledger, settlement.value)
    ensures Firm(Reverse(b, id, settlement).0.ledger)
  {
    hide Firm, Step, Grows;
    StepGrows(b, RefundTransaction(id));
    StepKeepsFirm(b, RefundTransaction(id));
    if settlement.Some? {
      var restored := Step(b, RefundTransaction(id)).0;
      RefundableStays(b.ledger, restored.ledger, settlement.value);
      StepKeepsFirm(restored, RefundTransaction(settlement.value));
    }
  }

  lemma FirmNamesRefundable(l: Ledger, r: Reference)
    requires Firm(l) && r in l.byReference && !r.subject.RefundOf?
    ensures Refundable(l, l.byReference[r])
  {
    NamedIsRefundable(l, r);
    hide Solvent, Wellformed, Reversals, History, EntrySum;
  }

  /** A withdrawal and its settlement, as reserved, may both be reversed. */
  lemma ReservedRefundable(b: Books, driver: nat, x: real, token: nat)
    requires Firm(b.ledger) && x >= 0.0
    ensures var (reserved, withdrawal, settlement) := Reserve(b, driver, x, token);
            withdrawal.Ok? && settlement.Ok? ==>
              Firm(reserved.ledger) && Refundable(reserved.ledger, withdrawal.value) && Refundable(reserved.ledger, settlement.value)
  {
    hide Step, Grows, Refundable, Firm;
    var (reserved, withdrawal, settlement) := Reserve(b, driver, x, token);
    ReserveKeepsFirm(b, driver, x, token);
    if withdrawal.Ok? && settlement.Ok? {
      var ready := OpenPayable(b, driver);
      var settle := Min(Owed(ready, driver) as real, x);
      var first := RequestWithdrawal(driver, x, WithdrawalRef(token, Plain));
      var debited := Step(ready, first).0;
      OkIsNamed(ready, first);
      if settle > 0.0 {
        var second := SettleCommission(driver, settle, WithdrawalRef(token, Settle));
        OkIsNamed(debited, second);
        StepGrows(debited, second);
        GrowsKeepsName(debited.ledger, reserved.ledger, WithdrawalRef(token, Plain));
        FirmNamesRefundable(reserved.ledger, WithdrawalRef(token, Settle));
      }
      FirmNamesRefundable(reserved.ledger, WithdrawalRef(token, Plain));
    }
  }

  lemma GrowsKeepsName(l: Ledger, m: Ledger, r: Reference)
    requires Grows(l, m) && r in l.byReference
    ensures r in m.byReference && m.byReference[r] == l.byReference[r]
  {}

  lemma WithdrawKeepsFirm(p: Payments, driver: nat, x: real, token: nat, accepted: bool)
    requires Firm(p.books.ledger) && x >= 0.0
    ensures Firm(InitiateWithdrawal(p, driver, x, token, accepted).books.ledger)
  {
    hide Firm, Reserve, Reverse, Refundable, Column, ToKobo, Owed, OpenPayable;
    ReserveKeepsFirm(p.books, driver, x, token);
    ReservedRefundable(p.books, driver, x, token);
    var (reserved, withdrawal, settlement) := Reserve(p.books, driver, x, token);
    if withdrawal.Ok? && settlement.Ok? {
      ReverseKeepsFirm(reserved, withdrawal.value, Some(settlement.value));
      ReverseKeepsFirm(reserved, withdrawal.value, None);
    }
  }

  lemma WebhookKeepsFirm(p: Payments, token: nat, succeeded: bool)
    requires Firm(p.books.ledger)
    ensures Firm(ProcessTransferWebhook(p, token, succeeded).books.ledger)
  {
    hide Reverse, Refundable, Firm;
    var l := p.books.ledger;
    if WithdrawalRef(token, Plain) in l.byReference {
      FirmNamesRefundable(l, WithdrawalRef(token, Plain));
      var id := l.byReference[WithdrawalRef(token, Plain)];
      if WithdrawalRef(token, Settle) in l.byReference {
        FirmNamesRefundable(l, WithdrawalRef(token, Settle));
        ReverseKeepsFirm(p.books, id, Some(l.byReference[WithdrawalRef(token, Settle)]));
      } else {
        ReverseKeepsFirm(p.books, id, None);
      }
    }
  }

  lemma DisputeIsOwed(l: Ledger, id: nat)
    requires RevenueStands(l) && (id < |l.log| ==> l.log[id].kind == DeliveryPaymentWallet)
    ensures OwedOp(l, RefundTransaction(id))
  {}

  /** Revenue stays accounted for, so it is never negative, whatever the amounts. */
  lemma StepPayKeepsFirm(p: Payments, o: PayOp)
    requires Firm(p.books.ledger) && OwedPay(p, o)
    ensures Firm(StepPay(p, o).books.ledger)
  {
    hide Firm, Step, Clean, CleanSplit, CreditTopUp, InitiateWithdrawal, ProcessTransferWebhook;
    match o
    case Verify(v) =>
      if v.user.Some? && v.user.value in p.drives {
        CreditKeepsFirm(p.books, p.drives[v.user.value], v.user.value, v.kobo, v.token);
      }
    case Withdraw(d, x, t, a) => WithdrawKeepsFirm(p, d, x, t, a);
    case Webhook(t, s) => WebhookKeepsFirm(p, t, s);
    case Other(op) => StepKeepsFirm(p.books, op);
    case Dispute(id) =>
      FirmStands(p.books.ledger);
      DisputeIsOwed(p.books.ledger, id);
      StepKeepsFirm(p.books, RefundTransaction(id));
    case _ =>
  }

  lemma FirmStands(l: Ledger)
    requires Firm(l)
    ensures RevenueStands(l) && Sturdy(l) && (REVENUE in l.balances ==> l.balances[REVENUE] >= 0)
  {
    RevenueIsNotNegative(l);
    hide Sturdy, Standing, History, EntrySum;
  }

  /** Over every run whose callers owe their prices, platform revenue is never negative. */
  lemma {:induction false} RevenueNeverNegative(p: Payments, os: seq<PayOp>)
    requires Firm(p.books.ledger) && OwedPayRun(p, os)
    ensures Firm(RunPay(p, os).books.ledger)
    ensures var b := RunPay(p, os).books.ledger.balances; REVENUE in b ==> b[REVENUE] >= 0
    decreases |os|
  {
    hide Firm, StepPay, OwedPay;
    if os != [] {
      RevenueNeverNegative(p, os[..|os| - 1]);
      StepPayKeepsFirm(RunPay(p, os[..|os| - 1]), os[|os| - 1]);
    }
    FirmStands(RunPay(p, os).books.ledger);
  }

  // ---------------------------------------------------------------- when the books stay valid

  lemma RefundOpKeepsValid(b: Books, id: nat)
    requires Valid(b.ledger)
    ensures Valid(Step(b, RefundTransaction(id)).0.ledger)
  {
    hide Valid, Refund;
    RefundKeepsValid(b.ledger, id);
  }

  lemma ReverseKeepsValid(b: Books, id: nat, settlement: Option<nat>)
    requires Valid(b.ledger)
    ensures Valid(Reverse(b, id, settlement).0.ledger)
  {
    hide Valid, Step;
    RefundOpKeepsValid(b, id);
    if settlement.Some? {
      RefundOpKeepsValid(Step(b, RefundTransaction(id)).0, settlement.value);
    }
  }

  /** A reservation of anything but a covered half kobo posts no half kobo. */
  lemma ReserveKeepsValid(b: Books, driver: nat, x: real, token: nat)
    requires Valid(b.ledger) && x >= 0.0 && WithdrawalRef(token, Plain) !in b.ledger.byReference
    requires !CoveredHalf(b.ledger, driver, x)
    ensures Valid(Reserve(b, driver, x, token).0.ledger)
  {
    hide Valid, Step, Half, Available;
    var ready := OpenPayable(b, driver);
    var settle := Min(Owed(ready, driver) as real, x);
    var first := RequestWithdrawal(driver, x, WithdrawalRef(token, Plain));
    OpenAccountKeepsValid(b.ledger, Payable(driver));
    AvailableStays(b, driver);
    if Half(x) {
      UncoveredWithdrawal(ready, driver, x, WithdrawalRef(token, Plain));
    }
    StepKeepsValidIff(ready, first);
    ShareIsNotHalf(Owed(ready, driver), x);
    if settle > 0.0 && Step(ready, first).1.Ok? {
      StepKeepsValidIff(Step(ready, first).0, SettleCommission(driver, settle, WithdrawalRef(token, Settle)));
    }
    hide OpenAccount;
  }

  lemma ShareIsNotHalf(owed: int, x: real)
    ensures Half(Min(owed as real, x)) ==> Half(x)
  {
    ColumnOfWhole(owed);
    ColumnOfWhole(-owed);
    HalfOdd(owed as real);
    if owed < 0 {
      assert !Half(owed as real) by { WholeInt(owed); }
    }
  }

  lemma WholeInt(n: int)
    ensures !Half(n as real)
  {}

  lemma AvailableStays(b: Books, driver: nat)
    ensures Available(OpenPayable(b, driver).ledger, driver) == Available(b.ledger, driver)
    ensures OpenPayable(b, driver).ledger.byReference == b.ledger.byReference
  {}

  lemma WithdrawKeepsValid(p: Payments, driver: nat, x: real, token: nat, accepted: bool)
    requires Valid(p.books.ledger) && x >= 0.0 && WithdrawalRef(token, Plain) !in p.books.ledger.byReference
    requires !CoveredHalf(p.books.ledger, driver, x)
    ensures Valid(InitiateWithdrawal(p, driver, x, token, accepted).books.ledger)
  {
    hide Valid, Reserve, Reverse, Column, ToKobo, Owed, OpenPayable, CoveredHalf;
    ReserveKeepsValid(p.books, driver, x, token);
    var (reserved, withdrawal, settlement) := Reserve(p.books, driver, x, token);
    if withdrawal.Ok? && settlement.Ok? {
      ReverseKeepsValid(reserved, withdrawal.value, Some(settlement.value));
      ReverseKeepsValid(reserved, withdrawal.value, None);
    }
  }

  /** A covered half-kobo withdrawal leaves the driver's wallet overstated, whatever the gateway answers. */
  lemma PaysHalfOverstates(p: Payments, driver: nat, x: real, token: nat, accepted: bool)
    requires Valid(p.books.ledger) && Seeded(p.books.ledger) && WithdrawalRef(token, Plain) !in p.books.ledger.byReference
    requires x >= 0.0 && CoveredHalf(p.books.ledger, driver, x)
    ensures Overstated(InitiateWithdrawal(p, driver, x, token, accepted).books.ledger)
  {
    hide Valid, Half, Available, Posts, Step, InitiateWithdrawal;
    var ready := OpenPayable(p.books, driver);
    var op := RequestWithdrawal(driver, x, WithdrawalRef(token, Plain));
    OpenAccountKeepsValid(p.books.ledger, Payable(driver));
    AvailableStays(p.books, driver);
    WithdrawPosts(ready, driver, x, WithdrawalRef(token, Plain));
    TransferStepShape(ready, op, x, Owned(driver, DriverWallet), CLEARING);
    assert CommitsHalf(ready, op);
    HalfOverstates(ready, op);
    AfterDebitOverstated(p, driver, x, token, accepted);
    hide OpenAccount, IsTransfer, AfterTransfer, Overstated, PlanOf;
  }

  lemma StepPayKeepsValid(p: Payments, o: PayOp)
    requires Valid(p.books.ledger) && OwedPay(p, o) && !PaysHalf(p, o)
    requires REVENUE in p.books.ledger.balances ==> p.books.ledger.balances[REVENUE] >= 0
    ensures Valid(StepPay(p, o).books.ledger)
  {
    hide Valid, Step, Clean, CleanSplit, CreditTopUp, InitiateWithdrawal, CoveredHalf, Reverse;
    match o
    case Verify(v) =>
      if v.user.Some? && v.user.value in p.drives {
        CreditKeepsValid(p.books, p.drives[v.user.value], v.user.value, v.kobo, v.token);
      }
    case Withdraw(d, x, t, a) => WithdrawKeepsValid(p, d, x, t, a);
    case Webhook(t, s) =>
      var known := p.books.ledger.byReference;
      if WithdrawalRef(t, Plain) in known {
        ReverseKeepsValid(p.books, known[WithdrawalRef(t, Plain)],
                          if WithdrawalRef(t, Settle) in known then Some(known[WithdrawalRef(t, Settle)]) else None);
      }
    case Other(op) => StepKeepsValidIff(p.books, op);
    case Dispute(id) => RefundOpKeepsValid(p.books, id);
    case _ =>
  }

  // ---------------------------------------------------------------- when everything stays sound

  /** A withdrawal keeps the books sound iff it is not half a kobo that the wallet covers. */
  lemma WithdrawKeepsSoundIff(p: Payments, driver: nat, x: real, token: nat, accepted: bool)
    requires Sound(p) && x >= 0.0 && WithdrawalRef(token, Plain) !in p.books.ledger.byReference
    ensures Sound(InitiateWithdrawal(p, driver, x, token, accepted)) <==> !CoveredHalf(p.books.ledger, driver, x)
  {
    OrderlyIsSturdy(p);
    WithdrawMovesGap(p, driver, x, token, accepted);
    if CoveredHalf(p.books.ledger, driver, x) {
      PaysHalfOverstates(p, driver, x, token, accepted);
      OverstatedIsNotValid(InitiateWithdrawal(p, driver, x, token, accepted).books.ledger);
    } else {
      WithdrawKeepsValid(p, driver, x, token, accepted);
    }
    hide Valid, Orderly, Gap, CoveredHalf, Overstated, InitiateWithdrawal;
  }

  /** One operation of any kind, with platform revenue accounted for. */
  lemma StepPayKeepsSoundIff(p: Payments, o: PayOp)
    requires Sound(p) && RevenueStands(p.books.ledger) && OwedPay(p, o)
    ensures Sound(StepPay(p, o)) <==> !PaysHalf(p, o)
    ensures PaysHalf(p, o) ==> Overstated(StepPay(p, o).books.ledger)
    ensures RevenueStands(StepPay(p, o).books.ledger)
  {
    hide Valid, Orderly, Gap, RevenueStands, Overstated, CoveredHalf, InitiateWithdrawal, OwedPay, StepPay;
    SoundIsFirm(p);
    OrderlyIsSturdy(p);
    StepPayKeepsFirm(p, o);
    FirmStands(p.books.ledger);
    FirmStands(StepPay(p, o).books.ledger);
    StepPayMovesGap(p, o);
    if PaysHalf(p, o) {
      HalfIsAWithdrawal(p, o);
      PaysHalfOverstates(p, o.driver, o.amount, o.token, o.accepted);
      OverstatedIsNotValid(StepPay(p, o).books.ledger);
    } else {
      StepPayKeepsValid(p, o);
    }
  }

  lemma SoundIsFirm(p: Payments)
    requires Sound(p) && RevenueStands(p.books.ledger)
    ensures Firm(p.books.ledger)
  {
    KeptIsFirm(p.books.ledger);
    hide Valid, Orderly, RevenueStands;
  }

  lemma HalfIsAWithdrawal(p: Payments, o: PayOp)
    requires PaysHalf(p, o) && OwedPay(p, o)
    ensures StepPay(p, o) == InitiateWithdrawal(p, o.driver, o.amount, o.token, o.accepted)
    ensures o.amount >= 0.0 && WithdrawalRef(o.token, Plain) !in p.books.ledger.byReference
  {
    hide InitiateWithdrawal;
  }

  /**
   Over every run whose callers owe their prices: everything the clearing account stands for holds at the end
   iff no withdrawal of the run was half a kobo that the wallet covered. Otherwise some user's balance
   exceeds its entries for good.
   */
  lemma {:induction false} RunKeepsClearingIff(p: Payments, os: seq<PayOp>)
    requires Sound(p) && RevenueStands(p.books.ledger) && OwedPayRun(p, os)
    ensures Sound(RunPay(p, os)) <==> !SomePaysHalf(p, os)
    ensures SomePaysHalf(p, os) ==> Overstated(RunPay(p, os).books.ledger)
    ensures !SomePaysHalf(p, os) ==> RevenueStands(RunPay(p, os).books.ledger)
    decreases |os|
  {
    hide Sound, RevenueStands, StepPay, PaysHalf, OwedPay, Overstated;
    if os != [] {
      var before, last := RunPay(p, os[..|os| - 1]), os[|os| - 1];
      RunKeepsClearingIff(p, os[..|os| - 1]);
      if SomePaysHalf(p, os[..|os| - 1]) {
        StepPayKeepsOverstated(before, last);
        OverstatedIsNotSound(RunPay(p, os));
      } else {
        StepPayKeepsSoundIff(before, last);
      }
    }
  }

  lemma OverstatedIsNotSound(p: Payments)
    requires Overstated(p.books.ledger)
    ensures !Sound(p)
  {
    OverstatedIsNotValid(p.books.ledger);
    hide Valid, Overstated;
  }

  /** In particular from freshly seeded books. */
  lemma SeededRunKeepsClearingIff(drives: map<nat, bool>, os: seq<PayOp>)
    requires OwedPayRun(SeededPayments(drives), os)
    ensures Sound(RunPay(SeededPayments(drives), os)) <==> !SomePaysHalf(SeededPayments(drives), os)
  {
    SeededBooksAreSound(drives);
    assert RevenueStands(SeededPayments(drives).books.ledger);
    RunKeepsClearingIff(SeededPayments(drives), os);
    hide Sound, OwedPayRun, RunPay, SomePaysHalf;
  }
}
