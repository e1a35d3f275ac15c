/**
 What a withdrawal and the reports about its transfer do, stated by the driver's balance and debt: what is
 debited, settled, sent and put on record, and that a transfer that was not taken moves everything back.
 */
module WithdrawalOutcomes {
  import opened Option
  import opened Money
  import opened Ledger
  import opened WalletSpec
  import opened Movements
  import opened Transfers
  import opened PaymentsSpec
  import opened TopUps
  import opened Drift
  import opened Clearing
  import opened Withdrawals
  import opened WalletOutcomes

  /** The amount leaves the wallet for clearing, and what is settled leaves the debt for revenue. */
  function WithdrawalGains(driver: nat, amount: int, settled: int): map<Account, int> {
    map[Owned(driver, DriverWallet) := -amount, Platform(PlatformGatewayClearing) := amount,
        Owned(driver, DriverCommissionPayable) := -settled, Platform(PlatformRevenue) := settled]
  }

  function GainOf(gains: map<Account, int>, a: Account): int {
    if a in gains then gains[a] else 0
  }

  // ---------------------------------------------------------------- what moves

  lemma StepMoves(b: Books, op: Op, a: Account)
    requires AsAsked(op) && !Half(op.amount) && ProperReference(op)
    requires Sturdy(b.ledger) && op.reference !in b.ledger.byReference && Step(b, op).1.Ok?
    ensures BalanceOf(Step(b, op).0.ledger.balances, a) == BalanceOf(b.ledger.balances, a) + Change(op, a)
  {
    FirstPostMoves(b, op, a);
    hide Step, Change, BalanceOf, Half;
  }

  lemma DebitMoves(b: Books, driver: nat, x: real, token: nat, a: Account)
    requires Reservable(b, driver, x, token) && !Half(x)
    ensures var after := Step(b, RequestWithdrawal(driver, x, WithdrawalRef(token, Plain))).0;
            BalanceOf(after.ledger.balances, a) == BalanceOf(b.ledger.balances, a) + Moves(a, Owned(driver, DriverWallet), CLEARING, x)
  {
    hide Sturdy, Seeded, DeliveriesOutside, Step, Position, Adds, Column, Slip, Available, Half, BalanceOf;
    DebitedWithdrawal(b, driver, x, token);
    StepMoves(b, RequestWithdrawal(driver, x, WithdrawalRef(token, Plain)), a);
  }

  lemma SettlementMoves(b: Books, driver: nat, settle: real, token: nat, a: Account)
    requires Sturdy(b.ledger) && Seeded(b.ledger) && DeliveriesOutside(b.ledger)
    requires WithdrawalRef(token, Settle) !in b.ledger.byReference && !Half(settle)
    requires Payable(driver) in b.ledger.balances && 0.0 <= settle <= Owed(b, driver) as real
    ensures var after := Step(b, SettleCommission(driver, settle, WithdrawalRef(token, Settle))).0;
            BalanceOf(after.ledger.balances, a) == BalanceOf(b.ledger.balances, a) + Moves(a, Payable(driver), REVENUE, settle)
  {
    hide Sturdy, Seeded, DeliveriesOutside, Step, Position, Adds, Column, Slip, Available, Half, BalanceOf;
    SettledWithdrawal(b, driver, settle, token);
    StepMoves(b, SettleCommission(driver, settle, WithdrawalRef(token, Settle)), a);
  }

  lemma BothMove(driver: nat, x: real, settle: real, a: Account)
    ensures GainOf(WithdrawalGains(driver, Column(x), Column(settle)), a)
         == Moves(a, Owned(driver, DriverWallet), CLEARING, x) + Moves(a, Payable(driver), REVENUE, settle)
    ensures settle == 0.0 ==> Moves(a, Payable(driver), REVENUE, settle) == 0
  {
    ColumnOfWhole(0);
    hide Column;
  }

  lemma ReserveMoves(b: Books, driver: nat, x: real, token: nat, a: Account)
    requires Reservable(b, driver, x, token) && Payable(driver) in b.ledger.balances && Owed(b, driver) >= 0 && !Half(x)
    ensures BalanceOf(Reserve(b, driver, x, token).0.ledger.balances, a) == BalanceOf(b.ledger.balances, a)
         + GainOf(WithdrawalGains(driver, Column(x), Column(Deducted(b, driver, x))), a)
  {
    var settle := Deducted(b, driver, x);
    Deduction(Owed(b, driver), x);
    hide Sturdy, Seeded, DeliveriesOutside, Step, Position, Adds, Column, Slip, Available, Half, Reserve, BalanceOf, Moves, GainOf, WithdrawalGains;
    ReserveUnfolds(b, driver, x, token);
    BothMove(driver, x, settle, a);
    DebitedWithdrawal(b, driver, x, token);
    DebitMoves(b, driver, x, token, a);
    if settle > 0.0 {
      var b1 := Step(b, RequestWithdrawal(driver, x, WithdrawalRef(token, Plain))).0;
      SeparatePayable(b.ledger, b1.ledger, WithdrawalRef(token, Plain), driver);
      SettlementMoves(b1, driver, settle, token, a);
    }
  }

  // ---------------------------------------------------------------- what a withdrawal leaves

  /** The row: the amount as stored, and all of the debt settled that the amount covers. */
  ghost predicate RowIs(w: Withdrawal, driver: nat, x: real, debt: int, status: TransferStatus) {
    && w.driver == driver && IsNearest(w.amount, x) && w.status == status
    && (x <= debt as real ==> w.settled == w.amount) && (x >= debt as real ==> w.settled == debt)
  }

  lemma RowOfIs(b: Books, driver: nat, x: real)
    requires Owed(b, driver) >= 0
    ensures RowIs(RowOf(b, driver, x), driver, x, Owed(b, driver), if x > Owed(b, driver) as real then TransferPending else TransferCompleted)
  {
    ColumnIsTheNearest(x);
    ColumnOfWhole(Owed(b, driver));
    hide Column, IsNearest;
  }

  /** The debt account is opened before anything else. */
  lemma ReadyFirst(p: Payments, driver: nat, x: real, token: nat, accepted: bool)
    requires Orderly(p)
    ensures var q := p.(books := OpenPayable(p.books, driver));
            && InitiateWithdrawal(q, driver, x, token, accepted) == InitiateWithdrawal(p, driver, x, token, accepted)
            && Orderly(q) && Payable(driver) in q.books.ledger.balances && Owed(q.books, driver) == Owed(p.books, driver)
            && q.books.ledger.log == p.books.ledger.log && q.books.ledger.byReference == p.books.ledger.byReference
            && Available(q.books.ledger, driver) == Available(p.books.ledger, driver)
            && Moved(p.books.ledger, q.books.ledger, map[])
  {
    OpeningKeepsOrderly(p, driver);
    OpeningFirst(p, driver, x, token, accepted);
    hide Orderly, InitiateWithdrawal;
  }

  lemma MovedThrough(k: Ledger, l: Ledger, m: Ledger, gains: map<Account, int>)
    requires Moved(k, l, map[]) && Moved(l, m, gains)
    ensures Moved(k, m, gains)
  {
    hide BalanceOf;
  }

  /** A withdrawal the wallet does not cover posts nothing and leaves no row. */
  lemma UncoveredIsRefused(p: Payments, driver: nat, x: real, token: nat, accepted: bool)
    requires Orderly(p) && WithdrawalRef(token, Plain) !in p.books.ledger.byReference
    requires x > BalanceOf(p.books.ledger.balances, Owned(driver, DriverWallet)) as real
    ensures var q := InitiateWithdrawal(p, driver, x, token, accepted);
            q == p.(books := q.books) && q.books.ledger.log == p.books.ledger.log && Moved(p.books.ledger, q.books.ledger, map[])
  {
    var ready := p.(books := OpenPayable(p.books, driver));
    ReadyFirst(p, driver, x, token, accepted);
    RefusedIs(ready, driver, x, token, accepted);
    MovedThrough(p.books.ledger, ready.books.ledger, InitiateWithdrawal(ready, driver, x, token, accepted).books.ledger, map[]);
    hide Orderly, InitiateWithdrawal, Moved;
  }

  lemma RefusedIs(p: Payments, driver: nat, x: real, token: nat, accepted: bool)
    requires Payable(driver) in p.books.ledger.balances && WithdrawalRef(token, Plain) !in p.books.ledger.byReference
    requires x > Available(p.books.ledger, driver) as real
    ensures var q := InitiateWithdrawal(p, driver, x, token, accepted);
            q == p.(books := q.books) && q.books.ledger.log == p.books.ledger.log && Moved(p.books.ledger, q.books.ledger, map[])
  {
    var op := RequestWithdrawal(driver, x, WithdrawalRef(token, Plain));
    UncoveredWithdrawal(p.books, driver, x, WithdrawalRef(token, Plain));
    RefusedOpens(p.books, op);
    OpenAllMovesNothing(p.books.ledger, PlanOf(op).opens);
    ReserveUnfolds(p.books, driver, x, token);
    assert OpenPayable(p.books, driver) == p.books;
    hide Step, Reverse, Reserve, Column, ToKobo, OpenAll, PlanOf, GroupSum;
  }

  /**
   A withdrawal the wallet covers, whose transfer is accepted or not needed: one row, PENDING unless the debt takes it
   all; the gateway is told to send what is not settled; and the money moves so, unless it is half a kobo out.
   */
  lemma CoveredIsSent(p: Payments, driver: nat, x: real, token: nat, accepted: bool)
    requires Orderly(p) && WithdrawalRef(token, Plain) !in p.books.ledger.byReference
    requires 0.0 <= x <= BalanceOf(p.books.ledger.balances, Owned(driver, DriverWallet)) as real
    requires accepted || x <= BalanceOf(p.books.ledger.balances, Owned(driver, DriverCommissionPayable)) as real
    ensures var debt := BalanceOf(p.books.ledger.balances, Owned(driver, DriverCommissionPayable));
            var q := InitiateWithdrawal(p, driver, x, token, accepted);
            var id := |p.books.ledger.log|;
            && id in q.withdrawals
            && RowIs(q.withdrawals[id], driver, x, debt, if x > debt as real then TransferPending else TransferCompleted)
            && q == p.(books := q.books, withdrawals := p.withdrawals[id := q.withdrawals[id]],
                       flows := p.flows.(sent := p.flows.sent + q.withdrawals[id].amount - q.withdrawals[id].settled))
            && (!Half(x) ==> Moved(p.books.ledger, q.books.ledger, WithdrawalGains(driver, q.withdrawals[id].amount, q.withdrawals[id].settled)))
  {
    var ready := p.(books := OpenPayable(p.books, driver));
    ReadyFirst(p, driver, x, token, accepted);
    SentIs(ready, driver, x, token, accepted);
    if !Half(x) {
      var w := RowOf(ready.books, driver, x);
      MovedThrough(p.books.ledger, ready.books.ledger, InitiateWithdrawal(ready, driver, x, token, accepted).books.ledger,
                   WithdrawalGains(driver, w.amount, w.settled));
    }
    RowOfIs(ready.books, driver, x);
    hide Orderly, InitiateWithdrawal, Moved, RowIs, WithdrawalGains, Column, Half, OpenPayable;
  }

  lemma SentIs(p: Payments, driver: nat, x: real, token: nat, accepted: bool)
    requires Orderly(p) && WithdrawalRef(token, Plain) !in p.books.ledger.byReference && Payable(driver) in p.books.ledger.balances
    requires 0.0 <= x <= Available(p.books.ledger, driver) as real && (accepted || x <= Owed(p.books, driver) as real)
    ensures var w := RowOf(p.books, driver, x);
            var q := InitiateWithdrawal(p, driver, x, token, accepted);
            && Owed(p.books, driver) >= 0
            && q == p.(books := q.books, withdrawals := p.withdrawals[|p.books.ledger.log| := w], flows := Send(p.flows, w.amount - w.settled))
            && (!Half(x) ==> Moved(p.books.ledger, q.books.ledger, WithdrawalGains(driver, w.amount, w.settled)))
  {
    hide Orderly, Reserve, Reservable, Available, Half, Column, BalanceOf, WithdrawalGains, InitiateWithdrawal, Gap, ReservedFacts, SettlementOf, ReserveSlip, Reverse, TakenBack;
    OrderlyIsReservable(p, driver, x, token);
    SentIsOrderly(p, driver, x, token);
    InitiateUnfolds(p, driver, x, token, accepted);
    if !Half(x) {
      forall a: Account
        ensures BalanceOf(Reserve(p.books, driver, x, token).0.ledger.balances, a) == BalanceOf(p.books.ledger.balances, a)
             + GainOf(WithdrawalGains(driver, Column(x), Column(Deducted(p.books, driver, x))), a)
      {
        ReserveMoves(p.books, driver, x, token, a);
      }
    }
  }

  /**
   When the gateway refuses the transfer, everything goes back: the row is FAILED, its transaction and its settlement
   are REVERSED, nothing was sent, and no balance has moved, unless the amount is half a kobo out.
   */
  lemma RefusedTransferGoesBack(p: Payments, driver: nat, x: real, token: nat)
    requires Orderly(p) && WithdrawalRef(token, Plain) !in p.books.ledger.byReference
    requires 0.0 <= x <= BalanceOf(p.books.ledger.balances, Owned(driver, DriverWallet)) as real
    requires x > BalanceOf(p.books.ledger.balances, Owned(driver, DriverCommissionPayable)) as real
    ensures var debt := BalanceOf(p.books.ledger.balances, Owned(driver, DriverCommissionPayable));
            var q := InitiateWithdrawal(p, driver, x, token, false);
            var id := |p.books.ledger.log|;
            && id in q.withdrawals && RowIs(q.withdrawals[id], driver, x, debt, TransferFailed)
            && q == p.(books := q.books, withdrawals := p.withdrawals[id := q.withdrawals[id]])
            && Recorded(q.books.ledger, id, q.withdrawals[id])
            && (!Half(x) ==> Moved(p.books.ledger, q.books.ledger, map[]))
  {
    var ready := p.(books := OpenPayable(p.books, driver));
    ReadyFirst(p, driver, x, token, false);
    TakenBackIs(ready, driver, x, token);
    if !Half(x) {
      MovedThrough(p.books.ledger, ready.books.ledger, InitiateWithdrawal(ready, driver, x, token, false).books.ledger, map[]);
    }
    RowOfIs(ready.books, driver, x);
    hide Orderly, InitiateWithdrawal, Moved, Column, Half, OpenPayable, Recorded, IsNearest;
  }

  lemma TakenBackIs(p: Payments, driver: nat, x: real, token: nat)
    requires Orderly(p) && WithdrawalRef(token, Plain) !in p.books.ledger.byReference && Payable(driver) in p.books.ledger.balances
    requires 0.0 <= x <= Available(p.books.ledger, driver) as real && x > Owed(p.books, driver) as real
    ensures var w := RowOf(p.books, driver, x).(status := TransferFailed);
            var q := InitiateWithdrawal(p, driver, x, token, false);
            var id := |p.books.ledger.log|;
            && Owed(p.books, driver) >= 0
            && q == p.(books := q.books, withdrawals := p.withdrawals[id := w]) && Recorded(q.books.ledger, id, w)
            && (!Half(x) ==> Moved(p.books.ledger, q.books.ledger, map[]))
  {
    hide Orderly, Reserve, Reservable, Available, Half, Column, BalanceOf, WithdrawalGains, InitiateWithdrawal, Gap, SettlementOf, ReserveSlip, Reverse, Recorded, Moved;
    var id := |p.books.ledger.log|;
    OrderlyIsReservable(p, driver, x, token);
    SentIsOrderly(p, driver, x, token);
    var sent := Sent(p, driver, x, token);
    var settlement := SettlementOf(sent.books.ledger, token);
    InitiateUnfolds(p, driver, x, token, false);
    TakenBackIsOrderly(sent, id, token);
    RecordOf(TakenBack(sent, id, settlement), id);
    if !Half(x) {
      SentIs(p, driver, x, token, true);
      InitiateUnfolds(p, driver, x, token, true);
      OrderlyIsSturdy(sent);
      hide Sturdy, Indexed, Seeded, DeliveriesOutside, AllRecorded;
      BackAgain(p.books.ledger, sent.books, id, sent.withdrawals[id]);
    }
  }

  lemma RecordOf(p: Payments, id: nat)
    requires Orderly(p) && id in p.withdrawals
    ensures Recorded(p.books.ledger, id, p.withdrawals[id])
  {
    hide Sturdy, Seeded, DeliveriesOutside;
  }

  /** Reversing takes back what reserving moved. */
  lemma BackAgain(l: Ledger, b: Books, id: nat, w: Withdrawal)
    requires Sturdy(b.ledger) && Recorded(b.ledger, id, w) && b.ledger.log[id].status == Completed
    requires Moved(l, b.ledger, WithdrawalGains(w.driver, w.amount, w.settled))
    ensures Moved(l, Reverse(b, id, SettlementOf(b.ledger, b.ledger.log[id].reference.subject.token)).0.ledger, map[])
  {
    var after := Reverse(b, id, SettlementOf(b.ledger, b.ledger.log[id].reference.subject.token)).0.ledger;
    ReverseMoves(b, id, w);
    hide Sturdy, Recorded, Reverse, SettlementOf, BalanceOf, WithdrawalGains;
    forall a: Account
      ensures BalanceOf(after.balances, a) == BalanceOf(l.balances, a)
    {
      assert BalanceOf(after.balances, a) == BalanceOf(b.ledger.balances, a) - GainOf(WithdrawalGains(w.driver, w.amount, w.settled), a);
    }
  }

  lemma BalanceIsGroup(b: Balances, a: Account)
    ensures GroupSum(b, Only(a)) == BalanceOf(b, a)
  {
    GroupSumOnly(b, a);
  }

  lemma ReservedIsGain(w: Withdrawal, a: Account)
    ensures Reserved(w, Only(a)) == GainOf(WithdrawalGains(w.driver, w.amount, w.settled), a)
  {}

  lemma ReverseMoves(b: Books, id: nat, w: Withdrawal)
    requires Sturdy(b.ledger) && Recorded(b.ledger, id, w) && b.ledger.log[id].status == Completed
    ensures var after := Reverse(b, id, SettlementOf(b.ledger, b.ledger.log[id].reference.subject.token)).0.ledger;
            forall a: Account :: BalanceOf(after.balances, a)
              == BalanceOf(b.ledger.balances, a) - GainOf(WithdrawalGains(w.driver, w.amount, w.settled), a)
  {
    var after := Reverse(b, id, SettlementOf(b.ledger, b.ledger.log[id].reference.subject.token)).0.ledger;
    hide Sturdy, Recorded, Reverse, SettlementOf, Undone, GroupSum, BalanceOf, GainOf, WithdrawalGains, Reserved;
    ReverseRecorded(b, id, w);
    forall a: Account
      ensures BalanceOf(after.balances, a) == BalanceOf(b.ledger.balances, a) - GainOf(WithdrawalGains(w.driver, w.amount, w.settled), a)
    {
      BalanceIsGroup(after.balances, a);
      BalanceIsGroup(b.ledger.balances, a);
      ReservedIsGain(w, a);
    }
  }

  // ---------------------------------------------------------------- what a report does

  /**
   A report about an unknown withdrawal does nothing. Success marks the row COMPLETED and nothing else. Failure, while the
   withdrawal stands, marks it FAILED, takes the transfer off what was sent and moves its money back; after that it does
   nothing.
   */
  lemma ReportsAre(p: Payments, token: nat, succeeded: bool)
    requires Orderly(p)
    ensures var l, q := p.books.ledger, ProcessTransferWebhook(p, token, succeeded);
            if WithdrawalRef(token, Plain) !in l.byReference then q == p
            else
              var id := l.byReference[WithdrawalRef(token, Plain)];
              id in p.withdrawals && id < |l.log| &&
              var w := p.withdrawals[id];
              if succeeded then q == p.(withdrawals := p.withdrawals[id := w.(status := TransferCompleted)])
              else if l.log[id].status == Reversed then q == p
              else
                && q == p.(books := q.books, withdrawals := p.withdrawals[id := w.(status := TransferFailed)],
                           flows := p.flows.(sent := p.flows.sent - w.amount + w.settled))
                && forall a: Account :: BalanceOf(q.books.ledger.balances, a)
                     == BalanceOf(l.balances, a) - GainOf(WithdrawalGains(w.driver, w.amount, w.settled), a)
  {
    var l := p.books.ledger;
    if WithdrawalRef(token, Plain) in l.byReference {
      hide Orderly, ProcessTransferWebhook, GainOf, WithdrawalGains, BalanceOf;
      KnownWithdrawal(p, token);
      if succeeded || l.log[l.byReference[WithdrawalRef(token, Plain)]].status == Reversed {
        IdleReport(p, token, succeeded);
      } else {
        FailureReport(p, token);
      }
    }
  }

  lemma KnownWithdrawal(p: Payments, token: nat)
    requires Orderly(p) && WithdrawalRef(token, Plain) in p.books.ledger.byReference
    ensures var l, id := p.books.ledger, p.books.ledger.byReference[WithdrawalRef(token, Plain)];
            && id in p.withdrawals && id < |l.log| && l.log[id].reference == WithdrawalRef(token, Plain)
            && Recorded(l, id, p.withdrawals[id]) && Sturdy(l)
  {
    OrderlyIsSturdy(p);
    assert WithdrawalRef(token, Plain).subject.WithdrawalOf?;
    assert p.books.ledger.byReference[WithdrawalRef(token, Plain)] in p.withdrawals;
    WebhookTarget(p, token);
    hide Orderly, Sturdy, Recorded;
  }

  lemma IdleReport(p: Payments, token: nat, succeeded: bool)
    requires var known := p.books.ledger.byReference;
             WithdrawalRef(token, Plain) in known && known[WithdrawalRef(token, Plain)] in p.withdrawals
             && known[WithdrawalRef(token, Plain)] < |p.books.ledger.log|
             && (succeeded || p.books.ledger.log[known[WithdrawalRef(token, Plain)]].status == Reversed)
    ensures var id := p.books.ledger.byReference[WithdrawalRef(token, Plain)];
            ProcessTransferWebhook(p, token, succeeded)
            == if succeeded then p.(withdrawals := p.withdrawals[id := p.withdrawals[id].(status := TransferCompleted)]) else p
  {
    if !succeeded {
      ReverseTwiceFails(p.books, p.books.ledger.byReference[WithdrawalRef(token, Plain)], SettlementOf(p.books.ledger, token));
    }
    hide Reverse;
  }

  lemma FailureReport(p: Payments, token: nat)
    requires Orderly(p) && WithdrawalRef(token, Plain) in p.books.ledger.byReference
    requires var id := p.books.ledger.byReference[WithdrawalRef(token, Plain)];
             id in p.withdrawals && id < |p.books.ledger.log| && p.books.ledger.log[id].status == Completed
    ensures var l, q := p.books.ledger, ProcessTransferWebhook(p, token, false);
            var id := l.byReference[WithdrawalRef(token, Plain)];
            var w := p.withdrawals[id];
            && q == p.(books := q.books, withdrawals := p.withdrawals[id := w.(status := TransferFailed)],
                       flows := p.flows.(sent := p.flows.sent - w.amount + w.settled))
            && forall a: Account :: BalanceOf(q.books.ledger.balances, a)
                 == BalanceOf(l.balances, a) - GainOf(WithdrawalGains(w.driver, w.amount, w.settled), a)
  {
    hide Orderly, Sturdy, Reverse, Recorded, GainOf, WithdrawalGains, BalanceOf, Undone, GroupSum, Reserved;
    var id := p.books.ledger.byReference[WithdrawalRef(token, Plain)];
    KnownWithdrawal(p, token);
    ReverseRecorded(p.books, id, p.withdrawals[id]);
    ReverseMoves(p.books, id, p.withdrawals[id]);
  }
}
