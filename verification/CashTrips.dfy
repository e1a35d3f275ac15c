/**
 The cap on cash trips: what every wallet operation does to a driver's count of unsettled cash trips, and
 what the count is after any run.
 */
module CashTrips {
  import opened Option
  import opened Ledger
  import opened WalletSpec

  /** The operation is posted now, under a reference nothing was posted under before. */
  predicate CommitsFirst(b: Books, op: Op) {
    !op.RefundTransaction? && op.reference !in b.ledger.byReference && Step(b, op).1.Ok?
  }

  /** A cash trip of the driver that is charged now. */
  predicate Accrues(b: Books, op: Op, driver: nat) {
    (op.RecordCashRideCommission? || op.RecordCashDeliveryCommission?) && op.driver == driver && CommitsFirst(b, op)
  }

  /** A settlement made now that leaves the driver owing nothing. */
  predicate Clears(b: Books, op: Op, driver: nat) {
    && op.SettleCommission? && op.driver == driver && CommitsFirst(b, op)
    && Owned(driver, DriverCommissionPayable) in Step(b, op).0.ledger.balances
    && Step(b, op).0.ledger.balances[Owned(driver, DriverCommissionPayable)] == 0
  }

  /**
   A settlement that clears the debt resets the count, a cash trip adds one, and whatever is partial, refused,
   repeated, of another kind or of another driver leaves it.
   */
  lemma StepCountsTrips(b: Books, op: Op, driver: nat)
    ensures var after := Step(b, op).0.cashTrips;
            && (driver in after <==> driver in b.cashTrips)
            && (driver in after ==>
                  after[driver] == if Clears(b, op, driver) then 0
                                   else if Accrues(b, op, driver) then b.cashTrips[driver] + 1
                                   else b.cashTrips[driver])
  {
    if !op.RefundTransaction? && !op.PayInvoice? {
      PlanReference(op);
      OpenAllMovesNothing(b.ledger, PlanOf(op).opens);
    }
    hide PlanOf, Missing, OpenAll, Post, GroupSum, Refund, PayInvoiceStep;
  }

  lemma {:induction false} RunCountsDrivers(b: Books, ops: seq<Op>)
    ensures Run(b, ops).cashTrips.Keys == b.cashTrips.Keys
    decreases |ops|
  {
    if ops != [] {
      var before := Run(b, ops[..|ops| - 1]);
      RunCountsDrivers(b, ops[..|ops| - 1]);
      forall d: nat
        ensures d in Step(before, ops[|ops| - 1]).0.cashTrips <==> d in before.cashTrips
      {
        StepCountsTrips(before, ops[|ops| - 1], d);
      }
    }
    hide Step;
  }

  /** The i-th operation of the run charges a cash trip of the driver. */
  predicate AccruesAt(b: Books, ops: seq<Op>, i: nat, driver: nat) {
    i < |ops| && Accrues(Run(b, ops[..i]), ops[i], driver)
  }

  /** The i-th operation of the run clears the driver's debt. */
  predicate ClearsAt(b: Books, ops: seq<Op>, i: nat, driver: nat) {
    i < |ops| && Clears(Run(b, ops[..i]), ops[i], driver)
  }

  /** Where the count starts: after the last settlement that left nothing owed, or at the start of the run. */
  function LastCleared(b: Books, ops: seq<Op>, driver: nat): nat
    decreases |ops|
  {
    if ops == [] then 0
    else if ClearsAt(b, ops, |ops| - 1, driver) then |ops|
    else LastCleared(b, ops[..|ops| - 1], driver)
  }

  /** The cash trips of the driver that a run charged from its k-th operation on. */
  ghost function Accruals(b: Books, ops: seq<Op>, k: nat, driver: nat): set<nat> {
    set i: nat | k <= i < |ops| && AccruesAt(b, ops, i, driver)
  }

  lemma SameBefore(b: Books, ops: seq<Op>, i: nat, driver: nat)
    requires i < |ops| - 1
    ensures AccruesAt(b, ops[..|ops| - 1], i, driver) <==> AccruesAt(b, ops, i, driver)
    ensures ClearsAt(b, ops[..|ops| - 1], i, driver) <==> ClearsAt(b, ops, i, driver)
  {
    assert ops[..|ops| - 1][..i] == ops[..i];
  }

  lemma {:induction false} LastClearedIsLast(b: Books, ops: seq<Op>, driver: nat)
    ensures var k := LastCleared(b, ops, driver);
            && k <= |ops| && (k == 0 || ClearsAt(b, ops, k - 1, driver))
            && forall i: nat | k <= i < |ops| :: !ClearsAt(b, ops, i, driver)
    decreases |ops|
  {
    hide ClearsAt, Run;
    if ops != [] {
      var most := ops[..|ops| - 1];
      LastClearedIsLast(b, most, driver);
      var k := LastCleared(b, most, driver);
      if k > 0 && !ClearsAt(b, ops, |ops| - 1, driver) {
        SameBefore(b, ops, k - 1, driver);
      }
      forall i: nat | k <= i < |most|
        ensures !ClearsAt(b, ops, i, driver)
      {
        SameBefore(b, ops, i, driver);
      }
    }
  }

  lemma AccrualsOneMore(b: Books, ops: seq<Op>, k: nat, driver: nat)
    requires k < |ops|
    ensures var most, n := ops[..|ops| - 1], |ops| - 1;
            && n !in Accruals(b, most, k, driver)
            && Accruals(b, ops, k, driver)
               == Accruals(b, most, k, driver) + if AccruesAt(b, ops, n, driver) then {n} else {}
  {
    forall i: nat | i < |ops| - 1
      ensures AccruesAt(b, ops[..|ops| - 1], i, driver) <==> AccruesAt(b, ops, i, driver)
    {
      SameBefore(b, ops, i, driver);
    }
    hide AccruesAt;
  }

  lemma {:induction false} CountSince(b: Books, ops: seq<Op>, k: nat, driver: nat)
    requires driver in b.cashTrips && k <= |ops|
    requires forall i: nat | k <= i < |ops| :: !ClearsAt(b, ops, i, driver)
    ensures driver in Run(b, ops[..k]).cashTrips && driver in Run(b, ops).cashTrips
    ensures Run(b, ops).cashTrips[driver] == Run(b, ops[..k]).cashTrips[driver] + |Accruals(b, ops, k, driver)|
    decreases |ops|
  {
    RunCountsDrivers(b, ops);
    RunCountsDrivers(b, ops[..k]);
    if k == |ops| {
      assert ops[..k] == ops && Accruals(b, ops, k, driver) == {};
    } else {
      var most, n := ops[..|ops| - 1], |ops| - 1;
      assert most[..k] == ops[..k];
      forall i: nat | k <= i < |most|
        ensures !ClearsAt(b, most, i, driver)
      {
        SameBefore(b, ops, i, driver);
      }
      CountSince(b, most, k, driver);
      StepCountsTrips(Run(b, most), ops[n], driver);
      AccrualsOneMore(b, ops, k, driver);
      assert !ClearsAt(b, ops, n, driver);
    }
    hide Step, Clears, Accrues, Accruals;
  }

  /**
   Over every run the count is the number of cash trips charged since the last settlement that left nothing
   owed, or, when there was none, as many more than at the start.
   */
  lemma CountIsTripsSinceCleared(b: Books, ops: seq<Op>, driver: nat)
    requires driver in b.cashTrips
    ensures var k := LastCleared(b, ops, driver);
            && k <= |ops| && (k == 0 || ClearsAt(b, ops, k - 1, driver))
            && (forall i: nat | k <= i < |ops| :: !ClearsAt(b, ops, i, driver))
            && driver in Run(b, ops).cashTrips
            && Run(b, ops).cashTrips[driver] == (if k == 0 then b.cashTrips[driver] else 0) + |Accruals(b, ops, k, driver)|
  {
    var k := LastCleared(b, ops, driver);
    LastClearedIsLast(b, ops, driver);
    CountSince(b, ops, k, driver);
    if k > 0 {
      assert ops[..k][..k - 1] == ops[..k - 1];
      StepCountsTrips(Run(b, ops[..k - 1]), ops[k - 1], driver);
    } else {
      assert ops[..k] == [];
    }
    hide Step, Clears, Accrues, Accruals;
  }
}
