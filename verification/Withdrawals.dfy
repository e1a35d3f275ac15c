/**
 Withdrawals of any amount, and with them every payment operation: what is on record stays in order, and the
 clearing account leaves what it stands for by exactly the slips of half-kobo withdrawals.
 */
module Withdrawals {
  import opened Option
  import opened Money
  import opened Ledger
  import opened WalletSpec
  import opened Effects
  import opened Transfers
  import opened PaymentsSpec
  import opened TopUps
  import opened Drift
  import opened Clearing

  function WithdrawalNames(token: nat): set<Reference> {
    {WithdrawalRef(token, Plain), WithdrawalRef(token, Settle)}
  }

  /** How much of a withdrawal goes to outstanding commission. */
  function Deducted(b: Books, driver: nat, x: real): real {
    Min(Owed(b, driver) as real, x)
  }

  /** The two stored parts, and what the gateway is told to send: the difference, half a kobo or not. */
  lemma Deduction(owed: int, x: real)
    requires owed >= 0 && x >= 0.0
    ensures var settle := Min(owed as real, x);
            && 0.0 <= settle && 0 <= Column(settle) <= Column(x)
            && ToKobo(x - settle) == Column(x) - Column(settle)
            && (settle <= 0.0 ==> Column(settle) == 0)
            && (Half(settle) ==> Half(x))
  {
    var settle := Min(owed as real, x);
    ColumnOfWhole(owed);
    ColumnOfWhole(0);
    ColumnNonNegative(settle);
    ColumnMonotone(settle, x);
    if settle == owed as real {
      ColumnShift(x - settle, owed);
      assert x - settle + owed as real == x;
    }
  }

  // ---------------------------------------------------------------- what slips

  function ClearingBalance(l: Ledger): int {
    BalanceOf(l.balances, CLEARING)
  }

  /** What a withdrawal leaves too much in the position: a kobo where half of one is settled, less one where clearing stays below zero. */
  function WithdrawSlip(b: Books, driver: nat, x: real): int {
    if !CoveredHalf(b.ledger, driver, x) then 0
    else (if x > Owed(b, driver) as real then 0 else 1) - if ClearingBalance(b.ledger) as real + x < 0.0 then 1 else 0
  }

  /** The same, leg by leg. */
  function ReserveSlip(b: Books, driver: nat, x: real): int {
    Slip(ClearingBalance(b.ledger), x) + if Deducted(b, driver, x) > 0.0 then Slip(Owed(b, driver), -Deducted(b, driver, x)) else 0
  }

  lemma ReserveSlipIs(b: Books, driver: nat, x: real)
    requires 0.0 <= x <= Available(b.ledger, driver) as real && Owed(b, driver) >= 0
    ensures ReserveSlip(b, driver, x) == WithdrawSlip(b, driver, x)
  {
    var settle := Deducted(b, driver, x);
    SlipIs(ClearingBalance(b.ledger), x);
    CoveredDebitSlips(Owed(b, driver), settle);
    ColumnOfWhole(Owed(b, driver));
    assert Half(x) ==> x != 0.0 by { ColumnOfWhole(0); }
    hide Slip, Column;
  }

  lemma PositionAfter(b: Balances, amount: real, from: Account, to: Account)
    requires from in b && to in b && from != to
    ensures Position(AfterTransfer(b, amount, from, to)) == Position(b)
         + Times(Slip(b[from], -amount) - Column(amount), InPosition(from))
         + Times(Slip(b[to], amount) + Column(amount), InPosition(to))
  {
    var left, right := Column(b[from] as real - amount), Column(b[to] as real + amount);
    ColumnOdd(amount);
    GroupSumUpdate(b, Only(CLEARING), from, left);
    GroupSumUpdate(b, OfKind(DriverCommissionPayable), from, left);
    GroupSumUpdate(b, OfKind(BusinessCreditPayable), from, left);
    GroupSumUpdate(b[from := left], Only(CLEARING), to, right);
    GroupSumUpdate(b[from := left], OfKind(DriverCommissionPayable), to, right);
    GroupSumUpdate(b[from := left], OfKind(BusinessCreditPayable), to, right);
    hide GroupSum, Column;
  }

  // ---------------------------------------------------------------- the two debits

  /** A withdrawal the wallet covers posts, whatever fraction it is. */
  lemma WithdrawPosts(b: Books, driver: nat, x: real, reference: Reference)
    requires Seeded(b.ledger) && reference !in b.ledger.byReference
    requires 0.0 <= x <= Available(b.ledger, driver) as real
    ensures Posts(b, RequestWithdrawal(driver, x, reference), x, Owned(driver, DriverWallet), CLEARING)
    ensures OpenAll(b.ledger, PlanOf(RequestWithdrawal(driver, x, reference)).opens) == OpenAccount(b.ledger, Owned(driver, DriverWallet))
  {
    var wallet := Owned(driver, DriverWallet);
    assert [wallet][..0] == [];
    assert OpenAll(b.ledger, [wallet]) == OpenAccount(b.ledger, wallet);
    assert [PlatformGatewayClearing][1..] == [];
  }

  lemma UncoveredWithdrawal(b: Books, driver: nat, x: real, reference: Reference)
    requires x > Available(b.ledger, driver) as real && reference !in b.ledger.byReference
    ensures Step(b, RequestWithdrawal(driver, x, reference)).1.Err?
  {
    var op, wallet := RequestWithdrawal(driver, x, reference), Owned(driver, DriverWallet);
    var req := Transfer(WalletWithdrawal, reference, x, wallet, CLEARING);
    assert PlanOf(op) == Plan([wallet], [PlatformGatewayClearing], req);
    assert [wallet][..0] == [];
    var ready := OpenAccount(b.ledger, wallet);
    assert OpenAll(b.ledger, [wallet]) == ready;
    assert req.postings[..1] == [req.postings[0]] && req.postings[..1][..0] == [];
    assert Apply(ready.balances, req.postings[..1]).Err?;
    assert Apply(ready.balances, req.postings).Err?;
    hide Apply, Balanced, PlanOf;
  }

  /** A refused withdrawal opens the wallet at most. */
  lemma RefusedOpens(b: Books, op: Op)
    requires op.RequestWithdrawal? && Step(b, op).1.Err?
    ensures Step(b, op).0.ledger == OpenAll(b.ledger, PlanOf(op).opens)
  {
    hide OpenAll, Missing, Apply;
  }

  lemma RefusedWithdrawal(b: Books, driver: nat, x: real, token: nat)
    requires Sturdy(b.ledger) && WithdrawalRef(token, Plain) !in b.ledger.byReference && x > Available(b.ledger, driver) as real
    ensures var after := Step(b, RequestWithdrawal(driver, x, WithdrawalRef(token, Plain))).0.ledger;
            Sturdy(after) && after.log == b.ledger.log && after.byReference == b.ledger.byReference
            && Position(after.balances) == Position(b.ledger.balances) && b.ledger.balances.Keys <= after.balances.Keys
  {
    var op := RequestWithdrawal(driver, x, WithdrawalRef(token, Plain));
    UncoveredWithdrawal(b, driver, x, WithdrawalRef(token, Plain));
    RefusedOpens(b, op);
    OpenAllMovesNothing(b.ledger, PlanOf(op).opens);
    OpenAllKeepsSturdy(b.ledger, PlanOf(op).opens);
    hide Sturdy, Step, PlanOf, OpenAll, Available, GroupSum;
  }

  lemma OpenAccountPosition(l: Ledger, a: Account)
    ensures Position(OpenAccount(l, a).balances) == Position(l.balances)
  {
    OpenAccountMovesNothing(l, a);
    hide GroupSum, OpenAccount;
  }

  lemma OpeningTheWallet(b: Books, driver: nat)
    requires Seeded(b.ledger)
    ensures var ready := OpenAccount(b.ledger, Owned(driver, DriverWallet));
            Seeded(ready) && ready.balances[CLEARING] == ClearingBalance(b.ledger)
    ensures forall a <- b.ledger.balances :: a in OpenAccount(b.ledger, Owned(driver, DriverWallet)).balances
  {}

  /** The debit alone. */
  lemma DebitedWithdrawal(b: Books, driver: nat, x: real, token: nat)
    requires Sturdy(b.ledger) && Seeded(b.ledger) && DeliveriesOutside(b.ledger)
    requires WithdrawalRef(token, Plain) !in b.ledger.byReference && 0.0 <= x <= Available(b.ledger, driver) as real
    ensures var (after, outcome) := Step(b, RequestWithdrawal(driver, x, WithdrawalRef(token, Plain)));
            var l, m := b.ledger, after.ledger;
            && outcome == Ok(|l.log|) && Sturdy(m) && Seeded(m) && DeliveriesOutside(m) && Adds(l, m, {WithdrawalRef(token, Plain)})
            && |m.log| == |l.log| + 1 && m.byReference == l.byReference[WithdrawalRef(token, Plain) := |l.log|]
            && IsTransfer(m.log[|l.log|], WithdrawalRef(token, Plain), Column(x), Owned(driver, DriverWallet), CLEARING)
            && m.log[|l.log|].status == Completed
            && Position(m.balances) == Position(l.balances) + Column(x) + Slip(ClearingBalance(l), x)
            && Owed(after, driver) == Owed(b, driver)
  {
    hide Sturdy, Step, Position, IsTransfer, Posts, DeliveriesOutside, Grows, Available, PlanOf, Column, Slip, OpenAccount, OpenAll, Seeded;
    var op, wallet := RequestWithdrawal(driver, x, WithdrawalRef(token, Plain)), Owned(driver, DriverWallet);
    var after := Step(b, op).0;
    WithdrawPosts(b, driver, x, WithdrawalRef(token, Plain));
    PostsCan(b, op, x, wallet, CLEARING);
    TransferStepShape(b, op, x, wallet, CLEARING);
    OpeningTheWallet(b, driver);
    OpenAccountPosition(b.ledger, wallet);
    PositionAfter(OpenAccount(b.ledger, wallet).balances, x, wallet, CLEARING);
    StepKeepsSturdy(b, op);
    StepGrows(b, op);
    StepKeepsDeliveriesOutside(b, op);
    GrowsKeeps(b.ledger, after.ledger, 0);
    DebtStays(b, driver, x);
  }

  lemma PostsCan(b: Books, op: Op, amount: real, from: Account, to: Account)
    requires Posts(b, op, amount, from, to)
    ensures CanTransfer(OpenAll(b.ledger, PlanOf(op).opens), amount, from, to)
  {}

  lemma DebtStays(b: Books, driver: nat, x: real)
    requires Seeded(b.ledger)
    ensures var ready, wallet := OpenAccount(b.ledger, Owned(driver, DriverWallet)).balances, Owned(driver, DriverWallet);
            && wallet in ready && CLEARING in ready
            && var m := AfterTransfer(ready, x, wallet, CLEARING);
               (if Payable(driver) in m then m[Payable(driver)] else 0) == Owed(b, driver)
  {
    hide Column;
  }

  /** The settlement out of it. */
  lemma SettledWithdrawal(b: Books, driver: nat, settle: real, token: nat)
    requires Sturdy(b.ledger) && Seeded(b.ledger) && DeliveriesOutside(b.ledger)
    requires WithdrawalRef(token, Settle) !in b.ledger.byReference
    requires Payable(driver) in b.ledger.balances && 0.0 <= settle <= Owed(b, driver) as real
    ensures var (after, outcome) := Step(b, SettleCommission(driver, settle, WithdrawalRef(token, Settle)));
            var l, m := b.ledger, after.ledger;
            && outcome == Ok(|l.log|) && Sturdy(m) && Seeded(m) && DeliveriesOutside(m) && Adds(l, m, {WithdrawalRef(token, Settle)})
            && |m.log| == |l.log| + 1 && m.byReference == l.byReference[WithdrawalRef(token, Settle) := |l.log|]
            && IsTransfer(m.log[|l.log|], WithdrawalRef(token, Settle), Column(settle), Payable(driver), REVENUE)
            && m.log[|l.log|].status == Completed
            && Position(m.balances) == Position(l.balances) - Column(settle) + Slip(Owed(b, driver), -settle)
  {
    assert REVENUE in b.ledger.balances;
    hide Sturdy, Step, Position, IsTransfer, Posts, DeliveriesOutside, Seeded, Grows, PlanOf, Column, Slip, OpenAll;
    var op := SettleCommission(driver, settle, WithdrawalRef(token, Settle));
    var after := Step(b, op).0;
    SettlePosts(b, driver, settle, WithdrawalRef(token, Settle));
    PostsCan(b, op, settle, Payable(driver), REVENUE);
    TransferStepShape(b, op, settle, Payable(driver), REVENUE);
    PositionAfter(b.ledger.balances, settle, Payable(driver), REVENUE);
    StepKeepsSturdy(b, op);
    StepGrows(b, op);
    StepKeepsDeliveriesOutside(b, op);
    GrowsKeeps(b.ledger, after.ledger, 0);
  }

  // ---------------------------------------------------------------- the reservation

  /** A withdrawal the wallet covers: what is reserved, and on record. */
  ghost predicate ReservedNow(l: Ledger, m: Ledger, w: Withdrawal, token: nat) {
    && Sturdy(m) && Seeded(m) && DeliveriesOutside(m) && Adds(l, m, WithdrawalNames(token))
    && |l.log| < |m.log| && WithdrawalRef(token, Plain) in m.byReference && m.byReference[WithdrawalRef(token, Plain)] == |l.log|
    && Recorded(m, |l.log|, w) && m.log[|l.log|].reference == WithdrawalRef(token, Plain) && m.log[|l.log|].status == Completed
  }

  ghost predicate Reservable(b: Books, driver: nat, x: real, token: nat) {
    && Sturdy(b.ledger) && Seeded(b.ledger) && DeliveriesOutside(b.ledger)
    && WithdrawalRef(token, Plain) !in b.ledger.byReference && WithdrawalRef(token, Settle) !in b.ledger.byReference
    && 0.0 <= x <= Available(b.ledger, driver) as real
  }

  /** Nothing owed: the debit is the whole reservation. */
  lemma ReserveWithoutDebt(b: Books, driver: nat, x: real, token: nat, status: TransferStatus)
    requires Reservable(b, driver, x, token) && status != TransferFailed
    ensures var (after, withdrawal) := Step(b, RequestWithdrawal(driver, x, WithdrawalRef(token, Plain)));
            && withdrawal == Ok(|b.ledger.log|)
            && ReservedNow(b.ledger, after.ledger, Withdrawal(driver, Column(x), 0, status), token)
            && SettlementOf(after.ledger, token) == None
            && Position(after.ledger.balances) == Position(b.ledger.balances) + Column(x) + Slip(ClearingBalance(b.ledger), x)
  {
    hide Sturdy, Seeded, DeliveriesOutside, Step, Position, Adds, Column, Slip, Available;
    ColumnNonNegative(x);
    DebitedWithdrawal(b, driver, x, token);
    var b1 := Step(b, RequestWithdrawal(driver, x, WithdrawalRef(token, Plain))).0;
    AddsMore(b.ledger, b1.ledger, {WithdrawalRef(token, Plain)}, WithdrawalNames(token));
  }

  /** The debit and then the settlement of what is owed. */
  lemma ReserveWithDebt(b: Books, driver: nat, x: real, settle: real, token: nat, status: TransferStatus)
    requires Reservable(b, driver, x, token) && status != TransferFailed && Payable(driver) in b.ledger.balances
    requires 0.0 <= settle <= Owed(b, driver) as real && 0 <= Column(settle) <= Column(x)
    ensures var (b1, withdrawal) := Step(b, RequestWithdrawal(driver, x, WithdrawalRef(token, Plain)));
            var (after, settlement) := Step(b1, SettleCommission(driver, settle, WithdrawalRef(token, Settle)));
            && withdrawal == Ok(|b.ledger.log|) && settlement.Ok?
            && ReservedNow(b.ledger, after.ledger, Withdrawal(driver, Column(x), Column(settle), status), token)
            && SettlementOf(after.ledger, token) == Some(settlement.value)
            && Position(after.ledger.balances) == Position(b.ledger.balances) + Column(x) - Column(settle)
                 + Slip(ClearingBalance(b.ledger), x) + Slip(Owed(b, driver), -settle)
  {
    hide Sturdy, Seeded, DeliveriesOutside, Step, Position, Adds, Column, Slip, Available;
    DebitedWithdrawal(b, driver, x, token);
    var b1 := Step(b, RequestWithdrawal(driver, x, WithdrawalRef(token, Plain))).0;
    SeparatePayable(b.ledger, b1.ledger, WithdrawalRef(token, Plain), driver);
    SettledWithdrawal(b1, driver, settle, token);
    var b2 := Step(b1, SettleCommission(driver, settle, WithdrawalRef(token, Settle))).0;
    AddsMore(b.ledger, b1.ledger, {WithdrawalRef(token, Plain)}, WithdrawalNames(token));
    AddsMore(b1.ledger, b2.ledger, {WithdrawalRef(token, Settle)}, WithdrawalNames(token));
    AddsTransitive(b.ledger, b1.ledger, b2.ledger, WithdrawalNames(token));
    AddsKeepsOld(b1.ledger, b2.ledger, {WithdrawalRef(token, Settle)});
  }

  lemma SeparatePayable(l: Ledger, m: Ledger, reference: Reference, driver: nat)
    requires Adds(l, m, {reference}) && Payable(driver) in l.balances
    ensures Payable(driver) in m.balances
  {}

  lemma AddsKeepsOld(l: Ledger, m: Ledger, names: set<Reference>)
    requires Adds(l, m, names)
    ensures |l.log| <= |m.log| && forall i :: 0 <= i < |l.log| ==> m.log[i] == l.log[i]
  {}

  lemma ReserveCovered(b: Books, driver: nat, x: real, token: nat, status: TransferStatus)
    requires Reservable(b, driver, x, token) && status != TransferFailed && Payable(driver) in b.ledger.balances && Owed(b, driver) >= 0
    ensures var settle := Deducted(b, driver, x);
            var (after, withdrawal, settlement) := Reserve(b, driver, x, token);
            && withdrawal == Ok(|b.ledger.log|) && settlement.Ok?
            && ReservedNow(b.ledger, after.ledger, Withdrawal(driver, Column(x), Column(settle), status), token)
            && SettlementOf(after.ledger, token) == (if settle > 0.0 then Some(settlement.value) else None)
            && Position(after.ledger.balances) == Position(b.ledger.balances) + Column(x) - Column(settle) + ReserveSlip(b, driver, x)
  {
    hide Step, ReservedNow, Reserve, Available, SettlementOf, Column, Half, Slip, Position, Reservable;
    var settle := Deducted(b, driver, x);
    ReserveUnfolds(b, driver, x, token);
    ReservableAmount(b, driver, x, token);
    Deduction(Owed(b, driver), x);
    if settle > 0.0 {
      ReserveWithDebt(b, driver, x, settle, token, status);
    } else {
      ReserveWithoutDebt(b, driver, x, token, status);
    }
  }

  lemma ReservableAmount(b: Books, driver: nat, x: real, token: nat)
    requires Reservable(b, driver, x, token)
    ensures x >= 0.0
  {}

  /** The steps of a reservation when the debt account is open. */
  lemma ReserveUnfolds(b: Books, driver: nat, x: real, token: nat)
    requires Payable(driver) in b.ledger.balances
    ensures var settle := Deducted(b, driver, x);
            var (b1, withdrawal) := Step(b, RequestWithdrawal(driver, x, WithdrawalRef(token, Plain)));
            && (settle <= 0.0 || withdrawal.Err? ==> Reserve(b, driver, x, token) == (b1, withdrawal, withdrawal))
            && (settle > 0.0 && withdrawal.Ok? ==>
                  var (b2, settlement) := Step(b1, SettleCommission(driver, settle, WithdrawalRef(token, Settle)));
                  Reserve(b, driver, x, token) == (b2, withdrawal, settlement))
  {
    hide Step;
    assert OpenPayable(b, driver) == b;
  }

  // ---------------------------------------------------------------- on record

  lemma OpeningKeepsOrderly(p: Payments, driver: nat)
    requires Orderly(p)
    ensures var q := p.(books := OpenPayable(p.books, driver));
            && Orderly(q) && Gap(q) == Gap(p) && Payable(driver) in q.books.ledger.balances
            && Owed(q.books, driver) == Owed(p.books, driver) && ClearingBalance(q.books.ledger) == ClearingBalance(p.books.ledger)
            && Available(q.books.ledger, driver) == Available(p.books.ledger, driver)
            && q.books.ledger.byReference == p.books.ledger.byReference
  {
    var q := p.(books := OpenPayable(p.books, driver));
    OpenAccountKeepsSturdy(p.books.ledger, Payable(driver));
    OpeningMovesNothing(p.books, driver);
    OpenPayableAdds(p.books, driver);
    SameLogOutside(p.books.ledger, q.books.ledger);
    SturdyIsIndexed(q.books.ledger);
    AddsKeepsRecords(p, q, {});
    hide Sturdy, Indexed, DeliveriesOutside, AllRecorded, GroupSum, Adds, Solvent, Wellformed, Reversals;
  }

  lemma ReservedKeepsRecords(p: Payments, q: Payments, w: Withdrawal, token: nat)
    requires AllRecorded(p) && Indexed(p.books.ledger) && Indexed(q.books.ledger)
    requires WithdrawalRef(token, Plain) !in p.books.ledger.byReference
    requires ReservedNow(p.books.ledger, q.books.ledger, w, token)
    requires q.withdrawals == p.withdrawals[|p.books.ledger.log| := w]
    ensures AllRecorded(q)
  {
    hide Sturdy, Seeded, DeliveriesOutside, Recorded;
    var l, m := p.books.ledger, q.books.ledger;
    forall i <- q.withdrawals
      ensures Recorded(m, i, q.withdrawals[i])
    {
      if i != |l.log| {
        assert Recorded(l, i, p.withdrawals[i]);
        AddingKeepsRecord(l, m, i, p.withdrawals[i], token);
      }
    }
    forall r <- m.byReference | r.subject.WithdrawalOf?
      ensures WithdrawalRef(r.subject.token, Plain) in m.byReference
      ensures m.byReference[WithdrawalRef(r.subject.token, Plain)] in q.withdrawals
    {
      assert r in l.byReference || r in WithdrawalNames(token);
    }
  }

  /** A new withdrawal leaves an older one's record alone. */
  lemma AddingKeepsRecord(l: Ledger, m: Ledger, i: nat, w: Withdrawal, token: nat)
    requires Indexed(l) && Adds(l, m, WithdrawalNames(token)) && Recorded(l, i, w) && WithdrawalRef(token, Plain) !in l.byReference
    ensures Recorded(m, i, w)
  {
    var other := l.log[i].reference.subject.token;
    assert m.log[i] == l.log[i] && l.log[i].reference in l.byReference;
    assert WithdrawalRef(other, Settle) in m.byReference ==> WithdrawalRef(other, Settle) in l.byReference;
  }

  lemma ReservedIsOrderly(p: Payments, q: Payments, w: Withdrawal, token: nat)
    requires Orderly(p) && WithdrawalRef(token, Plain) !in p.books.ledger.byReference
    requires ReservedNow(p.books.ledger, q.books.ledger, w, token)
    requires q.withdrawals == p.withdrawals[|p.books.ledger.log| := w]
    ensures Orderly(q)
  {
    hide Sturdy, Indexed, AllRecorded, Adds, Recorded, DeliveriesOutside, Solvent, Wellformed, Reversals;
    SturdyIsIndexed(p.books.ledger);
    SturdyIsIndexed(q.books.ledger);
    ReservedKeepsRecords(p, q, w, token);
  }

  lemma RefusedKeepsOrderly(p: Payments, q: Payments)
    requires Orderly(p) && q == p.(books := q.books) && Sturdy(q.books.ledger)
    requires q.books.ledger.log == p.books.ledger.log && q.books.ledger.byReference == p.books.ledger.byReference
    requires Position(q.books.ledger.balances) == Position(p.books.ledger.balances)
    requires p.books.ledger.balances.Keys <= q.books.ledger.balances.Keys
    ensures Orderly(q) && Gap(q) == Gap(p)
  {
    hide Sturdy, Position;
    forall i <- q.withdrawals
      ensures Recorded(q.books.ledger, i, q.withdrawals[i])
    {
      assert Recorded(p.books.ledger, i, p.withdrawals[i]);
    }
  }

  /** The row of a withdrawal whose reservation went through. */
  function RowOf(b: Books, driver: nat, x: real): Withdrawal {
    var settle := Deducted(b, driver, x);
    Withdrawal(driver, Column(x), Column(settle), if x - settle > 0.0 then TransferPending else TransferCompleted)
  }

  /** Reserved, on record, and its transfer sent. */
  function Sent(p: Payments, driver: nat, x: real, token: nat): Payments
    requires Reserve(p.books, driver, x, token).1.Ok?
  {
    var (reserved, withdrawal, _) := Reserve(p.books, driver, x, token);
    var w := RowOf(p.books, driver, x);
    p.(books := reserved, withdrawals := p.withdrawals[withdrawal.value := w], flows := Send(p.flows, w.amount - w.settled))
  }

  /** The transfer was not taken after all, and everything is reversed if it can be. */
  function TakenBack(sent: Payments, id: nat, settlement: Option<nat>): Payments
    requires id in sent.withdrawals
  {
    var w := sent.withdrawals[id];
    sent.(books := Reverse(sent.books, id, settlement).0, withdrawals := sent.withdrawals[id := w.(status := TransferFailed)],
          flows := Send(sent.flows, w.settled - w.amount))
  }

  /** What a withdrawal leaves once its reservation went through: sent in full, or taken back. */
  lemma InitiateUnfolds(p: Payments, driver: nat, x: real, token: nat, accepted: bool)
    requires Payable(driver) in p.books.ledger.balances && Owed(p.books, driver) >= 0 && x >= 0.0
    requires Reserve(p.books, driver, x, token).1.Ok? && Reserve(p.books, driver, x, token).2.Ok?
    ensures var settle := Deducted(p.books, driver, x);
            var (_, withdrawal, settlement) := Reserve(p.books, driver, x, token);
            var sent := Sent(p, driver, x, token);
            var taken := if settle > 0.0 then Some(settlement.value) else None;
            var q := InitiateWithdrawal(p, driver, x, token, accepted);
            && (x == settle || accepted ==> q == sent)
            && (x != settle && !accepted && Reverse(sent.books, withdrawal.value, taken).1.Ok? ==>
                  q == TakenBack(sent, withdrawal.value, taken))
  {
    hide Reserve, Reverse, Column, ToKobo;
    Deduction(Owed(p.books, driver), x);
    assert OpenPayable(p.books, driver) == p.books;
    hide OpenPayable;
  }

  ghost predicate ReservedFacts(m: Ledger, id: nat, w: Withdrawal, token: nat) {
    Recorded(m, id, w) && id < |m.log| && m.log[id].status == Completed && m.log[id].reference == WithdrawalRef(token, Plain)
  }

  lemma ReservedHasFacts(l: Ledger, m: Ledger, w: Withdrawal, token: nat)
    requires ReservedNow(l, m, w, token)
    ensures ReservedFacts(m, |l.log|, w, token)
  {}

  lemma OrderlyIsReservable(p: Payments, driver: nat, x: real, token: nat)
    requires Orderly(p) && 0.0 <= x <= Available(p.books.ledger, driver) as real
    requires WithdrawalRef(token, Plain) !in p.books.ledger.byReference
    ensures Reservable(p.books, driver, x, token) && Owed(p.books, driver) >= 0
  {
    hide Indexed, Wellformed, Reversals, Recorded, DeliveriesOutside;
  }

  lemma SentIsOrderly(p: Payments, driver: nat, x: real, token: nat)
    requires Orderly(p) && Payable(driver) in p.books.ledger.balances
    requires 0.0 <= x <= Available(p.books.ledger, driver) as real && WithdrawalRef(token, Plain) !in p.books.ledger.byReference
    ensures var settle := Deducted(p.books, driver, x);
            var (_, withdrawal, settlement) := Reserve(p.books, driver, x, token);
            && withdrawal == Ok(|p.books.ledger.log|) && settlement.Ok?
            && Orderly(Sent(p, driver, x, token)) && Gap(Sent(p, driver, x, token)) == Gap(p) + ReserveSlip(p.books, driver, x)
            && ReservedFacts(Sent(p, driver, x, token).books.ledger, withdrawal.value, RowOf(p.books, driver, x), token)
            && SettlementOf(Sent(p, driver, x, token).books.ledger, token) == if settle > 0.0 then Some(settlement.value) else None
  {
    hide Orderly, Reservable, Reserve, ReservedNow, SettlementOf, Column, Deducted, Owed, Available, ReservedFacts, ReserveSlip, Position;
    OrderlyIsReservable(p, driver, x, token);
    var w := RowOf(p.books, driver, x);
    ReserveCovered(p.books, driver, x, token, w.status);
    var sent := Sent(p, driver, x, token);
    ReservedIsOrderly(p, sent, w, token);
    ReservedHasFacts(p.books.ledger, sent.books.ledger, w, token);
  }

  lemma TakenBackIsOrderly(sent: Payments, id: nat, token: nat)
    requires Orderly(sent) && id in sent.withdrawals && ReservedFacts(sent.books.ledger, id, sent.withdrawals[id], token)
    ensures var settlement := SettlementOf(sent.books.ledger, token);
            Reverse(sent.books, id, settlement).1.Ok? && Orderly(TakenBack(sent, id, settlement))
            && Gap(TakenBack(sent, id, settlement)) == Gap(sent)
  {
    hide Orderly, Reverse, Recorded, SettlementOf, Undone, GroupSum, Reserved, Gap;
    OrderlyIsSturdy(sent);
    ReverseRecorded(sent.books, id, sent.withdrawals[id]);
    FailingKeepsOrderly(sent, id, TakenBack(sent, id, SettlementOf(sent.books.ledger, token)));
  }

  lemma OrderlyIsSturdy(p: Payments)
    requires Orderly(p)
    ensures Sturdy(p.books.ledger) && Indexed(p.books.ledger) && Solvent(p.books.ledger.balances)
    ensures Seeded(p.books.ledger) && DeliveriesOutside(p.books.ledger) && AllRecorded(p)
  {}

  /** A withdrawal the wallet covers, from books where the debt account is open. */
  lemma CoveredWithdrawal(p: Payments, driver: nat, x: real, token: nat, accepted: bool)
    requires Orderly(p) && Payable(driver) in p.books.ledger.balances
    requires 0.0 <= x <= Available(p.books.ledger, driver) as real && WithdrawalRef(token, Plain) !in p.books.ledger.byReference
    ensures var q := InitiateWithdrawal(p, driver, x, token, accepted);
            Orderly(q) && Gap(q) == Gap(p) + WithdrawSlip(p.books, driver, x)
  {
    hide Orderly, Reservable, Reserve, Reverse, SettlementOf, Half, InitiateWithdrawal, Deducted, Owed, Available, TakenBack, ReservedFacts,
         ReserveSlip, WithdrawSlip, Gap;
    OrderlyIsReservable(p, driver, x, token);
    SentIsOrderly(p, driver, x, token);
    ReserveSlipIs(p.books, driver, x);
    InitiateUnfolds(p, driver, x, token, accepted);
    if x != Deducted(p.books, driver, x) && !accepted {
      TakenBackIsOrderly(Sent(p, driver, x, token), Reserve(p.books, driver, x, token).1.value, token);
    }
  }

  lemma OpeningFirst(p: Payments, driver: nat, x: real, token: nat, accepted: bool)
    ensures InitiateWithdrawal(p, driver, x, token, accepted)
         == InitiateWithdrawal(p.(books := OpenPayable(p.books, driver)), driver, x, token, accepted)
  {
    hide Step, Reverse, Column, ToKobo;
    assert OpenPayable(OpenPayable(p.books, driver), driver) == OpenPayable(p.books, driver);
    assert Reserve(p.books, driver, x, token) == Reserve(OpenPayable(p.books, driver), driver, x, token);
    hide Reserve, OpenPayable;
  }

  lemma UncoveredKeepsOrderly(p: Payments, driver: nat, x: real, token: nat, accepted: bool)
    requires Orderly(p) && Payable(driver) in p.books.ledger.balances && x > Available(p.books.ledger, driver) as real
    requires WithdrawalRef(token, Plain) !in p.books.ledger.byReference
    ensures var q := InitiateWithdrawal(p, driver, x, token, accepted); Orderly(q) && Gap(q) == Gap(p)
  {
    hide Orderly, Position, Step, Reverse, Column, ToKobo, Min;
    OrderlyIsSturdy(p);
    UncoveredWithdrawal(p.books, driver, x, WithdrawalRef(token, Plain));
    RefusedWithdrawal(p.books, driver, x, token);
    assert OpenPayable(p.books, driver) == p.books;
    RefusedKeepsOrderly(p, InitiateWithdrawal(p, driver, x, token, accepted));
    hide *;
  }

  lemma SettleIsFresh(p: Payments, token: nat)
    requires AllRecorded(p) && WithdrawalRef(token, Plain) !in p.books.ledger.byReference
    ensures WithdrawalRef(token, Settle) !in p.books.ledger.byReference
  {}

  /** A withdrawal of any amount keeps everything in order and moves the gap by its slip. */
  lemma WithdrawMovesGap(p: Payments, driver: nat, x: real, token: nat, accepted: bool)
    requires Orderly(p) && x >= 0.0 && WithdrawalRef(token, Plain) !in p.books.ledger.byReference
    ensures var q := InitiateWithdrawal(p, driver, x, token, accepted);
            Orderly(q) && Gap(q) == Gap(p) + WithdrawSlip(p.books, driver, x)
  {
    hide Orderly, InitiateWithdrawal, OpenPayable, Half, Available, Owed, ClearingBalance, Gap;
    var ready := p.(books := OpenPayable(p.books, driver));
    OpeningKeepsOrderly(p, driver);
    OpeningFirst(p, driver, x, token, accepted);
    if x <= Available(p.books.ledger, driver) as real {
      CoveredWithdrawal(ready, driver, x, token, accepted);
    } else {
      UncoveredKeepsOrderly(ready, driver, x, token, accepted);
    }
  }

  /**
   A withdrawal keeps the clearing identity iff it is not half a kobo that the wallet covers, or the two
   roundings cancel or do not arise: its amount exceeds the debt exactly when clearing plus it is not negative.
   */
  lemma WithdrawKeepsIdentityIff(p: Payments, driver: nat, x: real, token: nat, accepted: bool)
    requires Orderly(p) && Identity(p) && x >= 0.0 && WithdrawalRef(token, Plain) !in p.books.ledger.byReference
    ensures Identity(InitiateWithdrawal(p, driver, x, token, accepted)) <==>
              !CoveredHalf(p.books.ledger, driver, x)
              || (x > Owed(p.books, driver) as real <==> ClearingBalance(p.books.ledger) as real + x >= 0.0)
  {
    WithdrawMovesGap(p, driver, x, token, accepted);
    hide Orderly, Gap, InitiateWithdrawal, Owed, CoveredHalf, ClearingBalance;
  }

  // ---------------------------------------------------------------- every run

  function PaySlip(p: Payments, o: PayOp): int {
    if o.Withdraw? then WithdrawSlip(p.books, o.driver, o.amount) else 0
  }

  /** One operation keeps everything in order, and moves the gap by its slip. */
  lemma StepPayMovesGap(p: Payments, o: PayOp)
    requires Orderly(p) && OwedPay(p, o)
    ensures Orderly(StepPay(p, o)) && Gap(StepPay(p, o)) == Gap(p) + PaySlip(p, o)
  {
    match o
    case Verify(v) => VerifyKeepsOrderly(p, v);
    case Withdraw(d, x, t, a) => WithdrawMovesGap(p, d, x, t, a);
    case Webhook(t, s) => WebhookKeepsOrderly(p, t, s);
    case Other(op) => OrderlyIsSturdy(p); OtherKeepsOrderly(p, op); OtherKeepsGap(p, op);
    case Dispute(id) => DisputeKeepsOrderly(p, id);
    case _ => hide Sturdy, Seeded, DeliveriesOutside, Recorded, Position;
  }

  function Slipped(p: Payments, os: seq<PayOp>): int
    decreases |os|
  {
    if os == [] then 0 else Slipped(p, os[..|os| - 1]) + PaySlip(RunPay(p, os[..|os| - 1]), os[|os| - 1])
  }

  /**
   Over every run whose callers owe their prices, withdrawals of any amount included: every withdrawal is on
   record together with its settlement and their refunds, and clearing leaves what it stands for by exactly
   the slips of the covered half-kobo withdrawals.
   */
  lemma {:induction false} RunMovesGap(p: Payments, os: seq<PayOp>)
    requires Orderly(p) && OwedPayRun(p, os)
    ensures Orderly(RunPay(p, os)) && Gap(RunPay(p, os)) == Gap(p) + Slipped(p, os)
    decreases |os|
  {
    hide Orderly, Gap, StepPay, OwedPay, PaySlip;
    if os != [] {
      RunMovesGap(p, os[..|os| - 1]);
      StepPayMovesGap(RunPay(p, os[..|os| - 1]), os[|os| - 1]);
    }
  }
}
