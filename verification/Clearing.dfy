/**
 What the clearing account stands for: what the gateway sent minus what it collected, minus what drivers and
 businesses owe, minus the referral bonuses ever accrued. Every complete operation keeps every withdrawal
 either fully recorded or fully reversed, and moves clearing from what it stands for by the slips of
 half-kobo withdrawals alone.
 */
module Clearing {
  import opened Option
  import opened Money
  import opened Ledger
  import opened WalletSpec
  import opened Effects
  import opened Transfers
  import opened PaymentsSpec
  import opened TopUps
  import opened Drift

  /** Clearing plus everything owed to the platform. */
  ghost function Position(b: Balances): int {
    GroupSum(b, Only(CLEARING)) + GroupSum(b, OfKind(DriverCommissionPayable)) + GroupSum(b, OfKind(BusinessCreditPayable))
  }

  predicate InPosition(a: Account) {
    a == CLEARING || a.kind == DriverCommissionPayable || a.kind == BusinessCreditPayable
  }

  ghost predicate OutsidePosition(es: seq<Entry>) {
    forall e <- es :: !InPosition(e.account)
  }

  /** How far the position is from what the flows say. */
  ghost function Gap(p: Payments): int {
    Position(p.books.ledger.balances) - (p.flows.sent - p.flows.collected - p.flows.accrued)
  }

  ghost predicate Identity(p: Payments) {
    Gap(p) == 0
  }

  // ---------------------------------------------------------------- withdrawals on record

  /** The withdrawal's transaction, its settlement if it settled anything, and their fate together. */
  ghost predicate Recorded(l: Ledger, id: nat, w: Withdrawal) {
    && id < |l.log| && l.log[id].reference.subject.WithdrawalOf?
    && var token := l.log[id].reference.subject.token;
    && IsTransfer(l.log[id], WithdrawalRef(token, Plain), w.amount, Owned(w.driver, DriverWallet), CLEARING)
    && 0 <= w.settled <= w.amount
    && (w.status == TransferFailed ==> l.log[id].status == Reversed)
    && (WithdrawalRef(token, Settle) !in l.byReference ==> w.settled == 0)
    && (WithdrawalRef(token, Settle) in l.byReference ==>
          SettledBy(l, l.byReference[WithdrawalRef(token, Settle)], token, w, l.log[id].status))
  }

  ghost predicate SettledBy(l: Ledger, id: nat, token: nat, w: Withdrawal, status: Status) {
    && id < |l.log|
    && IsTransfer(l.log[id], WithdrawalRef(token, Settle), w.settled, Payable(w.driver), REVENUE)
    && l.log[id].status == status
  }

  ghost predicate AllRecorded(p: Payments) {
    && (forall id <- p.withdrawals :: Recorded(p.books.ledger, id, p.withdrawals[id]))
    && (forall r <- p.books.ledger.byReference :: r.subject.WithdrawalOf? ==>
          WithdrawalRef(r.subject.token, Plain) in p.books.ledger.byReference
          && p.books.ledger.byReference[WithdrawalRef(r.subject.token, Plain)] in p.withdrawals)
  }

  /** Delivery payments never touch the accounts of the identity, so refunding one does not either. */
  ghost predicate DeliveriesOutside(l: Ledger) {
    forall i :: 0 <= i < |l.log| && l.log[i].kind == DeliveryPaymentWallet ==> OutsidePosition(l.log[i].entries)
  }

  /** What no amount breaks: every withdrawal is on record together with its settlement and their refunds. */
  ghost predicate Orderly(p: Payments) {
    Sturdy(p.books.ledger) && Seeded(p.books.ledger) && AllRecorded(p) && DeliveriesOutside(p.books.ledger)
  }

  /** And the books are valid and clearing is what it stands for. */
  ghost predicate Sound(p: Payments) {
    Orderly(p) && Valid(p.books.ledger) && Identity(p)
  }

  lemma SoundIsOrderly(p: Payments)
    requires Sound(p)
    ensures Orderly(p) && Identity(p)
  {}

  // ---------------------------------------------------------------- what callers do

  /** The wallet operations that trips, invoices, swaps and referrals use. */
  predicate CallerOp(op: Op) {
    && !op.TopUp? && !op.SettleCommission? && !op.RequestWithdrawal? && !op.RefundTransaction?
    && !op.reference.subject.WithdrawalOf? && !op.reference.subject.TopUpOf?
  }

  function Available(l: Ledger, driver: nat): int {
    if Owned(driver, DriverWallet) in l.balances then l.balances[Owned(driver, DriverWallet)] else 0
  }

  /** A withdrawal the wallet covers and that is exactly half a kobo out. */
  predicate CoveredHalf(l: Ledger, driver: nat, x: real) {
    Half(x) && x <= Available(l, driver) as real
  }

  /** What callers owe: their prices, withdrawals of any amount under a fresh token, and disputes of delivery payments. */
  ghost predicate OwedPay(p: Payments, o: PayOp) {
    match o
    case Withdraw(_, x, t, _) => x >= 0.0 && WithdrawalRef(t, Plain) !in p.books.ledger.byReference
    case Other(op) => CallerOp(op) && ProperReference(op) && (Clean(op) || FractionalSplit(op))
    case Dispute(id) => id < |p.books.ledger.log| ==> p.books.ledger.log[id].kind == DeliveryPaymentWallet
    case _ => true
  }

  ghost predicate OwedPayRun(p: Payments, os: seq<PayOp>)
    decreases |os|
  {
    os == [] || (OwedPayRun(p, os[..|os| - 1]) && OwedPay(RunPay(p, os[..|os| - 1]), os[|os| - 1]))
  }

  // ---------------------------------------------------------------- caller operations

  ghost function StoredPosition(ps: seq<Posting>): int {
    StoredSum(ps, Only(CLEARING)) + StoredSum(ps, OfKind(DriverCommissionPayable)) + StoredSum(ps, OfKind(BusinessCreditPayable))
  }

  ghost function EffectPosition(b: Books, op: Op): int {
    Effect(b, op, Only(CLEARING)) + Effect(b, op, OfKind(DriverCommissionPayable)) + Effect(b, op, OfKind(BusinessCreditPayable))
  }

  lemma StepMovesPosition(b: Books, op: Op)
    requires Solvent(b.ledger.balances) && Reversals(b.ledger) && Admissible(b.ledger, op)
    ensures Position(Step(b, op).0.ledger.balances) == Position(b.ledger.balances) + EffectPosition(b, op)
  {
    StepMovesGroup(b, op, Only(CLEARING));
    StepMovesGroup(b, op, OfKind(DriverCommissionPayable));
    StepMovesGroup(b, op, OfKind(BusinessCreditPayable));
    hide Solvent, Reversals, Admissible, Step, GroupSum, Effect;
  }

  /** Nothing of the position is touched, so nothing of it moves. */
  lemma StepLeavesPosition(b: Books, op: Op)
    requires Misses(b.ledger, op, Only(CLEARING)) && Misses(b.ledger, op, OfKind(DriverCommissionPayable))
    requires Misses(b.ledger, op, OfKind(BusinessCreditPayable))
    ensures Position(Step(b, op).0.ledger.balances) == Position(b.ledger.balances)
  {
    StepLeavesGroup(b, op, Only(CLEARING));
    StepLeavesGroup(b, op, OfKind(DriverCommissionPayable));
    StepLeavesGroup(b, op, OfKind(BusinessCreditPayable));
    hide Misses, Step, GroupSum;
  }

  lemma OutsideMovesNothing(ps: seq<Posting>)
    requires forall p <- ps :: !InPosition(p.account)
    ensures StoredPosition(ps) == 0
  {
    SumOutside(ps, Only(CLEARING));
    SumOutside(ps, OfKind(DriverCommissionPayable));
    SumOutside(ps, OfKind(BusinessCreditPayable));
  }

  lemma SplitOutside(kind: TransactionType, reference: Reference, payer: Account, driver: nat,
                     fare: real, commission: real, tax: real)
    requires !InPosition(payer)
    ensures forall p <- Split(kind, reference, payer, driver, fare, commission, tax).postings :: !InPosition(p.account)
  {}

  lemma TransferPosition(kind: TransactionType, reference: Reference, amount: real, from: Account, to: Account)
    ensures StoredPosition(Transfer(kind, reference, amount, from, to).postings)
         == Times(Column(amount), InPosition(to)) - Times(Column(amount), InPosition(from))
  {
    TransferSum(kind, reference, amount, from, to, Only(CLEARING));
    TransferSum(kind, reference, amount, from, to, OfKind(DriverCommissionPayable));
    TransferSum(kind, reference, amount, from, to, OfKind(BusinessCreditPayable));
    hide Column, StoredSum;
  }

  lemma InvoicePosition(op: Op)
    requires op.PayInvoice?
    ensures StoredPosition(InvoicePayment(op).postings) == 0 && StoredPosition(InvoiceSettlement(op).postings) == 0
  {
    SplitOutside(BusinessInvoicePayment, op.reference, Owned(op.business, BusinessWallet), op.driver, op.fare, op.commission, op.tax);
    OutsideMovesNothing(InvoicePayment(op).postings);
    TransferPosition(BusinessInvoicePayment, Settling(op), op.fare, CreditLine(op.business), CLEARING);
    hide StoredPosition, Split, Column;
  }

  lemma PlanPosition(op: Op)
    requires CallerOp(op) && !op.PayInvoice?
    ensures StoredPosition(PlanOf(op).request.postings) == if op.RecordReferralAccrual? then -Column(op.amount) else 0
  {
    if op.PayForRide? || op.PayForDelivery? {
      SplitOutside(PlanOf(op).request.kind, op.reference, Owned(op.payer, RiderWallet), op.driver, op.fare, op.commission, op.tax);
      OutsideMovesNothing(PlanOf(op).request.postings);
    } else {
      var r := PlanOf(op).request;
      TransferPosition(r.kind, op.reference, op.amount, r.postings[0].account, r.postings[1].account);
    }
    hide StoredPosition, Split, Column;
  }

  /** Among the callers' operations only a referral accrual moves the position. */
  lemma CallerPosition(b: Books, op: Op)
    requires CallerOp(op) && Admissible(b.ledger, op)
    ensures EffectPosition(b, op)
         == if op.RecordReferralAccrual? && Step(b, op).1.Ok? && op.reference !in b.ledger.byReference
            then -Column(op.amount) else 0
  {
    hide Step, Admissible, PlanOf, InvoicePayment, InvoiceSettlement, Column, StoredSum;
    if op.PayInvoice? {
      InvoicePosition(op);
    } else {
      PlanPosition(op);
    }
  }

  // ---------------------------------------------------------------- records survive additions

  lemma AddsKeepsRecords(p: Payments, q: Payments, names: set<Reference>)
    requires AllRecorded(p) && q.withdrawals == p.withdrawals && Indexed(q.books.ledger)
    requires Adds(p.books.ledger, q.books.ledger, names) && forall r <- names :: !r.subject.WithdrawalOf?
    ensures AllRecorded(q)
  {
    var l, m := p.books.ledger, q.books.ledger;
    forall id <- q.withdrawals
      ensures Recorded(m, id, q.withdrawals[id])
    {
      assert Recorded(l, id, p.withdrawals[id]) && m.log[id] == l.log[id];
      var settle := WithdrawalRef(l.log[id].reference.subject.token, Settle);
      assert settle in m.byReference ==> settle in l.byReference;
    }
    forall r <- m.byReference | r.subject.WithdrawalOf?
      ensures WithdrawalRef(r.subject.token, Plain) in m.byReference
      ensures m.byReference[WithdrawalRef(r.subject.token, Plain)] in q.withdrawals
    {
      assert r in l.byReference;
    }
  }

  /** Transactions of the delivery-payment kind come only from delivery payments. */
  lemma PostKeepsDeliveriesOutside(l: Ledger, req: Request, reverses: Option<nat>)
    requires DeliveriesOutside(l)
    requires req.kind == DeliveryPaymentWallet ==> forall p <- req.postings :: !InPosition(p.account)
    ensures DeliveriesOutside(PostReversing(l, req, reverses).0)
  {
    var m := PostReversing(l, req, reverses).0;
    forall i | 0 <= i < |m.log| && m.log[i].kind == DeliveryPaymentWallet
      ensures OutsidePosition(m.log[i].entries)
    {
      if i == |l.log| {
        forall e <- m.log[i].entries
          ensures !InPosition(e.account)
        {
          var j :| 0 <= j < |m.log[i].entries| && m.log[i].entries[j] == e;
          assert req.postings[j] in req.postings;
        }
      } else {
        assert m.log[i] == l.log[i];
      }
    }
  }

  lemma ExecuteKeepsDeliveriesOutside(b: Books, op: Op, plan: Plan)
    requires DeliveriesOutside(b.ledger)
    requires plan.request.kind == DeliveryPaymentWallet ==> forall p <- plan.request.postings :: !InPosition(p.account)
    ensures DeliveriesOutside(Execute(b, op, plan).0.ledger)
  {
    OpenAllGrows(b.ledger, plan.opens);
    PostKeepsDeliveriesOutside(OpenAll(b.ledger, plan.opens), plan.request, None);
    hide PostReversing, OpenAll, DeliveriesOutside;
    SameLogOutside(b.ledger, OpenAll(b.ledger, plan.opens));
  }

  lemma SameLogOutside(l: Ledger, m: Ledger)
    requires DeliveriesOutside(l) && m.log == l.log
    ensures DeliveriesOutside(m)
  {}

  lemma InvoiceKeepsDeliveriesOutside(l: Ledger, op: Op)
    requires DeliveriesOutside(l) && op.PayInvoice?
    ensures DeliveriesOutside(PayInvoiceStep(l, op).0)
  {
    var accounts := [Owned(op.business, BusinessWallet), Owned(op.driver, DriverWallet), CreditLine(op.business)];
    var ready := OpenAll(l, accounts);
    OpenAllGrows(l, accounts);
    SameLogOutside(l, ready);
    PostKeepsDeliveriesOutside(ready, InvoicePayment(op), None);
    PostKeepsDeliveriesOutside(Post(ready, InvoicePayment(op)).0, InvoiceSettlement(op), None);
    hide PostReversing, OpenAll, DeliveriesOutside, Missing;
  }

  lemma StepKeepsDeliveriesOutside(b: Books, op: Op)
    requires DeliveriesOutside(b.ledger)
    ensures DeliveriesOutside(Step(b, op).0.ledger)
  {
    hide Execute, PayInvoiceStep;
    if op.RefundTransaction? {
      if op.transaction < |b.ledger.log| && b.ledger.log[op.transaction].status == Completed {
        PostKeepsDeliveriesOutside(b.ledger, RefundRequest(b.ledger, op.transaction), Some(op.transaction));
      }
    } else if op.PayInvoice? {
      InvoiceKeepsDeliveriesOutside(b.ledger, op);
    } else {
      if op.PayForDelivery? {
        SplitOutside(DeliveryPaymentWallet, op.reference, Owned(op.payer, RiderWallet), op.driver, op.fare, op.commission, op.tax);
      }
      ExecuteKeepsDeliveriesOutside(b, op, PlanOf(op));
    }
  }

  /** The callers' operations keep the gap, fractions and all: what is split never touches the position. */
  lemma OtherKeepsGap(p: Payments, op: Op)
    requires Sturdy(p.books.ledger) && OwedPay(p, Other(op))
    ensures Gap(StepPay(p, Other(op))) == Gap(p)
  {
    hide Step, Position, EffectPosition, Column, CleanSplit, Misses, Split, Solvent, Reversals, Indexed, Wellformed;
    if op.PayForRide? || op.PayForDelivery? {
      SplitMissesPosition(p.books.ledger, op);
      StepLeavesPosition(p.books, op);
    } else {
      assert Admissible(p.books.ledger, op);
      StepMovesPosition(p.books, op);
      CallerPosition(p.books, op);
    }
  }

  lemma SplitMissesPosition(l: Ledger, op: Op)
    requires op.PayForRide? || op.PayForDelivery?
    ensures Misses(l, op, Only(CLEARING)) && Misses(l, op, OfKind(DriverCommissionPayable))
    ensures Misses(l, op, OfKind(BusinessCreditPayable))
  {
    SplitOutside(PlanOf(op).request.kind, op.reference, Owned(op.payer, RiderWallet), op.driver, op.fare, op.commission, op.tax);
    hide Split;
  }

  lemma SturdyIsIndexed(l: Ledger)
    requires Sturdy(l)
    ensures Indexed(l) && Wellformed(l) && Solvent(l.balances) && Reversals(l)
  {}

  lemma OtherKeepsOrderly(p: Payments, op: Op)
    requires Orderly(p) && OwedPay(p, Other(op))
    ensures Orderly(StepPay(p, Other(op)))
  {
    hide Step, Sturdy, DeliveriesOutside, Seeded, Grows, AllRecorded, Clean, CleanSplit, Indexed, Adds;
    var q := StepPay(p, Other(op));
    StepKeepsSturdy(p.books, op);
    StepGrows(p.books, op);
    StepKeepsDeliveriesOutside(p.books, op);
    GrowsKeeps(p.books.ledger, q.books.ledger, 0);
    SturdyIsIndexed(q.books.ledger);
    AddsKeepsRecords(p, q, Names(op));
  }

  // ---------------------------------------------------------------- verified payments

  lemma OpenPayableAdds(b: Books, driver: nat)
    ensures Adds(b.ledger, OpenPayable(b, driver).ledger, {})
  {}

  lemma AddsMore(l: Ledger, m: Ledger, names: set<Reference>, more: set<Reference>)
    requires Adds(l, m, names) && names <= more
    ensures Adds(l, m, more)
  {}

  function TopUpNames(token: nat): set<Reference> {
    {TopUpRef(token, Plain), TopUpRef(token, Settle), TopUpRef(token, CreditPart)}
  }

  lemma StepAddsWithin(k: Ledger, b: Books, op: Op, names: set<Reference>)
    requires Adds(k, b.ledger, names) && DeliveriesOutside(b.ledger) && !op.RefundTransaction? && Names(op) <= names
    ensures Adds(k, Step(b, op).0.ledger, names) && DeliveriesOutside(Step(b, op).0.ledger)
  {
    hide Adds, Step, DeliveriesOutside;
    StepGrows(b, op);
    AddsMore(b.ledger, Step(b, op).0.ledger, Names(op), names);
    AddsTransitive(k, b.ledger, Step(b, op).0.ledger, names);
    StepKeepsDeliveriesOutside(b, op);
  }

  lemma CreditTopUpAdds(b: Books, drives: bool, user: nat, kobo: nat, token: nat)
    requires DeliveriesOutside(b.ledger)
    ensures Adds(b.ledger, CreditTopUp(b, drives, user, kobo, token).0.ledger, TopUpNames(token))
    ensures DeliveriesOutside(CreditTopUp(b, drives, user, kobo, token).0.ledger)
  {
    hide Adds, Step;
    var ready := if drives then OpenPayable(b, user) else b;
    SameAdds(b.ledger, TopUpNames(token));
    OpenPayableAdds(b, user);
    AddsMore(b.ledger, OpenPayable(b, user).ledger, {}, TopUpNames(token));
    if drives && Owed(ready, user) > 0 {
      var settle := Min(Owed(ready, user) as real, kobo as real);
      StepAddsWithin(b.ledger, ready, SettleCommission(user, settle, TopUpRef(token, Settle)), TopUpNames(token));
      StepAddsWithin(b.ledger, Step(ready, SettleCommission(user, settle, TopUpRef(token, Settle))).0,
                     TopUp(user, kobo as real - settle, TopUpRef(token, CreditPart)), TopUpNames(token));
    } else {
      StepAddsWithin(b.ledger, ready, TopUp(user, kobo as real, TopUpRef(token, Plain)), TopUpNames(token));
    }
  }

  lemma CreditsMovePosition(l: Ledger, m: Ledger, user: nat, settled: nat, kobo: nat)
    requires Credits(l, m, user, settled, kobo)
    ensures Position(m.balances) == Position(l.balances) - kobo
  {
    hide GroupSum;
  }

  lemma VerifyKeepsOrderly(p: Payments, v: Verified)
    requires Orderly(p)
    ensures Orderly(StepPay(p, Verify(v))) && Gap(StepPay(p, Verify(v))) == Gap(p)
  {
    hide Sturdy, Seeded, Credits, CreditTopUp, Settled, Credited, Position, Adds, Indexed, DeliveriesOutside, Recorded;
    var q := StepPay(p, Verify(v));
    if v.status == Success && v.user.Some? && v.user.value in p.drives && !Credited(p.books.ledger, v.token) {
      var user, drives := v.user.value, p.drives[v.user.value];
      FirstPassCredits(p.books, drives, user, v.kobo, v.token);
      CreditKeepsSturdy(p.books, drives, user, v.kobo, v.token);
      CreditTopUpAdds(p.books, drives, user, v.kobo, v.token);
      CreditsMovePosition(p.books.ledger, q.books.ledger, user, Settled(p.books, drives, user, v.kobo), v.kobo);
      SturdyIsIndexed(q.books.ledger);
      AddsKeepsRecords(p, q, TopUpNames(v.token));
    } else {
      assert SameMoney(p, q);
    }
  }

  // ---------------------------------------------------------------- reversals

  /** Reversing a transfer to a platform account succeeds, and takes back exactly what it moved. */
  lemma RefundStep(b: Books, id: nat, reference: Reference, amount: int, from: Account, to: Account)
    requires Sturdy(b.ledger) && id < |b.ledger.log| && b.ledger.log[id].status == Completed
    requires IsTransfer(b.ledger.log[id], reference, amount, from, to) && to.Platform?
    ensures var (after, outcome) := Step(b, RefundTransaction(id));
            var l, m := b.ledger, after.ledger;
            && outcome == Ok(|l.log|) && Sturdy(m) && Indexed(m) && |m.log| == |l.log| + 1
            && (forall i :: 0 <= i < |l.log| ==> m.log[i] == if i == id then l.log[i].(status := Reversed) else l.log[i])
            && RefundRef(id) !in l.byReference && m.byReference == l.byReference[RefundRef(id) := |l.log|]
            && m.balances.Keys == l.balances.Keys
            && (forall g: Group :: GroupSum(m.balances, g) == GroupSum(l.balances, g)
                  - (if g.Has(to) then amount else 0) + (if g.Has(from) then amount else 0))
  {
    hide Sturdy, Indexed, Wellformed, Solvent, Reversals, Refund, GroupSum, EntrySum, IsTransfer;
    var l := b.ledger;
    IsTransferSum(l.log[id], reference, amount, from, to, Everything);
    TransferCreditsPlatform(l.log[id], reference, amount, from, to);
    SturdyIsIndexed(l);
    CompletedIsUnrefunded(l, id);
    RefundSucceeds(l, id);
    RefundKeepsSturdy(l, id);
    SturdyIsIndexed(Refund(l, id).0);
    hide CreditsPlatform;
    forall g: Group
      ensures GroupSum(Refund(l, id).0.balances, g) == GroupSum(l.balances, g)
           - (if g.Has(to) then amount else 0) + (if g.Has(from) then amount else 0)
    {
      RefundUndoes(l, id, g);
      IsTransferSum(l.log[id], reference, amount, from, to, g);
      hide *;
    }
  }

  lemma TransferCreditsPlatform(t: Transaction, reference: Reference, amount: int, from: Account, to: Account)
    requires IsTransfer(t, reference, amount, from, to) && to.Platform?
    ensures CreditsPlatform(t.entries)
  {}

  function SettlementOf(l: Ledger, token: nat): Option<nat> {
    if WithdrawalRef(token, Settle) in l.byReference then Some(l.byReference[WithdrawalRef(token, Settle)]) else None
  }

  /** What reversing a recorded withdrawal leaves behind. */
  ghost predicate Undone(l: Ledger, m: Ledger, id: nat, settlement: Option<nat>) {
    && Sturdy(m) && Indexed(m) && |l.log| <= |m.log| && m.balances.Keys == l.balances.Keys
    && (forall i :: 0 <= i < |l.log| ==>
          m.log[i] == if i == id || settlement == Some(i) then l.log[i].(status := Reversed) else l.log[i])
    && (forall r <- l.byReference :: r in m.byReference && m.byReference[r] == l.byReference[r])
    && (forall r <- m.byReference :: r in l.byReference || r.subject.RefundOf?)
  }

  /** The transfers a group sees of a withdrawal and of its settlement. */
  ghost function Reserved(w: Withdrawal, g: Group): int {
    Times(w.amount, g.Has(CLEARING)) - Times(w.amount, g.Has(Owned(w.driver, DriverWallet)))
    + Times(w.settled, g.Has(REVENUE)) - Times(w.settled, g.Has(Payable(w.driver)))
  }

  lemma RefundLeaves(b: Books, id: nat, reference: Reference, amount: int, from: Account, to: Account)
    requires Sturdy(b.ledger) && Indexed(b.ledger) && id < |b.ledger.log| && b.ledger.log[id].status == Completed
    requires IsTransfer(b.ledger.log[id], reference, amount, from, to) && to.Platform?
    ensures Step(b, RefundTransaction(id)).1.Ok? && Undone(b.ledger, Step(b, RefundTransaction(id)).0.ledger, id, None)
    ensures forall g: Group :: GroupSum(Step(b, RefundTransaction(id)).0.ledger.balances, g)
              == GroupSum(b.ledger.balances, g) - Times(amount, g.Has(to)) + Times(amount, g.Has(from))
  {
    hide Sturdy, Indexed, Step, GroupSum, IsTransfer;
    RefundStep(b, id, reference, amount, from, to);
  }

  lemma UndoneTwice(k: Ledger, l: Ledger, m: Ledger, id: nat, settlement: nat)
    requires Undone(k, l, id, None) && Undone(l, m, settlement, None)
    requires settlement < |k.log|
    ensures Undone(k, m, id, Some(settlement))
  {
    hide Sturdy, Indexed;
  }

  lemma ReverseRecorded(b: Books, id: nat, w: Withdrawal)
    requires Sturdy(b.ledger) && Recorded(b.ledger, id, w) && b.ledger.log[id].status == Completed
    ensures var settlement := SettlementOf(b.ledger, b.ledger.log[id].reference.subject.token);
            var (after, outcome) := Reverse(b, id, settlement);
            && outcome.Ok? && Undone(b.ledger, after.ledger, id, settlement)
            && (forall g: Group :: GroupSum(after.ledger.balances, g) == GroupSum(b.ledger.balances, g) - Reserved(w, g))
  {
    hide Sturdy, Indexed, Step, GroupSum, IsTransfer;
    var l := b.ledger;
    var token := l.log[id].reference.subject.token;
    var settlement := SettlementOf(l, token);
    SturdyIsIndexed(l);
    RefundLeaves(b, id, WithdrawalRef(token, Plain), w.amount, Owned(w.driver, DriverWallet), CLEARING);
    var restored := Step(b, RefundTransaction(id)).0;
    if settlement.Some? {
      assert settlement.value != id by { IsTransferReference(l, id, settlement.value, token, w); }
      assert restored.ledger.log[settlement.value] == l.log[settlement.value];
      RefundLeaves(restored, settlement.value, WithdrawalRef(token, Settle), w.settled, Payable(w.driver), REVENUE);
      UndoneTwice(l, restored.ledger, Step(restored, RefundTransaction(settlement.value)).0.ledger, id, settlement.value);
    }
  }

  lemma IsTransferReference(l: Ledger, id: nat, settlement: nat, token: nat, w: Withdrawal)
    requires id < |l.log| && settlement < |l.log|
    requires IsTransfer(l.log[id], WithdrawalRef(token, Plain), w.amount, Owned(w.driver, DriverWallet), CLEARING)
    requires IsTransfer(l.log[settlement], WithdrawalRef(token, Settle), w.settled, Payable(w.driver), REVENUE)
    ensures settlement != id
  {}

  /** One withdrawal's record survives the reversal of any one. */
  lemma UndoneKeepsRecord(l: Ledger, m: Ledger, id: nat, i: nat, w: Withdrawal, reversed: Withdrawal)
    requires Indexed(l) && Recorded(l, i, w) && id < |l.log| && l.log[id].reference.subject.WithdrawalOf?
    requires l.log[id].reference == WithdrawalRef(l.log[id].reference.subject.token, Plain)
    requires Undone(l, m, id, SettlementOf(l, l.log[id].reference.subject.token))
    requires reversed == if i == id then w.(status := TransferFailed) else w
    ensures Recorded(m, i, reversed)
  {
    hide Sturdy;
    var token := l.log[i].reference.subject.token;
    assert WithdrawalRef(token, Settle) in m.byReference <==> WithdrawalRef(token, Settle) in l.byReference;
    if i != id {
      assert l.log[i].reference != l.log[id].reference;
    }
  }

  lemma RecordedShape(l: Ledger, id: nat, w: Withdrawal)
    requires Recorded(l, id, w)
    ensures id < |l.log| && l.log[id].reference.subject.WithdrawalOf?
    ensures l.log[id].reference == WithdrawalRef(l.log[id].reference.subject.token, Plain)
  {}

  lemma UndoneKeepsRecords(p: Payments, q: Payments, id: nat)
    requires AllRecorded(p) && Indexed(p.books.ledger) && id in p.withdrawals
    requires var token := p.books.ledger.log[id].reference.subject.token;
             Undone(p.books.ledger, q.books.ledger, id, SettlementOf(p.books.ledger, token))
    requires q.withdrawals == p.withdrawals[id := p.withdrawals[id].(status := TransferFailed)]
    ensures AllRecorded(q)
  {
    hide Sturdy, Recorded, SettlementOf;
    var l, m := p.books.ledger, q.books.ledger;
    assert Recorded(l, id, p.withdrawals[id]);
    RecordedShape(l, id, p.withdrawals[id]);
    forall i <- q.withdrawals
      ensures Recorded(m, i, q.withdrawals[i])
    {
      assert Recorded(l, i, p.withdrawals[i]);
      UndoneKeepsRecord(l, m, id, i, p.withdrawals[i], q.withdrawals[i]);
    }
    forall r <- m.byReference | r.subject.WithdrawalOf?
      ensures WithdrawalRef(r.subject.token, Plain) in m.byReference
      ensures m.byReference[WithdrawalRef(r.subject.token, Plain)] in q.withdrawals
    {
      assert r in l.byReference;
    }
  }

  lemma ReservedPosition(l: Ledger, m: Ledger, w: Withdrawal)
    requires forall g: Group :: GroupSum(m.balances, g) == GroupSum(l.balances, g) - Reserved(w, g)
    ensures Position(m.balances) == Position(l.balances) - (w.amount - w.settled)
  {
    hide GroupSum;
  }

  lemma ReverseKeepsDeliveriesOutside(b: Books, id: nat, settlement: Option<nat>)
    requires DeliveriesOutside(b.ledger)
    ensures DeliveriesOutside(Reverse(b, id, settlement).0.ledger)
  {
    hide Step, DeliveriesOutside;
    StepKeepsDeliveriesOutside(b, RefundTransaction(id));
    if settlement.Some? {
      StepKeepsDeliveriesOutside(Step(b, RefundTransaction(id)).0, RefundTransaction(settlement.value));
    }
  }

  /** Reversing a recorded withdrawal keeps everything in order, and the gap, with the transfer unsent. */
  lemma FailingKeepsOrderly(p: Payments, id: nat, q: Payments)
    requires Orderly(p) && id in p.withdrawals && p.books.ledger.log[id].status == Completed
    requires var w := p.withdrawals[id];
             var settlement := SettlementOf(p.books.ledger, p.books.ledger.log[id].reference.subject.token);
             && q.books == Reverse(p.books, id, settlement).0
             && q.withdrawals == p.withdrawals[id := w.(status := TransferFailed)]
             && q.flows == Send(p.flows, w.settled - w.amount)
    ensures Orderly(q) && Gap(q) == Gap(p)
  {
    hide Sturdy, Indexed, Reverse, GroupSum, Position, Seeded, DeliveriesOutside, Undone;
    var w := p.withdrawals[id];
    assert Recorded(p.books.ledger, id, w);
    var settlement := SettlementOf(p.books.ledger, p.books.ledger.log[id].reference.subject.token);
    ReverseRecorded(p.books, id, w);
    ReservedPosition(p.books.ledger, q.books.ledger, w);
    ReverseKeepsDeliveriesOutside(p.books, id, settlement);
    SturdyIsIndexed(p.books.ledger);
    UndoneKeepsRecords(p, q, id);
    UndoneIsSturdy(p.books.ledger, q.books.ledger, id, settlement);
  }

  lemma UndoneIsSturdy(l: Ledger, m: Ledger, id: nat, settlement: Option<nat>)
    requires Undone(l, m, id, settlement) && Seeded(l)
    ensures Sturdy(m) && Seeded(m)
  {}

  /** The transaction a report is about, as the request recorded it. */
  lemma WebhookTarget(p: Payments, token: nat)
    requires Orderly(p) && WithdrawalRef(token, Plain) in p.books.ledger.byReference
    requires p.books.ledger.byReference[WithdrawalRef(token, Plain)] in p.withdrawals
    ensures var l, id := p.books.ledger, p.books.ledger.byReference[WithdrawalRef(token, Plain)];
            id < |l.log| && l.log[id].reference == WithdrawalRef(token, Plain) && Recorded(l, id, p.withdrawals[id])
  {
    hide Sturdy, Seeded, DeliveriesOutside, Recorded;
    var id := p.books.ledger.byReference[WithdrawalRef(token, Plain)];
    assert Recorded(p.books.ledger, id, p.withdrawals[id]);
    SturdyIsIndexed(p.books.ledger);
  }

  /** A success report only changes a status, and not to FAILED. */
  lemma CompletingKeepsOrderly(p: Payments, id: nat)
    requires Orderly(p) && id in p.withdrawals
    ensures var q := p.(withdrawals := p.withdrawals[id := p.withdrawals[id].(status := TransferCompleted)]);
            Orderly(q) && Gap(q) == Gap(p)
  {
    hide Sturdy, Seeded, DeliveriesOutside, Position;
    var q := p.(withdrawals := p.withdrawals[id := p.withdrawals[id].(status := TransferCompleted)]);
    forall i <- q.withdrawals
      ensures Recorded(q.books.ledger, i, q.withdrawals[i])
    {
      assert Recorded(p.books.ledger, i, p.withdrawals[i]);
    }
  }

  lemma WebhookKeepsOrderly(p: Payments, token: nat, succeeded: bool)
    requires Orderly(p)
    ensures Orderly(StepPay(p, Webhook(token, succeeded))) && Gap(StepPay(p, Webhook(token, succeeded))) == Gap(p)
  {
    hide Reverse, Position, Recorded, Orderly;
    var known := p.books.ledger.byReference;
    if WithdrawalRef(token, Plain) in known && known[WithdrawalRef(token, Plain)] in p.withdrawals {
      var id := known[WithdrawalRef(token, Plain)];
      WebhookTarget(p, token);
      if succeeded {
        CompletingKeepsOrderly(p, id);
      } else if p.books.ledger.log[id].status == Completed {
        FailingUndoes(p, id);
        FailingKeepsOrderly(p, id, StepPay(p, Webhook(token, succeeded)));
      } else {
        ReverseTwiceFails(p.books, id, SettlementOf(p.books.ledger, token));
      }
    }
  }

  /** A withdrawal is refunded at most once: a second failure report changes nothing. */
  lemma ReverseTwiceFails(b: Books, id: nat, settlement: Option<nat>)
    requires id < |b.ledger.log| && b.ledger.log[id].status == Reversed
    ensures Reverse(b, id, settlement) == (b, Err(AlreadyRefunded))
  {}

  // ---------------------------------------------------------------- disputes

  lemma RefundMissesPosition(l: Ledger, id: nat)
    requires id < |l.log| && OutsidePosition(l.log[id].entries)
    ensures Misses(l, RefundTransaction(id), Only(CLEARING)) && Misses(l, RefundTransaction(id), OfKind(DriverCommissionPayable))
    ensures Misses(l, RefundTransaction(id), OfKind(BusinessCreditPayable))
  {}

  lemma DisputeKeepsOrderly(p: Payments, id: nat)
    requires Orderly(p) && OwedPay(p, Dispute(id))
    ensures Orderly(StepPay(p, Dispute(id))) && Gap(StepPay(p, Dispute(id))) == Gap(p)
  {
    hide Sturdy, Position, Grows, AllRecorded, Seeded, Refund, Execute, PayInvoiceStep, Reversals;
    var l := p.books.ledger;
    var q := StepPay(p, Dispute(id));
    if id >= |l.log| || l.log[id].status == Reversed || Step(p.books, RefundTransaction(id)).1.Err? {
      FailedRefundIsNothing(l, id);
      assert q == p;
    } else {
      assert OutsidePosition(l.log[id].entries);
      SturdyIsIndexed(l);
      RefundMissesPosition(l, id);
      StepLeavesPosition(p.books, RefundTransaction(id));
      StepKeepsSturdy(p.books, RefundTransaction(id));
      StepKeepsDeliveriesOutside(p.books, RefundTransaction(id));
      StepGrows(p.books, RefundTransaction(id));
      GrowsKeeps(l, q.books.ledger, 0);
      CompletedIsUnrefunded(l, id);
      RefundShape(l, id);
      DisputeKeepsRecords(p, q, id);
    }
  }

  lemma DisputeKeepsRecords(p: Payments, q: Payments, id: nat)
    requires AllRecorded(p) && id < |p.books.ledger.log| && OutsidePosition(p.books.ledger.log[id].entries)
    requires q.withdrawals == p.withdrawals
    requires var l, m := p.books.ledger, q.books.ledger;
             && RefundRef(id) !in l.byReference && m.byReference == l.byReference[RefundRef(id) := |l.log|]
             && |m.log| == |l.log| + 1
             && forall i :: 0 <= i < |l.log| ==> m.log[i] == if i == id then l.log[i].(status := Reversed) else l.log[i]
    ensures AllRecorded(q)
  {
    var l, m := p.books.ledger, q.books.ledger;
    forall i <- p.withdrawals
      ensures Recorded(m, i, p.withdrawals[i])
    {
      var w := p.withdrawals[i];
      assert Recorded(l, i, w);
      assert InPosition(l.log[i].entries[1].account) && l.log[i].entries[1] in l.log[i].entries;
      assert i != id;
      var settle := WithdrawalRef(l.log[i].reference.subject.token, Settle);
      if settle in l.byReference {
        var s := l.byReference[settle];
        assert SettledBy(l, s, settle.subject.token, w, l.log[i].status);
        assert InPosition(l.log[s].entries[0].account) && l.log[s].entries[0] in l.log[s].entries;
        assert s != id;
      }
    }
    forall r <- m.byReference | r.subject.WithdrawalOf?
      ensures WithdrawalRef(r.subject.token, Plain) in m.byReference
      ensures m.byReference[WithdrawalRef(r.subject.token, Plain)] in q.withdrawals
    {
      assert r in l.byReference;
    }
  }

  // ---------------------------------------------------------------- what the invariant means for a withdrawal

  /** A reversed withdrawal, its refund, its settlement and that one's refund move nothing altogether. */
  lemma ReversedWithdrawalNetsToZero(p: Payments, id: nat, g: Group)
    requires Orderly(p) && id in p.withdrawals && p.books.ledger.log[id].status == Reversed
    ensures var l, known := p.books.ledger, p.books.ledger.byReference;
            var settlement := SettlementOf(l, l.log[id].reference.subject.token);
            && RefundRef(id) in known
            && EntrySum(l.log[id].entries, g) + EntrySum(l.log[known[RefundRef(id)]].entries, g) == 0
            && (settlement.Some? ==>
                  RefundRef(settlement.value) in known
                  && EntrySum(l.log[settlement.value].entries, g)
                     + EntrySum(l.log[known[RefundRef(settlement.value)]].entries, g) == 0)
  {
    var l := p.books.ledger;
    var w := p.withdrawals[id];
    assert Recorded(l, id, w);
    ReversalNetsToZero(l, id, g);
    var settlement := SettlementOf(l, l.log[id].reference.subject.token);
    if settlement.Some? {
      assert SettledBy(l, settlement.value, l.log[id].reference.subject.token, w, l.log[id].status);
      ReversalNetsToZero(l, settlement.value, g);
    }
  }

  /** A failure report for a withdrawal still standing always succeeds in reversing it, and is final for the money. */
  lemma FailureReverses(p: Payments, token: nat)
    requires Orderly(p) && WithdrawalRef(token, Plain) in p.books.ledger.byReference
    ensures var id := p.books.ledger.byReference[WithdrawalRef(token, Plain)];
            var q := ProcessTransferWebhook(p, token, false);
            && id in p.withdrawals && id < |q.books.ledger.log| && q.books.ledger.log[id].status == Reversed
            && ProcessTransferWebhook(q, token, false) == q
            && id in q.withdrawals && WithdrawalRef(token, Plain) in q.books.ledger.byReference
            && q.books.ledger.byReference[WithdrawalRef(token, Plain)] == id
  {
    hide Reverse, Position, Seeded, DeliveriesOutside, Recorded, GroupSum, Undone;
    var l := p.books.ledger;
    var id := l.byReference[WithdrawalRef(token, Plain)];
    assert WithdrawalRef(token, Plain).subject.WithdrawalOf?;
    assert id in p.withdrawals;
    WebhookTarget(p, token);
    hide AllRecorded, Orderly;
    var q := ProcessTransferWebhook(p, token, false);
    if l.log[id].status == Completed {
      FailingUndoes(p, id);
    } else {
      ReverseTwiceFails(p.books, id, SettlementOf(l, token));
    }
    ReverseTwiceFails(q.books, id, SettlementOf(q.books.ledger, token));
  }

  /** Reversing a standing withdrawal marks it and keeps every reference. */
  lemma FailingUndoes(p: Payments, id: nat)
    requires Orderly(p) && id in p.withdrawals && id < |p.books.ledger.log| && p.books.ledger.log[id].status == Completed
    requires Recorded(p.books.ledger, id, p.withdrawals[id])
    ensures var l := p.books.ledger;
            var (restored, outcome) := Reverse(p.books, id, SettlementOf(l, l.log[id].reference.subject.token));
            && outcome.Ok? && id < |restored.ledger.log| && restored.ledger.log[id].status == Reversed
            && forall r <- l.byReference :: r in restored.ledger.byReference && restored.ledger.byReference[r] == l.byReference[r]
  {
    hide AllRecorded, Reverse, Position, DeliveriesOutside;
    ReverseRecorded(p.books, id, p.withdrawals[id]);
    hide Recorded, SettlementOf;
  }

  /** A success report after a failure report marks the request COMPLETED although its money went back. */
  lemma SuccessAfterFailure(p: Payments, token: nat)
    requires Orderly(p) && WithdrawalRef(token, Plain) in p.books.ledger.byReference
    ensures var id := p.books.ledger.byReference[WithdrawalRef(token, Plain)];
            var q := ProcessTransferWebhook(ProcessTransferWebhook(p, token, false), token, true);
            && id in q.withdrawals && q.withdrawals[id].status == TransferCompleted
            && id < |q.books.ledger.log| && q.books.ledger.log[id].status == Reversed
  {
    hide Reverse, Orderly;
    FailureReverses(p, token);
  }

  /** The four platform accounts at zero, and nothing else. */
  function SeededPayments(drives: map<nat, bool>): Payments {
    Payments(Books(Ledger(map[CLEARING := 0, REVENUE := 0, REFERRALS := 0, TAX := 0], [], map[]), map[]),
             drives, map[], map[], Flows(0, 0, 0))
  }

  /** Freshly seeded books are sound, so all of the above describes real runs. */
  lemma SeededBooksAreSound(drives: map<nat, bool>)
    ensures Sound(SeededPayments(drives))
  {
    var b: Balances := map[CLEARING := 0, REVENUE := 0, REFERRALS := 0, TAX := 0];
    forall g: Group
      ensures GroupSum(b, g) == 0
    {
      GroupSumUpdate(map[], g, CLEARING, 0);
      GroupSumUpdate(map[CLEARING := 0], g, REVENUE, 0);
      GroupSumUpdate(map[CLEARING := 0, REVENUE := 0], g, REFERRALS, 0);
      GroupSumUpdate(map[CLEARING := 0, REVENUE := 0, REFERRALS := 0], g, TAX, 0);
      assert b == map[CLEARING := 0, REVENUE := 0, REFERRALS := 0][TAX := 0];
      assert map[CLEARING := 0, REVENUE := 0, REFERRALS := 0] == map[CLEARING := 0, REVENUE := 0][REFERRALS := 0];
      assert map[CLEARING := 0, REVENUE := 0] == map[CLEARING := 0][REVENUE := 0];
      assert map[CLEARING := 0] == map[][CLEARING := 0];
    }
  }
}
