/**
 When each wallet operation commits, what it writes, and that repeating it does nothing: the same reference
 gives the same transaction again, whatever has happened in between.
 */
module WalletOutcomes {
  import opened Option
  import opened Money
  import opened Ledger
  import opened WalletSpec
  import opened Effects
  import opened Movements
  import opened Transfers
  import opened Drift
  import opened TopUps

  // ---------------------------------------------------------------- one request

  lemma TransferCommitsIff(l: Ledger, kind: TransactionType, reference: Reference, amount: real, from: Account, to: Account)
    requires from in l.balances && to in l.balances && from != to && amount >= 0.0 && reference !in l.byReference
    ensures Post(l, Transfer(kind, reference, amount, from, to)).1.Ok? <==> (from.Owned? ==> l.balances[from] as real >= amount)
  {
    if CanTransfer(l, amount, from, to) {
      TransferPosts(l, kind, reference, amount, from, to);
    } else {
      var ps := Transfer(kind, reference, amount, from, to).postings;
      assert ps[..1] == [ps[0]] && ps[..1][..0] == [];
      assert Apply(l.balances, ps[..1]).Err?;
    }
    hide Column, Balanced;
  }

  lemma SplitBalances(ps: seq<Posting>, fare: real, commission: real, tax: real)
    requires |ps| >= 3 && tax >= 0.0
    requires ps[0].direction.Debit? && ps[0].amount == fare
    requires ps[1].direction.Credit? && ps[1].amount == fare - commission - tax
    requires ps[2].direction.Credit? && ps[2].amount == commission
    requires (tax == 0.0 && |ps| == 3) || (|ps| == 4 && ps[3].direction.Credit? && ps[3].amount == tax)
    ensures Balanced(ps)
  {
    assert ps[..1][..0] == [] && ps[..2][..1] == ps[..1] && ps[..3][..2] == ps[..2];
    assert SideTotal(ps[..1], Debit) == fare && SideTotal(ps[..1], Credit) == 0.0;
    assert SideTotal(ps[..2], Debit) == fare && SideTotal(ps[..2], Credit) == fare - commission - tax;
    assert SideTotal(ps[..3], Debit) == fare && SideTotal(ps[..3], Credit) == fare - tax;
    if |ps| == 4 {
      assert ps[..4] == ps && ps[..4][..3] == ps[..3];
    } else {
      assert ps[..3] == ps;
    }
  }

  lemma SplitCommitsIff(l: Ledger, kind: TransactionType, reference: Reference, payer: Account, driver: nat,
                        fare: real, commission: real, tax: real)
    requires CleanSplit(fare, commission, tax) && reference !in l.byReference
    requires payer.Owned? && payer in l.balances && Owned(driver, DriverWallet) in l.balances
    requires REVENUE in l.balances && TAX in l.balances
    ensures Post(l, Split(kind, reference, payer, driver, fare, commission, tax)).1.Ok? <==> l.balances[payer] as real >= fare
  {
    var ps := Split(kind, reference, payer, driver, fare, commission, tax).postings;
    SplitLegs(kind, reference, payer, driver, fare, commission, tax);
    PostCommitsIff(l, Split(kind, reference, payer, driver, fare, commission, tax));
    assert Balanced(ps) by { SplitBalances(ps, fare, commission, tax); }
    assert Running(l.balances[ps[0].account], ps[..0], ps[0].account) == l.balances[ps[0].account];
    assert Covered(l.balances, ps) <==> ps[0].amount <= l.balances[ps[0].account] as real;
    hide Post, Running;
  }

  // ---------------------------------------------------------------- one operation

  /** The payer has the money. Top-ups, accruals and payouts come out of platform accounts, which may go negative. */
  predicate PayerCovers(b: Balances, op: Op)
    requires !op.RefundTransaction?
  {
    match op
    case PayForRide(p, _, fare, _, _, _) => BalanceOf(b, Owned(p, RiderWallet)) as real >= fare
    case PayForDelivery(p, _, fare, _, _, _) => BalanceOf(b, Owned(p, RiderWallet)) as real >= fare
    case SettleCommission(d, x, _) => BalanceOf(b, Owned(d, DriverCommissionPayable)) as real >= x
    case PayInvoice(business, _, fare, _, _, _) =>
      BalanceOf(b, Owned(business, BusinessWallet)) as real >= fare
      && BalanceOf(b, Owned(business, BusinessCreditPayable)) as real >= fare
    case RequestWithdrawal(d, x, _) => BalanceOf(b, Owned(d, DriverWallet)) as real >= x
    case PayForKilowattService(u, x, _) => BalanceOf(b, Owned(u, RiderWallet)) as real >= x
    case _ => true
  }

  lemma {:induction false} NoneMissing(l: Ledger, needs: seq<AccountType>)
    requires forall n <- needs :: Platform(n) in l.balances
    ensures Missing(l, needs).None?
  {
    if needs != [] {
      assert needs[0] in needs;
      NoneMissing(l, needs[1..]);
    }
  }

  lemma Opened(l: Ledger, op: Op)
    requires Seeded(l) && !op.RefundTransaction? && !op.PayInvoice?
    ensures var ready := OpenAll(l, PlanOf(op).opens);
            && Seeded(ready) && ready.byReference == l.byReference
            && (forall a: Account :: BalanceOf(ready.balances, a) == BalanceOf(l.balances, a))
            && (forall p <- PlanOf(op).request.postings :: p.account in ready.balances)
  {
    OpenAllMovesNothing(l, PlanOf(op).opens);
    hide OpenAll, GroupSum;
  }

  lemma PlannedCommitsIff(b: Books, op: Op)
    requires Seeded(b.ledger) && OwedAmounts(op) && !op.RefundTransaction? && !op.PayInvoice? && op.reference !in b.ledger.byReference
    ensures Step(b, op).1.Ok? <==> PayerCovers(b.ledger.balances, op)
  {
    var plan := PlanOf(op);
    var ready := OpenAll(b.ledger, plan.opens);
    Opened(b.ledger, op);
    NoneMissing(ready, plan.needs);
    PlanReference(op);
    hide Missing, Post;
    PlanCommitsIff(ready, op);
    hide OpenAll, PlanOf, BalanceOf;
  }

  /** The request, once its accounts are there. */
  lemma PlanCommitsIff(l: Ledger, op: Op)
    requires Seeded(l) && OwedAmounts(op) && !op.RefundTransaction? && !op.PayInvoice? && op.reference !in l.byReference
    requires forall p <- PlanOf(op).request.postings :: p.account in l.balances
    ensures Post(l, PlanOf(op).request).1.Ok? <==> PayerCovers(l.balances, op)
  {
    var req := PlanOf(op).request;
    var ps := req.postings;
    assert ps[0] in ps && ps[1] in ps;
    hide Post, CleanSplit, Whole, Seeded;
    if op.PayForRide? || op.PayForDelivery? {
      FareCommitsIff(l, op);
    } else {
      TransferCommitsIff(l, req.kind, op.reference, op.amount, ps[0].account, ps[1].account);
    }
  }

  lemma FareCommitsIff(l: Ledger, op: Op)
    requires op.PayForRide? || op.PayForDelivery?
    requires OwedAmounts(op) && op.reference !in l.byReference && Seeded(l)
    requires Owned(op.payer, RiderWallet) in l.balances && Owned(op.driver, DriverWallet) in l.balances
    ensures Post(l, PlanOf(op).request).1.Ok? <==> l.balances[Owned(op.payer, RiderWallet)] as real >= op.fare
  {
    SplitCommitsIff(l, PlanOf(op).request.kind, op.reference, Owned(op.payer, RiderWallet), op.driver, op.fare, op.commission, op.tax);
    hide Post, Split, CleanSplit, Whole;
  }

  lemma InvoiceCommitsIff(b: Books, op: Op)
    requires Seeded(b.ledger) && op.PayInvoice? && Clean(op) && ProperReference(op)
    requires op.reference !in b.ledger.byReference && op.reference.(suffix := Settlement) !in b.ledger.byReference
    ensures Step(b, op).1.Ok? <==> PayerCovers(b.ledger.balances, op)
  {
    var l := b.ledger;
    var wallet, line := Owned(op.business, BusinessWallet), CreditLine(op.business);
    var ready := OpenAll(l, [wallet, Owned(op.driver, DriverWallet), line]);
    OpenAllMovesNothing(l, [wallet, Owned(op.driver, DriverWallet), line]);
    NoneMissing(l, TaxNeeds(op.tax));
    NoneMissing(ready, [PlatformRevenue, PlatformGatewayClearing]);
    SplitCommitsIff(ready, BusinessInvoicePayment, op.reference, wallet, op.driver, op.fare, op.commission, op.tax);
    var paid := Post(ready, InvoicePayment(op)).0;
    if Post(ready, InvoicePayment(op)).1.Ok? {
      PaymentLeavesCredit(ready, op);
      TransferCommitsIff(paid, BusinessInvoicePayment, op.reference.(suffix := Settlement), op.fare, line, CLEARING);
    }
    hide OpenAll, Missing, Post, Split, Transfer, CleanSplit, Whole, GroupSum;
  }

  /** The payment does not touch the business's credit line. */
  lemma PaymentLeavesCredit(l: Ledger, op: Op)
    requires op.PayInvoice? && ProperReference(op) && Post(l, InvoicePayment(op)).1.Ok? && CreditLine(op.business) in l.balances
    requires op.reference !in l.byReference && op.reference.(suffix := Settlement) !in l.byReference
    ensures var m := Post(l, InvoicePayment(op)).0;
            && m.balances.Keys == l.balances.Keys && m.balances[CreditLine(op.business)] == l.balances[CreditLine(op.business)]
            && op.reference.(suffix := Settlement) !in m.byReference
  {
    var line := CreditLine(op.business);
    var ps := InvoicePayment(op).postings;
    PostCommitsIff(l, InvoicePayment(op));
    assert forall p <- ps :: p.account != line;
    RunningElsewhere(l.balances[line], ps, line);
    hide Covered, Running, StoredSum, AllLand, Apply;
  }

  lemma {:induction false} RunningElsewhere(start: int, ps: seq<Posting>, a: Account)
    requires forall p <- ps :: p.account != a
    ensures Running(start, ps, a) == start
    decreases |ps|
  {
    if ps != [] {
      assert ps[|ps| - 1] in ps;
      RunningElsewhere(start, ps[..|ps| - 1], a);
    }
  }

  /** In seeded books an operation under a new reference commits exactly when its payer has the money. */
  lemma CommitsIffCovered(b: Books, op: Op)
    requires Seeded(b.ledger) && OwedAmounts(op) && ProperReference(op) && !op.RefundTransaction?
    requires forall n <- Names(op) :: n !in b.ledger.byReference
    ensures Step(b, op).1.Ok? <==> PayerCovers(b.ledger.balances, op)
  {
    assert op.reference in Names(op);
    if op.PayInvoice? {
      assert op.reference.(suffix := Settlement) in Names(op);
      InvoiceCommitsIff(b, op);
    } else {
      PlannedCommitsIff(b, op);
    }
    hide Step, PayerCovers, Seeded, Whole;
  }

  // ---------------------------------------------------------------- what a first commit writes

  /** The type of the transaction each operation leaves in the log. */
  function KindOf(op: Op): TransactionType
    requires !op.RefundTransaction?
  {
    match op
    case TopUp(_, _, _) => WalletTopUp
    case PayForRide(_, _, _, _, _, _) => RidePaymentWallet
    case PayForDelivery(_, _, _, _, _, _) => DeliveryPaymentWallet
    case RecordCashRideCommission(_, _, _) => RidePaymentCash
    case RecordCashDeliveryCommission(_, _, _) => DeliveryPaymentCash
    case SettleCommission(_, _, _) => CommissionSettlement
    case ChargeBusinessForDelivery(_, _, _) => BusinessDeliveryAccrual
    case PayInvoice(_, _, _, _, _, _) => BusinessInvoicePayment
    case RequestWithdrawal(_, _, _) => WalletWithdrawal
    case PayForKilowattService(_, _, _) => KilowattPayment
    case RecordReferralAccrual(_, _) => ReferralPayout
    case PayReferralPayout(_, _, _, _) => ReferralPayout
  }

  /** One transaction, of the operation's type and amount, as the next of the log. */
  lemma FirstCommitWrites(b: Books, op: Op)
    requires !op.RefundTransaction? && !op.PayInvoice? && op.reference !in b.ledger.byReference && Step(b, op).1.Ok?
    ensures var l, m := b.ledger, Step(b, op).0.ledger;
            var amount := if op.PayForRide? || op.PayForDelivery? then op.fare else op.amount;
            && Step(b, op).1 == Ok(|l.log|) && |m.log| == |l.log| + 1 && m.log[..|l.log|] == l.log
            && m.byReference == l.byReference[op.reference := |l.log|]
            && m.log[|l.log|].reference == op.reference && m.log[|l.log|].kind == KindOf(op) && m.log[|l.log|].status == Completed
            && IsNearest(m.log[|l.log|].amount, amount)
  {
    OpenAllGrows(b.ledger, PlanOf(op).opens);
    PlanReference(op);
    ColumnIsTheNearest(PlanOf(op).request.amount);
    hide OpenAll, Missing, Apply, Balanced, CountTrips, Column, EntriesOf, Split;
    assert PlanOf(op).request.kind == KindOf(op) by { PlanKind(op); }
    assert PlanOf(op).request.amount == if op.PayForRide? || op.PayForDelivery? then op.fare else op.amount by { PlanKind(op); }
    hide PlanOf, KindOf;
  }

  lemma PlanKind(op: Op)
    requires !op.RefundTransaction? && !op.PayInvoice?
    ensures PlanOf(op).request.kind == KindOf(op)
    ensures PlanOf(op).request.amount == if op.PayForRide? || op.PayForDelivery? then op.fare else op.amount
  {}

  /** A first commit moves every account by the operation's own shares. */
  lemma FirstPostMoves(b: Books, op: Op, a: Account)
    requires Solvent(b.ledger.balances) && Reversals(b.ledger) && Admissible(b.ledger, op)
    requires !op.RefundTransaction? && !op.PayInvoice? && op.reference !in b.ledger.byReference && Step(b, op).1.Ok?
    requires SharesAddUp(op)
    ensures BalanceOf(Step(b, op).0.ledger.balances, a) == BalanceOf(b.ledger.balances, a) + Change(op, a)
  {
    StepMovesGroup(b, op, Only(a));
    GroupSumOnly(b.ledger.balances, a);
    GroupSumOnly(Step(b, op).0.ledger.balances, a);
    RequestMoves(op, a);
    hide Step, Admissible, PlanOf, StoredSum, GroupSum, Solvent, Reversals, Change, SharesAddUp;
  }

  // ---------------------------------------------------------------- repeats

  lemma {:induction false} RunGrows(b: Books, ops: seq<Op>)
    ensures Grows(b.ledger, Run(b, ops).ledger)
    decreases |ops|
  {
    if ops == [] {
      SelfGrows(b.ledger);
    } else {
      var before := Run(b, ops[..|ops| - 1]);
      RunGrows(b, ops[..|ops| - 1]);
      StepGrows(before, ops[|ops| - 1]);
      GrowsTransitive(b.ledger, before.ledger, Run(b, ops).ledger);
    }
    hide Step, Grows;
  }

  lemma {:induction false} PresentWhenNoneMissing(l: Ledger, needs: seq<AccountType>)
    requires Missing(l, needs).None?
    ensures forall n <- needs :: Platform(n) in l.balances
  {
    if needs != [] {
      PresentWhenNoneMissing(l, needs[1..]);
      assert needs == [needs[0]] + needs[1..];
    }
  }

  lemma {:induction false} OpenAllOpened(l: Ledger, accounts: seq<Account>)
    requires forall a <- accounts :: a in l.balances
    ensures OpenAll(l, accounts) == l
    decreases |accounts|
  {
    if accounts != [] {
      assert accounts[|accounts| - 1] in accounts;
      OpenAllOpened(l, accounts[..|accounts| - 1]);
    }
  }

  /** What a commit leaves behind, for good: the reference, and every account the operation needs. */
  ghost predicate Settled(l: Ledger, plan: Plan, id: nat) {
    && plan.request.reference in l.byReference && l.byReference[plan.request.reference] == id
    && (forall a <- plan.opens :: a in l.balances) && (forall n <- plan.needs :: Platform(n) in l.balances)
  }

  lemma CommitSettles(b: Books, op: Op)
    requires !op.RefundTransaction? && !op.PayInvoice? && Step(b, op).1.Ok?
    ensures Settled(Step(b, op).0.ledger, PlanOf(op), Step(b, op).1.value)
  {
    var plan := PlanOf(op);
    var ready := OpenAll(b.ledger, plan.opens);
    OpenAllMovesNothing(b.ledger, plan.opens);
    PresentWhenNoneMissing(ready, plan.needs);
    hide OpenAll, PlanOf, Missing, Balanced, GroupSum;
    assert Step(b, op).0.ledger.balances.Keys == ready.balances.Keys;
  }

  lemma SettledStays(l: Ledger, m: Ledger, plan: Plan, id: nat)
    requires Settled(l, plan, id) && Grows(l, m)
    ensures Settled(m, plan, id)
  {
    assert forall a <- l.balances :: a in m.balances.Keys;
  }

  lemma RepeatIsNothing(b: Books, op: Op, id: nat)
    requires !op.RefundTransaction? && !op.PayInvoice? && Settled(b.ledger, PlanOf(op), id)
    ensures Step(b, op) == (b, Ok(id))
  {
    OpenAllOpened(b.ledger, PlanOf(op).opens);
    NoneMissing(b.ledger, PlanOf(op).needs);
    hide OpenAll, PlanOf, Missing, Apply, Balanced;
  }

  /**
   Idempotence: once an operation has committed, repeating it after any run of others changes nothing at all and
   returns the same transaction.
   */
  lemma RepeatsDoNothing(b: Books, op: Op, ops: seq<Op>)
    requires !op.RefundTransaction? && !op.PayInvoice? && Step(b, op).1.Ok?
    ensures var later := Run(Step(b, op).0, ops);
            Step(later, op) == (later, Step(b, op).1)
  {
    CommitSettles(b, op);
    RunGrows(Step(b, op).0, ops);
    SettledStays(Step(b, op).0.ledger, Run(Step(b, op).0, ops).ledger, PlanOf(op), Step(b, op).1.value);
    RepeatIsNothing(Run(Step(b, op).0, ops), op, Step(b, op).1.value);
    hide Step, Run, PlanOf, Settled, Grows;
  }
}
