/**
 Withdrawals of half a kobo. Nothing limits a withdrawal to two decimals, and the commission settled out of
 one inherits its fraction. The books stay valid over a run of wallet operations iff none of either that
 commits is exactly half a kobo out; once one has, no later operation repairs them.
 */
module HalfKobo {
  import opened Option
  import opened Money
  import opened Ledger
  import opened WalletSpec
  import opened Effects
  import opened Transfers
  import opened Movements
  import opened Revenue
  import opened Drift

  ghost predicate OwedOps(b: Books, ops: seq<Op>)
    decreases |ops|
  {
    ops == [] || (OwedOps(b, ops[..|ops| - 1]) && OwedOp(Run(b, ops[..|ops| - 1]).ledger, ops[|ops| - 1]))
  }

  /** The operation posts half a kobo now. */
  predicate CommitsHalf(b: Books, op: Op) {
    AsAsked(op) && Half(op.amount) && op.reference !in b.ledger.byReference && Step(b, op).1.Ok?
  }

  predicate SomeHalf(b: Books, ops: seq<Op>)
    decreases |ops|
  {
    ops != [] && (SomeHalf(b, ops[..|ops| - 1]) || CommitsHalf(Run(b, ops[..|ops| - 1]), ops[|ops| - 1]))
  }

  /** Whom such an operation debits. */
  function Payer(op: Op): Account
    requires AsAsked(op)
  {
    if op.RequestWithdrawal? then Owned(op.driver, DriverWallet) else Payable(op.driver)
  }

  // ---------------------------------------------------------------- what drifts

  lemma SplitHalves(kind: TransactionType, reference: Reference, payer: Account, driver: nat,
                    fare: real, commission: real, tax: real, a: Account)
    requires CleanSplit(fare, commission, tax)
    ensures NonNegative(Split(kind, reference, payer, driver, fare, commission, tax).postings)
    ensures HalfDebits(Split(kind, reference, payer, driver, fare, commission, tax).postings, a) == 0
  {
    WholeIsNotHalf(fare);
    NoHalfDebits(Split(kind, reference, payer, driver, fare, commission, tax).postings, a);
    hide Half, HalfDebits;
  }

  lemma TransferHalves(kind: TransactionType, reference: Reference, amount: real, from: Account, to: Account, a: Account)
    requires amount >= 0.0
    ensures NonNegative(Transfer(kind, reference, amount, from, to).postings)
    ensures HalfDebits(Transfer(kind, reference, amount, from, to).postings, a) == if a == from && Half(amount) then 1 else 0
  {
    var ps := Transfer(kind, reference, amount, from, to).postings;
    assert ps[..1] == [ps[0]] && ps[..1][..0] == [];
    assert HalfDebits(ps[..1], a) == if a == from && Half(amount) then 1 else 0;
    hide Half;
  }

  lemma PlanHalves(op: Op, a: Account)
    requires !op.RefundTransaction? && !op.PayInvoice? && OwedAmounts(op) && a.Owned?
    ensures NonNegative(PlanOf(op).request.postings)
    ensures HalfDebits(PlanOf(op).request.postings, a) == if AsAsked(op) && Half(op.amount) && a == Payer(op) then 1 else 0
  {
    var r := PlanOf(op).request;
    if op.PayForRide? || op.PayForDelivery? {
      SplitHalves(r.kind, op.reference, Owned(op.payer, RiderWallet), op.driver, op.fare, op.commission, op.tax, a);
    } else {
      TransferHalves(r.kind, op.reference, op.amount, r.postings[0].account, r.postings[1].account, a);
      if Clean(op) {
        WholeIsNotHalf(op.amount);
      }
    }
    hide Half, Whole, HalfDebits;
  }

  lemma {:induction false} OpenAllDrifts(l: Ledger, accounts: seq<Account>, a: Account)
    requires Steady(l)
    ensures Steady(OpenAll(l, accounts)) && DriftOf(OpenAll(l, accounts), a) == DriftOf(l, a)
    decreases |accounts|
  {
    if accounts != [] {
      OpenAllDrifts(l, accounts[..|accounts| - 1], a);
      OpeningDrifts(OpenAll(l, accounts[..|accounts| - 1]), accounts[|accounts| - 1], a);
    }
    hide Steady, DriftOf;
  }

  lemma ExecuteDrifts(b: Books, op: Op, plan: Plan, a: Account)
    requires Steady(b.ledger) && NonNegative(plan.request.postings) && a.Owned?
    ensures var (after, outcome) := Execute(b, op, plan);
            && Steady(after.ledger)
            && DriftOf(after.ledger, a) == DriftOf(b.ledger, a)
                 + if outcome.Ok? && plan.request.reference !in b.ledger.byReference then HalfDebits(plan.request.postings, a) else 0
  {
    OpenAllDrifts(b.ledger, plan.opens, a);
    OpenAllGrows(b.ledger, plan.opens);
    PostDrifts(OpenAll(b.ledger, plan.opens), plan.request, a);
    hide Post, OpenAll, Steady, DriftOf, HalfDebits;
  }

  lemma InvoiceDrifts(l: Ledger, op: Op, a: Account)
    requires op.PayInvoice? && Clean(op) && Steady(l) && a.Owned?
    ensures Steady(PayInvoiceStep(l, op).0) && DriftOf(PayInvoiceStep(l, op).0, a) == DriftOf(l, a)
  {
    var accounts := [Owned(op.business, BusinessWallet), Owned(op.driver, DriverWallet), CreditLine(op.business)];
    var ready := OpenAll(l, accounts);
    OpenAllDrifts(l, accounts, a);
    SplitHalves(BusinessInvoicePayment, op.reference, Owned(op.business, BusinessWallet), op.driver, op.fare, op.commission, op.tax, a);
    PostDrifts(ready, InvoicePayment(op), a);
    WholeIsNotHalf(op.fare);
    TransferHalves(BusinessInvoicePayment, op.reference.(suffix := Settlement), op.fare, CreditLine(op.business), CLEARING, a);
    PostDrifts(Post(ready, InvoicePayment(op)).0, InvoiceSettlement(op), a);
    hide Post, OpenAll, Steady, DriftOf, HalfDebits, Missing, Split, Transfer, Half;
  }

  /** A user's balance drifts by a kobo when half a kobo is debited from it, and otherwise not at all. */
  lemma StepDrifts(b: Books, op: Op, a: Account)
    requires Steady(b.ledger) && OwedAmounts(op) && a.Owned?
    ensures Steady(Step(b, op).0.ledger)
    ensures DriftOf(Step(b, op).0.ledger, a) == DriftOf(b.ledger, a) + if CommitsHalf(b, op) && a == Payer(op) then 1 else 0
  {
    hide Steady, DriftOf, HalfDebits, Execute, PayInvoiceStep, Refund, Half;
    if op.RefundTransaction? {
      RefundDrifts(b.ledger, op.transaction, a);
    } else if op.PayInvoice? {
      InvoiceDrifts(b.ledger, op, a);
    } else {
      PlanHalves(op, a);
      PlanReference(op);
      ExecuteDrifts(b, op, PlanOf(op), a);
    }
    hide PlanOf, CleanSplit;
  }

  /** No operation repairs books that overstate a user's balance. */
  lemma StepKeepsOverstated(b: Books, op: Op)
    requires Overstated(b.ledger) && OwedAmounts(op)
    ensures Overstated(Step(b, op).0.ledger)
  {
    var a: Account :| a.Owned? && DriftOf(b.ledger, a) > 0;
    StepDrifts(b, op, a);
    hide Steady, DriftOf, Step, OwedAmounts;
  }

  lemma HalfOverstates(b: Books, op: Op)
    requires Valid(b.ledger) && CommitsHalf(b, op)
    ensures Overstated(Step(b, op).0.ledger)
  {
    StepDrifts(b, op, Payer(op));
    ReconciledHasNoDrift(b.ledger, Payer(op));
    hide Reconciled, DriftOf, Step, Half;
  }

  // ---------------------------------------------------------------- by how much, on any group of accounts

  /** Whom such an operation credits. */
  function Payee(op: Op): Account
    requires AsAsked(op)
  {
    if op.RequestWithdrawal? then CLEARING else REVENUE
  }

  /** What half a kobo leaves too much on a group: a kobo with the payer, less one with a payee that stays below zero. */
  function HalfSlip(b: Books, op: Op, g: Group): int {
    if !CommitsHalf(b, op) then 0
    else (if g.Has(Payer(op)) then 1 else 0)
         - if g.Has(Payee(op)) && BalanceOf(b.ledger.balances, Payee(op)) as real + op.amount < 0.0 then 1 else 0
  }

  lemma CommittedPosts(b: Books, op: Op)
    requires AsAsked(op) && op.reference !in b.ledger.byReference && Step(b, op).1.Ok?
    ensures Posts(b, op, op.amount, Payer(op), Payee(op))
    ensures BalanceOf(OpenAll(b.ledger, PlanOf(op).opens).balances, Payee(op)) == BalanceOf(b.ledger.balances, Payee(op))
  {
    var ready := OpenAll(b.ledger, PlanOf(op).opens);
    OpenAllMovesNothing(b.ledger, PlanOf(op).opens);
    var ps := PlanOf(op).request.postings;
    assert ps[..1] == [ps[0]] && ps[..1][..0] == [];
    assert ps[0] == Posting(Payer(op), Debit, op.amount) && ps[1] == Posting(Payee(op), Credit, op.amount);
    assert Missing(ready, PlanOf(op).needs) == None;
    assert Apply(ready.balances, ps).Ok? && Apply(ready.balances, ps[..1]).Ok? && Apply(ready.balances, []) == Ok(ready.balances);
    assert ApplyOne(ready.balances, ps[0]).Ok?;
    hide OpenAll, Missing, Balanced, GroupSum, Column;
  }

  /** The slips of both legs of half a kobo. */
  lemma HalfMovesGroup(b: Balances, amount: real, from: Account, to: Account, g: Group)
    requires from in b && to in b && from != to && 0.0 <= amount <= b[from] as real && Half(amount)
    ensures GroupSum(AfterTransfer(b, amount, from, to), g) == GroupSum(b, g)
         + (if g.Has(to) then Column(amount) else 0) - (if g.Has(from) then Column(amount) else 0)
         + (if g.Has(from) then 1 else 0) - (if g.Has(to) && b[to] as real + amount < 0.0 then 1 else 0)
  {
    ColumnOdd(amount);
    CoveredDebitSlips(b[from], amount);
    SlipIs(b[to], amount);
    var left, right := Column(b[from] as real - amount), Column(b[to] as real + amount);
    GroupSumUpdate(b, g, from, left);
    GroupSumUpdate(b[from := left], g, to, right);
    hide Column, Half, GroupSum;
  }

  lemma HalfDriftsGroup(b: Books, op: Op, g: Group)
    requires Reversals(b.ledger) && ProperReference(op) && CommitsHalf(b, op)
    ensures GroupDrift(Step(b, op).0.ledger, g) == GroupDrift(b.ledger, g) + HalfSlip(b, op, g)
  {
    hide Step, Column, Half, GroupSum, History, Posts, OpenAll, PlanOf, IsTransfer, AfterTransfer, Reversals, StoredSum;
    var ready := OpenAll(b.ledger, PlanOf(op).opens).balances;
    CommittedPosts(b, op);
    PostsCan(b, op, op.amount, Payer(op), Payee(op));
    TransferStepShape(b, op, op.amount, Payer(op), Payee(op));
    OpenAllMovesNothing(b.ledger, PlanOf(op).opens);
    HalfMovesGroup(ready, op.amount, Payer(op), Payee(op), g);
    StepMovesHistory(b, op, g);
    TransferSum(PlanOf(op).request.kind, op.reference, op.amount, Payer(op), Payee(op), g);
  }

  lemma PostsCan(b: Books, op: Op, amount: real, from: Account, to: Account)
    requires Posts(b, op, amount, from, to)
    ensures CanTransfer(OpenAll(b.ledger, PlanOf(op).opens), amount, from, to)
    ensures PlanOf(op).request == Transfer(PlanOf(op).request.kind, op.reference, amount, from, to)
  {}

  /** Half a kobo that does not commit opens accounts at most. */
  lemma HalfThatFails(b: Books, op: Op)
    requires AsAsked(op) && Half(op.amount) && !CommitsHalf(b, op)
    ensures Step(b, op).0.ledger == OpenAll(b.ledger, PlanOf(op).opens)
  {
    OpenAllGrows(b.ledger, PlanOf(op).opens);
    hide OpenAll, Missing, Apply, Half;
  }

  /** While revenue is not negative, any group of accounts drifts from its entries by half-kobo slips alone. */
  lemma StepDriftsGroup(b: Books, op: Op, g: Group)
    requires Sturdy(b.ledger) && OwedAmounts(op) && ProperReference(op)
    requires REVENUE in b.ledger.balances ==> b.ledger.balances[REVENUE] >= 0
    ensures GroupDrift(Step(b, op).0.ledger, g) == GroupDrift(b.ledger, g) + HalfSlip(b, op, g)
  {
    hide Step, Half, Whole, GroupSum, History, OpenAll, PlanOf, CleanSplit, Indexed, Wellformed, Solvent, Reversals;
    if CommitsHalf(b, op) {
      HalfDriftsGroup(b, op, g);
    } else if AsAsked(op) && Half(op.amount) {
      HalfThatFails(b, op);
      OpenAllMovesNothing(b.ledger, PlanOf(op).opens);
    } else {
      StepMovesGroup(b, op, g);
      StepMovesHistory(b, op, g);
    }
  }

  // ---------------------------------------------------------------- how balances move

  /** A user's balance moves by the operation's legs, and a kobo more when half a kobo is debited from it. */
  lemma StepMovesUser(b: Books, op: Op, a: Account)
    requires Sturdy(b.ledger) && ProperReference(op) && OwedAmounts(op) && a.Owned?
    ensures BalanceOf(Step(b, op).0.ledger.balances, a) == BalanceOf(b.ledger.balances, a) + Effect(b, op, Only(a))
         + if CommitsHalf(b, op) && a == Payer(op) then 1 else 0
  {
    StepMovesHistory(b, op, Only(a));
    StepDrifts(b, op, a);
    hide Indexed, Solvent, Reversals, Wellformed, Step, Effect, Half, OwedAmounts, History;
  }

  /**
   What each operation does to every user's balance: its own legs when it commits for the first time, and a kobo
   more when half a kobo is debited; nothing when it is refused or repeated.
   */
  lemma OperationMovesUsers(b: Books, op: Op, a: Account)
    requires Sturdy(b.ledger) && !op.RefundTransaction? && ProperReference(op) && OwedAmounts(op) && a.Owned?
    ensures var (after, outcome) := Step(b, op);
            var before, now := BalanceOf(b.ledger.balances, a), BalanceOf(after.ledger.balances, a);
            && (outcome.Err? ==> now == before)
            && (outcome.Ok? && FirstTime(b.ledger, op) ==>
                  now == before + Change(op, a) + if AsAsked(op) && Half(op.amount) && a == Payer(op) then 1 else 0)
            && ((forall n <- Names(op) :: n in b.ledger.byReference) ==> now == before)
  {
    hide Sturdy, StoredSum, OwedAmounts, ProperReference, Change, Step, PlanOf, InvoicePayment, InvoiceSettlement, BalanceOf, Half, SharesAddUp;
    StepMovesUser(b, op, a);
    assert SharesAddUp(op) by { OwedSharesAddUp(op); }
    RequestMoves(op, a);
    assert op.reference in Names(op);
  }

  lemma OwedSharesAddUp(op: Op)
    requires OwedAmounts(op)
    ensures SharesAddUp(op)
  {}

  // ---------------------------------------------------------------- when the books stay valid

  /** One operation keeps valid books valid iff it does not post half a kobo. */
  lemma StepKeepsValidIff(b: Books, op: Op)
    requires Valid(b.ledger) && OwedAmounts(op) && ProperReference(op)
    requires FractionalSplit(op) && REVENUE in b.ledger.balances ==> b.ledger.balances[REVENUE] >= 0
    ensures Valid(Step(b, op).0.ledger) <==> !CommitsHalf(b, op)
  {
    hide Valid, Step, Half, Whole;
    if CommitsHalf(b, op) {
      HalfOverstates(b, op);
      OverstatedIsNotValid(Step(b, op).0.ledger);
    } else if AsAsked(op) && Half(op.amount) {
      HalfThatFails(b, op);
      OpenAllKeepsValid(b.ledger, PlanOf(op).opens);
    } else {
      StepKeepsValid(b, op);
    }
    hide PlanOf, OpenAll, Overstated;
  }

  /** What no amount breaks: the sturdy part of the books, and revenue accounted for. */
  lemma StepKeepsFirm(b: Books, op: Op)
    requires Firm(b.ledger) && OwedOp(b.ledger, op)
    ensures Firm(Step(b, op).0.ledger)
  {
    hide Sturdy, RevenueStands, Step, OwedAmounts, GroupDrift, DriftOf;
    var m := Step(b, op).0.ledger;
    StepKeepsSturdy(b, op);
    assert Reversals(b.ledger) by { SturdyHasReversals(b.ledger); }
    StepKeepsRevenue(b, op);
    RevenueIsNotNegative(b.ledger);
    StepDriftsGroup(b, op, Only(REVENUE));
    RevenueDoesNotSlip(b, op);
    DriftOfOne(b.ledger, REVENUE);
    DriftOfOne(m, REVENUE);
  }

  lemma SturdyHasReversals(l: Ledger)
    requires Sturdy(l)
    ensures Reversals(l) && Indexed(l)
  {}

  lemma RevenueDoesNotSlip(b: Books, op: Op)
    requires REVENUE in b.ledger.balances ==> b.ledger.balances[REVENUE] >= 0
    ensures HalfSlip(b, op, Only(REVENUE)) == 0
  {
    hide Step, Half;
  }

  lemma {:induction false} RunKeepsFirm(b: Books, ops: seq<Op>)
    requires Firm(b.ledger) && OwedOps(b, ops)
    ensures Firm(Run(b, ops).ledger)
    decreases |ops|
  {
    hide Firm, OwedOp, Step;
    if ops != [] {
      RunKeepsFirm(b, ops[..|ops| - 1]);
      StepKeepsFirm(Run(b, ops[..|ops| - 1]), ops[|ops| - 1]);
    }
  }

  /** Valid books in which revenue stands, with nothing asked of revenue. */
  lemma StepKeepsBooksIff(b: Books, op: Op)
    requires Kept(b.ledger) && OwedOp(b.ledger, op)
    ensures Kept(Step(b, op).0.ledger) <==> !CommitsHalf(b, op)
    ensures CommitsHalf(b, op) ==> Overstated(Step(b, op).0.ledger)
  {
    hide Valid, RevenueStands, Step, Half, OwedAmounts, Sturdy, DriftOf;
    KeptIsFirm(b.ledger);
    RevenueIsNotNegative(b.ledger);
    StepKeepsValidIff(b, op);
    if CommitsHalf(b, op) {
      HalfOverstates(b, op);
    } else {
      StepKeepsFirm(b, op);
    }
  }

  /**
   Over every run of operations whose callers owe their prices: the books stay valid iff no withdrawal and no
   settlement that commits is half a kobo out. Otherwise some user's balance exceeds its entries for good.
   */
  lemma {:induction false} RunKeepsBooksIff(b: Books, ops: seq<Op>)
    requires Kept(b.ledger) && OwedOps(b, ops)
    ensures Kept(Run(b, ops).ledger) <==> !SomeHalf(b, ops)
    ensures Valid(Run(b, ops).ledger) <==> !SomeHalf(b, ops)
    ensures SomeHalf(b, ops) ==> Overstated(Run(b, ops).ledger)
    decreases |ops|
  {
    hide Valid, RevenueStands, Step, CommitsHalf, Overstated, ProperReference, OwedAmounts;
    if ops != [] {
      var before, last := Run(b, ops[..|ops| - 1]), ops[|ops| - 1];
      RunKeepsBooksIff(b, ops[..|ops| - 1]);
      if SomeHalf(b, ops[..|ops| - 1]) {
        StepKeepsOverstated(before, last);
      } else {
        StepKeepsBooksIff(before, last);
      }
      if Overstated(Run(b, ops).ledger) {
        OverstatedIsNotValid(Run(b, ops).ledger);
      }
    }
  }
}
