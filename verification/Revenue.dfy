/**
 Platform revenue is only ever debited by refunding what credited it, so its history is never negative; and
 while its balance is what its history says, neither is the balance.
 */
module Revenue {
  import opened Option
  import opened Money
  import opened Ledger
  import opened WalletSpec
  import opened Transfers
  import opened Drift

  /** What a transaction still stands for on the revenue account: nothing once it is reversed, and refunds stand for nothing. */
  function Stands(t: Transaction): int {
    if t.reverses.Some? || t.status == Reversed then 0 else EntrySum(t.entries, Only(REVENUE))
  }

  function Standing(log: seq<Transaction>): int
    decreases |log|
  {
    if log == [] then 0 else Standing(log[..|log| - 1]) + Stands(log[|log| - 1])
  }

  /** Revenue's history is what still stands, nothing but a refund debits it, and refunds have refund references. */
  ghost predicate RevenueStands(l: Ledger) {
    && History(l.log, Only(REVENUE)) == Standing(l.log)
    && (forall i :: 0 <= i < |l.log| && l.log[i].reverses.None? ==> EntrySum(l.log[i].entries, Only(REVENUE)) >= 0)
    && (forall i :: 0 <= i < |l.log| && l.log[i].reverses.Some? ==> l.log[i].reference.subject.RefundOf? && l.log[i].kind.RefundPosting?)
  }

  /** What a caller owes: its amounts, and to refund only what is not a refund itself. */
  ghost predicate OwedOp(l: Ledger, op: Op) {
    && ProperReference(op) && OwedAmounts(op)
    && (op.RefundTransaction? && op.transaction < |l.log| ==> l.log[op.transaction].reverses.None?)
  }

  lemma {:induction false} StandingNonNegative(log: seq<Transaction>)
    requires forall i :: 0 <= i < |log| && log[i].reverses.None? ==> EntrySum(log[i].entries, Only(REVENUE)) >= 0
    ensures Standing(log) >= 0
    decreases |log|
  {
    if log != [] {
      StandingNonNegative(log[..|log| - 1]);
    }
    hide EntrySum;
  }

  /** Revenue stands, and its balance is what its history says. */
  ghost predicate Accounted(l: Ledger) {
    RevenueStands(l) && DriftOf(l, REVENUE) == 0
  }

  /** Then revenue is not negative, whatever other balances have become. */
  lemma RevenueIsNotNegative(l: Ledger)
    requires Accounted(l)
    ensures REVENUE in l.balances ==> l.balances[REVENUE] >= 0
  {
    StandingNonNegative(l.log);
    hide Standing, History;
  }

  // ---------------------------------------------------------------- posts

  ghost predicate CreditsRevenue(ps: seq<Posting>) {
    forall p <- ps :: p.account == REVENUE ==> p.direction.Credit? && p.amount >= 0.0
  }

  lemma {:induction false} StoredCredits(ps: seq<Posting>)
    requires CreditsRevenue(ps)
    ensures StoredSum(ps, Only(REVENUE)) >= 0
    decreases |ps|
  {
    if ps != [] {
      assert ps[|ps| - 1] in ps;
      StoredCredits(ps[..|ps| - 1]);
      if ps[|ps| - 1].account == REVENUE {
        ColumnNonNegative(ps[|ps| - 1].amount);
      }
    }
  }

  lemma PostKeepsRevenue(l: Ledger, req: Request)
    requires RevenueStands(l) && CreditsRevenue(req.postings)
    ensures RevenueStands(Post(l, req).0)
  {
    var m := Post(l, req).0;
    if m != l {
      var after := Apply(l.balances, req.postings).value;
      assert m == Commit(l, req, after, None);
      EntriesSum(req.postings, after, Only(REVENUE));
      StoredCredits(req.postings);
      hide Apply, EntriesOf, StoredSum, EntrySum;
      assert m.log[..|l.log|] == l.log;
      forall i | 0 <= i < |m.log|
        ensures m.log[i].reverses.None? ==> EntrySum(m.log[i].entries, Only(REVENUE)) >= 0
        ensures m.log[i].reverses.Some? ==> m.log[i].reference.subject.RefundOf? && m.log[i].kind.RefundPosting?
      {
        if i < |l.log| {
          assert m.log[i] == l.log[i];
        }
      }
    }
  }

  lemma SplitCreditsRevenue(kind: TransactionType, reference: Reference, payer: Account, driver: nat, fare: real, commission: real, tax: real)
    requires CleanSplit(fare, commission, tax) && payer.Owned?
    ensures CreditsRevenue(Split(kind, reference, payer, driver, fare, commission, tax).postings)
  {}

  lemma PlansCreditRevenue(op: Op)
    requires !op.RefundTransaction? && OwedAmounts(op)
    ensures !op.PayInvoice? ==> CreditsRevenue(PlanOf(op).request.postings)
    ensures op.PayInvoice? ==> CreditsRevenue(InvoicePayment(op).postings) && CreditsRevenue(InvoiceSettlement(op).postings)
  {
    if op.PayForRide? || op.PayForDelivery? {
      var kind := if op.PayForRide? then RidePaymentWallet else DeliveryPaymentWallet;
      SplitCreditsRevenue(kind, op.reference, Owned(op.payer, RiderWallet), op.driver, op.fare, op.commission, op.tax);
    } else if op.PayInvoice? {
      SplitCreditsRevenue(BusinessInvoicePayment, op.reference, Owned(op.business, BusinessWallet), op.driver, op.fare, op.commission, op.tax);
    }
    hide Split;
  }

  // ---------------------------------------------------------------- refunds

  lemma {:induction false} StandingWithout(log: seq<Transaction>, id: nat)
    requires id < |log| && log[id].status == Completed && log[id].reverses.None?
    ensures Standing(log[id := log[id].(status := Reversed)]) == Standing(log) - EntrySum(log[id].entries, Only(REVENUE))
    decreases |log|
  {
    var n := |log| - 1;
    var marked := log[id := log[id].(status := Reversed)];
    if id == n {
      assert marked[..n] == log[..n];
    } else {
      StandingWithout(log[..n], id);
      assert marked[..n] == log[..n][id := log[id].(status := Reversed)];
    }
    hide EntrySum;
  }

  /** A refund that commits appends its mirror and marks the original. */
  lemma RefundAppends(l: Ledger, id: nat)
    requires id < |l.log| && l.log[id].status == Completed && RefundRef(id) !in l.byReference && Refund(l, id).1.Ok?
    ensures var m := Refund(l, id).0;
            && |m.log| == |l.log| + 1 && m.log[|l.log|].reverses == Some(id)
            && m.log[|l.log|].reference == RefundRef(id) && m.log[|l.log|].kind == RefundPosting
            && m.log == (l.log + [m.log[|l.log|]])[id := l.log[id].(status := Reversed)]
            && EntrySum(m.log[|l.log|].entries, Only(REVENUE)) == -EntrySum(l.log[id].entries, Only(REVENUE))
  {
    var req := RefundRequest(l, id);
    var after := Apply(l.balances, req.postings).value;
    assert Refund(l, id).0 == MarkReversed(Commit(l, req, after, Some(id)), id);
    EntriesSum(req.postings, after, Only(REVENUE));
    FlipSum(l.log[id].entries, Only(REVENUE));
    hide Apply, EntriesOf, StoredSum, EntrySum, Flip;
  }

  lemma ReversalKeepsSums(log: seq<Transaction>, refund: Transaction, id: nat)
    requires id < |log| && log[id].status == Completed && log[id].reverses.None? && refund.reverses == Some(id)
    requires EntrySum(refund.entries, Only(REVENUE)) == -EntrySum(log[id].entries, Only(REVENUE))
    requires History(log, Only(REVENUE)) == Standing(log)
    ensures var after := (log + [refund])[id := log[id].(status := Reversed)];
            History(after, Only(REVENUE)) == Standing(after)
  {
    hide EntrySum;
    var longer := log + [refund];
    assert longer[..|log|] == log;
    assert History(longer, Only(REVENUE)) == History(log, Only(REVENUE)) + EntrySum(refund.entries, Only(REVENUE));
    assert Standing(longer) == Standing(log);
    HistorySameEntries(longer[id := log[id].(status := Reversed)], longer, Only(REVENUE));
    StandingWithout(longer, id);
  }

  lemma RefundKeepsRevenue(l: Ledger, id: nat)
    requires Reversals(l) && RevenueStands(l) && (id < |l.log| ==> l.log[id].reverses.None?)
    ensures RevenueStands(Refund(l, id).0)
  {
    if id < |l.log| && l.log[id].status == Completed && Refund(l, id).1.Ok? {
      CompletedIsUnrefunded(l, id);
      hide Reversals;
      RefundAppends(l, id);
      var m := Refund(l, id).0;
      hide Refund, EntrySum, History, Standing;
      ReversalKeepsSums(l.log, m.log[|l.log|], id);
      forall i | 0 <= i < |m.log|
        ensures m.log[i].reverses.None? ==> EntrySum(m.log[i].entries, Only(REVENUE)) >= 0
        ensures m.log[i].reverses.Some? ==> m.log[i].reference.subject.RefundOf? && m.log[i].kind.RefundPosting?
      {
        if i < |l.log| {
          assert m.log[i] == l.log[i].(status := m.log[i].status);
        }
      }
    }
  }

  // ---------------------------------------------------------------- every operation

  lemma ExecuteKeepsRevenue(b: Books, op: Op, plan: Plan)
    requires RevenueStands(b.ledger) && CreditsRevenue(plan.request.postings)
    ensures RevenueStands(Execute(b, op, plan).0.ledger)
  {
    OpenAllGrows(b.ledger, plan.opens);
    PostKeepsRevenue(OpenAll(b.ledger, plan.opens), plan.request);
    hide Post, OpenAll, Missing, CreditsRevenue;
  }

  lemma InvoiceKeepsRevenue(l: Ledger, op: Op)
    requires op.PayInvoice? && RevenueStands(l)
    requires CreditsRevenue(InvoicePayment(op).postings) && CreditsRevenue(InvoiceSettlement(op).postings)
    ensures RevenueStands(PayInvoiceStep(l, op).0)
  {
    var accounts := [Owned(op.business, BusinessWallet), Owned(op.driver, DriverWallet), CreditLine(op.business)];
    var ready := OpenAll(l, accounts);
    OpenAllGrows(l, accounts);
    PostKeepsRevenue(ready, InvoicePayment(op));
    PostKeepsRevenue(Post(ready, InvoicePayment(op)).0, InvoiceSettlement(op));
    hide Post, OpenAll, Missing, CreditsRevenue, InvoicePayment, InvoiceSettlement;
  }

  lemma StepKeepsRevenue(b: Books, op: Op)
    requires Reversals(b.ledger) && RevenueStands(b.ledger) && OwedOp(b.ledger, op)
    ensures RevenueStands(Step(b, op).0.ledger)
  {
    if op.RefundTransaction? {
      RefundKeepsRevenue(b.ledger, op.transaction);
    } else {
      PlansCreditRevenue(op);
      if op.PayInvoice? {
        InvoiceKeepsRevenue(b.ledger, op);
      } else {
        ExecuteKeepsRevenue(b, op, PlanOf(op));
      }
    }
    hide Reversals, RevenueStands, CreditsRevenue, PlanOf, Execute, PayInvoiceStep, Refund;
  }

  /** Valid books whose revenue stands, and the weaker form that no amount breaks. */
  ghost predicate Kept(l: Ledger) {
    Valid(l) && RevenueStands(l)
  }

  ghost predicate Firm(l: Ledger) {
    Sturdy(l) && Accounted(l)
  }

  lemma KeptIsFirm(l: Ledger)
    requires Kept(l)
    ensures Firm(l)
  {
    ReconciledHasNoDrift(l, REVENUE);
    hide Sturdy, RevenueStands, DriftOf, Reconciled, Snapshots;
  }

  // ---------------------------------------------------------------- what may be refunded

  /** A transaction that is no refund may be refunded. */
  ghost predicate Refundable(l: Ledger, id: nat) {
    id < |l.log| && l.log[id].reverses.None?
  }

  lemma RefundableStays(l: Ledger, m: Ledger, id: nat)
    requires Grows(l, m) && Refundable(l, id)
    ensures Refundable(m, id)
  {
    assert m.log[id] == l.log[id].(status := m.log[id].status);
  }

  /** What a reference names is a refund only if the reference says so. */
  lemma NamedIsRefundable(l: Ledger, r: Reference)
    requires Indexed(l) && RevenueStands(l) && r in l.byReference && !r.subject.RefundOf?
    ensures Refundable(l, l.byReference[r])
  {}

  /** An operation that succeeds returns what its reference names. */
  lemma OkIsNamed(b: Books, op: Op)
    requires !op.RefundTransaction? && !op.PayInvoice? && Step(b, op).1.Ok?
    ensures op.reference in Step(b, op).0.ledger.byReference
    ensures Step(b, op).0.ledger.byReference[op.reference] == Step(b, op).1.value
  {
    PlanReference(op);
    hide PlanOf, OpenAll, Missing, Apply;
  }
}
