/** What one wallet operation moves on any group of accounts: exactly its stored legs, or nothing. */
module Effects {
  import opened Option
  import opened Money
  import opened Ledger
  import opened WalletSpec

  function Settling(op: Op): Reference
    requires op.PayInvoice?
  {
    op.reference.(suffix := Settlement)
  }

  /** The legs an operation stores when it commits for the first time. */
  ghost function Effect(b: Books, op: Op, g: Group): int {
    var known := b.ledger.byReference;
    if Step(b, op).1.Err? then 0
    else if op.RefundTransaction? then
      if op.transaction < |b.ledger.log| then -EntrySum(b.ledger.log[op.transaction].entries, g) else 0
    else if op.PayInvoice? then InvoiceEffect(known, op, g)
    else if op.reference in known then 0
    else StoredSum(PlanOf(op).request.postings, g)
  }

  lemma PostMovesGroup(l: Ledger, req: Request, g: Group)
    requires AllLand(l.balances, req.postings)
    ensures GroupSum(Post(l, req).0.balances, g) == GroupSum(l.balances, g)
         + if Post(l, req).1.Ok? && req.reference !in l.byReference then StoredSum(req.postings, g) else 0
  {
    if Apply(l.balances, req.postings).Ok? {
      ApplyMovesGroup(l.balances, req.postings, g);
    }
  }

  lemma ExecuteMovesGroup(b: Books, op: Op, plan: Plan, g: Group)
    requires AllLand(OpenAll(b.ledger, plan.opens).balances, plan.request.postings)
    ensures GroupSum(Execute(b, op, plan).0.ledger.balances, g) == GroupSum(b.ledger.balances, g)
         + if Execute(b, op, plan).1.Ok? && plan.request.reference !in b.ledger.byReference
           then StoredSum(plan.request.postings, g) else 0
  {
    hide AllLand, OpenAll, StoredSum, Post, GroupSum;
    OpenAllMovesNothing(b.ledger, plan.opens);
    PostMovesGroup(OpenAll(b.ledger, plan.opens), plan.request, g);
  }

  lemma PlannedMovesGroup(b: Books, op: Op, g: Group)
    requires Solvent(b.ledger.balances) && Admissible(b.ledger, op) && !op.RefundTransaction? && !op.PayInvoice?
    ensures GroupSum(Step(b, op).0.ledger.balances, g) == GroupSum(b.ledger.balances, g) + Effect(b, op, g)
  {
    hide PlanOf, Execute, OpenAll, GroupSum, StoredSum, Admissible, Solvent, AllLand;
    PlanReference(op);
    PlanIsPostable(b.ledger, op);
    ExecuteMovesGroup(b, op, PlanOf(op), g);
  }

  ghost function InvoiceEffect(known: map<Reference, nat>, op: Op, g: Group): int
    requires op.PayInvoice?
  {
    (if op.reference in known then 0 else StoredSum(InvoicePayment(op).postings, g))
    + (if Settling(op) in known then 0 else StoredSum(InvoiceSettlement(op).postings, g))
  }

  lemma PostInvoiceMovesGroup(l: Ledger, op: Op, g: Group)
    requires op.PayInvoice? && Clean(op) && ProperReference(op)
    ensures GroupSum(PostInvoice(l, op).0.balances, g) == GroupSum(l.balances, g)
         + if PostInvoice(l, op).1.Ok? then InvoiceEffect(l.byReference, op, g) else 0
  {
    hide Apply, StoredSum, GroupSum, AllLand, Split, Transfer;
    InvoicePostable(l, op);
    PostMovesGroup(l, InvoicePayment(op), g);
    var paid := Post(l, InvoicePayment(op)).0;
    InvoicePostable(paid, op);
    PostMovesGroup(paid, InvoiceSettlement(op), g);
    PaidReferences(l, op);
    hide InvoicePayment, InvoiceSettlement, Post;
  }

  lemma InvoicePostable(l: Ledger, op: Op)
    requires op.PayInvoice? && Clean(op) && ProperReference(op)
    ensures Postable(l, InvoicePayment(op)) && Postable(l, InvoiceSettlement(op))
  {
    hide Postable, Split, Transfer;
    SplitPostable(l, BusinessInvoicePayment, op.reference, Owned(op.business, BusinessWallet), op.driver,
                  op.fare, op.commission, op.tax);
    WholeIsNotHalf(op.fare);
    TransferPostable(l, BusinessInvoicePayment, Settling(op), op.fare, CreditLine(op.business), CLEARING);
  }

  /** The payment does not use the settlement's reference. */
  lemma PaidReferences(l: Ledger, op: Op)
    requires op.PayInvoice? && ProperReference(op)
    ensures InvoicePayment(op).reference == op.reference && InvoiceSettlement(op).reference == Settling(op)
    ensures Settling(op) in Post(l, InvoicePayment(op)).0.byReference <==> Settling(op) in l.byReference
  {
    hide Apply;
  }

  lemma InvoiceMovesGroup(b: Books, op: Op, g: Group)
    requires op.PayInvoice? && Clean(op) && ProperReference(op)
    ensures GroupSum(Step(b, op).0.ledger.balances, g) == GroupSum(b.ledger.balances, g) + Effect(b, op, g)
  {
    hide PostInvoice, OpenAll, InvoiceEffect, GroupSum, Clean, ProperReference, Missing, Execute, Refund;
    var accounts := [Owned(op.business, BusinessWallet), Owned(op.driver, DriverWallet), CreditLine(op.business)];
    OpenAllMovesNothing(b.ledger, accounts);
    PostInvoiceMovesGroup(OpenAll(b.ledger, accounts), op, g);
  }

  /** Where every leg lands, balances move by exactly the legs. */
  lemma StepMovesGroup(b: Books, op: Op, g: Group)
    requires Solvent(b.ledger.balances) && Reversals(b.ledger) && Admissible(b.ledger, op)
    ensures GroupSum(Step(b, op).0.ledger.balances, g) == GroupSum(b.ledger.balances, g) + Effect(b, op, g)
  {
    hide GroupSum, PayInvoiceStep, Execute, PlanOf, Solvent, Clean;
    if op.RefundTransaction? {
      if op.transaction < |b.ledger.log| && b.ledger.log[op.transaction].status == Completed {
        RefundUndoes(b.ledger, op.transaction, g);
      }
    } else if op.PayInvoice? {
      InvoiceMovesGroup(b, op, g);
    } else {
      PlannedMovesGroup(b, op, g);
    }
  }

  // ---------------------------------------------------------------- the log moves by the legs, whatever the amounts

  lemma PostMovesHistory(l: Ledger, req: Request, g: Group)
    ensures History(Post(l, req).0.log, g) == History(l.log, g) + if Commits(l, req) then StoredSum(req.postings, g) else 0
  {
    if Commits(l, req) {
      var after := Apply(l.balances, req.postings).value;
      EntriesSum(req.postings, after, g);
      assert Post(l, req).0.log[..|l.log|] == l.log;
    }
    hide Apply, EntriesOf, StoredSum, EntrySum;
  }

  lemma RefundMovesHistory(l: Ledger, id: nat, g: Group)
    requires Reversals(l)
    ensures History(Refund(l, id).0.log, g) == History(l.log, g)
         - if Refund(l, id).1.Ok? && id < |l.log| then EntrySum(l.log[id].entries, g) else 0
  {
    if id < |l.log| && l.log[id].status == Completed && Refund(l, id).1.Ok? {
      CompletedIsUnrefunded(l, id);
      var req := RefundRequest(l, id);
      var after := Apply(l.balances, req.postings).value;
      var c := Commit(l, req, after, Some(id));
      EntriesSum(req.postings, after, g);
      FlipSum(l.log[id].entries, g);
      assert c.log[..|l.log|] == l.log;
      HistorySameEntries(MarkReversed(c, id).log, c.log, g);
    } else {
      FailedRefundIsNothing(l, id);
    }
    hide Reversals, Apply, EntriesOf, StoredSum, EntrySum, Flip, Balanced;
  }

  lemma ExecuteMovesHistory(b: Books, op: Op, plan: Plan, g: Group)
    ensures History(Execute(b, op, plan).0.ledger.log, g) == History(b.ledger.log, g)
         + if Execute(b, op, plan).1.Ok? && plan.request.reference !in b.ledger.byReference
           then StoredSum(plan.request.postings, g) else 0
  {
    OpenAllMovesNothing(b.ledger, plan.opens);
    PostMovesHistory(OpenAll(b.ledger, plan.opens), plan.request, g);
    hide Post, OpenAll, StoredSum, History, GroupSum;
  }

  lemma InvoiceMovesHistory(b: Books, op: Op, g: Group)
    requires op.PayInvoice? && ProperReference(op)
    ensures History(Step(b, op).0.ledger.log, g) == History(b.ledger.log, g) + Effect(b, op, g)
  {
    var accounts := [Owned(op.business, BusinessWallet), Owned(op.driver, DriverWallet), CreditLine(op.business)];
    var ready := OpenAll(b.ledger, accounts);
    OpenAllMovesNothing(b.ledger, accounts);
    PostMovesHistory(ready, InvoicePayment(op), g);
    PostMovesHistory(Post(ready, InvoicePayment(op)).0, InvoiceSettlement(op), g);
    PaidReferences(ready, op);
    hide Post, OpenAll, StoredSum, History, GroupSum, Missing, InvoicePayment, InvoiceSettlement, Execute, Refund, ProperReference;
  }

  /** Whatever the amounts, an operation adds exactly its own legs to the history of any group of accounts. */
  lemma StepMovesHistory(b: Books, op: Op, g: Group)
    requires Reversals(b.ledger) && ProperReference(op)
    ensures History(Step(b, op).0.ledger.log, g) == History(b.ledger.log, g) + Effect(b, op, g)
  {
    if op.RefundTransaction? {
      RefundMovesHistory(b.ledger, op.transaction, g);
    } else if op.PayInvoice? {
      InvoiceMovesHistory(b, op, g);
    } else {
      PlanReference(op);
      ExecuteMovesHistory(b, op, PlanOf(op), g);
    }
    hide Reversals, History, EntrySum, StoredSum, PlanOf, Execute, Refund, PayInvoiceStep, InvoiceEffect;
  }

  // ---------------------------------------------------------------- what an operation does not touch

  lemma {:induction false} ApplyLeavesGroup(b: Balances, ps: seq<Posting>, g: Group)
    requires Apply(b, ps).Ok? && forall p <- ps :: !g.Has(p.account)
    ensures GroupSum(Apply(b, ps).value, g) == GroupSum(b, g)
    decreases |ps|
  {
    if ps != [] {
      var most, last := ps[..|ps| - 1], ps[|ps| - 1];
      assert last in ps;
      var m := Apply(b, most).value;
      ApplyLeavesGroup(b, most, g);
      GroupSumUpdate(m, g, last.account, Column(m[last.account] as real + last.Signed()));
    }
    hide Column, GroupSum;
  }

  lemma PostLeavesGroup(l: Ledger, req: Request, reverses: Option<nat>, g: Group)
    requires forall p <- req.postings :: !g.Has(p.account)
    ensures GroupSum(PostReversing(l, req, reverses).0.balances, g) == GroupSum(l.balances, g)
  {
    if Apply(l.balances, req.postings).Ok? {
      ApplyLeavesGroup(l.balances, req.postings, g);
    }
    hide Apply, Balanced, GroupSum, EntriesOf;
  }

  /** No leg of the operation is in the group. */
  ghost predicate Misses(l: Ledger, op: Op, g: Group) {
    if op.RefundTransaction? then op.transaction < |l.log| ==> forall e <- l.log[op.transaction].entries :: !g.Has(e.account)
    else if op.PayInvoice? then
      (forall p <- InvoicePayment(op).postings :: !g.Has(p.account)) && forall p <- InvoiceSettlement(op).postings :: !g.Has(p.account)
    else forall p <- PlanOf(op).request.postings :: !g.Has(p.account)
  }

  lemma ExecuteLeavesGroup(b: Books, op: Op, plan: Plan, g: Group)
    requires forall p <- plan.request.postings :: !g.Has(p.account)
    ensures GroupSum(Execute(b, op, plan).0.ledger.balances, g) == GroupSum(b.ledger.balances, g)
  {
    hide GroupSum, OpenAll, Missing, PostReversing;
    OpenAllMovesNothing(b.ledger, plan.opens);
    PostLeavesGroup(OpenAll(b.ledger, plan.opens), plan.request, None, g);
  }

  lemma InvoiceLeavesGroup(l: Ledger, op: Op, g: Group)
    requires op.PayInvoice?
    requires (forall p <- InvoicePayment(op).postings :: !g.Has(p.account)) && forall p <- InvoiceSettlement(op).postings :: !g.Has(p.account)
    ensures GroupSum(PayInvoiceStep(l, op).0.balances, g) == GroupSum(l.balances, g)
  {
    hide GroupSum, OpenAll, Missing, PostReversing, InvoicePayment, InvoiceSettlement;
    var accounts := [Owned(op.business, BusinessWallet), Owned(op.driver, DriverWallet), CreditLine(op.business)];
    var ready := OpenAll(l, accounts);
    OpenAllMovesNothing(l, accounts);
    PostLeavesGroup(ready, InvoicePayment(op), None, g);
    PostLeavesGroup(Post(ready, InvoicePayment(op)).0, InvoiceSettlement(op), None, g);
  }

  lemma RefundLeavesGroup(l: Ledger, id: nat, g: Group)
    requires id < |l.log| ==> forall e <- l.log[id].entries :: !g.Has(e.account)
    ensures GroupSum(Refund(l, id).0.balances, g) == GroupSum(l.balances, g)
  {
    hide GroupSum, PostReversing, Flip;
    if id < |l.log| {
      FlipStaysOutside(l.log[id].entries, g);
      PostLeavesGroup(l, RefundRequest(l, id), Some(id), g);
    }
  }

  /** Then the group stays as it is, whatever the amounts and the books. */
  lemma StepLeavesGroup(b: Books, op: Op, g: Group)
    requires Misses(b.ledger, op, g)
    ensures GroupSum(Step(b, op).0.ledger.balances, g) == GroupSum(b.ledger.balances, g)
  {
    hide GroupSum, PlanOf, Execute, PayInvoiceStep, Refund, InvoicePayment, InvoiceSettlement;
    if op.RefundTransaction? {
      RefundLeavesGroup(b.ledger, op.transaction, g);
    } else if op.PayInvoice? {
      InvoiceLeavesGroup(b.ledger, op, g);
    } else {
      ExecuteLeavesGroup(b, op, PlanOf(op), g);
    }
  }

  lemma FlipStaysOutside(es: seq<Entry>, g: Group)
    requires forall e <- es :: !g.Has(e.account)
    ensures forall p <- Flip(es) :: !g.Has(p.account)
  {
    forall p <- Flip(es)
      ensures !g.Has(p.account)
    {
      var j :| 0 <= j < |es| && p == es[j].Flipped();
      assert es[j] in es;
    }
  }
}
