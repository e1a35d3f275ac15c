/** When a two-legged transfer commits, what it stores, and when a refund of it must succeed. */
module Transfers {
  import opened Option
  import opened Money
  import opened Ledger
  import opened WalletSpec
  import opened Effects

  lemma {:induction false} StoredIsSides(ps: seq<Posting>)
    requires AllWhole(ps)
    ensures StoredSum(ps, Everything) as real == SideTotal(ps, Credit) - SideTotal(ps, Debit)
    decreases |ps|
  {
    if ps != [] {
      assert ps[|ps| - 1] in ps;
      WholeLands(0, ps[|ps| - 1]);
      StoredIsSides(ps[..|ps| - 1]);
    }
  }

  /** What a transfer stores on a group. */
  lemma TransferSum(kind: TransactionType, reference: Reference, amount: real, from: Account, to: Account, g: Group)
    ensures StoredSum(Transfer(kind, reference, amount, from, to).postings, g)
         == (if g.Has(to) then Column(amount) else 0) - (if g.Has(from) then Column(amount) else 0)
  {
    var ps := Transfer(kind, reference, amount, from, to).postings;
    ColumnOdd(amount);
    assert ps[..1] == [ps[0]] && ps[..1][..0] == [];
    assert StoredSum(ps[..1], g) == -(if g.Has(from) then Column(amount) else 0);
  }

  lemma {:induction false} SumOutside(ps: seq<Posting>, g: Group)
    requires forall p <- ps :: !g.Has(p.account)
    ensures StoredSum(ps, g) == 0
    decreases |ps|
  {
    if ps != [] {
      assert ps[|ps| - 1] in ps;
      SumOutside(ps[..|ps| - 1], g);
    }
  }

  ghost predicate CanTransfer(l: Ledger, amount: real, from: Account, to: Account) {
    && from != to && from in l.balances && to in l.balances && amount >= 0.0
    && (from.Owned? ==> l.balances[from] as real >= amount)
  }

  /** Both balances rounded as they are stored. */
  function AfterTransfer(b: Balances, amount: real, from: Account, to: Account): Balances
    requires from in b && to in b
  {
    b[from := Column(b[from] as real - amount)][to := Column(b[to] as real + amount)]
  }

  /** A covered transfer under a fresh reference commits, as the next transaction of the log. */
  lemma TransferPosts(l: Ledger, kind: TransactionType, reference: Reference, amount: real, from: Account, to: Account)
    requires CanTransfer(l, amount, from, to) && reference !in l.byReference
    ensures var req := Transfer(kind, reference, amount, from, to);
            Post(l, req) == (Commit(l, req, AfterTransfer(l.balances, amount, from, to), None), Ok(|l.log|))
  {
    var ps := Transfer(kind, reference, amount, from, to).postings;
    assert ps[..1] == [ps[0]] && ps[..1][..0] == [];
    assert Apply(l.balances, ps[..1]) == Ok(l.balances[from := Column(l.balances[from] as real - amount)]);
    assert SideTotal(ps[..1], Debit) == amount && SideTotal(ps[..1], Credit) == 0.0;
    hide Column;
  }

  // ---------------------------------------------------------------- refunds that cannot fail

  /** Every credit went to a platform account, so taking it back needs no cover. */
  ghost predicate CreditsPlatform(es: seq<Entry>) {
    forall e <- es :: e.direction.Credit? ==> e.account.Platform?
  }

  /** A reversal that debits only platform accounts never fails for lack of balance. */
  lemma RefundSucceeds(l: Ledger, id: nat)
    requires Wellformed(l) && id < |l.log| && l.log[id].status == Completed && RefundRef(id) !in l.byReference
    requires CreditsPlatform(l.log[id].entries) && EntrySum(l.log[id].entries, Everything) == 0
    ensures Refund(l, id).1 == Ok(|l.log|)
    ensures Refund(l, id).0.byReference == l.byReference[RefundRef(id) := |l.log|]
    ensures |Refund(l, id).0.log| == |l.log| + 1
    ensures forall i :: 0 <= i < |l.log| ==> Refund(l, id).0.log[i] == if i == id then l.log[i].(status := Reversed) else l.log[i]
    ensures Refund(l, id).0.log[|l.log|].kind == RefundPosting && Refund(l, id).0.log[|l.log|].reference == RefundRef(id)
    ensures Refund(l, id).0.balances.Keys == l.balances.Keys
  {
    var es := l.log[id].entries;
    var ps := Flip(es);
    FlipIsClean(l, id);
    StoredIsSides(ps);
    FlipSum(es, Everything);
    forall p <- ps
      ensures p.account in l.balances && !p.Guarded()
    {
      var j :| 0 <= j < |es| && p == es[j].Flipped();
      assert es[j] in es;
    }
    ApplyIffCovered(l.balances, ps);
  }

  lemma {:induction false} MirrorsCancel(es: seq<Entry>, original: seq<Entry>, g: Group)
    requires Mirrors(es, original)
    ensures EntrySum(es, g) == -EntrySum(original, g)
    decreases |es|
  {
    if es != [] {
      MirrorsCancel(es[..|es| - 1], original[..|original| - 1], g);
    }
  }

  /** A reversed transaction and its refund net to zero on every account and every group. */
  lemma ReversalNetsToZero(l: Ledger, id: nat, g: Group)
    requires Reversals(l) && id < |l.log| && l.log[id].status == Reversed
    ensures RefundRef(id) in l.byReference && l.byReference[RefundRef(id)] < |l.log|
    ensures EntrySum(l.log[id].entries, g) + EntrySum(l.log[l.byReference[RefundRef(id)]].entries, g) == 0
  {
    assert RefundRef(id).subject.RefundOf?;
    MirrorsCancel(l.log[l.byReference[RefundRef(id)]].entries, l.log[id].entries, g);
  }

  // ---------------------------------------------------------------- growth

  /** Nothing written is ever lost or changed, except that a status may become REVERSED. */
  ghost predicate Grows(l: Ledger, m: Ledger) {
    && |l.log| <= |m.log|
    && (forall i :: 0 <= i < |l.log| ==> m.log[i] == l.log[i].(status := m.log[i].status))
    && (forall i :: 0 <= i < |l.log| && l.log[i].status == Reversed ==> m.log[i].status == Reversed)
    && (forall r <- l.byReference :: r in m.byReference && m.byReference[r] == l.byReference[r])
    && l.balances.Keys <= m.balances.Keys
  }

  lemma GrowsTransitive(k: Ledger, l: Ledger, m: Ledger)
    requires Grows(k, l) && Grows(l, m)
    ensures Grows(k, m)
  {
    forall i | 0 <= i < |k.log|
      ensures m.log[i] == k.log[i].(status := m.log[i].status)
    {
      assert l.log[i] == k.log[i].(status := l.log[i].status);
    }
  }

  /** Grows, leaves every old transaction alone, and adds no reference outside `names`. */
  ghost predicate Adds(l: Ledger, m: Ledger, names: set<Reference>) {
    && Grows(l, m)
    && (forall i :: 0 <= i < |l.log| ==> m.log[i] == l.log[i])
    && m.byReference.Keys <= l.byReference.Keys + names
  }

  lemma AddsTransitive(k: Ledger, l: Ledger, m: Ledger, names: set<Reference>)
    requires Adds(k, l, names) && Adds(l, m, names)
    ensures Adds(k, m, names)
  {
    GrowsTransitive(k, l, m);
  }

  lemma PostAdds(l: Ledger, req: Request, reverses: Option<nat>)
    ensures Adds(l, PostReversing(l, req, reverses).0, {req.reference})
  {}

  lemma {:induction false} OpenAllAdds(l: Ledger, accounts: seq<Account>)
    ensures Adds(l, OpenAll(l, accounts), {})
    decreases |accounts|
  {
    if accounts != [] {
      OpenAllAdds(l, accounts[..|accounts| - 1]);
    }
  }

  lemma ExecuteAdds(b: Books, op: Op, plan: Plan)
    ensures Adds(b.ledger, Execute(b, op, plan).0.ledger, {plan.request.reference})
  {
    var ready := OpenAll(b.ledger, plan.opens);
    OpenAllAdds(b.ledger, plan.opens);
    PostAdds(ready, plan.request, None);
    hide PostReversing, OpenAll, Grows;
    AddsTransitive(b.ledger, ready, Post(ready, plan.request).0, {plan.request.reference});
  }

  lemma PayInvoiceAdds(l: Ledger, op: Op)
    requires op.PayInvoice?
    ensures Adds(l, PayInvoiceStep(l, op).0, {op.reference, op.reference.(suffix := Settlement)})
  {
    hide PostReversing, OpenAll, Grows, Missing, InvoicePayment;
    var names := {op.reference, op.reference.(suffix := Settlement)};
    var accounts := [Owned(op.business, BusinessWallet), Owned(op.driver, DriverWallet), CreditLine(op.business)];
    var ready := OpenAll(l, accounts);
    var paid := Post(ready, InvoicePayment(op)).0;
    var settled := Post(paid, InvoiceSettlement(op)).0;
    OpenAllAdds(l, accounts);
    assert InvoicePayment(op).reference == op.reference by { InvoiceReference(op); }
    PostAdds(ready, InvoicePayment(op), None);
    PostAdds(paid, InvoiceSettlement(op), None);
    AddsTransitive(ready, paid, settled, names);
    AddsTransitive(l, ready, settled, names);
    SameAdds(l, names);
  }

  lemma InvoiceReference(op: Op)
    requires op.PayInvoice?
    ensures InvoicePayment(op).reference == op.reference
  {}

  lemma SameAdds(l: Ledger, names: set<Reference>)
    ensures Adds(l, l, names)
  {}

  /** Every operation only adds to the books; and only a refund changes a status. */
  lemma StepGrows(b: Books, op: Op)
    ensures Grows(b.ledger, Step(b, op).0.ledger)
    ensures Step(b, op).0.ledger.byReference.Keys <= b.ledger.byReference.Keys + Names(op)
    ensures !op.RefundTransaction? ==> Adds(b.ledger, Step(b, op).0.ledger, Names(op))
  {
    hide PayInvoiceStep, Execute, PlanOf;
    if op.RefundTransaction? {
      if op.transaction < |b.ledger.log| && b.ledger.log[op.transaction].status == Completed {
        PostAdds(b.ledger, RefundRequest(b.ledger, op.transaction), Some(op.transaction));
      }
    } else if op.PayInvoice? {
      PayInvoiceAdds(b.ledger, op);
    } else {
      ExecuteAdds(b, op, PlanOf(op));
      PlanReference(op);
    }
  }

  /** The references an operation may add. */
  function Names(op: Op): set<Reference> {
    if op.RefundTransaction? then {RefundRef(op.transaction)}
    else if op.PayInvoice? then {op.reference, op.reference.(suffix := Settlement)}
    else {op.reference}
  }

  /** A planned operation adds its reference exactly when it succeeds. */
  lemma StepNames(b: Books, op: Op)
    requires !op.RefundTransaction? && !op.PayInvoice?
    ensures Step(b, op).0.ledger.byReference.Keys
         == b.ledger.byReference.Keys + if Step(b, op).1.Ok? then {op.reference} else {}
  {
    OpenAllGrows(b.ledger, PlanOf(op).opens);
    PlanReference(op);
    assert Step(b, op) == Execute(b, op, PlanOf(op));
    hide PlanOf, OpenAll, Missing, Apply, CountTrips;
  }

  // ---------------------------------------------------------------- one transfer, as an operation

  /** The stored form of a transfer. */
  ghost predicate IsTransfer(t: Transaction, reference: Reference, amount: int, from: Account, to: Account) {
    && t.reference == reference && |t.entries| == 2
    && t.entries[0].account == from && t.entries[0].direction == Debit && t.entries[0].amount == amount
    && t.entries[1].account == to && t.entries[1].direction == Credit && t.entries[1].amount == amount
  }

  lemma IsTransferSum(t: Transaction, reference: Reference, amount: int, from: Account, to: Account, g: Group)
    requires IsTransfer(t, reference, amount, from, to)
    ensures EntrySum(t.entries, g) == (if g.Has(to) then amount else 0) - (if g.Has(from) then amount else 0)
  {
    assert t.entries[..1] == [t.entries[0]] && t.entries[..1][..0] == [];
    assert EntrySum(t.entries[..1], g) == -(if g.Has(from) then amount else 0);
  }

  /** The operation posts a transfer, its accounts will exist, and the debit is covered. */
  ghost predicate Posts(b: Books, op: Op, amount: real, from: Account, to: Account) {
    && !op.RefundTransaction? && !op.PayInvoice? && op.reference !in b.ledger.byReference
    && PlanOf(op).request == Transfer(PlanOf(op).request.kind, op.reference, amount, from, to)
    && Missing(OpenAll(b.ledger, PlanOf(op).opens), PlanOf(op).needs) == None
    && CanTransfer(OpenAll(b.ledger, PlanOf(op).opens), amount, from, to)
  }

  /** What such a transfer leaves in the log and on the balances, whether or not its legs land. */
  lemma TransferStepShape(b: Books, op: Op, amount: real, from: Account, to: Account)
    requires Posts(b, op, amount, from, to)
    ensures var (after, outcome) := Step(b, op);
            var l, m, ready := b.ledger, after.ledger, OpenAll(b.ledger, PlanOf(op).opens);
            && outcome == Ok(|l.log|) && |m.log| == |l.log| + 1 && m.log[..|l.log|] == l.log
            && IsTransfer(m.log[|l.log|], op.reference, Column(amount), from, to)
            && m.log[|l.log|].status == Completed && m.log[|l.log|].kind == PlanOf(op).request.kind
            && m.byReference == l.byReference[op.reference := |l.log|]
            && m.balances == AfterTransfer(ready.balances, amount, from, to)
  {
    hide OpenAll, Missing, Column;
    var plan := PlanOf(op);
    var ready := OpenAll(b.ledger, plan.opens);
    OpenAllGrows(b.ledger, plan.opens);
    TransferPosts(ready, plan.request.kind, op.reference, amount, from, to);
    assert Step(b, op) == Execute(b, op, plan);
    hide PlanOf, Post;
  }

  /** Both legs land unless the amount is half a kobo out. */
  lemma TransferMovesGroup(b: Balances, amount: real, from: Account, to: Account, g: Group)
    requires from in b && to in b && from != to && !Half(amount)
    ensures GroupSum(AfterTransfer(b, amount, from, to), g) == GroupSum(b, g)
         + (if g.Has(to) then Column(amount) else 0) - (if g.Has(from) then Column(amount) else 0)
  {
    HalfOdd(amount);
    ColumnOdd(amount);
    LandsIff(b[from], -amount);
    LandsIff(b[to], amount);
    var left, right := Column(b[from] as real - amount), Column(b[to] as real + amount);
    GroupSumUpdate(b, g, from, left);
    GroupSumUpdate(b[from := left], g, to, right);
    hide Column, Half, GroupSum;
  }

  /** A covered transfer, not half a kobo out, from start to end; in any books. */
  lemma TransferStep(b: Books, op: Op, amount: real, from: Account, to: Account)
    requires Posts(b, op, amount, from, to) && !Half(amount)
    ensures var (after, outcome) := Step(b, op);
            var l, m := b.ledger, after.ledger;
            && outcome == Ok(|l.log|) && Grows(l, m)
            && |m.log| == |l.log| + 1 && m.log[..|l.log|] == l.log
            && IsTransfer(m.log[|l.log|], op.reference, Column(amount), from, to)
            && m.log[|l.log|].status == Completed && m.log[|l.log|].kind == PlanOf(op).request.kind
            && m.byReference == l.byReference[op.reference := |l.log|]
            && (forall g: Group :: GroupSum(m.balances, g) == GroupSum(l.balances, g)
                  + (if g.Has(to) then Column(amount) else 0) - (if g.Has(from) then Column(amount) else 0))
  {
    StepGrows(b, op);
    TransferStepShape(b, op, amount, from, to);
    OpenAllMovesNothing(b.ledger, PlanOf(op).opens);
    var ready := OpenAll(b.ledger, PlanOf(op).opens).balances;
    assert from in ready && to in ready && from != to;
    forall g: Group
      ensures GroupSum(AfterTransfer(ready, amount, from, to), g) == GroupSum(b.ledger.balances, g)
           + (if g.Has(to) then Column(amount) else 0) - (if g.Has(from) then Column(amount) else 0)
    {
      TransferMovesGroup(ready, amount, from, to, g);
    }
    hide GroupSum, OpenAll, PlanOf, Step, Half, Column, AfterTransfer, IsTransfer, Grows, Missing;
  }

  lemma OpenAllGrows(l: Ledger, accounts: seq<Account>)
    ensures OpenAll(l, accounts).log == l.log && OpenAll(l, accounts).byReference == l.byReference
  {
    OpenAllMovesNothing(l, accounts);
    hide GroupSum, OpenAll;
  }
}
