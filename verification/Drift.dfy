/**
 How far a balance can drift from the entries that should justify it. A user's balance drifts by exactly one
 kobo for every half-kobo debit and by nothing else, always upwards: the rounding of what is left and the
 rounding of what was taken both go the user's way.
 */
module Drift {
  import opened Option
  import opened Money
  import opened Ledger

  /** By how much a stored balance moves more than the entry beside it says. */
  function Slip(balance: int, x: real): int {
    Column(balance as real + x) - balance - Column(x)
  }

  /** Only a half kobo slips, and only across zero. */
  lemma SlipIs(balance: int, x: real)
    ensures Slip(balance, x) == if !Half(x) || (x >= 0.0 <==> balance as real + x >= 0.0) then 0 else if x < 0.0 then 1 else -1
  {
    ColumnBySplit(x, x.Floor);
    ColumnBySplit(balance as real + x, balance + x.Floor);
  }

  /** A debit the balance covers leaves a kobo too much iff it is half a kobo out. */
  lemma CoveredDebitSlips(balance: int, amount: real)
    requires 0.0 <= amount <= balance as real
    ensures Slip(balance, -amount) == if Half(amount) then 1 else 0
  {
    SlipIs(balance, -amount);
    HalfOdd(amount);
    if Half(amount) && amount == 0.0 {
      ColumnOfWhole(0);
    }
  }

  lemma CreditLandsExactly(balance: int, amount: real)
    requires balance >= 0 && amount >= 0.0
    ensures Slip(balance, amount) == 0
  {
    SlipIs(balance, amount);
  }

  /** How many debits of an account are half a kobo out. */
  function HalfDebits(ps: seq<Posting>, a: Account): nat
    decreases |ps|
  {
    if ps == [] then 0
    else
      var last := ps[|ps| - 1];
      HalfDebits(ps[..|ps| - 1], a) + if last.account == a && last.direction.Debit? && Half(last.amount) then 1 else 0
  }

  lemma OneMoreSlips(balance: int, p: Posting)
    requires balance >= 0 && p.amount >= 0.0 && (p.direction.Debit? ==> balance as real >= p.amount)
    ensures Column(balance as real + p.Signed()) == balance + Column(p.Signed()) + if p.direction.Debit? && Half(p.amount) then 1 else 0
  {
    if p.direction.Debit? {
      CoveredDebitSlips(balance, p.amount);
    } else {
      CreditLandsExactly(balance, p.amount);
    }
    hide Column, Half;
  }

  /** What postings that get through make of a user's balance. */
  lemma {:induction false} ApplyMovesUser(b: Balances, ps: seq<Posting>, a: Account)
    requires Apply(b, ps).Ok? && Solvent(b) && NonNegative(ps) && a.Owned? && a in b
    ensures Apply(b, ps).value[a] == b[a] + StoredSum(ps, Only(a)) + HalfDebits(ps, a)
    decreases |ps|
  {
    if ps != [] {
      var most, last := ps[..|ps| - 1], ps[|ps| - 1];
      assert last in ps;
      ApplyMovesUser(b, most, a);
      ApplySolvent(b, most);
      if last.account == a {
        OneMoreSlips(Apply(b, most).value[a], last);
      }
      hide Column, Half;
    }
  }

  lemma {:induction false} NoHalfDebits(ps: seq<Posting>, a: Account)
    requires forall p <- ps :: p.account != a || p.direction.Credit? || !Half(p.amount)
    ensures HalfDebits(ps, a) == 0
    decreases |ps|
  {
    if ps != [] {
      assert ps[|ps| - 1] in ps;
      NoHalfDebits(ps[..|ps| - 1], a);
    }
  }

  // ---------------------------------------------------------------- of a ledger

  function BalanceOf(b: Balances, a: Account): int {
    if a in b then b[a] else 0
  }

  /** Exactly these accounts gained or lost, each by what the map says. */
  ghost predicate Moved(l: Ledger, m: Ledger, gains: map<Account, int>) {
    forall a: Account :: BalanceOf(m.balances, a) == BalanceOf(l.balances, a) + if a in gains then gains[a] else 0
  }

  /** Balance less history. */
  function DriftOf(l: Ledger, a: Account): int {
    BalanceOf(l.balances, a) - History(l.log, Only(a))
  }

  /** The same of a group of accounts. */
  ghost function GroupDrift(l: Ledger, g: Group): int {
    GroupSum(l.balances, g) - History(l.log, g)
  }

  lemma DriftOfOne(l: Ledger, a: Account)
    ensures GroupDrift(l, Only(a)) == DriftOf(l, a)
  {
    GroupSumOnly(l.balances, a);
    hide GroupSum, History;
  }

  /** No user's balance is negative, and the stored amounts are not. */
  ghost predicate Steady(l: Ledger) {
    Solvent(l.balances) && Wellformed(l)
  }

  /** Some user has more than their entries justify. */
  ghost predicate Overstated(l: Ledger) {
    Steady(l) && exists a: Account :: a.Owned? && DriftOf(l, a) > 0
  }

  /** Then the books do not reconcile. */
  lemma OverstatedIsNotValid(l: Ledger)
    requires Overstated(l)
    ensures !Reconciled(l) && !Valid(l)
  {
    var a: Account :| a.Owned? && DriftOf(l, a) > 0;
    GroupSumOnly(l.balances, a);
    assert GroupSum(l.balances, Only(a)) != History(l.log, Only(a));
    hide Steady, GroupSum, History;
  }

  lemma ReconciledHasNoDrift(l: Ledger, a: Account)
    requires Reconciled(l)
    ensures DriftOf(l, a) == 0
  {
    GroupSumOnly(l.balances, a);
    assert GroupSum(l.balances, Only(a)) == History(l.log, Only(a));
    hide GroupSum, History;
  }

  /** A commit lets a user's balance drift by its half-kobo debits. */
  lemma CommitDrifts(l: Ledger, req: Request, reverses: Option<nat>, a: Account)
    requires Steady(l) && NonNegative(req.postings) && Apply(l.balances, req.postings).Ok? && a.Owned?
    ensures var m := Commit(l, req, Apply(l.balances, req.postings).value, reverses);
            Steady(m) && DriftOf(m, a) == DriftOf(l, a) + HalfDebits(req.postings, a)
  {
    var after := Apply(l.balances, req.postings).value;
    var m := Commit(l, req, after, reverses);
    ApplySolvent(l.balances, req.postings);
    CommitWellformed(l, req, reverses);
    EntriesSum(req.postings, after, Only(a));
    assert m.log[..|l.log|] == l.log;
    if a in l.balances {
      ApplyMovesUser(l.balances, req.postings, a);
    } else {
      NoHalfDebits(req.postings, a);
      StrangersStoreNothing(req.postings, a);
    }
    hide Apply, EntriesOf, StoredSum, EntrySum, HalfDebits, Column, Half, Wellformed;
  }

  lemma {:induction false} StrangersStoreNothing(ps: seq<Posting>, a: Account)
    requires forall p <- ps :: p.account != a
    ensures StoredSum(ps, Only(a)) == 0
    decreases |ps|
  {
    if ps != [] {
      assert ps[|ps| - 1] in ps;
      StrangersStoreNothing(ps[..|ps| - 1], a);
    }
  }

  lemma PostDrifts(l: Ledger, req: Request, a: Account)
    requires Steady(l) && NonNegative(req.postings) && a.Owned?
    ensures Steady(Post(l, req).0)
    ensures DriftOf(Post(l, req).0, a) == DriftOf(l, a) + if Commits(l, req) then HalfDebits(req.postings, a) else 0
  {
    if Commits(l, req) {
      CommitDrifts(l, req, None, a);
    }
    hide Apply, Steady, DriftOf, HalfDebits, EntriesOf;
  }

  /** A refund posts whole kobo and lets nothing drift. */
  lemma RefundDrifts(l: Ledger, id: nat, a: Account)
    requires Steady(l) && a.Owned?
    ensures Steady(Refund(l, id).0) && DriftOf(Refund(l, id).0, a) == DriftOf(l, a)
  {
    if id < |l.log| && l.log[id].status == Completed && Refund(l, id).1.Ok? {
      var req := RefundRequest(l, id);
      var posted := PostReversing(l, req, Some(id)).0;
      FlipIsClean(l, id);
      if posted != l {
        CommitDrifts(l, req, Some(id), a);
        FlipHasNoHalves(l.log[id].entries, a);
      }
      MarkingDrifts(posted, id, a);
      hide Steady, DriftOf, Apply, HalfDebits, EntriesOf, MarkReversed;
    }
  }

  lemma FlipHasNoHalves(es: seq<Entry>, a: Account)
    ensures HalfDebits(Flip(es), a) == 0
  {
    FlipIsWhole(es);
    NoHalfDebits(Flip(es), a);
  }

  lemma MarkingDrifts(l: Ledger, id: nat, a: Account)
    requires Steady(l) && id < |l.log|
    ensures Steady(MarkReversed(l, id)) && DriftOf(MarkReversed(l, id), a) == DriftOf(l, a)
  {
    HistorySameEntries(MarkReversed(l, id).log, l.log, Only(a));
  }

  lemma OpeningDrifts(l: Ledger, more: Account, a: Account)
    requires Steady(l)
    ensures Steady(OpenAccount(l, more)) && DriftOf(OpenAccount(l, more), a) == DriftOf(l, a)
  {}
}
