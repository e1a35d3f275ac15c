/** The wallet screen: one line per transaction that touches the account, newest first, signed from its holder's side. */
module WalletHistory {
  import opened Option
  import opened Money
  import opened Ledger
  import opened Transfers
  import opened Drift

  /** A line: what the transaction did to the account in all. */
  datatype Line = Line(transaction: nat, amount: nat, direction: Direction, signedAmount: int)

  predicate Touches(t: Transaction, a: Account) {
    exists e <- t.entries :: e.account == a
  }

  /** entries: { where: { accountId } } */
  function EntriesFor(es: seq<Entry>, a: Account): seq<Entry>
    decreases |es|
  {
    if es == [] then []
    else EntriesFor(es[..|es| - 1], a) + if es[|es| - 1].account == a then [es[|es| - 1]] else []
  }

  /** reduce: credits add, debits subtract. */
  function Net(es: seq<Entry>): int
    decreases |es|
  {
    if es == [] then 0
    else
      var sum, e := Net(es[..|es| - 1]), es[|es| - 1];
      if e.direction.Credit? then sum + e.amount else sum - e.amount
  }

  function Describe(t: Transaction, id: nat, a: Account): Line {
    var net := Net(EntriesFor(t.entries, a));
    Line(id, if net < 0 then -net else net, if net < 0 then Debit else Credit, net)
  }

  /** Every line of the account's history; a transaction's id grows with its creation. */
  function Lines(log: seq<Transaction>, a: Account): seq<Line>
    decreases |log|
  {
    if log == [] then []
    else
      var n := |log| - 1;
      (if Touches(log[n], a) then [Describe(log[n], n, a)] else []) + Lines(log[..n], a)
  }

  function Signed(lines: seq<Line>): int {
    if lines == [] then 0 else lines[0].signedAmount + Signed(lines[1..])
  }

  lemma {:induction false} NetIsEntrySum(es: seq<Entry>, a: Account)
    ensures Net(EntriesFor(es, a)) == EntrySum(es, Only(a))
    decreases |es|
  {
    if es != [] {
      var n := |es| - 1;
      NetIsEntrySum(es[..n], a);
      if es[n].account == a {
        assert EntriesFor(es, a)[..|EntriesFor(es, a)| - 1] == EntriesFor(es[..n], a);
      } else {
        assert EntriesFor(es, a) == EntriesFor(es[..n], a);
      }
    }
  }

  lemma {:induction false} LinesSum(log: seq<Transaction>, a: Account)
    ensures Signed(Lines(log, a)) == History(log, Only(a))
    decreases |log|
  {
    if log != [] {
      var n := |log| - 1;
      LinesSum(log[..n], a);
      if Touches(log[n], a) {
        NetIsEntrySum(log[n].entries, a);
        var line := Describe(log[n], n, a);
        assert ([line] + Lines(log[..n], a))[1..] == Lines(log[..n], a);
      } else {
        OutsideSum(log[n].entries, Only(a));
        assert [] + Lines(log[..n], a) == Lines(log[..n], a);
      }
    }
  }

  /** The signed amounts of the whole history add up to the account's balance, less whatever it has drifted. */
  lemma HistoryAddsUpToBalance(l: Ledger, a: Account)
    requires a in l.balances
    ensures Signed(Lines(l.log, a)) == l.balances[a] - DriftOf(l, a)
    ensures Valid(l) ==> Signed(Lines(l.log, a)) == l.balances[a]
  {
    LinesSum(l.log, a);
    if Valid(l) {
      ReconciledHasNoDrift(l, a);
    }
    hide Sturdy, Snapshots;
  }

  /** And those up to and including any transaction add up to the balance it recorded for the account. */
  lemma LinesAddUpToSnapshot(l: Ledger, i: nat, j: nat)
    requires Valid(l) && i < |l.log| && j < |l.log[i].entries|
    ensures Signed(Lines(l.log[..i + 1], l.log[i].entries[j].account)) == l.log[i].entries[j].balanceAfter
  {
    LinesSum(l.log[..i + 1], l.log[i].entries[j].account);
  }

  /** Once a refund is posted, the two lines cancel on every account they show on. */
  lemma RefundedLinesCancel(l: Ledger, id: nat, a: Account)
    requires Reversals(l) && id < |l.log| && l.log[id].status == Reversed
    ensures var refund := l.byReference[RefundRef(id)];
            refund < |l.log| && Describe(l.log[id], id, a).signedAmount + Describe(l.log[refund], refund, a).signedAmount == 0
  {
    var refund := l.byReference[RefundRef(id)];
    NetIsEntrySum(l.log[id].entries, a);
    NetIsEntrySum(l.log[refund].entries, a);
    ReversalNetsToZero(l, id, Only(a));
  }

  /** A line of the account: what the transaction did to it in all, as a debit or a credit. */
  ghost predicate Shows(line: Line, log: seq<Transaction>, a: Account) {
    && line.transaction < |log| && Touches(log[line.transaction], a)
    && line.signedAmount == EntrySum(log[line.transaction].entries, Only(a))
    && line.amount as int == (if line.direction.Credit? then line.signedAmount else -line.signedAmount)
    && (line.direction.Debit? <==> line.signedAmount < 0)
  }

  /** Every transaction of the account has its line. */
  ghost predicate AllShown(lines: seq<Line>, log: seq<Transaction>, a: Account) {
    forall id: nat :: id < |log| && Touches(log[id], a) ==> exists i :: 0 <= i < |lines| && lines[i].transaction == id
  }

  lemma DescribeShows(log: seq<Transaction>, id: nat, a: Account)
    requires id < |log| && Touches(log[id], a)
    ensures Shows(Describe(log[id], id, a), log, a) && Describe(log[id], id, a).transaction == id
  {
    NetIsEntrySum(log[id].entries, a);
    hide EntrySum, EntriesFor, Net, Touches;
  }

  lemma ShownBefore(lines: seq<Line>, log: seq<Transaction>, a: Account, more: seq<Line>)
    requires log != [] && AllShown(lines, log[..|log| - 1], a)
    requires forall i :: 0 <= i < |lines| ==> lines[i] in more
    requires Touches(log[|log| - 1], a) ==> exists i :: 0 <= i < |more| && more[i].transaction == |log| - 1
    ensures AllShown(more, log, a)
  {
    forall id: nat | id < |log| && Touches(log[id], a)
      ensures exists i :: 0 <= i < |more| && more[i].transaction == id
    {
      if id < |log| - 1 {
        assert log[..|log| - 1][id] == log[id];
        var i :| 0 <= i < |lines| && lines[i].transaction == id;
        assert lines[i] in more;
      }
    }
    hide Touches;
  }

  /** Newest first, every transaction of the account on a line of its own, and nothing else. */
  lemma {:induction false} LinesAre(log: seq<Transaction>, a: Account)
    ensures var lines := Lines(log, a);
            && (forall i, j :: 0 <= i < j < |lines| ==> lines[i].transaction > lines[j].transaction)
            && (forall i :: 0 <= i < |lines| ==> Shows(lines[i], log, a))
            && AllShown(lines, log, a)
    decreases |log|
  {
    hide Describe, Touches, EntrySum;
    if log != [] {
      var n := |log| - 1;
      var rest, lines := Lines(log[..n], a), Lines(log, a);
      LinesAre(log[..n], a);
      forall i | 0 <= i < |rest|
        ensures Shows(rest[i], log, a) && rest[i].transaction < n
      {
        assert Shows(rest[i], log[..n], a);
        assert log[..n][rest[i].transaction] == log[rest[i].transaction];
      }
      if Touches(log[n], a) {
        DescribeShows(log, n, a);
        assert lines == [Describe(log[n], n, a)] + rest;
        assert lines[0].transaction == n;
      } else {
        assert lines == rest;
      }
      hide Shows;
      assert forall i :: 0 <= i < |rest| ==> rest[i] in lines;
      ShownBefore(rest, log, a, lines);
    }
    hide Shows;
  }
}
