/**
 The double-entry ledger: accounts with a materialised balance, and an append-only log of transactions
 whose entries justify every balance. `Post` and `Refund` say what one committed database transaction
 does; the service classes are proved to do exactly that.
 */
module Ledger {
  import opened Option
  import opened Money

  datatype AccountType =
    | RiderWallet | DriverWallet | DriverCommissionPayable | BusinessWallet | BusinessCreditPayable
    | PlatformRevenue | PlatformGatewayClearing | PlatformReferralPayable | PlatformTaxPayable

  /** (ownerId, type) is unique; a platform account has no owner and is never guarded. */
  datatype Account = Owned(owner: nat, kind: AccountType) | Platform(kind: AccountType)

  datatype Direction = Debit | Credit

  /** What a reference string is about, and the suffix it carries. */
  datatype Subject =
    | TopUpOf(token: nat) | WithdrawalOf(token: nat) | RideOf(id: nat) | DeliveryOf(id: nat) | InvoiceOf(id: nat)
    | SwapOf(id: nat) | AccrualOf(redemption: nat) | PayoutOf(redemption: nat) | RefundOf(transaction: nat)
  datatype Suffix = Plain | Settle | CreditPart | Commission | Cancellation | Settlement
  datatype Reference = Reference(subject: Subject, suffix: Suffix)

  datatype TransactionType =
    | WalletTopUp | WalletWithdrawal | RidePaymentWallet | RidePaymentCash | DeliveryPaymentWallet
    | DeliveryPaymentCash | BusinessDeliveryAccrual | CommissionSettlement | BusinessInvoicePayment
    | RefundPosting | ReferralPayout | KilowattPayment

  datatype Posting = Posting(account: Account, direction: Direction, amount: real) {
    function Signed(): real {
      if direction.Credit? then amount else -amount
    }
    predicate Guarded() {
      direction.Debit? && account.Owned?
    }
  }

  datatype Request = Request(kind: TransactionType, reference: Reference, amount: real, postings: seq<Posting>)

  /** A stored ledger entry; its amount went through a money column. */
  datatype Entry = Entry(account: Account, direction: Direction, amount: int, balanceAfter: int) {
    function Signed(): int {
      if direction.Credit? then amount else -amount
    }
    function Flipped(): Posting {
      Posting(account, if direction.Debit? then Credit else Debit, amount as real)
    }
  }

  datatype Status = Completed | Reversed

  datatype Transaction = Transaction(kind: TransactionType, reference: Reference, amount: int,
                                     entries: seq<Entry>, status: Status, reverses: Option<nat>)

  type Balances = map<Account, int>

  /** A transaction's id is its position in the log; `byReference` is the unique index. */
  datatype Ledger = Ledger(balances: Balances, log: seq<Transaction>, byReference: map<Reference, nat>)

  datatype PostError =
    | Unbalanced | UnknownAccount(account: Account) | InsufficientBalance(account: Account)
    | NotSeeded(kind: AccountType) | TransactionNotFound | AlreadyRefunded

  // ---------------------------------------------------------------- operations

  function ApplyOne(b: Balances, p: Posting): (r: Result<Balances, PostError>) {
    if p.account !in b then Err(UnknownAccount(p.account))
    else if p.Guarded() && (b[p.account] as real) < p.amount then Err(InsufficientBalance(p.account))
    else Ok(b[p.account := Column(b[p.account] as real + p.Signed())])
  }

  function Apply(b: Balances, ps: seq<Posting>): (r: Result<Balances, PostError>)
    ensures r.Ok? ==> r.value.Keys == b.Keys && forall p <- ps :: p.account in b
    decreases |ps|
  {
    if ps == [] then Ok(b)
    else
      match Apply(b, ps[..|ps| - 1])
      case Err(e) => Err(e)
      case Ok(m) => ApplyOne(m, ps[|ps| - 1])
  }

  function SideTotal(ps: seq<Posting>, side: Direction): real
    decreases |ps|
  {
    if ps == [] then 0.0
    else SideTotal(ps[..|ps| - 1], side) + (if ps[|ps| - 1].direction == side then ps[|ps| - 1].amount else 0.0)
  }

  predicate Balanced(ps: seq<Posting>) {
    SideTotal(ps, Debit) == SideTotal(ps, Credit)
  }

  function EntriesOf(ps: seq<Posting>, after: Balances): (es: seq<Entry>)
    requires forall p <- ps :: p.account in after
    ensures |es| == |ps|
  {
    seq(|ps|, i requires 0 <= i < |ps| =>
      Entry(ps[i].account, ps[i].direction, Column(ps[i].amount), after[ps[i].account]))
  }

  /** The ledger after `req` committed with the balances `after`. */
  function Commit(l: Ledger, req: Request, after: Balances, reverses: Option<nat>): Ledger
    requires forall p <- req.postings :: p.account in after
  {
    Ledger(after,
           l.log + [Transaction(req.kind, req.reference, Column(req.amount), EntriesOf(req.postings, after),
                                Completed, reverses)],
           l.byReference[req.reference := |l.log|])
  }

  function PostReversing(l: Ledger, req: Request, reverses: Option<nat>): (r: (Ledger, Result<nat, PostError>)) {
    if req.reference in l.byReference then (l, Ok(l.byReference[req.reference]))
    else if !Balanced(req.postings) then (l, Err(Unbalanced))
    else
      match Apply(l.balances, req.postings)
      case Err(e) => (l, Err(e))
      case Ok(after) => (Commit(l, req, after, reverses), Ok(|l.log|))
  }

  function Post(l: Ledger, req: Request): (r: (Ledger, Result<nat, PostError>)) {
    PostReversing(l, req, None)
  }

  /** The post commits now. */
  predicate Commits(l: Ledger, req: Request) {
    req.reference !in l.byReference && Post(l, req).1.Ok?
  }

  function Flip(es: seq<Entry>): (ps: seq<Posting>)
    ensures |ps| == |es|
  {
    seq(|es|, i requires 0 <= i < |es| => es[i].Flipped())
  }

  function RefundRequest(l: Ledger, id: nat): Request
    requires id < |l.log|
  {
    Request(RefundPosting, RefundRef(id), l.log[id].amount as real, Flip(l.log[id].entries))
  }

  function MarkReversed(l: Ledger, id: nat): Ledger
    requires id < |l.log|
  {
    l.(log := l.log[id := l.log[id].(status := Reversed)])
  }

  function Refund(l: Ledger, id: nat): (r: (Ledger, Result<nat, PostError>)) {
    if id >= |l.log| then (l, Err(TransactionNotFound))
    else if l.log[id].status == Reversed then (l, Err(AlreadyRefunded))
    else
      var (posted, outcome) := PostReversing(l, RefundRequest(l, id), Some(id));
      if outcome.Err? || id >= |posted.log| then (l, outcome) else (MarkReversed(posted, id), outcome)
  }

  /** upsert: an account that is missing starts at zero. */
  function OpenAccount(l: Ledger, a: Account): Ledger {
    if a in l.balances then l else l.(balances := l.balances[a := 0])
  }

  // ---------------------------------------------------------------- sums

  /** The groups of accounts whose balances are reconciled. */
  datatype Group = Everything | Only(account: Account) | OfKind(kind: AccountType) {
    predicate Has(a: Account) {
      match this
      case Everything => true
      case Only(b) => a == b
      case OfKind(k) => a.kind == k
    }
  }

  ghost function GroupSum(m: Balances, g: Group): int
    decreases |m|
  {
    if m == map[] then 0
    else
      var k :| k in m;
      Share(m, g, k) + GroupSum(m - {k}, g)
  }

  ghost function Share(m: Balances, g: Group, k: Account): int {
    if k in m && g.Has(k) then m[k] else 0
  }

  /** What a list of postings adds to a group, entry by entry as stored. */
  ghost function StoredSum(ps: seq<Posting>, g: Group): int
    decreases |ps|
  {
    if ps == [] then 0
    else StoredSum(ps[..|ps| - 1], g) + (if g.Has(ps[|ps| - 1].account) then Column(ps[|ps| - 1].Signed()) else 0)
  }

  function EntrySum(es: seq<Entry>, g: Group): int
    decreases |es|
  {
    if es == [] then 0
    else EntrySum(es[..|es| - 1], g) + (if g.Has(es[|es| - 1].account) then es[|es| - 1].Signed() else 0)
  }

  function History(log: seq<Transaction>, g: Group): int
    decreases |log|
  {
    if log == [] then 0 else History(log[..|log| - 1], g) + EntrySum(log[|log| - 1].entries, g)
  }

  // ---------------------------------------------------------------- invariant

  ghost predicate Indexed(l: Ledger) {
    && (forall r <- l.byReference :: l.byReference[r] < |l.log| && l.log[l.byReference[r]].reference == r)
    && (forall i :: 0 <= i < |l.log| ==> l.log[i].reference in l.byReference && l.byReference[l.log[i].reference] == i)
  }

  /** Every group's balance is the signed sum of its entries; Everything and Only(a) are two of them. */
  ghost predicate Reconciled(l: Ledger) {
    forall g: Group :: GroupSum(l.balances, g) == History(l.log, g)
  }

  ghost predicate Solvent(b: Balances) {
    forall a <- b :: a.Owned? ==> b[a] >= 0
  }

  /** balanceAfter is the account's running sum at the end of the transaction that wrote it. */
  ghost predicate Snapshots(log: seq<Transaction>) {
    forall i, j :: 0 <= i < |log| && 0 <= j < |log[i].entries| ==>
      log[i].entries[j].balanceAfter == History(log[..i + 1], Only(log[i].entries[j].account))
  }

  /** A transaction is REVERSED exactly when its refund was posted, and that refund mirrors it. */
  ghost predicate Reversals(l: Ledger) {
    && (forall i :: 0 <= i < |l.log| ==> (l.log[i].status == Reversed <==> RefundRef(i) in l.byReference))
    && (forall r <- l.byReference :: r.subject.RefundOf? ==>
          r.subject.transaction < l.byReference[r] < |l.log|
          && l.log[l.byReference[r]].reverses == Some(r.subject.transaction)
          && Mirrors(l.log[l.byReference[r]].entries, l.log[r.subject.transaction].entries))
  }

  function RefundRef(id: nat): Reference {
    Reference(RefundOf(id), Plain)
  }

  ghost predicate Mirrors(es: seq<Entry>, original: seq<Entry>) {
    && |es| == |original|
    && forall j :: 0 <= j < |es| ==> es[j].account == original[j].account && es[j].Signed() == -original[j].Signed()
  }

  /** No stored amount is negative, and every entry's account exists. */
  ghost predicate Wellformed(l: Ledger) {
    forall i, j :: 0 <= i < |l.log| && 0 <= j < |l.log[i].entries| ==>
      l.log[i].entries[j].amount >= 0 && l.log[i].entries[j].account in l.balances
  }

  /** What no amount whatever breaks: references, signs and reversals. */
  ghost predicate Sturdy(l: Ledger) {
    Indexed(l) && Solvent(l.balances) && Wellformed(l) && Reversals(l)
  }

  /** And every balance is what its entries say. */
  ghost predicate Valid(l: Ledger) {
    Sturdy(l) && Reconciled(l) && Snapshots(l.log)
  }

  // ---------------------------------------------------------------- sums: lemmas

  lemma {:induction false} GroupSumWithout(m: Balances, g: Group, k: Account)
    requires k in m
    ensures GroupSum(m, g) == Share(m, g, k) + GroupSum(m - {k}, g)
    decreases |m|
  {
    var c :| c in m && GroupSum(m, g) == Share(m, g, c) + GroupSum(m - {c}, g);
    if c != k {
      assert c in m - {k} && k in m - {c};
      assert Share(m - {c}, g, k) == Share(m, g, k) && Share(m - {k}, g, c) == Share(m, g, c);
      GroupSumWithout(m - {c}, g, k);
      GroupSumWithout(m - {k}, g, c);
      assert m - {c} - {k} == m - {k} - {c};
    }
  }

  lemma GroupSumUpdate(m: Balances, g: Group, k: Account, v: int)
    ensures GroupSum(m[k := v], g) == GroupSum(m, g) - Share(m, g, k) + (if g.Has(k) then v else 0)
  {
    var n := m[k := v];
    GroupSumWithout(n, g, k);
    assert n - {k} == m - {k};
    if k in m {
      GroupSumWithout(m, g, k);
    } else {
      assert m - {k} == m;
    }
  }

  lemma {:induction false} GroupSumOnly(m: Balances, a: Account)
    ensures GroupSum(m, Only(a)) == if a in m then m[a] else 0
    decreases |m|
  {
    if m != map[] {
      var k :| k in m;
      GroupSumWithout(m, Only(a), k);
      GroupSumOnly(m - {k}, a);
    }
  }

  lemma ColumnOdd(x: real)
    ensures Column(-x) == -Column(x)
  {}

  lemma {:induction false} EntriesSum(ps: seq<Posting>, after: Balances, g: Group)
    requires forall p <- ps :: p.account in after
    ensures EntrySum(EntriesOf(ps, after), g) == StoredSum(ps, g)
    decreases |ps|
  {
    if ps != [] {
      var n := |ps| - 1;
      ColumnOdd(ps[n].amount);
      assert EntriesOf(ps, after)[..n] == EntriesOf(ps[..n], after);
      EntriesSum(ps[..n], after, g);
    }
  }

  lemma {:induction false} OutsideSum(es: seq<Entry>, g: Group)
    requires forall e <- es :: !g.Has(e.account)
    ensures EntrySum(es, g) == 0
    decreases |es|
  {
    if es != [] {
      assert es[|es| - 1] in es;
      OutsideSum(es[..|es| - 1], g);
    }
  }

  lemma {:induction false} HistorySameEntries(s: seq<Transaction>, t: seq<Transaction>, g: Group)
    requires |s| == |t| && forall i :: 0 <= i < |s| ==> s[i].entries == t[i].entries
    ensures History(s, g) == History(t, g)
    decreases |s|
  {
    if s != [] {
      HistorySameEntries(s[..|s| - 1], t[..|t| - 1], g);
    }
  }

  // ---------------------------------------------------------------- postings: lemmas

  ghost predicate NonNegative(ps: seq<Posting>) {
    forall p <- ps :: p.amount >= 0.0
  }

  ghost predicate AllWhole(ps: seq<Posting>) {
    forall p <- ps :: Whole(p.amount)
  }

  /** Every posting lands: the balance at its turn moves by exactly the stored entry. */
  ghost predicate AllLand(b: Balances, ps: seq<Posting>)
    decreases |ps|
  {
    ps == [] ||
    var most, last := ps[..|ps| - 1], ps[|ps| - 1];
    && AllLand(b, most)
    && (Apply(b, most).Ok? && last.account in b ==> Lands(Apply(b, most).value[last.account], last.Signed()))
  }

  lemma WholeLands(balance: int, p: Posting)
    requires Whole(p.amount)
    ensures Lands(balance, p.Signed()) && Column(p.Signed()) as real == p.Signed()
  {
    var n := p.amount.Floor;
    ColumnOfWhole(n);
    ColumnOfWhole(-n);
    ColumnOfWhole(balance + n);
    ColumnOfWhole(balance - n);
  }

  lemma {:induction false} WholeAllLand(b: Balances, ps: seq<Posting>)
    requires AllWhole(ps)
    ensures AllLand(b, ps)
    decreases |ps|
  {
    if ps != [] {
      var most, last := ps[..|ps| - 1], ps[|ps| - 1];
      WholeAllLand(b, most);
      assert last in ps;
      if Apply(b, most).Ok? && last.account in b {
        WholeLands(Apply(b, most).value[last.account], last);
      }
    }
  }

  lemma {:induction false} ApplyMovesGroup(b: Balances, ps: seq<Posting>, g: Group)
    requires Apply(b, ps).Ok? && AllLand(b, ps)
    ensures GroupSum(Apply(b, ps).value, g) == GroupSum(b, g) + StoredSum(ps, g)
    decreases |ps|
  {
    if ps != [] {
      var most, last := ps[..|ps| - 1], ps[|ps| - 1];
      var m := Apply(b, most).value;
      ApplyMovesGroup(b, most, g);
      GroupSumUpdate(m, g, last.account, Column(m[last.account] as real + last.Signed()));
    }
  }

  lemma ApplyMovesAccount(b: Balances, ps: seq<Posting>, a: Account)
    requires Apply(b, ps).Ok? && AllLand(b, ps) && a in b
    ensures Apply(b, ps).value[a] == b[a] + StoredSum(ps, Only(a))
  {
    ApplyMovesGroup(b, ps, Only(a));
    GroupSumOnly(b, a);
    GroupSumOnly(Apply(b, ps).value, a);
  }

  lemma {:induction false} ApplySolvent(b: Balances, ps: seq<Posting>)
    requires Apply(b, ps).Ok? && NonNegative(ps) && Solvent(b)
    ensures Solvent(Apply(b, ps).value)
    decreases |ps|
  {
    if ps != [] {
      var most, last := ps[..|ps| - 1], ps[|ps| - 1];
      assert last in ps;
      ApplySolvent(b, most);
      ColumnOfWhole(0);
      var x := Apply(b, most).value[last.account] as real + last.Signed();
      if last.account.Owned? {
        ColumnMonotone(0.0, x);
      }
    }
  }

  // ---------------------------------------------------------------- one account at a time

  /** What a list of postings makes of one balance, each of them rounded in its turn. */
  function Running(start: int, ps: seq<Posting>, a: Account): int
    decreases |ps|
  {
    if ps == [] then start
    else
      var before, last := Running(start, ps[..|ps| - 1], a), ps[|ps| - 1];
      if last.account == a then Column(before as real + last.Signed()) else before
  }

  /** Every account exists, and the user-owned debits are all covered, each at its own turn. */
  ghost predicate Covered(b: Balances, ps: seq<Posting>) {
    forall i :: 0 <= i < |ps| ==>
      ps[i].account in b
      && (ps[i].Guarded() ==> ps[i].amount <= Running(b[ps[i].account], ps[..i], ps[i].account) as real)
  }

  lemma CoveredButLast(b: Balances, ps: seq<Posting>)
    requires ps != []
    ensures var n := |ps| - 1;
            Covered(b, ps) <==>
              (Covered(b, ps[..n]) && ps[n].account in b
               && (ps[n].Guarded() ==> ps[n].amount <= Running(b[ps[n].account], ps[..n], ps[n].account) as real))
  {
    var n := |ps| - 1;
    assert forall i :: 0 <= i < n ==> ps[..n][..i] == ps[..i] && ps[..n][i] == ps[i];
    if Covered(b, ps[..n]) {
      assert forall i :: 0 <= i < n ==> ps[..n][i].account in b;
    }
    if Covered(b, ps) {
      forall i | 0 <= i < n
        ensures ps[..n][i].account in b
        ensures ps[..n][i].Guarded() ==>
                  ps[..n][i].amount <= Running(b[ps[..n][i].account], ps[..n][..i], ps[..n][i].account) as real
      {
        assert ps[i].account in b;
      }
    }
    hide Running;
  }

  /** The loop gets through exactly when every debit is covered, and then treats each account by itself. */
  lemma {:induction false} ApplyIffCovered(b: Balances, ps: seq<Posting>)
    ensures Apply(b, ps).Ok? <==> Covered(b, ps)
    ensures Apply(b, ps).Ok? ==> forall a <- b :: Apply(b, ps).value[a] == Running(b[a], ps, a)
    decreases |ps|
  {
    if ps != [] {
      ApplyIffCovered(b, ps[..|ps| - 1]);
      CoveredButLast(b, ps);
      hide Covered, Column;
    }
  }

  /** Where every posting lands, the running balance is the sum of the stored entries. */
  lemma RunningLands(b: Balances, ps: seq<Posting>, a: Account)
    requires Apply(b, ps).Ok? && AllLand(b, ps) && a in b
    ensures Running(b[a], ps, a) == b[a] + StoredSum(ps, Only(a))
  {
    ApplyIffCovered(b, ps);
    ApplyMovesAccount(b, ps, a);
  }

  /**
   A post under a fresh reference commits iff it balances, its accounts exist, and every user-owned debit is
   covered at its turn; otherwise, and for a reference already posted, nothing changes. A commit takes every
   account through its own postings, and by the sum of its entries where each of them lands.
   */
  lemma PostCommitsIff(l: Ledger, req: Request)
    ensures var (after, outcome) := Post(l, req);
            && (req.reference !in l.byReference ==>
                  (outcome.Ok? <==> Balanced(req.postings) && Covered(l.balances, req.postings)))
            && (outcome.Err? || req.reference in l.byReference ==> after == l)
            && (outcome.Ok? && req.reference !in l.byReference ==>
                  |after.log| == |l.log| + 1 && after.balances.Keys == l.balances.Keys
                  && (forall a <- l.balances :: after.balances[a] == Running(l.balances[a], req.postings, a))
                  && (AllLand(l.balances, req.postings) ==>
                        forall a <- l.balances :: after.balances[a] == l.balances[a] + StoredSum(req.postings, Only(a))))
  {
    ApplyIffCovered(l.balances, req.postings);
    if Apply(l.balances, req.postings).Ok? && AllLand(l.balances, req.postings) {
      forall a <- l.balances
        ensures Running(l.balances[a], req.postings, a) == l.balances[a] + StoredSum(req.postings, Only(a))
      {
        RunningLands(l.balances, req.postings, a);
      }
    }
    hide Covered, Running, AllLand, StoredSum, EntriesOf;
  }

  // ---------------------------------------------------------------- the invariant is kept

  /** What a caller must look at before posting: no negative amount, and nothing half a kobo out. */
  ghost predicate Postable(l: Ledger, req: Request) {
    NonNegative(req.postings) && AllLand(l.balances, req.postings) && !req.reference.subject.RefundOf?
  }

  lemma CommitIndexed(l: Ledger, req: Request, after: Balances, reverses: Option<nat>)
    requires forall p <- req.postings :: p.account in after
    requires Indexed(l) && req.reference !in l.byReference
    ensures Indexed(Commit(l, req, after, reverses))
  {}

  lemma CommitReconciled(l: Ledger, req: Request, reverses: Option<nat>)
    requires Reconciled(l) && AllLand(l.balances, req.postings) && Apply(l.balances, req.postings).Ok?
    ensures Reconciled(Commit(l, req, Apply(l.balances, req.postings).value, reverses))
  {
    var after := Apply(l.balances, req.postings).value;
    var c := Commit(l, req, after, reverses);
    forall g: Group
      ensures GroupSum(c.balances, g) == History(c.log, g)
    {
      ApplyMovesGroup(l.balances, req.postings, g);
      EntriesSum(req.postings, after, g);
      assert c.log[..|c.log| - 1] == l.log;
    }
  }

  lemma CommitSnapshots(l: Ledger, req: Request, reverses: Option<nat>)
    requires Reconciled(l) && Snapshots(l.log)
    requires AllLand(l.balances, req.postings) && Apply(l.balances, req.postings).Ok?
    ensures Snapshots(Commit(l, req, Apply(l.balances, req.postings).value, reverses).log)
  {
    var c := Commit(l, req, Apply(l.balances, req.postings).value, reverses);
    CommitReconciled(l, req, reverses);
    var n := |l.log|;
    forall i, j | 0 <= i < |c.log| && 0 <= j < |c.log[i].entries|
      ensures c.log[i].entries[j].balanceAfter == History(c.log[..i + 1], Only(c.log[i].entries[j].account))
    {
      if i < n {
        assert c.log[i] == l.log[i] && c.log[..i + 1] == l.log[..i + 1];
      } else {
        assert c.log[..i + 1] == c.log;
        GroupSumOnly(c.balances, c.log[i].entries[j].account);
      }
    }
  }

  lemma CommitWellformed(l: Ledger, req: Request, reverses: Option<nat>)
    requires Wellformed(l) && NonNegative(req.postings) && Apply(l.balances, req.postings).Ok?
    ensures Wellformed(Commit(l, req, Apply(l.balances, req.postings).value, reverses))
  {
    var c := Commit(l, req, Apply(l.balances, req.postings).value, reverses);
    forall i, j | 0 <= i < |c.log| && 0 <= j < |c.log[i].entries|
      ensures c.log[i].entries[j].amount >= 0 && c.log[i].entries[j].account in c.balances
    {
      if i == |l.log| {
        var p := req.postings[j];
        ColumnOfWhole(0);
        ColumnMonotone(0.0, p.amount);
      }
    }
  }

  /** Posting keeps the index, whatever is posted. */
  lemma PostKeepsIndexed(l: Ledger, req: Request, reverses: Option<nat>)
    requires Indexed(l)
    ensures Indexed(PostReversing(l, req, reverses).0)
  {
    if req.reference !in l.byReference && Apply(l.balances, req.postings).Ok? {
      CommitIndexed(l, req, Apply(l.balances, req.postings).value, reverses);
    }
    hide Apply, Balanced, Indexed, EntriesOf;
  }

  lemma CommitReversals(l: Ledger, req: Request, after: Balances)
    requires Indexed(l) && Reversals(l) && !req.reference.subject.RefundOf?
    requires req.reference !in l.byReference && forall p <- req.postings :: p.account in after
    ensures Reversals(Commit(l, req, after, None))
  {
    var m := Commit(l, req, after, None);
    assert forall i :: 0 <= i < |l.log| ==> m.log[i] == l.log[i];
    assert RefundRef(|l.log|).subject.RefundOf?;
    hide EntriesOf, Mirrors;
  }

  lemma PostKeepsSturdy(l: Ledger, req: Request)
    requires Sturdy(l) && NonNegative(req.postings) && !req.reference.subject.RefundOf?
    ensures Sturdy(Post(l, req).0)
  {
    PostKeepsIndexed(l, req, None);
    if req.reference !in l.byReference && Balanced(req.postings) && Apply(l.balances, req.postings).Ok? {
      ApplySolvent(l.balances, req.postings);
      CommitWellformed(l, req, None);
      CommitReversals(l, req, Apply(l.balances, req.postings).value);
    }
    hide Apply, Balanced, Indexed, EntriesOf, Solvent, Wellformed, Reversals;
  }

  lemma PostKeepsValid(l: Ledger, req: Request)
    requires Valid(l) && Postable(l, req)
    ensures Valid(Post(l, req).0)
  {
    PostKeepsSturdy(l, req);
    if req.reference !in l.byReference && Balanced(req.postings) && Apply(l.balances, req.postings).Ok? {
      CommitReconciled(l, req, None);
      CommitSnapshots(l, req, None);
    }
    hide Apply, Balanced, Sturdy, EntriesOf, Reconciled, Snapshots, AllLand;
  }

  /** A new account holds nothing. */
  lemma OpenAccountMovesNothing(l: Ledger, a: Account)
    ensures var o := OpenAccount(l, a);
            && a in o.balances && o.log == l.log && o.byReference == l.byReference
            && (forall x <- l.balances :: x in o.balances && o.balances[x] == l.balances[x])
            && (forall g: Group :: GroupSum(o.balances, g) == GroupSum(l.balances, g))
  {
    if a !in l.balances {
      forall g: Group
        ensures GroupSum(l.balances[a := 0], g) == GroupSum(l.balances, g)
      {
        GroupSumUpdate(l.balances, g, a, 0);
      }
    }
    hide GroupSum;
  }

  lemma OpenAccountKeepsSturdy(l: Ledger, a: Account)
    requires Sturdy(l)
    ensures Sturdy(OpenAccount(l, a))
  {
    hide Mirrors;
  }

  lemma OpenAccountKeepsValid(l: Ledger, a: Account)
    requires Valid(l)
    ensures Valid(OpenAccount(l, a)) && a in OpenAccount(l, a).balances
    ensures forall x <- l.balances :: x in OpenAccount(l, a).balances && OpenAccount(l, a).balances[x] == l.balances[x]
  {
    OpenAccountKeepsSturdy(l, a);
    OpenAccountMovesNothing(l, a);
    hide Sturdy, GroupSum, History, OpenAccount;
  }

  // ---------------------------------------------------------------- refunds

  lemma FlipIsWhole(es: seq<Entry>)
    ensures AllWhole(Flip(es))
  {
    forall p <- Flip(es)
      ensures Whole(p.amount)
    {
      var j :| 0 <= j < |es| && p == es[j].Flipped();
      ColumnOfWhole(es[j].amount);
    }
  }

  lemma FlipIsClean(l: Ledger, id: nat)
    requires Wellformed(l) && id < |l.log|
    ensures NonNegative(Flip(l.log[id].entries)) && AllWhole(Flip(l.log[id].entries))
  {
    FlipIsWhole(l.log[id].entries);
  }

  lemma {:induction false} FlipSum(es: seq<Entry>, g: Group)
    ensures StoredSum(Flip(es), g) == -EntrySum(es, g)
    decreases |es|
  {
    if es != [] {
      var n := |es| - 1;
      ColumnOfWhole(es[n].amount);
      ColumnOfWhole(-es[n].amount);
      assert Flip(es)[..n] == Flip(es[..n]);
      FlipSum(es[..n], g);
    }
  }

  /** Whatever the books, a refund that commits moves each group by the mirrored entries. */
  lemma RefundMoves(l: Ledger, id: nat, g: Group)
    requires id < |l.log| && l.log[id].status == Completed && RefundRef(id) !in l.byReference && Refund(l, id).1.Ok?
    ensures GroupSum(Refund(l, id).0.balances, g) == GroupSum(l.balances, g) - EntrySum(l.log[id].entries, g)
  {
    var req := RefundRequest(l, id);
    FlipIsWhole(l.log[id].entries);
    WholeAllLand(l.balances, req.postings);
    ApplyMovesGroup(l.balances, req.postings, g);
    FlipSum(l.log[id].entries, g);
  }

  /** What a refund that commits leaves in the log and the index. */
  lemma RefundShape(l: Ledger, id: nat)
    requires id < |l.log| && l.log[id].status == Completed && RefundRef(id) !in l.byReference && Refund(l, id).1.Ok?
    ensures var m := Refund(l, id).0;
            && m.byReference == l.byReference[RefundRef(id) := |l.log|] && |m.log| == |l.log| + 1
            && m.balances.Keys == l.balances.Keys
            && forall i :: 0 <= i < |l.log| ==> m.log[i] == if i == id then l.log[i].(status := Reversed) else l.log[i]
  {
    hide Apply, EntriesOf, Balanced;
    ApplyKeepsKeys(l.balances, Flip(l.log[id].entries));
  }

  lemma ApplyKeepsKeys(b: Balances, ps: seq<Posting>)
    ensures Apply(b, ps).Ok? ==> Apply(b, ps).value.Keys == b.Keys
  {}

  /** A transaction that stands was not refunded. */
  lemma CompletedIsUnrefunded(l: Ledger, id: nat)
    requires Reversals(l) && id < |l.log| && l.log[id].status == Completed
    ensures RefundRef(id) !in l.byReference
  {}

  /** A refund that commits takes back exactly what the original moved, on every group of accounts, whatever the books. */
  lemma RefundUndoes(l: Ledger, id: nat, g: Group)
    requires Reversals(l) && id < |l.log| && l.log[id].status == Completed
    ensures Refund(l, id).1.Ok? ==> GroupSum(Refund(l, id).0.balances, g) == GroupSum(l.balances, g) - EntrySum(l.log[id].entries, g)
  {
    CompletedIsUnrefunded(l, id);
    if Refund(l, id).1.Ok? {
      RefundMoves(l, id, g);
    }
    hide Reversals, GroupSum, EntrySum, PostReversing;
  }

  lemma FailedRefundIsNothing(l: Ledger, id: nat)
    requires id >= |l.log| || l.log[id].status == Reversed || Refund(l, id).1.Err?
    ensures Refund(l, id).0 == l && Refund(l, id).1.Err?
  {}

  lemma RefundKeepsIndexed(l: Ledger, id: nat)
    requires Indexed(l)
    ensures Indexed(Refund(l, id).0)
  {
    if id < |l.log| {
      PostKeepsIndexed(l, RefundRequest(l, id), Some(id));
      if id < |PostReversing(l, RefundRequest(l, id), Some(id)).0.log| {
        MarkKeepsIndexed(PostReversing(l, RefundRequest(l, id), Some(id)).0, id);
      }
    }
    hide Indexed, PostReversing;
  }

  lemma MarkKeepsIndexed(l: Ledger, id: nat)
    requires Indexed(l) && id < |l.log|
    ensures Indexed(MarkReversed(l, id))
  {}

  lemma RefundKeepsSturdy(l: Ledger, id: nat)
    requires Sturdy(l)
    ensures Sturdy(Refund(l, id).0)
  {
    if id < |l.log| && l.log[id].status == Completed && Refund(l, id).1.Ok? {
      var req := RefundRequest(l, id);
      CompletedIsUnrefunded(l, id);
      FlipIsClean(l, id);
      ApplySolvent(l.balances, req.postings);
      CommitWellformed(l, req, Some(id));
      MarkKeepsWellformed(Commit(l, req, Apply(l.balances, req.postings).value, Some(id)), id);
      RefundKeepsReversals(l, id, Apply(l.balances, req.postings).value);
      RefundKeepsIndexed(l, id);
    } else {
      FailedRefundIsNothing(l, id);
    }
    hide Indexed, Solvent, Wellformed, Reversals, Apply, EntriesOf, Flip, Balanced, MarkReversed;
  }

  lemma MarkKeepsWellformed(l: Ledger, id: nat)
    requires Wellformed(l) && id < |l.log|
    ensures Wellformed(MarkReversed(l, id)) && MarkReversed(l, id).balances == l.balances
  {}

  lemma RefundKeepsValid(l: Ledger, id: nat)
    requires Valid(l)
    ensures Valid(Refund(l, id).0)
  {
    RefundKeepsSturdy(l, id);
    if id < |l.log| && l.log[id].status == Completed && Refund(l, id).1.Ok? {
      var req := RefundRequest(l, id);
      CompletedIsUnrefunded(l, id);
      FlipIsWhole(l.log[id].entries);
      WholeAllLand(l.balances, req.postings);
      CommitReconciled(l, req, Some(id));
      CommitSnapshots(l, req, Some(id));
      MarkKeeps(Commit(l, req, Apply(l.balances, req.postings).value, Some(id)), id);
    } else {
      FailedRefundIsNothing(l, id);
    }
    hide Indexed, Solvent, Wellformed, Mirrors, Apply, EntriesOf, Flip, Balanced, MarkReversed, Reconciled, Snapshots, AllLand, AllWhole;
  }

  lemma RefundKeepsReversals(l: Ledger, id: nat, after: Balances)
    requires Indexed(l) && Reversals(l) && id < |l.log| && l.log[id].status == Completed
    requires forall p <- Flip(l.log[id].entries) :: p.account in after
    ensures Reversals(MarkReversed(Commit(l, RefundRequest(l, id), after, Some(id)), id))
  {
    FlipMirrors(l.log[id].entries, after);
    var m := MarkReversed(Commit(l, RefundRequest(l, id), after, Some(id)), id);
    assert forall i :: 0 <= i < |l.log| && i != id ==> m.log[i] == l.log[i];
    assert m.log[id].entries == l.log[id].entries;
    assert forall r :: r in m.byReference <==> r in l.byReference || r == RefundRef(id);
  }

  lemma FlipMirrors(es: seq<Entry>, after: Balances)
    requires forall p <- Flip(es) :: p.account in after
    ensures Mirrors(EntriesOf(Flip(es), after), es)
  {
    forall j | 0 <= j < |es|
      ensures EntriesOf(Flip(es), after)[j].Signed() == -es[j].Signed()
    {
      ColumnOfWhole(es[j].amount);
    }
  }

  lemma MarkKeeps(l: Ledger, id: nat)
    requires id < |l.log| && Reconciled(l) && Snapshots(l.log)
    ensures Reconciled(MarkReversed(l, id)) && Snapshots(MarkReversed(l, id).log)
  {
    var m := MarkReversed(l, id);
    forall g: Group
      ensures GroupSum(m.balances, g) == History(m.log, g)
    {
      HistorySameEntries(m.log, l.log, g);
    }
    forall i, j | 0 <= i < |m.log| && 0 <= j < |m.log[i].entries|
      ensures m.log[i].entries[j].balanceAfter == History(m.log[..i + 1], Only(m.log[i].entries[j].account))
    {
      HistorySameEntries(m.log[..i + 1], l.log[..i + 1], Only(m.log[i].entries[j].account));
    }
  }
}
