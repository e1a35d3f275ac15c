/**
 Referral earnings. Redeeming a code writes a QUALIFIED row and accrues it; a payout loop pays each QUALIFIED
 row it read and then marks it. Calls overlap statement by statement, with any other wallet operation between;
 the payout's reference, one per redemption, is all that keeps two loops from paying twice.
 */
module Referrals {
  import opened Option
  import opened Money
  import opened Ledger
  import opened WalletSpec
  import opened Effects
  import opened Transfers
  import opened WalletService

  datatype RedemptionStatus = Qualified | Paid

  /** earningsAmount comes back from a money column, in kobo. */
  datatype Redemption = Redemption(referrer: nat, referred: nat, amount: nat, status: RedemptionStatus)

  /** A redemption's id is its position. */
  type Redemptions = seq<Redemption>

  datatype RedeemError = CodeNotFound | OwnCode | AlreadyRedeemed | NotAccrued(error: PostError)

  function AccrualRef(id: nat): Reference {
    Reference(AccrualOf(id), Plain)
  }

  function PayoutRef(id: nat): Reference {
    Reference(PayoutOf(id), Plain)
  }

  function Accrual(rows: Redemptions, id: nat): Op
    requires id < |rows|
  {
    RecordReferralAccrual(rows[id].amount as real, AccrualRef(id))
  }

  function Payout(rows: Redemptions, drives: set<nat>, id: nat): Op
    requires id < |rows|
  {
    PayReferralPayout(rows[id].referrer, rows[id].referrer in drives, rows[id].amount as real, PayoutRef(id))
  }

  /** Where a referrer is paid: by role. */
  function WalletOf(drives: set<nat>, user: nat): Account {
    Owned(user, if user in drives then DriverWallet else RiderWallet)
  }

  function Mark(rows: Redemptions, id: nat): Redemptions
    requires id < |rows|
  {
    rows[id := rows[id].(status := Paid)]
  }

  /** One redemption per referred user. */
  predicate Redeemed(rows: Redemptions, referred: nat) {
    exists r <- rows :: r.referred == referred
  }

  /** Ids of existing rows. */
  predicate Exist(ids: seq<nat>, count: nat) {
    forall k :: 0 <= k < |ids| ==> ids[k] < count
  }

  /** The ids findMany returns for status QUALIFIED. */
  function QualifiedIds(rows: Redemptions): (ids: seq<nat>)
    ensures Exist(ids, |rows|)
    ensures forall i: nat :: i in ids <==> i < |rows| && rows[i].status.Qualified?
    decreases |rows|
  {
    if rows == [] then []
    else QualifiedIds(rows[..|rows| - 1]) + if rows[|rows| - 1].status.Qualified? then [|rows| - 1] else []
  }

  // ---------------------------------------------------------------- the service, one call at a time

  /** A payout loop over some ids, until a post fails. */
  function PayAll(b: Books, rows: Redemptions, drives: set<nat>, ids: seq<nat>): (r: (Books, Redemptions))
    requires Exist(ids, |rows|)
    ensures |r.1| == |rows|
    decreases |ids|
  {
    if ids == [] then (b, rows)
    else
      var (books, paid) := Step(b, Payout(rows, drives, ids[0]));
      if paid.Err? then (books, rows) else PayAll(books, Mark(rows, ids[0]), drives, ids[1..])
  }

  class ReferralsService {
    const wallet: WalletService
    const drives: set<nat>
    var rows: Redemptions

    constructor (wallet: WalletService, drives: set<nat>)
      ensures this.wallet == wallet && this.drives == drives && rows == []
    {
      this.wallet, this.drives, rows := wallet, drives, [];
    }

    /** `owner` is the code's user, `bonus` the configured amount in kobo. */
    method Redeem(referred: nat, owner: Option<nat>, bonus: nat) returns (r: Result<nat, RedeemError>)
      modifies this, wallet
      ensures owner.None? || owner.value == referred || Redeemed(old(rows), referred)
              ==> r.Err? && rows == old(rows) && wallet.State() == old(wallet.State())
      ensures owner.Some? && owner.value != referred && !Redeemed(old(rows), referred) ==>
                && rows == old(rows) + [Redemption(owner.value, referred, bonus, Qualified)]
                && var (books, posted) := Step(old(wallet.State()), Accrual(rows, |old(rows)|));
                   wallet.State() == books && r == if posted.Ok? then Ok(|old(rows)|) else Err(NotAccrued(posted.error))
    {
      hide Step;
      if owner.None? {
        return Err(CodeNotFound);
      }
      if owner.value == referred {
        return Err(OwnCode);
      }
      if Redeemed(rows, referred) {
        return Err(AlreadyRedeemed);
      }
      var id := |rows|;
      rows := rows + [Redemption(owner.value, referred, bonus, Qualified)];
      var posted := wallet.RecordReferralAccrual(bonus as real, AccrualRef(id));
      r := if posted.Ok? then Ok(id) else Err(NotAccrued(posted.error));
    }

    method ProcessPayouts() returns (paidCount: nat)
      modifies this, wallet
      ensures (wallet.State(), rows) == PayAll(old(wallet.State()), old(rows), drives, QualifiedIds(old(rows)))
    {
      hide Step, QualifiedIds;
      var qualified := QualifiedIds(rows);
      paidCount := 0;
      ghost var end := PayAll(wallet.State(), rows, drives, qualified);
      assert qualified[0..] == qualified;
      for k := 0 to |qualified|
        invariant |rows| == |old(rows)|
        invariant Exist(qualified, |rows|)
        invariant PayAll(wallet.State(), rows, drives, qualified[k..]) == end
      {
        var id := qualified[k];
        assert qualified[k..][0] == id && qualified[k..][1..] == qualified[k + 1..];
        var tx := wallet.PayReferralPayout(rows[id].referrer, rows[id].referrer in drives, rows[id].amount as real, PayoutRef(id));
        if tx.Err? {
          return;
        }
        rows := Mark(rows, id);
        paidCount := paidCount + 1;
      }
    }
  }

  // ---------------------------------------------------------------- calls that overlap

  /** Where a call stands between two statements. */
  datatype Call = Accruing(id: nat) | Paying(ids: seq<nat>) | Marking(ids: seq<nat>) | Over

  datatype World = World(books: Books, rows: Redemptions, calls: map<nat, Call>)

  datatype Event =
    | Redeem(call: nat, owner: nat, referred: nat, bonus: nat)
    | ProcessPayouts(call: nat)
    | Continue(call: nat)
    | Elsewhere(op: Op)

  function Advance(w: World, drives: set<nat>, c: nat): World
    requires c in w.calls
  {
    match w.calls[c]
    case Accruing(id) =>
      if id >= |w.rows| then w
      else World(Step(w.books, Accrual(w.rows, id)).0, w.rows, w.calls[c := Over])
    case Paying(ids) =>
      if ids == [] || ids[0] >= |w.rows| then w.(calls := w.calls[c := Over])
      else
        var (books, paid) := Step(w.books, Payout(w.rows, drives, ids[0]));
        World(books, w.rows, w.calls[c := if paid.Err? then Over else Marking(ids)])
    case Marking(ids) =>
      if ids == [] || ids[0] >= |w.rows| then w.(calls := w.calls[c := Over])
      else World(w.books, Mark(w.rows, ids[0]), w.calls[c := Paying(ids[1..])])
    case Over => w
  }

  function Happen(w: World, drives: set<nat>, e: Event): World {
    match e
    case Redeem(c, owner, referred, bonus) =>
      if c in w.calls || owner == referred || Redeemed(w.rows, referred) then w
      else w.(rows := w.rows + [Redemption(owner, referred, bonus, Qualified)], calls := w.calls[c := Accruing(|w.rows|)])
    case ProcessPayouts(c) => if c in w.calls then w else w.(calls := w.calls[c := Paying(QualifiedIds(w.rows))])
    case Continue(c) => if c in w.calls then Advance(w, drives, c) else w
    case Elsewhere(op) => w.(books := Step(w.books, op).0)
  }

  function RunAll(w: World, drives: set<nat>, events: seq<Event>): World
    decreases |events|
  {
    if events == [] then w else Happen(RunAll(w, drives, events[..|events| - 1]), drives, events[|events| - 1])
  }

  // ---------------------------------------------------------------- what is owed

  /** Accrued and not yet paid out, by what the ledger has. */
  function Owed(rows: Redemptions, known: map<Reference, nat>, id: nat): int
    requires id < |rows|
  {
    (if AccrualRef(id) in known then rows[id].amount else 0) - (if PayoutRef(id) in known then rows[id].amount else 0)
  }

  function TotalOwed(rows: Redemptions, known: map<Reference, nat>, n: nat): int
    requires n <= |rows|
  {
    if n == 0 then 0 else TotalOwed(rows, known, n - 1) + Owed(rows, known, n - 1)
  }

  /** The earnings of QUALIFIED redemptions. */
  function QualifiedEarnings(rows: Redemptions, n: nat): nat
    requires n <= |rows|
  {
    if n == 0 then 0
    else QualifiedEarnings(rows, n - 1) + if rows[n - 1].status.Qualified? then rows[n - 1].amount else 0
  }

  lemma {:induction false} TotalOwedSame(rows: Redemptions, known: map<Reference, nat>, more: Redemptions, wider: map<Reference, nat>, n: nat)
    requires n <= |rows| && n <= |more|
    requires forall i :: 0 <= i < n ==> Owed(rows, known, i) == Owed(more, wider, i)
    ensures TotalOwed(rows, known, n) == TotalOwed(more, wider, n)
  {
    if n > 0 {
      TotalOwedSame(rows, known, more, wider, n - 1);
    }
  }

  lemma {:induction false} TotalOwedMoves(rows: Redemptions, known: map<Reference, nat>, wider: map<Reference, nat>, id: nat, n: nat)
    requires id < n <= |rows|
    requires forall i :: 0 <= i < n && i != id ==> Owed(rows, known, i) == Owed(rows, wider, i)
    ensures TotalOwed(rows, wider, n) == TotalOwed(rows, known, n) - Owed(rows, known, id) + Owed(rows, wider, id)
  {
    if id == n - 1 {
      TotalOwedSame(rows, known, rows, wider, n - 1);
    } else {
      TotalOwedMoves(rows, known, wider, id, n - 1);
    }
  }

  // ---------------------------------------------------------------- the invariant

  predicate OfReferral(r: Reference) {
    r.subject.AccrualOf? || r.subject.PayoutOf?
  }

  ghost predicate Seeded(b: Balances) {
    CLEARING in b && REFERRALS in b
  }

  /** Some call has created redemption `id` and not yet accrued it. */
  ghost predicate StillAccruing(calls: map<nat, Call>, id: nat) {
    exists c <- calls :: calls[c] == Accruing(id)
  }

  /** Some loop has paid redemption `id` and not yet marked it. */
  ghost predicate StillMarking(calls: map<nat, Call>, id: nat) {
    exists c <- calls :: calls[c].Marking? && calls[c].ids != [] && calls[c].ids[0] == id
  }

  /** The payout of a redemption credits its referrer with its earnings. */
  ghost predicate PaidOut(l: Ledger, rows: Redemptions, drives: set<nat>, id: nat)
    requires id < |rows|
  {
    PayoutRef(id) in l.byReference ==>
      && l.byReference[PayoutRef(id)] < |l.log|
      && IsTransfer(l.log[l.byReference[PayoutRef(id)]], PayoutRef(id), rows[id].amount, REFERRALS, WalletOf(drives, rows[id].referrer))
  }

  /** One redemption's row, its two references and the calls at work on it agree. */
  ghost predicate RowSound(w: World, drives: set<nat>, id: nat)
    requires id < |w.rows|
  {
    var known := w.books.ledger.byReference;
    && PaidOut(w.books.ledger, w.rows, drives, id)
    && (w.rows[id].status.Paid? ==> PayoutRef(id) in known)
    && (AccrualRef(id) !in known ==> StillAccruing(w.calls, id))
    && (PayoutRef(id) in known && w.rows[id].status.Qualified? ==> StillMarking(w.calls, id))
  }

  /** Calls refer to existing rows, and a loop only marks what it has paid. */
  ghost predicate CallSound(w: World, c: Call) {
    match c
    case Accruing(id) => id < |w.rows|
    case Paying(ids) => Exist(ids, |w.rows|)
    case Marking(ids) => ids != [] && Exist(ids, |w.rows|) && PayoutRef(ids[0]) in w.books.ledger.byReference
    case Over => true
  }

  ghost predicate NamesSound(known: map<Reference, nat>, count: nat) {
    forall r <- known :: OfReferral(r) ==>
      r.suffix.Plain? && r.subject.redemption < count
  }

  ghost predicate Sound(w: World, drives: set<nat>) {
    var l := w.books.ledger;
    && Indexed(l) && Seeded(l.balances)
    && l.balances[REFERRALS] == TotalOwed(w.rows, l.byReference, |w.rows|)
    && NamesSound(l.byReference, |w.rows|)
    && (forall i :: 0 <= i < |w.rows| ==> RowSound(w, drives, i))
    && (forall c <- w.calls :: CallSound(w, w.calls[c]))
  }

  /** What the other callers of the wallet do, in any amount: their own references, and nothing on the referral account. */
  ghost predicate Unrelated(l: Ledger, op: Op) {
    && !op.RecordReferralAccrual? && !op.PayReferralPayout?
    && (forall n <- Names(op) :: !OfReferral(n))
    && (op.RefundTransaction? && op.transaction < |l.log| ==>
          forall e <- l.log[op.transaction].entries :: e.account != REFERRALS)
  }

  ghost predicate Permitted(w: World, drives: set<nat>, e: Event) {
    e.Elsewhere? ==> Unrelated(w.books.ledger, e.op)
  }

  ghost predicate PermittedRun(w: World, drives: set<nat>, events: seq<Event>)
    decreases |events|
  {
    events == [] ||
    (PermittedRun(w, drives, events[..|events| - 1])
     && Permitted(RunAll(w, drives, events[..|events| - 1]), drives, events[|events| - 1]))
  }

  // ---------------------------------------------------------------- one wallet operation

  lemma RequestsOutside(op: Op)
    requires !op.RecordReferralAccrual? && !op.PayReferralPayout? && !op.RefundTransaction?
    ensures !op.PayInvoice? ==> forall p <- PlanOf(op).request.postings :: p.account != REFERRALS
    ensures op.PayInvoice? ==> forall p <- InvoicePayment(op).postings :: p.account != REFERRALS
    ensures op.PayInvoice? ==> forall p <- InvoiceSettlement(op).postings :: p.account != REFERRALS
  {}

  lemma UnrelatedMisses(l: Ledger, op: Op)
    requires Unrelated(l, op)
    ensures Misses(l, op, Only(REFERRALS))
  {
    if !op.RefundTransaction? {
      RequestsOutside(op);
    }
    hide PlanOf, InvoicePayment, InvoiceSettlement;
  }

  /** No other caller moves the referral account. */
  lemma UnrelatedMovesNothing(b: Books, op: Op)
    requires Indexed(b.ledger) && Seeded(b.ledger.balances) && Unrelated(b.ledger, op)
    ensures var m := Step(b, op).0.ledger;
            Indexed(m) && Seeded(m.balances) && m.balances[REFERRALS] == b.ledger.balances[REFERRALS] && Grows(b.ledger, m)
  {
    hide Indexed, Step, GroupSum, Misses, Unrelated;
    var m := Step(b, op).0.ledger;
    StepKeepsIndexed(b, op);
    StepGrows(b, op);
    UnrelatedMisses(b.ledger, op);
    StepLeavesGroup(b, op, Only(REFERRALS));
    GroupSumOnly(b.ledger.balances, REFERRALS);
    GroupSumOnly(m.balances, REFERRALS);
  }

  /** The transfer a referral operation makes when its reference is fresh. */
  function Source(op: Op): Account {
    if op.RecordReferralAccrual? then CLEARING else REFERRALS
  }

  function Target(op: Op): Account {
    if op.PayReferralPayout? then Owned(op.referrer, if op.drives then DriverWallet else RiderWallet) else REFERRALS
  }

  lemma ReferralOpPosts(b: Books, op: Op, amount: nat)
    requires Seeded(b.ledger.balances)
    requires (op.RecordReferralAccrual? || op.PayReferralPayout?) && op.amount == amount as real
    requires op.reference !in b.ledger.byReference
    ensures Transfers.Posts(b, op, amount as real, Source(op), Target(op))
  {
    OpenAllMovesNothing(b.ledger, PlanOf(op).opens);
    NothingMissing(OpenAll(b.ledger, PlanOf(op).opens));
    hide OpenAll, GroupSum, Missing;
  }

  lemma NothingMissing(l: Ledger)
    requires Seeded(l.balances)
    ensures Missing(l, [PlatformGatewayClearing, PlatformReferralPayable]) == None
    ensures Missing(l, [PlatformReferralPayable]) == None
  {
    assert [PlatformGatewayClearing, PlatformReferralPayable][1..] == [PlatformReferralPayable];
    assert [PlatformReferralPayable][1..] == [];
    assert Missing(l, []) == None;
    assert Missing(l, [PlatformReferralPayable]) == None;
  }

  /** What a referral operation does in any books: the transfer once, and nothing ever again. */
  lemma ReferralStep(b: Books, op: Op, amount: nat)
    requires Seeded(b.ledger.balances)
    requires (op.RecordReferralAccrual? || op.PayReferralPayout?) && op.amount == amount as real
    ensures var (after, outcome) := Step(b, op);
            var l, m := b.ledger, after.ledger;
            && outcome.Ok? && Seeded(m.balances) && Grows(l, m)
            && (op.reference in l.byReference ==> m.byReference == l.byReference && m.balances[REFERRALS] == l.balances[REFERRALS])
            && (op.reference !in l.byReference ==>
                  && m.byReference == l.byReference[op.reference := |l.log|] && |m.log| == |l.log| + 1
                  && IsTransfer(m.log[|l.log|], op.reference, amount, Source(op), Target(op))
                  && m.balances[REFERRALS] == l.balances[REFERRALS] + (if op.RecordReferralAccrual? then amount else 0) - (if op.PayReferralPayout? then amount else 0))
    ensures Valid(b.ledger) && !op.reference.subject.RefundOf? ==> Valid(Step(b, op).0.ledger)
  {
    hide Valid, Grows, GroupSum, Transfers.Posts, IsTransfer, Apply, Column, Step, PlanOf, Half;
    StepGrows(b, op);
    SeededGrows(b.ledger, Step(b, op).0.ledger);
    ReferralKeepsValid(b, op, amount);
    if op.reference in b.ledger.byReference {
      RepeatedReferral(b, op);
    } else {
      ReferralOpPosts(b, op, amount);
      ColumnOfWhole(amount);
      TransferStep(b, op, amount as real, Source(op), Target(op));
      GroupSumOnly(b.ledger.balances, REFERRALS);
      GroupSumOnly(Step(b, op).0.ledger.balances, REFERRALS);
      assert Only(REFERRALS).Has(Source(op)) <==> op.PayReferralPayout?;
      assert Only(REFERRALS).Has(Target(op)) <==> op.RecordReferralAccrual?;
    }
  }

  lemma ReferralKeepsValid(b: Books, op: Op, amount: nat)
    requires (op.RecordReferralAccrual? || op.PayReferralPayout?) && op.amount == amount as real
    ensures Valid(b.ledger) && !op.reference.subject.RefundOf? ==> Valid(Step(b, op).0.ledger)
  {
    if Valid(b.ledger) && !op.reference.subject.RefundOf? {
      ColumnOfWhole(amount);
      StepKeepsValid(b, op);
    }
    hide Valid, Step;
  }

  lemma SeededGrows(l: Ledger, m: Ledger)
    requires Seeded(l.balances) && Grows(l, m)
    ensures Seeded(m.balances)
  {}

  lemma RepeatedReferral(b: Books, op: Op)
    requires Seeded(b.ledger.balances)
    requires (op.RecordReferralAccrual? || op.PayReferralPayout?) && op.reference in b.ledger.byReference
    ensures var (after, outcome) := Step(b, op);
            && outcome.Ok? && after.ledger.byReference == b.ledger.byReference
            && Seeded(after.ledger.balances) && after.ledger.balances[REFERRALS] == b.ledger.balances[REFERRALS]
  {
    OpenAllMovesNothing(b.ledger, PlanOf(op).opens);
    PlanReference(op);
    NothingMissing(OpenAll(b.ledger, PlanOf(op).opens));
    hide OpenAll, Missing, Apply, GroupSum;
  }

  // ---------------------------------------------------------------- one event keeps the invariant

  /** Later books with the same references below `count` rows, and one row untouched: still sound for it. */
  lemma PaidOutGrows(l: Ledger, m: Ledger, rows: Redemptions, drives: set<nat>, id: nat)
    requires id < |rows| && Indexed(l) && Grows(l, m) && PaidOut(l, rows, drives, id)
    requires PayoutRef(id) in m.byReference ==> PayoutRef(id) in l.byReference
    ensures PaidOut(m, rows, drives, id)
  {}

  lemma ElsewhereKeepsSound(w: World, drives: set<nat>, op: Op)
    requires Sound(w, drives) && Unrelated(w.books.ledger, op)
    ensures Sound(w.(books := Step(w.books, op).0), drives)
  {
    hide Unrelated, Grows, IsTransfer, StillAccruing, StillMarking;
    var v := w.(books := Step(w.books, op).0);
    var known, wider := w.books.ledger.byReference, v.books.ledger.byReference;
    UnrelatedMovesNothing(w.books, op);
    assert (forall r <- known :: r in wider) && forall r <- wider :: OfReferral(r) ==> r in known by {
      NoReferralNames(w.books, op);
    }
    hide Step;
    forall i | 0 <= i < |w.rows|
      ensures RowSound(v, drives, i) && Owed(w.rows, known, i) == Owed(w.rows, wider, i)
    {
      assert RowSound(w, drives, i) && OfReferral(PayoutRef(i)) && OfReferral(AccrualRef(i));
      PaidOutGrows(w.books.ledger, v.books.ledger, w.rows, drives, i);
    }
    TotalOwedSame(w.rows, known, w.rows, wider, |w.rows|);
  }

  lemma NoReferralNames(b: Books, op: Op)
    requires Unrelated(b.ledger, op)
    ensures var known, wider := b.ledger.byReference, Step(b, op).0.ledger.byReference;
            (forall r <- known :: r in wider) && forall r <- wider :: OfReferral(r) ==> r in known
  {
    StepGrows(b, op);
    hide Step;
  }

  /** Creating a row and starting its call. */
  lemma RedeemKeepsSound(w: World, drives: set<nat>, c: nat, owner: nat, referred: nat, bonus: nat)
    requires Sound(w, drives) && c !in w.calls
    ensures Sound(World(w.books, w.rows + [Redemption(owner, referred, bonus, Qualified)], w.calls[c := Accruing(|w.rows|)]), drives)
  {
    hide Indexed, IsTransfer;
    var n := |w.rows|;
    var known := w.books.ledger.byReference;
    var v := World(w.books, w.rows + [Redemption(owner, referred, bonus, Qualified)], w.calls[c := Accruing(n)]);
    assert OfReferral(AccrualRef(n)) && OfReferral(PayoutRef(n));
    assert AccrualRef(n) !in known && PayoutRef(n) !in known;
    assert v.calls[c] == Accruing(n) && StillAccruing(v.calls, n);
    forall i | 0 <= i < |v.rows|
      ensures RowSound(v, drives, i)
    {
      if i < n {
        assert RowSound(w, drives, i) && v.rows[i] == w.rows[i];
        MoreCalls(w.calls, c, Accruing(n), i);
      }
    }
    forall i | 0 <= i < n
      ensures Owed(w.rows, known, i) == Owed(v.rows, known, i)
    {
      assert v.rows[i] == w.rows[i];
    }
    TotalOwedSame(w.rows, known, v.rows, known, n);
    forall d <- v.calls
      ensures CallSound(v, v.calls[d])
    {}
  }

  lemma MoreCalls(calls: map<nat, Call>, c: nat, call: Call, id: nat)
    requires c !in calls
    ensures StillAccruing(calls, id) ==> StillAccruing(calls[c := call], id)
    ensures StillMarking(calls, id) ==> StillMarking(calls[c := call], id)
  {
    if StillAccruing(calls, id) {
      var d :| d in calls && calls[d] == Accruing(id);
      assert calls[c := call][d] == Accruing(id);
    }
    if StillMarking(calls, id) {
      var d :| d in calls && calls[d].Marking? && calls[d].ids != [] && calls[d].ids[0] == id;
      assert calls[c := call][d] == calls[d];
    }
  }

  lemma StartKeepsSound(w: World, drives: set<nat>, c: nat)
    requires Sound(w, drives) && c !in w.calls
    ensures Sound(w.(calls := w.calls[c := Paying(QualifiedIds(w.rows))]), drives)
  {
    hide Indexed, IsTransfer, TotalOwed, NamesSound, QualifiedIds;
    var v := w.(calls := w.calls[c := Paying(QualifiedIds(w.rows))]);
    forall i | 0 <= i < |w.rows|
      ensures RowSound(v, drives, i)
    {
      assert RowSound(w, drives, i);
      MoreCalls(w.calls, c, Paying(QualifiedIds(w.rows)), i);
    }
    hide StillAccruing, StillMarking;
  }

  /** What moving one call does to who is still at work on a row. */
  lemma MovedCall(calls: map<nat, Call>, c: nat, next: Call, id: nat)
    requires c in calls
    ensures StillAccruing(calls, id) && calls[c] != Accruing(id) ==> StillAccruing(calls[c := next], id)
    ensures StillMarking(calls, id) && !(calls[c].Marking? && calls[c].ids != [] && calls[c].ids[0] == id) ==> StillMarking(calls[c := next], id)
    ensures next.Marking? && next.ids != [] && next.ids[0] == id ==> StillMarking(calls[c := next], id)
  {
    var moved := calls[c := next];
    if StillAccruing(calls, id) && calls[c] != Accruing(id) {
      var d :| d in calls && calls[d] == Accruing(id);
      assert moved[d] == Accruing(id);
    }
    if StillMarking(calls, id) && !(calls[c].Marking? && calls[c].ids != [] && calls[c].ids[0] == id) {
      var d :| d in calls && calls[d].Marking? && calls[d].ids != [] && calls[d].ids[0] == id;
      assert moved[d] == calls[d];
    }
    if next.Marking? && next.ids != [] && next.ids[0] == id {
      assert moved[c] == next;
    }
  }

  /** A referral operation adds its own reference and nothing else, and the account moves by what it owes. */
  ghost predicate Posts(l: Ledger, m: Ledger, rows: Redemptions, drives: set<nat>, r: Reference) {
    && Indexed(m) && Seeded(m.balances) && Indexed(l) && Grows(l, m)
    && m.byReference.Keys == l.byReference.Keys + {r}
    && (forall i :: 0 <= i < |rows| && PaidOut(l, rows, drives, i) ==> PaidOut(m, rows, drives, i))
  }

  lemma AccrualPosts(b: Books, rows: Redemptions, drives: set<nat>, id: nat)
    requires Indexed(b.ledger) && Seeded(b.ledger.balances) && id < |rows|
    ensures var m := Step(b, Accrual(rows, id)).0.ledger;
            && Posts(b.ledger, m, rows, drives, AccrualRef(id))
            && m.balances[REFERRALS] == b.ledger.balances[REFERRALS]
                 + if AccrualRef(id) in b.ledger.byReference then 0 else rows[id].amount
  {
    hide Indexed, IsTransfer, Grows, Step;
    var op := Accrual(rows, id);
    var m := Step(b, op).0.ledger;
    ReferralStep(b, op, rows[id].amount);
    StepKeepsIndexed(b, op);
    forall i | 0 <= i < |rows| && PaidOut(b.ledger, rows, drives, i)
      ensures PaidOut(m, rows, drives, i)
    {
      assert PayoutRef(i) != AccrualRef(id);
      PaidOutGrows(b.ledger, m, rows, drives, i);
    }
  }

  lemma PayoutPosts(b: Books, rows: Redemptions, drives: set<nat>, id: nat)
    requires Indexed(b.ledger) && Seeded(b.ledger.balances) && id < |rows| && PaidOut(b.ledger, rows, drives, id)
    ensures var (after, outcome) := Step(b, Payout(rows, drives, id));
            var m := after.ledger;
            && outcome.Ok? && Posts(b.ledger, m, rows, drives, PayoutRef(id))
            && m.balances[REFERRALS] == b.ledger.balances[REFERRALS]
                 - if PayoutRef(id) in b.ledger.byReference then 0 else rows[id].amount
  {
    hide Indexed, IsTransfer, Grows, Step;
    var op := Payout(rows, drives, id);
    var m := Step(b, op).0.ledger;
    ReferralStep(b, op, rows[id].amount);
    StepKeepsIndexed(b, op);
    assert Source(op) == REFERRALS && Target(op) == WalletOf(drives, rows[id].referrer);
    forall i | 0 <= i < |rows| && PaidOut(b.ledger, rows, drives, i)
      ensures PaidOut(m, rows, drives, i)
    {
      if i != id {
        assert PayoutRef(i) != PayoutRef(id);
        PaidOutGrows(b.ledger, m, rows, drives, i);
      } else if PayoutRef(id) in b.ledger.byReference {
        PaidOutGrows(b.ledger, m, rows, drives, i);
      }
    }
  }

  /** After posting reference r the account is again what is owed. */
  lemma OwedAfter(rows: Redemptions, known: map<Reference, nat>, wider: map<Reference, nat>, id: nat, r: Reference)
    requires id < |rows| && (r == AccrualRef(id) || r == PayoutRef(id)) && wider.Keys == known.Keys + {r}
    ensures TotalOwed(rows, wider, |rows|) == TotalOwed(rows, known, |rows|)
         + if r in known then 0 else if r == AccrualRef(id) then rows[id].amount else -(rows[id].amount as int)
  {
    forall i | 0 <= i < |rows| && i != id
      ensures Owed(rows, known, i) == Owed(rows, wider, i)
    {
      assert AccrualRef(i) != r && PayoutRef(i) != r;
    }
    TotalOwedMoves(rows, known, wider, id, |rows|);
  }

  lemma AccruingKeepsSound(w: World, drives: set<nat>, c: nat)
    requires Sound(w, drives) && c in w.calls && w.calls[c].Accruing?
    ensures Sound(Advance(w, drives, c), drives)
  {
    var id := w.calls[c].id;
    var v := Advance(w, drives, c);
    assert CallSound(w, w.calls[c]);
    AccrualPosts(w.books, w.rows, drives, id);
    OwedAfter(w.rows, w.books.ledger.byReference, v.books.ledger.byReference, id, AccrualRef(id));
    hide Step, Indexed, Grows, PaidOut, TotalOwed;
    assert AccrualRef(id) in v.books.ledger.byReference;
    forall i | 0 <= i < |w.rows|
      ensures RowSound(v, drives, i)
    {
      assert RowSound(w, drives, i) && PayoutRef(i) != AccrualRef(id);
      MovedCall(w.calls, c, Over, i);
      hide StillAccruing, StillMarking;
    }
    CallsAfterPost(w, v, c, AccrualRef(id));
  }

  /** Every other call still refers to rows that exist and payouts that are posted. */
  lemma CallsAfterPost(w: World, v: World, c: nat, r: Reference)
    requires (forall d <- w.calls :: CallSound(w, w.calls[d])) && NamesSound(w.books.ledger.byReference, |w.rows|)
    requires v.rows == w.rows && v.books.ledger.byReference.Keys == w.books.ledger.byReference.Keys + {r}
    requires c in w.calls && v.calls.Keys == w.calls.Keys && forall d <- w.calls :: d != c ==> v.calls[d] == w.calls[d]
    requires CallSound(v, v.calls[c]) && r.suffix.Plain? && (OfReferral(r) ==> r.subject.redemption < |w.rows|)
    ensures (forall d <- v.calls :: CallSound(v, v.calls[d])) && NamesSound(v.books.ledger.byReference, |v.rows|)
  {}

  lemma PayingKeepsSound(w: World, drives: set<nat>, c: nat)
    requires Sound(w, drives) && c in w.calls && w.calls[c].Paying? && w.calls[c].ids != []
    ensures Sound(Advance(w, drives, c), drives)
  {
    hide Step, Indexed, Grows, PaidOut, TotalOwed, NamesSound;
    var ids := w.calls[c].ids;
    var id := ids[0];
    var v := Advance(w, drives, c);
    assert CallSound(w, w.calls[c]) && id < |w.rows| && RowSound(w, drives, id);
    PayoutPosts(w.books, w.rows, drives, id);
    assert v == World(Step(w.books, Payout(w.rows, drives, id)).0, w.rows, w.calls[c := Marking(ids)]);
    hide Payout;
    OwedAfter(w.rows, w.books.ledger.byReference, v.books.ledger.byReference, id, PayoutRef(id));
    hide Advance;
    assert PayoutRef(id) in v.books.ledger.byReference;
    forall i | 0 <= i < |w.rows|
      ensures RowSound(v, drives, i)
    {
      assert RowSound(w, drives, i) && AccrualRef(i) != PayoutRef(id);
      MovedCall(w.calls, c, Marking(ids), i);
      hide StillAccruing, StillMarking;
    }
    CallsAfterPost(w, v, c, PayoutRef(id));
  }

  lemma MarkingKeepsSound(w: World, drives: set<nat>, c: nat)
    requires Sound(w, drives) && c in w.calls && w.calls[c].Marking?
    ensures Sound(Advance(w, drives, c), drives)
  {
    hide Indexed, IsTransfer, NamesSound;
    var ids := w.calls[c].ids;
    assert CallSound(w, w.calls[c]);
    var id := ids[0];
    var v := Advance(w, drives, c);
    var known := w.books.ledger.byReference;
    forall i | 0 <= i < |w.rows|
      ensures RowSound(v, drives, i) && Owed(w.rows, known, i) == Owed(v.rows, known, i)
    {
      assert RowSound(w, drives, i);
      assert v.rows[i].amount == w.rows[i].amount && v.rows[i].referrer == w.rows[i].referrer;
      MovedCall(w.calls, c, Paying(ids[1..]), i);
      hide StillAccruing, StillMarking;
    }
    TotalOwedSame(w.rows, known, v.rows, known, |w.rows|);
  }

  lemma IdleKeepsSound(w: World, drives: set<nat>, c: nat)
    requires Sound(w, drives) && c in w.calls && w.calls[c].Paying? && w.calls[c].ids == []
    ensures Sound(Advance(w, drives, c), drives)
  {
    hide Indexed, IsTransfer, NamesSound, TotalOwed;
    var v := Advance(w, drives, c);
    forall i | 0 <= i < |w.rows|
      ensures RowSound(v, drives, i)
    {
      assert RowSound(w, drives, i);
      MovedCall(w.calls, c, Over, i);
      hide StillAccruing, StillMarking;
    }
  }

  lemma HappenKeepsSound(w: World, drives: set<nat>, e: Event)
    requires Sound(w, drives) && Permitted(w, drives, e)
    ensures Sound(Happen(w, drives, e), drives)
  {
    hide Sound, Step, QualifiedIds, Unrelated;
    if e.Redeem? && e.call !in w.calls {
      RedeemKeepsSound(w, drives, e.call, e.owner, e.referred, e.bonus);
    } else if e.ProcessPayouts? && e.call !in w.calls {
      StartKeepsSound(w, drives, e.call);
    } else if e.Elsewhere? {
      ElsewhereKeepsSound(w, drives, e.op);
    } else if e.Continue? && e.call in w.calls {
      var call := w.calls[e.call];
      if call.Accruing? {
        AccruingKeepsSound(w, drives, e.call);
      } else if call.Marking? {
        MarkingKeepsSound(w, drives, e.call);
      } else if call.Paying? && call.ids != [] {
        PayingKeepsSound(w, drives, e.call);
      } else if call.Paying? {
        IdleKeepsSound(w, drives, e.call);
      }
    }
  }

  // ---------------------------------------------------------------- over every interleaving

  /** Seeded, with nothing redeemed. */
  ghost predicate Beginning(w: World) {
    && Indexed(w.books.ledger) && Seeded(w.books.ledger.balances) && w.books.ledger.balances[REFERRALS] == 0
    && (forall r <- w.books.ledger.byReference :: !OfReferral(r)) && w.rows == [] && w.calls == map[]
  }

  /** However redemptions and payout loops overlap: the referral account is what is accrued and not paid out. */
  lemma {:induction false} EveryScheduleIsSound(w: World, drives: set<nat>, events: seq<Event>)
    requires Beginning(w) && PermittedRun(w, drives, events)
    ensures Sound(RunAll(w, drives, events), drives)
    decreases |events|
  {
    if events == [] {
      hide Indexed;
    } else {
      EveryScheduleIsSound(w, drives, events[..|events| - 1]);
      HappenKeepsSound(RunAll(w, drives, events[..|events| - 1]), drives, events[|events| - 1]);
      hide Happen, Sound, Permitted, Beginning;
    }
  }

  lemma {:induction false} OwedIsQualified(w: World, drives: set<nat>, n: nat)
    requires n <= |w.rows| && (forall c <- w.calls :: w.calls[c].Over?)
    requires forall i :: 0 <= i < n ==> RowSound(w, drives, i)
    ensures TotalOwed(w.rows, w.books.ledger.byReference, n) == QualifiedEarnings(w.rows, n)
  {
    hide PaidOut;
    if n > 0 {
      OwedIsQualified(w, drives, n - 1);
      assert RowSound(w, drives, n - 1);
    }
  }

  /** Whenever no call is in flight, the referral payable is the sum of earnings over QUALIFIED redemptions. */
  lemma PayableIsQualifiedEarnings(w: World, drives: set<nat>, events: seq<Event>)
    requires Beginning(w) && PermittedRun(w, drives, events)
    requires var v := RunAll(w, drives, events); forall c <- v.calls :: v.calls[c].Over?
    ensures var v := RunAll(w, drives, events);
            REFERRALS in v.books.ledger.balances && v.books.ledger.balances[REFERRALS] == QualifiedEarnings(v.rows, |v.rows|)
  {
    EveryScheduleIsSound(w, drives, events);
    hide RunAll, RowSound, NamesSound, Beginning;
    OwedIsQualified(RunAll(w, drives, events), drives, |RunAll(w, drives, events).rows|);
  }

  /**
   Overlapping or repeated loops credit each referrer once per redemption: a redemption has at most one payout
   transaction, it moves exactly the earnings to the referrer's wallet, and a PAID redemption has one.
   */
  lemma PaidAtMostOnce(w: World, drives: set<nat>, events: seq<Event>, id: nat, i: nat, j: nat)
    requires Beginning(w) && PermittedRun(w, drives, events)
    requires var v := RunAll(w, drives, events);
             && id < |v.rows|
             && i < |v.books.ledger.log| && v.books.ledger.log[i].reference.subject == PayoutOf(id)
             && j < |v.books.ledger.log| && v.books.ledger.log[j].reference.subject == PayoutOf(id)
    ensures var v := RunAll(w, drives, events);
            && i == j
            && IsTransfer(v.books.ledger.log[i], PayoutRef(id), v.rows[id].amount, REFERRALS, WalletOf(drives, v.rows[id].referrer))
  {
    EveryScheduleIsSound(w, drives, events);
    var v := RunAll(w, drives, events);
    assert RowSound(v, drives, id);
    hide RunAll, IsTransfer, TotalOwed, Beginning, CallSound;
  }

  /** A redemption marked PAID has its payout in the books. */
  lemma PaidMeansPosted(w: World, drives: set<nat>, events: seq<Event>, id: nat)
    requires Beginning(w) && PermittedRun(w, drives, events)
    requires id < |RunAll(w, drives, events).rows| && RunAll(w, drives, events).rows[id].status.Paid?
    ensures PayoutRef(id) in RunAll(w, drives, events).books.ledger.byReference
  {
    EveryScheduleIsSound(w, drives, events);
    assert RowSound(RunAll(w, drives, events), drives, id);
    hide RunAll, PaidOut, TotalOwed, Beginning, CallSound;
  }

  // ---------------------------------------------------------------- who may redeem

  /** Nobody redeems a code of their own, and nobody redeems twice. */
  ghost predicate Eligible(rows: Redemptions) {
    && (forall i :: 0 <= i < |rows| ==> rows[i].referrer != rows[i].referred)
    && (forall i, j :: 0 <= i < j < |rows| ==> rows[i].referred != rows[j].referred)
  }

  /** A redemption is put on record, QUALIFIED and to be accrued, iff the code is someone else's and it is the user's first. */
  lemma RedeemsIff(w: World, drives: set<nat>, c: nat, owner: nat, referred: nat, bonus: nat)
    requires c !in w.calls
    ensures var v := Happen(w, drives, Redeem(c, owner, referred, bonus));
            if owner != referred && (forall i :: 0 <= i < |w.rows| ==> w.rows[i].referred != referred)
            then v.rows == w.rows + [Redemption(owner, referred, bonus, Qualified)] && v.calls == w.calls[c := Accruing(|w.rows|)]
            else v == w
  {}

  lemma HappenKeepsEligible(w: World, drives: set<nat>, e: Event)
    requires Eligible(w.rows)
    ensures Eligible(Happen(w, drives, e).rows)
  {
    if e.Redeem? && e.call !in w.calls {
      RedeemsIff(w, drives, e.call, e.owner, e.referred, e.bonus);
    }
    hide Step, Payout, Accrual, QualifiedIds;
  }

  /** Under every schedule. */
  lemma {:induction false} EachUserRedeemsOnce(w: World, drives: set<nat>, events: seq<Event>)
    requires Eligible(w.rows)
    ensures Eligible(RunAll(w, drives, events).rows)
    decreases |events|
  {
    if events != [] {
      EachUserRedeemsOnce(w, drives, events[..|events| - 1]);
      HappenKeepsEligible(RunAll(w, drives, events[..|events| - 1]), drives, events[|events| - 1]);
    }
    hide Happen;
  }

  // ---------------------------------------------------------------- a loop on its own

  /** Every redemption's payout, if there is one, is what its referrer is owed. */
  ghost predicate PayoutsSound(l: Ledger, rows: Redemptions, drives: set<nat>) {
    Indexed(l) && Seeded(l.balances) && forall i :: 0 <= i < |rows| ==> PaidOut(l, rows, drives, i)
  }

  lemma MarkKeepsPayouts(l: Ledger, rows: Redemptions, drives: set<nat>, id: nat)
    requires id < |rows| && PayoutsSound(l, rows, drives)
    ensures PayoutsSound(l, Mark(rows, id), drives)
  {
    forall i | 0 <= i < |rows|
      ensures PaidOut(l, Mark(rows, id), drives, i)
    {
      assert PaidOut(l, rows, drives, i);
    }
  }

  /** One payment and its mark. */
  lemma PayOne(b: Books, rows: Redemptions, drives: set<nat>, id: nat)
    requires id < |rows| && PayoutsSound(b.ledger, rows, drives)
    ensures var (books, paid) := Step(b, Payout(rows, drives, id));
            && paid.Ok? && PayoutsSound(books.ledger, Mark(rows, id), drives)
            && books.ledger.byReference.Keys == b.ledger.byReference.Keys + {PayoutRef(id)}
  {
    PayoutPosts(b, rows, drives, id);
    hide Step, PaidOut, Indexed, Grows;
    MarkKeepsPayouts(Step(b, Payout(rows, drives, id)).0.ledger, rows, drives, id);
  }

  /** The rows after a loop, and what it adds to the books. */
  ghost predicate Marked(rows: Redemptions, paid: Redemptions, ids: seq<nat>) {
    |paid| == |rows| && forall i :: 0 <= i < |rows| ==> paid[i] == if i in ids then rows[i].(status := Paid) else rows[i]
  }

  lemma MarkedNext(rows: Redemptions, paid: Redemptions, ids: seq<nat>)
    requires ids != [] && ids[0] < |rows| && Marked(Mark(rows, ids[0]), paid, ids[1..])
    ensures Marked(rows, paid, ids)
  {
    assert ids == [ids[0]] + ids[1..];
  }

  lemma {:induction false} PayAllMarks(b: Books, rows: Redemptions, drives: set<nat>, ids: seq<nat>)
    requires Exist(ids, |rows|) && PayoutsSound(b.ledger, rows, drives)
    ensures var (books, paid) := PayAll(b, rows, drives, ids);
            && PayoutsSound(books.ledger, paid, drives) && Marked(rows, paid, ids)
            && (forall i <- ids :: PayoutRef(i) in books.ledger.byReference.Keys)
            && b.ledger.byReference.Keys <= books.ledger.byReference.Keys
    decreases |ids|
  {
    hide Step, PayoutsSound;
    if ids != [] {
      var id := ids[0];
      PayOne(b, rows, drives, id);
      var books := Step(b, Payout(rows, drives, id)).0;
      PayAllMarks(books, Mark(rows, id), drives, ids[1..]);
      MarkedNext(rows, PayAll(b, rows, drives, ids).1, ids);
      assert ids == [id] + ids[1..];
    }
    hide Marked;
  }

  /** One loop on its own pays every QUALIFIED redemption to its referrer and leaves none of them QUALIFIED. */
  lemma LoopPaysEveryone(b: Books, rows: Redemptions, drives: set<nat>)
    requires PayoutsSound(b.ledger, rows, drives)
    ensures var (books, paid) := PayAll(b, rows, drives, QualifiedIds(rows));
            forall i :: 0 <= i < |rows| ==>
              && paid[i] == rows[i].(status := Paid)
              && (rows[i].status.Qualified? ==>
                    && PayoutRef(i) in books.ledger.byReference && books.ledger.byReference[PayoutRef(i)] < |books.ledger.log|
                    && IsTransfer(books.ledger.log[books.ledger.byReference[PayoutRef(i)]], PayoutRef(i), rows[i].amount, REFERRALS,
                                  Owned(rows[i].referrer, if rows[i].referrer in drives then DriverWallet else RiderWallet)))
  {
    var ids := QualifiedIds(rows);
    PayAllMarks(b, rows, drives, ids);
    var (books, paid) := PayAll(b, rows, drives, ids);
    hide PayAll, IsTransfer, Indexed;
    forall i | 0 <= i < |rows|
      ensures paid[i] == rows[i].(status := Paid) && PaidOut(books.ledger, paid, drives, i)
      ensures rows[i].status.Qualified? ==> PayoutRef(i) in books.ledger.byReference
    {
      if rows[i].status.Qualified? {
        assert i in ids && PayoutRef(i) in books.ledger.byReference.Keys;
      } else {
        assert i !in ids && rows[i] == rows[i].(status := Paid);
      }
    }
  }

  /** The next n statements of call c, with nothing in between. */
  function Uninterrupted(w: World, drives: set<nat>, c: nat, n: nat): World
    decreases n
  {
    if n == 0 then w else Uninterrupted(Happen(w, drives, Continue(c)), drives, c, n - 1)
  }

  lemma {:induction false} OverStays(w: World, drives: set<nat>, c: nat, n: nat)
    requires c in w.calls && w.calls[c] == Over
    ensures Uninterrupted(w, drives, c, n) == w
  {
    if n > 0 {
      assert Happen(w, drives, Continue(c)) == w;
      OverStays(w, drives, c, n - 1);
    }
  }

  /** And it is that loop whose statements interleave with everyone else's: run alone, they do the same. */
  lemma {:induction false} LoopIsItsStatements(w: World, drives: set<nat>, c: nat, ids: seq<nat>)
    requires c in w.calls && w.calls[c] == Paying(ids) && Exist(ids, |w.rows|)
    ensures var v := Uninterrupted(w, drives, c, 2 * |ids| + 1);
            (v.books, v.rows) == PayAll(w.books, w.rows, drives, ids) && v.calls == w.calls[c := Over]
    decreases |ids|
  {
    hide Step;
    var first := Happen(w, drives, Continue(c));
    if ids == [] {
      assert Uninterrupted(w, drives, c, 1) == Uninterrupted(first, drives, c, 0);
    } else if Step(w.books, Payout(w.rows, drives, ids[0])).1.Err? {
      OverStays(first, drives, c, 2 * |ids|);
    } else {
      var second := Happen(first, drives, Continue(c));
      assert second.calls[c] == Paying(ids[1..]) && second.rows == Mark(w.rows, ids[0]);
      LoopIsItsStatements(second, drives, c, ids[1..]);
      assert second.calls[c := Over] == w.calls[c := Over];
      assert Uninterrupted(w, drives, c, 2 * |ids| + 1) == Uninterrupted(second, drives, c, 2 * |ids[1..]| + 1);
    }
  }
}
