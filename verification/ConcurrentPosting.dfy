/**
 Any number of posts running at once, interleaved statement by statement. Every debit or credit is one
 conditional UPDATE that takes the row's lock, locks are held to the end, an inserted reference is a
 unique key, and a rollback may strike at any time. What is committed always equals running the committed
 posts one after another, in the order they committed.
 */
module ConcurrentPosting {
  import opened Option
  import opened Money
  import opened Ledger
  import opened Drift

  /** Before the duplicate check; between entries; after the insert; and over. */
  datatype Phase = Started | Applying(done: nat) | Inserted | Finished

  datatype Session = Session(request: Request, phase: Phase)

  /**
   `committed` is what a new transaction sees and `rows` the latest row versions, committed or not.
   `order` lists the committed requests.
   */
  datatype Db = Db(committed: Ledger, rows: Balances, locks: map<Account, nat>, keys: map<Reference, nat>,
                   sessions: map<nat, Session>, order: seq<Request>)

  datatype Action = Begin(request: Request) | Check | NextEntry | Insert | Finish | Abort

  function Goto(db: Db, t: nat, phase: Phase): Db
    requires t in db.sessions
  {
    db.(sessions := db.sessions[t := db.sessions[t].(phase := phase)])
  }

  function Release(locks: map<Account, nat>, t: nat): map<Account, nat> {
    map a | a in locks && locks[a] != t :: locks[a]
  }

  function Unreserve(keys: map<Reference, nat>, t: nat): map<Reference, nat> {
    map r | r in keys && keys[r] != t :: keys[r]
  }

  /** Uncommitted versions of the rows t locked are discarded. */
  function Discard(db: Db, t: nat): Balances {
    map a | a in db.rows :: if a in db.locks && db.locks[a] == t && a in db.committed.balances
                            then db.committed.balances[a] else db.rows[a]
  }

  function RollBack(db: Db, t: nat): Db
    requires t in db.sessions
  {
    Goto(db.(rows := Discard(db, t), locks := Release(db.locks, t), keys := Unreserve(db.keys, t)), t, Finished)
  }

  /** The statement for entry i: blocked while another session holds the row, else guarded and applied. */
  function ApplyEntry(db: Db, t: nat, i: nat): Db
    requires t in db.sessions && i < |db.sessions[t].request.postings|
  {
    var p := db.sessions[t].request.postings[i];
    if p.account in db.locks && db.locks[p.account] != t then db
    else
      match ApplyOne(db.rows, p)
      case Err(_) => RollBack(db, t)
      case Ok(rows) => Goto(db.(rows := rows, locks := db.locks[p.account := t]), t, Applying(i + 1))
  }

  /** The balances a commit of t publishes. */
  function Published(db: Db, t: nat): Balances {
    map a | a in db.committed.balances ::
      if a in db.locks && db.locks[a] == t && a in db.rows then db.rows[a] else db.committed.balances[a]
  }

  /** Publishing: the rows t locked become the committed ones, with the entries that justify them. */
  function Publish(db: Db, t: nat): Db
    requires t in db.sessions
  {
    var req, after := db.sessions[t].request, Published(db, t);
    if exists p <- req.postings :: p.account !in after then db
    else Goto(db.(committed := Commit(db.committed, req, after, None), order := db.order + [req],
                  locks := Release(db.locks, t), keys := Unreserve(db.keys, t)), t, Finished)
  }

  function Act(db: Db, t: nat, a: Action): Db {
    if a.Begin? then
      if t in db.sessions then db else db.(sessions := db.sessions[t := Session(a.request, Started)])
    else if t !in db.sessions then db
    else
      var s := db.sessions[t];
      match a
      case Check =>
        if s.phase != Started then db
        else if s.request.reference in db.committed.byReference || !Balanced(s.request.postings) then Goto(db, t, Finished)
        else Goto(db, t, Applying(0))
      case NextEntry =>
        if s.phase.Applying? && s.phase.done < |s.request.postings| then ApplyEntry(db, t, s.phase.done) else db
      case Insert =>
        if !s.phase.Applying? || s.phase.done < |s.request.postings| then db
        else if s.request.reference in db.committed.byReference then RollBack(db, t)
        else if s.request.reference in db.keys then db
        else Goto(db.(keys := db.keys[s.request.reference := t]), t, Inserted)
      case Finish => if s.phase.Inserted? then Publish(db, t) else db
      case Abort => if s.phase.Finished? then db else RollBack(db, t)
      case Begin(_) => db
  }

  /** A schedule is any sequence of (session, statement) pairs. */
  function RunAll(db: Db, schedule: seq<(nat, Action)>): Db
    decreases |schedule|
  {
    if schedule == [] then db
    else Act(RunAll(db, schedule[..|schedule| - 1]), schedule[|schedule| - 1].0, schedule[|schedule| - 1].1)
  }

  function Quiet(l: Ledger): Db {
    Db(l, l.balances, map[], map[], map[], [])
  }

  /** The sequential reference: the requests posted one after another. */
  function Replay(l: Ledger, reqs: seq<Request>): Ledger
    decreases |reqs|
  {
    if reqs == [] then l else Post(Replay(l, reqs[..|reqs| - 1]), reqs[|reqs| - 1]).0
  }

  // ---------------------------------------------------------------- invariant

  function Done(s: Session): nat {
    if s.phase.Applying? then s.phase.done else if s.phase.Inserted? then |s.request.postings| else 0
  }

  predicate Running(s: Session) {
    s.phase.Applying? || s.phase.Inserted?
  }

  /** The postings a session has applied so far. */
  function Applied(s: Session): seq<Posting>
    requires Done(s) <= |s.request.postings|
  {
    s.request.postings[..Done(s)]
  }

  predicate Holds(db: Db, t: nat, a: Account) {
    a in db.locks && db.locks[a] == t
  }

  predicate Touches(ps: seq<Posting>, a: Account) {
    exists p <- ps :: p.account == a
  }

  /** The rows a prefix touches are what applying it to the committed balances gives. */
  ghost predicate Matches(db: Db, ps: seq<Posting>) {
    && Apply(db.committed.balances, ps).Ok?
    && forall a :: Touches(ps, a) ==>
         a in db.rows && a in db.committed.balances && db.rows[a] == Apply(db.committed.balances, ps).value[a]
  }

  /** t holds exactly the rows it touched. */
  ghost predicate InStep(db: Db, t: nat)
    requires t in db.sessions
  {
    var s := db.sessions[t];
    && Done(s) <= |s.request.postings|
    && (forall a :: Holds(db, t, a) <==> Touches(Applied(s), a))
    && (Running(s) ==> Balanced(s.request.postings) && Matches(db, Applied(s)))
    && (s.phase.Inserted? ==> s.request.reference in db.keys && db.keys[s.request.reference] == t)
  }

  ghost predicate Consistent(db: Db) {
    && db.rows.Keys == db.committed.balances.Keys
    && (forall a <- db.rows :: a !in db.locks ==> db.rows[a] == db.committed.balances[a])
    && (forall a <- db.locks :: db.locks[a] in db.sessions && a in db.rows)
    && (forall t <- db.sessions :: InStep(db, t))
    && (forall r <- db.keys :: r !in db.committed.byReference && db.keys[r] in db.sessions
          && db.sessions[db.keys[r]].phase.Inserted? && db.sessions[db.keys[r]].request.reference == r)
  }

  // ---------------------------------------------------------------- one statement

  lemma TouchesOneMore(ps: seq<Posting>, p: Posting)
    ensures forall a :: Touches(ps + [p], a) <==> Touches(ps, a) || p.account == a
  {
    forall a
      ensures Touches(ps + [p], a) <==> Touches(ps, a) || p.account == a
    {
      if Touches(ps, a) {
        var q :| q in ps && q.account == a;
        assert q in ps + [p];
      }
      if p.account == a {
        assert p in ps + [p];
      }
    }
  }

  lemma TouchesNone()
    ensures forall a :: !Touches([], a)
  {}

  /** Applying postings depends only on the accounts they name. */
  lemma {:induction false} ApplyFrame(b: Balances, c: Balances, ps: seq<Posting>)
    requires b.Keys == c.Keys && forall a <- b :: Touches(ps, a) ==> b[a] == c[a]
    ensures Apply(b, ps).Ok? <==> Apply(c, ps).Ok?
    ensures Apply(b, ps).Ok? ==> forall a <- b :: b[a] == c[a] ==> Apply(b, ps).value[a] == Apply(c, ps).value[a]
    decreases |ps|
  {
    if ps != [] {
      var n := |ps| - 1;
      assert ps == ps[..n] + [ps[n]];
      TouchesOneMore(ps[..n], ps[n]);
      ApplyFrame(b, c, ps[..n]);
      hide Touches;
    }
  }

  lemma {:induction false} ApplyElsewhere(b: Balances, ps: seq<Posting>, a: Account)
    requires Apply(b, ps).Ok? && a in b && !Touches(ps, a)
    ensures Apply(b, ps).value[a] == b[a]
    decreases |ps|
  {
    if ps != [] {
      var n := |ps| - 1;
      assert ps == ps[..n] + [ps[n]];
      TouchesOneMore(ps[..n], ps[n]);
      ApplyElsewhere(b, ps[..n], a);
    }
  }

  /** A session nobody interfered with stays in step. */
  lemma InStepFrame(db: Db, next: Db, u: nat)
    requires u in db.sessions && u in next.sessions && next.sessions[u] == db.sessions[u] && InStep(db, u)
    requires forall a :: Holds(next, u, a) <==> Holds(db, u, a)
    requires forall a :: Holds(db, u, a) ==> a in db.rows && a in next.rows && next.rows[a] == db.rows[a]
    requires db.committed.balances.Keys == next.committed.balances.Keys
    requires forall a <- db.committed.balances :: Holds(db, u, a) ==> next.committed.balances[a] == db.committed.balances[a]
    requires forall r <- db.keys :: db.keys[r] == u ==> r in next.keys && next.keys[r] == u
    ensures InStep(next, u)
  {
    hide Touches, Balanced, Holds;
    var s := db.sessions[u];
    if Running(s) {
      ApplyFrame(db.committed.balances, next.committed.balances, Applied(s));
    }
    hide Apply;
  }

  /** What a statement of t leaves alone: other sessions, the rows they hold, and the references they reserved. */
  ghost predicate OthersUntouched(db: Db, next: Db, t: nat) {
    && next.sessions.Keys == db.sessions.Keys + {t}
    && (forall u <- db.sessions :: u != t ==> next.sessions[u] == db.sessions[u])
    && (forall a <- db.locks :: db.locks[a] != t ==> a in next.locks && next.locks[a] == db.locks[a])
    && (forall a <- next.locks :: next.locks[a] != t ==> a in db.locks && db.locks[a] == next.locks[a])
    && next.rows.Keys == db.rows.Keys && next.committed.balances.Keys == db.committed.balances.Keys
    && (forall a <- db.locks :: db.locks[a] != t && a in db.rows ==> next.rows[a] == db.rows[a])
    && (forall a <- db.locks :: db.locks[a] != t && a in db.committed.balances ==> next.committed.balances[a] == db.committed.balances[a])
    && (forall r <- db.keys :: db.keys[r] != t ==> r in next.keys && next.keys[r] == db.keys[r])
  }

  lemma OthersStayInStep(db: Db, next: Db, t: nat)
    requires Consistent(db) && OthersUntouched(db, next, t)
    ensures forall u <- next.sessions :: u != t ==> InStep(next, u)
  {
    hide InStep;
    forall u <- next.sessions | u != t
      ensures InStep(next, u)
    {
      InStepFrame(db, next, u);
    }
  }

  lemma EntryKeepsConsistent(db: Db, t: nat)
    requires Consistent(db) && t in db.sessions && db.sessions[t].phase.Applying?
    requires db.sessions[t].phase.done < |db.sessions[t].request.postings|
    ensures Consistent(ApplyEntry(db, t, db.sessions[t].phase.done))
  {
    hide InStep;
    var s := db.sessions[t];
    var p := s.request.postings[s.phase.done];
    if p.account in db.locks && db.locks[p.account] != t {
    } else if ApplyOne(db.rows, p).Err? {
      RollbackKeepsConsistent(db, t);
    } else {
      EntryAdvances(db, t, s.phase.done);
    }
  }

  /** One more posting applied to the rows is one more posting applied to the committed balances. */
  lemma ApplyOneMore(base: Balances, rows: Balances, ps: seq<Posting>, p: Posting)
    requires Apply(base, ps).Ok? && rows.Keys == base.Keys && ApplyOne(rows, p).Ok?
    requires forall a <- rows :: Touches(ps, a) ==> rows[a] == Apply(base, ps).value[a]
    requires !Touches(ps, p.account) && p.account in rows ==> rows[p.account] == base[p.account]
    ensures Apply(base, ps + [p]).Ok?
    ensures forall a <- rows :: Touches(ps + [p], a) ==> ApplyOne(rows, p).value[a] == Apply(base, ps + [p]).value[a]
  {
    hide Touches;
    var m := Apply(base, ps).value;
    if !Touches(ps, p.account) {
      ApplyElsewhere(base, ps, p.account);
    }
    assert (ps + [p])[..|ps + [p]| - 1] == ps;
    assert Apply(base, ps + [p]) == ApplyOne(m, p);
    TouchesOneMore(ps, p);
    hide Apply;
  }

  lemma EntryMatches(db: Db, t: nat, i: nat)
    requires Consistent(db) && t in db.sessions && db.sessions[t].phase == Applying(i) && i < |db.sessions[t].request.postings|
    requires var p := db.sessions[t].request.postings[i];
             !(p.account in db.locks && db.locks[p.account] != t) && ApplyOne(db.rows, p).Ok?
    ensures InStep(ApplyEntry(db, t, i), t)
  {
    hide Touches, Balanced, Apply;
    var ps := db.sessions[t].request.postings;
    var p := ps[i];
    var next := ApplyEntry(db, t, i);
    assert InStep(db, t);
    assert Applied(db.sessions[t]) == ps[..i] && Applied(next.sessions[t]) == ps[..i] + [p];
    ApplyOneMore(db.committed.balances, db.rows, ps[..i], p);
    TouchesOneMore(ps[..i], p);
    assert next.rows == ApplyOne(db.rows, p).value && next.committed == db.committed;
    hide ApplyOne, Consistent;
    assert forall a :: Holds(next, t, a) <==> Holds(db, t, a) || p.account == a;
  }

  lemma EntryAdvances(db: Db, t: nat, i: nat)
    requires Consistent(db) && t in db.sessions && db.sessions[t].phase == Applying(i) && i < |db.sessions[t].request.postings|
    requires var p := db.sessions[t].request.postings[i];
             !(p.account in db.locks && db.locks[p.account] != t) && ApplyOne(db.rows, p).Ok?
    ensures Consistent(ApplyEntry(db, t, i))
  {
    hide InStep;
    var next := ApplyEntry(db, t, i);
    EntryMatches(db, t, i);
    OthersStayInStep(db, next, t);
  }

  lemma TouchesNothing(db: Db, t: nat)
    requires t in db.sessions && !Running(db.sessions[t]) && forall a :: !Holds(db, t, a)
    ensures InStep(db, t)
  {
    assert forall a :: !Touches([], a);
  }

  lemma RollbackKeepsConsistent(db: Db, t: nat)
    requires Consistent(db) && t in db.sessions
    ensures Consistent(RollBack(db, t))
  {
    hide Touches, Balanced, Apply, InStep, Discard;
    var next := RollBack(db, t);
    DiscardShape(db, t);
    assert InStep(next, t) by { TouchesNothing(next, t); }
    OthersStayInStep(db, next, t);
  }

  /** Discarding takes back the rows nobody else holds. */
  lemma DiscardShape(db: Db, t: nat)
    requires Consistent(db)
    ensures Discard(db, t).Keys == db.rows.Keys
    ensures forall a <- db.rows ::
              Discard(db, t)[a] == if a in db.locks && db.locks[a] != t then db.rows[a] else db.committed.balances[a]
  {
    hide InStep;
  }

  lemma PublishedIsApplied(db: Db, t: nat)
    requires Consistent(db) && t in db.sessions && db.sessions[t].phase.Inserted?
    ensures Apply(db.committed.balances, db.sessions[t].request.postings) == Ok(Published(db, t))
    ensures Balanced(db.sessions[t].request.postings)
  {
    hide Touches, Balanced;
    assert InStep(db, t);
    var ps, base := db.sessions[t].request.postings, db.committed.balances;
    assert Applied(db.sessions[t]) == ps;
    var m := Apply(base, ps).value;
    forall a <- base
      ensures Published(db, t)[a] == m[a]
    {
      if !Holds(db, t, a) {
        ApplyElsewhere(base, ps, a);
      }
    }
    assert Published(db, t) == m;
  }

  /** A commit is exactly the sequential post of the request to what was committed before. */
  lemma PublishIsPost(db: Db, t: nat)
    requires Consistent(db) && t in db.sessions && db.sessions[t].phase.Inserted?
    ensures var req := db.sessions[t].request;
            && req.reference !in db.committed.byReference && Post(db.committed, req).1.Ok?
            && Publish(db, t).committed == Post(db.committed, req).0
            && Publish(db, t).order == db.order + [req]
  {
    PublishedIsApplied(db, t);
    assert InStep(db, t);
    hide Apply, Balanced, InStep;
  }

  /** What a commit leaves behind, apart from the log. */
  lemma PublishShape(db: Db, t: nat)
    requires Consistent(db) && t in db.sessions && db.sessions[t].phase.Inserted?
    ensures var next := Publish(db, t);
            && next.committed.balances == Published(db, t) && next.rows == db.rows
            && next.locks == Release(db.locks, t) && next.keys == Unreserve(db.keys, t)
            && next.sessions == db.sessions[t := db.sessions[t].(phase := Finished)]
            && next.committed.byReference == db.committed.byReference[db.sessions[t].request.reference := |db.committed.log|]
  {
    hide Touches, Apply, Balanced;
    PublishedIsApplied(db, t);
    AppliedKnows(db.committed.balances, db.sessions[t].request.postings);
    hide Consistent, EntriesOf;
  }

  lemma AppliedKnows(b: Balances, ps: seq<Posting>)
    requires Apply(b, ps).Ok?
    ensures forall p <- ps :: p.account in Apply(b, ps).value
  {}

  lemma PublishKeepsConsistent(db: Db, t: nat)
    requires Consistent(db) && t in db.sessions && db.sessions[t].phase.Inserted?
    ensures Consistent(Publish(db, t))
  {
    hide Touches, Apply, Balanced, Publish, Commit, Published, InStep;
    var next := Publish(db, t);
    PublishShape(db, t);
    PublishedShape(db, t);
    assert InStep(next, t) by { TouchesNothing(next, t); }
    OthersStayInStep(db, next, t);
    forall r <- next.keys
      ensures r !in next.committed.byReference
    {
      assert db.sessions[db.keys[r]].request.reference == r;
      OwnsItsKey(db, t);
    }
  }

  /** Publishing takes over the rows nobody else holds. */
  lemma PublishedShape(db: Db, t: nat)
    requires Consistent(db)
    ensures Published(db, t).Keys == db.committed.balances.Keys
    ensures forall a <- db.committed.balances ::
              Published(db, t)[a] == if a in db.locks && db.locks[a] != t then db.committed.balances[a] else db.rows[a]
  {
    hide InStep;
  }

  lemma OwnsItsKey(db: Db, t: nat)
    requires Consistent(db) && t in db.sessions && db.sessions[t].phase.Inserted?
    ensures db.sessions[t].request.reference in db.keys && db.keys[db.sessions[t].request.reference] == t
  {
    assert InStep(db, t);
    hide Touches, Apply, Balanced;
  }

  lemma ActKeepsConsistent(db: Db, t: nat, a: Action)
    requires Consistent(db)
    ensures Consistent(Act(db, t, a))
  {
    hide Apply, Balanced, Publish, RollBack, ApplyEntry;
    if t in db.sessions {
      match a
      case NextEntry =>
        if db.sessions[t].phase.Applying? && db.sessions[t].phase.done < |db.sessions[t].request.postings| {
          EntryKeepsConsistent(db, t);
        }
      case Finish =>
        if db.sessions[t].phase.Inserted? {
          PublishKeepsConsistent(db, t);
        }
      case Abort => RollbackKeepsConsistent(db, t);
      case Check => CheckKeepsConsistent(db, t);
      case Insert => InsertKeepsConsistent(db, t);
      case Begin(_) =>
    } else if a.Begin? {
      BeginKeepsConsistent(db, t, a.request);
    }
  }

  lemma BeginKeepsConsistent(db: Db, t: nat, req: Request)
    requires Consistent(db) && t !in db.sessions
    ensures Consistent(Act(db, t, Begin(req)))
  {
    hide Touches, Apply, Balanced;
    var next := Act(db, t, Begin(req));
    assert InStep(next, t) by { TouchesNothing(next, t); }
    hide InStep;
    OthersStayInStep(db, next, t);
  }

  lemma CheckInStep(db: Db, t: nat)
    requires t in db.sessions && InStep(db, t)
    ensures InStep(Act(db, t, Check), t)
  {
    hide Touches, Apply, Balanced;
    var next := Act(db, t, Check);
    TouchesNone();
    ApplyNothing(db.committed.balances);
    if db.sessions[t].phase == Started {
      assert Applied(next.sessions[t]) == [] && Applied(db.sessions[t]) == [];
      assert forall a :: Holds(next, t, a) <==> Holds(db, t, a);
      assert next.committed == db.committed;
    }
  }

  lemma ApplyNothing(b: Balances)
    ensures Apply(b, []) == Ok(b)
  {}

  /** A session that reserved nothing moves on by itself. */
  lemma GotoKeepsConsistent(db: Db, t: nat, phase: Phase)
    requires Consistent(db) && t in db.sessions && !db.sessions[t].phase.Inserted? && InStep(Goto(db, t, phase), t)
    ensures Consistent(Goto(db, t, phase))
  {
    hide InStep;
    OthersStayInStep(db, Goto(db, t, phase), t);
  }

  lemma CheckKeepsConsistent(db: Db, t: nat)
    requires Consistent(db) && t in db.sessions
    ensures Consistent(Act(db, t, Check))
  {
    hide InStep, Balanced, Publish, RollBack, ApplyEntry, Goto;
    assert InStep(db, t);
    hide Consistent;
    CheckInStep(db, t);
    if db.sessions[t].phase == Started {
      GotoKeepsConsistent(db, t, if Act(db, t, Check) == Goto(db, t, Finished) then Finished else Applying(0));
    }
  }

  /** A session that applied all its entries reserves its reference. */
  function Reserved(db: Db, t: nat): Db
    requires t in db.sessions
  {
    Goto(db.(keys := db.keys[db.sessions[t].request.reference := t]), t, Inserted)
  }

  lemma ReservedInStep(db: Db, t: nat)
    requires t in db.sessions && InStep(db, t)
    requires db.sessions[t].phase.Applying? && db.sessions[t].phase.done >= |db.sessions[t].request.postings|
    ensures InStep(Reserved(db, t), t)
  {
    hide Touches, Apply, Balanced;
    var next := Reserved(db, t);
    assert Applied(next.sessions[t]) == Applied(db.sessions[t]);
    assert forall a :: Holds(next, t, a) <==> Holds(db, t, a);
    assert next.committed == db.committed && next.rows == db.rows;
  }

  lemma ReserveKeepsConsistent(db: Db, t: nat)
    requires Consistent(db) && t in db.sessions
    requires var s := db.sessions[t];
             && s.phase.Applying? && s.phase.done >= |s.request.postings|
             && s.request.reference !in db.committed.byReference && s.request.reference !in db.keys
    ensures Consistent(Reserved(db, t))
  {
    hide InStep;
    ReservedInStep(db, t);
    OthersStayInStep(db, Reserved(db, t), t);
  }

  lemma InsertKeepsConsistent(db: Db, t: nat)
    requires Consistent(db) && t in db.sessions
    ensures Consistent(Act(db, t, Insert))
  {
    var s := db.sessions[t];
    hide Consistent, RollBack;
    if s.phase.Applying? && s.phase.done >= |s.request.postings| {
      if s.request.reference in db.committed.byReference {
        RollbackKeepsConsistent(db, t);
      } else if s.request.reference !in db.keys {
        ReserveKeepsConsistent(db, t);
      }
    }
  }

  // ---------------------------------------------------------------- every schedule

  lemma {:induction false} ScheduleKeepsConsistent(l: Ledger, schedule: seq<(nat, Action)>)
    ensures Consistent(RunAll(Quiet(l), schedule))
    decreases |schedule|
  {
    if schedule != [] {
      var n := |schedule| - 1;
      ScheduleKeepsConsistent(l, schedule[..n]);
      ActKeepsConsistent(RunAll(Quiet(l), schedule[..n]), schedule[n].0, schedule[n].1);
    }
  }

  /** A rollback, whenever it strikes, leaves nothing of the session behind: no row version, no lock, no reserved reference. */
  lemma AbortLeavesNothing(db: Db, t: nat)
    requires Consistent(db) && t in db.sessions && db.sessions[t].phase != Finished
    ensures var next := Act(db, t, Abort);
            && next.committed == db.committed && next.order == db.order
            && next.sessions == db.sessions[t := db.sessions[t].(phase := Finished)]
            && (forall a <- db.rows :: a in next.rows &&
                  next.rows[a] == if a in db.locks && db.locks[a] == t then db.committed.balances[a] else db.rows[a])
            && (forall a <- next.locks :: next.locks[a] != t) && (forall a <- db.locks :: db.locks[a] != t ==> a in next.locks)
            && (forall r <- next.keys :: next.keys[r] != t) && (forall r <- db.keys :: db.keys[r] != t ==> r in next.keys)
  {
    hide InStep;
  }

  /** Only a commit changes what is committed. */
  lemma OnlyCommitPublishes(db: Db, t: nat, a: Action)
    requires !(a.Finish? && t in db.sessions && db.sessions[t].phase.Inserted?)
    ensures Act(db, t, a).committed == db.committed && Act(db, t, a).order == db.order
  {}

  /** No reference is posted twice, and every post in the list commits when its turn comes. */
  ghost predicate AllCommit(l: Ledger, reqs: seq<Request>)
    decreases |reqs|
  {
    reqs == [] ||
    var before, last := Replay(l, reqs[..|reqs| - 1]), reqs[|reqs| - 1];
    AllCommit(l, reqs[..|reqs| - 1]) && last.reference !in before.byReference && Post(before, last).1.Ok?
  }

  /**
   Serializability: under every schedule, the committed ledger is the one the sequential service would
   have produced from the committed requests in commit order, and each of those posts commits there too.
   */
  lemma {:induction false} EveryScheduleIsSerial(l: Ledger, schedule: seq<(nat, Action)>)
    ensures var db := RunAll(Quiet(l), schedule);
            db.committed == Replay(l, db.order) && AllCommit(l, db.order)
    decreases |schedule|
  {
    hide Consistent, Post, Publish, RollBack, ApplyEntry;
    if schedule != [] {
      var n := |schedule| - 1;
      var t, a := schedule[n].0, schedule[n].1;
      var before := RunAll(Quiet(l), schedule[..n]);
      EveryScheduleIsSerial(l, schedule[..n]);
      ScheduleKeepsConsistent(l, schedule[..n]);
      if a.Finish? && t in before.sessions && before.sessions[t].phase.Inserted? {
        PublishIsPost(before, t);
        var after := before.order + [before.sessions[t].request];
        assert after[..|after| - 1] == before.order;
      } else {
        OnlyCommitPublishes(before, t, a);
      }
    }
  }

  // ---------------------------------------------------------------- what that gives

  lemma {:induction false} ReplayRemembers(l: Ledger, reqs: seq<Request>, i: nat)
    requires AllCommit(l, reqs) && i < |reqs|
    ensures reqs[i].reference in Replay(l, reqs).byReference
    decreases |reqs|
  {
    var n := |reqs| - 1;
    if i < n {
      ReplayRemembers(l, reqs[..n], i);
    }
  }

  lemma {:induction false} CommittedOnce(l: Ledger, reqs: seq<Request>, i: nat, j: nat)
    requires AllCommit(l, reqs) && i < j < |reqs|
    ensures reqs[i].reference != reqs[j].reference && reqs[j].reference !in l.byReference
    decreases |reqs|
  {
    var n := |reqs| - 1;
    if j < n {
      CommittedOnce(l, reqs[..n], i, j);
    } else {
      ReplayRemembers(l, reqs[..n], i);
      ReplayKeepsReferences(l, reqs[..n]);
    }
  }

  lemma {:induction false} ReplayKeepsReferences(l: Ledger, reqs: seq<Request>)
    ensures forall r <- l.byReference :: r in Replay(l, reqs).byReference
    decreases |reqs|
  {
    if reqs != [] {
      ReplayKeepsReferences(l, reqs[..|reqs| - 1]);
    }
    hide Apply, Balanced;
  }

  /** Under every schedule: of all the posts that share a reference, at most one commits. */
  lemma CommittedReferencesAreDistinct(l: Ledger, schedule: seq<(nat, Action)>, i: nat, j: nat)
    requires i < j < |RunAll(Quiet(l), schedule).order|
    ensures var order := RunAll(Quiet(l), schedule).order; order[i].reference != order[j].reference
  {
    EveryScheduleIsSerial(l, schedule);
    CommittedOnce(l, RunAll(Quiet(l), schedule).order, i, j);
    hide RunAll, AllCommit;
  }

  // ---------------------------------------------------------------- and back: serial runs are schedules

  /** One post with nobody else about. */
  function Alone(t: nat, req: Request): seq<(nat, Action)> {
    [(t, Begin(req)), (t, Check)] + Entries(t, |req.postings|) + [(t, Insert), (t, Finish)]
  }

  function Entries(t: nat, n: nat): seq<(nat, Action)> {
    if n == 0 then [] else Entries(t, n - 1) + [(t, NextEntry)]
  }

  /** Posts one after another, as sessions 0, 1, 2, ... */
  function Serial(reqs: seq<Request>): seq<(nat, Action)>
    decreases |reqs|
  {
    if reqs == [] then [] else Serial(reqs[..|reqs| - 1]) + Alone(|reqs| - 1, reqs[|reqs| - 1])
  }

  lemma {:induction false} RunAllAppend(db: Db, first: seq<(nat, Action)>, second: seq<(nat, Action)>)
    ensures RunAll(db, first + second) == RunAll(RunAll(db, first), second)
    decreases |second|
  {
    hide Act;
    if second == [] {
      assert first + second == first;
    } else {
      var n := |second| - 1;
      assert (first + second)[..|first + second| - 1] == first + second[..n];
      RunAllAppend(db, first, second[..n]);
    }
  }

  /** Nothing is locked or reserved, so the rows are the committed ones. */
  ghost predicate Idle(db: Db) {
    Consistent(db) && db.locks == map[] && db.keys == map[]
  }

  /** Session t alone has applied its first i entries. */
  ghost predicate AloneAt(db: Db, start: Db, t: nat, req: Request, i: nat) {
    && i <= |req.postings| && Apply(start.committed.balances, req.postings[..i]).Ok?
    && db.committed == start.committed && db.order == start.order && db.keys == map[]
    && db.sessions == start.sessions[t := Session(req, Applying(i))]
    && (forall a <- db.locks :: db.locks[a] == t)
    && db.rows == Apply(start.committed.balances, req.postings[..i]).value
  }

  lemma NextAlone(db: Db, start: Db, t: nat, req: Request, i: nat)
    requires AloneAt(db, start, t, req, i) && i < |req.postings|
    requires Apply(start.committed.balances, req.postings[..i + 1]).Ok?
    ensures AloneAt(Act(db, t, NextEntry), start, t, req, i + 1)
  {
    assert req.postings[..i + 1][..i] == req.postings[..i] && req.postings[..i + 1][i] == req.postings[i];
    assert Apply(start.committed.balances, req.postings[..i + 1]) == ApplyOne(db.rows, req.postings[i]);
    hide RollBack, Apply, ApplyOne;
  }

  lemma {:induction false} PrefixApplies(b: Balances, ps: seq<Posting>, i: nat)
    requires Apply(b, ps).Ok? && i <= |ps|
    ensures Apply(b, ps[..i]).Ok?
    decreases |ps|
  {
    if i < |ps| {
      assert ps[..|ps| - 1][..i] == ps[..i];
      PrefixApplies(b, ps[..|ps| - 1], i);
    } else {
      assert ps[..i] == ps;
    }
  }

  lemma {:induction false} EntriesAlone(db: Db, start: Db, t: nat, req: Request, i: nat)
    requires AloneAt(db, start, t, req, 0) && i <= |req.postings| && Apply(start.committed.balances, req.postings).Ok?
    ensures AloneAt(RunAll(db, Entries(t, i)), start, t, req, i)
    decreases i
  {
    hide AloneAt, Act;
    if i > 0 {
      EntriesAlone(db, start, t, req, i - 1);
      PrefixApplies(start.committed.balances, req.postings, i);
      RunOne(db, Entries(t, i - 1), t, NextEntry);
      NextAlone(RunAll(db, Entries(t, i - 1)), start, t, req, i - 1);
    } else {
      assert RunAll(db, []) == db;
    }
  }

  lemma RunOne(db: Db, schedule: seq<(nat, Action)>, t: nat, a: Action)
    ensures RunAll(db, schedule + [(t, a)]) == Act(RunAll(db, schedule), t, a)
  {
    assert (schedule + [(t, a)])[..|schedule|] == schedule;
    hide Act;
  }

  lemma {:induction false} RunKeepsConsistent(db: Db, schedule: seq<(nat, Action)>)
    requires Consistent(db)
    ensures Consistent(RunAll(db, schedule))
    decreases |schedule|
  {
    hide Consistent, Act;
    if schedule != [] {
      RunKeepsConsistent(db, schedule[..|schedule| - 1]);
      ActKeepsConsistent(RunAll(db, schedule[..|schedule| - 1]), schedule[|schedule| - 1].0, schedule[|schedule| - 1].1);
    }
  }

  /** The check of a fresh request that would commit lets it start. */
  lemma CheckedAlone(db: Db, t: nat, req: Request)
    requires Idle(db) && t !in db.sessions && req.reference !in db.committed.byReference && Post(db.committed, req).1.Ok?
    ensures AloneAt(RunAll(db, [(t, Begin(req)), (t, Check)]), db, t, req, 0)
  {
    hide Apply, Balanced, Consistent, RunAll;
    var head := [(t, Begin(req)), (t, Check)];
    assert [] + [(t, Begin(req))] == [(t, Begin(req))] && [(t, Begin(req))] + [(t, Check)] == head;
    RunOne(db, [], t, Begin(req));
    RunOne(db, [(t, Begin(req))], t, Check);
    RunNothing(db);
    ApplyNothing(db.committed.balances);
    IdleRows(db);
    assert req.postings[..0] == [];
  }

  lemma RunNothing(db: Db)
    ensures RunAll(db, []) == db
  {}

  /** Up to the commit. */
  lemma InsertedAlone(db: Db, t: nat, req: Request)
    requires Idle(db) && t !in db.sessions && req.reference !in db.committed.byReference && Post(db.committed, req).1.Ok?
    ensures var m := Act(RunAll(db, [(t, Begin(req)), (t, Check)] + Entries(t, |req.postings|)), t, Insert);
            && m.committed == db.committed && m.order == db.order && (forall a <- m.locks :: m.locks[a] == t)
            && m.sessions == db.sessions[t := Session(req, Inserted)] && m.keys == map[req.reference := t]
  {
    hide Apply, Balanced, Consistent, RunAll, Entries, RollBack;
    var head := [(t, Begin(req)), (t, Check)];
    CheckedAlone(db, t, req);
    EntriesAlone(RunAll(db, head), db, t, req, |req.postings|);
    RunAllAppend(db, head, Entries(t, |req.postings|));
  }

  lemma IdleRows(db: Db)
    requires Idle(db)
    ensures db.rows == db.committed.balances
  {
    hide InStep;
  }

  lemma AloneCommits(db: Db, t: nat, req: Request)
    requires Idle(db) && t !in db.sessions && req.reference !in db.committed.byReference && Post(db.committed, req).1.Ok?
    ensures var m := RunAll(db, Alone(t, req));
            Idle(m) && m.committed == Post(db.committed, req).0 && m.order == db.order + [req] && m.sessions.Keys == db.sessions.Keys + {t}
  {
    hide Apply, Balanced, Consistent, Act, Entries, Post;
    var most := [(t, Begin(req)), (t, Check)] + Entries(t, |req.postings|);
    InsertedAlone(db, t, req);
    assert Alone(t, req) == most + [(t, Insert)] + [(t, Finish)];
    RunOne(db, most, t, Insert);
    RunOne(db, most + [(t, Insert)], t, Finish);
    RunKeepsConsistent(db, most + [(t, Insert)]);
    RunKeepsConsistent(db, Alone(t, req));
    hide RunAll;
    FinishAlone(RunAll(db, most + [(t, Insert)]), t, req);
  }

  lemma FinishAlone(db: Db, t: nat, req: Request)
    requires Consistent(db) && t in db.sessions && db.sessions[t] == Session(req, Inserted)
    requires (forall a <- db.locks :: db.locks[a] == t) && db.keys == map[req.reference := t]
    ensures var m := Act(db, t, Finish);
            && m.committed == Post(db.committed, req).0 && m.order == db.order + [req]
            && m.locks == map[] && m.keys == map[] && m.sessions.Keys == db.sessions.Keys
  {
    PublishIsPost(db, t);
    PublishShape(db, t);
    hide Consistent, Publish, Published, Post, Commit;
  }

  /** Whatever commits one after another has a schedule that commits just that: the schedules miss no serial run. */
  lemma {:induction false} SerialRunsAreSchedules(l: Ledger, reqs: seq<Request>)
    requires AllCommit(l, reqs)
    ensures var db := RunAll(Quiet(l), Serial(reqs));
            && db.order == reqs && db.committed == Replay(l, reqs)
            && Idle(db) && forall t <- db.sessions :: t < |reqs|
    decreases |reqs|
  {
    hide Act, Post, Idle, Alone, RunAll, Serial;
    if reqs == [] {
      RunKeepsConsistentFromQuiet(l);
    } else {
      SerialRunsAreSchedules(l, reqs[..|reqs| - 1]);
      OneMoreAlone(l, reqs);
    }
  }

  lemma OneMoreAlone(l: Ledger, reqs: seq<Request>)
    requires reqs != [] && AllCommit(l, reqs)
    requires var n, db := |reqs| - 1, RunAll(Quiet(l), Serial(reqs[..|reqs| - 1]));
             db.order == reqs[..n] && db.committed == Replay(l, reqs[..n]) && Idle(db) && forall t <- db.sessions :: t < n
    ensures var db := RunAll(Quiet(l), Serial(reqs));
            && db.order == reqs && db.committed == Replay(l, reqs)
            && Idle(db) && forall t <- db.sessions :: t < |reqs|
  {
    hide Act, Post, Idle, Alone, RunAll;
    var n := |reqs| - 1;
    RunAllAppend(Quiet(l), Serial(reqs[..n]), Alone(n, reqs[n]));
    AloneCommits(RunAll(Quiet(l), Serial(reqs[..n])), n, reqs[n]);
    assert reqs == reqs[..n] + [reqs[n]];
  }

  lemma RunKeepsConsistentFromQuiet(l: Ledger)
    ensures Idle(RunAll(Quiet(l), [])) && RunAll(Quiet(l), []) == Quiet(l) && Serial([]) == []
  {
    ScheduleKeepsConsistent(l, []);
    hide Consistent;
  }

  // ---------------------------------------------------------------- the books and the balances

  /** Every request is one that valid books can take where it stands in the list. */
  ghost predicate PostableInTurn(l: Ledger, reqs: seq<Request>)
    decreases |reqs|
  {
    reqs == [] ||
    var n := |reqs| - 1;
    PostableInTurn(l, reqs[..n]) && Postable(Replay(l, reqs[..n]), reqs[n])
  }

  lemma {:induction false} ReplayKeepsValid(l: Ledger, reqs: seq<Request>)
    requires Valid(l) && PostableInTurn(l, reqs)
    ensures Valid(Replay(l, reqs))
    decreases |reqs|
  {
    hide Valid, Postable, Post;
    if reqs != [] {
      ReplayKeepsValid(l, reqs[..|reqs| - 1]);
      PostKeepsValid(Replay(l, reqs[..|reqs| - 1]), reqs[|reqs| - 1]);
    }
  }

  /** Under every schedule whose committed requests land in their turn, the committed books stay valid. */
  lemma CommittedStaysValid(l: Ledger, schedule: seq<(nat, Action)>)
    requires Valid(l) && PostableInTurn(l, RunAll(Quiet(l), schedule).order)
    ensures Valid(RunAll(Quiet(l), schedule).committed)
  {
    EveryScheduleIsSerial(l, schedule);
    ReplayKeepsValid(l, RunAll(Quiet(l), schedule).order);
    hide Valid, PostableInTurn, RunAll, AllCommit, Replay;
  }

  /** What the committed posts debit from an account, and what they credit to it. */
  function Debits(ps: seq<Posting>, a: Account): int
    decreases |ps|
  {
    if ps == [] then 0
    else Debits(ps[..|ps| - 1], a)
         + if ps[|ps| - 1].account == a && ps[|ps| - 1].direction.Debit? then Column(ps[|ps| - 1].amount) else 0
  }

  function Credits(ps: seq<Posting>, a: Account): int
    decreases |ps|
  {
    if ps == [] then 0
    else Credits(ps[..|ps| - 1], a)
         + if ps[|ps| - 1].account == a && ps[|ps| - 1].direction.Credit? then Column(ps[|ps| - 1].amount) else 0
  }

  function AllDebits(reqs: seq<Request>, a: Account): int
    decreases |reqs|
  {
    if reqs == [] then 0 else AllDebits(reqs[..|reqs| - 1], a) + Debits(reqs[|reqs| - 1].postings, a)
  }

  function AllCredits(reqs: seq<Request>, a: Account): int
    decreases |reqs|
  {
    if reqs == [] then 0 else AllCredits(reqs[..|reqs| - 1], a) + Credits(reqs[|reqs| - 1].postings, a)
  }

  lemma {:induction false} StoredIsCreditsMinusDebits(ps: seq<Posting>, a: Account)
    ensures StoredSum(ps, Only(a)) == Credits(ps, a) - Debits(ps, a)
    decreases |ps|
  {
    if ps != [] {
      ColumnOdd(ps[|ps| - 1].amount);
      StoredIsCreditsMinusDebits(ps[..|ps| - 1], a);
    }
  }

  /** How many of the committed debits of an account were half a kobo out. */
  function AllHalves(reqs: seq<Request>, a: Account): nat
    decreases |reqs|
  {
    if reqs == [] then 0 else AllHalves(reqs[..|reqs| - 1], a) + HalfDebits(reqs[|reqs| - 1].postings, a)
  }

  lemma {:induction false} ReplayBalance(l: Ledger, reqs: seq<Request>, a: Account)
    requires AllCommit(l, reqs) && Solvent(l.balances) && a.Owned? && a in l.balances && forall r <- reqs :: NonNegative(r.postings)
    ensures Solvent(Replay(l, reqs).balances) && a in Replay(l, reqs).balances
    ensures Replay(l, reqs).balances[a] == l.balances[a] + AllCredits(reqs, a) - AllDebits(reqs, a) + AllHalves(reqs, a)
    decreases |reqs|
  {
    if reqs != [] {
      var n := |reqs| - 1;
      assert reqs[n] in reqs;
      var before := Replay(l, reqs[..n]);
      ReplayBalance(l, reqs[..n], a);
      ApplyMovesUser(before.balances, reqs[n].postings, a);
      ApplySolvent(before.balances, reqs[n].postings);
      StoredIsCreditsMinusDebits(reqs[n].postings, a);
      hide StoredSum, Column, Half, HalfDebits, NonNegative, Solvent;
    }
  }

  lemma {:induction false} ReplaySolvent(l: Ledger, reqs: seq<Request>)
    requires Solvent(l.balances) && forall r <- reqs :: NonNegative(r.postings)
    ensures Solvent(Replay(l, reqs).balances)
    decreases |reqs|
  {
    if reqs != [] {
      var n := |reqs| - 1;
      assert reqs[n] in reqs;
      ReplaySolvent(l, reqs[..n]);
      if Apply(Replay(l, reqs[..n]).balances, reqs[n].postings).Ok? {
        ApplySolvent(Replay(l, reqs[..n]).balances, reqs[n].postings);
      }
      hide Solvent, NonNegative, Apply, Balanced;
    }
  }

  /** No post of the schedule has a negative amount. */
  ghost predicate BeginsNonNegative(schedule: seq<(nat, Action)>) {
    forall s <- schedule :: s.1.Begin? ==> NonNegative(s.1.request.postings)
  }

  /** No post of the schedule debits half a kobo from the account. */
  ghost predicate BeginsNoHalves(schedule: seq<(nat, Action)>, a: Account) {
    forall s <- schedule :: s.1.Begin? ==> DebitsNoHalf(s.1.request, a)
  }

  ghost predicate DebitsNoHalf(req: Request, a: Account) {
    forall p <- req.postings :: p.account != a || p.direction.Credit? || !Half(p.amount)
  }

  ghost predicate Begun(schedule: seq<(nat, Action)>, req: Request) {
    exists s <- schedule :: s.1 == Begin(req)
  }

  ghost predicate OnlyBegun(db: Db, schedule: seq<(nat, Action)>) {
    (forall r <- db.order :: Begun(schedule, r)) && forall t <- db.sessions :: Begun(schedule, db.sessions[t].request)
  }

  lemma ActOnlyBegun(db: Db, schedule: seq<(nat, Action)>, t: nat, a: Action)
    requires OnlyBegun(db, schedule) && (a.Begin? ==> Begun(schedule, a.request))
    ensures OnlyBegun(Act(db, t, a), schedule)
  {
    hide Begun, ApplyOne, Balanced, Published, Discard, Release, Unreserve, Commit;
  }

  lemma BegunLonger(db: Db, schedule: seq<(nat, Action)>, t: nat, a: Action)
    requires OnlyBegun(db, schedule)
    ensures OnlyBegun(db, schedule + [(t, a)]) && (a.Begin? ==> Begun(schedule + [(t, a)], a.request))
  {
    var longer := schedule + [(t, a)];
    forall r: Request | Begun(schedule, r)
      ensures Begun(longer, r)
    {
      var s :| s in schedule && s.1 == Begin(r);
      assert s in longer;
    }
    assert (t, a) in longer;
  }

  /** What is in flight or committed was begun. */
  lemma {:induction false} RunOnlyBegun(l: Ledger, schedule: seq<(nat, Action)>)
    ensures OnlyBegun(RunAll(Quiet(l), schedule), schedule)
    decreases |schedule|
  {
    hide OnlyBegun, Act, Begun;
    if schedule != [] {
      var n := |schedule| - 1;
      assert schedule == schedule[..n] + [(schedule[n].0, schedule[n].1)];
      RunOnlyBegun(l, schedule[..n]);
      BegunLonger(RunAll(Quiet(l), schedule[..n]), schedule[..n], schedule[n].0, schedule[n].1);
      ActOnlyBegun(RunAll(Quiet(l), schedule[..n]), schedule, schedule[n].0, schedule[n].1);
    } else {
      QuietHoldsNothing(l);
    }
  }

  lemma QuietHoldsNothing(l: Ledger)
    ensures OnlyBegun(Quiet(l), []) && RunAll(Quiet(l), []) == Quiet(l)
  {}

  /** So what every post of a schedule is, every committed and every running one is. */
  lemma BegunIsNonNegative(l: Ledger, schedule: seq<(nat, Action)>)
    requires BeginsNonNegative(schedule)
    ensures var db := RunAll(Quiet(l), schedule);
            (forall r <- db.order :: NonNegative(r.postings)) && forall t <- db.sessions :: NonNegative(db.sessions[t].request.postings)
  {
    RunOnlyBegun(l, schedule);
    hide RunAll, NonNegative;
  }

  lemma BegunDebitsNoHalf(l: Ledger, schedule: seq<(nat, Action)>, a: Account)
    requires BeginsNoHalves(schedule, a)
    ensures forall r <- RunAll(Quiet(l), schedule).order :: DebitsNoHalf(r, a)
  {
    RunOnlyBegun(l, schedule);
    hide RunAll, DebitsNoHalf;
  }

  /**
   Under every schedule of posts of non-negative amounts, whatever their fractions: a user's committed balance
   is not negative, and is what it started with, plus credits, less debits, plus a kobo for every half-kobo
   debit. So accepted debits never exceed start plus credits by more than the half-kobo debits there were.
   */
  lemma NeverOverdrawn(l: Ledger, schedule: seq<(nat, Action)>, a: Account)
    requires Solvent(l.balances) && a in l.balances && a.Owned? && BeginsNonNegative(schedule)
    ensures var db := RunAll(Quiet(l), schedule);
            var start, debits, credits, halves := l.balances[a], AllDebits(db.order, a), AllCredits(db.order, a), AllHalves(db.order, a);
            && a in db.committed.balances && db.committed.balances[a] >= 0
            && db.committed.balances[a] == start + credits - debits + halves
            && debits <= start + credits + halves
  {
    EveryScheduleIsSerial(l, schedule);
    BegunIsNonNegative(l, schedule);
    ReplayBalance(l, RunAll(Quiet(l), schedule).order, a);
    hide AllDebits, AllCredits, AllHalves, RunAll, Replay, AllCommit, NonNegative;
  }

  // ---------------------------------------------------------------- when more can be debited than there was

  /** A further post of whole kobo commits, and with it more has left the account than it started with and got. */
  ghost predicate Overdraws(l: Ledger, order: seq<Request>, start: int, a: Account, req: Request) {
    && AllWhole(req.postings) && NonNegative(req.postings) && Commits(l, req)
    && AllDebits(order + [req], a) > start + AllCredits(order + [req], a)
  }

  lemma OneMoreTotals(order: seq<Request>, req: Request, a: Account)
    ensures AllDebits(order + [req], a) == AllDebits(order, a) + Debits(req.postings, a)
    ensures AllCredits(order + [req], a) == AllCredits(order, a) + Credits(req.postings, a)
  {
    assert (order + [req])[..|order|] == order;
  }

  lemma WholeDebitsNoHalf(ps: seq<Posting>, a: Account)
    requires AllWhole(ps)
    ensures HalfDebits(ps, a) == 0
  {
    NoHalfDebits(ps, a);
  }

  /** Without half-kobo debits so far, a further whole post stays within what there was and came in. */
  lemma WholePostStaysWithin(m: Ledger, order: seq<Request>, start: int, a: Account, req: Request)
    requires Solvent(m.balances) && a.Owned? && a in m.balances
    requires m.balances[a] == start + AllCredits(order, a) - AllDebits(order, a)
    requires AllWhole(req.postings) && NonNegative(req.postings) && Commits(m, req)
    ensures AllDebits(order + [req], a) <= start + AllCredits(order + [req], a)
  {
    OneMoreTotals(order, req, a);
    ApplyMovesUser(m.balances, req.postings, a);
    ApplySolvent(m.balances, req.postings);
    WholeDebitsNoHalf(req.postings, a);
    StoredIsCreditsMinusDebits(req.postings, a);
    assert Apply(m.balances, req.postings).value[a] >= 0;
    hide AllDebits, AllCredits, StoredSum, HalfDebits, AllWhole, NonNegative, Balanced;
  }

  /** Everything on the account, to another one. */
  function Emptying(balance: nat, a: Account, other: Account, token: nat): Request {
    Request(WalletWithdrawal, Reference(WithdrawalOf(token), Plain), balance as real,
            [Posting(a, Debit, balance as real), Posting(other, Credit, balance as real)])
  }

  lemma EmptyingCommits(m: Ledger, a: Account, other: Account, token: nat)
    requires a in m.balances && other in m.balances && a != other && m.balances[a] >= 0
    requires Reference(WithdrawalOf(token), Plain) !in m.byReference
    ensures var req := Emptying(m.balances[a], a, other, token);
            && AllWhole(req.postings) && NonNegative(req.postings) && Commits(m, req)
            && Debits(req.postings, a) == m.balances[a] && Credits(req.postings, a) == 0
  {
    var req := Emptying(m.balances[a], a, other, token);
    var ps := req.postings;
    ColumnOfWhole(m.balances[a]);
    assert ps[..1] == [ps[0]] && ps[..1][..0] == [];
    assert Apply(m.balances, ps[..1]).Ok? && Apply(m.balances, ps).Ok?;
    assert SideTotal(ps[..1], Debit) == m.balances[a] as real && SideTotal(ps[..1], Credit) == 0.0;
    assert Debits(ps[..1], a) == m.balances[a] && Credits(ps[..1], a) == 0;
    hide Column;
  }

  lemma {:induction false} SomeFreshToken(used: set<Reference>) returns (token: nat)
    ensures forall r <- used :: r.subject.WithdrawalOf? ==> r.subject.token < token
    decreases used
  {
    token := 0;
    if used != {} {
      var r :| r in used;
      var rest := SomeFreshToken(used - {r});
      token := if r.subject.WithdrawalOf? && r.subject.token >= rest then r.subject.token + 1 else rest;
      assert forall q <- used :: q == r || q in used - {r};
    }
  }

  lemma {:induction false} ReplayKeepsAccounts(l: Ledger, reqs: seq<Request>)
    ensures Replay(l, reqs).balances.Keys == l.balances.Keys
    decreases |reqs|
  {
    if reqs != [] {
      ReplayKeepsAccounts(l, reqs[..|reqs| - 1]);
      ApplyKeepsKeys(Replay(l, reqs[..|reqs| - 1]).balances, reqs[|reqs| - 1].postings);
    }
    hide Apply, Balanced;
  }

  /**
   After any schedule, a further post of whole kobo can take more from a user's account than it started with and
   got iff some committed debit of the account was half a kobo out.
   */
  lemma CanOverdrawIff(l: Ledger, schedule: seq<(nat, Action)>, a: Account, other: Account)
    requires Solvent(l.balances) && a in l.balances && a.Owned? && other in l.balances && other != a && BeginsNonNegative(schedule)
    ensures var db := RunAll(Quiet(l), schedule);
            (exists req :: Overdraws(db.committed, db.order, l.balances[a], a, req)) <==> AllHalves(db.order, a) > 0
  {
    hide RunAll, AllDebits, AllCredits, AllHalves, Replay, AllCommit, Solvent, BeginsNonNegative;
    var db := RunAll(Quiet(l), schedule);
    NeverOverdrawn(l, schedule, a);
    EveryScheduleIsSerial(l, schedule);
    if AllHalves(db.order, a) > 0 {
      ReplayKeepsAccounts(l, db.order);
      var token := SomeFreshToken(db.committed.byReference.Keys);
      EmptyingCommits(db.committed, a, other, token);
      OneMoreTotals(db.order, Emptying(db.committed.balances[a], a, other, token), a);
      assert Overdraws(db.committed, db.order, l.balances[a], a, Emptying(db.committed.balances[a], a, other, token));
    } else {
      CommittedIsSolvent(l, schedule);
      forall req
        ensures !Overdraws(db.committed, db.order, l.balances[a], a, req)
      {
        if AllWhole(req.postings) && NonNegative(req.postings) && Commits(db.committed, req) {
          WholePostStaysWithin(db.committed, db.order, l.balances[a], a, req);
        }
      }
    }
  }

  lemma CommittedIsSolvent(l: Ledger, schedule: seq<(nat, Action)>)
    requires Solvent(l.balances) && BeginsNonNegative(schedule)
    ensures Solvent(RunAll(Quiet(l), schedule).committed.balances)
  {
    EveryScheduleIsSerial(l, schedule);
    BegunIsNonNegative(l, schedule);
    ReplaySolvent(l, RunAll(Quiet(l), schedule).order);
    hide Solvent, RunAll, Replay, AllCommit, NonNegative;
  }

  lemma {:induction false} NoHalves(reqs: seq<Request>, a: Account)
    requires forall r <- reqs :: DebitsNoHalf(r, a)
    ensures AllHalves(reqs, a) == 0
    decreases |reqs|
  {
    if reqs != [] {
      assert reqs[|reqs| - 1] in reqs;
      NoHalves(reqs[..|reqs| - 1], a);
      NoHalfDebits(reqs[|reqs| - 1].postings, a);
      hide Half, HalfDebits;
    }
  }

  /** In particular, an account from which no post debits half a kobo is never debited for more than it had and got. */
  lemma NeverOverdrawnWithoutHalves(l: Ledger, schedule: seq<(nat, Action)>, a: Account)
    requires Solvent(l.balances) && a in l.balances && a.Owned? && BeginsNonNegative(schedule) && BeginsNoHalves(schedule, a)
    ensures var order := RunAll(Quiet(l), schedule).order;
            AllDebits(order, a) <= l.balances[a] + AllCredits(order, a)
  {
    NeverOverdrawn(l, schedule, a);
    BegunDebitsNoHalf(l, schedule, a);
    NoHalves(RunAll(Quiet(l), schedule).order, a);
    hide AllDebits, AllCredits, AllHalves, RunAll, BeginsNonNegative, Solvent;
  }

  /** Not even the uncommitted row of a user's account is negative, whatever the fractions. */
  lemma RowsNeverNegative(l: Ledger, schedule: seq<(nat, Action)>, a: Account)
    requires Solvent(l.balances) && a.Owned? && BeginsNonNegative(schedule) && a in RunAll(Quiet(l), schedule).rows
    ensures RunAll(Quiet(l), schedule).rows[a] >= 0
  {
    var db := RunAll(Quiet(l), schedule);
    EveryScheduleIsSerial(l, schedule);
    BegunIsNonNegative(l, schedule);
    ReplaySolvent(l, db.order);
    ScheduleKeepsConsistent(l, schedule);
    hide Solvent, Replay, AllCommit, RunAll, Balanced, Consistent, NonNegative;
    RowNotNegative(db, a);
  }

  lemma RowNotNegative(db: Db, a: Account)
    requires Consistent(db) && Solvent(db.committed.balances) && a.Owned? && a in db.rows
    requires forall t <- db.sessions :: NonNegative(db.sessions[t].request.postings)
    ensures db.rows[a] >= 0
  {
    hide Touches, Balanced;
    if a in db.locks {
      var t := db.locks[a];
      assert InStep(db, t) && Holds(db, t, a);
      RunningWhenHolding(db, t, a);
      var ps := Applied(db.sessions[t]);
      ApplySolvent(db.committed.balances, ps);
      hide Apply;
    }
  }

  lemma RunningWhenHolding(db: Db, t: nat, a: Account)
    requires t in db.sessions && InStep(db, t) && Holds(db, t, a)
    ensures Running(db.sessions[t])
  {
    TouchesNone();
  }
}
