/**
 Everyone who may act on one booking at once, interleaved statement by statement: drivers accepting and
 declining, repeated dispatch starts, the expiry timer, a cancellation, the trip's own transitions and,
 for deliveries only, an admin. Nothing spans two statements; the guarded UPDATE of `acceptOffer` is what
 decides. A call is where it stands between two statements, with what it has read.
 */
module BookingRace {
  import opened Option
  import opened Bookings

  datatype Call =
    | Release(candidates: seq<nat>)
    | StartRead(candidates: seq<nat>) | StartWrite(candidates: seq<nat>) | StartOffers(candidates: seq<nat>)
    | AcceptRead(driver: nat) | AcceptCheck(driver: nat) | AcceptClaim(driver: nat) | AcceptLost(driver: nat)
    | AcceptWon(driver: nat) | AcceptVoid(driver: nat) | AcceptDone(driver: nat)
    | DeclineRead(driver: nat) | DeclineWrite(driver: nat) | DeclineLook | DeclineCount
    | TimerRead | TimerVoid | ResolveNoDrivers
    | CancelRead | CancelVoid(seen: Status) | CancelWrite
    | MoveRead(driver: nat, from: Status, to: Status) | MoveWrite(driver: nat, to: Status)
    | AssignRead(driver: nat) | AssignVoid(driver: nat, seen: Status) | AssignWrite(driver: nat)
    | Over

  datatype World = World(rows: Rows, calls: map<nat, Call>)

  /** The transitions of markArrived, startTrip, completeTrip, confirmPickup and completeDelivery. */
  predicate TripMove(from: Status, to: Status) {
    || (from.Accepted? && (to.Arrived? || to.PickedUp?)) || (from.Arrived? && to.InProgress?)
    || (from.InProgress? && to.Completed?) || (from.PickedUp? && to.Completed?)
  }

  /** The first statement of a call. */
  predicate Entry(c: Call) {
    || c.Release? || c.StartRead? || c.AcceptRead? || c.DeclineRead? || c.TimerRead? || c.CancelRead? || c.AssignRead?
    || (c.MoveRead? && TripMove(c.from, c.to))
  }

  predicate Cancellable(s: Status) {
    s.Scheduled? || s.Requested? || s.Dispatching? || s.NoDriversFound? || s.Accepted? || s.Arrived?
  }

  /** What the statement a call stands at does to the rows. */
  function Write(r: Rows, c: Call): Rows {
    match c
    case Release(_) => if r.status.Scheduled? then r.(status := Requested) else r
    case StartWrite(_) => r.(status := Dispatching)
    case StartOffers(cs) => if AnyOffered(r.offers, cs) then r else r.(offers := MakeOffers(r.offers, cs))
    case AcceptClaim(d) => if Claimable(r) then r.(status := Accepted, driver := Some(d)) else r
    case AcceptLost(d) => r.(offers := SetOffer(r.offers, d, Expired))
    case AcceptWon(d) => r.(offers := SetOffer(r.offers, d, Taken))
    case AcceptVoid(d) => r.(offers := VoidPending(r.offers, Some(d)))
    case DeclineWrite(d) => r.(offers := SetOffer(r.offers, d, Declined))
    case TimerVoid => r.(offers := VoidPending(r.offers, None))
    case ResolveNoDrivers => if r.status.Requested? || r.status.Dispatching? then r.(status := NoDriversFound) else r
    case CancelVoid(seen) => if seen.Dispatching? then r.(offers := VoidPending(r.offers, None)) else r
    case CancelWrite => r.(status := Cancelled)
    case MoveWrite(_, to) => r.(status := to)
    case AssignVoid(_, seen) => if seen.Dispatching? then r.(offers := VoidPending(r.offers, None)) else r
    case AssignWrite(d) => r.(status := Accepted, driver := Some(d))
    case _ => r
  }

  /** Where the call stands afterwards. `yes` is what the rows do not say: the offer's clock, the cash cap, the payment. */
  function Next(r: Rows, c: Call, yes: bool): Call {
    match c
    case Release(cs) => if r.status.Scheduled? then StartRead(cs) else Over
    case StartRead(cs) => if r.status.Requested? then StartWrite(cs) else Over
    case StartWrite(cs) => if cs == [] then ResolveNoDrivers else StartOffers(cs)
    case AcceptRead(d) => if IsPending(r.offers, d) && yes then AcceptCheck(d) else Over
    case AcceptCheck(d) => if yes then AcceptClaim(d) else Over
    case AcceptClaim(d) => if Claimable(r) then AcceptWon(d) else AcceptLost(d)
    case AcceptWon(d) => AcceptVoid(d)
    case AcceptVoid(d) => AcceptDone(d)
    case AcceptDone(d) => AcceptDone(d)
    case DeclineRead(d) => if IsPending(r.offers, d) then DeclineWrite(d) else Over
    case DeclineWrite(_) => DeclineLook
    case DeclineLook => if r.status.Dispatching? then DeclineCount else Over
    case DeclineCount => if AnyPending(r.offers) then Over else ResolveNoDrivers
    case TimerRead => if r.status.Dispatching? then TimerVoid else Over
    case TimerVoid => ResolveNoDrivers
    case CancelRead => if Cancellable(r.status) && yes then CancelVoid(r.status) else Over
    case CancelVoid(_) => CancelWrite
    case MoveRead(d, from, to) => if r.driver == Some(d) && r.status == from && yes then MoveWrite(d, to) else Over
    case AssignRead(d) => if Assignable(r.status) then AssignVoid(d, r.status) else Over
    case AssignVoid(d, _) => AssignWrite(d)
    case _ => Over
  }

  /** A schedule starts calls and lets them run a statement at a time, in any order. */
  datatype Event = Begin(call: Call) | Run(yes: bool)

  function Happen(w: World, t: nat, e: Event): World {
    if e.Begin? then
      if t in w.calls || !Entry(e.call) then w else w.(calls := w.calls[t := e.call])
    else if t !in w.calls then w
    else World(Write(w.rows, w.calls[t]), w.calls[t := Next(w.rows, w.calls[t], e.yes)])
  }

  function RunAll(w: World, schedule: seq<(nat, Event)>): World
    decreases |schedule|
  {
    if schedule == [] then w
    else Happen(RunAll(w, schedule[..|schedule| - 1]), schedule[|schedule| - 1].0, schedule[|schedule| - 1].1)
  }

  /** A new booking; a delivery may be booked for later. */
  function Fresh(later: bool): World {
    World(Rows(if later then Scheduled else Requested, None, map[]), map[])
  }

  // ---------------------------------------------------------------- safety

  /** Past the claim: this acceptOffer call succeeded. */
  predicate Won(c: Call) {
    c.AcceptWon? || c.AcceptVoid? || c.AcceptDone?
  }

  predicate IsAssign(c: Call) {
    c.AssignRead? || c.AssignVoid? || c.AssignWrite?
  }

  /** An offer marked ACCEPTED is the booking's driver's, and the statuses that need a driver have one. */
  ghost predicate RowsSafe(r: Rows) {
    && (HasDriver(r.status) ==> r.driver.Some?)
    && (forall d <- r.offers :: r.offers[d] == Taken ==> r.driver == Some(d))
  }

  /** What a call relies on, wherever it stands. */
  predicate CallSafe(r: Rows, c: Call) {
    !IsAssign(c) && (Won(c) || c.MoveWrite? ==> r.driver == Some(c.driver))
  }

  ghost predicate WonOnce(calls: map<nat, Call>) {
    forall t, u :: t in calls && u in calls && Won(calls[t]) && Won(calls[u]) ==> t == u
  }

  ghost predicate Safe(w: World) {
    RowsSafe(w.rows) && WonOnce(w.calls) && forall t <- w.calls :: CallSafe(w.rows, w.calls[t])
  }

  /** Only the claim sets a driver, and only where there is none. */
  lemma WriteKeepsDriver(r: Rows, c: Call)
    requires !c.AssignWrite?
    ensures Write(r, c).driver == r.driver
            || (r.driver.None? && c.AcceptClaim? && Claimable(r) && Write(r, c).driver == Some(c.driver))
  {
    hide VoidPending, MakeOffers, SetOffer, AnyOffered;
  }

  lemma WriteKeepsRows(r: Rows, c: Call)
    requires RowsSafe(r) && CallSafe(r, c)
    ensures RowsSafe(Write(r, c))
  {}

  lemma NextKeepsCall(r: Rows, c: Call, yes: bool)
    requires CallSafe(r, c)
    ensures CallSafe(Write(r, c), Next(r, c, yes))
    ensures Won(Next(r, c, yes)) ==> Won(c) || r.driver.None?
  {
    hide VoidPending, MakeOffers, SetOffer, AnyOffered, AnyPending, IsPending;
  }

  lemma HappenKeepsSafe(w: World, t: nat, e: Event)
    requires Safe(w) && !(e.Begin? && IsAssign(e.call))
    ensures Safe(Happen(w, t, e))
    ensures w.rows.driver.Some? ==> Happen(w, t, e).rows.driver == w.rows.driver
  {
    if e.Run? && t in w.calls {
      WriteKeepsDriver(w.rows, w.calls[t]);
      WriteKeepsRows(w.rows, w.calls[t]);
      NextKeepsCall(w.rows, w.calls[t], e.yes);
    }
    hide Write, Next, RowsSafe;
  }

  ghost predicate WithoutAdmin(schedule: seq<(nat, Event)>) {
    forall s <- schedule :: !(s.1.Begin? && IsAssign(s.1.call))
  }

  /**
   Under every interleaving without an admin assignment: the statuses that need a driver have one,
   an offer marked ACCEPTED is that of the booking's driver, and at most one acceptOffer call succeeds.
   */
  lemma {:induction false} EveryScheduleIsSafe(later: bool, schedule: seq<(nat, Event)>)
    requires WithoutAdmin(schedule)
    ensures Safe(RunAll(Fresh(later), schedule))
    decreases |schedule|
  {
    if schedule != [] {
      var n := |schedule| - 1;
      assert schedule[n] in schedule;
      EveryScheduleIsSafe(later, schedule[..n]);
      HappenKeepsSafe(RunAll(Fresh(later), schedule[..n]), schedule[n].0, schedule[n].1);
      hide Safe, Happen;
    }
  }

  /** driverId is written at most once: whatever follows, it stays. */
  lemma {:induction false} DriverIsWrittenOnce(later: bool, schedule: seq<(nat, Event)>, k: nat)
    requires WithoutAdmin(schedule) && k <= |schedule|
    ensures var early := RunAll(Fresh(later), schedule[..k]).rows.driver;
            early.Some? ==> RunAll(Fresh(later), schedule).rows.driver == early
    decreases |schedule|
  {
    if k == |schedule| {
      assert schedule[..k] == schedule;
    } else {
      var n := |schedule| - 1;
      assert schedule[n] in schedule && schedule[..n][..k] == schedule[..k];
      DriverIsWrittenOnce(later, schedule[..n], k);
      EveryScheduleIsSafe(later, schedule[..n]);
      HappenKeepsSafe(RunAll(Fresh(later), schedule[..n]), schedule[n].0, schedule[n].1);
      hide Safe, Happen;
    }
  }

  /** However many drivers claim, and however often, no two calls win; the one that does is the driver's. */
  lemma OneWinner(later: bool, schedule: seq<(nat, Event)>, t: nat, u: nat)
    requires WithoutAdmin(schedule)
    requires var calls := RunAll(Fresh(later), schedule).calls; t in calls && u in calls && Won(calls[t]) && Won(calls[u])
    ensures t == u && RunAll(Fresh(later), schedule).rows.driver == Some(RunAll(Fresh(later), schedule).calls[t].driver)
  {
    EveryScheduleIsSafe(later, schedule);
  }

  /** A claim on a booking that is taken or no longer dispatching loses: the driver's own offer expires and nothing else changes. */
  lemma LoserExpires(w: World, t: nat, driver: nat)
    requires t in w.calls && w.calls[t] == AcceptClaim(driver) && driver in w.rows.offers
    requires w.rows.status != Dispatching || w.rows.driver.Some?
    ensures var lost := Happen(Happen(w, t, Run(true)), t, Run(true));
            lost.rows == w.rows.(offers := w.rows.offers[driver := Expired]) && lost.calls == w.calls[t := Over]
  {
    hide VoidPending, MakeOffers, AnyOffered, AnyPending;
  }

  // ---------------------------------------------------------------- with an admin about

  /** What an admin's assignment does not break: statuses that need a driver have one, and one acceptOffer at most won. */
  ghost predicate Driven(w: World) {
    && (HasDriver(w.rows.status) ==> w.rows.driver.Some?)
    && WonOnce(w.calls)
    && forall t <- w.calls :: Won(w.calls[t]) || w.calls[t].MoveWrite? ==> w.rows.driver.Some?
  }

  /** No statement takes a driver away without putting one in. */
  lemma WriteDrives(r: Rows, c: Call)
    requires HasDriver(r.status) || c.MoveWrite? ==> r.driver.Some?
    ensures r.driver.Some? ==> Write(r, c).driver.Some?
    ensures HasDriver(Write(r, c).status) ==> Write(r, c).driver.Some?
    ensures c.AcceptClaim? && Claimable(r) ==> r.driver.None? && Write(r, c).driver.Some?
  {
    hide VoidPending, MakeOffers, SetOffer, AnyOffered;
  }

  lemma NextWins(r: Rows, c: Call, yes: bool)
    ensures Won(Next(r, c, yes)) ==> Won(c) || (c.AcceptClaim? && Claimable(r))
    ensures Next(r, c, yes).MoveWrite? ==> r.driver.Some?
  {
    hide AnyPending, IsPending;
  }

  lemma HappenKeepsDriven(w: World, t: nat, e: Event)
    requires Driven(w)
    ensures Driven(Happen(w, t, e))
  {
    if e.Run? && t in w.calls {
      WriteDrives(w.rows, w.calls[t]);
      NextWins(w.rows, w.calls[t], e.yes);
    }
    hide Write, Next;
  }

  /** Under every schedule, admins included: a status that needs a driver has one, and at most one acceptOffer succeeds. */
  lemma {:induction false} EveryScheduleHasOneWinner(later: bool, schedule: seq<(nat, Event)>)
    ensures Driven(RunAll(Fresh(later), schedule))
    decreases |schedule|
  {
    if schedule != [] {
      var n := |schedule| - 1;
      EveryScheduleHasOneWinner(later, schedule[..n]);
      HappenKeepsDriven(RunAll(Fresh(later), schedule[..n]), schedule[n].0, schedule[n].1);
      hide Driven, Happen;
    }
  }

  // ---------------------------------------------------------------- what the unguarded writes allow

  /** Between its check and its write: the write will happen whatever the status has become meanwhile. */
  predicate Pledged(c: Call) {
    c.StartWrite? || c.MoveWrite? || c.AssignVoid? || c.AssignWrite?
  }

  /** A trip transition starts and ends where the source's methods do. */
  predicate MoveEnds(c: Call) {
    (c.MoveWrite? ==> HasDriver(c.to)) && (c.MoveRead? ==> TripMove(c.from, c.to))
  }

  ghost predicate TripMoves(w: World) {
    forall t <- w.calls :: MoveEnds(w.calls[t])
  }

  ghost predicate Settled(w: World) {
    w.rows.status.Cancelled? && forall t <- w.calls :: !Pledged(w.calls[t]) && MoveEnds(w.calls[t])
  }

  lemma HappenKeepsSettled(w: World, t: nat, e: Event)
    requires Settled(w)
    ensures Settled(Happen(w, t, e))
  {
    hide VoidPending, MakeOffers, SetOffer, AnyOffered, AnyPending, IsPending;
  }

  lemma {:induction false} SettledStays(w: World, schedule: seq<(nat, Event)>)
    requires Settled(w)
    ensures Settled(RunAll(w, schedule))
    decreases |schedule|
  {
    if schedule != [] {
      var n := |schedule| - 1;
      SettledStays(w, schedule[..n]);
      HappenKeepsSettled(RunAll(w, schedule[..n]), schedule[n].0, schedule[n].1);
      hide Settled, Happen;
    }
  }

  /** One more statement, or two for an admin's assignment, and the booking is live again. */
  lemma PledgedRevives(w: World, t: nat)
    requires w.rows.status.Cancelled? && TripMoves(w) && t in w.calls && Pledged(w.calls[t])
    ensures var v := Happen(w, t, Run(true));
            !v.rows.status.Cancelled? || !Happen(v, t, Run(true)).rows.status.Cancelled?
  {
    hide VoidPending, MakeOffers, SetOffer, AnyOffered, AnyPending, IsPending;
  }

  lemma RunTwice(w: World, t: nat)
    ensures RunAll(w, [(t, Run(true))]) == Happen(w, t, Run(true))
    ensures RunAll(w, [(t, Run(true)), (t, Run(true))]) == Happen(Happen(w, t, Run(true)), t, Run(true))
  {
    hide Happen;
    var once, twice := [(t, Run(true))], [(t, Run(true)), (t, Run(true))];
    assert once[..0] == [] && twice[..1] == once;
    assert RunAll(w, []) == w;
    assert RunAll(w, once) == Happen(w, t, Run(true));
    assert RunAll(w, twice) == Happen(RunAll(w, once), t, Run(true));
  }

  /** A booking can leave CANCELLED again iff some call had already passed its check when it was cancelled. */
  lemma CancellationIsFinalIff(w: World)
    requires w.rows.status.Cancelled? && TripMoves(w)
    ensures (forall schedule: seq<(nat, Event)> :: RunAll(w, schedule).rows.status.Cancelled?)
            <==> (forall t <- w.calls :: !Pledged(w.calls[t]))
  {
    hide Happen, RunAll, Pledged, MoveEnds;
    if forall t <- w.calls :: !Pledged(w.calls[t]) {
      forall schedule: seq<(nat, Event)>
        ensures RunAll(w, schedule).rows.status.Cancelled?
      {
        SettledStays(w, schedule);
      }
    } else {
      var t :| t in w.calls && Pledged(w.calls[t]);
      PledgedRevives(w, t);
      RunTwice(w, t);
    }
  }

  lemma HappenKeepsMoveEnds(w: World, t: nat, e: Event)
    requires TripMoves(w)
    ensures TripMoves(Happen(w, t, e))
  {
    hide VoidPending, MakeOffers, SetOffer, AnyOffered, AnyPending, IsPending;
  }

  /** The one hypothesis of CancellationIsFinalIff and DriverIsFinalIff holds in every reachable state. */
  lemma {:induction false} MovesNeverCancel(later: bool, schedule: seq<(nat, Event)>)
    ensures TripMoves(RunAll(Fresh(later), schedule))
    decreases |schedule|
  {
    if schedule != [] {
      var n := |schedule| - 1;
      MovesNeverCancel(later, schedule[..n]);
      HappenKeepsMoveEnds(RunAll(Fresh(later), schedule[..n]), schedule[n].0, schedule[n].1);
      hide TripMoves, Happen;
    }
  }

  // ---------------------------------------------------------------- when a driver is final

  /** A call that can still take the booking from driver d, whatever the status has become meanwhile. */
  predicate Displaces(c: Call, d: nat) {
    c.StartWrite? || ((c.AssignVoid? || c.AssignWrite?) && c.driver != d)
  }

  ghost predicate Pinned(w: World, d: nat) {
    && w.rows.driver == Some(d) && !Assignable(w.rows.status) && !w.rows.status.Scheduled?
    && forall t <- w.calls :: !Displaces(w.calls[t], d) && MoveEnds(w.calls[t])
  }

  lemma HappenKeepsPinned(w: World, t: nat, e: Event, d: nat)
    requires Pinned(w, d)
    ensures Pinned(Happen(w, t, e), d)
  {
    hide VoidPending, MakeOffers, SetOffer, AnyOffered, AnyPending, IsPending;
  }

  lemma {:induction false} PinnedStays(w: World, schedule: seq<(nat, Event)>, d: nat)
    requires Pinned(w, d)
    ensures Pinned(RunAll(w, schedule), d)
    decreases |schedule|
  {
    if schedule != [] {
      var n := |schedule| - 1;
      PinnedStays(w, schedule[..n], d);
      HappenKeepsPinned(RunAll(w, schedule[..n]), schedule[n].0, schedule[n].1, d);
      hide Pinned, Happen;
    }
  }

  /** Some schedule takes the booking from driver d. */
  ghost predicate CanLose(w: World, d: nat) {
    exists schedule: seq<(nat, Event)> :: RunAll(w, schedule).rows.driver != Some(d)
  }

  /** What one event makes possible was possible before it. */
  lemma CanLoseAfter(w: World, t: nat, e: Event, d: nat)
    requires CanLose(Happen(w, t, e), d)
    ensures CanLose(w, d)
  {
    var rest: seq<(nat, Event)> :| RunAll(Happen(w, t, e), rest).rows.driver != Some(d);
    RunPrepend(w, t, e, rest);
    hide Happen;
  }

  lemma {:induction false} RunPrepend(w: World, t: nat, e: Event, rest: seq<(nat, Event)>)
    ensures RunAll(w, [(t, e)] + rest) == RunAll(Happen(w, t, e), rest)
    decreases |rest|
  {
    hide Happen;
    if rest == [] {
      assert [(t, e)] + rest == [(t, e)] && [(t, e)][..0] == [];
      assert RunAll(w, []) == w;
    } else {
      var n := |rest| - 1;
      assert ([(t, e)] + rest)[..n + 1] == [(t, e)] + rest[..n];
      RunPrepend(w, t, e, rest[..n]);
    }
  }

  lemma LostAlready(w: World, d: nat)
    requires w.rows.driver != Some(d)
    ensures CanLose(w, d)
  {
    assert RunAll(w, []) == w;
  }

  lemma {:induction false} SomeFreshCall(used: set<nat>) returns (t: nat)
    ensures forall u <- used :: u < t
    decreases used
  {
    t := 0;
    if used != {} {
      var u :| u in used;
      var rest := SomeFreshCall(used - {u});
      t := if rest > u then rest else u + 1;
      assert forall v <- used :: v == u || v in used - {u};
    }
  }

  /** An admin may assign somebody else whenever the status allows it. */
  lemma AssignableCanLose(w: World, d: nat)
    requires Assignable(w.rows.status)
    ensures CanLose(w, d)
  {
    var t := SomeFreshCall(w.calls.Keys);
    var first := Happen(w, t, Begin(AssignRead(d + 1)));
    var second := Happen(first, t, Run(true));
    var third := Happen(second, t, Run(true));
    LostAlready(Happen(third, t, Run(true)), d);
    CanLoseAfter(third, t, Run(true), d);
    CanLoseAfter(second, t, Run(true), d);
    CanLoseAfter(first, t, Run(true), d);
    CanLoseAfter(w, t, Begin(AssignRead(d + 1)), d);
    hide CanLose, VoidPending, RunAll;
  }

  /** A delivery booked for later is released, and then may be assigned. */
  lemma ScheduledCanLose(w: World, d: nat)
    requires w.rows.status.Scheduled?
    ensures CanLose(w, d)
  {
    var t := SomeFreshCall(w.calls.Keys);
    var begun := Happen(w, t, Begin(Release([])));
    AssignableCanLose(Happen(begun, t, Run(true)), d);
    CanLoseAfter(begun, t, Run(true), d);
    CanLoseAfter(w, t, Begin(Release([])), d);
    hide CanLose, RunAll;
  }

  lemma DisplacingCanLose(w: World, t: nat, d: nat)
    requires t in w.calls && Displaces(w.calls[t], d)
    ensures CanLose(w, d)
  {
    var next := Happen(w, t, Run(true));
    if w.calls[t].StartWrite? {
      AssignableCanLose(next, d);
    } else if w.calls[t].AssignWrite? {
      LostAlready(next, d);
    } else {
      LostAlready(Happen(next, t, Run(true)), d);
      CanLoseAfter(next, t, Run(true), d);
    }
    CanLoseAfter(w, t, Run(true), d);
    hide CanLose, VoidPending, RunAll;
  }

  lemma UnpinnedCanLose(w: World, d: nat)
    requires Assignable(w.rows.status) || w.rows.status.Scheduled? || exists t <- w.calls :: Displaces(w.calls[t], d)
    ensures CanLose(w, d)
  {
    if Assignable(w.rows.status) {
      AssignableCanLose(w, d);
    } else if w.rows.status.Scheduled? {
      ScheduledCanLose(w, d);
    } else {
      var t :| t in w.calls && Displaces(w.calls[t], d);
      DisplacingCanLose(w, t, d);
    }
  }

  /**
   A driver can lose the booking under some schedule iff its status may still be assigned or is yet to be
   released, or a dispatch start or an assignment of another driver had passed its check; otherwise the
   driver is final.
   */
  lemma DriverIsFinalIff(w: World, d: nat)
    requires w.rows.driver == Some(d) && TripMoves(w)
    ensures CanLose(w, d) <==>
              Assignable(w.rows.status) || w.rows.status.Scheduled? || exists t <- w.calls :: Displaces(w.calls[t], d)
  {
    hide RunAll, Displaces, MoveEnds;
    if Assignable(w.rows.status) || w.rows.status.Scheduled? || exists t <- w.calls :: Displaces(w.calls[t], d) {
      UnpinnedCanLose(w, d);
    } else if CanLose(w, d) {
      var schedule: seq<(nat, Event)> :| RunAll(w, schedule).rows.driver != Some(d);
      PinnedStays(w, schedule, d);
    }
  }

  /** Call 0 offers the booking to driver 7, and call 2 of an admin reads DISPATCHING before call 1 of driver 7 accepts. */
  const EARLY_ASSIGN := [(0, Begin(StartRead([7]))), (0, Run(true)), (0, Run(true)), (0, Run(true)),
                         (2, Begin(AssignRead(8))), (2, Run(true)), (1, Begin(AcceptRead(7)))]

  lemma EarlyOffers()
    ensures RunAll(Fresh(false), EARLY_ASSIGN[..4]) == World(Rows(Dispatching, None, map[7 := Pending]), map[0 := Over])
  {
    hide RunAll, VoidPending, SetOffer;
    var w, s := Fresh(false), EARLY_ASSIGN;
    assert s[..1] == [] + [s[0]] && s[..2] == s[..1] + [s[1]] && s[..3] == s[..2] + [s[2]] && s[..4] == s[..3] + [s[3]];
    RunNothing(w);
    RunAppend(w, [], 0, s[0].1);
    RunAppend(w, s[..1], 0, Run(true));
    RunAppend(w, s[..2], 0, Run(true));
    assert RunAll(w, s[..3]) == World(Rows(Dispatching, None, map[]), map[0 := StartOffers([7])]);
    RunAppend(w, s[..3], 0, Run(true));
    OfferToSeven();
  }

  lemma OfferToSeven()
    ensures !AnyOffered(map[], [7]) && MakeOffers(map[], [7]) == map[7 := Pending]
  {}

  lemma EarlyAssign()
    ensures RunAll(Fresh(false), EARLY_ASSIGN)
         == World(Rows(Dispatching, None, map[7 := Pending]), map[0 := Over, 2 := AssignVoid(8, Dispatching), 1 := AcceptRead(7)])
  {
    hide RunAll, VoidPending, SetOffer, MakeOffers, AnyOffered;
    var w, s := Fresh(false), EARLY_ASSIGN;
    EarlyOffers();
    assert s[..5] == s[..4] + [s[4]] && s[..6] == s[..5] + [s[5]] && s == s[..6] + [s[6]];
    RunAppend(w, s[..4], 2, s[4].1);
    RunAppend(w, s[..5], 2, Run(true));
    RunAppend(w, s[..6], 1, s[6].1);
  }

  lemma RunNothing(w: World)
    ensures RunAll(w, []) == w
  {}

  /** One more statement of each call named, in order. */
  function Steps(calls: seq<nat>): seq<(nat, Event)> {
    seq(|calls|, i requires 0 <= i < |calls| => (calls[i], Run(true)))
  }

  lemma StepsAppend(w: World, schedule: seq<(nat, Event)>, calls: seq<nat>, t: nat)
    ensures RunAll(w, schedule + Steps(calls + [t])) == Happen(RunAll(w, schedule + Steps(calls)), t, Run(true))
  {
    assert schedule + Steps(calls + [t]) == (schedule + Steps(calls)) + [(t, Run(true))];
    RunAppend(w, schedule + Steps(calls), t, Run(true));
    hide Happen, RunAll;
  }

  /** Check, cap and claim. */
  lemma DriverClaims()
    ensures RunAll(Fresh(false), EARLY_ASSIGN + Steps([1, 1, 1]))
         == World(Rows(Accepted, Some(7), map[7 := Pending]), map[0 := Over, 2 := AssignVoid(8, Dispatching), 1 := AcceptWon(7)])
  {
    hide RunAll, Steps, VoidPending, SetOffer, MakeOffers, AnyOffered, AnyPending;
    var w, s := Fresh(false), EARLY_ASSIGN;
    EarlyAssign();
    NoSteps(s);
    assert [] + [1] == [1] && [1] + [1] == [1, 1] && [1, 1] + [1] == [1, 1, 1];
    StepsAppend(w, s, [], 1);
    StepsAppend(w, s, [1], 1);
    StepsAppend(w, s, [1, 1], 1);
  }

  lemma DriverAccepts()
    ensures var w := RunAll(Fresh(false), EARLY_ASSIGN + Steps([1, 1, 1, 1, 1]));
            && w.rows.status == Accepted && w.rows.driver == Some(7)
            && w.calls == map[0 := Over, 2 := AssignVoid(8, Dispatching), 1 := AcceptDone(7)]
  {
    hide RunAll, Steps, VoidPending, SetOffer, MakeOffers, AnyOffered, AnyPending;
    var w, s := Fresh(false), EARLY_ASSIGN;
    DriverClaims();
    assert [1, 1, 1] + [1] == [1, 1, 1, 1] && [1, 1, 1, 1] + [1] == [1, 1, 1, 1, 1];
    StepsAppend(w, s, [1, 1, 1], 1);
    StepsAppend(w, s, [1, 1, 1, 1], 1);
  }

  lemma NoSteps(schedule: seq<(nat, Event)>)
    ensures schedule + Steps([]) == schedule
  {}

  /**
   The driver's acceptOffer succeeds from its check to its end; then the admin's assignment, which had only
   read the old status, still takes its two statements, and the booking has another driver.
   */
  lemma AdminReplacesDriver()
    ensures var accepted := RunAll(Fresh(false), EARLY_ASSIGN + Steps([1, 1, 1, 1, 1]));
            var replaced := RunAll(Fresh(false), EARLY_ASSIGN + Steps([1, 1, 1, 1, 1, 2, 2]));
            && accepted.rows.driver == Some(7) && 1 in accepted.calls && accepted.calls[1] == AcceptDone(7)
            && replaced.rows.driver == Some(8) && 1 in replaced.calls && Won(replaced.calls[1])
  {
    hide RunAll, Steps;
    var w, s := Fresh(false), EARLY_ASSIGN;
    DriverAccepts();
    assert [1, 1, 1, 1, 1] + [2] == [1, 1, 1, 1, 1, 2] && [1, 1, 1, 1, 1, 2] + [2] == [1, 1, 1, 1, 1, 2, 2];
    StepsAppend(w, s, [1, 1, 1, 1, 1], 2);
    StepsAppend(w, s, [1, 1, 1, 1, 1, 2], 2);
    hide VoidPending, SetOffer, MakeOffers;
  }

  // ---------------------------------------------------------------- when a cancellation is not

  lemma RunAppend(w: World, schedule: seq<(nat, Event)>, t: nat, e: Event)
    ensures RunAll(w, schedule + [(t, e)]) == Happen(RunAll(w, schedule), t, e)
  {
    assert (schedule + [(t, e)])[..|schedule|] == schedule;
  }

  /** Call 0 has read REQUESTED and not yet written when call 1 comes to cancel. */
  const LATE_START := [(0, Begin(StartRead([7]))), (0, Run(true)), (1, Begin(CancelRead))]

  lemma LateStart()
    ensures RunAll(Fresh(false), LATE_START) == World(Fresh(false).rows, map[0 := StartWrite([7]), 1 := CancelRead])
  {
    var first, second := [LATE_START[0]], [LATE_START[0], LATE_START[1]];
    assert [] + first == first && first + [LATE_START[1]] == second && second + [LATE_START[2]] == LATE_START;
    RunAppend(Fresh(false), [], 0, LATE_START[0].1);
    RunAppend(Fresh(false), first, 0, Run(true));
    RunAppend(Fresh(false), second, 1, Begin(CancelRead));
  }

  lemma LateCancel()
    ensures var w := RunAll(Fresh(false), LATE_START + [(1, Run(true))] + [(1, Run(true))] + [(1, Run(true))]);
            w.rows.status == Cancelled && 0 in w.calls && w.calls[0] == StartWrite([7])
  {
    hide VoidPending, MakeOffers, SetOffer, AnyOffered, AnyPending, IsPending, RunAll;
    var w, step := Fresh(false), (1, Run(true));
    LateStart();
    RunAppend(w, LATE_START, 1, Run(true));
    RunAppend(w, LATE_START + [step], 1, Run(true));
    RunAppend(w, LATE_START + [step] + [step], 1, Run(true));
  }

  /** The cancellation runs to its end; then the first call's write still happens, and the ride dispatches again. */
  lemma CancelledRideDispatchesAgain()
    ensures var cancelled := LATE_START + [(1, Run(true))] + [(1, Run(true))] + [(1, Run(true))];
            && RunAll(Fresh(false), cancelled).rows.status == Cancelled
            && RunAll(Fresh(false), cancelled + [(0, Run(true))]).rows.status == Dispatching
  {
    hide RunAll;
    LateCancel();
    RunAppend(Fresh(false), LATE_START + [(1, Run(true))] + [(1, Run(true))] + [(1, Run(true))], 0, Run(true));
  }
}
