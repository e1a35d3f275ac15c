/**
 What every operation on a booking does, and who may ask for it: an operation run alone does what its statements
 do one after the other, a refused one does nothing, and a ride or delivery that nobody cancels gets to its end.
 */
module BookingProgress {
  import opened Option
  import opened Bookings
  import opened BookingSpec
  import opened BookingSafety
  import opened BookingCharges
  import opened BookingMoney
  import opened Drift
  import opened Money
  import BookingRace
  import Ledger
  import TopUps
  import WalletSpec

  // ---------------------------------------------------------------- an operation is its statements

  /** The call of BookingRace that an operation makes; edits, proof, disputes and other operations touch no rows. */
  function CallOf(b: Booking, a: Action): Option<BookingRace.Call> {
    match a
    case Release(cs) => Some(BookingRace.Release(cs))
    case StartDispatch(cs) => Some(BookingRace.StartRead(cs))
    case AcceptOffer(d, _, _) => Some(BookingRace.AcceptRead(d))
    case DeclineOffer(d) => Some(BookingRace.DeclineRead(d))
    case ExpireRound => Some(BookingRace.TimerRead)
    case Cancel(_, _) => Some(BookingRace.CancelRead)
    case MarkArrived(d) => Some(BookingRace.MoveRead(d, Accepted, Arrived))
    case StartTrip(d) => Some(BookingRace.MoveRead(d, Arrived, InProgress))
    case ConfirmPickup(d) => Some(BookingRace.MoveRead(d, Accepted, PickedUp))
    case Complete(d, _) => Some(BookingRace.MoveRead(d, if b.terms.service.Ride? then InProgress else PickedUp, Completed))
    case AssignDriver(d) => Some(BookingRace.AssignRead(d))
    case _ => None
  }

  /** The rows after the next n statements of a call that nothing interrupts, and where it stands then. */
  function Uninterrupted(r: Rows, c: BookingRace.Call, yes: bool, n: nat): (Rows, BookingRace.Call)
    decreases n
  {
    if n == 0 then (r, c) else Uninterrupted(BookingRace.Write(r, c), BookingRace.Next(r, c, yes), yes, n - 1)
  }

  /** No call is longer. */
  const LONGEST: nat := 5

  lemma MoveIsStatements(r: Rows, d: nat, from: Status, to: Status, yes: bool)
    ensures Uninterrupted(r, BookingRace.MoveRead(d, from, to), yes, LONGEST)
         == (if yes then Move(r, d, from, to).0 else r, BookingRace.Over)
  {}

  lemma DispatchIsStatements(r: Rows, cs: seq<nat>, yes: bool)
    ensures Uninterrupted(r, BookingRace.StartRead(cs), yes, LONGEST) == (DispatchRows(r, cs).0, BookingRace.Over)
  {
    hide MakeOffers, AnyOffered;
  }

  lemma ReleaseIsStatements(r: Rows, cs: seq<nat>, yes: bool)
    ensures Uninterrupted(r, BookingRace.Release(cs), yes, LONGEST)
         == (if r.status.Scheduled? then DispatchRows(r.(status := Requested), cs).0 else r, BookingRace.Over)
  {
    hide MakeOffers, AnyOffered;
  }

  lemma AcceptIsStatements(r: Rows, d: nat, yes: bool)
    requires IsPending(r.offers, d) ==> Claimable(r)
    ensures var (after, end) := Uninterrupted(r, BookingRace.AcceptRead(d), yes, LONGEST);
            after == (if yes then AcceptRows(r, d, true, false).0 else r) && (end == BookingRace.Over || end == BookingRace.AcceptDone(d))
  {
    hide VoidPending, SetOffer;
  }

  lemma DeclineIsStatements(r: Rows, d: nat, yes: bool)
    ensures Uninterrupted(r, BookingRace.DeclineRead(d), yes, LONGEST) == (DeclineRows(r, d).0, BookingRace.Over)
  {
    hide AnyPending, SetOffer;
  }

  lemma ExpiryIsStatements(r: Rows, yes: bool)
    ensures Uninterrupted(r, BookingRace.TimerRead, yes, LONGEST) == (ExpireRows(r), BookingRace.Over)
  {
    hide VoidPending;
  }

  lemma CancellingIsStatements(r: Rows, yes: bool)
    ensures Uninterrupted(r, BookingRace.CancelRead, yes, LONGEST)
         == (if BookingRace.Cancellable(r.status) && yes then CancelRows(r) else r, BookingRace.Over)
  {
    hide VoidPending;
  }

  lemma AssigningIsStatements(r: Rows, d: nat, yes: bool)
    ensures Uninterrupted(r, BookingRace.AssignRead(d), yes, LONGEST)
         == (if Assignable(r.status) then AssignRows(r, d) else r, BookingRace.Over)
  {
    hide VoidPending;
  }

  /** The service has such an operation. */
  predicate Offers(service: Service, a: Action) {
    if service.Ride? then !OnlyForDeliveries(a) else !OnlyForRides(a)
  }

  /**
   Run alone, an operation leaves the rows as its statements do in BookingRace, one after the other, when the answer to
   everything the rows do not say is whether it goes through.
   */
  lemma OperationIsItsStatements(s: State, a: Action)
    requires RowsSound(s.booking.rows) && TripSound(s.booking) && CallOf(s.booking, a).Some? && Offers(s.booking.terms.service, a)
    ensures var (after, end) := Uninterrupted(s.booking.rows, CallOf(s.booking, a).value, Act(s, a).1.None?, LONGEST);
            after == Act(s, a).0.booking.rows && (end.Over? || end.AcceptDone?)
  {
    var r, yes := s.booking.rows, Act(s, a).1.None?;
    hide Uninterrupted, WalletSpec.Step, VoidPending, MakeOffers, SetOffer, AnyOffered, FareOp, FeeOp, CommissionOf;
    match a
    case Release(cs) => ReleaseIsStatements(r, cs, yes);
    case StartDispatch(cs) => DispatchIsStatements(r, cs, yes);
    case AcceptOffer(d, live, cap) =>
      AcceptIsStatements(r, d, yes);
      AcceptKeepsRows(r, d, live, Capped(s, d, cap));
    case DeclineOffer(d) => DeclineIsStatements(r, d, yes);
    case ExpireRound => ExpiryIsStatements(r, yes);
    case Cancel(_, _) => CancellingIsStatements(r, yes);
    case MarkArrived(d) => MoveIsStatements(r, d, Accepted, Arrived, yes);
    case StartTrip(d) => MoveIsStatements(r, d, Arrived, InProgress, yes);
    case ConfirmPickup(d) => MoveIsStatements(r, d, Accepted, PickedUp, yes);
    case Complete(d, _) => MoveIsStatements(r, d, if s.booking.terms.service.Ride? then InProgress else PickedUp, Completed, yes);
    case AssignDriver(d) => AssigningIsStatements(r, d, yes);
  }

  // ---------------------------------------------------------------- who may ask

  /** The booking's driver for the trip, the customer for the route, either to cancel, and an offer's driver to answer it. */
  predicate MayAsk(b: Booking, a: Action) {
    match a
    case AcceptOffer(d, _, _) => d in b.rows.offers
    case DeclineOffer(d) => d in b.rows.offers
    case Cancel(user, _) => user == b.terms.customer || b.rows.driver == Some(user)
    case MarkArrived(d) => b.rows.driver == Some(d)
    case StartTrip(d) => b.rows.driver == Some(d)
    case ConfirmPickup(d) => b.rows.driver == Some(d)
    case Milestone(d, _) => b.rows.driver == Some(d)
    case SubmitProof(d, _) => b.rows.driver == Some(d)
    case Complete(d, _) => b.rows.driver == Some(d)
    case UpdateStops(user, _, _) => user == b.terms.customer
    case _ => true
  }

  /** Nobody else gets anywhere, and neither service has the other's operations. */
  lemma StrangersChangeNothing(s: State, a: Action)
    requires !MayAsk(s.booking, a) || !Offers(s.booking.terms.service, a)
    ensures Act(s, a).0 == s && Act(s, a).1.Some?
  {
    hide WalletSpec.Step, VoidPending, MakeOffers, SetOffer, AnyOffered, AnyPending, FareOp, FeeOp, CommissionOf, Capped;
  }

  // ---------------------------------------------------------------- what the edits do

  /** The customer may reprice until a driver has accepted. */
  lemma StopsAreEditableIff(s: State, user: nat, fare: real, tax: real)
    requires s.booking.terms.service.Delivery?
    ensures var (t, refusal) := Act(s, UpdateStops(user, fare, tax));
            && (refusal.None? <==> user == s.booking.terms.customer && Rank(s.booking.rows.status) <= Rank(Dispatching))
            && t == if refusal.None? then s.(booking := s.booking.(fare := fare, tax := tax)) else s
  {}

  /** The driver reports the pickup before it and the drop-off after it, and proof of delivery must be valid. */
  lemma ReportsSucceedIff(s: State, driver: nat, flag: bool)
    requires s.booking.terms.service.Delivery? && s.booking.rows.driver == Some(driver)
    ensures var (t, refusal) := Act(s, Milestone(driver, flag));
            && (refusal.None? <==> s.booking.rows.status == if flag then PickedUp else Accepted)
            && t.books == s.books && t.booking == s.booking.(atPickup := t.booking.atPickup, atDropoff := t.booking.atDropoff)
            && (t.booking.atPickup <==> s.booking.atPickup || (refusal.None? && !flag))
            && (t.booking.atDropoff <==> s.booking.atDropoff || (refusal.None? && flag))
    ensures var (t, refusal) := Act(s, SubmitProof(driver, flag));
            && (refusal.None? <==> s.booking.rows.status == PickedUp && flag)
            && t == s.(booking := s.booking.(proof := s.booking.proof || refusal.None?))
  {}

  // ---------------------------------------------------------------- what becomes of the offers

  /** A dispatch offers the booking to every candidate and to nobody else. */
  lemma DispatchOffersAll(s: State, candidates: seq<nat>)
    requires RowsSound(s.booking.rows) && s.booking.rows.status == Requested
    ensures var (t, refusal) := Act(s, StartDispatch(candidates));
            && refusal.None? && t.books == s.books
            && t.booking.rows.status == (if candidates == [] then NoDriversFound else Dispatching)
            && (forall e: nat :: e in t.booking.rows.offers <==> e in candidates)
            && (forall e <- candidates :: t.booking.rows.offers[e] == Pending)
  {}

  /** Whoever accepts takes the booking, and every other offer still open expires. */
  lemma AcceptTakes(s: State, driver: nat, live: bool, cap: nat)
    requires RowsSound(s.booking.rows) && Act(s, AcceptOffer(driver, live, cap)).1.None?
    ensures var t := Act(s, AcceptOffer(driver, live, cap)).0;
            var before, after := s.booking.rows.offers, t.booking.rows.offers;
            && t.booking.rows.status == Accepted && t.booking.rows.driver == Some(driver)
            && after.Keys == before.Keys && driver in before
            && (forall e <- before :: after[e] == if e == driver then Taken else if before[e] == Pending then Expired else before[e])
  {
    AcceptKeepsRows(s.booking.rows, driver, live, Capped(s, driver, cap));
  }

  /** Who declines an open offer is out; with nobody left the round ends without a driver. */
  lemma DeclineIsOut(s: State, driver: nat)
    requires RowsSound(s.booking.rows) && driver in s.booking.rows.offers && s.booking.rows.offers[driver] == Pending
    ensures var (t, refusal) := Act(s, DeclineOffer(driver));
            var before, after := s.booking.rows, t.booking.rows;
            && refusal.None? && after.offers == before.offers[driver := Declined] && after.driver == before.driver
            && after.status == if exists e <- before.offers :: e != driver && before.offers[e] == Pending then before.status else NoDriversFound
  {
    var before := s.booking.rows;
    var offers := before.offers[driver := Declined];
    if AnyPending(offers) {
      var e :| e in offers && offers[e] == Pending;
      assert e in before.offers && e != driver && before.offers[e] == Pending;
    }
    if e :| e in before.offers && e != driver && before.offers[e] == Pending {
      assert e in offers && offers[e] == Pending;
    }
  }

  /** When the time is up every open offer expires, and the round ends without a driver. */
  lemma ExpiryEndsRound(s: State)
    ensures var t := Act(s, ExpireRound).0;
            var before, after := s.booking.rows, t.booking.rows;
            && (before.status != Dispatching ==> t == s)
            && (before.status == Dispatching ==>
                  && after.status == NoDriversFound && after.driver == before.driver && after.offers.Keys == before.offers.Keys
                  && forall e <- before.offers :: after.offers[e] == if before.offers[e] == Pending then Expired else before.offers[e])
  {}

  /** An admin assigns only what has no driver yet, and then voids the open offers. */
  lemma AssignmentIs(s: State, driver: nat)
    requires s.booking.terms.service.Delivery? && RowsSound(s.booking.rows)
    ensures var (t, refusal) := Act(s, AssignDriver(driver));
            var before, after := s.booking.rows, t.booking.rows;
            && (refusal.None? <==> before.status == Requested || before.status == Dispatching || before.status == NoDriversFound)
            && (refusal.Some? ==> t == s)
            && (refusal.None? ==>
                  && after.status == Accepted && after.driver == Some(driver) && after.offers.Keys == before.offers.Keys
                  && forall e <- before.offers :: after.offers[e] == if before.offers[e] == Pending then Expired else before.offers[e])
  {}

  // ---------------------------------------------------------------- getting there

  /** From a new booking to its end, when the driver takes the first offer and nobody cancels. */
  function Journey(b: Booking, candidates: seq<nat>, driver: nat, cap: nat, rate: real): seq<Action> {
    if b.terms.service.Ride? then
      [StartDispatch(candidates), AcceptOffer(driver, true, cap), MarkArrived(driver), StartTrip(driver), Complete(driver, Some(rate))]
    else
      [if b.rows.status.Scheduled? then Release(candidates) else StartDispatch(candidates), AcceptOffer(driver, true, cap),
       ConfirmPickup(driver), SubmitProof(driver, true), Complete(driver, Some(rate))]
  }

  /** Every operation of the run goes through. */
  predicate Smooth(s: State, actions: seq<Action>)
    decreases |actions|
  {
    actions != [] ==> Act(s, actions[0]).1.None? && Smooth(Act(s, actions[0]).0, actions[1..])
  }

  function After(s: State, actions: seq<Action>): State
    decreases |actions|
  {
    if actions == [] then s else After(Act(s, actions[0]).0, actions[1..])
  }

  lemma {:induction false} AfterIsRun(s: State, actions: seq<Action>)
    ensures After(s, actions) == RunActions(s, actions)
    decreases |actions|
  {
    if actions == [] {
    } else if |actions| == 1 {
      assert actions[..0] == [] && actions[1..] == [] && actions == [actions[0]];
      assert RunActions(s, actions) == Act(RunActions(s, []), actions[0]).0;
    } else {
      var n := |actions| - 1;
      AfterIsRun(Act(s, actions[0]).0, actions[1..]);
      AfterIsRun(s, actions[..n]);
      AfterIsRun(Act(s, actions[0]).0, actions[1..n]);
      assert actions[..n][1..] == actions[1..n] && actions[1..][..n - 1] == actions[1..n] && actions[..n][0] == actions[0];
      assert actions[1..][n - 1] == actions[n];
    }
    hide Act;
  }

  /** The driver has the booking and the trip is about to be completed; nothing has been posted. */
  ghost predicate Ready(s: State, t: State, driver: nat) {
    t.books == s.books && t.booking.terms == s.booking.terms && t.booking.fare == s.booking.fare && t.booking.tax == s.booking.tax
    && t.booking.rows.driver == Some(driver)
    && t.booking.rows.status == (if s.booking.terms.service.Ride? then InProgress else PickedUp)
    && (s.booking.terms.service.Delivery? ==> t.booking.proof)
  }

  /** The four operations before completion, one by one. */
  lemma FourSteps(s: State, candidates: seq<nat>, driver: nat, cap: nat, rate: real)
    requires Fresh(s) && driver in candidates
    requires s.booking.rows.status == Requested || (s.booking.rows.status == Scheduled && s.booking.terms.service.Delivery?)
    requires s.booking.terms.paidBy.Cash? ==> (if driver in s.books.cashTrips then s.books.cashTrips[driver] else 0) < cap
    ensures var way := Journey(s.booking, candidates, driver, cap, rate);
            var (s1, r1) := Act(s, way[0]);
            var (s2, r2) := Act(s1, way[1]);
            var (s3, r3) := Act(s2, way[2]);
            var (s4, r4) := Act(s3, way[3]);
            r1.None? && r2.None? && r3.None? && r4.None? && Ready(s, s4, driver)
  {
    var way := Journey(s.booking, candidates, driver, cap, rate);
    FirstStep(s, way[0], candidates);
    var s1 := Act(s, way[0]).0;
    assert IsPending(s1.booking.rows.offers, driver);
    TakeStep(s1, driver, cap);
    DriveSteps(s, Act(s1, way[1]).0, driver);
    hide Act, MakeOffers, Fresh, Ready;
  }

  /** From an accepted booking to the end of the trip. */
  lemma DriveSteps(s: State, t: State, driver: nat)
    requires t == s.(booking := s.booking.(rows := t.booking.rows))
    requires t.booking.rows.status == Accepted && t.booking.rows.driver == Some(driver)
    ensures var (mid, r3) := Act(t, if s.booking.terms.service.Ride? then MarkArrived(driver) else ConfirmPickup(driver));
            var (end, r4) := Act(mid, if s.booking.terms.service.Ride? then StartTrip(driver) else SubmitProof(driver, true));
            r3.None? && r4.None? && Ready(s, end, driver)
  {}

  lemma TakeStep(s: State, driver: nat, cap: nat)
    requires IsPending(s.booking.rows.offers, driver) && Claimable(s.booking.rows) && !Capped(s, driver, cap)
    ensures var (t, refusal) := Act(s, AcceptOffer(driver, true, cap));
            && refusal.None? && t == s.(booking := s.booking.(rows := t.booking.rows))
            && t.booking.rows.status == Accepted && t.booking.rows.driver == Some(driver)
  {
    hide VoidPending, SetOffer;
  }

  lemma JourneyIsReady(s: State, candidates: seq<nat>, driver: nat, cap: nat, rate: real)
    requires Fresh(s) && driver in candidates
    requires s.booking.rows.status == Requested || (s.booking.rows.status == Scheduled && s.booking.terms.service.Delivery?)
    requires s.booking.terms.paidBy.Cash? ==> (if driver in s.books.cashTrips then s.books.cashTrips[driver] else 0) < cap
    ensures var way := Journey(s.booking, candidates, driver, cap, rate);
            && Smooth(s, way[..4]) && Ready(s, After(s, way[..4]), driver)
  {
    FourSteps(s, candidates, driver, cap, rate);
    var way := Journey(s.booking, candidates, driver, cap, rate);
    hide Act, Ready, Fresh, Journey;
    Unrolled(s, way);
  }

  lemma Unrolled(s: State, way: seq<Action>)
    requires |way| >= 4
    ensures var (s1, r1) := Act(s, way[0]);
            var (s2, r2) := Act(s1, way[1]);
            var (s3, r3) := Act(s2, way[2]);
            var (s4, r4) := Act(s3, way[3]);
            After(s, way[..4]) == s4 && (r1.None? && r2.None? && r3.None? && r4.None? ==> Smooth(s, way[..4]))
  {
    hide Act;
    var s1 := Act(s, way[0]).0;
    var s2 := Act(s1, way[1]).0;
    var s3 := Act(s2, way[2]).0;
    assert way[..4][1..] == way[1..4] && way[1..4][1..] == way[2..4] && way[2..4][1..] == way[3..4] && way[3..4][1..] == [];
    assert After(s3, way[3..4]) == Act(s3, way[3]).0 && After(s2, way[2..4]) == After(s3, way[3..4]);
    assert After(s1, way[1..4]) == After(s2, way[2..4]);
    assert Smooth(s3, way[3..4]) <==> Act(s3, way[3]).1.None?;
    assert Smooth(s2, way[2..4]) <==> Act(s2, way[2]).1.None? && Smooth(s3, way[3..4]);
    assert Smooth(s1, way[1..4]) <==> Act(s1, way[1]).1.None? && Smooth(s2, way[2..4]);
  }

  lemma FirstStep(s: State, a: Action, candidates: seq<nat>)
    requires Fresh(s) && candidates != []
    requires if s.booking.rows.status == Scheduled then s.booking.terms.service.Delivery? && a == Release(candidates)
             else s.booking.rows.status == Requested && a == StartDispatch(candidates)
    ensures Act(s, a).1.None? && Act(s, a).0 == s.(booking := s.booking.(rows := Rows(Dispatching, None, MakeOffers(map[], candidates))))
  {}

  /**
   A booking whose driver may take it and whose customer can pay goes from dispatch to its end with every operation
   going through, and then everyone has exactly what a completion owes them.
   */
  lemma JourneysEnd(s: State, candidates: seq<nat>, driver: nat, cap: nat, rate: real)
    requires Fresh(s) && driver in candidates
    requires s.booking.rows.status == Requested || (s.booking.rows.status == Scheduled && s.booking.terms.service.Delivery?)
    requires Ledger.Sturdy(s.books.ledger) && TopUps.Seeded(s.books.ledger) && PricedFare(s.booking.fare, s.booking.tax) && IsRate(rate)
    requires s.booking.terms.paidBy.Cash? ==> (if driver in s.books.cashTrips then s.books.cashTrips[driver] else 0) < cap
    requires s.booking.terms.paidBy.Wallet? ==>
               BalanceOf(s.books.ledger.balances, Ledger.Owned(s.booking.terms.customer, Ledger.RiderWallet)) as real >= s.booking.fare
    ensures var way := Journey(s.booking, candidates, driver, cap, rate);
            var t := RunActions(s, way);
            && Smooth(s, way) && t.booking.rows.status == Completed && t.booking.rows.driver == Some(driver)
            && CompletionShared(s.booking.terms, s.booking.fare, s.booking.tax, driver, rate, s.books.ledger, t.books.ledger)
  {
    hide Act, Smooth, After, CompletionShared, Ledger.Sturdy, TopUps.Seeded, BalanceOf;
    var way := Journey(s.booking, candidates, driver, cap, rate);
    var ready := After(s, way[..4]);
    JourneyIsReady(s, candidates, driver, cap, rate);
    assert way[4] == Complete(driver, Some(rate)) && |way| == 5;
    assert Uncharged(ready);
    hide Journey, Fresh, Uncharged;
    ReadyCompletes(s, ready, driver, rate);
    AfterIsRun(s, way[..4]);
    SmoothOnward(s, way);
  }

  lemma ReadyCompletes(s: State, t: State, driver: nat, rate: real)
    requires Ready(s, t, driver) && Uncharged(t)
    requires Ledger.Sturdy(s.books.ledger) && TopUps.Seeded(s.books.ledger) && PricedFare(s.booking.fare, s.booking.tax) && IsRate(rate)
    requires s.booking.terms.paidBy.Wallet? ==>
               BalanceOf(s.books.ledger.balances, Ledger.Owned(s.booking.terms.customer, Ledger.RiderWallet)) as real >= s.booking.fare
    ensures var (end, refusal) := Act(t, Complete(driver, Some(rate)));
            && refusal.None? && end.booking.rows.status == Completed && end.booking.rows.driver == Some(driver)
            && CompletionShared(s.booking.terms, s.booking.fare, s.booking.tax, driver, rate, s.books.ledger, end.books.ledger)
  {
    hide Act, CompletionShared, Ledger.Sturdy, TopUps.Seeded, BalanceOf, Uncharged, Moved;
    CompletionSucceedsIff(t, driver, rate);
    CompletionPays(t, driver, rate);
  }

  lemma {:induction false} SmoothOnward(s: State, actions: seq<Action>)
    requires actions != []
    ensures var n := |actions| - 1;
            Smooth(s, actions) <==> Smooth(s, actions[..n]) && Act(After(s, actions[..n]), actions[n]).1.None?
    decreases |actions|
  {
    var n := |actions| - 1;
    if n == 0 {
      assert actions[1..] == [];
    } else {
      SmoothOnward(Act(s, actions[0]).0, actions[1..]);
      assert actions[1..][..n - 1] == actions[..n][1..];
    }
    hide Act;
  }
}
