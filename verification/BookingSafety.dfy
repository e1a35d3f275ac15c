/**
 What every run of operations on one booking keeps: it is DISPATCHING exactly while an offer is pending,
 its driver is set once, its status only climbs, and it is charged once.
 */
module BookingSafety {
  import opened Option
  import opened Bookings
  import opened BookingSpec
  import opened WalletSpec
  import Ledger
  import Transfers

  /** How far a booking has got. Every change of status goes up. */
  function Rank(s: Status): nat {
    match s
    case Scheduled => 0
    case Requested => 1
    case Dispatching => 2
    case NoDriversFound => 3
    case Accepted => 4
    case Arrived => 5
    case PickedUp => 5
    case InProgress => 6
    case Completed => 7
    case Cancelled => 8
  }

  const LAST: nat := 8

  /** Another wallet operation never uses this booking's references: they carry its id. */
  ghost predicate Foreign(t: Terms, a: Action) {
    a.Elsewhere? ==> forall n <- Transfers.Names(a.op) :: n.subject != Subject(t)
  }

  ghost predicate Allowed(t: Terms, actions: seq<Action>) {
    forall a <- actions :: Foreign(t, a)
  }

  // ---------------------------------------------------------------- the invariant

  ghost predicate RowsSound(r: Rows) {
    && (r.status.Dispatching? <==> AnyPending(r.offers))
    && (r.status.Scheduled? || r.status.Requested? ==> r.offers == map[])
    && (Rank(r.status) < Rank(Accepted) ==> r.driver.None?)
    && (HasDriver(r.status) ==> r.driver.Some?)
    && (forall d <- r.offers :: r.offers[d] == Taken ==> r.driver == Some(d))
  }

  /** Each service keeps to its own statuses; a delivery is completed only with proof. */
  ghost predicate TripSound(b: Booking) {
    var s := b.rows.status;
    && (b.terms.service.Ride? ==> !s.Scheduled? && !s.PickedUp?)
    && (b.terms.service.Delivery? ==> !s.Arrived? && !s.InProgress? && (s.Completed? ==> b.proof))
    && (b.proof || b.atDropoff ==> s.PickedUp? || s.Completed?)
    && (b.atPickup ==> b.rows.driver.Some?)
    && (b.transaction.Some? <==> s.Completed? && b.terms.paidBy.Wallet?)
    && (b.fee != 0.0 ==> s.Cancelled? && b.rows.driver.Some?)
  }

  /** The books hold the fare's reference iff the booking completed, and nothing else but a cancellation's fee. */
  ghost predicate ChargeSound(known: map<Ledger.Reference, nat>, b: Booking) {
    var s := b.rows.status;
    && (s.Completed? ==> FareRef(b.terms) in known)
    && (b.fee != 0.0 ==> FeeRef(b.terms) in known)
    && (forall r <- known :: r.subject == Subject(b.terms) ==>
          (s.Completed? && r == FareRef(b.terms)) || (s.Cancelled? && b.rows.driver.Some? && r == FeeRef(b.terms)))
  }

  ghost predicate Sound(s: State) {
    RowsSound(s.booking.rows) && TripSound(s.booking) && ChargeSound(s.books.ledger.byReference, s.booking)
  }

  /** As created: scheduled or requested, with nothing posted for it yet. */
  ghost predicate Fresh(s: State) {
    var b := s.booking;
    && b.rows == Rows(if b.rows.status.Scheduled? && b.terms.service.Delivery? then Scheduled else Requested, None, map[])
    && b.fee == 0.0 && !b.proof && !b.atPickup && !b.atDropoff && b.transaction.None?
    && forall r <- s.books.ledger.byReference :: r.subject != Subject(b.terms)
  }

  lemma FreshIsSound(s: State)
    requires Fresh(s)
    ensures Sound(s)
  {}

  // ---------------------------------------------------------------- rows

  lemma VoidLeavesNone(offers: Offers, except: Option<nat>)
    requires except.Some? ==> !IsPending(offers, except.value)
    ensures !AnyPending(VoidPending(offers, except))
    ensures forall d <- VoidPending(offers, except) :: VoidPending(offers, except)[d] == Taken ==> d in offers && offers[d] == Taken
  {}

  lemma DispatchKeepsRows(r: Rows, candidates: seq<nat>)
    requires RowsSound(r)
    ensures RowsSound(DispatchRows(r, candidates).0) && DispatchRows(r, candidates).1.None?
  {
    if r.status.Requested? && candidates != [] {
      assert candidates[0] in candidates && IsPending(MakeOffers(r.offers, candidates), candidates[0]);
    }
  }

  lemma AcceptKeepsRows(r: Rows, d: nat, live: bool, capped: bool)
    requires RowsSound(r)
    ensures RowsSound(AcceptRows(r, d, live, capped).0)
    ensures AcceptRows(r, d, live, capped).1.None? <==> IsPending(r.offers, d) && live && !capped
    ensures AcceptRows(r, d, live, capped).1.None? ==> AcceptRows(r, d, live, capped).0.driver == Some(d)
    ensures AcceptRows(r, d, live, capped).1.Some? ==> AcceptRows(r, d, live, capped).0 == r
  {
    if IsPending(r.offers, d) {
      VoidLeavesNone(SetOffer(r.offers, d, Taken), Some(d));
    }
  }

  lemma DeclineKeepsRows(r: Rows, d: nat)
    requires RowsSound(r)
    ensures RowsSound(DeclineRows(r, d).0)
  {
    if IsPending(r.offers, d) {
      var offers := SetOffer(r.offers, d, Declined);
      assert r.status.Dispatching?;
      assert forall e <- offers :: offers[e] == Taken ==> r.offers[e] == Taken;
    }
  }

  lemma VoidKeepsRows(r: Rows)
    requires RowsSound(r)
    ensures RowsSound(ExpireRows(r)) && RowsSound(CancelRows(r))
    ensures forall d: nat :: Assignable(r.status) ==> RowsSound(AssignRows(r, d))
  {
    VoidLeavesNone(r.offers, None);
  }

  lemma MoveKeepsRows(r: Rows, d: nat, from: Status, to: Status)
    requires RowsSound(r) && HasDriver(from) && HasDriver(to)
    ensures RowsSound(Move(r, d, from, to).0)
  {}

  lemma ActKeepsRows(s: State, a: Action)
    requires RowsSound(s.booking.rows)
    ensures RowsSound(Act(s, a).0.booking.rows)
  {
    var r := s.booking.rows;
    match a {
      case Release(cs) => if r.status.Scheduled? { DispatchKeepsRows(r.(status := Requested), cs); }
      case StartDispatch(cs) => DispatchKeepsRows(r, cs);
      case AcceptOffer(d, live, cap) => AcceptKeepsRows(r, d, live, Capped(s, d, cap));
      case DeclineOffer(d) => DeclineKeepsRows(r, d);
      case MarkArrived(d) => MoveKeepsRows(r, d, Accepted, Arrived);
      case StartTrip(d) => MoveKeepsRows(r, d, Arrived, InProgress);
      case ConfirmPickup(d) => MoveKeepsRows(r, d, Accepted, PickedUp);
      case Complete(d, _) =>
        MoveKeepsRows(r, d, InProgress, Completed);
        MoveKeepsRows(r, d, PickedUp, Completed);
      case _ => VoidKeepsRows(r);
    }
    hide RowsSound, DispatchRows, AcceptRows, DeclineRows, ExpireRows, CancelRows, AssignRows, Step;
  }

  // ---------------------------------------------------------------- status and driver

  /** A status never changes downwards, and every operation that changes it climbs. */
  lemma StatusOnlyClimbs(s: State, a: Action)
    ensures Act(s, a).0.booking.rows.status != s.booking.rows.status
            ==> Rank(Act(s, a).0.booking.rows.status) > Rank(s.booking.rows.status)
  {
    hide Step, VoidPending, MakeOffers, SetOffer, AnyPending, AnyOffered, Capped;
  }

  lemma DriverStays(s: State, a: Action)
    requires RowsSound(s.booking.rows) && s.booking.rows.driver.Some?
    ensures Act(s, a).0.booking.rows.driver == s.booking.rows.driver
  {
    hide Step, VoidPending, MakeOffers, SetOffer, AnyPending, AnyOffered, Capped;
  }

  lemma TermsStay(s: State, a: Action)
    ensures Act(s, a).0.booking.terms == s.booking.terms
  {
    hide Step, VoidPending, MakeOffers, SetOffer, AnyPending, AnyOffered, Capped;
  }

  lemma {:induction false} TermsStayThroughout(s: State, actions: seq<Action>)
    ensures RunActions(s, actions).booking.terms == s.booking.terms
    decreases |actions|
  {
    if actions != [] {
      TermsStayThroughout(s, actions[..|actions| - 1]);
      TermsStay(RunActions(s, actions[..|actions| - 1]), actions[|actions| - 1]);
    }
  }

  lemma ActKeepsTrip(s: State, a: Action)
    requires RowsSound(s.booking.rows) && TripSound(s.booking)
    ensures TripSound(Act(s, a).0.booking)
  {
    hide Step, VoidPending, MakeOffers, SetOffer, AnyPending, AnyOffered, Capped, RowsSound;
    if s.booking.rows.driver.Some? {
      DriverStays(s, a);
    }
  }

  // ---------------------------------------------------------------- charges

  lemma ChargeSoundByKeys(known: map<Ledger.Reference, nat>, more: map<Ledger.Reference, nat>, b: Booking)
    requires ChargeSound(known, b) && known.Keys <= more.Keys
    requires forall n <- more.Keys - known.Keys :: n.subject != Subject(b.terms)
    ensures ChargeSound(more, b)
  {
    forall r <- more | r.subject == Subject(b.terms)
      ensures r in known
    {
      assert r !in more.Keys - known.Keys;
    }
  }

  lemma CompleteKeepsCharge(s: State, d: nat, rate: Option<real>)
    requires Sound(s)
    ensures ChargeSound(ActComplete(s, d, rate).0.books.ledger.byReference, ActComplete(s, d, rate).0.booking)
  {
    hide Step, CommissionOf, RowsSound;
    if rate.Some? {
      var op := FareOp(s.booking, d, CommissionOf(s.booking.fare, s.booking.tax, rate.value));
      assert !op.RefundTransaction? && !op.PayInvoice? && op.reference == FareRef(s.booking.terms);
      Transfers.StepNames(s.books, op);
    }
  }

  lemma CancelKeepsCharge(s: State, user: nat, charge: Option<Charge>)
    requires Sound(s)
    ensures ChargeSound(ActCancel(s, user, charge).0.books.ledger.byReference, ActCancel(s, user, charge).0.booking)
  {
    hide Step, RowsSound, CancelRows;
    if charge.Some? && s.booking.rows.driver.Some? {
      var op := FeeOp(s.booking, s.booking.rows.driver.value, charge.value);
      assert !op.RefundTransaction? && !op.PayInvoice? && op.reference == FeeRef(s.booking.terms);
      Transfers.StepNames(s.books, op);
    }
    assert CancelRows(s.booking.rows).status.Cancelled? && CancelRows(s.booking.rows).driver == s.booking.rows.driver by {
      CancelledRows(s.booking.rows);
    }
  }

  lemma CancelledRows(r: Rows)
    ensures CancelRows(r).status.Cancelled? && CancelRows(r).driver == r.driver
  {}

  /** Whatever names an operation adds, none is this booking's. */
  lemma OtherNames(books: Books, op: Op, b: Booking)
    requires ChargeSound(books.ledger.byReference, b)
    requires forall n <- Transfers.Names(op) :: n.subject != Subject(b.terms)
    ensures ChargeSound(Step(books, op).0.ledger.byReference, b)
  {
    Transfers.StepGrows(books, op);
    ChargeSoundByKeys(books.ledger.byReference, Step(books, op).0.ledger.byReference, b);
    hide Step, ChargeSound;
  }

  /** The other operations post nothing and leave completion and cancellation alone. */
  lemma OthersKeepCharge(s: State, a: Action)
    requires !a.Complete? && !a.Cancel? && !a.ResolveDispute? && !a.Elsewhere?
    requires RowsSound(s.booking.rows)
    ensures var t := Act(s, a).0;
            && t.books == s.books && t.booking.terms == s.booking.terms && t.booking.fee == s.booking.fee
            && (t.booking.rows.status.Completed? <==> s.booking.rows.status.Completed?)
            && (t.booking.rows.status.Cancelled? <==> s.booking.rows.status.Cancelled?)
  {
    hide Step, VoidPending, MakeOffers, SetOffer, AnyPending, AnyOffered, Capped;
  }

  lemma ActKeepsCharge(s: State, a: Action)
    requires Sound(s) && Foreign(s.booking.terms, a)
    ensures ChargeSound(Act(s, a).0.books.ledger.byReference, Act(s, a).0.booking)
  {
    if a.Complete? {
      CompleteKeepsCharge(s, a.driver, a.rate);
    } else if a.Cancel? {
      CancelKeepsCharge(s, a.user, a.charge);
    } else if a.ResolveDispute? {
      if s.booking.transaction.Some? {
        OtherNames(s.books, RefundTransaction(s.booking.transaction.value), s.booking);
      }
    } else if a.Elsewhere? {
      OtherNames(s.books, a.op, s.booking);
    } else {
      OthersKeepCharge(s, a);
      if s.booking.rows.driver.Some? {
        DriverStays(s, a);
      }
      hide Act, RowsSound, TripSound;
    }
    hide Step, ChargeSound, ActComplete, ActCancel;
  }

  // ---------------------------------------------------------------- over every run

  lemma ActKeepsSound(s: State, a: Action)
    requires Sound(s) && Foreign(s.booking.terms, a)
    ensures Sound(Act(s, a).0)
  {
    ActKeepsRows(s, a);
    ActKeepsTrip(s, a);
    ActKeepsCharge(s, a);
    hide Act, RowsSound, TripSound, ChargeSound;
  }

  /**
   Every run from a fresh booking: DISPATCHING iff some offer is pending (admin assignment, voiding,
   cancellation and the timer included), a driver exactly from ACCEPTED on, and no charge the status does not explain.
   */
  lemma {:induction false} EveryRunIsSound(s: State, actions: seq<Action>)
    requires Fresh(s) && Allowed(s.booking.terms, actions)
    ensures Sound(RunActions(s, actions))
    decreases |actions|
  {
    FreshIsSound(s);
    if actions != [] {
      var n := |actions| - 1;
      assert actions[n] in actions;
      EveryRunIsSound(s, actions[..n]);
      TermsStayThroughout(s, actions[..n]);
      ActKeepsSound(RunActions(s, actions[..n]), actions[n]);
    }
    hide Sound, Fresh, Act;
  }

  /** Once a driver is recorded no later operation of the run changes it. */
  lemma {:induction false} DriverIsSetOnce(s: State, actions: seq<Action>, k: nat)
    requires Fresh(s) && Allowed(s.booking.terms, actions) && k <= |actions|
    ensures var early := RunActions(s, actions[..k]).booking.rows.driver;
            early.Some? ==> RunActions(s, actions).booking.rows.driver == early
    decreases |actions|
  {
    if k == |actions| {
      assert actions[..k] == actions;
    } else {
      var n := |actions| - 1;
      assert actions[..n][..k] == actions[..k];
      DriverIsSetOnce(s, actions[..n], k);
      EveryRunIsSound(s, actions[..n]);
      if RunActions(s, actions[..n]).booking.rows.driver.Some? {
        DriverStays(RunActions(s, actions[..n]), actions[n]);
      }
      hide Act, RowsSound;
    }
  }

  /** How many operations of a run changed the status. */
  function Changes(s: State, actions: seq<Action>): nat
    decreases |actions|
  {
    if actions == [] then 0
    else
      var before := RunActions(s, actions[..|actions| - 1]);
      Changes(s, actions[..|actions| - 1])
      + if Act(before, actions[|actions| - 1]).0.booking.rows.status != before.booking.rows.status then 1 else 0
  }

  /** Each change climbs, so a run of any length has at most eight of them. */
  lemma {:induction false} ChangesAreBounded(s: State, actions: seq<Action>)
    ensures Rank(s.booking.rows.status) + Changes(s, actions) <= Rank(RunActions(s, actions).booking.rows.status) <= LAST
    decreases |actions|
  {
    if actions != [] {
      ChangesAreBounded(s, actions[..|actions| - 1]);
      StatusOnlyClimbs(RunActions(s, actions[..|actions| - 1]), actions[|actions| - 1]);
    }
    hide Act;
  }

  /** Completed and cancelled bookings stay so. */
  lemma EndIsFinal(s: State, a: Action)
    requires s.booking.rows.status.Completed? || s.booking.rows.status.Cancelled?
    ensures Act(s, a).0.booking.rows.status == s.booking.rows.status
  {
    hide Step, VoidPending, MakeOffers, SetOffer, AnyPending, AnyOffered, Capped;
  }

  lemma ActKeepsIndexed(s: State, a: Action)
    requires Ledger.Indexed(s.books.ledger)
    ensures Ledger.Indexed(Act(s, a).0.books.ledger)
  {
    hide Ledger.Indexed, Step, DispatchRows, AcceptRows, DeclineRows, AssignRows, ExpireRows, Capped, FareOp, FeeOp, CommissionOf, CancelRows;
    forall op
      ensures Ledger.Indexed(Step(s.books, op).0.ledger)
    {
      StepKeepsIndexed(s.books, op);
    }
  }

  lemma {:induction false} RunKeepsIndexed(s: State, actions: seq<Action>)
    requires Ledger.Indexed(s.books.ledger)
    ensures Ledger.Indexed(RunActions(s, actions).books.ledger)
    decreases |actions|
  {
    hide Ledger.Indexed, Act;
    if actions != [] {
      RunKeepsIndexed(s, actions[..|actions| - 1]);
      ActKeepsIndexed(RunActions(s, actions[..|actions| - 1]), actions[|actions| - 1]);
    }
  }

  /** However it was run, and whatever the prices, at most one transaction of the books is this booking's. */
  lemma ChargedAtMostOnce(s: State, actions: seq<Action>, i: nat, j: nat)
    requires Fresh(s) && Allowed(s.booking.terms, actions) && Ledger.Indexed(s.books.ledger)
    requires var log := RunActions(s, actions).books.ledger.log;
             && i < |log| && log[i].reference.subject == Subject(s.booking.terms)
             && j < |log| && log[j].reference.subject == Subject(s.booking.terms)
    ensures i == j
  {
    EveryRunIsSound(s, actions);
    TermsStayThroughout(s, actions);
    RunKeepsIndexed(s, actions);
    hide RunActions, RowsSound, TripSound;
  }

  /** Its fare is posted iff it completed. */
  lemma FareIsPostedIffCompleted(s: State, actions: seq<Action>)
    requires Fresh(s) && Allowed(s.booking.terms, actions)
    ensures var t := RunActions(s, actions);
            FareRef(t.booking.terms) in t.books.ledger.byReference <==> t.booking.rows.status.Completed?
  {
    EveryRunIsSound(s, actions);
    hide RunActions, RowsSound, TripSound;
  }

  /**
   In every reachable state acceptOffer succeeds exactly for a live pending offer, unless the fare is cash and the
   driver has as many unsettled cash trips as the cap: its claim cannot lose.
   */
  lemma AcceptSucceedsIff(s: State, actions: seq<Action>, driver: nat, live: bool, cap: nat)
    requires Fresh(s) && Allowed(s.booking.terms, actions)
    ensures var t := RunActions(s, actions);
            var (after, refusal) := Act(t, AcceptOffer(driver, live, cap));
            var unsettled := if driver in t.books.cashTrips then t.books.cashTrips[driver] else 0;
            && (refusal.None? <==>
                  && driver in t.booking.rows.offers && t.booking.rows.offers[driver] == Pending && live
                  && (t.booking.terms.paidBy.Cash? ==> unsettled < cap))
            && (refusal.None? ==> after.booking.rows.driver == Some(driver) && !AnyPending(after.booking.rows.offers))
            && (refusal.Some? ==> after == t)
  {
    EveryRunIsSound(s, actions);
    var t := RunActions(s, actions);
    AcceptKeepsRows(t.booking.rows, driver, live, Capped(t, driver, cap));
    hide RunActions, TripSound, ChargeSound;
  }

  /** The customer pays for cancelling exactly when a driver had set out; a driver never does. */
  lemma CancelChargesIff(s: State, user: nat, charge: Option<Charge>)
    requires Sound(s) && ActCancel(s, user, charge).1.None?
    ensures FeeRef(s.booking.terms) in ActCancel(s, user, charge).0.books.ledger.byReference
            <==> (s.booking.rows.status.Accepted? || s.booking.rows.status.Arrived?) && user == s.booking.terms.customer
  {
    hide Step, RowsSound, TripSound, CancelRows;
    DriverWhenCommitted(s.booking.rows);
    assert FeeRef(s.booking.terms) !in s.books.ledger.byReference;
    if charge.Some? && s.booking.rows.driver.Some? {
      var op := FeeOp(s.booking, s.booking.rows.driver.value, charge.value);
      assert !op.RefundTransaction? && !op.PayInvoice? && op.reference == FeeRef(s.booking.terms);
      Transfers.StepNames(s.books, op);
    }
    hide ChargeSound;
  }

  lemma DriverWhenCommitted(r: Rows)
    ensures RowsSound(r) && (r.status.Accepted? || r.status.Arrived?) ==> r.driver.Some?
  {}

  /** Once a driver has accepted, the fare that will be charged is fixed. */
  lemma {:induction false} FareIsFixedOnceAccepted(s: State, actions: seq<Action>, k: nat)
    requires Fresh(s) && Allowed(s.booking.terms, actions) && k <= |actions|
    ensures var early, late := RunActions(s, actions[..k]).booking, RunActions(s, actions).booking;
            early.rows.driver.Some? ==> late.fare == early.fare && late.tax == early.tax
    decreases |actions|
  {
    if k == |actions| {
      assert actions[..k] == actions;
    } else {
      var n := |actions| - 1;
      assert actions[..n][..k] == actions[..k];
      FareIsFixedOnceAccepted(s, actions[..n], k);
      DriverIsSetOnce(s, actions[..n], k);
      EveryRunIsSound(s, actions[..n]);
      var before := RunActions(s, actions[..n]);
      if before.booking.rows.driver.Some? {
        FareStays(before, actions[n]);
      }
      hide Act, RowsSound, TripSound, ChargeSound;
    }
  }

  lemma FareStays(s: State, a: Action)
    requires RowsSound(s.booking.rows) && s.booking.rows.driver.Some?
    ensures Act(s, a).0.booking.fare == s.booking.fare && Act(s, a).0.booking.tax == s.booking.tax
  {
    hide Step, VoidPending, MakeOffers, SetOffer, AnyPending, AnyOffered, Capped;
  }
}
