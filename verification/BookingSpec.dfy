/**
 One ride or delivery, an operation at a time, together with the books it charges: dispatch and offers,
 the trip, cancellation, an admin's assignment and dispute, and whatever else the wallet does in between.
 Every operation here runs to completion; BookingRace lets them interleave.
 */
module BookingSpec {
  import opened Option
  import opened Money
  import opened Bookings
  import opened WalletSpec
  import Ledger

  datatype Service = Ride | Delivery

  datatype PaidBy = Wallet | Cash | Invoice(business: nat)

  /** What a booking never changes. */
  datatype Terms = Terms(service: Service, id: nat, customer: nat, paidBy: PaidBy)

  datatype Booking = Booking(terms: Terms, rows: Rows, fare: real, tax: real, fee: real,
                             proof: bool, atPickup: bool, atDropoff: bool, transaction: Option<nat>)

  datatype State = State(books: Books, booking: Booking)

  datatype Action =
    | Release(candidates: seq<nat>)
    | StartDispatch(candidates: seq<nat>)
    | AcceptOffer(driver: nat, live: bool, cap: nat)
    | DeclineOffer(driver: nat)
    | ExpireRound
    | Cancel(user: nat, charge: Option<Charge>)
    | MarkArrived(driver: nat)
    | StartTrip(driver: nat)
    | ConfirmPickup(driver: nat)
    | Milestone(driver: nat, dropoff: bool)
    | SubmitProof(driver: nat, valid: bool)
    | Complete(driver: nat, rate: Option<real>)
    | UpdateStops(user: nat, fare: real, tax: real)
    | AssignDriver(driver: nat)
    | ResolveDispute(refund: bool)
    | Elsewhere(op: Op)

  /** The tariff's cancellation fee and the commission rate; absent when there is no active tariff or rule. */
  datatype Charge = Charge(fee: real, rate: real) {
    /** Not rounded, unlike the commission on a fare. */
    function Commission(): real {
      Portion(fee, rate)
    }
  }

  datatype Refusal = NotFound | Conflict | Forbidden | BadRequest | Unpaid(error: Ledger.PostError)

  function Subject(t: Terms): Ledger.Subject {
    if t.service.Ride? then Ledger.RideOf(t.id) else Ledger.DeliveryOf(t.id)
  }

  /** The reference of the one charge a completed booking leaves. */
  function FareRef(t: Terms): Ledger.Reference {
    Ledger.Reference(Subject(t), if t.paidBy.Wallet? || BilledLater(t) then Ledger.Plain else Ledger.Commission)
  }

  function FeeRef(t: Terms): Ledger.Reference {
    Ledger.Reference(Subject(t), Ledger.Cancellation)
  }

  /** Only deliveries are invoiced. */
  predicate BilledLater(t: Terms) {
    t.service.Delivery? && t.paidBy.Invoice?
  }

  /** The commission on the fare without its tax, rounded to the kobo. */
  function CommissionOf(fare: real, tax: real, rate: real): real {
    Column(Portion(fare - tax, rate)) as real
  }

  function PayFare(t: Terms, driver: nat, fare: real, commission: real, reference: Ledger.Reference, tax: real): Op {
    if t.service.Ride? then PayForRide(t.customer, driver, fare, commission, reference, tax)
    else PayForDelivery(t.customer, driver, fare, commission, reference, tax)
  }

  function FareOp(b: Booking, driver: nat, commission: real): Op {
    var t := b.terms;
    if BilledLater(t) then ChargeBusinessForDelivery(t.paidBy.business, b.fare, FareRef(t))
    else if t.paidBy.Wallet? then PayFare(t, driver, b.fare, commission, FareRef(t), b.tax)
    else if t.service.Ride? then RecordCashRideCommission(driver, commission + b.tax, FareRef(t))
    else RecordCashDeliveryCommission(driver, commission + b.tax, FareRef(t))
  }

  function FeeOp(b: Booking, driver: nat, charge: Charge): Op {
    PayFare(b.terms, driver, charge.fee, charge.Commission(), FeeRef(b.terms), 0.0)
  }

  predicate Cancellable(service: Service, s: Status) {
    || s.Requested? || s.Dispatching? || s.NoDriversFound? || s.Accepted?
    || (if service.Ride? then s.Arrived? else s.Scheduled?)
  }

  function SetRows(s: State, r: Rows): State {
    s.(booking := s.booking.(rows := r))
  }

  function DispatchRows(r: Rows, candidates: seq<nat>): (Rows, Option<Refusal>) {
    if !r.status.Requested? then (r, None)
    else if candidates == [] then (r.(status := NoDriversFound), None)
    else if AnyOffered(r.offers, candidates) then (r.(status := Dispatching), Some(Conflict))
    else (r.(status := Dispatching, offers := MakeOffers(r.offers, candidates)), None)
  }

  function AcceptRows(r: Rows, d: nat, live: bool, capped: bool): (Rows, Option<Refusal>) {
    if d !in r.offers then (r, Some(NotFound))
    else if r.offers[d] != Pending || !live then (r, Some(Conflict))
    else if capped then (r, Some(Forbidden))
    else if !Claimable(r) then (r.(offers := SetOffer(r.offers, d, Expired)), Some(Conflict))
    else (Rows(Accepted, Some(d), VoidPending(SetOffer(r.offers, d, Taken), Some(d))), None)
  }

  function DeclineRows(r: Rows, d: nat): (Rows, Option<Refusal>) {
    if d !in r.offers then (r, Some(NotFound))
    else if r.offers[d] != Pending then (r, None)
    else
      var offers := SetOffer(r.offers, d, Declined);
      (Rows(if r.status.Dispatching? && !AnyPending(offers) then NoDriversFound else r.status, r.driver, offers), None)
  }

  function ExpireRows(r: Rows): Rows {
    if r.status.Dispatching? then Rows(NoDriversFound, r.driver, VoidPending(r.offers, None)) else r
  }

  function CancelRows(r: Rows): Rows {
    Rows(Cancelled, r.driver, if r.status.Dispatching? then VoidPending(r.offers, None) else r.offers)
  }

  function AssignRows(r: Rows, d: nat): Rows {
    Rows(Accepted, Some(d), if r.status.Dispatching? then VoidPending(r.offers, None) else r.offers)
  }

  function Move(r: Rows, d: nat, from: Status, to: Status): (Rows, Option<Refusal>) {
    if r.driver != Some(d) then (r, Some(Forbidden))
    else if r.status != from then (r, Some(BadRequest))
    else (r.(status := to), None)
  }

  predicate Capped(s: State, driver: nat, cap: nat) {
    s.booking.terms.paidBy.Cash? && (if driver in s.books.cashTrips then s.books.cashTrips[driver] else 0) >= cap
  }

  /** A driver who set out is owed a fee, but only the customer pays one. */
  predicate OwesFee(b: Booking, user: nat) {
    (b.rows.status.Accepted? || b.rows.status.Arrived?) && user == b.terms.customer && b.rows.driver.Some?
  }

  function ActCancel(s: State, user: nat, charge: Option<Charge>): (State, Option<Refusal>) {
    var b := s.booking;
    if b.terms.customer != user && b.rows.driver != Some(user) then (s, Some(Forbidden))
    else if !Cancellable(b.terms.service, b.rows.status) then (s, Some(BadRequest))
    else if !OwesFee(b, user) then (s.(booking := b.(rows := CancelRows(b.rows), fee := 0.0)), None)
    else if charge.None? then (s, Some(NotFound))
    else
      var (books, paid) := Step(s.books, FeeOp(b, b.rows.driver.value, charge.value));
      if paid.Err? then (s.(books := books), Some(Unpaid(paid.error)))
      else (State(books, b.(rows := CancelRows(b.rows), fee := charge.value.fee)), None)
  }

  function ActComplete(s: State, driver: nat, rate: Option<real>): (State, Option<Refusal>) {
    var b := s.booking;
    if b.rows.driver != Some(driver) then (s, Some(Forbidden))
    else if b.rows.status != (if b.terms.service.Ride? then InProgress else PickedUp) then (s, Some(BadRequest))
    else if b.terms.service.Delivery? && !b.proof then (s, Some(BadRequest))
    else if rate.None? then (s, Some(NotFound))
    else
      var (books, paid) := Step(s.books, FareOp(b, driver, CommissionOf(b.fare, b.tax, rate.value)));
      if paid.Err? then (s.(books := books), Some(Unpaid(paid.error)))
      else
        var tx := if b.terms.paidBy.Wallet? then Some(paid.value) else None;
        (State(books, b.(rows := b.rows.(status := Completed), transaction := tx)), None)
  }

  function ActDispute(s: State, refund: bool): (State, Option<Refusal>) {
    if !refund then (s, None)
    else if s.booking.transaction.None? then (s, Some(BadRequest))
    else
      var (books, undone) := Step(s.books, RefundTransaction(s.booking.transaction.value));
      (s.(books := books), if undone.Err? then Some(Unpaid(undone.error)) else None)
  }

  function ActMilestone(s: State, driver: nat, dropoff: bool): (State, Option<Refusal>) {
    var b := s.booking;
    if b.rows.driver != Some(driver) then (s, Some(Forbidden))
    else if b.rows.status != (if dropoff then PickedUp else Accepted) then (s, Some(BadRequest))
    else (s.(booking := if dropoff then b.(atDropoff := true) else b.(atPickup := true)), None)
  }

  function ActProof(s: State, driver: nat, valid: bool): (State, Option<Refusal>) {
    var b := s.booking;
    if b.rows.driver != Some(driver) then (s, Some(Forbidden))
    else if !b.rows.status.PickedUp? || !valid then (s, Some(BadRequest))
    else (s.(booking := b.(proof := true)), None)
  }

  function ActStops(s: State, user: nat, fare: real, tax: real): (State, Option<Refusal>) {
    var b := s.booking;
    if b.terms.customer != user then (s, Some(Forbidden))
    else if !b.rows.status.Scheduled? && !b.rows.status.Requested? && !b.rows.status.Dispatching? then (s, Some(BadRequest))
    else (s.(booking := b.(fare := fare, tax := tax)), None)
  }

  function ActRelease(s: State, candidates: seq<nat>): (State, Option<Refusal>) {
    var r := s.booking.rows;
    if !r.status.Scheduled? then (s, None)
    else
      var (after, refusal) := DispatchRows(r.(status := Requested), candidates);
      (SetRows(s, after), refusal)
  }

  function ActAssign(s: State, driver: nat): (State, Option<Refusal>) {
    if !Assignable(s.booking.rows.status) then (s, Some(BadRequest))
    else (SetRows(s, AssignRows(s.booking.rows, driver)), None)
  }

  function WithRows(s: State, r: (Rows, Option<Refusal>)): (State, Option<Refusal>) {
    (SetRows(s, r.0), r.1)
  }

  predicate OnlyForRides(a: Action) {
    a.MarkArrived? || a.StartTrip?
  }

  predicate OnlyForDeliveries(a: Action) {
    a.Release? || a.ConfirmPickup? || a.Milestone? || a.SubmitProof? || a.UpdateStops? || a.AssignDriver? || a.ResolveDispute?
  }

  /** An id of the other service finds no row. */
  function Act(s: State, a: Action): (State, Option<Refusal>) {
    var r := s.booking.rows;
    if (if s.booking.terms.service.Ride? then OnlyForDeliveries(a) else OnlyForRides(a)) then (s, Some(NotFound))
    else
      match a
      case Release(cs) => ActRelease(s, cs)
      case StartDispatch(cs) => WithRows(s, DispatchRows(r, cs))
      case AcceptOffer(d, live, cap) => WithRows(s, AcceptRows(r, d, live, Capped(s, d, cap)))
      case DeclineOffer(d) => WithRows(s, DeclineRows(r, d))
      case ExpireRound => (SetRows(s, ExpireRows(r)), None)
      case Cancel(user, charge) => ActCancel(s, user, charge)
      case MarkArrived(d) => WithRows(s, Move(r, d, Accepted, Arrived))
      case StartTrip(d) => WithRows(s, Move(r, d, Arrived, InProgress))
      case ConfirmPickup(d) => WithRows(s, Move(r, d, Accepted, PickedUp))
      case Milestone(d, dropoff) => ActMilestone(s, d, dropoff)
      case SubmitProof(d, valid) => ActProof(s, d, valid)
      case Complete(d, rate) => ActComplete(s, d, rate)
      case UpdateStops(user, fare, tax) => ActStops(s, user, fare, tax)
      case AssignDriver(d) => ActAssign(s, d)
      case ResolveDispute(refund) => ActDispute(s, refund)
      case Elsewhere(op) => (s.(books := Step(s.books, op).0), None)
  }

  function RunActions(s: State, actions: seq<Action>): State
    decreases |actions|
  {
    if actions == [] then s
    else Act(RunActions(s, actions[..|actions| - 1]), actions[|actions| - 1]).0
  }
}
