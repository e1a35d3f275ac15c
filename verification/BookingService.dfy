/**
 The dispatch, trip, cancellation and delivery services as they run on one booking: its rows updated in
 place, the wallet called on the way. Each method is proved to do what BookingSpec says.
 */
module BookingService {
  import opened Option
  import opened Money
  import opened Bookings
  import opened BookingSpec
  import opened WalletSpec
  import opened WalletService
  import Ledger

  class BookingService {
    const wallet: WalletService
    const terms: Terms
    var status: Status
    var driver: Option<nat>
    var offers: Offers
    var fare: real
    var tax: real
    var fee: real
    var proof: bool
    var atPickup: bool
    var atDropoff: bool
    var transaction: Option<nat>

    function State(): BookingSpec.State
      reads this, wallet
    {
      BookingSpec.State(wallet.State(), Row())
    }

    function Row(): Booking
      reads this
    {
      Booking(terms, Rows(status, driver, offers), fare, tax, fee, proof, atPickup, atDropoff, transaction)
    }

    /** A booking as createRide and createDelivery write it. */
    constructor (wallet: WalletService, terms: Terms, later: bool, fare: real, tax: real)
      ensures this.wallet == wallet && this.terms == terms
      ensures Row() == Booking(terms, Rows(if later && terms.service.Delivery? then Scheduled else Requested, None, map[]),
                               fare, tax, 0.0, false, false, false, None)
    {
      this.wallet, this.terms, this.fare, this.tax := wallet, terms, fare, tax;
      status := if later && terms.service.Delivery? then Scheduled else Requested;
      driver, offers, fee, transaction := None, map[], 0.0, None;
      proof, atPickup, atDropoff := false, false, false;
    }

    // ---------------------------------------------------------------- dispatch

    method StartDispatch(candidates: seq<nat>) returns (refusal: Option<Refusal>)
      modifies this`status, this`offers
      ensures (State(), refusal) == Act(old(State()), BookingSpec.StartDispatch(candidates))
      ensures (Row().rows, refusal) == DispatchRows(old(Row()).rows, candidates)
    {
      if status != Requested {
        return None;
      }
      status := Dispatching;
      if candidates == [] {
        ResolveNoDrivers();
        return None;
      }
      if AnyOffered(offers, candidates) {
        return Some(Conflict);
      }
      offers := MakeOffers(offers, candidates);
      refusal := None;
    }

    method ResolveNoDrivers()
      modifies this`status
      ensures status == if old(status).Requested? || old(status).Dispatching? then NoDriversFound else old(status)
    {
      if status == Requested || status == Dispatching {
        status := NoDriversFound;
      }
    }

    method AcceptOffer(claimant: nat, live: bool, cap: nat) returns (refusal: Option<Refusal>)
      modifies this`status, this`driver, this`offers
      ensures (State(), refusal) == Act(old(State()), BookingSpec.AcceptOffer(claimant, live, cap))
    {
      if claimant !in offers {
        return Some(NotFound);
      }
      if offers[claimant] != Pending || !live {
        return Some(Conflict);
      }
      if terms.paidBy.Cash? {
        var unsettled := if claimant in wallet.cashTrips then wallet.cashTrips[claimant] else 0;
        if unsettled >= cap {
          return Some(Forbidden);
        }
      }
      if status == Dispatching && driver == None {
        status, driver := Accepted, Some(claimant);
      } else {
        offers := offers[claimant := Expired];
        return Some(Conflict);
      }
      offers := offers[claimant := Taken];
      VoidPendingOffers(Some(claimant));
      refusal := None;
    }

    method VoidPendingOffers(except: Option<nat>)
      modifies this`offers
      ensures offers == VoidPending(old(offers), except)
    {
      offers := map d | d in offers :: if offers[d] == Pending && Some(d) != except then Expired else offers[d];
    }

    method DeclineOffer(decliner: nat) returns (refusal: Option<Refusal>)
      modifies this`status, this`offers
      ensures (State(), refusal) == Act(old(State()), BookingSpec.DeclineOffer(decliner))
    {
      if decliner !in offers {
        return Some(NotFound);
      }
      if offers[decliner] != Pending {
        return None;
      }
      offers := offers[decliner := Declined];
      if status == Dispatching && !AnyPending(offers) {
        ResolveNoDrivers();
      }
      refusal := None;
    }

    method ExpireRoundIfUnresolved()
      modifies this`status, this`offers
      ensures (State(), None) == Act(old(State()), ExpireRound)
    {
      if status == Dispatching {
        VoidPendingOffers(None);
        ResolveNoDrivers();
      }
    }

    method ReleaseScheduledDelivery(candidates: seq<nat>) returns (refusal: Option<Refusal>)
      requires terms.service.Delivery?
      modifies this`status, this`offers
      ensures (State(), refusal) == Act(old(State()), Release(candidates))
    {
      if status != Scheduled {
        return None;
      }
      status := Requested;
      refusal := StartDispatch(candidates);
    }

    // ---------------------------------------------------------------- the trip

    method TransitionAsDriver(caller: nat, from: Status, to: Status) returns (refusal: Option<Refusal>)
      modifies this`status
      ensures Row() == old(Row()).(rows := Move(old(Row()).rows, caller, from, to).0)
      ensures refusal == Move(old(Row()).rows, caller, from, to).1
    {
      if driver != Some(caller) {
        return Some(Forbidden);
      }
      if status != from {
        return Some(BadRequest);
      }
      status := to;
      refusal := None;
    }

    method MarkArrived(caller: nat) returns (refusal: Option<Refusal>)
      requires terms.service.Ride?
      modifies this`status
      ensures (State(), refusal) == Act(old(State()), BookingSpec.MarkArrived(caller))
    {
      refusal := TransitionAsDriver(caller, Accepted, Arrived);
    }

    method StartTrip(caller: nat) returns (refusal: Option<Refusal>)
      requires terms.service.Ride?
      modifies this`status
      ensures (State(), refusal) == Act(old(State()), BookingSpec.StartTrip(caller))
    {
      refusal := TransitionAsDriver(caller, Arrived, InProgress);
    }

    method ConfirmPickup(caller: nat) returns (refusal: Option<Refusal>)
      requires terms.service.Delivery?
      modifies this`status
      ensures (State(), refusal) == Act(old(State()), BookingSpec.ConfirmPickup(caller))
    {
      refusal := TransitionAsDriver(caller, Accepted, PickedUp);
    }

    method RecordMilestone(caller: nat, dropoff: bool) returns (refusal: Option<Refusal>)
      requires terms.service.Delivery?
      modifies this`atPickup, this`atDropoff
      ensures (State(), refusal) == Act(old(State()), Milestone(caller, dropoff))
    {
      if driver != Some(caller) {
        return Some(Forbidden);
      }
      if status != (if dropoff then PickedUp else Accepted) {
        return Some(BadRequest);
      }
      if dropoff {
        atDropoff := true;
      } else {
        atPickup := true;
      }
      refusal := None;
    }

    /** `valid`: the receiver's code matches, or a file came with a signature or photo. */
    method SubmitProofOfDelivery(caller: nat, valid: bool) returns (refusal: Option<Refusal>)
      requires terms.service.Delivery?
      modifies this`proof
      ensures (State(), refusal) == Act(old(State()), SubmitProof(caller, valid))
    {
      if driver != Some(caller) {
        return Some(Forbidden);
      }
      if status != PickedUp {
        return Some(BadRequest);
      }
      if !valid {
        return Some(BadRequest);
      }
      proof := true;
      refusal := None;
    }

    /** completeTrip and completeDelivery: pay first, then write the row. */
    method Complete(caller: nat, rate: Option<real>) returns (refusal: Option<Refusal>)
      modifies this`status, this`transaction, wallet
      ensures (State(), refusal) == Act(old(State()), BookingSpec.Complete(caller, rate))
    {
      if driver != Some(caller) {
        return Some(Forbidden);
      }
      if status != (if terms.service.Ride? then InProgress else PickedUp) {
        return Some(BadRequest);
      }
      if terms.service.Delivery? && !proof {
        return Some(BadRequest);
      }
      if rate.None? {
        return Some(NotFound);
      }
      var commission := CommissionOf(fare, tax, rate.value);
      var paid := ChargeFare(caller, commission);
      if paid.Err? {
        return Some(Unpaid(paid.error));
      }
      transaction := if terms.paidBy.Wallet? then Some(paid.value) else None;
      status := Completed;
      refusal := None;
    }

    method ChargeFare(caller: nat, commission: real) returns (paid: Outcome)
      modifies wallet
      ensures (wallet.State(), paid) == Step(old(wallet.State()), FareOp(Row(), caller, commission))
    {
      hide Step;
      var reference := FareRef(terms);
      if BilledLater(terms) {
        paid := wallet.ChargeBusinessForDelivery(terms.paidBy.business, fare, reference);
      } else if terms.paidBy.Wallet? {
        paid := PayDriver(caller, fare, commission, reference, tax);
      } else if terms.service.Ride? {
        paid := wallet.RecordCashRideCommission(caller, commission + tax, reference);
      } else {
        paid := wallet.RecordCashDeliveryCommission(caller, commission + tax, reference);
      }
    }

    method PayDriver(payee: nat, amount: real, commission: real, reference: Ledger.Reference, taxed: real)
      returns (paid: Outcome)
      modifies wallet
      ensures (wallet.State(), paid) == Step(old(wallet.State()), PayFare(terms, payee, amount, commission, reference, taxed))
    {
      hide Step;
      if terms.service.Ride? {
        paid := wallet.PayForRide(terms.customer, payee, amount, commission, reference, taxed);
      } else {
        paid := wallet.PayForDelivery(terms.customer, payee, amount, commission, reference, taxed);
      }
    }

    // ---------------------------------------------------------------- cancellation, edits, the admin

    /** `charge` is the active tariff's fee and commission rate. The fee is posted before anything is written. */
    method Cancel(user: nat, charge: Option<Charge>) returns (refusal: Option<Refusal>)
      modifies this`status, this`offers, this`fee, wallet
      ensures (State(), refusal) == Act(old(State()), BookingSpec.Cancel(user, charge))
    {
      hide Step, CancelRows, PayFare;
      ghost var start := State();
      if terms.customer != user && driver != Some(user) {
        return Some(Forbidden);
      }
      if !Cancellable(terms.service, status) {
        return Some(BadRequest);
      }
      var cancellationFee := 0.0;
      if (status == Accepted || status == Arrived) && user == terms.customer && driver.Some? {
        if charge.None? {
          return Some(NotFound);
        }
        var c := charge.value;
        var commission := c.Commission();
        var paid := PayDriver(driver.value, c.fee, commission, FeeRef(terms), 0.0);
        assert (wallet.State(), paid) == Step(start.books, FeeOp(start.booking, driver.value, c));
        if paid.Err? {
          assert State() == start.(books := wallet.State());
          return Some(Unpaid(paid.error));
        }
        cancellationFee := c.fee;
      }
      if status == Dispatching {
        VoidPendingOffers(None);
      }
      status, fee := Cancelled, cancellationFee;
      assert Row().rows == CancelRows(start.booking.rows) by { VoidedRows(start.booking.rows); }
      refusal := None;
    }

    /** The new route, priced again: only while nobody has accepted. */
    method UpdateStops(user: nat, newFare: real, newTax: real) returns (refusal: Option<Refusal>)
      requires terms.service.Delivery?
      modifies this`fare, this`tax
      ensures (State(), refusal) == Act(old(State()), BookingSpec.UpdateStops(user, newFare, newTax))
    {
      if terms.customer != user {
        return Some(Forbidden);
      }
      if status != Scheduled && status != Requested && status != Dispatching {
        return Some(BadRequest);
      }
      fare, tax := newFare, newTax;
      refusal := None;
    }

    method AssignDriver(chosen: nat) returns (refusal: Option<Refusal>)
      requires terms.service.Delivery?
      modifies this`status, this`driver, this`offers
      ensures (State(), refusal) == Act(old(State()), BookingSpec.AssignDriver(chosen))
    {
      if !Assignable(status) {
        return Some(BadRequest);
      }
      if status == Dispatching {
        VoidPendingOffers(None);
      }
      driver, status := Some(chosen), Accepted;
      refusal := None;
    }

    method ResolveDispute(refund: bool) returns (refusal: Option<Refusal>)
      requires terms.service.Delivery?
      modifies wallet
      ensures (State(), refusal) == Act(old(State()), BookingSpec.ResolveDispute(refund))
    {
      hide Step;
      refusal := None;
      if refund {
        if transaction.None? {
          return Some(BadRequest);
        }
        var undone := wallet.Refund(transaction.value);
        if undone.Err? {
          return Some(Unpaid(undone.error));
        }
      }
    }
  }

  lemma VoidedRows(r: Rows)
    ensures CancelRows(r) == Rows(Cancelled, r.driver, if r.status.Dispatching? then VoidPending(r.offers, None) else r.offers)
  {}
}
