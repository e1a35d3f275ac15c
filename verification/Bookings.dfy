/** The rows of one ride or delivery that its dispatch reads and writes. */
module Bookings {
  import opened Option

  /** Scheduled and PickedUp are delivery statuses; Arrived and InProgress are ride statuses. */
  datatype Status =
    | Scheduled | Requested | Dispatching | NoDriversFound | Accepted | Arrived | InProgress | PickedUp | Completed | Cancelled

  datatype OfferStatus = Pending | Taken | Declined | Expired

  type Offers = map<nat, OfferStatus>

  /** The booking row and its offers, keyed by driver: (booking, driver) is unique. */
  datatype Rows = Rows(status: Status, driver: Option<nat>, offers: Offers)

  function VoidPending(offers: Offers, except: Option<nat>): Offers {
    map d | d in offers :: if offers[d] == Pending && Some(d) != except then Expired else offers[d]
  }

  function MakeOffers(offers: Offers, candidates: seq<nat>): Offers {
    map d | d in offers.Keys + (set c <- candidates) :: if d in candidates then Pending else offers[d]
  }

  function SetOffer(offers: Offers, d: nat, s: OfferStatus): Offers {
    if d in offers then offers[d := s] else offers
  }

  predicate IsPending(offers: Offers, d: nat) {
    d in offers && offers[d] == Pending
  }

  predicate AnyPending(offers: Offers) {
    exists d <- offers :: offers[d] == Pending
  }

  predicate AnyOffered(offers: Offers, candidates: seq<nat>) {
    exists d <- candidates :: d in offers
  }

  /** The WHERE of acceptOffer's UPDATE. */
  predicate Claimable(r: Rows) {
    r.status.Dispatching? && r.driver.None?
  }

  /** What an admin may still assign a driver to. */
  predicate Assignable(s: Status) {
    s.Requested? || s.Dispatching? || s.NoDriversFound?
  }

  /** A driver must have been recorded to get here. */
  predicate HasDriver(s: Status) {
    s.Accepted? || s.Arrived? || s.InProgress? || s.PickedUp? || s.Completed?
  }
}
