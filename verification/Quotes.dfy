/** Quotes: one route priced for every vehicle with the rules booking uses, the cheapest recommended. */
module Quotes {
  import opened Option
  import opened Money
  import opened Tariffs
  import Pricing
  import Promos

  /** The code as looked up now, and what booking would know about it. */
  datatype PromoUse = PromoUse(promo: Option<Promos.Promo>, line: Promos.Line, usage: Promos.Usage, now: int)

  datatype Trip = Trip(km: real, minutes: real, promo: Option<PromoUse>, taxRate: real)

  datatype Quote = Quote(vehicle: string, fare: Pricing.Breakdown, tripMinutes: int, recommended: bool)

  datatype BookingError = NoTariff | PromoRejected(why: Promos.Rejection)

  function Validated(p: PromoUse, subtotal: int): Result<real, Promos.Rejection> {
    Promos.Validate(p.promo, p.line, subtotal as real, p.usage, p.now)
  }

  /** A promo that does not apply discounts nothing. */
  function TriedDiscount(trip: Trip, subtotal: int): real {
    if trip.promo.None? then 0.0
    else
      var r := Validated(trip.promo.value, subtotal);
      if r.Ok? then r.value else 0.0
  }

  function EstimateTripMinutes(t: Tariff, minutes: real): int {
    var scaled := t.durationMultiplier * minutes;
    var ceiling := -((-scaled).Floor);
    if ceiling < 1 then 1 else ceiling
  }

  function QuoteOf(t: Tariff, trip: Trip): Quote {
    var subtotal := Pricing.CalculateFare(t.rates, trip.km, trip.minutes);
    Quote(t.vehicle, Pricing.BuildFareBreakdown(subtotal as real, TriedDiscount(trip, subtotal), trip.taxRate),
          EstimateTripMinutes(t, trip.minutes), false)
  }

  /** createRide and createDelivery: the same price, but a promo that does not apply fails the booking. */
  function Book(tariffs: seq<Tariff>, vehicle: string, area: Option<nat>, service: ServiceType, trip: Trip): Result<Pricing.Breakdown, BookingError> {
    var tariff := ResolveTariff(tariffs, vehicle, area, Some(service));
    if tariff.None? then Err(NoTariff)
    else
      var subtotal := Pricing.CalculateFare(tariff.value.rates, trip.km, trip.minutes);
      if trip.promo.None? then Ok(Pricing.BuildFareBreakdown(subtotal as real, 0.0, trip.taxRate))
      else
        match Validated(trip.promo.value, subtotal)
        case Err(e) => Err(PromoRejected(e))
        case Ok(discount) => Ok(Pricing.BuildFareBreakdown(subtotal as real, discount, trip.taxRate))
  }

  /** What a customer books from a quote: with the promo when it was applied, without it when it was not. */
  function BookQuoted(tariffs: seq<Tariff>, vehicle: string, area: Option<nat>, service: ServiceType, trip: Trip): Result<Pricing.Breakdown, BookingError> {
    var first := Book(tariffs, vehicle, area, service, trip);
    if first.Err? && first.error.PromoRejected? then Book(tariffs, vehicle, area, service, trip.(promo := None)) else first
  }

  /** The tariffs a quote prices. */
  function Offered(tariffs: seq<Tariff>, vehicle: Option<string>, area: Option<nat>, service: ServiceType): Result<seq<Tariff>, BookingError> {
    if vehicle.None? then Ok(ListActiveTariffsForService(tariffs, service, area))
    else
      var t := ResolveTariff(tariffs, vehicle.value, area, Some(service));
      if t.None? then Err(NoTariff) else Ok([t.value])
  }

  lemma OfferedResolve(tariffs: seq<Tariff>, vehicle: Option<string>, area: Option<nat>, service: ServiceType)
    ensures var r := Offered(tariffs, vehicle, area, service);
            && (r.Err? <==> vehicle.Some? && ResolveTariff(tariffs, vehicle.value, area, Some(service)).None?)
            && (r.Ok? ==> forall t <- r.value :: ResolveTariff(tariffs, t.vehicle, area, Some(service)) == Some(t))
            && (r.Ok? && vehicle.None? ==> forall t: Tariff :: ResolveTariff(tariffs, t.vehicle, area, Some(service)) == Some(t) ==> t in r.value)
  {
    ListIsWhatResolves(tariffs, service, area);
    if vehicle.Some? {
      ResolveIsBest(tariffs, vehicle.value, area, Some(service));
    }
    hide ResolveTariff, ListActiveTariffsForService;
  }

  /** Pricing a resolved tariff is what booking its vehicle does. */
  lemma QuoteIsBooking(tariffs: seq<Tariff>, t: Tariff, area: Option<nat>, service: ServiceType, trip: Trip)
    requires ResolveTariff(tariffs, t.vehicle, area, Some(service)) == Some(t)
    ensures BookQuoted(tariffs, t.vehicle, area, service, trip) == Ok(QuoteOf(t, trip).fare)
  {
    hide ResolveTariff, Pricing.BuildFareBreakdown, Pricing.CalculateFare, Promos.Validate, EstimateTripMinutes;
  }

  /** A quote shows whole minutes: the least number, at least one, that covers the scaled driving time. */
  lemma MinutesCover(t: Tariff, trip: Trip)
    ensures var m, scaled := QuoteOf(t, trip).tripMinutes, t.durationMultiplier * trip.minutes;
            m >= 1 && m as real >= scaled && (m > 1 ==> (m - 1) as real < scaled)
  {
    hide Pricing.BuildFareBreakdown, Pricing.CalculateFare, TriedDiscount;
  }

  /**
   What a booking costs, from the tariff it resolves to: the metered fare or the minimum, less the promo, and tax at its
   rate on the rest, each to the nearest kobo.
   */
  lemma BookedFareIs(tariffs: seq<Tariff>, vehicle: string, area: Option<nat>, service: ServiceType, trip: Trip)
    requires Book(tariffs, vehicle, area, service, trip).Ok?
    ensures ResolveTariff(tariffs, vehicle, area, Some(service)).Some?
    ensures trip.promo.Some? ==> Validated(trip.promo.value, Book(tariffs, vehicle, area, service, trip).value.subtotal).Ok?
    ensures var b := Book(tariffs, vehicle, area, service, trip).value;
            var off := if trip.promo.None? then 0.0 else Validated(trip.promo.value, b.subtotal).value;
            && Pricing.Metered(b.subtotal, ResolveTariff(tariffs, vehicle, area, Some(service)).value.rates, trip.km, trip.minutes)
            && (off <= b.subtotal as real ==> IsNearest(b.discount, off)) && (off >= b.subtotal as real ==> b.discount == b.subtotal)
            && Pricing.TaxedAt(b, trip.taxRate)
  {
    var rates := ResolveTariff(tariffs, vehicle, area, Some(service)).value.rates;
    var subtotal := Pricing.CalculateFare(rates, trip.km, trip.minutes);
    Pricing.FareIsMetered(rates, trip.km, trip.minutes);
    var discount := if trip.promo.None? then 0.0 else Validated(trip.promo.value, subtotal).value;
    Pricing.BreakdownIs(subtotal, discount, trip.taxRate);
    hide ResolveTariff, Pricing.CalculateFare, Pricing.BuildFareBreakdown, Validated, Pricing.Metered, Pricing.TaxedAt, IsNearest;
    assert Book(tariffs, vehicle, area, service, trip).value == Pricing.BuildFareBreakdown(subtotal as real, discount, trip.taxRate);
  }

  /** Recommended: one quote, and none cheaper. */
  ghost predicate OneCheapest(quotes: seq<Quote>) {
    quotes != [] ==>
      exists c: nat :: c < |quotes|
        && (forall i :: 0 <= i < |quotes| ==> (quotes[i].recommended <==> i == c) && quotes[c].fare.total <= quotes[i].fare.total)
  }

  predicate Quoted(quotes: seq<Quote>, vehicle: string) {
    exists q <- quotes :: q.vehicle == vehicle
  }

  /**
   Every quote shows the breakdown that booking its vehicle from the same state gives, every vehicle that can be
   booked is quoted, and exactly one quote of a non-empty list is recommended: a cheapest one.
   */
  method QuoteVehicles(tariffs: seq<Tariff>, vehicle: Option<string>, area: Option<nat>, service: ServiceType, trip: Trip)
    returns (r: Result<seq<Quote>, BookingError>)
    ensures r.Err? <==> vehicle.Some? && ResolveTariff(tariffs, vehicle.value, area, Some(service)).None?
    ensures r.Ok? ==> forall q <- r.value :: BookQuoted(tariffs, q.vehicle, area, service, trip) == Ok(q.fare)
    ensures r.Ok? ==> OneCheapest(r.value)
    ensures r.Ok? && vehicle.None? ==>
              forall v :: ResolveTariff(tariffs, v, area, Some(service)).Some? ==> Quoted(r.value, v)
    ensures r.Ok? ==> |r.value| == |Offered(tariffs, vehicle, area, service).value|
    ensures r.Ok? ==> forall i :: 0 <= i < |r.value| ==>
              r.value[i].(recommended := false) == QuoteOf(Offered(tariffs, vehicle, area, service).value[i], trip)
  {
    hide ResolveTariff, ListActiveTariffsForService, QuoteOf, BookQuoted, Quoted, OneCheapest;
    var offered := Offered(tariffs, vehicle, area, service);
    OfferedResolve(tariffs, vehicle, area, service);
    if offered.Err? {
      return Err(offered.error);
    }
    var priced := offered.value;
    hide Offered;
    var quotes := PriceEach(priced, trip);
    if quotes != [] {
      var cheapest := Cheapest(quotes);
      ghost var unmarked := quotes;
      quotes := quotes[cheapest := quotes[cheapest].(recommended := true)];
      MarkedIsCheapest(unmarked, quotes, cheapest);
    } else {
      NothingIsCheapest();
    }
    QuotesAreBookings(tariffs, area, service, trip, priced, quotes);
    forall v | vehicle.None? && ResolveTariff(tariffs, v, area, Some(service)).Some?
      ensures Quoted(quotes, v)
    {
      ResolvedVehicle(tariffs, v, area, service);
      QuotedWhenPriced(priced, quotes, ResolveTariff(tariffs, v, area, Some(service)).value, trip);
    }
    r := Ok(quotes);
  }

  /** The loop over the tariffs. */
  method PriceEach(priced: seq<Tariff>, trip: Trip) returns (quotes: seq<Quote>)
    ensures |quotes| == |priced|
    ensures forall j :: 0 <= j < |quotes| ==> quotes[j] == QuoteOf(priced[j], trip) && !quotes[j].recommended
  {
    quotes := [];
    for i := 0 to |priced|
      invariant |quotes| == i
      invariant forall j :: 0 <= j < i ==> quotes[j] == QuoteOf(priced[j], trip) && !quotes[j].recommended
    {
      QuoteShape(priced[i], trip);
      quotes := quotes + [QuoteOf(priced[i], trip)];
      hide QuoteOf;
    }
  }

  lemma MarkedIsCheapest(unmarked: seq<Quote>, quotes: seq<Quote>, cheapest: nat)
    requires cheapest < |unmarked| && quotes == unmarked[cheapest := unmarked[cheapest].(recommended := true)]
    requires forall i :: 0 <= i < |unmarked| ==> !unmarked[i].recommended && unmarked[cheapest].fare.total <= unmarked[i].fare.total
    ensures OneCheapest(quotes)
  {
    assert forall i :: 0 <= i < |quotes| ==> (quotes[i].recommended <==> i == cheapest) && quotes[i].fare == unmarked[i].fare;
  }

  lemma NothingIsCheapest()
    ensures OneCheapest([])
  {}

  /** Quotes of resolved tariffs show what booking gives. */
  lemma QuotesAreBookings(tariffs: seq<Tariff>, area: Option<nat>, service: ServiceType, trip: Trip, priced: seq<Tariff>, quotes: seq<Quote>)
    requires |quotes| == |priced| && forall j :: 0 <= j < |quotes| ==> quotes[j].(recommended := false) == QuoteOf(priced[j], trip)
    requires forall t <- priced :: ResolveTariff(tariffs, t.vehicle, area, Some(service)) == Some(t)
    ensures forall q <- quotes :: BookQuoted(tariffs, q.vehicle, area, service, trip) == Ok(q.fare)
  {
    hide ResolveTariff, QuoteOf, BookQuoted;
    forall j | 0 <= j < |quotes|
      ensures BookQuoted(tariffs, quotes[j].vehicle, area, service, trip) == Ok(quotes[j].fare)
    {
      assert priced[j] in priced;
      QuoteIsBooking(tariffs, priced[j], area, service, trip);
      QuoteShape(priced[j], trip);
    }
  }

  lemma QuotedWhenPriced(priced: seq<Tariff>, quotes: seq<Quote>, t: Tariff, trip: Trip)
    requires |quotes| == |priced| && t in priced
    requires forall j :: 0 <= j < |quotes| ==> quotes[j].(recommended := false) == QuoteOf(priced[j], trip)
    ensures Quoted(quotes, t.vehicle)
  {
    var j :| 0 <= j < |priced| && priced[j] == t;
    QuoteShape(t, trip);
    assert quotes[j] in quotes;
    hide QuoteOf;
  }

  lemma QuoteShape(t: Tariff, trip: Trip)
    ensures QuoteOf(t, trip).vehicle == t.vehicle && !QuoteOf(t, trip).recommended
  {}

  /** The first of the cheapest. */
  method Cheapest(quotes: seq<Quote>) returns (c: nat)
    requires quotes != []
    ensures c < |quotes|
    ensures forall i :: 0 <= i < |quotes| ==> quotes[c].fare.total <= quotes[i].fare.total
    ensures forall i :: 0 <= i < c ==> quotes[c].fare.total < quotes[i].fare.total
  {
    c := 0;
    for i := 1 to |quotes|
      invariant c < i
      invariant forall j :: 0 <= j < i ==> quotes[c].fare.total <= quotes[j].fare.total
      invariant forall j :: 0 <= j < c ==> quotes[c].fare.total < quotes[j].fare.total
    {
      if quotes[i].fare.total < quotes[c].fare.total {
        c := i;
      }
    }
  }
}
