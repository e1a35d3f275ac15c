/** Promo codes: who may use one, and what it takes off a fare. */
module Promos {
  import opened Option
  import opened Money

  datatype PromoType = Percentage | Flat

  datatype Line = RideLine | DeliveryLine | KilowattLine

  /** `value` is a percentage, or an amount in kobo; a limit of 0 is no limit. */
  datatype Promo = Promo(kind: PromoType, value: real, maxDiscount: Option<int>, limitTotal: nat, limitPerUser: nat,
                         from: int, until: int, lines: set<Line>, active: bool)

  /** How often the promo has been redeemed, in all and by this user. */
  datatype Usage = Usage(total: nat, byUser: nat)

  datatype Rejection = NotFound | NotValidNow | WrongService | LimitReached | UserLimitReached

  function Validate(promo: Option<Promo>, line: Line, fare: real, usage: Usage, now: int): Result<real, Rejection> {
    if promo.None? || !promo.value.active then Err(NotFound)
    else if now < promo.value.from || now > promo.value.until then Err(NotValidNow)
    else if line !in promo.value.lines then Err(WrongService)
    else if promo.value.limitTotal > 0 && usage.total >= promo.value.limitTotal then Err(LimitReached)
    else if promo.value.limitPerUser > 0 && usage.byUser >= promo.value.limitPerUser then Err(UserLimitReached)
    else Ok(Discount(promo.value, fare))
  }

  function Discount(p: Promo, fare: real): real {
    if p.kind.Percentage? then
      var d := Portion(fare, p.value / 100.0);
      if p.maxDiscount.Some? && d > p.maxDiscount.value as real then p.maxDiscount.value as real else d
    else if p.value < fare then p.value else fare
  }

  /**
   As the admin form accepts it and a column stores it: an amount of less than half a kobo is positive in the form
   and nothing once stored. Nothing keeps a percentage below 100.
   */
  ghost predicate Accepted(p: Promo) {
    p.value >= 0.0 && (p.maxDiscount.Some? ==> p.maxDiscount.value >= 0)
  }

  /** A code applies while it is active, for its own lines, and until its limits are used up; a limit of 0 is none. */
  lemma AppliesIff(promo: Option<Promo>, line: Line, fare: real, usage: Usage, now: int)
    ensures Validate(promo, line, fare, usage, now).Ok? <==>
              && promo.Some? && promo.value.active && promo.value.from <= now <= promo.value.until && line in promo.value.lines
              && (promo.value.limitTotal == 0 || usage.total < promo.value.limitTotal)
              && (promo.value.limitPerUser == 0 || usage.byUser < promo.value.limitPerUser)
    ensures Validate(promo, line, fare, usage, now).Ok? ==> Validate(promo, line, fare, usage, now).value == Discount(promo.value, fare)
  {
    hide Discount;
  }

  /** A flat promo takes its amount off, a percentage its share, and neither more than the fare or the cap allows. */
  lemma DiscountIs(p: Promo, fare: real)
    ensures p.kind.Flat? ==> Discount(p, fare) <= p.value && Discount(p, fare) <= fare && Discount(p, fare) in {p.value, fare}
    ensures p.kind.Percentage? ==>
              var share := p.value * fare / 100.0;
              if p.maxDiscount.Some? && share >= p.maxDiscount.value as real then Discount(p, fare) == p.maxDiscount.value as real
              else Discount(p, fare) == share
  {
    assert fare * (p.value / 100.0) == p.value * fare / 100.0;
  }

  /** A discount never shrinks as the fare grows, and up to 100 percent it never outgrows it. */
  lemma DiscountGrowsWithFare(p: Promo, a: real, b: real)
    requires Accepted(p) && 0.0 <= a <= b
    ensures 0.0 <= Discount(p, a) <= Discount(p, b)
    ensures p.kind.Flat? || p.value <= 100.0 ==> Discount(p, b) - Discount(p, a) <= b - a
  {
    var rate := p.value / 100.0;
    PortionMonotone(a, b, rate);
    PortionAgainstWhole(a, rate);
    PortionAgainstWhole(b - a, rate);
    PortionAdds(a, b - a, rate);
    assert a + (b - a) == b;
    hide Portion;
  }

  /**
   The preview's finalAmount is never negative exactly when the promo is a flat amount, at most 100 percent, or
   capped at nothing. Otherwise a fare small enough not to meet the cap is discounted below zero.
   */
  lemma NeverOverdiscountsIff(p: Promo)
    requires Accepted(p)
    ensures (forall fare: real :: fare >= 0.0 ==> Discount(p, fare) <= fare)
            <==> p.kind.Flat? || p.value <= 100.0 || p.maxDiscount == Some(0)
  {
    hide Portion;
    var rate := p.value / 100.0;
    if p.kind.Flat? || p.value <= 100.0 || p.maxDiscount == Some(0) {
      forall fare: real | fare >= 0.0
        ensures Discount(p, fare) <= fare
      {
        PortionAgainstWhole(fare, rate);
      }
    } else {
      var fare := if p.maxDiscount.Some? then p.maxDiscount.value as real / 2.0 else 1.0;
      PortionAgainstWhole(fare, rate);
      assert fare >= 0.0 && Discount(p, fare) > fare;
    }
  }
}
