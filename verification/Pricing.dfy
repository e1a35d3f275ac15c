/**
 Fares: the tariff formula, promo and tax, and the split of a completed fare. Every rounding goes through
 `roundMoney`, which is Money.Column here.
 */
module Pricing {
  import opened Option
  import opened Money
  import opened Promos

  /** The priced part of a tariff, from money columns. */
  datatype Rates = Rates(baseFare: int, perKm: int, perMinute: int, minimumFare: int)

  datatype Breakdown = Breakdown(subtotal: int, discount: int, tax: int, total: int)

  function Max(x: real, y: real): real {
    if x >= y then x else y
  }

  function Min(x: real, y: real): real {
    if x <= y then x else y
  }

  function CalculateFare(r: Rates, km: real, minutes: real): int {
    Column(Max(r.baseFare as real + Portion(km, r.perKm as real) + Portion(minutes, r.perMinute as real), r.minimumFare as real))
  }

  function BuildFareBreakdown(subtotal: real, promoDiscount: real, taxRate: real): Breakdown {
    var rounded := Column(subtotal);
    var discount := Column(Min(promoDiscount, rounded as real));
    var tax := Column(Portion((rounded - discount) as real, taxRate));
    Breakdown(rounded, discount, tax, rounded - discount + tax)
  }

  /** The fare of a booking: a subtotal, the promo it was booked with, the tax rate in force. */
  function Price(subtotal: int, promo: Option<Promo>, taxRate: real): Breakdown {
    BuildFareBreakdown(subtotal as real, if promo.Some? then Discount(promo.value, subtotal as real) else 0.0, taxRate)
  }

  function Commission(b: Breakdown, rate: real): int {
    Column(Portion((b.total - b.tax) as real, rate))
  }

  // ---------------------------------------------------------------- one breakdown

  /** Nothing is negative, the discount never exceeds the fare, the parts add up, and tax is right to half a kobo. */
  lemma BreakdownIsSound(subtotal: real, promoDiscount: real, taxRate: real)
    requires subtotal >= 0.0 && promoDiscount >= 0.0 && taxRate >= 0.0
    ensures var b := BuildFareBreakdown(subtotal, promoDiscount, taxRate);
            && 0 <= b.discount <= b.subtotal && b.tax >= 0 && b.total == b.subtotal - b.discount + b.tax
            && -0.5 <= b.tax as real - Portion((b.subtotal - b.discount) as real, taxRate) <= 0.5
            && -0.5 <= b.subtotal as real - subtotal <= 0.5
            && (promoDiscount <= b.subtotal as real ==> -0.5 <= b.discount as real - promoDiscount <= 0.5)
            && (promoDiscount >= b.subtotal as real ==> b.discount == b.subtotal)
  {
    hide Column, Portion;
    var b := BuildFareBreakdown(subtotal, promoDiscount, taxRate);
    ColumnIsNearest(subtotal);
    ColumnNonNegative(subtotal);
    ColumnNonNegative(Min(promoDiscount, b.subtotal as real));
    ColumnIsNearest(Min(promoDiscount, b.subtotal as real));
    ColumnAtMostWhole(Min(promoDiscount, b.subtotal as real), b.subtotal);
    ColumnOfWhole(b.subtotal);
    var taxable := b.subtotal - b.discount;
    PortionAgainstWhole(taxable as real, taxRate);
    ColumnNonNegative(Portion(taxable as real, taxRate));
    ColumnIsNearest(Portion(taxable as real, taxRate));
  }

  /** Tax at its rate on what the discount leaves, to the nearest kobo, is part of the total. */
  ghost predicate TaxedAt(b: Breakdown, taxRate: real) {
    IsNearest(b.tax, (b.subtotal - b.discount) as real * taxRate) && b.total == b.subtotal - b.discount + b.tax
  }

  /** The breakdown of a subtotal that is whole already. */
  lemma BreakdownIs(subtotal: int, promoDiscount: real, taxRate: real)
    ensures var b := BuildFareBreakdown(subtotal as real, promoDiscount, taxRate);
            && b.subtotal == subtotal && TaxedAt(b, taxRate)
            && (promoDiscount <= subtotal as real ==> IsNearest(b.discount, promoDiscount))
            && (promoDiscount >= subtotal as real ==> b.discount == subtotal)
  {
    ColumnIsTheNearest(promoDiscount);
    ColumnOfWhole(subtotal);
    var b := BuildFareBreakdown(subtotal as real, promoDiscount, taxRate);
    ColumnIsTheNearest(Portion((b.subtotal - b.discount) as real, taxRate));
    hide Column;
  }

  /** What is left to tax only falls as the discount grows, so the total does too. */
  lemma TotalFallsWithDiscount(subtotal: real, less: real, more: real, taxRate: real)
    requires subtotal >= 0.0 && 0.0 <= less <= more && taxRate >= 0.0
    ensures BuildFareBreakdown(subtotal, more, taxRate).total <= BuildFareBreakdown(subtotal, less, taxRate).total
  {
    hide Column, Portion;
    var a, b := BuildFareBreakdown(subtotal, less, taxRate), BuildFareBreakdown(subtotal, more, taxRate);
    ColumnMonotone(Min(less, a.subtotal as real), Min(more, a.subtotal as real));
    PortionMonotone((b.subtotal - b.discount) as real, (a.subtotal - a.discount) as real, taxRate);
    ColumnMonotone(Portion((b.subtotal - b.discount) as real, taxRate), Portion((a.subtotal - a.discount) as real, taxRate));
  }

  /** The discounted fare never falls when the subtotal grows by any number of kobo under one promo. */
  lemma TaxableGrows(s: nat, k: nat, promo: Option<Promo>, taxRate: real)
    requires promo.Some? ==> Accepted(promo.value)
    ensures var a, b := Price(s, promo, taxRate), Price(s + k, promo, taxRate);
            a.subtotal == s && b.subtotal == s + k && a.subtotal - a.discount <= b.subtotal - b.discount
  {
    hide Column, Portion, Discount;
    ColumnOfWhole(s);
    ColumnOfWhole(s + k);
    ColumnOfWhole(0);
    if promo.Some? {
      var p := promo.value;
      var x, y := Min(Discount(p, s as real), s as real), Min(Discount(p, (s + k) as real), (s + k) as real);
      DiscountGrowsWithFare(p, s as real, (s + k) as real);
      if p.kind.Percentage? && p.value > 100.0 {
        CappedDiscount(p, s as real, k as real);
      }
      assert y <= x + k as real;
      ColumnMonotone(y, x + k as real);
      ColumnShift(x, k);
    }
  }

  /** Above 100 percent the discount is the whole fare until the cap takes over. */
  lemma CappedDiscount(p: Promo, s: real, k: real)
    requires Accepted(p) && p.kind.Percentage? && p.value > 100.0 && s >= 0.0 && k >= 0.0
    ensures Min(Discount(p, s + k), s + k) <= Min(Discount(p, s), s) + k
  {
    PortionAgainstWhole(s, p.value / 100.0);
    PortionMonotone(s, s + k, p.value / 100.0);
    PortionAgainstWhole(s + k, p.value / 100.0);
    hide Portion;
  }

  /** The fare total never decreases when the subtotal grows, whatever the promo, the growth and the tax rate. */
  lemma TotalGrowsWithSubtotal(s: nat, k: nat, promo: Option<Promo>, taxRate: real)
    requires (promo.Some? ==> Accepted(promo.value)) && taxRate >= 0.0
    ensures Price(s, promo, taxRate).total <= Price(s + k, promo, taxRate).total
  {
    hide Column, Portion, Discount;
    var a, b := Price(s, promo, taxRate), Price(s + k, promo, taxRate);
    TaxableGrows(s, k, promo, taxRate);
    PortionMonotone((a.subtotal - a.discount) as real, (b.subtotal - b.discount) as real, taxRate);
    ColumnMonotone(Portion((a.subtotal - a.discount) as real, taxRate), Portion((b.subtotal - b.discount) as real, taxRate));
  }

  /**
   A trip costs the base fare and each kilometre and minute at its rate, to the nearest kobo, unless that comes to
   less than the minimum fare, which is then the fare.
   */
  ghost predicate Metered(fare: int, r: Rates, km: real, minutes: real) {
    var metered := r.baseFare as real + km * r.perKm as real + minutes * r.perMinute as real;
    && (metered >= r.minimumFare as real ==> IsNearest(fare, metered))
    && (metered <= r.minimumFare as real ==> fare == r.minimumFare)
  }

  lemma FareIsMetered(r: Rates, km: real, minutes: real)
    ensures Metered(CalculateFare(r, km, minutes), r, km, minutes)
  {
    var metered := r.baseFare as real + km * r.perKm as real + minutes * r.perMinute as real;
    assert CalculateFare(r, km, minutes) == Column(Max(metered, r.minimumFare as real));
    ColumnIsTheNearest(metered);
    ColumnOfWhole(r.minimumFare);
    hide Column, Portion, CalculateFare, IsNearest;
  }

  /** A longer or slower trip is never cheaper, and no trip costs less than the minimum fare. */
  lemma FareGrowsWithTrip(r: Rates, km: real, minutes: real, moreKm: real, moreMinutes: real)
    requires r.perKm >= 0 && r.perMinute >= 0 && km <= moreKm && minutes <= moreMinutes
    ensures r.minimumFare <= CalculateFare(r, km, minutes) <= CalculateFare(r, moreKm, moreMinutes)
  {
    hide Column, Portion;
    PortionMonotone(km, moreKm, r.perKm as real);
    PortionMonotone(minutes, moreMinutes, r.perMinute as real);
    var x := r.baseFare as real + Portion(km, r.perKm as real) + Portion(minutes, r.perMinute as real);
    var y := r.baseFare as real + Portion(moreKm, r.perKm as real) + Portion(moreMinutes, r.perMinute as real);
    ColumnMonotone(Max(x, r.minimumFare as real), Max(y, r.minimumFare as real));
    ColumnOfWhole(r.minimumFare);
    ColumnMonotone(r.minimumFare as real, Max(x, r.minimumFare as real));
  }

  // ---------------------------------------------------------------- completion

  /** Commission, driver share and tax add up to the fare, none is negative, and the commission is right to half a kobo. */
  lemma CompletionSplitsFare(subtotal: nat, promo: Option<Promo>, taxRate: real, rate: real)
    requires (promo.Some? ==> Accepted(promo.value)) && taxRate >= 0.0 && 0.0 <= rate <= 1.0
    ensures var b := Price(subtotal, promo, taxRate);
            var c := Commission(b, rate);
            var driver := b.total - c - b.tax;
            && c >= 0 && driver >= 0 && b.tax >= 0 && c + driver + b.tax == b.total
            && -0.5 <= c as real - Portion((b.subtotal - b.discount) as real, rate) <= 0.5
  {
    hide Column, Portion, Discount;
    var b := Price(subtotal, promo, taxRate);
    if promo.Some? {
      DiscountGrowsWithFare(promo.value, 0.0, subtotal as real);
    }
    BreakdownIsSound(subtotal as real, if promo.Some? then Discount(promo.value, subtotal as real) else 0.0, taxRate);
    var taxable := b.total - b.tax;
    PortionAgainstWhole(taxable as real, rate);
    ColumnNonNegative(Portion(taxable as real, rate));
    ColumnAtMostWhole(Portion(taxable as real, rate), taxable);
    ColumnIsNearest(Portion(taxable as real, rate));
  }
}
