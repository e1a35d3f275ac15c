/**
 What bookings charge is what the ledger's callers owe it: bookings and every other wallet operation together
 keep the books valid exactly until some other caller posts half a kobo.
 */
module BookingMoney {
  import opened Option
  import opened Money
  import opened Bookings
  import opened BookingSpec
  import opened WalletSpec
  import opened Revenue
  import opened Drift
  import opened HalfKobo
  import Ledger
  import Transfers
  import Pricing
  import Promos

  /** As priced: whole kobo, and a tax that is part of the fare. */
  ghost predicate PricedFare(fare: real, tax: real) {
    Whole(fare) && Whole(tax) && 0.0 <= tax <= fare
  }

  predicate IsRate(rate: real) {
    0.0 <= rate <= 1.0
  }

  /** Every fare a booking is created or repriced with is such a fare. */
  lemma PricesAreFares(subtotal: nat, promo: Option<Promos.Promo>, taxRate: real)
    requires (promo.Some? ==> Promos.Accepted(promo.value)) && taxRate >= 0.0
    ensures var b := Pricing.Price(subtotal, promo, taxRate); PricedFare(b.total as real, b.tax as real)
  {
    hide Column, Portion;
    var b := Pricing.Price(subtotal, promo, taxRate);
    Pricing.CompletionSplitsFare(subtotal, promo, taxRate, 0.0);
    ColumnOfWhole(b.total);
    ColumnOfWhole(b.tax);
  }

  lemma CommissionIsShare(fare: real, tax: real, rate: real)
    requires PricedFare(fare, tax) && IsRate(rate)
    ensures Whole(CommissionOf(fare, tax, rate)) && 0.0 <= CommissionOf(fare, tax, rate) <= fare - tax
    ensures CleanSplit(fare, CommissionOf(fare, tax, rate), tax)
  {
    var taxable := fare.Floor - tax.Floor;
    assert fare - tax == taxable as real;
    PortionAgainstWhole(fare - tax, rate);
    ColumnNonNegative(Portion(fare - tax, rate));
    ColumnAtMostWhole(Portion(fare - tax, rate), taxable);
    ColumnOfWhole(Column(Portion(fare - tax, rate)));
    hide Column, Portion;
  }

  /** Completing a booking posts a request the ledger's invariant survives, however it is paid. */
  lemma CompletionIsClean(b: Booking, driver: nat, rate: real)
    requires PricedFare(b.fare, b.tax) && IsRate(rate)
    ensures Clean(FareOp(b, driver, CommissionOf(b.fare, b.tax, rate)))
    ensures ProperReference(FareOp(b, driver, CommissionOf(b.fare, b.tax, rate)))
  {
    var c := CommissionOf(b.fare, b.tax, rate);
    CommissionIsShare(b.fare, b.tax, rate);
    ColumnOfWhole(c.Floor + b.tax.Floor);
    hide CommissionOf;
  }

  /** A cancellation's commission is not rounded, so it needs platform revenue at or above zero. */
  lemma CancellationIsFractional(b: Booking, driver: nat, charge: Charge)
    requires Whole(charge.fee) && charge.fee >= 0.0 && IsRate(charge.rate)
    ensures FractionalSplit(FeeOp(b, driver, charge)) && ProperReference(FeeOp(b, driver, charge))
  {
    PortionAgainstWhole(charge.fee, charge.rate);
    ColumnOfWhole(0);
    hide Portion;
  }

  /** What the tariff, the commission rule and the other callers guarantee of one operation; nothing of the books. */
  ghost predicate Priced(l: Ledger.Ledger, a: Action) {
    match a
    case Complete(_, rate) => rate.Some? ==> IsRate(rate.value)
    case Cancel(_, charge) => charge.Some? ==> Whole(charge.value.fee) && charge.value.fee >= 0.0 && IsRate(charge.value.rate)
    case UpdateStops(_, fare, tax) => PricedFare(fare, tax)
    case Elsewhere(op) => OwedOp(l, op)
    case _ => true
  }

  /** Revenue is accounted for, the fare is a fare, and the booking's own payment is no refund. */
  ghost predicate MoneyFirm(s: State) {
    && Firm(s.books.ledger) && PricedFare(s.booking.fare, s.booking.tax)
    && (s.booking.transaction.Some? ==> Refundable(s.books.ledger, s.booking.transaction.value))
  }

  /** Kept books stay kept, and overstated ones overstated. */
  ghost predicate Follows(l: Ledger.Ledger, m: Ledger.Ledger) {
    (Kept(l) ==> Kept(m)) && (Overstated(l) ==> Overstated(m))
  }

  /** Some other caller posts half a kobo now. */
  predicate HalfElsewhere(s: State, a: Action) {
    a.Elsewhere? && CommitsHalf(s.books, a.op)
  }

  lemma OpFollows(b: Books, op: Op)
    requires OwedOp(b.ledger, op) && !CommitsHalf(b, op)
    ensures Follows(b.ledger, Step(b, op).0.ledger)
  {
    hide Kept, Overstated, Step, CommitsHalf, OwedAmounts;
    if Kept(b.ledger) {
      StepKeepsBooksIff(b, op);
    }
    if Overstated(b.ledger) {
      StepKeepsOverstated(b, op);
    }
  }

  /** One posting operation of the booking. */
  lemma PostingKeeps(s: State, op: Op)
    requires MoneyFirm(s) && OwedOp(s.books.ledger, op) && !op.RefundTransaction? && !op.PayInvoice? && !AsAsked(op)
    ensures var (after, outcome) := Step(s.books, op);
            && Firm(after.ledger) && Follows(s.books.ledger, after.ledger)
            && (s.booking.transaction.Some? ==> Refundable(after.ledger, s.booking.transaction.value))
            && (outcome.Ok? ==> Refundable(after.ledger, outcome.value))
  {
    hide Firm, Follows, PricedFare, Step, Refundable, Transfers.Grows, OwedAmounts;
    StepKeepsFirm(s.books, op);
    OpFollows(s.books, op);
    Transfers.StepGrows(s.books, op);
    if s.booking.transaction.Some? {
      RefundableStays(s.books.ledger, Step(s.books, op).0.ledger, s.booking.transaction.value);
    }
    if Step(s.books, op).1.Ok? {
      OkIsNamed(s.books, op);
      FirmIsIndexed(Step(s.books, op).0.ledger);
      NamedIsRefundable(Step(s.books, op).0.ledger, op.reference);
    }
  }

  lemma FirmIsIndexed(l: Ledger.Ledger)
    requires Firm(l)
    ensures Ledger.Indexed(l) && RevenueStands(l)
  {}

  lemma OtherKeeps(s: State, op: Op)
    requires MoneyFirm(s) && OwedOp(s.books.ledger, op)
    ensures MoneyFirm(s.(books := Step(s.books, op).0))
  {
    hide Firm, PricedFare, Step, Refundable, Transfers.Grows, OwedOp;
    StepKeepsFirm(s.books, op);
    Transfers.StepGrows(s.books, op);
    if s.booking.transaction.Some? {
      RefundableStays(s.books.ledger, Step(s.books, op).0.ledger, s.booking.transaction.value);
    }
  }

  lemma RefundsArePriced(l: Ledger.Ledger, id: nat)
    requires Refundable(l, id)
    ensures OwedOp(l, RefundTransaction(id))
  {}

  lemma CompleteKeepsMoney(s: State, driver: nat, rate: Option<real>)
    requires MoneyFirm(s) && (rate.Some? ==> IsRate(rate.value))
    ensures var t := ActComplete(s, driver, rate).0; MoneyFirm(t) && Follows(s.books.ledger, t.books.ledger)
  {
    hide Step, Firm, Kept, Overstated, Refundable, FareOp, CommissionOf, Clean, ProperReference;
    if rate.Some? {
      var op := FareOp(s.booking, driver, CommissionOf(s.booking.fare, s.booking.tax, rate.value));
      CompletionIsClean(s.booking, driver, rate.value);
      FareOpPosts(s.booking, driver, CommissionOf(s.booking.fare, s.booking.tax, rate.value));
      PostingKeeps(s, op);
      var t := ActComplete(s, driver, rate).0;
      assert t.books == s.books || t.books == Step(s.books, op).0;
      assert t.booking.transaction == s.booking.transaction || t.booking.transaction == Some(Step(s.books, op).1.value) || t.booking.transaction == None;
    }
    hide PricedFare;
  }

  lemma FareOpPosts(b: Booking, driver: nat, commission: real)
    ensures var op := FareOp(b, driver, commission); !op.RefundTransaction? && !op.PayInvoice? && !AsAsked(op)
  {}

  lemma CancelKeepsMoney(s: State, user: nat, charge: Option<Charge>)
    requires MoneyFirm(s) && Priced(s.books.ledger, Cancel(user, charge))
    ensures var t := ActCancel(s, user, charge).0; MoneyFirm(t) && Follows(s.books.ledger, t.books.ledger)
  {
    hide Step, Firm, Kept, Overstated, Refundable, CancelRows, Clean, ProperReference;
    if charge.Some? && s.booking.rows.driver.Some? {
      var op := FeeOp(s.booking, s.booking.rows.driver.value, charge.value);
      CancellationIsFractional(s.booking, s.booking.rows.driver.value, charge.value);
      assert !op.RefundTransaction? && !op.PayInvoice? && !AsAsked(op);
      PostingKeeps(s, op);
      hide FeeOp;
    }
    hide PricedFare;
  }

  /** The other operations post nothing of the booking's own. */
  lemma OthersPostNothing(s: State, a: Action)
    requires !a.Complete? && !a.Cancel? && !a.ResolveDispute? && !a.Elsewhere? && !a.UpdateStops?
    ensures var t := Act(s, a).0;
            t.books == s.books && t.booking.fare == s.booking.fare && t.booking.tax == s.booking.tax
            && t.booking.transaction == s.booking.transaction
  {
    hide Step, DispatchRows, AcceptRows, DeclineRows, AssignRows, ExpireRows, Capped;
  }

  /** What an operation of the booking or of any other caller does to the books. */
  lemma ActKeepsMoney(s: State, a: Action)
    requires MoneyFirm(s) && Priced(s.books.ledger, a)
    ensures MoneyFirm(Act(s, a).0)
    ensures !HalfElsewhere(s, a) ==> Follows(s.books.ledger, Act(s, a).0.books.ledger)
  {
    hide Step, Firm, Kept, Overstated, Refundable, OwedOp, ActComplete, ActCancel, CommitsHalf;
    if a.Complete? {
      CompleteKeepsMoney(s, a.driver, a.rate);
    } else if a.Cancel? {
      CancelKeepsMoney(s, a.user, a.charge);
    } else if a.ResolveDispute? {
      if s.booking.transaction.Some? {
        RefundsArePriced(s.books.ledger, s.booking.transaction.value);
        OtherKeeps(s, RefundTransaction(s.booking.transaction.value));
        RefundFollows(s.books, s.booking.transaction.value);
      }
    } else if a.Elsewhere? {
      OtherKeeps(s, a.op);
      if !HalfElsewhere(s, a) {
        OpFollows(s.books, a.op);
      }
    } else if !a.UpdateStops? {
      OthersPostNothing(s, a);
      hide Act;
    }
  }

  lemma RefundFollows(b: Books, id: nat)
    requires OwedOp(b.ledger, RefundTransaction(id))
    ensures Follows(b.ledger, Step(b, RefundTransaction(id)).0.ledger)
  {
    hide Follows, Step, OwedOp;
    OpFollows(b, RefundTransaction(id));
  }

  /** Half a kobo elsewhere ends it for good. */
  lemma HalfElsewhereBreaks(s: State, a: Action)
    requires MoneyFirm(s) && Priced(s.books.ledger, a) && (Kept(s.books.ledger) || Overstated(s.books.ledger)) && HalfElsewhere(s, a)
    ensures Overstated(Act(s, a).0.books.ledger)
  {
    hide Kept, Overstated, Step, CommitsHalf, OwedAmounts, Firm;
    if Kept(s.books.ledger) {
      StepKeepsBooksIff(s.books, a.op);
    } else {
      StepKeepsOverstated(s.books, a.op);
    }
  }

  ghost predicate PricedRun(s: State, actions: seq<Action>)
    decreases |actions|
  {
    actions == [] ||
    (PricedRun(s, actions[..|actions| - 1]) && Priced(RunActions(s, actions[..|actions| - 1]).books.ledger, actions[|actions| - 1]))
  }

  predicate SomeHalfElsewhere(s: State, actions: seq<Action>)
    decreases |actions|
  {
    actions != []
    && (SomeHalfElsewhere(s, actions[..|actions| - 1]) || HalfElsewhere(RunActions(s, actions[..|actions| - 1]), actions[|actions| - 1]))
  }

  /**
   Bookings and every other wallet operation together, whatever the fees and the withdrawals: the books stay
   valid iff no other caller's withdrawal or settlement that commits is half a kobo out.
   */
  lemma {:induction false} RunKeepsMoneyIff(s: State, actions: seq<Action>)
    requires MoneyFirm(s) && Kept(s.books.ledger) && PricedRun(s, actions)
    ensures MoneyFirm(RunActions(s, actions))
    ensures Ledger.Valid(RunActions(s, actions).books.ledger) <==> !SomeHalfElsewhere(s, actions)
    ensures if SomeHalfElsewhere(s, actions) then Overstated(RunActions(s, actions).books.ledger) else Kept(RunActions(s, actions).books.ledger)
    decreases |actions|
  {
    hide Act, Ledger.Valid, RevenueStands, Priced, MoneyFirm, Overstated, HalfElsewhere;
    if actions != [] {
      var before, last := RunActions(s, actions[..|actions| - 1]), actions[|actions| - 1];
      RunKeepsMoneyIff(s, actions[..|actions| - 1]);
      ActKeepsMoney(before, last);
      if HalfElsewhere(before, last) {
        HalfElsewhereBreaks(before, last);
      }
    }
    if Overstated(RunActions(s, actions).books.ledger) {
      OverstatedIsNotValid(RunActions(s, actions).books.ledger);
    }
  }
}
