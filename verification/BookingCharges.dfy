/**
 Whom a booking charges and pays: what every account gains when it completes and when it is cancelled, when
 the payment goes through, and that a resolved dispute takes it back.
 */
module BookingCharges {
  import opened Option
  import opened Money
  import opened Bookings
  import opened BookingSpec
  import opened WalletSpec
  import opened Ledger
  import opened Effects
  import opened Movements
  import opened Revenue
  import opened Drift
  import opened BookingMoney
  import opened WalletOutcomes
  import BookingSafety
  import Transfers
  import TopUps

  /** Nothing has been posted for the booking. */
  ghost predicate Uncharged(s: State) {
    forall n <- s.books.ledger.byReference :: n.subject != BookingSpec.Subject(s.booking.terms)
  }

  /** Every booking of a run that has neither completed nor been cancelled is. */
  lemma LiveIsUncharged(s: State)
    requires BookingSafety.Sound(s) && !s.booking.rows.status.Completed? && !s.booking.rows.status.Cancelled?
    ensures Uncharged(s)
  {}

  // ---------------------------------------------------------------- one posting

  /** And writes one transaction that says so. */
  lemma FirstPostWrites(b: Books, op: Op, a: Account)
    requires Solvent(b.ledger.balances) && Reversals(b.ledger) && Admissible(b.ledger, op)
    requires !op.RefundTransaction? && !op.PayInvoice? && op.reference !in b.ledger.byReference && Step(b, op).1.Ok?
    ensures var l, m := b.ledger, Step(b, op).0.ledger;
            && |m.log| == |l.log| + 1
            && BalanceOf(m.balances, a) == BalanceOf(l.balances, a) + EntrySum(m.log[|l.log|].entries, Only(a))
  {
    var l, m := b.ledger, Step(b, op).0.ledger;
    StepMovesGroup(b, op, Only(a));
    StepMovesHistory(b, op, Only(a));
    GroupSumOnly(l.balances, a);
    GroupSumOnly(m.balances, a);
    FirstCommitWrites(b, op);
    Transfers.StepGrows(b, op);
    assert m.log[..|l.log|] == l.log;
    hide Step, Admissible, PlanOf, StoredSum, GroupSum, Solvent, Reversals, EntrySum, Effect, Transfers.Grows;
  }

  lemma RefusedMovesNothing(b: Books, op: Op)
    requires !op.RefundTransaction? && !op.PayInvoice? && Step(b, op).1.Err?
    ensures Moved(b.ledger, Step(b, op).0.ledger, map[])
  {
    var ready := OpenAll(b.ledger, PlanOf(op).opens);
    OpenAllMovesNothing(b.ledger, PlanOf(op).opens);
    hide OpenAll, PlanOf, Missing, Apply, Balanced, GroupSum;
    assert Step(b, op).0.ledger == ready;
  }

  // ---------------------------------------------------------------- completion

  /** Wallet: the customer pays driver, platform and tax office. Cash: the driver owes. Invoice: the business owes. */
  function CompletionGains(t: Terms, fare: int, tax: int, driver: nat, commission: int): map<Account, int> {
    if t.paidBy.Wallet? then
      map[Owned(t.customer, RiderWallet) := -fare, Owned(driver, DriverWallet) := fare - commission - tax,
          Platform(PlatformRevenue) := commission, Platform(PlatformTaxPayable) := tax]
    else if t.paidBy.Invoice? && t.service.Delivery? then
      map[Owned(t.paidBy.business, BusinessCreditPayable) := fare, Platform(PlatformGatewayClearing) := -fare]
    else
      map[Owned(driver, DriverCommissionPayable) := commission + tax, Platform(PlatformGatewayClearing) := -commission - tax]
  }

  /** From l to m the fare was paid, with the commission at its rate of the fare without tax, to the nearest kobo. */
  ghost predicate CompletionShared(t: Terms, fare: real, tax: real, driver: nat, rate: real, l: Ledger, m: Ledger) {
    exists commission: int ::
      IsNearest(commission, rate * (fare - tax)) && Moved(l, m, CompletionGains(t, fare.Floor, tax.Floor, driver, commission))
  }

  lemma WholeGains(b: Booking, driver: nat, commission: int, a: Account)
    requires PricedFare(b.fare, b.tax)
    ensures Change(FareOp(b, driver, commission as real), a)
         == var gains := CompletionGains(b.terms, b.fare.Floor, b.tax.Floor, driver, commission);
            if a in gains then gains[a] else 0
  {
    var fare, tax := b.fare.Floor, b.tax.Floor;
    ColumnOfWhole(fare);
    ColumnOfWhole(tax);
    ColumnOfWhole(commission);
    ColumnOfWhole(commission + tax);
    ColumnOfWhole(fare - commission - tax);
    hide Column;
  }

  /** What the commission is, and that completing charges it. */
  lemma CompletionCommission(b: Booking, rate: real)
    requires PricedFare(b.fare, b.tax) && IsRate(rate)
    ensures var c := CommissionOf(b.fare, b.tax, rate);
            && c == c.Floor as real && IsNearest(c.Floor, rate * (b.fare - b.tax)) && 0.0 <= c <= b.fare - b.tax
            && CleanSplit(b.fare, c, b.tax)
  {
    CommissionIsShare(b.fare, b.tax, rate);
    ColumnIsTheNearest(Portion(b.fare - b.tax, rate));
    assert Portion(b.fare - b.tax, rate) == rate * (b.fare - b.tax);
    hide Column, Portion;
  }

  /** ride:<id> or delivery:<id>; what a cash trip owes is under the same with :commission, a fee with :cancellation. */
  function ChargeReference(t: Terms, suffix: Suffix): Reference {
    Reference(if t.service.Ride? then RideOf(t.id) else DeliveryOf(t.id), suffix)
  }

  function FareReference(t: Terms): Reference {
    ChargeReference(t, if t.paidBy.Wallet? || (t.paidBy.Invoice? && t.service.Delivery?) then Plain else Suffix.Commission)
  }

  /** The fare as posted. */
  lemma FarePosts(b: Booking, books: Books, driver: nat, rate: real)
    requires Sturdy(books.ledger) && PricedFare(b.fare, b.tax) && IsRate(rate) && FareRef(b.terms) !in books.ledger.byReference
    requires Step(books, FareOp(b, driver, CommissionOf(b.fare, b.tax, rate))).1.Ok?
    ensures CompletionShared(b.terms, b.fare, b.tax, driver, rate, books.ledger,
                             Step(books, FareOp(b, driver, CommissionOf(b.fare, b.tax, rate))).0.ledger)
  {
    var c := CommissionOf(b.fare, b.tax, rate);
    var op := FareOp(b, driver, c);
    var after := Step(books, op).0.ledger;
    var gains := CompletionGains(b.terms, b.fare.Floor, b.tax.Floor, driver, c.Floor);
    CompletionCommission(b, rate);
    assert IsNearest(c.Floor, rate * (b.fare - b.tax));
    CompletionIsClean(b, driver, rate);
    SturdyParts(books.ledger);
    assert op.reference == FareRef(b.terms) && !op.RefundTransaction? && !op.PayInvoice?;
    hide CommissionOf, Step, Sturdy, Clean, ProperReference, CompletionGains, IsNearest, BalanceOf, FareOp, Change, Solvent, Reversals, Indexed;
    forall a: Account
      ensures BalanceOf(after.balances, a) == BalanceOf(books.ledger.balances, a) + if a in gains then gains[a] else 0
    {
      FirstPostMoves(books, op, a);
      WholeGains(b, driver, c.Floor, a);
    }
    assert Moved(books.ledger, after, gains);
    hide Moved;
  }

  /**
   A completed booking charges and pays exactly whom it should, exactly once, to the kobo: no other account moves,
   and a wallet payment is the transaction the booking records.
   */
  lemma CompletionPays(s: State, driver: nat, rate: real)
    requires Sturdy(s.books.ledger) && Uncharged(s) && PricedFare(s.booking.fare, s.booking.tax) && IsRate(rate)
    requires Act(s, Complete(driver, Some(rate))).1.None?
    ensures var t := Act(s, Complete(driver, Some(rate))).0;
            && CompletionShared(s.booking.terms, s.booking.fare, s.booking.tax, driver, rate, s.books.ledger, t.books.ledger)
            && t.booking.rows == s.booking.rows.(status := Bookings.Completed)
            && |t.books.ledger.log| == |s.books.ledger.log| + 1
            && t.books.ledger.log[|s.books.ledger.log|].reference == FareReference(s.booking.terms)
            && t.booking.transaction == (if s.booking.terms.paidBy.Wallet? then Some(|s.books.ledger.log|) else None)
  {
    var op := FareOp(s.booking, driver, CommissionOf(s.booking.fare, s.booking.tax, rate));
    assert op.reference == FareRef(s.booking.terms) && op.reference.subject == BookingSpec.Subject(s.booking.terms);
    assert !op.RefundTransaction? && !op.PayInvoice?;
    hide CommissionOf, Step, Sturdy, CompletionShared, FareOp;
    FarePosts(s.booking, s.books, driver, rate);
    FirstCommitWrites(s.books, op);
  }

  lemma SturdyParts(l: Ledger)
    requires Sturdy(l)
    ensures Solvent(l.balances) && Reversals(l) && Indexed(l)
  {}

  /** And completion goes through exactly when it is the driver's to complete and the customer's wallet covers it. */
  lemma CompletionSucceedsIff(s: State, driver: nat, rate: real)
    requires Uncharged(s) && TopUps.Seeded(s.books.ledger) && PricedFare(s.booking.fare, s.booking.tax) && IsRate(rate)
    ensures var (t, refusal) := Act(s, Complete(driver, Some(rate)));
            && (refusal.None? <==>
                  && s.booking.rows.driver == Some(driver)
                  && s.booking.rows.status == (if s.booking.terms.service.Ride? then InProgress else PickedUp)
                  && (s.booking.terms.service.Delivery? ==> s.booking.proof)
                  && (s.booking.terms.paidBy.Wallet? ==>
                        BalanceOf(s.books.ledger.balances, Owned(s.booking.terms.customer, RiderWallet)) as real >= s.booking.fare))
            && (refusal.Some? ==> t.booking == s.booking && Moved(s.books.ledger, t.books.ledger, map[]))
  {
    var op := FareOp(s.booking, driver, CommissionOf(s.booking.fare, s.booking.tax, rate));
    FareCommitsIff(s, driver, rate);
    hide CommissionOf, Step, BalanceOf, TopUps.Seeded, FareOp, Moved, Uncharged, Whole;
    if Step(s.books, op).1.Err? {
      RefusedMovesNothing(s.books, op);
    }
  }

  lemma FareCommitsIff(s: State, driver: nat, rate: real)
    requires Uncharged(s) && TopUps.Seeded(s.books.ledger) && PricedFare(s.booking.fare, s.booking.tax) && IsRate(rate)
    ensures var op := FareOp(s.booking, driver, CommissionOf(s.booking.fare, s.booking.tax, rate));
            && !op.RefundTransaction? && !op.PayInvoice?
            && (Step(s.books, op).1.Ok? <==>
                  (s.booking.terms.paidBy.Wallet? ==>
                     BalanceOf(s.books.ledger.balances, Owned(s.booking.terms.customer, RiderWallet)) as real >= s.booking.fare))
  {
    var op := FareOp(s.booking, driver, CommissionOf(s.booking.fare, s.booking.tax, rate));
    CompletionIsClean(s.booking, driver, rate);
    assert op.reference == FareRef(s.booking.terms) && op.reference.subject == BookingSpec.Subject(s.booking.terms);
    hide CommissionOf, Step, BalanceOf, TopUps.Seeded, Clean;
    PlannedCommitsIff(s.books, op);
  }

  // ---------------------------------------------------------------- cancellation

  /** The fee as a tariff states it: money, and a rate of the commission rule. */
  ghost predicate Chargeable(charge: Option<Charge>) {
    charge.Some? ==> Whole(charge.value.fee) && charge.value.fee >= 0.0 && IsRate(charge.value.rate)
  }

  /** The customer pays the fee; driver and platform share it, each share rounded by itself. */
  function FeeGains(b: Booking, fee: int, share: int, commission: int): map<Account, int>
    requires b.rows.driver.Some?
  {
    map[Owned(b.terms.customer, RiderWallet) := -fee, Owned(b.rows.driver.value, DriverWallet) := share,
        Platform(PlatformRevenue) := commission]
  }

  /** From l to m the fee was paid: the platform got its rate of it to the nearest kobo, and the driver what that leaves. */
  ghost predicate FeeShared(b: Booking, charge: Charge, l: Ledger, m: Ledger)
    requires b.rows.driver.Some?
  {
    exists commission: int, share: int ::
      && IsNearest(commission, charge.rate * charge.fee) && IsNearest(share, charge.fee - charge.rate * charge.fee)
      && Moved(l, m, FeeGains(b, charge.fee.Floor, share, commission))
  }

  lemma FeeMoves(b: Booking, fee: real, cut: real, a: Account)
    requires b.rows.driver.Some? && Whole(fee)
    ensures var gains := FeeGains(b, fee.Floor, Column(fee - cut), Column(cut));
            FareMoves(a, Owned(b.terms.customer, RiderWallet), b.rows.driver.value, fee, cut, 0.0) == if a in gains then gains[a] else 0
  {
    ColumnOfWhole(fee.Floor);
    ColumnOfWhole(0);
    assert fee - cut - 0.0 == fee - cut;
    hide Column;
  }

  lemma FeeShares(b: Booking, charge: Charge, a: Account)
    requires b.rows.driver.Some? && Chargeable(Some(charge))
    ensures var cut := charge.rate * charge.fee;
            var commission, share := Column(cut), Column(charge.fee - cut);
            && IsNearest(commission, cut) && IsNearest(share, charge.fee - cut)
            && Change(FeeOp(b, b.rows.driver.value, charge), a)
               == if a in FeeGains(b, charge.fee.Floor, share, commission) then FeeGains(b, charge.fee.Floor, share, commission)[a] else 0
  {
    var cut := charge.rate * charge.fee;
    assert cut == charge.Commission();
    hide Column, Portion, FareMoves, FeeGains, IsNearest, Whole, Charge.Commission;
    ColumnIsTheNearest(cut);
    ColumnIsTheNearest(charge.fee - cut);
    FeeMoves(b, charge.fee, cut, a);
    FeeChange(b, charge, a);
  }

  lemma FeeChange(b: Booking, charge: Charge, a: Account)
    requires b.rows.driver.Some?
    ensures Change(FeeOp(b, b.rows.driver.value, charge), a)
         == FareMoves(a, Owned(b.terms.customer, RiderWallet), b.rows.driver.value, charge.fee, charge.Commission(), 0.0)
  {
    hide FareMoves, Portion, Column;
  }

  /** The fee as posted. */
  lemma FeePosts(b: Booking, books: Books, charge: Charge)
    requires Firm(books.ledger) && b.rows.driver.Some? && Chargeable(Some(charge))
    requires FeeRef(b.terms) !in books.ledger.byReference && Step(books, FeeOp(b, b.rows.driver.value, charge)).1.Ok?
    ensures FeeShared(b, charge, books.ledger, Step(books, FeeOp(b, b.rows.driver.value, charge)).0.ledger)
  {
    var op := FeeOp(b, b.rows.driver.value, charge);
    var after := Step(books, op).0.ledger;
    var cut := charge.rate * charge.fee;
    var commission, share := Column(cut), Column(charge.fee - cut);
    FirmParts(books.ledger);
    RevenueIsNotNegative(books.ledger);
    CancellationIsFractional(b, b.rows.driver.value, charge);
    assert op.reference == FeeRef(b.terms) && Admissible(books.ledger, op);
    FeeShares(b, charge, REVENUE);
    hide Step, Firm, Column, IsNearest, Change, BalanceOf, FeeGains, FractionalSplit, ProperReference, FeeOp, Admissible, Accounted, Indexed, Solvent, Reversals;
    forall a: Account
      ensures BalanceOf(after.balances, a) == BalanceOf(books.ledger.balances, a)
           + if a in FeeGains(b, charge.fee.Floor, share, commission) then FeeGains(b, charge.fee.Floor, share, commission)[a] else 0
    {
      FirstPostMoves(books, op, a);
      FeeShares(b, charge, a);
    }
    assert Moved(books.ledger, after, FeeGains(b, charge.fee.Floor, share, commission));
    hide Moved;
  }

  /**
   A customer who backs out pays the fee, and the driver gets what the commission leaves of it. Nobody pays for any
   other cancellation, and either way the booking is cancelled and records the fee.
   */
  lemma CancellationPays(s: State, user: nat, charge: Option<Charge>)
    requires Firm(s.books.ledger) && Uncharged(s) && Chargeable(charge)
    requires Act(s, Cancel(user, charge)).1.None?
    ensures var t := Act(s, Cancel(user, charge)).0;
            var status := s.booking.rows.status;
            var backsOut := (status == Accepted || status == Arrived) && user == s.booking.terms.customer && s.booking.rows.driver.Some?;
            && t.booking.rows.status == Cancelled && t.booking.rows.driver == s.booking.rows.driver
            && if backsOut then
                 charge.Some? && t.booking.fee == charge.value.fee
                 && FeeShared(s.booking, charge.value, s.books.ledger, t.books.ledger)
                 && ChargeReference(s.booking.terms, Cancellation) in t.books.ledger.byReference
               else t.books == s.books && t.booking.fee == 0.0
  {
    CancelledCharge(s, user, charge);
    if OwesFee(s.booking, user) {
      FeePosts(s.booking, s.books, charge.value);
      FeeIsNamed(s.booking, s.books, charge.value);
    }
    hide Act, Step, Firm, FeeShared, FeeOp;
  }

  lemma FeeIsNamed(b: Booking, books: Books, charge: Charge)
    requires b.rows.driver.Some? && Step(books, FeeOp(b, b.rows.driver.value, charge)).1.Ok?
    ensures ChargeReference(b.terms, Cancellation) in Step(books, FeeOp(b, b.rows.driver.value, charge)).0.ledger.byReference
  {
    var op := FeeOp(b, b.rows.driver.value, charge);
    OkIsNamed(books, op);
    assert op.reference == ChargeReference(b.terms, Cancellation);
    hide Step;
  }

  lemma CancelledCharge(s: State, user: nat, charge: Option<Charge>)
    requires Uncharged(s) && Act(s, Cancel(user, charge)).1.None?
    ensures var t := Act(s, Cancel(user, charge)).0;
            && t.booking.rows.status == Cancelled && t.booking.rows.driver == s.booking.rows.driver
            && FeeRef(s.booking.terms) !in s.books.ledger.byReference
            && if OwesFee(s.booking, user) then
                 charge.Some? && t.booking.fee == charge.value.fee
                 && Step(s.books, FeeOp(s.booking, s.booking.rows.driver.value, charge.value)).1.Ok?
                 && t.books == Step(s.books, FeeOp(s.booking, s.booking.rows.driver.value, charge.value)).0
               else t.books == s.books && t.booking.fee == 0.0
  {
    assert FeeRef(s.booking.terms).subject == BookingSpec.Subject(s.booking.terms);
    BookingSafety.CancelledRows(s.booking.rows);
    hide Step, CancelRows, FeeOp;
  }

  lemma FirmParts(l: Ledger)
    requires Firm(l)
    ensures Sturdy(l) && Solvent(l.balances) && Reversals(l) && Indexed(l) && Accounted(l)
  {}

  /**
   Cancelling goes through exactly for a participant, before the trip, and, when the customer backs out of a driver who
   had set out, if a tariff names the fee and the customer's wallet covers it.
   */
  lemma CancellationSucceedsIff(s: State, user: nat, charge: Option<Charge>)
    requires TopUps.Seeded(s.books.ledger) && Uncharged(s) && Chargeable(charge)
    ensures var (t, refusal) := Act(s, Cancel(user, charge));
            var b, status := s.booking, s.booking.rows.status;
            && (refusal.None? <==>
                  && (user == b.terms.customer || b.rows.driver == Some(user))
                  && (status == Requested || status == Dispatching || status == NoDriversFound || status == Accepted
                      || status == (if b.terms.service.Ride? then Arrived else Scheduled))
                  && ((status == Accepted || status == Arrived) && user == b.terms.customer && b.rows.driver.Some? ==>
                        charge.Some? && BalanceOf(s.books.ledger.balances, Owned(user, RiderWallet)) as real >= charge.value.fee))
            && (refusal.Some? ==> t.booking == s.booking && Moved(s.books.ledger, t.books.ledger, map[]))
  {
    hide Step, BalanceOf, TopUps.Seeded, CancelRows, CleanSplit;
    if s.booking.rows.driver.Some? && charge.Some? {
      var op := FeeOp(s.booking, s.booking.rows.driver.value, charge.value);
      assert op.reference == FeeRef(s.booking.terms) && op.reference.subject == BookingSpec.Subject(s.booking.terms);
      CancellationIsFractional(s.booking, s.booking.rows.driver.value, charge.value);
      PlannedCommitsIff(s.books, op);
      if Step(s.books, op).1.Err? {
        RefusedMovesNothing(s.books, op);
      }
    }
  }

  // ---------------------------------------------------------------- a resolved dispute

  /** The payment a completed booking records, and what it moved. */
  ghost predicate PaymentMade(s: State, t: State) {
    && t.booking.rows.status == Bookings.Completed && t.booking.transaction == Some(|s.books.ledger.log|)
    && |t.books.ledger.log| == |s.books.ledger.log| + 1
    && forall a: Account :: BalanceOf(t.books.ledger.balances, a)
         == BalanceOf(s.books.ledger.balances, a) + EntrySum(t.books.ledger.log[|s.books.ledger.log|].entries, Only(a))
  }

  /** A completed booking keeps its status and the transaction that paid for it. */
  lemma {:induction false} CompletedKeepsPayment(s: State, actions: seq<Action>)
    requires s.booking.rows.status == Bookings.Completed
    ensures RunActions(s, actions).booking.rows.status == Bookings.Completed
    ensures RunActions(s, actions).booking.transaction == s.booking.transaction
    ensures Transfers.Grows(s.books.ledger, RunActions(s, actions).books.ledger)
    decreases |actions|
  {
    if actions == [] {
      TopUps.SelfGrows(s.books.ledger);
    } else {
      var before := RunActions(s, actions[..|actions| - 1]);
      CompletedKeepsPayment(s, actions[..|actions| - 1]);
      ActOnCompleted(before, actions[|actions| - 1]);
      Transfers.GrowsTransitive(s.books.ledger, before.books.ledger, RunActions(s, actions).books.ledger);
    }
    hide Act, Transfers.Grows;
  }

  lemma ActOnCompleted(s: State, a: Action)
    requires s.booking.rows.status == Bookings.Completed
    ensures Act(s, a).0.booking.rows.status == Bookings.Completed && Act(s, a).0.booking.transaction == s.booking.transaction
    ensures Transfers.Grows(s.books.ledger, Act(s, a).0.books.ledger)
  {
    TopUps.SelfGrows(s.books.ledger);
    forall op
      ensures Transfers.Grows(s.books.ledger, Step(s.books, op).0.ledger)
    {
      Transfers.StepGrows(s.books, op);
    }
    hide Step, VoidPending, MakeOffers, SetOffer, AnyPending, AnyOffered, Capped, Transfers.Grows, FareOp, FeeOp, CommissionOf;
  }

  lemma FareWrites(b: Booking, books: Books, driver: nat, rate: real, a: Account)
    requires Sturdy(books.ledger) && PricedFare(b.fare, b.tax) && IsRate(rate) && FareRef(b.terms) !in books.ledger.byReference
    requires Step(books, FareOp(b, driver, CommissionOf(b.fare, b.tax, rate))).1.Ok?
    ensures var l, m := books.ledger, Step(books, FareOp(b, driver, CommissionOf(b.fare, b.tax, rate))).0.ledger;
            && |m.log| == |l.log| + 1
            && BalanceOf(m.balances, a) == BalanceOf(l.balances, a) + EntrySum(m.log[|l.log|].entries, Only(a))
  {
    var op := FareOp(b, driver, CommissionOf(b.fare, b.tax, rate));
    CompletionIsClean(b, driver, rate);
    SturdyParts(books.ledger);
    assert op.reference == FareRef(b.terms) && !op.RefundTransaction? && !op.PayInvoice?;
    hide Step, CommissionOf, FareOp, Sturdy, Clean, ProperReference, BalanceOf, EntrySum, Solvent, Reversals, Indexed;
    FirstPostWrites(books, op, a);
  }

  lemma PaymentMoves(s: State, driver: nat, rate: real)
    requires Sturdy(s.books.ledger) && Uncharged(s) && PricedFare(s.booking.fare, s.booking.tax) && IsRate(rate)
    requires s.booking.terms.paidBy.Wallet? && Act(s, Complete(driver, Some(rate))).1.None?
    ensures PaymentMade(s, Act(s, Complete(driver, Some(rate))).0)
  {
    var t := Act(s, Complete(driver, Some(rate))).0;
    var op := FareOp(s.booking, driver, CommissionOf(s.booking.fare, s.booking.tax, rate));
    assert FareRef(s.booking.terms).subject == BookingSpec.Subject(s.booking.terms);
    hide Step, CommissionOf, FareOp, Sturdy, BalanceOf, CompletionShared, EntrySum, PricedFare;
    assert t.books == Step(s.books, op).0 && Step(s.books, op).1.Ok?;
    CompletionPays(s, driver, rate);
    hide Act;
    forall a: Account
      ensures BalanceOf(t.books.ledger.balances, a)
           == BalanceOf(s.books.ledger.balances, a) + EntrySum(t.books.ledger.log[|s.books.ledger.log|].entries, Only(a))
    {
      FareWrites(s.booking, s.books, driver, rate, a);
    }
  }

  /** A refund of the payment. */
  lemma RefundTakesBack(s: State, t: State, u: State, a: Account)
    requires PaymentMade(s, t) && Transfers.Grows(t.books.ledger, u.books.ledger) && Reversals(u.books.ledger)
    requires Refund(u.books.ledger, |s.books.ledger.log|).1.Ok?
    ensures var v := Refund(u.books.ledger, |s.books.ledger.log|).0;
            BalanceOf(v.balances, a) - BalanceOf(u.books.ledger.balances, a)
            == BalanceOf(s.books.ledger.balances, a) - BalanceOf(t.books.ledger.balances, a)
  {
    var id := |s.books.ledger.log|;
    var v := Refund(u.books.ledger, id).0;
    assert u.books.ledger.log[id] == t.books.ledger.log[id].(status := u.books.ledger.log[id].status);
    assert u.books.ledger.log[id].entries == t.books.ledger.log[id].entries;
    GroupSumOnly(u.books.ledger.balances, a);
    GroupSumOnly(v.balances, a);
    if u.books.ledger.log[id].status != Reversed {
      RefundUndoes(u.books.ledger, id, Only(a));
    }
    hide EntrySum, GroupSum, Reversals, PostReversing, Transfers.Grows;
  }

  /**
   Completing on the wallet and, whatever has happened since, resolving a dispute with a refund move every account by
   opposite amounts, when the refund goes through; when it does not, nothing changes.
   */
  lemma DisputeUndoesPayment(s: State, driver: nat, rate: real, actions: seq<Action>)
    requires Sturdy(s.books.ledger) && Uncharged(s) && PricedFare(s.booking.fare, s.booking.tax) && IsRate(rate)
    requires s.booking.terms.paidBy.Wallet? && Act(s, Complete(driver, Some(rate))).1.None?
    requires var u := RunActions(Act(s, Complete(driver, Some(rate))).0, actions);
             Reversals(u.books.ledger) && u.booking.terms.service.Delivery?
    ensures var t := Act(s, Complete(driver, Some(rate))).0;
            var u := RunActions(t, actions);
            var (v, refusal) := Act(u, ResolveDispute(true));
            && (refusal.None? ==>
                  forall a: Account :: BalanceOf(v.books.ledger.balances, a) - BalanceOf(u.books.ledger.balances, a)
                                    == BalanceOf(s.books.ledger.balances, a) - BalanceOf(t.books.ledger.balances, a))
            && (refusal.Some? ==> v == u)
  {
    var t := Act(s, Complete(driver, Some(rate))).0;
    var u := RunActions(t, actions);
    var id := |s.books.ledger.log|;
    PaymentMoves(s, driver, rate);
    CompletedKeepsPayment(t, actions);
    hide RunActions, Sturdy, GroupSum, EntrySum, Reversals, PricedFare, Uncharged, BalanceOf, Refund, Transfers.Grows;
    assert u.booking.transaction == Some(id);
    if Refund(u.books.ledger, id).1.Ok? {
      forall a: Account
        ensures BalanceOf(Refund(u.books.ledger, id).0.balances, a) - BalanceOf(u.books.ledger.balances, a)
             == BalanceOf(s.books.ledger.balances, a) - BalanceOf(t.books.ledger.balances, a)
      {
        RefundTakesBack(s, t, u, a);
      }
    } else {
      FailedRefundIsNothing(u.books.ledger, id);
    }
    DisputeRefunds(u, id);
    hide Act;
  }

  lemma DisputeRefunds(u: State, id: nat)
    requires u.booking.transaction == Some(id) && u.booking.terms.service.Delivery?
    ensures var (v, refusal) := Act(u, ResolveDispute(true));
            v == u.(books := u.books.(ledger := Refund(u.books.ledger, id).0)) && (refusal.None? <==> Refund(u.books.ledger, id).1.Ok?)
  {
    hide Refund;
  }
}
