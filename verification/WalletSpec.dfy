/**
 What each wallet operation does to the books, and what every run of them keeps. An operation opens the
 user accounts it names, needs its platform accounts to be seeded, and posts one balanced request
 (an invoice payment posts two, or neither).
 */
module WalletSpec {
  import opened Option
  import opened Money
  import opened Ledger

  /** The ledger, and `unsettledCashRideCount` of the drivers that have a status row. */
  datatype Books = Books(ledger: Ledger, cashTrips: map<nat, nat>)

  datatype Op =
    | TopUp(user: nat, amount: real, reference: Reference)
    | PayForRide(payer: nat, driver: nat, fare: real, commission: real, reference: Reference, tax: real)
    | PayForDelivery(payer: nat, driver: nat, fare: real, commission: real, reference: Reference, tax: real)
    | RecordCashRideCommission(driver: nat, amount: real, reference: Reference)
    | RecordCashDeliveryCommission(driver: nat, amount: real, reference: Reference)
    | SettleCommission(driver: nat, amount: real, reference: Reference)
    | ChargeBusinessForDelivery(business: nat, amount: real, reference: Reference)
    | PayInvoice(business: nat, driver: nat, fare: real, commission: real, reference: Reference, tax: real)
    | RequestWithdrawal(driver: nat, amount: real, reference: Reference)
    | PayForKilowattService(user: nat, amount: real, reference: Reference)
    | RecordReferralAccrual(amount: real, reference: Reference)
    | PayReferralPayout(referrer: nat, drives: bool, amount: real, reference: Reference)
    | RefundTransaction(transaction: nat)

  type Outcome = Result<nat, PostError>

  const CLEARING := Platform(PlatformGatewayClearing)
  const REVENUE := Platform(PlatformRevenue)
  const REFERRALS := Platform(PlatformReferralPayable)
  const TAX := Platform(PlatformTaxPayable)

  function Payable(driver: nat): Account {
    Owned(driver, DriverCommissionPayable)
  }

  function CreditLine(business: nat): Account {
    Owned(business, BusinessCreditPayable)
  }

  /** Two legs of one amount. */
  function Transfer(kind: TransactionType, reference: Reference, amount: real, from: Account, to: Account): Request {
    Request(kind, reference, amount, [Posting(from, Debit, amount), Posting(to, Credit, amount)])
  }

  /** A fare split between driver, platform and tax; the tax leg only exists when there is tax. */
  function Split(kind: TransactionType, reference: Reference, payer: Account, driver: nat,
                 fare: real, commission: real, tax: real): Request
  {
    Request(kind, reference, fare,
            [Posting(payer, Debit, fare),
             Posting(Owned(driver, DriverWallet), Credit, fare - commission - tax),
             Posting(REVENUE, Credit, commission)]
            + TaxLegs(tax))
  }

  function TaxLegs(tax: real): seq<Posting> {
    if tax <= 0.0 then [] else [Posting(TAX, Credit, tax)]
  }

  datatype Plan = Plan(opens: seq<Account>, needs: seq<AccountType>, request: Request)

  function TaxNeeds(tax: real): seq<AccountType> {
    if tax <= 0.0 then [] else [PlatformTaxPayable]
  }

  function PlanOf(op: Op): Plan
    requires !op.RefundTransaction? && !op.PayInvoice?
  {
    match op
    case TopUp(u, x, r) =>
      Plan([Owned(u, RiderWallet)], [PlatformGatewayClearing],
           Transfer(WalletTopUp, r, x, CLEARING, Owned(u, RiderWallet)))
    case PayForRide(p, d, f, c, r, t) =>
      Plan([Owned(p, RiderWallet), Owned(d, DriverWallet)], [PlatformRevenue] + TaxNeeds(t),
           Split(RidePaymentWallet, r, Owned(p, RiderWallet), d, f, c, t))
    case PayForDelivery(p, d, f, c, r, t) =>
      Plan([Owned(p, RiderWallet), Owned(d, DriverWallet)], [PlatformRevenue] + TaxNeeds(t),
           Split(DeliveryPaymentWallet, r, Owned(p, RiderWallet), d, f, c, t))
    case RecordCashRideCommission(d, x, r) =>
      Plan([Payable(d)], [PlatformGatewayClearing], Transfer(RidePaymentCash, r, x, CLEARING, Payable(d)))
    case RecordCashDeliveryCommission(d, x, r) =>
      Plan([Payable(d)], [PlatformGatewayClearing], Transfer(DeliveryPaymentCash, r, x, CLEARING, Payable(d)))
    case SettleCommission(d, x, r) =>
      Plan([Payable(d)], [PlatformRevenue], Transfer(CommissionSettlement, r, x, Payable(d), REVENUE))
    case ChargeBusinessForDelivery(b, x, r) =>
      Plan([CreditLine(b)], [PlatformGatewayClearing], Transfer(BusinessDeliveryAccrual, r, x, CLEARING, CreditLine(b)))
    case RequestWithdrawal(d, x, r) =>
      Plan([Owned(d, DriverWallet)], [PlatformGatewayClearing],
           Transfer(WalletWithdrawal, r, x, Owned(d, DriverWallet), CLEARING))
    case PayForKilowattService(u, x, r) =>
      Plan([Owned(u, RiderWallet)], [PlatformRevenue], Transfer(KilowattPayment, r, x, Owned(u, RiderWallet), REVENUE))
    case RecordReferralAccrual(x, r) =>
      Plan([], [PlatformGatewayClearing, PlatformReferralPayable], Transfer(ReferralPayout, r, x, CLEARING, REFERRALS))
    case PayReferralPayout(u, drives, x, r) =>
      var wallet := Owned(u, if drives then DriverWallet else RiderWallet);
      Plan([wallet], [PlatformReferralPayable], Transfer(ReferralPayout, r, x, REFERRALS, wallet))
  }

  function OpenAll(l: Ledger, accounts: seq<Account>): Ledger
    decreases |accounts|
  {
    if accounts == [] then l else OpenAccount(OpenAll(l, accounts[..|accounts| - 1]), accounts[|accounts| - 1])
  }

  /** The first needed platform account that was never seeded. */
  function Missing(l: Ledger, needs: seq<AccountType>): Option<AccountType> {
    if needs == [] then None
    else if Platform(needs[0]) !in l.balances then Some(needs[0])
    else Missing(l, needs[1..])
  }

  /** Cash trips count up; a settlement that clears the debt resets the count. Only existing rows change. */
  function CountTrips(op: Op, trips: map<nat, nat>, after: Ledger): map<nat, nat> {
    match op
    case RecordCashRideCommission(d, _, _) => if d in trips then trips[d := trips[d] + 1] else trips
    case RecordCashDeliveryCommission(d, _, _) => if d in trips then trips[d := trips[d] + 1] else trips
    case SettleCommission(d, _, _) =>
      if d in trips && Payable(d) in after.balances && after.balances[Payable(d)] == 0 then trips[d := 0] else trips
    case _ => trips
  }

  function InvoicePayment(op: Op): Request
    requires op.PayInvoice?
  {
    Split(BusinessInvoicePayment, op.reference, Owned(op.business, BusinessWallet), op.driver,
          op.fare, op.commission, op.tax)
  }

  function InvoiceSettlement(op: Op): Request
    requires op.PayInvoice?
  {
    Transfer(BusinessInvoicePayment, op.reference.(suffix := Settlement), op.fare, CreditLine(op.business), CLEARING)
  }

  /** Both posts of an invoice payment commit, or neither does. */
  function PayInvoiceStep(l: Ledger, op: Op): (Ledger, Outcome)
    requires op.PayInvoice?
  {
    var tax := Missing(l, TaxNeeds(op.tax));
    if tax.Some? then (l, Err(NotSeeded(tax.value)))
    else
      var ready := OpenAll(l, [Owned(op.business, BusinessWallet), Owned(op.driver, DriverWallet), CreditLine(op.business)]);
      var missing := Missing(ready, [PlatformRevenue, PlatformGatewayClearing]);
      if missing.Some? then (ready, Err(NotSeeded(missing.value))) else PostInvoice(ready, op)
  }

  function PostInvoice(l: Ledger, op: Op): (Ledger, Outcome)
    requires op.PayInvoice?
  {
    var (paid, payment) := Post(l, InvoicePayment(op));
    if payment.Err? then (l, payment)
    else
      var (settled, settlement) := Post(paid, InvoiceSettlement(op));
      if settlement.Err? then (l, settlement) else (settled, payment)
  }

  function Step(b: Books, op: Op): (r: (Books, Outcome)) {
    if op.RefundTransaction? then
      var (l, outcome) := Refund(b.ledger, op.transaction);
      (b.(ledger := l), outcome)
    else if op.PayInvoice? then
      var (l, outcome) := PayInvoiceStep(b.ledger, op);
      (b.(ledger := l), outcome)
    else Execute(b, op, PlanOf(op))
  }

  function Execute(b: Books, op: Op, plan: Plan): (r: (Books, Outcome)) {
    var ready := OpenAll(b.ledger, plan.opens);
    var missing := Missing(ready, plan.needs);
    if missing.Some? then (b.(ledger := ready), Err(NotSeeded(missing.value)))
    else
      var (l, outcome) := Post(ready, plan.request);
      if outcome.Err? || plan.request.reference in ready.byReference then (b.(ledger := l), outcome)
      else (Books(l, CountTrips(op, b.cashTrips, l)), outcome)
  }

  function Run(b: Books, ops: seq<Op>): Books
    decreases |ops|
  {
    if ops == [] then b else Step(Run(b, ops[..|ops| - 1]), ops[|ops| - 1]).0
  }

  // ---------------------------------------------------------------- what callers owe

  /** The amounts come from money columns, and no share of a fare is negative. */
  ghost predicate Clean(op: Op) {
    match op
    case PayForRide(_, _, f, c, _, t) => CleanSplit(f, c, t) && Whole(c)
    case PayForDelivery(_, _, f, c, _, t) => CleanSplit(f, c, t) && Whole(c)
    case PayInvoice(_, _, f, c, _, t) => CleanSplit(f, c, t) && Whole(c)
    case RefundTransaction(_) => true
    case _ => Whole(op.amount) && op.amount >= 0.0
  }

  ghost predicate CleanSplit(fare: real, commission: real, tax: real) {
    Whole(fare) && Whole(tax) && commission >= 0.0 && tax >= 0.0 && commission + tax <= fare
  }

  /** A cancellation fee: whole, untaxed, but its commission may carry a fraction of a kobo. */
  ghost predicate FractionalSplit(op: Op) {
    (op.PayForRide? || op.PayForDelivery?) && CleanSplit(op.fare, op.commission, op.tax)
  }

  /** A withdrawal is posted as asked, and commission is settled out of it: no limit to two decimals. */
  predicate AsAsked(op: Op) {
    (op.RequestWithdrawal? || op.SettleCommission?) && op.amount >= 0.0
  }

  /** Of those, anything but half a kobo lands. */
  ghost predicate FractionalTransfer(op: Op) {
    AsAsked(op) && !Half(op.amount)
  }

  /** Only refunds use refund references, and an invoice's own reference has no suffix. */
  ghost predicate ProperReference(op: Op) {
    op.RefundTransaction? || (!op.reference.subject.RefundOf? && (op.PayInvoice? ==> op.reference.suffix == Plain))
  }

  /** Amounts as the services accept them: nothing negative, shares that add up, and withdrawals of any fraction. */
  ghost predicate OwedAmounts(op: Op) {
    Clean(op) || FractionalSplit(op) || AsAsked(op)
  }

  /** What a caller can check before the call, and enough for the books to stay valid. */
  ghost predicate Admissible(l: Ledger, op: Op) {
    && ProperReference(op)
    && (Clean(op) || FractionalTransfer(op) || (FractionalSplit(op) && (REVENUE in l.balances ==> l.balances[REVENUE] >= 0)))
  }

  ghost predicate AdmissibleRun(b: Books, ops: seq<Op>)
    decreases |ops|
  {
    ops == [] ||
    (AdmissibleRun(b, ops[..|ops| - 1]) && Admissible(Run(b, ops[..|ops| - 1]).ledger, ops[|ops| - 1]))
  }

  // ---------------------------------------------------------------- opening accounts

  /** Opening accounts writes nothing and moves nothing. */
  lemma {:induction false} OpenAllMovesNothing(l: Ledger, accounts: seq<Account>)
    ensures var o := OpenAll(l, accounts);
            && o.log == l.log && o.byReference == l.byReference
            && (forall a <- l.balances :: a in o.balances && o.balances[a] == l.balances[a])
            && (forall a :: a in o.balances <==> a in l.balances || a in accounts)
            && (forall a <- o.balances :: a !in l.balances ==> o.balances[a] == 0)
            && (forall g: Group :: GroupSum(o.balances, g) == GroupSum(l.balances, g))
    decreases |accounts|
  {
    if accounts != [] {
      var n := |accounts| - 1;
      OpenAllMovesNothing(l, accounts[..n]);
      OpenAccountMovesNothing(OpenAll(l, accounts[..n]), accounts[n]);
      assert accounts == accounts[..n] + [accounts[n]];
    }
    hide GroupSum;
  }

  lemma {:induction false} OpenAllKeepsSturdy(l: Ledger, accounts: seq<Account>)
    requires Sturdy(l)
    ensures Sturdy(OpenAll(l, accounts))
    decreases |accounts|
  {
    if accounts != [] {
      OpenAllKeepsSturdy(l, accounts[..|accounts| - 1]);
      OpenAccountKeepsSturdy(OpenAll(l, accounts[..|accounts| - 1]), accounts[|accounts| - 1]);
    }
    hide Sturdy, OpenAccount;
  }

  lemma {:induction false} OpenAllKeepsValid(l: Ledger, accounts: seq<Account>)
    requires Valid(l)
    ensures Valid(OpenAll(l, accounts))
    decreases |accounts|
  {
    if accounts != [] {
      OpenAllKeepsValid(l, accounts[..|accounts| - 1]);
      OpenAccountKeepsValid(OpenAll(l, accounts[..|accounts| - 1]), accounts[|accounts| - 1]);
    }
    hide Valid, OpenAccount;
  }

  // ---------------------------------------------------------------- each request is postable

  lemma PlanReference(op: Op)
    requires !op.RefundTransaction? && !op.PayInvoice?
    ensures PlanOf(op).request.reference == op.reference
  {}

  lemma TransferPostable(l: Ledger, kind: TransactionType, reference: Reference, amount: real, from: Account, to: Account)
    requires amount >= 0.0 && !Half(amount) && !reference.subject.RefundOf?
    ensures Postable(l, Transfer(kind, reference, amount, from, to))
  {
    var b, ps := l.balances, Transfer(kind, reference, amount, from, to).postings;
    assert ps[..1] == [ps[0]] && ps[..1][..0] == [];
    HalfOdd(amount);
    if from in b {
      LandsIff(b[from], -amount);
    }
    assert AllLand(b, ps[..1]);
    if Apply(b, ps[..1]).Ok? && to in b {
      LandsIff(Apply(b, ps[..1]).value[to], amount);
    }
    hide Lands, Apply;
  }

  lemma WholeIsNotHalf(x: real)
    requires Whole(x)
    ensures !Half(x)
  {}

  /** What a split posts leg by leg, whatever its tax. */
  lemma SplitLegs(kind: TransactionType, reference: Reference, payer: Account, driver: nat,
                  fare: real, commission: real, tax: real)
    ensures var ps := Split(kind, reference, payer, driver, fare, commission, tax).postings;
            && ps[..3] == [Posting(payer, Debit, fare), Posting(Owned(driver, DriverWallet), Credit, fare - commission - tax),
                           Posting(REVENUE, Credit, commission)]
            && ps[..2] == ps[..3][..2] && ps[..1] == ps[..3][..1]
            && (tax <= 0.0 ==> ps == ps[..3])
            && (tax > 0.0 ==> ps == ps[..3] + [Posting(TAX, Credit, tax)] && ps[..|ps| - 1] == ps[..3])
  {}

  lemma SplitPostable(l: Ledger, kind: TransactionType, reference: Reference, payer: Account, driver: nat,
                      fare: real, commission: real, tax: real)
    requires CleanSplit(fare, commission, tax) && !reference.subject.RefundOf?
    requires Whole(commission) ||
             (Solvent(l.balances) && payer.Owned? && (REVENUE in l.balances ==> l.balances[REVENUE] >= 0))
    ensures Postable(l, Split(kind, reference, payer, driver, fare, commission, tax))
  {
    var ps := Split(kind, reference, payer, driver, fare, commission, tax).postings;
    SplitLegs(kind, reference, payer, driver, fare, commission, tax);
    if Whole(commission) {
      WholeDifference(fare, commission, tax);
      WholeAllLand(l.balances, ps);
    } else {
      SplitLands(l.balances, ps, fare, commission, tax);
    }
  }

  lemma WholeDifference(x: real, y: real, z: real)
    requires Whole(x) && Whole(y) && Whole(z)
    ensures Whole(x - y - z)
  {
    ColumnOfWhole(x.Floor - y.Floor - z.Floor);
  }

  lemma CreditLands(balance: int, amount: real)
    requires balance >= 0 && amount >= 0.0
    ensures Lands(balance, amount)
  {
    LandsIff(balance, amount);
  }

  /** The fractions are all credited to balances that are not negative, so each of them lands. */
  lemma SplitLands(b: Balances, ps: seq<Posting>, fare: real, commission: real, tax: real)
    requires Solvent(b) && (REVENUE in b ==> b[REVENUE] >= 0) && CleanSplit(fare, commission, tax)
    requires |ps| >= 3 && ps[0].account.Owned? && ps[0].direction.Debit? && ps[0].amount == fare
    requires ps[1].account.Owned? && ps[1].direction.Credit? && ps[1].amount == fare - commission - tax
    requires ps[2] == Posting(REVENUE, Credit, commission)
    requires ps == ps[..3] || (|ps| == 4 && ps[3] == Posting(TAX, Credit, tax))
    ensures AllLand(b, ps)
  {
    assert ps[..1] == [ps[0]] && ps[..2][..1] == ps[..1] && ps[..3][..2] == ps[..2];
    WholeAllLand(b, ps[..1]);
    if Apply(b, ps[..1]).Ok? && ps[1].account in b {
      ApplySolvent(b, ps[..1]);
      CreditLands(Apply(b, ps[..1]).value[ps[1].account], ps[1].amount);
    }
    assert AllLand(b, ps[..2]);
    if Apply(b, ps[..2]).Ok? && REVENUE in b {
      assert Apply(b, ps[..2]).value[REVENUE] == b[REVENUE];
      CreditLands(b[REVENUE], commission);
    }
    assert AllLand(b, ps[..3]);
    if |ps| == 4 {
      assert ps[..3] == ps[..|ps| - 1];
      if Apply(b, ps[..3]).Ok? && TAX in b {
        WholeLands(Apply(b, ps[..3]).value[TAX], ps[3]);
      }
    }
  }

  lemma PlanPostable(l: Ledger, op: Op)
    requires !op.RefundTransaction? && !op.PayInvoice? && Admissible(l, op) && Solvent(l.balances)
    ensures Postable(l, PlanOf(op).request)
  {
    var r := PlanOf(op).request;
    if op.PayForRide? || op.PayForDelivery? {
      SplitPostable(l, r.kind, op.reference, Owned(op.payer, RiderWallet), op.driver, op.fare, op.commission, op.tax);
    } else {
      if Whole(op.amount) {
        WholeIsNotHalf(op.amount);
      }
      TransferPostable(l, r.kind, r.reference, r.amount, r.postings[0].account, r.postings[1].account);
    }
  }

  // ---------------------------------------------------------------- what every operation keeps, whatever its amounts

  lemma SplitNonNegative(kind: TransactionType, reference: Reference, payer: Account, driver: nat,
                         fare: real, commission: real, tax: real)
    requires CleanSplit(fare, commission, tax)
    ensures NonNegative(Split(kind, reference, payer, driver, fare, commission, tax).postings)
  {}

  lemma PlanNonNegative(op: Op)
    requires !op.RefundTransaction? && !op.PayInvoice? && OwedAmounts(op)
    ensures NonNegative(PlanOf(op).request.postings)
  {
    if op.PayForRide? || op.PayForDelivery? {
      var kind := if op.PayForRide? then RidePaymentWallet else DeliveryPaymentWallet;
      SplitNonNegative(kind, op.reference, Owned(op.payer, RiderWallet), op.driver, op.fare, op.commission, op.tax);
    }
    hide Split, CleanSplit, Whole;
  }

  lemma InvoiceKeepsSturdy(l: Ledger, op: Op)
    requires Sturdy(l) && op.PayInvoice? && Clean(op) && ProperReference(op)
    ensures Sturdy(PayInvoiceStep(l, op).0)
  {
    var accounts := [Owned(op.business, BusinessWallet), Owned(op.driver, DriverWallet), CreditLine(op.business)];
    var ready := OpenAll(l, accounts);
    OpenAllKeepsSturdy(l, accounts);
    SplitNonNegative(BusinessInvoicePayment, op.reference, Owned(op.business, BusinessWallet), op.driver, op.fare, op.commission, op.tax);
    PostKeepsSturdy(ready, InvoicePayment(op));
    PostKeepsSturdy(Post(ready, InvoicePayment(op)).0, InvoiceSettlement(op));
    hide Sturdy, OpenAll, Missing, Split, Post;
  }

  lemma ExecuteKeepsSturdy(b: Books, op: Op, plan: Plan)
    requires Sturdy(b.ledger) && NonNegative(plan.request.postings) && !plan.request.reference.subject.RefundOf?
    ensures Sturdy(Execute(b, op, plan).0.ledger)
  {
    hide Sturdy, OpenAll, Missing, Post, NonNegative;
    OpenAllKeepsSturdy(b.ledger, plan.opens);
    PostKeepsSturdy(OpenAll(b.ledger, plan.opens), plan.request);
  }

  /** References, signs and reversals survive every operation a caller makes, half a kobo or not. */
  lemma StepKeepsSturdy(b: Books, op: Op)
    requires Sturdy(b.ledger) && OwedAmounts(op) && ProperReference(op)
    ensures Sturdy(Step(b, op).0.ledger)
  {
    hide Sturdy, PlanOf, Execute, PayInvoiceStep, Refund, NonNegative, CleanSplit;
    if op.RefundTransaction? {
      RefundKeepsSturdy(b.ledger, op.transaction);
    } else if op.PayInvoice? {
      InvoiceKeepsSturdy(b.ledger, op);
    } else {
      PlanNonNegative(op);
      PlanReference(op);
      ExecuteKeepsSturdy(b, op, PlanOf(op));
    }
  }

  lemma OpenAllKeepsIndexed(l: Ledger, accounts: seq<Account>)
    requires Indexed(l)
    ensures Indexed(OpenAll(l, accounts))
  {
    OpenAllMovesNothing(l, accounts);
    hide OpenAll, GroupSum;
  }

  /** And the index survives every operation at all. */
  lemma StepKeepsIndexed(b: Books, op: Op)
    requires Indexed(b.ledger)
    ensures Indexed(Step(b, op).0.ledger)
  {
    if op.RefundTransaction? {
      RefundKeepsIndexed(b.ledger, op.transaction);
    } else if op.PayInvoice? {
      var accounts := [Owned(op.business, BusinessWallet), Owned(op.driver, DriverWallet), CreditLine(op.business)];
      var ready := OpenAll(b.ledger, accounts);
      OpenAllKeepsIndexed(b.ledger, accounts);
      PostKeepsIndexed(ready, InvoicePayment(op), None);
      PostKeepsIndexed(Post(ready, InvoicePayment(op)).0, InvoiceSettlement(op), None);
    } else {
      OpenAllKeepsIndexed(b.ledger, PlanOf(op).opens);
      PostKeepsIndexed(OpenAll(b.ledger, PlanOf(op).opens), PlanOf(op).request, None);
    }
    hide Indexed, OpenAll, Missing, PlanOf, PostReversing, Refund, InvoicePayment, InvoiceSettlement;
  }

  // ---------------------------------------------------------------- every run keeps the books

  lemma PayInvoiceKeepsValid(l: Ledger, op: Op)
    requires Valid(l) && op.PayInvoice? && Clean(op) && ProperReference(op)
    ensures Valid(PayInvoiceStep(l, op).0)
  {
    var accounts := [Owned(op.business, BusinessWallet), Owned(op.driver, DriverWallet), CreditLine(op.business)];
    OpenAllKeepsValid(l, accounts);
    InvoicePostsKeepValid(OpenAll(l, accounts), op);
  }

  lemma InvoicePostsKeepValid(l: Ledger, op: Op)
    requires Valid(l) && op.PayInvoice? && Clean(op) && ProperReference(op)
    ensures Valid(Post(l, InvoicePayment(op)).0)
    ensures Valid(Post(Post(l, InvoicePayment(op)).0, InvoiceSettlement(op)).0)
    ensures Valid(PostInvoice(l, op).0)
  {
    SplitPostable(l, BusinessInvoicePayment, op.reference, Owned(op.business, BusinessWallet), op.driver,
                  op.fare, op.commission, op.tax);
    PostKeepsValid(l, InvoicePayment(op));
    var paid := Post(l, InvoicePayment(op)).0;
    WholeIsNotHalf(op.fare);
    TransferPostable(paid, BusinessInvoicePayment, op.reference.(suffix := Settlement), op.fare, CreditLine(op.business), CLEARING);
    PostKeepsValid(paid, InvoiceSettlement(op));
  }

  lemma OpenAllKeepsAdmissible(l: Ledger, accounts: seq<Account>, op: Op)
    requires Solvent(l.balances) && Admissible(l, op)
    ensures Solvent(OpenAll(l, accounts).balances) && Admissible(OpenAll(l, accounts), op)
  {
    OpenAllMovesNothing(l, accounts);
    hide OpenAll, GroupSum, Clean, ProperReference, FractionalSplit, FractionalTransfer;
    if REVENUE in OpenAll(l, accounts).balances && REVENUE !in l.balances {
      assert OpenAll(l, accounts).balances[REVENUE] == 0;
    }
  }

  lemma PlanIsPostable(l: Ledger, op: Op)
    requires Solvent(l.balances) && Admissible(l, op) && !op.RefundTransaction? && !op.PayInvoice?
    ensures Postable(OpenAll(l, PlanOf(op).opens), PlanOf(op).request)
  {
    hide PlanOf, Postable, OpenAll, Admissible, Solvent;
    OpenAllKeepsAdmissible(l, PlanOf(op).opens, op);
    PlanPostable(OpenAll(l, PlanOf(op).opens), op);
  }

  lemma StepKeepsValid(b: Books, op: Op)
    requires Valid(b.ledger) && Admissible(b.ledger, op)
    ensures Valid(Step(b, op).0.ledger)
  {
    hide Valid, PlanOf, OpenAll, Missing, Postable, Post, PayInvoiceStep, Refund, Clean;
    if op.RefundTransaction? {
      RefundKeepsValid(b.ledger, op.transaction);
    } else if op.PayInvoice? {
      PayInvoiceKeepsValid(b.ledger, op);
    } else {
      OpenAllKeepsValid(b.ledger, PlanOf(op).opens);
      ValidIsSolvent(b.ledger);
      PlanIsPostable(b.ledger, op);
      PostKeepsValid(OpenAll(b.ledger, PlanOf(op).opens), PlanOf(op).request);
    }
  }

  lemma ValidIsSolvent(l: Ledger)
    requires Valid(l)
    ensures Sturdy(l) && Solvent(l.balances)
  {}

  /**
   Reconciliation over whole runs: from any valid books, after any admissible operations, every account
   (and every group of accounts) balances with its entries, no user-owned balance is negative, every
   balanceAfter is the running sum, references are unique, and each reversal mirrors its original once.
   */
  lemma {:induction false} RunKeepsValid(b: Books, ops: seq<Op>)
    requires Valid(b.ledger) && AdmissibleRun(b, ops)
    ensures Valid(Run(b, ops).ledger)
    decreases |ops|
  {
    if ops != [] {
      RunKeepsValid(b, ops[..|ops| - 1]);
      StepKeepsValid(Run(b, ops[..|ops| - 1]), ops[|ops| - 1]);
    }
  }
}
