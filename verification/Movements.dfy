/** What each wallet operation does to every single account, in stored kobo, when it commits for the first time. */
module Movements {
  import opened Option
  import opened Money
  import opened Ledger
  import opened WalletSpec
  import opened Effects
  import opened Transfers

  function Gets(a: Account, owner: Account, amount: real): int {
    if a == owner then Column(amount) else 0
  }

  /** From one account to another. */
  function Moves(a: Account, from: Account, to: Account, amount: real): int {
    Gets(a, to, amount) - Gets(a, from, amount)
  }

  /** The payer pays the fare; driver, platform and tax office share it. */
  function FareMoves(a: Account, payer: Account, driver: nat, fare: real, commission: real, tax: real): int {
    Gets(a, Owned(driver, DriverWallet), fare - commission - tax) + Gets(a, REVENUE, commission) + Gets(a, TAX, tax)
    - Gets(a, payer, fare)
  }

  function Change(op: Op, a: Account): int
    requires !op.RefundTransaction?
  {
    match op
    case TopUp(u, x, _) => Moves(a, CLEARING, Owned(u, RiderWallet), x)
    case PayForRide(p, d, f, c, _, t) => FareMoves(a, Owned(p, RiderWallet), d, f, c, t)
    case PayForDelivery(p, d, f, c, _, t) => FareMoves(a, Owned(p, RiderWallet), d, f, c, t)
    case RecordCashRideCommission(d, x, _) => Moves(a, CLEARING, Payable(d), x)
    case RecordCashDeliveryCommission(d, x, _) => Moves(a, CLEARING, Payable(d), x)
    case SettleCommission(d, x, _) => Moves(a, Payable(d), REVENUE, x)
    case ChargeBusinessForDelivery(b, x, _) => Moves(a, CLEARING, CreditLine(b), x)
    case PayInvoice(b, d, f, c, _, t) =>
      FareMoves(a, Owned(b, BusinessWallet), d, f, c, t) + Moves(a, CreditLine(b), CLEARING, f)
    case RequestWithdrawal(d, x, _) => Moves(a, Owned(d, DriverWallet), CLEARING, x)
    case PayForKilowattService(u, x, _) => Moves(a, Owned(u, RiderWallet), REVENUE, x)
    case RecordReferralAccrual(x, _) => Moves(a, CLEARING, REFERRALS, x)
    case PayReferralPayout(u, drives, x, _) => Moves(a, REFERRALS, Owned(u, if drives then DriverWallet else RiderWallet), x)
  }

  lemma TransferMoves(kind: TransactionType, reference: Reference, amount: real, from: Account, to: Account, a: Account)
    ensures StoredSum(Transfer(kind, reference, amount, from, to).postings, Only(a)) == Moves(a, from, to, amount)
  {
    TransferSum(kind, reference, amount, from, to, Only(a));
  }

  /** Every share is stored rounded by itself, whatever fraction the commission carries. */
  lemma SplitMoves(kind: TransactionType, reference: Reference, payer: Account, driver: nat, fare: real, commission: real, tax: real, a: Account)
    requires CleanSplit(fare, commission, tax)
    ensures StoredSum(Split(kind, reference, payer, driver, fare, commission, tax).postings, Only(a))
         == FareMoves(a, payer, driver, fare, commission, tax)
  {
    var ps := Split(kind, reference, payer, driver, fare, commission, tax).postings;
    SplitLegs(kind, reference, payer, driver, fare, commission, tax);
    ColumnOdd(fare);
    ColumnOfWhole(0);
    assert ps[..1][..0] == [] && ps[..2][..1] == ps[..1] && ps[..3][..2] == ps[..2];
    hide Column;
    assert StoredSum(ps[..1], Only(a)) == -Gets(a, payer, fare);
    assert StoredSum(ps[..2], Only(a)) == Gets(a, Owned(driver, DriverWallet), fare - commission - tax) - Gets(a, payer, fare);
    assert StoredSum(ps[..3], Only(a)) == Gets(a, Owned(driver, DriverWallet), fare - commission - tax) + Gets(a, REVENUE, commission) - Gets(a, payer, fare);
  }

  /** No share of a fare is negative, and fare and tax are whole. */
  ghost predicate SharesAddUp(op: Op) {
    op.PayForRide? || op.PayForDelivery? || op.PayInvoice? ==> CleanSplit(op.fare, op.commission, op.tax)
  }

  lemma RequestMoves(op: Op, a: Account)
    requires !op.RefundTransaction? && SharesAddUp(op)
    ensures !op.PayInvoice? ==> StoredSum(PlanOf(op).request.postings, Only(a)) == Change(op, a)
    ensures op.PayInvoice? ==>
              StoredSum(InvoicePayment(op).postings, Only(a)) + StoredSum(InvoiceSettlement(op).postings, Only(a)) == Change(op, a)
  {
    hide StoredSum, CleanSplit, Whole;
    if op.PayForRide? || op.PayForDelivery? {
      var kind := if op.PayForRide? then RidePaymentWallet else DeliveryPaymentWallet;
      SplitMoves(kind, op.reference, Owned(op.payer, RiderWallet), op.driver, op.fare, op.commission, op.tax, a);
    } else if op.PayInvoice? {
      SplitMoves(BusinessInvoicePayment, op.reference, Owned(op.business, BusinessWallet), op.driver, op.fare, op.commission, op.tax, a);
      TransferMoves(BusinessInvoicePayment, op.reference.(suffix := Settlement), op.fare, CreditLine(op.business), CLEARING, a);
    } else {
      var r := PlanOf(op).request;
      TransferMoves(r.kind, r.reference, op.amount, r.postings[0].account, r.postings[1].account, a);
      hide Moves;
    }
  }

  /** None of the operation's references has been posted. */
  ghost predicate FirstTime(l: Ledger, op: Op) {
    forall n <- Names(op) :: n !in l.byReference
  }
}
