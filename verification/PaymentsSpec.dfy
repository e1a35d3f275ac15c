/**
 The payment protocols composed from wallet operations: crediting a verified top-up, requesting a
 withdrawal, and hearing from the gateway how its transfer ended. The gateway itself is a choice of
 outcome; `Flows` records what it collected for the platform and what it sent out.
 */
module PaymentsSpec {
  import opened Option
  import opened Money
  import opened Ledger
  import opened WalletSpec

  datatype GatewayStatus = Success | TerminalFailure | Unfinished

  /** What re-verifying a payment with the gateway returns; `kobo` is the amount it collected. */
  datatype Verified = Verified(token: nat, status: GatewayStatus, user: Option<nat>, kobo: nat)

  datatype TopUpStatus = TopUpPending | TopUpCompleted | TopUpFailed

  datatype TransferStatus = TransferPending | TransferCompleted | TransferFailed

  datatype Withdrawal = Withdrawal(driver: nat, amount: int, settled: int, status: TransferStatus)

  /** Net kobo collected by the gateway, net kobo it sent, and referral bonuses ever accrued. */
  datatype Flows = Flows(collected: int, sent: int, accrued: int)

  /** `drives` says of each known user whether they are a driver; withdrawals are keyed by transaction. */
  datatype Payments = Payments(books: Books, drives: map<nat, bool>, topUps: map<nat, TopUpStatus>,
                               withdrawals: map<nat, Withdrawal>, flows: Flows)

  function TopUpRef(token: nat, suffix: Suffix): Reference {
    Reference(TopUpOf(token), suffix)
  }

  function WithdrawalRef(token: nat, suffix: Suffix): Reference {
    Reference(WithdrawalOf(token), suffix)
  }

  function Min(x: real, y: real): real {
    if x <= y then x else y
  }

  /** Some pass already wrote under one of the references a first pass can write. */
  predicate Credited(l: Ledger, token: nat) {
    TopUpRef(token, Plain) in l.byReference || TopUpRef(token, Settle) in l.byReference
    || TopUpRef(token, CreditPart) in l.byReference
  }

  function OpenPayable(b: Books, driver: nat): Books {
    b.(ledger := OpenAccount(b.ledger, Payable(driver)))
  }

  function Owed(b: Books, driver: nat): int {
    if Payable(driver) in b.ledger.balances then b.ledger.balances[Payable(driver)] else 0
  }

  /** The ledger part of a first pass. */
  function CreditTopUp(b: Books, drives: bool, user: nat, kobo: nat, token: nat): (Books, Outcome) {
    var ready := if drives then OpenPayable(b, user) else b;
    if drives && Owed(ready, user) > 0 then
      var settle := Min(Owed(ready, user) as real, kobo as real);
      var (settled, outcome) := Step(ready, SettleCommission(user, settle, TopUpRef(token, Settle)));
      var remaining := kobo as real - settle;
      if outcome.Err? || remaining <= 0.0 then (settled, outcome)
      else Step(settled, TopUp(user, remaining, TopUpRef(token, CreditPart)))
    else Step(ready, TopUp(user, kobo as real, TopUpRef(token, Plain)))
  }

  function CompleteTopUp(p: Payments, token: nat): Payments {
    if token in p.topUps && p.topUps[token] != TopUpCompleted then p.(topUps := p.topUps[token := TopUpCompleted]) else p
  }

  function FailTopUp(p: Payments, token: nat): Payments {
    if token in p.topUps && p.topUps[token] == TopUpPending then p.(topUps := p.topUps[token := TopUpFailed]) else p
  }

  function Collect(f: Flows, kobo: int): Flows {
    f.(collected := f.collected + kobo)
  }

  function ApplyVerifiedTopUp(p: Payments, v: Verified): Payments {
    if v.status != Success then (if v.status == TerminalFailure then FailTopUp(p, v.token) else p)
    else if v.user.None? || v.user.value !in p.drives then p
    else if Credited(p.books.ledger, v.token) then CompleteTopUp(p, v.token)
    else
      var (credited, outcome) := CreditTopUp(p.books, p.drives[v.user.value], v.user.value, v.kobo, v.token);
      if outcome.Err? then p.(books := credited)
      else CompleteTopUp(p.(books := credited, flows := Collect(p.flows, v.kobo)), v.token)
  }

  /** Debit the wallet, and settle what commission is owed out of it. */
  function Reserve(b: Books, driver: nat, amount: real, token: nat): (Books, Outcome, Outcome)
  {
    var ready := OpenPayable(b, driver);
    var settle := Min(Owed(ready, driver) as real, amount);
    var (debited, withdrawal) := Step(ready, RequestWithdrawal(driver, amount, WithdrawalRef(token, Plain)));
    if withdrawal.Err? || settle <= 0.0 then (debited, withdrawal, withdrawal)
    else
      var (settled, settlement) := Step(debited, SettleCommission(driver, settle, WithdrawalRef(token, Settle)));
      (settled, withdrawal, settlement)
  }

  /** Take back a withdrawal, and its settlement if there was one; the first failure stops it. */
  function Reverse(b: Books, transaction: nat, settlement: Option<nat>): (Books, Outcome) {
    var (restored, outcome) := Step(b, RefundTransaction(transaction));
    if outcome.Err? || settlement.None? then (restored, outcome) else Step(restored, RefundTransaction(settlement.value))
  }

  function Send(f: Flows, kobo: int): Flows {
    f.(sent := f.sent + kobo)
  }

  function InitiateWithdrawal(p: Payments, driver: nat, amount: real, token: nat, accepted: bool): Payments {
    var settle := Min(Owed(OpenPayable(p.books, driver), driver) as real, amount);
    var transfer := amount - settle;
    var (reserved, withdrawal, settlement) := Reserve(p.books, driver, amount, token);
    if withdrawal.Err? || settlement.Err? then p.(books := reserved)
    else
      var id := withdrawal.value;
      var w := Withdrawal(driver, Column(amount), Column(settle),
                          if transfer > 0.0 then TransferPending else TransferCompleted);
      var requested := p.(books := reserved, withdrawals := p.withdrawals[id := w]);
      if transfer == 0.0 then requested
      else if accepted then requested.(flows := Send(p.flows, ToKobo(transfer)))
      else
        var (restored, outcome) := Reverse(reserved, id, if settle > 0.0 then Some(settlement.value) else None);
        if outcome.Err? then requested.(books := restored)
        else requested.(books := restored, withdrawals := p.withdrawals[id := w.(status := TransferFailed)])
  }

  function ProcessTransferWebhook(p: Payments, token: nat, succeeded: bool): Payments {
    var known := p.books.ledger.byReference;
    if WithdrawalRef(token, Plain) !in known || known[WithdrawalRef(token, Plain)] !in p.withdrawals then p
    else
      var id := known[WithdrawalRef(token, Plain)];
      var w := p.withdrawals[id];
      if succeeded then p.(withdrawals := p.withdrawals[id := w.(status := TransferCompleted)])
      else
        var settlement := if WithdrawalRef(token, Settle) in known then Some(known[WithdrawalRef(token, Settle)]) else None;
        var (restored, outcome) := Reverse(p.books, id, settlement);
        if outcome.Err? then p.(books := restored)
        else p.(books := restored, withdrawals := p.withdrawals[id := w.(status := TransferFailed)],
                flows := Send(p.flows, w.settled - w.amount))
  }

  /** Everything that can happen to the payments state, each to completion. */
  datatype PayOp =
    | Request(token: nat)
    | MarkFailed(token: nat)
    | Verify(payment: Verified)
    | Withdraw(driver: nat, amount: real, token: nat, accepted: bool)
    | Webhook(token: nat, succeeded: bool)
    | Other(op: Op)
    | Dispute(transaction: nat)

  function StepPay(p: Payments, o: PayOp): Payments {
    match o
    case Request(t) => if t in p.topUps then p else p.(topUps := p.topUps[t := TopUpPending])
    case MarkFailed(t) => FailTopUp(p, t)
    case Verify(v) => ApplyVerifiedTopUp(p, v)
    case Withdraw(d, x, t, a) => InitiateWithdrawal(p, d, x, t, a)
    case Webhook(t, s) => ProcessTransferWebhook(p, t, s)
    case Other(op) =>
      var (b, outcome) := Step(p.books, op);
      p.(books := b, flows := if op.RecordReferralAccrual? && outcome.Ok? && op.reference !in p.books.ledger.byReference
                              then p.flows.(accrued := p.flows.accrued + Column(op.amount)) else p.flows)
    case Dispute(id) => p.(books := Step(p.books, RefundTransaction(id)).0)
  }

  function RunPay(p: Payments, os: seq<PayOp>): Payments
    decreases |os|
  {
    if os == [] then p else StepPay(RunPay(p, os[..|os| - 1]), os[|os| - 1])
  }
}
