/**
 The payments service as it runs, on top of the wallet service: requests change status row by row around
 the ledger posts. Each method is proved to do what PaymentsSpec says.
 */
module PaymentsService {
  import opened Option
  import opened Money
  import opened Ledger
  import opened WalletSpec
  import opened WalletService
  import opened PaymentsSpec

  class PaymentsService {
    const wallet: WalletService
    const drives: map<nat, bool>
    var topUps: map<nat, TopUpStatus>
    var withdrawals: map<nat, Withdrawal>
    /** What the gateway did; the service itself never reads it. */
    ghost var flows: Flows

    ghost function State(): Payments
      reads this, wallet
    {
      Payments(wallet.State(), drives, topUps, withdrawals, flows)
    }

    constructor (wallet: WalletService, drives: map<nat, bool>)
      ensures this.wallet == wallet && State() == Payments(wallet.State(), drives, map[], map[], Flows(0, 0, 0))
    {
      this.wallet := wallet;
      this.drives := drives;
      topUps := map[];
      withdrawals := map[];
      flows := Flows(0, 0, 0);
    }

    method CompleteTopUpRequest(token: nat)
      modifies this`topUps
      ensures State() == CompleteTopUp(old(State()), token)
    {
      if token !in topUps || topUps[token] == TopUpCompleted {
        return;
      }
      topUps := topUps[token := TopUpCompleted];
    }

    method MarkTopUpFailed(token: nat)
      modifies this`topUps
      ensures State() == FailTopUp(old(State()), token)
    {
      if token in topUps && topUps[token] == TopUpPending {
        topUps := topUps[token := TopUpFailed];
      }
    }

    method ApplyVerifiedTopUp(verified: Verified)
      modifies this, wallet
      ensures State() == PaymentsSpec.ApplyVerifiedTopUp(old(State()), verified)
    {
      if verified.status != Success {
        if verified.status == TerminalFailure {
          MarkTopUpFailed(verified.token);
        }
        return;
      }
      if verified.user.None? || verified.user.value !in drives {
        return;
      }
      var token := verified.token;
      if TopUpRef(token, Plain) in wallet.byReference || TopUpRef(token, Settle) in wallet.byReference
         || TopUpRef(token, CreditPart) in wallet.byReference {
        CompleteTopUpRequest(token);
        return;
      }
      var credited := Credit(verified.user.value, verified.kobo, token);
      if credited.Ok? {
        flows := Collect(flows, verified.kobo);
        CompleteTopUpRequest(token);
      }
    }

    /** The ledger writes of a first pass. */
    method Credit(user: nat, kobo: nat, token: nat) returns (r: Outcome)
      requires user in drives
      modifies wallet
      ensures (wallet.State(), r) == CreditTopUp(old(wallet.State()), drives[user], user, kobo, token)
    {
      var amount := kobo as real;
      if drives[user] {
        var payable := wallet.GetOrCreateUserAccount(user, DriverCommissionPayable);
        var owed := wallet.balances[payable];
        if owed > 0 {
          var settleAmount := Min(owed as real, amount);
          r := wallet.SettleCommission(user, settleAmount, TopUpRef(token, Settle));
          var remaining := amount - settleAmount;
          if r.Ok? && remaining > 0.0 {
            r := wallet.TopUp(user, remaining, TopUpRef(token, CreditPart));
          }
          return;
        }
      }
      r := wallet.TopUp(user, amount, TopUpRef(token, Plain));
    }

    /** `accepted` is whether the gateway takes the transfer order. */
    method InitiateWithdrawal(driver: nat, amount: real, token: nat, accepted: bool)
      modifies this, wallet
      ensures State() == PaymentsSpec.InitiateWithdrawal(old(State()), driver, amount, token, accepted)
    {
      hide Step, Reserve, Reverse;
      var settleAmount, withdrawal, settlement := ReserveFunds(driver, amount, token);
      var transferAmount := amount - settleAmount;
      if withdrawal.Err? || settlement.Err? {
        return;
      }
      var id := withdrawal.value;
      var request := Withdrawal(driver, Column(amount), Column(settleAmount),
                                if transferAmount > 0.0 then TransferPending else TransferCompleted);
      withdrawals := withdrawals[id := request];
      if transferAmount == 0.0 {
        return;
      }
      if accepted {
        flows := Send(flows, ToKobo(transferAmount));
        return;
      }
      var reversed := ReverseWithdrawal(id, if settleAmount > 0.0 then Some(settlement.value) else None);
      if reversed.Ok? {
        withdrawals := withdrawals[id := request.(status := TransferFailed)];
      }
    }

    /** The debit of the full amount, and the settlement of what is owed out of it. */
    method ReserveFunds(driver: nat, amount: real, token: nat)
      returns (settleAmount: real, withdrawal: Outcome, settlement: Outcome)
      modifies wallet
      ensures settleAmount == Min(Owed(OpenPayable(old(wallet.State()), driver), driver) as real, amount)
      ensures (wallet.State(), withdrawal, settlement) == Reserve(old(wallet.State()), driver, amount, token)
    {
      hide Step;
      var payable := wallet.GetOrCreateUserAccount(driver, DriverCommissionPayable);
      settleAmount := Min(wallet.balances[payable] as real, amount);
      withdrawal := wallet.RequestWithdrawal(driver, amount, WithdrawalRef(token, Plain));
      settlement := withdrawal;
      if withdrawal.Ok? && settleAmount > 0.0 {
        settlement := wallet.SettleCommission(driver, settleAmount, WithdrawalRef(token, Settle));
      }
    }

    method ReverseWithdrawal(transaction: nat, settlement: Option<nat>) returns (r: Outcome)
      modifies wallet
      ensures (wallet.State(), r) == Reverse(old(wallet.State()), transaction, settlement)
    {
      hide Step;
      r := wallet.Refund(transaction);
      if r.Ok? && settlement.Some? {
        r := wallet.Refund(settlement.value);
      }
    }

    method ProcessTransferWebhookEvent(token: nat, succeeded: bool)
      modifies this, wallet
      ensures State() == ProcessTransferWebhook(old(State()), token, succeeded)
    {
      hide Reverse;
      if WithdrawalRef(token, Plain) !in wallet.byReference {
        return;
      }
      var id := wallet.byReference[WithdrawalRef(token, Plain)];
      if id !in withdrawals {
        return;
      }
      var request := withdrawals[id];
      if succeeded {
        withdrawals := withdrawals[id := request.(status := TransferCompleted)];
        return;
      }
      var settlement := if WithdrawalRef(token, Settle) in wallet.byReference
                        then Some(wallet.byReference[WithdrawalRef(token, Settle)]) else None;
      var reversed := ReverseWithdrawal(id, settlement);
      if reversed.Ok? {
        withdrawals := withdrawals[id := request.(status := TransferFailed)];
        flows := Send(flows, request.settled - request.amount);
      }
    }
  }
}
