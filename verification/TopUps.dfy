/**
 Crediting a payment exactly once: the webhook, its redeliveries and the status polls may all apply the
 same verified payment, and a driver's first pass changes the very balance it was computed from.
 */
module TopUps {
  import opened Option
  import opened Money
  import opened Ledger
  import opened WalletSpec
  import opened Effects
  import opened Transfers
  import opened PaymentsSpec

  /** scripts/seed-platform-accounts.js was run. */
  ghost predicate Seeded(l: Ledger) {
    CLEARING in l.balances && REVENUE in l.balances && REFERRALS in l.balances && TAX in l.balances
  }

  // ---------------------------------------------------------------- nothing is forgotten

  lemma CreditTopUpGrows(b: Books, drives: bool, user: nat, kobo: nat, token: nat)
    ensures Grows(b.ledger, CreditTopUp(b, drives, user, kobo, token).0.ledger)
  {
    hide Grows, Step;
    var ready := if drives then OpenPayable(b, user) else b;
    OpenPayableGrows(b, user);
    SelfGrows(b.ledger);
    var settle := Min(Owed(ready, user) as real, kobo as real);
    var first := SettleCommission(user, settle, TopUpRef(token, Settle));
    var second := TopUp(user, kobo as real - settle, TopUpRef(token, CreditPart));
    var settled := Step(ready, first).0;
    StepGrows(ready, first);
    StepGrows(settled, second);
    GrowsTransitive(b.ledger, ready.ledger, settled.ledger);
    GrowsTransitive(b.ledger, settled.ledger, Step(settled, second).0.ledger);
    StepGrows(ready, TopUp(user, kobo as real, TopUpRef(token, Plain)));
    GrowsTransitive(b.ledger, ready.ledger, Step(ready, TopUp(user, kobo as real, TopUpRef(token, Plain))).0.ledger);
  }

  lemma OpenPayableGrows(b: Books, driver: nat)
    ensures Grows(b.ledger, OpenPayable(b, driver).ledger)
  {}

  lemma SelfGrows(l: Ledger)
    ensures Grows(l, l)
  {}

  lemma ReverseGrows(b: Books, id: nat, settlement: Option<nat>)
    ensures Grows(b.ledger, Reverse(b, id, settlement).0.ledger)
  {
    hide Grows, Step;
    var restored := Step(b, RefundTransaction(id)).0;
    StepGrows(b, RefundTransaction(id));
    if settlement.Some? {
      StepGrows(restored, RefundTransaction(settlement.value));
      GrowsTransitive(b.ledger, restored.ledger, Step(restored, RefundTransaction(settlement.value)).0.ledger);
    }
  }

  lemma ReserveGrows(b: Books, driver: nat, amount: real, token: nat)
    ensures Grows(b.ledger, Reserve(b, driver, amount, token).0.ledger)
  {
    hide Grows, Step;
    var ready := OpenPayable(b, driver);
    OpenPayableGrows(b, driver);
    var first := RequestWithdrawal(driver, amount, WithdrawalRef(token, Plain));
    var second := SettleCommission(driver, Min(Owed(ready, driver) as real, amount), WithdrawalRef(token, Settle));
    var debited := Step(ready, first).0;
    StepGrows(ready, first);
    StepGrows(debited, second);
    GrowsTransitive(b.ledger, ready.ledger, debited.ledger);
    GrowsTransitive(b.ledger, debited.ledger, Step(debited, second).0.ledger);
  }

  lemma StepPayGrows(p: Payments, o: PayOp)
    ensures Grows(p.books.ledger, StepPay(p, o).books.ledger)
  {
    hide Grows, Step, Reverse, Reserve, CreditTopUp;
    SelfGrows(p.books.ledger);
    match o
    case Request(_) =>
    case MarkFailed(_) =>
    case Verify(v) =>
      if v.user.Some? && v.user.value in p.drives {
        CreditTopUpGrows(p.books, p.drives[v.user.value], v.user.value, v.kobo, v.token);
      }
    case Withdraw(d, x, t, a) =>
      var (reserved, w, s) := Reserve(p.books, d, x, t);
      ReserveGrows(p.books, d, x, t);
      if w.Ok? && s.Ok? {
        ReverseGrows(reserved, w.value, Some(s.value));
        ReverseGrows(reserved, w.value, None);
        GrowsTransitive(p.books.ledger, reserved.ledger, Reverse(reserved, w.value, Some(s.value)).0.ledger);
        GrowsTransitive(p.books.ledger, reserved.ledger, Reverse(reserved, w.value, None).0.ledger);
      }
    case Webhook(t, s) =>
      var known := p.books.ledger.byReference;
      if WithdrawalRef(t, Plain) in known {
        ReverseGrows(p.books, known[WithdrawalRef(t, Plain)],
                     if WithdrawalRef(t, Settle) in known then Some(known[WithdrawalRef(t, Settle)]) else None);
      }
    case Other(op) => StepGrows(p.books, op);
    case Dispute(id) => StepGrows(p.books, RefundTransaction(id));
  }

  // ---------------------------------------------------------------- later passes do nothing

  /** The same books, withdrawals and flows; only top-up requests may differ. */
  ghost predicate SameMoney(p: Payments, q: Payments) {
    p.books == q.books && p.drives == q.drives && p.withdrawals == q.withdrawals && p.flows == q.flows
  }

  /** Another delivery of the payment with this token, or of a request for it. */
  predicate Redelivers(o: PayOp, token: nat) {
    o.Verify? && o.payment.token == token
  }

  function Without(os: seq<PayOp>, token: nat): seq<PayOp>
    decreases |os|
  {
    if os == [] then []
    else if Redelivers(os[|os| - 1], token) then Without(os[..|os| - 1], token)
    else Without(os[..|os| - 1], token) + [os[|os| - 1]]
  }

  lemma LaterPassMovesNothing(p: Payments, v: Verified)
    requires Credited(p.books.ledger, v.token)
    ensures SameMoney(ApplyVerifiedTopUp(p, v), p)
  {
    hide CreditTopUp;
  }

  lemma WithdrawalIgnoresTopUps(p: Payments, t: map<nat, TopUpStatus>, d: nat, x: real, token: nat, accepted: bool)
    ensures InitiateWithdrawal(p.(topUps := t), d, x, token, accepted)
         == InitiateWithdrawal(p, d, x, token, accepted).(topUps := t)
  {
    hide Reserve, Reverse, Column, Owed, OpenPayable;
  }

  lemma WebhookIgnoresTopUps(p: Payments, t: map<nat, TopUpStatus>, token: nat, succeeded: bool)
    ensures ProcessTransferWebhook(p.(topUps := t), token, succeeded)
         == ProcessTransferWebhook(p, token, succeeded).(topUps := t)
  {
    hide Reverse;
  }

  lemma MarkingMovesNothing(p: Payments, token: nat)
    ensures SameMoney(CompleteTopUp(p, token), p) && SameMoney(FailTopUp(p, token), p)
  {}

  lemma PassIgnoresTopUps(p: Payments, t: map<nat, TopUpStatus>, v: Verified)
    ensures SameMoney(ApplyVerifiedTopUp(p.(topUps := t), v), ApplyVerifiedTopUp(p, v))
  {
    hide CreditTopUp, Credited, CompleteTopUp, FailTopUp, Collect;
    var q := p.(topUps := t);
    MarkingMovesNothing(p, v.token);
    MarkingMovesNothing(q, v.token);
    if v.user.Some? && v.user.value in p.drives {
      var credited := CreditTopUp(p.books, p.drives[v.user.value], v.user.value, v.kobo, v.token).0;
      var flows := Collect(p.flows, v.kobo);
      MarkingMovesNothing(p.(books := credited, flows := flows), v.token);
      MarkingMovesNothing(q.(books := credited, flows := flows), v.token);
    }
  }

  lemma StepRespectsSameMoney(p: Payments, q: Payments, o: PayOp)
    requires SameMoney(p, q)
    ensures SameMoney(StepPay(p, o), StepPay(q, o))
  {
    assert q == p.(topUps := q.topUps);
    hide Step, InitiateWithdrawal, ProcessTransferWebhook, ApplyVerifiedTopUp;
    match o
    case Verify(v) => PassIgnoresTopUps(p, q.topUps, v);
    case Withdraw(d, x, token, accepted) => WithdrawalIgnoresTopUps(p, q.topUps, d, x, token, accepted);
    case Webhook(token, succeeded) => WebhookIgnoresTopUps(p, q.topUps, token, succeeded);
    case _ =>
  }

  /**
   Once a payment is credited, any number of further passes for it, anywhere among any other
   operations, leave the money exactly as if they had never happened.
   */
  lemma {:induction false} LaterPassesAreErasable(p: Payments, os: seq<PayOp>, token: nat)
    requires Credited(p.books.ledger, token)
    ensures SameMoney(RunPay(p, os), RunPay(p, Without(os, token)))
    ensures Credited(RunPay(p, os).books.ledger, token)
    decreases |os|
  {
    if os != [] {
      var most, last := os[..|os| - 1], os[|os| - 1];
      LaterPassesAreErasable(p, most, token);
      StepPayGrows(RunPay(p, most), last);
      hide StepPay, SameMoney, Credited, Grows;
      StillCredited(RunPay(p, most), last, token);
      if Redelivers(last, token) {
        LaterPassIsSame(RunPay(p, most), RunPay(p, Without(most, token)), last, token);
      } else {
        StepRespectsSameMoney(RunPay(p, most), RunPay(p, Without(most, token)), last);
        assert (Without(most, token) + [last])[..|Without(most, token)|] == Without(most, token);
      }
    }
  }

  lemma StillCredited(p: Payments, o: PayOp, token: nat)
    requires Credited(p.books.ledger, token) && Grows(p.books.ledger, StepPay(p, o).books.ledger)
    ensures Credited(StepPay(p, o).books.ledger, token)
  {
    hide StepPay;
  }

  lemma LaterPassIsSame(p: Payments, q: Payments, o: PayOp, token: nat)
    requires Redelivers(o, token) && SameMoney(p, q) && Credited(p.books.ledger, token)
    ensures SameMoney(StepPay(p, o), q)
  {
    LaterPassMovesNothing(p, o.payment);
    hide ApplyVerifiedTopUp;
  }

  // ---------------------------------------------------------------- what the first pass does

  lemma TopUpStep(b: Books, user: nat, kobo: nat, reference: Reference)
    requires CLEARING in b.ledger.balances
    requires reference !in b.ledger.byReference
    ensures Posts(b, TopUp(user, kobo as real, reference), kobo as real, CLEARING, Owned(user, RiderWallet))
  {
    var wallet := Owned(user, RiderWallet);
    assert [wallet][..0] == [];
    assert OpenAll(b.ledger, [wallet]) == OpenAccount(b.ledger, wallet);
    assert [PlatformGatewayClearing][1..] == [];
  }

  /** A settlement the debt covers posts, whatever fraction it is. */
  lemma SettlePosts(b: Books, driver: nat, amount: real, reference: Reference)
    requires REVENUE in b.ledger.balances && 0.0 <= amount <= Owed(b, driver) as real
    requires reference !in b.ledger.byReference && Payable(driver) in b.ledger.balances
    ensures Posts(b, SettleCommission(driver, amount, reference), amount, Payable(driver), REVENUE)
    ensures OpenAll(b.ledger, PlanOf(SettleCommission(driver, amount, reference)).opens) == b.ledger
  {
    var payable := Payable(driver);
    assert [payable][..0] == [];
    assert OpenAll(b.ledger, [payable]) == OpenAccount(b.ledger, payable);
    assert [PlatformRevenue][1..] == [];
  }

  /** How much of a payment goes to outstanding commission: all that is owed, but no more than was paid. */
  function Settled(b: Books, drives: bool, user: nat, kobo: nat): nat
  {
    if !drives || Owed(b, user) <= 0 then 0 else if Owed(b, user) <= kobo then Owed(b, user) else kobo
  }

  function Times(x: int, chosen: bool): int {
    if chosen then x else 0
  }

  /** `settled` of the payment left the commission debt for revenue, the rest came from clearing to the wallet. */
  ghost predicate Credits(before: Ledger, after: Ledger, user: nat, settled: nat, kobo: nat) {
    forall g: Group :: GroupSum(after.balances, g) == GroupSum(before.balances, g)
      + Times(settled, g.Has(REVENUE)) - Times(settled, g.Has(Payable(user)))
      + Times(kobo - settled, g.Has(Owned(user, RiderWallet))) - Times(kobo - settled, g.Has(CLEARING))
  }

  lemma PlainPass(b: Books, user: nat, kobo: nat, token: nat)
    requires Seeded(b.ledger) && !Credited(b.ledger, token)
    ensures var (after, outcome) := Step(b, TopUp(user, kobo as real, TopUpRef(token, Plain)));
            outcome.Ok? && Grows(b.ledger, after.ledger)
            && Credited(after.ledger, token) && Credits(b.ledger, after.ledger, user, 0, kobo)
  {
    TopUpStep(b, user, kobo, TopUpRef(token, Plain));
    TransferStep(b, TopUp(user, kobo as real, TopUpRef(token, Plain)), kobo as real, CLEARING, Owned(user, RiderWallet));
    ColumnOfWhole(kobo);
    hide Step, GroupSum, Grows, Posts, IsTransfer, Column;
  }

  lemma SettlingPass(b: Books, user: nat, settled: nat, token: nat)
    requires Seeded(b.ledger) && !Credited(b.ledger, token)
    requires Payable(user) in b.ledger.balances && settled <= Owed(b, user)
    ensures var (after, outcome) := Step(b, SettleCommission(user, settled as real, TopUpRef(token, Settle)));
            && outcome.Ok? && Grows(b.ledger, after.ledger) && Seeded(after.ledger)
            && Credited(after.ledger, token) && Credits(b.ledger, after.ledger, user, settled, settled)
            && TopUpRef(token, CreditPart) !in after.ledger.byReference
  {
    ColumnOfWhole(settled);
    SettlePosts(b, user, settled as real, TopUpRef(token, Settle));
    TransferStep(b, SettleCommission(user, settled as real, TopUpRef(token, Settle)), settled as real, Payable(user), REVENUE);
    hide Step, GroupSum, Posts, IsTransfer, Column;
  }

  lemma RemainderPass(b: Books, user: nat, kobo: nat, token: nat)
    requires Seeded(b.ledger) && TopUpRef(token, CreditPart) !in b.ledger.byReference
    ensures var (after, outcome) := Step(b, TopUp(user, kobo as real, TopUpRef(token, CreditPart)));
            outcome.Ok? && Grows(b.ledger, after.ledger) && Credits(b.ledger, after.ledger, user, 0, kobo)
  {
    TopUpStep(b, user, kobo, TopUpRef(token, CreditPart));
    TransferStep(b, TopUp(user, kobo as real, TopUpRef(token, CreditPart)), kobo as real, CLEARING, Owned(user, RiderWallet));
    ColumnOfWhole(kobo);
    hide Step, GroupSum, Grows, Posts, IsTransfer, Column;
  }

  lemma CreditsTwice(k: Ledger, l: Ledger, m: Ledger, user: nat, settled: nat, rest: nat)
    requires Credits(k, l, user, settled, settled) && Credits(l, m, user, 0, rest)
    ensures Credits(k, m, user, settled, settled + rest)
  {
    hide GroupSum;
  }

  lemma GrowsKeeps(l: Ledger, m: Ledger, token: nat)
    requires Grows(l, m) && Seeded(l)
    ensures Seeded(m) && (Credited(l, token) ==> Credited(m, token))
  {}

  /** Both steps of a pass whose payment exceeds what the driver owes. */
  lemma SettlingThenRemainder(b: Books, user: nat, settled: nat, rest: nat, token: nat)
    requires Seeded(b.ledger) && !Credited(b.ledger, token)
    requires Payable(user) in b.ledger.balances && settled <= Owed(b, user)
    ensures var b1 := Step(b, SettleCommission(user, settled as real, TopUpRef(token, Settle))).0;
            var (after, outcome) := Step(b1, TopUp(user, rest as real, TopUpRef(token, CreditPart)));
            && outcome.Ok? && Credited(after.ledger, token)
            && Credits(b.ledger, after.ledger, user, settled, settled + rest)
  {
    SettlingPass(b, user, settled, token);
    hide Step, Grows, Seeded, Credited, Credits, Owed;
    var b1 := Step(b, SettleCommission(user, settled as real, TopUpRef(token, Settle))).0;
    RemainderPass(b1, user, rest, token);
    var b2 := Step(b1, TopUp(user, rest as real, TopUpRef(token, CreditPart))).0;
    GrowsKeeps(b1.ledger, b2.ledger, token);
    CreditsTwice(b.ledger, b1.ledger, b2.ledger, user, settled, rest);
  }

  /** A pass of a driver who owes commission. */
  lemma DriverPass(b: Books, user: nat, kobo: nat, token: nat)
    requires Seeded(b.ledger) && !Credited(b.ledger, token)
    requires Payable(user) in b.ledger.balances && Owed(b, user) > 0
    ensures var (after, outcome) := CreditTopUp(b, true, user, kobo, token);
            && outcome.Ok? && Credited(after.ledger, token)
            && Credits(b.ledger, after.ledger, user, Settled(b, true, user, kobo), kobo)
  {
    hide Step, Grows, Seeded, Credited, Credits;
    var settled := Settled(b, true, user, kobo);
    assert OpenPayable(b, user) == b;
    assert Min(Owed(b, user) as real, kobo as real) == settled as real;
    assert kobo as real - settled as real == (kobo - settled) as real;
    if kobo > settled {
      SettlingThenRemainder(b, user, settled, kobo - settled, token);
      var b1 := Step(b, SettleCommission(user, settled as real, TopUpRef(token, Settle))).0;
      SettlingPass(b, user, settled, token);
      assert CreditTopUp(b, true, user, kobo, token) == Step(b1, TopUp(user, (kobo - settled) as real, TopUpRef(token, CreditPart)));
    } else {
      SettlingPass(b, user, settled, token);
    }
  }

  /** What a pass posts is whole and not negative. */
  lemma WholeShare(owed: int, kobo: nat)
    ensures Whole(kobo as real) && Whole(Min(owed as real, kobo as real)) && Whole(kobo as real - Min(owed as real, kobo as real))
  {
    ColumnOfWhole(kobo);
    ColumnOfWhole(owed);
    ColumnOfWhole(kobo - owed);
    ColumnOfWhole(0);
  }

  lemma CreditKeepsSturdy(b: Books, drives: bool, user: nat, kobo: nat, token: nat)
    requires Sturdy(b.ledger)
    ensures Sturdy(CreditTopUp(b, drives, user, kobo, token).0.ledger)
  {
    hide Sturdy, Step, Whole;
    var ready := if drives then OpenPayable(b, user) else b;
    OpenAccountKeepsSturdy(b.ledger, Payable(user));
    WholeShare(Owed(ready, user), kobo);
    if drives && Owed(ready, user) > 0 {
      var settle := Min(Owed(ready, user) as real, kobo as real);
      var first := SettleCommission(user, settle, TopUpRef(token, Settle));
      StepKeepsSturdy(ready, first);
      if kobo as real - settle > 0.0 {
        StepKeepsSturdy(Step(ready, first).0, TopUp(user, kobo as real - settle, TopUpRef(token, CreditPart)));
      }
    } else {
      StepKeepsSturdy(ready, TopUp(user, kobo as real, TopUpRef(token, Plain)));
    }
  }

  lemma CreditKeepsValid(b: Books, drives: bool, user: nat, kobo: nat, token: nat)
    requires Valid(b.ledger)
    ensures Valid(CreditTopUp(b, drives, user, kobo, token).0.ledger)
  {
    hide Valid, Step, Whole;
    var ready := if drives then OpenPayable(b, user) else b;
    OpenAccountKeepsValid(b.ledger, Payable(user));
    WholeShare(Owed(ready, user), kobo);
    if drives && Owed(ready, user) > 0 {
      var settle := Min(Owed(ready, user) as real, kobo as real);
      var first := SettleCommission(user, settle, TopUpRef(token, Settle));
      StepKeepsValid(ready, first);
      if kobo as real - settle > 0.0 {
        StepKeepsValid(Step(ready, first).0, TopUp(user, kobo as real - settle, TopUpRef(token, CreditPart)));
      }
    } else {
      StepKeepsValid(ready, TopUp(user, kobo as real, TopUpRef(token, Plain)));
    }
  }

  /**
   The first pass settles min(owed, paid) of a driver's commission and credits the rest: the two parts
   add up to the payment, and no other account moves.
   */
  lemma FirstPassCredits(b: Books, drives: bool, user: nat, kobo: nat, token: nat)
    requires Seeded(b.ledger) && !Credited(b.ledger, token)
    ensures var (after, outcome) := CreditTopUp(b, drives, user, kobo, token);
            var settled := Settled(b, drives, user, kobo);
            && outcome.Ok? && Seeded(after.ledger) && Credited(after.ledger, token)
            && settled <= kobo && (settled > 0 ==> settled <= Owed(b, user))
            && Credits(b.ledger, after.ledger, user, settled, kobo)
    ensures Valid(b.ledger) ==> Valid(CreditTopUp(b, drives, user, kobo, token).0.ledger)
  {
    if Valid(b.ledger) {
      CreditKeepsValid(b, drives, user, kobo, token);
    }
    var ready := if drives then OpenPayable(b, user) else b;
    OpeningMovesNothing(b, user);
    CreditTopUpGrows(b, drives, user, kobo, token);
    assert Owed(ready, user) == Owed(b, user);
    assert Seeded(ready.ledger) && !Credited(ready.ledger, token);
    if drives && Owed(ready, user) > 0 {
      DriverPass(ready, user, kobo, token);
      assert OpenPayable(ready, user) == ready;
    } else {
      PlainPass(ready, user, kobo, token);
    }
    hide Step, GroupSum, Grows;
  }

  lemma OpeningMovesNothing(b: Books, driver: nat)
    ensures forall g: Group :: GroupSum(OpenPayable(b, driver).ledger.balances, g) == GroupSum(b.ledger.balances, g)
  {
    OpenAccountMovesNothing(b.ledger, Payable(driver));
  }

  /**
   Exactly once: the first pass for a successful payment moves min(owed, paid) and the rest, and after
   it any run has the same effect on money as that run with every further pass taken out.
   */
  lemma PaymentIsCreditedOnce(p: Payments, v: Verified, os: seq<PayOp>)
    requires Seeded(p.books.ledger)
    requires v.status == Success && v.user.Some? && v.user.value in p.drives && !Credited(p.books.ledger, v.token)
    ensures var first := ApplyVerifiedTopUp(p, v);
            var settled := Settled(p.books, p.drives[v.user.value], v.user.value, v.kobo);
            && Credits(p.books.ledger, first.books.ledger, v.user.value, settled, v.kobo)
            && first.flows == Collect(p.flows, v.kobo)
            && SameMoney(RunPay(first, os), RunPay(first, Without(os, v.token)))
  {
    FirstPassCredits(p.books, p.drives[v.user.value], v.user.value, v.kobo, v.token);
    hide Seeded, Credits, CreditTopUp, Settled;
    LaterPassesAreErasable(ApplyVerifiedTopUp(p, v), os, v.token);
  }

  // ---------------------------------------------------------------- request statuses

  ghost predicate CompletedAreCredited(p: Payments) {
    forall t <- p.topUps :: p.topUps[t] == TopUpCompleted ==> Credited(p.books.ledger, t)
  }

  lemma OkIsRecorded(b: Books, op: Op)
    requires !op.RefundTransaction? && !op.PayInvoice? && Step(b, op).1.Ok?
    ensures op.reference in Step(b, op).0.ledger.byReference
  {
    PlanReference(op);
    hide PlanOf, OpenAll, Missing;
  }

  lemma CreditedWhenOk(b: Books, drives: bool, user: nat, kobo: nat, token: nat)
    requires CreditTopUp(b, drives, user, kobo, token).1.Ok?
    ensures Credited(CreditTopUp(b, drives, user, kobo, token).0.ledger, token)
  {
    hide Step;
    var ready := if drives then OpenPayable(b, user) else b;
    if drives && Owed(ready, user) > 0 {
      var settle := Min(Owed(ready, user) as real, kobo as real);
      var first := SettleCommission(user, settle, TopUpRef(token, Settle));
      var (settled, outcome) := Step(ready, first);
      if outcome.Ok? {
        OkIsRecorded(ready, first);
        var second := TopUp(user, kobo as real - settle, TopUpRef(token, CreditPart));
        if kobo as real - settle > 0.0 {
          OkIsRecorded(settled, second);
        }
      }
    } else {
      OkIsRecorded(ready, TopUp(user, kobo as real, TopUpRef(token, Plain)));
    }
  }

  lemma OthersLeaveRequests(p: Payments, o: PayOp)
    requires o.Withdraw? || o.Webhook? || o.Other? || o.Dispute?
    ensures StepPay(p, o).topUps == p.topUps
  {
    hide Step, Reserve, Reverse, Column, Owed, OpenPayable;
  }

  /** A pass completes the request only of a payment that is credited by then. */
  lemma PassCompletesCredited(p: Payments, v: Verified)
    ensures var after := ApplyVerifiedTopUp(p, v);
            forall t :: t in after.topUps && after.topUps[t] == TopUpCompleted ==>
              (t in p.topUps && p.topUps[t] == TopUpCompleted) || Credited(after.books.ledger, t)
    ensures var after := ApplyVerifiedTopUp(p, v);
            forall t <- p.topUps :: t in after.topUps && (p.topUps[t] == TopUpCompleted ==> after.topUps[t] == TopUpCompleted)
  {
    hide CreditTopUp, Credited, CompleteTopUp, FailTopUp, Collect;
    MarkingIsOrderly(p, v.token);
    if v.status == Success && v.user.Some? && v.user.value in p.drives && !Credited(p.books.ledger, v.token) {
      var drives := p.drives[v.user.value];
      var (credited, outcome) := CreditTopUp(p.books, drives, v.user.value, v.kobo, v.token);
      if outcome.Ok? {
        CreditedWhenOk(p.books, drives, v.user.value, v.kobo, v.token);
        MarkingIsOrderly(p.(books := credited, flows := Collect(p.flows, v.kobo)), v.token);
      }
    }
  }

  /** Completing completes one request, failing none, and neither undoes a completion. */
  lemma MarkingIsOrderly(p: Payments, token: nat)
    ensures var c, f := CompleteTopUp(p, token), FailTopUp(p, token);
            && c.books == p.books && f.books == p.books && c.topUps.Keys == p.topUps.Keys == f.topUps.Keys
            && (forall t <- p.topUps :: t != token ==> c.topUps[t] == p.topUps[t] && f.topUps[t] == p.topUps[t])
            && (token in p.topUps ==> c.topUps[token] == TopUpCompleted)
            && (token in p.topUps ==> (f.topUps[token] == TopUpCompleted <==> p.topUps[token] == TopUpCompleted))
  {}

  lemma GrowsCredited(l: Ledger, m: Ledger)
    requires Grows(l, m)
    ensures forall t :: Credited(l, t) ==> Credited(m, t)
  {}

  /** Nothing takes a request out of COMPLETED or off the record. */
  lemma CompletedStays(p: Payments, o: PayOp)
    ensures forall t <- p.topUps :: t in StepPay(p, o).topUps
              && (p.topUps[t] == TopUpCompleted ==> StepPay(p, o).topUps[t] == TopUpCompleted)
  {
    hide ApplyVerifiedTopUp, InitiateWithdrawal, ProcessTransferWebhook, Step;
    if o.Verify? {
      PassCompletesCredited(p, o.payment);
    } else if !o.Request? && !o.MarkFailed? {
      OthersLeaveRequests(p, o);
    }
  }

  /** A COMPLETED request always has a posted transaction, and nothing takes it out of COMPLETED. */
  lemma CompletedStaysCredited(p: Payments, o: PayOp)
    requires CompletedAreCredited(p)
    ensures CompletedAreCredited(StepPay(p, o))
    ensures forall t <- p.topUps :: t in StepPay(p, o).topUps
              && (p.topUps[t] == TopUpCompleted ==> StepPay(p, o).topUps[t] == TopUpCompleted)
  {
    CompletedStays(p, o);
    StepPayGrows(p, o);
    GrowsCredited(p.books.ledger, StepPay(p, o).books.ledger);
    hide ApplyVerifiedTopUp, InitiateWithdrawal, ProcessTransferWebhook, Step, Grows, Credited;
    if o.Verify? {
      PassCompletesCredited(p, o.payment);
    } else if !o.Request? && !o.MarkFailed? {
      OthersLeaveRequests(p, o);
    }
  }

  lemma {:induction false} RunKeepsCompleted(p: Payments, os: seq<PayOp>)
    requires CompletedAreCredited(p)
    ensures CompletedAreCredited(RunPay(p, os))
    ensures forall t <- p.topUps :: t in RunPay(p, os).topUps
              && (p.topUps[t] == TopUpCompleted ==> RunPay(p, os).topUps[t] == TopUpCompleted)
    decreases |os|
  {
    if os != [] {
      RunKeepsCompleted(p, os[..|os| - 1]);
      CompletedStaysCredited(RunPay(p, os[..|os| - 1]), os[|os| - 1]);
      hide StepPay, CompletedAreCredited;
    }
  }
}
