/**
 What becomes of a top-up request: which passes complete or fail it, and that a paid one ends COMPLETED
 however often its payment is reported.
 */
module TopUpRequests {
  import opened Option
  import opened Money
  import opened Ledger
  import opened WalletSpec
  import opened Transfers
  import opened PaymentsSpec
  import opened TopUps

  /** The gateway collected the money, for a user we know. */
  predicate Paid(p: Payments, v: Verified) {
    v.status == Success && v.user.Some? && v.user.value in p.drives
  }

  /**
   The payment exceeds a driver's debt and the clearing account was never seeded, though revenue was: the debt is
   settled, the rest cannot be credited, and the pass throws between the two.
   */
  predicate Stranded(b: Books, drives: bool, user: nat, kobo: nat, token: nat) {
    && drives && 0 < Owed(b, user) < kobo && !Credited(b.ledger, token)
    && REVENUE in b.ledger.balances && CLEARING !in b.ledger.balances
  }

  lemma SameNames(l: Ledger, m: Ledger, token: nat)
    requires l.byReference.Keys == m.byReference.Keys
    ensures Credited(l, token) <==> Credited(m, token)
  {
    assert forall r :: r in l.byReference <==> r in l.byReference.Keys;
    assert forall r :: r in m.byReference <==> r in m.byReference.Keys;
  }

  /** Without the clearing account a top-up is refused, and with it never. */
  lemma TopUpNeedsClearing(b: Books, user: nat, kobo: nat, reference: Reference)
    ensures Step(b, TopUp(user, kobo as real, reference)).1.Ok? <==> CLEARING in b.ledger.balances
  {
    var op := TopUp(user, kobo as real, reference);
    var wallet := Owned(user, RiderWallet);
    assert [wallet][..0] == [] && [PlatformGatewayClearing][1..] == [];
    assert OpenAll(b.ledger, [wallet]) == OpenAccount(b.ledger, wallet);
    assert Missing(OpenAll(b.ledger, [wallet]), [PlatformGatewayClearing]).None? <==> CLEARING in b.ledger.balances;
    if CLEARING in b.ledger.balances && reference !in b.ledger.byReference {
      TopUpStep(b, user, kobo, reference);
      TransferStepShape(b, op, kobo as real, CLEARING, wallet);
    }
    hide Apply, Balanced, OpenAll, Missing;
  }

  lemma SettlementSteps(b: Books, user: nat, settle: real, token: nat)
    requires Payable(user) in b.ledger.balances && 0.0 <= settle <= Owed(b, user) as real && !Credited(b.ledger, token)
    ensures var (after, outcome) := Step(b, SettleCommission(user, settle, TopUpRef(token, Settle)));
            && (outcome.Ok? <==> REVENUE in b.ledger.balances)
            && (Credited(after.ledger, token) <==> outcome.Ok?)
            && (CLEARING in after.ledger.balances <==> CLEARING in b.ledger.balances)
  {
    var op := SettleCommission(user, settle, TopUpRef(token, Settle));
    StepNames(b, op);
    if REVENUE in b.ledger.balances {
      SettlePosts(b, user, settle, TopUpRef(token, Settle));
      TransferStepShape(b, op, settle, Payable(user), REVENUE);
      hide Step, Posts, PlanOf, OpenAll, IsTransfer;
    } else {
      RefusedSettlement(b, user, settle, token);
      hide Step;
    }
    hide Column, GroupSum;
  }

  lemma RefusedSettlement(b: Books, user: nat, settle: real, token: nat)
    requires Payable(user) in b.ledger.balances && REVENUE !in b.ledger.balances
    ensures var (after, outcome) := Step(b, SettleCommission(user, settle, TopUpRef(token, Settle)));
            outcome.Err? && after == b
  {
    assert [Payable(user)][..0] == [];
    assert OpenAll(b.ledger, [Payable(user)]) == OpenAccount(b.ledger, Payable(user));
    hide Post;
  }

  /** A first pass commits iff it leaves one of its references in the books, unless it strands the payment. */
  lemma FirstPassCommitsIff(b: Books, drives: bool, user: nat, kobo: nat, token: nat)
    requires !Credited(b.ledger, token)
    ensures var (after, outcome) := CreditTopUp(b, drives, user, kobo, token);
            if Stranded(b, drives, user, kobo, token) then outcome.Err? && Credited(after.ledger, token)
            else outcome.Ok? <==> Credited(after.ledger, token)
  {
    hide Step;
    var ready := if drives then OpenPayable(b, user) else b;
    assert Owed(ready, user) == Owed(b, user) && ready.ledger.byReference == b.ledger.byReference;
    SameNames(b.ledger, ready.ledger, token);
    if drives && Owed(ready, user) > 0 {
      var settle := Min(Owed(ready, user) as real, kobo as real);
      SettlementSteps(ready, user, settle, token);
      var (settled, outcome) := Step(ready, SettleCommission(user, settle, TopUpRef(token, Settle)));
      if outcome.Ok? && kobo as real - settle > 0.0 {
        var rest: nat := kobo - Owed(ready, user);
        assert kobo as real - settle == rest as real;
        TopUpNeedsClearing(settled, user, rest, TopUpRef(token, CreditPart));
        StepGrows(settled, TopUp(user, rest as real, TopUpRef(token, CreditPart)));
      }
    } else {
      var op := TopUp(user, kobo as real, TopUpRef(token, Plain));
      StepNames(ready, op);
    }
  }

  /**
   What a pass does to requests. A request whose payment the gateway collected is COMPLETED iff one of the payment's
   references is in the books by then, and otherwise as it was; one whose payment failed for good turns from PENDING
   to FAILED. Other requests stay, and a pass that collected nothing leaves everything else alone.
   */
  lemma PassMarksRequests(p: Payments, v: Verified)
    ensures var after := ApplyVerifiedTopUp(p, v);
            && after.topUps.Keys == p.topUps.Keys
            && (forall t <- p.topUps :: t != v.token ==> after.topUps[t] == p.topUps[t])
            && (v.token in p.topUps ==>
                  after.topUps[v.token] ==
                    if Paid(p, v) then
                      if Credited(after.books.ledger, v.token) && !Stranded(p.books, p.drives[v.user.value], v.user.value, v.kobo, v.token)
                      then TopUpCompleted else p.topUps[v.token]
                    else if v.status == TerminalFailure && p.topUps[v.token] == TopUpPending then TopUpFailed
                    else p.topUps[v.token])
            && (!Paid(p, v) ==> after == p.(topUps := after.topUps))
  {
    hide CreditTopUp, Credited, Stranded;
    if Paid(p, v) && !Credited(p.books.ledger, v.token) {
      FirstPassCommitsIff(p.books, p.drives[v.user.value], v.user.value, v.kobo, v.token);
      var (credited, outcome) := CreditTopUp(p.books, p.drives[v.user.value], v.user.value, v.kobo, v.token);
      assert ApplyVerifiedTopUp(p, v).books == credited;
      assert outcome.Ok? && v.token in p.topUps ==> ApplyVerifiedTopUp(p, v).topUps[v.token] == TopUpCompleted;
    } else {
      CreditedIsNotStranded(p, v);
    }
  }

  lemma CreditedIsNotStranded(p: Payments, v: Verified)
    requires !Paid(p, v) || Credited(p.books.ledger, v.token)
    ensures Paid(p, v) ==> !Stranded(p.books, p.drives[v.user.value], v.user.value, v.kobo, v.token)
  {}

  /**
   A request is put on record once, as PENDING; initiating a payment that the gateway refuses fails it only from there;
   and nothing but its own payment's passes changes it otherwise.
   */
  lemma RequestsChangeBy(p: Payments, o: PayOp, t: nat)
    ensures var before, after := p.topUps, StepPay(p, o).topUps;
            && (t !in before ==> (t in after <==> o == PayOp.Request(t)) && (t in after ==> after[t] == TopUpPending))
            && (t in before && !(o.Verify? && o.payment.token == t) ==>
                  t in after && after[t] == if o == MarkFailed(t) && before[t] == TopUpPending then TopUpFailed else before[t])
    ensures o.Request? || o.MarkFailed? ==> StepPay(p, o) == p.(topUps := StepPay(p, o).topUps)
  {
    hide ApplyVerifiedTopUp, InitiateWithdrawal, ProcessTransferWebhook, Step;
    if o.Verify? {
      PassMarksRequests(p, o.payment);
      assert t in p.topUps <==> t in p.topUps.Keys;
    } else if !o.Request? && !o.MarkFailed? {
      OthersLeaveRequests(p, o);
    }
  }

  // ---------------------------------------------------------------- over every run

  lemma {:induction false} SeededThroughout(p: Payments, os: seq<PayOp>)
    requires Seeded(p.books.ledger)
    ensures Seeded(RunPay(p, os).books.ledger)
    decreases |os|
  {
    if os != [] {
      SeededThroughout(p, os[..|os| - 1]);
      StepPayGrows(RunPay(p, os[..|os| - 1]), os[|os| - 1]);
    }
    hide StepPay;
  }

  /** A pass for a collected payment completes the request, in seeded books. */
  lemma PaidIsCompleted(p: Payments, v: Verified)
    requires Seeded(p.books.ledger) && Paid(p, v)
    ensures Credited(ApplyVerifiedTopUp(p, v).books.ledger, v.token)
    ensures v.token in p.topUps ==> v.token in ApplyVerifiedTopUp(p, v).topUps && ApplyVerifiedTopUp(p, v).topUps[v.token] == TopUpCompleted
  {
    PassMarksRequests(p, v);
    if Credited(p.books.ledger, v.token) {
      LaterPassMovesNothing(p, v);
    } else {
      FirstPassCredits(p.books, p.drives[v.user.value], v.user.value, v.kobo, v.token);
    }
    hide CreditTopUp, Credited, Credits;
  }

  /**
   Over every run, a request that was on record when a pass found its payment collected is COMPLETED at the end,
   whichever pass it was and whatever else the run holds.
   */
  lemma {:induction false} PaidRequestsEndCompleted(p: Payments, os: seq<PayOp>, k: nat)
    requires Seeded(p.books.ledger) && k < |os| && os[k].Verify?
    requires var before := RunPay(p, os[..k]);
             Paid(before, os[k].payment) && os[k].payment.token in before.topUps
    ensures var token := os[k].payment.token;
            token in RunPay(p, os).topUps && RunPay(p, os).topUps[token] == TopUpCompleted
    decreases |os|
  {
    var n := |os| - 1;
    if k == n {
      SeededThroughout(p, os[..k]);
      PaidIsCompleted(RunPay(p, os[..k]), os[k].payment);
    } else {
      assert os[..n][..k] == os[..k];
      PaidRequestsEndCompleted(p, os[..n], k);
      CompletedStays(RunPay(p, os[..n]), os[n]);
    }
    hide ApplyVerifiedTopUp, Seeded, Credited;
  }
}
