/**
 Whether money is conserved. Every post balances as exact decimals, but its legs are rounded one by one
 when they are stored. All balances together stay put except for two things, each worth a kobo: a fee split
 whose commission falls exactly between two kobo, and a withdrawal or settlement of half a kobo whose
 credited account does not stay below zero. A withdrawal of half a kobo also breaks the driver's own
 reconciliation.
 */
module Conservation {
  import opened Option
  import opened Money
  import opened Ledger
  import opened WalletSpec
  import opened Effects
  import opened Transfers
  import opened Movements
  import opened Drift
  import opened Revenue
  import opened HalfKobo

  /** Both legs of a transfer round alike, whatever the amount. */
  lemma TransferIsZeroSum(kind: TransactionType, reference: Reference, amount: real, from: Account, to: Account)
    ensures StoredSum(Transfer(kind, reference, amount, from, to).postings, Everything) == 0
  {
    var ps := Transfer(kind, reference, amount, from, to).postings;
    ColumnOdd(amount);
    assert ps[..1] == [ps[0]] && ps[..1][..0] == [];
    assert StoredSum(ps[..1], Everything) == Column(-amount);
  }

  /** A split stores one kobo too many exactly when the commission is half a kobo out. */
  lemma SplitCreatesIff(kind: TransactionType, reference: Reference, payer: Account, driver: nat,
                        fare: real, commission: real, tax: real)
    requires CleanSplit(fare, commission, tax)
    ensures StoredSum(Split(kind, reference, payer, driver, fare, commission, tax).postings, Everything)
         == if Half(commission) then 1 else 0
  {
    var ps := Split(kind, reference, payer, driver, fare, commission, tax).postings;
    SplitLegs(kind, reference, payer, driver, fare, commission, tax);
    var f, t, k := fare.Floor, tax.Floor, commission.Floor;
    ColumnOfWhole(f);
    ColumnOfWhole(-f);
    ColumnOfWhole(t);
    ColumnBySplit(commission, k);
    ColumnBySplit(fare - commission - tax, if commission == k as real then f - t - k else f - t - k - 1);
    assert ps[..3][..2] == ps[..2] && ps[..2][..1] == ps[..1] && ps[..1][..0] == [];
    assert StoredSum(ps[..1], Everything) == -f;
    assert StoredSum(ps[..2], Everything) == -f + Column(fare - commission - tax);
    assert StoredSum(ps[..3], Everything) == -f + Column(fare - commission - tax) + Column(commission);
  }

  /** Rates are in ten-thousandths and fees in kobo, so the caller can tell beforehand. */
  lemma HalfCommissionIff(feeKobo: nat, rate: nat)
    ensures Half((feeKobo * rate) as real / 10000.0) <==> feeKobo * rate % 10000 == 5000
  {
    var n := feeKobo * rate;
    var q, m := n / 10000, n % 10000;
    var x := n as real / 10000.0;
    assert n == q * 10000 + m;
    assert x == q as real + m as real / 10000.0;
    assert x.Floor == q;
  }

  /** The operation commits now and stores a kobo too many. */
  predicate CreatesKobo(b: Books, op: Op) {
    (op.PayForRide? || op.PayForDelivery?) && Half(op.commission)
    && op.reference !in b.ledger.byReference && Step(b, op).1.Ok?
  }

  /** A refund either balances, and then it moves nothing overall, or it is refused. */
  lemma RefundIsZeroSum(l: Ledger, id: nat)
    requires Sturdy(l)
    ensures GroupSum(Refund(l, id).0.balances, Everything) == GroupSum(l.balances, Everything)
    ensures id < |l.log| && l.log[id].status == Completed && EntrySum(l.log[id].entries, Everything) != 0 ==>
              Refund(l, id) == (l, Err(Unbalanced))
  {
    if id < |l.log| && l.log[id].status == Completed {
      FlipIsClean(l, id);
      StoredIsSides(Flip(l.log[id].entries));
      FlipSum(l.log[id].entries, Everything);
      RefundUndoes(l, id, Everything);
    }
  }

  lemma PlanStored(op: Op)
    requires !op.RefundTransaction? && !op.PayInvoice? && SharesAddUp(op)
    ensures StoredSum(PlanOf(op).request.postings, Everything)
         == if (op.PayForRide? || op.PayForDelivery?) && Half(op.commission) then 1 else 0
  {
    var r := PlanOf(op).request;
    if op.PayForRide? || op.PayForDelivery? {
      SplitCreatesIff(r.kind, op.reference, Owned(op.payer, RiderWallet), op.driver, op.fare, op.commission, op.tax);
    } else {
      TransferIsZeroSum(r.kind, r.reference, r.amount, r.postings[0].account, r.postings[1].account);
    }
    hide CleanSplit, Half, StoredSum;
  }

  lemma InvoiceStored(op: Op)
    requires op.PayInvoice? && Clean(op)
    ensures StoredSum(InvoicePayment(op).postings, Everything) == 0 && StoredSum(InvoiceSettlement(op).postings, Everything) == 0
  {
    WholeIsNotHalf(op.commission);
    SplitCreatesIff(BusinessInvoicePayment, op.reference, Owned(op.business, BusinessWallet), op.driver,
                    op.fare, op.commission, op.tax);
    TransferIsZeroSum(BusinessInvoicePayment, op.reference.(suffix := Settlement), op.fare, CreditLine(op.business), CLEARING);
    hide CleanSplit, Half, Whole, StoredSum;
  }

  /** All legs together: nothing, but for a fee split half a kobo out. */
  lemma EffectOnTotal(b: Books, op: Op)
    requires Sturdy(b.ledger) && OwedAmounts(op)
    ensures Effect(b, op, Everything) == if CreatesKobo(b, op) then 1 else 0
  {
    hide StoredSum, EntrySum, Half, Sturdy, PlanOf, InvoicePayment, InvoiceSettlement, PayInvoiceStep, Execute, CleanSplit, Whole;
    if op.RefundTransaction? {
      RefundIsZeroSum(b.ledger, op.transaction);
      if op.transaction < |b.ledger.log| && b.ledger.log[op.transaction].status == Reversed {
        FailedRefundIsNothing(b.ledger, op.transaction);
      }
    } else if op.PayInvoice? {
      InvoiceStored(op);
    } else {
      PlanStored(op);
    }
  }

  /** What an operation adds to all balances together. */
  function KoboMade(b: Books, op: Op): nat {
    (if CreatesKobo(b, op) then 1 else 0)
    + if CommitsHalf(b, op) && BalanceOf(b.ledger.balances, Payee(op)) as real + op.amount >= 0.0 then 1 else 0
  }

  /** Every operation a caller makes moves all balances together by the kobo it makes. */
  lemma StepMovesTotal(b: Books, op: Op)
    requires Sturdy(b.ledger) && OwedAmounts(op) && ProperReference(op)
    requires REVENUE in b.ledger.balances ==> b.ledger.balances[REVENUE] >= 0
    ensures GroupSum(Step(b, op).0.ledger.balances, Everything) == GroupSum(b.ledger.balances, Everything) + KoboMade(b, op)
  {
    hide Sturdy, OwedAmounts, ProperReference, Step, Half, GroupSum, History, Effect;
    assert Reversals(b.ledger) by { SturdyHasReversals(b.ledger); }
    StepDriftsGroup(b, op, Everything);
    StepMovesHistory(b, op, Everything);
    EffectOnTotal(b, op);
  }

  function KoboCreated(b: Books, ops: seq<Op>): nat
    decreases |ops|
  {
    if ops == [] then 0
    else KoboCreated(b, ops[..|ops| - 1]) + KoboMade(Run(b, ops[..|ops| - 1]), ops[|ops| - 1])
  }

  /** Over any run the balances sum to what they summed to before, plus the kobo its operations made. */
  lemma {:induction false} RunMovesTotal(b: Books, ops: seq<Op>)
    requires Firm(b.ledger) && OwedOps(b, ops)
    ensures GroupSum(Run(b, ops).ledger.balances, Everything)
         == GroupSum(b.ledger.balances, Everything) + KoboCreated(b, ops)
    decreases |ops|
  {
    hide Sturdy, OwedAmounts, ProperReference, Step, GroupSum, Accounted, KoboMade;
    if ops != [] {
      var before := Run(b, ops[..|ops| - 1]);
      RunKeepsFirm(b, ops[..|ops| - 1]);
      RunMovesTotal(b, ops[..|ops| - 1]);
      RevenueIsNotNegative(before.ledger);
      StepMovesTotal(before, ops[|ops| - 1]);
    }
  }

  /** Some operation of the run makes a kobo when its turn comes. */
  predicate SomeKobo(b: Books, ops: seq<Op>)
    decreases |ops|
  {
    ops != [] && (SomeKobo(b, ops[..|ops| - 1]) || KoboMade(Run(b, ops[..|ops| - 1]), ops[|ops| - 1]) > 0)
  }

  lemma {:induction false} CreatedIffSome(b: Books, ops: seq<Op>)
    ensures KoboCreated(b, ops) == 0 <==> !SomeKobo(b, ops)
    decreases |ops|
  {
    hide KoboMade, Run;
    if ops != [] {
      CreatedIffSome(b, ops[..|ops| - 1]);
    }
  }

  /**
   So books that sum to zero still do after a run iff the run commits neither a half-kobo fee split nor half a
   kobo to an account that does not stay below zero.
   */
  lemma BalancesSumToZeroIff(b: Books, ops: seq<Op>)
    requires Firm(b.ledger) && OwedOps(b, ops) && GroupSum(b.ledger.balances, Everything) == 0
    ensures GroupSum(Run(b, ops).ledger.balances, Everything) == 0 <==> !SomeKobo(b, ops)
  {
    RunMovesTotal(b, ops);
    CreatedIffSome(b, ops);
    hide Firm, OwedOps, Run, GroupSum, KoboCreated, SomeKobo;
  }

  // ---------------------------------------------------------------- withdrawals of a fraction

  function WithdrawalRequest(driver: nat, amount: real, token: nat): Request {
    Transfer(WalletWithdrawal, Reference(WithdrawalOf(token), Plain), amount, Owned(driver, DriverWallet), CLEARING)
  }

  ghost predicate CanWithdraw(l: Ledger, driver: nat, amount: real, token: nat) {
    && CLEARING in l.balances && amount >= 0.0
    && Reference(WithdrawalOf(token), Plain) !in l.byReference
    && Owned(driver, DriverWallet) in l.balances
    && l.balances[Owned(driver, DriverWallet)] as real >= amount
  }

  lemma WithdrawalApplies(l: Ledger, driver: nat, amount: real, token: nat)
    requires CanWithdraw(l, driver, amount, token)
    ensures var ps := WithdrawalRequest(driver, amount, token).postings;
            && Balanced(ps) && Apply(l.balances, ps) == Ok(AfterTransfer(l.balances, amount, Owned(driver, DriverWallet), CLEARING))
            && (Half(amount) || AllLand(l.balances, ps))
            && StoredSum(ps, Only(Owned(driver, DriverWallet))) == -Column(amount)
  {
    var wallet, ps := Owned(driver, DriverWallet), WithdrawalRequest(driver, amount, token).postings;
    assert ps[..1] == [ps[0]] && ps[..1][..0] == [];
    assert Apply(l.balances, ps[..1]) == Ok(l.balances[wallet := Column(l.balances[wallet] as real - amount)]);
    assert SideTotal(ps[..1], Debit) == amount && SideTotal(ps[..1], Credit) == 0.0;
    ColumnOdd(amount);
    assert StoredSum(ps[..1], Only(wallet)) == -Column(amount);
    LandsIff(l.balances[wallet], -amount);
    LandsIff(l.balances[CLEARING], amount);
    HalfOdd(amount);
    assert AllLand(l.balances, ps[..1]) || Half(amount);
  }

  lemma WithdrawalStep(b: Books, driver: nat, amount: real, token: nat)
    requires CanWithdraw(b.ledger, driver, amount, token)
    ensures Step(b, RequestWithdrawal(driver, amount, Reference(WithdrawalOf(token), Plain)))
         == (b.(ledger := Commit(b.ledger, WithdrawalRequest(driver, amount, token),
                                 AfterTransfer(b.ledger.balances, amount, Owned(driver, DriverWallet), CLEARING), None)), Ok(|b.ledger.log|))
  {
    var op := RequestWithdrawal(driver, amount, Reference(WithdrawalOf(token), Plain));
    var wallet := Owned(driver, DriverWallet);
    assert PlanOf(op) == Plan([wallet], [PlatformGatewayClearing], WithdrawalRequest(driver, amount, token));
    assert OpenAll(b.ledger, [wallet]) == b.ledger by { assert [wallet][..0] == []; }
    assert Missing(b.ledger, [PlatformGatewayClearing]) == None;
    WithdrawalApplies(b.ledger, driver, amount, token);
    hide Apply, Balanced;
  }

  /**
   The withdrawal amount is not limited to two decimals. It is debited as asked, and stored rounded:
   the driver's wallet still balances with its entries iff the amount is not exactly half a kobo out.
   */
  lemma WithdrawalReconcilesIff(b: Books, driver: nat, amount: real, token: nat)
    requires Valid(b.ledger) && CanWithdraw(b.ledger, driver, amount, token)
    ensures var (after, outcome) := Step(b, RequestWithdrawal(driver, amount, Reference(WithdrawalOf(token), Plain)));
            outcome.Ok? && (Reconciled(after.ledger) <==> !Half(amount))
  {
    var l, wallet, req := b.ledger, Owned(driver, DriverWallet), WithdrawalRequest(driver, amount, token);
    WithdrawalStep(b, driver, amount, token);
    WithdrawalApplies(l, driver, amount, token);
    if !Half(amount) {
      CommitReconciled(l, req, None);
    } else {
      WithdrawalBreaks(l, driver, amount, token);
    }
  }

  lemma WithdrawalBreaks(l: Ledger, driver: nat, amount: real, token: nat)
    requires Reconciled(l) && CanWithdraw(l, driver, amount, token) && Half(amount)
    ensures !Reconciled(Commit(l, WithdrawalRequest(driver, amount, token), AfterTransfer(l.balances, amount, Owned(driver, DriverWallet), CLEARING), None))
  {
    var wallet, req := Owned(driver, DriverWallet), WithdrawalRequest(driver, amount, token);
    var after := AfterTransfer(l.balances, amount, Owned(driver, DriverWallet), CLEARING);
    var w := l.balances[wallet];
    WithdrawalApplies(l, driver, amount, token);
    EntriesSum(req.postings, after, Only(wallet));
    GroupSumOnly(l.balances, wallet);
    GroupSumOnly(after, wallet);
    assert after[wallet] != w - Column(amount) by {
      ColumnOdd(amount);
      LandsIff(w, -amount);
      HalfOdd(amount);
    }
    hide Column, Half, AllLand, StoredSum, GroupSum, EntrySum, Apply;
    var done := Commit(l, req, after, None);
    assert done.log[..|done.log| - 1] == l.log;
    assert History(done.log, Only(wallet)) == w - Column(amount);
    assert GroupSum(done.balances, Only(wallet)) != History(done.log, Only(wallet));
  }

  /** 100.005 naira out of 200.00 leaves 100.00 in the wallet, while the entry says 100.01 left it. */
  lemma HalfKoboWithdrawalExample()
    ensures Half(10000.5) && Column(20000.0 - 10000.5) == 10000 && Column(10000.5) == 10001
  {
    ColumnBySplit(20000.0 - 10000.5, 9999);
    ColumnBySplit(10000.5, 10000);
  }
}
