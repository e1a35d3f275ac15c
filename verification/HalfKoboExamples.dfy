/** The same findings at amounts the service runs on, from freshly seeded books. */
module HalfKoboExamples {
  import opened Option
  import opened Money
  import opened Ledger
  import opened WalletSpec
  import opened Effects
  import opened Transfers
  import opened PaymentsSpec
  import opened TopUps
  import opened Clearing
  import opened Conservation
  import opened Withdrawals
  import opened HalfWithdrawals
  import ConcurrentPosting

  const RIDER := Owned(1, RiderWallet)
  const DRIVER := Owned(2, DriverWallet)
  const TOP_UP_REFERENCE := TopUpRef(9, Plain)
  const RIDE_REFERENCE := Reference(RideOf(5), Plain)

  /** The rider tops up, and pays the driver for a ride or for cancelling it. */
  function PaidUp(fare: nat): Op {
    TopUp(1, fare as real, TOP_UP_REFERENCE)
  }

  function Paying(fare: nat, commission: real): Op {
    PayForRide(1, 2, fare as real, commission, RIDE_REFERENCE, 0.0)
  }

  function Seeds(): Books {
    Books(Ledger(map[CLEARING := 0, REVENUE := 0, REFERRALS := 0, TAX := 0], [], map[]), map[])
  }

  lemma SeedsAreValid()
    ensures Valid(Seeds().ledger) && GroupSum(Seeds().ledger.balances, Everything) == 0
  {
    SeededBooksAreSound(map[]);
    assert Valid(SeededPayments(map[]).books.ledger);
    assert GroupSum(Seeds().ledger.balances, Everything) == History([], Everything);
    hide Sound, Valid, GroupSum;
  }

  /** What a top-up makes of the seeds. */
  function Topped(fare: int): Balances {
    map[CLEARING := -fare, REVENUE := 0, REFERRALS := 0, TAX := 0, RIDER := fare]
  }

  lemma ToppedUp(fare: nat)
    ensures var (after, outcome) := Step(Seeds(), PaidUp(fare));
            && outcome == Ok(0) && |after.ledger.log| == 1 && after.ledger.byReference == map[TOP_UP_REFERENCE := 0]
            && after.ledger.balances == Topped(fare)
  {
    hide Column, IsTransfer, Step, Valid, Admissible, Topped, Posts;
    SeedsAreValid();
    TopUpStep(Seeds(), 1, fare, TOP_UP_REFERENCE);
    TransferStepShape(Seeds(), PaidUp(fare), fare as real, CLEARING, RIDER);
    assert [RIDER][..0] == [];
    assert OpenAll(Seeds().ledger, [RIDER]) == OpenAccount(Seeds().ledger, RIDER);
    AfterTopUp(fare);
  }

  lemma AfterTopUp(fare: nat)
    ensures var ready := OpenAccount(Seeds().ledger, RIDER).balances;
            CLEARING in ready && RIDER in ready && AfterTransfer(ready, fare as real, CLEARING, RIDER) == Topped(fare)
  {
    ColumnOfWhole(fare);
    ColumnOfWhole(0 - fare);
    hide Column;
  }

  /** An untaxed split of a covered fare gets through, leg by leg. */
  lemma SplitApplies(b: Balances, fare: real, commission: real)
    requires RIDER in b && DRIVER in b && REVENUE in b && 0.0 <= fare <= b[RIDER] as real
    ensures var ps := Split(RidePaymentWallet, RIDE_REFERENCE, RIDER, 2, fare, commission, 0.0).postings;
            && Balanced(ps)
            && Apply(b, ps) == Ok(b[RIDER := Column(b[RIDER] as real - fare)]
                                   [DRIVER := Column(b[DRIVER] as real + (fare - commission - 0.0))]
                                   [REVENUE := Column(b[REVENUE] as real + commission)])
  {
    var ps := Split(RidePaymentWallet, RIDE_REFERENCE, RIDER, 2, fare, commission, 0.0).postings;
    assert |ps| == 3 && ps[..2][..1] == ps[..1] && ps[..1] == [ps[0]] && ps[..1][..0] == [];
    hide Column;
    assert Apply(b, ps[..1]) == Ok(b[RIDER := Column(b[RIDER] as real - fare)]);
    assert Apply(b, ps[..2]) == Ok(b[RIDER := Column(b[RIDER] as real - fare)][DRIVER := Column(b[DRIVER] as real + (fare - commission - 0.0))]);
    assert SideTotal(ps[..1], Debit) == fare && SideTotal(ps[..1], Credit) == 0.0;
    assert SideTotal(ps[..2], Debit) == fare && SideTotal(ps[..2], Credit) == fare - commission;
  }

  /** The books after both. */
  function Paid(fare: int, commission: real): Balances {
    map[CLEARING := -fare, REVENUE := Column(commission), REFERRALS := 0, TAX := 0, RIDER := 0,
        DRIVER := Column(fare as real - commission)]
  }

  lemma PayingPosts(l: Ledger, fare: nat, commission: real)
    requires RIDE_REFERENCE !in l.byReference && l.balances == Topped(fare)[DRIVER := 0]
    ensures var req := PlanOf(Paying(fare, commission)).request;
            && Post(l, req).1 == Ok(|l.log|) && Post(l, req).0.balances == Paid(fare, commission)
            && Post(l, req).0.byReference == l.byReference[RIDE_REFERENCE := |l.log|] && |Post(l, req).0.log| == |l.log| + 1
            && Post(l, req).0.log[|l.log|].status == Completed
  {
    SplitApplies(l.balances, fare as real, commission);
    ColumnOfWhole(0);
    assert fare as real - fare as real == 0 as real;
    assert (0 as real) + (fare as real - commission - 0.0) == fare as real - commission;
    assert (0 as real) + commission == commission;
    hide Column, Apply, Balanced, EntriesOf;
  }

  lemma PaidFor(b: Books, fare: nat, commission: real)
    requires b.ledger.byReference == map[TOP_UP_REFERENCE := 0] && b.ledger.balances == Topped(fare)
    ensures var (after, outcome) := Step(b, Paying(fare, commission));
            && outcome == Ok(|b.ledger.log|) && after.ledger.balances == Paid(fare, commission)
            && after.ledger.byReference == b.ledger.byReference[RIDE_REFERENCE := |b.ledger.log|]
            && |after.ledger.log| == |b.ledger.log| + 1 && after.ledger.log[|b.ledger.log|].status == Completed
  {
    var ready := OpenAccount(b.ledger, DRIVER);
    assert [RIDER, DRIVER][..1] == [RIDER] && [RIDER][..0] == [];
    assert OpenAll(b.ledger, []) == b.ledger;
    assert OpenAll(b.ledger, [RIDER]) == b.ledger;
    assert OpenAll(b.ledger, [RIDER, DRIVER]) == ready;
    assert [PlatformRevenue] + TaxNeeds(0.0) == [PlatformRevenue] && [PlatformRevenue][1..] == [];
    assert Missing(ready, []) == None;
    assert Missing(ready, [PlatformRevenue]) == None;
    PayingPosts(ready, fare, commission);
    hide Column, Post, OpenAll, Split, Missing;
  }

  // ---------------------------------------------------------------- a cancellation fee

  lemma RunOfTwo(b: Books, first: Op, second: Op)
    ensures Run(b, [first, second]) == Step(Step(b, first).0, second).0
    ensures Run(b, [first, second][..1]) == Step(b, first).0 && Run(b, []) == b
    ensures [first, second][..1][..0] == []
  {
    hide Step;
    assert [first, second][..1] == [first] && [first][..0] == [];
    assert Run(b, []) == b;
    assert Run(b, [first]) == Step(b, first).0;
  }

  /** Both operations are as callers owe them. */
  lemma PaidIsValid(fare: nat, commission: real)
    requires 0.0 <= commission <= fare as real
    ensures Valid(Step(Seeds(), PaidUp(fare)).0.ledger)
    ensures GroupSum(Step(Seeds(), PaidUp(fare)).0.ledger.balances, Everything) == 0
    ensures Valid(Run(Seeds(), [PaidUp(fare), Paying(fare, commission)]).ledger)
  {
    hide Valid, Step, GroupSum, Column;
    var ops := [PaidUp(fare), Paying(fare, commission)];
    RunOfTwo(Seeds(), ops[0], ops[1]);
    SeedsAreValid();
    ToppedUp(fare);
    ColumnOfWhole(fare);
    ColumnOfWhole(0);
    assert AdmissibleRun(Seeds(), ops[..1][..0]);
    assert AdmissibleRun(Seeds(), ops[..1]);
    assert AdmissibleRun(Seeds(), ops);
    RunKeepsValid(Seeds(), ops[..1]);
    StepMovesTotal(Seeds(), ops[0]);
    RunKeepsValid(Seeds(), ops);
  }

  /**
   100.25 at 18 percent: the commission is 18.045, both shares round up, and after the fee all accounts
   together hold a kobo more than nothing, which no refund can take back.
   */
  lemma CancellationFeeCreatesKobo()
    ensures var after := Run(Seeds(), [PaidUp(10025), Paying(10025, 10025.0 * 0.18)]);
            && GroupSum(after.ledger.balances, Everything) == 1
            && DRIVER in after.ledger.balances && after.ledger.balances[DRIVER] == 8221
            && REVENUE in after.ledger.balances && after.ledger.balances[REVENUE] == 1805
            && Step(after, RefundTransaction(1)) == (after, Err(Unbalanced))
  {
    hide Valid, Step, GroupSum, Column, EntrySum;
    assert 10025.0 * 0.18 == 1804.5;
    var first := Step(Seeds(), PaidUp(10025)).0;
    var after := Step(first, Paying(10025, 1804.5)).0;
    RunOfTwo(Seeds(), PaidUp(10025), Paying(10025, 1804.5));
    ToppedUp(10025);
    PaidFor(first, 10025, 1804.5);
    ColumnBySplit(1804.5, 1804);
    ColumnBySplit(8220.5, 8220);
    assert Paid(10025, 1804.5)[DRIVER] == 8221;
    PaidTotal(10025, 1804.5);
    PaidIsValid(10025, 1804.5);
    UnbalancedFee(first, after);
  }

  /** The fee's own entries are a kobo out, so its refund is refused. */
  lemma UnbalancedFee(b: Books, after: Books)
    requires Valid(b.ledger) && Valid(after.ledger) && after == Step(b, Paying(10025, 1804.5)).0
    requires GroupSum(b.ledger.balances, Everything) == 0 && GroupSum(after.ledger.balances, Everything) == 1
    requires |b.ledger.log| == 1 && |after.ledger.log| == 2 && after.ledger.log[1].status == Completed
    ensures Step(after, RefundTransaction(1)) == (after, Err(Unbalanced))
  {
    hide GroupSum, EntrySum, Execute, Refund;
    StepGrows(b, Paying(10025, 1804.5));
    assert after.ledger.log[..1] == b.ledger.log;
    assert History(after.ledger.log, Everything) == History(b.ledger.log, Everything) + EntrySum(after.ledger.log[1].entries, Everything);
    Reconciles(b.ledger);
    Reconciles(after.ledger);
    RefundIsZeroSum(after.ledger, 1);
  }

  lemma Reconciles(l: Ledger)
    requires Valid(l)
    ensures GroupSum(l.balances, Everything) == History(l.log, Everything)
  {
    hide GroupSum, History, Indexed, Solvent, Snapshots, Reversals, Wellformed;
  }

  // ---------------------------------------------------------------- a withdrawal

  /** 100.005 out of 200.00 leaves 100.00 in the wallet, while the entry says 100.01 left it. */
  lemma HalfKoboWithdrawalBreaks()
    ensures var before := Run(Seeds(), [PaidUp(20000), Paying(20000, 0.0)]);
            var after := Step(before, RequestWithdrawal(2, 10000.5, WithdrawalRef(7, Plain))).0;
            && Valid(before.ledger) && DRIVER in before.ledger.balances && before.ledger.balances[DRIVER] == 20000
            && DRIVER in after.ledger.balances && after.ledger.balances[DRIVER] == 10000
            && |after.ledger.log| == 3 && IsTransfer(after.ledger.log[2], WithdrawalRef(7, Plain), 10001, DRIVER, CLEARING)
            && !Reconciled(after.ledger)
  {
    hide Valid, Step, Reconciled, Paid, IsTransfer, Run;
    var first := Step(Seeds(), PaidUp(20000)).0;
    var before := Step(first, Paying(20000, 0.0)).0;
    RunOfTwo(Seeds(), PaidUp(20000), Paying(20000, 0.0));
    ToppedUp(20000);
    PaidFor(first, 20000, 0.0);
    PaidIsValid(20000, 0.0);
    BreaksFrom(before);
  }

  lemma PaidFigures()
    ensures DRIVER in Paid(20000, 0.0) && Paid(20000, 0.0)[DRIVER] == 20000
    ensures CLEARING in Paid(20000, 0.0) && Paid(20000, 0.0)[CLEARING] == -20000
    ensures Payable(2) !in Paid(20000, 0.0) && REVENUE in Paid(20000, 0.0)
    ensures REFERRALS in Paid(20000, 0.0) && TAX in Paid(20000, 0.0)
  {
    ColumnOfWhole(20000);
    hide Column;
  }

  lemma HalfFigures()
    ensures Half(10000.5) && Column(10000.5) == 10001
    ensures Column(20000 as real - 10000.5) == 10000 && Column(-20000 as real + 10000.5) == -10000
    ensures ToKobo(10000.5) == 10001
  {
    HalfKoboWithdrawalExample();
    ColumnBySplit(-9999.5, -10000);
  }

  lemma BreaksFrom(before: Books)
    requires Valid(before.ledger) && before.ledger.balances == Paid(20000, 0.0) && |before.ledger.log| == 2
    requires before.ledger.byReference.Keys == {TOP_UP_REFERENCE, RIDE_REFERENCE}
    ensures DRIVER in before.ledger.balances && before.ledger.balances[DRIVER] == 20000
    ensures var after := Step(before, RequestWithdrawal(2, 10000.5, WithdrawalRef(7, Plain))).0;
            && DRIVER in after.ledger.balances && after.ledger.balances[DRIVER] == 10000
            && |after.ledger.log| == 3 && IsTransfer(after.ledger.log[2], WithdrawalRef(7, Plain), 10001, DRIVER, CLEARING)
            && !Reconciled(after.ledger)
  {
    hide Valid, Step, Column, Half, Reconciled, Paid;
    PaidFigures();
    HalfFigures();
    WithdrawalStep(before, 2, 10000.5, 7);
    WithdrawalReconcilesIff(before, 2, 10000.5, 7);
  }

  // ---------------------------------------------------------------- a settlement

  /** A cash ride leaves the driver 200.00 in debt as well. */
  function InDebt(): Op {
    RecordCashRideCommission(2, 20000.0, Reference(RideOf(6), Plain))
  }

  function Owing(): Balances {
    Paid(20000, 0.0)[Payable(2) := 20000][CLEARING := -40000]
  }

  lemma IndebtedBooks(b: Books)
    requires b.ledger.balances == Paid(20000, 0.0) && b.ledger.byReference.Keys == {TOP_UP_REFERENCE, RIDE_REFERENCE}
    ensures var (after, outcome) := Step(b, InDebt());
            && outcome.Ok? && after.ledger.balances == Owing()
            && after.ledger.byReference.Keys == {TOP_UP_REFERENCE, RIDE_REFERENCE, Reference(RideOf(6), Plain)}
  {
    hide Paid, Column, Step, IsTransfer;
    PaidFigures();
    assert [Payable(2)][..0] == [] && [PlatformGatewayClearing][1..] == [];
    assert OpenAll(b.ledger, []) == b.ledger && OpenAll(b.ledger, [Payable(2)]) == OpenAccount(b.ledger, Payable(2));
    assert Missing(OpenAccount(b.ledger, Payable(2)), []) == None;
    assert Missing(OpenAccount(b.ledger, Payable(2)), [PlatformGatewayClearing]) == None;
    ColumnOfWhole(20000);
    ColumnOfWhole(0 - 40000);
    assert Reference(RideOf(6), Plain) !in b.ledger.byReference;
    TransferStepShape(b, InDebt(), 20000.0, CLEARING, Payable(2));
  }

  /** Withdrawing 100.005 then settles 100.005 of it: the debt falls by 100.00, revenue gains 100.01. */
  lemma SettlementFrom(b: Books)
    requires b.ledger.balances == Owing() && WithdrawalRef(7, Plain) !in b.ledger.byReference && WithdrawalRef(7, Settle) !in b.ledger.byReference
    ensures var (after, withdrawal, settlement) := Reserve(b, 2, 10000.5, 7);
            && withdrawal.Ok? && settlement.Ok?
            && after.ledger.balances
               == Owing()[DRIVER := 10000][CLEARING := -30000][Payable(2) := 10000][REVENUE := 10001]
  {
    hide Paid, Column, Half, Step, IsTransfer, Reserve;
    var first, second := RequestWithdrawal(2, 10000.5, WithdrawalRef(7, Plain)), SettleCommission(2, 10000.5, WithdrawalRef(7, Settle));
    PaidFigures();
    SettledFigures();
    WithdrawPosts(b, 2, 10000.5, WithdrawalRef(7, Plain));
    TransferStepShape(b, first, 10000.5, DRIVER, CLEARING);
    var b1 := Step(b, first).0;
    assert b1.ledger.balances == Owing()[DRIVER := 10000][CLEARING := -30000];
    SettlePosts(b1, 2, 10000.5, WithdrawalRef(7, Settle));
    TransferStepShape(b1, second, 10000.5, Payable(2), REVENUE);
    assert Step(b1, second).0.ledger.balances == Owing()[DRIVER := 10000][CLEARING := -30000][Payable(2) := 10000][REVENUE := 10001];
    ReserveUnfolds(b, 2, 10000.5, 7);
  }

  lemma SettledFigures()
    ensures Column(20000 as real - 10000.5) == 10000 && Column(-40000 as real + 10000.5) == -30000
    ensures Column(0 as real + 10000.5) == 10001 && Paid(20000, 0.0)[REVENUE] == 0
  {
    ColumnBySplit(9999.5, 9999);
    ColumnBySplit(10000.5, 10000);
    ColumnBySplit(-29999.5, -30000);
    ColumnOfWhole(0);
  }

  /** So without any fee split all balances together hold a kobo more than nothing. */
  lemma HalfKoboSettlementCreatesKobo()
    ensures var b := Step(Run(Seeds(), [PaidUp(20000), Paying(20000, 0.0)]), InDebt()).0;
            var after := Reserve(b, 2, 10000.5, 7).0;
            && GroupSum(b.ledger.balances, Everything) == 0 && GroupSum(after.ledger.balances, Everything) == 1
            && Payable(2) in after.ledger.balances && after.ledger.balances[Payable(2)] == 10000
            && REVENUE in after.ledger.balances && after.ledger.balances[REVENUE] == 10001
  {
    hide Step, Paid, Topped, Run, GroupSum, Reserve, Column;
    var first := Step(Seeds(), PaidUp(20000)).0;
    var paid := Step(first, Paying(20000, 0.0)).0;
    RunOfTwo(Seeds(), PaidUp(20000), Paying(20000, 0.0));
    ToppedUp(20000);
    PaidFor(first, 20000, 0.0);
    IndebtedBooks(paid);
    SettlementFrom(Step(paid, InDebt()).0);
    OwingTotals();
    PaidFigures();
  }

  lemma OwingTotals()
    ensures GroupSum(Owing(), Everything) == 0
    ensures GroupSum(Owing()[DRIVER := 10000][CLEARING := -30000][Payable(2) := 10000][REVENUE := 10001], Everything) == 1
  {
    hide GroupSum, Paid, Column;
    PaidTotal(20000, 0.0);
    PaidFigures();
    ColumnOfWhole(20000);
    ColumnOfWhole(0);
    SettledFigures();
    var paid, down: int := Paid(20000, 0.0), 0 - 40000;
    GroupSumUpdate(paid, Everything, Payable(2), 20000);
    GroupSumUpdate(paid[Payable(2) := 20000], Everything, CLEARING, down);
    var left: int := 0 - 30000;
    GroupSumUpdate(Owing(), Everything, DRIVER, 10000);
    GroupSumUpdate(Owing()[DRIVER := 10000], Everything, CLEARING, left);
    GroupSumUpdate(Owing()[DRIVER := 10000][CLEARING := left], Everything, Payable(2), 10000);
    GroupSumUpdate(Owing()[DRIVER := 10000][CLEARING := left][Payable(2) := 10000], Everything, REVENUE, 10001);
  }

  // ---------------------------------------------------------------- two withdrawals

  function Withdrawing(amount: real, token: nat): Request {
    WithdrawalRequest(2, amount, token)
  }

  /** 200.00 in the wallet lets 100.005 and 100.00 out, which are recorded as 200.01. */
  lemma HalfKoboDebitsOverdraw()
    ensures var l := Run(Seeds(), [PaidUp(20000), Paying(20000, 0.0)]).ledger;
            var reqs := [Withdrawing(10000.5, 7), Withdrawing(10000.0, 8)];
            var db := ConcurrentPosting.RunAll(ConcurrentPosting.Quiet(l), ConcurrentPosting.Serial(reqs));
            && db.order == reqs && DRIVER in l.balances && l.balances[DRIVER] == 20000
            && ConcurrentPosting.AllCredits(db.order, DRIVER) == 0
            && ConcurrentPosting.AllDebits(db.order, DRIVER) == 20001
  {
    hide Step, Paid, Topped, Run, ConcurrentPosting.RunAll, ConcurrentPosting.Serial;
    var first := Step(Seeds(), PaidUp(20000)).0;
    RunOfTwo(Seeds(), PaidUp(20000), Paying(20000, 0.0));
    ToppedUp(20000);
    PaidFor(first, 20000, 0.0);
    OverdrawnFrom(Step(first, Paying(20000, 0.0)).0.ledger);
  }

  lemma OverdrawnFrom(l: Ledger)
    requires l.balances == Paid(20000, 0.0) && l.byReference.Keys == {TOP_UP_REFERENCE, RIDE_REFERENCE}
    ensures var reqs := [Withdrawing(10000.5, 7), Withdrawing(10000.0, 8)];
            var db := ConcurrentPosting.RunAll(ConcurrentPosting.Quiet(l), ConcurrentPosting.Serial(reqs));
            && db.order == reqs && DRIVER in l.balances && l.balances[DRIVER] == 20000
            && ConcurrentPosting.AllCredits(db.order, DRIVER) == 0
            && ConcurrentPosting.AllDebits(db.order, DRIVER) == 20001
  {
    hide Column, Half, Paid, ConcurrentPosting.RunAll, ConcurrentPosting.Serial, Post;
    var first, second := Withdrawing(10000.5, 7), Withdrawing(10000.0, 8);
    PaidFigures();
    HalfFigures();
    TransferPosts(l, WalletWithdrawal, first.reference, 10000.5, DRIVER, CLEARING);
    var m := Post(l, first).0;
    assert m.balances[DRIVER] == 10000;
    TransferPosts(m, WalletWithdrawal, second.reference, 10000.0, DRIVER, CLEARING);
    assert [first, second][..1] == [first] && [first][..0] == [];
    assert ConcurrentPosting.Replay(l, []) == l && ConcurrentPosting.Replay(l, [first]) == m;
    assert ConcurrentPosting.AllCommit(l, []) && ConcurrentPosting.AllCommit(l, [first]);
    assert ConcurrentPosting.AllCommit(l, [first, second]);
    ConcurrentPosting.SerialRunsAreSchedules(l, [first, second]);
    WithdrawalTotals(10000.5, 7);
    WithdrawalTotals(10000.0, 8);
    ColumnOfWhole(10000);
    assert ConcurrentPosting.AllDebits([first], DRIVER) == 10001;
  }

  lemma WithdrawalTotals(amount: real, token: nat)
    ensures ConcurrentPosting.Debits(Withdrawing(amount, token).postings, DRIVER) == Column(amount)
    ensures ConcurrentPosting.Credits(Withdrawing(amount, token).postings, DRIVER) == 0
  {
    var ps := Withdrawing(amount, token).postings;
    assert ps[..1] == [ps[0]] && ps[..1][..0] == [];
    hide Column;
    assert ConcurrentPosting.Debits(ps[..1], DRIVER) == Column(amount) && ConcurrentPosting.Credits(ps[..1], DRIVER) == 0;
  }

  // ---------------------------------------------------------------- the clearing account

  const DRIVES: map<nat, bool> := map[1 := false, 2 := true]

  /** The same money through the gateway. */
  function Collected(): seq<PayOp> {
    [Verify(Verified(9, Success, Some(1), 20000)), Other(Paying(20000, 0.0))]
  }

  lemma CollectedBooks()
    ensures var p := RunPay(SeededPayments(DRIVES), Collected());
            && Sound(p) && p.books.ledger.balances == Paid(20000, 0.0)
            && p.books.ledger.byReference.Keys == {TOP_UP_REFERENCE, RIDE_REFERENCE} && p.flows == Flows(20000, 0, 0)
  {
    hide Step, Sound, Column;
    var p0, os := SeededPayments(DRIVES), Collected();
    assert os[..1] == [os[0]] && os[..1][..0] == [];
    var p1 := StepPay(p0, os[0]);
    assert RunPay(p0, os[..1][..0]) == p0;
    assert RunPay(p0, os[..1]) == p1;
    assert RunPay(p0, os) == StepPay(p1, os[1]);
    ToppedUp(20000);
    assert CreditTopUp(p0.books, false, 1, 20000, 9) == Step(Seeds(), PaidUp(20000));
    assert p1.books == Step(Seeds(), PaidUp(20000)).0 && p1.flows == Flows(20000, 0, 0);
    PaidFor(p1.books, 20000, 0.0);
    SeededBooksAreSound(DRIVES);
    StepPayKeepsSoundIff(p0, os[0]);
    ColumnOfWhole(20000);
    ColumnOfWhole(0);
    StepPayKeepsSoundIff(p1, os[1]);
  }

  /** The transfer of 100.005 is sent as 100.01, but clearing moves by 100.00: a kobo of it is nobody's. */
  lemma HalfKoboWithdrawalLosesClearing()
    ensures var p := RunPay(SeededPayments(DRIVES), Collected());
            var q := StepPay(p, Withdraw(2, 10000.5, 7, true));
            && Sound(p) && p.flows.sent == 0 && q.flows.sent == 10001
            && CLEARING in q.books.ledger.balances
            && p.books.ledger.balances[CLEARING] == -20000 && q.books.ledger.balances[CLEARING] == -10000
            && !Identity(q)
  {
    hide Sound, Orderly, Identity, InitiateWithdrawal, RunPay, Column, Half, Paid;
    var p := RunPay(SeededPayments(DRIVES), Collected());
    CollectedBooks();
    PaidFigures();
    HalfFigures();
    SoundIsOrderly(p);
    WithdrawKeepsIdentityIff(p, 2, 10000.5, 7, true);
    SentClearing(p);
  }

  lemma SentClearing(p: Payments)
    requires p.books.ledger.balances == Paid(20000, 0.0) && WithdrawalRef(7, Plain) !in p.books.ledger.byReference
    ensures var q := InitiateWithdrawal(p, 2, 10000.5, 7, true);
            CLEARING in q.books.ledger.balances && q.books.ledger.balances[CLEARING] == -10000
            && q.flows.sent == p.flows.sent + 10001
  {
    hide Step, Column, ToKobo, Half, Paid;
    var ready := OpenPayable(p.books, 2);
    PaidFigures();
    HalfFigures();
    WithdrawPosts(ready, 2, 10000.5, WithdrawalRef(7, Plain));
    TransferStepShape(ready, RequestWithdrawal(2, 10000.5, WithdrawalRef(7, Plain)), 10000.5, DRIVER, CLEARING);
  }

  /** What is held altogether after both. */
  lemma PaidTotal(fare: nat, commission: real)
    ensures GroupSum(Paid(fare, commission), Everything) == Column(commission) + Column(fare as real - commission) - fare
  {
    hide Column, GroupSum;
    var b0: Balances := map[];
    var down: int := 0 - fare;
    var b1: Balances := b0[CLEARING := down];
    var b2 := b1[REVENUE := Column(commission)];
    var b3 := b2[REFERRALS := 0][TAX := 0];
    var b4 := b3[RIDER := 0];
    GroupSumUpdate(b0, Everything, CLEARING, down);
    GroupSumUpdate(b1, Everything, REVENUE, Column(commission));
    GroupSumUpdate(b2, Everything, REFERRALS, 0);
    GroupSumUpdate(b2[REFERRALS := 0], Everything, TAX, 0);
    GroupSumUpdate(b3, Everything, RIDER, 0);
    GroupSumUpdate(b4, Everything, DRIVER, Column(fare as real - commission));
    EmptySum();
    assert Paid(fare, commission) == b4[DRIVER := Column(fare as real - commission)];
  }

  lemma EmptySum()
    ensures GroupSum(map[], Everything) == 0
  {}
}
