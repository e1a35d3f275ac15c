/**
 The wallet service as it runs: balances, transactions and counters updated in place, statement by
 statement, with a database transaction rolled back when it throws. Each method is proved to do exactly
 what its operation does in WalletSpec.
 */
module WalletService {
  import opened Option
  import opened Money
  import opened Ledger
  import opened WalletSpec

  /** A failure while applying a prefix is the failure of the whole list. */
  lemma {:induction false} ApplyStopsAt(b: Balances, ps: seq<Posting>, i: nat)
    requires i <= |ps| && Apply(b, ps[..i]).Err?
    ensures Apply(b, ps) == Apply(b, ps[..i])
    decreases |ps|
  {
    if i == |ps| {
      assert ps[..i] == ps;
    } else {
      assert ps[..|ps| - 1][..i] == ps[..i];
      ApplyStopsAt(b, ps[..|ps| - 1], i);
    }
  }

  lemma ApplyNext(b: Balances, ps: seq<Posting>, i: nat)
    requires i < |ps|
    ensures Apply(b, ps[..0]) == Ok(b) && ps[..|ps|] == ps
    ensures Apply(b, ps[..i]).Ok? ==> Apply(b, ps[..i + 1]) == ApplyOne(Apply(b, ps[..i]).value, ps[i])
  {
    assert ps[..i + 1][..i] == ps[..i];
  }

  class WalletService {
    var balances: Balances
    var log: seq<Transaction>
    var byReference: map<Reference, nat>
    var cashTrips: map<nat, nat>

    function State(): Books
      reads this
    {
      Books(Ledger(balances, log, byReference), cashTrips)
    }

    constructor (books: Books)
      ensures State() == books
    {
      balances := books.ledger.balances;
      log := books.ledger.log;
      byReference := books.ledger.byReference;
      cashTrips := books.cashTrips;
    }

    method GetOrCreateUserAccount(owner: nat, kind: AccountType) returns (a: Account)
      modifies this
      ensures a == Owned(owner, kind)
      ensures State() == old(State()).(ledger := OpenAccount(old(State()).ledger, a))
    {
      a := Owned(owner, kind);
      if a !in balances {
        balances := balances[a := 0];
      }
    }

    method GetPlatformAccount(kind: AccountType) returns (missing: Option<AccountType>)
      ensures missing == Missing(State().ledger, [kind])
    {
      assert [kind][1..] == [];
      missing := if Platform(kind) in balances then None else Some(kind);
    }

    /** The entry loop: conditional debits, unconditional credits, and the balance after each. */
    method ApplyEntries(ps: seq<Posting>) returns (failure: Option<PostError>, balancesAfter: Balances)
      modifies this`balances
      ensures Apply(old(balances), ps) == if failure.Some? then Err(failure.value) else Ok(balances)
      ensures failure.None? ==> forall p <- ps ::
                p.account in balancesAfter && p.account in balances && balancesAfter[p.account] == balances[p.account]
    {
      balancesAfter := map[];
      assert ps[..0] == [] && Apply(balances, []) == Ok(balances);
      hide Apply;
      for i := 0 to |ps|
        invariant Apply(old(balances), ps[..i]) == Ok(balances)
        invariant forall j :: 0 <= j < i ==> ps[j].account in balancesAfter
        invariant forall a <- balancesAfter :: a in balances && balancesAfter[a] == balances[a]
      {
        var entry := ps[i];
        ApplyNext(old(balances), ps, i);
        if entry.account !in balances {
          ApplyStopsAt(old(balances), ps, i + 1);
          return Some(UnknownAccount(entry.account)), balancesAfter;
        }
        if entry.direction.Debit? {
          if entry.account.Platform? {
            balances := balances[entry.account := Column(balances[entry.account] as real - entry.amount)];
          } else if balances[entry.account] as real >= entry.amount {
            balances := balances[entry.account := Column(balances[entry.account] as real - entry.amount)];
          } else {
            ApplyStopsAt(old(balances), ps, i + 1);
            return Some(InsufficientBalance(entry.account)), balancesAfter;
          }
        } else {
          balances := balances[entry.account := Column(balances[entry.account] as real + entry.amount)];
        }
        balancesAfter := balancesAfter[entry.account := balances[entry.account]];
      }
      assert ps[..|ps|] == ps;
      failure := None;
    }

    /** Runs inside a database transaction: on an error the caller must roll the balances back. */
    method PostTransactionEntries(req: Request, reverses: Option<nat>) returns (r: Outcome)
      modifies this
      ensures r == PostReversing(old(State()).ledger, req, reverses).1
      ensures r.Ok? ==> State() == old(State()).(ledger := PostReversing(old(State()).ledger, req, reverses).0)
      ensures r.Err? ==> State() == old(State()).(ledger := old(State()).ledger.(balances := balances))
    {
      if req.reference in byReference {
        return Ok(byReference[req.reference]);
      }
      if SideTotal(req.postings, Debit) != SideTotal(req.postings, Credit) {
        return Err(Unbalanced);
      }
      var ps := req.postings;
      var failure, balancesAfter := ApplyEntries(ps);
      if failure.Some? {
        return Err(failure.value);
      }
      var entries := seq(|ps|, i requires 0 <= i < |ps| && ps[i].account in balancesAfter =>
        Entry(ps[i].account, ps[i].direction, Column(ps[i].amount), balancesAfter[ps[i].account]));
      assert entries == EntriesOf(ps, balances);
      byReference := byReference[req.reference := |log|];
      log := log + [Transaction(req.kind, req.reference, Column(req.amount), entries, Completed, reverses)];
      r := Ok(|log| - 1);
    }

    method PostTransaction(req: Request) returns (r: Outcome)
      modifies this
      ensures var (l, outcome) := Post(old(State()).ledger, req);
              r == outcome && State() == old(State()).(ledger := l)
    {
      var snapshot := balances;
      r := PostTransactionEntries(req, None);
      if r.Err? {
        balances := snapshot;
      }
    }

    method Refund(transaction: nat) returns (r: Outcome)
      modifies this
      ensures (State(), r) == Step(old(State()), RefundTransaction(transaction))
    {
      if transaction >= |log| {
        return Err(TransactionNotFound);
      }
      var original := log[transaction];
      if original.status == Reversed {
        return Err(AlreadyRefunded);
      }
      var snapshot := balances;
      r := PostTransactionEntries(
        Request(RefundPosting, RefundRef(transaction), original.amount as real, Flip(original.entries)), Some(transaction));
      if r.Err? {
        balances := snapshot;
      } else {
        log := log[transaction := log[transaction].(status := Reversed)];
      }
    }

    method TopUp(user: nat, amount: real, reference: Reference) returns (r: Outcome)
      modifies this
      ensures (State(), r) == Step(old(State()), WalletSpec.TopUp(user, amount, reference))
    {
      ghost var start := State();
      var rider := GetOrCreateUserAccount(user, RiderWallet);
      OpenOne(start.ledger, rider);
      var missing := GetPlatformAccount(PlatformGatewayClearing);
      if missing.Some? {
        return Err(NotSeeded(missing.value));
      }
      r := PostTransaction(Request(WalletTopUp, reference, amount,
        [Posting(CLEARING, Debit, amount), Posting(rider, Credit, amount)]));
    }

    method PayForRide(payer: nat, driver: nat, fare: real, commission: real, reference: Reference, tax: real)
      returns (r: Outcome)
      modifies this
      ensures (State(), r) == Step(old(State()), WalletSpec.PayForRide(payer, driver, fare, commission, reference, tax))
    {
      r := PayFare(RidePaymentWallet, payer, driver, fare, commission, reference, tax);
      assert PlanOf(WalletSpec.PayForRide(payer, driver, fare, commission, reference, tax))
          == FarePlan(RidePaymentWallet, payer, driver, fare, commission, reference, tax);
    }

    method PayForDelivery(payer: nat, driver: nat, fare: real, commission: real, reference: Reference, tax: real)
      returns (r: Outcome)
      modifies this
      ensures (State(), r) == Step(old(State()), WalletSpec.PayForDelivery(payer, driver, fare, commission, reference, tax))
    {
      r := PayFare(DeliveryPaymentWallet, payer, driver, fare, commission, reference, tax);
      assert PlanOf(WalletSpec.PayForDelivery(payer, driver, fare, commission, reference, tax))
          == FarePlan(DeliveryPaymentWallet, payer, driver, fare, commission, reference, tax);
    }

    /** The shape rides and deliveries share. */
    method PayFare(kind: TransactionType, payer: nat, driver: nat, fare: real, commission: real,
                   reference: Reference, tax: real) returns (r: Outcome)
      modifies this
      ensures var start, plan := old(State()), FarePlan(kind, payer, driver, fare, commission, reference, tax);
              var ready := OpenAll(start.ledger, plan.opens);
              var missing := Missing(ready, plan.needs);
              (State(), r) == if missing.Some? then (start.(ledger := ready), Err(NotSeeded(missing.value)))
                              else (start.(ledger := Post(ready, plan.request).0), Post(ready, plan.request).1)
    {
      ghost var start := State();
      var driverAmount := fare - commission - tax;
      var payerAccount := GetOrCreateUserAccount(payer, RiderWallet);
      var driverAccount := GetOrCreateUserAccount(driver, DriverWallet);
      OpenTwo(start.ledger, payerAccount, driverAccount);
      var missing := GetPlatformAccount(PlatformRevenue);
      if missing.Some? {
        return Err(NotSeeded(missing.value));
      }
      if tax > 0.0 {
        missing := GetPlatformAccount(PlatformTaxPayable);
        assert [PlatformRevenue, PlatformTaxPayable][1..] == [PlatformTaxPayable];
        if missing.Some? {
          return Err(NotSeeded(missing.value));
        }
      }
      r := PostTransaction(Request(kind, reference, fare,
        [Posting(payerAccount, Debit, fare), Posting(driverAccount, Credit, driverAmount),
         Posting(REVENUE, Credit, commission)] + TaxLegs(tax)));
    }

    method RecordCashRideCommission(driver: nat, amount: real, reference: Reference) returns (r: Outcome)
      modifies this
      ensures (State(), r) == Step(old(State()), WalletSpec.RecordCashRideCommission(driver, amount, reference))
    {
      r := RecordCash(RidePaymentCash, driver, amount, reference);
    }

    method RecordCashDeliveryCommission(driver: nat, amount: real, reference: Reference) returns (r: Outcome)
      modifies this
      ensures (State(), r) == Step(old(State()), WalletSpec.RecordCashDeliveryCommission(driver, amount, reference))
    {
      r := RecordCash(DeliveryPaymentCash, driver, amount, reference);
    }

    /** The accrual and the counter rides and deliveries share. */
    method RecordCash(kind: TransactionType, driver: nat, amount: real, reference: Reference) returns (r: Outcome)
      modifies this
      ensures var start := old(State());
              var plan := Plan([Payable(driver)], [PlatformGatewayClearing],
                               Transfer(kind, reference, amount, CLEARING, Payable(driver)));
              (State(), r) == Execute(start, WalletSpec.RecordCashRideCommission(driver, amount, reference), plan)
              && (State(), r) == Execute(start, WalletSpec.RecordCashDeliveryCommission(driver, amount, reference), plan)
    {
      ghost var start := State();
      var payable := GetOrCreateUserAccount(driver, DriverCommissionPayable);
      OpenOne(start.ledger, payable);
      var missing := GetPlatformAccount(PlatformGatewayClearing);
      if missing.Some? {
        return Err(NotSeeded(missing.value));
      }
      var alreadyProcessed := reference in byReference;
      r := PostTransaction(Request(kind, reference, amount,
        [Posting(CLEARING, Debit, amount), Posting(payable, Credit, amount)]));
      if r.Ok? && !alreadyProcessed {
        if driver in cashTrips {
          cashTrips := cashTrips[driver := cashTrips[driver] + 1];
        }
      }
    }

    method SettleCommission(driver: nat, amount: real, reference: Reference) returns (r: Outcome)
      modifies this
      ensures (State(), r) == Step(old(State()), WalletSpec.SettleCommission(driver, amount, reference))
    {
      ghost var start := State();
      var payable := GetOrCreateUserAccount(driver, DriverCommissionPayable);
      OpenOne(start.ledger, payable);
      var missing := GetPlatformAccount(PlatformRevenue);
      if missing.Some? {
        return Err(NotSeeded(missing.value));
      }
      var alreadyProcessed := reference in byReference;
      r := PostTransaction(Request(CommissionSettlement, reference, amount,
        [Posting(payable, Debit, amount), Posting(REVENUE, Credit, amount)]));
      if r.Ok? && !alreadyProcessed {
        if payable in balances && balances[payable] == 0 && driver in cashTrips {
          cashTrips := cashTrips[driver := 0];
        }
      }
    }

    method ChargeBusinessForDelivery(business: nat, amount: real, reference: Reference) returns (r: Outcome)
      modifies this
      ensures (State(), r) == Step(old(State()), WalletSpec.ChargeBusinessForDelivery(business, amount, reference))
    {
      ghost var start := State();
      var payable := GetOrCreateUserAccount(business, BusinessCreditPayable);
      OpenOne(start.ledger, payable);
      var missing := GetPlatformAccount(PlatformGatewayClearing);
      if missing.Some? {
        return Err(NotSeeded(missing.value));
      }
      r := PostTransaction(Request(BusinessDeliveryAccrual, reference, amount,
        [Posting(CLEARING, Debit, amount), Posting(payable, Credit, amount)]));
    }

    method PayInvoice(business: nat, driver: nat, fare: real, commission: real, reference: Reference, tax: real)
      returns (r: Outcome)
      modifies this
      ensures (State(), r) == Step(old(State()), WalletSpec.PayInvoice(business, driver, fare, commission, reference, tax))
    {
      ghost var start := State();
      var op := WalletSpec.PayInvoice(business, driver, fare, commission, reference, tax);
      if tax > 0.0 {
        var missingTax := GetPlatformAccount(PlatformTaxPayable);
        if missingTax.Some? {
          return Err(NotSeeded(missingTax.value));
        }
      }
      var wallet := GetOrCreateUserAccount(business, BusinessWallet);
      var driverAccount := GetOrCreateUserAccount(driver, DriverWallet);
      var payable := GetOrCreateUserAccount(business, BusinessCreditPayable);
      OpenThree(start.ledger, wallet, driverAccount, payable);
      var missing := GetPlatformAccount(PlatformRevenue);
      if missing.Some? {
        return Err(NotSeeded(missing.value));
      }
      missing := GetPlatformAccount(PlatformGatewayClearing);
      assert [PlatformRevenue, PlatformGatewayClearing][1..] == [PlatformGatewayClearing];
      if missing.Some? {
        return Err(NotSeeded(missing.value));
      }
      r := PostInvoice(op);
    }

    /** One database transaction around the payment and the settlement of an invoice. */
    method PostInvoice(op: Op) returns (r: Outcome)
      requires op.PayInvoice?
      modifies this
      ensures var (l, outcome) := WalletSpec.PostInvoice(old(State()).ledger, op);
              r == outcome && State() == old(State()).(ledger := l)
    {
      var savedBalances, savedLog, savedIndex := balances, log, byReference;
      r := PostTransactionEntries(InvoicePayment(op), None);
      if r.Ok? {
        var settlement := PostTransactionEntries(InvoiceSettlement(op), None);
        if settlement.Ok? {
          return;
        }
        r := settlement;
      }
      balances, log, byReference := savedBalances, savedLog, savedIndex;
    }

    method RequestWithdrawal(driver: nat, amount: real, reference: Reference) returns (r: Outcome)
      modifies this
      ensures (State(), r) == Step(old(State()), WalletSpec.RequestWithdrawal(driver, amount, reference))
    {
      ghost var start := State();
      var driverAccount := GetOrCreateUserAccount(driver, DriverWallet);
      OpenOne(start.ledger, driverAccount);
      var missing := GetPlatformAccount(PlatformGatewayClearing);
      if missing.Some? {
        return Err(NotSeeded(missing.value));
      }
      r := PostTransaction(Request(WalletWithdrawal, reference, amount,
        [Posting(driverAccount, Debit, amount), Posting(CLEARING, Credit, amount)]));
    }

    method PayForKilowattService(user: nat, amount: real, reference: Reference) returns (r: Outcome)
      modifies this
      ensures (State(), r) == Step(old(State()), WalletSpec.PayForKilowattService(user, amount, reference))
    {
      ghost var start := State();
      var userAccount := GetOrCreateUserAccount(user, RiderWallet);
      OpenOne(start.ledger, userAccount);
      var missing := GetPlatformAccount(PlatformRevenue);
      if missing.Some? {
        return Err(NotSeeded(missing.value));
      }
      r := PostTransaction(Request(KilowattPayment, reference, amount,
        [Posting(userAccount, Debit, amount), Posting(REVENUE, Credit, amount)]));
    }

    method RecordReferralAccrual(amount: real, reference: Reference) returns (r: Outcome)
      modifies this
      ensures (State(), r) == Step(old(State()), WalletSpec.RecordReferralAccrual(amount, reference))
    {
      var missing := GetPlatformAccount(PlatformGatewayClearing);
      if missing.Some? {
        return Err(NotSeeded(missing.value));
      }
      missing := GetPlatformAccount(PlatformReferralPayable);
      assert [PlatformGatewayClearing, PlatformReferralPayable][1..] == [PlatformReferralPayable];
      if missing.Some? {
        return Err(NotSeeded(missing.value));
      }
      r := PostTransaction(Request(ReferralPayout, reference, amount,
        [Posting(CLEARING, Debit, amount), Posting(REFERRALS, Credit, amount)]));
    }

    method PayReferralPayout(referrer: nat, drives: bool, amount: real, reference: Reference) returns (r: Outcome)
      modifies this
      ensures (State(), r) == Step(old(State()), WalletSpec.PayReferralPayout(referrer, drives, amount, reference))
    {
      ghost var start := State();
      var wallet := GetOrCreateUserAccount(referrer, if drives then DriverWallet else RiderWallet);
      OpenOne(start.ledger, wallet);
      var missing := GetPlatformAccount(PlatformReferralPayable);
      if missing.Some? {
        return Err(NotSeeded(missing.value));
      }
      r := PostTransaction(Request(ReferralPayout, reference, amount,
        [Posting(REFERRALS, Debit, amount), Posting(wallet, Credit, amount)]));
    }
  }

  function FarePlan(kind: TransactionType, payer: nat, driver: nat, fare: real, commission: real,
                    reference: Reference, tax: real): Plan
  {
    Plan([Owned(payer, RiderWallet), Owned(driver, DriverWallet)], [PlatformRevenue] + TaxNeeds(tax),
         Split(kind, reference, Owned(payer, RiderWallet), driver, fare, commission, tax))
  }

  lemma OpenOne(l: Ledger, a: Account)
    ensures OpenAll(l, [a]) == OpenAccount(l, a)
  {
    assert [a][..0] == [];
  }

  lemma OpenTwo(l: Ledger, a: Account, b: Account)
    ensures OpenAll(l, [a, b]) == OpenAccount(OpenAccount(l, a), b)
  {
    assert [a, b][..1] == [a];
    OpenOne(l, a);
  }

  lemma OpenThree(l: Ledger, a: Account, b: Account, c: Account)
    ensures OpenAll(l, [a, b, c]) == OpenAccount(OpenAccount(OpenAccount(l, a), b), c)
  {
    assert [a, b, c][..2] == [a, b];
    OpenTwo(l, a, b);
  }
}
