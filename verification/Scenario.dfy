/** Runs from the empty system, for every amount and fee: a deposit is credited to a customer, paid out and
    confirmed, so the guarantees about all runs are not about empty ones only; and an approval that comes
    too late trips the check before the final write. */
module Scenario {
  import opened Common
  import opened Ledger
  import opened Payouts
  import opened Protocol
  import opened Safety
  import opened Guarantees
  import opened Recovery
  import opened Guards
  import opened Apportionment
  import Deposits
  import WalletFees

  const KEY := DepositKey("deposit", "0")

  function Target(customer: nat, minimum: int): Destination {
    Destination(customer, "address", Pending', minimum)
  }

  function ActiveTarget(customer: nat, minimum: int): Destination {
    Target(customer, minimum).(status := Active)
  }

  function Groups(): seq<Deposits.Group> {
    [Deposits.Group(0, 0, 1.0)]
  }

  function Items(amount: int): seq<Deposits.Item> {
    [Deposits.Item(0, 0, 1.0, amount, amount, 0)]
  }

  function Request(limit: int, minimum: int): PlanRequest {
    PlanRequest({0}, minimum, 1, Some(CustomerPays), Some(10000), limit, 0)
  }

  /** A deposit credited to customer 0. */
  function Deposited(amount: int): seq<Step> {
    [Observe(Deposits.Receipt(KEY, amount, false), 0, None),
     Allocate(KEY, Groups(), map[0 := 10000], Items(amount))]
  }

  function Setup(amount: int, minimum: int): seq<Step> {
    Deposited(amount) + [AddDestination(Target(0, minimum))] + [Activate(0)]
  }

  /** One item takes everything. */
  lemma OneItemTakesAll(total: int, weight: real)
    requires total >= 0 && weight > 0.0
    ensures SumReal([weight]) == weight && IsLargestRemainder(total, Quotas(total, [weight]), [total])
  {
    assert [weight][..0] == [] && [total][..0] == [];
    assert SumReal([weight]) == weight;
    QuotasAddUp(total, [weight]);
    var q := Quotas(total, [weight]);
    assert q[..0] == [];
    assert q[0] == total as real;
  }

  lemma Divided(amount: int)
    requires amount > 0
    ensures Deposits.Itemised(amount, Groups(), map[0 := 10000], Items(amount))
  {
    hide IsLargestRemainder, Quotas;
    OneItemTakesAll(amount, 1.0);
    assert Deposits.Works(Groups()) == [1.0];
    assert Deposits.GrossOf(Items(amount)) == [amount];
    assert SplitBasisPoints(amount, 10000) == Some(Split(amount, 0));
  }

  function Seen(amount: int): Sys {
    EMPTY.(deposits := map[KEY := Deposits.Deposit(amount, 0, Deposits.Confirmed)])
  }

  /** The state after the deposit, whatever the journal. */
  function Funded(amount: int, journal: seq<Journal>): Sys {
    EMPTY.(deposits := map[KEY := Deposits.Deposit(amount, 0, Deposits.Shared)],
           allocations := [Allocation(KEY, amount, Items(amount))], journal := journal)
  }

  lemma Credited(amount: int)
    requires amount > 0
    ensures SaneRun(Deposited(amount))
    ensures var s := Run(EMPTY, Deposited(amount));
            && s == Funded(amount, s.journal)
            && (forall c :: OwnerBalance(Customer(c), s.journal) == if c == 0 then amount else 0)
            && (forall id, c :: !Referenced(CustomerPayout(id, c), s.journal))
  {
    hide Run, Deposits.Itemised, Deposits.PostAllocation, OwnerBalance, Referenced;
    var observe := Observe(Deposits.Receipt(KEY, amount, false), 0, None);
    var step := Allocate(KEY, Groups(), map[0 := 10000], Items(amount));
    var first := [observe];
    assert [] + [observe] == first;
    RunLast(EMPTY, [], observe);
    assert Run(EMPTY, first) == Seen(amount);
    assert Deposited(amount) == first + [step];
    Divided(amount);
    AllocationRefusals(first, KEY, Groups(), map[0 := 10000], Items(amount));
    RunLast(EMPTY, first, step);
    EveryRun(Deposited(amount));
    var s := Run(EMPTY, Deposited(amount));
    forall c ensures OwnerBalance(Customer(c), s.journal) == if c == 0 then amount else 0 {
      CreditIsAll(s, amount, c);
    }
    NoPayoutsYet(s);
  }

  lemma NoPayoutsYet(s: Sys)
    requires Inv(s) && s.batches == []
    ensures forall id, c :: !Referenced(CustomerPayout(id, c), s.journal)
  {
    hide Rows, PhaseOk, TicketsOk, Books, Covered, AllocationsOk, ChainOk, AutoOk, Linked, OneActive, Referenced;
    assert References(s);
    forall id, c ensures !Referenced(CustomerPayout(id, c), s.journal) {
      assert Referenced(CustomerPayout(id, c), s.journal) ==> ReferenceOk(s, CustomerPayout(id, c));
    }
  }

  lemma CreditIsAll(s: Sys, amount: int, c: nat)
    requires Inv(s) && s.batches == [] && s.allocations == [Allocation(KEY, amount, Items(amount))]
    ensures OwnerBalance(Customer(c), s.journal) == if c == 0 then amount else 0
  {
    hide Rows, PhaseOk, TicketsOk, References, Covered, AllocationsOk, ChainOk, AutoOk, Linked, OneActive, Balance;
    var side := One(Liability(c));
    assert Books(s);
    assert TotalOf(Posted(side), []) == 0;
    assert s.allocations[..0] == [] && Items(amount)[..0] == [];
    assert AllocTotal(side, []) == 0;
    assert Deposits.ItemCredit(side, []) == 0;
    assert Deposits.ItemCredit(side, Items(amount)) == if c == 0 then amount else 0;
  }

  lemma SetupFunds(amount: int, minimum: int)
    requires amount > 0
    ensures SaneRun(Setup(amount, minimum))
    ensures var s := Run(EMPTY, Setup(amount, minimum));
            && s == Funded(amount, s.journal).(destinations := [ActiveTarget(0, minimum)])
            && OwnerBalance(Customer(0), s.journal) == amount
            && forall id, c :: !Referenced(CustomerPayout(id, c), s.journal)
  {
    hide Run, OwnerBalance, Referenced;
    Credited(amount);
    var two := Deposited(amount);
    var three := two + [AddDestination(Target(0, minimum))];
    RunLast(EMPTY, two, AddDestination(Target(0, minimum)));
    RunLast(EMPTY, three, Activate(0));
    assert ActivateDestination([Target(0, minimum)], 0) == [ActiveTarget(0, minimum)];
  }

  // ---------------------------------------------------------------- planning

  function PlannedBatch(gross: int, limit: int): Batch {
    NewBatch(CustomerBatch, [Fresh(Customer(0), "address", gross)], Some(CustomerPays), Some(10000), true, 0, limit)
  }

  /** One destination, enough available, and room under the limit. */
  lemma PlanOnce(s: Sys, gross: int, limit: int, minimum: int)
    requires s.destinations == [ActiveTarget(0, minimum)]
    requires Available(s.journal, s.batches, Customer(0)) == gross >= minimum
    requires AutoApprovable(limit, TotalOf(Auto(0), s.batches), gross)
    ensures Next(s, Plan(Request(limit, minimum))) == s.(batches := s.batches + [PlannedBatch(gross, limit)])
  {
    hide Available, TotalOf, AutoApprovable, Selected, PlanItems, GrossSum;
    OneSelected(minimum);
    OnePlanned(s.journal, s.batches, gross, minimum);
    hide Next;
    PlanEffect(s, Request(limit, minimum), [Fresh(Customer(0), "address", gross)], true);
  }

  lemma OneSelected(minimum: int)
    ensures Selected([ActiveTarget(0, minimum)], {0}, 1) == [ActiveTarget(0, minimum)]
  {
    assert [ActiveTarget(0, minimum)][..0] == [];
    assert Selected([], {0}, 1) == [];
  }

  lemma OnePlanned(journal: seq<Journal>, batches: seq<Batch>, gross: int, minimum: int)
    requires Available(journal, batches, Customer(0)) == gross >= minimum
    ensures var item := Fresh(Customer(0), "address", gross);
            && PlanItems(journal, batches, [ActiveTarget(0, minimum)], minimum) == [item]
            && GrossSum([item]) == gross && DistinctOwners([item])
  {
    hide Available;
    var item := Fresh(Customer(0), "address", gross);
    assert [ActiveTarget(0, minimum)][..0] == [] && PlanItems(journal, batches, [], minimum) == [];
    assert [item][..0] == [] && GrossSum([]) == 0;
  }

  lemma PlanPays(amount: int)
    requires amount > 0
    ensures var steps := Setup(amount, 0) + [Plan(Request(amount, 0))];
            && SaneRun(steps)
            && Run(EMPTY, steps) == Run(EMPTY, Setup(amount, 0)).(batches := [PlannedBatch(amount, amount)])
            && NoReorg(Run(EMPTY, steps).deposits)
  {
    hide Run, OwnerBalance;
    SetupFunds(amount, 0);
    var s := Run(EMPTY, Setup(amount, 0));
    RunLast(EMPTY, Setup(amount, 0), Plan(Request(amount, 0)));
    assert TotalOf(Reserved(Customer(0)), []) == 0 && TotalOf(Auto(0), []) == 0;
    PlanOnce(s, amount, amount, 0);
    assert s.batches + [PlannedBatch(amount, amount)] == [PlannedBatch(amount, amount)];
  }

  // ---------------------------------------------------------------- signing

  /** One item of customer 0, who pays the fee. */
  predicate Single(b: Batch, amount: int) {
    && b.kind == CustomerBatch && b.items == [Fresh(Customer(0), "address", amount)]
    && b.feePayer == Some(CustomerPays) && b.maxFeeBps == Some(10000)
  }

  predicate Unseen(batches: seq<Batch>, name: string) {
    forall k | 0 <= k < |batches| :: batches[k].payload.Some? ==>
      forall i :: 0 <= i < |batches[k].payload.value| ==> batches[k].payload.value[i].id != name
  }

  function SingleCharge(amount: int, fee: int): seq<WalletFees.PreparedItem> {
    [WalletFees.PreparedItem(WalletFees.Candidate(0, "address", amount), fee, amount - fee)]
  }

  lemma Chargeable(s: Sys, b: Batch, amount: int, fee: int, name: string)
    requires 0 <= fee < amount && Single(b, amount) && Unseen(s.batches, name)
    ensures WalletTruth(s, SingleCharge(amount, fee), fee, [Tx(name, amount)])
    ensures WalletFees.Charges(Candidates(b), DeductsFee(b, CustomerPays), fee, SingleCharge(amount, fee))
    ensures fee * 10000 <= Value(Gross, b) * b.maxFeeBps.GetOr(0)
  {
    hide WalletFees.Charges, Value, WalletTruth;
    FeeIsCharged(b, amount, fee);
    HonestWallet(s, amount, fee, name);
    GrossIsAmount(b, amount);
  }

  lemma FeeIsCharged(b: Batch, amount: int, fee: int)
    requires 0 <= fee < amount && Single(b, amount)
    ensures WalletFees.Charges(Candidates(b), true, fee, SingleCharge(amount, fee))
  {
    hide IsLargestRemainder, Quotas;
    OneItemTakesAll(fee, amount as real);
    assert WalletFees.GrossWeights(Candidates(b)) == [amount as real];
    assert WalletFees.FeesOf(SingleCharge(amount, fee)) == [fee];
  }

  lemma HonestWallet(s: Sys, amount: int, fee: int, name: string)
    requires Unseen(s.batches, name)
    ensures WalletTruth(s, SingleCharge(amount, fee), fee, [Tx(name, amount)])
  {
    hide Candidates, Sum;
    assert WalletFees.NetsOf(SingleCharge(amount, fee)) == [amount - fee];
    assert Outflows([Tx(name, amount)]) == [amount];
    SumOfOne(amount);
    SumOfOne(amount - fee);
  }

  lemma SumOfOne(x: int)
    ensures Sum([x]) == x
  {
    assert [x][..0] == [];
  }

  lemma GrossIsAmount(b: Batch, amount: int)
    requires Single(b, amount)
    ensures Value(Gross, b) == amount
  {
    assert b.items[..0] == [] && ItemSum(Gross, b, []) == 0;
  }

  /** Planned and signed. */
  lemma SignedRun(amount: int, fee: int) returns (steps: seq<Step>)
    requires 0 <= fee < amount
    ensures SaneRun(steps) && NoReorg(Run(EMPTY, steps).deposits)
    ensures var s := Run(EMPTY, steps);
            && |s.batches| == 1 && Retriable(s.batches[0]) && s.batches[0].totalFee == fee
            && s.batches[0].payload == Some([Tx("tx", amount)]) && s.chain == {}
            && s.allocations == [Allocation(KEY, amount, Items(amount))]
  {
    hide Run, Inv, WalletFees.Charges, WalletTruth, Value, OwnerBalance, Referenced;
    PlanPays(amount);
    SetupFunds(amount, 0);
    var plan := Setup(amount, 0) + [Plan(Request(amount, 0))];
    var prepared, txs := SingleCharge(amount, fee), [Tx("tx", amount)];
    Chargeable(Run(EMPTY, plan), PlannedBatch(amount, amount), amount, fee, "tx");
    AttemptSigns(plan, 0, CustomerPays, 0, prepared, fee, txs);
    var sign := [Crash, Load(0), Prepare(CustomerPays, 0, prepared, fee, txs)] + [Sign];
    RunSplits(EMPTY, plan, sign);
    steps := plan + sign;
  }

  /** Any positive deposit can be paid out at any fee below it, up to the confirmation. */
  lemma PipelineRuns(amount: int, fee: int) returns (steps: seq<Step>)
    requires 0 <= fee < amount
    ensures SaneRun(steps)
    ensures var s := Run(EMPTY, steps);
            && |s.batches| == 1 && s.batches[0].state == Confirmed && s.batches[0].totalFee == fee
            && s.chain == {Tx("tx", amount)} && CreditedDeposits(s.allocations) == amount
  {
    hide Run, Inv, Retriable, NoReorg, MarkJournaled, Retry;
    var signed := SignedRun(amount, fee);
    RetryFinishes(signed, 0, ["tx"]);
    var retry := Retry(0, 1, ["tx"]);
    RunSplits(EMPTY, signed, retry);
    var sent := signed + retry;
    RunLast(EMPTY, sent, ConfirmRead(0));
    RunLast(EMPTY, sent + [ConfirmRead(0)], ConfirmWrite(0));
    steps := sent + [ConfirmRead(0)] + [ConfirmWrite(0)];
    assert Run(EMPTY, sent).allocations[..0] == [];
    assert TxSet([Tx("tx", amount)]) == {Tx("tx", amount)};
    RetryIsSane(0, 1, ["tx"]);
  }

  lemma RetryIsSane(id: nat, n: nat, ids: seq<string>)
    ensures SaneRun(Retry(id, n, ids))
  {
  }

  // ---------------------------------------------------------------- an approval that comes too late

  function FailedPlan(amount: int): Batch {
    PlannedBatch(amount, amount).(state := Failed)
  }

  /** A failed, unsigned batch, read by somebody who is about to approve it. */
  lemma ReadForApproval(amount: int, admin: nat) returns (steps: seq<Step>)
    requires amount > 0
    ensures SaneRun(steps) && NoReorg(Run(EMPTY, steps).deposits)
    ensures var s := Run(EMPTY, steps);
            s.phase == Idle && s.batches == [FailedPlan(amount)] && Ticket(0, AutoApproved, admin) in s.tickets
  {
    hide Run, OwnerBalance, Referenced;
    PlanPays(amount);
    SetupFunds(amount, 0);
    var plan := Setup(amount, 0) + [Plan(Request(amount, 0))];
    var fail := [Load(0), Throw, ApproveRead(0, admin)];
    RunSplits(EMPTY, plan, fail);
    hide Next;
    RunOfThree(Run(EMPTY, plan), Load(0), Throw, ApproveRead(0, admin));
    FailedAndRead(Run(EMPTY, plan), amount, admin);
    steps := plan + fail;
  }

  /** The same, with an executor that has meanwhile prepared the payout. */
  lemma PreparedMeanwhile(amount: int, fee: int, admin: nat) returns (steps: seq<Step>)
    requires 0 <= fee < amount
    ensures SaneRun(steps)
    ensures var s := Run(EMPTY, steps);
            && s.phase.Charged? && s.phase.id == 0 && s.phase.row.state == Failed
            && Ticket(0, AutoApproved, admin) in s.tickets
  {
    hide Run, Next, WalletFees.Charges, WalletTruth, Value;
    var read := ReadForApproval(amount, admin);
    var s := Run(EMPTY, read);
    Chargeable(s, FailedPlan(amount), amount, fee, "tx");
    var prepare := Prepare(CustomerPays, 0, SingleCharge(amount, fee), fee, [Tx("tx", amount)]);
    RunSplits(EMPTY, read, [Crash, Load(0), prepare]);
    RunOfThree(s, Crash, Load(0), prepare);
    PreparedPhase(s, 0, CustomerPays, 0, SingleCharge(amount, fee), fee, [Tx("tx", amount)]);
    steps := read + [Crash, Load(0), prepare];
  }

  /** A failed, unsigned batch is approved by somebody who read it just before it was signed, and who writes
      just after: the executor then reads AUTO_APPROVED with a payload. */
  lemma StaleApprovalRun(amount: int, fee: int, admin: nat) returns (steps: seq<Step>)
    requires 0 <= fee < amount
    ensures SaneRun(steps) && Tripped(Run(EMPTY, steps), 0)
  {
    hide Run, Inv, Tripped;
    var charged := PreparedMeanwhile(amount, fee, admin);
    var t := Ticket(0, AutoApproved, admin);
    EveryRun(charged);
    StaleApprovalTripsGuard(Run(EMPTY, charged), t);
    RunSplits(EMPTY, charged, [Sign, ApproveWrite(t), Refresh]);
    RunOfThree(Run(EMPTY, charged), Sign, ApproveWrite(t), Refresh);
    steps := charged + [Sign, ApproveWrite(t), Refresh];
  }

  lemma FailedAndRead(s: Sys, amount: int, admin: nat)
    requires s.phase == Idle && NoReorg(s.deposits) && s.batches == [PlannedBatch(amount, amount)]
    ensures Next(Next(Next(s, Load(0)), Throw), ApproveRead(0, admin)) ==
      s.(batches := [FailedPlan(amount)], tickets := s.tickets + {Ticket(0, AutoApproved, admin)})
  {
    var failed := Next(Next(s, Load(0)), Throw);
    assert failed == s.(batches := [FailedPlan(amount)]);
  }
}
