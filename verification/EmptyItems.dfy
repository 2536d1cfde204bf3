/** Items of no value: a batch that holds one can be signed and broadcast but never journaled, which the
    right minimum excludes at planning. */
module EmptyItems {
  import opened Common
  import opened Ledger
  import opened Payouts
  import opened Protocol
  import opened Safety
  import opened Guarantees
  import opened Recovery
  import opened Apportionment
  import opened Scenario
  import Deposits
  import WalletFees

  // ---------------------------------------------------------------- journaled items have value

  ghost predicate JournaledHaveValue(s: Sys) {
    forall id | 0 <= id < |s.batches| :: RowHasValue(s.batches[id])
  }

  ghost predicate RowHasValue(b: Batch) {
    forall i :: 0 <= i < |b.items| && b.items[i].journaled ==> Postable(b.items[i])
  }

  /** Only the final transaction of an execution sets journal marks. */
  ghost predicate MarksStay(s: Sys, s': Sys) {
    && |s.batches| <= |s'.batches|
    && (forall id | 0 <= id < |s.batches| :: SameMarks(s.batches[id], s'.batches[id]))
    && (forall id | |s.batches| <= id < |s'.batches| :: NoneJournaled(s'.batches[id]))
  }

  ghost predicate SameMarks(b: Batch, b': Batch) {
    |b'.items| == |b.items| && forall i :: 0 <= i < |b.items| ==> b'.items[i].journaled == b.items[i].journaled
  }

  lemma OnlyCommitMarks(s: Sys, step: Step)
    requires !step.Commit?
    ensures MarksStay(s, Next(s, step))
  {
    hide MarksStay, Next;
    if step.ApproveWrite? || step.ConfirmWrite? || step.Throw? || step.Sign? {
      RowWritesKeepMarks(s, step);
    } else if step.Plan? {
      PlanKeepsMarks(s, step.plan);
    } else if step.PlanOperator? {
      OperatorPlanKeepsMarks(s, step.operator);
    } else {
      OthersKeepMarks(s, step);
    }
  }

  lemma RowWritesKeepMarks(s: Sys, step: Step)
    requires step.ApproveWrite? || step.ConfirmWrite? || step.Throw? || step.Sign?
    ensures MarksStay(s, Next(s, step))
  {
    var s' := Next(s, step);
    assert |s'.batches| == |s.batches|;
    hide SameMarks, NoneJournaled;
    forall id | 0 <= id < |s.batches| ensures SameMarks(s.batches[id], s'.batches[id]) {
      WrittenMarks(s, step, id);
    }
  }

  lemma WrittenMarks(s: Sys, step: Step, id: nat)
    requires (step.ApproveWrite? || step.ConfirmWrite? || step.Throw? || step.Sign?) && id < |s.batches|
    ensures |Next(s, step).batches| == |s.batches| && SameMarks(s.batches[id], Next(s, step).batches[id])
  {
  }

  lemma PlanKeepsMarks(s: Sys, r: PlanRequest)
    ensures MarksStay(s, Next(s, Plan(r)))
  {
    hide Selected, TotalOf, GrossSum, Available;
    NothingPlannedIsMarked(s.journal, s.batches, Selected(s.destinations, r.eligible, r.maxItems), r.minimum);
  }

  lemma {:induction false} NothingPlannedIsMarked(journal: seq<Journal>, batches: seq<Batch>, dests: seq<Destination>,
                                                  minimum: int)
    ensures forall i :: 0 <= i < |PlanItems(journal, batches, dests, minimum)| ==>
      !PlanItems(journal, batches, dests, minimum)[i].journaled
  {
    hide Available;
    if |dests| > 0 {
      NothingPlannedIsMarked(journal, batches, dests[..|dests| - 1], minimum);
    }
  }

  lemma OperatorPlanKeepsMarks(s: Sys, r: OperatorRequest)
    ensures MarksStay(s, Next(s, PlanOperator(r)))
  {
    hide TotalOf, Available;
  }

  lemma OthersKeepMarks(s: Sys, step: Step)
    requires !(step.Commit? || step.ApproveWrite? || step.ConfirmWrite? || step.Throw? || step.Sign? || step.Plan? ||
      step.PlanOperator?)
    ensures MarksStay(s, Next(s, step))
  {
    hide WalletFees.Charges, WalletTruth, Value, Deposits.PostAllocation, Deposits.Itemised;
    assert Next(s, step).batches == s.batches;
  }

  lemma NextKeepsValue(s: Sys, step: Step)
    requires Inv(s) && JournaledHaveValue(s)
    ensures JournaledHaveValue(Next(s, step))
  {
    hide Inv, Next, Postable, MarksStay, RowExtends;
    var s' := Next(s, step);
    if step.Commit? {
      CommitKeepsValue(s);
    } else {
      OnlyCommitMarks(s, step);
      NextExtends(s, step);
      forall id | 0 <= id < |s'.batches| ensures RowHasValue(s'.batches[id]) {
        ValueOfRow(s, s', id);
      }
    }
  }

  lemma ValueOfRow(s: Sys, s': Sys, id: nat)
    requires Inv(s) && JournaledHaveValue(s) && MarksStay(s, s') && Extends(s, s') && id < |s'.batches|
    ensures RowHasValue(s'.batches[id])
  {
    hide Postable, SignedWell, WellOwned;
    if id < |s.batches| {
      var b, b' := s.batches[id], s'.batches[id];
      assert BatchOk(b, s.chain) by {
        assert Rows(s);
      }
      hide Inv;
      assert RowHasValue(b) && RowExtends(b, b') && SameMarks(b, b');
      forall i | 0 <= i < |b'.items| && b'.items[i].journaled ensures Postable(b'.items[i]) {
        assert b.items[i].journaled && Postable(b.items[i]);
        SameValue(b.items[i], b'.items[i]);
      }
    } else {
      hide Inv;
      assert NoneJournaled(s'.batches[id]);
    }
  }

  lemma SameValue(a: Item, b: Item)
    requires a.gross == b.gross && a.fee == b.fee
    ensures Postable(a) <==> Postable(b)
  {
  }

  lemma CommitKeepsValue(s: Sys)
    requires Inv(s) && JournaledHaveValue(s)
    ensures JournaledHaveValue(Next(s, Commit))
  {
    hide Inv, Postable, PostItems;
    var s' := Next(s, Commit);
    if s' != s {
      CommitIsRefusedOnlyIfEmpty(s);
      SameAsRead(s);
      var id := s.phase.id;
      var b := s.batches[id];
      assert RowHasValue(b);
      forall i | 0 <= i < |b.items| ensures Postable(s'.batches[id].items[i]) {
        SameValue(b.items[i], s'.batches[id].items[i]);
      }
      forall k | 0 <= k < |s'.batches| ensures RowHasValue(s'.batches[k]) {
        assert k != id ==> s'.batches[k] == s.batches[k];
      }
    }
  }

  lemma SameAsRead(s: Sys)
    requires Inv(s) && s.phase.Relayed?
    ensures s.phase.id < |s.batches| && s.phase.row.items == s.batches[s.phase.id].items
  {
    hide Rows, TicketsOk, Books, References, Covered, AllocationsOk, ChainOk, AutoOk, Linked, OneActive, OnChain;
  }

  lemma {:induction false} ValueInEveryRun(steps: seq<Step>)
    requires SaneRun(steps)
    ensures JournaledHaveValue(Run(EMPTY, steps))
  {
    hide Next, RowHasValue;
    if |steps| > 0 {
      var n := |steps| - 1;
      ValueInEveryRun(steps[..n]);
      EveryRun(steps[..n]);
      NextKeepsValue(Run(EMPTY, steps[..n]), steps[n]);
    }
  }

  /** Once signed with an item of no value, a batch is never journaled, whatever happens later: neither that
      item nor any other, and it never becomes BROADCAST or CONFIRMED. */
  lemma NeverJournaled(steps: seq<Step>, more: seq<Step>, id: nat, i: nat)
    requires SaneRun(steps + more) && id < |Run(EMPTY, steps).batches| && i < |Run(EMPTY, steps).batches[id].items|
    requires Run(EMPTY, steps).batches[id].payload.Some? && !Postable(Run(EMPTY, steps).batches[id].items[i])
    ensures var s := Run(EMPTY, steps + more);
            id < |s.batches| && NoneJournaled(s.batches[id]) && s.batches[id].state !in {Broadcast, Confirmed}
  {
    hide Run, Postable;
    HistoryIsKept(steps, more);
    ValueInEveryRun(steps + more);
    EveryRun(steps + more);
    var b, s := Run(EMPTY, steps).batches[id], Run(EMPTY, steps + more);
    assert RowExtends(b, s.batches[id]) && RowHasValue(s.batches[id]);
    SameValue(b.items[i], s.batches[id].items[i]);
    AllOrNone(s, id, i);
  }

  lemma AllOrNone(s: Sys, id: nat, i: nat)
    requires Inv(s) && id < |s.batches| && i < |s.batches[id].items| && !s.batches[id].items[i].journaled
    ensures NoneJournaled(s.batches[id]) && s.batches[id].state !in {Broadcast, Confirmed}
  {
    hide PhaseOk, TicketsOk, Books, References, Covered, AllocationsOk, ChainOk, AutoOk, Linked, OneActive, SignedWell,
      WellOwned, OnChain;
    assert BatchOk(s.batches[id], s.chain);
  }

  // ---------------------------------------------------------------- the minimum that excludes them

  /** Every effective minimum of the planning step is positive: the greater of the policy's and the
      destination's. */
  predicate PlansPositive(s: Sys, step: Step) {
    match step
    case Plan(r) => PositiveMinimums(Selected(s.destinations, r.eligible, r.maxItems), r.minimum)
    case PlanOperator(r) => r.minimum > 0
    case _ => true
  }

  predicate PositiveMinimums(dests: seq<Destination>, minimum: int) {
    forall k :: 0 <= k < |dests| ==> dests[k].minPayout > 0 || minimum > 0
  }

  ghost predicate PositiveRun(steps: seq<Step>) {
    forall i :: 0 <= i < |steps| ==> PlansPositive(Run(EMPTY, steps[..i]), steps[i])
  }

  ghost predicate AllPositive(s: Sys) {
    forall id | 0 <= id < |s.batches| :: PositiveRow(s.batches[id])
  }

  predicate PositiveRow(b: Batch) {
    AllAbove(b.items, 0)
  }

  predicate AllAbove(items: seq<Item>, bound: int) {
    forall i :: 0 <= i < |items| ==> items[i].gross > bound
  }

  lemma {:induction false} PlannedArePositive(journal: seq<Journal>, batches: seq<Batch>, dests: seq<Destination>,
                                              minimum: int)
    requires PositiveMinimums(dests, minimum)
    ensures AllAbove(PlanItems(journal, batches, dests, minimum), 0)
  {
    hide Available;
    if |dests| > 0 {
      var n := |dests| - 1;
      assert dests[n].minPayout > 0 || minimum > 0;
      PlannedArePositive(journal, batches, dests[..n], minimum);
      var earlier, items := PlanItems(journal, batches, dests[..n], minimum),
        PlanItems(journal, batches, dests, minimum);
      var effective := if dests[n].minPayout > minimum then dests[n].minPayout else minimum;
      assert effective > 0;
      forall i | 0 <= i < |items| ensures items[i].gross > 0 {
        if i < |earlier| {
          assert items[i] == earlier[i];
        } else {
          assert items[i].gross >= effective;
        }
      }
    }
  }

  lemma NextKeepsPositive(s: Sys, step: Step)
    requires Inv(s) && AllPositive(s) && PlansPositive(s, step)
    ensures AllPositive(Next(s, step))
  {
    hide Inv, Next, RowExtends, PlansPositive;
    var s' := Next(s, step);
    NextExtends(s, step);
    NewRows(s, step);
    forall id | 0 <= id < |s'.batches| ensures PositiveRow(s'.batches[id]) {
      if id < |s.batches| {
        assert PositiveRow(s.batches[id]) && RowExtends(s.batches[id], s'.batches[id]);
        SameGross(s.batches[id], s'.batches[id]);
      }
    }
  }

  lemma SameGross(b: Batch, b': Batch)
    requires RowExtends(b, b') && PositiveRow(b)
    ensures PositiveRow(b')
  {
  }

  lemma NewRows(s: Sys, step: Step)
    requires PlansPositive(s, step)
    ensures forall id | |s.batches| <= id < |Next(s, step).batches| :: PositiveRow(Next(s, step).batches[id])
  {
    hide Selected, TotalOf, GrossSum, Available, PlanItems, PostItems, WalletFees.Charges, WalletTruth, Value,
      Deposits.PostAllocation, Deposits.Itemised;
    var s' := Next(s, step);
    if step.Plan? {
      var chosen := Selected(s.destinations, step.plan.eligible, step.plan.maxItems);
      PlannedArePositive(s.journal, s.batches, chosen, step.plan.minimum);
      if s' != s {
        var items := PlanItems(s.journal, s.batches, chosen, step.plan.minimum);
        assert s'.batches[|s.batches|].items == items;
        assert PositiveRow(s'.batches[|s.batches|]);
      }
    } else if !step.PlanOperator? {
      assert |Next(s, step).batches| == |s.batches|;
    }
  }

  lemma {:induction false} PositiveInEveryRun(steps: seq<Step>)
    requires SaneRun(steps) && PositiveRun(steps)
    ensures AllPositive(Run(EMPTY, steps))
  {
    hide Next, PositiveRow, PlansPositive;
    if |steps| > 0 {
      var n := |steps| - 1;
      forall i | 0 <= i < n ensures PlansPositive(Run(EMPTY, steps[..n][..i]), steps[..n][i]) {
        assert steps[..n][..i] == steps[..i];
      }
      PositiveInEveryRun(steps[..n]);
      EveryRun(steps[..n]);
      NextKeepsPositive(Run(EMPTY, steps[..n]), steps[n]);
    }
  }

  /** With positive effective minimums the final transaction is never refused once everything is relayed and
      the state allows it. */
  lemma PositiveMinimumsCommit(steps: seq<Step>)
    requires SaneRun(steps) && PositiveRun(steps)
    requires var s := Run(EMPTY, steps); s.phase.Relayed? && CanTransition(s.phase.row.state, Broadcast)
    ensures var s := Run(EMPTY, steps); CommitStep(s).phase == Committed(s.phase.id)
  {
    hide Run, Inv;
    EveryRun(steps);
    PositiveInEveryRun(steps);
    var s := Run(EMPTY, steps);
    SameAsRead(s);
    assert PositiveRow(s.batches[s.phase.id]);
    CommitIsRefusedOnlyIfEmpty(s);
  }

  // ---------------------------------------------------------------- a run that gets stuck

  function TwoTargets(amount: int): seq<Step> {
    Deposited(amount) + [AddDestination(Target(0, 0)), Activate(0)] + [AddDestination(Target(1, 0)), Activate(1)]
  }

  function Both(amount: int): PlanRequest {
    PlanRequest({0, 1}, 0, 2, Some(OperatorPays), Some(10000), amount, 0)
  }

  function BothItems(amount: int): seq<Item> {
    [Fresh(Customer(0), "address", amount), Fresh(Customer(1), "address", 0)]
  }

  function BothBatch(amount: int): Batch {
    NewBatch(CustomerBatch, BothItems(amount), Some(OperatorPays), Some(10000), true, 0, amount)
  }

  lemma RunOfTwo(s: Sys, a: Step, b: Step)
    ensures Run(s, [a, b]) == Next(Next(s, a), b)
  {
    hide Next;
    assert [a, b][..1] == [a] && [a][..0] == [];
    assert Run(s, []) == s;
    assert Run(s, [a]) == Next(s, a);
  }

  lemma TwoReady(amount: int)
    requires amount > 0
    ensures SaneRun(TwoTargets(amount))
    ensures var s := Run(EMPTY, TwoTargets(amount));
            && s == Funded(amount, s.journal).(destinations := BothTargets())
            && OwnerBalance(Customer(0), s.journal) == amount && OwnerBalance(Customer(1), s.journal) == 0
  {
    hide Run, OwnerBalance, Referenced;
    Credited(amount);
    var a, b := Deposited(amount), [AddDestination(Target(0, 0)), Activate(0)];
    var c := [AddDestination(Target(1, 0)), Activate(1)];
    RunSplits(EMPTY, a, b);
    RunOfTwo(Run(EMPTY, a), AddDestination(Target(0, 0)), Activate(0));
    assert ActivateDestination([Target(0, 0)], 0) == [ActiveTarget(0, 0)];
    assert Run(EMPTY, a + b).destinations == [ActiveTarget(0, 0)];
    RunSplits(EMPTY, a + b, c);
    RunOfTwo(Run(EMPTY, a + b), AddDestination(Target(1, 0)), Activate(1));
    assert [ActiveTarget(0, 0)] + [Target(1, 0)] == [ActiveTarget(0, 0), Target(1, 0)];
    assert ActivateDestination([ActiveTarget(0, 0), Target(1, 0)], 1) == [ActiveTarget(0, 0), ActiveTarget(1, 0)];
  }

  function BothTargets(): seq<Destination> {
    [ActiveTarget(0, 0), ActiveTarget(1, 0)]
  }

  lemma BothAreSelected()
    ensures Selected(BothTargets(), {0, 1}, 2) == BothTargets()
  {
    var d := BothTargets();
    assert d[..1] == [d[0]] && [d[0]][..0] == [];
    assert Selected([], {0, 1}, 2) == [];
    assert Selected([d[0]], {0, 1}, 2) == [d[0]];
  }

  lemma BothGetItems(journal: seq<Journal>, amount: int)
    requires amount > 0
    requires OwnerBalance(Customer(0), journal) == amount && OwnerBalance(Customer(1), journal) == 0
    ensures PlanItems(journal, [], BothTargets(), 0) == BothItems(amount)
  {
    hide OwnerBalance;
    var d := BothTargets();
    assert d[..1] == [d[0]] && [d[0]][..0] == [];
    NothingReserved(Customer(0));
    NothingReserved(Customer(1));
    hide TotalOf;
    assert PlanItems(journal, [], [], 0) == [];
    assert PlanItems(journal, [], [d[0]], 0) == [Fresh(Customer(0), "address", amount)];
  }

  lemma NothingReserved(o: Owner)
    ensures TotalOf(Reserved(o), []) == 0
  {
  }

  lemma BothArePlanned(s: Sys, amount: int)
    requires amount > 0 && s.batches == [] && s.destinations == BothTargets()
    requires OwnerBalance(Customer(0), s.journal) == amount && OwnerBalance(Customer(1), s.journal) == 0
    ensures Next(s, Plan(Both(amount))) == s.(batches := [BothBatch(amount)])
  {
    assert TotalOf(Auto(0), []) == 0;
    hide OwnerBalance, Selected, PlanItems, GrossSum, TotalOf, DistinctOwners, Value, BothTargets, Next, BothItems;
    BothAreSelected();
    BothGetItems(s.journal, amount);
    GrossOfBoth(amount);
    BothCount(amount);
    PlanEffect(s, Both(amount), BothItems(amount), true);
    assert s.batches + [BothBatch(amount)] == [BothBatch(amount)];
  }

  lemma BothCount(amount: int)
    ensures |BothItems(amount)| == 2
  {
  }

  lemma GrossOfBoth(amount: int)
    ensures GrossSum(BothItems(amount)) == amount && Value(Gross, BothBatch(amount)) == amount
    ensures DistinctOwners(BothItems(amount))
  {
    var items, b := BothItems(amount), BothBatch(amount);
    assert items[..1] == [items[0]] && [items[0]][..0] == [];
    assert GrossSum([]) == 0 && GrossSum([items[0]]) == amount;
    assert ItemSum(Gross, b, []) == 0 && ItemSum(Gross, b, [items[0]]) == amount;
  }

  function BothCharged(amount: int, fee: int): seq<WalletFees.PreparedItem> {
    [WalletFees.PreparedItem(WalletFees.Candidate(0, "address", amount), fee, amount),
     WalletFees.PreparedItem(WalletFees.Candidate(1, "address", 0), 0, 0)]
  }

  lemma HeavyItemTakesAll(total: int, weight: real)
    requires total >= 0 && weight > 0.0
    ensures SumReal([weight, 0.0]) == weight && IsLargestRemainder(total, Quotas(total, [weight, 0.0]), [total, 0])
  {
    assert [weight, 0.0][..1] == [weight] && [weight][..0] == [];
    assert SumReal([weight]) == weight;
    SumOfTwo(total, 0);
    var q := Quotas(total, [weight, 0.0]);
    assert q[1] == 0.0;
    QuotasAddUp(total, [weight, 0.0]);
    assert q[..1] == [q[0]] && [q[0]][..0] == [];
    assert SumReal([q[0]]) == q[0];
    assert q[0] == total as real;
  }

  lemma BothChargeable(s: Sys, amount: int, fee: int)
    requires 0 <= fee <= amount && amount > 0 && s.batches == [BothBatch(amount)]
    ensures WalletFees.Charges(Candidates(BothBatch(amount)), false, fee, BothCharged(amount, fee))
    ensures WalletTruth(s, BothCharged(amount, fee), fee, [Tx("tx", amount + fee)])
  {
    hide IsLargestRemainder, Quotas, Sum;
    HeavyItemTakesAll(fee, amount as real);
    assert WalletFees.GrossWeights(Candidates(BothBatch(amount))) == [amount as real, 0.0];
    assert WalletFees.FeesOf(BothCharged(amount, fee)) == [fee, 0];
    assert WalletFees.NetsOf(BothCharged(amount, fee)) == [amount, 0];
    assert Outflows([Tx("tx", amount + fee)]) == [amount + fee];
    SumOfOne(amount + fee);
    SumOfTwo(amount, 0);
    assert forall k, other :: 0 <= k < |s.batches| ==> !InPayload(s.batches[k], other);
  }

  lemma SumOfTwo(x: int, y: int)
    ensures Sum([x, y]) == x + y
  {
    assert [x, y][..1] == [x];
    SumOfOne(x);
  }

  lemma StuckSigned(amount: int, fee: int) returns (steps: seq<Step>)
    requires 0 <= fee <= amount && amount > 0
    ensures SaneRun(steps) && NoReorg(Run(EMPTY, steps).deposits)
    ensures var s := Run(EMPTY, steps);
            && |s.batches| == 1 && Resumable(s.batches[0]) && s.batches[0].state == Signed
            && |s.batches[0].payload.value| == 1 && |s.batches[0].items| == 2
            && !s.batches[0].items[1].journaled && !Postable(s.batches[0].items[1])
  {
    hide Run, Inv, WalletFees.Charges, WalletTruth, Value, OwnerBalance;
    TwoReady(amount);
    BothArePlanned(Run(EMPTY, TwoTargets(amount)), amount);
    RunLast(EMPTY, TwoTargets(amount), Plan(Both(amount)));
    hide Next;
    var plan := TwoTargets(amount) + [Plan(Both(amount))];
    BothChargeable(Run(EMPTY, plan), amount, fee);
    GrossOfBoth(amount);
    var prepared, txs := BothCharged(amount, fee), [Tx("tx", amount + fee)];
    AttemptSigns(plan, 0, OperatorPays, 0, prepared, fee, txs);
    var sign := [Crash, Load(0), Prepare(OperatorPays, 0, prepared, fee, txs)] + [Sign];
    RunSplits(EMPTY, plan, sign);
    steps := plan + sign;
  }

  /** Two customers, one of them without a balance, a minimum of zero and the operator paying the fee: the
      payload reaches the chain and the final transaction is refused. By `NeverJournaled` it always will be. */
  lemma StuckRun(amount: int, fee: int) returns (steps: seq<Step>)
    requires 0 <= fee <= amount && amount > 0
    ensures SaneRun(steps)
    ensures var s := Run(EMPTY, steps);
            && s.phase.Relayed? && s.phase.id == 0 && CanTransition(s.phase.row.state, Broadcast)
            && |s.batches| == 1 && s.batches[0].payload.Some? && OnChain(s.batches[0].payload.value, s.chain)
            && CommitStep(s) == s && |s.batches[0].items| == 2 && !Postable(s.batches[0].items[1])
  {
    hide Run, Next, Inv, Postable, NoReorg, CommitStep, TxSet, OnChain;
    var signed := StuckSigned(amount, fee);
    var b := Run(EMPTY, signed).batches[0];
    Opening(Run(EMPTY, signed), 0);
    var load := [Crash, Load(0), StartRelay];
    RunSplits(EMPTY, signed, load);
    RelaysRun(Run(EMPTY, signed + load), 0, b, 1);
    RunSplits(EMPTY, signed + load, Relays(1));
    var sent := signed + load + Relays(1);
    RunLast(EMPTY, sent, EndRelay(["tx"]));
    steps := sent + [EndRelay(["tx"])];
    RelayEnds(Run(EMPTY, sent), 0, b, ["tx"]);
    EveryRun(steps);
    RefusedForEmpty(Run(EMPTY, steps), 1);
    assert b.payload.value[..1] == b.payload.value;
    OnChainAll(b.payload.value, Run(EMPTY, sent).chain);
  }

  lemma OnChainAll(txs: seq<Tx>, chain: set<Tx>)
    requires TxSet(txs) <= chain
    ensures OnChain(txs, chain)
  {
    forall i | 0 <= i < |txs| ensures txs[i] in chain {
      assert txs[i] in TxSet(txs);
    }
  }

  lemma RefusedForEmpty(s: Sys, i: nat)
    requires Inv(s) && s.phase.Relayed? && CanTransition(s.phase.row.state, Broadcast)
    requires i < |s.phase.row.items| && !s.phase.row.items[i].journaled && !Postable(s.phase.row.items[i])
    ensures CommitStep(s) == s
  {
    hide Inv, PostItems;
    CommitIsRefusedOnlyIfEmpty(s);
  }
}
