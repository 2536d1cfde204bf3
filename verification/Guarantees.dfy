/** What the pipeline promises, stated over all runs. */
module Guarantees {
  import opened Common
  import opened Ledger
  import opened Payouts
  import opened Protocol
  import opened Safety
  import Deposits
  import WalletFees

  // ---------------------------------------------------------------- balances

  /** No owner is ever overdrawn, customers and operator alike: the gross of all items that are
      planned and not journaled yet is covered by the ledger balance, which is never negative. */
  lemma NoOverdraft(steps: seq<Step>, o: Owner)
    requires SaneRun(steps)
    ensures var s := Run(EMPTY, steps);
            0 <= TotalOf(Pending(o), s.batches) <= OwnerBalance(o, s.journal)
  {
    hide Run, Value, TotalOf, Balance, SignedWell;
    EveryRun(steps);
    var s := Run(EMPTY, steps);
    assert Covered(s);
    forall i | 0 <= i < |s.batches| ensures Value(Pending(o), s.batches[i]) >= 0 {
      assert BatchOk(s.batches[i], s.chain);
      NonNegativePending(o, s.batches[i], s.batches[i].items);
      ValueIsItemSum(Pending(o), s.batches[i]);
    }
    NonNegativeTotal(Pending(o), s.batches);
  }

  lemma {:induction false} NonNegativePending(o: Owner, b: Batch, items: seq<Item>)
    requires forall i :: 0 <= i < |items| ==> items[i].gross >= 0
    ensures ItemSum(Pending(o), b, items) >= 0
  {
    if |items| > 0 {
      NonNegativePending(o, b, items[..|items| - 1]);
    }
  }

  /** Items leave the open set only once journaled: an item in a closed batch is journaled. */
  lemma ClosedIsJournaled(steps: seq<Step>, id: nat)
    requires SaneRun(steps) && id < |Run(EMPTY, steps).batches|
    ensures var b := Run(EMPTY, steps).batches[id];
            !Open(b.state) ==> AllJournaled(b)
  {
    hide Run, SignedWell, WellOwned;
    EveryRun(steps);
    assert BatchOk(Run(EMPTY, steps).batches[id], Run(EMPTY, steps).chain);
  }

  /** The global accounting identity. Debits equal credits, allocation clearing nets to zero, and
      the treasury is what is owed to customers plus operator revenue, less the network fees that
      the operator bore; fees borne by customers cancel against their recovery. */
  lemma AccountingIdentity(steps: seq<Step>)
    requires SaneRun(steps)
    ensures var s := Run(EMPTY, steps);
            && DirectionTotal(Everything, Debit, s.journal) == DirectionTotal(Everything, Credit, s.journal)
            && Balance(One(Clearing), s.journal) == 0
            && -Balance(Fees, s.journal) == TotalOf(KeptFees, s.batches)
            && -Balance(One(Treasury), s.journal)
               == Balance(Liabilities, s.journal) + Balance(One(Revenue), s.journal) - TotalOf(KeptFees, s.batches)
  {
    hide Run, TotalOf, AllocTotal, DirectionTotal, BatchOk;
    EveryRun(steps);
    var s := Run(EMPTY, steps);
    assert Books(s);
    PartitionJournal(Debit, s.journal);
    PartitionJournal(Credit, s.journal);
    AllocationsCancel(Everything, s.allocations);
    AllocationsCancel(One(Clearing), s.allocations);
    AllocationsCancel(Fees, s.allocations);
    PayoutsCancel(Everything, s.batches);
    PayoutsCancel(One(Clearing), s.batches);
    FeesAreKept(s.batches);
  }

  lemma {:induction false} AllocationsCancel(side: Side, allocations: seq<Allocation>)
    requires side == Everything || side == One(Clearing) || side == Fees
    ensures AllocTotal(side, allocations) == 0
  {
    if |allocations| > 0 {
      AllocationsCancel(side, allocations[..|allocations| - 1]);
    }
  }

  lemma {:induction false} PayoutsCancel(side: Side, batches: seq<Batch>)
    requires side == Everything || side == One(Clearing)
    ensures TotalOf(Posted(side), batches) == 0
  {
    if |batches| > 0 {
      PayoutsCancel(side, batches[..|batches| - 1]);
      ItemsCancel(side, batches[|batches| - 1], batches[|batches| - 1].items);
    }
  }

  lemma {:induction false} ItemsCancel(side: Side, b: Batch, items: seq<Item>)
    requires side == Everything || side == One(Clearing)
    ensures ItemSum(Posted(side), b, items) == 0
  {
    if |items| > 0 {
      ItemsCancel(side, b, items[..|items| - 1]);
    }
  }

  lemma {:induction false} FeesAreKept(batches: seq<Batch>)
    ensures TotalOf(Posted(Fees), batches) == -TotalOf(KeptFees, batches)
  {
    if |batches| > 0 {
      FeesAreKept(batches[..|batches| - 1]);
      ItemFeesAreKept(batches[|batches| - 1], batches[|batches| - 1].items);
    }
  }

  lemma {:induction false} ItemFeesAreKept(b: Batch, items: seq<Item>)
    ensures ItemSum(Posted(Fees), b, items) == -ItemSum(KeptFees, b, items)
  {
    if |items| > 0 {
      ItemFeesAreKept(b, items[..|items| - 1]);
    }
  }

  // ---------------------------------------------------------------- ledger and chain

  ghost function SettledOutflow(batches: seq<Batch>): int {
    if |batches| == 0 then 0
    else
      var b := batches[|batches| - 1];
      SettledOutflow(batches[..|batches| - 1]) +
        (if AllJournaled(b) && b.payload.Some? then Sum(Outflows(b.payload.value)) else 0)
  }

  function CreditedDeposits(allocations: seq<Allocation>): int {
    if |allocations| == 0 then 0
    else CreditedDeposits(allocations[..|allocations| - 1]) + allocations[|allocations| - 1].total
  }

  /** The books agree with the chain: the treasury is what came in by credited deposits less what
      the payloads of journaled batches carry out; all of those transactions are on the chain, and
      every transaction on the chain belongs to the payload of exactly one batch. */
  lemma LedgerAgreesWithChain(steps: seq<Step>)
    requires SaneRun(steps)
    ensures var s := Run(EMPTY, steps);
            && -Balance(One(Treasury), s.journal) == CreditedDeposits(s.allocations) - SettledOutflow(s.batches)
            && (forall id :: 0 <= id < |s.batches| && AllJournaled(s.batches[id]) ==>
                  s.batches[id].payload.Some? && OnChain(s.batches[id].payload.value, s.chain))
            && (forall tx :: tx in s.chain ==> exists id :: 0 <= id < |s.batches| && InPayload(s.batches[id], tx))
            && DistinctSlots(s.batches)
  {
    hide Run, TotalOf, AllocTotal, Balance, SignedWell, WellOwned, SettledOutflow;
    EveryRun(steps);
    var s := Run(EMPTY, steps);
    assert Books(s) && ChainOk(s);
    TreasuryIn(s.allocations);
    TreasuryOut(s.batches, s.chain);
    forall id | 0 <= id < |s.batches| && AllJournaled(s.batches[id])
      ensures s.batches[id].payload.Some? && OnChain(s.batches[id].payload.value, s.chain)
    {
      assert BatchOk(s.batches[id], s.chain);
    }
  }

  lemma {:induction false} TreasuryIn(allocations: seq<Allocation>)
    ensures AllocTotal(One(Treasury), allocations) == -CreditedDeposits(allocations)
  {
    if |allocations| > 0 {
      TreasuryIn(allocations[..|allocations| - 1]);
    }
  }

  lemma {:induction false} TreasuryOut(batches: seq<Batch>, chain: set<Tx>)
    requires forall i :: 0 <= i < |batches| ==> BatchOk(batches[i], chain)
    ensures TotalOf(Posted(One(Treasury)), batches) == SettledOutflow(batches)
  {
    hide Value, SignedWell, WellOwned;
    if |batches| > 0 {
      var b := batches[|batches| - 1];
      TreasuryOut(batches[..|batches| - 1], chain);
      assert BatchOk(b, chain);
      if AllJournaled(b) {
        TreasuryIsOutflow(b);
      } else {
        NothingPosted(One(Treasury), b, b.items);
        ValueIsItemSum(Posted(One(Treasury)), b);
      }
    }
  }

  // ---------------------------------------------------------------- history

  /** What no step may undo in a batch row: owners and amounts, a written payload with its fee
      split, journal marks, and approvals. */
  ghost predicate RowExtends(b: Batch, b': Batch) {
    && b'.kind == b.kind && b'.feePayer == b.feePayer && b'.thresholdHit == b.thresholdHit && |b'.items| == |b.items|
    && (b.approver.Some? ==> b'.approver.Some?)
    && (b.payload.Some? ==> b'.payload == b.payload && b'.totalFee == b.totalFee)
    && forall i :: 0 <= i < |b.items| ==>
         && b'.items[i].owner == b.items[i].owner && b'.items[i].gross == b.items[i].gross
         && b'.items[i].address == b.items[i].address
         && (b.items[i].journaled ==> b'.items[i].journaled)
         && (b.payload.Some? ==> b'.items[i].net == b.items[i].net && b'.items[i].fee == b.items[i].fee)
  }

  /** The row keeps the amount first observed and its upstream. */
  predicate SameDeposit(s: Sys, s': Sys, k: DepositKey)
    requires k in s.deposits
  {
    && k in s'.deposits && s'.deposits[k].amount == s.deposits[k].amount
    && s'.deposits[k].upstream == s.deposits[k].upstream
  }

  ghost predicate Extends(s: Sys, s': Sys) {
    && |s.batches| <= |s'.batches|
    && (forall i :: 0 <= i < |s.batches| ==> RowExtends(s.batches[i], s'.batches[i]))
    && s.journal <= s'.journal && s.allocations <= s'.allocations && s.chain <= s'.chain
    && (forall k :: k in s.deposits ==> SameDeposit(s, s', k))
  }

  lemma NextExtends(s: Sys, step: Step)
    requires Inv(s)
    ensures Extends(s, Next(s, step))
  {
    assert PhaseOk(s) && AllocationsOk(s);
    hide Inv, PhaseOk, AllocationsOk, Extends, Next;
    if step.Commit? {
      CommitExtends(s);
    } else if step.Allocate? {
      AllocateExtends(s, step);
    } else if step.ApproveWrite? || step.ConfirmWrite? || step.Throw? {
      StateWritesExtend(s, step);
    } else if step.Sign? {
      SignExtends(s);
    } else if step.Plan? || step.PlanOperator? {
      PlansExtend(s, step);
    } else if step.Observe? || step.AddDestination? || step.RevokePending? || step.Activate? || step.ApproveRead? ||
      step.ConfirmRead? {
      ElsewhereExtends(s, step);
    } else {
      ExecutorReadsExtend(s, step);
    }
  }

  lemma CommitExtends(s: Sys)
    requires PhaseOk(s)
    ensures Extends(s, Next(s, Commit))
  {
    hide SigningOk, OnChain, PostItems;
    if Next(s, Commit) != s {
      PostItemsReferences(s.journal, s.phase.id, s.phase.row, |s.phase.row.items|, OperatorPayout(0));
    }
  }

  lemma AllocateExtends(s: Sys, step: Step)
    requires AllocationsOk(s) && step.Allocate?
    ensures Extends(s, Next(s, step))
  {
    hide Deposits.Itemised, Deposits.PostAllocation;
    if Next(s, step) != s {
      var total := s.deposits[step.key].amount;
      PositiveAmount(s, step.key);
      Deposits.ItemisedConserves(total, step.groups, step.policies, step.items);
      Deposits.PostAllocationSucceeds(s.journal, step.key, total, step.items);
    }
  }

  lemma StateWritesExtend(s: Sys, step: Step)
    requires step.ApproveWrite? || step.ConfirmWrite? || step.Throw?
    ensures Extends(s, Next(s, step))
  {
    var s' := Next(s, step);
    assert |s'.batches| == |s.batches|;
    hide RowExtends;
    forall i | 0 <= i < |s.batches| ensures RowExtends(s.batches[i], s'.batches[i]) {
      var b := s.batches[i];
      RestatedRow(b, s'.batches[i]);
    }
  }

  lemma RestatedRow(b: Batch, b': Batch)
    requires b' == b.(state := b'.state, approver := b'.approver) && (b.approver.Some? ==> b'.approver.Some?)
    ensures RowExtends(b, b')
  {
  }

  lemma SignExtends(s: Sys)
    requires PhaseOk(s)
    ensures Extends(s, Next(s, Sign))
  {
    hide OnChain, SigningOk;
  }

  lemma PlansExtend(s: Sys, step: Step)
    requires step.Plan? || step.PlanOperator?
    ensures Extends(s, Next(s, step))
  {
    hide PlanItems, Selected, Available, TotalOf, GrossSum;
  }

  lemma ElsewhereExtends(s: Sys, step: Step)
    requires step.Observe? || step.AddDestination? || step.RevokePending? || step.Activate? || step.ApproveRead? ||
      step.ConfirmRead?
    ensures Extends(s, Next(s, step))
  {
    assert Next(s, step).batches == s.batches;
  }

  lemma ExecutorReadsExtend(s: Sys, step: Step)
    requires step.Load? || step.Prepare? || step.Refresh? || step.FindKnown? || step.StartRelay? || step.RelayNext? ||
      step.EndRelay? || step.Return? || step.Crash?
    ensures Extends(s, Next(s, step))
  {
    hide WalletFees.Charges, WalletTruth, Value;
    assert Next(s, step).batches == s.batches;
  }

  lemma {:induction false} RunSplits(s: Sys, a: seq<Step>, b: seq<Step>)
    ensures Run(s, a + b) == Run(Run(s, a), b)
  {
    hide Next;
    if |b| == 0 {
      assert a + b == a;
    } else {
      var n := |b| - 1;
      assert (a + b)[..|a + b| - 1] == a + b[..n];
      RunSplits(s, a, b[..n]);
    }
  }

  /** Whatever happens later, crashes and retries included: a payload once written stays as it is
      with its fee split, journal marks and journal transactions stay, the chain only grows, and a
      deposit keeps the amount first observed and its upstream. */
  lemma {:induction false} HistoryIsKept(steps: seq<Step>, more: seq<Step>)
    requires SaneRun(steps + more)
    ensures Extends(Run(EMPTY, steps), Run(EMPTY, steps + more))
  {
    hide Next, RowExtends;
    if |more| == 0 {
      assert steps + more == steps;
      RowExtendsItself(Run(EMPTY, steps));
    } else {
      var n := |more| - 1;
      var before := steps + more[..n];
      assert steps + more == before + [more[n]];
      assert (steps + more)[..|steps + more| - 1] == before;
      assert forall i :: 0 <= i < |before| ==> before[i] == (steps + more)[i];
      HistoryIsKept(steps, more[..n]);
      EveryRun(before);
      NextExtends(Run(EMPTY, before), more[n]);
      ExtendsIsTransitive(Run(EMPTY, steps), Run(EMPTY, before), Run(EMPTY, steps + more));
    }
  }

  lemma RowExtendsItself(s: Sys)
    ensures Extends(s, s)
  {
  }

  lemma ExtendsIsTransitive(a: Sys, b: Sys, c: Sys)
    requires Extends(a, b) && Extends(b, c)
    ensures Extends(a, c)
  {
    forall i | 0 <= i < |a.batches| ensures RowExtends(a.batches[i], c.batches[i]) {
      RowsAreTransitive(a.batches[i], b.batches[i], c.batches[i]);
    }
  }

  lemma RowsAreTransitive(a: Batch, b: Batch, c: Batch)
    requires RowExtends(a, b) && RowExtends(b, c)
    ensures RowExtends(a, c)
  {
  }

  /** Each item is journaled exactly when its one journal transaction exists, and never twice. */
  lemma JournaledAtMostOnce(steps: seq<Step>, id: nat, i: nat)
    requires SaneRun(steps)
    requires id < |Run(EMPTY, steps).batches| && i < |Run(EMPTY, steps).batches[id].items|
    ensures var s := Run(EMPTY, steps); var item := s.batches[id].items[i];
            && (item.journaled <==> Referenced(ReferenceOf(id, item.owner), s.journal))
            && UniqueReferences(s.journal)
            && (s.batches[id].state in {Broadcast, Confirmed} ==> item.journaled)
  {
    hide Run, SignedWell, WellOwned, Referenced;
    EveryRun(steps);
    var s := Run(EMPTY, steps);
    assert References(s) && Linked(s) && BatchOk(s.batches[id], s.chain);
    var r := ReferenceOf(id, s.batches[id].items[i].owner);
    assert Referenced(r, s.journal) ==> ReferenceOk(s, r);
  }

  /** Every deposit is credited at most once, with the amount of its row, split exactly; a deposit
      once marked allocated or reorged always has its allocation. */
  lemma DepositsAreCreditedOnce(steps: seq<Step>)
    requires SaneRun(steps)
    ensures var s := Run(EMPTY, steps);
            && (forall i, j :: 0 <= i < j < |s.allocations| ==> s.allocations[i].deposit != s.allocations[j].deposit)
            && (forall i :: 0 <= i < |s.allocations| ==> AllocationOk(s, s.allocations[i]))
            && (forall k :: k in s.deposits && s.deposits[k].status in {Deposits.Shared, Deposits.Reorged} ==>
                  HasAllocation(s.allocations, k))
  {
    hide Run;
    EveryRun(steps);
    assert AllocationsOk(Run(EMPTY, steps));
  }

  /** In exact arithmetic the allocation transaction is refused only for a deposit that is not
      confirmed or already has an allocation; in particular the "Allocation invariant failed"
      guard and the journal's balance guard never fire. */
  lemma AllocationRefusals(steps: seq<Step>, key: DepositKey, groups: seq<Deposits.Group>, policies: map<nat, int>,
                           items: seq<Deposits.Item>)
    requires SaneRun(steps) && key in Run(EMPTY, steps).deposits
    requires Deposits.Itemised(Run(EMPTY, steps).deposits[key].amount, groups, policies, items)
    ensures var s := Run(EMPTY, steps); var s' := AllocateStep(s, key, groups, policies, items);
            s' != s <==> s.deposits[key].status == Deposits.Confirmed && !HasAllocation(s.allocations, key)
  {
    hide Run, Deposits.Itemised, Deposits.PostAllocation, Referenced;
    EveryRun(steps);
    var s := Run(EMPTY, steps);
    assert AllocationsOk(s) && References(s);
    var total := s.deposits[key].amount;
    Deposits.ItemisedConserves(total, groups, policies, items);
    Deposits.PostAllocationSucceeds(s.journal, key, total, items);
    assert Referenced(DepositOf(key), s.journal) ==> ReferenceOk(s, DepositOf(key));
    assert Referenced(AllocationOf(key), s.journal) ==> ReferenceOk(s, AllocationOf(key));
    if s.deposits[key].status == Deposits.Confirmed && !HasAllocation(s.allocations, key) {
      assert |AllocateStep(s, key, groups, policies, items).allocations| == |s.allocations| + 1;
    }
  }

  // ---------------------------------------------------------------- approval

  /** Nothing is signed, executed or failed without being within the automatic limit at planning or
      approved by somebody; and every signed customer batch respects its fee cap. */
  lemma ApprovedBeforeSigned(steps: seq<Step>, id: nat)
    requires SaneRun(steps) && id < |Run(EMPTY, steps).batches|
    ensures var b := Run(EMPTY, steps).batches[id];
            && (b.state in {AutoApproved, Signed, Broadcast, Confirmed, Failed} || b.payload.Some? ==>
                  !b.thresholdHit || b.approver.Some?)
            && (b.payload.Some? && b.kind == CustomerBatch ==> b.totalFee * 10000 <= Value(Gross, b) * b.feeCap)
            && (b.payload.Some? ==> WalletFees.Charges(Candidates(b), b.deducted, b.totalFee, StoredCharges(b)))
  {
    hide Run, WellOwned, WalletFees.Charges;
    EveryRun(steps);
    assert BatchOk(Run(EMPTY, steps).batches[id], Run(EMPTY, steps).chain);
  }

  /** Over any number of planning runs, what was approved automatically in one local day never
      exceeds the limit in force at the latest of those approvals. */
  lemma DailyAutomaticLimit(steps: seq<Step>, day: int)
    requires SaneRun(steps)
    ensures var s := Run(EMPTY, steps);
            TotalOf(Auto(day), s.batches) > 0 ==>
              exists k :: 0 <= k < |s.batches| && !s.batches[k].thresholdHit && s.batches[k].day == day
                          && TotalOf(Auto(day), s.batches) <= s.batches[k].limit
  {
    hide Run;
    EveryRun(steps);
    var s := Run(EMPTY, steps);
    assert AutoOk(s);
    if TotalOf(Auto(day), s.batches) > 0 {
      var k :| LimitHolds(s.batches, day, k);
    }
  }
}
