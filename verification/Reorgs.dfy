/** Deposits that lose their confirmations. An allocated deposit is flagged the first time only: once a scan has
    rewritten the flag, nothing shows that it was ever allocated, and later losses go unnoticed. */
module Reorgs {
  import opened Common
  import opened Ledger
  import opened Protocol
  import opened Safety
  import opened Guarantees
  import opened Recovery
  import opened Scenario
  import Deposits

  /** The scan reads the row and writes it with nothing in between. */
  predicate FreshRead(s: Sys, step: Step) {
    step.Observe? ==> step.seen == StatusOf(s, step.receipt.key)
  }

  function StatusOf(s: Sys, key: DepositKey): Option<Deposits.Status> {
    if key in s.deposits then Some(s.deposits[key].status) else None
  }

  ghost predicate FreshRun(steps: seq<Step>) {
    forall i :: 0 <= i < |steps| ==> FreshRead(Run(EMPTY, steps[..i]), steps[i])
  }

  /** How far an allocated deposit has come: allocated, flagged, or neither any more. */
  function Stage(status: Deposits.Status): nat {
    match status
    case Shared => 0
    case Reorged => 1
    case _ => 2
  }

  lemma StageNeverFalls(s: Sys, step: Step, key: DepositKey)
    requires FreshRead(s, step) && key in s.deposits && HasAllocation(s.allocations, key)
    ensures var s' := Next(s, step);
            key in s'.deposits && HasAllocation(s'.allocations, key)
            && Stage(s'.deposits[key].status) >= Stage(s.deposits[key].status)
  {
    hide HasAllocation, Next;
    if step.Observe? {
      ObservedStage(s, step.receipt, step.upstream, step.seen, key);
    } else if step.Allocate? {
      AllocatedStage(s, step, key);
    } else {
      OtherSteps(s, step);
    }
  }

  lemma ObservedStage(s: Sys, receipt: Deposits.Receipt, upstream: nat, seen: Option<Deposits.Status>, key: DepositKey)
    requires key in s.deposits && seen == StatusOf(s, receipt.key)
    ensures var s' := Next(s, Observe(receipt, upstream, seen));
            && s'.allocations == s.allocations && key in s'.deposits
            && Stage(s'.deposits[key].status) >= Stage(s.deposits[key].status)
  {
    hide HasAllocation;
  }

  lemma AllocatedStage(s: Sys, step: Step, key: DepositKey)
    requires step.Allocate? && key in s.deposits && HasAllocation(s.allocations, key)
    ensures var s' := Next(s, step);
            key in s'.deposits && HasAllocation(s'.allocations, key) && s'.deposits[key] == s.deposits[key]
  {
    hide Deposits.Itemised, Deposits.PostAllocation;
    var s' := Next(s, step);
    if s' != s {
      var i :| 0 <= i < |s.allocations| && s.allocations[i].deposit == key;
      assert s'.allocations[i] == s.allocations[i];
    }
  }

  lemma OtherSteps(s: Sys, step: Step)
    requires !step.Observe? && !step.Allocate?
    ensures Next(s, step).deposits == s.deposits && Next(s, step).allocations == s.allocations
  {
    hide PlanStep, WalletTruth;
    if step.Plan? {
      PlanLeavesDeposits(s, step.plan);
    }
  }

  lemma PlanLeavesDeposits(s: Sys, r: PlanRequest)
    ensures PlanStep(s, r).deposits == s.deposits && PlanStep(s, r).allocations == s.allocations
  {
  }

  /** Over runs with fresh reads: an allocated deposit that has left ALLOCATED is never ALLOCATED again, and one
      that has left REORGED is never REORGED again. */
  lemma {:induction false} StagesOnlyRise(steps: seq<Step>, more: seq<Step>, key: DepositKey)
    requires FreshRun(steps + more) && key in Run(EMPTY, steps).deposits
    requires HasAllocation(Run(EMPTY, steps).allocations, key)
    ensures var s, s' := Run(EMPTY, steps), Run(EMPTY, steps + more);
            && key in s'.deposits && HasAllocation(s'.allocations, key)
            && Stage(s'.deposits[key].status) >= Stage(s.deposits[key].status)
  {
    hide Next, HasAllocation, FreshRead, Stage;
    if |more| == 0 {
      assert steps + more == steps;
    } else {
      var n := |more| - 1;
      var before := steps + more[..n];
      assert (steps + more)[..|steps + more| - 1] == before;
      forall i | 0 <= i < |before| ensures FreshRead(Run(EMPTY, before[..i]), before[i]) {
        assert (steps + more)[..i] == before[..i] && (steps + more)[i] == before[i];
      }
      StagesOnlyRise(steps, more[..n], key);
      assert FreshRead(Run(EMPTY, (steps + more)[..|before|]), (steps + more)[|before|]);
      StageNeverFalls(Run(EMPTY, before), more[n], key);
    }
  }

  /** Exactly when a receipt flags a deposit: when it is locked and the row still says ALLOCATED. */
  lemma FlaggedExactly(steps: seq<Step>, receipt: Deposits.Receipt, upstream: nat)
    requires SaneRun(steps) && receipt.key in Run(EMPTY, steps).deposits
    ensures var s := Run(EMPTY, steps); var s' := Next(s, Observe(receipt, upstream, StatusOf(s, receipt.key)));
            && receipt.key in s'.deposits
            && (s'.deposits[receipt.key].status == Deposits.Reorged <==>
                  receipt.locked && s.deposits[receipt.key].status == Deposits.Shared)
  {
    hide Run, HasAllocation;
    EveryRun(steps);
    DepositsAreCreditedOnce(steps);
  }

  /** The second loss: allocated, lost and flagged, confirmed again, lost again, and no flag to halt payouts. */
  lemma SecondLossIsNotFlagged(amount: int)
    requires amount > 0
    ensures var locked, open := Deposits.Receipt(KEY, amount, true), Deposits.Receipt(KEY, amount, false);
            var lost := Deposited(amount) + [Observe(locked, 0, Some(Deposits.Shared))];
            var back := lost + [Observe(open, 0, Some(Deposits.Reorged))];
            var again := back + [Observe(locked, 0, Some(Deposits.Confirmed))];
            && SaneRun(again)
            && StatusOf(Run(EMPTY, Deposited(amount)), KEY) == Some(Deposits.Shared)
            && StatusOf(Run(EMPTY, lost), KEY) == Some(Deposits.Reorged) && !NoReorg(Run(EMPTY, lost).deposits)
            && StatusOf(Run(EMPTY, back), KEY) == Some(Deposits.Confirmed)
            && StatusOf(Run(EMPTY, again), KEY) == Some(Deposits.Observed) && NoReorg(Run(EMPTY, again).deposits)
            && HasAllocation(Run(EMPTY, again).allocations, KEY)
  {
    hide Run, OwnerBalance, Referenced;
    Credited(amount);
    var locked, open := Deposits.Receipt(KEY, amount, true), Deposits.Receipt(KEY, amount, false);
    var lost := Deposited(amount) + [Observe(locked, 0, Some(Deposits.Shared))];
    var back := lost + [Observe(open, 0, Some(Deposits.Reorged))];
    RunLast(EMPTY, Deposited(amount), Observe(locked, 0, Some(Deposits.Shared)));
    RunLast(EMPTY, lost, Observe(open, 0, Some(Deposits.Reorged)));
    RunLast(EMPTY, back, Observe(locked, 0, Some(Deposits.Confirmed)));
    assert Run(EMPTY, Deposited(amount)).allocations[0].deposit == KEY;
  }
}
