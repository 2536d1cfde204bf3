/** The state guards of execution: never tripped when approvals and confirmations do not
    interleave with the execution of the same batch, and exactly what happens when one does. */
module Guards {
  import opened Common
  import opened Ledger
  import opened Payouts
  import opened Protocol
  import opened Safety
  import Deposits
  import WalletFees

  /** The decision that `approve` takes on a row. */
  function Decision(b: Batch): State {
    if b.state == Failed && b.payload.Some? then Signed else AutoApproved
  }

  /** An approval or confirmation writes what it would decide now, and not during an execution of
      the same batch. Every other step is free. */
  predicate Calm(s: Sys, step: Step) {
    match step
    case ApproveWrite(t) => t.id < |s.batches| ==>
      && (s.phase == Idle || s.phase.id != t.id)
      && s.batches[t.id].state in {ApprovalRequired, Failed} && t.next == Decision(s.batches[t.id])
    case ConfirmWrite(id) => id < |s.batches| ==>
      && (s.phase == Idle || s.phase.id != id) && s.batches[id].state == Broadcast
    case _ => true
  }

  ghost predicate CalmRun(steps: seq<Step>) {
    forall i :: 0 <= i < |steps| ==> Calm(Run(EMPTY, steps[..i]), steps[i])
  }

  /** What calm runs keep on top of the general invariant. */
  ghost predicate CalmInv(s: Sys) {
    && (forall i :: 0 <= i < |s.batches| ==> RowCalm(s.batches[i]))
    && (s.phase != Idle && s.phase.id < |s.batches| ==>
          var b := s.batches[s.phase.id];
          match s.phase
          case Loaded(_, row) => row.state == b.state && b.state in {AutoApproved, Failed}
          case Charged(_, row, _) => row.state == b.state && b.state in {AutoApproved, Failed}
          case Persisted(_) => b.state == Signed
          case Ready(_, row) => row.state == b.state && b.state in {Signed, Failed}
          case Relaying(_, row, _) => row.state == b.state && b.state in {Signed, Failed}
          case Relayed(_, row, _) => row.state == b.state && b.state in {Signed, Failed}
          case Committed(_) => b.state == Broadcast)
  }

  lemma CalmKeeps(s: Sys, step: Step)
    requires Inv(s) && CalmInv(s) && Calm(s, step)
    ensures CalmInv(Next(s, step))
    ensures StatesFollowTable(s, Next(s, step))
  {
    assert PhaseOk(s);
    hide Inv, PhaseOk, CalmInv, StatesFollowTable, Next, Calm;
    if step.ApproveWrite? || step.ConfirmWrite? || step.Throw? {
      CalmStateWrites(s, step);
    } else if step.Sign? || step.Commit? {
      CalmExecutorWrites(s, step);
    } else if step.Plan? || step.PlanOperator? {
      CalmPlans(s, step);
    } else if step.Observe? || step.Allocate? || step.AddDestination? || step.RevokePending? || step.Activate? ||
      step.ApproveRead? || step.ConfirmRead? {
      CalmElsewhere(s, step);
    } else {
      CalmExecutorReads(s, step);
    }
  }

  lemma CalmStateWrites(s: Sys, step: Step)
    requires PhaseOk(s) && CalmInv(s) && Calm(s, step) && (step.ApproveWrite? || step.ConfirmWrite? || step.Throw?)
    ensures CalmInv(Next(s, step)) && StatesFollowTable(s, Next(s, step))
  {
    hide SigningOk, AllJournaled, CalmInv, StatesFollowTable, Calm, PhaseOk;
    var s' := Next(s, step);
    if s' != s {
      var id := if step.ApproveWrite? then step.ticket.id else if step.ConfirmWrite? then step.id else s.phase.id;
      CalmRowWrite(s, step, id);
    } else {
      NoChange(s);
    }
  }

  lemma NoChange(s: Sys)
    ensures StatesFollowTable(s, s)
  {
  }

  lemma CalmRowWrite(s: Sys, step: Step, id: nat)
    requires PhaseOk(s) && CalmInv(s) && Calm(s, step) && Next(s, step) != s
    requires step.ApproveWrite? || step.ConfirmWrite? || step.Throw?
    requires id == if step.ApproveWrite? then step.ticket.id else if step.ConfirmWrite? then step.id else s.phase.id
    ensures CalmInv(Next(s, step)) && StatesFollowTable(s, Next(s, step))
  {
    var s' := Next(s, step);
    WrittenRow(s, step, id);
    hide Next, PhaseOk, Calm;
    CalmRow(s, s', id);
  }

  lemma WrittenRow(s: Sys, step: Step, id: nat)
    requires PhaseOk(s) && CalmInv(s) && Calm(s, step) && Next(s, step) != s
    requires step.ApproveWrite? || step.ConfirmWrite? || step.Throw?
    requires id == if step.ApproveWrite? then step.ticket.id else if step.ConfirmWrite? then step.id else s.phase.id
    ensures var s' := Next(s, step);
            && id < |s.batches| && s'.batches == s.batches[id := s'.batches[id]]
            && s'.batches[id].payload == s.batches[id].payload
            && CanTransition(s.batches[id].state, s'.batches[id].state) && RowCalm(s'.batches[id])
            && (s'.phase == Idle || (s'.phase == s.phase && s.phase.id != id))
  {
    hide SigningOk, AllJournaled, OnChain, Same;
  }

  predicate RowCalm(b: Batch) {
    (b.state in {AutoApproved, ApprovalRequired} ==> b.payload.None?) && (b.state == Signed ==> b.payload.Some?)
  }

  lemma CalmRow(s: Sys, s': Sys, id: nat)
    requires CalmInv(s) && id < |s.batches| == |s'.batches|
    requires s'.batches == s.batches[id := s'.batches[id]] && RowCalm(s'.batches[id])
    requires CanTransition(s.batches[id].state, s'.batches[id].state)
    requires s'.phase == Idle || (s'.phase == s.phase && s.phase.id != id)
    ensures CalmInv(s') && StatesFollowTable(s, s')
  {
  }

  lemma CalmExecutorWrites(s: Sys, step: Step)
    requires PhaseOk(s) && CalmInv(s) && (step.Sign? || step.Commit?)
    ensures CalmInv(Next(s, step)) && StatesFollowTable(s, Next(s, step))
  {
    hide SigningOk, AllJournaled, PostItems;
  }

  lemma CalmPlans(s: Sys, step: Step)
    requires PhaseOk(s) && CalmInv(s) && (step.Plan? || step.PlanOperator?)
    ensures CalmInv(Next(s, step)) && StatesFollowTable(s, Next(s, step))
  {
    hide SigningOk, AllJournaled, PlanItems, Selected, Available, TotalOf, GrossSum;
  }

  lemma CalmElsewhere(s: Sys, step: Step)
    requires CalmInv(s)
    requires step.Observe? || step.Allocate? || step.AddDestination? || step.RevokePending? || step.Activate? ||
      step.ApproveRead? || step.ConfirmRead?
    ensures CalmInv(Next(s, step)) && StatesFollowTable(s, Next(s, step))
  {
    hide Deposits.PostAllocation, Deposits.Itemised;
    assert Next(s, step).batches == s.batches && Next(s, step).phase == s.phase;
  }

  lemma CalmExecutorReads(s: Sys, step: Step)
    requires PhaseOk(s) && CalmInv(s)
    requires step.Load? || step.Prepare? || step.Refresh? || step.FindKnown? || step.StartRelay? || step.RelayNext? ||
      step.EndRelay? || step.Return? || step.Crash?
    ensures CalmInv(Next(s, step)) && StatesFollowTable(s, Next(s, step))
  {
    hide SigningOk, AllJournaled, WalletFees.Charges, WalletTruth, Value;
    assert Next(s, step).batches == s.batches;
  }

  /** Every written state is allowed by the transition table. */
  ghost predicate StatesFollowTable(s: Sys, s': Sys) {
    && |s.batches| <= |s'.batches|
    && forall i :: 0 <= i < |s.batches| ==> CanTransition(s.batches[i].state, s'.batches[i].state)
  }

  lemma {:induction false} CalmRuns(steps: seq<Step>)
    requires SaneRun(steps) && CalmRun(steps)
    ensures CalmInv(Run(EMPTY, steps))
  {
    hide Next, Calm;
    if |steps| > 0 {
      var n := |steps| - 1;
      forall i | 0 <= i < n ensures Calm(Run(EMPTY, steps[..n][..i]), steps[..n][i]) {
        assert steps[..n][..i] == steps[..i];
      }
      CalmRuns(steps[..n]);
      EveryRun(steps[..n]);
      assert Calm(Run(EMPTY, steps[..n]), steps[n]);
      CalmKeeps(Run(EMPTY, steps[..n]), steps[n]);
    }
  }

  /** In calm runs `assertPayoutTransition` never throws: neither before signing nor before the
      final write, nor in an approval or confirmation; and AUTO_APPROVED means unsigned, SIGNED
      means signed. */
  lemma GuardsAreDead(steps: seq<Step>)
    requires SaneRun(steps) && CalmRun(steps)
    ensures var s := Run(EMPTY, steps);
            && (s.phase.Charged? ==> CanTransition(s.phase.row.state, Signed))
            && (s.phase.Relayed? ==> CanTransition(s.phase.row.state, Broadcast))
            && (forall i :: 0 <= i < |s.batches| ==>
                  && (s.batches[i].state == AutoApproved ==> s.batches[i].payload.None?)
                  && (s.batches[i].state == Signed ==> s.batches[i].payload.Some?)
                  && (s.batches[i].state in {ApprovalRequired, Failed} ==>
                    CanTransition(s.batches[i].state, Decision(s.batches[i])))
                  && (s.batches[i].state == Broadcast ==> CanTransition(Broadcast, Confirmed)))
  {
    hide Run, CalmInv, Inv;
    CalmRuns(steps);
    EveryRun(steps);
    ExecutedExists(Run(EMPTY, steps));
    DeadGuards(Run(EMPTY, steps));
  }

  lemma DeadGuards(s: Sys)
    requires CalmInv(s) && (s.phase != Idle ==> s.phase.id < |s.batches|)
    ensures s.phase.Charged? ==> CanTransition(s.phase.row.state, Signed)
    ensures s.phase.Relayed? ==> CanTransition(s.phase.row.state, Broadcast)
    ensures forall i :: 0 <= i < |s.batches| ==>
      && (s.batches[i].state == AutoApproved ==> s.batches[i].payload.None?)
      && (s.batches[i].state == Signed ==> s.batches[i].payload.Some?)
      && (s.batches[i].state in {ApprovalRequired, Failed} ==>
        CanTransition(s.batches[i].state, Decision(s.batches[i])))
      && (s.batches[i].state == Broadcast ==> CanTransition(Broadcast, Confirmed))
  {
  }

  lemma ExecutedExists(s: Sys)
    requires Inv(s)
    ensures s.phase != Idle ==> s.phase.id < |s.batches|
  {
    hide Rows, TicketsOk, Books, References, Covered, AllocationsOk, ChainOk, AutoOk, Linked, OneActive, SigningOk,
      AllJournaled, OnChain;
  }

  lemma CalmStatesFollowTable(steps: seq<Step>, step: Step)
    requires SaneRun(steps) && CalmRun(steps) && Calm(Run(EMPTY, steps), step)
    ensures StatesFollowTable(Run(EMPTY, steps), Next(Run(EMPTY, steps), step))
  {
    hide Run, Next;
    CalmRuns(steps);
    EveryRun(steps);
    CalmKeeps(Run(EMPTY, steps), step);
  }

  /** Interleaved, the guard can trip: an approval that read the batch as FAILED and unsigned, and
      writes after the executor has signed, leaves AUTO_APPROVED with a payload. */
  lemma StaleApprovalTripsGuard(s: Sys, t: Ticket)
    requires Inv(s) && s.phase.Charged? && CanTransition(s.phase.row.state, Signed)
    requires t in s.tickets && t.id == s.phase.id && t.next == AutoApproved
    ensures Tripped(RefreshStep(ApproveWriteStep(SignStep(s), t)), t.id)
  {
    hide Books, References, Linked, Covered, AutoOk, AllocationsOk, ChainOk, SignedWell, WellOwned, Rows,
      WalletFees.Charges, WalletTruth, Value;
    assert |s.phase.signing.prepared| == |s.batches[t.id].items| by {
      AllItemsCharged(s);
    }
    hide Inv, PhaseOk, ChargedItems;
    var signed := SignStep(s);
    assert signed.phase == Persisted(t.id) && signed.batches[t.id].payload.Some? && signed.tickets == s.tickets;
    var approved := ApproveWriteStep(signed, t);
    assert approved.phase == Persisted(t.id) && approved.batches[t.id].payload.Some?;
    assert approved.batches[t.id].state == AutoApproved;
  }

  ghost predicate Tripped(r: Sys, id: nat) {
    && r.phase.Ready? && r.phase.id == id < |r.batches|
    && r.batches[id].state == AutoApproved && r.batches[id].payload.Some?
    && !CanTransition(r.phase.row.state, Broadcast)
  }

  lemma AllItemsCharged(s: Sys)
    requires PhaseOk(s) && s.phase.Charged?
    ensures s.phase.id < |s.batches| && |s.phase.signing.prepared| == |s.batches[s.phase.id].items|
  {
    hide WalletTruth, Value;
  }

  /** And it is recoverable: relaying everything and throwing at the guard leaves FAILED with the
      same payload, journal and chain; the batch can then be loaded for a broadcast that the guard
      allows. */
  lemma TrippedGuardIsRecoverable(s: Sys)
    requires Inv(s) && s.phase.Relayed? && s.phase.row.state == AutoApproved
    ensures CommitStep(s) == s && s.phase.id < |s.batches|
    ensures Inv(ThrowStep(s)) && Reloadable(s, ThrowStep(s), s.phase.id)
  {
    ThrowKeeps(s);
    RecoveredState(s);
  }

  ghost predicate Reloadable(s: Sys, f: Sys, id: nat) {
    && f.journal == s.journal && f.chain == s.chain && f.deposits == s.deposits
    && id < |s.batches| && id < |f.batches| && f.batches[id].payload == s.batches[id].payload
    && CanTransition(f.batches[id].state, Broadcast)
    && (NoReorg(f.deposits) ==> LoadStep(f, id).phase == Ready(id, f.batches[id]))
  }

  lemma RecoveredState(s: Sys)
    requires PhaseOk(s) && s.phase.Relayed? && s.phase.row.state == AutoApproved
    ensures CommitStep(s) == s && s.phase.id < |s.batches|
    ensures Reloadable(s, ThrowStep(s), s.phase.id)
  {
    hide OnChain;
  }

  // ---------------------------------------------------------------- every run, stale approvals included

  /** The states in which the executor may have read its batch. */
  ghost predicate ReadStates(s: Sys) {
    match s.phase
    case Loaded(_, row) => row.state in {AutoApproved, Failed}
    case Charged(_, row, _) => row.state in {AutoApproved, Failed}
    case Persisted(id) => id < |s.batches| && s.batches[id].state in {AutoApproved, Signed} &&
      !AllJournaled(s.batches[id])
    case Ready(_, row) => row.state in {AutoApproved, Signed, Failed}
    case Relaying(_, row, _) => row.state in {AutoApproved, Signed, Failed}
    case Relayed(_, row, _) => row.state in {AutoApproved, Signed, Failed}
    case _ => true
  }

  lemma ReadStatesKept(s: Sys, step: Step)
    requires Inv(s) && ReadStates(s)
    ensures ReadStates(Next(s, step))
  {
    hide Inv, ReadStates, Next;
    if step.ApproveWrite? || step.ConfirmWrite? {
      WritesKeepRead(s, step);
    } else if step.Load? {
      LoadKeepsRead(s, step.id);
    } else if step.Sign? {
      SignKeepsRead(s);
    } else if step.Plan? || step.PlanOperator? {
      PlansKeepRead(s, step);
    } else {
      OthersKeepRead(s, step);
    }
  }

  lemma WritesKeepRead(s: Sys, step: Step)
    requires Inv(s) && ReadStates(s) && (step.ApproveWrite? || step.ConfirmWrite?)
    ensures ReadStates(Next(s, step))
  {
    assert TicketsOk(s);
    hide Inv;
    var s' := Next(s, step);
    assert s'.phase == s.phase;
    if s.phase.Persisted? && s' != s {
      PersistedWrite(s, step, s.phase.id);
    }
  }

  lemma PersistedWrite(s: Sys, step: Step, id: nat)
    requires TicketsOk(s) && (step.ApproveWrite? || step.ConfirmWrite?) && id < |s.batches|
    requires s.batches[id].state in {AutoApproved, Signed} && !AllJournaled(s.batches[id])
    ensures var s' := Next(s, step);
            id < |s'.batches| && s'.batches[id].state in {AutoApproved, Signed} && !AllJournaled(s'.batches[id])
  {
    var s' := Next(s, step);
    assert s'.batches[id].items == s.batches[id].items;
  }

  lemma LoadKeepsRead(s: Sys, id: nat)
    requires Inv(s) && ReadStates(s)
    ensures ReadStates(Next(s, Load(id)))
  {
    LoadIsLoadStep(s, id);
    if id < |s.batches| {
      UnsignedIsUnlocked(s, id);
    }
    hide Inv, Next, NoReorg, AllJournaled;
  }

  lemma LoadIsLoadStep(s: Sys, id: nat)
    ensures Next(s, Load(id)) == LoadStep(s, id)
  {
    hide LoadStep;
  }

  /** A batch without a payload waits for approval, is approved or has failed. */
  lemma UnsignedIsUnlocked(s: Sys, id: nat)
    requires Inv(s) && id < |s.batches|
    ensures s.batches[id].payload.None? ==> s.batches[id].state in {ApprovalRequired, AutoApproved, Failed}
  {
    hide PhaseOk, TicketsOk, Books, References, Covered, AllocationsOk, ChainOk, AutoOk, Linked, OneActive, SignedWell,
      WellOwned, AllJournaled, NoneJournaled, Approved, OnChain;
    assert Rows(s);
    assert BatchOk(s.batches[id], s.chain);
  }

  lemma SignKeepsRead(s: Sys)
    requires Inv(s) && ReadStates(s)
    ensures ReadStates(Next(s, Sign))
  {
    hide Inv;
    if SignStep(s) != s {
      SignedBatch(s);
      assert !SignStep(s).batches[s.phase.id].items[0].journaled;
    }
  }

  lemma PlansKeepRead(s: Sys, step: Step)
    requires ReadStates(s) && (step.Plan? || step.PlanOperator?)
    ensures ReadStates(Next(s, step))
  {
    hide PlanItems, Selected, Available, TotalOf, GrossSum;
    var s' := Next(s, step);
    assert s'.phase == s.phase && s.batches <= s'.batches;
  }

  lemma OthersKeepRead(s: Sys, step: Step)
    requires ReadStates(s)
    requires !(step.ApproveWrite? || step.ConfirmWrite? || step.Load? || step.Sign? || step.Plan? || step.PlanOperator?)
    ensures ReadStates(Next(s, step))
  {
    hide AllJournaled, PostItems, WalletFees.Charges, WalletTruth, Value, Deposits.PostAllocation, Deposits.Itemised;
  }

  lemma {:induction false} ReadStatesInEveryRun(steps: seq<Step>)
    requires SaneRun(steps)
    ensures ReadStates(Run(EMPTY, steps))
  {
    hide Next;
    if |steps| > 0 {
      var n := |steps| - 1;
      ReadStatesInEveryRun(steps[..n]);
      EveryRun(steps[..n]);
      ReadStatesKept(Run(EMPTY, steps[..n]), steps[n]);
    }
  }

  /** Exactly when the transition checks of an execution throw, over all runs: the check before signing never
      does, and the check before the final write does if and only if the row was read as AUTO_APPROVED. */
  lemma GuardsExactly(steps: seq<Step>)
    requires SaneRun(steps)
    ensures var s := Run(EMPTY, steps);
            && (s.phase.Charged? ==> CanTransition(s.phase.row.state, Signed))
            && (s.phase.Ready? || s.phase.Relaying? || s.phase.Relayed? ==>
                  (CanTransition(s.phase.row.state, Broadcast) <==> s.phase.row.state != AutoApproved))
  {
    hide Run;
    ReadStatesInEveryRun(steps);
  }
}
