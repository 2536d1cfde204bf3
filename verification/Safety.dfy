/** What every step of the money pipeline keeps, and what follows for every run. */
module Safety {
  import opened Common
  import opened Ledger
  import opened Payouts
  import opened Protocol
  import Deposits
  import Apportionment
  import WalletFees

  // ---------------------------------------------------------------- the invariant

  predicate Approved(b: Batch) {
    !b.thresholdHit || b.approver.Some?
  }

  ghost predicate BatchOk(b: Batch, chain: set<Tx>) {
    && WellOwned(b)
    && b.state != Planned && b.state != Cancelled
    && (b.state != ApprovalRequired ==> Approved(b))
    && (b.payload.None? ==> NoneJournaled(b) && b.state in {ApprovalRequired, AutoApproved, Failed})
    && (b.payload.Some? ==>
          && Approved(b) && SignedWell(b)
          && (b.txids == Ids(b.payload.value) || OnChain(b.payload.value, chain)))
    && (AllJournaled(b) || NoneJournaled(b))
    && (b.state == Broadcast || b.state == Confirmed ==> AllJournaled(b))
    && (AllJournaled(b) ==> b.payload.Some? && OnChain(b.payload.value, chain))
  }

  ghost predicate Rows(s: Sys) {
    forall i :: 0 <= i < |s.batches| ==> BatchOk(s.batches[i], s.chain)
  }

  /** The row read earlier differs from the row at most in state and approver. */
  predicate Same(row: Batch, b: Batch) {
    row.(state := b.state, approver := b.approver) == b
  }

  ghost predicate SigningOk(s: Sys, row: Batch, g: Signing) {
    && WalletFees.Charges(Candidates(row), g.deducted, g.fee, g.prepared)
    && (row.kind == OperatorBatch ==> g.deducted)
    && (row.kind == CustomerBatch && row.feePayer.Some? ==> (g.deducted <==> row.feePayer.value == CustomerPays))
    && (row.kind == CustomerBatch ==> g.fee * 10000 <= Value(Gross, row) * g.cap)
    && WalletTruth(s, g.prepared, g.fee, g.txs)
  }

  ghost predicate PhaseOk(s: Sys) {
    s.phase != Idle ==>
      && s.phase.id < |s.batches|
      && var b := s.batches[s.phase.id];
         && Approved(b) && b.state != ApprovalRequired
         && match s.phase
            case Loaded(_, row) => Same(row, b) && b.payload.None?
            case Charged(_, row, g) => Same(row, b) && b.payload.None? && SigningOk(s, row, g)
            case Persisted(_) => b.payload.Some?
            case Ready(_, row) => Same(row, b) && b.payload.Some?
            case Relaying(_, row, next) => Same(row, b) && b.payload.Some? && next <= |b.payload.value| &&
              OnChain(b.payload.value[..next], s.chain)
            case Relayed(_, row, _) => Same(row, b) && b.payload.Some? && OnChain(b.payload.value, s.chain)
            case Committed(_) => AllJournaled(b)
  }

  ghost predicate TicketsOk(s: Sys) {
    && (forall t :: t in s.tickets ==>
          && t.id < |s.batches|
          && (t.next == AutoApproved || t.next == Signed)
          && (t.next == Signed ==> s.batches[t.id].payload.Some?))
    && (forall id :: id in s.confirmed ==> id < |s.batches| && AllJournaled(s.batches[id]))
  }

  function AllocTotal(side: Side, allocations: seq<Allocation>): int {
    if |allocations| == 0 then 0
    else
      var a := allocations[|allocations| - 1];
      AllocTotal(side, allocations[..|allocations| - 1]) + Deposits.AllocationEffect(side, a.total, a.items)
  }

  /** The books, for every group of accounts at once: allocations plus journaled payout items. */
  ghost predicate Books(s: Sys) {
    forall side :: Balance(side, s.journal) == AllocTotal(side, s.allocations) + TotalOf(Posted(side), s.batches)
  }

  /** Journal transactions stem from allocations and from journaled batches. */
  ghost predicate ReferenceOk(s: Sys, r: Reference) {
    match r
    case DepositOf(k) => HasAllocation(s.allocations, k)
    case AllocationOf(k) => HasAllocation(s.allocations, k)
    case CustomerPayout(id, _) => id < |s.batches| && AllJournaled(s.batches[id])
    case OperatorPayout(id) => id < |s.batches| && AllJournaled(s.batches[id])
  }

  ghost predicate References(s: Sys) {
    && (forall r :: Referenced(r, s.journal) ==> ReferenceOk(s, r))
    && UniqueReferences(s.journal)
  }

  /** And every journaled item has its journal transaction. */
  ghost predicate Linked(s: Sys) {
    forall id, i :: 0 <= id < |s.batches| && 0 <= i < |s.batches[id].items| && s.batches[id].items[i].journaled ==>
      Referenced(ReferenceOf(id, s.batches[id].items[i].owner), s.journal)
  }

  /** No owner is overdrawn: what is planned and not journaled is covered by the balance. */
  ghost predicate Covered(s: Sys) {
    forall o :: TotalOf(Pending(o), s.batches) <= OwnerBalance(o, s.journal)
  }

  ghost predicate AllocationOk(s: Sys, a: Allocation) {
    && a.deposit in s.deposits && a.total == s.deposits[a.deposit].amount > 0
    && Sum(Deposits.CustomerParts(a.items)) + Sum(Deposits.OperatorParts(a.items)) == a.total
    && forall i :: 0 <= i < |a.items| ==> a.items[i].customerAtomic >= 0 && a.items[i].operatorAtomic >= 0
  }

  ghost predicate AllocationsOk(s: Sys) {
    && (forall k :: k in s.deposits ==> s.deposits[k].amount > 0)
    && (forall i :: 0 <= i < |s.allocations| ==> AllocationOk(s, s.allocations[i]))
    && (forall i, j :: 0 <= i < j < |s.allocations| ==> s.allocations[i].deposit != s.allocations[j].deposit)
    && (forall k :: k in s.deposits && s.deposits[k].status in {Deposits.Shared, Deposits.Reorged} ==>
          HasAllocation(s.allocations, k))
  }

  /** The chain carries nothing but stored payloads, and no two payload slots share an id. */
  ghost predicate ChainOk(s: Sys) {
    && (forall tx :: tx in s.chain ==> exists k :: 0 <= k < |s.batches| && InPayload(s.batches[k], tx))
    && DistinctSlots(s.batches)
  }

  ghost predicate DistinctSlots(batches: seq<Batch>) {
    forall k, l, x, y | 0 <= k < |batches| && 0 <= l < |batches| ::
      InPayload(batches[k], x) && InPayload(batches[l], y) && x.id == y.id ==> k == l && x == y
  }

  /** The automatic approvals of a day fit the limit in force at one of them, the latest. */
  ghost predicate AutoOk(s: Sys) {
    forall d :: TotalOf(Auto(d), s.batches) > 0 ==> exists k :: LimitHolds(s.batches, d, k)
  }

  predicate LimitHolds(batches: seq<Batch>, d: int, k: nat) {
    && k < |batches| && !batches[k].thresholdHit && batches[k].day == d
    && TotalOf(Auto(d), batches) <= batches[k].limit
  }

  ghost predicate Inv(s: Sys) {
    && Rows(s) && PhaseOk(s) && TicketsOk(s) && Books(s) && References(s) && Covered(s)
    && AllocationsOk(s) && ChainOk(s) && AutoOk(s) && Linked(s) && OneActive(s.destinations)
  }

  // ---------------------------------------------------------------- steps that leave the books alone

  /** A rewrite of a row that no sum over items can notice. */
  ghost predicate Neutral(b: Batch, b': Batch) {
    && b'.kind == b.kind && b'.feePayer == b.feePayer && b'.thresholdHit == b.thresholdHit
    && b'.day == b.day && b'.limit == b.limit
    && b.state != Cancelled && b'.state != Cancelled
    && |b'.items| == |b.items|
    && forall i :: 0 <= i < |b.items| ==>
         && b'.items[i].owner == b.items[i].owner && b'.items[i].gross == b.items[i].gross
         && b'.items[i].journaled == b.items[i].journaled
         && (b.items[i].journaled ==> b'.items[i] == b.items[i])
  }

  lemma NeutralValue(m: Measure, b: Batch, b': Batch)
    requires Neutral(b, b') && (m.Pending? || m.Posted? || m.Auto?)
    ensures Value(m, b') == Value(m, b)
  {
    hide PayoutEffect;
    ItemSumEq(m, b', b'.items, m, b, b.items);
  }

  /** `s'` differs from `s` in one neutral row and in executor, ticket or chain fields. */
  ghost predicate RowStep(s: Sys, s': Sys, id: nat) {
    && id < |s.batches| && |s'.batches| == |s.batches|
    && s'.batches == s.batches[id := s'.batches[id]] && Neutral(s.batches[id], s'.batches[id])
    && s'.journal == s.journal && s'.allocations == s.allocations && s'.deposits == s.deposits
    && s'.destinations == s.destinations
  }

  lemma RowStepKeepsBooks(s: Sys, s': Sys, id: nat)
    requires Inv(s) && RowStep(s, s', id)
    ensures Books(s') && References(s') && Covered(s') && AllocationsOk(s') && AutoOk(s') && Linked(s')
    ensures OneActive(s'.destinations)
  {
    hide Value, TotalOf, Balance, BatchOk, ItemValue, Neutral;
    forall m: Measure | m.Pending? || m.Posted? || m.Auto?
      ensures TotalOf(m, s'.batches) == TotalOf(m, s.batches)
    {
      TotalUpdate(m, s.batches, id, s'.batches[id]);
      NeutralValue(m, s.batches[id], s'.batches[id]);
    }
    RowStepKeepsReferences(s, s', id);
    RowStepKeepsAuto(s, s', id);
  }

  lemma RowStepKeepsReferences(s: Sys, s': Sys, id: nat)
    requires References(s) && Linked(s) && RowStep(s, s', id)
    ensures References(s') && Linked(s')
  {
    hide Referenced;
    forall r | Referenced(r, s'.journal) ensures ReferenceOk(s', r) {
      assert ReferenceOk(s, r);
    }
  }

  lemma RowStepKeepsAuto(s: Sys, s': Sys, id: nat)
    requires AutoOk(s) && RowStep(s, s', id)
    requires forall d :: TotalOf(Auto(d), s'.batches) == TotalOf(Auto(d), s.batches)
    ensures AutoOk(s')
  {
    hide TotalOf;
    forall d | TotalOf(Auto(d), s'.batches) > 0 ensures exists k :: LimitHolds(s'.batches, d, k) {
      var k :| LimitHolds(s.batches, d, k);
      assert LimitHolds(s'.batches, d, k);
    }
  }

  /** The same, when neither payloads nor the chain change. */
  lemma RowStepKeepsRows(s: Sys, s': Sys, id: nat)
    requires Inv(s) && RowStep(s, s', id) && s'.chain == s.chain
    requires s'.batches[id].payload == s.batches[id].payload && BatchOk(s'.batches[id], s.chain)
    ensures Rows(s') && ChainOk(s')
    ensures Books(s') && References(s') && Covered(s') && AllocationsOk(s') && AutoOk(s') && Linked(s')
    ensures OneActive(s'.destinations)
  {
    hide BatchOk, Books, References, Covered, AutoOk, Linked, Neutral;
    RowStepKeepsBooks(s, s', id);
    forall i | 0 <= i < |s.batches| ensures s'.batches[i].payload == s.batches[i].payload {
    }
    forall tx | tx in s.chain ensures exists k :: 0 <= k < |s'.batches| && InPayload(s'.batches[k], tx) {
      var k :| 0 <= k < |s.batches| && InPayload(s.batches[k], tx);
      assert InPayload(s'.batches[k], tx);
    }
  }

  /** Two rows that agree in everything that signing wrote. */
  ghost predicate SameMoney(b: Batch, b': Batch) {
    && b'.kind == b.kind && b'.feePayer == b.feePayer && b'.payload == b.payload && b'.totalFee == b.totalFee
    && b'.deducted == b.deducted && b'.feeCap == b.feeCap && |b'.items| == |b.items|
    && forall i :: 0 <= i < |b.items| ==> b'.items[i].(journaled := b.items[i].journaled) == b.items[i]
  }

  lemma RestatedIsSignedWell(b: Batch, b': Batch)
    requires SameMoney(b, b')
    ensures SignedWell(b) ==> SignedWell(b')
    ensures WellOwned(b) ==> WellOwned(b')
  {
    hide WalletFees.Charges;
    assert Candidates(b') == Candidates(b) && StoredCharges(b') == StoredCharges(b);
    ItemSumEq(Gross, b', b'.items, Gross, b, b.items);
  }

  lemma ApproveWriteKeeps(s: Sys, t: Ticket)
    requires Inv(s)
    ensures Inv(ApproveWriteStep(s, t))
  {
    hide Books, References, Covered, AutoOk, Linked, SignedWell, AllocationsOk, ChainOk, SigningOk, WellOwned;
    var s' := ApproveWriteStep(s, t);
    if s' != s {
      assert BatchOk(s.batches[t.id], s.chain);
      RestatedIsSignedWell(s.batches[t.id], s'.batches[t.id]);
      RowStepKeepsRows(s, s', t.id);
      PhaseKept(s, s');
    }
  }

  lemma ConfirmWriteKeeps(s: Sys, id: nat)
    requires Inv(s)
    ensures Inv(ConfirmWriteStep(s, id))
  {
    hide Books, References, Covered, AutoOk, Linked, SignedWell, AllocationsOk, ChainOk, SigningOk, WellOwned;
    var s' := ConfirmWriteStep(s, id);
    if s' != s {
      assert BatchOk(s.batches[id], s.chain);
      RestatedIsSignedWell(s.batches[id], s'.batches[id]);
      RowStepKeepsRows(s, s', id);
      PhaseKept(s, s');
    }
  }

  lemma ThrowKeeps(s: Sys)
    requires Inv(s)
    ensures Inv(ThrowStep(s))
  {
    hide Books, References, Covered, AutoOk, Linked, SignedWell, AllocationsOk, ChainOk, SigningOk, WellOwned;
    var s' := ThrowStep(s);
    if s' != s {
      assert BatchOk(s.batches[s.phase.id], s.chain);
      RestatedIsSignedWell(s.batches[s.phase.id], s'.batches[s.phase.id]);
      RowStepKeepsRows(s, s', s.phase.id);
    }
  }

  /** Changes of state and approver do not disturb the executor. */
  lemma PhaseKept(s: Sys, s': Sys)
    requires PhaseOk(s) && s'.phase == s.phase && s'.chain == s.chain && |s'.batches| == |s.batches|
    requires forall i :: 0 <= i < |s.batches| ==> Same(s.batches[i], s'.batches[i])
    requires forall i :: 0 <= i < |s.batches| ==>
      s'.batches[i] == s.batches[i] || (Approved(s'.batches[i]) && s'.batches[i].state != ApprovalRequired)
    ensures PhaseOk(s')
  {
    hide WalletFees.Charges;
    if s.phase.Charged? {
      assert WalletTruth(s', s.phase.signing.prepared, s.phase.signing.fee, s.phase.signing.txs) by {
        forall k | 0 <= k < |s.batches| ensures s'.batches[k].payload == s.batches[k].payload {
          assert Same(s.batches[k], s'.batches[k]);
        }
      }
    }
  }

  /** Steps that change only the phase, tickets or confirmations. */
  lemma QuietStepKeeps(s: Sys, s': Sys)
    requires Inv(s)
    requires s' == s.(phase := s'.phase, tickets := s'.tickets, confirmed := s'.confirmed)
    requires PhaseOk(s') && TicketsOk(s')
    ensures Inv(s')
  {
    hide BatchOk, TotalOf, Balance, PhaseOk, TicketsOk, LimitHolds, AllocationOk, AllocTotal, Referenced;
    assert References(s') by {
      forall r | Referenced(r, s'.journal) ensures ReferenceOk(s', r) {
        assert ReferenceOk(s, r);
      }
    }
    forall i | 0 <= i < |s'.allocations| ensures AllocationOk(s', s'.allocations[i]) {
      AllocationKept(s, s', s.allocations[i]);
    }
  }

  lemma AllocationKept(s: Sys, s': Sys, a: Allocation)
    requires AllocationOk(s, a)
    requires forall k :: k in s.deposits ==> k in s'.deposits && s'.deposits[k].amount == s.deposits[k].amount
    ensures AllocationOk(s', a)
  {
  }

  lemma ExecutorReadsKeep(s: Sys, step: Step)
    requires Inv(s)
    requires step.Load? || step.Refresh? || step.StartRelay? || step.EndRelay? || step.Return? || step.Crash?
    ensures Inv(Next(s, step))
  {
    hide Books, References, Covered, AutoOk, Linked, AllocationsOk, ChainOk, PhaseOk, BatchOk, TicketsOk;
    ExecutorPhase(s, step);
    OnlyPhase(s, step);
    hide Next, Inv;
    QuietStepKeeps(s, Next(s, step));
  }

  lemma OnlyPhase(s: Sys, step: Step)
    requires TicketsOk(s)
    requires step.Load? || step.Refresh? || step.StartRelay? || step.EndRelay? || step.Return? || step.Crash?
    ensures var s' := Next(s, step);
            s' == s.(phase := s'.phase, tickets := s'.tickets, confirmed := s'.confirmed) && TicketsOk(s')
  {
    hide AllJournaled;
    assert Next(s, step) == s.(phase := Next(s, step).phase);
  }

  lemma ExecutorPhase(s: Sys, step: Step)
    requires Rows(s) && PhaseOk(s)
    requires step.Load? || step.Refresh? || step.StartRelay? || step.EndRelay? || step.Return? || step.Crash?
    ensures PhaseOk(Next(s, step))
  {
    hide Rows, PhaseOk, Next;
    if step.Load? {
      LoadedPhase(s, step.id);
    } else if step.EndRelay? {
      RelayedPhase(s, step.ids);
    } else {
      QuietPhase(s, step);
    }
  }

  lemma LoadedPhase(s: Sys, id: nat)
    requires Rows(s) && PhaseOk(s)
    ensures PhaseOk(Next(s, Load(id)))
  {
    hide SigningOk, SignedWell, WellOwned, OnChain, NoneJournaled, AllJournaled;
    if id < |s.batches| {
      assert BatchOk(s.batches[id], s.chain);
    }
  }

  lemma RelayedPhase(s: Sys, ids: seq<string>)
    requires PhaseOk(s)
    ensures PhaseOk(Next(s, EndRelay(ids)))
  {
    hide SigningOk, AllJournaled;
    if s.phase.Relaying? {
      assert s.batches[s.phase.id].payload.value[..|s.batches[s.phase.id].payload.value|] ==
        s.batches[s.phase.id].payload.value;
    }
  }

  lemma QuietPhase(s: Sys, step: Step)
    requires PhaseOk(s) && (step.Refresh? || step.StartRelay? || step.Return? || step.Crash?)
    ensures PhaseOk(Next(s, step))
  {
    hide SigningOk, AllJournaled;
    if step.StartRelay? && s.phase.Ready? {
      assert s.batches[s.phase.id].payload.value[..0] == [];
    }
  }

  /** The known answer is about this batch's own transactions, or about a payload already relayed. */
  lemma FindKnownKeeps(s: Sys)
    requires Inv(s)
    ensures Inv(FindKnownStep(s))
  {
    hide Books, References, Covered, AutoOk, Linked, AllocationsOk, SigningOk, BatchOk, OnChain;
    var s' := FindKnownStep(s);
    if s' != s {
      KnownIsOnChain(s, s.phase.id);
      QuietStepKeeps(s, s');
    }
  }

  lemma KnownIsOnChain(s: Sys, id: nat)
    requires ChainOk(s) && id < |s.batches| && BatchOk(s.batches[id], s.chain) && s.batches[id].payload.Some?
    requires forall i :: 0 <= i < |s.batches[id].txids| ==> HasId(s.chain, s.batches[id].txids[i])
    ensures OnChain(s.batches[id].payload.value, s.chain)
  {
    hide SignedWell, WellOwned, AllJournaled, NoneJournaled, ChainOk;
    var b := s.batches[id];
    if b.txids == Ids(b.payload.value) {
      forall i | 0 <= i < |b.payload.value| ensures b.payload.value[i] in s.chain {
        assert b.txids[i] == b.payload.value[i].id;
        OwnTransaction(s, id, i);
      }
    }
  }

  /** An id on the chain that a stored payload uses belongs to that payload's transaction. */
  lemma OwnTransaction(s: Sys, id: nat, i: nat)
    requires ChainOk(s) && id < |s.batches| && s.batches[id].payload.Some? && i < |s.batches[id].payload.value|
    requires HasId(s.chain, s.batches[id].payload.value[i].id)
    ensures s.batches[id].payload.value[i] in s.chain
  {
    hide DistinctSlots;
    var own := s.batches[id].payload.value[i];
    var tx :| tx in s.chain && tx.id == own.id;
    var k :| 0 <= k < |s.batches| && InPayload(s.batches[k], tx);
    SlotsOfOneId(s.batches, k, id, tx, own);
  }

  lemma SlotsOfOneId(batches: seq<Batch>, k: nat, l: nat, x: Tx, y: Tx)
    requires DistinctSlots(batches) && k < |batches| && l < |batches|
    requires InPayload(batches[k], x) && InPayload(batches[l], y) && x.id == y.id
    ensures x == y
  {
    hide InPayload;
  }

  lemma TicketReadsKeep(s: Sys, step: Step)
    requires Inv(s) && (step.ApproveRead? || step.ConfirmRead?)
    ensures Inv(Next(s, step))
  {
    hide Books, References, Covered, AutoOk, Linked, AllocationsOk, ChainOk, PhaseOk, BatchOk, TicketsOk;
    TicketRead(s, step);
    hide Next, Inv;
    PhaseKept(s, Next(s, step));
    QuietStepKeeps(s, Next(s, step));
  }

  lemma TicketRead(s: Sys, step: Step)
    requires Rows(s) && TicketsOk(s) && (step.ApproveRead? || step.ConfirmRead?)
    ensures var s' := Next(s, step); s' == s.(tickets := s'.tickets, confirmed := s'.confirmed) && TicketsOk(s')
  {
    hide SignedWell, WellOwned, NoneJournaled, AllJournaled;
    if step.id < |s.batches| {
      assert BatchOk(s.batches[step.id], s.chain);
    }
  }

  lemma PrepareKeeps(s: Sys, payer: FeePayer, bps: int, prepared: seq<WalletFees.PreparedItem>, fee: int, txs: seq<Tx>)
    requires Inv(s)
    ensures Inv(PrepareStep(s, payer, bps, prepared, fee, txs))
  {
    hide Books, References, Covered, AutoOk, Linked, SignedWell, AllocationsOk, ChainOk, WellOwned, WalletFees.Charges,
      BatchOk, Value;
    var s' := PrepareStep(s, payer, bps, prepared, fee, txs);
    if s' != s {
      assert WalletTruth(s', prepared, fee, txs);
      QuietStepKeeps(s, s');
    }
  }

  // ---------------------------------------------------------------- signing and relaying

  lemma SignKeeps(s: Sys)
    requires Inv(s)
    ensures Inv(SignStep(s))
  {
    hide Books, References, Covered, AutoOk, Linked, AllocationsOk, ChainOk, SignedWell, WellOwned, SigningOk, BatchOk;
    var s' := SignStep(s);
    if s' != s {
      var id := s.phase.id;
      SignedBatch(s);
      RowStepKeepsBooks(s, s', id);
      SignedChain(s);
      forall i | 0 <= i < |s'.batches| ensures BatchOk(s'.batches[i], s'.chain) {
      }
      assert TicketsOk(s') by {
        assert NoneJournaled(s.batches[id]) && |s.batches[id].items| > 0;
      }
    }
  }

  /** The row that signing writes is a well-signed row, and no sum over items notices it. */
  lemma SignedBatch(s: Sys)
    requires Inv(s) && SignStep(s) != s
    ensures var id := s.phase.id; var b, b' := s.batches[id], SignStep(s).batches[id];
            && BatchOk(b', s.chain) && Neutral(b, b') && NoneJournaled(b) && |b.items| > 0
            && b'.payload == Some(s.phase.signing.txs) && b.payload.None?
            && Approved(b') && b'.state == Signed
            && WalletTruth(s, s.phase.signing.prepared, s.phase.signing.fee, s.phase.signing.txs)
  {
    hide Books, References, Covered, AutoOk, Linked, AllocationsOk, ChainOk, SignedWell, WellOwned, WalletFees.Charges,
      Value;
    var id, row, g := s.phase.id, s.phase.row, s.phase.signing;
    var b, b' := s.batches[id], SignStep(s).batches[id];
    assert BatchOk(b, s.chain) && SigningOk(s, row, g) && Same(row, b);
    SignedWellFrom(row, g, b, b', s);
    HasItems(b);
    assert !b'.items[0].journaled;
  }

  lemma HasItems(b: Batch)
    requires WellOwned(b)
    ensures |b.items| > 0
  {
  }

  lemma SignedWellFrom(row: Batch, g: Signing, b: Batch, b': Batch, s: Sys)
    requires Same(row, b) && SigningOk(s, row, g) && WellOwned(b) && |g.prepared| == |b.items|
    requires b' ==
      b.(items := ChargedItems(b.items, g.prepared), state := Signed, payload := Some(g.txs), txids := Ids(g.txs),
                      totalFee := g.fee, deducted := g.deducted, feeCap := g.cap)
    ensures SignedWell(b') && WellOwned(b')
  {
    assert Candidates(row) == Candidates(b') && StoredCharges(b') == g.prepared by {
      hide Apportionment.IsLargestRemainder, Apportionment.Quotas, Value;
      forall i | 0 <= i < |b.items| ensures StoredCharges(b')[i] == g.prepared[i] {
        assert g.prepared[i].candidate == Candidates(row)[i];
      }
    }
    assert Value(Gross, b') == Value(Gross, row) by {
      ItemSumEq(Gross, b', b'.items, Gross, row, row.items);
    }
    hide WalletFees.Charges, Value;
  }

  lemma SignedChain(s: Sys)
    requires ChainOk(s) && SignStep(s) != s && s.batches[s.phase.id].payload.None?
    requires WalletTruth(s, s.phase.signing.prepared, s.phase.signing.fee, s.phase.signing.txs)
    ensures ChainOk(SignStep(s))
  {
    hide DistinctSlots;
    var s', id, txs := SignStep(s), s.phase.id, s.phase.signing.txs;
    forall tx | tx in s.chain ensures exists k :: 0 <= k < |s'.batches| && InPayload(s'.batches[k], tx) {
      var k :| 0 <= k < |s.batches| && InPayload(s.batches[k], tx);
      assert InPayload(s'.batches[k], tx);
    }
    NewSlots(s.batches, id, s'.batches[id], txs);
  }

  lemma NewSlots(batches: seq<Batch>, id: nat, b: Batch, txs: seq<Tx>)
    requires DistinctSlots(batches) && id < |batches| && b.payload == Some(txs)
    requires forall i, j :: 0 <= i < j < |txs| ==> txs[i].id != txs[j].id
    requires forall tx, m, other | tx in txs && 0 <= m < |batches| :: InPayload(batches[m], other) ==> tx.id != other.id
    ensures DistinctSlots(batches[id := b])
  {
    var after := batches[id := b];
    forall k, l, x, y | 0 <= k < |after| && 0 <= l < |after| && InPayload(after[k], x) && InPayload(after[l], y) &&
      x.id == y.id
      ensures k == l && x == y
    {
      SlotPair(batches, id, b, txs, k, l, x, y);
    }
  }

  lemma SlotPair(batches: seq<Batch>, id: nat, b: Batch, txs: seq<Tx>, k: nat, l: nat, x: Tx, y: Tx)
    requires DistinctSlots(batches) && id < |batches| && k < |batches| && l < |batches|
    requires b.payload == Some(txs) && (forall i, j :: 0 <= i < j < |txs| ==> txs[i].id != txs[j].id)
    requires forall tx, m, other | tx in txs && 0 <= m < |batches| :: InPayload(batches[m], other) ==> tx.id != other.id
    requires InPayload(batches[id := b][k], x) && InPayload(batches[id := b][l], y) && x.id == y.id
    ensures k == l && x == y
  {
    if k == id && l == id {
      SameSlot(txs, x, y);
    } else {
      hide InPayload;
    }
  }

  lemma SameSlot(txs: seq<Tx>, x: Tx, y: Tx)
    requires forall i, j :: 0 <= i < j < |txs| ==> txs[i].id != txs[j].id
    requires x in txs && y in txs && x.id == y.id
    ensures x == y
  {
    var i :| 0 <= i < |txs| && txs[i] == x;
    var j :| 0 <= j < |txs| && txs[j] == y;
  }

  lemma RelayNextKeeps(s: Sys)
    requires Inv(s)
    ensures Inv(RelayNextStep(s))
  {
    hide Books, References, Covered, AutoOk, Linked, AllocationsOk, SignedWell, WellOwned;
    var s' := RelayNextStep(s);
    if s' != s {
      var id := s.phase.id;
      var b := s.batches[id];
      var tx := b.payload.value[s.phase.next];
      assert InPayload(b, tx);
      RowStepKeepsBooks(s, s', id) by {
        assert BatchOk(b, s.chain);
      }
      forall i | 0 <= i < |s.batches| ensures BatchOk(s'.batches[i], s'.chain) {
        assert BatchOk(s.batches[i], s.chain);
      }
      assert b.payload.value[..s.phase.next + 1] == b.payload.value[..s.phase.next] + [tx];
    }
  }

  // ---------------------------------------------------------------- journaling

  lemma CommitKeeps(s: Sys)
    requires Inv(s)
    ensures Inv(CommitStep(s))
  {
    hide Books, References, Covered, AutoOk, Linked, AllocationsOk, ChainOk, SignedWell, WellOwned, PostItems;
    var s' := CommitStep(s);
    if s' != s {
      var id := s.phase.id;
      assert BatchOk(s.batches[id], s.chain);
      RestatedIsSignedWell(s.batches[id], s'.batches[id]);
      CommitBooks(s);
      CommitCovered(s);
      CommitReferences(s);
      CommitRest(s);
    }
  }

  lemma CommitRest(s: Sys)
    requires Inv(s) && CommitStep(s) != s
    requires BatchOk(CommitStep(s).batches[s.phase.id], s.chain)
    ensures var s' := CommitStep(s); Rows(s') && AutoOk(s') && AllocationsOk(s') && ChainOk(s')
  {
    hide BatchOk, PostItems, Books, References, Covered, Linked, AutoOk, ChainOk;
    CommitAuto(s);
    CommitChain(s);
    var s' := CommitStep(s);
    forall i | 0 <= i < |s'.allocations| ensures AllocationOk(s', s'.allocations[i]) {
      AllocationKept(s, s', s.allocations[i]);
    }
  }

  lemma CommitAuto(s: Sys)
    requires Rows(s) && PhaseOk(s) && AutoOk(s) && CommitStep(s) != s
    ensures AutoOk(CommitStep(s))
  {
    hide BatchOk, PostItems, Value, TotalOf, ItemSum, OnChain;
    var s', id := CommitStep(s), s.phase.id;
    assert BatchOk(s.batches[id], s.chain);
    NotCancelled(s.batches[id], s.chain);
    forall d ensures TotalOf(Auto(d), s'.batches) == TotalOf(Auto(d), s.batches) {
      TotalUpdate(Auto(d), s.batches, id, s'.batches[id]);
      AutoUnchanged(d, s.batches[id], s'.batches[id]);
    }
    forall d | TotalOf(Auto(d), s'.batches) > 0 ensures exists k :: LimitHolds(s'.batches, d, k) {
      var k :| LimitHolds(s.batches, d, k);
      assert LimitHolds(s'.batches, d, k);
    }
  }

  lemma CommitChain(s: Sys)
    requires ChainOk(s) && CommitStep(s) != s
    ensures ChainOk(CommitStep(s))
  {
    hide PostItems;
    var s' := CommitStep(s);
    forall i | 0 <= i < |s.batches| ensures s'.batches[i].payload == s.batches[i].payload {
    }
    forall tx | tx in s.chain ensures exists k :: 0 <= k < |s'.batches| && InPayload(s'.batches[k], tx) {
      var k :| 0 <= k < |s.batches| && InPayload(s.batches[k], tx);
      assert InPayload(s'.batches[k], tx);
    }
  }

  lemma NotCancelled(b: Batch, chain: set<Tx>)
    requires BatchOk(b, chain)
    ensures b.state != Cancelled
  {
  }

  lemma AutoUnchanged(d: int, b: Batch, b': Batch)
    requires |b'.items| == |b.items| && b'.thresholdHit == b.thresholdHit && b'.day == b.day
    requires b.state != Cancelled && b'.state != Cancelled
    requires forall i :: 0 <= i < |b.items| ==> b'.items[i].gross == b.items[i].gross
    ensures Value(Auto(d), b') == Value(Auto(d), b)
  {
    ItemSumEq(Auto(d), b', b'.items, Auto(d), b, b.items);
  }

  /** The journal moves by what the row's measure of posted effects moves. */
  lemma CommitBalance(s: Sys, side: Side)
    requires PhaseOk(s) && CommitStep(s) != s
    ensures var s', id := CommitStep(s), s.phase.id;
            Balance(side, s'.journal) - Balance(side, s.journal)
            == Value(Posted(side), s'.batches[id]) - Value(Posted(side), s.batches[id])
  {
    hide Balance, PayoutEffect, PostItems;
    var s', id, row := CommitStep(s), s.phase.id, s.phase.row;
    var b, b' := s.batches[id], s'.batches[id];
    var marked := row.(items := MarkJournaled(row.items));
    PostItemsBalance(side, s.journal, id, row, marked, |row.items|);
    assert row.items[..|row.items|] == row.items == b.items;
    assert marked.items[..|marked.items|] == marked.items == b'.items;
    ItemSumEq(Posted(side), marked, marked.items, Posted(side), b', b'.items);
    ItemSumEq(Posted(side), row, row.items, Posted(side), b, b.items);
  }

  lemma CommitBooks(s: Sys)
    requires Books(s) && PhaseOk(s) && CommitStep(s) != s
    ensures Books(CommitStep(s))
  {
    hide Balance, TotalOf, Value, AllocTotal, PostItems;
    var s', id := CommitStep(s), s.phase.id;
    forall side
      ensures Balance(side, s'.journal) == AllocTotal(side, s'.allocations) + TotalOf(Posted(side), s'.batches) {
      CommitBalance(s, side);
      TotalUpdate(Posted(side), s.batches, id, s'.batches[id]);
    }
  }

  lemma CommitCovered(s: Sys)
    requires Covered(s) && PhaseOk(s) && CommitStep(s) != s
    ensures Covered(CommitStep(s))
  {
    hide Balance, TotalOf, Value, PostItems;
    var s', id := CommitStep(s), s.phase.id;
    forall o ensures TotalOf(Pending(o), s'.batches) <= OwnerBalance(o, s'.journal) {
      CommitBalance(s, One(AccountOf(o)));
      TotalUpdate(Pending(o), s.batches, id, s'.batches[id]);
      PostedMirrorsPending(o, s.batches[id], s'.batches[id], s.batches[id].items);
      WholeValue(s.batches[id], s'.batches[id], o);
    }
  }

  lemma WholeValue(b: Batch, b': Batch, o: Owner)
    requires b'.items == MarkJournaled(b.items)
    ensures Value(Pending(o), b) == ItemSum(Pending(o), b, b.items)
    ensures Value(Pending(o), b') == ItemSum(Pending(o), b', MarkJournaled(b.items))
    ensures Value(Posted(One(AccountOf(o))), b) == ItemSum(Posted(One(AccountOf(o))), b, b.items)
    ensures Value(Posted(One(AccountOf(o))), b') == ItemSum(Posted(One(AccountOf(o))), b', MarkJournaled(b.items))
  {
  }

  /** Journaling an owner's items lowers its balance by exactly what it releases from pending. */
  lemma {:induction false} PostedMirrorsPending(o: Owner, b: Batch, b': Batch, items: seq<Item>)
    requires b'.kind == b.kind && b'.feePayer == b.feePayer
    ensures ItemSum(Posted(One(AccountOf(o))), b', MarkJournaled(items)) - ItemSum(Pending(o), b', MarkJournaled(items))
         == ItemSum(Posted(One(AccountOf(o))), b, items) - ItemSum(Pending(o), b, items)
  {
    if |items| > 0 {
      var n := |items| - 1;
      PostedMirrorsPending(o, b, b', items[..n]);
      assert MarkJournaled(items)[..n] == MarkJournaled(items[..n]);
    }
  }

  lemma CommitReferences(s: Sys)
    requires References(s) && Linked(s) && PhaseOk(s) && CommitStep(s) != s
    ensures References(CommitStep(s)) && Linked(CommitStep(s))
  {
    hide PostItems, Referenced;
    var s', id, row := CommitStep(s), s.phase.id, s.phase.row;
    PostItemsUnique(s.journal, id, row, |row.items|);
    forall k, i | 0 <= k < |s'.batches| && 0 <= i < |s'.batches[k].items| && s'.batches[k].items[i].journaled
      ensures Referenced(ReferenceOf(k, s'.batches[k].items[i].owner), s'.journal)
    {
      PostItemsReferences(s.journal, id, row, |row.items|, ReferenceOf(k, s'.batches[k].items[i].owner));
      assert s'.batches[k].items[i].owner == s.batches[k].items[i].owner;
    }
    forall r | Referenced(r, s'.journal) ensures ReferenceOk(s', r) {
      PostItemsReferences(s.journal, id, row, |row.items|, r);
      assert AllJournaled(s'.batches[id]);
      if Referenced(r, s.journal) {
        assert ReferenceOk(s, r);
      }
    }
  }

  /** Once everything is relayed and the row's state allows it, the final transaction is refused
      only for an item of no value at all; otherwise the books follow the chain. */
  lemma CommitIsRefusedOnlyIfEmpty(s: Sys)
    requires Inv(s) && s.phase.Relayed? && CanTransition(s.phase.row.state, Broadcast)
    ensures CommitStep(s).phase == Committed(s.phase.id)
        <==> forall i :: 0 <= i < |s.phase.row.items| && !s.phase.row.items[i].journaled ==>
          Postable(s.phase.row.items[i])
  {
    hide Books, Covered, AutoOk, AllocationsOk, ChainOk, PostItems, SignedWell, Postable;
    var id, row := s.phase.id, s.phase.row;
    assert BatchOk(s.batches[id], s.chain);
    forall i | 0 <= i < |row.items| && !row.items[i].journaled
      ensures !Referenced(ReferenceOf(id, row.items[i].owner), s.journal)
    {
      assert Referenced(ReferenceOf(id, row.items[i].owner), s.journal) ==>
        ReferenceOk(s, ReferenceOf(id, row.items[i].owner));
    }
    PostItemsSucceeds(s.journal, id, row, |row.items|);
  }

  lemma RelayOne(s: Sys, id: nat, b: Batch, k: nat)
    requires s.phase == Relaying(id, b, k) && b.payload.Some? && k < |b.payload.value|
    ensures Next(s, RelayNext) == s.(chain := s.chain + {b.payload.value[k]}, phase := Relaying(id, b, k + 1))
  {
  }

  lemma RelayEnds(s: Sys, id: nat, b: Batch, ids: seq<string>)
    requires b.payload.Some?
    ensures s.phase == Ready(id, b) ==> Next(s, StartRelay) == s.(phase := Relaying(id, b, 0))
    ensures s.phase == Relaying(id, b, |b.payload.value|) ==> Next(s, EndRelay(ids)) == s.(phase := Relayed(id, b, ids))
  {
  }

  lemma PostedUnlessEmpty(s: Sys, row: Batch)
    requires Inv(s) && s.phase.Relayed? && s.phase.id < |s.batches| && s.phase.row == s.batches[s.phase.id] == row
    requires CanTransition(row.state, Broadcast)
    ensures PostItems(s.journal, s.phase.id, row, |row.items|).Some?
        <==> forall i :: 0 <= i < |row.items| && !row.items[i].journaled ==> Postable(row.items[i])
  {
    hide Inv, Postable, PostItems;
    CommitIsRefusedOnlyIfEmpty(s);
  }

  lemma CommitEffect(s: Sys, j: seq<Journal>)
    requires s.phase.Relayed? && s.phase.id < |s.batches| && s.phase.row == s.batches[s.phase.id]
    requires CanTransition(s.phase.row.state, Broadcast)
    requires PostItems(s.journal, s.phase.id, s.phase.row, |s.phase.row.items|) == Some(j)
    ensures var b := s.batches[s.phase.id];
            var s' := s.(journal := j, phase := Committed(s.phase.id),
              batches := s.batches[s.phase.id := b.(items := MarkJournaled(b.items), state := Broadcast,
                txids := s.phase.ids)]);
            Next(s, Commit) == s' && Next(s', Return) == s'.(phase := Idle)
  {
    hide PostItems;
  }

  // ---------------------------------------------------------------- planning

  /** A fresh batch: nothing journaled, nothing signed. */
  ghost predicate FreshBatch(b: Batch) {
    && WellOwned(b) && b.payload.None? && NoneJournaled(b) && b.approver.None?
    && b.state == (if b.thresholdHit then ApprovalRequired else AutoApproved)
  }

  lemma AppendKeeps(s: Sys, s': Sys, b: Batch)
    requires Inv(s) && FreshBatch(b) && s' == s.(batches := s.batches + [b])
    requires forall o :: Value(Pending(o), b) <= OwnerBalance(o, s.journal) - TotalOf(Pending(o), s.batches)
    requires !b.thresholdHit ==> TotalOf(Auto(b.day), s.batches) + Value(Gross, b) <= b.limit
    ensures Inv(s')
  {
    hide Books, References, Covered, AutoOk, Linked, AllocationsOk, ChainOk, PhaseOk, TicketsOk, BatchOk, Value,
      TotalOf, Balance;
    AppendBooks(s, s', b);
    AppendAuto(s, s', b);
    AppendRest(s, s', b);
  }

  lemma AppendBooks(s: Sys, s': Sys, b: Batch)
    requires Books(s) && Covered(s) && FreshBatch(b) && s' == s.(batches := s.batches + [b])
    requires forall o :: Value(Pending(o), b) <= OwnerBalance(o, s.journal) - TotalOf(Pending(o), s.batches)
    ensures Books(s') && Covered(s')
  {
    hide TotalOf, Balance, AllocTotal, Value, FreshBatch;
    forall side
      ensures Balance(side, s'.journal) == AllocTotal(side, s'.allocations) + TotalOf(Posted(side), s'.batches) {
      TotalAppend(Posted(side), s.batches, b);
      NothingPosted(side, b, b.items) by {
        NoneJournaledWhenFresh(b);
      }
      ValueIsItemSum(Posted(side), b);
    }
    forall o ensures TotalOf(Pending(o), s'.batches) <= OwnerBalance(o, s'.journal) {
      TotalAppend(Pending(o), s.batches, b);
    }
  }

  lemma NoneJournaledWhenFresh(b: Batch)
    requires FreshBatch(b)
    ensures NoneJournaled(b)
  {
  }

  lemma ValueIsItemSum(m: Measure, b: Batch)
    ensures Value(m, b) == ItemSum(m, b, b.items)
  {
  }

  lemma {:induction false} NothingPosted(side: Side, b: Batch, items: seq<Item>)
    requires forall i :: 0 <= i < |items| ==> !items[i].journaled
    ensures ItemSum(Posted(side), b, items) == 0
  {
    if |items| > 0 {
      NothingPosted(side, b, items[..|items| - 1]);
    }
  }

  lemma AppendAuto(s: Sys, s': Sys, b: Batch)
    requires AutoOk(s) && FreshBatch(b) && s' == s.(batches := s.batches + [b])
    requires !b.thresholdHit ==> TotalOf(Auto(b.day), s.batches) + Value(Gross, b) <= b.limit
    ensures AutoOk(s')
  {
    hide TotalOf;
    var n := |s.batches|;
    forall d | TotalOf(Auto(d), s'.batches) > 0 ensures exists k :: LimitHolds(s'.batches, d, k) {
      TotalAppend(Auto(d), s.batches, b);
      AutoValue(d, b, b.items);
      if !b.thresholdHit && b.day == d {
        assert LimitHolds(s'.batches, d, n);
      } else {
        var k :| LimitHolds(s.batches, d, k);
        assert LimitHolds(s'.batches, d, k);
      }
    }
  }

  lemma {:induction false} AutoValue(d: int, b: Batch, items: seq<Item>)
    requires b.state != Cancelled
    ensures ItemSum(Auto(d), b, items) == if !b.thresholdHit && b.day == d then ItemSum(Gross, b, items) else 0
  {
    if |items| > 0 {
      AutoValue(d, b, items[..|items| - 1]);
    }
  }

  lemma AppendRest(s: Sys, s': Sys, b: Batch)
    requires Inv(s) && FreshBatch(b) && s' == s.(batches := s.batches + [b])
    ensures Rows(s') && PhaseOk(s') && TicketsOk(s') && References(s') && Linked(s') && AllocationsOk(s') && ChainOk(s')
  {
    hide Books, Covered, AutoOk, BatchOk, WalletFees.Charges, Referenced, WellOwned, ChainOk, PhaseOk;
    FreshIsOk(b, s.chain);
    AppendChain(s, s', b);
    AppendPhase(s, s', b);
    forall r | Referenced(r, s'.journal) ensures ReferenceOk(s', r) {
      assert ReferenceOk(s, r);
    }
    forall i | 0 <= i < |s'.allocations| ensures AllocationOk(s', s'.allocations[i]) {
      AllocationKept(s, s', s.allocations[i]);
    }
  }

  lemma AppendPhase(s: Sys, s': Sys, b: Batch)
    requires PhaseOk(s) && b.payload.None? && s' == s.(batches := s.batches + [b])
    ensures PhaseOk(s')
  {
    hide WalletFees.Charges;
  }

  lemma AppendChain(s: Sys, s': Sys, b: Batch)
    requires ChainOk(s) && b.payload.None? && s' == s.(batches := s.batches + [b])
    ensures ChainOk(s')
  {
    UnsignedSlots(s.batches, b);
    hide DistinctSlots;
    forall tx | tx in s.chain ensures exists k :: 0 <= k < |s'.batches| && InPayload(s'.batches[k], tx) {
      var k :| 0 <= k < |s.batches| && InPayload(s.batches[k], tx);
      assert InPayload(s'.batches[k], tx);
    }
  }

  lemma UnsignedSlots(batches: seq<Batch>, b: Batch)
    requires DistinctSlots(batches) && b.payload.None?
    ensures DistinctSlots(batches + [b])
  {
    var after := batches + [b];
    forall k, l, x, y | 0 <= k < |after| && 0 <= l < |after| &&
      InPayload(after[k], x) && InPayload(after[l], y) && x.id == y.id
      ensures k == l && x == y
    {
      assert after[k] == batches[k] && after[l] == batches[l];
    }
  }

  lemma FreshIsOk(b: Batch, chain: set<Tx>)
    requires FreshBatch(b)
    ensures BatchOk(b, chain)
  {
    assert !b.items[0].journaled;
  }

  /** What an owner has in open batches covers what it has pending. */
  lemma ReservedCoversPending(s: Sys, o: Owner)
    requires Rows(s)
    ensures TotalOf(Pending(o), s.batches) <= TotalOf(Reserved(o), s.batches)
  {
    hide TotalOf, Value, SignedWell;
    forall i | 0 <= i < |s.batches| ensures Value(Pending(o), s.batches[i]) <= Value(Reserved(o), s.batches[i]) {
      var b := s.batches[i];
      assert BatchOk(b, s.chain);
      ItemSumLe(Pending(o), b, b.items, Reserved(o), b, b.items);
      ValueIsItemSum(Pending(o), b);
      ValueIsItemSum(Reserved(o), b);
    }
    TotalsLe(Pending(o), Reserved(o), s.batches);
  }

  /** A batch that takes exactly what is available, once per owner, keeps everybody covered. */
  lemma PlannedIsCovered(s: Sys, b: Batch, o: Owner)
    requires Inv(s) && WellOwned(b)
    requires forall i :: 0 <= i < |b.items| ==>
      !b.items[i].journaled && b.items[i].gross == Available(s.journal, s.batches, b.items[i].owner)
    ensures Value(Pending(o), b) <= OwnerBalance(o, s.journal) - TotalOf(Pending(o), s.batches)
  {
    hide Books, References, AutoOk, Linked, AllocationsOk, ChainOk, PhaseOk, TicketsOk, BatchOk, TotalOf, Balance;
    OwnedAtMostOnce(Pending(o), b, b.items, o);
    ReservedCoversPending(s, o);
    if i :| 0 <= i < |b.items| && b.items[i].owner == o {
      assert ItemSum(Pending(o), b, b.items) == b.items[i].gross;
    } else {
      assert Covered(s);
    }
  }

  lemma PlanKeeps(s: Sys, r: PlanRequest)
    requires Inv(s) && r.minimum >= 0
    ensures Inv(PlanStep(s, r))
  {
    hide Books, References, Covered, AutoOk, Linked, AllocationsOk, ChainOk, PhaseOk, TicketsOk, BatchOk, TotalOf,
      Balance, Available, PlanItems, Selected, Rows;
    var s' := PlanStep(s, r);
    if s' != s {
      var chosen := Selected(s.destinations, r.eligible, r.maxItems);
      SelectedIsDistinct(s.destinations, r.eligible, r.maxItems);
      PlannedItems(s.journal, s.batches, chosen, r.minimum);
      var b := s'.batches[|s.batches|];
      GrossSumIsValue(b, b.items);
      forall o ensures Value(Pending(o), b) <= OwnerBalance(o, s.journal) - TotalOf(Pending(o), s.batches) {
        PlannedIsCovered(s, b, o);
      }
      AppendKeeps(s, s', b);
    }
  }

  lemma {:induction false} GrossSumIsValue(b: Batch, items: seq<Item>)
    ensures GrossSum(items) == ItemSum(Gross, b, items)
  {
    if |items| > 0 {
      GrossSumIsValue(b, items[..|items| - 1]);
    }
  }

  /** With one active destination per customer, the planner never repeats a customer, so the
      unique (batch, customer) index never refuses its batch. */
  lemma PlanIsNeverRefused(s: Sys, r: PlanRequest)
    requires OneActive(s.destinations)
    ensures DistinctOwners(PlanItems(s.journal, s.batches, Selected(s.destinations, r.eligible, r.maxItems), r.minimum))
  {
    SelectedIsDistinct(s.destinations, r.eligible, r.maxItems);
    PlannedItems(s.journal, s.batches, Selected(s.destinations, r.eligible, r.maxItems), r.minimum);
  }

  /** The planning step, given what its parts compute. */
  lemma PlanEffect(s: Sys, r: PlanRequest, items: seq<Item>, auto: bool)
    requires PlanItems(s.journal, s.batches, Selected(s.destinations, r.eligible, r.maxItems), r.minimum) == items
    requires DistinctOwners(items)
    requires auto == AutoApprovable(r.limit, TotalOf(Auto(r.day), s.batches), GrossSum(items))
    ensures Next(s, Plan(r)) == if |items| == 0 then s else
      s.(batches := s.batches + [NewBatch(CustomerBatch, items, r.feePayer, r.maxFeeBps, auto, r.day, r.limit)])
  {
    hide PlanItems, Selected, DistinctOwners, GrossSum, AutoApprovable, TotalOf;
  }

  lemma PlanOperatorKeeps(s: Sys, r: OperatorRequest)
    requires Inv(s) && r.minimum >= 0
    ensures Inv(PlanOperatorStep(s, r))
  {
    hide Books, References, Covered, AutoOk, Linked, AllocationsOk, ChainOk, PhaseOk, TicketsOk, BatchOk, TotalOf,
      Balance, Available, Rows;
    var s' := PlanOperatorStep(s, r);
    if s' != s {
      var b := s'.batches[|s.batches|];
      assert b.items[..0] == [];
      assert ItemSum(Gross, b, b.items) == b.items[0].gross;
      forall o ensures Value(Pending(o), b) <= OwnerBalance(o, s.journal) - TotalOf(Pending(o), s.batches) {
        PlannedIsCovered(s, b, o);
      }
      AppendKeeps(s, s', b);
    }
  }

  // ---------------------------------------------------------------- deposits and destinations

  lemma ObserveKeeps(s: Sys, receipt: Deposits.Receipt, upstream: nat, seen: Option<Deposits.Status>)
    requires Inv(s) && receipt.amount > 0
    ensures Inv(ObserveStep(s, receipt, upstream, seen))
  {
    hide Books, Covered, AutoOk, Linked, ChainOk, TicketsOk, BatchOk, Rows, Referenced, WalletFees.Charges, SignedWell;
    var s' := ObserveStep(s, receipt, upstream, seen);
    assert References(s') by {
      forall r | Referenced(r, s'.journal) ensures ReferenceOk(s', r) {
        assert ReferenceOk(s, r);
      }
    }
    assert AllocationsOk(s') by {
      forall i | 0 <= i < |s'.allocations| ensures AllocationOk(s', s'.allocations[i]) {
        AllocationKept(s, s', s.allocations[i]);
      }
    }
    OtherFieldsKeep(s, s');
  }

  /** The invariant's parts that do not mention deposits, allocations or destinations. */
  lemma OtherFieldsKeep(s: Sys, s': Sys)
    requires s' == s.(deposits := s'.deposits, destinations := s'.destinations)
    ensures Rows(s) ==> Rows(s')
    ensures PhaseOk(s) ==> PhaseOk(s')
    ensures TicketsOk(s) ==> TicketsOk(s')
    ensures Books(s) ==> Books(s')
    ensures Covered(s) ==> Covered(s')
    ensures ChainOk(s) ==> ChainOk(s')
    ensures AutoOk(s) ==> AutoOk(s')
    ensures Linked(s) ==> Linked(s')
  {
    hide BatchOk, Balance, TotalOf, WalletFees.Charges, LimitHolds;
  }

  lemma DestinationsKeep(s: Sys, step: Step)
    requires Inv(s) && (step.AddDestination? || step.RevokePending? || step.Activate?)
    ensures Inv(Next(s, step))
  {
    hide Books, Covered, AutoOk, Linked, ChainOk, TicketsOk, BatchOk, Rows, Referenced, WalletFees.Charges, SignedWell,
      PhaseOk;
    var s' := Next(s, step);
    OtherFieldsKeep(s, s');
    assert References(s') by {
      forall r | Referenced(r, s'.journal) ensures ReferenceOk(s', r) {
        assert ReferenceOk(s, r);
      }
    }
    forall i | 0 <= i < |s'.allocations| ensures AllocationOk(s', s'.allocations[i]) {
      AllocationKept(s, s', s.allocations[i]);
    }
  }

  lemma AllocateKeeps(s: Sys, key: DepositKey, groups: seq<Deposits.Group>, policies: map<nat, int>,
                      items: seq<Deposits.Item>)
    requires Inv(s)
    ensures Inv(AllocateStep(s, key, groups, policies, items))
  {
    hide Books, References, Covered, AutoOk, Linked, ChainOk, TicketsOk, BatchOk, Rows, PhaseOk, AllocationsOk,
      Deposits.Itemised, Deposits.PostAllocation;
    var s' := AllocateStep(s, key, groups, policies, items);
    if s' != s {
      var total := s.deposits[key].amount;
      Deposits.ItemisedConserves(total, groups, policies, items);
      PositiveAmount(s, key);
      AllocateBooks(s, s', key, total, items);
      AllocateReferences(s, s', key, total, items);
      AllocateRows(s, s', key, total, items);
    }
  }

  lemma PositiveAmount(s: Sys, key: DepositKey)
    requires AllocationsOk(s) && key in s.deposits
    ensures s.deposits[key].amount > 0
  {
  }

  /** The result of an accepted allocation. */
  ghost predicate AllocatedTo(s: Sys, s': Sys, key: DepositKey, total: int, items: seq<Deposits.Item>) {
    && key in s.deposits && total == s.deposits[key].amount > 0
    && Sum(Deposits.CustomerParts(items)) + Sum(Deposits.OperatorParts(items)) == total
    && (forall i :: 0 <= i < |items| ==> items[i].customerAtomic >= 0 && items[i].operatorAtomic >= 0)
    && !HasAllocation(s.allocations, key)
    && Deposits.PostAllocation(s.journal, key, total, items).Some?
    && s' == s.(journal := Deposits.PostAllocation(s.journal, key, total, items).value,
                allocations := s.allocations + [Allocation(key, total, items)],
                deposits := s.deposits[key := s.deposits[key].(status := Deposits.Shared)])
  }

  lemma AllocateBooks(s: Sys, s': Sys, key: DepositKey, total: int, items: seq<Deposits.Item>)
    requires Books(s) && Covered(s) && AllocatedTo(s, s', key, total, items)
    ensures Books(s') && Covered(s')
  {
    hide Balance, TotalOf, Net, Deposits.AllocationEffect, Deposits.PostAllocation, Sum, Deposits.DepositEntries,
      Deposits.AllocationEntries;
    forall side
      ensures Balance(side, s'.journal) == Balance(side, s.journal) + Deposits.AllocationEffect(side, total, items)
      ensures AllocTotal(side, s'.allocations) ==
        AllocTotal(side, s.allocations) + Deposits.AllocationEffect(side, total, items)
    {
      AllocationBalance(side, s.journal, key, total, items);
      assert s'.allocations[..|s.allocations|] == s.allocations;
    }
    forall o ensures TotalOf(Pending(o), s'.batches) <= OwnerBalance(o, s'.journal) {
      CreditsAreNonNegative(o, total, items);
    }
  }

  lemma AllocationBalance(side: Side, journal: seq<Journal>, key: DepositKey, total: int, items: seq<Deposits.Item>)
    requires total > 0 && Sum(Deposits.CustomerParts(items)) + Sum(Deposits.OperatorParts(items)) == total
    requires forall i :: 0 <= i < |items| ==> items[i].customerAtomic >= 0 && items[i].operatorAtomic >= 0
    requires Deposits.PostAllocation(journal, key, total, items).Some?
    ensures Balance(side, Deposits.PostAllocation(journal, key, total, items).value) ==
      Balance(side, journal) + Deposits.AllocationEffect(side, total, items)
  {
    hide Balance, Net, Total, Deposits.PostAllocation, Sum, Deposits.AllocationEntries, Deposits.DepositEntries,
      Deposits.AllocationEffect;
    Deposits.PostAllocationSucceeds(journal, key, total, items);
    Deposits.NonNegativeParts(items);
    Deposits.AllocationNet(side, total, items);
    var first := Journal(DepositOf(key), Deposits.DepositEntries(total));
    BalanceAppend(side, journal, first);
    BalanceAppend(side, journal + [first], Journal(AllocationOf(key), Deposits.AllocationEntries(total, items)));
  }

  lemma CreditsAreNonNegative(o: Owner, total: int, items: seq<Deposits.Item>)
    requires forall i :: 0 <= i < |items| ==> items[i].customerAtomic >= 0 && items[i].operatorAtomic >= 0
    ensures Deposits.AllocationEffect(One(AccountOf(o)), total, items) >= 0
  {
    Deposits.NonNegativeParts(items);
    NonNegativeCredit(One(AccountOf(o)), items);
  }

  lemma {:induction false} NonNegativeCredit(side: Side, items: seq<Deposits.Item>)
    requires forall i :: 0 <= i < |items| ==> items[i].customerAtomic >= 0
    ensures Deposits.ItemCredit(side, items) >= 0
  {
    if |items| > 0 {
      NonNegativeCredit(side, items[..|items| - 1]);
    }
  }

  lemma AllocateReferences(s: Sys, s': Sys, key: DepositKey, total: int, items: seq<Deposits.Item>)
    requires References(s) && Linked(s) && AllocationsOk(s) && AllocatedTo(s, s', key, total, items)
    ensures References(s') && Linked(s') && AllocationsOk(s')
  {
    hide Referenced, Deposits.PostAllocation, Sum, Deposits.AllocationEntries, Deposits.DepositEntries;
    Deposits.PostAllocationSucceeds(s.journal, key, total, items);
    var first := Journal(DepositOf(key), Deposits.DepositEntries(total));
    var second := Journal(AllocationOf(key), Deposits.AllocationEntries(total, items));
    ReferencedAppend(AllocationOf(key), s.journal, first);
    UniqueAppend(s.journal, first);
    UniqueAppend(s.journal + [first], second);
    assert forall k :: HasAllocation(s.allocations, k) ==> HasAllocation(s'.allocations, k) by {
      forall k | HasAllocation(s.allocations, k) ensures HasAllocation(s'.allocations, k) {
        var i :| 0 <= i < |s.allocations| && s.allocations[i].deposit == k;
        assert s'.allocations[i].deposit == k;
      }
    }
    assert HasAllocation(s'.allocations, key) by {
      assert s'.allocations[|s.allocations|].deposit == key;
    }
    forall id, i | 0 <= id < |s.batches| && 0 <= i < |s.batches[id].items| && s.batches[id].items[i].journaled
      ensures Referenced(ReferenceOf(id, s.batches[id].items[i].owner), s'.journal)
    {
      ReferencedAppend(ReferenceOf(id, s.batches[id].items[i].owner), s.journal, first);
      ReferencedAppend(ReferenceOf(id, s.batches[id].items[i].owner), s.journal + [first], second);
    }
    forall r | Referenced(r, s'.journal) ensures ReferenceOk(s', r) {
      ReferencedAppend(r, s.journal, first);
      ReferencedAppend(r, s.journal + [first], second);
      if Referenced(r, s.journal) {
        assert ReferenceOk(s, r);
      }
    }
    forall i | 0 <= i < |s'.allocations| ensures AllocationOk(s', s'.allocations[i]) {
      if i < |s.allocations| {
        AllocationKept(s, s', s.allocations[i]);
      }
    }
  }

  lemma AllocateRows(s: Sys, s': Sys, key: DepositKey, total: int, items: seq<Deposits.Item>)
    requires Rows(s) && PhaseOk(s) && TicketsOk(s) && ChainOk(s) && AutoOk(s) && AllocatedTo(s, s', key, total, items)
    ensures Rows(s') && PhaseOk(s') && TicketsOk(s') && ChainOk(s') && AutoOk(s')
  {
    hide BatchOk, Balance, TotalOf, WalletFees.Charges, LimitHolds, Deposits.PostAllocation, Sum;
  }

  // ---------------------------------------------------------------- every step, every run

  lemma NextKeeps(s: Sys, step: Step)
    requires Inv(s) && Sane(step)
    ensures Inv(Next(s, step))
  {
    hide Inv, ApproveWriteStep, ConfirmWriteStep, ThrowStep, SignStep, RelayNextStep, CommitStep, FindKnownStep,
      PrepareStep,
      PlanStep, PlanOperatorStep, ObserveStep, AllocateStep;
    match step
    case Observe(receipt, upstream, seen) => ObserveKeeps(s, receipt, upstream, seen);
    case Allocate(key, groups, policies, items) => AllocateKeeps(s, key, groups, policies, items);
    case AddDestination(_) => DestinationsKeep(s, step);
    case RevokePending(_) => DestinationsKeep(s, step);
    case Activate(_) => DestinationsKeep(s, step);
    case Plan(r) => PlanKeeps(s, r);
    case PlanOperator(r) => PlanOperatorKeeps(s, r);
    case ApproveRead(_, _) => TicketReadsKeep(s, step);
    case ApproveWrite(t) => ApproveWriteKeeps(s, t);
    case ConfirmRead(_) => TicketReadsKeep(s, step);
    case ConfirmWrite(id) => ConfirmWriteKeeps(s, id);
    case Load(_) => ExecutorReadsKeep(s, step);
    case Prepare(payer, bps, prepared, fee, txs) => PrepareKeeps(s, payer, bps, prepared, fee, txs);
    case Sign => SignKeeps(s);
    case Refresh => ExecutorReadsKeep(s, step);
    case FindKnown => FindKnownKeeps(s);
    case StartRelay => ExecutorReadsKeep(s, step);
    case RelayNext => RelayNextKeeps(s);
    case EndRelay(_) => ExecutorReadsKeep(s, step);
    case Commit => CommitKeeps(s);
    case Return => ExecutorReadsKeep(s, step);
    case Throw => ThrowKeeps(s);
    case Crash => ExecutorReadsKeep(s, step);
  }

  lemma {:induction false} EveryRun(steps: seq<Step>)
    requires SaneRun(steps)
    ensures Inv(Run(EMPTY, steps))
  {
    if |steps| == 0 {
      assert forall r :: !Referenced(r, EMPTY.journal);
    } else {
      hide Inv, Next;
      EveryRun(steps[..|steps| - 1]);
      NextKeeps(Run(EMPTY, steps[..|steps| - 1]), steps[|steps| - 1]);
    }
  }
}
