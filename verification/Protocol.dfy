/** The money pipeline as one state machine: deposits, allocation, journal, planning, approval,
    execution and confirmation, with a ghost chain of relayed transactions. Each database
    transaction or single write is one step; an exception or a crash may come between any two
    awaits of an execution; approvals and confirmations act on reads that may be stale. */
module Protocol {
  import opened Common
  import opened Ledger
  import opened Payouts
  import Deposits
  import WalletFees

  datatype Allocation = Allocation(deposit: DepositKey, total: int, items: seq<Deposits.Item>)

  /** What the executor carries from preparation to signing. */
  datatype Signing = Signing(prepared: seq<WalletFees.PreparedItem>, fee: int, txs: seq<Tx>, deducted: bool, cap: int)

  /** Where the holder of the execution lock stands in `executeUnderLock`; `row` is the batch row
      as it was read, not as it is. */
  datatype Phase =
    | Idle
    | Loaded(id: nat, row: Batch)
    | Charged(id: nat, row: Batch, signing: Signing)
    | Persisted(id: nat)
    | Ready(id: nat, row: Batch)
    | Relaying(id: nat, row: Batch, next: nat)
    | Relayed(id: nat, row: Batch, ids: seq<string>)
    | Committed(id: nat)

  /** An approval that has read the batch and decided, but not written yet. */
  datatype Ticket = Ticket(id: nat, next: State, admin: nat)

  datatype Sys = Sys(
    deposits: map<DepositKey, Deposits.Deposit>,
    allocations: seq<Allocation>,
    journal: seq<Journal>,
    destinations: seq<Destination>,
    batches: seq<Batch>,
    chain: set<Tx>,
    phase: Phase,
    tickets: set<Ticket>,
    confirmed: set<nat>)

  datatype PlanRequest = PlanRequest(
    eligible: set<nat>, minimum: int, maxItems: nat,
    feePayer: Option<FeePayer>, maxFeeBps: Option<int>, limit: int, day: int)

  datatype OperatorRequest = OperatorRequest(address: string, minimum: int, maxFeeBps: int, limit: int, day: int)

  datatype Step =
    // deposits and allocation
    | Observe(receipt: Deposits.Receipt, upstream: nat, seen: Option<Deposits.Status>)
    | Allocate(key: DepositKey, groups: seq<Deposits.Group>, policies: map<nat, int>, items: seq<Deposits.Item>)
    // destinations
    | AddDestination(destination: Destination)
    | RevokePending(customer: nat)
    | Activate(index: nat)
    // planning
    | Plan(plan: PlanRequest)
    | PlanOperator(operator: OperatorRequest)
    // approval and confirmation, each a read followed by a write
    | ApproveRead(id: nat, admin: nat)
    | ApproveWrite(ticket: Ticket)
    | ConfirmRead(id: nat)
    | ConfirmWrite(id: nat)
    // execution
    | Load(id: nat)
    | Prepare(payer: FeePayer, bps: int, prepared: seq<WalletFees.PreparedItem>, fee: int, txs: seq<Tx>)
    | Sign
    | Refresh
    | FindKnown
    | StartRelay
    | RelayNext
    | EndRelay(ids: seq<string>)
    | Commit
    | Return
    | Throw
    | Crash

  // ---------------------------------------------------------------- the steps

  /** One receipt of a scan. The status read before the write may be stale, but a row that was
      ever read as allocated has its allocation batch. */
  function ObserveStep(s: Sys, receipt: Deposits.Receipt, upstream: nat, seen: Option<Deposits.Status>): Sys {
    if seen == Some(Deposits.Shared) && !HasAllocation(s.allocations, receipt.key) then s
    else s.(deposits := Deposits.Observe(s.deposits, receipt, upstream, seen))
  }

  /** `allocateDeposit`. The unique deposit id of allocation batches refuses a second one. */
  ghost function AllocateStep(s: Sys, key: DepositKey, groups: seq<Deposits.Group>, policies: map<nat, int>,
                              items: seq<Deposits.Item>): Sys {
    if key !in s.deposits || s.deposits[key].status != Deposits.Confirmed then s
    else
      var total := s.deposits[key].amount;
      if total < 0 || !Deposits.Itemised(total, groups, policies, items) then s
      else if Sum(Deposits.CustomerParts(items)) + Sum(Deposits.OperatorParts(items)) != total then s
      else if HasAllocation(s.allocations, key) then s
      else
        match Deposits.PostAllocation(s.journal, key, total, items)
        case None => s
        case Some(j) =>
          s.(journal := j,
             allocations := s.allocations + [Allocation(key, total, items)],
             deposits := s.deposits[key := s.deposits[key].(status := Deposits.Shared)])
  }

  predicate HasAllocation(allocations: seq<Allocation>, key: DepositKey) {
    exists i :: 0 <= i < |allocations| && allocations[i].deposit == key
  }

  /** One transaction of `activateDueDestinations`: revoke the customer's active rows, then
      activate the due one. */
  function ActivateDestination(dests: seq<Destination>, index: nat): (r: seq<Destination>)
    requires index < |dests|
    ensures |r| == |dests|
  {
    var customer := dests[index].customer;
    seq(|dests|, i requires 0 <= i < |dests| =>
      if i == index then dests[i].(status := Active)
      else if dests[i].customer == customer && dests[i].status == Active then dests[i].(status := Revoked)
      else dests[i])
  }

  function RevokePendingOf(dests: seq<Destination>, customer: nat): (r: seq<Destination>)
    ensures |r| == |dests|
  {
    seq(|dests|, i requires 0 <= i < |dests| =>
      if dests[i].customer == customer && dests[i].status == Pending' then dests[i].(status := Revoked) else dests[i])
  }

  function NewBatch(kind: Kind, items: seq<Item>, feePayer: Option<FeePayer>, maxFeeBps: Option<int>, auto: bool,
                    day: int, limit: int): Batch {
    var state := if auto then AutoApproved else ApprovalRequired;
    Batch(kind, state, items, feePayer, maxFeeBps, None, [], 0, !auto, None, day, limit, false, 0)
  }

  function GrossSum(items: seq<Item>): int {
    if |items| == 0 then 0 else GrossSum(items[..|items| - 1]) + items[|items| - 1].gross
  }

  /** The planning transaction; (batch, customer) is unique, so a repeated customer is refused. */
  ghost function PlanStep(s: Sys, r: PlanRequest): Sys {
    var items := PlanItems(s.journal, s.batches, Selected(s.destinations, r.eligible, r.maxItems), r.minimum);
    if |items| == 0 || !DistinctOwners(items) then s
    else
      var auto := AutoApprovable(r.limit, TotalOf(Auto(r.day), s.batches), GrossSum(items));
      s.(batches := s.batches + [NewBatch(CustomerBatch, items, r.feePayer, r.maxFeeBps, auto, r.day, r.limit)])
  }

  function PlanOperatorStep(s: Sys, r: OperatorRequest): Sys {
    var available := Available(s.journal, s.batches, Operator);
    if available < r.minimum then s
    else
      var auto := AutoApprovable(r.limit, TotalOf(Auto(r.day), s.batches), available);
      s.(batches := s.batches + [NewBatch(OperatorBatch, [Fresh(Operator, r.address, available)], Some(CustomerPays),
        Some(r.maxFeeBps), auto, r.day, r.limit)])
  }

  function ApproveReadStep(s: Sys, id: nat, admin: nat): Sys {
    if id >= |s.batches| then s
    else
      var b := s.batches[id];
      if b.state != ApprovalRequired && b.state != Failed then s
      else
        var next := if b.state == Failed && b.payload.Some? then Signed else AutoApproved;
        if !CanTransition(b.state, next) then s
        else s.(tickets := s.tickets + {Ticket(id, next, admin)})
  }

  function ApproveWriteStep(s: Sys, t: Ticket): Sys {
    if t !in s.tickets || t.id >= |s.batches| then s
    else
      s.(tickets := s.tickets - {t},
         batches := s.batches[t.id := s.batches[t.id].(state := t.next, approver := Some(t.admin))])
  }

  /** `reconcile`: the batch was read as BROADCAST and the wallet reports enough confirmations. */
  function ConfirmReadStep(s: Sys, id: nat): Sys {
    if id >= |s.batches| || s.batches[id].state != Broadcast || |s.batches[id].txids| == 0 then s
    else s.(confirmed := s.confirmed + {id})
  }

  function ConfirmWriteStep(s: Sys, id: nat): Sys {
    if id !in s.confirmed || id >= |s.batches| then s
    else s.(confirmed := s.confirmed - {id}, batches := s.batches[id := s.batches[id].(state := Confirmed)])
  }

  /** No allocated deposit is flagged as reorged. */
  predicate NoReorg(deposits: map<DepositKey, Deposits.Deposit>) {
    forall k :: k in deposits ==> deposits[k].status != Deposits.Reorged
  }

  function LoadStep(s: Sys, id: nat): Sys {
    if s.phase != Idle || id >= |s.batches| || !NoReorg(s.deposits) then s
    else
      var b := s.batches[id];
      if b.state != AutoApproved && b.state != Signed && b.state != Failed then s
      else s.(phase := if b.payload.Some? then Ready(id, b) else Loaded(id, b))
  }

  /** The wallet prepared a payout: any fee it likes, charged by the fee loop, within the cap. */
  ghost function PrepareStep(s: Sys, payer: FeePayer, bps: int, prepared: seq<WalletFees.PreparedItem>, fee: int,
                             txs: seq<Tx>): Sys {
    if !s.phase.Loaded? then s
    else
      var row := s.phase.row;
      var feePayer := row.feePayer.GetOr(payer);
      var cap := row.maxFeeBps.GetOr(bps);
      var deducted := !(row.kind == CustomerBatch && feePayer == OperatorPays);
      if !WalletFees.Charges(Candidates(row), deducted, fee, prepared) then s
      else if row.kind == CustomerBatch && fee * 10000 > Value(Gross, row) * cap then s
      else if !WalletTruth(s, prepared, fee, txs) then s
      else s.(phase := Charged(s.phase.id, row, Signing(prepared, fee, txs, deducted, cap)))
  }

  /** Assumed of the wallet: the transactions it signs carry the outputs and the fee, and their
      ids have never been seen. */
  ghost predicate WalletTruth(s: Sys, prepared: seq<WalletFees.PreparedItem>, fee: int, txs: seq<Tx>) {
    && |txs| > 0
    && Sum(Outflows(txs)) == Sum(WalletFees.NetsOf(prepared)) + fee
    && (forall i, j :: 0 <= i < j < |txs| ==> txs[i].id != txs[j].id)
    && (forall tx, k, other | tx in txs && 0 <= k < |s.batches| :: InPayload(s.batches[k], other) ==> tx.id != other.id)
  }

  predicate InPayload(b: Batch, tx: Tx) {
    b.payload.Some? && tx in b.payload.value
  }

  function ChargedItems(items: seq<Item>, prepared: seq<WalletFees.PreparedItem>): (r: seq<Item>)
    requires |items| == |prepared|
    ensures |r| == |items|
  {
    seq(|items|, i requires 0 <= i < |items| => items[i].(fee := prepared[i].fee, net := prepared[i].net))
  }

  function SignStep(s: Sys): Sys {
    if !s.phase.Charged? || s.phase.id >= |s.batches| then s
    else
      var id, g, b := s.phase.id, s.phase.signing, s.batches[s.phase.id];
      if !CanTransition(s.phase.row.state, Signed) || |g.prepared| != |b.items| then s
      else
        s.(phase := Persisted(id),
           batches := s.batches[id := b.(
             items := ChargedItems(b.items, g.prepared), state := Signed, payload := Some(g.txs), txids := Ids(g.txs),
             totalFee := g.fee, deducted := g.deducted, feeCap := g.cap)])
  }

  function RefreshStep(s: Sys): Sys {
    if !s.phase.Persisted? || s.phase.id >= |s.batches| || s.batches[s.phase.id].payload.None? then s
    else s.(phase := Ready(s.phase.id, s.batches[s.phase.id]))
  }

  ghost predicate OnChain(txs: seq<Tx>, chain: set<Tx>) {
    forall i :: 0 <= i < |txs| ==> txs[i] in chain
  }

  ghost predicate HasId(chain: set<Tx>, id: string) {
    exists tx :: tx in chain && tx.id == id
  }

  /** The wallet knows every expected id. Assumed of the wallet: it only knows what was relayed. */
  ghost function FindKnownStep(s: Sys): Sys {
    if !s.phase.Ready? then s
    else
      var row := s.phase.row;
      if |row.txids| > 0 && forall i :: 0 <= i < |row.txids| ==> HasId(s.chain, row.txids[i]) then
        s.(phase := Relayed(s.phase.id, row, row.txids))
      else s
  }

  function StartRelayStep(s: Sys): Sys {
    if !s.phase.Ready? then s else s.(phase := Relaying(s.phase.id, s.phase.row, 0))
  }

  function RelayNextStep(s: Sys): Sys {
    if !s.phase.Relaying? || s.phase.row.payload.None? || s.phase.next >= |s.phase.row.payload.value| then s
    else
      s.(chain := s.chain + {s.phase.row.payload.value[s.phase.next]},
         phase := Relaying(s.phase.id, s.phase.row, s.phase.next + 1))
  }

  /** The wallet reports ids for what it relayed; nothing is assumed about them. */
  function EndRelayStep(s: Sys, ids: seq<string>): Sys {
    if !s.phase.Relaying? || s.phase.row.payload.None? || s.phase.next < |s.phase.row.payload.value| then s
    else s.(phase := Relayed(s.phase.id, s.phase.row, ids))
  }

  /** The final transaction: post what the row read earlier had not journaled, mark it, BROADCAST. */
  function CommitStep(s: Sys): Sys {
    if !s.phase.Relayed? || s.phase.id >= |s.batches| then s
    else
      var id, row, b := s.phase.id, s.phase.row, s.batches[s.phase.id];
      if !CanTransition(row.state, Broadcast) || |b.items| != |row.items| then s
      else
        match PostItems(s.journal, id, row, |row.items|)
        case None => s
        case Some(j) =>
          s.(journal := j, phase := Committed(id),
             batches := s.batches[id := b.(items := MarkJournaled(b.items), state := Broadcast, txids := s.phase.ids)])
  }

  /** Any exception inside the `try`: the batch becomes FAILED whatever its state is by now. */
  function ThrowStep(s: Sys): Sys {
    if s.phase == Idle || s.phase.id >= |s.batches| then s
    else s.(phase := Idle, batches := s.batches[s.phase.id := s.batches[s.phase.id].(state := Failed)])
  }

  ghost function Next(s: Sys, step: Step): Sys {
    match step
    case Observe(receipt, upstream, seen) => ObserveStep(s, receipt, upstream, seen)
    case Allocate(key, groups, policies, items) => AllocateStep(s, key, groups, policies, items)
    case AddDestination(d) => s.(destinations := s.destinations + [d.(status := Pending')])
    case RevokePending(c) => s.(destinations := RevokePendingOf(s.destinations, c))
    case Activate(i) => if i < |s.destinations| then s.(destinations := ActivateDestination(s.destinations, i)) else s
    case Plan(r) => PlanStep(s, r)
    case PlanOperator(r) => PlanOperatorStep(s, r)
    case ApproveRead(id, admin) => ApproveReadStep(s, id, admin)
    case ApproveWrite(t) => ApproveWriteStep(s, t)
    case ConfirmRead(id) => ConfirmReadStep(s, id)
    case ConfirmWrite(id) => ConfirmWriteStep(s, id)
    case Load(id) => LoadStep(s, id)
    case Prepare(payer, bps, prepared, fee, txs) => PrepareStep(s, payer, bps, prepared, fee, txs)
    case Sign => SignStep(s)
    case Refresh => RefreshStep(s)
    case FindKnown => FindKnownStep(s)
    case StartRelay => StartRelayStep(s)
    case RelayNext => RelayNextStep(s)
    case EndRelay(ids) => EndRelayStep(s, ids)
    case Commit => CommitStep(s)
    case Return => if s.phase.Committed? then s.(phase := Idle) else s
    case Throw => ThrowStep(s)
    case Crash => s.(phase := Idle)
  }

  ghost function Run(s: Sys, steps: seq<Step>): Sys {
    if |steps| == 0 then s else Next(Run(s, steps[..|steps| - 1]), steps[|steps| - 1])
  }

  const EMPTY := Sys(map[], [], [], [], [], {}, Idle, {}, {})

  /** Receipts carry positive amounts, and payout minimums are not negative (the settings service
      insists on positive ones; only a negative environment default could break this). */
  predicate Sane(step: Step) {
    match step
    case Observe(receipt, _, _) => receipt.amount > 0
    case Plan(r) => r.minimum >= 0
    case PlanOperator(r) => r.minimum >= 0
    case _ => true
  }

  ghost predicate SaneRun(steps: seq<Step>) {
    forall i :: 0 <= i < |steps| ==> Sane(steps[i])
  }
}
