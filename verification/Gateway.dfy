/** Mining gateway sessions (apps/server/src/gateway/bitcoin-gateway.session.ts and
    monero-gateway.session.ts) over one table of shares: request ids are translated on the way to
    the pool and back, and every share goes through its life while answers, closing connections,
    the periodic clean-ups and allocations interleave at every await. */
module Gateway {
  import opened Common
  import opened Shares
  import Deposits

  /** A downstream request id; `None` is null or missing. */
  type RpcId = Option<string>

  /** What is kept for a request sent upstream. */
  datatype Request = Request(downstreamId: RpcId, share: Option<nat>)

  /** A reply taken out of the pending map whose share is being recorded. */
  datatype Recording = Recording(request: Request, answer: Answer)

  /** A request on the wire, with the id it carries there. */
  datatype Outbound = Outbound(id: nat, request: Request)

  datatype Inbound = Inbound(id: nat, answer: Answer)

  datatype Reply = Reply(id: nat, downstreamId: RpcId)

  /** `nextId`, `pending` and `closing` are the session's fields, `recording` its handlers at their
      await, `unknowns` the references captured by `close`, and the counters those of its
      connection row. `sent`, `inbox` and `outbox` are what went over the wire. */
  datatype Session = Session(
    rule: Rule, nextId: nat, pending: map<nat, Request>, recording: map<nat, Recording>,
    closing: bool, unknowns: set<nat>, accepted: nat, rejected: nat,
    sent: seq<Outbound>, inbox: seq<Inbound>, outbox: seq<Reply>)

  datatype Hub = Hub(rows: seq<Share>, batches: seq<seq<Deposits.Group>>, sessions: seq<Session>)

  datatype Step =
    | Connect(rule: Rule)
    | Store(c: nat, endpoint: nat, customer: nat, policy: nat, work: real)
    | Forward(c: nat, request: Request)
    | Receive(c: nat, id: nat, answer: Answer)
    | Record(c: nat, id: nat)
    | Fail(c: nat, id: nat)
    | CloseBegin(c: nat)
    | CloseWrite(c: nat)
    | CloseClear(c: nat)
    | Reconcile(stale: set<nat>)
    | Prune(old': set<nat>)
    | Allocate(endpoints: set<nat>)

  // ---------------------------------------------------------------- one session

  function NewSession(rule: Rule): Session {
    Session(rule, 1, map[], map[], false, {}, 0, 0, [], [], [])
  }

  /** `forward`: the next id, the pending entry, and the request on the wire. */
  function Forwarding(s: Session, request: Request): Session {
    s.(nextId := s.nextId + 1, pending := s.pending[s.nextId := request],
       sent := s.sent + [Outbound(s.nextId, request)])
  }

  /** `onUpstream` up to its await. An id that is not pending is dropped. */
  function Receiving(s: Session, id: nat, answer: Answer): Session {
    var t := s.(inbox := s.inbox + [Inbound(id, answer)]);
    if id !in s.pending then t
    else
      var request := s.pending[id];
      if request.share.Some? then
        t.(pending := s.pending - {id}, recording := s.recording[id := Recording(request, answer)])
      else
        t.(pending := s.pending - {id}, outbox := s.outbox + [Reply(id, request.downstreamId)])
  }

  /** `onUpstream` after its share was recorded: counters and the reply downstream. */
  function Replying(s: Session, id: nat): Session
    requires id in s.recording
  {
    var r := s.recording[id];
    var yes := Accepts(s.rule, r.answer);
    s.(recording := s.recording - {id}, outbox := s.outbox + [Reply(id, r.request.downstreamId)],
       accepted := s.accepted + (if yes then 1 else 0), rejected := s.rejected + (if yes then 0 else 1))
  }

  function SharesOf(pending: map<nat, Request>): set<nat> {
    set id | id in pending && pending[id].share.Some? :: pending[id].share.value
  }

  // ---------------------------------------------------------------- all sessions

  function StoreStep(h: Hub, c: nat, endpoint: nat, customer: nat, policy: nat, work: real): Hub {
    if c >= |h.sessions| then h
    else h.(rows := h.rows + [Share(c, endpoint, customer, policy, work, Pending, None, false, AtGateway, None)])
  }

  /** A share is forwarded by the handler that stored it, once. */
  function ForwardStep(h: Hub, c: nat, request: Request): Hub {
    if c >= |h.sessions| then h
    else
      var id := h.sessions[c].nextId;
      match request.share
      case None => h.(sessions := h.sessions[c := Forwarding(h.sessions[c], request)])
      case Some(k) =>
        if k >= |h.rows| || h.rows[k].session != c || h.rows[k].place != AtGateway then h
        else
          h.(sessions := h.sessions[c := Forwarding(h.sessions[c], request)],
             rows := h.rows[k := h.rows[k].(place := Forwarded(id))])
  }

  function ReceiveStep(h: Hub, c: nat, id: nat, answer: Answer): Hub {
    if c >= |h.sessions| then h
    else
      var s := h.sessions[c];
      var h' := h.(sessions := h.sessions[c := Receiving(s, id, answer)]);
      if id in s.pending && s.pending[id].share.Some? && s.pending[id].share.value < |h.rows| then
        var k := s.pending[id].share.value;
        h'.(rows := h.rows[k := h.rows[k].(place := Answered(id, answer))])
      else h'
  }

  /** `resolve`: the share and the counter in one transaction; a deleted row makes it throw. */
  function RecordStep(h: Hub, c: nat, id: nat): Hub {
    if c >= |h.sessions| || id !in h.sessions[c].recording then h
    else
      var s := h.sessions[c];
      var r := s.recording[id];
      if r.request.share.None? || r.request.share.value >= |h.rows| then h
      else
        var k := r.request.share.value;
        if h.rows[k].deleted then FailStep(h, c, id)
        else
          h.(sessions := h.sessions[c := Replying(s, id)],
             rows := h.rows[k := Resolved(h.rows[k], Accepts(s.rule, r.answer)).(place := Recorded(id, r.answer))])
  }

  /** The transaction failed: the handler ends without an update and without a reply. */
  function FailStep(h: Hub, c: nat, id: nat): Hub {
    if c >= |h.sessions| || id !in h.sessions[c].recording then h
    else
      var s := h.sessions[c];
      var r := s.recording[id];
      if r.request.share.None? || r.request.share.value >= |h.rows| then h
      else
        var k := r.request.share.value;
        h.(sessions := h.sessions[c := s.(recording := s.recording - {id})],
           rows := h.rows[k := h.rows[k].(place := Lost(id, r.answer))])
  }

  function CloseBeginStep(h: Hub, c: nat): Hub {
    if c >= |h.sessions| || h.sessions[c].closing then h
    else h.(sessions := h.sessions[c := h.sessions[c].(closing := true, unknowns := SharesOf(h.sessions[c].pending))])
  }

  function CloseWriteStep(h: Hub, c: nat): Hub {
    if c >= |h.sessions| || !h.sessions[c].closing then h
    else h.(rows := MarkUnknown(h.rows, h.sessions[c].unknowns))
  }

  function CloseClearStep(h: Hub, c: nat): Hub {
    if c >= |h.sessions| || !h.sessions[c].closing then h
    else h.(sessions := h.sessions[c := h.sessions[c].(pending := map[])])
  }

  /** The share side of `allocateDeposit`: refused when no group has work. */
  function AllocateStep(h: Hub, endpoints: set<nat>): Hub {
    var groups := Deposits.WithWork(Grouped(h.rows, endpoints));
    if |groups| == 0 then h
    else h.(rows := Marked(h.rows, endpoints, |h.batches|), batches := h.batches + [groups])
  }

  function Next(h: Hub, step: Step): Hub {
    match step
    case Connect(rule) => h.(sessions := h.sessions + [NewSession(rule)])
    case Store(c, endpoint, customer, policy, work) => StoreStep(h, c, endpoint, customer, policy, work)
    case Forward(c, request) => ForwardStep(h, c, request)
    case Receive(c, id, answer) => ReceiveStep(h, c, id, answer)
    case Record(c, id) => RecordStep(h, c, id)
    case Fail(c, id) => FailStep(h, c, id)
    case CloseBegin(c) => CloseBeginStep(h, c)
    case CloseWrite(c) => CloseWriteStep(h, c)
    case CloseClear(c) => CloseClearStep(h, c)
    case Reconcile(stale) => h.(rows := MarkUnknown(h.rows, stale))
    case Prune(old') => h.(rows := Pruned(h.rows, old'))
    case Allocate(endpoints) => AllocateStep(h, endpoints)
  }

  function Run(h: Hub, steps: seq<Step>): Hub {
    if |steps| == 0 then h else Next(Run(h, steps[..|steps| - 1]), steps[|steps| - 1])
  }

  const IDLE := Hub([], [], [])

  // ---------------------------------------------------------------- the invariant

  predicate Replied(s: Session, id: nat) {
    exists i :: 0 <= i < |s.outbox| && s.outbox[i].id == id
  }

  /** Request `id` of the session, if it carries a share, is where its share says it is. */
  ghost predicate HeldAt(rows: seq<Share>, c: nat, request: Request, place: Place) {
    request.share.Some? ==>
      request.share.value < |rows| && rows[request.share.value].session == c && rows[request.share.value].place == place
  }

  predicate WasSent(s: Session, id: nat) {
    1 <= id <= |s.sent|
  }

  ghost predicate PendingOk(s: Session, c: nat, rows: seq<Share>) {
    forall id :: id in s.pending ==>
      && WasSent(s, id) && s.pending[id] == s.sent[id - 1].request && id !in s.recording && !Replied(s, id)
      && HeldAt(rows, c, s.pending[id], Forwarded(id))
  }

  ghost predicate RecordingOk(s: Session, c: nat, rows: seq<Share>) {
    forall id :: id in s.recording ==>
      && WasSent(s, id) && s.recording[id].request == s.sent[id - 1].request && !Replied(s, id)
      && s.recording[id].request.share.Some?
      && HeldAt(rows, c, s.recording[id].request, Answered(id, s.recording[id].answer))
  }

  ghost predicate OutboxOk(s: Session) {
    && (forall i :: 0 <= i < |s.outbox| ==>
          WasSent(s, s.outbox[i].id) && s.outbox[i].downstreamId == s.sent[s.outbox[i].id - 1].request.downstreamId)
    && (forall i, j :: 0 <= i < j < |s.outbox| ==> s.outbox[i].id != s.outbox[j].id)
  }

  ghost predicate SentOk(s: Session, c: nat, rows: seq<Share>) {
    && s.nextId == |s.sent| + 1
    && (forall i :: 0 <= i < |s.sent| ==> s.sent[i].id == i + 1)
    && (forall i :: 0 <= i < |s.sent| && s.sent[i].request.share.Some? ==>
          ForwardedAs(rows, c, s.sent[i].request.share.value, i + 1))
  }

  predicate ForwardedAs(rows: seq<Share>, c: nat, k: nat, id: nat) {
    k < |rows| && rows[k].session == c && rows[k].place != AtGateway && rows[k].place.id == id
  }

  ghost predicate CountersOk(s: Session, c: nat, rows: seq<Share>) {
    s.accepted == Count(Verdicts(c, true), rows) && s.rejected == Count(Verdicts(c, false), rows)
  }

  ghost predicate SessionOk(s: Session, c: nat, rows: seq<Share>) {
    PendingOk(s, c, rows) && RecordingOk(s, c, rows) && OutboxOk(s) && SentOk(s, c, rows) && CountersOk(s, c, rows)
  }

  /** The life of a share so far agrees with what its session sent and received. */
  ghost predicate RowOk(row: Share, k: nat, sessions: seq<Session>, batches: nat) {
    && row.session < |sessions|
    && var s := sessions[row.session];
       && (row.place != AtGateway ==> WasSent(s, row.place.id) && s.sent[row.place.id - 1].request.share == Some(k))
       && (row.place.Answered? || row.place.Recorded? || row.place.Lost? ==>
         Inbound(row.place.id, row.place.answer) in s.inbox)
       && (row.verdict.Some? <==> row.place.Recorded?)
       && (row.place.Recorded? ==> row.verdict == Some(Accepts(s.rule, row.place.answer)))
       && (row.verdict == Some(true) <==> row.status == Accepted)
       && (row.verdict == Some(false) <==> row.status == Rejected)
       && (row.batch.Some? ==> row.status == Accepted && row.batch.value < batches)
       && (row.deleted ==> Prunable(row))
  }

  ghost predicate BatchOk(groups: seq<Deposits.Group>, b: nat, rows: seq<Share>) {
    forall c, p ::
      GroupWork(groups, c, p) == if Work(InBatch(b, c, p), rows) > 0.0 then Work(InBatch(b, c, p), rows) else 0.0
  }

  ghost predicate Inv(h: Hub) {
    && (forall c :: 0 <= c < |h.sessions| ==> SessionOk(h.sessions[c], c, h.rows))
    && (forall k :: 0 <= k < |h.rows| ==> RowOk(h.rows[k], k, h.sessions, |h.batches|))
    && (forall b :: 0 <= b < |h.batches| ==> BatchOk(h.batches[b], b, h.rows))
  }
}
