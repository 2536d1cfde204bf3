/** The share table and the session objects as the server runs them. Each handler, run without
    interruption, does what the corresponding steps do in whatever hub the session lives. */
module GatewaySession {
  import opened Common
  import opened Shares
  import opened Gateway
  import opened Sessions
  import Deposits

  class ShareTable {
    var rows: seq<Share>
    var batches: seq<seq<Deposits.Group>>

    constructor ()
      ensures rows == [] && batches == []
    {
      rows, batches := [], [];
    }

    /** `pending`. */
    method Insert(session: nat, endpoint: nat, customer: nat, policy: nat, work: real) returns (k: nat)
      modifies this`rows
      ensures k == |old(rows)|
      ensures rows ==
        old(rows) + [Share(session, endpoint, customer, policy, work, Pending, None, false, AtGateway, None)]
    {
      k := |rows|;
      rows := rows + [Share(session, endpoint, customer, policy, work, Pending, None, false, AtGateway, None)];
    }

    /** `unknown` and `reconcilePending`: one conditional update per reference; a share that has been
        answered meanwhile is left alone. */
    method SetUnknown(refs: set<nat>)
      modifies this`rows
      ensures rows == MarkUnknown(old(rows), refs)
      ensures |rows| == |old(rows)|
      ensures forall k :: 0 <= k < |rows| ==>
        rows[k] == if k in refs && !old(rows)[k].deleted && old(rows)[k].status == Pending
                   then old(rows)[k].(status := Unknown) else old(rows)[k]
    {
      var todo := refs;
      while todo != {}
        invariant todo <= refs && |rows| == |old(rows)|
        invariant forall i :: 0 <= i < |rows| ==>
          rows[i] == if i in refs && i !in todo && Unanswered(old(rows)[i]) then old(rows)[i].(status := Unknown)
                     else old(rows)[i]
        decreases |todo|
      {
        var k :| k in todo;
        if k < |rows| && Unanswered(rows[k]) {
          rows := rows[k := rows[k].(status := Unknown)];
        }
        todo := todo - {k};
      }
    }

    /** `pruneRawShares`: of the rows older than the cutoff, those that are assigned to an allocation, rejected or
        unknown are deleted. */
    method PruneRawShares(old': set<nat>)
      modifies this`rows
      ensures rows == Pruned(old(rows), old')
      ensures |rows| == |old(rows)|
      ensures forall k :: 0 <= k < |rows| ==>
        var row := old(rows)[k];
        var done := row.status in {Rejected, Unknown} || (row.status == Accepted && row.batch != None);
        rows[k] == if k in old' && done then row.(deleted := true) else row
    {
      for k := 0 to |rows|
        invariant |rows| == |old(rows)|
        invariant forall i :: 0 <= i < k ==> rows[i] == Pruned(old(rows), old')[i]
        invariant forall i :: k <= i < |rows| ==> rows[i] == old(rows)[i]
      {
        if k in old' && Prunable(rows[k]) {
          rows := rows[k := rows[k].(deleted := true)];
        }
      }
    }

    /** The `groupBy` with its filter. */
    method GroupAccepted(endpoints: set<nat>) returns (groups: seq<Deposits.Group>)
      ensures groups == Deposits.WithWork(Grouped(rows, endpoints))
      ensures CarriesWork(groups, rows, endpoints)
    {
      GroupsCarryWork(rows, endpoints);
      hide CarriesWork;
      var all: seq<Deposits.Group> := [];
      for k := 0 to |rows|
        invariant all == Grouped(rows[..k], endpoints)
      {
        assert rows[..k + 1][..k] == rows[..k];
        if Allocatable(rows[k], endpoints) {
          all := AddWork(all, rows[k].customer, rows[k].policy, rows[k].work);
        }
      }
      assert rows[..|rows|] == rows;
      groups := [];
      for i := 0 to |all|
        invariant groups == Deposits.WithWork(all[..i])
      {
        assert all[..i + 1][..i] == all[..i];
        if all[i].work > 0.0 {
          groups := groups + [all[i]];
        }
      }
      assert all[..|all|] == all;
    }

    /** The shares of an allocation: grouped, then marked. */
    method AssignAccepted(endpoints: set<nat>) returns (groups: seq<Deposits.Group>)
      modifies this
      ensures groups == Deposits.WithWork(Grouped(old(rows), endpoints)) && CarriesWork(groups, old(rows), endpoints)
      ensures |groups| == 0 ==> rows == old(rows) && batches == old(batches)
      ensures |groups| > 0 ==>
        rows == Marked(old(rows), endpoints, |old(batches)|) && batches == old(batches) + [groups]
      ensures |groups| > 0 ==>
        && |rows| == |old(rows)|
        && forall k :: 0 <= k < |rows| ==>
          var row := old(rows)[k];
          rows[k] == if !row.deleted && row.status == Accepted && row.batch == None && row.endpoint in endpoints
                     then row.(batch := Some(|old(batches)|)) else row
    {
      hide CarriesWork, Grouped, Deposits.WithWork;
      groups := GroupAccepted(endpoints);
      if |groups| == 0 {
        return;
      }
      for k := 0 to |rows|
        invariant |rows| == |old(rows)| && batches == old(batches)
        invariant forall i :: 0 <= i < k ==> rows[i] == Marked(old(rows), endpoints, |batches|)[i]
        invariant forall i :: k <= i < |rows| ==> rows[i] == old(rows)[i]
      {
        if Allocatable(rows[k], endpoints) {
          rows := rows[k := rows[k].(batch := Some(|batches|))];
        }
      }
      batches := batches + [groups];
    }
  }

  /** A share's answer from arrival to reply, in one piece. */
  ghost function Answered'(h: Hub, c: nat, id: nat, answer: Answer, writes: bool): Hub
    requires c < |h.sessions| && id in h.sessions[c].pending && h.sessions[c].pending[id].share.Some?
    requires h.sessions[c].pending[id].share.value < |h.rows|
  {
    var s := h.sessions[c];
    var request := s.pending[id];
    var k := request.share.value;
    var yes := SaysYes(s.rule, answer);
    var row := h.rows[k];
    var t := s.(inbox := s.inbox + [Inbound(id, answer)], pending := s.pending - {id});
    if writes && !row.deleted then
      h.(rows := h.rows[k := row.(status := if yes then Accepted else Rejected, verdict := Some(yes),
                                  place := Recorded(id, answer))],
         sessions := h.sessions[c := t.(outbox := s.outbox + [Reply(id, request.downstreamId)],
                                        accepted := s.accepted + (if yes then 1 else 0),
                                        rejected := s.rejected + (if yes then 0 else 1))])
    else
      h.(rows := h.rows[k := row.(place := Lost(id, answer))], sessions := h.sessions[c := t])
  }

  lemma NotRecorded(s: Session, c: nat, rows: seq<Share>, id: nat)
    requires SessionOk(s, c, rows) && id in s.pending
    ensures id !in s.recording
  {
  }

  lemma AnswerEffect(h: Hub, c: nat, id: nat, answer: Answer, writes: bool)
    requires Inv(h) && c < |h.sessions| && id in h.sessions[c].pending && h.sessions[c].pending[id].share.Some?
    ensures h.sessions[c].pending[id].share.value < |h.rows|
    ensures Next(Next(h, Receive(c, id, answer)), if writes then Record(c, id) else Fail(c, id)) ==
      Answered'(h, c, id, answer, writes)
  {
    AcceptanceIsPositive(answer);
    hide Inv, SessionOk, Accepts, SaysYes;
    SessionHolds(h, c);
    var s := h.sessions[c];
    var k := s.pending[id].share.value;
    PendingHolds(s, c, h.rows, id);
    NotRecorded(s, c, h.rows, id);
    var r := Recording(s.pending[id], answer);
    assert s.recording[id := r] - {id} == s.recording;
    var received := Next(h, Receive(c, id, answer));
    assert received.sessions[c].recording == s.recording[id := r];
    assert h.rows[k := h.rows[k].(place := Place.Answered(id, answer))][k := h.rows[k]] == h.rows;
  }

  /** The steps of `close`: once only. */
  ghost function Closed(h: Hub, c: nat, writes: bool): Hub
    requires c < |h.sessions|
  {
    if h.sessions[c].closing then h
    else
      var begun := Next(h, CloseBegin(c));
      Next(if writes then Next(begun, CloseWrite(c)) else begun, CloseClear(c))
  }

  lemma CloseEffect(h: Hub, c: nat, writes: bool)
    requires Inv(h) && c < |h.sessions|
    ensures Inv(Closed(h, c, writes))
    ensures var s := h.sessions[c]; var shares := SharesOf(s.pending);
            Closed(h, c, writes) == if s.closing then h else
              h.(rows := if writes then MarkUnknown(h.rows, shares) else h.rows,
                 sessions := h.sessions[c := s.(closing := true, unknowns := shares, pending := map[])])
  {
    hide Inv, MarkUnknown, SharesOf;
    var begun := Next(h, CloseBegin(c));
    var written := if writes then Next(begun, CloseWrite(c)) else begun;
    NextKeeps(h, CloseBegin(c));
    NextKeeps(begun, CloseWrite(c));
    NextKeeps(written, CloseClear(c));
  }

  /** A request for share k is waiting for its answer. */
  predicate Holds(pending: map<nat, Request>, k: nat) {
    exists id :: id in pending && pending[id].share == Some(k)
  }

  lemma HoldsItsShares(pending: map<nat, Request>)
    ensures forall k :: k in SharesOf(pending) <==> Holds(pending, k)
  {
  }

  class MiningSession {
    const number: nat
    const rule: Rule
    const table: ShareTable
    var nextId: nat
    var pending: map<nat, Request>
    var closing: bool
    var authorized: bool
    var accepted: nat
    var rejected: nat
    ghost var recording: map<nat, Recording>
    ghost var unknowns: set<nat>
    ghost var sent: seq<Outbound>
    ghost var inbox: seq<Inbound>
    ghost var outbox: seq<Reply>

    constructor (number: nat, rule: Rule, table: ShareTable)
      ensures this.number == number && this.table == table && State() == NewSession(rule) && !authorized
    {
      this.number, this.rule, this.table := number, rule, table;
      nextId, pending, closing, authorized, accepted, rejected := 1, map[], false, false, 0, 0;
      recording, unknowns, sent, inbox, outbox := map[], {}, [], [], [];
    }

    ghost function State(): Session
      reads this
    {
      Session(rule, nextId, pending, recording, closing, unknowns, accepted, rejected, sent, inbox, outbox)
    }

    /** The session, with its table, is part of this hub. */
    ghost predicate In(h: Hub)
      reads this, table
    {
      && Inv(h) && h.rows == table.rows && h.batches == table.batches
      && number < |h.sessions| && h.sessions[number] == State()
    }

    /** The hub with this session and table as they are now. */
    ghost function Now(h: Hub): Hub
      requires number < |h.sessions|
      reads this, table
    {
      h.(rows := table.rows, batches := table.batches, sessions := h.sessions[number := State()])
    }

    /** `forward`, for a request without a share. */
    method ForwardRequest(downstreamId: RpcId, ghost h: Hub) returns (upstreamId: nat)
      requires In(h)
      modifies this
      ensures upstreamId == old(nextId) && nextId == old(nextId) + 1 && authorized == old(authorized)
      ensures In(Now(h)) && Now(h) == Next(h, Forward(number, Request(downstreamId, None)))
    {
      ghost var request := Request(downstreamId, None);
      ForwardKeeps(h, number, request);
      upstreamId := nextId;
      nextId := nextId + 1;
      pending := pending[upstreamId := Request(downstreamId, None)];
      sent := sent + [Outbound(upstreamId, Request(downstreamId, None))];
      assert Now(h) == Next(h, Forward(number, request));
    }

    /** `authorize` once the worker's credentials are checked: a refused worker gets nothing forwarded, and its
        session is closed. */
    method Authorize(downstreamId: RpcId, granted: bool, writes: bool, ghost h: Hub) returns (upstreamId: Option<nat>)
      requires In(h)
      modifies this, table`rows
      ensures authorized == (old(authorized) || granted)
      ensures upstreamId == if granted then Some(old(nextId)) else None
      ensures In(Now(h)) && (!granted ==> closing)
      ensures Now(h) ==
        if granted then Next(h, Forward(number, Request(downstreamId, None))) else Closed(h, number, writes)
    {
      hide Inv, ForwardStep, Closed;
      if !granted {
        Close(writes, h);
        return None;
      }
      var id := ForwardRequest(downstreamId, h);
      authorized := true;
      return Some(id);
    }

    /** `submit`: refused before authorisation; afterwards the share is stored before the request goes
        upstream. */
    method Submit(downstreamId: RpcId, endpoint: nat, customer: nat, policy: nat, work: real,
                  ghost h: Hub) returns (upstreamId: Option<nat>)
      requires In(h)
      modifies this, table`rows
      ensures authorized == old(authorized)
      ensures upstreamId == if authorized then Some(old(nextId)) else None
      ensures !authorized ==> In(Now(h)) && Now(h) == h
      ensures authorized ==>
        var stored := Next(h, Store(number, endpoint, customer, policy, work));
        In(Now(h)) && Now(h) == Next(stored, Forward(number, Request(downstreamId, Some(|old(table.rows)|))))
      ensures authorized ==>
        var id, k := old(nextId), |old(table.rows)|;
        && pending == old(pending)[id := Request(downstreamId, Some(k))]
        && |table.rows| == k + 1 && table.rows[..k] == old(table.rows)
        && var row := table.rows[k];
           && row.session == number && row.endpoint == endpoint && row.customer == customer && row.policy == policy
           && row.work == work && row.status == Pending && row.batch == None && !row.deleted
           && row.place == Forwarded(id) && row.verdict == None
    {
      hide Inv;
      if !authorized {
        assert Now(h) == h;
        return None;
      }
      ghost var stored := Next(h, Store(number, endpoint, customer, policy, work));
      StoreKeeps(h, number, endpoint, customer, policy, work);
      var k := table.Insert(number, endpoint, customer, policy, work);
      ghost var request := Request(downstreamId, Some(k));
      ForwardKeeps(stored, number, request);
      var id := nextId;
      nextId := nextId + 1;
      pending := pending[id := Request(downstreamId, Some(k))];
      table.rows := table.rows[k := table.rows[k].(place := Forwarded(id))];
      sent := sent + [Outbound(id, request)];
      assert Now(h) == Next(stored, Forward(number, request));
      return Some(id);
    }

    /** `onUpstream` for a reply. An id that is not pending is ignored. A share's answer is recorded,
        with the counter, before the reply goes down under the original id; if the transaction fails
        (`writes` is false, or the row is gone) there is no reply. */
    method OnUpstream(id: nat, answer: Answer, writes: bool, ghost h: Hub) returns (reply: Option<RpcId>)
      requires In(h)
      modifies this, table`rows
      ensures id !in old(pending) ==> reply == None && table.rows == old(table.rows)
      ensures pending == old(pending) - {id}
      ensures reply.Some? ==> id in old(pending) && reply == Some(old(pending)[id].downstreamId)
      ensures id in old(pending) && old(pending)[id].share.None? ==> reply.Some?
      ensures id in old(pending) && old(pending)[id].share.Some? ==>
        var k := old(pending)[id].share.value;
        && k < |table.rows| == |old(table.rows)|
        && (reply.Some? <==> writes && !old(table.rows)[k].deleted)
        && table.rows[k].status == (if reply.None? then old(table.rows)[k].status
                                    else if SaysYes(rule, answer) then Accepted else Rejected)
      ensures var received := Next(h, Receive(number, id, answer));
              In(Now(h)) && Now(h) == if id in old(pending) && old(pending)[id].share.Some?
                                      then Next(received, if writes then Record(number, id) else Fail(number, id))
                                      else received
    {
      hide Inv, SessionOk, RowOk, Accepts, SaysYes, Resolved, RecordStep, FailStep;
      ghost var received := Next(h, Receive(number, id, answer));
      ReceiveKeeps(h, number, id, answer);
      SessionHolds(h, number);
      inbox := inbox + [Inbound(id, answer)];
      if id !in pending {
        assert pending - {id} == pending;
        assert Now(h) == received;
        return None;
      }
      PendingHolds(h.sessions[number], number, h.rows, id);
      var request := pending[id];
      pending := pending - {id};
      if request.share.None? {
        outbox := outbox + [Reply(id, request.downstreamId)];
        assert Now(h) == received;
        return Some(request.downstreamId);
      }
      NextKeeps(received, if writes then Record(number, id) else Fail(number, id));
      AnswerEffect(h, number, id, answer, writes);
      reply := RecordAnswer(id, request, answer, writes);
      assert Now(h) == Answered'(h, number, id, answer, writes);
    }

    /** `resolve`, called with the request already out of the pending map. */
    method RecordAnswer(id: nat, request: Request, answer: Answer, writes: bool) returns (reply: Option<RpcId>)
      requires request.share.Some? && request.share.value < |table.rows|
      modifies this`accepted, this`rejected, this`outbox, table`rows
      ensures var k := request.share.value; var row := old(table.rows)[k]; var yes := SaysYes(rule, answer);
              if writes && !row.deleted then
                && reply == Some(request.downstreamId) && outbox == old(outbox) + [Reply(id, request.downstreamId)]
                && table.rows == old(table.rows)[k := row.(status := if yes then Accepted else Rejected,
                                                           verdict := Some(yes), place := Recorded(id, answer))]
                && accepted == old(accepted) + (if yes then 1 else 0)
                && rejected == old(rejected) + (if yes then 0 else 1)
              else
                && reply == None && outbox == old(outbox) && accepted == old(accepted) && rejected == old(rejected)
                && table.rows == old(table.rows)[k := row.(place := Lost(id, answer))]
    {
      AcceptanceIsPositive(answer);
      var k := request.share.value;
      var row := table.rows[k];
      if !writes || row.deleted {
        table.rows := table.rows[k := row.(place := Lost(id, answer))];
        return None;
      }
      if Accepts(rule, answer) {
        accepted := accepted + 1;
      } else {
        rejected := rejected + 1;
      }
      table.rows := table.rows[k := Resolved(row, Accepts(rule, answer)).(place := Recorded(id, answer))];
      outbox := outbox + [Reply(id, request.downstreamId)];
      return Some(request.downstreamId);
    }

    /** `close`: once only; pending shares become UNKNOWN unless the write fails, and the pending map
        is emptied either way. */
    method Close(writes: bool, ghost h: Hub)
      requires In(h)
      modifies this, table`rows
      ensures closing && (old(closing) ==> State() == old(State()) && table.rows == old(table.rows))
      ensures !old(closing) ==> pending == map[]
      ensures !old(closing) && writes ==>
        && |table.rows| == |old(table.rows)|
        && forall k :: 0 <= k < |table.rows| ==>
          var row := old(table.rows)[k];
          table.rows[k] == if !row.deleted && row.status == Pending && Holds(old(pending), k)
                           then row.(status := Unknown) else row
      ensures In(Now(h)) && Now(h) == Closed(h, number, writes) && authorized == old(authorized)
    {
      hide Inv, Closed, MarkUnknown, SharesOf, Holds;
      HoldsItsShares(pending);
      CloseEffect(h, number, writes);
      if closing {
        assert Now(h) == h;
        return;
      }
      closing := true;
      var shares := SharesOf(pending);
      unknowns := shares;
      if writes {
        table.SetUnknown(shares);
      }
      pending := map[];
      assert Now(h) == Closed(h, number, writes);
    }
  }
}
