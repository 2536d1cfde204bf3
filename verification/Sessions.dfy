/** What every step of the gateway keeps, and what follows for every interleaving. */
module Sessions {
  import opened Common
  import opened Shares
  import opened Gateway
  import Deposits

  // ---------------------------------------------------------------- frames

  /** A session only ever sends and receives more. */
  ghost predicate Grows(s: Session, s': Session) {
    s'.rule == s.rule && s.sent <= s'.sent && s.inbox <= s'.inbox && s.outbox <= s'.outbox
  }

  lemma RowSurvives(row: Share, k: nat, sessions: seq<Session>, n: nat, c: nat, s': Session)
    requires RowOk(row, k, sessions, n) && c < |sessions| && Grows(sessions[c], s')
    ensures RowOk(row, k, sessions[c := s'], n)
  {
  }

  /** A session is not concerned by a row of another session. */
  lemma OtherSession(s: Session, d: nat, rows: seq<Share>, k: nat, row: Share)
    requires SessionOk(s, d, rows) && k < |rows| && rows[k].session != d && row.session != d
    ensures SessionOk(s, d, rows[k := row])
  {
    hide Replied;
    CountUpdate(Verdicts(d, true), rows, k, row);
    CountUpdate(Verdicts(d, false), rows, k, row);
  }

  /** Nor is a batch by a row that does not change its batch. */
  lemma OtherBatch(groups: seq<Deposits.Group>, b: nat, rows: seq<Share>, rows': seq<Share>)
    requires BatchOk(groups, b, rows) && |rows'| == |rows|
    requires forall i :: 0 <= i < |rows| ==> SameLot(rows[i], rows'[i])
    ensures BatchOk(groups, b, rows')
  {
    forall c, p
      ensures GroupWork(groups, c, p) ==
        if Work(InBatch(b, c, p), rows') > 0.0 then Work(InBatch(b, c, p), rows') else 0.0
    {
      SameWork(InBatch(b, c, p), rows, InBatch(b, c, p), rows');
    }
  }

  predicate SameLot(row: Share, row': Share) {
    && row'.work == row.work && row'.batch == row.batch && row'.customer == row.customer && row'.policy == row.policy
    && row'.endpoint == row.endpoint
  }

  /** A step of one session that rewrites one of its own rows. */
  lemma OwnRowKeeps(h: Hub, c: nat, s': Session, k: nat, row: Share)
    requires Inv(h) && c < |h.sessions| && k < |h.rows| && Grows(h.sessions[c], s')
    requires h.rows[k].session == row.session == c && SameLot(h.rows[k], row)
    requires SessionOk(s', c, h.rows[k := row])
    requires RowOk(row, k, h.sessions[c := s'], |h.batches|)
    ensures Inv(h.(sessions := h.sessions[c := s'], rows := h.rows[k := row]))
  {
    hide SessionOk, RowOk, BatchOk;
    var h' := h.(sessions := h.sessions[c := s'], rows := h.rows[k := row]);
    forall d | 0 <= d < |h'.sessions| ensures SessionOk(h'.sessions[d], d, h'.rows) {
      if d != c {
        OtherSession(h.sessions[d], d, h.rows, k, row);
      }
    }
    forall i | 0 <= i < |h'.rows| ensures RowOk(h'.rows[i], i, h'.sessions, |h'.batches|) {
      if i != k {
        RowSurvives(h.rows[i], i, h.sessions, |h.batches|, c, s');
      }
    }
    forall b | 0 <= b < |h'.batches| ensures BatchOk(h'.batches[b], b, h'.rows) {
      OtherBatch(h.batches[b], b, h.rows, h'.rows);
    }
  }

  /** A step of one session that touches no row. */
  lemma NoRowKeeps(h: Hub, c: nat, s': Session)
    requires Inv(h) && c < |h.sessions| && Grows(h.sessions[c], s') && SessionOk(s', c, h.rows)
    ensures Inv(h.(sessions := h.sessions[c := s']))
  {
    hide SessionOk, RowOk, BatchOk;
    forall i | 0 <= i < |h.rows| ensures RowOk(h.rows[i], i, h.sessions[c := s'], |h.batches|) {
      RowSurvives(h.rows[i], i, h.sessions, |h.batches|, c, s');
    }
  }

  /** What the bulk updates leave alone. */
  predicate SameLife(row: Share, row': Share) {
    && row'.session == row.session && row'.place == row.place && row'.verdict == row.verdict
    && row'.work == row.work && row'.customer == row.customer && row'.policy == row.policy
    && row'.endpoint == row.endpoint
  }

  lemma BulkSession(s: Session, c: nat, rows: seq<Share>, rows': seq<Share>)
    requires SessionOk(s, c, rows) && |rows'| == |rows|
    requires forall i :: 0 <= i < |rows| ==> SameLife(rows[i], rows'[i])
    ensures SessionOk(s, c, rows')
  {
    hide Replied;
    SameWork(Verdicts(c, true), rows, Verdicts(c, true), rows');
    SameWork(Verdicts(c, false), rows, Verdicts(c, false), rows');
  }

  lemma BulkKeeps(h: Hub, rows': seq<Share>)
    requires Inv(h) && |rows'| == |h.rows|
    requires forall i :: 0 <= i < |rows'| ==>
      SameLife(h.rows[i], rows'[i]) && rows'[i].batch == h.rows[i].batch && RowOk(rows'[i], i, h.sessions, |h.batches|)
    ensures Inv(h.(rows := rows'))
  {
    hide SessionOk, RowOk, BatchOk;
    forall c | 0 <= c < |h.sessions| ensures SessionOk(h.sessions[c], c, rows') {
      BulkSession(h.sessions[c], c, h.rows, rows');
    }
    forall b | 0 <= b < |h.batches| ensures BatchOk(h.batches[b], b, rows') {
      OtherBatch(h.batches[b], b, h.rows, rows');
    }
  }

  // ---------------------------------------------------------------- the steps

  lemma ConnectKeeps(h: Hub, rule: Rule)
    requires Inv(h)
    ensures Inv(Next(h, Connect(rule)))
  {
    hide BatchOk;
    var c := |h.sessions|;
    forall i | 0 <= i < |h.rows|
      ensures RowOk(h.rows[i], i, h.sessions + [NewSession(rule)], |h.batches|) && h.rows[i].session != c {
      assert RowOk(h.rows[i], i, h.sessions, |h.batches|);
    }
    NoWork(Verdicts(c, true), h.rows);
    NoWork(Verdicts(c, false), h.rows);
    assert SessionOk(NewSession(rule), c, h.rows);
  }

  lemma StoreKeeps(h: Hub, c: nat, endpoint: nat, customer: nat, policy: nat, work: real)
    requires Inv(h) && c < |h.sessions|
    ensures Inv(StoreStep(h, c, endpoint, customer, policy, work))
  {
    hide SessionOk, BatchOk;
    var h' := StoreStep(h, c, endpoint, customer, policy, work);
    var row := h'.rows[|h.rows|];
    forall d | 0 <= d < |h.sessions| ensures SessionOk(h.sessions[d], d, h'.rows) {
      AppendSession(h.sessions[d], d, h.rows, row);
    }
    forall b | 0 <= b < |h.batches| ensures BatchOk(h.batches[b], b, h'.rows) {
      AppendBatch(h.batches[b], b, h.rows, row);
    }
  }

  lemma AppendSession(s: Session, d: nat, rows: seq<Share>, row: Share)
    requires SessionOk(s, d, rows) && row.verdict.None?
    ensures SessionOk(s, d, rows + [row])
  {
    hide Replied;
    CountAppend(Verdicts(d, true), rows, row);
    CountAppend(Verdicts(d, false), rows, row);
  }

  lemma AppendBatch(groups: seq<Deposits.Group>, b: nat, rows: seq<Share>, row: Share)
    requires BatchOk(groups, b, rows) && row.batch.None?
    ensures BatchOk(groups, b, rows + [row])
  {
    assert (rows + [row])[..|rows|] == rows;
  }

  lemma ForwardKeeps(h: Hub, c: nat, request: Request)
    requires Inv(h) && c < |h.sessions|
    ensures Inv(ForwardStep(h, c, request))
  {
    hide Inv, SessionOk, RowOk;
    var s := h.sessions[c];
    var s' := Forwarding(s, request);
    SessionHolds(h, c);
    match request.share
    case None =>
      ForwardedSession(s, c, h.rows, request);
      NoRowKeeps(h, c, s');
    case Some(k) =>
      if k < |h.rows| && h.rows[k].session == c && h.rows[k].place == AtGateway {
        var row := h.rows[k].(place := Forwarded(s.nextId));
        RowHolds(h, k);
        CountUpdate(Verdicts(c, true), h.rows, k, row);
        CountUpdate(Verdicts(c, false), h.rows, k, row);
        FreshRowElsewhere(s, c, h.rows, k, row);
        ForwardedSession(s, c, h.rows[k := row], request);
        ForwardedRow(h, c, k, request);
        OwnRowKeeps(h, c, s', k, row);
      }
  }

  lemma SessionHolds(h: Hub, c: nat)
    requires Inv(h) && c < |h.sessions|
    ensures SessionOk(h.sessions[c], c, h.rows) && h.sessions[c].nextId == |h.sessions[c].sent| + 1
  {
  }

  lemma RowHolds(h: Hub, k: nat)
    requires Inv(h) && k < |h.rows|
    ensures RowOk(h.rows[k], k, h.sessions, |h.batches|)
  {
  }

  /** No request of the session refers to a row that is still at the gateway. */
  lemma FreshRowElsewhere(s: Session, c: nat, rows: seq<Share>, k: nat, row: Share)
    requires SessionOk(s, c, rows) && k < |rows| && rows[k].place == AtGateway
    requires row == rows[k].(place := row.place)
    ensures SessionOk(s, c, rows[k := row])
  {
    hide Replied;
    CountUpdate(Verdicts(c, true), rows, k, row);
    CountUpdate(Verdicts(c, false), rows, k, row);
  }

  lemma ForwardedSession(s: Session, c: nat, rows: seq<Share>, request: Request)
    requires SessionOk(s, c, rows) && HeldAt(rows, c, request, Forwarded(s.nextId))
    ensures SessionOk(Forwarding(s, request), c, rows)
  {
    var s' := Forwarding(s, request);
    forall id | id in s'.pending ensures !Replied(s', id) && id !in s'.recording {
      if id == s.nextId {
        assert forall i :: 0 <= i < |s.outbox| ==> WasSent(s, s.outbox[i].id);
      } else {
        assert Replied(s', id) ==> Replied(s, id);
      }
    }
    forall id | id in s'.recording ensures !Replied(s', id) {
      assert Replied(s', id) ==> Replied(s, id);
    }
    forall i | 0 <= i < |s'.sent| && s'.sent[i].request.share.Some?
      ensures ForwardedAs(rows, c, s'.sent[i].request.share.value, i + 1) {
      assert i < |s.sent| ==> s'.sent[i] == s.sent[i];
    }
  }

  lemma ForwardedRow(h: Hub, c: nat, k: nat, request: Request)
    requires c < |h.sessions| && k < |h.rows| && request.share == Some(k) && h.rows[k].session == c
    requires h.rows[k].place == AtGateway
    requires RowOk(h.rows[k], k, h.sessions, |h.batches|) && h.sessions[c].nextId == |h.sessions[c].sent| + 1
    ensures RowOk(h.rows[k].(place := Forwarded(h.sessions[c].nextId)), k,
      h.sessions[c := Forwarding(h.sessions[c], request)], |h.batches|)
  {
  }

  // ---------------------------------------------------------------- answers

  lemma ReceiveKeeps(h: Hub, c: nat, id: nat, answer: Answer)
    requires Inv(h) && c < |h.sessions|
    ensures Inv(ReceiveStep(h, c, id, answer))
  {
    hide Inv, SessionOk, RowOk;
    var s := h.sessions[c];
    var s' := Receiving(s, id, answer);
    SessionHolds(h, c);
    if id !in s.pending || s.pending[id].share.None? {
      ReceivedPlain(s, c, h.rows, id, answer);
      NoRowKeeps(h, c, s');
    } else {
      PendingHolds(s, c, h.rows, id);
      var k := s.pending[id].share.value;
      var row := h.rows[k].(place := Answered(id, answer));
      RowHolds(h, k);
      ReceivedShare(s, c, h.rows, id, answer);
      ReceivedRow(h, c, k, id, answer);
      OwnRowKeeps(h, c, s', k, row);
    }
  }

  lemma PendingHolds(s: Session, c: nat, rows: seq<Share>, id: nat)
    requires SessionOk(s, c, rows) && id in s.pending
    ensures WasSent(s, id) && s.pending[id] == s.sent[id - 1].request && HeldAt(rows, c, s.pending[id], Forwarded(id))
  {
  }

  lemma ReceivedPlain(s: Session, c: nat, rows: seq<Share>, id: nat, answer: Answer)
    requires SessionOk(s, c, rows) && (id in s.pending ==> s.pending[id].share.None?)
    ensures SessionOk(Receiving(s, id, answer), c, rows)
  {
    hide HeldAt, ForwardedAs, Count, Replied;
    var s' := Receiving(s, id, answer);
    RepliedMore(s, s');
    if id in s.pending {
      forall i | 0 <= i < |s.outbox| ensures s.outbox[i].id != id {
        NotRepliedYet(s, id, i);
      }
    }
  }

  /** Only the last reply is new. */
  lemma RepliedMore(s: Session, s': Session)
    requires s.outbox <= s'.outbox && |s'.outbox| <= |s.outbox| + 1
    ensures forall id :: Replied(s', id) ==>
      Replied(s, id) || (|s'.outbox| == |s.outbox| + 1 && s'.outbox[|s.outbox|].id == id)
  {
    forall id | Replied(s', id)
      ensures Replied(s, id) || (|s'.outbox| == |s.outbox| + 1 && s'.outbox[|s.outbox|].id == id)
    {
      var i :| 0 <= i < |s'.outbox| && s'.outbox[i].id == id;
      assert i < |s.outbox| ==> s.outbox[i].id == id;
    }
  }

  /** Rewriting the row that request `id` holds disturbs no other request. */
  lemma RowMoved(s: Session, c: nat, rows: seq<Share>, id: nat, k: nat, row: Share)
    requires SessionOk(s, c, rows) && ForwardedAs(rows, c, k, id) && ForwardedAs(rows[k := row], c, k, id)
    ensures SentOk(s, c, rows[k := row])
    ensures forall d :: d in s.pending && d != id ==> HeldAt(rows[k := row], c, s.pending[d], Forwarded(d))
    ensures forall d :: d in s.recording && d != id ==>
      HeldAt(rows[k := row], c, s.recording[d].request, Answered(d, s.recording[d].answer))
  {
    hide Replied, Count, OutboxOk;
  }

  lemma ReceivedShare(s: Session, c: nat, rows: seq<Share>, id: nat, answer: Answer)
    requires SessionOk(s, c, rows) && id in s.pending && s.pending[id].share.Some? && s.pending[id].share.value < |rows|
    ensures var k := s.pending[id].share.value;
            SessionOk(Receiving(s, id, answer), c, rows[k := rows[k].(place := Answered(id, answer))])
  {
    hide Replied, Counts, Count, PendingOk, RecordingOk, SentOk;
    var k := s.pending[id].share.value;
    var rows' := rows[k := rows[k].(place := Answered(id, answer))];
    HoldsItsRow(s, c, rows, id);
    MovedRowCounts(c, rows, k, rows'[k]);
    RowMoved(s, c, rows, id, k, rows'[k]);
    ReceivedPending(s, c, rows, id, answer);
    ReceivedRecording(s, c, rows, id, answer);
    SentUnchanged(s, Receiving(s, id, answer), c, rows');
  }

  lemma HoldsItsRow(s: Session, c: nat, rows: seq<Share>, id: nat)
    requires SessionOk(s, c, rows) && id in s.pending && s.pending[id].share.Some?
    ensures ForwardedAs(rows, c, s.pending[id].share.value, id)
  {
    PendingHolds(s, c, rows, id);
  }

  lemma SentUnchanged(s: Session, s': Session, c: nat, rows: seq<Share>)
    requires SentOk(s, c, rows) && s'.sent == s.sent && s'.nextId == s.nextId
    ensures SentOk(s', c, rows)
  {
  }

  lemma ReceivedPending(s: Session, c: nat, rows: seq<Share>, id: nat, answer: Answer)
    requires SessionOk(s, c, rows) && id in s.pending && s.pending[id].share.Some? && s.pending[id].share.value < |rows|
    ensures var k := s.pending[id].share.value;
            PendingOk(Receiving(s, id, answer), c, rows[k := rows[k].(place := Answered(id, answer))])
  {
    var s' := Receiving(s, id, answer);
    var k := s.pending[id].share.value;
    HoldsItsRow(s, c, rows, id);
    RowMoved(s, c, rows, id, k, rows[k].(place := Answered(id, answer)));
    SameReplies(s, s');
    hide Replied, HeldAt, RecordingOk, SentOk, OutboxOk, CountersOk;
  }

  lemma ReceivedRecording(s: Session, c: nat, rows: seq<Share>, id: nat, answer: Answer)
    requires SessionOk(s, c, rows) && id in s.pending && s.pending[id].share.Some? && s.pending[id].share.value < |rows|
    ensures var k := s.pending[id].share.value;
            RecordingOk(Receiving(s, id, answer), c, rows[k := rows[k].(place := Answered(id, answer))])
  {
    var s' := Receiving(s, id, answer);
    var k := s.pending[id].share.value;
    var rows' := rows[k := rows[k].(place := Answered(id, answer))];
    HoldsItsRow(s, c, rows, id);
    RowMoved(s, c, rows, id, k, rows'[k]);
    SameReplies(s, s');
    assert HeldAt(rows', c, s.pending[id], Answered(id, answer));
    hide Replied, HeldAt, SentOk, OutboxOk, CountersOk;
  }

  lemma MovedRowCounts(c: nat, rows: seq<Share>, k: nat, row: Share)
    requires k < |rows| && row == rows[k].(place := row.place)
    ensures forall accepted :: Count(Verdicts(c, accepted), rows[k := row]) == Count(Verdicts(c, accepted), rows)
  {
    CountUpdate(Verdicts(c, true), rows, k, row);
    CountUpdate(Verdicts(c, false), rows, k, row);
  }

  lemma SameReplies(s: Session, s': Session)
    requires s'.outbox == s.outbox
    ensures forall id :: Replied(s', id) <==> Replied(s, id)
  {
  }

  lemma ReceivedRow(h: Hub, c: nat, k: nat, id: nat, answer: Answer)
    requires c < |h.sessions| && k < |h.rows| && h.rows[k].session == c && h.rows[k].place == Forwarded(id)
    requires RowOk(h.rows[k], k, h.sessions, |h.batches|)
    ensures RowOk(h.rows[k].(place := Answered(id, answer)), k, h.sessions[c := Receiving(h.sessions[c], id, answer)],
      |h.batches|)
  {
  }

  lemma RecordingHolds(s: Session, c: nat, rows: seq<Share>, id: nat)
    requires SessionOk(s, c, rows) && id in s.recording
    ensures WasSent(s, id) && s.recording[id].request == s.sent[id - 1].request && s.recording[id].request.share.Some?
    ensures HeldAt(rows, c, s.recording[id].request, Answered(id, s.recording[id].answer))
  {
  }

  lemma RecordKeeps(h: Hub, c: nat, id: nat)
    requires Inv(h) && c < |h.sessions| && id in h.sessions[c].recording
    ensures Inv(RecordStep(h, c, id))
  {
    hide Inv, SessionOk, RowOk, Resolved;
    var s := h.sessions[c];
    SessionHolds(h, c);
    RecordingHolds(s, c, h.rows, id);
    var r := s.recording[id];
    var k := r.request.share.value;
    if h.rows[k].deleted {
      FailKeeps(h, c, id);
    } else {
      var row := Resolved(h.rows[k], Accepts(s.rule, r.answer)).(place := Recorded(id, r.answer));
      RowHolds(h, k);
      NotYetRecorded(h, k, id);
      RecordedSession(s, c, h.rows, id, k);
      RecordedRow(h, c, k, id);
      OwnRowKeeps(h, c, Replying(s, id), k, row);
    }
  }

  lemma NotYetRecorded(h: Hub, k: nat, id: nat)
    requires k < |h.rows| && RowOk(h.rows[k], k, h.sessions, |h.batches|) && h.rows[k].place.Answered?
    ensures h.rows[k].verdict.None?
  {
  }

  /** The row as the recorded answer leaves it. */
  function RecordedAs(row: Share, rule: Rule, id: nat, answer: Answer): Share {
    Resolved(row, Accepts(rule, answer)).(place := Recorded(id, answer))
  }

  lemma RecordedSession(s: Session, c: nat, rows: seq<Share>, id: nat, k: nat)
    requires SessionOk(s, c, rows) && id in s.recording && s.recording[id].request.share == Some(k) && k < |rows|
    requires rows[k].verdict.None?
    ensures var row := RecordedAs(rows[k], s.rule, id, s.recording[id].answer);
            SessionOk(Replying(s, id), c, rows[k := row])
            && row.session == rows[k].session == c && SameLot(rows[k], row)
  {
    var row := RecordedAs(rows[k], s.rule, id, s.recording[id].answer);
    RecordingHolds(s, c, rows, id);
    RowMoved(s, c, rows, id, k, row);
    RecordedCounters(s, c, rows, id, k);
    RecordedRest(s, c, rows, id, k, row);
    hide HeldAt, Replied, PendingOk, RecordingOk, SentOk, OutboxOk, CountersOk;
  }

  lemma RecordedCounters(s: Session, c: nat, rows: seq<Share>, id: nat, k: nat)
    requires CountersOk(s, c, rows) && id in s.recording && k < |rows| && rows[k].session == c && rows[k].verdict.None?
    ensures CountersOk(Replying(s, id), c, rows[k := RecordedAs(rows[k], s.rule, id, s.recording[id].answer)])
  {
    var row := RecordedAs(rows[k], s.rule, id, s.recording[id].answer);
    CountUpdate(Verdicts(c, true), rows, k, row);
    CountUpdate(Verdicts(c, false), rows, k, row);
  }

  lemma RecordedRest(s: Session, c: nat, rows: seq<Share>, id: nat, k: nat, row: Share)
    requires PendingOk(s, c, rows) && RecordingOk(s, c, rows) && OutboxOk(s) && id in s.recording && k < |rows|
    requires SentOk(s, c, rows[k := row])
    requires forall d :: d in s.pending && d != id ==> HeldAt(rows[k := row], c, s.pending[d], Forwarded(d))
    requires forall d :: d in s.recording && d != id ==>
      HeldAt(rows[k := row], c, s.recording[d].request, Answered(d, s.recording[d].answer))
    ensures var s' := Replying(s, id);
            PendingOk(s', c, rows[k := row]) && RecordingOk(s', c, rows[k := row]) && OutboxOk(s') &&
              SentOk(s', c, rows[k := row])
  {
    hide HeldAt, ForwardedAs, Replied;
    var s' := Replying(s, id);
    RepliedMore(s, s');
    forall i | 0 <= i < |s.outbox| ensures s.outbox[i].id != id {
      NotRepliedYet(s, id, i);
    }
  }

  lemma NotRepliedYet(s: Session, id: nat, i: nat)
    requires !Replied(s, id) && i < |s.outbox|
    ensures s.outbox[i].id != id
  {
  }

  lemma RecordedRow(h: Hub, c: nat, k: nat, id: nat)
    requires c < |h.sessions| && k < |h.rows| && h.rows[k].session == c && id in h.sessions[c].recording
    requires !h.rows[k].deleted
    requires h.rows[k].place == Answered(id, h.sessions[c].recording[id].answer)
    requires RowOk(h.rows[k], k, h.sessions, |h.batches|)
    ensures var r := h.sessions[c].recording[id];
            RowOk(Resolved(h.rows[k], Accepts(h.sessions[c].rule, r.answer)).(place := Recorded(id, r.answer)), k,
                  h.sessions[c := Replying(h.sessions[c], id)], |h.batches|)
  {
  }

  lemma FailKeeps(h: Hub, c: nat, id: nat)
    requires Inv(h) && c < |h.sessions| && id in h.sessions[c].recording
    ensures Inv(FailStep(h, c, id))
  {
    hide Inv, SessionOk, RowOk;
    var s := h.sessions[c];
    SessionHolds(h, c);
    RecordingHolds(s, c, h.rows, id);
    var k := s.recording[id].request.share.value;
    RowHolds(h, k);
    var row := h.rows[k].(place := Lost(id, s.recording[id].answer));
    FailedSession(s, c, h.rows, id, k);
    FailedRow(h, c, k, id);
    OwnRowKeeps(h, c, s.(recording := s.recording - {id}), k, row);
  }

  lemma FailedSession(s: Session, c: nat, rows: seq<Share>, id: nat, k: nat)
    requires SessionOk(s, c, rows) && id in s.recording && s.recording[id].request.share == Some(k) && k < |rows|
    ensures SessionOk(s.(recording := s.recording - {id}), c,
      rows[k := rows[k].(place := Lost(id, s.recording[id].answer))])
  {
    hide Replied, Counts, Count;
    var s' := s.(recording := s.recording - {id});
    var rows' := rows[k := rows[k].(place := Lost(id, s.recording[id].answer))];
    MovedRowCounts(c, rows, k, rows'[k]);
    SameReplies(s, s');
  }

  lemma FailedRow(h: Hub, c: nat, k: nat, id: nat)
    requires c < |h.sessions| && k < |h.rows| && h.rows[k].session == c && id in h.sessions[c].recording
    requires h.rows[k].place == Answered(id, h.sessions[c].recording[id].answer)
    requires RowOk(h.rows[k], k, h.sessions, |h.batches|)
    ensures var s := h.sessions[c];
            RowOk(h.rows[k].(place := Lost(id, s.recording[id].answer)), k,
              h.sessions[c := s.(recording := s.recording - {id})], |h.batches|)
  {
  }

  // ---------------------------------------------------------------- closing and clean-up

  lemma CloseKeeps(h: Hub, step: Step)
    requires Inv(h) && (step.CloseBegin? || step.CloseClear?)
    ensures Inv(Next(h, step))
  {
    hide Inv, SessionOk, RowOk;
    var c := step.c;
    if Next(h, step) != h {
      SessionHolds(h, c);
      ClosingSession(h.sessions[c], c, h.rows);
      NoRowKeeps(h, c, Next(h, step).sessions[c]);
    }
  }

  lemma ClosingSession(s: Session, c: nat, rows: seq<Share>)
    requires SessionOk(s, c, rows)
    ensures SessionOk(s.(pending := map[]), c, rows)
    ensures SessionOk(s.(closing := true, unknowns := SharesOf(s.pending)), c, rows)
  {
    hide Replied;
    SameReplies(s, s.(pending := map[]));
    SameReplies(s, s.(closing := true, unknowns := SharesOf(s.pending)));
  }

  lemma UnknownKeeps(h: Hub, refs: set<nat>)
    requires Inv(h)
    ensures Inv(h.(rows := MarkUnknown(h.rows, refs)))
  {
    hide SessionOk, BatchOk;
    BulkKeeps(h, MarkUnknown(h.rows, refs));
  }

  lemma PruneKeeps(h: Hub, old': set<nat>)
    requires Inv(h)
    ensures Inv(h.(rows := Pruned(h.rows, old')))
  {
    hide SessionOk, BatchOk;
    BulkKeeps(h, Pruned(h.rows, old'));
  }

  lemma AllocateKeeps(h: Hub, endpoints: set<nat>)
    requires Inv(h)
    ensures Inv(AllocateStep(h, endpoints))
  {
    hide SessionOk, BatchOk, Grouped;
    var h' := AllocateStep(h, endpoints);
    var n := |h.batches|;
    if h' != h {
      forall c | 0 <= c < |h.sessions| ensures SessionOk(h.sessions[c], c, h'.rows) {
        BulkSession(h.sessions[c], c, h.rows, h'.rows);
      }
      forall b | 0 <= b < |h'.batches| ensures BatchOk(h'.batches[b], b, h'.rows) {
        if b < n {
          OlderBatch(h, b, h'.rows);
        } else {
          NewBatch(h, endpoints);
        }
      }
    }
  }

  lemma OlderBatch(h: Hub, b: nat, rows': seq<Share>)
    requires b < |h.batches| && BatchOk(h.batches[b], b, h.rows) && |rows'| == |h.rows|
    requires forall i :: 0 <= i < |rows'| ==>
      SameLife(h.rows[i], rows'[i]) && (rows'[i].batch == Some(b) <==> h.rows[i].batch == Some(b))
    ensures BatchOk(h.batches[b], b, rows')
  {
    forall c, p
      ensures GroupWork(h.batches[b], c, p) ==
        if Work(InBatch(b, c, p), rows') > 0.0 then Work(InBatch(b, c, p), rows') else 0.0
    {
      SameWork(InBatch(b, c, p), h.rows, InBatch(b, c, p), rows');
    }
  }

  /** The new batch's items carry exactly the work of the rows it marks. */
  lemma NewBatch(h: Hub, endpoints: set<nat>)
    requires forall k :: 0 <= k < |h.rows| ==> RowOk(h.rows[k], k, h.sessions, |h.batches|)
    ensures BatchOk(Deposits.WithWork(Grouped(h.rows, endpoints)), |h.batches|, Marked(h.rows, endpoints, |h.batches|))
  {
    hide Grouped, Work;
    var b := |h.batches|;
    var groups := Grouped(h.rows, endpoints);
    var rows' := Marked(h.rows, endpoints, b);
    forall c, p
      ensures GroupWork(Deposits.WithWork(groups), c, p) ==
        if Work(InBatch(b, c, p), rows') > 0.0 then Work(InBatch(b, c, p), rows') else 0.0
    {
      GroupedWork(h.rows, endpoints, c, p);
      FilteredWork(groups, c, p);
      forall i | 0 <= i < |h.rows|
        ensures Counts(Eligible(endpoints, c, p), h.rows[i]) <==> Counts(InBatch(b, c, p), rows'[i]) {
        assert RowOk(h.rows[i], i, h.sessions, b);
      }
      SameWork(Eligible(endpoints, c, p), h.rows, InBatch(b, c, p), rows');
    }
  }

  lemma NextKeeps(h: Hub, step: Step)
    requires Inv(h)
    ensures Inv(Next(h, step))
  {
    hide Inv, StoreStep, ForwardStep, ReceiveStep, RecordStep, FailStep, AllocateStep, CloseBeginStep, CloseClearStep,
      MarkUnknown, Pruned;
    match step
    case Connect(rule) => ConnectKeeps(h, rule);
    case Store(c, endpoint, customer, policy, work) => SessionStepKeeps(h, step);
    case Forward(c, request) => SessionStepKeeps(h, step);
    case Receive(c, id, answer) => SessionStepKeeps(h, step);
    case Record(c, id) => SessionStepKeeps(h, step);
    case Fail(c, id) => SessionStepKeeps(h, step);
    case CloseBegin(c) => CloseKeeps(h, step);
    case CloseWrite(c) => if c < |h.sessions| { UnknownKeeps(h, h.sessions[c].unknowns); }
    case CloseClear(c) => CloseKeeps(h, step);
    case Reconcile(stale) => UnknownKeeps(h, stale);
    case Prune(old') => PruneKeeps(h, old');
    case Allocate(endpoints) => AllocateKeeps(h, endpoints);
  }

  /** The steps of a connected session, and their refusals. */
  lemma SessionStepKeeps(h: Hub, step: Step)
    requires Inv(h) && (step.Store? || step.Forward? || step.Receive? || step.Record? || step.Fail?)
    ensures Inv(Next(h, step))
  {
    hide Inv;
    if step.c < |h.sessions| {
      match step
      case Store(c, endpoint, customer, policy, work) => StoreKeeps(h, c, endpoint, customer, policy, work);
      case Forward(c, request) => ForwardKeeps(h, c, request);
      case Receive(c, id, answer) => ReceiveKeeps(h, c, id, answer);
      case Record(c, id) => if id in h.sessions[c].recording { RecordKeeps(h, c, id); }
      case Fail(c, id) => if id in h.sessions[c].recording { FailKeeps(h, c, id); }
    }
  }

  lemma {:induction false} EveryRun(steps: seq<Step>)
    ensures Inv(Run(IDLE, steps))
  {
    hide Next;
    if |steps| > 0 {
      EveryRun(steps[..|steps| - 1]);
      NextKeeps(Run(IDLE, steps[..|steps| - 1]), steps[|steps| - 1]);
    }
  }
}
