/** What the gateway promises about shares and ids, over all interleavings. */
module ShareGuarantees {
  import opened Common
  import opened Shares
  import opened Gateway
  import opened Sessions
  import Deposits

  // ---------------------------------------------------------------- status and answers

  /** The status of a share is the pool's answer if one was recorded, and otherwise PENDING or
      UNKNOWN. A recorded answer arrived under the very id that this share's request was sent with,
      and its verdict is that of the session's rule; so ACCEPTED stems from a matching accepting
      reply. */
  lemma StatusIsTheAnswer(steps: seq<Step>, k: nat)
    requires k < |Run(IDLE, steps).rows|
    ensures var h := Run(IDLE, steps); var row := h.rows[k];
            && row.session < |h.sessions|
            && (row.verdict.None? ==> row.status in {Pending, Unknown})
            && (row.verdict.Some? ==>
                  && row.status == (if row.verdict.value then Accepted else Rejected)
                  && AnsweredBy(h.sessions[row.session], k, row.verdict.value))
  {
    hide Run;
    EveryRun(steps);
    var h := Run(IDLE, steps);
    RowHolds(h, k);
    if h.rows[k].place.Recorded? {
      var place := h.rows[k].place;
      AcceptanceIsPositive(place.answer);
      assert Answers(h.sessions[h.rows[k].session], k, place.id, place.answer, h.rows[k].verdict.value);
    }
  }

  /** The session sent the share's request under `id` and received `answer` for it, which says yes or no. */
  predicate Answers(s: Session, k: nat, id: nat, answer: Answer, accepted: bool) {
    && WasSent(s, id) && s.sent[id - 1].request.share == Some(k) && Inbound(id, answer) in s.inbox
    && accepted == SaysYes(s.rule, answer)
  }

  ghost predicate AnsweredBy(s: Session, k: nat, accepted: bool) {
    exists id, answer :: Answers(s, k, id, answer, accepted)
  }

  /** The counters of a connection are the numbers of its shares with either verdict. */
  lemma CountersAreVerdicts(steps: seq<Step>, c: nat)
    requires c < |Run(IDLE, steps).sessions|
    ensures var h := Run(IDLE, steps);
            && h.sessions[c].accepted == Count(Verdicts(c, true), h.rows)
            && h.sessions[c].rejected == Count(Verdicts(c, false), h.rows)
  {
    hide Run;
    EveryRun(steps);
    SessionHolds(Run(IDLE, steps), c);
  }

  /** When a recorded share is ACCEPTED, over all runs and on the fields of its reply: behind a Bitcoin endpoint if
      the result is `true` and the error null or missing, behind a Monero endpoint unless the error is truthy or
      the result null or false. Otherwise it is REJECTED. */
  lemma AcceptedExactly(steps: seq<Step>, k: nat)
    requires k < |Run(IDLE, steps).rows| && Run(IDLE, steps).rows[k].place.Recorded?
    ensures var h := Run(IDLE, steps); var row := h.rows[k]; var reply := row.place.answer;
            && row.session < |h.sessions| && Inbound(row.place.id, reply) in h.sessions[row.session].inbox
            && row.status in {Accepted, Rejected}
            && (h.sessions[row.session].rule == BitcoinRule ==>
                  (row.status == Accepted <==>
                     reply.result == Bool(true) && (reply.error == Null || reply.error == Undefined)))
            && (h.sessions[row.session].rule == MoneroRule ==>
                  (row.status == Rejected <==>
                     reply.error == Bool(true) || reply.error == Truthy || reply.result == Null ||
                       reply.result == Bool(false)))
  {
    hide Run;
    EveryRun(steps);
    RowHolds(Run(IDLE, steps), k);
    AcceptanceIsPositive(Run(IDLE, steps).rows[k].place.answer);
  }

  // ---------------------------------------------------------------- UNKNOWN shares

  /** The handler of an answer for share k under `id` is about to record it, and the row is still there. */
  predicate AboutToRecord(h: Hub, c: nat, id: nat, k: nat) {
    && c < |h.sessions| && id in h.sessions[c].recording && h.sessions[c].recording[id].request.share == Some(k)
    && k < |h.rows| && !h.rows[k].deleted
  }

  /** Exactly when an UNKNOWN share is settled, over all runs: when the handler of its answer records it. */
  lemma UnknownIsSettledExactly(steps: seq<Step>, step: Step, k: nat)
    requires k < |Run(IDLE, steps).rows| && Run(IDLE, steps).rows[k].status == Unknown
    ensures var h := Run(IDLE, steps); var h' := Next(h, step);
            && k < |h'.rows|
            && (h'.rows[k].status in {Accepted, Rejected} <==> step.Record? && AboutToRecord(h, step.c, step.id, k))
  {
    hide Run, Grouped, Deposits.WithWork;
    EveryRun(steps);
    var h := Run(IDLE, steps);
    hide Inv;
    if step.Record? && step.c < |h.sessions| && step.id in h.sessions[step.c].recording {
      SessionHolds(h, step.c);
      RecordingHolds(h.sessions[step.c], step.c, h.rows, step.id);
    }
  }

  /** Such a run: the answer arrives while `close` waits for its own write. The share is UNKNOWN for a moment
      and then has the pool's verdict. */
  lemma LateAnswerSettles(rule: Rule, answer: Answer, work: real)
    ensures var before := [Connect(rule), Store(0, 0, 0, 0, work), Forward(0, Request(None, Some(0))), CloseBegin(0),
                           Receive(0, 1, answer), CloseWrite(0)];
            var h, h' := Run(IDLE, before), Run(IDLE, before + [Record(0, 1)]);
            && |h.rows| == |h'.rows| == 1 && h.rows[0].status == Unknown
            && h'.rows[0].status == if Accepts(rule, answer) then Accepted else Rejected
  {
    hide Accepts;
    var a := [Connect(rule), Store(0, 0, 0, 0, work)];
    var b := [Forward(0, Request(None, Some(0))), CloseBegin(0)];
    var c := [Receive(0, 1, answer), CloseWrite(0)];
    var d := [Record(0, 1)];
    var before := a + b + c;
    assert before == [Connect(rule), Store(0, 0, 0, 0, work), Forward(0, Request(None, Some(0))), CloseBegin(0),
                      Receive(0, 1, answer), CloseWrite(0)];
    StoredShare(rule, work);
    RunSplits(IDLE, a, b);
    ClosingShare(Run(IDLE, a), rule, work);
    RunSplits(IDLE, a + b, c);
    hide Run;
    UnknownShare(Run(IDLE, a + b), answer, rule, work);
    RunSplits(IDLE, before, d);
    RecordedShare(Run(IDLE, before), answer, rule, work);
  }

  /** Another: the periodic clean-up makes the share UNKNOWN while its session is open, and the answer comes
      after that. */
  lemma AnswerAfterCleanUpSettles(rule: Rule, answer: Answer, work: real)
    ensures var before := [Connect(rule), Store(0, 0, 0, 0, work), Forward(0, Request(None, Some(0))), Reconcile({0})];
            var h, h' := Run(IDLE, before), Run(IDLE, before + [Receive(0, 1, answer), Record(0, 1)]);
            && |h.rows| == |h'.rows| == |h.sessions| == 1 && h.rows[0].status == Unknown && !h.sessions[0].closing
            && h'.rows[0].status == if Accepts(rule, answer) then Accepted else Rejected
  {
    hide Accepts, Run;
    var a, b := [Connect(rule), Store(0, 0, 0, 0, work)], [Forward(0, Request(None, Some(0))), Reconcile({0})];
    var c := [Receive(0, 1, answer), Record(0, 1)];
    var before := a + b;
    assert before == [Connect(rule), Store(0, 0, 0, 0, work), Forward(0, Request(None, Some(0))), Reconcile({0})];
    StoredShare(rule, work);
    RunSplits(IDLE, a, b);
    CleanedUpShare(Run(IDLE, a), rule, work);
    RunSplits(IDLE, before, c);
    AnsweredShare(Run(IDLE, before), answer, rule, work);
  }

  ghost predicate CleanedUpHub(h: Hub, rule: Rule, work: real) {
    && h.rows == [FirstShare(work, Unknown, Forwarded(1))] && |h.sessions| == 1
    && var s := h.sessions[0];
       s.rule == rule && !s.closing && 1 in s.pending && s.pending[1] == Request(None, Some(0))
  }

  lemma CleanedUpShare(h: Hub, rule: Rule, work: real)
    requires h == Hub([FirstShare(work, Pending, AtGateway)], [], [NewSession(rule)])
    ensures CleanedUpHub(Run(h, [Forward(0, Request(None, Some(0))), Reconcile({0})]), rule, work)
  {
    hide Run;
    RunOfTwo(h, Forward(0, Request(None, Some(0))), Reconcile({0}));
    assert Next(h, Forward(0, Request(None, Some(0)))).rows == [FirstShare(work, Pending, Forwarded(1))];
  }

  lemma AnsweredShare(h: Hub, answer: Answer, rule: Rule, work: real)
    requires CleanedUpHub(h, rule, work)
    ensures var h' := Run(h, [Receive(0, 1, answer), Record(0, 1)]);
            |h'.rows| == 1 && h'.rows[0].status == if Accepts(rule, answer) then Accepted else Rejected
  {
    hide Run, Accepts;
    RunOfTwo(h, Receive(0, 1, answer), Record(0, 1));
    assert Next(h, Receive(0, 1, answer)).rows == [FirstShare(work, Unknown, Answered(1, answer))];
  }

  lemma RunOfTwo(h: Hub, a: Step, b: Step)
    ensures Run(h, [a, b]) == Next(Next(h, a), b) && Run(h, [a]) == Next(h, a)
  {
    hide Next;
    assert [a, b][..1] == [a] && [a][..0] == [];
    assert Run(h, []) == h;
    assert Run(h, [a]) == Next(h, a);
  }

  function FirstShare(work: real, status: Status, place: Place): Share {
    Share(0, 0, 0, 0, work, status, None, false, place, None)
  }

  lemma StoredShare(rule: Rule, work: real)
    ensures Run(IDLE, [Connect(rule), Store(0, 0, 0, 0, work)]) ==
      Hub([FirstShare(work, Pending, AtGateway)], [], [NewSession(rule)])
  {
    hide Run;
    RunOfTwo(IDLE, Connect(rule), Store(0, 0, 0, 0, work));
  }

  ghost predicate ClosingHub(h: Hub, rule: Rule, work: real) {
    && h.rows == [FirstShare(work, Pending, Forwarded(1))] && |h.sessions| == 1
    && var s := h.sessions[0];
       && s.rule == rule && s.closing && s.unknowns == {0} && 1 in s.pending && s.pending[1] == Request(None, Some(0))
  }

  lemma ClosingShare(h: Hub, rule: Rule, work: real)
    requires h == Hub([FirstShare(work, Pending, AtGateway)], [], [NewSession(rule)])
    ensures ClosingHub(Run(h, [Forward(0, Request(None, Some(0))), CloseBegin(0)]), rule, work)
  {
    hide Run;
    RunOfTwo(h, Forward(0, Request(None, Some(0))), CloseBegin(0));
    var f := Next(h, Forward(0, Request(None, Some(0))));
    assert f.sessions[0].pending == map[1 := Request(None, Some(0))];
    var p := map[1 := Request(None, Some(0))];
    assert 1 in p && p[1].share == Some(0);
    assert 0 in SharesOf(p);
    assert SharesOf(p) == {0};
  }

  ghost predicate UnknownHub(h: Hub, answer: Answer, rule: Rule, work: real) {
    && h.rows == [FirstShare(work, Unknown, Answered(1, answer))] && |h.sessions| == 1
    && h.sessions[0].rule == rule && 1 in h.sessions[0].recording
    && h.sessions[0].recording[1] == Recording(Request(None, Some(0)), answer)
  }

  lemma UnknownShare(h: Hub, answer: Answer, rule: Rule, work: real)
    requires ClosingHub(h, rule, work)
    ensures UnknownHub(Run(h, [Receive(0, 1, answer), CloseWrite(0)]), answer, rule, work)
  {
    hide Run;
    RunOfTwo(h, Receive(0, 1, answer), CloseWrite(0));
    var r := Next(h, Receive(0, 1, answer));
    assert r.rows == [FirstShare(work, Pending, Answered(1, answer))];
  }

  lemma RecordedShare(h: Hub, answer: Answer, rule: Rule, work: real)
    requires UnknownHub(h, answer, rule, work)
    ensures var h' := Run(h, [Record(0, 1)]);
            |h'.rows| == 1 && h'.rows[0].status == if Accepts(rule, answer) then Accepted else Rejected
  {
    hide Run, Accepts;
    RunOfTwo(h, Record(0, 1), Record(0, 1));
  }

  // ---------------------------------------------------------------- ids

  /** Upstream ids are 1, 2, 3 and so on; what is pending was sent, under an id below `nextId`; a
      reply carries the id its request came with, and no request is replied to twice or while it is
      still pending. */
  lemma IdsAreTranslated(steps: seq<Step>, c: nat)
    requires c < |Run(IDLE, steps).sessions|
    ensures var s := Run(IDLE, steps).sessions[c];
            && s.nextId == |s.sent| + 1 && (forall i :: 0 <= i < |s.sent| ==> s.sent[i].id == i + 1)
            && (forall id :: id in s.pending ==>
                  1 <= id < s.nextId && s.pending[id] == s.sent[id - 1].request && !Replied(s, id))
            && (forall i :: 0 <= i < |s.outbox| ==>
                  1 <= s.outbox[i].id < s.nextId &&
                    s.outbox[i].downstreamId == s.sent[s.outbox[i].id - 1].request.downstreamId)
            && (forall i, j :: 0 <= i < j < |s.outbox| ==> s.outbox[i].id != s.outbox[j].id)
  {
    hide Run, Replied;
    EveryRun(steps);
    SessionHolds(Run(IDLE, steps), c);
  }

  /** Different requests never share a share: one submit, one record. */
  lemma OneRequestPerShare(steps: seq<Step>, c: nat, d: nat, i: nat, j: nat)
    requires c < |Run(IDLE, steps).sessions| && d < |Run(IDLE, steps).sessions|
    requires i < |Run(IDLE, steps).sessions[c].sent| && j < |Run(IDLE, steps).sessions[d].sent|
    ensures var h := Run(IDLE, steps); var a, b := h.sessions[c].sent[i].request, h.sessions[d].sent[j].request;
            a.share.Some? && a.share == b.share ==> c == d && i == j
  {
    hide Run, Replied;
    EveryRun(steps);
    SessionHolds(Run(IDLE, steps), c);
    SessionHolds(Run(IDLE, steps), d);
  }

  /** Over all runs every submit that went upstream has its share's record: of the same session, past the
      submit handler, and carrying the id it went under. It was stored before: in the state in which the request
      was not sent yet, the record was there, still in the submit handler. */
  lemma SubmitFollowsStore(steps: seq<Step>, c: nat, i: nat)
    requires c < |Run(IDLE, steps).sessions| && i < |Run(IDLE, steps).sessions[c].sent|
    requires Run(IDLE, steps).sessions[c].sent[i].request.share.Some?
    ensures var h := Run(IDLE, steps); var k := h.sessions[c].sent[i].request.share.value;
            && ForwardedAs(h.rows, c, k, h.sessions[c].sent[i].id)
            && exists n :: 0 <= n < |steps| && SentBy(steps, n, c, i, k)
  {
    hide Run, Replied;
    EveryRun(steps);
    SessionHolds(Run(IDLE, steps), c);
    var n := SentAt(steps, c, i);
  }

  /** Step n sends request i of session c, whose share k is stored by then. */
  ghost predicate SentBy(steps: seq<Step>, n: nat, c: nat, i: nat, k: nat)
    requires n < |steps|
  {
    var h := Run(IDLE, steps[..n]);
    && steps[n].Forward? && steps[n].c == c && steps[n].request.share == Some(k)
    && c < |h.sessions| && |h.sessions[c].sent| == i
    && k < |h.rows| && h.rows[k].session == c && h.rows[k].place == AtGateway
  }

  lemma {:induction false} SentAt(steps: seq<Step>, c: nat, i: nat) returns (n: nat)
    requires c < |Run(IDLE, steps).sessions| && i < |Run(IDLE, steps).sessions[c].sent|
    requires Run(IDLE, steps).sessions[c].sent[i].request.share.Some?
    ensures n < |steps| && SentBy(steps, n, c, i, Run(IDLE, steps).sessions[c].sent[i].request.share.value)
  {
    hide Next;
    var m := |steps| - 1;
    var before := Run(IDLE, steps[..m]);
    Sending(before, steps[m], c);
    if c < |before.sessions| && i < |before.sessions[c].sent| {
      n := SentAt(steps[..m], c, i);
      assert steps[..m][..n] == steps[..n];
    } else {
      n := m;
    }
  }

  /** What one step sends. */
  lemma Sending(h: Hub, step: Step, c: nat)
    requires c < |Next(h, step).sessions|
    ensures var s' := Next(h, step).sessions[c];
            if c >= |h.sessions| then s'.sent == []
            else if s'.sent == h.sessions[c].sent then true
            else
              && step.Forward? && step.c == c
              && s'.sent == h.sessions[c].sent + [Outbound(h.sessions[c].nextId, step.request)]
              && forall k :: step.request.share == Some(k) ==>
                k < |h.rows| && h.rows[k].session == c && h.rows[k].place == AtGateway
  {
    hide MarkUnknown, Pruned, Marked, Grouped, Deposits.WithWork, Resolved, Accepts;
  }

  /** A reply under an id that is not pending changes nothing but the log of what was received. */
  lemma UnmatchedIsDropped(h: Hub, c: nat, id: nat, answer: Answer)
    requires c < |h.sessions| && id !in h.sessions[c].pending
    ensures var s := h.sessions[c];
            Next(h, Receive(c, id, answer)) ==
              h.(sessions := h.sessions[c := s.(inbox := s.inbox + [Inbound(id, answer)])])
  {
  }

  // ---------------------------------------------------------------- history

  /** What no later step undoes: a verdict with its status and place, an assignment, a deletion; and an
      accepted share is not deleted before it is assigned. */
  predicate RowLater(row: Share, row': Share) {
    && row'.session == row.session && row'.endpoint == row.endpoint && row'.customer == row.customer
    && row'.policy == row.policy && row'.work == row.work
    && (row.verdict.Some? ==> row'.verdict == row.verdict && row'.status == row.status && row'.place == row.place)
    && (row.batch.Some? ==> row'.batch == row.batch)
    && (row.deleted ==> row' == row.(place := row'.place))
    && (row'.deleted && row'.status == Accepted ==> row'.batch.Some?)
  }

  ghost predicate Later(h: Hub, h': Hub) {
    && |h.rows| <= |h'.rows| && h.batches <= h'.batches && |h.sessions| <= |h'.sessions|
    && (forall k :: 0 <= k < |h.rows| ==> RowLater(h.rows[k], h'.rows[k]))
    && (forall c :: 0 <= c < |h.sessions| ==> Grows(h.sessions[c], h'.sessions[c]))
  }

  lemma NextIsLater(h: Hub, step: Step)
    requires Inv(h)
    ensures Later(h, Next(h, step))
  {
    hide SessionOk, BatchOk, Grouped, Deposits.WithWork, Inv, RowOk;
    forall k | 0 <= k < |h.rows| ensures RowOk(h.rows[k], k, h.sessions, |h.batches|) {
      RowHolds(h, k);
    }
    if step.Receive? || step.Record? || step.Fail? || step.Forward? {
      SessionStepIsLater(h, step);
    } else {
      OtherStepIsLater(h, step);
    }
  }

  lemma OtherStepIsLater(h: Hub, step: Step)
    requires forall k :: 0 <= k < |h.rows| ==> RowOk(h.rows[k], k, h.sessions, |h.batches|)
    requires !(step.Receive? || step.Record? || step.Fail? || step.Forward?)
    ensures Later(h, Next(h, step))
  {
    hide Grouped, Deposits.WithWork;
    var h' := Next(h, step);
    forall k | 0 <= k < |h.rows| ensures RowLater(h.rows[k], h'.rows[k]) {
      assert RowOk(h.rows[k], k, h.sessions, |h.batches|);
    }
  }

  lemma SessionStepIsLater(h: Hub, step: Step)
    requires Inv(h) && (step.Receive? || step.Record? || step.Fail? || step.Forward?)
    ensures Later(h, Next(h, step))
  {
    hide SessionOk, BatchOk, Inv, RowOk, RowLater;
    var h' := Next(h, step);
    SessionsGrow(h, step);
    hide Next, Grows;
    if step.c < |h.sessions| {
      var s := h.sessions[step.c];
      SessionHolds(h, step.c);
      if !step.Forward? && step.id in s.pending {
        PendingHolds(s, step.c, h.rows, step.id);
      }
      if !step.Forward? && step.id in s.recording {
        RecordingHolds(s, step.c, h.rows, step.id);
      }
    }
    forall k | 0 <= k < |h.rows| ensures RowLater(h.rows[k], h'.rows[k]) {
      RowHolds(h, k);
      RowIsLater(h, k, step);
    }
  }

  lemma SessionsGrow(h: Hub, step: Step)
    requires step.Receive? || step.Record? || step.Fail? || step.Forward?
    ensures var h' := Next(h, step);
            && |h'.rows| == |h.rows| && h'.batches == h.batches && |h'.sessions| == |h.sessions|
            && forall c :: 0 <= c < |h.sessions| ==> Grows(h.sessions[c], h'.sessions[c])
  {
    hide Accepts, Resolved;
  }

  lemma RowIsLater(h: Hub, k: nat, step: Step)
    requires k < |h.rows| && RowOk(h.rows[k], k, h.sessions, |h.batches|)
    requires step.Receive? || step.Record? || step.Fail? || step.Forward?
    requires step.c < |h.sessions| && !step.Forward? && step.id in h.sessions[step.c].pending ==>
      HeldAt(h.rows, step.c, h.sessions[step.c].pending[step.id], Forwarded(step.id))
    requires step.c < |h.sessions| && !step.Forward? && step.id in h.sessions[step.c].recording ==>
      HeldAt(h.rows, step.c, h.sessions[step.c].recording[step.id].request,
        Answered(step.id, h.sessions[step.c].recording[step.id].answer))
    ensures |Next(h, step).rows| == |h.rows| && RowLater(h.rows[k], Next(h, step).rows[k])
  {
  }

  lemma {:induction false} RunSplits(h: Hub, a: seq<Step>, b: seq<Step>)
    ensures Run(h, a + b) == Run(Run(h, a), b)
  {
    hide Next;
    if |b| == 0 {
      assert a + b == a;
    } else {
      assert (a + b)[..|a + b| - 1] == a + b[..|b| - 1];
      RunSplits(h, a, b[..|b| - 1]);
    }
  }

  /** Whatever comes later, a share keeps the verdict it was given, so it is resolved at most once;
      ACCEPTED is never left; and an assigned share is never assigned again. */
  lemma {:induction false} VerdictsAreFinal(steps: seq<Step>, more: seq<Step>)
    ensures Later(Run(IDLE, steps), Run(IDLE, steps + more))
  {
    hide Next, Inv, RowLater, Grows;
    if |more| == 0 {
      assert steps + more == steps;
      LaterThanItself(steps);
    } else {
      var before := steps + more[..|more| - 1];
      assert (steps + more)[..|steps + more| - 1] == before;
      VerdictsAreFinal(steps, more[..|more| - 1]);
      EveryRun(before);
      NextIsLater(Run(IDLE, before), more[|more| - 1]);
      LaterIsTransitive(Run(IDLE, steps), Run(IDLE, before), Run(IDLE, steps + more));
    }
  }

  lemma LaterThanItself(steps: seq<Step>)
    ensures Later(Run(IDLE, steps), Run(IDLE, steps))
  {
    hide Run, SessionOk, BatchOk;
    EveryRun(steps);
    var h := Run(IDLE, steps);
    forall k | 0 <= k < |h.rows| ensures RowLater(h.rows[k], h.rows[k]) {
      RowHolds(h, k);
    }
  }

  lemma LaterIsTransitive(a: Hub, b: Hub, c: Hub)
    requires Later(a, b) && Later(b, c)
    ensures Later(a, c)
  {
    forall k | 0 <= k < |a.rows| ensures RowLater(a.rows[k], c.rows[k]) {
      RowLaterIsTransitive(a.rows[k], b.rows[k], c.rows[k]);
    }
    hide RowLater;
    forall k | 0 <= k < |a.sessions| ensures Grows(a.sessions[k], c.sessions[k]) {
      assert Grows(a.sessions[k], b.sessions[k]) && Grows(b.sessions[k], c.sessions[k]);
    }
  }

  lemma RowLaterIsTransitive(a: Share, b: Share, c: Share)
    requires RowLater(a, b) && RowLater(b, c)
    ensures RowLater(a, c)
  {
  }

  // ---------------------------------------------------------------- work

  function ItemWork(batches: seq<seq<Deposits.Group>>): real {
    if |batches| == 0 then 0.0
    else ItemWork(batches[..|batches| - 1]) + SumReal(Deposits.Works(batches[|batches| - 1]))
  }

  ghost predicate NonNegative(rows: seq<Share>) {
    forall k :: 0 <= k < |rows| ==> rows[k].work >= 0.0
  }

  /** Accepted work is conserved: all of it is either assigned to a batch or still stored and
      waiting, pruned rows included. Each batch credits every customer and policy with the work of
      exactly the shares marked for it (a negative total counts as none), so as long as no share
      carries negative work the items of all batches and the waiting shares make up all work. */
  lemma WorkIsConserved(steps: seq<Step>)
    ensures var h := Run(IDLE, steps);
            && Work(EverAccepted, h.rows) == Work(Assigned(|h.batches|), h.rows) + Work(Waiting, h.rows)
            && (forall b :: 0 <= b < |h.batches| ==> BatchOk(h.batches[b], b, h.rows))
            && (NonNegative(h.rows) ==> Work(EverAccepted, h.rows) == ItemWork(h.batches) + Work(Waiting, h.rows))
  {
    hide Run, SessionOk, BatchOk, Work;
    EveryRun(steps);
    var h := Run(IDLE, steps);
    var n := |h.batches|;
    forall k | 0 <= k < |h.rows|
      ensures (Counts(EverAccepted, h.rows[k]) <==> Counts(Assigned(n), h.rows[k]) || Counts(Waiting, h.rows[k]))
      ensures !(Counts(Assigned(n), h.rows[k]) && Counts(Waiting, h.rows[k]))
    {
      RowHolds(h, k);
    }
    SplitWork(EverAccepted, Assigned(n), Waiting, h.rows);
    TotalsInEveryRun(steps);
    if NonNegative(h.rows) {
      BatchesMakeUpAssigned(h, n);
      assert h.batches[..n] == h.batches;
    }
  }

  ghost predicate TotalsOk(h: Hub) {
    NonNegative(h.rows) ==>
      forall b :: 0 <= b < |h.batches| ==> SumReal(Deposits.Works(h.batches[b])) == Work(WholeBatch(b), h.rows)
  }

  lemma {:induction false} BatchesMakeUpAssigned(h: Hub, n: nat)
    requires TotalsOk(h) && NonNegative(h.rows) && n <= |h.batches|
    ensures ItemWork(h.batches[..n]) == Work(Assigned(n), h.rows)
  {
    hide Work;
    if n == 0 {
      NoWork(Assigned(0), h.rows);
    } else {
      BatchesMakeUpAssigned(h, n - 1);
      assert h.batches[..n][..n - 1] == h.batches[..n - 1];
      SplitWork(Assigned(n), Assigned(n - 1), WholeBatch(n - 1), h.rows);
    }
  }

  lemma {:induction false} TotalsInEveryRun(steps: seq<Step>)
    ensures TotalsOk(Run(IDLE, steps))
  {
    hide Next, TotalsOk;
    if |steps| > 0 {
      var n := |steps| - 1;
      TotalsInEveryRun(steps[..n]);
      EveryRun(steps[..n]);
      NextKeepsTotals(Run(IDLE, steps[..n]), steps[n]);
    } else {
      NoBatches();
    }
  }

  lemma NoBatches()
    ensures TotalsOk(IDLE)
  {
  }

  lemma NextKeepsTotals(h: Hub, step: Step)
    requires Inv(h) && TotalsOk(h)
    ensures TotalsOk(Next(h, step))
  {
    hide SessionOk, BatchOk, Work, TotalsOk, Next;
    if step.Allocate? {
      AllocateKeepsTotals(h, step.endpoints);
    } else {
      LotsStay(h, step);
      SameLotsKeepTotals(h, Next(h, step));
    }
  }

  /** Only allocation touches what totals depend on; a stored share starts unassigned. */
  ghost predicate SameLots(h: Hub, h': Hub) {
    && h'.batches == h.batches && |h.rows| <= |h'.rows|
    && (forall k :: 0 <= k < |h.rows| ==> SameLot(h.rows[k], h'.rows[k]))
    && (forall k :: |h.rows| <= k < |h'.rows| ==> h'.rows[k].batch.None?)
  }

  lemma LotsStay(h: Hub, step: Step)
    requires !step.Allocate?
    ensures SameLots(h, Next(h, step))
  {
  }

  lemma {:induction false} WorkOfLonger(k: Kind, rows: seq<Share>, n: nat)
    requires n <= |rows| && forall i :: n <= i < |rows| ==> !Counts(k, rows[i])
    ensures Work(k, rows) == Work(k, rows[..n])
  {
    hide Counts;
    if n < |rows| {
      WorkOfLonger(k, rows[..|rows| - 1], n);
      assert rows[..|rows| - 1][..n] == rows[..n];
    } else {
      assert rows[..n] == rows;
    }
  }

  lemma SameLotsKeepTotals(h: Hub, h': Hub)
    requires TotalsOk(h) && SameLots(h, h')
    ensures TotalsOk(h')
  {
    hide Work;
    if NonNegative(h'.rows) {
      var n := |h.rows|;
      forall k | 0 <= k < n ensures h.rows[k].work >= 0.0 {
        assert SameLot(h.rows[k], h'.rows[k]);
      }
      forall b | 0 <= b < |h.batches| ensures SumReal(Deposits.Works(h'.batches[b])) == Work(WholeBatch(b), h'.rows) {
        WorkOfLonger(WholeBatch(b), h'.rows, n);
        SameWork(WholeBatch(b), h.rows, WholeBatch(b), h'.rows[..n]);
      }
    }
  }

  lemma EarlierBatch(h: Hub, k: nat)
    requires k < |h.rows| && RowOk(h.rows[k], k, h.sessions, |h.batches|)
    ensures h.rows[k].batch != Some(|h.batches|)
  {
  }

  lemma AllocateKeepsTotals(h: Hub, endpoints: set<nat>)
    requires TotalsOk(h) && Inv(h)
    ensures TotalsOk(Next(h, Allocate(endpoints)))
  {
    hide Work, SessionOk, BatchOk, Grouped, Inv, RowOk, Deposits.WithWork, SumReal;
    var h' := Next(h, Allocate(endpoints));
    var n := |h.batches|;
    if NonNegative(h'.rows) && h' != h {
      forall k | 0 <= k < |h.rows| ensures h.rows[k].work >= 0.0 {
        assert h'.rows[k].work >= 0.0;
      }
      forall b | 0 <= b < |h'.batches| ensures SumReal(Deposits.Works(h'.batches[b])) == Work(WholeBatch(b), h'.rows) {
        if b < n {
          SameWork(WholeBatch(b), h.rows, WholeBatch(b), h'.rows);
        } else {
          GroupedTotal(h.rows, endpoints);
          FilteredTotal(Grouped(h.rows, endpoints));
          forall k | 0 <= k < |h.rows|
            ensures Counts(AllEligible(endpoints), h.rows[k]) <==> Counts(WholeBatch(n), h'.rows[k]) {
            RowHolds(h, k);
            EarlierBatch(h, k);
          }
          SameWork(AllEligible(endpoints), h.rows, WholeBatch(n), h'.rows);
        }
      }
    }
  }

  // ---------------------------------------------------------------- which shares a batch takes

  /** What an allocation for these endpoints takes. */
  predicate Waits(row: Share, endpoints: set<nat>) {
    !row.deleted && row.status == Accepted && row.batch.None? && row.endpoint in endpoints
  }

  /** The shares of batch b are those that waited at these endpoints before it, and no others. */
  ghost predicate TakenFrom(b: nat, before: seq<Share>, endpoints: set<nat>, rows: seq<Share>) {
    && |before| <= |rows|
    && (forall k :: 0 <= k < |before| ==>
          rows[k].endpoint == before[k].endpoint && (rows[k].batch == Some(b) <==> Waits(before[k], endpoints)))
    && (forall k :: |before| <= k < |rows| ==> rows[k].batch != Some(b))
  }

  /** Step n is the allocation that made batch b. */
  ghost predicate MadeAt(steps: seq<Step>, n: nat, b: nat)
    requires n < |steps|
  {
    var before := Run(IDLE, steps[..n]);
    steps[n].Allocate? && |before.batches| == b && TakenFrom(b, before.rows, steps[n].endpoints, Run(IDLE, steps).rows)
  }

  /** Over all runs, a batch has exactly the shares that waited at the endpoints of the allocation that made it, when
      it was made: no share of another endpoint, and none that came or was accepted later. */
  lemma BatchTakesExactly(steps: seq<Step>, b: nat)
    requires b < |Run(IDLE, steps).batches|
    ensures exists n :: 0 <= n < |steps| && MadeAt(steps, n, b)
  {
    hide Run, MadeAt;
    var n := MakingStep(steps, b);
  }

  lemma {:induction false} MakingStep(steps: seq<Step>, b: nat) returns (n: nat)
    requires b < |Run(IDLE, steps).batches|
    ensures n < |steps| && MadeAt(steps, n, b)
  {
    hide Next, TakenFrom, Inv;
    var m := |steps| - 1;
    var h := Run(IDLE, steps[..m]);
    BatchCount(h, steps[m]);
    if b < |h.batches| {
      n := MakingStep(steps[..m], b);
      assert steps[..m][..n] == steps[..n];
      TakenStays(h, steps[m], b, Run(IDLE, steps[..n]).rows, steps[n].endpoints);
    } else {
      n := m;
      EveryRun(steps[..m]);
      TakenNow(h, steps[m].endpoints);
    }
  }

  lemma BatchCount(h: Hub, step: Step)
    ensures |h.batches| <= |Next(h, step).batches| <= |h.batches| + 1
    ensures |Next(h, step).batches| > |h.batches| ==> step.Allocate?
  {
    hide Grouped, Deposits.WithWork;
    if !step.Allocate? {
      LotsStay(h, step);
    }
  }

  lemma TakenStays(h: Hub, step: Step, b: nat, before: seq<Share>, endpoints: set<nat>)
    requires b < |h.batches| && TakenFrom(b, before, endpoints, h.rows)
    ensures TakenFrom(b, before, endpoints, Next(h, step).rows)
  {
    hide Grouped, Deposits.WithWork, Waits;
    if !step.Allocate? {
      LotsStay(h, step);
      hide Next;
      assert forall k :: 0 <= k < |h.rows| ==> SameLot(h.rows[k], Next(h, step).rows[k]);
    }
  }

  lemma TakenNow(h: Hub, endpoints: set<nat>)
    requires Inv(h) && |Next(h, Allocate(endpoints)).batches| > |h.batches|
    ensures TakenFrom(|h.batches|, h.rows, endpoints, Next(h, Allocate(endpoints)).rows)
  {
    hide Grouped, Deposits.WithWork, Inv, RowOk;
    forall k | 0 <= k < |h.rows| ensures h.rows[k].batch != Some(|h.batches|) {
      RowHolds(h, k);
      EarlierBatch(h, k);
    }
  }
}
