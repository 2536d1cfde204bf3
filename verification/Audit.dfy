/** The hash-chained audit log (apps/server/src/audit/audit.service.ts). */
module Audit {
  import opened Common
  import opened Canonical

  /** What a caller reports; missing `before` and `after` are null. */
  datatype Input = Input(
    actorId: Option<string>, action: string, entityType: string, entityId: Option<string>, ipAddress: Option<string>,
    before: Json, after: Json)

  datatype Event = Event(input: Input, previousHash: Option<string>, eventHash: string, createdAt: string)

  /** The collation that sorts keys, and the hash. */
  datatype Scheme = Scheme(leq: Order, hash: string -> string)

  function Text(s: Option<string>): Json {
    match s
    case None => Null
    case Some(t) => Str(t)
  }

  function Payload(i: Input, previousHash: Option<string>, createdAt: string): Json {
    Obj([
      Field("actorId", Text(i.actorId)), Field("action", Str(i.action)), Field("entityType", Str(i.entityType)),
      Field("entityId", Text(i.entityId)), Field("ipAddress", Text(i.ipAddress)),
      Field("before", i.before), Field("after", i.after),
      Field("previousHash", Text(previousHash)), Field("createdAt", Str(createdAt))])
  }

  function Seal(s: Scheme, i: Input, previousHash: Option<string>, createdAt: string): string {
    s.hash(Print(s.leq, Payload(i, previousHash, createdAt)))
  }

  /** The hash that event i must follow. */
  function Previous(log: seq<Event>, i: nat): Option<string>
    requires i <= |log|
  {
    if i == 0 then None else Some(log[i - 1].eventHash)
  }

  predicate Linked(s: Scheme, log: seq<Event>, i: nat)
    requires i < |log|
  {
    && log[i].previousHash == Previous(log, i)
    && log[i].eventHash == Seal(s, log[i].input, Previous(log, i), log[i].createdAt)
  }

  ghost predicate Intact(s: Scheme, log: seq<Event>) {
    forall i :: 0 <= i < |log| ==> Linked(s, log, i)
  }

  ghost predicate Sound(i: Input) {
    WellFormed(i.before) && WellFormed(i.after)
  }

  ghost predicate SoundLog(log: seq<Event>) {
    forall i :: 0 <= i < |log| ==> Sound(log[i].input)
  }

  /** The same event up to the order of keys: what the database gives back. */
  ghost predicate SameInput(a: Input, b: Input) {
    a == b.(before := a.before, after := a.after) && Denote(a.before) == Denote(b.before) &&
      Denote(a.after) == Denote(b.after)
  }

  // ---------------------------------------------------------------- payloads

  lemma PayloadIsWellFormed(i: Input, previousHash: Option<string>, createdAt: string)
    requires Sound(i)
    ensures WellFormed(Payload(i, previousHash, createdAt))
  {
    var v := Payload(i, previousHash, createdAt);
    forall k | 0 <= k < |v.fields| ensures WellFormed(v.fields[k].value) {
    }
    KeysAreDistinct(v.fields);
  }

  /** The nine keys differ, if only in their first, second and sixth letters. */
  lemma KeysAreDistinct(f: seq<Field>)
    requires |f| == 9
    requires f[0].key == "actorId" && f[1].key == "action" && f[2].key == "entityType" && f[3].key == "entityId"
    requires f[4].key == "ipAddress"
    requires f[5].key == "before" && f[6].key == "after" && f[7].key == "previousHash" && f[8].key == "createdAt"
    ensures forall i, j :: 0 <= i < j < |f| ==> f[i].key != f[j].key
  {
    assert f[0].key[4] == 'r' && f[1].key[4] == 'o';
    assert |f[2].key| == 10 && |f[3].key| == 8;
    assert f[0].key[1] == 'c' && f[1].key[1] == 'c' && f[6].key[1] == 'f';
    assert f[0].key[0] == 'a' && f[1].key[0] == 'a' && f[2].key[0] == 'e' && f[3].key[0] == 'e' && f[4].key[0] == 'i';
    assert f[5].key[0] == 'b' && f[6].key[0] == 'a' && f[7].key[0] == 'p' && f[8].key[0] == 'c';
  }

  /** Denotations of payloads agree exactly when all nine fields do. */
  lemma PayloadsAgree(i: Input, p: Option<string>, c: string, j: Input, q: Option<string>, d: string)
    requires Sound(i) && Sound(j)
    ensures Denote(Payload(i, p, c)) == Denote(Payload(j, q, d)) <==> SameInput(i, j) && p == q && c == d
  {
    hide Denote, WellFormed, Payload, Text;
    PayloadIsWellFormed(i, p, c);
    PayloadIsWellFormed(j, q, d);
    SameKeys(i, p, c, j, q, d);
    FieldsAgree(Payload(i, p, c), Payload(j, q, d));
    TextsAgree(i.actorId, j.actorId);
    TextsAgree(i.entityId, j.entityId);
    TextsAgree(i.ipAddress, j.ipAddress);
    TextsAgree(p, q);
    TextsAgree(Some(i.action), Some(j.action));
    TextsAgree(Some(i.entityType), Some(j.entityType));
    TextsAgree(Some(c), Some(d));
    NineFields(i, p, c);
    NineFields(j, q, d);
  }

  lemma SameKeys(i: Input, p: Option<string>, c: string, j: Input, q: Option<string>, d: string)
    ensures var v, w := Payload(i, p, c), Payload(j, q, d);
            && v.Obj? && w.Obj? && |v.fields| == |w.fields| == 9
            && forall k :: 0 <= k < 9 ==> v.fields[k].key == w.fields[k].key
  {
  }

  lemma NineFields(i: Input, p: Option<string>, c: string)
    ensures var f := Payload(i, p, c).fields;
            && |f| == 9
            && f[0].value == Text(i.actorId) && f[1].value == Text(Some(i.action))
            && f[2].value == Text(Some(i.entityType))
            && f[3].value == Text(i.entityId) && f[4].value == Text(i.ipAddress)
            && f[5].value == i.before && f[6].value == i.after && f[7].value == Text(p) && f[8].value == Text(Some(c))
  {
  }

  lemma TextsAgree(p: Option<string>, q: Option<string>)
    ensures Denote(Text(p)) == Denote(Text(q)) <==> p == q
  {
  }

  /** Objects with the same keys in the same order. */
  lemma FieldsAgree(v: Json, w: Json)
    requires v.Obj? && w.Obj? && WellFormed(v) && WellFormed(w) && |v.fields| == |w.fields|
    requires forall k :: 0 <= k < |v.fields| ==> v.fields[k].key == w.fields[k].key
    ensures Denote(v) == Denote(w) <==> forall k :: 0 <= k < |v.fields| ==>
      Denote(v.fields[k].value) == Denote(w.fields[k].value)
  {
    hide Denote, MapOf;
    var any := (a: string, b: string) => true;
    PrintUnfolds(any, v);
    PrintUnfolds(any, w);
    DistinctFields(any, v);
    DistinctFields(any, w);
    if Denote(v) == Denote(w) {
      forall k | 0 <= k < |v.fields| ensures Denote(v.fields[k].value) == Denote(w.fields[k].value) {
        SameKeySameItem(Denoted(v.fields), Denoted(w.fields), k, k);
      }
    }
    if forall k :: 0 <= k < |v.fields| ==> Denote(v.fields[k].value) == Denote(w.fields[k].value) {
      assert Denoted(v.fields) == Denoted(w.fields);
    }
  }

  // ---------------------------------------------------------------- the log

  /** Both changes print the same text. */
  predicate SameTexts(leq: Order, i: Input, j: Input) {
    Print(leq, i.before) == Print(leq, j.before) && Print(leq, i.after) == Print(leq, j.after)
  }

  /** What the database may reorder shows in the text of the payload exactly when it shows in the text of
      `before` or `after`. */
  lemma PayloadShows(leq: Order, i: Input, j: Input, previousHash: Option<string>, createdAt: string)
    requires Lawful(leq) && Sound(i) && Sound(j) && SameInput(i, j)
    ensures Print(leq, Payload(i, previousHash, createdAt)) == Print(leq, Payload(j, previousHash, createdAt)) <==>
      SameTexts(leq, i, j)
  {
    hide Print, Denote, WellFormed, Lawful, Payload, Text;
    PayloadIsWellFormed(i, previousHash, createdAt);
    PayloadIsWellFormed(j, previousHash, createdAt);
    NineFields(i, previousHash, createdAt);
    NineFields(j, previousHash, createdAt);
    SameKeys(i, previousHash, createdAt, j, previousHash, createdAt);
    FieldTextsAgree(leq, Payload(i, previousHash, createdAt), Payload(j, previousHash, createdAt));
  }

  /** Objects with the same keys in the same order. */
  lemma FieldTextsAgree(leq: Order, v: Json, w: Json)
    requires Lawful(leq) && v.Obj? && w.Obj? && WellFormed(v) && WellFormed(w) && |v.fields| == |w.fields|
    requires forall k :: 0 <= k < |v.fields| ==> v.fields[k].key == w.fields[k].key
    ensures Print(leq, v) == Print(leq, w) <==>
      forall k :: 0 <= k < |v.fields| ==> Print(leq, v.fields[k].value) == Print(leq, w.fields[k].value)
  {
    hide Print, MapOf, Lawful, WellFormed;
    if Print(leq, v) == Print(leq, w) {
      EqualFields(leq, v, w);
      forall k | 0 <= k < |v.fields| ensures Print(leq, v.fields[k].value) == Print(leq, w.fields[k].value) {
        SameKeySameItem(Printed(leq, v.fields), Printed(leq, w.fields), k, k);
      }
    }
    if forall k :: 0 <= k < |v.fields| ==> Print(leq, v.fields[k].value) == Print(leq, w.fields[k].value) {
      PrintUnfolds(leq, v);
      PrintUnfolds(leq, w);
      assert Printed(leq, v.fields) == Printed(leq, w.fields);
    }
  }

  /** Without tied keys the texts are the same, whatever order the database keeps. */
  lemma UntiedTextsAreSame(leq: Order, i: Input, j: Input)
    requires Lawful(leq) && Sound(i) && Sound(j) && SameInput(i, j) && Untied(leq, i.before) && Untied(leq, i.after)
    ensures SameTexts(leq, i, j)
  {
    hide Print, Denote, WellFormed, Lawful, Untied;
    PrintForgetsOrder(leq, i.before, j.before);
    PrintForgetsOrder(leq, i.after, j.after);
  }

  /** And with tied keys there is an order that the database may keep and that shows. */
  lemma TiedTextsMayDiffer(leq: Order, i: Input) returns (j: Input)
    requires Lawful(leq) && Sound(i) && !(Untied(leq, i.before) && Untied(leq, i.after))
    ensures Sound(j) && SameInput(i, j) && !SameTexts(leq, i, j)
  {
    hide Print, Denote, WellFormed, Lawful, Untied;
    if !Untied(leq, i.before) {
      var w := TiesShowOrder(leq, i.before);
      j := i.(before := w);
    } else {
      var w := TiesShowOrder(leq, i.after);
      j := i.(after := w);
    }
  }

  ghost predicate Injective(hash: string -> string) {
    forall a, b :: hash(a) == hash(b) ==> a == b
  }

  /** Equal seals cover equal events, predecessor included. */
  lemma SealIsInjective(s: Scheme, i: Input, p: Option<string>, c: string, j: Input, q: Option<string>, d: string)
    requires Lawful(s.leq) && Injective(s.hash) && Sound(i) && Sound(j)
    requires Seal(s, i, p, c) == Seal(s, j, q, d)
    ensures SameInput(i, j) && p == q && c == d
  {
    hide Denote, Print, Payload, WellFormed;
    PayloadIsWellFormed(i, p, c);
    PayloadIsWellFormed(j, q, d);
    PrintIsInjective(s.leq, Payload(i, p, c), Payload(j, q, d));
    PayloadsAgree(i, p, c, j, q, d);
  }

  ghost predicate SameEvent(a: Event, b: Event) {
    SameInput(a.input, b.input) && a.previousHash == b.previousHash && a.eventHash == b.eventHash &&
      a.createdAt == b.createdAt
  }

  /** With a collision-free hash the last hash pins down the whole log: its length, and every hashed
      field of every event. */
  lemma {:induction false} LastHashPinsTheLog(s: Scheme, a: seq<Event>, b: seq<Event>)
    requires Lawful(s.leq) && Injective(s.hash) && SoundLog(a) && SoundLog(b) && Intact(s, a) && Intact(s, b)
    requires Previous(a, |a|) == Previous(b, |b|)
    ensures |a| == |b| && forall i :: 0 <= i < |a| ==> SameEvent(a[i], b[i])
  {
    hide Seal, Sound, SameInput, Injective, Lawful;
    if |a| > 0 && |b| > 0 {
      var m, n := |a| - 1, |b| - 1;
      assert Linked(s, a, m) && Linked(s, b, n);
      assert Sound(a[m].input) && Sound(b[n].input);
      SealIsInjective(s, a[m].input, Previous(a, m), a[m].createdAt, b[n].input, Previous(b, n), b[n].createdAt);
      PrefixIsIntact(s, a);
      PrefixIsIntact(s, b);
      LastHashPinsTheLog(s, a[..m], b[..n]);
      forall i | 0 <= i < |a| ensures SameEvent(a[i], b[i]) {
        if i < m {
          assert a[i] == a[..m][i] && b[i] == b[..n][i];
        }
      }
    }
  }

  lemma PrefixIsIntact(s: Scheme, a: seq<Event>)
    requires |a| > 0 && Intact(s, a)
    ensures Intact(s, a[..|a| - 1]) && Previous(a[..|a| - 1], |a| - 1) == Previous(a, |a| - 1)
  {
    hide Seal;
    var b := a[..|a| - 1];
    forall i | 0 <= i < |b| ensures Linked(s, b, i) {
      assert Linked(s, a, i);
    }
  }

  class AuditLog {
    const scheme: Scheme
    var events: seq<Event>

    constructor (scheme: Scheme)
      ensures this.scheme == scheme && events == [] && Intact(scheme, events)
    {
      this.scheme := scheme;
      events := [];
    }

    /** `record`: seals the event and appends the row; `stored` is the input as the database keeps it, keys
        in any order. The log stays intact if that order prints the same texts, as it always does without
        tied keys, and with a collision-free hash only then. */
    method Record(input: Input, stored: Input, createdAt: string)
      requires Lawful(scheme.leq) && Sound(input) && Sound(stored) && SameInput(input, stored)
      modifies this`events
      ensures |events| == |old(events)| + 1 && events[..|old(events)|] == old(events)
      ensures events[|old(events)|].input == stored && events[|old(events)|].createdAt == createdAt
      ensures Intact(scheme, old(events)) && SameTexts(scheme.leq, input, stored) ==> Intact(scheme, events)
      ensures Intact(scheme, old(events)) && Untied(scheme.leq, input.before) && Untied(scheme.leq, input.after) ==>
        Intact(scheme, events)
      ensures Intact(scheme, events) && Injective(scheme.hash) ==> SameTexts(scheme.leq, input, stored)
    {
      hide SameInput, Untied, Sound, Lawful, Print, Payload, SameTexts;
      var previous := if |events| == 0 then None else Some(events[|events| - 1].eventHash);
      PayloadShows(scheme.leq, input, stored, previous, createdAt);
      if Untied(scheme.leq, input.before) && Untied(scheme.leq, input.after) {
        UntiedTextsAreSame(scheme.leq, input, stored);
      }
      events := events + [Event(stored, previous, Seal(scheme, input, previous, createdAt), createdAt)];
      assert Intact(scheme, events) ==> Linked(scheme, events, |old(events)|);
      if Intact(scheme, old(events)) {
        forall i | 0 <= i < |old(events)| ensures Linked(scheme, events, i) {
          assert Linked(scheme, old(events), i);
        }
      }
    }

    /** `verify`: valid exactly for intact logs; otherwise `checked` is the first broken event. */
    method Verify() returns (valid: bool, checked: nat)
      ensures valid <==> Intact(scheme, events)
      ensures valid ==> checked == |events|
      ensures !valid ==> checked < |events| && !Linked(scheme, events, checked)
      ensures forall i :: 0 <= i < checked <= |events| ==> Linked(scheme, events, i)
    {
      hide Seal;
      var previousHash: Option<string> := None;
      for i := 0 to |events|
        invariant previousHash == Previous(events, i)
        invariant forall k :: 0 <= k < i ==> Linked(scheme, events, k)
      {
        var event := events[i];
        if event.previousHash != previousHash ||
          event.eventHash != Seal(scheme, event.input, previousHash, event.createdAt) {
          assert !Linked(scheme, events, i);
          return false, i;
        }
        previousHash := Some(event.eventHash);
      }
      return true, |events|;
    }
  }
}
