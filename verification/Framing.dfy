/** Newline framing of JSON messages (apps/server/src/gateway/line-json-peer.ts): whatever way the
    network cuts the stream into chunks, the same messages come out. */
module Framing {
  import opened Common

  type Byte = x: int | 0 <= x < 256

  const NEWLINE: Byte := 10

  /** The line limit, decoding with trimming, and parsing to an object (`None` when it throws). */
  datatype Format<!M> = Format(maxLineBytes: nat, text: seq<Byte> -> string, parse: string -> Option<M>)

  /** Assumed of UTF-8 decoding and trimming: no more code units than bytes. */
  ghost predicate Shortening<M(!new)>(f: Format<M>) {
    forall raw :: |f.text(raw)| <= |raw|
  }

  datatype Verdict<M> = Blank | Bad | Message(value: M)

  /** What becomes of one raw line. */
  function Judge<M>(f: Format<M>, raw: seq<Byte>): Verdict<M> {
    var line := f.text(raw);
    if |line| > f.maxLineBytes then Bad
    else if line == "" then Blank
    else
      match f.parse(line)
      case None => Bad
      case Some(m) => Message(m)
  }

  /** `failed` remembers that a protocol error was reported; nothing reads it. The socket is destroyed
      only some awaits later, and until then further chunks are consumed like any other. */
  datatype Peer<M> = Peer(buffer: seq<Byte>, delivered: seq<M>, failed: bool)

  /** `indexOf(0x0a)`, or the length if there is none. */
  function IndexOf(s: seq<Byte>): (n: nat)
    ensures n <= |s| && (n < |s| ==> s[n] == NEWLINE) && forall i :: 0 <= i < n ==> s[i] != NEWLINE
  {
    if |s| == 0 || s[0] == NEWLINE then 0 else 1 + IndexOf(s[1..])
  }

  predicate Whole(s: seq<Byte>) {
    IndexOf(s) < |s|
  }

  // ---------------------------------------------------------------- what a stream says

  function CompleteLines(s: seq<Byte>): seq<seq<Byte>>
    decreases |s|
  {
    if !Whole(s) then [] else [s[..IndexOf(s)]] + CompleteLines(s[IndexOf(s) + 1..])
  }

  function Rest(s: seq<Byte>): (r: seq<Byte>)
    ensures !Whole(r) && |r| <= |s|
    decreases |s|
  {
    if !Whole(s) then s else Rest(s[IndexOf(s) + 1..])
  }

  function Messages<M>(f: Format<M>, lines: seq<seq<Byte>>): seq<M> {
    if |lines| == 0 then []
    else (match Judge(f, lines[0]) case Message(m) => [m] case _ => []) + Messages(f, lines[1..])
  }

  predicate AllGood<M>(f: Format<M>, lines: seq<seq<Byte>>) {
    forall i :: 0 <= i < |lines| ==> !Judge(f, lines[i]).Bad?
  }

  // ---------------------------------------------------------------- what a peer does

  /** The `while` loop of `consume`. */
  function Drain<M>(f: Format<M>, p: Peer<M>): Peer<M>
    decreases |p.buffer|
  {
    var n := IndexOf(p.buffer);
    if n == |p.buffer| then p
    else
      var rest := p.buffer[n + 1..];
      match Judge(f, p.buffer[..n])
      case Bad => p.(buffer := rest, failed := true)
      case Blank => Drain(f, p.(buffer := rest))
      case Message(m) => Drain(f, p.(buffer := rest, delivered := p.delivered + [m]))
  }

  /** `consume`. After an error the bytes not looked at yet stay in the buffer. */
  function Consume<M>(f: Format<M>, p: Peer<M>, chunk: seq<Byte>): Peer<M> {
    var q := p.(buffer := p.buffer + chunk);
    if |q.buffer| > f.maxLineBytes && !Whole(q.buffer) then q.(failed := true) else Drain(f, q)
  }

  function Feed<M>(f: Format<M>, chunks: seq<seq<Byte>>): Peer<M> {
    if |chunks| == 0 then Peer([], [], false)
    else Consume(f, Feed(f, chunks[..|chunks| - 1]), chunks[|chunks| - 1])
  }

  function Joined(chunks: seq<seq<Byte>>): seq<Byte> {
    if |chunks| == 0 then [] else Joined(chunks[..|chunks| - 1]) + chunks[|chunks| - 1]
  }

  // ---------------------------------------------------------------- splitting lemmas

  lemma IndexOfPrefix(s: seq<Byte>, t: seq<Byte>)
    ensures Whole(s) ==> IndexOf(s + t) == IndexOf(s) && Whole(s + t)
  {
    if Whole(s) {
      var n := IndexOf(s);
      assert (s + t)[n] == NEWLINE;
      assert forall i :: 0 <= i < n ==> (s + t)[i] == s[i];
    }
  }

  /** Lines may be split off before or after more bytes arrive. */
  lemma {:induction false} LinesOfMore(s: seq<Byte>, t: seq<Byte>)
    ensures CompleteLines(s + t) == CompleteLines(s) + CompleteLines(Rest(s) + t)
    ensures Rest(s + t) == Rest(Rest(s) + t)
    decreases |s|
  {
    if Whole(s) {
      IndexOfPrefix(s, t);
      var n := IndexOf(s);
      assert (s + t)[..n] == s[..n];
      assert (s + t)[n + 1..] == s[n + 1..] + t;
      LinesOfMore(s[n + 1..], t);
    }
  }

  /** Lines put together again, each with the line feed that ended it. */
  function Terminated(lines: seq<seq<Byte>>): seq<Byte> {
    if |lines| == 0 then [] else lines[0] + [10] + Terminated(lines[1..])
  }

  /** Splitting loses nothing and splits at line feeds only: the lines and the rest make up the stream, and none of
      them holds a line feed. */
  lemma LinesRejoin(s: seq<Byte>)
    ensures Terminated(CompleteLines(s)) + Rest(s) == s
    ensures (forall i :: 0 <= i < |CompleteLines(s)| ==> 10 !in CompleteLines(s)[i]) && 10 !in Rest(s)
  {
    hide CompleteLines, Rest, Terminated;
    NothingIsLost(s);
    NoFeedInside(s);
  }

  lemma {:induction false} NothingIsLost(s: seq<Byte>)
    ensures Terminated(CompleteLines(s)) + Rest(s) == s
    decreases |s|
  {
    if Whole(s) {
      var n := IndexOf(s);
      var tail := s[n + 1..];
      NothingIsLost(tail);
      hide CompleteLines, Rest, Terminated, IndexOf;
      FirstLineOff(s);
      TerminatedFirst(s[..n], CompleteLines(tail));
      PutBack(s, n, Terminated(CompleteLines(tail)), Rest(tail));
    } else {
      assert Terminated([]) == [];
    }
  }

  lemma FirstLineOff(s: seq<Byte>)
    requires Whole(s)
    ensures var n := IndexOf(s);
            && s[n] == 10 && CompleteLines(s) == [s[..n]] + CompleteLines(s[n + 1..]) && Rest(s) == Rest(s[n + 1..])
  {
  }

  lemma PutBack(s: seq<Byte>, n: nat, lines: seq<Byte>, rest: seq<Byte>)
    requires n < |s| && s[n] == 10 && lines + rest == s[n + 1..]
    ensures s[..n] + [10] + lines + rest == s
  {
    assert s[..n] + [10] + lines + rest == s[..n] + [10] + (lines + rest);
    assert s == s[..n] + [s[n]] + s[n + 1..];
  }

  lemma TerminatedFirst(line: seq<Byte>, lines: seq<seq<Byte>>)
    ensures Terminated([line] + lines) == line + [10] + Terminated(lines)
  {
    assert ([line] + lines)[1..] == lines;
  }

  lemma {:induction false} NoFeedInside(s: seq<Byte>)
    ensures (forall i :: 0 <= i < |CompleteLines(s)| ==> 10 !in CompleteLines(s)[i]) && 10 !in Rest(s)
    decreases |s|
  {
    if Whole(s) {
      NoFeedInside(s[IndexOf(s) + 1..]);
    }
  }

  lemma {:induction false} MessagesOfMore<M>(f: Format<M>, a: seq<seq<Byte>>, b: seq<seq<Byte>>)
    ensures Messages(f, a + b) == Messages(f, a) + Messages(f, b)
  {
    if |a| == 0 {
      assert a + b == b;
    } else {
      assert (a + b)[1..] == a[1..] + b;
      MessagesOfMore(f, a[1..], b);
    }
  }

  /** The messages of the buffered lines that are still to come. */
  function Due<M>(f: Format<M>, buffer: seq<Byte>): seq<M> {
    Messages(f, CompleteLines(buffer))
  }

  /** The loop moves messages from the buffer to the queue and keeps the unfinished line. It stops at the
      first bad line, and without one it empties the buffer of complete lines. */
  lemma {:induction false} DrainDelivers<M>(f: Format<M>, p: Peer<M>)
    ensures var d := Drain(f, p);
            d.delivered + Due(f, d.buffer) == p.delivered + Due(f, p.buffer) && Rest(d.buffer) == Rest(p.buffer)
    decreases |p.buffer|
  {
    hide Judge, Due, Rest, Drain;
    DrainFirst(f, p);
    if Whole(p.buffer) {
      DueOfFirst(f, p.buffer);
      var n := IndexOf(p.buffer);
      var rest := p.buffer[n + 1..];
      match Judge(f, p.buffer[..n]) {
        case Bad =>
        case Blank =>
          DrainDelivers(f, p.(buffer := rest));
        case Message(m) =>
          var q := p.(buffer := rest, delivered := p.delivered + [m]);
          DrainDelivers(f, q);
          assert p.delivered + ([m] + Due(f, rest)) == q.delivered + Due(f, rest);
      }
    }
  }

  lemma DrainFirst<M>(f: Format<M>, p: Peer<M>)
    ensures Drain(f, p) ==
      var n := IndexOf(p.buffer);
      if n == |p.buffer| then p
      else
        var rest := p.buffer[n + 1..];
        match Judge(f, p.buffer[..n])
        case Bad => p.(buffer := rest, failed := true)
        case Blank => Drain(f, p.(buffer := rest))
        case Message(m) => Drain(f, p.(buffer := rest, delivered := p.delivered + [m]))
  {
  }

  /** What splitting off the first line does to the messages to come. */
  lemma DueOfFirst<M>(f: Format<M>, buffer: seq<Byte>)
    requires Whole(buffer)
    ensures var n := IndexOf(buffer); var rest := buffer[n + 1..];
            && Rest(buffer) == Rest(rest)
            && Due(f, buffer) == (match Judge(f, buffer[..n]) case Message(m) => [m] case _ => []) + Due(f, rest)
  {
    hide Judge, Messages;
    var n := IndexOf(buffer);
    var lines := CompleteLines(buffer);
    assert lines == [buffer[..n]] + CompleteLines(buffer[n + 1..]);
    assert lines[1..] == CompleteLines(buffer[n + 1..]);
    hide CompleteLines;
    FirstLine(f, lines);
  }

  lemma {:induction false} DrainStops<M>(f: Format<M>, p: Peer<M>)
    ensures var lines := CompleteLines(p.buffer); var d := Drain(f, p);
            && (d.failed <==> p.failed || !AllGood(f, lines))
            && (AllGood(f, lines) ==> d.buffer == Rest(p.buffer))
    decreases |p.buffer|
  {
    hide Judge, AllGood;
    if Whole(p.buffer) {
      var n := IndexOf(p.buffer);
      var rest := p.buffer[n + 1..];
      var lines := CompleteLines(p.buffer);
      assert lines[0] == p.buffer[..n] && lines[1..] == CompleteLines(rest);
      FirstLine(f, lines);
      match Judge(f, p.buffer[..n]) {
        case Bad =>
        case Blank =>
          DrainStops(f, p.(buffer := rest));
        case Message(m) =>
          DrainStops(f, p.(buffer := rest, delivered := p.delivered + [m]));
      }
    } else {
      NoLines(f);
    }
  }

  lemma NoLines<M>(f: Format<M>)
    ensures AllGood(f, []) && Messages(f, []) == []
  {
  }

  lemma FirstLine<M>(f: Format<M>, lines: seq<seq<Byte>>)
    requires |lines| > 0
    ensures AllGood(f, lines) <==> !Judge(f, lines[0]).Bad? && AllGood(f, lines[1..])
    ensures Messages(f, lines) ==
      (match Judge(f, lines[0]) case Message(m) => [m] case _ => []) + Messages(f, lines[1..])
  {
    assert forall i :: 1 <= i < |lines| ==> lines[i] == lines[1..][i - 1];
    assert forall i :: 0 <= i < |lines[1..]| ==> lines[1..][i] == lines[i + 1];
  }

  // ---------------------------------------------------------------- the guarantees

  /** For every stream, every chunking and every format, errors or not: what has been delivered and what
      the buffer still holds are together exactly the messages of the complete lines so far, in order; so
      nothing is lost, invented or reordered, and the queue is always a prefix of what the stream says.
      While no error has been reported all of it is delivered and the buffer is the unfinished line. */
  lemma {:induction false} ChunksDeliver<M>(f: Format<M>, chunks: seq<seq<Byte>>)
    ensures var p := Feed(f, chunks); var lines := CompleteLines(Joined(chunks));
            && p.delivered + Due(f, p.buffer) == Messages(f, lines)
            && p.delivered <= Messages(f, lines)
            && Rest(p.buffer) == Rest(Joined(chunks))
            && (!p.failed ==>
                  AllGood(f, lines) && p.delivered == Messages(f, lines) && p.buffer == Rest(Joined(chunks)))
  {
    hide Judge, Messages, AllGood, CompleteLines, Drain, Rest;
    NoLines(f);
    if |chunks| > 0 {
      var n := |chunks| - 1;
      var before, chunk := chunks[..n], chunks[n];
      ChunksDeliver(f, before);
      var p := Feed(f, before);
      var q := p.(buffer := p.buffer + chunk);
      var tail := CompleteLines(Rest(p.buffer) + chunk);
      LinesOfMore(Joined(before), chunk);
      LinesOfMore(p.buffer, chunk);
      MessagesOfMore(f, CompleteLines(Joined(before)), tail);
      MessagesOfMore(f, CompleteLines(p.buffer), tail);
      BothGood(f, CompleteLines(Joined(before)), tail);
      assert q.delivered + Due(f, q.buffer) == Messages(f, CompleteLines(Joined(chunks)));
      DrainDelivers(f, q);
      DrainStops(f, q);
      if !Feed(f, chunks).failed {
        UnfinishedHasNoLines(f, Joined(before), p.buffer);
      }
      UnfinishedHasNoLines(f, Joined(chunks), Feed(f, chunks).buffer);
    } else {
      NoLinesYet([]);
    }
  }

  lemma NoLinesYet(s: seq<Byte>)
    ensures !Whole(s) ==> CompleteLines(s) == [] && Rest(s) == s
  {
  }

  lemma UnfinishedHasNoLines<M>(f: Format<M>, stream: seq<Byte>, buffer: seq<Byte>)
    ensures buffer == Rest(stream) ==> CompleteLines(buffer) == [] && Messages(f, CompleteLines(buffer)) == []
  {
  }

  lemma BothGood<M>(f: Format<M>, a: seq<seq<Byte>>, b: seq<seq<Byte>>)
    ensures AllGood(f, a + b) <==> AllGood(f, a) && AllGood(f, b)
  {
    assert forall i :: 0 <= i < |a| ==> (a + b)[i] == a[i];
    assert forall i :: 0 <= i < |b| ==> (a + b)[|a| + i] == b[i];
  }

  /** A bad line does not stop the stream: the next chunk, whatever it is, lets the lines behind it through
      up to the next bad one. */
  lemma GoodLineAfterBad<M>(f: Format<M>, bad: seq<Byte>, good: seq<Byte>)
    requires !Whole(bad) && !Whole(good) && Judge(f, bad).Bad? && Judge(f, good).Message?
    ensures var p := Feed(f, [bad + [NEWLINE], good + [NEWLINE]]);
            p.failed && p.delivered == [Judge(f, good).value]
  {
    hide Judge, Drain;
    var one, two := bad + [NEWLINE], good + [NEWLINE];
    var m := Judge(f, good).value;
    var none: seq<seq<Byte>> := [];
    var empty: Peer<M> := Peer([], [], false);
    assert [one, two][..1] == [one] && [one][..0] == none && Feed(f, none) == empty;
    assert [] + one == one && [] + two == two;
    WholeLine(bad);
    WholeLine(good);
    DrainFirst(f, Peer(one, [], false));
    assert Feed(f, [one]) == Peer([], [], true);
    DrainFirst(f, Peer(two, [], true));
    DrainFirst(f, Peer([], [m], true));
    assert [] + [m] == [m];
    assert Feed(f, [one, two]) == Peer([], [m], true);
  }

  lemma WholeLine(raw: seq<Byte>)
    requires !Whole(raw)
    ensures var s := raw + [NEWLINE]; IndexOf(s) == |raw| && Whole(s) && s[..|raw|] == raw && s[|raw| + 1..] == []
  {
    var s := raw + [NEWLINE];
    assert forall i :: 0 <= i < |raw| ==> s[i] == raw[i];
    assert s[|raw|] == NEWLINE;
  }

  /** The buffer of a peer without errors: no newline, and no longer than the limit or than what the
      last chunk left after its last newline. */
  lemma BufferIsBounded<M>(f: Format<M>, chunks: seq<seq<Byte>>)
    requires !Feed(f, chunks).failed && |chunks| > 0
    ensures var buffer := Feed(f, chunks).buffer;
            && !Whole(buffer)
            && (|buffer| <= f.maxLineBytes || |buffer| < |chunks[|chunks| - 1]|)
  {
    var n := |chunks| - 1;
    var p := Feed(f, chunks[..n]);
    ChunksDeliver(f, chunks[..n]);
    var q := p.buffer + chunks[n];
    DrainStops(f, p.(buffer := q));
    if Whole(q) {
      RestIsSuffix(q, |p.buffer|);
    }
  }

  /** What is left after the last newline lies behind any newline-free prefix. */
  lemma {:induction false} RestIsSuffix(s: seq<Byte>, k: nat)
    requires Whole(s) && k <= IndexOf(s)
    ensures |Rest(s)| < |s| - k
  {
  }

  /** Every raw line, the unfinished one included, fits the limit. */
  predicate Fits<M>(f: Format<M>, stream: seq<Byte>) {
    && (forall i :: 0 <= i < |CompleteLines(stream)| ==> |CompleteLines(stream)[i]| <= f.maxLineBytes)
    && |Rest(stream)| <= f.maxLineBytes
  }

  /** Decoding and trimming never lengthen, so on a fitting line only the parser can object. */
  lemma FittingLinesFailToParse<M(!new)>(f: Format<M>, raw: seq<Byte>)
    requires Shortening(f) && |raw| <= f.maxLineBytes
    ensures Judge(f, raw).Bad? <==> f.text(raw) != "" && f.parse(f.text(raw)).None?
  {
    assert |f.text(raw)| <= |raw|;
  }

  /** A stream survives every chunking exactly when its raw lines fit the limit and none is bad. */
  lemma EveryChunkingSucceeds<M>(f: Format<M>, stream: seq<Byte>)
    ensures (forall chunks | Joined(chunks) == stream :: !Feed(f, chunks).failed)
        <==> Fits(f, stream) && AllGood(f, CompleteLines(stream))
  {
    if Fits(f, stream) && AllGood(f, CompleteLines(stream)) {
      forall chunks | Joined(chunks) == stream ensures !Feed(f, chunks).failed {
        FittingSucceeds(f, chunks);
      }
    } else {
      var chunks := Bytewise(stream);
      BytewiseJoins(stream);
      BytewiseFails(f, stream);
      assert Feed(f, chunks).failed;
    }
  }

  lemma {:induction false} FittingSucceeds<M>(f: Format<M>, chunks: seq<seq<Byte>>)
    requires Fits(f, Joined(chunks)) && AllGood(f, CompleteLines(Joined(chunks)))
    ensures !Feed(f, chunks).failed
  {
    if |chunks| > 0 {
      var n := |chunks| - 1;
      var before, chunk := chunks[..n], chunks[n];
      var a, b := CompleteLines(Joined(before)), CompleteLines(Rest(Joined(before)) + chunk);
      LinesOfMore(Joined(before), chunk);
      BothGood(f, a, b);
      assert forall i :: 0 <= i < |a| ==> (a + b)[i] == a[i];
      assert forall i :: 0 <= i < |b| ==> (a + b)[|a| + i] == b[i];
      UnfinishedFits(f, Rest(Joined(before)), chunk);
      FittingSucceeds(f, before);
      ChunksDeliver(f, before);
      DrainStops(f, Feed(f, before).(buffer := Rest(Joined(before)) + chunk));
    }
  }

  /** An unfinished line is no longer than what it grows into. */
  lemma UnfinishedFits<M>(f: Format<M>, r: seq<Byte>, chunk: seq<Byte>)
    requires !Whole(r) && Fits(f, r + chunk)
    ensures |r| <= f.maxLineBytes
    ensures !Whole(r + chunk) ==> |r + chunk| <= f.maxLineBytes
  {
    if Whole(r + chunk) {
      assert forall i :: 0 <= i < |r| ==> (r + chunk)[i] != NEWLINE by {
        assert forall i :: 0 <= i < |r| ==> (r + chunk)[i] == r[i];
      }
      assert CompleteLines(r + chunk)[0] == (r + chunk)[..IndexOf(r + chunk)];
    }
  }

  function Bytewise(stream: seq<Byte>): seq<seq<Byte>> {
    seq(|stream|, i requires 0 <= i < |stream| => [stream[i]])
  }

  lemma {:induction false} BytewiseJoins(stream: seq<Byte>)
    ensures Joined(Bytewise(stream)) == stream
  {
    if |stream| > 0 {
      var n := |stream| - 1;
      BytewiseJoins(stream[..n]);
      assert Bytewise(stream)[..n] == Bytewise(stream[..n]);
      assert stream == stream[..n] + [stream[n]];
    }
  }

  /** Fed byte by byte, a stream with an oversized or bad line fails. */
  lemma {:induction false} BytewiseFails<M>(f: Format<M>, stream: seq<Byte>)
    ensures Feed(f, Bytewise(stream)).failed <==> !(Fits(f, stream) && AllGood(f, CompleteLines(stream)))
  {
    BytewiseJoins(stream);
    if Fits(f, stream) && AllGood(f, CompleteLines(stream)) {
      FittingSucceeds(f, Bytewise(stream));
    } else if |stream| > 0 {
      var n := |stream| - 1;
      var x := stream[n];
      assert stream == stream[..n] + [x];
      assert Bytewise(stream)[..n] == Bytewise(stream[..n]);
      BytewiseFails(f, stream[..n]);
      var p := Feed(f, Bytewise(stream[..n]));
      hide Drain, Fits, AllGood, CompleteLines, Rest, Judge, Messages, Due;
      DrainStops(f, p.(buffer := p.buffer + [x]));
      if !p.failed {
        BytewiseJoins(stream[..n]);
        ChunksDeliver(f, Bytewise(stream[..n]));
        LastByte(f, stream[..n], x);
      }
    }
  }

  /** One more byte, on a stream that was fine: what can go wrong is the line it ends or extends. */
  lemma LastByte<M>(f: Format<M>, s: seq<Byte>, x: Byte)
    requires Fits(f, s) && AllGood(f, CompleteLines(s))
    requires !(Fits(f, s + [x]) && AllGood(f, CompleteLines(s + [x])))
    ensures var q := Rest(s) + [x];
            (|q| > f.maxLineBytes && !Whole(q)) || (Whole(q) && !AllGood(f, CompleteLines(q)))
  {
    var r := Rest(s);
    var q := r + [x];
    LinesOfMore(s, [x]);
    var a, b := CompleteLines(s), CompleteLines(q);
    BothGood(f, a, b);
    assert forall i :: 0 <= i < |r| ==> q[i] != NEWLINE;
    if x == NEWLINE {
      assert IndexOf(q) == |r| by {
        assert q[|r|] == NEWLINE;
      }
      assert q[|r| + 1..] == [];
      assert q[..|r|] == r;
      assert b == [r] && Rest(q) == [];
      assert forall i :: 0 <= i < |a + b| ==> (a + b)[i] == if i < |a| then a[i] else r;
    } else {
      assert !Whole(q) && b == [] && a + b == a;
    }
  }

  /** A raw line that is too long and yet good after trimming passes or fails with the chunking: at
      once it is delivered, byte by byte it is refused. */
  lemma ChunkingMatters<M>(f: Format<M>, raw: seq<Byte>)
    requires !Whole(raw) && |raw| > f.maxLineBytes && !Judge(f, raw).Bad?
    ensures !Feed(f, [raw + [NEWLINE]]).failed && Feed(f, Bytewise(raw + [NEWLINE])).failed
  {
    var s := raw + [NEWLINE];
    WholeLine(raw);
    assert CompleteLines(s) == [raw];
    BytewiseFails(f, s);
    var none: seq<seq<Byte>> := [];
    var empty: Peer<M> := Peer([], [], false);
    assert [s][..0] == none && Feed(f, none) == empty;
    assert [] + s == s;
    hide Drain, Fits, AllGood, Bytewise;
    DrainStops(f, empty.(buffer := s));
    OneLine(f, raw);
  }

  lemma OneLine<M>(f: Format<M>, raw: seq<Byte>)
    ensures AllGood(f, [raw]) <==> !Judge(f, raw).Bad?
    ensures CompleteLines(raw + [NEWLINE]) == [raw] && |raw| > f.maxLineBytes ==> !Fits(f, raw + [NEWLINE])
  {
    assert [raw][0] == raw;
  }

  /** Exactly when the chunking does not matter: every chunking succeeds, or some line is bad, or the stream is
      one unfinished line over the limit. Otherwise it passes in one piece and fails byte by byte. */
  lemma ChunkingDecides<M>(f: Format<M>, stream: seq<Byte>)
    ensures (forall a, b | Joined(a) == Joined(b) == stream :: Feed(f, a).failed == Feed(f, b).failed)
        <==> || (Fits(f, stream) && AllGood(f, CompleteLines(stream)))
             || !AllGood(f, CompleteLines(stream))
             || (!Whole(stream) && |stream| > f.maxLineBytes)
  {
    hide Feed, Joined, Fits, AllGood, CompleteLines;
    if Fits(f, stream) && AllGood(f, CompleteLines(stream)) {
      forall chunks | Joined(chunks) == stream ensures !Feed(f, chunks).failed {
        FittingSucceeds(f, chunks);
      }
    } else if !AllGood(f, CompleteLines(stream)) {
      forall chunks | Joined(chunks) == stream ensures Feed(f, chunks).failed {
        ChunksDeliver(f, chunks);
      }
    } else if !Whole(stream) && |stream| > f.maxLineBytes {
      forall chunks | Joined(chunks) == stream ensures Feed(f, chunks).failed {
        LongLineFails(f, chunks);
      }
    } else {
      UnfinishedOrWhole(f, stream);
      BytewiseJoins(stream);
      BytewiseFails(f, stream);
      InOnePiece(f, stream);
      assert Joined(Bytewise(stream)) == Joined([stream]) == stream;
    }
  }

  lemma LongLineFails<M>(f: Format<M>, chunks: seq<seq<Byte>>)
    requires !Whole(Joined(chunks)) && |Joined(chunks)| > f.maxLineBytes
    ensures Feed(f, chunks).failed
  {
    hide Drain, CompleteLines;
    var n := |chunks| - 1;
    var p := Feed(f, chunks[..n]);
    var stream := Joined(chunks);
    ChunksDeliver(f, chunks[..n]);
    NotWholeBefore(Joined(chunks[..n]), chunks[n]);
    NoLinesYet(Joined(chunks[..n]));
    if p.failed {
      DrainStops(f, p.(buffer := p.buffer + chunks[n]));
    } else {
      assert p.buffer + chunks[n] == stream;
    }
  }

  lemma NotWholeBefore(s: seq<Byte>, t: seq<Byte>)
    requires !Whole(s + t)
    ensures !Whole(s)
  {
    IndexOfPrefix(s, t);
  }

  /** A stream without a newline fits exactly when it is short. */
  lemma UnfinishedOrWhole<M>(f: Format<M>, stream: seq<Byte>)
    requires !Fits(f, stream) && (Whole(stream) || |stream| <= f.maxLineBytes)
    ensures Whole(stream)
  {
    NoLinesYet(stream);
  }

  lemma InOnePiece<M>(f: Format<M>, stream: seq<Byte>)
    requires Whole(stream) && AllGood(f, CompleteLines(stream))
    ensures Joined([stream]) == stream && !Feed(f, [stream]).failed
  {
    var none: seq<seq<Byte>> := [];
    var empty: Peer<M> := Peer([], [], false);
    assert [stream][..0] == none && Feed(f, none) == empty && Joined(none) == [];
    assert [] + stream == stream;
    hide Drain, AllGood;
    DrainStops(f, empty.(buffer := stream));
  }

  // ---------------------------------------------------------------- the peer itself

  class LineJsonPeer<M> {
    const format: Format<M>
    var buffer: seq<Byte>
    var queue: seq<M>
    var failed: bool

    constructor (format: Format<M>)
      ensures this.format == format && State() == Peer([], [], false)
    {
      this.format := format;
      buffer, queue, failed := [], [], false;
    }

    ghost function State(): Peer<M>
      reads this
    {
      Peer(buffer, queue, failed)
    }

    method Receive(chunk: seq<Byte>)
      modifies this
      ensures State() == Consume(format, old(State()), chunk)
    {
      buffer := buffer + chunk;
      var newline := IndexOf(buffer);
      if |buffer| > format.maxLineBytes && newline == |buffer| {
        failed := true;
        return;
      }
      ghost var start := State();
      while newline < |buffer|
        invariant newline == IndexOf(buffer) && failed == old(failed)
        invariant Drain(format, State()) == Drain(format, start)
        decreases |buffer|
      {
        var line := format.text(buffer[..newline]);
        ghost var verdict := Judge(format, buffer[..newline]);
        buffer := buffer[newline + 1..];
        if |line| > format.maxLineBytes {
          failed := true;
          return;
        }
        if line != "" {
          var value := format.parse(line);
          if value.None? {
            failed := true;
            return;
          }
          queue := queue + [value.value];
        }
        newline := IndexOf(buffer);
      }
    }

    /** A whole run of `data` events, errors or not. */
    method ReceiveAll(chunks: seq<seq<Byte>>)
      requires State() == Peer([], [], false)
      modifies this
      ensures State() == Feed(format, chunks)
      ensures queue + Due(format, buffer) == Messages(format, CompleteLines(Joined(chunks)))
      ensures !failed ==> queue == Messages(format, CompleteLines(Joined(chunks))) && buffer == Rest(Joined(chunks))
    {
      hide Consume;
      for i := 0 to |chunks|
        invariant State() == Feed(format, chunks[..i])
      {
        assert chunks[..i + 1][..i] == chunks[..i];
        Receive(chunks[i]);
      }
      assert chunks[..|chunks|] == chunks;
      ChunksDeliver(format, chunks);
    }
  }
}
