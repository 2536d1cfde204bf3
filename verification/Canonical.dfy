/** Canonical printing of JSON values (`canonical` in apps/server/src/audit/audit.service.ts): two
    values print alike exactly when they are the same value up to the order of object keys. */
module Canonical {
  import opened Common

  /** A JSON value as the program holds it, object keys in insertion order. A number is given by the
      text it prints as. */
  datatype Json =
    | Null
    | Bool(b: bool)
    | Num(text: string)
    | Str(s: string)
    | Arr(items: seq<Json>)
    | Obj(fields: seq<Field>)

  datatype Field = Field(key: string, value: Json)

  /** A JSON value as such: the order of keys is gone. */
  datatype Value =
    | VNull
    | VBool(b: bool)
    | VNum(text: string)
    | VStr(s: string)
    | VArr(items: seq<Value>)
    | VObj(fields: map<string, Value>)

  datatype Pair<T> = Pair(key: string, item: T)

  // ---------------------------------------------------------------- association lists

  function MapOf<T>(pairs: seq<Pair<T>>): map<string, T> {
    if |pairs| == 0 then map[]
    else MapOf(pairs[..|pairs| - 1])[pairs[|pairs| - 1].key := pairs[|pairs| - 1].item]
  }

  ghost predicate DistinctKeys<T>(pairs: seq<Pair<T>>) {
    forall i, j :: 0 <= i < j < |pairs| ==> pairs[i].key != pairs[j].key
  }

  lemma {:induction false} MapOfIsLookup<T>(pairs: seq<Pair<T>>)
    requires DistinctKeys(pairs)
    ensures forall i :: 0 <= i < |pairs| ==> pairs[i].key in MapOf(pairs) && MapOf(pairs)[pairs[i].key] == pairs[i].item
    ensures forall k :: k in MapOf(pairs) ==> HasKey(pairs, k)
  {
    if |pairs| > 0 {
      var n := |pairs| - 1;
      MapOfIsLookup(pairs[..n]);
      forall k | k in MapOf(pairs) ensures HasKey(pairs, k) {
        if k != pairs[n].key {
          var i :| 0 <= i < n && pairs[..n][i].key == k;
          assert pairs[i].key == k;
        }
      }
    }
  }

  predicate HasKey<T>(pairs: seq<Pair<T>>, k: string) {
    exists i :: 0 <= i < |pairs| && pairs[i].key == k
  }

  /** Distinct pairs are determined as a set by their map. */
  lemma MembersOfMap<T(!new)>(a: seq<Pair<T>>, b: seq<Pair<T>>)
    requires DistinctKeys(a) && DistinctKeys(b) && MapOf(a) == MapOf(b)
    ensures forall p :: p in a <==> p in b
  {
    MapOfIsLookup(a);
    MapOfIsLookup(b);
    forall p | p in a ensures p in b {
      assert p.key in MapOf(b);
      var i :| 0 <= i < |b| && b[i].key == p.key;
      assert b[i] == p;
    }
    forall p | p in b ensures p in a {
      assert p.key in MapOf(a);
      var i :| 0 <= i < |a| && a[i].key == p.key;
      assert a[i] == p;
    }
  }

  lemma MapOfMembers<T(!new)>(a: seq<Pair<T>>, b: seq<Pair<T>>)
    requires DistinctKeys(a) && DistinctKeys(b) && forall p :: p in a <==> p in b
    ensures MapOf(a) == MapOf(b)
  {
    MapOfIsLookup(a);
    MapOfIsLookup(b);
    forall k | k in MapOf(a) ensures k in MapOf(b) && MapOf(b)[k] == MapOf(a)[k] {
      var i :| 0 <= i < |a| && a[i].key == k;
      assert a[i] in b;
    }
    forall k | k in MapOf(b) ensures k in MapOf(a) {
      var i :| 0 <= i < |b| && b[i].key == k;
      assert b[i] in a;
    }
  }

  // ---------------------------------------------------------------- sorting

  /** `localeCompare(a, b) <= 0`: any total preorder. */
  type Order = (string, string) -> bool

  ghost predicate Lawful(leq: Order) {
    && (forall a, b :: leq(a, b) || leq(b, a))
    && (forall a, b, c :: leq(a, b) && leq(b, c) ==> leq(a, c))
  }

  /** Puts a pair behind everything that does not compare greater, as a stable sort does. */
  function Insert<T>(leq: Order, s: seq<Pair<T>>, p: Pair<T>): seq<Pair<T>> {
    if |s| == 0 || leq(s[|s| - 1].key, p.key) then s + [p]
    else Insert(leq, s[..|s| - 1], p) + [s[|s| - 1]]
  }

  function Sort<T>(leq: Order, s: seq<Pair<T>>): seq<Pair<T>> {
    if |s| == 0 then [] else Insert(leq, Sort(leq, s[..|s| - 1]), s[|s| - 1])
  }

  ghost predicate Ordered<T>(leq: Order, s: seq<Pair<T>>) {
    forall i, j :: 0 <= i < j < |s| ==> leq(s[i].key, s[j].key)
  }

  lemma {:induction false} InsertMembers<T(!new)>(leq: Order, s: seq<Pair<T>>, p: Pair<T>)
    ensures |Insert(leq, s, p)| == |s| + 1
    ensures forall q :: q in Insert(leq, s, p) <==> q in s || q == p
  {
    if |s| > 0 && !leq(s[|s| - 1].key, p.key) {
      var n := |s| - 1;
      InsertMembers(leq, s[..n], p);
      assert s == s[..n] + [s[n]];
    }
  }

  lemma {:induction false} InsertOrders<T(!new)>(leq: Order, s: seq<Pair<T>>, p: Pair<T>)
    requires Lawful(leq) && Ordered(leq, s)
    ensures Ordered(leq, Insert(leq, s, p))
  {
    if |s| > 0 {
      var n := |s| - 1;
      if leq(s[n].key, p.key) {
        forall i | 0 <= i < n ensures leq(s[i].key, p.key) {
          assert leq(s[i].key, s[n].key);
        }
      } else {
        InsertOrders(leq, s[..n], p);
        InsertMembers(leq, s[..n], p);
        var r := Insert(leq, s[..n], p);
        assert leq(p.key, s[n].key);
        forall i | 0 <= i < |r| ensures leq(r[i].key, s[n].key) {
          assert r[i] in r && (r[i] in s[..n] || r[i] == p);
        }
      }
    }
  }

  lemma {:induction false} InsertKeepsDistinct<T(!new)>(leq: Order, s: seq<Pair<T>>, p: Pair<T>)
    requires DistinctKeys(s) && forall i :: 0 <= i < |s| ==> s[i].key != p.key
    ensures DistinctKeys(Insert(leq, s, p))
  {
    if |s| > 0 && !leq(s[|s| - 1].key, p.key) {
      var n := |s| - 1;
      InsertKeepsDistinct(leq, s[..n], p);
      InsertMembers(leq, s[..n], p);
      var r := Insert(leq, s[..n], p);
      forall i | 0 <= i < |r| ensures r[i].key != s[n].key {
        assert r[i] in r && (r[i] in s[..n] || r[i] == p);
      }
    }
  }

  lemma {:induction false} SortKeeps<T(!new)>(leq: Order, s: seq<Pair<T>>)
    requires Lawful(leq)
    ensures |Sort(leq, s)| == |s| && Ordered(leq, Sort(leq, s))
    ensures forall q :: q in Sort(leq, s) <==> q in s
    ensures DistinctKeys(s) ==> DistinctKeys(Sort(leq, s))
  {
    if |s| > 0 {
      var n := |s| - 1;
      SortKeeps(leq, s[..n]);
      var r := Sort(leq, s[..n]);
      InsertMembers(leq, r, s[n]);
      InsertOrders(leq, r, s[n]);
      assert s == s[..n] + [s[n]];
      if DistinctKeys(s) {
        forall i | 0 <= i < |r| ensures r[i].key != s[n].key {
          assert r[i] in r && r[i] in s[..n];
        }
        InsertKeepsDistinct(leq, r, s[n]);
      }
    }
  }

  /** No two different keys compare equal. */
  ghost predicate NoTies(leq: Order, keys: set<string>) {
    forall a, b :: a in keys && b in keys && leq(a, b) && leq(b, a) ==> a == b
  }

  ghost predicate SameMembers<T(!new)>(a: seq<Pair<T>>, b: seq<Pair<T>>) {
    forall p :: p in a <==> p in b
  }

  /** Without ties, the last of the sorted pairs is determined by the pairs. */
  lemma LastIsSame<T(!new)>(leq: Order, a: seq<Pair<T>>, b: seq<Pair<T>>, keys: set<string>)
    requires |a| > 0 && |b| > 0 && Ordered(leq, a) && Ordered(leq, b) && DistinctKeys(a) && DistinctKeys(b)
    requires SameMembers(a, b) && NoTies(leq, keys) && forall i :: 0 <= i < |a| ==> a[i].key in keys
    ensures a[|a| - 1] == b[|b| - 1]
  {
    var m, n := |a| - 1, |b| - 1;
    assert b[n] in a && a[m] in b;
    var i :| 0 <= i < |a| && a[i] == b[n];
    var j :| 0 <= j < |b| && b[j] == a[m];
  }

  lemma ButLast<T(!new)>(a: seq<Pair<T>>, b: seq<Pair<T>>)
    requires |a| > 0 && |b| > 0 && DistinctKeys(a) && DistinctKeys(b) && SameMembers(a, b) && a[|a| - 1] == b[|b| - 1]
    ensures SameMembers(a[..|a| - 1], b[..|b| - 1])
  {
    InAllButLast(a);
    InAllButLast(b);
    var x, y := a[..|a| - 1], b[..|b| - 1];
    forall p ensures p in x <==> p in y {
      assert p in a <==> p in b;
    }
  }

  lemma InAllButLast<T(!new)>(a: seq<Pair<T>>)
    requires |a| > 0 && DistinctKeys(a)
    ensures forall p :: p in a[..|a| - 1] <==> p in a && p != a[|a| - 1]
  {
    assert a == a[..|a| - 1] + [a[|a| - 1]];
  }

  lemma SameEmptiness<T(!new)>(a: seq<Pair<T>>, b: seq<Pair<T>>)
    requires SameMembers(a, b)
    ensures |a| == 0 <==> |b| == 0
  {
    if |a| > 0 {
      assert a[0] in a;
    }
    if |b| > 0 {
      assert b[0] in b;
    }
  }

  /** So sorted sequences of the same pairs are the same. */
  lemma {:induction false} OrderedIsUnique<T(!new)>(leq: Order, a: seq<Pair<T>>, b: seq<Pair<T>>, keys: set<string>)
    requires Ordered(leq, a) && Ordered(leq, b) && DistinctKeys(a) && DistinctKeys(b)
    requires SameMembers(a, b) && NoTies(leq, keys) && forall i :: 0 <= i < |a| ==> a[i].key in keys
    ensures a == b
  {
    SameEmptiness(a, b);
    if |a| > 0 {
      var m, n := |a| - 1, |b| - 1;
      LastIsSame(leq, a, b, keys);
      ButLast(a, b);
      hide SameMembers, NoTies;
      OrderedIsUnique(leq, a[..m], b[..n], keys);
      assert a == a[..m] + [a[m]] && b == b[..n] + [b[n]];
    }
  }

  lemma SortIsByMap<T(!new)>(leq: Order, a: seq<Pair<T>>, b: seq<Pair<T>>)
    requires Lawful(leq) && DistinctKeys(a) && DistinctKeys(b) && MapOf(a) == MapOf(b) && NoTies(leq, MapOf(a).Keys)
    ensures Sort(leq, a) == Sort(leq, b)
  {
    hide Sort, NoTies, Lawful, Ordered, DistinctKeys, MapOf;
    MembersOfMap(a, b);
    SortKeeps(leq, a);
    SortKeeps(leq, b);
    var x, y := Sort(leq, a), Sort(leq, b);
    MapOfIsLookup(a);
    forall i | 0 <= i < |x| ensures x[i].key in MapOf(a).Keys {
      assert x[i] in x && x[i] in a;
    }
    OrderedIsUnique(leq, x, y, MapOf(a).Keys);
  }

  lemma SortKeepsMap<T(!new)>(leq: Order, a: seq<Pair<T>>)
    requires Lawful(leq) && DistinctKeys(a)
    ensures MapOf(Sort(leq, a)) == MapOf(a)
  {
    SortKeeps(leq, a);
    MapOfMembers(Sort(leq, a), a);
  }

  // ---------------------------------------------------------------- stability

  ghost predicate Precedes<T(!new)>(s: seq<Pair<T>>, p: Pair<T>, q: Pair<T>) {
    exists i, j :: 0 <= i < j < |s| && s[i] == p && s[j] == q
  }

  lemma PrecedesOnce<T(!new)>(s: seq<Pair<T>>, p: Pair<T>, q: Pair<T>)
    requires DistinctKeys(s) && Precedes(s, p, q)
    ensures !Precedes(s, q, p)
  {
  }

  lemma PrecedesInLonger<T(!new)>(s: seq<Pair<T>>, x: Pair<T>, p: Pair<T>, q: Pair<T>)
    ensures Precedes(s, p, q) ==> Precedes(s + [x], p, q)
    ensures p in s ==> Precedes(s + [x], p, x)
  {
    if Precedes(s, p, q) {
      var i, j :| 0 <= i < j < |s| && s[i] == p && s[j] == q;
      assert (s + [x])[i] == p && (s + [x])[j] == q;
    }
    if p in s {
      var i :| 0 <= i < |s| && s[i] == p;
      assert (s + [x])[i] == p && (s + [x])[|s|] == x;
    }
  }

  /** Inserting keeps the order of what was there. */
  lemma {:induction false} InsertKeepsOrder<T(!new)>(leq: Order, s: seq<Pair<T>>, x: Pair<T>, p: Pair<T>, q: Pair<T>)
    requires Precedes(s, p, q)
    ensures Precedes(Insert(leq, s, x), p, q)
  {
    var n := |s| - 1;
    if leq(s[n].key, x.key) {
      PrecedesInLonger(s, x, p, q);
    } else {
      var r := Insert(leq, s[..n], x);
      InsertMembers(leq, s[..n], x);
      var i, j :| 0 <= i < j < |s| && s[i] == p && s[j] == q;
      assert s[..n][i] == p;
      assert p in s[..n];
      if j < n {
        assert s[..n][j] == q;
        InsertKeepsOrder(leq, s[..n], x, p, q);
      }
      PrecedesInLonger(r, s[n], p, q);
    }
  }

  /** What is inserted comes behind everything that does not compare greater. */
  lemma {:induction false} InsertBehind<T(!new)>(leq: Order, s: seq<Pair<T>>, x: Pair<T>, p: Pair<T>)
    requires p in s && leq(p.key, x.key)
    ensures Precedes(Insert(leq, s, x), p, x)
  {
    var n := |s| - 1;
    if leq(s[n].key, x.key) {
      PrecedesInLonger(s, x, p, x);
    } else {
      assert s == s[..n] + [s[n]];
      InsertBehind(leq, s[..n], x, p);
      PrecedesInLonger(Insert(leq, s[..n], x), s[n], p, x);
    }
  }

  /** Sorting is stable. */
  lemma {:induction false} SortIsStable<T(!new)>(leq: Order, s: seq<Pair<T>>, i: nat, j: nat)
    requires Lawful(leq) && i < j < |s| && leq(s[i].key, s[j].key)
    ensures Precedes(Sort(leq, s), s[i], s[j])
  {
    hide Precedes, Lawful;
    var n := |s| - 1;
    if j == n {
      SortKeeps(leq, s[..n]);
      assert s[..n][i] == s[i];
      InsertBehind(leq, Sort(leq, s[..n]), s[n], s[i]);
    } else {
      SortIsStable(leq, s[..n], i, j);
      InsertKeepsOrder(leq, Sort(leq, s[..n]), s[n], s[i], s[j]);
    }
  }

  // ---------------------------------------------------------------- string literals

  const HEX_DIGITS: string := "0123456789abcdef"

  /** The escapes of JSON.stringify, for strings without lone surrogates. */
  function Escape(c: char): string {
    if c == '\"' then "\\\""
    else if c == '\\' then "\\\\"
    else if c == '\U{0008}' then "\\b"
    else if c == '\U{000C}' then "\\f"
    else if c == '\n' then "\\n"
    else if c == '\r' then "\\r"
    else if c == '\t' then "\\t"
    else if c as int < 32 then "\\u00" + [HEX_DIGITS[c as int / 16], HEX_DIGITS[c as int % 16]]
    else [c]
  }

  function Escaped(s: string): string {
    if |s| == 0 then "" else Escape(s[0]) + Escaped(s[1..])
  }

  function Quote(s: string): string {
    "\"" + Escaped(s) + "\""
  }

  lemma HexIsInjective(i: nat, j: nat)
    requires i < 16 && j < 16 && HEX_DIGITS[i] == HEX_DIGITS[j]
    ensures i == j
  {
  }

  // ---------------------------------------------------------------- reading strings back

  function HexValue(c: char): Option<nat> {
    if '0' <= c <= '9' then Some(c as int - '0' as int)
    else if 'a' <= c <= 'f' then Some(c as int - 'a' as int + 10)
    else if 'A' <= c <= 'F' then Some(c as int - 'A' as int + 10)
    else None
  }

  /** The character of `\uXXXX`, outside the surrogates. */
  function CodePoint(digits: string): Option<char>
    requires |digits| == 4
  {
    match (HexValue(digits[0]), HexValue(digits[1]), HexValue(digits[2]), HexValue(digits[3]))
    case (Some(a), Some(b), Some(c), Some(d)) =>
      var n := ((a * 16 + b) * 16 + c) * 16 + d;
      if n < 0xD800 || (0xE000 <= n < 0x10000) then Some(n as char) else None
    case _ => None
  }

  /** What a two-character escape stands for. */
  function Named(c: char): Option<char> {
    match c
    case '\"' => Some('\"')
    case '\\' => Some('\\')
    case '/' => Some('/')
    case 'b' => Some('\U{0008}')
    case 'f' => Some('\U{000C}')
    case 'n' => Some('\U{000A}')
    case 'r' => Some('\U{000D}')
    case 't' => Some('\U{0009}')
    case _ => None
  }

  datatype Token = Token(c: char, length: nat)

  /** One character of a string in the sense of section 7 of RFC 8259, at the start of a text. */
  function ReadChar(t: string): Option<Token> {
    if |t| == 0 || t[0] == '\"' || t[0] < ' ' then None
    else if t[0] != '\\' then Some(Token(t[0], 1))
    else if |t| >= 6 && t[1] == 'u' then
      match CodePoint(t[2..6])
      case Some(c) => Some(Token(c, 6))
      case None => None
    else if |t| >= 2 && Named(t[1]).Some? then Some(Token(Named(t[1]).value, 2))
    else None
  }

  /** What is printed for a character reads as that character, whatever follows. */
  lemma EscapeReads(c: char, x: string)
    ensures ReadChar(Escape(c) + x) == Some(Token(c, |Escape(c)|))
  {
    EscapeForm(c);
    var e := Escape(c);
    hide Escape, Named, CodePoint;
    var t := e + x;
    assert t[0] == e[0];
    if |e| > 1 {
      assert t[1] == e[1];
      if |e| == 6 {
        assert t[2..6] == e[2..6];
      }
    }
  }

  /** Plain, named, or by its code. */
  lemma EscapeForm(c: char)
    ensures var e := Escape(c);
            || (e == [c] && c != '\"' && c != '\\' && c >= ' ')
            || (|e| == 2 && e[0] == '\\' && e[1] != 'u' && Named(e[1]) == Some(c))
            || (|e| == 6 && e[0] == '\\' && e[1] == 'u' && CodePoint(e[2..6]) == Some(c))
  {
    hide CodePoint;
    var e := Escape(c);
    if |e| == 6 {
      ControlReads(c);
      assert e[2..6] == ['0', '0', HEX_DIGITS[c as int / 16], HEX_DIGITS[c as int % 16]];
    }
  }

  lemma ControlReads(c: char)
    requires c as int < 32
    ensures CodePoint(['0', '0', HEX_DIGITS[c as int / 16], HEX_DIGITS[c as int % 16]]) == Some(c)
  {
    var a, b := c as int / 16, c as int % 16;
    HexReads(a);
    HexReads(b);
    assert a * 16 + b == c as int;
  }

  lemma HexReads(i: nat)
    requires i < 16
    ensures HexValue(HEX_DIGITS[i]) == Some(i)
  {
  }

  /** The characters of a printed string are those of the string, in order, one token each. */
  ghost predicate Reads(t: string, s: string)
    decreases |s|
  {
    if |s| == 0 then t == "\""
    else
      var first := ReadChar(t);
      first.Some? && first.value.c == s[0] && first.value.length <= |t| && Reads(t[first.value.length..], s[1..])
  }

  /** Printed strings are JSON strings, and read back as what was printed. */
  lemma {:induction false} QuoteReads(s: string)
    ensures Quote(s)[0] == '\"' && Reads(Quote(s)[1..], s)
  {
    hide ReadChar, Escape;
    assert Quote(s)[1..] == Escaped(s) + "\"";
    if |s| > 0 {
      var x := Escaped(s[1..]) + "\"";
      EscapeReads(s[0], x);
      assert Escaped(s) + "\"" == Escape(s[0]) + x;
      assert (Escape(s[0]) + x)[|Escape(s[0])|..] == x;
      QuoteReads(s[1..]);
      assert Quote(s[1..])[1..] == x;
    }
  }

  /** Escapes are prefix-free, and none starts with a quotation mark. */
  lemma EscapeIsCode(c: char, d: char, x: string, y: string)
    requires Escape(c) + x == Escape(d) + y
    ensures c == d && x == y
  {
    var s := Escape(c) + x;
    var t := Escape(d) + y;
    assert s[0] == Escape(c)[0] && t[0] == Escape(d)[0];
    if |Escape(c)| > 1 {
      assert s[1] == Escape(c)[1] && t[1] == Escape(d)[1];
      if |Escape(c)| == 6 {
        assert s[4] == Escape(c)[4] && s[5] == Escape(c)[5] && t[4] == Escape(d)[4] && t[5] == Escape(d)[5];
        HexIsInjective(c as int / 16, d as int / 16);
        HexIsInjective(c as int % 16, d as int % 16);
        assert c as int == d as int;
      }
    }
    assert |Escape(c)| == |Escape(d)|;
    assert x == s[|Escape(c)|..] && y == t[|Escape(d)|..];
  }

  lemma EscapeStarts(c: char)
    ensures |Escape(c)| > 0 && Escape(c)[0] != '\"'
  {
  }

  /** Whether a literal ends here shows in the next character. */
  lemma LiteralEnds(s: string, x: string)
    ensures (Escaped(s) + ("\"" + x))[0] == '\"' <==> |s| == 0
  {
    hide Escape;
    if |s| > 0 {
      EscapeStarts(s[0]);
      assert Escaped(s) == Escape(s[0]) + Escaped(s[1..]);
      assert Escaped(s)[0] == Escape(s[0])[0];
    }
  }

  lemma {:induction false} EscapedIsCode(s: string, t: string, x: string, y: string)
    requires Escaped(s) + ("\"" + x) == Escaped(t) + ("\"" + y)
    ensures s == t && x == y
  {
    hide Escape;
    var a, b := Escaped(s) + ("\"" + x), Escaped(t) + ("\"" + y);
    LiteralEnds(s, x);
    LiteralEnds(t, y);
    if |s| == 0 {
      assert x == a[1..] && y == b[1..];
    } else {
      var x', y' := Escaped(s[1..]) + ("\"" + x), Escaped(t[1..]) + ("\"" + y);
      assert a == Escape(s[0]) + x' && b == Escape(t[0]) + y';
      EscapeIsCode(s[0], t[0], x', y');
      EscapedIsCode(s[1..], t[1..], x, y);
      assert s == [s[0]] + s[1..] && t == [t[0]] + t[1..];
    }
  }

  lemma QuoteIsCode(s: string, t: string, x: string, y: string)
    requires Quote(s) + x == Quote(t) + y
    ensures s == t && x == y
  {
    hide Escaped;
    var a, b := Quote(s) + x, Quote(t) + y;
    assert a[1..] == Escaped(s) + ("\"" + x);
    assert b[1..] == Escaped(t) + ("\"" + y);
    EscapedIsCode(s, t, x, y);
  }

  // ---------------------------------------------------------------- printing

  function Joined(texts: seq<string>): string {
    if |texts| == 0 then ""
    else if |texts| == 1 then texts[0]
    else texts[0] + "," + Joined(texts[1..])
  }

  function EntryText(p: Pair<string>): string {
    Quote(p.key) + ":" + p.item
  }

  function EntryTexts(pairs: seq<Pair<string>>): (r: seq<string>)
    ensures |r| == |pairs|
  {
    seq(|pairs|, i requires 0 <= i < |pairs| => EntryText(pairs[i]))
  }

  /** `canonical`. */
  function Print(leq: Order, v: Json): string {
    match v
    case Null => "null"
    case Bool(b) => if b then "true" else "false"
    case Num(text) => text
    case Str(s) => Quote(s)
    case Arr(items) => "[" + Joined(seq(|items|, i requires 0 <= i < |items| => Print(leq, items[i]))) + "]"
    case Obj(fields) =>
      "{" + Joined(EntryTexts(Sort(leq,
        seq(|fields|, i requires 0 <= i < |fields| => Pair(fields[i].key, Print(leq, fields[i].value)))))) + "}"
  }

  function Denote(v: Json): Value {
    match v
    case Null => VNull
    case Bool(b) => VBool(b)
    case Num(text) => VNum(text)
    case Str(s) => VStr(s)
    case Arr(items) => VArr(seq(|items|, i requires 0 <= i < |items| => Denote(items[i])))
    case Obj(fields) =>
      VObj(MapOf(seq(|fields|, i requires 0 <= i < |fields| => Pair(fields[i].key, Denote(fields[i].value)))))
  }

  predicate NumberChar(c: char) {
    '0' <= c <= '9' || c == '-' || c == '+' || c == '.' || c == 'e'
  }

  /** Keys of an object are distinct, and numbers print as number texts. */
  ghost predicate WellFormed(v: Json) {
    match v
    case Num(text) => |text| > 0 && forall i :: 0 <= i < |text| ==> NumberChar(text[i])
    case Arr(items) => forall i :: 0 <= i < |items| ==> WellFormed(items[i])
    case Obj(fields) =>
      && (forall i, j :: 0 <= i < j < |fields| ==> fields[i].key != fields[j].key)
      && forall i :: 0 <= i < |fields| ==> WellFormed(fields[i].value)
    case _ => true
  }

  /** In no object do two keys compare equal. */
  ghost predicate Untied(leq: Order, v: Json) {
    match v
    case Arr(items) => forall i :: 0 <= i < |items| ==> Untied(leq, items[i])
    case Obj(fields) =>
      && NoTies(leq, set i | 0 <= i < |fields| :: fields[i].key)
      && forall i :: 0 <= i < |fields| ==> Untied(leq, fields[i].value)
    case _ => true
  }

  /** The printed fields, before sorting. */
  function Printed(leq: Order, fields: seq<Field>): (r: seq<Pair<string>>)
    ensures |r| == |fields|
  {
    seq(|fields|, i requires 0 <= i < |fields| => Pair(fields[i].key, Print(leq, fields[i].value)))
  }

  function Denoted(fields: seq<Field>): (r: seq<Pair<Value>>)
    ensures |r| == |fields|
  {
    seq(|fields|, i requires 0 <= i < |fields| => Pair(fields[i].key, Denote(fields[i].value)))
  }

  function PrintedItems(leq: Order, items: seq<Json>): (r: seq<string>)
    ensures |r| == |items|
  {
    seq(|items|, i requires 0 <= i < |items| => Print(leq, items[i]))
  }

  lemma PrintUnfolds(leq: Order, v: Json)
    ensures v.Arr? ==> Print(leq, v) == "[" + Joined(PrintedItems(leq, v.items)) + "]"
    ensures v.Obj? ==> Print(leq, v) == "{" + Joined(EntryTexts(Sort(leq, Printed(leq, v.fields)))) + "}"
    ensures v.Obj? ==> Denote(v) == VObj(MapOf(Denoted(v.fields)))
  {
    if v.Arr? {
      assert seq(|v.items|, i requires 0 <= i < |v.items| => Print(leq, v.items[i])) == PrintedItems(leq, v.items);
    } else if v.Obj? {
      assert seq(|v.fields|, i requires 0 <= i < |v.fields| => Pair(v.fields[i].key, Print(leq, v.fields[i].value))) ==
        Printed(leq, v.fields);
      assert seq(|v.fields|, i requires 0 <= i < |v.fields| => Pair(v.fields[i].key, Denote(v.fields[i].value))) ==
        Denoted(v.fields);
    }
  }

  // ---------------------------------------------------------------- printed values are self-delimiting

  predicate Delimiter(c: char) {
    c == ',' || c == ']' || c == '}'
  }

  predicate Ends(r: string) {
    |r| > 0 ==> Delimiter(r[0])
  }

  predicate Starts(x: string) {
    |x| > 0 && !Delimiter(x[0])
  }

  /** Wherever one of the two texts can stand before a delimiter or the end, the other cannot. */
  ghost predicate Splits(x: string, y: string) {
    forall r, s :: Ends(r) && Ends(s) && x + r == y + s ==> x == y && r == s
  }

  /** What follows the first of the joined texts. */
  function Tail(texts: seq<string>, close: string): string
    requires |texts| > 0
  {
    if |texts| == 1 then close else "," + (Joined(texts[1..]) + close)
  }

  lemma JoinedUnfolds(texts: seq<string>, close: string)
    requires |texts| > 0
    ensures Joined(texts) + close == texts[0] + Tail(texts, close)
    ensures |texts| == 1 ==> Tail(texts, close) == close
    ensures |texts| > 1 ==>
      |Tail(texts, close)| > 0 && Tail(texts, close)[0] == ',' && Tail(texts, close)[1..] == Joined(texts[1..]) + close
  {
  }

  lemma {:induction false} JoinedIsCode(a: seq<string>, b: seq<string>, r: string, s: string)
    requires forall i :: 0 <= i < |a| ==> Starts(a[i])
    requires forall i :: 0 <= i < |b| ==> Starts(b[i])
    requires forall i, j :: 0 <= i < |a| && 0 <= j < |b| ==> Splits(a[i], b[j])
    requires |r| > 0 && |s| > 0 && Delimiter(r[0]) && Delimiter(s[0]) && r[0] != ',' && s[0] != ','
    requires Joined(a) + r == Joined(b) + s
    ensures a == b && r == s
  {
    hide Splits, Joined, Tail;
    FirstOfJoined(a, r);
    FirstOfJoined(b, s);
    if |a| > 0 {
      JoinedUnfolds(a, r);
      JoinedUnfolds(b, s);
      assert Splits(a[0], b[0]);
      SplitsOnce(a[0], b[0], Tail(a, r), Tail(b, s));
      if |a| > 1 {
        JoinedIsCode(a[1..], b[1..], r, s);
      }
      assert a == [a[0]] + a[1..] && b == [b[0]] + b[1..];
    } else {
      NothingJoined(r);
      NothingJoined(s);
    }
  }

  lemma NothingJoined(r: string)
    ensures Joined([]) + r == r
  {
  }

  lemma FirstOfJoined(a: seq<string>, r: string)
    requires forall i :: 0 <= i < |a| ==> Starts(a[i])
    requires |r| > 0 && Delimiter(r[0])
    ensures |Joined(a) + r| > 0
    ensures Delimiter((Joined(a) + r)[0]) <==> |a| == 0
  {
    if |a| > 0 {
      JoinedUnfolds(a, r);
      assert (a[0] + Tail(a, r))[0] == a[0][0];
    }
  }

  lemma SplitsOnce(x: string, y: string, r: string, s: string)
    requires Splits(x, y) && Ends(r) && Ends(s) && x + r == y + s
    ensures x == y && r == s
  {
  }

  lemma EntriesSplit(p: Pair<string>, q: Pair<string>)
    requires Splits(p.item, q.item)
    ensures Splits(EntryText(p), EntryText(q))
  {
    hide Splits, Quote;
    var x, y := EntryText(p), EntryText(q);
    forall r, s | Ends(r) && Ends(s) && x + r == y + s ensures x == y && r == s {
      assert x + r == Quote(p.key) + (":" + (p.item + r));
      assert y + s == Quote(q.key) + (":" + (q.item + s));
      QuoteIsCode(p.key, q.key, ":" + (p.item + r), ":" + (q.item + s));
      assert (":" + (p.item + r))[1..] == p.item + r;
      assert (":" + (q.item + s))[1..] == q.item + s;
      SplitsOnce(p.item, q.item, r, s);
    }
    ShowSplits(x, y);
  }

  lemma ShowSplits(x: string, y: string)
    requires forall r, s :: Ends(r) && Ends(s) && x + r == y + s ==> x == y && r == s
    ensures Splits(x, y)
  {
  }

  lemma NumbersSplit(x: string, y: string)
    requires forall i :: 0 <= i < |x| ==> NumberChar(x[i])
    requires forall i :: 0 <= i < |y| ==> NumberChar(y[i])
    ensures Splits(x, y)
  {
    forall r, s | Ends(r) && Ends(s) && x + r == y + s ensures x == y && r == s {
      NumberIsCode(x, y, r, s);
    }
  }

  lemma NumberIsCode(x: string, y: string, r: string, s: string)
    requires forall i :: 0 <= i < |x| ==> NumberChar(x[i])
    requires forall i :: 0 <= i < |y| ==> NumberChar(y[i])
    requires Ends(r) && Ends(s) && x + r == y + s
    ensures x == y && r == s
  {
    var t := x + r;
    assert t == y + s;
    assert x == t[..|x|] && y == t[..|y|] && r == t[|x|..] && s == t[|y|..];
  }

  /** The kind of a value shows in the first character of its text. */
  function Kind(v: Json): char {
    match v
    case Null => 'n'
    case Bool(b) => if b then 't' else 'f'
    case Num(_) => '0'
    case Str(_) => '\"'
    case Arr(_) => '['
    case Obj(_) => '{'
  }

  lemma PrintStarts(leq: Order, v: Json)
    requires WellFormed(v)
    ensures Starts(Print(leq, v))
    ensures if v.Num? then NumberChar(Print(leq, v)[0]) else Print(leq, v)[0] == Kind(v)
  {
    PrintUnfolds(leq, v);
  }

  lemma DifferentKindsSplit(leq: Order, v: Json, w: Json)
    requires WellFormed(v) && WellFormed(w) && Kind(v) != Kind(w)
    ensures Splits(Print(leq, v), Print(leq, w)) && Print(leq, v) != Print(leq, w)
  {
    hide Print, WellFormed;
    PrintStarts(leq, v);
    PrintStarts(leq, w);
    var x, y := Print(leq, v), Print(leq, w);
    assert x[0] != y[0];
    forall r, s ensures x + r != y + s {
      FirstDiffers(x, y, r, s);
    }
  }

  lemma FirstDiffers(x: string, y: string, r: string, s: string)
    requires |x| > 0 && |y| > 0 && x[0] != y[0]
    ensures x + r != y + s
  {
    assert (x + r)[0] == x[0] && (y + s)[0] == y[0];
  }

  lemma EqualTextsSplit(x: string)
    ensures Splits(x, x)
  {
    forall r, s | x + r == x + s ensures r == s {
      assert r == (x + r)[|x|..] && s == (x + s)[|x|..];
    }
  }

  ghost predicate AllSplit(a: seq<string>, b: seq<string>) {
    && (forall i :: 0 <= i < |a| ==> Starts(a[i]))
    && (forall i :: 0 <= i < |b| ==> Starts(b[i]))
    && (forall i, j :: 0 <= i < |a| && 0 <= j < |b| ==> Splits(a[i], b[j]))
  }

  lemma BracketsAreCode(a: seq<string>, b: seq<string>, left: string, right: string, r: string, s: string)
    requires AllSplit(a, b) && |right| == 1 && Delimiter(right[0]) && right[0] != ','
    requires left + Joined(a) + right + r == left + Joined(b) + right + s
    ensures a == b && r == s
  {
    hide Splits, Joined;
    var x, y := left + Joined(a) + right + r, left + Joined(b) + right + s;
    assert Joined(a) + (right + r) == x[|left|..];
    assert Joined(b) + (right + s) == y[|left|..];
    JoinedIsCode(a, b, right + r, right + s);
    assert (right + r)[1..] == r && (right + s)[1..] == s;
  }

  lemma ListsSplit(a: seq<string>, b: seq<string>, left: string, right: string)
    requires AllSplit(a, b) && |right| == 1 && Delimiter(right[0]) && right[0] != ','
    ensures Splits(left + Joined(a) + right, left + Joined(b) + right)
    ensures left + Joined(a) + right == left + Joined(b) + right ==> a == b
  {
    hide AllSplit, Joined, Delimiter, Ends;
    var x, y := left + Joined(a) + right, left + Joined(b) + right;
    forall r, s | x + r == y + s ensures x == y && r == s {
      BracketsAreCode(a, b, left, right, r, s);
    }
    if x == y {
      BracketsAreCode(a, b, left, right, "", "");
    }
  }

  /** Printed values are self-delimiting. */
  lemma {:induction false} PrintSplits(leq: Order, v: Json, w: Json)
    requires Lawful(leq) && WellFormed(v) && WellFormed(w)
    ensures Splits(Print(leq, v), Print(leq, w))
    decreases v
  {
    hide Splits, Starts, Lawful, Print;
    if Kind(v) != Kind(w) {
      DifferentKindsSplit(leq, v, w);
    } else if v.Arr? {
      PrintUnfolds(leq, v);
      PrintUnfolds(leq, w);
      var a, b := PrintedItems(leq, v.items), PrintedItems(leq, w.items);
      forall i | 0 <= i < |a| ensures Starts(a[i]) {
        PrintStarts(leq, v.items[i]);
      }
      forall i | 0 <= i < |b| ensures Starts(b[i]) {
        PrintStarts(leq, w.items[i]);
      }
      forall i, j | 0 <= i < |a| && 0 <= j < |b| ensures Splits(a[i], b[j]) {
        PrintSplits(leq, v.items[i], w.items[j]);
      }
      ListsSplit(a, b, "[", "]");
    } else if v.Obj? {
      forall i, j | 0 <= i < |v.fields| && 0 <= j < |w.fields|
        ensures Splits(Print(leq, v.fields[i].value), Print(leq, w.fields[j].value)) {
        PrintSplits(leq, v.fields[i].value, w.fields[j].value);
      }
      ObjectsSplit(leq, v, w);
    } else {
      ScalarsSplit(leq, v, w);
    }
  }

  lemma ScalarsSplit(leq: Order, v: Json, w: Json)
    requires WellFormed(v) && WellFormed(w) && Kind(v) == Kind(w) && !v.Arr? && !v.Obj?
    ensures Splits(Print(leq, v), Print(leq, w))
  {
    match v
    case Null => EqualTextsSplit("null");
    case Bool(b) => EqualTextsSplit(Print(leq, v));
    case Num(_) => NumbersSplit(v.text, w.text);
    case Str(_) => LiteralsSplit(v.s, w.s);
  }

  lemma LiteralsSplit(s: string, t: string)
    ensures Splits(Quote(s), Quote(t))
  {
    hide Quote;
    forall r, r' | Quote(s) + r == Quote(t) + r' ensures s == t && r == r' {
      QuoteIsCode(s, t, r, r');
    }
  }

  ghost predicate FieldsSplit(leq: Order, f: seq<Field>, g: seq<Field>) {
    forall i, j :: 0 <= i < |f| && 0 <= j < |g| ==> Splits(Print(leq, f[i].value), Print(leq, g[j].value))
  }

  /** Entries of the sorted list are entries of the object. */
  lemma SortedEntry(leq: Order, f: seq<Field>, i: nat) returns (k: nat)
    requires Lawful(leq) && i < |Sort(leq, Printed(leq, f))|
    ensures k < |f| && Sort(leq, Printed(leq, f))[i] == Pair(f[k].key, Print(leq, f[k].value))
  {
    hide Print, Sort, Lawful;
    var a := Sort(leq, Printed(leq, f));
    SortKeeps(leq, Printed(leq, f));
    assert a[i] in a;
    k :| 0 <= k < |f| && Printed(leq, f)[k] == a[i];
  }

  lemma EntryStarts(p: Pair<string>)
    ensures Starts(EntryText(p))
  {
    assert EntryText(p)[0] == '\"';
  }

  lemma ObjectsSplit(leq: Order, v: Json, w: Json)
    requires Lawful(leq) && v.Obj? && w.Obj? && FieldsSplit(leq, v.fields, w.fields)
    ensures Splits(Print(leq, v), Print(leq, w))
    ensures Print(leq, v) == Print(leq, w) ==>
      EntryTexts(Sort(leq, Printed(leq, v.fields))) == EntryTexts(Sort(leq, Printed(leq, w.fields)))
  {
    hide Print, Sort, Lawful, Splits, Starts, EntryText;
    PrintUnfolds(leq, v);
    PrintUnfolds(leq, w);
    var p, q := Sort(leq, Printed(leq, v.fields)), Sort(leq, Printed(leq, w.fields));
    var a, b := EntryTexts(p), EntryTexts(q);
    forall i | 0 <= i < |a| ensures Starts(a[i]) {
      EntryStarts(p[i]);
    }
    forall i | 0 <= i < |b| ensures Starts(b[i]) {
      EntryStarts(q[i]);
    }
    forall i, j | 0 <= i < |a| && 0 <= j < |b| ensures Splits(a[i], b[j]) {
      var k := SortedEntry(leq, v.fields, i);
      var l := SortedEntry(leq, w.fields, j);
      EntriesSplit(p[i], q[j]);
    }
    ListsSplit(a, b, "{", "}");
  }

  // ---------------------------------------------------------------- injective, and blind to key order

  lemma EntryTextIsInjective(p: Pair<string>, q: Pair<string>)
    requires EntryText(p) == EntryText(q)
    ensures p == q
  {
    hide Quote;
    assert EntryText(p) == Quote(p.key) + (":" + p.item);
    assert EntryText(q) == Quote(q.key) + (":" + q.item);
    QuoteIsCode(p.key, q.key, ":" + p.item, ":" + q.item);
    assert (":" + p.item)[1..] == p.item && (":" + q.item)[1..] == q.item;
  }

  lemma DistinctFields(leq: Order, v: Json)
    requires v.Obj? && WellFormed(v)
    ensures DistinctKeys(Printed(leq, v.fields)) && DistinctKeys(Denoted(v.fields))
  {
    hide Print, Denote;
  }

  /** Equal texts come from equal values. */
  lemma {:induction false} PrintIsInjective(leq: Order, v: Json, w: Json)
    requires Lawful(leq) && WellFormed(v) && WellFormed(w) && Print(leq, v) == Print(leq, w)
    ensures Denote(v) == Denote(w)
    decreases v
  {
    if Kind(v) != Kind(w) {
      DifferentKindsSplit(leq, v, w);
    } else if v.Arr? {
      EqualItems(leq, v, w);
      forall i | 0 <= i < |v.items| ensures Denote(v.items[i]) == Denote(w.items[i]) {
        PrintIsInjective(leq, v.items[i], w.items[i]);
      }
    } else if v.Obj? {
      EqualFields(leq, v, w);
      forall i, j | 0 <= i < |v.fields| && 0 <= j < |w.fields| && v.fields[i].key == w.fields[j].key
        ensures Denote(v.fields[i].value) == Denote(w.fields[j].value)
      {
        SameKeySameItem(Printed(leq, v.fields), Printed(leq, w.fields), i, j);
        PrintIsInjective(leq, v.fields[i].value, w.fields[j].value);
      }
      SameDenotation(leq, v, w);
    } else if v.Str? {
      assert Quote(v.s) + "" == Quote(w.s) + "";
      QuoteIsCode(v.s, w.s, "", "");
    }
  }

  lemma EqualItems(leq: Order, v: Json, w: Json)
    requires Lawful(leq) && WellFormed(v) && WellFormed(w) && v.Arr? && w.Arr? && Print(leq, v) == Print(leq, w)
    ensures |v.items| == |w.items| && forall i :: 0 <= i < |v.items| ==>
      Print(leq, v.items[i]) == Print(leq, w.items[i])
  {
    hide Splits, Starts, Lawful, Print;
    PrintUnfolds(leq, v);
    PrintUnfolds(leq, w);
    var a, b := PrintedItems(leq, v.items), PrintedItems(leq, w.items);
    forall i | 0 <= i < |a| ensures Starts(a[i]) {
      PrintStarts(leq, v.items[i]);
    }
    forall i | 0 <= i < |b| ensures Starts(b[i]) {
      PrintStarts(leq, w.items[i]);
    }
    forall i, j | 0 <= i < |a| && 0 <= j < |b| ensures Splits(a[i], b[j]) {
      PrintSplits(leq, v.items[i], w.items[j]);
    }
    ListsSplit(a, b, "[", "]");
    forall i | 0 <= i < |a| ensures Print(leq, v.items[i]) == Print(leq, w.items[i]) {
      assert a[i] == b[i];
    }
  }

  lemma EqualEntries(leq: Order, v: Json, w: Json)
    requires Lawful(leq) && WellFormed(v) && WellFormed(w) && v.Obj? && w.Obj? && Print(leq, v) == Print(leq, w)
    ensures Sort(leq, Printed(leq, v.fields)) == Sort(leq, Printed(leq, w.fields))
  {
    hide Print, Splits, Lawful, EntryText, Sort;
    forall i, j | 0 <= i < |v.fields| && 0 <= j < |w.fields|
      ensures Splits(Print(leq, v.fields[i].value), Print(leq, w.fields[j].value)) {
      PrintSplits(leq, v.fields[i].value, w.fields[j].value);
    }
    ObjectsSplit(leq, v, w);
    var p, q := Sort(leq, Printed(leq, v.fields)), Sort(leq, Printed(leq, w.fields));
    assert |EntryTexts(p)| == |EntryTexts(q)|;
    forall i | 0 <= i < |p| ensures p[i] == q[i] {
      assert EntryTexts(p)[i] == EntryTexts(q)[i];
      EntryTextIsInjective(p[i], q[i]);
    }
  }

  lemma EqualFields(leq: Order, v: Json, w: Json)
    requires Lawful(leq) && WellFormed(v) && WellFormed(w) && v.Obj? && w.Obj? && Print(leq, v) == Print(leq, w)
    ensures DistinctKeys(Printed(leq, v.fields)) && DistinctKeys(Printed(leq, w.fields))
    ensures MapOf(Printed(leq, v.fields)) == MapOf(Printed(leq, w.fields))
  {
    hide Print, Lawful, Sort, MapOf;
    EqualEntries(leq, v, w);
    DistinctFields(leq, v);
    DistinctFields(leq, w);
    SortKeepsMap(leq, Printed(leq, v.fields));
    SortKeepsMap(leq, Printed(leq, w.fields));
  }

  lemma SameKeySameItem<T(!new)>(a: seq<Pair<T>>, b: seq<Pair<T>>, i: nat, j: nat)
    requires DistinctKeys(a) && DistinctKeys(b) && MapOf(a) == MapOf(b) && i < |a| && j < |b| && a[i].key == b[j].key
    ensures a[i].item == b[j].item
  {
    hide MapOf;
    MapOfIsLookup(a);
    MapOfIsLookup(b);
  }

  /** Two lists with the same keys, related item by item, have equal maps. */
  lemma MapsAgree<T(!new), U(!new)>(a: seq<Pair<T>>, b: seq<Pair<T>>, c: seq<Pair<U>>, d: seq<Pair<U>>)
    requires DistinctKeys(a) && DistinctKeys(b) && DistinctKeys(c) && DistinctKeys(d) && MapOf(a) == MapOf(b)
    requires |c| == |a| && |d| == |b|
    requires forall i :: 0 <= i < |a| ==> c[i].key == a[i].key
    requires forall j :: 0 <= j < |b| ==> d[j].key == b[j].key
    requires forall i, j :: 0 <= i < |a| && 0 <= j < |b| && a[i].key == b[j].key ==> c[i].item == d[j].item
    ensures MapOf(c) == MapOf(d)
  {
    hide MapOf, DistinctKeys;
    MembersOfMap(a, b);
    CarriedOver(a, b, c, d);
    CarriedOver(b, a, d, c);
    MapOfMembers(c, d);
  }

  lemma CarriedOver<T(!new), U(!new)>(a: seq<Pair<T>>, b: seq<Pair<T>>, c: seq<Pair<U>>, d: seq<Pair<U>>)
    requires |c| == |a| && |d| == |b| && SameMembers(a, b)
    requires forall i :: 0 <= i < |a| ==> c[i].key == a[i].key
    requires forall j :: 0 <= j < |b| ==> d[j].key == b[j].key
    requires forall i, j :: 0 <= i < |a| && 0 <= j < |b| && a[i].key == b[j].key ==> c[i].item == d[j].item
    ensures forall x :: x in c ==> x in d
  {
    forall x | x in c ensures x in d {
      var i :| 0 <= i < |c| && c[i] == x;
      assert a[i] in a && a[i] in b;
      var j :| 0 <= j < |b| && b[j] == a[i];
      assert d[j] == x;
    }
  }

  lemma SameDenotation(leq: Order, v: Json, w: Json)
    requires WellFormed(v) && WellFormed(w) && v.Obj? && w.Obj?
    requires MapOf(Printed(leq, v.fields)) == MapOf(Printed(leq, w.fields))
    requires forall i, j :: 0 <= i < |v.fields| && 0 <= j < |w.fields| && v.fields[i].key == w.fields[j].key ==>
      Denote(v.fields[i].value) == Denote(w.fields[j].value)
    ensures Denote(v) == Denote(w)
  {
    hide MapOf, Print, Denote;
    DistinctFields(leq, v);
    DistinctFields(leq, w);
    PrintUnfolds(leq, v);
    PrintUnfolds(leq, w);
    MapsAgree(Printed(leq, v.fields), Printed(leq, w.fields), Denoted(v.fields), Denoted(w.fields));
  }

  /** Equal values print alike, whatever the order of their keys, unless two keys of one object
      compare equal. */
  lemma {:induction false} PrintForgetsOrder(leq: Order, v: Json, w: Json)
    requires Lawful(leq) && WellFormed(v) && WellFormed(w) && Untied(leq, v) && Denote(v) == Denote(w)
    ensures Print(leq, v) == Print(leq, w)
    decreases v
  {
    match v
    case Arr(items) =>
      PrintUnfolds(leq, v);
      PrintUnfolds(leq, w);
      assert |Denote(v).items| == |Denote(w).items|;
      forall i | 0 <= i < |items| ensures Print(leq, items[i]) == Print(leq, w.items[i]) {
        assert Denote(v).items[i] == Denote(w).items[i];
        PrintForgetsOrder(leq, items[i], w.items[i]);
      }
      assert PrintedItems(leq, items) == PrintedItems(leq, w.items);
    case Obj(fields) =>
      DistinctFields(leq, v);
      DistinctFields(leq, w);
      PrintUnfolds(leq, v);
      PrintUnfolds(leq, w);
      forall i, j | 0 <= i < |fields| && 0 <= j < |w.fields| && fields[i].key == w.fields[j].key
        ensures Print(leq, fields[i].value) == Print(leq, w.fields[j].value)
      {
        SameKeySameItem(Denoted(fields), Denoted(w.fields), i, j);
        PrintForgetsOrder(leq, fields[i].value, w.fields[j].value);
      }
      SamePrint(leq, v, w);
    case _ =>
  }

  lemma SamePrint(leq: Order, v: Json, w: Json)
    requires Lawful(leq) && WellFormed(v) && WellFormed(w) && v.Obj? && w.Obj? && Untied(leq, v)
    requires MapOf(Denoted(v.fields)) == MapOf(Denoted(w.fields))
    requires forall i, j :: 0 <= i < |v.fields| && 0 <= j < |w.fields| && v.fields[i].key == w.fields[j].key ==>
      Print(leq, v.fields[i].value) == Print(leq, w.fields[j].value)
    ensures Print(leq, v) == Print(leq, w)
  {
    hide MapOf, Print, Denote, Lawful;
    DistinctFields(leq, v);
    DistinctFields(leq, w);
    PrintUnfolds(leq, v);
    PrintUnfolds(leq, w);
    var a, b := Printed(leq, v.fields), Printed(leq, w.fields);
    MapsAgree(Denoted(v.fields), Denoted(w.fields), a, b);
    MapOfIsLookup(a);
    var keys := set i | 0 <= i < |v.fields| :: v.fields[i].key;
    forall k | k in MapOf(a) ensures k in keys {
      var i :| 0 <= i < |a| && a[i].key == k;
      assert v.fields[i].key == k;
    }
    SortIsByMap(leq, a, b);
  }

  /** The canonical text identifies a value up to the order of its keys. */
  lemma CanonicalText(leq: Order, v: Json, w: Json)
    requires Lawful(leq) && WellFormed(v) && WellFormed(w) && Untied(leq, v)
    ensures Print(leq, v) == Print(leq, w) <==> Denote(v) == Denote(w)
  {
    hide Print, Denote, Lawful, WellFormed, Untied;
    if Print(leq, v) == Print(leq, w) {
      PrintIsInjective(leq, v, w);
    }
    if Denote(v) == Denote(w) {
      PrintForgetsOrder(leq, v, w);
    }
  }

  // ---------------------------------------------------------------- with ties

  /** Exchanging two tied pairs shows after sorting. */
  lemma SwapShows<T(!new)>(leq: Order, a: seq<Pair<T>>, i: nat, j: nat)
    requires Lawful(leq) && DistinctKeys(a) && i < j < |a| && leq(a[i].key, a[j].key) && leq(a[j].key, a[i].key)
    ensures Sort(leq, a) != Sort(leq, a[i := a[j]][j := a[i]])
  {
    hide Lawful, Sort;
    var b := a[i := a[j]][j := a[i]];
    SortIsStable(leq, a, i, j);
    SortIsStable(leq, b, i, j);
    SortKeeps(leq, a);
    PrecedesOnce(Sort(leq, a), a[i], a[j]);
  }

  function Swapped(f: seq<Field>, i: nat, j: nat): seq<Field>
    requires i < j < |f|
  {
    f[i := f[j]][j := f[i]]
  }

  lemma SwappedFields(leq: Order, v: Json, i: nat, j: nat)
    requires Lawful(leq) && v.Obj? && WellFormed(v) && i < j < |v.fields|
    requires leq(v.fields[i].key, v.fields[j].key) && leq(v.fields[j].key, v.fields[i].key)
    ensures var w := Obj(Swapped(v.fields, i, j));
            WellFormed(w) && Denote(w) == Denote(v) && Print(leq, w) != Print(leq, v)
  {
    hide Print, Denote, MapOf, Sort, Lawful, EntryText;
    var w := Obj(Swapped(v.fields, i, j));
    var a, b := Printed(leq, v.fields), Printed(leq, w.fields);
    DistinctFields(leq, v);
    assert b == a[i := a[j]][j := a[i]];
    var c, d := Denoted(v.fields), Denoted(w.fields);
    assert d == c[i := c[j]][j := c[i]];
    SwapMembers(c, i, j);
    PrintUnfolds(leq, v);
    PrintUnfolds(leq, w);
    SwapShows(leq, a, i, j);
    if Print(leq, w) == Print(leq, v) {
      EqualEntries(leq, v, w);
    }
  }

  lemma SwapMembers<T(!new)>(c: seq<Pair<T>>, i: nat, j: nat)
    requires DistinctKeys(c) && i < j < |c|
    ensures MapOf(c[i := c[j]][j := c[i]]) == MapOf(c)
  {
    var d := c[i := c[j]][j := c[i]];
    forall p | p in c ensures p in d {
      var k :| 0 <= k < |c| && c[k] == p;
      assert d[if k == i then j else if k == j then i else k] == p;
    }
    forall p | p in d ensures p in c {
      var k :| 0 <= k < |d| && d[k] == p;
      assert c[if k == i then j else if k == j then i else k] == p;
    }
    MapOfMembers(d, c);
  }

  /** A value with the same meaning and another text, whenever two keys tie at any depth. */
  lemma {:induction false} TiesShowOrder(leq: Order, v: Json) returns (w: Json)
    requires Lawful(leq) && WellFormed(v) && !Untied(leq, v)
    ensures WellFormed(w) && Denote(w) == Denote(v) && Print(leq, w) != Print(leq, v)
    decreases v
  {
    hide Print, Denote, Lawful;
    match v
    case Arr(items) =>
      var i :| 0 <= i < |items| && !Untied(leq, items[i]);
      var x := TiesShowOrder(leq, items[i]);
      w := Arr(items[i := x]);
      ItemShows(leq, v, i, x);
    case Obj(fields) =>
      if i, j :| 0 <= i < j < |fields| && leq(fields[i].key, fields[j].key) && leq(fields[j].key, fields[i].key) {
        w := Obj(Swapped(fields, i, j));
        SwappedFields(leq, v, i, j);
      } else {
        NoTiesHere(leq, fields);
        var i :| 0 <= i < |fields| && !Untied(leq, fields[i].value);
        var x := TiesShowOrder(leq, fields[i].value);
        w := Obj(fields[i := Field(fields[i].key, x)]);
        FieldShows(leq, v, i, x);
      }
  }

  lemma NoTiesHere(leq: Order, fields: seq<Field>)
    requires forall i, j :: 0 <= i < j < |fields| ==>
      !(leq(fields[i].key, fields[j].key) && leq(fields[j].key, fields[i].key))
    ensures NoTies(leq, set i | 0 <= i < |fields| :: fields[i].key)
  {
  }

  lemma ItemShows(leq: Order, v: Json, i: nat, x: Json)
    requires Lawful(leq) && v.Arr? && WellFormed(v) && i < |v.items| && WellFormed(x)
    requires Denote(x) == Denote(v.items[i]) && Print(leq, x) != Print(leq, v.items[i])
    ensures var w := Arr(v.items[i := x]); WellFormed(w) && Denote(w) == Denote(v) && Print(leq, w) != Print(leq, v)
  {
    hide Print, Lawful;
    var w := Arr(v.items[i := x]);
    assert Denote(w).items == Denote(v).items;
    if Print(leq, w) == Print(leq, v) {
      EqualItems(leq, w, v);
    }
  }

  lemma ReplacedIsWellFormed(v: Json, i: nat, x: Json)
    requires v.Obj? && WellFormed(v) && i < |v.fields| && WellFormed(x)
    ensures WellFormed(Obj(v.fields[i := Field(v.fields[i].key, x)]))
  {
  }

  lemma FieldShows(leq: Order, v: Json, i: nat, x: Json)
    requires Lawful(leq) && v.Obj? && WellFormed(v) && i < |v.fields| && WellFormed(x)
    requires Denote(x) == Denote(v.fields[i].value) && Print(leq, x) != Print(leq, v.fields[i].value)
    ensures var w := Obj(v.fields[i := Field(v.fields[i].key, x)]);
            WellFormed(w) && Denote(w) == Denote(v) && Print(leq, w) != Print(leq, v)
  {
    var w := Obj(v.fields[i := Field(v.fields[i].key, x)]);
    ReplacedIsWellFormed(v, i, x);
    hide Print, Denote, MapOf, Lawful, WellFormed;
    PrintUnfolds(leq, v);
    PrintUnfolds(leq, w);
    assert Denoted(w.fields) == Denoted(v.fields);
    if Print(leq, w) == Print(leq, v) {
      EqualFields(leq, w, v);
      SameKeySameItem(Printed(leq, w.fields), Printed(leq, v.fields), i, i);
    }
  }

  /** Exactly when the text of a value does not depend on the order of its keys: no two keys of one object,
      at whatever depth, compare equal. */
  lemma OrderBlindIffUntied(leq: Order, v: Json)
    requires Lawful(leq) && WellFormed(v)
    ensures Untied(leq, v) <==> forall w | WellFormed(w) && Denote(w) == Denote(v) :: Print(leq, w) == Print(leq, v)
  {
    hide Print, Denote, Lawful, WellFormed, Untied;
    if Untied(leq, v) {
      forall w | WellFormed(w) && Denote(w) == Denote(v) ensures Print(leq, w) == Print(leq, v) {
        PrintForgetsOrder(leq, v, w);
      }
    } else {
      var w := TiesShowOrder(leq, v);
    }
  }
}
