/** One-time passwords (apps/server/src/auth/totp.ts): the base32 codec of section 6 of RFC 4648,
    unpadded, and the truncation of section 5.3 of RFC 4226. */
module Totp {
  import opened Common

  type Byte = x: int | 0 <= x < 256

  const ALPHABET: string := "ABCDEFGHIJKLMNOPQRSTUVWXYZ234567"

  // ---------------------------------------------------------------- bits

  function Pow2(w: nat): nat {
    if w == 0 then 1 else 2 * Pow2(w - 1)
  }

  /** `toString(2).padStart(w, '0')`, most significant bit first. */
  function ToBits(n: nat, w: nat): (b: seq<bool>)
    ensures |b| == w
  {
    if w == 0 then [] else ToBits(n / 2, w - 1) + [n % 2 == 1]
  }

  /** `parseInt(bits, 2)`. */
  function FromBits(b: seq<bool>): (n: nat)
    ensures n < Pow2(|b|)
  {
    if |b| == 0 then 0 else 2 * FromBits(b[..|b| - 1]) + (if b[|b| - 1] then 1 else 0)
  }

  lemma {:induction false} BitsOfNumber(n: nat, w: nat)
    requires n < Pow2(w)
    ensures FromBits(ToBits(n, w)) == n
  {
    if w > 0 {
      BitsOfNumber(n / 2, w - 1);
      assert ToBits(n, w)[..w - 1] == ToBits(n / 2, w - 1);
    }
  }

  lemma {:induction false} NumberOfBits(b: seq<bool>)
    ensures ToBits(FromBits(b), |b|) == b
  {
    if |b| > 0 {
      var n := |b| - 1;
      NumberOfBits(b[..n]);
      assert b == b[..n] + [b[n]];
    }
  }

  function Zeros(k: nat): (b: seq<bool>)
    ensures |b| == k
  {
    seq(k, i => false)
  }

  // ---------------------------------------------------------------- encoding

  function BitsOf(bytes: seq<Byte>): (b: seq<bool>)
    ensures |b| == 8 * |bytes|
  {
    if |bytes| == 0 then [] else BitsOf(bytes[..|bytes| - 1]) + ToBits(bytes[|bytes| - 1], 8)
  }

  /** The character at `index`: five bits, filled with zeros at the end. */
  function CharAt(bits: seq<bool>, index: nat): char
    requires index < |bits|
  {
    var end := if index + 5 < |bits| then index + 5 else |bits|;
    var five := bits[index..end] + Zeros(5 - (end - index));
    assert Pow2(5) == 32;
    ALPHABET[FromBits(five)]
  }

  function Characters(bits: seq<bool>, n: nat): (s: string)
    requires n == 0 || 5 * (n - 1) < |bits|
    ensures |s| == n
  {
    if n == 0 then "" else Characters(bits, n - 1) + [CharAt(bits, 5 * (n - 1))]
  }

  function Encode(bytes: seq<Byte>): string {
    Characters(BitsOf(bytes), (8 * |bytes| + 4) / 5)
  }

  /** The encoder of `generateTotpSecret`, for the random bytes it drew. */
  method EncodeBase32(input: seq<Byte>) returns (output: string)
    ensures output == Encode(input)
  {
    var bits: seq<bool> := [];
    for i := 0 to |input|
      invariant bits == BitsOf(input[..i])
    {
      assert input[..i + 1][..i] == input[..i];
      bits := bits + ToBits(input[i], 8);
    }
    assert input[..|input|] == input;
    output := "";
    var index := 0;
    while index < |bits|
      invariant index == 5 * |output| && index < |bits| + 5
      invariant output == Characters(bits, |output|)
    {
      output := output + [CharAt(bits, index)];
      index := index + 5;
    }
  }

  // ---------------------------------------------------------------- decoding

  function IndexIn(c: char, s: string): (i: int)
    ensures -1 <= i < |s|
    ensures i >= 0 ==> s[i] == c
    ensures i < 0 ==> c !in s
  {
    if |s| == 0 then -1
    else if s[0] == c then 0
    else
      var i := IndexIn(c, s[1..]);
      if i < 0 then -1 else i + 1
  }

  function StripPadding(s: string): string {
    if |s| > 0 && s[|s| - 1] == '=' then StripPadding(s[..|s| - 1]) else s
  }

  /** The white space of a regular expression's \s. */
  predicate IsSpace(c: char) {
    || c == ' ' || '\t' <= c <= '\r' || c == '\U{00A0}' || c == '\U{1680}' || '\U{2000}' <= c <= '\U{200A}'
    || c == '\U{2028}' || c == '\U{2029}' || c == '\U{202F}' || c == '\U{205F}' || c == '\U{3000}' || c == '\U{FEFF}'
  }

  function WithoutSpaces(s: string): string {
    if |s| == 0 then "" else WithoutSpaces(s[..|s| - 1]) + (if IsSpace(s[|s| - 1]) then "" else [s[|s| - 1]])
  }

  function Normalized(value: string, upper: string -> string): string {
    WithoutSpaces(StripPadding(upper(value)))
  }

  predicate AllIn(s: string) {
    forall i :: 0 <= i < |s| ==> s[i] in ALPHABET
  }

  function QuintBits(s: string): (b: seq<bool>)
    requires AllIn(s)
    ensures |b| == 5 * |s|
  {
    if |s| == 0 then [] else QuintBits(s[..|s| - 1]) + ToBits(IndexIn(s[|s| - 1], ALPHABET), 5)
  }

  function OctetAt(bits: seq<bool>, index: nat): Byte
    requires index + 8 <= |bits|
  {
    assert Pow2(8) == 256;
    FromBits(bits[index..index + 8])
  }

  function Octets(bits: seq<bool>, n: nat): (r: seq<Byte>)
    requires 8 * n <= |bits|
    ensures |r| == n
  {
    if n == 0 then [] else Octets(bits, n - 1) + [OctetAt(bits, 8 * (n - 1))]
  }

  function Decode(value: string, upper: string -> string): Option<seq<Byte>> {
    var s := Normalized(value, upper);
    if !AllIn(s) then None else Some(Octets(QuintBits(s), |QuintBits(s)| / 8))
  }

  method DecodeBase32(value: string, upper: string -> string) returns (r: Option<seq<Byte>>)
    ensures r == Decode(value, upper)
  {
    hide QuintBits, Octets, AllIn, Normalized;
    var normalized := Normalized(value, upper);
    var bits := ReadLetters(normalized);
    if bits.None? {
      return None;
    }
    var bytes := ReadOctets(bits.value);
    return Some(bytes);
  }

  /** The loop over characters; the first foreign one makes the decoder throw. */
  method ReadLetters(s: string) returns (bits: Option<seq<bool>>)
    ensures bits.Some? <==> AllIn(s)
    ensures bits.Some? ==> bits.value == QuintBits(s)
  {
    hide ToBits, QuintBits, AllIn, IndexIn;
    var b: seq<bool> := [];
    NoLetters();
    for i := 0 to |s|
      invariant AllIn(s[..i]) && b == QuintBits(s[..i])
    {
      assert s[..i + 1] == s[..i] + [s[i]];
      var index := IndexIn(s[i], ALPHABET);
      if index < 0 {
        ForeignLetter(s, i);
        return None;
      }
      OneMoreLetter(s[..i], s[i]);
      b := b + ToBits(index, 5);
    }
    assert s[..|s|] == s;
    return Some(b);
  }

  lemma ForeignLetter(s: string, i: nat)
    requires i < |s| && s[i] !in ALPHABET
    ensures !AllIn(s)
  {
  }

  method ReadOctets(bits: seq<bool>) returns (bytes: seq<Byte>)
    ensures bytes == Octets(bits, |bits| / 8)
  {
    hide OctetAt;
    bytes := [];
    var index := 0;
    while index + 8 <= |bits|
      invariant index == 8 * |bytes| && index <= |bits|
      invariant bytes == Octets(bits, |bytes|)
    {
      bytes := bytes + [OctetAt(bits, index)];
      index := index + 8;
    }
  }

  // ---------------------------------------------------------------- round trip

  lemma IndexOfLetter(i: nat)
    requires i < 32
    ensures IndexIn(ALPHABET[i], ALPHABET) == i
  {
    var k := IndexIn(ALPHABET[i], ALPHABET);
    assert ALPHABET[k] == ALPHABET[i];
    LettersAreDistinct(i, k);
  }

  lemma LettersAreDistinct(i: nat, j: nat)
    requires i < 32 && j < 32 && ALPHABET[i] == ALPHABET[j]
    ensures i == j
  {
    LetterCode(i);
    LetterCode(j);
  }

  lemma LetterCode(i: nat)
    requires i < 32
    ensures ALPHABET[i] as int == if i < 26 then 65 + i else 24 + i
  {
  }

  /** Decoding the encoder's characters gives the bits back, followed by fewer than five zeros. */
  lemma {:induction false} CharactersDecode(bits: seq<bool>, n: nat)
    requires n == 0 || 5 * (n - 1) < |bits|
    ensures AllIn(Characters(bits, n))
    ensures QuintBits(Characters(bits, n)) == if 5 * n <= |bits| then bits[..5 * n] else bits + Zeros(5 * n - |bits|)
  {
    hide ToBits, CharAt, IndexIn, QuintBits, AllIn;
    if n == 0 {
      NoLetters();
    } else {
      CharactersDecode(bits, n - 1);
      var index := 5 * (n - 1);
      CharDecodes(bits, index);
      OneMoreLetter(Characters(bits, n - 1), CharAt(bits, index));
      PrefixGrows(bits, index, if index + 5 < |bits| then index + 5 else |bits|);
    }
  }

  lemma PrefixGrows(bits: seq<bool>, index: nat, end: nat)
    requires index <= end <= |bits| && end - index <= 5
    ensures bits[..index] + (bits[index..end] + Zeros(5 - (end - index))) == bits[..end] + Zeros(5 - (end - index))
    ensures bits[..end] + Zeros(0) == bits[..end] && bits[..|bits|] == bits
  {
  }

  lemma NoLetters()
    ensures AllIn("") && QuintBits("") == []
  {
  }

  lemma OneMoreLetter(s: string, c: char)
    requires AllIn(s) && c in ALPHABET
    ensures AllIn(s + [c]) && QuintBits(s + [c]) == QuintBits(s) + ToBits(IndexIn(c, ALPHABET), 5)
  {
    assert (s + [c])[..|s|] == s;
  }

  lemma CharDecodes(bits: seq<bool>, index: nat)
    requires index < |bits|
    ensures CharAt(bits, index) in ALPHABET
    ensures var end := if index + 5 < |bits| then index + 5 else |bits|;
            ToBits(IndexIn(CharAt(bits, index), ALPHABET), 5) == bits[index..end] + Zeros(5 - (end - index))
  {
    var end := if index + 5 < |bits| then index + 5 else |bits|;
    var five := bits[index..end] + Zeros(5 - (end - index));
    assert Pow2(5) == 32;
    IndexOfLetter(FromBits(five));
    NumberOfBits(five);
  }

  lemma {:induction false} OctetsOfBytes(bytes: seq<Byte>, rest: seq<bool>)
    ensures Octets(BitsOf(bytes) + rest, |bytes|) == bytes
  {
    hide ToBits, OctetAt;
    if |bytes| > 0 {
      var n := |bytes| - 1;
      var last := ToBits(bytes[n], 8);
      var bits := BitsOf(bytes) + rest;
      assert bits == BitsOf(bytes[..n]) + (last + rest);
      OctetsOfBytes(bytes[..n], last + rest);
      OctetOfBits(BitsOf(bytes[..n]), bytes[n], rest);
      assert bytes == bytes[..n] + [bytes[n]];
    }
  }

  lemma OctetOfBits(before: seq<bool>, byte: Byte, rest: seq<bool>)
    ensures OctetAt(before + (ToBits(byte, 8) + rest), |before|) == byte
  {
    hide ToBits, FromBits;
    var bits := before + (ToBits(byte, 8) + rest);
    assert bits[|before|..|before| + 8] == ToBits(byte, 8);
    assert Pow2(8) == 256;
    BitsOfNumber(byte, 8);
  }

  lemma LetterIsPlain(c: char)
    requires c in ALPHABET
    ensures !IsSpace(c) && c != '='
  {
    LetterCode(IndexIn(c, ALPHABET));
  }

  /** Letters are neither padding nor white space. */
  lemma {:induction false} NothingToStrip(s: string)
    requires AllIn(s)
    ensures StripPadding(s) == s && WithoutSpaces(s) == s
  {
    hide IsSpace;
    if |s| > 0 {
      var n := |s| - 1;
      NothingToStrip(s[..n]);
      LetterIsPlain(s[n]);
      assert s == s[..n] + [s[n]];
    }
  }

  /** Base32 round trip, for every byte sequence of any length: the zero-filled tail is under five
      bits, so it never makes another byte. Assumed of `toUpperCase`: it leaves the alphabet alone. */
  lemma RoundTrip(bytes: seq<Byte>, upper: string -> string)
    requires forall s :: AllIn(s) ==> upper(s) == s
    ensures Decode(Encode(bytes), upper) == Some(bytes)
  {
    hide AllIn, StripPadding, WithoutSpaces;
    EncodedOctets(bytes);
    NothingToStrip(Encode(bytes));
  }

  lemma EncodedOctets(bytes: seq<Byte>)
    ensures AllIn(Encode(bytes))
    ensures var bits := QuintBits(Encode(bytes)); Octets(bits, |bits| / 8) == bytes
  {
    hide BitsOf, QuintBits, Octets, Characters, AllIn;
    var bits := BitsOf(bytes);
    var n := (8 * |bytes| + 4) / 5;
    CharactersDecode(bits, n);
    var rest := if 5 * n <= |bits| then [] else Zeros(5 * n - |bits|);
    assert QuintBits(Encode(bytes)) == bits + rest;
    assert |bits + rest| / 8 == |bytes|;
    OctetsOfBytes(bytes, rest);
  }

  /** Letters with a gap before each. */
  function Spread(s: string, gaps: seq<string>): string
    requires |gaps| == |s|
  {
    if |s| == 0 then ""
    else
      var n := |s| - 1;
      Spread(s[..n], gaps[..n]) + gaps[n] + [s[n]]
  }

  predicate Blank(s: string) {
    forall i :: 0 <= i < |s| ==> s[i] == ' ' || s[i] == '\t' || s[i] == '\n' || s[i] == '\r'
  }

  function Padding(k: nat): (p: string)
    ensures |p| == k
  {
    seq(k, i => '=')
  }

  lemma {:induction false} SpacesJoin(a: string, b: string)
    ensures WithoutSpaces(a + b) == WithoutSpaces(a) + WithoutSpaces(b)
  {
    hide IsSpace;
    if |b| == 0 {
      assert a + b == a;
    } else {
      var n := |b| - 1;
      assert (a + b)[..|a + b| - 1] == a + b[..n];
      SpacesJoin(a, b[..n]);
    }
  }

  lemma {:induction false} BlankVanishes(s: string)
    requires Blank(s)
    ensures WithoutSpaces(s) == ""
  {
    if |s| > 0 {
      BlankVanishes(s[..|s| - 1]);
    }
  }

  lemma {:induction false} GapsVanish(s: string, gaps: seq<string>)
    requires AllIn(s) && |gaps| == |s| && forall i :: 0 <= i < |gaps| ==> Blank(gaps[i])
    ensures WithoutSpaces(Spread(s, gaps)) == s
  {
    hide IsSpace, Blank;
    if |s| > 0 {
      var n := |s| - 1;
      var before := Spread(s[..n], gaps[..n]);
      GapsVanish(s[..n], gaps[..n]);
      BlankVanishes(gaps[n]);
      SpacesJoin(before, gaps[n]);
      LetterIsPlain(s[n]);
      OneLetter(before + gaps[n], s[n]);
      assert s == s[..n] + [s[n]];
    }
  }

  lemma OneLetter(s: string, c: char)
    requires !IsSpace(c)
    ensures WithoutSpaces(s + [c]) == WithoutSpaces(s) + [c]
  {
    assert (s + [c])[..|s|] == s;
  }

  lemma {:induction false} PaddingIsStripped(s: string, k: nat)
    requires |s| > 0 ==> s[|s| - 1] != '='
    ensures StripPadding(s + Padding(k)) == s
  {
    if k > 0 {
      PaddingIsStripped(s, k - 1);
      assert s + Padding(k) == s + Padding(k - 1) + ['='];
      hide Padding;
      OnePadding(s + Padding(k - 1));
    } else {
      assert s + Padding(k) == s;
    }
  }

  lemma OnePadding(s: string)
    ensures StripPadding(s + ['=']) == StripPadding(s)
  {
    assert (s + ['='])[..|s|] == s;
  }

  /** However the secret is laid out: blanks before any of its letters and any padding after the last do not matter. */
  lemma LaidOutRoundTrip(bytes: seq<Byte>, gaps: seq<string>, k: nat, value: string, upper: string -> string)
    requires |gaps| == |Encode(bytes)| && forall i :: 0 <= i < |gaps| ==> Blank(gaps[i])
    requires upper(value) == Spread(Encode(bytes), gaps) + Padding(k)
    ensures Decode(value, upper) == Some(bytes)
  {
    hide Encode, QuintBits, Octets, StripPadding, WithoutSpaces, AllIn, Blank, Padding, Spread;
    var s := Encode(bytes);
    EncodedOctets(bytes);
    SpreadEnds(s, gaps);
    PaddingIsStripped(Spread(s, gaps), k);
    GapsVanish(s, gaps);
    assert Normalized(value, upper) == s;
  }

  /** Spread letters end with a letter, if there are any. */
  lemma SpreadEnds(s: string, gaps: seq<string>)
    requires AllIn(s) && |gaps| == |s|
    ensures var t := Spread(s, gaps); |t| > 0 ==> t[|t| - 1] != '='
  {
    if |s| > 0 {
      LetterIsPlain(s[|s| - 1]);
    }
  }

  // ---------------------------------------------------------------- as numbers

  lemma {:induction false} ConcatenatedBits(a: seq<bool>, b: seq<bool>)
    ensures FromBits(a + b) == FromBits(a) * Pow2(|b|) + FromBits(b)
  {
    if |b| == 0 {
      assert a + b == a;
      assert Pow2(0) == 1 && FromBits([]) == 0;
    } else {
      var n := |b| - 1;
      ConcatenatedBits(a, b[..n]);
      OneMoreBit(a + b[..n], b[n]);
      OneMoreBit(b[..n], b[n]);
      assert a + b == (a + b[..n]) + [b[n]] && b == b[..n] + [b[n]];
      assert Pow2(|b|) == 2 * Pow2(n);
      hide FromBits, Pow2;
      Shifted(FromBits(a), Pow2(n), FromBits(b[..n]));
    }
  }

  lemma OneMoreBit(b: seq<bool>, bit: bool)
    ensures FromBits(b + [bit]) == 2 * FromBits(b) + (if bit then 1 else 0)
  {
    assert (b + [bit])[..|b|] == b;
  }

  lemma Shifted(x: nat, y: nat, z: nat)
    ensures 2 * (x * y + z) == x * (2 * y) + 2 * z
  {
  }

  lemma Powers()
    ensures Pow2(4) == 16 && Pow2(5) == 32 && Pow2(8) == 256
  {
  }

  /** The number that the bytes are in base 256, most significant byte first. */
  function BigEndian(bytes: seq<Byte>): nat {
    if |bytes| == 0 then 0 else 256 * BigEndian(bytes[..|bytes| - 1]) + bytes[|bytes| - 1]
  }

  /** What a base32 digit stands for (table 3 of RFC 4648). */
  function DigitValue(c: char): int {
    if 'A' <= c <= 'Z' then c as int - 'A' as int else c as int - '2' as int + 26
  }

  /** The number that the letters are in base 32, most significant letter first. */
  function Base32Number(s: string): int {
    if |s| == 0 then 0 else 32 * Base32Number(s[..|s| - 1]) + DigitValue(s[|s| - 1])
  }

  lemma DigitOnBits(b: seq<bool>, digit: nat, w: nat)
    requires digit < Pow2(w)
    ensures FromBits(b + ToBits(digit, w)) == FromBits(b) * Pow2(w) + digit
  {
    hide FromBits, ToBits, Pow2;
    BitsOfNumber(digit, w);
    ConcatenatedBits(b, ToBits(digit, w));
  }

  lemma {:induction false} BytesAreANumber(bytes: seq<Byte>)
    ensures FromBits(BitsOf(bytes)) == BigEndian(bytes)
  {
    NoBits();
    hide FromBits, ToBits, Pow2;
    if |bytes| > 0 {
      var n := |bytes| - 1;
      BytesAreANumber(bytes[..n]);
      Powers();
      DigitOnBits(BitsOf(bytes[..n]), bytes[n], 8);
    }
  }

  lemma NoBits()
    ensures FromBits([]) == 0
  {
  }

  lemma {:induction false} LettersAreANumber(s: string)
    requires AllIn(s)
    ensures FromBits(QuintBits(s)) == Base32Number(s)
  {
    NoBits();
    hide FromBits, ToBits, Pow2, IndexIn;
    if |s| > 0 {
      var n := |s| - 1;
      var index := IndexIn(s[n], ALPHABET);
      LettersAreANumber(s[..n]);
      Powers();
      LetterCode(index);
      DigitOnBits(QuintBits(s[..n]), index, 5);
    }
  }

  lemma {:induction false} NoOnes(k: nat)
    ensures FromBits(Zeros(k)) == 0
  {
    if k > 0 {
      assert Zeros(k)[..k - 1] == Zeros(k - 1);
      NoOnes(k - 1);
    }
  }

  /** The secret's letters are the number that its bytes are, in base 32, filled with zero bits at the end up to a
      whole letter. */
  lemma EncodesTheNumber(bytes: seq<Byte>)
    ensures var s := Encode(bytes);
            && 8 * |bytes| <= 5 * |s| < 8 * |bytes| + 5
            && Base32Number(s) == BigEndian(bytes) * Pow2(5 * |s| - 8 * |bytes|)
  {
    hide BitsOf, QuintBits, Characters, AllIn, FromBits, Zeros;
    var bits := BitsOf(bytes);
    var s := Encode(bytes);
    CharactersDecode(bits, |s|);
    LettersAreANumber(s);
    BytesAreANumber(bytes);
    var pad := 5 * |s| - |bits|;
    NoOnes(pad);
    ConcatenatedBits(bits, Zeros(pad));
    assert pad == 0 ==> bits[..5 * |s|] == bits;
  }

  // ---------------------------------------------------------------- codes

  /** `readUInt32BE`; `None` is its range error. */
  function ReadUInt32(digest: seq<Byte>, offset: nat): Option<nat> {
    if offset + 4 > |digest| then None
    else
      var a: int, b: int, c: int, d: int := digest[offset], digest[offset + 1], digest[offset + 2], digest[offset + 3];
      Some(((a * 256 + b) * 256 + c) * 256 + d)
  }

  function Offset(digest: seq<Byte>): nat
    requires |digest| > 0
  {
    digest[|digest| - 1] % 16
  }

  function Decimal(n: nat): string {
    if n < 10 then [('0' as int + n) as char] else Decimal(n / 10) + [('0' as int + n % 10) as char]
  }

  function PadStart(s: string, w: nat): (r: string)
    ensures |r| == if |s| < w then w else |s|
  {
    if |s| < w then seq(w - |s|, i => '0') + s else s
  }

  function Code(digest: seq<Byte>): Option<string>
    requires |digest| > 0
  {
    match ReadUInt32(digest, Offset(digest))
    case None => None
    case Some(word) => Some(PadStart(Decimal(word % 0x8000_0000 % 1_000_000), 6))
  }

  /** The truncation window lies inside every 20-byte digest; in general it does so for all digests
      of a length exactly when that length is at least 19. */
  lemma WindowIsInside(length: nat)
    requires length > 0
    ensures (forall digest: seq<Byte> | |digest| == length :: ReadUInt32(digest, Offset(digest)).Some?) <==>
      length >= 19
  {
    if length < 19 {
      var digest: seq<Byte> := seq(length, i => 15);
      assert ReadUInt32(digest, Offset(digest)).None?;
    }
  }

  predicate SixDigits(s: string) {
    |s| == 6 && forall i :: 0 <= i < |s| ==> '0' <= s[i] <= '9'
  }

  function Pow10(k: nat): nat {
    if k == 0 then 1 else 10 * Pow10(k - 1)
  }

  lemma {:induction false} DecimalLength(n: nat, k: nat)
    requires k > 0 && n < Pow10(k)
    ensures 0 < |Decimal(n)| <= k && forall i :: 0 <= i < |Decimal(n)| ==> '0' <= Decimal(n)[i] <= '9'
  {
    if n >= 10 {
      DecimalLength(n / 10, k - 1);
    }
  }

  /** Every code has the six digits that the verifier insists on. */
  lemma CodesHaveSixDigits(digest: seq<Byte>)
    requires |digest| == 20
    ensures Code(digest).Some? && SixDigits(Code(digest).value)
  {
    var n := ReadUInt32(digest, Offset(digest)).value % 0x8000_0000 % 1_000_000;
    assert Pow10(6) == 1_000_000;
    DecimalLength(n, 6);
  }

  /** The number that a string of digits is. */
  function NumberIn(s: string): int {
    if |s| == 0 then 0 else 10 * NumberIn(s[..|s| - 1]) + (s[|s| - 1] as int - '0' as int)
  }

  lemma {:induction false} DecimalReads(n: nat)
    ensures NumberIn(Decimal(n)) == n
  {
    if n >= 10 {
      DecimalReads(n / 10);
      assert Decimal(n)[..|Decimal(n)| - 1] == Decimal(n / 10);
    } else {
      assert NumberIn(Decimal(n)[..0]) == 0;
    }
  }

  lemma {:induction false} PaddingReads(s: string, k: nat)
    ensures NumberIn(seq(k, i => '0') + s) == NumberIn(s)
  {
    var r := seq(k, i => '0') + s;
    if |s| > 0 {
      var n := |s| - 1;
      assert r[..|r| - 1] == seq(k, i => '0') + s[..n];
      PaddingReads(s[..n], k);
    } else if k > 0 {
      assert r[..k - 1] == seq(k - 1, i => '0') + s;
      PaddingReads(s, k - 1);
    }
  }

  /** All bits but the first. */
  lemma TopBitOff(b: seq<bool>)
    requires |b| == 32
    ensures FromBits(b[1..]) == FromBits(b) % 0x8000_0000
  {
    hide FromBits;
    assert Pow2(10) == 0x400 && Pow2(20) == 0x10_0000 && Pow2(30) == 0x4000_0000;
    assert Pow2(31) == 0x8000_0000;
    assert b == b[..1] + b[1..];
    ConcatenatedBits(b[..1], b[1..]);
  }

  lemma OneMoreByte(bytes: seq<Byte>, byte: Byte)
    ensures BigEndian(bytes + [byte]) == 256 * BigEndian(bytes) + byte && BigEndian([]) == 0
  {
    assert (bytes + [byte])[..|bytes|] == bytes;
  }

  lemma WordIsBigEndian(digest: seq<Byte>, offset: nat)
    requires offset + 4 <= |digest|
    ensures ReadUInt32(digest, offset) == Some(BigEndian(digest[offset..offset + 4]))
  {
    hide BigEndian;
    var a, b, c, d := digest[offset], digest[offset + 1], digest[offset + 2], digest[offset + 3];
    assert digest[offset..offset + 4] == [] + [a] + [b] + [c] + [d];
    OneMoreByte([], a);
    OneMoreByte([] + [a], b);
    OneMoreByte([] + [a] + [b], c);
    OneMoreByte([] + [a] + [b] + [c], d);
  }

  /** The code of a digest, for digests of any length: it starts at the byte that the low four bits of the last byte
      name, and is, as a number, the low 31 bits of the four bytes there, most significant first, modulo a million;
      written with six digits. Without four bytes there, there is no code. */
  lemma CodeIsTruncation(digest: seq<Byte>)
    requires |digest| > 0
    ensures var offset := FromBits(ToBits(digest[|digest| - 1], 8)[4..]);
            && (Code(digest).Some? <==> offset + 4 <= |digest|)
            && (Code(digest).Some? ==>
                  var window := digest[offset..offset + 4];
                  && SixDigits(Code(digest).value)
                  && NumberIn(Code(digest).value) == FromBits(BitsOf(window)[1..]) % 1_000_000
                  && NumberIn(Code(digest).value) == BigEndian(window) % 0x8000_0000 % 1_000_000)
  {
    LowNibble(digest[|digest| - 1]);
    var offset := Offset(digest);
    hide ToBits, FromBits, BitsOf, Decimal, NumberIn, BigEndian, SixDigits, PadStart;
    if offset + 4 <= |digest| {
      var window := digest[offset..offset + 4];
      WordIsBigEndian(digest, offset);
      BytesAreANumber(window);
      TopBitOff(BitsOf(window));
      SixDigitsOf(BigEndian(window) % 0x8000_0000 % 1_000_000);
    }
  }

  lemma SixDigitsOf(n: nat)
    requires n < 1_000_000
    ensures SixDigits(PadStart(Decimal(n), 6)) && NumberIn(PadStart(Decimal(n), 6)) == n
  {
    hide NumberIn;
    assert Pow10(6) == 1_000_000;
    DecimalLength(n, 6);
    DecimalReads(n);
    PaddingReads(Decimal(n), 6 - |Decimal(n)|);
  }

  lemma LowNibble(byte: Byte)
    ensures FromBits(ToBits(byte, 8)[4..]) == byte % 16
  {
    hide FromBits, ToBits, Pow2;
    Powers();
    BitsOfNumber(byte, 8);
    LowHalf(ToBits(byte, 8));
  }

  lemma LowHalf(b: seq<bool>)
    requires |b| == 8
    ensures FromBits(b[4..]) == FromBits(b) % 16
  {
    hide FromBits, Pow2;
    Powers();
    assert b == b[..4] + b[4..];
    ConcatenatedBits(b[..4], b[4..]);
    SmallBits(b[4..]);
  }

  lemma SmallBits(b: seq<bool>)
    ensures FromBits(b) < Pow2(|b|)
  {
  }

  /** The keyed hash over the counter, 20 bytes long. */
  type Mac = nat -> seq<Byte>

  function Counter(time: nat): nat {
    time / 1000 / 30
  }

  function CodeAt(mac: Mac, time: nat): Option<string>
    requires forall c :: |mac(c)| == 20
  {
    Code(mac(Counter(time)))
  }

  predicate Verify(mac: Mac, code: string, time: nat)
    requires time >= 30_000 && forall c :: |mac(c)| == 20
  {
    SixDigits(code) && exists window :: -1 <= window <= 1 && CodeAt(mac, time + window * 30_000) == Some(code)
  }

  /** A code is accepted for at least thirty seconds in either direction, whatever the hash. */
  lemma CodesAreAcceptedNearby(mac: Mac, made: nat, checked: nat)
    requires forall c :: |mac(c)| == 20
    requires checked >= 30_000 && -30_000 <= checked - made <= 30_000
    ensures CodeAt(mac, made).Some? && Verify(mac, CodeAt(mac, made).value, checked)
  {
    CodesHaveSixDigits(mac(Counter(made)));
    Neighbours(made, checked);
    var window := Counter(made) - Counter(checked);
    assert Counter(checked + window * 30_000) == Counter(made);
    assert CodeAt(mac, checked + window * 30_000) == CodeAt(mac, made);
  }

  /** Exactly the codes of three counters are accepted: that of the half minute checked in, the one before and the
      one after. */
  lemma AcceptedCodes(mac: Mac, code: string, time: nat)
    requires time >= 30_000 && forall c :: |mac(c)| == 20
    ensures var now := time / 30_000;
            Verify(mac, code, time) <==>
              Code(mac(now - 1)) == Some(code) || Code(mac(now)) == Some(code) || Code(mac(now + 1)) == Some(code)
  {
    hide Code, SixDigits;
    var now := time / 30_000;
    forall c: nat | Code(mac(c)) == Some(code) ensures SixDigits(code) {
      CodesHaveSixDigits(mac(c));
    }
    assert CodeAt(mac, time - 30_000) == Code(mac(now - 1));
    assert CodeAt(mac, time) == Code(mac(now));
    assert CodeAt(mac, time + 30_000) == Code(mac(now + 1));
    assert time + (-1) * 30_000 == time - 30_000 && time + 0 * 30_000 == time && time + 1 * 30_000 == time + 30_000;
  }

  lemma Neighbours(made: nat, checked: nat)
    requires checked >= 30_000 && -30_000 <= checked - made <= 30_000
    ensures var window := Counter(made) - Counter(checked);
            -1 <= window <= 1 && checked + window * 30_000 >= 0 && Counter(checked + window * 30_000) == Counter(made)
  {
    assert Counter(made) == made / 30_000 && Counter(checked) == checked / 30_000;
  }
}
