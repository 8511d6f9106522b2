/**
 * UTF-8 over raw UTF-16 units (src/core/bytes.ts) and string order by code
 * point (src/core/signing.ts). Shifts and masks of non-negative integers are
 * written as division, remainder and, for disjoint bits, addition.
 */
module Utf8 {
  import opened Text
  import opened Lexicographic

  predicate High(c: CodeUnit) { 0xD800 <= c <= 0xDBFF }
  predicate Low(c: CodeUnit) { 0xDC00 <= c <= 0xDFFF }

  type CodePoint = c: int | 0 <= c < 0x110000

  /** The code point of a surrogate pair. */
  function Join(high: int, low: int): int {
    0x10000 + (high - 0xD800) * 0x400 + (low - 0xDC00)
  }

  /** The first code point of a string; an unpaired surrogate is itself. */
  function First(s: Str): (c: CodePoint)
    requires s != []
  {
    if High(s[0]) && |s| > 1 && Low(s[1]) then Join(s[0], s[1]) else s[0]
  }

  /** How many units the first code point takes. */
  function Width(s: Str): (w: nat)
    requires s != []
    ensures 1 <= w <= |s|
  {
    if First(s) >= 0x10000 then 2 else 1
  }

  /** The code points that iterating over a string yields. */
  function CodePoints(s: Str): seq<int> {
    if s == [] then [] else [First(s)] + CodePoints(s[Width(s)..])
  }

  function Encode(c: CodePoint): (bs: seq<Byte>)
    ensures bs != []
  {
    if c < 0x80 then [c]
    else if c < 0x800 then [0xC0 + c / 0x40, 0x80 + c % 0x40]
    else if c < 0x10000 then [0xE0 + c / 0x1000, 0x80 + c / 0x40 % 0x40, 0x80 + c % 0x40]
    else [0xF0 + c / 0x40000, 0x80 + c / 0x1000 % 0x40, 0x80 + c / 0x40 % 0x40, 0x80 + c % 0x40]
  }

  predicate Continues(b: Byte) { 0x80 <= b <= 0xBF }

  /** The table of section 3 of RFC 3629: lead and continuation bytes, and the bits they carry. */
  predicate Rfc3629(e: seq<Byte>, c: int) {
    if c <= 0x7F then e == [c]
    else if c <= 0x7FF then
      |e| == 2 && 0xC2 <= e[0] <= 0xDF && Continues(e[1]) && c == Bits(e, 0, 0xC0) * 0x40 + Bits(e, 1, 0x80)
    else if c <= 0xFFFF then
      && |e| == 3 && 0xE0 <= e[0] <= 0xEF && Continues(e[1]) && Continues(e[2])
      && c == Bits(e, 0, 0xE0) * 0x1000 + Bits(e, 1, 0x80) * 0x40 + Bits(e, 2, 0x80)
    else
      && |e| == 4 && 0xF0 <= e[0] <= 0xF4 && Continues(e[1]) && Continues(e[2]) && Continues(e[3])
      && c == Bits(e, 0, 0xF0) * 0x40000 + Bits(e, 1, 0x80) * 0x1000 + Bits(e, 2, 0x80) * 0x40 + Bits(e, 3, 0x80)
  }

  /** What a byte carries beside its marker bits. */
  function Bits(e: seq<Byte>, i: nat, marker: int): int
    requires i < |e|
  {
    e[i] - marker
  }

  lemma EncodeForm(c: CodePoint)
    ensures Rfc3629(Encode(c), c)
  {
    if c < 0x80 {
    } else if c < 0x800 {
      Sixes(c);
    } else if c < 0x10000 {
      Sixes(c);
      Sixes(c / 0x40);
      Sixteens(c, 0x40);
    } else {
      Sixes(c);
      Sixes(c / 0x40);
      Sixes(c / 0x1000);
      Sixteens(c, 0x40);
      Sixteens(c, 0x1000);
    }
  }

  lemma Sixes(n: nat)
    ensures n == n / 0x40 * 0x40 + n % 0x40 && 0 <= n % 0x40 < 0x40
  {
  }

  lemma Sixteens(n: nat, d: nat)
    requires d == 0x40 || d == 0x1000
    ensures n / d / 0x40 == n / (d * 0x40)
  {
  }

  /** A pair of surrogates is the code point past the first 0x10000 that its twenty bits number. */
  lemma PairForm(high: CodeUnit, low: CodeUnit, rest: Str)
    requires High(high) && Low(low)
    ensures CodePoints([high, low] + rest) == [0x10000 + (high - 0xD800) * 0x400 + (low - 0xDC00)] + CodePoints(rest)
  {
    var s: Str := [high, low] + rest;
    assert s[2..] == rest;
  }

  /** What UTF-8 of a string is: its code points, encoded one after the other. */
  function Utf8Of(s: Str): seq<Byte> {
    if s == [] then [] else Encode(First(s)) + Utf8Of(s[Width(s)..])
  }

  method Utf8Bytes(s: Str) returns (out: seq<Byte>)
    ensures out == Utf8Of(s)
  {
    out := [];
    var i := 0;
    NothingToEncode();
    assert s[0..] == s && s[|s|..] == [];
    hide Utf8Of;
    while i < |s|
      invariant 0 <= i <= |s|
      invariant out + Utf8Of(s[i..]) == Utf8Of(s)
    {
      ghost var rest := s[i..];
      var c: int := s[i];
      var push: seq<Byte>;
      if c < 0x80 {
        push := [c];
      } else if c < 0x800 {
        push := [0xC0 + c / 0x40, 0x80 + c % 0x40];
      } else if High(c) && i + 1 < |s| && Low(s[i + 1]) {
        c := Join(c, s[i + 1]);
        i := i + 1;
        push := [0xF0 + c / 0x40000, 0x80 + c / 0x1000 % 0x40, 0x80 + c / 0x40 % 0x40, 0x80 + c % 0x40];
      } else {
        push := [0xE0 + c / 0x1000, 0x80 + c / 0x40 % 0x40, 0x80 + c % 0x40];
      }
      i := i + 1;
      assert c == First(rest) && push == Encode(c) && s[i..] == rest[Width(rest)..];
      EncodesFirst(rest, push, s[i..]);
      hide Encode, First, Join, Width;
      Associate(out, push, Utf8Of(s[i..]), Utf8Of(rest));
      out := out + push;
    }
  }

  lemma NothingToEncode()
    ensures Utf8Of([]) == []
  {
  }

  lemma EncodesFirst(s: Str, push: seq<Byte>, rest: Str)
    requires s != [] && push == Encode(First(s)) && rest == s[Width(s)..]
    ensures Utf8Of(s) == push + Utf8Of(rest)
  {
  }

  lemma Associate<T>(out: seq<T>, push: seq<T>, tail: seq<T>, all: seq<T>)
    requires all == push + tail
    ensures (out + push) + tail == out + all
  {
  }

  // -- decoding ------------------------------------------------------------

  /** A byte past the end reads as undefined, which a mask turns into 0. */
  function At(bytes: seq<Byte>, i: nat): Byte {
    if i < |bytes| then bytes[i] else 0
  }

  function From(bytes: seq<Byte>, i: nat): seq<Byte> {
    if i <= |bytes| then bytes[i..] else []
  }

  /** How many bytes the decoder takes for a lead byte. */
  function Length(b: Byte): nat {
    if b < 0x80 then 1 else if b < 0xE0 then 2 else if b < 0xF0 then 3 else 4
  }

  // What the decoder makes of the bytes of one sequence; it checks none of them.
  function Two(a: int, b: int): CodeUnit { a % 0x20 * 0x40 + b % 0x40 }
  function Three(a: int, b: int, c: int): CodeUnit { a % 0x10 * 0x1000 + b % 0x40 * 0x40 + c % 0x40 }
  function Four(a: int, b: int, c: int, d: int): int {
    a % 8 * 0x40000 + b % 0x40 * 0x1000 + c % 0x40 * 0x40 + d % 0x40
  }
  function Pair(cp: int): Str {
    [(0xD800 + (cp - 0x10000) / 0x400) % 0x10000, 0xDC00 + (cp - 0x10000) % 0x400]
  }

  /** The units the decoder emits for the bytes at the front. */
  function Units(bytes: seq<Byte>): Str
    requires bytes != []
  {
    var b := bytes[0];
    if b < 0x80 then [b]
    else if b < 0xE0 then [Two(b, At(bytes, 1))]
    else if b < 0xF0 then [Three(b, At(bytes, 1), At(bytes, 2))]
    else Pair(Four(b, At(bytes, 1), At(bytes, 2), At(bytes, 3)))
  }

  /** The string the decoder makes of any bytes, valid UTF-8 or not. */
  function Decoded(bytes: seq<Byte>): Str
    decreases |bytes|
  {
    if bytes == [] then [] else Units(bytes) + Decoded(From(bytes, Length(bytes[0])))
  }

  method Utf8String(bytes: seq<Byte>) returns (out: Str)
    ensures out == Decoded(bytes)
  {
    out := [];
    var i := 0;
    while i < |bytes|
      invariant out + Decoded(From(bytes, i)) == Decoded(bytes)
    {
      ghost var rest := bytes[i..];
      ghost var start := i;
      var b := bytes[i];
      var push: Str;
      if b < 0x80 {
        push := [b];
        i := i + 1;
      } else if b < 0xE0 {
        push := [Two(b, At(bytes, i + 1))];
        i := i + 2;
      } else if b < 0xF0 {
        push := [Three(b, At(bytes, i + 1), At(bytes, i + 2))];
        i := i + 3;
      } else {
        push := Pair(Four(b, At(bytes, i + 1), At(bytes, i + 2), At(bytes, i + 3)));
        i := i + 4;
      }
      Shifted(bytes, start);
      Associate(out, push, Decoded(From(bytes, i)), Decoded(rest));
      out := out + push;
    }
  }

  lemma Shifted(bytes: seq<Byte>, i: nat)
    requires i < |bytes|
    ensures forall k: nat :: At(bytes[i..], k) == At(bytes, i + k)
    ensures forall k: nat :: From(bytes[i..], k) == From(bytes, i + k)
  {
  }

  lemma TwoBytes(c: int)
    requires 0x80 <= c < 0x800
    ensures Two(0xC0 + c / 0x40, 0x80 + c % 0x40) == c
  {
  }

  lemma ThreeBytes(c: int)
    requires 0x800 <= c < 0x10000
    ensures Three(0xE0 + c / 0x1000, 0x80 + c / 0x40 % 0x40, 0x80 + c % 0x40) == c
  {
    var h, g := c / 0x40, c / 0x1000;
    assert g == h / 0x40 && 0 <= g < 0x10;
    assert (0xE0 + g) % 0x10 == g && (0x80 + h % 0x40) % 0x40 == h % 0x40 && (0x80 + c % 0x40) % 0x40 == c % 0x40;
  }

  lemma FourBytes(c: int)
    requires 0x10000 <= c < 0x110000
    ensures Four(0xF0 + c / 0x40000, 0x80 + c / 0x1000 % 0x40, 0x80 + c / 0x40 % 0x40, 0x80 + c % 0x40) == c
  {
    var h, g, k := c / 0x40, c / 0x1000, c / 0x40000;
    assert g == h / 0x40 && k == g / 0x40 && 0 <= k < 8;
    assert (0xF0 + k) % 8 == k;
    assert (0x80 + g % 0x40) % 0x40 == g % 0x40 && (0x80 + h % 0x40) % 0x40 == h % 0x40;
    assert (0x80 + c % 0x40) % 0x40 == c % 0x40;
  }

  /** The lead byte tells the length, and grows with the code point. */
  lemma LeadByte(c: CodePoint)
    ensures Length(Encode(c)[0]) == |Encode(c)|
  {
  }

  lemma PairOfJoin(high: CodeUnit, low: CodeUnit)
    requires High(high) && Low(low)
    ensures Pair(Join(high, low)) == [high, low]
  {
  }

  lemma UnitsOf(e: seq<Byte>, rest: seq<Byte>)
    requires e != [] && |e| == Length(e[0])
    ensures From(e + rest, Length((e + rest)[0])) == rest
    ensures |e| == 1 ==> Units(e + rest) == e
    ensures |e| == 2 ==> Units(e + rest) == [Two(e[0], e[1])]
    ensures |e| == 3 ==> Units(e + rest) == [Three(e[0], e[1], e[2])]
    ensures |e| == 4 ==> Units(e + rest) == Pair(Four(e[0], e[1], e[2], e[3]))
  {
  }

  lemma UnitsOfEncode(c: CodePoint, rest: seq<Byte>)
    ensures var bs := Encode(c) + rest;
            Units(bs) == (if c < 0x10000 then [c] else Pair(c)) && From(bs, Length(bs[0])) == rest
  {
    LeadByte(c);
    UnitsOf(Encode(c), rest);
    if 0x80 <= c < 0x800 {
      TwoBytes(c);
    } else if 0x800 <= c < 0x10000 {
      ThreeBytes(c);
    } else if 0x10000 <= c {
      FourBytes(c);
    }
  }

  /** utf8String undoes utf8Bytes on every string, lone surrogates included. */
  lemma {:induction false} Utf8RoundTrip(s: Str)
    ensures Decoded(Utf8Of(s)) == s
  {
    if s != [] {
      var w := Width(s);
      Utf8RoundTrip(s[w..]);
      UnitsOfEncode(First(s), Utf8Of(s[w..]));
      if w == 2 {
        PairOfJoin(s[0], s[1]);
      }
      assert s == s[..w] + s[w..];
    }
  }

  // -- order ---------------------------------------------------------------

  /** The iterator protocol of the source: two cursors, one code point a step. */
  method CompareCodePoints(a: Str, b: Str) returns (d: int)
    ensures d < 0 <==> Lex(CodePoints(a), CodePoints(b)) < 0
    ensures d > 0 <==> Lex(CodePoints(a), CodePoints(b)) > 0
  {
    var i, j := 0, 0;
    while true
      invariant 0 <= i <= |a| && 0 <= j <= |b|
      invariant Lex(CodePoints(a), CodePoints(b)) == Lex(CodePoints(a[i..]), CodePoints(b[j..]))
      decreases |a| - i
    {
      if i == |a| || j == |b| {
        return if i == |a| && j == |b| then 0 else if i == |a| then -1 else 1;
      }
      d := First(a[i..]) - First(b[j..]);
      if d != 0 {
        return;
      }
      ghost var p, q := a[i..], b[j..];
      i, j := i + Width(a[i..]), j + Width(b[j..]);
      assert a[i..] == p[Width(p)..] && b[j..] == q[Width(q)..];
      assert CodePoints(p)[1..] == CodePoints(a[i..]) && CodePoints(q)[1..] == CodePoints(b[j..]);
    }
  }

  lemma FirstDifference(e: seq<int>, f: seq<int>, k: nat, p: seq<int>, q: seq<int>)
    requires k < |e| && k < |f| && e[..k] == f[..k] && e[k] < f[k]
    ensures Lex(e + p, f + q) == -1
  {
    LexCommonHead(e[..k], e[k..] + p, f[k..] + q);
    assert e + p == e[..k] + (e[k..] + p) && f + q == f[..k] + (f[k..] + q);
  }

  lemma SmallerEncodesSmaller(x: CodePoint, y: CodePoint, p: seq<Byte>, q: seq<Byte>)
    requires x < y
    ensures Lex(Encode(x) + p, Encode(y) + q) == -1
  {
    var e, f := Encode(x), Encode(y);
    if e[0] == f[0] {
      LeadByte(x);
      LeadByte(y);
      var k := if x / 0x1000 != y / 0x1000 then 1 else if x / 0x40 != y / 0x40 then |e| - 2 else |e| - 1;
      DiffersAt(x, y, k);
      FirstDifference(e, f, k, p, q);
    } else {
      LeadGrows(x, y);
    }
  }

  lemma LeadGrows(x: CodePoint, y: CodePoint)
    requires x < y && Encode(x)[0] != Encode(y)[0]
    ensures Encode(x)[0] < Encode(y)[0]
  {
  }

  lemma DiffersAt(x: CodePoint, y: CodePoint, k: int)
    requires x < y && Encode(x)[0] == Encode(y)[0] && |Encode(x)| == |Encode(y)| > 1
    requires k == if x / 0x1000 != y / 0x1000 then 1
                  else if x / 0x40 != y / 0x40 then |Encode(x)| - 2 else |Encode(x)| - 1
    ensures 1 <= k < |Encode(x)| && Encode(x)[..k] == Encode(y)[..k] && Encode(x)[k] < Encode(y)[k]
  {
    Below(x, y, 0x40);
    Below(x, y, 0x1000);
    Below(x / 0x40, y / 0x40, 0x40);
    Below(x / 0x1000, y / 0x1000, 0x40);
    assert x / 0x40 / 0x40 == x / 0x1000 && y / 0x40 / 0x40 == y / 0x1000;
    assert x / 0x1000 / 0x40 == x / 0x40000 && y / 0x1000 / 0x40 == y / 0x40000;
  }

  lemma Below(x: int, y: int, d: int)
    requires 0 <= x <= y && (d == 0x40 || d == 0x1000)
    ensures x / d <= y / d
    ensures x < y && x / d == y / d ==> x % d < y % d
  {
    if d == 0x40 {
    } else {
    }
  }

  /** Code point order is exactly the bytewise order of the UTF-8 encodings. */
  lemma {:induction false} CodePointOrderIsUtf8Order(a: Str, b: Str)
    ensures Lex(CodePoints(a), CodePoints(b)) == Lex(Utf8Of(a), Utf8Of(b))
  {
    if a != [] && b != [] {
      var v, w := Width(a), Width(b);
      var x, y := First(a), First(b);
      var p, q := Utf8Of(a[v..]), Utf8Of(b[w..]);
      assert CodePoints(a)[1..] == CodePoints(a[v..]) && CodePoints(b)[1..] == CodePoints(b[w..]);
      if x < y {
        SmallerEncodesSmaller(x, y, p, q);
      } else if y < x {
        SmallerEncodesSmaller(y, x, q, p);
        LexAntisymmetric(Encode(x) + p, Encode(y) + q);
      } else {
        LexCommonHead(Encode(x), p, q);
        CodePointOrderIsUtf8Order(a[v..], b[w..]);
      }
    }
  }

  /** Two strings compare equal only when they are the same units. */
  lemma CompareZeroOnlyOnEqual(a: Str, b: Str)
    ensures Lex(CodePoints(a), CodePoints(b)) == 0 <==> a == b
  {
    CodePointOrderIsUtf8Order(a, b);
    LexAntisymmetric(Utf8Of(a), Utf8Of(b));
    Utf8RoundTrip(a);
    Utf8RoundTrip(b);
  }
}
