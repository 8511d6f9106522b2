/** Base64 of src/core/bytes.ts, decoded through a 32-bit accumulator. */
module Base64 {
  import opened Text

  type Sextet = v: int | 0 <= v < 64

  /** The character of B64 at a position. */
  function Char(v: Sextet): CodeUnit {
    if v < 26 then 65 + v else if v < 52 then 97 + (v - 26) else if v < 62 then 48 + (v - 52)
    else if v == 62 then 43 else 47
  }

  /** B64_LOOKUP: '-' and '_' decode as base64url does, anything else is -1. */
  function Lookup(c: CodeUnit): (v: int)
    ensures -1 <= v < 64
  {
    if 65 <= c <= 90 then c - 65 else if 97 <= c <= 122 then c - 97 + 26 else if 48 <= c <= 57 then c - 48 + 52
    else if c == 43 || c == 45 then 62 else if c == 47 || c == 95 then 63 else -1
  }

  const PAD: CodeUnit := 61

  /** The sextets a text carries; every other character is skipped. */
  function Sextets(s: Str): seq<Sextet> {
    if s == [] then []
    else (if Lookup(s[0]) < 0 then [] else [Lookup(s[0])]) + Sextets(s[1..])
  }

  // Six bits from the bytes x, y, z of one group, and eight from its sextets.
  function Six1(x: int): Sextet requires 0 <= x < 256 { x / 4 }
  function Six2(x: int, y: int): Sextet requires 0 <= y < 256 { x % 4 * 16 + y / 16 }
  function Six3(y: int, z: int): Sextet requires 0 <= z < 256 { y % 16 * 4 + z / 64 }
  function Six4(z: int): Sextet { z % 64 }
  function Byte1(a: int, b: int): Byte requires 0 <= a < 64 && 0 <= b < 64 { a * 4 + b / 16 }
  function Byte2(b: int, c: int): Byte requires 0 <= c < 64 { b % 16 * 16 + c / 4 }
  function Byte3(c: int, d: int): Byte requires 0 <= d < 64 { c % 4 * 64 + d }

  /** The sextets of a byte string, the last one filled up with zero bits. */
  function Split(b: seq<Byte>): seq<Sextet> {
    if b == [] then []
    else if |b| == 1 then [Six1(b[0]), Six2(b[0], 0)]
    else if |b| == 2 then [Six1(b[0]), Six2(b[0], b[1]), Six3(b[1], 0)]
    else [Six1(b[0]), Six2(b[0], b[1]), Six3(b[1], b[2]), Six4(b[2])] + Split(b[3..])
  }

  /** The whole bytes that a run of sextets holds; left-over bits are dropped. */
  function Joined(v: seq<Sextet>): seq<Byte> {
    if |v| < 2 then []
    else if |v| == 2 then [Byte1(v[0], v[1])]
    else if |v| == 3 then [Byte1(v[0], v[1]), Byte2(v[1], v[2])]
    else [Byte1(v[0], v[1]), Byte2(v[1], v[2]), Byte3(v[2], v[3])] + Joined(v[4..])
  }

  /** How the shifts of the encoder take a 24-bit group apart. */
  function Group(x: int, y: int, z: int): int { x * 0x10000 + y * 0x100 + z }

  function Chars(v: seq<Sextet>): Str {
    seq(|v|, i requires 0 <= i < |v| => Char(v[i]))
  }

  /** The base64 text of a byte string. */
  function Encoded(b: seq<Byte>): Str { Chars(Split(b)) + Padding(|b|) }

  /** The bytes that a text decodes to, whatever else it holds. */
  function Decoded(s: Str): seq<Byte> { Joined(Sextets(s)) }

  function Padding(n: nat): Str {
    if n % 3 == 1 then [PAD, PAD] else if n % 3 == 2 then [PAD] else []
  }

  // -- encoding ------------------------------------------------------------

  method ToBase64(bytes: seq<Byte>) returns (out: Str)
    ensures out == Encoded(bytes)
  {
    hide Six1, Six2, Six3, Six4, Byte1, Byte2, Byte3, Char, Group, Split, Chars;
    out := [];
    var i := 0;
    assert bytes[0..] == bytes;
    while i + 2 < |bytes|
      invariant 0 <= i <= |bytes| && i % 3 == 0
      invariant out + Chars(Split(bytes[i..])) == Chars(Split(bytes))
    {
      var n := Group(bytes[i], bytes[i + 1], bytes[i + 2]);
      var push := [Char(n / 0x40000 % 64), Char(n / 0x1000 % 64), Char(n / 0x40 % 64), Char(n % 64)];
      ghost var rest := bytes[i..];
      GroupSextets(bytes[i], bytes[i + 1], bytes[i + 2]);
      ThreeEncoded(rest, n / 0x40000 % 64, n / 0x1000 % 64, n / 0x40 % 64, n % 64);
      i := i + 3;
      assert bytes[i..] == rest[3..];
      assert out + push + Chars(Split(rest[3..])) == out + (push + Chars(Split(rest[3..])));
      out := out + push;
    }
    var rest := |bytes| - i;
    if rest == 1 {
      var n := Group(bytes[i], 0, 0);
      GroupSextets(bytes[i], 0, 0);
      TailEncoded(bytes[i..], n / 0x40000 % 64, n / 0x1000 % 64, 0);
      out := out + [Char(n / 0x40000 % 64), Char(n / 0x1000 % 64)] + [PAD, PAD];
    } else if rest == 2 {
      var n := Group(bytes[i], bytes[i + 1], 0);
      GroupSextets(bytes[i], bytes[i + 1], 0);
      TailEncoded(bytes[i..], n / 0x40000 % 64, n / 0x1000 % 64, n / 0x40 % 64);
      out := out + [Char(n / 0x40000 % 64), Char(n / 0x1000 % 64), Char(n / 0x40 % 64)] + [PAD];
    } else {
      TailEncoded(bytes[i..], 0, 0, 0);
    }
  }

  lemma CharsJoin(v: seq<Sextet>, w: seq<Sextet>)
    ensures Chars(v + w) == Chars(v) + Chars(w)
  {
    hide Char;
  }

  lemma SplitThree(b: seq<Byte>, four: seq<Sextet>)
    requires |b| > 2 && four == [Six1(b[0]), Six2(b[0], b[1]), Six3(b[1], b[2]), Six4(b[2])]
    ensures Split(b) == four + Split(b[3..])
  {
    hide Six1, Six2, Six3, Six4;
  }

  lemma ThreeEncoded(b: seq<Byte>, p: Sextet, q: Sextet, r: Sextet, t: Sextet)
    requires |b| > 2 && p == Six1(b[0]) && q == Six2(b[0], b[1]) && r == Six3(b[1], b[2]) && t == Six4(b[2])
    ensures Chars(Split(b)) == [Char(p), Char(q), Char(r), Char(t)] + Chars(Split(b[3..]))
  {
    hide Six1, Six2, Six3, Six4, Char, Split;
    var four := [p, q, r, t];
    SplitThree(b, four);
    CharsJoin(four, Split(b[3..]));
    assert Chars(four) == [Char(p), Char(q), Char(r), Char(t)];
  }

  lemma TailEncoded(b: seq<Byte>, p: Sextet, q: Sextet, r: Sextet)
    requires b != [] ==> p == Six1(b[0]) && q == Six2(b[0], if |b| > 1 then b[1] else 0)
    requires |b| > 1 ==> r == Six3(b[1], 0)
    ensures b == [] ==> Chars(Split(b)) == []
    ensures |b| == 1 ==> Chars(Split(b)) == [Char(p), Char(q)]
    ensures |b| == 2 ==> Chars(Split(b)) == [Char(p), Char(q), Char(r)]
  {
    hide Six1, Six2, Six3, Six4, Char;
  }

  lemma GroupSextets(a: Byte, b: Byte, c: Byte)
    ensures var n := Group(a, b, c);
            && n / 0x40000 % 64 == Six1(a) && n / 0x1000 % 64 == Six2(a, b)
            && n / 0x40 % 64 == Six3(b, c) && n % 64 == Six4(c)
  {
    var n, x, y, z: int := Group(a, b, c), a, b, c;
    Quotient(n, 0x40000, x / 4, x % 4 * 0x10000 + y * 0x100 + z);
    Quotient(n, 0x1000, x * 16 + y / 16, y % 16 * 0x100 + z);
    Quotient(n, 0x40, x * 0x400 + y * 4 + z / 64, z % 64);
    Remainder(x / 4, 0, x / 4);
    Remainder(x * 16 + y / 16, x / 4, Six2(a, b));
    Remainder(x * 0x400 + y * 4 + z / 64, x * 16 + y / 16, Six3(b, c));
    Remainder(n, n / 0x40, Six4(c));
  }

  lemma Quotient(n: int, d: int, q: int, r: int)
    requires d > 0 && n == q * d + r && 0 <= r < d
    ensures n / d == q
  {
    var e := n / d - q;
    assert n == d * (n / d) + n % d && d * (n / d) == q * d + e * d;
    assert e * d == r - n % d;
    Times(e, d);
  }

  lemma Times(e: int, d: int)
    requires d > 0
    ensures (e > 0 ==> e * d >= d) && (e < 0 ==> e * d <= -d)
  {
  }

  lemma Remainder(n: int, q: int, r: int)
    requires n == q * 64 + r && 0 <= r < 64
    ensures n % 64 == r
  {
  }

  // -- decoding ------------------------------------------------------------

  /** The signed 32-bit value that JavaScript's bit operators leave. */
  function ToInt32(x: int): int {
    (x + 0x8000_0000) % 0x1_0000_0000 - 0x8000_0000
  }

  /** The characters the decoder keeps: s.replace(/[^A-Za-z0-9+/\-_]/g, ""). */
  function Clean(s: Str): Str {
    if s == [] then []
    else (if Lookup(s[0]) < 0 then [] else [s[0]]) + Clean(s[1..])
  }

  /** The accumulator holds the bits not yet written, whatever wrapped above. */
  predicate Holds(acc: int, bits: int, v: seq<Sextet>)
  {
    && bits == 6 * |v| % 8
    && (|v| % 4 == 1 ==> acc % 64 == v[|v| - 1])
    && (|v| % 4 == 2 ==> acc % 16 == v[|v| - 1] % 16)
    && (|v| % 4 == 3 ==> acc % 4 == v[|v| - 1] % 4)
  }

  method FromBase64(s: Str) returns (out: seq<Byte>)
    ensures out == Decoded(s)
  {
    hide Lookup, ToInt32, Held, Joined, Holds, TopByte, Sextets, Clean;
    var clean := Clean(s);
    CleanKeepsSextets(s);
    var buffer := new Byte[Held(|clean|)](_ => 0);
    var o, acc, bits := 0, 0, 0;
    ghost var w: seq<Sextet> := [];
    Start();
    for i := 0 to |clean|
      invariant w == Sextets(clean[..i]) && |w| == i
      invariant 0 <= o == |Joined(w)| == Held(i) <= buffer.Length && buffer[..o] == Joined(w)
      invariant Holds(acc, bits, w)
    {
      var v := Lookup(clean[i]);
      SextetsSnoc(clean[..i], clean[i]);
      assert clean[..i + 1] == clean[..i] + [clean[i]];
      if v < 0 {
        continue;
      }
      Turn(acc, bits, v, w);
      HeldGrows(i + 1, |clean|);
      acc := ToInt32(acc * 64 + v);
      bits := bits + 6;
      w := w + [v];
      if bits >= 8 {
        bits := bits - 8;
        ghost var before := buffer[..o];
        buffer[o] := TopByte(acc, bits);
        assert buffer[..o + 1] == before + [buffer[o]];
        o := o + 1;
      }
    }
    assert clean[..|clean|] == clean;
    out := buffer[..o];
  }

  lemma Start()
    ensures Sextets([]) == [] && Joined([]) == [] && Held(0) == 0 && Holds(0, 0, [])
  {
  }

  /** (acc >> bits) & 0xff, for the shifts that occur. */
  function TopByte(acc: int, bits: nat): Byte {
    acc / (if bits == 0 then 1 else if bits == 2 then 4 else 16) % 256
  }

  lemma {:induction false} CleanKeepsSextets(s: Str)
    ensures Sextets(Clean(s)) == Sextets(s) && |Sextets(s)| == |Clean(s)|
    ensures forall i :: 0 <= i < |Clean(s)| ==> Lookup(Clean(s)[i]) >= 0
  {
    if s != [] {
      CleanKeepsSextets(s[1..]);
      if Lookup(s[0]) >= 0 {
        assert Clean(s) == [s[0]] + Clean(s[1..]);
        assert Clean(s)[1..] == Clean(s[1..]);
      } else {
        assert Clean(s) == Clean(s[1..]);
      }
    }
  }

  lemma {:induction false} SextetsSnoc(s: Str, c: CodeUnit)
    ensures Sextets(s + [c]) == Sextets(s) + (if Lookup(c) < 0 then [] else [Lookup(c)])
  {
    if s != [] {
      SextetsSnoc(s[1..], c);
      assert (s + [c])[1..] == s[1..] + [c];
    }
  }

  /** What one more sextet adds: nothing after a multiple of four, else a byte. */
  function Added(v: seq<Sextet>, x: Sextet): seq<Byte> {
    if |v| % 4 == 0 then []
    else if |v| % 4 == 1 then [Byte1(v[|v| - 1], x)]
    else if |v| % 4 == 2 then [Byte2(v[|v| - 1], x)]
    else [Byte3(v[|v| - 1], x)]
  }

  lemma JoinedFour(v: seq<Sextet>)
    requires |v| >= 4
    ensures Joined(v) == [Byte1(v[0], v[1]), Byte2(v[1], v[2]), Byte3(v[2], v[3])] + Joined(v[4..])
  {
  }

  lemma JoinedShort(v: seq<Sextet>, x: Sextet)
    requires |v| < 4
    ensures |Joined(v)| == Held(|v|) && Joined(v + [x]) == Joined(v) + Added(v, x)
  {
    hide Byte1, Byte2, Byte3, Joined, Added;
    JoinedFew(v);
    AddedFew(v, x);
    if |v| == 3 {
      JoinedThree(v, x);
    } else {
      JoinedFew(v + [x]);
    }
  }

  lemma AddedFew(v: seq<Sextet>, x: Sextet)
    requires |v| < 4
    ensures v == [] ==> Added(v, x) == []
    ensures |v| == 1 ==> Added(v, x) == [Byte1(v[0], x)]
    ensures |v| == 2 ==> Added(v, x) == [Byte2(v[1], x)]
    ensures |v| == 3 ==> Added(v, x) == [Byte3(v[2], x)]
  {
    hide Byte1, Byte2, Byte3;
  }

  lemma JoinedThree(v: seq<Sextet>, x: Sextet)
    requires |v| == 3
    ensures Joined(v + [x]) == [Byte1(v[0], v[1]), Byte2(v[1], v[2]), Byte3(v[2], x)]
  {
    hide Byte1, Byte2, Byte3, Joined;
    var w := v + [x];
    assert w[4..] == [];
    JoinedFour(w);
    JoinedFew([]);
  }

  lemma JoinedFew(v: seq<Sextet>)
    requires |v| < 4
    ensures |v| < 2 ==> Joined(v) == []
    ensures |v| == 2 ==> Joined(v) == [Byte1(v[0], v[1])]
    ensures |v| == 3 ==> Joined(v) == [Byte1(v[0], v[1]), Byte2(v[1], v[2])]
  {
    hide Byte1, Byte2, Byte3;
  }

  lemma {:induction false} JoinedSnoc(v: seq<Sextet>, x: Sextet)
    ensures |Joined(v)| == Held(|v|)
    ensures Joined(v + [x]) == Joined(v) + Added(v, x)
  {
    hide Byte1, Byte2, Byte3, Joined;
    if |v| < 4 {
      JoinedShort(v, x);
    } else {
      JoinedSnoc(v[4..], x);
      JoinedFour(v);
      JoinedFour(v + [x]);
      assert (v + [x])[4..] == v[4..] + [x];
      assert Added(v, x) == Added(v[4..], x);
    }
  }

  /** Wrapping at 32 bits changes no bit that is ever written. */
  lemma Wrapped(x: int)
    ensures ToInt32(x) % 64 == x % 64 && ToInt32(x) % 256 == x % 256
    ensures ToInt32(x) / 4 % 256 == x / 4 % 256 && ToInt32(x) / 16 % 256 == x / 16 % 256
  {
    var n := ToInt32(x);
    var k := (x + 0x8000_0000) / 0x1_0000_0000;
    assert n == x - k * 0x1_0000_0000;
    assert n / 4 == x / 4 - k * 0x4000_0000;
    assert n / 16 == x / 16 - k * 0x1000_0000;
    Multiples64(x, -k * 0x400_0000);
    Multiples256(x, -k * 0x100_0000);
    Multiples256(x / 4, -k * 0x40_0000);
    Multiples256(x / 16, -k * 0x10_0000);
  }

  lemma Remainder64(q: int, r: int)
    requires 0 <= r < 64
    ensures (q * 64 + r) % 64 == r
  {
  }

  lemma Remainder256(q: int, r: int)
    requires 0 <= r < 256
    ensures (q * 256 + r) % 256 == r
  {
  }

  lemma Multiples64(x: int, k: int)
    ensures (x + k * 64) % 64 == x % 64
  {
    var q, r := x / 64, x % 64;
    assert x + k * 64 == (q + k) * 64 + r;
    Remainder64(q + k, r);
  }

  lemma Multiples256(x: int, k: int)
    ensures (x + k * 256) % 256 == x % 256
  {
    var q, r := x / 256, x % 256;
    assert x + k * 256 == (q + k) * 256 + r;
    Remainder256(q + k, r);
  }

  // The eight bits above the ones kept, for each number of bits kept.
  lemma EightBits(x: int, acc: int, v: int)
    requires 0 <= v < 64 && x == acc * 64 + v
    ensures x / 16 % 256 == acc % 64 * 4 + v / 16
    ensures x / 4 % 256 == acc % 16 * 16 + v / 4
    ensures x % 256 == acc % 4 * 64 + v
    ensures x % 64 == v
  {
    AboveFour(x, acc, v);
    AboveTwo(x, acc, v);
    var q, r := acc / 4, acc % 4;
    assert x == q * 256 + (r * 64 + v);
    Remainder256(q, r * 64 + v);
    Remainder64(acc, v);
  }

  lemma AboveFour(x: int, acc: int, v: int)
    requires 0 <= v < 64 && x == acc * 64 + v
    ensures x / 16 % 256 == acc % 64 * 4 + v / 16
  {
    var q, r := acc / 64, acc % 64;
    assert x / 16 == acc * 4 + v / 16;
    assert acc * 4 + v / 16 == q * 256 + (r * 4 + v / 16);
    Remainder256(q, r * 4 + v / 16);
  }

  lemma AboveTwo(x: int, acc: int, v: int)
    requires 0 <= v < 64 && x == acc * 64 + v
    ensures x / 4 % 256 == acc % 16 * 16 + v / 4
  {
    var q, r := acc / 16, acc % 16;
    assert x / 4 == acc * 16 + v / 4;
    assert acc * 16 + v / 4 == q * 256 + (r * 16 + v / 4);
    Remainder256(q, r * 16 + v / 4);
  }

  lemma NextAccumulator(x: int, acc: int, v: Sextet)
    requires x == acc * 64 + v
    ensures var n := ToInt32(x);
            && n % 64 == v && n % 16 == v % 16 && n % 4 == v % 4
            && n / 16 % 256 == acc % 64 * 4 + v / 16
            && n / 4 % 256 == acc % 16 * 16 + v / 4
            && n % 256 == acc % 4 * 64 + v
  {
    hide ToInt32;
    Wrapped(x);
    EightBits(x, acc, v);
    LowBits(ToInt32(x));
  }

  lemma LowBits(n: int)
    ensures n % 16 == n % 64 % 16 && n % 4 == n % 64 % 4
  {
    var q, r := n / 64, n % 64;
    assert n == q * 64 + r;
    assert n / 16 == q * 4 + r / 16 && n / 4 == q * 16 + r / 4;
  }

  lemma Carry(acc: int, v: Sextet, w: seq<Sextet>)
    requires Holds(acc, 6 * |w| % 8, w)
    ensures var n := ToInt32(acc * 64 + v);
            && Holds(n, 6 * (|w| + 1) % 8, w + [v])
            && (|w| % 4 == 1 ==> Added(w, v) == [n / 16 % 256])
            && (|w| % 4 == 2 ==> Added(w, v) == [n / 4 % 256])
            && (|w| % 4 == 3 ==> Added(w, v) == [n % 256])
  {
    NextAccumulator(acc * 64 + v, acc, v);
    hide ToInt32;
  }

  /** How many whole bytes n sextets hold. */
  function Held(n: nat): nat { n * 3 / 4 }

  lemma HeldGrows(m: nat, n: nat)
    requires m <= n
    ensures Held(m) <= Held(n)
  {
  }

  lemma BitsKept(n: nat)
    ensures 6 * n % 8 == (if n % 4 == 0 then 0 else if n % 4 == 1 then 6 else if n % 4 == 2 then 4 else 2)
    ensures Held(n + 1) == Held(n) + (if n % 4 == 0 then 0 else 1)
  {
    var q, r := n / 4, n % 4;
    BitsOf(n, q, r);
  }

  lemma BitsOf(n: int, q: int, r: int)
    requires n == 4 * q + r && 0 <= r < 4
    ensures 6 * n % 8 == (if r == 0 then 0 else if r == 1 then 6 else if r == 2 then 4 else 2)
    ensures n * 3 / 4 == 3 * q + (if r == 0 then 0 else r - 1)
    ensures (n + 1) * 3 / 4 == 3 * q + r
  {
    assert 6 * n == 8 * (3 * q) + 6 * r;
  }

  /** What the accumulator yields at this turn, and what it holds then. */
  lemma Yields(acc: int, bits: int, v: Sextet, w: seq<Sextet>)
    requires Holds(acc, bits, w)
    ensures bits == 0 || bits == 2 || bits == 4 || bits == 6
    ensures Holds(ToInt32(acc * 64 + v), if bits >= 2 then bits - 2 else bits + 6, w + [v])
    ensures Added(w, v) == if bits >= 2 then [TopByte(ToInt32(acc * 64 + v), bits - 2)] else []
  {
    hide ToInt32, Byte1, Byte2, Byte3, Held;
    BitsKept(|w|);
    BitsKept(|w| + 1);
    Carry(acc, v, w);
  }

  /** One turn of the loop: the accumulator carries on, and yields the byte due. */
  lemma Turn(acc: int, bits: int, v: Sextet, w: seq<Sextet>)
    requires Holds(acc, bits, w)
    ensures bits == 0 || bits == 2 || bits == 4 || bits == 6
    ensures Holds(ToInt32(acc * 64 + v), if bits >= 2 then bits - 2 else bits + 6, w + [v])
    ensures Joined(w + [v]) == Joined(w) + (
      if bits >= 2 then [TopByte(ToInt32(acc * 64 + v), bits - 2)] else [])
    ensures |Joined(w + [v])| == Held(|w| + 1) && |Joined(w)| == Held(|w|)
  {
    hide ToInt32, Joined, Held, TopByte, Holds, Added;
    Yields(acc, bits, v, w);
    JoinedSnoc(w, v);
    JoinedSnoc(w + [v], v);
  }

  // -- round trip ----------------------------------------------------------

  lemma BytesOfSextets(x: Byte, y: Byte, z: Byte)
    ensures Byte1(Six1(x), Six2(x, y)) == x && Byte2(Six2(x, y), Six3(y, z)) == y && Byte3(Six3(y, z), Six4(z)) == z
  {
  }

  lemma {:induction false} JoinedOfSplit(b: seq<Byte>)
    ensures Joined(Split(b)) == b
  {
    hide Six1, Six2, Six3, Six4, Byte1, Byte2, Byte3;
    if b != [] {
      BytesOfSextets(b[0], if |b| > 1 then b[1] else 0, if |b| > 2 then b[2] else 0);
    }
    if |b| >= 3 {
      JoinedOfSplit(b[3..]);
      assert Split(b)[4..] == Split(b[3..]);
      assert b == [b[0], b[1], b[2]] + b[3..];
    } else if b != [] {
      assert b == [b[0]] + b[1..];
    }
  }

  lemma LookupOfChar(v: Sextet)
    ensures Lookup(Char(v)) == v
  {
  }

  lemma {:induction false} SextetsOfChars(v: seq<Sextet>, tail: Str)
    requires Sextets(tail) == []
    ensures Sextets(Chars(v) + tail) == v
  {
    hide Char, Lookup;
    if v == [] {
      assert Chars(v) + tail == tail;
    } else {
      SextetsOfChars(v[1..], tail);
      LookupOfChar(v[0]);
      assert (Chars(v) + tail)[1..] == Chars(v[1..]) + tail;
    }
  }

  lemma PaddingSkipped(n: nat)
    ensures Sextets(Padding(n)) == []
  {
    assert Sextets([PAD]) == [];
    assert [PAD, PAD][1..] == [PAD];
    assert Sextets([PAD, PAD]) == [];
  }

  /** Encoding loses nothing: the text carries the sextets of the bytes. */
  lemma EncodedSextets(b: seq<Byte>)
    ensures Sextets(Encoded(b)) == Split(b)
  {
    hide Char, Split, Lookup, Sextets;
    PaddingSkipped(|b|);
    SextetsOfChars(Split(b), Padding(|b|));
  }

  /**
   * fromBase64 undoes toBase64, and still does after characters outside the
   * alphabet have been inserted anywhere (`noisy` keeps the same characters).
   */
  lemma Base64RoundTrip(b: seq<Byte>, noisy: Str)
    requires Clean(noisy) == Clean(Encoded(b))
    ensures Decoded(noisy) == b
  {
    CleanKeepsSextets(noisy);
    CleanKeepsSextets(Encoded(b));
    EncodedSextets(b);
    JoinedOfSplit(b);
  }

  // -- the standard's own answers ------------------------------------------

  /** The alphabet of section 4 of RFC 4648. */
  lemma Alphabet(v: Sextet)
    ensures v <= 25 ==> Char(v) == 'A' as int + v
    ensures 26 <= v <= 51 ==> Char(v) == 'a' as int + v - 26
    ensures 52 <= v <= 61 ==> Char(v) == '0' as int + v - 52
    ensures v == 62 ==> Char(v) == '+' as int
    ensures v == 63 ==> Char(v) == '/' as int
  {
  }

  /** What the decoder reads: both alphabets of sections 4 and 5; any other character is none. */
  lemma AlphabetsRead(c: CodeUnit)
    ensures
      if 'A' as int <= c <= 'Z' as int then Lookup(c) == c - 'A' as int
      else if 'a' as int <= c <= 'z' as int then Lookup(c) == c - 'a' as int + 26
      else if '0' as int <= c <= '9' as int then Lookup(c) == c - '0' as int + 52
      else if c == '+' as int || c == '-' as int then Lookup(c) == 62
      else if c == '/' as int || c == '_' as int then Lookup(c) == 63
      else Lookup(c) == -1
  {
  }

  lemma ShortVectors()
    ensures Encoded([]) == [] && Encoded(Lit("f")) == Lit("Zg==") && Encoded(Lit("fo")) == Lit("Zm8=")
    ensures Encoded(Lit("foo")) == Lit("Zm9v")
  {
    assert Split([]) == [];
    assert Lit("foo")[3..] == [];
  }

  lemma LongVectors()
    ensures Encoded(Lit("foob")) == Lit("Zm9vYg==") && Encoded(Lit("fooba")) == Lit("Zm9vYmE=")
  {
    assert Lit("foob")[3..] == Lit("b") && Lit("fooba")[3..] == Lit("ba");
  }

  lemma LongestVector()
    ensures Encoded(Lit("foobar")) == Lit("Zm9vYmFy")
  {
    assert Lit("foobar")[3..] == Lit("bar") && Lit("bar")[3..] == [];
  }

  /** The test vectors of section 10. */
  lemma Rfc4648Vectors()
    ensures Encoded([]) == [] && Encoded(Lit("f")) == Lit("Zg==") && Encoded(Lit("fo")) == Lit("Zm8=")
    ensures Encoded(Lit("foo")) == Lit("Zm9v") && Encoded(Lit("foob")) == Lit("Zm9vYg==")
    ensures Encoded(Lit("fooba")) == Lit("Zm9vYmE=") && Encoded(Lit("foobar")) == Lit("Zm9vYmFy")
  {
    hide Encoded, Lit;
    ShortVectors();
    LongVectors();
    LongestVector();
  }
}
