/**
 * ECDSA signatures between raw r||s (IEEE P1363) and ASN.1 DER
 * (src/core/signer.ts; section 8.3 of ITU-T X.690).
 */
module Der {
  import opened Text

  datatype Result<+T> = Ok(value: T) | Fail

  /** A big-endian magnitude without leading zeros, but at least one byte. */
  function Stripped(b: seq<Byte>): (r: seq<Byte>)
    ensures b != [] ==> r != []
    ensures |r| <= |b|
  {
    if |b| > 1 && b[0] == 0 then Stripped(b[1..]) else b
  }

  /** The content octets: a zero in front when the top bit would read as a sign. */
  function Content(b: seq<Byte>): seq<Byte> {
    var v := Stripped(b);
    if v != [] && v[0] >= 0x80 then [0] + v else v
  }

  function Zeros(n: nat): seq<Byte> { seq(n, _ => 0) }

  /** The unsigned number that big-endian bytes denote. */
  function Value(b: seq<Byte>): int {
    if b == [] then 0 else Value(b[..|b| - 1]) * 256 + b[|b| - 1]
  }

  /** X.690 8.3.2: no nine leading bits are all equal; and the sign bit is clear. */
  predicate MinimalNonNegative(c: seq<Byte>) {
    && c != [] && c[0] < 0x80
    && (|c| > 1 && c[0] == 0 ==> c[1] >= 0x80)
  }

  // -- encoding ------------------------------------------------------------

  /** Tag, length and content; a byte array keeps a length modulo 256. */
  function IntegerOf(b: seq<Byte>): seq<Byte> { [0x02, |Content(b)| % 0x100] + Content(b) }

  method EncodeInt(bytes: seq<Byte>) returns (out: seq<Byte>)
    ensures out == IntegerOf(bytes)
  {
    var i := 0;
    while i < |bytes| - 1 && bytes[i] == 0
      invariant 0 <= i <= |bytes|
      invariant Stripped(bytes[i..]) == Stripped(bytes)
    {
      assert bytes[i..][1..] == bytes[i + 1..];
      i := i + 1;
    }
    var v := bytes[i..];
    if v != [] && v[0] >= 0x80 {
      v := [0] + v;
    }
    out := [0x02, |v| % 0x100] + v;
  }

  function DerOf(r: seq<Byte>, s: seq<Byte>): seq<Byte> {
    var a, b := IntegerOf(r), IntegerOf(s);
    [0x30, (|a| + |b|) % 0x100] + a + b
  }

  lemma ContentBound(b: seq<Byte>)
    ensures |Content(b)| <= |b| + 1
  {
  }

  /** Of an odd number of bytes the second half gets one more. */
  method P1363ToDer(p1363: seq<Byte>) returns (out: seq<Byte>)
    ensures out == DerOf(p1363[..|p1363| / 2], p1363[|p1363| / 2..])
  {
    hide IntegerOf;
    var half := |p1363| / 2;
    var r := EncodeInt(p1363[..half]);
    var s := EncodeInt(p1363[half..]);
    out := [0x30, (|r| + |s|) % 0x100] + r + s;
  }

  // -- decoding ------------------------------------------------------------

  /** Where the decoder stands; a length read past the end leaves it at NaN. */
  datatype Cursor = At(i: nat) | Nan

  function Byte(der: seq<Byte>, c: Cursor): int {
    if c.At? && c.i < |der| then der[c.i] else -1
  }

  function Next(c: Cursor): Cursor {
    if c.At? then At(c.i + 1) else Nan
  }

  /** Array.subarray: both ends are clamped to the array. */
  function Sub(b: seq<Byte>, from: nat, to: nat): seq<Byte> {
    var lo := if from <= |b| then from else |b|;
    var hi := if to <= |b| then to else |b|;
    if lo <= hi then b[lo..hi] else []
  }

  function Shortened(v: seq<Byte>, n: nat): (r: seq<Byte>)
    ensures |v| <= n ==> r == v
  {
    if |v| > n && v[0] == 0 then Shortened(v[1..], n) else v
  }

  /** One INTEGER as a fixed-width number, and where the next one starts. */
  function Integer(der: seq<Byte>, c: Cursor, n: nat): Result<(seq<Byte>, Cursor)> {
    if Byte(der, c) != 0x02 then Fail
    else
      var length := Byte(der, Next(c));
      var v := if length < 0 then [] else Sub(der, c.i + 2, c.i + 2 + length);
      var short := Shortened(v, n);
      if |short| > n then Fail
      else Ok((Zeros(n - |short|) + short, if length < 0 then Nan else At(c.i + 2 + length)))
  }

  method ReadInt(der: seq<Byte>, c: Cursor, byteLength: nat) returns (r: Result<(seq<Byte>, Cursor)>)
    ensures r == Integer(der, c, byteLength)
  {
    var i := c;
    if Byte(der, i) != 0x02 {
      return Fail;
    }
    i := Next(i);
    var len := Byte(der, i);
    i := Next(i);
    var v := if len < 0 then [] else Sub(der, i.i, i.i + len);
    i := if len < 0 then Nan else At(i.i + len);
    ghost var all := v;
    while |v| > byteLength && v[0] == 0
      invariant Shortened(v, byteLength) == Shortened(all, byteLength)
    {
      v := v[1..];
    }
    if |v| > byteLength {
      return Fail;  // out.set at a negative offset
    }
    r := Ok((Zeros(byteLength - |v|) + v, i));
  }

  /** What the decoder makes of any bytes. */
  function P1363Of(der: seq<Byte>, n: nat): Result<seq<Byte>> {
    if Byte(der, At(0)) != 0x30 then Fail
    else
      var length := Byte(der, At(1));
      var start := At(if length >= 0x80 then 2 + length % 0x80 else 2);
      match Integer(der, start, n)
      case Fail => Fail
      case Ok((r, c)) =>
        match Integer(der, c, n)
        case Fail => Fail
        case Ok((s, _)) => Ok(r + s)
  }

  method DerToP1363(der: seq<Byte>, byteLength: nat) returns (out: Result<seq<Byte>>)
    ensures out == P1363Of(der, byteLength)
  {
    var i := 0;
    if Byte(der, At(i)) != 0x30 {
      return Fail;
    }
    i := i + 1;
    var length := Byte(der, At(i));
    if length >= 0x80 {
      i := i + 1 + length % 0x80;
    } else {
      i := i + 1;
    }
    var r := ReadInt(der, At(i), byteLength);
    if r.Fail? {
      return Fail;
    }
    var s := ReadInt(der, r.value.1, byteLength);
    out := if s.Fail? then Fail else Ok(r.value.0 + s.value.0);
  }

  // -- properties ----------------------------------------------------------

  lemma {:induction false} StrippedKeepsValue(b: seq<Byte>)
    ensures Zeros(|b| - |Stripped(b)|) + Stripped(b) == b
    ensures |Stripped(b)| > 1 ==> Stripped(b)[0] != 0
  {
    if |b| > 1 && b[0] == 0 {
      StrippedKeepsValue(b[1..]);
      assert b == [0] + b[1..];
      assert Zeros(|b| - |Stripped(b)|) == [0] + Zeros(|b| - 1 - |Stripped(b)|);
    }
  }

  /** Each INTEGER the encoder writes is minimal, non-negative and worth the half it came from. */
  lemma EncodedIntegerIsDer(b: seq<Byte>)
    requires b != []
    ensures MinimalNonNegative(Content(b))
    ensures Value(Content(b)) == Value(b)
  {
    hide Value, Stripped;
    StrippedKeepsValue(b);
    LeadingZeros(|b| - |Stripped(b)|, Stripped(b));
    LeadingZeros(1, Stripped(b));
    assert Zeros(1) == [0];
  }

  /**
   * The whole encoding (sections 8.9 and 8.3 of X.690): a SEQUENCE of two
   * INTEGERs with one-byte lengths, each minimal, non-negative and of the value of
   * its half.
   */
  lemma DerForm(r: seq<Byte>, s: seq<Byte>) returns (a: seq<Byte>, b: seq<Byte>)
    requires 1 <= |r| <= 60 && 1 <= |s| <= 60
    ensures |a| + |b| + 4 < 0x80
    ensures DerOf(r, s) == [0x30, |a| + |b| + 4] + ([0x02, |a|] + a) + ([0x02, |b|] + b)
    ensures MinimalNonNegative(a) && Value(a) == Value(r) && MinimalNonNegative(b) && Value(b) == Value(s)
  {
    hide Content, Value, MinimalNonNegative;
    a, b := Content(r), Content(s);
    ContentBound(r);
    ContentBound(s);
    EncodedIntegerIsDer(r);
    EncodedIntegerIsDer(s);
  }

  lemma {:induction false} LeadingZeros(n: nat, b: seq<Byte>)
    ensures Value(Zeros(n) + b) == Value(b)
  {
    if b == [] {
      if n > 0 {
        LeadingZeros(n - 1, b);
        assert (Zeros(n) + b)[..n - 1] == Zeros(n - 1) + b;
      }
    } else {
      LeadingZeros(n, b[..|b| - 1]);
      assert (Zeros(n) + b)[..n + |b| - 1] == Zeros(n) + b[..|b| - 1];
    }
  }

  /** Widening the content octets again gives the fixed-width half back. */
  lemma ContentWidens(b: seq<Byte>, n: nat)
    requires |b| == n > 0
    ensures var v := Shortened(Content(b), n);
            |v| <= n && Zeros(n - |v|) + v == b
  {
    StrippedKeepsValue(b);
    var v := Content(b);
    if |v| > n {
      assert v[1..] == Stripped(b) == b;
      assert Shortened(v, n) == Shortened(v[1..], n) == b;
      assert Zeros(0) + b == b;
    } else if v != Stripped(b) {
      assert Zeros(n - |v| + 1) == Zeros(n - |v|) + [0];
      assert Zeros(n - |v|) + v == Zeros(n - |v| + 1) + Stripped(b);
    }
  }

  lemma IntegerReadsBack(der: seq<Byte>, i: nat, b: seq<Byte>, n: nat)
    requires |b| == n > 0
    requires i + 2 + |Content(b)| <= |der|
    requires der[i] == 0x02 && der[i + 1] == |Content(b)|
    requires der[i + 2..i + 2 + |Content(b)|] == Content(b)
    ensures Integer(der, At(i), n) == Ok((b, At(i + 2 + |Content(b)|)))
  {
    hide Content, Stripped, Shortened, Zeros;
    ContentWidens(b, n);
    assert Sub(der, i + 2, i + 2 + |Content(b)|) == Content(b);
  }

  /**
   * Converting a signature to DER and back gives the same bytes, for P-256
   * (n = 32) and every width whose DER has a one-byte length.
   */
  lemma DerRoundTrip(x: seq<Byte>, n: nat)
    requires |x| == 2 * n && 0 < n <= 60
    ensures P1363Of(DerOf(x[..n], x[n..]), n) == Ok(x)
  {
    hide Content, Integer;
    var r, s := x[..n], x[n..];
    ContentBound(r);
    ContentBound(s);
    var der := DerOf(r, s);
    var j := 4 + |Content(r)|;
    var front := [0x30, 4 + |Content(r)| + |Content(s)|, 0x02, |Content(r)|];
    assert der == front + Content(r) + ([0x02, |Content(s)|] + Content(s));
    hide DerOf, IntegerOf;
    assert der[4..j] == Content(r);
    IntegerReadsBack(der, 2, r, n);
    assert der[j + 2..j + 2 + |Content(s)|] == Content(s);
    IntegerReadsBack(der, j, s, n);
    assert r + s == x;
  }
}
