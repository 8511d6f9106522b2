/**
 * JSON values and the text JSON.stringify makes of them: it is one line, and
 * the text of an object is open until its last character.
 */
module Json {
  import opened Text
  import opened Options

  predicate Digit(c: CodeUnit) { 48 <= c <= 57 }

  /** Digits, at least one digit, and an integer without a leading zero. */
  type DigitText = t: Str | forall i :: 0 <= i < |t| ==> Digit(t[i])
  type SomeDigits = t: DigitText | t != [] witness [48]
  type WholeText = t: DigitText | t == [48] || (t != [] && t[0] != 48) witness [48]

  /** A number by the JSON grammar (section 6 of RFC 8259): no fraction is an empty one. */
  datatype Numeral = Numeral(negative: bool, whole: WholeText, fraction: DigitText, exponent: Option<Exponent>)
  datatype Exponent = Exponent(negative: bool, digits: SomeDigits)

  datatype Value =
    | Null
    | Bool(value: bool)
    | Number(numeral: Numeral)
    | String(units: Str)
    | Array(items: seq<Value>)
    | Object(fields: seq<Field>)

  datatype Field = Field(name: Str, value: Value)

  // -- JSON.stringify ------------------------------------------------------

  function Hex(n: nat): CodeUnit
    requires n < 16
  {
    if n < 10 then 48 + n else 87 + n
  }

  function NumeralText(n: Numeral): Str {
    (if n.negative then [45] else []) + n.whole + (if n.fraction == [] then [] else [46] + n.fraction)
    + (match n.exponent
       case None => []
       case Some(e) => [101, if e.negative then 45 else 43] + e.digits)
  }

  /** \uXXXX */
  function Escape(c: CodeUnit): Str {
    [92, 117, Hex(c / 4096), Hex(c / 256 % 16), Hex(c / 16 % 16), Hex(c % 16)]
  }

  predicate Lead(c: CodeUnit) { 0xD800 <= c < 0xDC00 }
  predicate Trail(c: CodeUnit) { 0xDC00 <= c < 0xE000 }

  /** A unit that is not half of a surrogate pair: quotes, backslashes, controls and lone surrogates are escaped. */
  function QuotedUnit(c: CodeUnit): Str {
    if c == 34 || c == 92 then [92, c]
    else if c == 8 then [92, 98]
    else if c == 9 then [92, 116]
    else if c == 10 then [92, 110]
    else if c == 12 then [92, 102]
    else if c == 13 then [92, 114]
    else if c < 32 || Lead(c) || Trail(c) then Escape(c)
    else [c]
  }

  function QuotedUnits(s: Str): Str
    decreases |s|
  {
    if s == [] then []
    else if |s| > 1 && Lead(s[0]) && Trail(s[1]) then [s[0], s[1]] + QuotedUnits(s[2..])
    else QuotedUnit(s[0]) + QuotedUnits(s[1..])
  }

  function Quoted(s: Str): Str { [34] + QuotedUnits(s) + [34] }

  function Stringify(v: Value): Str
    decreases v, 0
  {
    match v
    case Null => Lit("null")
    case Bool(b) => if b then Lit("true") else Lit("false")
    case Number(numeral) => NumeralText(numeral)
    case String(units) => Quoted(units)
    case Array(items) => [91] + ItemTexts(items) + [93]
    case Object(fields) => [123] + FieldTexts(fields) + [125]
  }

  /** Separated by commas. */
  function ItemTexts(items: seq<Value>): Str
    decreases items, 1
  {
    if items == [] then []
    else Stringify(items[0]) + (if |items| > 1 then [44] else []) + ItemTexts(items[1..])
  }

  function FieldTexts(fields: seq<Field>): Str
    decreases fields, 1
  {
    if fields == [] then []
    else
      Quoted(fields[0].name) + [58] + Stringify(fields[0].value) + (if |fields| > 1 then [44] else [])
      + FieldTexts(fields[1..])
  }

  // -- open and closed texts -----------------------------------------------

  /** Inside a JSON text: how deep in braces, within a string, after a backslash. */
  datatype Scan = Scan(depth: int, inString: bool, escaped: bool)

  const OUTSIDE := Scan(0, false, false)

  function Advance(s: Scan, c: CodeUnit): Scan {
    if s.escaped then s.(escaped := false)
    else if s.inString then
      if c == 92 then s.(escaped := true) else if c == 34 then s.(inString := false) else s
    else if c == 34 then s.(inString := true)
    else if c == 123 then s.(depth := s.depth + 1)
    else if c == 125 then s.(depth := s.depth - 1)
    else s
  }

  function Scanned(s: Scan, text: Str): Scan
    decreases |text|
  {
    if text == [] then s else Scanned(Advance(s, text[0]), text[1..])
  }

  lemma {:induction false} ScannedJoin(s: Scan, a: Str, b: Str)
    ensures Scanned(s, a + b) == Scanned(Scanned(s, a), b)
    decreases |a|
  {
    if a == [] {
      assert a + b == b;
    } else {
      assert (a + b)[1..] == a[1..] + b;
      ScannedJoin(Advance(s, a[0]), a[1..], b);
    }
  }

  predicate At(s: Scan, inString: bool) { s.inString == inString && !s.escaped }

  /** A text that closes whatever it opens, and never closes more. */
  ghost predicate Closed(text: Str, inString: bool) {
    forall s :: At(s, inString) ==>
      && Scanned(s, text) == s
      && forall n :: 0 <= n <= |text| ==> Scanned(s, text[..n]).depth >= s.depth
  }

  lemma ClosedBoth(a: Str, b: Str, inString: bool)
    requires Closed(a, inString) && Closed(b, inString)
    ensures Closed(a + b, inString)
  {
    forall s | At(s, inString)
      ensures Scanned(s, a + b) == s
      ensures forall n :: 0 <= n <= |a + b| ==> Scanned(s, (a + b)[..n]).depth >= s.depth
    {
      ScannedJoin(s, a, b);
      forall n | 0 <= n <= |a + b| ensures Scanned(s, (a + b)[..n]).depth >= s.depth {
        if n <= |a| {
          assert (a + b)[..n] == a[..n];
        } else {
          assert (a + b)[..n] == a + b[..n - |a|];
          ScannedJoin(s, a, b[..n - |a|]);
        }
      }
    }
  }

  /** No quote and no backslash, and no brace that counts. */
  predicate PlainText(text: Str, inString: bool) {
    forall i :: 0 <= i < |text| ==>
      text[i] != 34 && text[i] != 92 && (inString || (text[i] != 123 && text[i] != 125))
  }

  lemma {:induction false} PlainScans(s: Scan, text: Str)
    requires PlainText(text, s.inString) && !s.escaped
    ensures Scanned(s, text) == s
    decreases |text|
  {
    if text != [] {
      PlainScans(s, text[1..]);
    }
  }

  lemma PlainIsClosed(text: Str, inString: bool)
    requires PlainText(text, inString)
    ensures Closed(text, inString)
  {
    forall s | At(s, inString)
      ensures Scanned(s, text) == s && forall n :: 0 <= n <= |text| ==> Scanned(s, text[..n]).depth >= s.depth
    {
      PlainScans(s, text);
      forall n | 0 <= n <= |text| ensures Scanned(s, text[..n]).depth >= s.depth {
        PlainScans(s, text[..n]);
      }
    }
  }

  /** No control character, so no line break. */
  predicate Printable(text: Str) {
    forall i :: 0 <= i < |text| ==> text[i] >= 32
  }

  // -- inside a string -----------------------------------------------------

  lemma {:induction false} QuotedIsClosed(s: Str)
    ensures Closed(QuotedUnits(s), true)
    decreases |s|
  {
    hide Closed;
    if s == [] {
      PlainIsClosed([], true);
    } else if |s| > 1 && Lead(s[0]) && Trail(s[1]) {
      QuotedIsClosed(s[2..]);
      PairIsClosed(s[0], s[1]);
      ClosedBoth([s[0], s[1]], QuotedUnits(s[2..]), true);
    } else {
      QuotedIsClosed(s[1..]);
      UnitIsClosed(s[0]);
      ClosedBoth(QuotedUnit(s[0]), QuotedUnits(s[1..]), true);
    }
  }

  lemma PairIsClosed(c: CodeUnit, d: CodeUnit)
    requires Lead(c) && Trail(d)
    ensures Closed([c, d], true)
  {
    PlainIsClosed([c, d], true);
  }

  /** What follows a backslash does not close the string. */
  lemma EscapeIsClosed(c: CodeUnit)
    ensures Closed([92, c], true)
  {
    var t := [92, c];
    forall s | At(s, true)
      ensures Scanned(s, t) == s && forall n :: 0 <= n <= 2 ==> Scanned(s, t[..n]).depth >= s.depth
    {
      assert t == [92] + [c] && t[..0] == [] && t[..1] == [92] && t[..2] == t;
      ScannedJoin(s, [92], [c]);
      One(s, 92);
      One(s.(escaped := true), c);
    }
  }

  lemma UnitIsClosed(c: CodeUnit)
    ensures Closed(QuotedUnit(c), true)
  {
    hide Closed;
    var t := QuotedUnit(c);
    if |t| == 1 {
      PlainIsClosed(t, true);
    } else {
      EscapeIsClosed(t[1]);
      PlainIsClosed(t[2..], true);
      ClosedBoth([92, t[1]], t[2..], true);
      assert t == [92, t[1]] + t[2..];
    }
  }

  /** A quoted string is closed wherever it stands. */
  lemma QuotesClose(t: Str)
    requires Closed(t, true)
    ensures Closed([34] + t + [34], false)
  {
    var q := [34] + t + [34];
    forall s | At(s, false)
      ensures Scanned(s, q) == s && forall n :: 0 <= n <= |q| ==> Scanned(s, q[..n]).depth >= s.depth
    {
      var u := s.(inString := true);
      assert q == [34] + (t + [34]);
      ScannedJoin(s, [34], t + [34]);
      ScannedJoin(u, t, [34]);
      One(s, 34);
      One(u, 34);
      forall n | 0 <= n <= |q| ensures Scanned(s, q[..n]).depth >= s.depth {
        if 0 < n <= |t| + 1 {
          assert q[..n] == [34] + t[..n - 1];
          ScannedJoin(s, [34], t[..n - 1]);
          assert At(u, true);
          assert Scanned(u, t[..n - 1]).depth >= u.depth;
        } else if n > 0 {
          assert q[..n] == q;
        }
      }
    }
  }

  lemma One(s: Scan, c: CodeUnit)
    ensures Scanned(s, [c]) == Advance(s, c)
  {
    assert [c][1..] == [];
  }

  lemma StringIsClosed(s: Str)
    ensures Closed(Quoted(s), false)
  {
    QuotedIsClosed(s);
    QuotesClose(QuotedUnits(s));
  }

  // -- values --------------------------------------------------------------

  /** The text of an object is open from its first character to its last. */
  ghost predicate OpenInside(text: Str) {
    forall n :: 0 < n < |text| ==> Scanned(OUTSIDE, text[..n]).depth > 0
  }

  lemma BracesClose(t: Str)
    requires Closed(t, false)
    ensures Closed([123] + t + [125], false) && OpenInside([123] + t + [125])
  {
    var b := [123] + t + [125];
    assert b == [123] + (t + [125]);
    forall s | At(s, false)
      ensures Scanned(s, b) == s && forall n :: 0 < n < |b| ==> Scanned(s, b[..n]).depth > s.depth
    {
      var u := s.(depth := s.depth + 1);
      ScannedJoin(s, [123], t + [125]);
      ScannedJoin(u, t, [125]);
      One(s, 123);
      One(u, 125);
      assert At(u, false);
      forall n | 0 < n < |b| ensures Scanned(s, b[..n]).depth > s.depth {
        assert b[..n] == [123] + t[..n - 1];
        ScannedJoin(s, [123], t[..n - 1]);
      }
    }
    assert b[..0] == [] && b[..|b|] == b && At(OUTSIDE, false);
  }

  lemma PlainBoth(a: Str, b: Str)
    requires PlainText(a, false) && Printable(a) && PlainText(b, false) && Printable(b)
    ensures PlainText(a + b, false) && Printable(a + b)
  {
  }

  lemma NumeralUnits(n: Numeral)
    ensures PlainText(NumeralText(n), false) && Printable(NumeralText(n)) && NumeralText(n) != []
  {
    var sign: Str := if n.negative then [45] else [];
    var fraction: Str := if n.fraction == [] then [] else [46] + n.fraction;
    var exponent: Str :=
      match n.exponent
      case None => []
      case Some(e) => [101, if e.negative then 45 else 43] + e.digits;
    PlainBoth(sign, n.whole);
    PlainBoth(sign + n.whole, fraction);
    PlainBoth(sign + n.whole + fraction, exponent);
  }

  lemma {:induction false} ValueIsClosed(v: Value)
    ensures Closed(Stringify(v), false)
    decreases v, 0
  {
    hide Closed, NumeralText;
    match v
    case Null => PlainIsClosed(Stringify(v), false);
    case Bool(b) => PlainIsClosed(Stringify(v), false);
    case Number(numeral) =>
      NumeralUnits(numeral);
      PlainIsClosed(NumeralText(numeral), false);
    case String(units) => StringIsClosed(units);
    case Array(items) =>
      PlainIsClosed([91], false);
      PlainIsClosed([93], false);
      ItemsAreClosed(items);
      ClosedBoth([91], ItemTexts(items), false);
      ClosedBoth([91] + ItemTexts(items), [93], false);
    case Object(fields) =>
      FieldsAreClosed(fields);
      BracesClose(FieldTexts(fields));
  }

  lemma {:induction false} ItemsAreClosed(items: seq<Value>)
    ensures Closed(ItemTexts(items), false)
    decreases items, 1
  {
    hide Closed;
    if items == [] {
      PlainIsClosed([], false);
    } else {
      var text, comma := Stringify(items[0]), if |items| > 1 then [44] else [];
      ValueIsClosed(items[0]);
      PlainIsClosed(comma, false);
      ItemsAreClosed(items[1..]);
      ClosedBoth(text, comma, false);
      ClosedBoth(text + comma, ItemTexts(items[1..]), false);
    }
  }

  lemma {:induction false} FieldsAreClosed(fields: seq<Field>)
    ensures Closed(FieldTexts(fields), false)
    decreases fields, 1
  {
    hide Closed;
    if fields == [] {
      PlainIsClosed([], false);
    } else {
      var name, text := Quoted(fields[0].name), Stringify(fields[0].value);
      var comma := if |fields| > 1 then [44] else [];
      StringIsClosed(fields[0].name);
      ValueIsClosed(fields[0].value);
      PlainIsClosed([58], false);
      PlainIsClosed(comma, false);
      FieldsAreClosed(fields[1..]);
      ClosedBoth(name, [58], false);
      ClosedBoth(name + [58], text, false);
      ClosedBoth(name + [58] + text, comma, false);
      ClosedBoth(name + [58] + text + comma, FieldTexts(fields[1..]), false);
    }
  }

  // -- one line ------------------------------------------------------------

  lemma {:induction false} QuotedIsPrintable(s: Str)
    ensures Printable(QuotedUnits(s))
    decreases |s|
  {
    if s == [] {
    } else if |s| > 1 && Lead(s[0]) && Trail(s[1]) {
      QuotedIsPrintable(s[2..]);
    } else {
      QuotedIsPrintable(s[1..]);
      UnitIsPrintable(s[0]);
      hide QuotedUnit;
    }
  }

  lemma UnitIsPrintable(c: CodeUnit)
    ensures Printable(QuotedUnit(c))
  {
  }

  lemma {:induction false} ValueIsPrintable(v: Value)
    ensures Printable(Stringify(v)) && Stringify(v) != []
    decreases v, 0
  {
    hide NumeralText, QuotedUnits;
    match v
    case Array(items) => ItemsArePrintable(items);
    case Object(fields) => FieldsArePrintable(fields);
    case String(units) => QuotedIsPrintable(units);
    case Number(numeral) => NumeralUnits(numeral);
    case _ =>
  }

  lemma {:induction false} ItemsArePrintable(items: seq<Value>)
    ensures Printable(ItemTexts(items))
    decreases items, 1
  {
    if items != [] {
      ValueIsPrintable(items[0]);
      ItemsArePrintable(items[1..]);
    }
  }

  lemma {:induction false} FieldsArePrintable(fields: seq<Field>)
    ensures Printable(FieldTexts(fields))
    decreases fields, 1
  {
    if fields != [] {
      QuotedIsPrintable(fields[0].name);
      ValueIsPrintable(fields[0].value);
      FieldsArePrintable(fields[1..]);
    }
  }

  /**
   * What JSON.stringify writes of an object, whatever is in it, is a line of
   * text that is closed as a whole and has a brace open after every shorter prefix.
   */
  lemma ObjectText(fields: seq<Field>)
    ensures
      var text := Stringify(Object(fields));
      && text != [] && text[0] == 123 && Printable(text) && Scanned(OUTSIDE, text) == OUTSIDE
      && forall n :: 0 < n < |text| ==> Scanned(OUTSIDE, text[..n]).depth > 0
  {
    FieldsAreClosed(fields);
    BracesClose(FieldTexts(fields));
    ValueIsPrintable(Object(fields));
  }
}
