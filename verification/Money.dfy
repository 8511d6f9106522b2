/** Amounts as decimal text (src/core/money.ts). */
module Money {
  import opened Text
  import opened Options

  /** What trim() removes. */
  predicate Blank(c: CodeUnit) {
    || 9 <= c <= 13 || c == 32 || c == 0xA0 || c == 0x1680 || 0x2000 <= c <= 0x200A || c == 0x2028 || c == 0x2029
    || c == 0x202F || c == 0x205F || c == 0x3000 || c == 0xFEFF
  }

  predicate Blanks(s: Str) { forall c :: c in s ==> Blank(c) }

  function Trim(s: Str): Str
    decreases |s|
  {
    if s != [] && Blank(s[0]) then Trim(s[1..])
    else if s != [] && Blank(s[|s| - 1]) then Trim(s[..|s| - 1])
    else s
  }

  predicate Digit(c: CodeUnit) { 48 <= c <= 57 }
  predicate AllDigits(s: Str) { forall i :: 0 <= i < |s| ==> Digit(s[i]) }

  /** How many digits a text starts with. */
  function Leading(s: Str): nat {
    if s != [] && Digit(s[0]) then 1 + Leading(s[1..]) else 0
  }

  lemma {:induction false} LeadingDigits(s: Str)
    ensures Leading(s) <= |s| && AllDigits(s[..Leading(s)])
  {
    if s != [] && Digit(s[0]) {
      LeadingDigits(s[1..]);
      assert forall i :: 1 <= i < Leading(s) ==> s[i] == s[1..][..Leading(s) - 1][i - 1];
    }
  }

  function Number(s: Str): nat
    requires AllDigits(s)
  {
    if s == [] then 0 else 10 * Number(s[..|s| - 1]) + (s[|s| - 1] - 48)
  }

  /** cents(): an optional sign, digits, and at most two decimals; nothing else. */
  function Cents(s: Str): Option<int> { Parsed(Trim(s)) }

  function Parsed(t: Str): Option<int> {
    if t != [] && t[0] == 45 then
      var r := Unsigned(t[1..]);
      if r.Some? then Some(-r.value) else None
    else Unsigned(t)
  }

  function Unsigned(u: Str): Option<int> {
    LeadingDigits(u);
    Decimals(u[..Leading(u)], u[Leading(u)..])
  }

  function Decimals(whole: Str, rest: Str): Option<int>
    requires AllDigits(whole)
  {
    if whole == [] then None
    else if rest == [] then Some(Number(whole) * 100)
    else if rest[0] == 46 && 2 <= |rest| <= 3 && AllDigits(rest[1..]) then
      Some(Number(whole) * 100 + Hundredths(rest[1..]))
    else None
  }

  /** padEnd(2, "0") */
  function Hundredths(s: Str): nat
    requires AllDigits(s) && |s| <= 2
  {
    if |s| == 1 then 10 * Number(s) else Number(s)
  }

  /** formatCents() */
  function FormatCents(c: int): Str {
    var a := if c < 0 then -c else c;
    (if c < 0 then [45] else []) + (Digits(a / 100) + [46, 48 + a % 100 / 10, 48 + a % 100 % 10])
  }

  lemma {:induction false} DigitsRead(n: nat)
    ensures AllDigits(Digits(n)) && Digits(n) != [] && Number(Digits(n)) == n
  {
    if n >= 10 {
      DigitsRead(n / 10);
      assert Digits(n)[..|Digits(n)| - 1] == Digits(n / 10);
    } else {
      assert [48 + n][..0] == [];
    }
  }

  lemma {:induction false} LeadingAll(d: Str, rest: Str)
    requires AllDigits(d) && (rest != [] ==> !Digit(rest[0]))
    ensures Leading(d + rest) == |d|
  {
    if d == [] {
      assert d + rest == rest;
    } else {
      assert (d + rest)[1..] == d[1..] + rest;
      LeadingAll(d[1..], rest);
    }
  }

  lemma {:induction false} TrimBefore(before: Str, s: Str)
    requires Blanks(before)
    ensures Trim(before + s) == Trim(s)
  {
    if before == [] {
      assert before + s == s;
    } else {
      assert (before + s)[1..] == before[1..] + s && (before + s)[0] == before[0];
      TrimBefore(before[1..], s);
    }
  }

  lemma {:induction false} TrimAfter(s: Str, after: Str)
    requires Blanks(after) && s != [] && !Blank(s[0]) && !Blank(s[|s| - 1])
    ensures Trim(s + after) == s
    decreases |after|
  {
    var t := s + after;
    if after == [] {
      assert t == s;
    } else {
      var n := |after| - 1;
      assert t[..|t| - 1] == s + after[..n] && t[|t| - 1] == after[n] && t[0] == s[0];
      TrimAfter(s, after[..n]);
    }
  }

  lemma TwoDigits(k: nat)
    requires k < 100
    ensures AllDigits([48 + k / 10, 48 + k % 10]) && Number([48 + k / 10, 48 + k % 10]) == k
  {
    var d: Str := [48 + k / 10, 48 + k % 10];
    assert d[..1] == [48 + k / 10];
    assert d[..1][..0] == [];
    assert Number(d[..1]) == k / 10;
  }

  /** A whole part and two decimals parse as such. */
  lemma UnsignedParts(whole: Str, rest: Str)
    requires AllDigits(whole) && (rest != [] ==> !Digit(rest[0]))
    ensures Unsigned(whole + rest) == Decimals(whole, rest)
  {
    LeadingAll(whole, rest);
    hide Leading, Decimals, AllDigits;
    assert (whole + rest)[..|whole|] == whole && (whole + rest)[|whole|..] == rest;
  }

  lemma TwoDecimals(whole: Str, x: CodeUnit, y: CodeUnit)
    requires AllDigits(whole) && whole != [] && AllDigits([x, y])
    ensures Decimals(whole, [46, x, y]) == Some(Number(whole) * 100 + Number([x, y]))
  {
    hide Number;
    var rest: Str := [46, x, y];
    assert rest[1..] == [x, y];
  }

  lemma FormattedParses(c: int)
    ensures Parsed(FormatCents(c)) == Some(c)
  {
    hide Digits, Number, Unsigned, Decimals;
    var a: nat := if c < 0 then -c else c;
    var whole, x, y := Digits(a / 100), 48 + a % 100 / 10, 48 + a % 100 % 10;
    DigitsRead(a / 100);
    TwoDigits(a % 100);
    UnsignedParts(whole, [46, x, y]);
    TwoDecimals(whole, x, y);
    var u: Str := whole + [46, x, y];
    assert u[0] == whole[0] && Digit(whole[0]);
    if c < 0 {
      assert ([45] + u)[1..] == u;
    } else {
      assert [] + u == u;
    }
  }

  lemma FormattedHasNoBlanks(c: int)
    ensures var s := FormatCents(c); s != [] && !Blank(s[0]) && !Blank(s[|s| - 1])
  {
    var a := if c < 0 then -c else c;
    DigitsRead(a / 100);
    assert Digit(Digits(a / 100)[0]);
    hide Digits;
  }

  /** The text of an amount, with any blanks around it, reads back as the amount. */
  lemma FormattedReadsBack(c: int, before: Str, after: Str)
    requires Blanks(before) && Blanks(after)
    ensures Cents(before + FormatCents(c) + after) == Some(c)
  {
    hide FormatCents, Trim, Parsed, Blank;
    FormattedParses(c);
    FormattedHasNoBlanks(c);
    TrimBefore(before, FormatCents(c) + after);
    TrimAfter(FormatCents(c), after);
    assert before + FormatCents(c) + after == before + (FormatCents(c) + after);
  }

  // -- every text ----------------------------------------------------------

  /** An amount as it may be written: an optional minus, digits, and one or two decimals or none. */
  function Written(minus: bool, whole: Str, decimals: Str): Str {
    (if minus then [45] else []) + (whole + (if decimals == [] then [] else [46] + decimals))
  }

  predicate Amount(whole: Str, decimals: Str) {
    AllDigits(whole) && whole != [] && AllDigits(decimals) && |decimals| <= 2
  }

  /** What it is worth: one decimal counts tenths, two count hundredths. */
  function Worth(minus: bool, whole: Str, decimals: Str): int
    requires Amount(whole, decimals)
  {
    var cents := 100 * Number(whole) + (if |decimals| == 1 then 10 * Number(decimals) else Number(decimals));
    if minus then -cents else cents
  }

  lemma DecimalsRead(whole: Str, decimals: Str)
    requires Amount(whole, decimals)
    ensures
      Decimals(whole, if decimals == [] then [] else [46] + decimals) == Some(Worth(false, whole, decimals))
  {
    hide Number;
    assert ([46] + decimals)[1..] == decimals;
    assert Number([]) == 0 by { NumberOfNothing(); }
  }

  lemma NumberOfNothing()
    ensures Number([]) == 0
  {
  }

  /** Every such text, with any blanks around it, reads as what it is worth. */
  lemma AmountReads(before: Str, minus: bool, whole: Str, decimals: Str, after: Str)
    requires Blanks(before) && Blanks(after) && Amount(whole, decimals)
    ensures Cents(before + Written(minus, whole, decimals) + after) == Some(Worth(minus, whole, decimals))
  {
    hide Trim, Number, Unsigned, Decimals, Leading, Blank;
    var rest := if decimals == [] then [] else [46] + decimals;
    var u := whole + rest;
    UnsignedParts(whole, rest);
    DecimalsRead(whole, decimals);
    assert u[0] == whole[0] && Digit(whole[0]);
    var t := Written(minus, whole, decimals);
    if minus {
      assert ([45] + u)[1..] == u;
    } else {
      assert [] + u == u;
    }
    WrittenHasNoBlanks(minus, whole, decimals);
    TrimBefore(before, t + after);
    TrimAfter(t, after);
    assert before + t + after == before + (t + after);
  }

  lemma WrittenHasNoBlanks(minus: bool, whole: Str, decimals: Str)
    requires Amount(whole, decimals)
    ensures var s := Written(minus, whole, decimals); s != [] && !Blank(s[0]) && !Blank(s[|s| - 1])
  {
    var s := Written(minus, whole, decimals);
    if decimals == [] {
      assert s[|s| - 1] == whole[|whole| - 1];
    } else {
      assert s[|s| - 1] == decimals[|decimals| - 1];
    }
    assert s[0] == if minus then 45 else whole[0];
  }

  /** And nothing else reads: a text that gives an amount is one of these, but for blanks around it. */
  lemma OnlyAmountsRead(s: Str) returns (minus: bool, whole: Str, decimals: Str)
    requires Cents(s).Some?
    ensures Amount(whole, decimals) && Trim(s) == Written(minus, whole, decimals)
  {
    hide Number, Trim;
    var t := Trim(s);
    minus := t != [] && t[0] == 45;
    var u := if minus then t[1..] else t;
    LeadingDigits(u);
    whole := u[..Leading(u)];
    var rest := u[Leading(u)..];
    decimals := if rest == [] then [] else rest[1..];
    assert u == whole + rest;
    assert rest != [] ==> rest == [46] + decimals;
    assert t == (if minus then [45] else []) + u;
  }

  // -- integers and percents -----------------------------------------------

  /** `${n}` is the shortest decimal text of n. */
  lemma DecimalReads(n: nat)
    ensures AllDigits(Decimal(n)) && Number(Decimal(n)) == n && (n >= 1 ==> Decimal(n)[0] != 48)
    ensures n >= 1 ==> Decimal(0 - n) == [45] + Decimal(n)
  {
    DigitsRead(n);
    FirstDigit(n);
  }

  lemma {:induction false} FirstDigit(n: nat)
    ensures n >= 1 ==> Digits(n)[0] != 48
  {
    if n >= 10 {
      FirstDigit(n / 10);
      DigitsRead(n / 10);
    }
  }

  /** A percent is written with two decimals, and reads back as its hundredths. */
  lemma PercentReads(p: int)
    ensures Percent(p) == FormatCents(p) && Parsed(Percent(p)) == Some(p)
    ensures |Percent(p)| >= 4 && Percent(p)[|Percent(p)| - 3] == 46
  {
    FormattedParses(p);
    var a := if p < 0 then -p else p;
    DigitsRead(a / 100);
    Tens(a);
    hide Digits, Parsed, Number, AllDigits;
  }

  lemma Tens(a: nat)
    ensures a / 10 % 10 == a % 100 / 10 && a % 10 == a % 100 % 10
  {
    var q, r := a / 100, a % 100;
    assert a == 100 * q + r;
    assert a / 10 == 10 * q + r / 10;
  }
}
