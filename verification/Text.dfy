/** Strings as the source language has them: sequences of 16-bit code units. */
module Text {

  type CodeUnit = c: int | 0 <= c < 0x10000
  type Byte = b: int | 0 <= b < 0x100

  /** A string: any sequence of code units, well formed or not. */
  type Str = seq<CodeUnit>

  /** An ASCII literal; there is no other character in one. */
  function Lit(s: string): Str {
    seq(|s|, i requires 0 <= i < |s| => AsciiUnit(s[i]))
  }

  function AsciiUnit(c: char): CodeUnit {
    if c as int < 0x80 then c as int else 0xFFFD
  }

  function Digits(n: nat): Str {
    if n < 10 then [48 + n] else Digits(n / 10) + [48 + n % 10]
  }

  /** An integer as `${n}` prints it. */
  function Decimal(n: int): Str {
    if n < 0 then [45] + Digits(-n) else Digits(n)
  }

  /** A tax percent held in hundredths, as toFixed(2) prints it. */
  function Percent(bp: int): Str {
    var a := if bp < 0 then -bp else bp;
    (if bp < 0 then [45] else []) + Digits(a / 100) + [46, 48 + a / 10 % 10, 48 + a % 10]
  }

  /** toUpperCase() on ASCII letters; every other unit is left alone. */
  function Upper(s: Str): (u: Str)
    ensures |u| == |s|
  {
    seq(|s|, i requires 0 <= i < |s| => UpperUnit(s[i]))
  }

  function UpperUnit(c: CodeUnit): CodeUnit {
    if 97 <= c <= 122 then c - 32 else c
  }

  lemma UpperTwice(s: Str)
    ensures Upper(Upper(s)) == Upper(s)
  {
    assert forall i :: 0 <= i < |s| ==> Upper(Upper(s))[i] == Upper(s)[i];
  }
}

/** Sequences of integers in lexicographic order, a proper prefix first. */
module Lexicographic {

  function Lex(a: seq<int>, b: seq<int>): (r: int)
    ensures -1 <= r <= 1
  {
    if a == [] || b == [] then
      if a == b then 0 else if a == [] then -1 else 1
    else if a[0] != b[0] then
      if a[0] < b[0] then -1 else 1
    else
      Lex(a[1..], b[1..])
  }

  /** a ends first as a beginning of b, or is smaller where they first differ. */
  ghost predicate Sooner(a: seq<int>, b: seq<int>) {
    || (|a| < |b| && b[..|a|] == a)
    || exists i :: 0 <= i < |a| && i < |b| && a[..i] == b[..i] && a[i] < b[i]
  }

  lemma {:induction false} LexMeans(a: seq<int>, b: seq<int>)
    ensures Lex(a, b) < 0 <==> Sooner(a, b)
  {
    if a != [] && b != [] && a[0] == b[0] {
      var x, y := a[1..], b[1..];
      LexMeans(x, y);
      assert a == [a[0]] + x && b == [a[0]] + y;
      if i :| 0 <= i < |x| && i < |y| && x[..i] == y[..i] && x[i] < y[i] {
        assert a[..i + 1] == [a[0]] + x[..i] && b[..i + 1] == [a[0]] + y[..i];
        assert a[i + 1] < b[i + 1];
      }
      if i :| 0 <= i < |a| && i < |b| && a[..i] == b[..i] && a[i] < b[i] {
        assert x[..i - 1] == a[..i][1..] && y[..i - 1] == b[..i][1..];
        assert x[i - 1] < y[i - 1];
      }
    } else if a != [] && b != [] {
      assert a[..0] == b[..0];
      if i :| 0 <= i < |a| && i < |b| && a[..i] == b[..i] && a[i] < b[i] {
        if i > 0 {
          assert a[..i][0] == b[..i][0];
        }
      }
    }
  }

  lemma {:induction false} LexCommonHead(p: seq<int>, a: seq<int>, b: seq<int>)
    ensures Lex(p + a, p + b) == Lex(a, b)
  {
    if p == [] {
      assert p + a == a && p + b == b;
    } else {
      assert (p + a)[1..] == p[1..] + a && (p + b)[1..] == p[1..] + b;
      LexCommonHead(p[1..], a, b);
    }
  }

  lemma {:induction false} LexAntisymmetric(a: seq<int>, b: seq<int>)
    ensures Lex(a, b) == -Lex(b, a)
    ensures Lex(a, b) == 0 <==> a == b
  {
    if a != [] && b != [] && a[0] == b[0] {
      LexAntisymmetric(a[1..], b[1..]);
      assert a == [a[0]] + a[1..] && b == [b[0]] + b[1..];
    }
  }

  lemma {:induction false} LexTransitive(a: seq<int>, b: seq<int>, c: seq<int>)
    requires Lex(a, b) <= 0 && Lex(b, c) <= 0
    ensures Lex(a, c) <= 0
    ensures Lex(a, b) < 0 || Lex(b, c) < 0 ==> Lex(a, c) < 0
  {
    if a != [] && b != [] && c != [] && a[0] == b[0] == c[0] {
      LexTransitive(a[1..], b[1..], c[1..]);
    }
  }
}

/** An optional value, for what the source leaves null or undefined. */
module Options {
  datatype Option<+T> = None | Some(value: T)
}
