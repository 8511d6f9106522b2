/**
 * Receipt taxes and fiscal-day counters in integer cents (src/core/device.ts).
 * Tax percents are held in hundredths.
 */
module Ledger {
  import opened Text
  import opened Options
  import opened Lexicographic
  import Utf8
  import opened Rounding
  import opened Sorting

  datatype ReceiptType = FiscalInvoice | CreditNote | DebitNote
  datatype MoneyType = Cash | Card | MobileWallet | Coupon | Credit | BankTransfer | Other
  datatype CounterKind =
    | SaleByTax | SaleTaxByTax | CreditNoteByTax | CreditNoteTaxByTax
    | DebitNoteByTax | DebitNoteTaxByTax | BalanceByMoneyType | PayoutByTax | PayoutTaxByTax

  datatype Line = Line(total: int, taxID: int, taxPercent: Option<int>, taxCode: Option<Str>)
  datatype Tax = Tax(taxCode: Option<Str>, taxPercent: Option<int>, taxID: int, taxAmount: int, sales: int)
  datatype Payment = Payment(moneyType: MoneyType, amount: int)
  datatype Counter = Counter(kind: CounterKind, currency: Str, taxPercent: Option<int>, taxID: Option<int>,
                             moneyType: Option<MoneyType>, value: int)

  /** The parts of a receipt that its totals and counters depend on. */
  datatype Bill = Bill(receiptType: ReceiptType, currency: Str, inclusive: bool, lines: seq<Line>,
                       taxes: seq<Tax>, payments: seq<Payment>, total: int)

  // -- receipt taxes -------------------------------------------------------

  /** What keeps two lines in one group: `${taxID}|${taxPercent}|${taxCode}`. */
  datatype GroupKey = GroupKey(taxID: int, taxPercent: Option<int>, taxCode: Str)

  function CodeOf(c: Option<Str>): Str { if c.Some? then c.value else [] }
  function LineKey(l: Line): GroupKey { GroupKey(l.taxID, l.taxPercent, CodeOf(l.taxCode)) }
  function TaxKey(t: Tax): GroupKey { GroupKey(t.taxID, t.taxPercent, CodeOf(t.taxCode)) }

  function LineTax(l: Line, inclusive: bool): TaxResult {
    LineTaxCents(l.total, if l.taxPercent.Some? then l.taxPercent.value else 0, inclusive)
  }

  /** A line's amount with tax. */
  function LineSales(l: Line, tax: int, inclusive: bool): int {
    if inclusive then l.total else l.total + tax
  }

  /** The group of a line grown by it, or a new group at the end. */
  function Put(groups: seq<Tax>, l: Line, tax: int, sales: int): seq<Tax> {
    if groups == [] then [Tax(l.taxCode, l.taxPercent, l.taxID, tax, sales)]
    else if TaxKey(groups[0]) == LineKey(l) then
      [groups[0].(taxAmount := groups[0].taxAmount + tax, sales := groups[0].sales + sales)] + groups[1..]
    else [groups[0]] + Put(groups[1..], l, tax, sales)
  }

  /** The groups in the order their first lines came, None when a line's tax is out of range. */
  function Grouped(lines: seq<Line>, inclusive: bool): Option<seq<Tax>> {
    if lines == [] then Some([])
    else
      var l := lines[|lines| - 1];
      match Grouped(lines[..|lines| - 1], inclusive)
      case None => None
      case Some(g) =>
        match LineTax(l, inclusive)
        case RangeError => None
        case Cents(c) => Some(Put(g, l, c, LineSales(l, c, inclusive)))
  }

  /** taxID ascending, then taxCode by code point, a missing code first. */
  function CompareReceiptTaxes(a: Tax, b: Tax): int {
    if a.taxID != b.taxID then a.taxID - b.taxID
    else Lex(Utf8.CodePoints(CodeOf(a.taxCode)), Utf8.CodePoints(CodeOf(b.taxCode)))
  }

  function ReceiptTaxes(lines: seq<Line>, inclusive: bool): Option<seq<Tax>> {
    match Grouped(lines, inclusive)
    case None => None
    case Some(g) => Some(Sort(CompareReceiptTaxes, g))
  }

  method BuildReceiptTaxes(lines: seq<Line>, inclusive: bool) returns (r: Option<seq<Tax>>)
    ensures r == ReceiptTaxes(lines, inclusive)
  {
    var groups: seq<Tax> := [];
    for i := 0 to |lines|
      invariant Grouped(lines[..i], inclusive) == Some(groups)
    {
      var line := lines[i];
      assert lines[..i + 1][..i] == lines[..i];
      var tax := LineTax(line, inclusive);
      if tax.RangeError? {
        OneBadLine(lines, i + 1, inclusive);
        return None;
      }
      groups := Put(groups, line, tax.cents, LineSales(line, tax.cents, inclusive));
    }
    assert lines[..|lines|] == lines;
    r := Some(Sort(CompareReceiptTaxes, groups));
  }

  lemma {:induction false} OneBadLine(lines: seq<Line>, n: nat, inclusive: bool)
    requires n <= |lines| && Grouped(lines[..n], inclusive).None?
    ensures Grouped(lines, inclusive).None?
    decreases |lines| - n
  {
    if n == |lines| {
      assert lines[..n] == lines;
    } else {
      assert lines[..n + 1][..n] == lines[..n];
      OneBadLine(lines, n + 1, inclusive);
    }
  }

  // -- what grouping conserves ---------------------------------------------

  /** A total one may ask for: tax or sales, of one group or of all. */
  datatype Measure = Measure(sales: bool, group: Option<GroupKey>)

  function OfTax(m: Measure, t: Tax): int {
    if m.group.Some? && m.group.value != TaxKey(t) then 0 else if m.sales then t.sales else t.taxAmount
  }

  function OfLine(m: Measure, l: Line, inclusive: bool): int {
    if (m.group.Some? && m.group.value != LineKey(l)) || LineTax(l, inclusive).RangeError? then 0
    else if m.sales then LineSales(l, LineTax(l, inclusive).cents, inclusive)
    else LineTax(l, inclusive).cents
  }

  function SumOfTaxes(m: Measure, ts: seq<Tax>): int {
    if ts == [] then 0 else SumOfTaxes(m, ts[..|ts| - 1]) + OfTax(m, ts[|ts| - 1])
  }

  function SumOfLines(m: Measure, ls: seq<Line>, inclusive: bool): int {
    if ls == [] then 0 else SumOfLines(m, ls[..|ls| - 1], inclusive) + OfLine(m, ls[|ls| - 1], inclusive)
  }

  predicate KeysDistinct(ts: seq<Tax>) {
    forall i, j :: 0 <= i < j < |ts| ==> TaxKey(ts[i]) != TaxKey(ts[j])
  }

  lemma {:induction false} SumFromFront(m: Measure, t: Tax, ts: seq<Tax>)
    ensures SumOfTaxes(m, [t] + ts) == OfTax(m, t) + SumOfTaxes(m, ts)
  {
    if ts == [] {
      assert ([t] + ts)[..0] == [];
    } else {
      assert ([t] + ts)[..|ts|] == [t] + ts[..|ts| - 1];
      SumFromFront(m, t, ts[..|ts| - 1]);
    }
  }

  lemma {:induction false} PutAdds(m: Measure, g: seq<Tax>, l: Line, tax: int, sales: int)
    ensures SumOfTaxes(m, Put(g, l, tax, sales)) == SumOfTaxes(m, g)
      + OfTax(m, Tax(l.taxCode, l.taxPercent, l.taxID, tax, sales))
  {
    if g != [] {
      assert g == [g[0]] + g[1..];
      SumFromFront(m, g[0], g[1..]);
      SumFromFront(m, Put(g, l, tax, sales)[0], Put(g, l, tax, sales)[1..]);
      if TaxKey(g[0]) == LineKey(l) {
        assert Put(g, l, tax, sales)[1..] == g[1..];
      } else {
        assert Put(g, l, tax, sales)[1..] == Put(g[1..], l, tax, sales);
        PutAdds(m, g[1..], l, tax, sales);
      }
    } else {
      SumFromFront(m, Put(g, l, tax, sales)[0], []);
      assert Put(g, l, tax, sales) == [Put(g, l, tax, sales)[0]] + [];
    }
  }

  /** Putting a line in keeps every group's key, and adds at most its own. */
  lemma {:induction false} PutKeepsKeys(g: seq<Tax>, l: Line, tax: int, sales: int)
    requires KeysDistinct(g)
    ensures var r := Put(g, l, tax, sales);
            && KeysDistinct(r) && |g| <= |r| <= |g| + 1
            && (forall i :: 0 <= i < |g| ==> TaxKey(r[i]) == TaxKey(g[i]))
            && (|r| > |g| ==> TaxKey(r[|g|]) == LineKey(l))
  {
    if g != [] && TaxKey(g[0]) != LineKey(l) {
      PutKeepsKeys(g[1..], l, tax, sales);
      var r := Put(g, l, tax, sales);
      assert forall i :: 1 <= i < |g| ==> TaxKey(r[i]) == TaxKey(g[i]) by {
        assert forall i :: 1 <= i < |g| ==> r[i] == Put(g[1..], l, tax, sales)[i - 1] && g[i] == g[1..][i - 1];
      }
    }
  }

  lemma {:induction false} SumOfInsert(m: Measure, s: seq<Tax>, x: Tax)
    ensures SumOfTaxes(m, Insert(CompareReceiptTaxes, s, x)) == SumOfTaxes(m, s) + OfTax(m, x)
  {
    if s == [] || CompareReceiptTaxes(s[|s| - 1], x) <= 0 {
      assert (s + [x])[..|s|] == s;
    } else {
      SumOfInsert(m, s[..|s| - 1], x);
      var r := Insert(CompareReceiptTaxes, s[..|s| - 1], x);
      assert (r + [s[|s| - 1]])[..|r|] == r;
    }
  }

  lemma {:induction false} SumOfSort(m: Measure, s: seq<Tax>)
    ensures SumOfTaxes(m, Sort(CompareReceiptTaxes, s)) == SumOfTaxes(m, s)
  {
    if s != [] {
      SumOfSort(m, s[..|s| - 1]);
      SumOfInsert(m, Sort(CompareReceiptTaxes, s[..|s| - 1]), s[|s| - 1]);
    }
  }

  lemma {:induction false} GroupedConserves(m: Measure, lines: seq<Line>, inclusive: bool)
    requires Grouped(lines, inclusive).Some?
    ensures SumOfTaxes(m, Grouped(lines, inclusive).value) == SumOfLines(m, lines, inclusive)
    ensures KeysDistinct(Grouped(lines, inclusive).value)
  {
    if lines != [] {
      var p, l := lines[..|lines| - 1], lines[|lines| - 1];
      GroupedConserves(m, p, inclusive);
      var tax := LineTax(l, inclusive).cents;
      PutAdds(m, Grouped(p, inclusive).value, l, tax, LineSales(l, tax, inclusive));
      PutKeepsKeys(Grouped(p, inclusive).value, l, tax, LineSales(l, tax, inclusive));
    }
  }

  /**
   * The tax summary has one entry a group, and in each group and in all it adds
   * up to exactly the lines' own tax and their amounts with tax.
   */
  lemma ReceiptTaxesConserve(m: Measure, lines: seq<Line>, inclusive: bool)
    requires ReceiptTaxes(lines, inclusive).Some?
    ensures SumOfTaxes(m, ReceiptTaxes(lines, inclusive).value) == SumOfLines(m, lines, inclusive)
    ensures KeysDistinct(ReceiptTaxes(lines, inclusive).value)
  {
    var g := Grouped(lines, inclusive).value;
    GroupedConserves(m, lines, inclusive);
    SumOfSort(m, g);
    SortKeepsDistinct(g);
  }

  /** Taxes fail exactly when some line's does. */
  lemma {:induction false} GroupedIff(lines: seq<Line>, inclusive: bool)
    ensures Grouped(lines, inclusive).Some? <==> forall l :: l in lines ==> LineTax(l, inclusive).Cents?
  {
    hide LineTax, Put;
    if lines != [] {
      var init, l := lines[..|lines| - 1], lines[|lines| - 1];
      GroupedIff(init, inclusive);
      assert lines == init + [l];
    }
  }

  lemma {:induction false} InsertKeepsDistinct(s: seq<Tax>, x: Tax)
    requires KeysDistinct(s) && forall i :: 0 <= i < |s| ==> TaxKey(s[i]) != TaxKey(x)
    ensures KeysDistinct(Insert(CompareReceiptTaxes, s, x))
    ensures forall y :: y in Insert(CompareReceiptTaxes, s, x) <==> y in s || y == x
  {
    if s != [] && CompareReceiptTaxes(s[|s| - 1], x) > 0 {
      var p, last := s[..|s| - 1], s[|s| - 1];
      InsertKeepsDistinct(p, x);
      assert s == p + [last];
      var r := Insert(CompareReceiptTaxes, p, x);
      forall i | 0 <= i < |r| ensures TaxKey(r[i]) != TaxKey(last) {
        assert r[i] in r;
        if r[i] != x {
          assert r[i] in p;
        }
      }
    }
  }

  lemma {:induction false} SortKeepsDistinct(s: seq<Tax>)
    requires KeysDistinct(s)
    ensures KeysDistinct(Sort(CompareReceiptTaxes, s))
    ensures forall y :: y in Sort(CompareReceiptTaxes, s) <==> y in s
  {
    if s != [] {
      var p, x := s[..|s| - 1], s[|s| - 1];
      SortKeepsDistinct(p);
      var q := Sort(CompareReceiptTaxes, p);
      forall i | 0 <= i < |q| ensures TaxKey(q[i]) != TaxKey(x) {
        assert q[i] in p;
      }
      InsertKeepsDistinct(q, x);
      assert s == p + [x];
    }
  }

  // -- bills ---------------------------------------------------------------

  const ALL_TAX := Measure(false, None)
  const ALL_SALES := Measure(true, None)

  function LinesTotal(ls: seq<Line>): int {
    if ls == [] then 0 else LinesTotal(ls[..|ls| - 1]) + ls[|ls| - 1].total
  }

  function PaymentsTotal(ps: seq<Payment>): int {
    if ps == [] then 0 else PaymentsTotal(ps[..|ps| - 1]) + ps[|ps| - 1].amount
  }

  /** The total that the lines and, on net prices, their tax come to. */
  function TotalDue(lines: seq<Line>, taxes: seq<Tax>, inclusive: bool): int {
    LinesTotal(lines) + (if inclusive then 0 else SumOfTaxes(ALL_TAX, taxes))
  }

  /** A bill as signReceipt makes it: taxes from the lines, payments covering the total. */
  predicate Balanced(b: Bill) {
    && ReceiptTaxes(b.lines, b.inclusive) == Some(b.taxes)
    && b.total == TotalDue(b.lines, b.taxes, b.inclusive)
    && b.total == PaymentsTotal(b.payments)
  }

  lemma {:induction false} SalesAreLinesPlusTax(ls: seq<Line>, inclusive: bool)
    requires Grouped(ls, inclusive).Some?
    ensures SumOfLines(ALL_SALES, ls, inclusive)
         == LinesTotal(ls) + (if inclusive then 0 else SumOfLines(ALL_TAX, ls, inclusive))
  {
    if ls != [] {
      SalesAreLinesPlusTax(ls[..|ls| - 1], inclusive);
    }
  }

  /** In both tax modes the tax entries' sales come to the total, and so do the payments. */
  lemma BillBalances(b: Bill)
    requires Balanced(b)
    ensures SumOfTaxes(ALL_SALES, b.taxes) == b.total == PaymentsTotal(b.payments)
  {
    ReceiptTaxesConserve(ALL_SALES, b.lines, b.inclusive);
    ReceiptTaxesConserve(ALL_TAX, b.lines, b.inclusive);
    SalesAreLinesPlusTax(b.lines, b.inclusive);
  }
}
