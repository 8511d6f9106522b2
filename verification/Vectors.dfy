/** Known answers (vectors/zimra-fdms-vectors.json) that fix the order and form of the signed fields. */
module Vectors {
  import opened Text
  import opened Options
  import opened Lexicographic
  import opened Sorting
  import opened Ledger
  import opened Counters
  import opened Signing
  import Utf8

  lemma Join(s: string, t: string)
    ensures Lit(s + t) == Lit(s) + Lit(t)
  {
  }

  // -- a receipt -----------------------------------------------------------

  lemma DeviceText()
    ensures Decimal(37367) == Lit("37367")
  {
    assert Digits(3) == [51] && Digits(37) == [51, 55] && Digits(373) == [51, 55, 51];
    assert Digits(3736) == [51, 55, 51, 54];
  }

  lemma TotalText()
    ensures Decimal(11500) == Lit("11500")
  {
    assert Digits(1) == [49] && Digits(11) == [49, 49] && Digits(115) == [49, 49, 53];
    assert Digits(1150) == [49, 49, 53, 48];
  }

  lemma TaxAmountText()
    ensures Decimal(1500) == Lit("1500") && PercentText(Some(1500)) == Lit("15.00") && Decimal(27) == Lit("27")
  {
    assert Digits(1) == [49] && Digits(15) == [49, 53] && Digits(150) == [49, 53, 48] && Digits(2) == [50];
  }

  lemma OneTax(t: Tax)
    ensures ConcatenateReceiptTaxes([t]) == TaxText(t)
  {
    assert [t][..0] == [] && [t][1..] == [];
    assert Sort(CompareReceiptTaxes, [t]) == [t];
    assert TaxTexts([t]) == TaxText(t) + TaxTexts([]);
  }

  lemma NoteHead()
    ensures Lit("37367") + Lit("CREDITNOTE") + Lit("USD") + Lit("27") == Lit("37367CREDITNOTEUSD27")
  {
    Join("37367", "CREDITNOTE");
    Join("37367" + "CREDITNOTE", "USD");
    Join("37367" + "CREDITNOTE" + "USD", "27");
    assert "37367" + "CREDITNOTE" + "USD" + "27" == "37367CREDITNOTEUSD27";
    hide Lit;
  }

  lemma NoteTax()
    ensures Lit("A") + Lit("15.00") + Lit("1500") + Lit("11500") == Lit("A15.00150011500")
  {
    Join("A", "15.00");
    Join("A" + "15.00", "1500");
    Join("A" + "15.00" + "1500", "11500");
    assert "A" + "15.00" + "1500" + "11500" == "A15.00150011500";
    hide Lit;
  }

  /** A chained credit note: device, type, currency, number, date, total, tax block, previous hash, in this order. */
  lemma ChainedCreditNote(b: Bill, date: Str, hash: Str)
    requires b.receiptType.CreditNote? && b.currency == Lit("usd") && b.total == 11500
    requires b.taxes == [Tax(Some(Lit("A")), Some(1500), 1, 1500, 11500)]
    ensures ReceiptSigningString(37367, 27, date, b, Some(hash)) ==
            Lit("37367CREDITNOTEUSD27") + date + Lit("11500") + Lit("A15.00150011500") + hash
  {
    assert Upper(Lit("usd")) == Lit("USD");
    hide Digits, Decimal, ConcatenateReceiptTaxes, Lit, Upper, PercentText;
    DeviceText();
    TotalText();
    TaxAmountText();
    OneTax(b.taxes[0]);
    NoteHead();
    NoteTax();
  }

  // -- digits --------------------------------------------------------------

  lemma ThreeDigits(n: nat)
    requires 100 <= n < 1000
    ensures Decimal(n) == [48 + n / 100, 48 + n / 10 % 10, 48 + n % 10]
  {
    assert Digits(n / 10) == [48 + n / 100] + [48 + n / 10 % 10];
  }

  lemma FourDigits(n: nat)
    requires 1000 <= n < 10000
    ensures Decimal(n) == [48 + n / 1000, 48 + n / 100 % 10, 48 + n / 10 % 10, 48 + n % 10]
  {
    ThreeDigits(n / 10);
  }

  lemma FiveDigits(n: nat)
    requires 10000 <= n < 100000
    ensures Decimal(n) == [48 + n / 10000, 48 + n / 1000 % 10, 48 + n / 100 % 10, 48 + n / 10 % 10, 48 + n % 10]
  {
    FourDigits(n / 10);
  }

  // -- the tax block of the API's own example ------------------------------

  lemma FourInOrder<T>(cmp: (T, T) -> int, a: T, b: T, c: T, d: T)
    requires cmp(a, b) <= 0 && cmp(a, c) <= 0 && cmp(a, d) <= 0 && cmp(b, c) <= 0 && cmp(b, d) <= 0 && cmp(c, d) <= 0
    ensures Sort(cmp, [a, b, c, d]) == [a, b, c, d]
  {
    SortOfSorted(cmp, [a, b, c, d]);
  }

  lemma FourTexts(a: Tax, b: Tax, c: Tax, d: Tax)
    ensures TaxTexts([a, b, c, d]) == TaxText(a) + TaxText(b) + TaxText(c) + TaxText(d)
  {
    hide TaxText;
    assert [a, b, c, d][1..] == [b, c, d] && [b, c, d][1..] == [c, d] && [c, d][1..] == [d] && [d][1..] == [];
    assert TaxTexts([d]) == TaxText(d);
    assert TaxTexts([c, d]) == TaxText(c) + TaxText(d);
    assert TaxTexts([b, c, d]) == TaxText(b) + TaxText(c) + TaxText(d);
  }

  /** Two codes under one tax ID stay apart and sort by code, in whatever order the taxes come. */
  lemma TwoCodesUnderOneId(ts: seq<Tax>, a: Tax, b: Tax, c: Tax, d: Tax)
    requires multiset(ts) == multiset([a, b, c, d])
    requires a.taxID == 1 && b.taxID == 2 && c.taxID == d.taxID == 3
    requires CodeOf(c.taxCode) == Lit("C") && CodeOf(d.taxCode) == Lit("D")
    ensures ConcatenateReceiptTaxes(ts) == TaxText(a) + TaxText(b) + TaxText(c) + TaxText(d)
  {
    hide Lit, TaxText, Sort, TaxTexts, Lex, Utf8.CodePoints;
    CodesInOrder();
    FourInOrder(CompareReceiptTaxes, a, b, c, d);
    FourTexts(a, b, c, d);
    assert CodesDistinct([a, b, c, d]);
    hide CodesDistinct, CompareReceiptTaxes;
    TaxBlockIsCanonical([a, b, c, d], ts);
  }

  lemma CodesInOrder()
    ensures Lex(Utf8.CodePoints(Lit("C")), Utf8.CodePoints(Lit("D"))) == -1 && Lit("C") != Lit("D")
  {
    assert Lit("C")[1..] == [] && Lit("D")[1..] == [];
    assert Utf8.CodePoints(Lit("C")) == [67] && Utf8.CodePoints(Lit("D")) == [68];
  }

  // -- a day ---------------------------------------------------------------

  lemma FourCounters(a: Counter, b: Counter, c: Counter, d: Counter)
    ensures CounterTexts([a, b, c, d]) == CounterText(a) + CounterText(b) + CounterText(c) + CounterText(d)
  {
    hide CounterText;
    assert [a, b, c, d][1..] == [b, c, d] && [b, c, d][1..] == [c, d] && [c, d][1..] == [d] && [d][1..] == [];
    assert CounterTexts([d]) == CounterText(d);
    assert CounterTexts([c, d]) == CounterText(c) + CounterText(d);
    assert CounterTexts([b, c, d]) == CounterText(b) + CounterText(c) + CounterText(d);
  }

  lemma MoneyTypesRank(sale: Counter, cash: Counter, card: Counter, other: Counter)
    requires sale.kind.SaleByTax? && cash.kind.BalanceByMoneyType? && card.kind == other.kind == cash.kind
    requires cash.currency == card.currency == other.currency && cash.taxID == card.taxID == other.taxID == None
    requires cash.moneyType == Some(Cash) && card.moneyType == Some(Card) && other.moneyType == Some(MoneyType.Other)
    ensures CompareCounters(sale, cash) <= 0 && CompareCounters(sale, card) <= 0 && CompareCounters(sale, other) <= 0
    ensures CompareCounters(cash, card) <= 0 && CompareCounters(cash, other) <= 0 && CompareCounters(card, other) <= 0
  {
    TextOrder(Upper(cash.currency), Upper(cash.currency), Upper(cash.currency));
    hide TextCompare, Upper;
  }

  /** Sales come before balances and balances in the order of the money types; zero counters are skipped. */
  lemma MoneyTypesInOrder(cs: seq<Counter>, sale: Counter, cash: Counter, card: Counter, other: Counter, date: Str)
    requires Built(cs) && multiset(NonZero(cs)) == multiset([sale, cash, card, other])
    requires sale.kind.SaleByTax? && cash.kind.BalanceByMoneyType? && card.kind == other.kind == cash.kind
    requires cash.currency == card.currency == other.currency && cash.taxID == card.taxID == other.taxID == None
    requires cash.moneyType == Some(Cash) && card.moneyType == Some(Card) && other.moneyType == Some(MoneyType.Other)
    ensures FiscalDaySigningString(37367, 20, date, cs) ==
            Decimal(37367) + Decimal(20) + date
            + (CounterText(sale) + CounterText(cash) + CounterText(card) + CounterText(other))
  {
    hide CounterText, Decimal, Built, CompareCounters, Sort, NonZero, CounterTexts;
    MoneyTypesRank(sale, cash, card, other);
    FourInOrder(CompareCounters, sale, cash, card, other);
    FourCounters(sale, cash, card, other);
    BuiltAreOrdered(cs);
    SortIsCanonical(CompareCounters, NonZero(cs), [sale, cash, card, other]);
  }

  // -- day 19, whole -------------------------------------------------------

  function TaxCounter(kind: CounterKind, currency: Str, percent: Option<int>, id: int, value: int): Counter {
    Counter(kind, currency, percent, Some(id), None, value)
  }

  function MoneyCounter(currency: Str, money: MoneyType, value: int): Counter {
    Counter(BalanceByMoneyType, currency, None, None, Some(money), value)
  }

  const USD: Str := [85, 83, 68]
  const ZWG: Str := [90, 87, 71]

  /** The counters of the day that are not zero, in the order of the string. */
  const DAY19: seq<Counter> := [
    TaxCounter(SaleByTax, USD, Some(1500), 1, 12000),
    TaxCounter(SaleByTax, USD, Some(0), 2, 1000),
    TaxCounter(SaleByTax, USD, None, 3, 2175),
    TaxCounter(SaleByTax, ZWG, Some(1500), 1, 9473),
    TaxCounter(SaleTaxByTax, USD, Some(1500), 1, 1565),
    TaxCounter(SaleTaxByTax, ZWG, Some(1500), 1, 1236),
    TaxCounter(CreditNoteByTax, USD, Some(1500), 1, -11500),
    TaxCounter(CreditNoteTaxByTax, USD, Some(1500), 1, -1500),
    MoneyCounter(USD, Cash, 2000),
    MoneyCounter(USD, Card, 1675),
    MoneyCounter(ZWG, MobileWallet, 9472)]

  /** A counter's text from the literals of its parts. */
  lemma CounterIs(c: Counter, kind: string, currency: string, detail: string, value: string)
    requires KindText(c.kind) == Lit(kind) && Upper(c.currency) == Lit(currency) && Decimal(c.value) == Lit(value)
    requires PercentText(c.taxPercent) + (if c.moneyType.Some? then MoneyText(c.moneyType.value) else []) == Lit(detail)
    ensures CounterText(c) == Lit(kind + currency + detail + value)
  {
    Join(kind, currency);
    Join(kind + currency, detail);
    Join(kind + currency + detail, value);
    hide Lit, KindText, Upper, Decimal, PercentText, MoneyText;
  }

  lemma Percents()
    ensures PercentText(Some(1500)) == Lit("15.00") && PercentText(Some(0)) == Lit("0.00")
    ensures PercentText(None) == Lit("")
  {
    assert Digits(1) == [49] && Digits(15) == [49, 53] && Digits(0) == [48];
  }

  lemma Currencies()
    ensures Upper(USD) == Lit("USD") && Upper(ZWG) == Lit("ZWG")
  {
  }

  lemma FirstSales(c: Counter, d: Counter)
    requires c == TaxCounter(SaleByTax, USD, Some(1500), 1, 12000)
    requires d == TaxCounter(SaleByTax, USD, Some(0), 2, 1000)
    ensures CounterText(c) == Lit("SALEBYTAX" + "USD" + "15.00" + "12000")
    ensures CounterText(d) == Lit("SALEBYTAX" + "USD" + "0.00" + "1000")
  {
    hide Digits, PercentText, Upper, CounterText;
    Percents();
    Currencies();
    FiveDigits(12000);
    FourDigits(1000);
    hide Decimal;
    CounterIs(c, "SALEBYTAX", "USD", "15.00", "12000");
    CounterIs(d, "SALEBYTAX", "USD", "0.00", "1000");
  }

  lemma OtherSales(c: Counter, d: Counter)
    requires c == TaxCounter(SaleByTax, USD, None, 3, 2175)
    requires d == TaxCounter(SaleByTax, ZWG, Some(1500), 1, 9473)
    ensures CounterText(c) == Lit("SALEBYTAX" + "USD" + "" + "2175")
    ensures CounterText(d) == Lit("SALEBYTAX" + "ZWG" + "15.00" + "9473")
  {
    hide Digits, PercentText, Upper, CounterText;
    Percents();
    Currencies();
    FourDigits(2175);
    FourDigits(9473);
    hide Decimal;
    CounterIs(c, "SALEBYTAX", "USD", "", "2175");
    CounterIs(d, "SALEBYTAX", "ZWG", "15.00", "9473");
  }

  lemma SaleTaxes(c: Counter, d: Counter)
    requires c == TaxCounter(SaleTaxByTax, USD, Some(1500), 1, 1565)
    requires d == TaxCounter(SaleTaxByTax, ZWG, Some(1500), 1, 1236)
    ensures CounterText(c) == Lit("SALETAXBYTAX" + "USD" + "15.00" + "1565")
    ensures CounterText(d) == Lit("SALETAXBYTAX" + "ZWG" + "15.00" + "1236")
  {
    hide Digits, PercentText, Upper, CounterText;
    Percents();
    Currencies();
    FourDigits(1565);
    FourDigits(1236);
    hide Decimal;
    CounterIs(c, "SALETAXBYTAX", "USD", "15.00", "1565");
    CounterIs(d, "SALETAXBYTAX", "ZWG", "15.00", "1236");
  }

  lemma CreditNotes(c: Counter, d: Counter)
    requires c == TaxCounter(CreditNoteByTax, USD, Some(1500), 1, -11500)
    requires d == TaxCounter(CreditNoteTaxByTax, USD, Some(1500), 1, -1500)
    ensures CounterText(c) == Lit("CREDITNOTEBYTAX" + "USD" + "15.00" + "-11500")
    ensures CounterText(d) == Lit("CREDITNOTETAXBYTAX" + "USD" + "15.00" + "-1500")
  {
    hide Digits, PercentText, Upper, CounterText;
    Percents();
    Currencies();
    FiveDigits(11500);
    FourDigits(1500);
    CounterIs(c, "CREDITNOTEBYTAX", "USD", "15.00", "-11500");
    CounterIs(d, "CREDITNOTETAXBYTAX", "USD", "15.00", "-1500");
  }

  lemma Balances(c: Counter, d: Counter)
    requires c == MoneyCounter(USD, Cash, 2000)
    requires d == MoneyCounter(USD, Card, 1675)
    ensures CounterText(c) == Lit("BALANCEBYMONEYTYPE" + "USD" + "CASH" + "2000")
    ensures CounterText(d) == Lit("BALANCEBYMONEYTYPE" + "USD" + "CARD" + "1675")
  {
    hide Digits, PercentText, Upper, CounterText;
    Percents();
    Currencies();
    FourDigits(2000);
    FourDigits(1675);
    hide Decimal;
    CounterIs(c, "BALANCEBYMONEYTYPE", "USD", "CASH", "2000");
    CounterIs(d, "BALANCEBYMONEYTYPE", "USD", "CARD", "1675");
  }

  lemma LastBalance(c: Counter)
    requires c == MoneyCounter(ZWG, MobileWallet, 9472)
    ensures CounterText(c) == Lit("BALANCEBYMONEYTYPE" + "ZWG" + "MOBILEWALLET" + "9472")
  {
    hide Digits, PercentText, Upper, CounterText;
    Percents();
    Currencies();
    FourDigits(9472);
    hide Decimal;
    CounterIs(c, "BALANCEBYMONEYTYPE", "ZWG", "MOBILEWALLET", "9472");
  }

  lemma {:induction false} NeighboursSort(s: seq<Counter>)
    requires forall i :: 0 <= i < |s| - 1 ==> CompareCounters(s[i], s[i + 1]) <= 0
    ensures IsSorted(CompareCounters, s)
  {
    hide CompareCounters;
    if s != [] {
      var init, last := s[..|s| - 1], s[|s| - 1];
      NeighboursSort(init);
      forall i | 0 <= i < |init| ensures CompareCounters(s[i], last) <= 0 {
        if i < |init| - 1 {
          assert CompareCounters(init[i], init[|init| - 1]) <= 0;
          CounterOrder(s[i], s[|init| - 1], last);
        }
      }
    }
  }

  lemma CurrenciesRank()
    ensures TextCompare(Upper(USD), Upper(USD)) == 0 && TextCompare(Upper(ZWG), Upper(ZWG)) == 0
    ensures TextCompare(Upper(USD), Upper(ZWG)) == -1 && Upper(USD) != Upper(ZWG)
  {
    TextOrder(Upper(USD), Upper(USD), Upper(USD));
    TextOrder(Upper(ZWG), Upper(ZWG), Upper(ZWG));
    Currencies();
    var u, z := Upper(USD), Upper(ZWG);
    assert u[0] == 85 && z[0] == 90;
    assert Utf8.CodePoints(u)[0] == 85 && Utf8.CodePoints(z)[0] == 90;
  }

  lemma Day19IsSorted()
    ensures IsSorted(CompareCounters, DAY19)
  {
    hide TextCompare, Upper;
    CurrenciesRank();
    NeighboursSort(DAY19);
  }

  lemma {:induction false} TextsSplit(a: seq<Counter>, b: seq<Counter>)
    ensures CounterTexts(a + b) == CounterTexts(a) + CounterTexts(b)
  {
    hide CounterText;
    if a == [] {
      assert a + b == b;
    } else {
      assert (a + b)[1..] == a[1..] + b;
      TextsSplit(a[1..], b);
    }
  }

  lemma Day19Texts()
    ensures CounterTexts(DAY19) ==
            Lit("SALEBYTAX" + "USD" + "15.00" + "12000")
            + Lit("SALEBYTAX" + "USD" + "0.00" + "1000")
            + Lit("SALEBYTAX" + "USD" + "" + "2175")
            + Lit("SALEBYTAX" + "ZWG" + "15.00" + "9473")
            + Lit("SALETAXBYTAX" + "USD" + "15.00" + "1565")
            + Lit("SALETAXBYTAX" + "ZWG" + "15.00" + "1236")
            + Lit("CREDITNOTEBYTAX" + "USD" + "15.00" + "-11500")
            + Lit("CREDITNOTETAXBYTAX" + "USD" + "15.00" + "-1500")
            + Lit("BALANCEBYMONEYTYPE" + "USD" + "CASH" + "2000")
            + Lit("BALANCEBYMONEYTYPE" + "USD" + "CARD" + "1675")
            + Lit("BALANCEBYMONEYTYPE" + "ZWG" + "MOBILEWALLET" + "9472")
  {
    hide CounterText, Lit;
    FirstSales(DAY19[0], DAY19[1]);
    OtherSales(DAY19[2], DAY19[3]);
    SaleTaxes(DAY19[4], DAY19[5]);
    CreditNotes(DAY19[6], DAY19[7]);
    Balances(DAY19[8], DAY19[9]);
    LastBalance(DAY19[10]);
    FourCounters(DAY19[0], DAY19[1], DAY19[2], DAY19[3]);
    FourCounters(DAY19[4], DAY19[5], DAY19[6], DAY19[7]);
    ThreeCounters(DAY19[8], DAY19[9], DAY19[10]);
    TextsSplit([DAY19[0], DAY19[1], DAY19[2], DAY19[3]], [DAY19[4], DAY19[5], DAY19[6], DAY19[7]]);
    TextsSplit([DAY19[0], DAY19[1], DAY19[2], DAY19[3]] + [DAY19[4], DAY19[5], DAY19[6], DAY19[7]],
               [DAY19[8], DAY19[9], DAY19[10]]);
    assert DAY19 == [DAY19[0], DAY19[1], DAY19[2], DAY19[3]] + [DAY19[4], DAY19[5], DAY19[6], DAY19[7]]
                    + [DAY19[8], DAY19[9], DAY19[10]];
  }

  lemma ThreeCounters(a: Counter, b: Counter, c: Counter)
    ensures CounterTexts([a, b, c]) == CounterText(a) + CounterText(b) + CounterText(c)
  {
    hide CounterText;
    assert [a, b, c][1..] == [b, c] && [b, c][1..] == [c] && [c][1..] == [];
    assert CounterTexts([c]) == CounterText(c);
    assert CounterTexts([b, c]) == CounterText(b) + CounterText(c);
  }

  /**
   * Day 19 whole: from any counters the device built of which these are the ones
   * that are not zero, whatever their order.
   */
  lemma Day19(cs: seq<Counter>)
    requires Built(cs) && multiset(NonZero(cs)) == multiset(DAY19)
    ensures FiscalDaySigningString(37367, 19, Lit("2026-09-06"), cs) ==
            Lit("37367") + Lit("19") + Lit("2026-09-06")
            + (Lit("SALEBYTAX" + "USD" + "15.00" + "12000")
               + Lit("SALEBYTAX" + "USD" + "0.00" + "1000")
               + Lit("SALEBYTAX" + "USD" + "" + "2175")
               + Lit("SALEBYTAX" + "ZWG" + "15.00" + "9473")
               + Lit("SALETAXBYTAX" + "USD" + "15.00" + "1565")
               + Lit("SALETAXBYTAX" + "ZWG" + "15.00" + "1236")
               + Lit("CREDITNOTEBYTAX" + "USD" + "15.00" + "-11500")
               + Lit("CREDITNOTETAXBYTAX" + "USD" + "15.00" + "-1500")
               + Lit("BALANCEBYMONEYTYPE" + "USD" + "CASH" + "2000")
               + Lit("BALANCEBYMONEYTYPE" + "USD" + "CARD" + "1675")
               + Lit("BALANCEBYMONEYTYPE" + "ZWG" + "MOBILEWALLET" + "9472"))
  {
    hide Lit, Decimal, Built, CompareCounters, Sort, NonZero, CounterTexts, IsSorted;
    DeviceText();
    DayText();
    Day19IsSorted();
    SortOfSorted(CompareCounters, DAY19);
    BuiltAreOrdered(cs);
    SortIsCanonical(CompareCounters, NonZero(cs), DAY19);
    Day19Texts();
  }

  lemma DayText()
    ensures Decimal(19) == Lit("19")
  {
    assert Digits(1) == [49];
  }

  // -- an invoice with four taxes, whole -----------------------------------

  lemma TaxIs(t: Tax, code: string, percent: string, amount: string, sales: string)
    requires CodeOf(t.taxCode) == Lit(code) && PercentText(t.taxPercent) == Lit(percent)
    requires Decimal(t.taxAmount) == Lit(amount) && Decimal(t.sales) == Lit(sales)
    ensures TaxText(t) == Lit(code + percent + amount + sales)
  {
    Join(code, percent);
    Join(code + percent, amount);
    Join(code + percent + amount, sales);
    hide Lit, CodeOf, PercentText, Decimal;
  }

  lemma TenTimes(n: nat, text: string)
    requires n >= 1 && Decimal(n) == Lit(text)
    ensures Decimal(10 * n) == Lit(text + "0")
  {
    Join(text, "0");
    assert Lit("0") == [48];
  }

  lemma SalesOfA()
    ensures Decimal(250000) == Lit("250000")
  {
    assert Digits(2) == Lit("2") && Digits(25) == Lit("25");
    hide Digits;
    TenTimes(25, "25");
    TenTimes(250, "25" + "0");
    TenTimes(2500, "25" + "0" + "0");
    TenTimes(25000, "25" + "0" + "0" + "0");
    assert "25" + "0" + "0" + "0" + "0" == "250000";
    hide Lit;
  }

  lemma SalesOfB()
    ensures Decimal(350000) == Lit("350000")
  {
    assert Digits(3) == Lit("3") && Digits(35) == Lit("35");
    hide Digits;
    TenTimes(35, "35");
    TenTimes(350, "35" + "0");
    TenTimes(3500, "35" + "0" + "0");
    TenTimes(35000, "35" + "0" + "0" + "0");
    assert "35" + "0" + "0" + "0" + "0" == "350000";
    hide Lit;
  }

  lemma SalesOfD()
    ensures Decimal(230000) == Lit("230000")
  {
    assert Digits(2) == Lit("2") && Digits(23) == Lit("23");
    hide Digits;
    TenTimes(23, "23");
    TenTimes(230, "23" + "0");
    TenTimes(2300, "23" + "0" + "0");
    TenTimes(23000, "23" + "0" + "0" + "0");
    assert "23" + "0" + "0" + "0" + "0" == "230000";
    hide Lit;
  }

  lemma SalesOfC()
    ensures Decimal(115000) == Lit("115000")
  {
    TotalText();
    TenTimes(11500, "11500");
    assert "11500" + "0" == "115000";
  }

  lemma TaxesOfExample(a: Tax, b: Tax, c: Tax, d: Tax)
    requires a == Tax(Some(Lit("A")), None, 1, 0, 250000) && b == Tax(Some(Lit("B")), Some(0), 2, 0, 350000)
    requires c == Tax(Some(Lit("C")), Some(1500), 3, 15000, 115000)
    requires d == Tax(Some(Lit("D")), Some(1500), 3, 30000, 230000)
    ensures TaxText(a) == Lit("A" + "" + "0" + "250000") && TaxText(b) == Lit("B" + "0.00" + "0" + "350000")
    ensures TaxText(c) == Lit("C" + "15.00" + "15000" + "115000")
    ensures TaxText(d) == Lit("D" + "15.00" + "30000" + "230000")
  {
    hide Digits, PercentText, TaxText;
    Percents();
    SalesOfA();
    SalesOfB();
    SalesOfC();
    SalesOfD();
    FiveDigits(15000);
    FiveDigits(30000);
    assert Decimal(0) == Lit("0") by { ZeroText(); }
    hide Decimal;
    TaxIs(a, "A", "", "0", "250000");
    TaxIs(b, "B", "0.00", "0", "350000");
    TaxIs(c, "C", "15.00", "15000", "115000");
    TaxIs(d, "D", "15.00", "30000", "230000");
  }

  lemma ZeroText()
    ensures Decimal(0) == Lit("0")
  {
  }

  /** The example of section 13.2.1 of the API specification: two codes under tax ID 3, nothing hashed before. */
  lemma ExampleInvoice(b: Bill, u: Tax, v: Tax, x: Tax, y: Tax, date: Str)
    requires b.receiptType.FiscalInvoice? && b.currency == USD && b.total == 945000
    requires u == Tax(Some(Lit("A")), None, 1, 0, 250000) && v == Tax(Some(Lit("B")), Some(0), 2, 0, 350000)
    requires x == Tax(Some(Lit("C")), Some(1500), 3, 15000, 115000)
    requires y == Tax(Some(Lit("D")), Some(1500), 3, 30000, 230000)
    requires multiset(b.taxes) == multiset([u, v, x, y])
    ensures ReceiptSigningString(37367, 29, date, b, None) ==
            Lit("37367") + Lit("FISCALINVOICE") + Lit("USD") + Lit("29") + date + Lit("945000")
            + (Lit("A" + "" + "0" + "250000") + Lit("B" + "0.00" + "0" + "350000")
               + Lit("C" + "15.00" + "15000" + "115000") + Lit("D" + "15.00" + "30000" + "230000"))
  {
    hide Digits, Decimal, ConcatenateReceiptTaxes, Lit, Upper, PercentText, TaxText, CodeOf;
    DeviceText();
    Currencies();
    InvoiceNumber();
    InvoiceTotal();
    TaxesOfExample(u, v, x, y);
    CodesKept();
    TwoCodesUnderOneId(b.taxes, u, v, x, y);
  }

  lemma CodesKept()
    ensures CodeOf(Some(Lit("C"))) == Lit("C") && CodeOf(Some(Lit("D"))) == Lit("D")
  {
  }

  lemma InvoiceNumber()
    ensures Decimal(29) == Lit("29")
  {
    assert Digits(2) == [50];
  }

  lemma InvoiceTotal()
    ensures Decimal(945000) == Lit("945000")
  {
    FiveDigits(94500);
    hide Digits;
    TenTimes(94500, "94500");
    assert "94500" + "0" == "945000";
  }
}
