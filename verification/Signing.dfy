/** The canonical strings that are hashed and signed (src/core/signing.ts). */
module Signing {
  import opened Text
  import opened Options
  import opened Lexicographic
  import opened Sorting
  import opened Ledger
  import opened Counters
  import Utf8

  function KindText(k: CounterKind): Str {
    match k
    case SaleByTax => Lit("SALEBYTAX")
    case SaleTaxByTax => Lit("SALETAXBYTAX")
    case CreditNoteByTax => Lit("CREDITNOTEBYTAX")
    case CreditNoteTaxByTax => Lit("CREDITNOTETAXBYTAX")
    case DebitNoteByTax => Lit("DEBITNOTEBYTAX")
    case DebitNoteTaxByTax => Lit("DEBITNOTETAXBYTAX")
    case BalanceByMoneyType => Lit("BALANCEBYMONEYTYPE")
    case PayoutByTax => Lit("PAYOUTBYTAX")
    case PayoutTaxByTax => Lit("PAYOUTTAXBYTAX")
  }

  function MoneyText(m: MoneyType): Str {
    match m
    case Cash => Lit("CASH")
    case Card => Lit("CARD")
    case MobileWallet => Lit("MOBILEWALLET")
    case Coupon => Lit("COUPON")
    case Credit => Lit("CREDIT")
    case BankTransfer => Lit("BANKTRANSFER")
    case Other => Lit("OTHER")
  }

  function TypeText(t: ReceiptType): Str {
    match t
    case FiscalInvoice => Lit("FISCALINVOICE")
    case CreditNote => Lit("CREDITNOTE")
    case DebitNote => Lit("DEBITNOTE")
  }

  function PercentText(p: Option<int>): Str { if p.Some? then Percent(p.value) else [] }

  // -- receipts ------------------------------------------------------------

  function TaxText(t: Tax): Str {
    CodeOf(t.taxCode) + PercentText(t.taxPercent) + Decimal(t.taxAmount) + Decimal(t.sales)
  }

  function TaxTexts(ts: seq<Tax>): Str {
    if ts == [] then [] else TaxText(ts[0]) + TaxTexts(ts[1..])
  }

  function ConcatenateReceiptTaxes(ts: seq<Tax>): Str {
    TaxTexts(Sort(CompareReceiptTaxes, ts))
  }

  /** `date` is the receiptDate as it is written in the receipt. */
  function ReceiptSigningString(deviceId: nat, globalNo: nat, date: Str, b: Bill, previousHash: Option<Str>): Str {
    Decimal(deviceId) + TypeText(b.receiptType) + Upper(b.currency) + Decimal(globalNo) + date
    + Decimal(b.total) + ConcatenateReceiptTaxes(b.taxes) + (if previousHash.Some? then previousHash.value else [])
  }

  predicate CodesDistinct(ts: seq<Tax>) {
    forall i, j :: 0 <= i < j < |ts| ==> ts[i].taxID != ts[j].taxID || CodeOf(ts[i].taxCode) != CodeOf(ts[j].taxCode)
  }

  /** Signs of the tax order, as the sign of an integer and of a code point order. */
  lemma TaxOrder(a: Tax, b: Tax, c: Tax)
    ensures CompareReceiptTaxes(a, b) <= 0 || CompareReceiptTaxes(b, a) <= 0
    ensures CompareReceiptTaxes(a, b) <= 0 && CompareReceiptTaxes(b, a) <= 0
        ==> a.taxID == b.taxID && CodeOf(a.taxCode) == CodeOf(b.taxCode)
    ensures CompareReceiptTaxes(a, b) <= 0 && CompareReceiptTaxes(b, c) <= 0 ==> CompareReceiptTaxes(a, c) <= 0
  {
    TextOrder(CodeOf(a.taxCode), CodeOf(b.taxCode), CodeOf(c.taxCode));
  }

  lemma TextOrder(a: Str, b: Str, c: Str)
    ensures TextCompare(a, b) == -TextCompare(b, a)
    ensures TextCompare(a, b) == 0 <==> a == b
    ensures TextCompare(a, b) <= 0 && TextCompare(b, c) <= 0 ==> TextCompare(a, c) <= 0
  {
    var x, y, z := Utf8.CodePoints(a), Utf8.CodePoints(b), Utf8.CodePoints(c);
    LexAntisymmetric(x, y);
    Utf8.CompareZeroOnlyOnEqual(a, b);
    if Lex(x, y) <= 0 && Lex(y, z) <= 0 {
      LexTransitive(x, y, z);
    }
  }

  function TextCompare(a: Str, b: Str): int {
    Lex(Utf8.CodePoints(a), Utf8.CodePoints(b))
  }

  /** The tax block does not depend on the order the taxes come in. */
  lemma TaxBlockIsCanonical(ts: seq<Tax>, us: seq<Tax>)
    requires multiset(ts) == multiset(us) && CodesDistinct(ts)
    ensures ConcatenateReceiptTaxes(ts) == ConcatenateReceiptTaxes(us)
  {
    var all := multiset(ts);
    forall x, y | x in all && y in all
      ensures CompareReceiptTaxes(x, y) <= 0 || CompareReceiptTaxes(y, x) <= 0
      ensures CompareReceiptTaxes(x, y) <= 0 && CompareReceiptTaxes(y, x) <= 0 ==> x == y
    {
      TaxOrder(x, y, y);
      assert x in ts && y in ts;
    }
    forall x, y, z | CompareReceiptTaxes(x, y) <= 0 && CompareReceiptTaxes(y, z) <= 0
      ensures CompareReceiptTaxes(x, z) <= 0
    {
      TaxOrder(x, y, z);
    }
    hide CompareReceiptTaxes;
    SortIsCanonical(CompareReceiptTaxes, ts, us);
  }

  // -- closing the day -----------------------------------------------------

  /** COUNTER_ORDER; kinds it does not list come last. */
  function KindRank(k: CounterKind): nat {
    match k
    case SaleByTax => 1 case SaleTaxByTax => 2 case CreditNoteByTax => 3 case CreditNoteTaxByTax => 4
    case DebitNoteByTax => 5 case DebitNoteTaxByTax => 6 case BalanceByMoneyType => 7
    case PayoutByTax => 99 case PayoutTaxByTax => 99
  }

  /** MONEY_TYPE_ORDER; no money type comes last. */
  function MoneyRank(m: Option<MoneyType>): nat {
    if m.None? then 99
    else match m.value
      case Cash => 0 case Card => 1 case MobileWallet => 2 case Coupon => 3
      case Credit => 4 case BankTransfer => 5 case Other => 6
  }

  function TaxRank(id: Option<int>): int { if id.Some? then id.value else -1 }

  /** By kind, then currency, then tax ID, then money type. */
  function CompareCounters(a: Counter, b: Counter): int {
    if KindRank(a.kind) != KindRank(b.kind) then KindRank(a.kind) - KindRank(b.kind)
    else if TextCompare(Upper(a.currency), Upper(b.currency)) != 0 then
      TextCompare(Upper(a.currency), Upper(b.currency))
    else if TaxRank(a.taxID) != TaxRank(b.taxID) then TaxRank(a.taxID) - TaxRank(b.taxID)
    else MoneyRank(a.moneyType) - MoneyRank(b.moneyType)
  }

  function NonZero(cs: seq<Counter>): seq<Counter> {
    if cs == [] then [] else NonZero(cs[..|cs| - 1]) + (if cs[|cs| - 1].value != 0 then [cs[|cs| - 1]] else [])
  }

  function CounterText(c: Counter): Str {
    KindText(c.kind) + Upper(c.currency) + PercentText(c.taxPercent)
    + (if c.moneyType.Some? then MoneyText(c.moneyType.value) else []) + Decimal(c.value)
  }

  function CounterTexts(cs: seq<Counter>): Str {
    if cs == [] then [] else CounterText(cs[0]) + CounterTexts(cs[1..])
  }

  function FiscalDaySigningString(deviceId: nat, dayNo: nat, dayDate: Str, cs: seq<Counter>): Str {
    Decimal(deviceId) + Decimal(dayNo) + dayDate + CounterTexts(Sort(CompareCounters, NonZero(cs)))
  }

  /** On the keys of built counters the four-level comparator is a strict total order. */
  lemma CounterOrder(a: Counter, b: Counter, c: Counter)
    ensures CompareCounters(a, b) <= 0 || CompareCounters(b, a) <= 0
    ensures CompareCounters(a, b) <= 0 && CompareCounters(b, a) <= 0 && Shaped(KeyOf(a)) && Shaped(KeyOf(b))
        ==> KeyOf(a) == KeyOf(b)
    ensures CompareCounters(a, b) <= 0 && CompareCounters(b, c) <= 0 ==> CompareCounters(a, c) <= 0
  {
    var x, y, z := Upper(a.currency), Upper(b.currency), Upper(c.currency);
    TextOrder(x, y, z);
    TextOrder(y, z, x);
    TextOrder(x, z, y);
    TextOrder(z, y, x);
    hide TextCompare, Upper;
  }

  lemma {:induction false} NonZeroKeeps(cs: seq<Counter>)
    ensures forall c :: c in NonZero(cs) <==> c in cs && c.value != 0
    ensures NonZero(NonZero(cs)) == NonZero(cs)
  {
    if cs != [] {
      var p, c := cs[..|cs| - 1], cs[|cs| - 1];
      NonZeroKeeps(p);
      assert cs == p + [c];
      if c.value != 0 {
        assert (NonZero(p) + [c])[..|NonZero(p)|] == NonZero(p);
      } else {
        assert NonZero(cs) == NonZero(p);
      }
    }
  }

  /**
   * The CloseDay string is canonical: counters the device built give the same
   * string in any order and among any zero counters.
   */
  lemma CloseDayStringIsCanonical(deviceId: nat, dayNo: nat, dayDate: Str, cs: seq<Counter>, ds: seq<Counter>)
    requires Built(cs) && multiset(NonZero(cs)) == multiset(NonZero(ds))
    ensures FiscalDaySigningString(deviceId, dayNo, dayDate, cs) == FiscalDaySigningString(deviceId, dayNo, dayDate, ds)
  {
    BuiltAreOrdered(cs);
    hide CompareCounters, Built;
    SortIsCanonical(CompareCounters, NonZero(cs), NonZero(ds));
  }

  lemma BuiltAreOrdered(cs: seq<Counter>)
    requires Built(cs)
    ensures StrictlyOrders(CompareCounters, multiset(NonZero(cs)))
  {
    var s := multiset(NonZero(cs));
    NonZeroKeeps(cs);
    hide CompareCounters, Built, NonZero, Shaped, KeyOf;
    forall x, y | x in s && y in s
      ensures CompareCounters(x, y) <= 0 || CompareCounters(y, x) <= 0
      ensures CompareCounters(x, y) <= 0 && CompareCounters(y, x) <= 0 ==> x == y
    {
      assert x in NonZero(cs) && y in NonZero(cs);
      NoTies(cs, x, y);
    }
    forall x, y, z | CompareCounters(x, y) <= 0 && CompareCounters(y, z) <= 0
      ensures CompareCounters(x, z) <= 0
    {
      CounterOrder(x, y, z);
    }
  }

  lemma NoTies(cs: seq<Counter>, x: Counter, y: Counter)
    requires Built(cs) && x in cs && y in cs
    ensures CompareCounters(x, y) <= 0 || CompareCounters(y, x) <= 0
    ensures CompareCounters(x, y) <= 0 && CompareCounters(y, x) <= 0 ==> x == y
  {
    CounterOrder(x, y, y);
    SameKeySameCounter(cs, x, y);
  }

  lemma SameKeySameCounter(cs: seq<Counter>, x: Counter, y: Counter)
    requires Built(cs) && x in cs && y in cs
    ensures Shaped(KeyOf(x)) && Shaped(KeyOf(y))
    ensures KeyOf(x) == KeyOf(y) ==> x == y
  {
    var i :| 0 <= i < |cs| && cs[i] == x;
    var j :| 0 <= j < |cs| && cs[j] == y;
    if KeyOf(x) == KeyOf(y) {
      assert !(i < j) && !(j < i);
    }
  }

  /** What CloseDay sends is what it signed: leaving the zero counters out changes nothing. */
  lemma CloseDayStringOfCountersSent(deviceId: nat, dayNo: nat, dayDate: Str, cs: seq<Counter>)
    ensures FiscalDaySigningString(deviceId, dayNo, dayDate, NonZero(cs)) ==
            FiscalDaySigningString(deviceId, dayNo, dayDate, cs)
  {
    NonZeroKeeps(cs);
  }

  // -- the published order and form ----------------------------------------

  /** The kinds of counters in the order of the string, and the money types in that of MoneyTypeEnum. */
  const KINDS: seq<CounterKind> := [SaleByTax, SaleTaxByTax, CreditNoteByTax, CreditNoteTaxByTax, DebitNoteByTax,
                                    DebitNoteTaxByTax, BalanceByMoneyType]
  const MONEY_TYPES: seq<MoneyType> := [Cash, Card, MobileWallet, Coupon, Credit, BankTransfer, Other]

  ghost predicate Listed<T>(order: seq<T>, x: T, y: T) {
    exists i, j :: 0 <= i < j < |order| && order[i] == x && order[j] == y
  }

  ghost predicate TextBefore(a: Str, b: Str) {
    Sooner(Utf8.CodePoints(a), Utf8.CodePoints(b))
  }

  /** By kind, then currency, then tax ID or money type. */
  ghost predicate CounterBefore(a: Counter, b: Counter) {
    || Listed(KINDS, a.kind, b.kind)
    || (a.kind == b.kind && TextBefore(Upper(a.currency), Upper(b.currency)))
    || (a.kind == b.kind && Upper(a.currency) == Upper(b.currency) && a.kind != BalanceByMoneyType
        && a.taxID.Some? && b.taxID.Some? && a.taxID.value < b.taxID.value)
    || (a.kind == b.kind == BalanceByMoneyType && Upper(a.currency) == Upper(b.currency)
        && a.moneyType.Some? && b.moneyType.Some? && Listed(MONEY_TYPES, a.moneyType.value, b.moneyType.value))
  }

  lemma KindsListed(a: CounterKind, b: CounterKind)
    requires KindRank(a) < KindRank(b) && !b.PayoutByTax? && !b.PayoutTaxByTax?
    ensures Listed(KINDS, a, b)
  {
    assert KINDS[KindRank(a) - 1] == a && KINDS[KindRank(b) - 1] == b;
  }

  lemma MoneyTypesListed(a: MoneyType, b: MoneyType)
    requires MoneyRank(Some(a)) < MoneyRank(Some(b))
    ensures Listed(MONEY_TYPES, a, b)
  {
    assert MONEY_TYPES[MoneyRank(Some(a))] == a && MONEY_TYPES[MoneyRank(Some(b))] == b;
  }

  lemma SameKindRank(a: CounterKind, b: CounterKind)
    requires KindRank(a) == KindRank(b) < 99
    ensures a == b
  {
  }

  lemma RankedIsBefore(a: Counter, b: Counter)
    requires CompareCounters(a, b) <= 0 && Shaped(KeyOf(a)) && Shaped(KeyOf(b)) && KeyOf(a) != KeyOf(b)
    ensures CounterBefore(a, b)
  {
    hide TextCompare, Upper, Listed, Utf8.CodePoints, KindRank, MoneyRank, Sooner;
    CounterOrder(a, b, b);
    var x, y := Upper(a.currency), Upper(b.currency);
    TextMeans(x, y);
    ShapedRanks(a.kind);
    ShapedRanks(b.kind);
    if KindRank(a.kind) < KindRank(b.kind) {
      KindsListed(a.kind, b.kind);
    } else {
      SameKindRank(a.kind, b.kind);
      if x == y && a.kind == BalanceByMoneyType && a.moneyType != b.moneyType {
        MoneyTypesApart(a.moneyType.value, b.moneyType.value);
        MoneyTypesListed(a.moneyType.value, b.moneyType.value);
      }
    }
  }

  lemma ShapedRanks(k: CounterKind)
    requires !k.PayoutByTax? && !k.PayoutTaxByTax?
    ensures KindRank(k) < 99
  {
  }

  lemma MoneyTypesApart(a: MoneyType, b: MoneyType)
    requires a != b
    ensures MoneyRank(Some(a)) != MoneyRank(Some(b))
  {
  }

  lemma TextMeans(a: Str, b: Str)
    ensures TextCompare(a, b) < 0 <==> TextBefore(a, b)
    ensures TextCompare(a, b) == 0 <==> a == b
  {
    LexMeans(Utf8.CodePoints(a), Utf8.CodePoints(b));
    TextOrder(a, b, b);
    hide Lex, Utf8.CodePoints;
  }

  /**
   * The CloseDay string of counters the device built: device, day number, date,
   * and the texts of exactly the counters that are not zero, in the published
   * order of kinds, currencies, tax IDs and money types.
   */
  lemma CountersInPublishedOrder(deviceId: nat, dayNo: nat, dayDate: Str, cs: seq<Counter>)
    returns (sorted: seq<Counter>)
    requires Built(cs)
    ensures forall c :: multiset(sorted)[c] == if c.value != 0 then multiset(cs)[c] else 0
    ensures forall i, j :: 0 <= i < j < |sorted| ==> CounterBefore(sorted[i], sorted[j])
    ensures FiscalDaySigningString(deviceId, dayNo, dayDate, cs) ==
            Decimal(deviceId) + Decimal(dayNo) + dayDate + CounterTexts(sorted)
  {
    hide CompareCounters, Built, CounterBefore, CounterTexts, Decimal, NonZero, Sort, IsSorted, Shaped, KeyOf;
    sorted := Sort(CompareCounters, NonZero(cs));
    BuiltAreOrdered(cs);
    SortKeeps(CompareCounters, NonZero(cs));
    NonZeroCounts(cs);
    SortSorts(CompareCounters, NonZero(cs), multiset(NonZero(cs)));
    SortedIsBefore(cs, sorted);
  }

  lemma {:induction false} NonZeroCounts(cs: seq<Counter>)
    ensures forall c :: multiset(NonZero(cs))[c] == if c.value != 0 then multiset(cs)[c] else 0
  {
    if cs != [] {
      NonZeroCounts(cs[..|cs| - 1]);
      assert cs == cs[..|cs| - 1] + [cs[|cs| - 1]];
    }
  }

  lemma SortedIsBefore(cs: seq<Counter>, sorted: seq<Counter>)
    requires Built(cs) && IsSorted(CompareCounters, sorted)
    requires forall c :: multiset(sorted)[c] == if c.value != 0 then multiset(cs)[c] else 0
    ensures forall i, j :: 0 <= i < j < |sorted| ==> CounterBefore(sorted[i], sorted[j])
  {
    hide CompareCounters, CounterBefore, Shaped, KeyOf;
    forall i, j | 0 <= i < j < |sorted| ensures CounterBefore(sorted[i], sorted[j]) {
      KeysApart(cs, sorted, i, j);
      RankedIsBefore(sorted[i], sorted[j]);
    }
  }

  lemma KeysApart(cs: seq<Counter>, sorted: seq<Counter>, i: nat, j: nat)
    requires Built(cs) && i < j < |sorted|
    requires forall c :: multiset(sorted)[c] == if c.value != 0 then multiset(cs)[c] else 0
    ensures Shaped(KeyOf(sorted[i])) && Shaped(KeyOf(sorted[j])) && KeyOf(sorted[i]) != KeyOf(sorted[j])
  {
    hide Shaped, KeyOf;
    var x, y := sorted[i], sorted[j];
    assert x in multiset(sorted) && y in multiset(sorted);
    assert x in multiset(cs) && y in multiset(cs);
    SameKeySameCounter(cs, x, y);
    if x == y {
      TwiceThere(sorted, i, j);
      OnceThere(cs, x);
    }
  }

  lemma TwiceThere<T>(s: seq<T>, i: nat, j: nat)
    requires i < j < |s| && s[i] == s[j]
    ensures multiset(s)[s[i]] >= 2
  {
    assert s == s[..j] + [s[j]] + s[j + 1..];
    assert s[..j][i] == s[i];
    assert s[i] in multiset(s[..j]);
  }

  lemma OnceThere(cs: seq<Counter>, c: Counter)
    requires Built(cs) && c in cs
    ensures multiset(cs)[c] == 1
  {
    var i :| 0 <= i < |cs| && cs[i] == c;
    assert cs == cs[..i] + [c] + cs[i + 1..];
    assert c !in cs[..i] && c !in cs[i + 1..];
  }

  /** A counter in the string: kind, currency, percent if there is one, money type if there is one, cents. */
  lemma CounterTextForm(c: Counter)
    ensures match c.kind
      case SaleByTax => CounterText(c) == Lit("SALEBYTAX") + Upper(c.currency) + Detail(c) + Decimal(c.value)
      case SaleTaxByTax => CounterText(c) == Lit("SALETAXBYTAX") + Upper(c.currency) + Detail(c) + Decimal(c.value)
      case CreditNoteByTax =>
        CounterText(c) == Lit("CREDITNOTEBYTAX") + Upper(c.currency) + Detail(c) + Decimal(c.value)
      case CreditNoteTaxByTax =>
        CounterText(c) == Lit("CREDITNOTETAXBYTAX") + Upper(c.currency) + Detail(c) + Decimal(c.value)
      case DebitNoteByTax =>
        CounterText(c) == Lit("DEBITNOTEBYTAX") + Upper(c.currency) + Detail(c) + Decimal(c.value)
      case DebitNoteTaxByTax =>
        CounterText(c) == Lit("DEBITNOTETAXBYTAX") + Upper(c.currency) + Detail(c) + Decimal(c.value)
      case BalanceByMoneyType =>
        CounterText(c) == Lit("BALANCEBYMONEYTYPE") + Upper(c.currency) + Detail(c) + Decimal(c.value)
      case _ => true
  {
    hide Lit, Upper, Decimal, Percent;
    MoneyForm(c);
  }

  lemma MoneyForm(c: Counter)
    ensures Detail(c) == PercentText(c.taxPercent) + (if c.moneyType.Some? then MoneyText(c.moneyType.value) else [])
  {
    hide Lit, Percent;
  }

  /** The percent with two decimals, then the money type. */
  function Detail(c: Counter): Str {
    (if c.taxPercent.Some? then Percent(c.taxPercent.value) else [])
    + match c.moneyType
      case None => []
      case Some(Cash) => Lit("CASH")
      case Some(Card) => Lit("CARD")
      case Some(MobileWallet) => Lit("MOBILEWALLET")
      case Some(Coupon) => Lit("COUPON")
      case Some(Credit) => Lit("CREDIT")
      case Some(BankTransfer) => Lit("BANKTRANSFER")
      case Some(Other) => Lit("OTHER")
  }

  /** Tax ID ascending, then code by code point, no code first; equal ones in any order. */
  ghost predicate TaxNotAfter(a: Tax, b: Tax) {
    || a.taxID < b.taxID
    || (a.taxID == b.taxID
        && (CodeOf(a.taxCode) == CodeOf(b.taxCode) || TextBefore(CodeOf(a.taxCode), CodeOf(b.taxCode))))
  }

  lemma TaxRanked(a: Tax, b: Tax)
    ensures CompareReceiptTaxes(a, b) <= 0 <==> TaxNotAfter(a, b)
  {
    TextMeans(CodeOf(a.taxCode), CodeOf(b.taxCode));
    hide TextBefore, Lex, CodeOf, Utf8.CodePoints;
  }

  /** Taxes are signed in the order of tax ID and code. */
  lemma TaxesInOrder(ts: seq<Tax>)
    ensures
      var sorted := Sort(CompareReceiptTaxes, ts);
      && multiset(sorted) == multiset(ts)
      && forall i, j :: 0 <= i < j < |sorted| ==> TaxNotAfter(sorted[i], sorted[j])
  {
    hide CompareReceiptTaxes, TaxNotAfter;
    var sorted := Sort(CompareReceiptTaxes, ts);
    forall x, y ensures CompareReceiptTaxes(x, y) <= 0 || CompareReceiptTaxes(y, x) <= 0 {
      TaxOrder(x, y, y);
    }
    forall x, y, z | CompareReceiptTaxes(x, y) <= 0 && CompareReceiptTaxes(y, z) <= 0
      ensures CompareReceiptTaxes(x, z) <= 0
    {
      TaxOrder(x, y, z);
    }
    SortKeeps(CompareReceiptTaxes, ts);
    SortSorts(CompareReceiptTaxes, ts, multiset(ts));
    forall i, j | 0 <= i < j < |sorted| ensures TaxNotAfter(sorted[i], sorted[j]) {
      TaxRanked(sorted[i], sorted[j]);
    }
  }

  /** So are the taxes that are sent: one entry a group, in that order. */
  lemma ReceiptTaxesInOrder(lines: seq<Line>, inclusive: bool)
    requires ReceiptTaxes(lines, inclusive).Some?
    ensures
      var ts := ReceiptTaxes(lines, inclusive).value;
      && KeysDistinct(ts) && (forall i, j :: 0 <= i < j < |ts| ==> TaxNotAfter(ts[i], ts[j]))
  {
    hide CompareReceiptTaxes, TaxNotAfter, Sort, SumOfTaxes, SumOfLines, Grouped, KeysDistinct;
    TaxesInOrder(Grouped(lines, inclusive).value);
    ReceiptTaxesConserve(ALL_TAX, lines, inclusive);
  }

  /** The fields of a receipt in the string, in this order. */
  lemma ReceiptStringForm(deviceId: nat, globalNo: nat, date: Str, b: Bill, previousHash: Option<Str>)
    ensures
      var rest := Upper(b.currency) + Decimal(globalNo) + date + Decimal(b.total) + ConcatenateReceiptTaxes(b.taxes)
                  + (if previousHash.Some? then previousHash.value else []);
      var s := ReceiptSigningString(deviceId, globalNo, date, b, previousHash);
      match b.receiptType
      case FiscalInvoice => s == Decimal(deviceId) + Lit("FISCALINVOICE") + rest
      case CreditNote => s == Decimal(deviceId) + Lit("CREDITNOTE") + rest
      case DebitNote => s == Decimal(deviceId) + Lit("DEBITNOTE") + rest
  {
    hide Lit, Upper, Decimal, ConcatenateReceiptTaxes;
  }
}
