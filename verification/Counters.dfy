/** Fiscal-day counters as a ledger (accumulateCounters, mergeCurrencyCase in src/core/device.ts). */
module Counters {
  import opened Text
  import opened Options
  import opened Ledger

  /** One amount to be folded into the counter it belongs to. */
  datatype Posting = Posting(kind: CounterKind, currency: Str, taxPercent: Option<int>, taxID: Option<int>,
                             moneyType: Option<MoneyType>, value: int)

  function Sign(t: ReceiptType): int { if t.CreditNote? then -1 else 1 }

  function ByTax(t: ReceiptType): CounterKind {
    match t case FiscalInvoice => SaleByTax case CreditNote => CreditNoteByTax case DebitNote => DebitNoteByTax
  }

  function TaxByTax(t: ReceiptType): CounterKind {
    match t case FiscalInvoice => SaleTaxByTax case CreditNote => CreditNoteTaxByTax case DebitNote => DebitNoteTaxByTax
  }

  function TaxPosting(b: Bill, t: Tax, kind: CounterKind, amount: int): Posting {
    Posting(kind, Upper(b.currency), t.taxPercent, Some(t.taxID), None, Sign(b.receiptType) * amount)
  }

  function PaymentPosting(b: Bill, p: Payment): Posting {
    Posting(BalanceByMoneyType, Upper(b.currency), None, None, Some(p.moneyType), Sign(b.receiptType) * p.amount)
  }

  function TaxPostings(b: Bill, n: nat): seq<Posting>
    requires n <= |b.taxes|
  {
    if n == 0 then []
    else TaxPostings(b, n - 1) + [TaxPosting(b, b.taxes[n - 1], ByTax(b.receiptType), b.taxes[n - 1].sales),
                                  TaxPosting(b, b.taxes[n - 1], TaxByTax(b.receiptType), b.taxes[n - 1].taxAmount)]
  }

  function PaymentPostings(b: Bill, n: nat): seq<Posting>
    requires n <= |b.payments|
  {
    if n == 0 then [] else PaymentPostings(b, n - 1) + [PaymentPosting(b, b.payments[n - 1])]
  }

  /** The double entry of a receipt: what was sold, by tax; what was paid, by money type. */
  function Postings(b: Bill): seq<Posting> {
    TaxPostings(b, |b.taxes|) + PaymentPostings(b, |b.payments|)
  }

  /** The counter that a posting goes to, if there is one already. */
  predicate Matches(c: Counter, p: Posting) {
    && c.kind == p.kind && Upper(c.currency) == p.currency
    && (if p.kind.BalanceByMoneyType? then c.moneyType == p.moneyType else c.taxID == p.taxID)
  }

  function Opened(p: Posting): Counter {
    Counter(p.kind, p.currency, p.taxPercent, p.taxID, p.moneyType, p.value)
  }

  function Post(cs: seq<Counter>, p: Posting): seq<Counter> {
    if cs == [] then [Opened(p)]
    else if Matches(cs[0], p) then [cs[0].(value := cs[0].value + p.value)] + cs[1..]
    else [cs[0]] + Post(cs[1..], p)
  }

  function Posted(cs: seq<Counter>, ps: seq<Posting>): seq<Counter> {
    if ps == [] then cs else Post(Posted(cs, ps[..|ps| - 1]), ps[|ps| - 1])
  }

  function Accumulated(cs: seq<Counter>, b: Bill): seq<Counter> {
    Posted(cs, Postings(b))
  }

  lemma PostUnfolds(cs: seq<Counter>, p: Posting)
    ensures cs == [] ==> Post(cs, p) == [Opened(p)]
    ensures cs != [] && Matches(cs[0], p) ==> Post(cs, p) == [cs[0].(value := cs[0].value + p.value)] + cs[1..]
    ensures cs != [] && !Matches(cs[0], p) ==> Post(cs, p) == [cs[0]] + Post(cs[1..], p)
  {
    hide Matches;
  }

  /** The counters of a day, which accumulateCounters changes in place. */
  class CounterTable {
    var counters: seq<Counter>

    constructor (cs: seq<Counter>)
      ensures counters == cs
    {
      counters := cs;
    }

    method Upsert(p: Posting)
      modifies this
      ensures counters == Post(old(counters), p)
    {
      hide Matches, Post;
      var i := 0;
      assert counters[0..] == counters;
      while i < |counters| && !Matches(counters[i], p)
        invariant 0 <= i <= |counters| && counters == old(counters)
        invariant Post(counters, p) == counters[..i] + Post(counters[i..], p)
      {
        ghost var rest := counters[i..];
        PostUnfolds(rest, p);
        assert rest[1..] == counters[i + 1..];
        assert counters[..i] + ([rest[0]] + Post(rest[1..], p)) == counters[..i + 1] + Post(rest[1..], p);
        i := i + 1;
      }
      ghost var rest := counters[i..];
      PostUnfolds(rest, p);
      if i < |counters| {
        assert rest[0] == counters[i] && rest[1..] == counters[i + 1..];
        var raised := counters[i].(value := counters[i].value + p.value);
        assert counters[i := raised] == counters[..i] + ([raised] + counters[i + 1..]);
        counters := counters[i := raised];
      } else {
        assert counters[..i] == counters && rest == [];
        counters := counters + [Opened(p)];
      }
    }

    method Accumulate(b: Bill)
      modifies this
      ensures counters == Accumulated(old(counters), b)
    {
      hide Posted, Post, TaxPosting, PaymentPosting, TaxPostings, PaymentPostings;
      ghost var cs := counters;
      NothingPosted(cs, b);
      for i := 0 to |b.taxes|
        invariant counters == Posted(cs, TaxPostings(b, i))
      {
        var t := b.taxes[i];
        Upsert(TaxPosting(b, t, ByTax(b.receiptType), t.sales));
        Upsert(TaxPosting(b, t, TaxByTax(b.receiptType), t.taxAmount));
        TaxPosted(cs, b, i);
      }
      ghost var taxes := TaxPostings(b, |b.taxes|);
      for i := 0 to |b.payments|
        invariant counters == Posted(cs, taxes + PaymentPostings(b, i))
      {
        Upsert(PaymentPosting(b, b.payments[i]));
        PaymentPosted(cs, taxes, b, i);
      }
    }
  }

  lemma NothingPosted(cs: seq<Counter>, b: Bill)
    ensures Posted(cs, TaxPostings(b, 0)) == cs
    ensures forall ps: seq<Posting> :: ps + PaymentPostings(b, 0) == ps
  {
  }

  /** One tax more is two postings more. */
  lemma TaxPosted(cs: seq<Counter>, b: Bill, i: nat)
    requires i < |b.taxes|
    ensures
      var t := b.taxes[i];
      var one := TaxPosting(b, t, ByTax(b.receiptType), t.sales);
      var two := TaxPosting(b, t, TaxByTax(b.receiptType), t.taxAmount);
      Posted(cs, TaxPostings(b, i + 1)) == Post(Post(Posted(cs, TaxPostings(b, i)), one), two)
  {
    hide Posted, Post, TaxPosting;
    var t := b.taxes[i];
    PostedTwo(cs, TaxPostings(b, i), TaxPosting(b, t, ByTax(b.receiptType), t.sales),
              TaxPosting(b, t, TaxByTax(b.receiptType), t.taxAmount));
  }

  lemma PaymentPosted(cs: seq<Counter>, ps: seq<Posting>, b: Bill, i: nat)
    requires i < |b.payments|
    ensures Posted(cs, ps + PaymentPostings(b, i + 1)) ==
            Post(Posted(cs, ps + PaymentPostings(b, i)), PaymentPosting(b, b.payments[i]))
  {
    hide Posted, Post, PaymentPosting;
    var p := PaymentPosting(b, b.payments[i]);
    PostedOne(cs, ps + PaymentPostings(b, i), p);
    assert ps + PaymentPostings(b, i + 1) == ps + PaymentPostings(b, i) + [p];
  }

  lemma PostedOne(cs: seq<Counter>, ps: seq<Posting>, p: Posting)
    ensures Posted(cs, ps + [p]) == Post(Posted(cs, ps), p)
  {
    assert (ps + [p])[..|ps|] == ps;
  }

  lemma PostedTwo(cs: seq<Counter>, ps: seq<Posting>, p: Posting, q: Posting)
    ensures Posted(cs, ps + [p, q]) == Post(Post(Posted(cs, ps), p), q)
  {
    hide Posted, Post;
    PostedOne(cs, ps, p);
    PostedOne(cs, ps + [p], q);
    assert ps + [p, q] == ps + [p] + [q];
  }

  // -- what the counters hold ----------------------------------------------

  /** What identifies a counter. */
  datatype Key = Key(kind: CounterKind, currency: Str, taxID: Option<int>, moneyType: Option<MoneyType>)

  function KeyOf(c: Counter): Key { Key(c.kind, Upper(c.currency), c.taxID, c.moneyType) }
  function KeyOfPosting(p: Posting): Key { Key(p.kind, p.currency, p.taxID, p.moneyType) }

  /** Amounts by tax carry a tax ID only, balances a money type only; payouts are never counted. */
  predicate Shaped(k: Key) {
    && !k.kind.PayoutByTax? && !k.kind.PayoutTaxByTax? && Upper(k.currency) == k.currency
    && (if k.kind.BalanceByMoneyType? then k.taxID.None? && k.moneyType.Some? else k.taxID.Some? && k.moneyType.None?)
  }

  /** Counters as accumulateCounters leaves them: shaped, in upper case, one a key. */
  predicate Built(cs: seq<Counter>) {
    && (forall i :: 0 <= i < |cs| ==> Shaped(KeyOf(cs[i])) && cs[i].currency == Upper(cs[i].currency))
    && (forall i, j :: 0 <= i < j < |cs| ==> KeyOf(cs[i]) != KeyOf(cs[j]))
  }

  predicate ShapedPostings(ps: seq<Posting>) {
    forall i :: 0 <= i < |ps| ==> Shaped(KeyOfPosting(ps[i]))
  }

  /** Posting keeps every key and adds at most the posting's own, at the end. */
  lemma {:induction false} PostKeepsKeys(cs: seq<Counter>, p: Posting)
    requires Built(cs) && Shaped(KeyOfPosting(p))
    ensures var r := Post(cs, p);
            && |cs| <= |r| <= |cs| + 1
            && (forall i :: 0 <= i < |cs| ==> r[i] == cs[i].(value := r[i].value))
            && (|r| > |cs| ==> r[|cs|] == Opened(p) && forall i :: 0 <= i < |cs| ==> KeyOf(cs[i]) != KeyOfPosting(p))
  {
    var r := Post(cs, p);
    if cs != [] && !Matches(cs[0], p) {
      PostKeepsKeys(cs[1..], p);
      assert forall i :: 1 <= i < |r| ==> r[i] == Post(cs[1..], p)[i - 1];
      assert forall i :: 1 <= i < |cs| ==> cs[i] == cs[1..][i - 1];
    }
  }

  lemma PostBuilds(cs: seq<Counter>, p: Posting)
    requires Built(cs) && Shaped(KeyOfPosting(p))
    ensures Built(Post(cs, p))
  {
    PostKeepsKeys(cs, p);
    var r := Post(cs, p);
    hide Post;
    assert forall i :: 0 <= i < |cs| ==> KeyOf(r[i]) == KeyOf(cs[i]);
  }

  lemma {:induction false} PostedBuilds(cs: seq<Counter>, ps: seq<Posting>)
    requires Built(cs) && ShapedPostings(ps)
    ensures Built(Posted(cs, ps))
  {
    if ps != [] {
      PostedBuilds(cs, ps[..|ps| - 1]);
      PostBuilds(Posted(cs, ps[..|ps| - 1]), ps[|ps| - 1]);
    }
  }

  lemma {:induction false} TaxPostingsShaped(b: Bill, n: nat)
    requires n <= |b.taxes|
    ensures ShapedPostings(TaxPostings(b, n))
  {
    if n > 0 {
      TaxPostingsShaped(b, n - 1);
      UpperTwice(b.currency);
    }
  }

  lemma {:induction false} PaymentPostingsShaped(b: Bill, n: nat)
    requires n <= |b.payments|
    ensures ShapedPostings(PaymentPostings(b, n))
  {
    if n > 0 {
      PaymentPostingsShaped(b, n - 1);
      UpperTwice(b.currency);
    }
  }

  /** Counter keys stay unique and shaped, whatever receipts are folded in. */
  lemma AccumulateKeepsBuilt(cs: seq<Counter>, b: Bill)
    requires Built(cs)
    ensures Built(Accumulated(cs, b))
  {
    TaxPostingsShaped(b, |b.taxes|);
    PaymentPostingsShaped(b, |b.payments|);
    PostedBuilds(cs, Postings(b));
  }

  /** A question to the ledger: one counter, all of one kind, or all amounts sold or paid in a currency. */
  datatype Query =
    AtKey(key: Key) | OfKind(kind: CounterKind, currency: Str) | Sold(currency: Str) | Paid(currency: Str)

  predicate Asks(q: Query, k: Key) {
    match q
    case AtKey(key) => k == key
    case OfKind(kind, cur) => k.currency == cur && k.kind == kind
    case Sold(cur) => k.currency == cur && (k.kind.SaleByTax? || k.kind.CreditNoteByTax? || k.kind.DebitNoteByTax?)
    case Paid(cur) => k.currency == cur && k.kind.BalanceByMoneyType?
  }

  function Held(q: Query, cs: seq<Counter>): int {
    if cs == [] then 0 else (if Asks(q, KeyOf(cs[0])) then cs[0].value else 0) + Held(q, cs[1..])
  }

  function Sum(q: Query, ps: seq<Posting>): int {
    if ps == [] then 0
    else Sum(q, ps[..|ps| - 1]) + (if Asks(q, KeyOfPosting(ps[|ps| - 1])) then ps[|ps| - 1].value else 0)
  }

  lemma {:induction false} PostAdds(q: Query, cs: seq<Counter>, p: Posting)
    requires Built(cs) && Shaped(KeyOfPosting(p))
    ensures Held(q, Post(cs, p)) == Held(q, cs) + (if Asks(q, KeyOfPosting(p)) then p.value else 0)
  {
    var r := Post(cs, p);
    if cs == [] {
      assert r[1..] == [];
    } else if Matches(cs[0], p) {
      assert r[1..] == cs[1..];
      assert KeyOf(cs[0]) == KeyOfPosting(p);
    } else {
      PostAdds(q, cs[1..], p);
      assert r[1..] == Post(cs[1..], p);
    }
  }

  /** Every counter, and every total over counters, is exactly the sum of its postings. */
  lemma {:induction false} PostedAdds(q: Query, cs: seq<Counter>, ps: seq<Posting>)
    requires Built(cs) && ShapedPostings(ps)
    ensures Held(q, Posted(cs, ps)) == Held(q, cs) + Sum(q, ps)
  {
    if ps != [] {
      var p := ps[..|ps| - 1];
      PostedAdds(q, cs, p);
      PostedBuilds(cs, p);
      PostAdds(q, Posted(cs, p), ps[|ps| - 1]);
    }
  }

  lemma {:induction false} SumSplits(q: Query, ps: seq<Posting>, rs: seq<Posting>)
    ensures Sum(q, ps + rs) == Sum(q, ps) + Sum(q, rs)
  {
    if rs == [] {
      assert ps + rs == ps;
    } else {
      SumSplits(q, ps, rs[..|rs| - 1]);
      assert (ps + rs)[..|ps + rs| - 1] == ps + rs[..|rs| - 1];
    }
  }

  // -- double entry --------------------------------------------------------

  function Signed(b: Bill): int { Sign(b.receiptType) * b.total }

  lemma SumOfTwo(q: Query, ps: seq<Posting>, p: Posting, r: Posting)
    ensures Sum(q, ps + [p, r]) == Sum(q, ps)
      + (if Asks(q, KeyOfPosting(p)) then p.value else 0) + (if Asks(q, KeyOfPosting(r)) then r.value else 0)
  {
    assert (ps + [p, r])[..|ps| + 1] == ps + [p] && (ps + [p])[..|ps|] == ps;
  }

  lemma Distribute(k: int, a: int, b: int)
    ensures k * (a + b) == k * a + k * b
  {
  }

  lemma {:induction false} TaxesSold(b: Bill, cur: Str, n: nat)
    requires n <= |b.taxes|
    ensures Sum(Sold(cur), TaxPostings(b, n))
         == (if Upper(b.currency) == cur then Sign(b.receiptType) * SumOfTaxes(ALL_SALES, b.taxes[..n]) else 0)
    ensures Sum(Paid(cur), TaxPostings(b, n)) == 0
  {
    if n > 0 {
      TaxesSold(b, cur, n - 1);
      var t := b.taxes[n - 1];
      var one := TaxPosting(b, t, ByTax(b.receiptType), t.sales);
      var two := TaxPosting(b, t, TaxByTax(b.receiptType), t.taxAmount);
      SumOfTwo(Sold(cur), TaxPostings(b, n - 1), one, two);
      SumOfTwo(Paid(cur), TaxPostings(b, n - 1), one, two);
      assert b.taxes[..n][..n - 1] == b.taxes[..n - 1];
      hide Sum, Upper;
      assert SumOfTaxes(ALL_SALES, b.taxes[..n]) == SumOfTaxes(ALL_SALES, b.taxes[..n - 1]) + t.sales;
      Distribute(Sign(b.receiptType), SumOfTaxes(ALL_SALES, b.taxes[..n - 1]), t.sales);
    }
  }

  lemma {:induction false} PaymentsPaid(b: Bill, cur: Str, n: nat)
    requires n <= |b.payments|
    ensures Sum(Paid(cur), PaymentPostings(b, n))
         == (if Upper(b.currency) == cur then Sign(b.receiptType) * PaymentsTotal(b.payments[..n]) else 0)
    ensures Sum(Sold(cur), PaymentPostings(b, n)) == 0
  {
    if n > 0 {
      PaymentsPaid(b, cur, n - 1);
      assert b.payments[..n][..n - 1] == b.payments[..n - 1];
      var ps := PaymentPostings(b, n - 1);
      assert (ps + [PaymentPosting(b, b.payments[n - 1])])[..|ps|] == ps;
      Distribute(Sign(b.receiptType), PaymentsTotal(b.payments[..n - 1]), b.payments[n - 1].amount);
      hide Upper;
    }
  }

  function CountersAfter(bs: seq<Bill>): seq<Counter> {
    if bs == [] then [] else Accumulated(CountersAfter(bs[..|bs| - 1]), bs[|bs| - 1])
  }

  function Turnover(bs: seq<Bill>, cur: Str): int {
    if bs == [] then 0
    else Turnover(bs[..|bs| - 1], cur) + (if Upper(bs[|bs| - 1].currency) == cur then Signed(bs[|bs| - 1]) else 0)
  }

  lemma OneBill(cs: seq<Counter>, b: Bill, cur: Str)
    requires Built(cs) && Balanced(b)
    ensures var d := if Upper(b.currency) == cur then Signed(b) else 0;
            && Held(Sold(cur), Accumulated(cs, b)) == Held(Sold(cur), cs) + d
            && Held(Paid(cur), Accumulated(cs, b)) == Held(Paid(cur), cs) + d
  {
    BillBalances(b);
    TaxPostingsShaped(b, |b.taxes|);
    PaymentPostingsShaped(b, |b.payments|);
    PostedAdds(Sold(cur), cs, Postings(b));
    PostedAdds(Paid(cur), cs, Postings(b));
    SumSplits(Sold(cur), TaxPostings(b, |b.taxes|), PaymentPostings(b, |b.payments|));
    SumSplits(Paid(cur), TaxPostings(b, |b.taxes|), PaymentPostings(b, |b.payments|));
    TaxesSold(b, cur, |b.taxes|);
    PaymentsPaid(b, cur, |b.payments|);
    assert b.taxes[..|b.taxes|] == b.taxes && b.payments[..|b.payments|] == b.payments;
  }

  /**
   * Double entry: after any receipts, in every currency, what the sale, credit
   * and debit counters hold, what the balance counters hold and what the
   * receipts were for, with sign, are one amount.
   */
  lemma {:induction false} DoubleEntry(bs: seq<Bill>, cur: Str)
    requires forall i :: 0 <= i < |bs| ==> Balanced(bs[i])
    ensures Built(CountersAfter(bs))
    ensures Held(Sold(cur), CountersAfter(bs)) == Held(Paid(cur), CountersAfter(bs)) == Turnover(bs, cur)
  {
    if bs != [] {
      DoubleEntry(bs[..|bs| - 1], cur);
      AccumulateKeepsBuilt(CountersAfter(bs[..|bs| - 1]), bs[|bs| - 1]);
      OneBill(CountersAfter(bs[..|bs| - 1]), bs[|bs| - 1], cur);
    }
  }

  // -- kind by kind --------------------------------------------------------

  /** What the first n taxes of a receipt put on the counters of a kind, before its sign. */
  function TaxPart(b: Bill, kind: CounterKind, n: nat): int
    requires n <= |b.taxes|
  {
    if kind == ByTax(b.receiptType) then SumOfTaxes(ALL_SALES, b.taxes[..n])
    else if kind == TaxByTax(b.receiptType) then SumOfTaxes(ALL_TAX, b.taxes[..n])
    else 0
  }

  function Part(b: Bill, kind: CounterKind): int {
    if kind.BalanceByMoneyType? then PaymentsTotal(b.payments) else TaxPart(b, kind, |b.taxes|)
  }

  lemma {:induction false} TaxesOfKind(b: Bill, kind: CounterKind, cur: Str, n: nat)
    requires n <= |b.taxes|
    ensures Sum(OfKind(kind, cur), TaxPostings(b, n))
         == (if Upper(b.currency) == cur then Sign(b.receiptType) * TaxPart(b, kind, n) else 0)
  {
    if n > 0 {
      TaxesOfKind(b, kind, cur, n - 1);
      var t := b.taxes[n - 1];
      var one := TaxPosting(b, t, ByTax(b.receiptType), t.sales);
      var two := TaxPosting(b, t, TaxByTax(b.receiptType), t.taxAmount);
      SumOfTwo(OfKind(kind, cur), TaxPostings(b, n - 1), one, two);
      assert b.taxes[..n][..n - 1] == b.taxes[..n - 1];
      hide Sum, Upper;
      assert SumOfTaxes(ALL_SALES, b.taxes[..n]) == SumOfTaxes(ALL_SALES, b.taxes[..n - 1]) + t.sales;
      assert SumOfTaxes(ALL_TAX, b.taxes[..n]) == SumOfTaxes(ALL_TAX, b.taxes[..n - 1]) + t.taxAmount;
      Distribute(Sign(b.receiptType), SumOfTaxes(ALL_SALES, b.taxes[..n - 1]), t.sales);
      Distribute(Sign(b.receiptType), SumOfTaxes(ALL_TAX, b.taxes[..n - 1]), t.taxAmount);
    }
  }

  lemma {:induction false} PaymentsOfKind(b: Bill, kind: CounterKind, cur: Str, n: nat)
    requires n <= |b.payments|
    ensures Sum(OfKind(kind, cur), PaymentPostings(b, n))
         == (if Upper(b.currency) == cur && kind.BalanceByMoneyType? then
               Sign(b.receiptType) * PaymentsTotal(b.payments[..n]) else 0)
  {
    if n > 0 {
      PaymentsOfKind(b, kind, cur, n - 1);
      assert b.payments[..n][..n - 1] == b.payments[..n - 1];
      var ps := PaymentPostings(b, n - 1);
      assert (ps + [PaymentPosting(b, b.payments[n - 1])])[..|ps|] == ps;
      Distribute(Sign(b.receiptType), PaymentsTotal(b.payments[..n - 1]), b.payments[n - 1].amount);
      hide Upper;
    }
  }

  function KindTotal(bs: seq<Bill>, kind: CounterKind, cur: Str): int {
    if bs == [] then 0
    else
      var b := bs[|bs| - 1];
      KindTotal(bs[..|bs| - 1], kind, cur)
      + (if Upper(b.currency) == cur then Sign(b.receiptType) * Part(b, kind) else 0)
  }

  lemma OneBillOfKind(cs: seq<Counter>, b: Bill, kind: CounterKind, cur: Str)
    requires Built(cs)
    ensures Held(OfKind(kind, cur), Accumulated(cs, b)) ==
            Held(OfKind(kind, cur), cs) + (if Upper(b.currency) == cur then Sign(b.receiptType) * Part(b, kind) else 0)
  {
    hide Built, Upper, Held, Sum, SumOfTaxes, PaymentsTotal, ShapedPostings;
    TaxPostingsShaped(b, |b.taxes|);
    PaymentPostingsShaped(b, |b.payments|);
    PostingsShaped(b);
    PostedAdds(OfKind(kind, cur), cs, Postings(b));
    SumSplits(OfKind(kind, cur), TaxPostings(b, |b.taxes|), PaymentPostings(b, |b.payments|));
    TaxesOfKind(b, kind, cur, |b.taxes|);
    PaymentsOfKind(b, kind, cur, |b.payments|);
    assert b.payments[..|b.payments|] == b.payments;
  }

  lemma PostingsShaped(b: Bill)
    requires ShapedPostings(TaxPostings(b, |b.taxes|)) && ShapedPostings(PaymentPostings(b, |b.payments|))
    ensures ShapedPostings(Postings(b))
  {
  }

  /**
   * Kind by kind and currency by currency, the counters hold the signed sales of
   * the receipts of that type, their signed tax, or their signed payments.
   */
  lemma {:induction false} KindTotals(bs: seq<Bill>, kind: CounterKind, cur: Str)
    ensures Built(CountersAfter(bs))
    ensures Held(OfKind(kind, cur), CountersAfter(bs)) == KindTotal(bs, kind, cur)
  {
    hide Built, Upper, Part;
    if bs == [] {
      assert Built([]) by { NothingIsBuilt(); }
    } else {
      KindTotals(bs[..|bs| - 1], kind, cur);
      AccumulateKeepsBuilt(CountersAfter(bs[..|bs| - 1]), bs[|bs| - 1]);
      OneBillOfKind(CountersAfter(bs[..|bs| - 1]), bs[|bs| - 1], kind, cur);
    }
  }

  lemma NothingIsBuilt()
    ensures Built([])
  {
  }

  // -- merging currencies written in two cases -----------------------------

  function MergeOne(merged: seq<Counter>, c: Counter): seq<Counter> {
    if merged == [] then [c.(currency := Upper(c.currency))]
    else if merged[0].kind == c.kind && merged[0].currency == Upper(c.currency)
            && merged[0].taxID == c.taxID && merged[0].moneyType == c.moneyType then
      [merged[0].(value := merged[0].value + c.value)] + merged[1..]
    else [merged[0]] + MergeOne(merged[1..], c)
  }

  function Merged(cs: seq<Counter>): seq<Counter> {
    if cs == [] then [] else MergeOne(Merged(cs[..|cs| - 1]), cs[|cs| - 1])
  }

  method MergeCurrencyCase(cs: seq<Counter>) returns (merged: seq<Counter>)
    ensures merged == Merged(cs)
  {
    merged := [];
    for i := 0 to |cs|
      invariant merged == Merged(cs[..i])
    {
      assert cs[..i + 1][..i] == cs[..i];
      merged := MergeOne(merged, cs[i]);
    }
    assert cs[..|cs|] == cs;
  }

  lemma {:induction false} MergeOneAppends(merged: seq<Counter>, c: Counter)
    requires forall i :: 0 <= i < |merged| ==>
               merged[i].currency == Upper(merged[i].currency) && KeyOf(merged[i]) != KeyOf(c)
    requires c.currency == Upper(c.currency)
    ensures MergeOne(merged, c) == merged + [c]
  {
    if merged != [] {
      MergeOneAppends(merged[1..], c);
      assert merged == [merged[0]] + merged[1..];
    }
  }

  /** On counters the device built itself, merging changes nothing. */
  lemma {:induction false} MergeIsIdentity(cs: seq<Counter>)
    requires Built(cs)
    ensures Merged(cs) == cs
  {
    hide MergeOne, Upper, Shaped, KeyOf;
    if cs != [] {
      var init, last := cs[..|cs| - 1], cs[|cs| - 1];
      MergeIsIdentity(init);
      MergeOneAppends(init, last);
      assert cs == init + [last];
    }
  }

  /** Merging loses nothing, whatever the case: every counter and every total holds what it held. */
  lemma {:induction false} MergeConserves(q: Query, cs: seq<Counter>)
    ensures Held(q, Merged(cs)) == Held(q, cs)
    ensures forall i :: 0 <= i < |Merged(cs)| ==> Merged(cs)[i].currency == Upper(Merged(cs)[i].currency)
  {
    if cs != [] {
      var init, last := cs[..|cs| - 1], cs[|cs| - 1];
      MergeConserves(q, init);
      MergeOneAdds(q, Merged(init), last);
      HeldAtEnd(q, init, last);
      assert cs == init + [last];
    }
  }

  lemma {:induction false} MergeOneAdds(q: Query, merged: seq<Counter>, c: Counter)
    requires forall i :: 0 <= i < |merged| ==> merged[i].currency == Upper(merged[i].currency)
    ensures Held(q, MergeOne(merged, c)) == Held(q, merged) + (if Asks(q, KeyOf(c)) then c.value else 0)
    ensures var r := MergeOne(merged, c); forall i :: 0 <= i < |r| ==> r[i].currency == Upper(r[i].currency)
  {
    UpperTwice(c.currency);
    var r := MergeOne(merged, c);
    if merged != [] {
      var rest := merged[1..];
      assert forall i :: 0 <= i < |rest| ==> rest[i] == merged[i + 1];
      if r[0] == merged[0] && r[1..] == MergeOne(rest, c) {
        MergeOneAdds(q, rest, c);
        assert forall i :: 1 <= i < |r| ==> r[i] == MergeOne(rest, c)[i - 1];
      } else {
        assert r[1..] == rest;
      }
    } else {
      assert r[1..] == [];
    }
  }

  lemma {:induction false} HeldAtEnd(q: Query, cs: seq<Counter>, c: Counter)
    ensures Held(q, cs + [c]) == Held(q, cs) + (if Asks(q, KeyOf(c)) then c.value else 0)
  {
    if cs == [] {
      assert ([] + [c])[1..] == [];
    } else {
      assert (cs + [c])[1..] == cs[1..] + [c];
      HeldAtEnd(q, cs[1..], c);
    }
  }

  /** In upper case, and one counter a key. */
  predicate Apart(cs: seq<Counter>) {
    && (forall i :: 0 <= i < |cs| ==> cs[i].currency == Upper(cs[i].currency))
    && (forall i, j :: 0 <= i < j < |cs| ==> KeyOf(cs[i]) != KeyOf(cs[j]))
  }

  lemma {:induction false} MergeOneKeys(merged: seq<Counter>, c: Counter)
    requires Apart(merged)
    ensures
      var r := MergeOne(merged, c);
      && Apart(r) && |merged| <= |r| <= |merged| + 1
      && (forall i :: 0 <= i < |merged| ==> KeyOf(r[i]) == KeyOf(merged[i]))
      && (|r| > |merged| ==>
            KeyOf(r[|merged|]) == KeyOf(c) && forall i :: 0 <= i < |merged| ==> KeyOf(merged[i]) != KeyOf(c))
  {
    hide Upper, Shaped;
    UpperTwice(c.currency);
    var r := MergeOne(merged, c);
    if merged != [] {
      var rest := merged[1..];
      assert forall i :: 0 <= i < |rest| ==> rest[i] == merged[i + 1];
      if KeyOf(merged[0]) == KeyOf(c) {
        assert forall i :: 1 <= i < |r| ==> r[i] == merged[i];
      } else {
        MergeOneKeys(rest, c);
        assert r == [merged[0]] + MergeOne(rest, c);
        assert forall i :: 1 <= i < |r| ==> r[i] == MergeOne(rest, c)[i - 1];
      }
    }
  }

  /** Merging leaves one counter a key, in upper case. */
  lemma {:induction false} MergedApart(cs: seq<Counter>)
    ensures Apart(Merged(cs))
  {
    hide Apart, MergeOne;
    if cs == [] {
      assert Apart([]) by { NothingApart(); }
    } else {
      MergedApart(cs[..|cs| - 1]);
      MergeOneKeys(Merged(cs[..|cs| - 1]), cs[|cs| - 1]);
    }
  }

  lemma NothingApart()
    ensures Apart([])
  {
  }
}
