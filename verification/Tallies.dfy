/** What each counter of a day holds, entry by entry of the receipts that went into it. */
module Tallies {
  import opened Text
  import opened Options
  import opened Ledger
  import opened Counters

  /** The sales, and the tax, of the entries with one tax ID. */
  function SalesUnder(ts: seq<Tax>, id: int): int {
    if ts == [] then 0
    else SalesUnder(ts[..|ts| - 1], id) + (if ts[|ts| - 1].taxID == id then ts[|ts| - 1].sales else 0)
  }

  function TaxUnder(ts: seq<Tax>, id: int): int {
    if ts == [] then 0
    else TaxUnder(ts[..|ts| - 1], id) + (if ts[|ts| - 1].taxID == id then ts[|ts| - 1].taxAmount else 0)
  }

  /** The payments of one money type. */
  function PaidIn(ps: seq<Payment>, m: MoneyType): int {
    if ps == [] then 0
    else PaidIn(ps[..|ps| - 1], m) + (if ps[|ps| - 1].moneyType == m then ps[|ps| - 1].amount else 0)
  }

  /** What a receipt with these taxes adds to the counter of a kind and a tax ID; a credit note subtracts. */
  function TaxGrowth(t: ReceiptType, ts: seq<Tax>, kind: CounterKind, id: int): int {
    match kind
    case SaleByTax => if t.FiscalInvoice? then SalesUnder(ts, id) else 0
    case SaleTaxByTax => if t.FiscalInvoice? then TaxUnder(ts, id) else 0
    case CreditNoteByTax => if t.CreditNote? then -SalesUnder(ts, id) else 0
    case CreditNoteTaxByTax => if t.CreditNote? then -TaxUnder(ts, id) else 0
    case DebitNoteByTax => if t.DebitNote? then SalesUnder(ts, id) else 0
    case DebitNoteTaxByTax => if t.DebitNote? then TaxUnder(ts, id) else 0
    case _ => 0
  }

  /** What it adds to the balance of a money type. */
  function MoneyGrowth(t: ReceiptType, ps: seq<Payment>, m: MoneyType): int {
    if t.CreditNote? then -PaidIn(ps, m) else PaidIn(ps, m)
  }

  function TaxKeyOf(kind: CounterKind, cur: Str, id: int): Key { Key(kind, cur, Some(id), None) }
  function MoneyKeyOf(cur: Str, m: MoneyType): Key { Key(BalanceByMoneyType, cur, None, Some(m)) }

  // -- one receipt ---------------------------------------------------------

  lemma {:induction false} TaxPostingsUnder(b: Bill, kind: CounterKind, cur: Str, id: int, n: nat)
    requires n <= |b.taxes|
    ensures Sum(AtKey(TaxKeyOf(kind, cur, id)), TaxPostings(b, n)) ==
            if Upper(b.currency) == cur then TaxGrowth(b.receiptType, b.taxes[..n], kind, id) else 0
  {
    if n > 0 {
      TaxPostingsUnder(b, kind, cur, id, n - 1);
      assert b.taxes[..n][..n - 1] == b.taxes[..n - 1];
      OneTaxMore(b, kind, cur, id, n);
    }
  }

  lemma OneTaxMore(b: Bill, kind: CounterKind, cur: Str, id: int, n: nat)
    requires 0 < n <= |b.taxes| && b.taxes[..n][..n - 1] == b.taxes[..n - 1]
    ensures
      var q := AtKey(TaxKeyOf(kind, cur, id));
      Sum(q, TaxPostings(b, n)) - Sum(q, TaxPostings(b, n - 1))
         == if Upper(b.currency) == cur then
              TaxGrowth(b.receiptType, b.taxes[..n], kind, id) - TaxGrowth(b.receiptType, b.taxes[..n - 1], kind, id)
            else 0
  {
    hide Sum, Upper;
    var t := b.taxes[n - 1];
    SumOfTwo(AtKey(TaxKeyOf(kind, cur, id)), TaxPostings(b, n - 1),
             TaxPosting(b, t, ByTax(b.receiptType), t.sales), TaxPosting(b, t, TaxByTax(b.receiptType), t.taxAmount));
  }

  /** No payment is posted to a tax, and no tax to a balance. */
  lemma {:induction false} PaymentPostingsUnder(b: Bill, kind: CounterKind, cur: Str, id: int, n: nat)
    requires n <= |b.payments|
    ensures Sum(AtKey(TaxKeyOf(kind, cur, id)), PaymentPostings(b, n)) == 0
  {
    if n > 0 {
      PaymentPostingsUnder(b, kind, cur, id, n - 1);
      var ps := PaymentPostings(b, n - 1);
      assert (ps + [PaymentPosting(b, b.payments[n - 1])])[..|ps|] == ps;
      hide Upper;
    }
  }

  lemma {:induction false} TaxPostingsIn(b: Bill, cur: Str, m: MoneyType, n: nat)
    requires n <= |b.taxes|
    ensures Sum(AtKey(MoneyKeyOf(cur, m)), TaxPostings(b, n)) == 0
  {
    if n > 0 {
      TaxPostingsIn(b, cur, m, n - 1);
      var t := b.taxes[n - 1];
      SumOfTwo(AtKey(MoneyKeyOf(cur, m)), TaxPostings(b, n - 1),
               TaxPosting(b, t, ByTax(b.receiptType), t.sales), TaxPosting(b, t, TaxByTax(b.receiptType), t.taxAmount));
      hide Sum, Upper;
    }
  }

  lemma {:induction false} PaymentPostingsIn(b: Bill, cur: Str, m: MoneyType, n: nat)
    requires n <= |b.payments|
    ensures Sum(AtKey(MoneyKeyOf(cur, m)), PaymentPostings(b, n)) ==
            if Upper(b.currency) == cur then MoneyGrowth(b.receiptType, b.payments[..n], m) else 0
  {
    if n > 0 {
      PaymentPostingsIn(b, cur, m, n - 1);
      assert b.payments[..n][..n - 1] == b.payments[..n - 1];
      var ps := PaymentPostings(b, n - 1);
      assert (ps + [PaymentPosting(b, b.payments[n - 1])])[..|ps|] == ps;
      hide Upper;
    }
  }

  /** accumulateCounters adds, to each counter of a tax ID, exactly the entries with that tax ID. */
  lemma AccumulatesTaxes(cs: seq<Counter>, b: Bill, kind: CounterKind, cur: Str, id: int)
    requires Built(cs)
    ensures Held(AtKey(TaxKeyOf(kind, cur, id)), Accumulated(cs, b)) ==
            Held(AtKey(TaxKeyOf(kind, cur, id)), cs)
            + (if Upper(b.currency) == cur then TaxGrowth(b.receiptType, b.taxes, kind, id) else 0)
  {
    hide Built, Upper, Held, Sum, TaxGrowth, TaxPostings, PaymentPostings;
    AllAdded(AtKey(TaxKeyOf(kind, cur, id)), cs, b);
    TaxPostingsUnder(b, kind, cur, id, |b.taxes|);
    PaymentPostingsUnder(b, kind, cur, id, |b.payments|);
    assert b.taxes[..|b.taxes|] == b.taxes;
  }

  /** And to each balance exactly the payments of its money type. */
  lemma AccumulatesPayments(cs: seq<Counter>, b: Bill, cur: Str, m: MoneyType)
    requires Built(cs)
    ensures Held(AtKey(MoneyKeyOf(cur, m)), Accumulated(cs, b)) ==
            Held(AtKey(MoneyKeyOf(cur, m)), cs)
            + (if Upper(b.currency) == cur then MoneyGrowth(b.receiptType, b.payments, m) else 0)
  {
    hide Built, Upper, Held, Sum, MoneyGrowth, TaxPostings, PaymentPostings;
    AllAdded(AtKey(MoneyKeyOf(cur, m)), cs, b);
    TaxPostingsIn(b, cur, m, |b.taxes|);
    PaymentPostingsIn(b, cur, m, |b.payments|);
    assert b.payments[..|b.payments|] == b.payments;
  }

  lemma AllAdded(q: Query, cs: seq<Counter>, b: Bill)
    requires Built(cs)
    ensures Held(q, Accumulated(cs, b)) ==
            Held(q, cs) + Sum(q, TaxPostings(b, |b.taxes|)) + Sum(q, PaymentPostings(b, |b.payments|))
  {
    hide Built, Held, Sum, ShapedPostings, TaxPostings, PaymentPostings;
    TaxPostingsShaped(b, |b.taxes|);
    PaymentPostingsShaped(b, |b.payments|);
    PostingsShaped(b);
    PostedAdds(q, cs, Postings(b));
    SumSplits(q, TaxPostings(b, |b.taxes|), PaymentPostings(b, |b.payments|));
  }

  // -- a day's receipts ----------------------------------------------------

  function TaxTally(bs: seq<Bill>, kind: CounterKind, cur: Str, id: int): int {
    if bs == [] then 0
    else
      var b := bs[|bs| - 1];
      TaxTally(bs[..|bs| - 1], kind, cur, id)
      + (if Upper(b.currency) == cur then TaxGrowth(b.receiptType, b.taxes, kind, id) else 0)
  }

  function MoneyTally(bs: seq<Bill>, cur: Str, m: MoneyType): int {
    if bs == [] then 0
    else
      var b := bs[|bs| - 1];
      MoneyTally(bs[..|bs| - 1], cur, m)
      + (if Upper(b.currency) == cur then MoneyGrowth(b.receiptType, b.payments, m) else 0)
  }

  lemma {:induction false} TaxesTallied(bs: seq<Bill>, kind: CounterKind, cur: Str, id: int)
    ensures Built(CountersAfter(bs))
    ensures Held(AtKey(TaxKeyOf(kind, cur, id)), CountersAfter(bs)) == TaxTally(bs, kind, cur, id)
  {
    hide Built, Upper, TaxGrowth, TaxKeyOf;
    if bs == [] {
      NothingIsBuilt();
    } else {
      var init, b := bs[..|bs| - 1], bs[|bs| - 1];
      TaxesTallied(init, kind, cur, id);
      AccumulateKeepsBuilt(CountersAfter(init), b);
      AccumulatesTaxes(CountersAfter(init), b, kind, cur, id);
    }
  }

  lemma {:induction false} MoneyTallied(bs: seq<Bill>, cur: Str, m: MoneyType)
    ensures Built(CountersAfter(bs))
    ensures Held(AtKey(MoneyKeyOf(cur, m)), CountersAfter(bs)) == MoneyTally(bs, cur, m)
  {
    hide Built, Upper, MoneyGrowth, MoneyKeyOf;
    if bs == [] {
      NothingIsBuilt();
    } else {
      var init, b := bs[..|bs| - 1], bs[|bs| - 1];
      MoneyTallied(init, cur, m);
      AccumulateKeepsBuilt(CountersAfter(init), b);
      AccumulatesPayments(CountersAfter(init), b, cur, m);
    }
  }

  lemma {:induction false} HeldAtKey(cs: seq<Counter>, c: Counter)
    requires Built(cs) && c in cs
    ensures Held(AtKey(KeyOf(c)), cs) == c.value
  {
    var rest := cs[1..];
    assert forall i :: 0 <= i < |rest| ==> rest[i] == cs[i + 1];
    if cs[0] == c {
      HeldNowhere(rest, KeyOf(c));
    } else {
      HeldAtKey(rest, c);
      assert KeyOf(cs[0]) != KeyOf(c);
    }
  }

  lemma {:induction false} HeldNowhere(cs: seq<Counter>, key: Key)
    requires forall i :: 0 <= i < |cs| ==> KeyOf(cs[i]) != key
    ensures Held(AtKey(key), cs) == 0
  {
    if cs != [] {
      HeldNowhere(cs[1..], key);
    }
  }

  /** After any receipts, each counter holds exactly the entries, or payments, that belong to it. */
  lemma EveryCounterTallies(bs: seq<Bill>, c: Counter)
    requires c in CountersAfter(bs)
    ensures if c.kind.BalanceByMoneyType? then
              c.moneyType.Some? && c.value == MoneyTally(bs, c.currency, c.moneyType.value)
            else c.taxID.Some? && c.value == TaxTally(bs, c.kind, c.currency, c.taxID.value)
  {
    hide CountersAfter, Held, Upper, TaxTally, MoneyTally;
    var cs := CountersAfter(bs);
    TaxesTallied(bs, c.kind, c.currency, if c.taxID.Some? then c.taxID.value else 0);
    MoneyTallied(bs, c.currency, if c.moneyType.Some? then c.moneyType.value else Cash);
    HeldAtKey(cs, c);
  }

  // -- which counters there are --------------------------------------------

  /** The percent on the counter with this key; None if there is no such counter. */
  function PercentAt(cs: seq<Counter>, key: Key): Option<Option<int>> {
    if cs == [] then None else if KeyOf(cs[0]) == key then Some(cs[0].taxPercent) else PercentAt(cs[1..], key)
  }

  lemma {:induction false} PercentOfCounter(cs: seq<Counter>, c: Counter)
    requires Built(cs) && c in cs
    ensures PercentAt(cs, KeyOf(c)) == Some(c.taxPercent)
  {
    if cs[0] != c {
      var rest := cs[1..];
      assert forall i :: 0 <= i < |rest| ==> rest[i] == cs[i + 1];
      PercentOfCounter(rest, c);
      assert KeyOf(cs[0]) != KeyOf(c);
    }
  }

  lemma {:induction false} CounterOfPercent(cs: seq<Counter>, key: Key) returns (c: Counter)
    requires PercentAt(cs, key).Some?
    ensures c in cs && KeyOf(c) == key
  {
    if KeyOf(cs[0]) == key {
      c := cs[0];
    } else {
      c := CounterOfPercent(cs[1..], key);
    }
  }

  /** A posting opens a counter with its own percent where there is none, and changes no other percent. */
  lemma {:induction false} PostPercent(cs: seq<Counter>, p: Posting, key: Key)
    requires Built(cs) && Shaped(KeyOfPosting(p))
    ensures PercentAt(Post(cs, p), key) ==
            if PercentAt(cs, key).None? && key == KeyOfPosting(p) then Some(p.taxPercent) else PercentAt(cs, key)
  {
    var r := Post(cs, p);
    if cs == [] {
      assert r[1..] == [];
    } else if Matches(cs[0], p) {
      assert r[1..] == cs[1..];
      assert KeyOf(cs[0]) == KeyOfPosting(p);
    } else {
      assert r[1..] == Post(cs[1..], p);
      PostPercent(cs[1..], p, key);
    }
  }

  /** The receipts of a type feed the two counter kinds of that type. */
  predicate Feeds(t: ReceiptType, kind: CounterKind) {
    match kind
    case SaleByTax => t.FiscalInvoice?
    case SaleTaxByTax => t.FiscalInvoice?
    case CreditNoteByTax => t.CreditNote?
    case CreditNoteTaxByTax => t.CreditNote?
    case DebitNoteByTax => t.DebitNote?
    case DebitNoteTaxByTax => t.DebitNote?
    case _ => false
  }

  /** The percent of the first entry with a tax ID. */
  function FirstUnder(ts: seq<Tax>, id: int): Option<Option<int>> {
    if ts == [] then None
    else if FirstUnder(ts[..|ts| - 1], id).Some? then FirstUnder(ts[..|ts| - 1], id)
    else if ts[|ts| - 1].taxID == id then Some(ts[|ts| - 1].taxPercent)
    else None
  }

  function FirstPercent(bs: seq<Bill>, kind: CounterKind, cur: Str, id: int): Option<Option<int>> {
    if bs == [] then None
    else
      var before, b := FirstPercent(bs[..|bs| - 1], kind, cur, id), bs[|bs| - 1];
      if before.Some? then before
      else if Feeds(b.receiptType, kind) && Upper(b.currency) == cur then FirstUnder(b.taxes, id)
      else None
  }

  lemma {:induction false} TaxPercents(cs: seq<Counter>, b: Bill, kind: CounterKind, cur: Str, id: int, n: nat)
    requires Built(cs) && n <= |b.taxes|
    ensures Built(Posted(cs, TaxPostings(b, n)))
    ensures PercentAt(Posted(cs, TaxPostings(b, n)), TaxKeyOf(kind, cur, id)) ==
            if PercentAt(cs, TaxKeyOf(kind, cur, id)).Some? then PercentAt(cs, TaxKeyOf(kind, cur, id))
            else if Feeds(b.receiptType, kind) && Upper(b.currency) == cur then FirstUnder(b.taxes[..n], id)
            else None
  {
    hide Built, Post, Posted, PercentAt, Shaped, TaxPostings, Upper;
    if n == 0 {
      NothingPosted(cs, b);
    } else {
      TaxPercents(cs, b, kind, cur, id, n - 1);
      assert b.taxes[..n][..n - 1] == b.taxes[..n - 1];
      OneTaxPercent(Posted(cs, TaxPostings(b, n - 1)), b, n, TaxKeyOf(kind, cur, id));
      TaxPosted(cs, b, n - 1);
    }
  }

  lemma OneTaxPercent(cs: seq<Counter>, b: Bill, n: nat, key: Key)
    requires Built(cs) && 0 < n <= |b.taxes|
    ensures
      var t := b.taxes[n - 1];
      var one := TaxPosting(b, t, ByTax(b.receiptType), t.sales);
      var two := TaxPosting(b, t, TaxByTax(b.receiptType), t.taxAmount);
      var r := Post(Post(cs, one), two);
      && Built(r)
      && PercentAt(r, key) ==
         if PercentAt(cs, key).None? && (key == KeyOfPosting(one) || key == KeyOfPosting(two)) then Some(t.taxPercent)
         else PercentAt(cs, key)
  {
    hide Built, Post, PercentAt, Upper;
    UpperTwice(b.currency);
    var t := b.taxes[n - 1];
    var one := TaxPosting(b, t, ByTax(b.receiptType), t.sales);
    var two := TaxPosting(b, t, TaxByTax(b.receiptType), t.taxAmount);
    PostPercent(cs, one, key);
    PostBuilds(cs, one);
    PostPercent(Post(cs, one), two, key);
    PostBuilds(Post(cs, one), two);
  }

  /** Payments open balances only, and these carry no percent. */
  lemma {:induction false} PaymentPercents(cs: seq<Counter>, ps: seq<Posting>, b: Bill, key: Key, n: nat)
    requires n <= |b.payments| && Built(Posted(cs, ps)) && key.taxID.Some?
    ensures Built(Posted(cs, ps + PaymentPostings(b, n)))
    ensures PercentAt(Posted(cs, ps + PaymentPostings(b, n)), key) == PercentAt(Posted(cs, ps), key)
  {
    hide Built, Post, Posted, PercentAt, PaymentPostings, Upper;
    if n == 0 {
      NothingPosted(cs, b);
    } else {
      PaymentPercents(cs, ps, b, key, n - 1);
      UpperTwice(b.currency);
      var before := Posted(cs, ps + PaymentPostings(b, n - 1));
      PostPercent(before, PaymentPosting(b, b.payments[n - 1]), key);
      PostBuilds(before, PaymentPosting(b, b.payments[n - 1]));
      PaymentPosted(cs, ps, b, n - 1);
    }
  }

  lemma {:induction false} PercentsAfter(bs: seq<Bill>, kind: CounterKind, cur: Str, id: int)
    ensures Built(CountersAfter(bs))
    ensures PercentAt(CountersAfter(bs), TaxKeyOf(kind, cur, id)) == FirstPercent(bs, kind, cur, id)
  {
    hide Built, PercentAt, Posted, TaxPostings, PaymentPostings, Upper, FirstUnder, Feeds;
    if bs == [] {
      NothingIsBuilt();
      assert PercentAt([], TaxKeyOf(kind, cur, id)) == None by { NoPercent(TaxKeyOf(kind, cur, id)); }
    } else {
      var init, b := bs[..|bs| - 1], bs[|bs| - 1];
      PercentsAfter(init, kind, cur, id);
      TaxPercents(CountersAfter(init), b, kind, cur, id, |b.taxes|);
      PaymentPercents(CountersAfter(init), TaxPostings(b, |b.taxes|), b, TaxKeyOf(kind, cur, id), |b.payments|);
      assert b.taxes[..|b.taxes|] == b.taxes;
    }
  }

  lemma NoPercent(key: Key)
    ensures PercentAt([], key) == None
  {
  }

  /**
   * After any receipts there is a counter for a kind, currency and tax ID if and
   * only if an entry belongs to it, and it carries the percent of the first.
   */
  lemma CounterKeepsFirstPercent(bs: seq<Bill>, kind: CounterKind, cur: Str, id: int)
    ensures (exists c :: c in CountersAfter(bs) && KeyOf(c) == TaxKeyOf(kind, cur, id)) <==>
            FirstPercent(bs, kind, cur, id).Some?
    ensures forall c :: c in CountersAfter(bs) && KeyOf(c) == TaxKeyOf(kind, cur, id) ==>
              FirstPercent(bs, kind, cur, id) == Some(c.taxPercent)
  {
    hide CountersAfter, PercentAt, FirstPercent, KeyOf, TaxKeyOf, Built;
    var cs, key := CountersAfter(bs), TaxKeyOf(kind, cur, id);
    PercentsAfter(bs, kind, cur, id);
    forall c | c in cs && KeyOf(c) == key ensures PercentAt(cs, key) == Some(c.taxPercent) {
      PercentOfCounter(cs, c);
    }
    if PercentAt(cs, key).Some? {
      var c := CounterOfPercent(cs, key);
    }
  }
}
