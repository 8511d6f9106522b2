/** Numbering, chaining and signing a receipt (signReceipt in src/core/device.ts). */
module Receipts {
  import opened Text
  import opened Options
  import opened Rounding
  import opened Ledger
  import opened Counters
  import opened Signing
  import opened Sorting
  import Utf8
  import Base64
  import Der

  type RawSignature = b: seq<Byte> | |b| == 64 witness seq(64, _ => 0)

  /** What the protocol takes as given: formats, SHA-256, the key pair, the tax table. */
  datatype Env = Env(
    deviceId: nat,
    dateText: int -> Str,                       // fdmsDateTime of a time in seconds
    dayText: int -> Str,                        // its first ten characters, the date
    hash: Str -> Str,                           // base64 of SHA-256
    sign: seq<Byte> -> RawSignature,            // ECDSA P-256, r||s
    verify: (seq<Byte>, seq<Byte>) -> bool,
    taxIds: set<int>,
    times: (int, real) -> real)                 // the product of a price and a quantity in floating point

  /** A signature made with the device's key verifies. */
  ghost predicate KeyPair(env: Env) {
    forall m: seq<Byte> :: env.verify(m, env.sign(m))
  }

  datatype Receipt = Receipt(bill: Bill, counter: nat, globalNo: nat, date: int, hash: Str, signature: Str)

  datatype RedError = RedError(globalNo: nat, counter: nat, code: nat)

  datatype DayState = DayState(dayNo: nat, dayDate: Str, counter: nat, globalNo: nat, previousHash: Option<Str>,
                               previousDate: Option<int>, counters: seq<Counter>, redErrors: seq<RedError>)

  datatype Prepared = Prepared(receipt: Receipt, after: DayState)

  datatype LineInput = LineInput(price: int, quantity: real, taxID: int, taxPercent: Option<int>, taxCode: Option<Str>)

  datatype ReceiptInput = ReceiptInput(receiptType: ReceiptType, currency: Str, lines: seq<LineInput>,
                                       payments: seq<Payment>, inclusive: bool, date: Option<int>)

  predicate Letter(c: CodeUnit) { 65 <= c <= 90 || 97 <= c <= 122 }

  /** validateReceiptInput, as far as it concerns what is signed. */
  predicate Acceptable(input: ReceiptInput, previousDate: Option<int>) {
    && |input.currency| == 3 && Letter(input.currency[0]) && Letter(input.currency[1]) && Letter(input.currency[2])
    && input.lines != [] && input.payments != []
    && (forall l :: l in input.lines ==>
          Safe(l.price) && l.quantity > 0.0 && (l.taxPercent.Some? ==> l.taxPercent.value >= 0))
    && (forall p :: p in input.payments ==> Safe(p.amount))
    && (input.date.Some? && previousDate.Some? ==> input.date.value > previousDate.value)
  }

  /** A floating-point product is within one part in 2^53 of the product (section 4.3 of IEEE 754). */
  ghost predicate Ieee(env: Env) {
    forall a: int, q: real ::
      var exact := a as real * q;
      var bound := (if exact < 0.0 then -exact else exact) / 9007199254740992.0;
      exact - bound <= env.times(a, q) <= exact + bound
  }

  /** Math.round(priceCents * quantity) */
  function LineTotal(env: Env, l: LineInput): int { (env.times(l.price, l.quantity) + 0.5).Floor }

  function LinesOf(env: Env, ls: seq<LineInput>): seq<Line> {
    seq(|ls|, i requires 0 <= i < |ls| => Line(LineTotal(env, ls[i]), ls[i].taxID, ls[i].taxPercent, ls[i].taxCode))
  }

  /** An explicit date is taken as it is; a generated one is moved past the previous receipt's. */
  function DateOf(input: ReceiptInput, previousDate: Option<int>, now: int): int {
    if input.date.Some? then input.date.value
    else if previousDate.Some? && now <= previousDate.value then previousDate.value + 1
    else now
  }

  function CanonicalText(env: Env, r: Receipt, previousHash: Option<Str>): Str {
    ReceiptSigningString(env.deviceId, r.globalNo, env.dateText(r.date), r.bill, previousHash)
  }

  /** The signature of a text: ECDSA over its UTF-8 bytes, as DER, as base64. */
  function SignatureText(env: Env, canonical: Str): Str {
    var raw := env.sign(Utf8.Utf8Of(canonical));
    Base64.Encoded(Der.DerOf(raw[..32], raw[32..]))
  }

  /** FDMS's check of a signature: base64, DER, ECDSA over the UTF-8 bytes. */
  predicate Verified(env: Env, canonical: Str, hash: Str, signature: Str) {
    && hash == env.hash(canonical)
    && var raw := Der.P1363Of(Base64.Decoded(signature), 32);
       raw.Ok? && env.verify(Utf8.Utf8Of(canonical), raw.value)
  }

  /** The state once a receipt is committed. */
  function Advanced(s: DayState, r: Receipt): DayState {
    s.(counter := s.counter + 1, globalNo := s.globalNo + 1, previousHash := Some(r.hash), previousDate := Some(r.date),
       counters := Accumulated(s.counters, r.bill))
  }

  datatype SignResult = Signed(prepared: Prepared) | Invalid

  function SignReceipt(env: Env, s: DayState, input: ReceiptInput, now: int): SignResult {
    var lines := LinesOf(env, input.lines);
    var taxes := ReceiptTaxes(lines, input.inclusive);
    if !Acceptable(input, s.previousDate) || taxes.None? then Invalid
    else
      var total := TotalDue(lines, taxes.value, input.inclusive);
      if PaymentsTotal(input.payments) != total then Invalid
      else
        var bill := Bill(input.receiptType, Upper(input.currency), input.inclusive, lines, taxes.value,
                         input.payments, total);
        var unsigned := Receipt(bill, s.counter + 1, s.globalNo + 1, DateOf(input, s.previousDate, now), [], []);
        var canonical := CanonicalText(env, unsigned, s.previousHash);
        var receipt := unsigned.(hash := env.hash(canonical), signature := SignatureText(env, canonical));
        Signed(Prepared(receipt, Advanced(s, receipt)))
  }

  // -- what FDMS will check ------------------------------------------------

  predicate TaxesKnown(env: Env, b: Bill) {
    forall t :: t in b.taxes ==> t.taxID in env.taxIds
  }

  /** A day state but for the red errors it has collected. */
  function Plain(s: DayState): DayState { s.(redErrors := []) }

  /** `p` is a correct next receipt after state `s`. */
  ghost predicate Follows(env: Env, s: DayState, p: Prepared) {
    && p.receipt.counter == s.counter + 1
    && p.receipt.globalNo == s.globalNo + 1
    && (s.previousDate.Some? ==> p.receipt.date > s.previousDate.value)
    && Verified(env, CanonicalText(env, p.receipt, s.previousHash), p.receipt.hash, p.receipt.signature)
    && Balanced(p.receipt.bill)
    && Plain(p.after) == Advanced(Plain(s), p.receipt)
  }

  /** A signature survives DER and base64 and verifies over the same bytes. */
  lemma OwnSignatureVerifies(env: Env, canonical: Str)
    requires KeyPair(env)
    ensures Verified(env, canonical, env.hash(canonical), SignatureText(env, canonical))
  {
    var m := Utf8.Utf8Of(canonical);
    var raw: seq<Byte> := env.sign(m);
    var der := Der.DerOf(raw[..32], raw[32..]);
    Base64.Base64RoundTrip(der, Base64.Encoded(der));
    Der.DerRoundTrip(raw, 32);
    assert env.verify(m, env.sign(m));
  }

  /** Every receipt that signReceipt makes is sound after the state it is signed on, whose red errors it carries on. */
  lemma SignedFollows(env: Env, s: DayState, input: ReceiptInput, now: int)
    requires KeyPair(env)
    requires SignReceipt(env, s, input, now).Signed?
    ensures Follows(env, s, SignReceipt(env, s, input, now).prepared)
    ensures SignReceipt(env, s, input, now).prepared.after.redErrors == s.redErrors
  {
    hide SignReceipt, Verified, SignatureText, CanonicalText, Balanced, Accumulated, KeyPair;
    var p := SignReceipt(env, s, input, now).prepared;
    SignedShape(env, s, input, now);
    SignedDate(env, s, input, now);
    SignedText(env, p.receipt, s.previousHash);
    OwnSignatureVerifies(env, CanonicalText(env, p.receipt, s.previousHash));
  }

  lemma SignedShape(env: Env, s: DayState, input: ReceiptInput, now: int)
    requires SignReceipt(env, s, input, now).Signed?
    ensures
      var p := SignReceipt(env, s, input, now).prepared;
      var canonical := CanonicalText(env, p.receipt.(hash := [], signature := []), s.previousHash);
      && p.receipt.counter == s.counter + 1 && p.receipt.globalNo == s.globalNo + 1
      && p.receipt.hash == env.hash(canonical) && p.receipt.signature == SignatureText(env, canonical)
      && Balanced(p.receipt.bill) && p.after == Advanced(s, p.receipt)
  {
    hide SignatureText, CanonicalText, TotalDue, PaymentsTotal, ReceiptTaxes, Accumulated, LinesOf, DateOf,
      Acceptable, Upper;
  }

  /** What is signed does not depend on the signature. */
  lemma SignedText(env: Env, r: Receipt, previousHash: Option<Str>)
    ensures CanonicalText(env, r, previousHash) == CanonicalText(env, r.(hash := [], signature := []), previousHash)
  {
  }

  function TaxIds(ts: seq<Tax>): set<int> { set t | t in ts :: t.taxID }

  function LineIds(ls: seq<Line>): set<int> { set l | l in ls :: l.taxID }

  /** A bill has known tax IDs exactly when the lines that were asked for have. */
  lemma SignedTaxesKnown(env: Env, s: DayState, input: ReceiptInput, now: int)
    requires SignReceipt(env, s, input, now).Signed?
    ensures TaxesKnown(env, SignReceipt(env, s, input, now).prepared.receipt.bill) <==>
            forall l :: l in input.lines ==> l.taxID in env.taxIds
  {
    hide Verified, SignatureText, CanonicalText, TotalDue, PaymentsTotal, Accumulated, ReceiptTaxes;
    var taxes := SignReceipt(env, s, input, now).prepared.receipt.bill.taxes;
    var lines := LinesOf(env, input.lines);
    IdsOfTaxes(lines, input.inclusive);
    forall l | l in input.lines ensures l.taxID in TaxIds(taxes) {
      var i :| 0 <= i < |input.lines| && input.lines[i] == l;
      assert lines[i].taxID == l.taxID && lines[i] in lines;
    }
    forall t | t in taxes ensures exists l :: l in input.lines && l.taxID == t.taxID {
      assert t.taxID in LineIds(lines);
      var i :| 0 <= i < |lines| && lines[i].taxID == t.taxID;
      assert input.lines[i] in input.lines;
    }
  }

  /** The taxes of a receipt have the tax IDs of its lines, no more and no fewer. */
  lemma IdsOfTaxes(lines: seq<Line>, inclusive: bool)
    requires ReceiptTaxes(lines, inclusive).Some?
    ensures TaxIds(ReceiptTaxes(lines, inclusive).value) == LineIds(lines)
  {
    var g := Grouped(lines, inclusive).value;
    IdsOfGroups(lines, inclusive);
    SortKeeps(CompareReceiptTaxes, g);
    assert forall t :: t in Sort(CompareReceiptTaxes, g) <==> t in multiset(Sort(CompareReceiptTaxes, g));
    assert forall t :: t in g <==> t in multiset(g);
  }

  lemma {:induction false} IdsOfGroups(lines: seq<Line>, inclusive: bool)
    requires Grouped(lines, inclusive).Some?
    ensures TaxIds(Grouped(lines, inclusive).value) == LineIds(lines)
  {
    if lines != [] {
      var n := |lines| - 1;
      var p, l := lines[..n], lines[n];
      IdsOfGroups(p, inclusive);
      var tax := LineTax(l, inclusive).cents;
      PutIds(Grouped(p, inclusive).value, l, tax, LineSales(l, tax, inclusive));
      assert lines == p + [l];
    }
  }

  lemma {:induction false} PutIds(g: seq<Tax>, l: Line, tax: int, sales: int)
    ensures TaxIds(Put(g, l, tax, sales)) == TaxIds(g) + {l.taxID}
  {
    if g != [] {
      PutIds(g[1..], l, tax, sales);
      IdsFrom(g);
    }
    IdsFrom(Put(g, l, tax, sales));
  }

  lemma IdsFrom(ts: seq<Tax>)
    requires ts != []
    ensures TaxIds(ts) == {ts[0].taxID} + TaxIds(ts[1..])
  {
    assert ts == [ts[0]] + ts[1..];
  }

  /**
   * What is signed is what was asked for: each line total within half a cent and
   * one rounding error of price times quantity, the rest as given.
   */
  lemma SignedContents(env: Env, s: DayState, input: ReceiptInput, now: int)
    requires SignReceipt(env, s, input, now).Signed? && Ieee(env)
    ensures
      var b := SignReceipt(env, s, input, now).prepared.receipt.bill;
      && |b.lines| == |input.lines| && b.payments == input.payments && b.receiptType == input.receiptType
      && b.inclusive == input.inclusive && b.currency == Upper(input.currency)
    ensures
      var b := SignReceipt(env, s, input, now).prepared.receipt.bill;
      forall i :: 0 <= i < |b.lines| ==>
        var l := input.lines[i];
        var exact := l.price as real * l.quantity;
        var bound := (if exact < 0.0 then -exact else exact) / 9007199254740992.0;
        && exact - bound - 0.5 < b.lines[i].total as real <= exact + bound + 0.5
        && b.lines[i].taxID == l.taxID && b.lines[i].taxPercent == l.taxPercent && b.lines[i].taxCode == l.taxCode
    ensures PaymentsTotal(input.payments) == SignReceipt(env, s, input, now).prepared.receipt.bill.total
  {
    hide TotalDue, PaymentsTotal, ReceiptTaxes, Acceptable, CanonicalText, SignatureText, Accumulated, DateOf, Upper;
  }

  /** A given date is kept; a generated one is the clock's unless that is not later than the previous receipt's. */
  lemma SignedDate(env: Env, s: DayState, input: ReceiptInput, now: int)
    requires SignReceipt(env, s, input, now).Signed?
    ensures
      var date := SignReceipt(env, s, input, now).prepared.receipt.date;
      if input.date.Some? then date == input.date.value
      else if s.previousDate.Some? && s.previousDate.value >= now then date == s.previousDate.value + 1
      else date == now
    ensures s.previousDate.Some? ==> SignReceipt(env, s, input, now).prepared.receipt.date > s.previousDate.value
  {
    hide TotalDue, PaymentsTotal, ReceiptTaxes, CanonicalText, SignatureText, Accumulated, Upper, LinesOf;
  }

  /**
   * The text that is hashed and signed, field by field: device, type, currency,
   * the next number, date, total in cents, taxes, and the hash of the receipt before.
   */
  lemma SignedTextForm(env: Env, s: DayState, input: ReceiptInput, now: int, p: Prepared)
    requires SignReceipt(env, s, input, now) == Signed(p)
    ensures
      var b := p.receipt.bill;
      var text := Decimal(env.deviceId)
                  + (match input.receiptType
                     case FiscalInvoice => Lit("FISCALINVOICE")
                     case CreditNote => Lit("CREDITNOTE")
                     case DebitNote => Lit("DEBITNOTE"))
                  + Upper(input.currency) + Decimal(s.globalNo + 1) + env.dateText(p.receipt.date) + Decimal(b.total)
                  + ConcatenateReceiptTaxes(b.taxes) + (if s.previousHash.Some? then s.previousHash.value else []);
      p.receipt.hash == env.hash(text) && p.receipt.signature == SignatureText(env, text)
  {
    hide TotalDue, PaymentsTotal, ReceiptTaxes, SignatureText, Accumulated, LinesOf, DateOf, Acceptable, Upper, Lit,
      Decimal, ConcatenateReceiptTaxes;
    UpperTwice(input.currency);
  }

  /** A signature is base64 of the DER sequence of the two halves that ECDSA gives for the UTF-8 bytes. */
  lemma SignatureForm(env: Env, text: Str) returns (a: seq<Byte>, b: seq<Byte>)
    ensures Base64.Decoded(SignatureText(env, text)) == [0x30, |a| + |b| + 4] + ([0x02, |a|] + a) + ([0x02, |b|] + b)
    ensures Der.MinimalNonNegative(a) && Der.Value(a) == Der.Value(env.sign(Utf8.Utf8Of(text))[..32])
    ensures Der.MinimalNonNegative(b) && Der.Value(b) == Der.Value(env.sign(Utf8.Utf8Of(text))[32..])
  {
    hide Base64.Decoded, Base64.Encoded, Der.DerOf, Der.Value, Utf8.Utf8Of;
    var raw: seq<Byte> := env.sign(Utf8.Utf8Of(text));
    a, b := Der.DerForm(raw[..32], raw[32..]);
    var der := Der.DerOf(raw[..32], raw[32..]);
    Base64.Base64RoundTrip(der, Base64.Encoded(der));
  }

  /** An integer that a double holds exactly, with all its neighbours. */
  predicate Exact(n: int) { -9007199254740991 <= n <= 9007199254740991 }

  /** What the caller can check of an input beforehand. */
  predicate WellFormed(input: ReceiptInput, previousDate: Option<int>) {
    && |input.currency| == 3
    && (forall i :: 0 <= i < 3 ==>
          'A' as int <= input.currency[i] <= 'Z' as int || 'a' as int <= input.currency[i] <= 'z' as int)
    && |input.lines| >= 1 && |input.payments| >= 1
    && (forall i :: 0 <= i < |input.lines| ==>
          var l := input.lines[i];
          Exact(l.price) && l.quantity > 0.0 && (l.taxPercent.None? || l.taxPercent.value >= 0))
    && (forall i :: 0 <= i < |input.payments| ==> Exact(input.payments[i].amount))
    && (input.date.None? || previousDate.None? || input.date.value > previousDate.value)
  }

  /**
   * signReceipt signs exactly the well-formed inputs whose taxes can be computed
   * and whose payments come to the lines' total and, on net prices, their tax.
   */
  lemma SignedIff(env: Env, s: DayState, input: ReceiptInput, now: int)
    ensures
      var lines := LinesOf(env, input.lines);
      SignReceipt(env, s, input, now).Signed? <==>
        && WellFormed(input, s.previousDate)
        && (forall l :: l in lines ==> LineTax(l, input.inclusive).Cents?)
        && PaymentsTotal(input.payments) ==
           LinesTotal(lines) + (if input.inclusive then 0 else SumOfLines(ALL_TAX, lines, input.inclusive))
  {
    hide PaymentsTotal, LinesTotal, SumOfLines, SumOfTaxes, CanonicalText, SignatureText, Accumulated, Upper, LinesOf,
      LineTax, DateOf, Acceptable, WellFormed, Grouped;
    var lines := LinesOf(env, input.lines);
    AcceptableMeans(input, s.previousDate);
    GroupedIff(lines, input.inclusive);
    if ReceiptTaxes(lines, input.inclusive).Some? {
      ReceiptTaxesConserve(ALL_TAX, lines, input.inclusive);
    }
  }

  lemma AcceptableMeans(input: ReceiptInput, previousDate: Option<int>)
    ensures Acceptable(input, previousDate) <==> WellFormed(input, previousDate)
  {
    assert forall i :: 0 <= i < |input.lines| ==> input.lines[i] in input.lines;
    assert forall i :: 0 <= i < |input.payments| ==> input.payments[i] in input.payments;
  }
}
