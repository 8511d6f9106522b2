/** The FDMS side (src/simulator/server.ts), without TLS and HTTP. */
module Server {
  import opened Text
  import opened Options
  import opened Ledger
  import opened Counters
  import opened Signing
  import opened Receipts

  datatype Status = DayClosed | DayOpened | CloseInitiated

  datatype Code = RCPT010 | RCPT011 | RCPT012 | RCPT013 | RCPT014 | RCPT020 | RCPT021 | RCPT030 | RCPT031

  /** Red errors make a day unclosable; RCPT014 and RCPT031 are Yellow. */
  predicate Red(c: Code) { c != RCPT014 && c != RCPT031 }

  /** No red error, or none but for a tax ID outside the table. */
  predicate Passes(errors: seq<Code>, tolerant: bool) {
    forall c :: c in errors ==> !Red(c) || (tolerant && c.RCPT013?)
  }

  predicate Clean(errors: seq<Code>) { Passes(errors, false) }

  datatype Stored = Stored(receipt: Receipt, id: nat, errors: seq<Code>)
  datatype Day = Day(no: nat, openedAt: int, receipts: seq<Stored>, counters: seq<Counter>, closed: bool)

  /** How a CloseDay will settle; only Fine closes the day. */
  datatype Verdict = Fine | BadCertificateSignature | ReceiptsWithValidationErrors | CountersMismatch

  datatype Fdms = Fdms(status: Status, days: seq<Day>, nextId: nat, closing: Option<Verdict>,
                       closingError: Option<Verdict>)

  const FRESH := Fdms(DayClosed, [], 1, None, None)

  /** The last day, or an empty one before the first. */
  function Today(s: Fdms): Day {
    if s.days == [] then Day(0, 0, [], [], false) else s.days[|s.days| - 1]
  }

  function Earlier(s: Fdms): seq<Day> {
    if s.days == [] then [] else s.days[..|s.days| - 1]
  }

  function ReceiptsOf(stored: seq<Stored>): seq<Receipt> {
    seq(|stored|, i requires 0 <= i < |stored| => stored[i].receipt)
  }

  /** All receipts FDMS holds for the device, in the order it took them. */
  function AllReceipts(days: seq<Day>): seq<Receipt> {
    if days == [] then [] else AllReceipts(days[..|days| - 1]) + ReceiptsOf(days[|days| - 1].receipts)
  }

  /** Math.max(0, ...globalNos) */
  function Highest(rs: seq<Receipt>): nat {
    if rs == [] then 0
    else
      var h := Highest(rs[..|rs| - 1]);
      if rs[|rs| - 1].globalNo > h then rs[|rs| - 1].globalNo else h
  }

  // -- SubmitReceipt -------------------------------------------------------

  function PreviousHash(d: Day): Option<Str> {
    if d.receipts == [] then None else Some(d.receipts[|d.receipts| - 1].receipt.hash)
  }

  function PreviousDate(d: Day): Option<int> {
    if d.receipts == [] then None else Some(d.receipts[|d.receipts| - 1].receipt.date)
  }

  function If(c: bool, code: Code): seq<Code> { if c then [code] else [] }

  function UnknownTaxes(env: Env, ts: seq<Tax>): seq<Code> {
    if ts == [] then [] else UnknownTaxes(env, ts[..|ts| - 1]) + If(ts[|ts| - 1].taxID !in env.taxIds, RCPT013)
  }

  /** The validation errors of a receipt; `latest` is the latest date not yet in the future. */
  function Errors(env: Env, d: Day, highest: nat, r: Receipt, latest: int): seq<Code> {
    If(r.counter != |d.receipts| + 1, RCPT011)
    + If(r.globalNo != highest + 1, RCPT012)
    + If(PreviousDate(d).Some? && r.date <= PreviousDate(d).value, RCPT030)
    + If(r.date < d.openedAt, RCPT014)
    + If(r.date > latest, RCPT031)
    + If(!Verified(env, CanonicalText(env, r, PreviousHash(d)), r.hash, r.signature), RCPT010)
    + If(r.bill.total != TotalDue(r.bill.lines, r.bill.taxes, r.bill.inclusive), RCPT020)
    + If(PaymentsTotal(r.bill.payments) != r.bill.total, RCPT021)
    + UnknownTaxes(env, r.bill.taxes)
  }

  lemma {:induction false} TaxesPass(env: Env, ts: seq<Tax>, tolerant: bool)
    ensures Passes(UnknownTaxes(env, ts), tolerant) <==> tolerant || forall t :: t in ts ==> t.taxID in env.taxIds
  {
    if ts != [] {
      var n := |ts| - 1;
      TaxesPass(env, ts[..n], tolerant);
      BothPass(UnknownTaxes(env, ts[..n]), If(ts[n].taxID !in env.taxIds, RCPT013), tolerant);
      FlagPasses(ts[n].taxID !in env.taxIds, RCPT013, tolerant);
      assert ts == ts[..n] + [ts[n]];
    }
  }

  lemma BothPass(a: seq<Code>, b: seq<Code>, tolerant: bool)
    ensures Passes(a + b, tolerant) <==> Passes(a, tolerant) && Passes(b, tolerant)
  {
    assert forall c :: c in a + b <==> c in a || c in b;
  }

  lemma FlagPasses(wrong: bool, code: Code, tolerant: bool)
    ensures Passes(If(wrong, code), tolerant) <==> !wrong || !Red(code) || (tolerant && code.RCPT013?)
  {
    assert wrong ==> code in If(wrong, code);
  }

  /** It continues the day and the numbers, is later than the last, verifies on the chain, adds up and is paid. */
  predicate Sound(env: Env, d: Day, highest: nat, r: Receipt) {
    && r.counter == |d.receipts| + 1 && r.globalNo == highest + 1
    && (d.receipts != [] ==> r.date > d.receipts[|d.receipts| - 1].receipt.date)
    && Verified(env, CanonicalText(env, r, PreviousHash(d)), r.hash, r.signature)
    && r.bill.total == TotalDue(r.bill.lines, r.bill.taxes, r.bill.inclusive) == PaymentsTotal(r.bill.payments)
  }

  /** No error is red exactly when the receipt is sound and, unless that is tolerated, has no unknown tax ID. */
  lemma PassesIff(env: Env, d: Day, highest: nat, r: Receipt, latest: int, tolerant: bool)
    ensures Passes(Errors(env, d, highest, r, latest), tolerant) <==>
            Sound(env, d, highest, r) && (tolerant || TaxesKnown(env, r.bill))
  {
    hide Verified, CanonicalText, TotalDue, PaymentsTotal, UnknownTaxes, PreviousHash, Passes, If;
    var c1 := If(r.counter != |d.receipts| + 1, RCPT011);
    var c2 := c1 + If(r.globalNo != highest + 1, RCPT012);
    var c3 := c2 + If(PreviousDate(d).Some? && r.date <= PreviousDate(d).value, RCPT030);
    var c4 := c3 + If(r.date < d.openedAt, RCPT014);
    var c5 := c4 + If(r.date > latest, RCPT031);
    var signed := Verified(env, CanonicalText(env, r, PreviousHash(d)), r.hash, r.signature);
    var c6 := c5 + If(!signed, RCPT010);
    var due := r.bill.total != TotalDue(r.bill.lines, r.bill.taxes, r.bill.inclusive);
    var c7 := c6 + If(due, RCPT020);
    var paid := PaymentsTotal(r.bill.payments) != r.bill.total;
    var c8 := c7 + If(paid, RCPT021);
    FlagPasses(r.counter != |d.receipts| + 1, RCPT011, tolerant);
    FlagPasses(r.globalNo != highest + 1, RCPT012, tolerant);
    FlagPasses(PreviousDate(d).Some? && r.date <= PreviousDate(d).value, RCPT030, tolerant);
    FlagPasses(r.date < d.openedAt, RCPT014, tolerant);
    FlagPasses(r.date > latest, RCPT031, tolerant);
    FlagPasses(!signed, RCPT010, tolerant);
    FlagPasses(due, RCPT020, tolerant);
    FlagPasses(paid, RCPT021, tolerant);
    BothPass(c1, If(r.globalNo != highest + 1, RCPT012), tolerant);
    BothPass(c2, If(PreviousDate(d).Some? && r.date <= PreviousDate(d).value, RCPT030), tolerant);
    BothPass(c3, If(r.date < d.openedAt, RCPT014), tolerant);
    BothPass(c4, If(r.date > latest, RCPT031), tolerant);
    BothPass(c5, If(!signed, RCPT010), tolerant);
    BothPass(c6, If(due, RCPT020), tolerant);
    BothPass(c7, If(paid, RCPT021), tolerant);
    BothPass(c8, UnknownTaxes(env, r.bill.taxes), tolerant);
    TaxesPass(env, r.bill.taxes, tolerant);
  }

  lemma {:induction false} UnknownTaxCodes(env: Env, ts: seq<Tax>)
    ensures forall c :: c in UnknownTaxes(env, ts) <==> c == RCPT013 && exists t :: t in ts && t.taxID !in env.taxIds
  {
    if ts != [] {
      var init, t := ts[..|ts| - 1], ts[|ts| - 1];
      UnknownTaxCodes(env, init);
      assert ts == init + [t];
    }
  }

  /** What each code says of a receipt. */
  predicate Fault(env: Env, d: Day, highest: nat, r: Receipt, latest: int, c: Code) {
    match c
    case RCPT010 => !Verified(env, CanonicalText(env, r, PreviousHash(d)), r.hash, r.signature)
    case RCPT011 => r.counter != |d.receipts| + 1
    case RCPT012 => r.globalNo != highest + 1
    case RCPT013 => !TaxesKnown(env, r.bill)
    case RCPT014 => r.date < d.openedAt
    case RCPT020 => r.bill.total != TotalDue(r.bill.lines, r.bill.taxes, r.bill.inclusive)
    case RCPT021 => r.bill.total != PaymentsTotal(r.bill.payments)
    case RCPT030 => d.receipts != [] && r.date <= d.receipts[|d.receipts| - 1].receipt.date
    case RCPT031 => r.date > latest
  }

  /** A code is among the errors exactly when its fault is there. */
  lemma CodeMeans(env: Env, d: Day, highest: nat, r: Receipt, latest: int, c: Code)
    ensures c in Errors(env, d, highest, r, latest) <==> Fault(env, d, highest, r, latest, c)
  {
    hide Verified, CanonicalText, TotalDue, PaymentsTotal, UnknownTaxes, PreviousHash, If;
    UnknownTaxCodes(env, r.bill.taxes);
    FlagMeans(r.counter != |d.receipts| + 1, RCPT011, c);
    FlagMeans(r.globalNo != highest + 1, RCPT012, c);
    FlagMeans(PreviousDate(d).Some? && r.date <= PreviousDate(d).value, RCPT030, c);
    FlagMeans(r.date < d.openedAt, RCPT014, c);
    FlagMeans(r.date > latest, RCPT031, c);
    FlagMeans(!Verified(env, CanonicalText(env, r, PreviousHash(d)), r.hash, r.signature), RCPT010, c);
    FlagMeans(r.bill.total != TotalDue(r.bill.lines, r.bill.taxes, r.bill.inclusive), RCPT020, c);
    FlagMeans(PaymentsTotal(r.bill.payments) != r.bill.total, RCPT021, c);
  }

  lemma FlagMeans(wrong: bool, code: Code, c: Code)
    ensures c in If(wrong, code) <==> wrong && c == code
  {
  }

  datatype Response = Refused | Accepted(errors: seq<Code>)

  /** The stored receipt with this number and hash, if there is one. */
  function Duplicate(stored: seq<Stored>, r: Receipt): Option<Stored> {
    if stored == [] then None
    else if stored[0].receipt.globalNo == r.globalNo && stored[0].receipt.hash == r.hash then Some(stored[0])
    else Duplicate(stored[1..], r)
  }

  function Taken(env: Env, s: Fdms, r: Receipt, latest: int): Fdms
    requires s.days != []
  {
    var d := Today(s);
    var stored := Stored(r, s.nextId, Errors(env, d, Highest(AllReceipts(s.days)), r, latest));
    s.(days := Earlier(s) + [d.(receipts := d.receipts + [stored], counters := Accumulated(d.counters, r.bill))],
       nextId := s.nextId + 1)
  }

  /**
   * Every receipt is taken whatever its errors. FDMS answers a receipt it already
   * has, by number and hash, with the original (`dedup`); the simulator takes it again.
   */
  function Submit(env: Env, dedup: bool, s: Fdms, r: Receipt, latest: int): (Fdms, Response) {
    if !s.status.DayOpened? || s.days == [] then (s, Refused)
    else if dedup && Duplicate(Today(s).receipts, r).Some? then
      (s, Accepted(Duplicate(Today(s).receipts, r).value.errors))
    else
      (Taken(env, s, r, latest), Accepted(Errors(env, Today(s), Highest(AllReceipts(s.days)), r, latest)))
  }

  // -- days ----------------------------------------------------------------

  function OpenDay(s: Fdms, dayNo: Option<nat>, openedAt: int): Option<(Fdms, nat)> {
    var next := Today(s).no + 1;
    if !s.status.DayClosed? || (dayNo.Some? && dayNo.value != next) then None
    else Some((s.(days := s.days + [Day(next, openedAt, [], [], false)], status := DayOpened, closingError := None),
               next))
  }

  datatype CloseRequest = CloseRequest(dayNo: nat, counters: seq<Counter>, hash: Str, signature: Str,
                                       receiptCounter: nat)

  function CloseVerdict(env: Env, s: Fdms, q: CloseRequest): Verdict {
    var d := Today(s);
    var canonical := FiscalDaySigningString(env.deviceId, d.no, env.dayText(d.openedAt), d.counters);
    if !Verified(env, canonical, q.hash, q.signature) then BadCertificateSignature
    else if exists i :: 0 <= i < |d.receipts| && !Clean(d.receipts[i].errors) then ReceiptsWithValidationErrors
    else if q.receiptCounter != |d.receipts| then CountersMismatch
    else Fine
  }

  /** CloseDay is accepted now and settles later. */
  function CloseDay(env: Env, s: Fdms, q: CloseRequest): (Fdms, bool) {
    if !s.status.DayOpened? || q.dayNo != Today(s).no then (s, false)
    else (s.(status := CloseInitiated, closing := Some(CloseVerdict(env, s, q)), closingError := None), true)
  }

  function Settled(s: Fdms): Fdms {
    if s.closing.None? then s
    else if s.closing.value.Fine? then
      s.(status := DayClosed, closing := None,
         days := if s.days == [] then [] else Earlier(s) + [Today(s).(closed := true)])
    else s.(status := DayOpened, closing := None, closingError := s.closing)
  }

  // -- GetStatus -----------------------------------------------------------

  /** GetStatus reports the number of a receipt with the latest date, not the highest number. */
  predicate Reports(rs: seq<Receipt>, n: nat) {
    if rs == [] then n == 0
    else exists i :: 0 <= i < |rs| && rs[i].globalNo == n && forall j :: 0 <= j < |rs| ==> rs[j].date <= rs[i].date
  }

  /** The server object, whose fields every request changes in place. */
  class FdmsSimulator {
    const env: Env
    const dedup: bool
    var status: Status
    var days: seq<Day>
    var nextId: nat
    var closing: Option<Verdict>
    var closingError: Option<Verdict>

    function View(): Fdms
      reads this
    {
      Fdms(status, days, nextId, closing, closingError)
    }

    constructor (env: Env, dedup: bool)
      ensures this.env == env && this.dedup == dedup && View() == FRESH
    {
      this.env, this.dedup := env, dedup;
      status, days, nextId, closing, closingError := DayClosed, [], 1, None, None;
    }

    /** Sorting by date descending and taking the first; equal dates may come in any order. */
    method GetStatus() returns (current: Status, lastGlobalNo: nat)
      ensures current == status && Reports(AllReceipts(days), lastGlobalNo)
    {
      current := status;
      var all := AllReceipts(days);
      if all == [] {
        return current, 0;
      }
      var latest := 0;
      for i := 1 to |all|
        invariant 0 <= latest < |all|
        invariant forall j :: 0 <= j < i ==> all[j].date <= all[latest].date
      {
        var swap: bool := *;
        if all[i].date > all[latest].date || (all[i].date == all[latest].date && swap) {
          latest := i;
        }
      }
      lastGlobalNo := all[latest].globalNo;
    }

    /** The checks of SubmitReceipt, in the order they are made. */
    method Validate(day: Day, r: Receipt, latest: int) returns (errors: seq<Code>)
      ensures errors == Errors(env, day, Highest(AllReceipts(days)), r, latest)
    {
      hide Verified, CanonicalText, TotalDue, PaymentsTotal, AllReceipts, Highest, If, UnknownTaxes, PreviousHash,
        PreviousDate;
      errors := If(r.counter != |day.receipts| + 1, RCPT011);
      var highest := Highest(AllReceipts(days));
      errors := errors + If(r.globalNo != highest + 1, RCPT012);
      errors := errors + If(PreviousDate(day).Some? && r.date <= PreviousDate(day).value, RCPT030);
      errors := errors + If(r.date < day.openedAt, RCPT014);
      errors := errors + If(r.date > latest, RCPT031);
      var canonical := CanonicalText(env, r, PreviousHash(day));
      errors := errors + If(!Verified(env, canonical, r.hash, r.signature), RCPT010);
      errors := errors + If(r.bill.total != TotalDue(r.bill.lines, r.bill.taxes, r.bill.inclusive), RCPT020);
      errors := errors + If(PaymentsTotal(r.bill.payments) != r.bill.total, RCPT021);
      var unknown := FindUnknownTaxes(r.bill.taxes);
      errors := errors + unknown;
    }

    method FindUnknownTaxes(taxes: seq<Tax>) returns (errors: seq<Code>)
      ensures errors == UnknownTaxes(env, taxes)
    {
      errors := [];
      for i := 0 to |taxes|
        invariant errors == UnknownTaxes(env, taxes[..i])
      {
        assert taxes[..i + 1][..i] == taxes[..i];
        if taxes[i].taxID !in env.taxIds {
          errors := errors + [RCPT013];
        }
      }
      assert taxes[..|taxes|] == taxes;
    }

    method SubmitReceipt(r: Receipt, latest: int) returns (response: Response)
      modifies this
      ensures (View(), response) == Submit(env, dedup, old(View()), r, latest)
    {
      hide Errors, Accumulated, AllReceipts, Highest, Duplicate;
      if status != DayOpened || days == [] {
        return Refused;
      }
      var day := days[|days| - 1];
      if dedup && Duplicate(day.receipts, r).Some? {
        return Accepted(Duplicate(day.receipts, r).value.errors);
      }
      var errors := Validate(day, r, latest);
      var table := new CounterTable(day.counters);
      table.Accumulate(r.bill);
      days := days[..|days| - 1] + [day.(receipts := day.receipts + [Stored(r, nextId, errors)],
                                         counters := table.counters)];
      nextId := nextId + 1;
      response := Accepted(errors);
    }

    method Open(dayNo: Option<nat>, openedAt: int) returns (opening: Option<nat>)
      modifies this
      ensures opening.Some? == OpenDay(old(View()), dayNo, openedAt).Some?
      ensures opening.Some? ==> (View(), opening.value) == OpenDay(old(View()), dayNo, openedAt).value
      ensures opening.None? ==> View() == old(View())
    {
      var next := Today(View()).no + 1;
      if status != DayClosed || (dayNo.Some? && dayNo.value != next) {
        return None;
      }
      days := days + [Day(next, openedAt, [], [], false)];
      status, closingError := DayOpened, None;
      opening := Some(next);
    }

    method Close(q: CloseRequest) returns (accepted: bool)
      modifies this
      ensures (View(), accepted) == CloseDay(env, old(View()), q)
    {
      var day := Today(View());
      if status != DayOpened || q.dayNo != day.no {
        return false;
      }
      closing := Some(CloseVerdict(env, View(), q));
      status, closingError := CloseInitiated, None;
      accepted := true;
    }

    /** The delayed end of a CloseDay. */
    method Settle()
      modifies this
      ensures View() == Settled(old(View()))
    {
      if closing.Some? {
        if closing.value.Fine? {
          status := DayClosed;
          if days != [] {
            days := days[..|days| - 1] + [days[|days| - 1].(closed := true)];
          }
        } else {
          status, closingError := DayOpened, closing;
        }
        closing := None;
      }
    }
  }
}
