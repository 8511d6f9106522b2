/**
 * Runs that exist: a sale gets through in each setting, directly and through
 * the queue, and every point at which Limits and Restart put an end to a promise
 * is one that a plain server gets to: by a run or, where dates must be out of
 * order for that, by the code's own steps outside the settings.
 */
module Witnesses {
  import opened Text
  import opened Options
  import opened Rounding
  import opened Sorting
  import opened Ledger
  import opened Counters
  import opened Signing
  import opened Receipts
  import opened Transport
  import opened Server
  import opened Protocol
  import opened Invariant
  import opened Reds
  import opened Runs
  import opened Trace
  import opened Theorems
  import opened CommitSteps
  import opened Calls
  import opened Limits

  /** One item at 1.00, paid in cash. */
  function Sale(taxID: int, date: int): ReceiptInput {
    ReceiptInput(FiscalInvoice, [85, 83, 68], [LineInput(100, 1.0, taxID, None, None)], [Payment(Cash, 100)], true,
                 Some(date))
  }

  /** It is a valid input wherever its date is later than the previous receipt's. */
  lemma SaleSigns(env: Env, s: DayState, taxID: int, date: int, now: int)
    requires Ieee(env) && (s.previousDate.Some? ==> date > s.previousDate.value)
    ensures SignReceipt(env, s, Sale(taxID, date), now).Signed?
    ensures SignReceipt(env, s, Sale(taxID, date), now).prepared.receipt.date == date
    ensures taxID in env.taxIds ==> TaxesKnown(env, SignReceipt(env, s, Sale(taxID, date), now).prepared.receipt.bill)
  {
    hide CanonicalText, SignatureText, Accumulated, TaxesKnown;
    var input := Sale(taxID, date);
    OneLine(env, input.lines[0]);
    var lines := LinesOf(env, input.lines);
    assert lines == [Line(100, taxID, None, None)];
    assert lines[..0] == [] && input.payments[..0] == [];
    assert Grouped(lines[..0], true) == Some([]);
    assert Grouped(lines, true).Some?;
    assert LinesTotal(lines[..0]) == 0 && PaymentsTotal(input.payments[..0]) == 0;
    assert LinesTotal(lines) == 100 && PaymentsTotal(input.payments) == 100;
    if taxID in env.taxIds {
      SignedTaxesKnown(env, s, input, now);
    }
  }

  lemma OneLine(env: Env, l: LineInput)
    requires Ieee(env) && l.price == 100 && l.quantity == 1.0
    ensures LineTotal(env, l) == 100
  {
    assert (100 as real) * 1.0 == 100.0;
    var bound := 100.0 / 9007199254740992.0;
    assert 100.0 - bound <= env.times(100, 1.0) <= 100.0 + bound;
  }

  // -- the steps of a sale -------------------------------------------------

  lemma DayOpens(env: Env, rules: Rules, openedAt: int) returns (w: World)
    ensures Reached(rules, env, w) && Quiet(w) && w.journal == Journal([], 0) && w.queue == Queue([], true)
    ensures w.mem == Some(FirstState(env, 1, openedAt, 0))
    ensures w.srv == Fdms(DayOpened, [Day(1, openedAt, [], [], false)], 1, None, None)
  {
    hide Reached;
    assert Reached(rules, env, START) by { NoSteps(rules, env, START); ReachedByRun(env, rules, []); }
    OneMoreStep(rules, env, START, LoadQueue);
    var a := Next(env, rules.Dedup?, START, LoadQueue);
    assert AllReceipts([]) == [] && Highest([]) == 0;
    assert [Day(1, openedAt, [], [], false)] == [] + [Day(1, openedAt, [], [], false)];
    var step := Step.OpenFiscalDay(None, openedAt, 0, 0);
    OneMoreStep(rules, env, a, step);
    w := Next(env, rules.Dedup?, a, step);
  }

  lemma FirstDay(srv: Fdms)
    requires |srv.days| == 1
    ensures AllReceipts(Earlier(srv)) == [] && AllReceipts(srv.days) == ReceiptsOf(Today(srv).receipts)
  {
    assert srv.days[..0] == [];
    assert AllReceipts([]) == [];
  }

  lemma MaySignFirstDay(rules: Rules, w: World, input: ReceiptInput, now: int)
    requires |w.srv.days| == 1
    ensures MaySign(rules, w, input, now)
  {
    hide AllReceipts, DateOf;
    FirstDay(w.srv);
  }

  /** Signed, the marker written, the request about to leave. */
  lemma SaleInHand(env: Env, rules: Rules, w: World, input: ReceiptInput, now: int, via: Via, p: Prepared)
    returns (v: World)
    requires Reached(rules, env, w) && w.pc.Idle? && w.disk.marker.None? && w.mem.Some? && Tail(w.journal) == []
    requires via.Direct? || (via.Fallback? && w.queue == Queue([], true))
    requires MaySign(rules, w, input, now) && SignReceipt(env, w.mem.value, input, now) == Signed(p)
    ensures Reached(rules, env, v) && v == w.(disk := w.disk.(marker := Some(p)), pc := Sending(p, via))
  {
    hide Reached, SignReceipt, MaySign, Tail, AllReceipts, HeadLost, MarkerIsHead;
    OneMoreStep(rules, env, w, Submit(input, now, via));
    var a := w.(pc := Marking(p, via));
    OneMoreStep(rules, env, a, WriteMarker);
    v := Next(env, rules.Dedup?, a, WriteMarker);
  }

  /** A sale that is answered: FDMS has it, and nothing is pending. */
  lemma SaleDone(env: Env, rules: Rules, w: World, input: ReceiptInput, now: int, p: Prepared, latest: int)
    returns (v: World)
    requires KeyPair(env) && Reached(rules, env, w) && Quiet(w) && w.mem.Some? && w.srv.status.DayOpened?
    requires MaySign(rules, w, input, now) && SignReceipt(env, w.mem.value, input, now) == Signed(p)
    requires p.receipt.globalNo == |AllReceipts(w.srv.days)| + 1 && w.srv.days != []
    ensures Reached(rules, env, v) && Quiet(v) && v.mem.Some? && v.srv == Taken(env, w.srv, p.receipt, latest)
    ensures AllReceipts(v.srv.days) == AllReceipts(w.srv.days) + [p.receipt]
  {
    hide KeyPair, Reached, SignReceipt, MaySign, AllReceipts, Taken, SendDone, Numbered, HeldAs, Tail, Indexed;
    MarkerFacts(env, rules, w);
    var a := SaleInHand(env, rules, w, input, now, Direct, p);
    SendIsRun(rules, env, a, latest);
    v := SendDone(env, rules.Dedup?, a, latest);
    NextIsNew(w.srv, p.receipt);
    TakenShape(env, w.srv, p.receipt, latest);
  }

  // -- sales that get through ----------------------------------------------

  /** The first valid sale of the first day reaches FDMS and leaves device and FDMS in step. */
  lemma FirstSaleGetsThrough(env: Env, rules: Rules, input: ReceiptInput, now: int, openedAt: int, p: Prepared,
                             latest: int) returns (w: World)
    requires KeyPair(env) && SignReceipt(env, FirstState(env, 1, openedAt, 0), input, now) == Signed(p)
    ensures Reached(rules, env, w) && Quiet(w) && w.mem.Some? && w.srv.status.DayOpened?
    ensures AllReceipts(w.srv.days) == [p.receipt]
  {
    hide KeyPair, Reached, SignReceipt, MaySign, AllReceipts, Taken, Quiet;
    var a := DayOpens(env, rules, openedAt);
    FirstDay(a.srv);
    MaySignFirstDay(rules, a, input, now);
    SignedNumber(env, FirstState(env, 1, openedAt, 0), input, now);
    w := SaleDone(env, rules, a, input, now, p, latest);
    TodayTaken(env, a.srv, p.receipt, latest);
  }

  /** So does one that is queued first. */
  lemma QueuedSaleGetsThrough(env: Env, rules: Rules, input: ReceiptInput, now: int, openedAt: int, p: Prepared,
                              latest: int) returns (w: World)
    requires KeyPair(env) && SignReceipt(env, FirstState(env, 1, openedAt, 0), input, now) == Signed(p)
    ensures Reached(rules, env, w) && w.pc.Idle? && w.queue == Queue([], true) && w.journal == Journal([p], 1)
    ensures p.receipt in AllReceipts(w.srv.days)
  {
    hide KeyPair, Reached, SignReceipt, AllReceipts, EnqueueDone, FlushDone, FirstState, Permitted, Reports;
    var a := DayOpens(env, rules, openedAt);
    var clock := (i: nat) => latest;
    SignedNumber(env, FirstState(env, 1, openedAt, 0), input, now);
    FirstEnqueue(env, rules, a, input, now, p);
    QueuedSaleArrives(env, rules, a, input, now, p, 0, latest, clock);
    EnqueueIsRun(rules, env, a, input, now, p);
    var b := EnqueueDone(env, rules.Dedup?, a, p);
    FlushIsRun(rules, env, b, 0, clock);
    w := FlushDone(env, rules.Dedup?, b, 0, clock);
    FlushDelivers(env, rules.Dedup?, b, 0, clock);
    JournalMirrored(env, rules, w);
  }

  lemma FirstEnqueue(env: Env, rules: Rules, w: World, input: ReceiptInput, now: int, p: Prepared)
    requires w.pc.Idle? && w.queue == Queue([], true) && w.journal == Journal([], 0) && w.disk.marker.None?
    requires |w.srv.days| == 1 && Today(w.srv).receipts == []
    requires w.mem.Some? && SignReceipt(env, w.mem.value, input, now) == Signed(p)
    ensures May(rules, env, w, Step.Enqueue(input, now)) && Reports(AllReceipts(w.srv.days), 0)
  {
    hide SignReceipt, MaySign, AllReceipts;
    MaySignFirstDay(rules, w, input, now);
    FirstDay(w.srv);
  }

  // -- where Limits applies ------------------------------------------------

  /** A request whose answer does not come, whether or not FDMS has processed it. */
  lemma LostIsRun(env: Env, rules: Rules, w: World, held: bool, latest: int) returns (v: World)
    requires Reached(rules, env, w) && w.pc.Sending? && !rules.AllAnswered?
    ensures Reached(rules, env, v)
    ensures v == w.(srv := if held then Server.Submit(env, rules.Dedup?, w.srv, w.pc.p.receipt, latest).0 else w.srv,
                    pc := if w.pc.via.Fallback? then Appending(w.pc.p) else Idle)
  {
    hide Reached, Server.Submit, AllReceipts, Tail, HeadLost, MarkerIsHead, SignReceipt;
    var lost := Send(Fate(held, Some(Network), latest));
    OneMoreStep(rules, env, w, lost);
    v := Next(env, rules.Dedup?, w, lost);
  }

  /** FDMS takes the first receipt of the first day. */
  lemma FirstTaken(env: Env, dedup: bool, srv: Fdms, r: Receipt, latest: int)
    requires srv.status.DayOpened? && |srv.days| == 1 && Today(srv).receipts == [] && r.globalNo == 1
    ensures
      var s := Server.Submit(env, dedup, srv, r, latest).0;
      && s.status.DayOpened? && |s.days| == 1 && AllReceipts(s.days) == [r] && AllReceipts(Earlier(s)) == []
  {
    hide AllReceipts, Taken;
    FirstDay(srv);
    TakenShape(env, srv, r, latest);
    TodayTaken(env, srv, r, latest);
    assert Duplicate(Today(srv).receipts, r).None?;
  }

  /**
   * submitOrEnqueue() whose answer is lost: the sale is at the head of the
   * journal with its marker, and FDMS holds it or does not.
   */
  lemma HeadUnsettled(env: Env, taxID: int, date: int, openedAt: int, latest: int, held: bool) returns (w: World)
    requires Ieee(env)
    ensures Reached(Ordered, env, w) && w.pc.Idle? && w.queue.loaded && w.srv.status.DayOpened?
    ensures MarkerIsHead(w) && (HeadHeld(w) <==> held)
  {
    hide Reached, SignReceipt, AllReceipts, FirstState, MaySign, Server.Submit, TakeDone;
    var input := Sale(taxID, date);
    var a := DayOpens(env, Ordered, openedAt);
    FirstDay(a.srv);
    var p := FirstSigns(env, openedAt, input, taxID, date);
    MaySignFirstDay(Ordered, a, input, 0);
    var b := SaleInHand(env, Ordered, a, input, 0, Fallback, p);
    var c := LostIsRun(env, Ordered, b, held, latest);
    FirstTaken(env, false, a.srv, p.receipt, latest);
    FirstStateNumber(env, openedAt);
    TakeIsRun(Ordered, env, c);
    w := TakeDone(env, false, c);
    assert Tail(w.journal) == [p];
  }

  lemma FirstSigns(env: Env, openedAt: int, input: ReceiptInput, taxID: int, date: int) returns (p: Prepared)
    requires Ieee(env) && input == Sale(taxID, date)
    ensures SignReceipt(env, FirstState(env, 1, openedAt, 0), input, 0) == Signed(p)
    ensures p.receipt.globalNo == 1 && p.receipt.date == date
    ensures taxID in env.taxIds ==> TaxesKnown(env, p.receipt.bill)
  {
    hide SignReceipt, TaxesKnown;
    var s := FirstState(env, 1, openedAt, 0);
    SaleSigns(env, s, taxID, date, 0);
    SignedNumber(env, s, input, 0);
    p := SignReceipt(env, s, input, 0).prepared;
  }

  /**
   * A sale with an unknown tax ID whose answer is lost, and which reconcile()
   * then confirms: GetStatus does not report its errors, so none is recorded and
   * closeDay() goes out without force, although the day cannot close.
   */
  lemma ConfirmedHidesRed(env: Env, taxID: int, date: int, openedAt: int, latest: int) returns (w: World)
    requires KeyPair(env) && Ieee(env) && taxID !in env.taxIds
    ensures Reached(Ordered, env, w) && Quiet(w) && w.srv.status.DayOpened?
    ensures !AllKnown(env, Today(w.srv))
    ensures Enabled(env, w, CloseFiscalDay(false, Fate(true, None, latest)))
  {
    hide Reached, SignReceipt, AllReceipts, FirstState, MaySign, Server.Submit, TaxesKnown, CommitDone, KeyPair;
    var input := Sale(taxID, date);
    var a := DayOpens(env, Ordered, openedAt);
    FirstDay(a.srv);
    var p := FirstSigns(env, openedAt, input, taxID, date);
    MaySignFirstDay(Ordered, a, input, 0);
    var b := SaleInHand(env, Ordered, a, input, 0, Direct, p);
    var c := LostIsRun(env, Ordered, b, true, latest);
    FirstTaken(env, false, a.srv, p.receipt, latest);
    OneMoreStep(Ordered, env, c, Step.Reconcile);
    var d := Next(env, false, c, Step.Reconcile);
    assert AllReceipts(d.srv.days)[0].globalNo == 1;
    OneMoreStep(Ordered, env, d, AskStatus(Some(1)));
    var e := Next(env, false, d, AskStatus(Some(1)));
    CommitIsRun(Ordered, env, e);
    w := CommitDone(env, false, e);
    FirstSaleUnmarred(env, openedAt, input, p);
    CommittedClean(env, e);
    UnknownIsHeld(env, Ordered, openedAt, input, taxID, p, w);
  }

  lemma FirstSaleUnmarred(env: Env, openedAt: int, input: ReceiptInput, p: Prepared)
    requires SignReceipt(env, FirstState(env, 1, openedAt, 0), input, 0) == Signed(p)
    ensures FirstState(env, 1, openedAt, 0).redErrors == [] && p.after.redErrors == []
  {
    SignedKeepsReds(env, FirstState(env, 1, openedAt, 0), input, 0);
  }

  /** A commit without an answer records nothing. */
  lemma CommittedClean(env: Env, w: World)
    requires w.pc.Saving? && w.pc.errors == [] && w.mem.Some? && w.mem.value.redErrors == w.pc.p.after.redErrors == []
    ensures var v := CommitDone(env, false, w); v.mem.Some? && v.mem.value.redErrors == []
  {
    hide Raised, NumberAfter;
    var a := Next(env, false, w, WriteState);
    assert a.mem.value.redErrors == [];
    hide Committed;
  }

  lemma UnknownIsHeld(env: Env, rules: Rules, openedAt: int, input: ReceiptInput, taxID: int, p: Prepared, w: World)
    requires SignReceipt(env, FirstState(env, 1, openedAt, 0), input, 0) == Signed(p)
    requires taxID !in env.taxIds && |input.lines| == 1 && input.lines[0].taxID == taxID
    requires |w.srv.days| == 1 && AllReceipts(w.srv.days) == [p.receipt]
    ensures !AllKnown(env, Today(w.srv))
  {
    hide SignReceipt, FirstState, TaxesKnown, AllReceipts;
    SignedTaxesKnown(env, FirstState(env, 1, openedAt, 0), input, 0);
    FirstDay(w.srv);
    assert input.lines[0] in input.lines;
    assert ReceiptsOf(Today(w.srv).receipts)[0] == Today(w.srv).receipts[0].receipt;
  }

  /**
   * A direct submit whose answer is lost, and the next sale: it is signed with
   * the same number as another receipt.
   */
  lemma NextSaleSharesNumber(env: Env, taxID: int, date: int, openedAt: int, latest: int, held: bool)
    returns (w: World, p: Prepared)
    requires Ieee(env)
    ensures Reached(Ordered, env, w) && w.pc.Idle? && w.queue.loaded && w.srv.status.DayOpened? && CaughtUp(w)
    ensures SameNumberMarked(w) && (w.disk.marker.value.receipt in AllReceipts(w.srv.days) <==> held)
    ensures SignReceipt(env, w.mem.value, Sale(taxID, date + 1), 0) == Signed(p)
    ensures MaySign(Ordered, w, Sale(taxID, date + 1), 0) && p.receipt != w.disk.marker.value.receipt
  {
    hide Reached, SignReceipt, AllReceipts, FirstState, MaySign, Server.Submit;
    var input := Sale(taxID, date);
    var a := DayOpens(env, Ordered, openedAt);
    FirstDay(a.srv);
    var q := FirstSigns(env, openedAt, input, taxID, date);
    MaySignFirstDay(Ordered, a, input, 0);
    var b := SaleInHand(env, Ordered, a, input, 0, Direct, q);
    w := LostIsRun(env, Ordered, b, held, latest);
    FirstTaken(env, false, a.srv, q.receipt, latest);
    p := FirstSigns(env, openedAt, Sale(taxID, date + 1), taxID, date + 1);
    MaySignFirstDay(Ordered, w, Sale(taxID, date + 1), 0);
    FirstStateNumber(env, openedAt);
  }

  lemma FirstStateNumber(env: Env, openedAt: int)
    ensures FirstState(env, 1, openedAt, 0).globalNo == 0
  {
  }

  /** A quiet day whose taxes are known is closed, and the next one opened. */
  lemma NextDayOpens(env: Env, rules: Rules, w: World, openedAt: int, reported: nat, latest: int) returns (v: World)
    requires KeyPair(env) && Reached(rules, env, w) && Quiet(w) && w.mem.Some? && w.srv.status.DayOpened?
    requires AllKnown(env, Today(w.srv)) && Reports(AllReceipts(w.srv.days), reported)
    ensures Reached(rules, env, v) && Quiet(v) && v.srv.status.DayOpened? && v.srv.days != []
    ensures AllReceipts(v.srv.days) == AllReceipts(w.srv.days)
    ensures v.mem.Some? && v.mem.value.previousDate.None? && v.mem.value.globalNo == |AllReceipts(v.srv.days)|
  {
    hide KeyPair, Reached, AllReceipts, AllKnown, Reports, CloseRequestOf, CloseVerdict, FiscalDaySigningString,
      Merged, NonZero, HeadLost, MarkerIsHead, LaterThanEarlierDays, LastGlobal, OpenDay, Settled, Highest;
    var close := CloseFiscalDay(true, Fate(true, None, latest));
    CloseDaySettles(env, rules, w, latest);
    OneMoreStep(rules, env, w, close);
    var a := Next(env, rules.Dedup?, w, close);
    OneMoreStep(rules, env, a, Settle);
    var b := Next(env, rules.Dedup?, a, Settle);
    ClosedStays(a.srv);
    var open := Step.OpenFiscalDay(None, openedAt, reported, 0);
    DayMayOpen(b.srv, openedAt);
    OneMoreStep(rules, env, b, open);
    OpeningContinues(env, rules, b, None, openedAt, reported, 0);
    v := Next(env, rules.Dedup?, b, open);
    EmptyDayAdded(b.srv.days, v.srv.days);
  }

  lemma DayMayOpen(srv: Fdms, openedAt: int)
    requires srv.status.DayClosed?
    ensures OpenDay(srv, None, openedAt).Some?
    ensures
      var s := OpenDay(srv, None, openedAt).value.0;
      && s.status.DayOpened? && |s.days| == |srv.days| + 1 && s.days[..|srv.days|] == srv.days
      && s.days[|srv.days|].receipts == []
  {
  }

  /** A day with one sale is over, and the next one open. */
  lemma SecondDay(env: Env, rules: Rules, taxID: int, date: int, openedAt: int, latest: int)
    returns (w: World, r: Receipt)
    requires KeyPair(env) && Ieee(env) && taxID in env.taxIds
    ensures Reached(rules, env, w) && Quiet(w) && w.srv.status.DayOpened? && w.srv.days != []
    ensures AllReceipts(w.srv.days) == [r] && r.globalNo == 1 && r.date == date
    ensures w.mem.Some? && w.mem.value.previousDate.None? && w.mem.value.globalNo == 1
  {
    hide KeyPair, Reached, SignReceipt, AllReceipts, FirstState, MaySign, Taken, Quiet, AllKnown, TaxesKnown, Ieee,
      Reports;
    var a := DayOpens(env, rules, openedAt);
    FirstDay(a.srv);
    FirstStateNumber(env, openedAt);
    var p := FirstSigns(env, openedAt, Sale(taxID, date), taxID, date);
    MaySignFirstDay(rules, a, Sale(taxID, date), 0);
    var b := SaleDone(env, rules, a, Sale(taxID, date), 0, p, latest);
    TodayTaken(env, a.srv, p.receipt, latest);
    OneSaleKnown(env, b.srv, p.receipt);
    OneReported(AllReceipts(b.srv.days), p.receipt);
    r := p.receipt;
    w := NextDayOpens(env, rules, b, openedAt, 1, latest);
  }

  /** Two days, the first sale dated later than the second: GetStatus may report 1 while FDMS holds 2. */
  lemma LaterDateFirst(env: Env, taxID: int, date: int, openedAt: int, latest: int) returns (w: World)
    requires KeyPair(env) && Ieee(env) && taxID in env.taxIds
    ensures Reached(AllAnswered, env, w) && Quiet(w) && |AllReceipts(w.srv.days)| == 2
    ensures Reports(AllReceipts(w.srv.days), 1)
  {
    hide KeyPair, Reached, SignReceipt, AllReceipts, MaySign, Taken, Quiet, TaxesKnown, Ieee, Reports;
    var c, p := SecondDay(env, AllAnswered, taxID, date, openedAt, latest);
    SaleSigns(env, c.mem.value, taxID, date - 1, 0);
    SignedNumber(env, c.mem.value, Sale(taxID, date - 1), 0);
    var q := SignReceipt(env, c.mem.value, Sale(taxID, date - 1), 0).prepared;
    MaySignAnyDate(c, Sale(taxID, date - 1), 0);
    w := SaleDone(env, AllAnswered, c, Sale(taxID, date - 1), 0, q, latest);
    FirstReported(p, q.receipt);
  }

  lemma OneSaleKnown(env: Env, srv: Fdms, r: Receipt)
    requires |Today(srv).receipts| == 1 && Today(srv).receipts[0].receipt == r && TaxesKnown(env, r.bill)
    ensures AllKnown(env, Today(srv))
  {
    hide TaxesKnown;
  }

  lemma OneReported(rs: seq<Receipt>, r: Receipt)
    requires rs == [r]
    ensures Reports(rs, r.globalNo)
  {
    assert rs[0].globalNo == r.globalNo;
  }

  lemma FirstReported(r: Receipt, s: Receipt)
    requires r.date >= s.date
    ensures Reports([r] + [s], r.globalNo)
  {
    assert ([r] + [s])[0].globalNo == r.globalNo;
  }

  lemma MaySignAnyDate(w: World, input: ReceiptInput, now: int)
    ensures MaySign(AllAnswered, w, input, now)
  {
  }

  lemma OneQueued(env: Env, taxID: int, date: int, openedAt: int) returns (w: World, p: Prepared)
    requires Ieee(env)
    ensures Reached(Ordered, env, w) && w.pc.Idle? && w.disk.marker.None? && w.journal == Journal([p], 0)
    ensures w.queue == Queue([Queued(0, p)], true) && w.mem == Some(p.after) && p.after.previousDate == Some(date)
    ensures w.srv == Fdms(DayOpened, [Day(1, openedAt, [], [], false)], 1, None, None)
    ensures p.receipt.globalNo == p.after.globalNo == 1
  {
    hide Reached, SignReceipt, AllReceipts, FirstState, EnqueueDone, Ieee, Accumulated, Permitted;
    var a := DayOpens(env, Ordered, openedAt);
    FirstStateNumber(env, openedAt);
    p := FirstSigns(env, openedAt, Sale(taxID, date), taxID, date);
    SignedShape(env, FirstState(env, 1, openedAt, 0), Sale(taxID, date), 0);
    FirstEnqueue(env, Ordered, a, Sale(taxID, date), 0, p);
    EnqueueIsRun(Ordered, env, a, Sale(taxID, date), 0, p);
    w := EnqueueDone(env, false, a, p);
  }

  /** Two sales are journaled, one after the other. */
  lemma TwoQueued(env: Env, taxID: int, date: int, openedAt: int) returns (w: World, p: Prepared, q: Prepared)
    requires Ieee(env)
    ensures Reached(Ordered, env, w) && w.pc.Idle? && w.disk.marker.None? && w.journal == Journal([p, q], 0)
    ensures w.srv == Fdms(DayOpened, [Day(1, openedAt, [], [], false)], 1, None, None)
    ensures p.receipt.globalNo == p.after.globalNo == 1 && q.receipt.globalNo == 2
  {
    hide Reached, SignReceipt, AllReceipts, MaySign, EnqueueDone, Ieee;
    var b;
    b, p := OneQueued(env, taxID, date, openedAt);
    SaleSigns(env, p.after, taxID, date + 1, 0);
    SignedNumber(env, p.after, Sale(taxID, date + 1), 0);
    q := SignReceipt(env, p.after, Sale(taxID, date + 1), 0).prepared;
    MaySignFirstDay(Ordered, b, Sale(taxID, date + 1), 0);
    assert Tail(b.journal) == [p];
    EnqueueIsRun(Ordered, env, b, Sale(taxID, date + 1), 0, q);
    w := EnqueueDone(env, false, b, q);
  }

  /**
   * The process dies with two receipts queued; flush(), called before
   * reconcile(), delivers the first, whose state becomes the day state, and
   * fails on the second. The next sale is signed with the second's number.
   */
  lemma FlushFirstReusesNumber(env: Env, taxID: int, date: int, openedAt: int, latest: int)
    returns (w: World, input: ReceiptInput, r: Prepared)
    requires Ieee(env)
    ensures Reached(Ordered, env, w) && w.pc.Idle? && w.queue.loaded && w.srv.status.DayOpened?
    ensures !CaughtUp(w) && |Tail(w.journal)| == 1 && Tail(w.journal)[0].receipt.globalNo == r.receipt.globalNo
    ensures w.mem.Some? && MaySign(Ordered, w, input, 0) && SignReceipt(env, w.mem.value, input, 0) == Signed(r)
  {
    hide Reached, AllReceipts, HeadDone, Server.Submit, MaySign, SignReceipt, Ieee;
    var a, p, q := TwoQueued(env, taxID, date, openedAt);
    NotHeldYet(a);
    OneMoreStep(Ordered, env, a, Crash);
    var b := LoadDone(env, false, Next(env, false, a, Crash));
    LoadIsRun(Ordered, env, Next(env, false, a, Crash));
    assert Tail(a.journal) == [p, q];
    HeadIsRun(Ordered, env, b, 0, latest);
    FirstTaken(env, false, b.srv, p.receipt, latest);
    OpenAccepts(env, false, b.srv, p.receipt, latest);
    var c := HeadDone(env, false, b, 0, latest);
    w := SecondFails(env, c, q, latest);
    input, r := NextSale(env, w, taxID);
  }

  lemma NextSale(env: Env, w: World, taxID: int) returns (input: ReceiptInput, p: Prepared)
    requires Ieee(env) && |w.srv.days| == 1 && w.mem.Some?
    ensures MaySign(Ordered, w, input, 0) && SignReceipt(env, w.mem.value, input, 0) == Signed(p)
    ensures p.receipt.globalNo == w.mem.value.globalNo + 1
  {
    hide SignReceipt, MaySign, Ieee, TaxesKnown;
    var s := w.mem.value;
    var date := if s.previousDate.Some? then s.previousDate.value + 1 else 0;
    input := Sale(taxID, date);
    SaleSigns(env, s, taxID, date, 0);
    SignedNumber(env, s, input, 0);
    MaySignFirstDay(Ordered, w, input, 0);
    p := SignReceipt(env, s, input, 0).prepared;
  }

  lemma NotHeldYet(w: World)
    requires |w.srv.days| == 1 && Today(w.srv).receipts == []
    ensures !HeadHeld(w)
  {
    FirstDay(w.srv);
  }

  lemma SecondFails(env: Env, w: World, q: Prepared, latest: int) returns (v: World)
    requires Reached(Ordered, env, w) && w.pc.Advancing? && w.disk.marker.None? && w.mem.Some? && w.queue.loaded
    requires |w.journal.records| == 2 && w.journal.cursor == 0 && w.journal.records[1] == q
    requires |w.queue.pending| == 2 && w.queue.pending[0].cursor == 0 && w.queue.pending[1].item == q
    requires w.mem.value.globalNo == 1 && q.receipt.globalNo == 2 && w.srv.status.DayOpened?
    ensures Reached(Ordered, env, v) && v.pc.Idle? && v.queue.loaded && v.srv == w.srv && v.mem == w.mem
    ensures !CaughtUp(v) && Tail(v.journal) == [q]
  {
    hide Reached, AllReceipts, Server.Submit, HeadLost, MarkerIsHead, SignReceipt, CaughtUp;
    OneMoreStep(Ordered, env, w, CommitJournal);
    var a := Next(env, false, w, CommitJournal);
    OneMoreStep(Ordered, env, a, FlushHead);
    var b := Next(env, false, a, FlushHead);
    OneMoreStep(Ordered, env, b, WriteMarker);
    v := LostIsRun(env, Ordered, Next(env, false, b, WriteMarker), false, latest);
    assert Tail(v.journal) == [q];
    NotCaughtUp(v);
  }

  lemma NotCaughtUp(w: World)
    requires w.mem.Some? && |Tail(w.journal)| == 1 && Tail(w.journal)[0].receipt.globalNo > w.mem.value.globalNo
    ensures !CaughtUp(w)
  {
  }

  /** A flushed head has been answered and its marker deleted, and the journal's cursor not moved yet. */
  lemma HeadLosesMarker(env: Env, taxID: int, date: int, openedAt: int, latest: int) returns (w: World)
    requires Ieee(env)
    ensures Reached(Ordered, env, w) && HeadLost(w) && w.srv.status.DayOpened?
  {
    hide Reached, AllReceipts, HeadDone, Server.Submit;
    var a, p := OneQueued(env, taxID, date, openedAt);
    assert Tail(a.journal) == [p];
    MarkerListed(env, a);
    HeadIsRun(Ordered, env, a, 0, latest);
    FirstTaken(env, false, a.srv, p.receipt, latest);
    w := HeadDone(env, false, a, 0, latest);
  }

  lemma MarkerListed(env: Env, w: World)
    requires w.pc.Idle? && w.queue.loaded && w.queue.pending != [] && w.disk.marker.None?
    ensures Enabled(env, w, FlushHead)
  {
  }

  // -- outside the settings ------------------------------------------------

  /** Steps of the code and honest answers lead here from the start, whether or not the caller keeps to the setting. */
  ghost predicate Happens(rules: Rules, env: Env, w: World) {
    exists steps: seq<Step> :: Plays(rules, env, START, steps) && End(env, rules.Dedup?, START, steps) == w
  }

  lemma ReachedHappens(rules: Rules, env: Env, w: World)
    requires Reached(rules, env, w)
    ensures Happens(rules, env, w)
  {
    hide Possible, Surrounded, Allowed, End;
    var steps :| Run(rules, env, START, steps) && End(env, rules.Dedup?, START, steps) == w;
    RunPlays(rules, env, START, steps);
  }

  lemma HappensStep(rules: Rules, env: Env, w: World, step: Step)
    requires Happens(rules, env, w) && Enabled(env, w, step) && Surroundings(rules, env, w, step)
    ensures Happens(rules, env, Next(env, rules.Dedup?, w, step))
  {
    hide Possible, Surrounded, Enabled, Surroundings, Next, End;
    var steps :| Plays(rules, env, START, steps) && End(env, rules.Dedup?, START, steps) == w;
    OneStepPlays(rules, env, w, step);
    PlaysJoin(rules, env, START, steps, [step]);
    JoinedEnd(env, rules.Dedup?, START, steps, w, [step]);
  }

  lemma JoinedEnd(env: Env, dedup: bool, w: World, steps: seq<Step>, v: World, more: seq<Step>)
    requires Possible(env, dedup, w, steps) && End(env, dedup, w, steps) == v && Possible(env, dedup, v, more)
    ensures Possible(env, dedup, w, steps + more) && End(env, dedup, w, steps + more) == End(env, dedup, v, more)
  {
    StepsJoin(env, dedup, w, steps, more);
  }

  /** reconcile() with a report below the marker's number, answered. */
  lemma ResendHappens(rules: Rules, env: Env, w: World, n: nat, latest: int) returns (v: World)
    requires Happens(rules, env, w) && w.pc.Idle? && w.disk.marker.Some? && w.srv.status.DayOpened? && w.srv.days != []
    requires Reports(AllReceipts(w.srv.days), n) && n < w.disk.marker.value.receipt.globalNo
    ensures Happens(rules, env, v) && v.pc.Saving?
    ensures v.srv == Server.Submit(env, rules.Dedup?, w.srv, w.disk.marker.value.receipt, latest).0
  {
    hide Happens, Server.Submit, AllReceipts, Reports, SignReceipt, Tail;
    HappensStep(rules, env, w, Step.Reconcile);
    var a := Next(env, rules.Dedup?, w, Step.Reconcile);
    HappensStep(rules, env, a, AskStatus(Some(n)));
    var b := Next(env, rules.Dedup?, a, AskStatus(Some(n)));
    OpenAccepts(env, rules.Dedup?, w.srv, w.disk.marker.value.receipt, latest);
    HappensStep(rules, env, b, Send(Fate(true, None, latest)));
    v := Next(env, rules.Dedup?, b, Send(Fate(true, None, latest)));
  }

  /** A direct submit whose answer is lost, whatever its date. */
  lemma LostHappens(rules: Rules, env: Env, w: World, input: ReceiptInput, p: Prepared, latest: int) returns (v: World)
    requires Happens(rules, env, w) && w.pc.Idle? && w.disk.marker.None? && w.mem.Some? && !rules.AllAnswered?
    requires SignReceipt(env, w.mem.value, input, 0) == Signed(p)
    ensures Happens(rules, env, v) && v.pc.Idle? && v.disk.marker == Some(p)
    ensures v.srv == Server.Submit(env, rules.Dedup?, w.srv, p.receipt, latest).0
  {
    hide Happens, Server.Submit, AllReceipts, SignReceipt, Tail;
    HappensStep(rules, env, w, Submit(input, 0, Direct));
    var a := w.(pc := Marking(p, Direct));
    HappensStep(rules, env, a, WriteMarker);
    var b := Next(env, rules.Dedup?, a, WriteMarker);
    HappensStep(rules, env, b, Send(Fate(true, Some(Network), latest)));
    v := Next(env, rules.Dedup?, b, Send(Fate(true, Some(Network), latest)));
  }

  /**
   * A plain server and dates out of order: a sale, the next day one dated before
   * it whose answer is lost, reconcile(). GetStatus reports 1, the second sale is
   * sent again, and FDMS holds number 2 twice.
   */
  lemma EarlierDateIsDoubled(env: Env, taxID: int, date: int, openedAt: int, latest: int)
    returns (w: World, p: Receipt, q: Receipt)
    requires KeyPair(env) && Ieee(env) && taxID in env.taxIds
    ensures Happens(Ordered, env, w) && AllReceipts(w.srv.days) == [p, q, q]
    ensures p.globalNo == 1 && q.globalNo == 2 && q.date < p.date
  {
    hide KeyPair, Reached, Happens, SignReceipt, AllReceipts, FirstState, Taken, Ieee, Reports, Server.Submit,
      TaxesKnown;
    var c;
    c, p := SecondDay(env, Ordered, taxID, date, openedAt, latest);
    ReachedHappens(Ordered, env, c);
    SaleSigns(env, c.mem.value, taxID, date - 1, 0);
    SignedNumber(env, c.mem.value, Sale(taxID, date - 1), 0);
    var r := SignReceipt(env, c.mem.value, Sale(taxID, date - 1), 0).prepared;
    q := r.receipt;
    var d := LostHappens(Ordered, env, c, Sale(taxID, date - 1), r, latest);
    TakenShape(env, c.srv, q, latest);
    TodayTaken(env, c.srv, q, latest);
    PlainTakes(env, c.srv, q, latest);
    FirstReported(p, q);
    w := ResendHappens(Ordered, env, d, 1, latest);
    TakenShape(env, d.srv, q, latest);
    PlainTakes(env, d.srv, q, latest);
  }

  lemma PlainTakes(env: Env, srv: Fdms, r: Receipt, latest: int)
    requires srv.status.DayOpened? && srv.days != []
    ensures Server.Submit(env, false, srv, r, latest).0 == Taken(env, srv, r, latest)
  {
  }
}
