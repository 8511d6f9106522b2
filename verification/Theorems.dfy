/**
 * The promises of the submit protocol, for every world that any run reaches in
 * any of the three settings, over any number of days: with lost requests, lost
 * answers and refusals, and with the crashes that `Permitted` allows in each.
 * What happens after the others is in Limits.
 */
module Theorems {
  import opened Text
  import opened Options
  import opened Ledger
  import opened Counters
  import Tallies
  import opened Signing
  import opened Receipts
  import opened Server
  import opened Protocol
  import opened Invariant
  import opened Steps
  import opened CommitSteps
  import opened DaySteps
  import opened Reds
  import opened Runs

  /** FDMS holds every number from 1 on exactly once, in order, and each day counts its receipts from 1. */
  lemma EveryNumberOnce(env: Env, rules: Rules, w: World)
    requires KeyPair(env) && Reached(rules, env, w)
    ensures forall i :: 0 <= i < |AllReceipts(w.srv.days)| ==> AllReceipts(w.srv.days)[i].globalNo == i + 1
    ensures forall d, i :: d in w.srv.days && 0 <= i < |d.receipts| ==> d.receipts[i].receipt.counter == i + 1
  {
    hide KeyPair, Reached, AllReceipts, Passes, TaxesKnown, Answers;
    var log := ReachedHasInv(env, rules, w);
    hide LogOk, JournalOk, QueueOk, MarkerOk, MemOk, DiskOk, LastOk, PcOk, DatesOk, OnceOk;
  }

  /**
   * FDMS finds a red error in a receipt exactly when it has a tax ID outside the
   * table, and then no other; before it holds such a receipt today, no day state
   * records a red error.
   */
  lemma RedOnlyForUnknownTax(env: Env, rules: Rules, w: World)
    requires KeyPair(env) && Reached(rules, env, w)
    ensures forall d, i :: d in w.srv.days && 0 <= i < |d.receipts| ==>
              && (forall c :: c in d.receipts[i].errors && Red(c) ==> c.RCPT013?)
              && (Clean(d.receipts[i].errors) <==> TaxesKnown(env, d.receipts[i].receipt.bill))
    ensures AllKnown(env, Today(w.srv)) ==>
              && (w.mem.Some? ==> w.mem.value.redErrors == [])
              && (w.disk.dayState.Some? ==> w.disk.dayState.value.redErrors == [])
  {
    hide KeyPair, Reached, AllReceipts, TaxesKnown, AllKnown;
    var log := ReachedHasInv(env, rules, w);
    hide LogOk, JournalOk, QueueOk, MarkerOk, MemOk, DiskOk, LastOk, PcOk, DatesOk, OnceOk;
  }

  /** The day state as FDMS alone would write it. */
  function ServerState(env: Env, srv: Fdms): DayState {
    var d := Today(srv);
    DayState(d.no, env.dayText(d.openedAt), |d.receipts|, |AllReceipts(srv.days)|, PreviousHash(d), PreviousDate(d),
             d.counters, [])
  }

  /** Nothing is in flight and nothing waits. */
  predicate Quiet(w: World) {
    w.pc.Idle? && w.disk.marker.None? && Tail(w.journal) == []
  }

  /**
   * With no marker left and nothing waiting, the device's state, in memory and
   * stored, is the server's; red errors are the device's own record.
   */
  lemma QuietDeviceEqualsServer(env: Env, rules: Rules, w: World)
    requires KeyPair(env) && Reached(rules, env, w) && Quiet(w)
    ensures LastGlobal(w.disk) == |AllReceipts(w.srv.days)|
    ensures w.mem.Some? ==> Plain(w.mem.value) == ServerState(env, w.srv) && w.disk.dayState.Some?
    ensures w.disk.dayState.Some? ==> Plain(w.disk.dayState.value) == ServerState(env, w.srv)
    ensures w.disk.dayState.None? ==> w.srv.status.DayClosed?
  {
    hide KeyPair, Reached, LastGlobal, AllReceipts, RedsOk;
    var log := ReachedHasInv(env, rules, w);
    InSync(env, rules, w, log);
    StateMatchesServer(env, w.srv, log);
    hide LogOk, ServerOk, JournalOk, QueueOk, MarkerOk, MemOk, LastOk, PcOk, DatesOk, OnceOk;
  }

  /**
   * Closing a quiet open day: the device sends what FDMS computes itself, and the
   * day closes if and only if no receipt of the day has an unknown tax ID; then no
   * force is needed. Otherwise FDMS opens the day again and says why.
   */
  lemma CloseDaySettles(env: Env, rules: Rules, w: World, latest: int)
    requires KeyPair(env) && Reached(rules, env, w) && Quiet(w) && w.mem.Some? && w.srv.status.DayOpened?
    ensures May(rules, env, w, CloseFiscalDay(true, Fate(true, None, latest)))
    ensures AllKnown(env, Today(w.srv)) ==> May(rules, env, w, CloseFiscalDay(false, Fate(true, None, latest)))
    ensures
      var s, d := w.mem.value, Today(w.srv);
      && FiscalDaySigningString(env.deviceId, s.dayNo, s.dayDate, Merged(s.counters))
           == FiscalDaySigningString(env.deviceId, d.no, env.dayText(d.openedAt), d.counters)
      && CloseRequestOf(env, s).counters == NonZero(d.counters) && CloseRequestOf(env, s).receiptCounter == |d.receipts|
    ensures
      var v := Next(env, rules.Dedup?, w, CloseFiscalDay(true, Fate(true, None, latest)));
      && v.srv.status.CloseInitiated? && v.mem.None?
      && if AllKnown(env, Today(w.srv)) then
           Settled(v.srv).status.DayClosed? && Settled(v.srv).closingError.None? && Today(Settled(v.srv)).closed
         else
           Settled(v.srv).status.DayOpened? && Settled(v.srv).closingError == Some(ReceiptsWithValidationErrors)
  {
    hide Reached, AllReceipts, Inv, RedsOk, CloseVerdict, CloseRequestOf, Merged, FiscalDaySigningString, Tail,
      NonZero, KeyPair, LastGlobal, AllKnown;
    var log := ReachedHasInv(env, rules, w);
    RedOnlyForUnknownTax(env, rules, w);
    QuietDeviceEqualsServer(env, rules, w);
    CloseMatches(env, rules, w, log);
  }

  lemma CloseMatches(env: Env, rules: Rules, w: World, log: seq<Prepared>)
    requires KeyPair(env) && Inv(env, rules, w, log) && Quiet(w) && w.mem.Some?
    requires Plain(w.mem.value) == ServerState(env, w.srv) && w.srv.status.DayOpened?
    ensures w.srv.days != [] && Merged(w.mem.value.counters) == Today(w.srv).counters
    ensures
      var q := CloseRequestOf(env, w.mem.value);
      && q.dayNo == Today(w.srv).no && q.receiptCounter == |Today(w.srv).receipts|
      && q.counters == NonZero(Today(w.srv).counters)
      && CloseVerdict(env, w.srv, q) == JudgedAs(env, Today(w.srv))
  {
    InSync(env, rules, w, log);
    CloseIsJudged(env, w.srv, w.mem.value, log);
    OpensToday(env, w.srv);
    StateFacts(env, OriginOf(env, w.srv), log, |log|);
    MergeIsIdentity(w.mem.value.counters);
    hide LogOk, AllReceipts, CloseVerdict, CloseRequestOf, Merged, FiscalDaySigningString, Tail, NonZero, KeyPair,
      LastGlobal, Built, JournalOk, QueueOk, MarkerOk, MemOk, DiskOk, LastOk, PcOk, DatesOk, OnceOk, OriginOf,
      StateAt, HoldsPrefix, DayOk, Numbered, AllKnown;
  }

  /**
   * closeDay() does not look at the queue. From any point between two calls on
   * an open day, without a marker, the close settles to a closed day if and only
   * if the day state counts exactly the receipts FDMS holds, none of which has an
   * unknown tax ID.
   */
  lemma CloseSettlesIff(env: Env, rules: Rules, w: World, force: bool, latest: int)
    requires KeyPair(env) && Reached(rules, env, w) && w.srv.status.DayOpened?
    requires Enabled(env, w, CloseFiscalDay(force, Fate(true, None, latest)))
    ensures
      var v := Next(env, rules.Dedup?, w, CloseFiscalDay(force, Fate(true, None, latest)));
      && v.srv.status.CloseInitiated?
      && (Settled(v.srv).status.DayClosed? <==>
          w.mem.value.globalNo == |AllReceipts(w.srv.days)| && AllKnown(env, Today(w.srv)))
  {
    hide Reached, AllReceipts, Inv, RedsOk, CloseVerdict, CloseRequestOf, KeyPair, AllKnown, Tail;
    var log := ReachedHasInv(env, rules, w);
    CloseVerdictIff(env, rules, w, log);
  }

  lemma CloseVerdictIff(env: Env, rules: Rules, w: World, log: seq<Prepared>)
    requires KeyPair(env) && Inv(env, rules, w, log) && w.pc.Idle? && w.mem.Some? && w.srv.status.DayOpened?
    ensures
      var q := CloseRequestOf(env, w.mem.value);
      && q.dayNo == Today(w.srv).no
      && (CloseVerdict(env, w.srv, q).Fine? <==>
          w.mem.value.globalNo == |AllReceipts(w.srv.days)| && AllKnown(env, Today(w.srv)))
  {
    hide LogOk, ServerOk, JournalOk, QueueOk, MarkerOk, DiskOk, LastOk, PcOk, DatesOk, OnceOk, AllReceipts, KeyPair,
      AllKnown, Tail, BehindMarker, Opens, FiscalDaySigningString, SignatureText, Merged, NonZero, Verified, StateAt;
    var o := OriginOf(env, w.srv);
    var j := w.mem.value.globalNo - o.base;
    AllIsEarlierAndToday(w.srv);
    OpensToday(env, w.srv);
    StateFacts(env, o, log, j);
    if j == HeldToday(w.srv) {
      CloseIsJudged(env, w.srv, w.mem.value, log);
    }
  }

  /** A new day starts from the highest number FDMS holds, however low GetStatus reports. */
  lemma OpeningContinues(env: Env, rules: Rules, w: World, dayNo: Option<nat>, openedAt: int, reported: nat, given: nat)
    requires KeyPair(env) && Reached(rules, env, w)
    requires May(rules, env, w, OpenFiscalDay(dayNo, openedAt, reported, given))
    ensures var v := Next(env, rules.Dedup?, w, OpenFiscalDay(dayNo, openedAt, reported, given));
            v.mem.Some? && v.mem.value.globalNo == Highest(AllReceipts(w.srv.days)) == |AllReceipts(w.srv.days)|
  {
    hide Reached, Inv, RedsOk, AllReceipts, Highest, KeyPair, LastGlobal, Raised, OpenDay;
    var log := ReachedHasInv(env, rules, w);
    OpeningNumber(env, rules, w, reported, given, log);
  }

  /** The stored last number never decreases, whatever steps are taken, permitted or not. */
  lemma {:induction false} LastNumberNeverDecreases(env: Env, dedup: bool, w: World, steps: seq<Step>)
    requires Possible(env, dedup, w, steps)
    ensures LastGlobal(End(env, dedup, w, steps).disk) >= LastGlobal(w.disk)
    decreases steps
  {
    hide Enabled, Next, LastGlobal;
    if steps != [] {
      LastNumberStays(env, dedup, w, steps[0]);
      LastNumberNeverDecreases(env, dedup, Next(env, dedup, w, steps[0]), steps[1..]);
    }
  }

  lemma LastNumberStays(env: Env, dedup: bool, w: World, step: Step)
    requires Enabled(env, w, step)
    ensures LastGlobal(Next(env, dedup, w, step).disk) >= LastGlobal(w.disk)
  {
    hide SignReceipt, OpenDay, CloseDay, Server.Submit, Settled, Committed, FirstState, CloseRequestOf, Tail, Indexed;
  }

  predicate DayNumbers(days: seq<Day>) {
    forall k :: 0 <= k < |days| ==> days[k].no == k + 1
  }

  /** Days are numbered from 1 without a gap, whatever steps are taken. */
  lemma {:induction false} DaysAreNumbered(env: Env, dedup: bool, w: World, steps: seq<Step>)
    requires Possible(env, dedup, w, steps) && DayNumbers(w.srv.days)
    ensures DayNumbers(End(env, dedup, w, steps).srv.days)
    decreases steps
  {
    hide Enabled, Next, DayNumbers;
    if steps != [] {
      StepIsNumbered(env, dedup, w, steps[0]);
      DaysAreNumbered(env, dedup, Next(env, dedup, w, steps[0]), steps[1..]);
    }
  }

  lemma StepIsNumbered(env: Env, dedup: bool, w: World, step: Step)
    requires Enabled(env, w, step) && DayNumbers(w.srv.days)
    ensures DayNumbers(Next(env, dedup, w, step).srv.days)
  {
    hide SignReceipt, Committed, FirstState, CloseRequestOf, Tail, Indexed, CloseVerdict, Duplicate, Errors,
      AllReceipts, Highest, Accumulated, Raised;
  }

  /** What closeDay signs on a quiet device is FDMS's own string: device, day number, opening date, counters. */
  lemma CloseIsSigned(env: Env, rules: Rules, w: World)
    requires KeyPair(env) && Reached(rules, env, w) && Quiet(w) && w.mem.Some? && w.srv.status.DayOpened?
    ensures
      var q, d := CloseRequestOf(env, w.mem.value), Today(w.srv);
      var text := FiscalDaySigningString(env.deviceId, d.no, env.dayText(d.openedAt), d.counters);
      q.dayNo == d.no && q.hash == env.hash(text) && q.signature == SignatureText(env, text)
  {
    hide Reached, AllReceipts, FiscalDaySigningString, SignatureText, Merged, NonZero, Tail, KeyPair, LastGlobal,
      AllKnown, CloseDay, Settled;
    CloseDaySettles(env, rules, w, 0);
    QuietDeviceEqualsServer(env, rules, w);
  }

  // -- the day's counters --------------------------------------------------

  function BillsOf(stored: seq<Stored>): seq<Bill> {
    seq(|stored|, i requires 0 <= i < |stored| => stored[i].receipt.bill)
  }

  /** Every day's counters come from exactly its receipts. */
  predicate Booked(days: seq<Day>) {
    forall k :: 0 <= k < |days| ==> days[k].counters == CountersAfter(BillsOf(days[k].receipts))
  }

  lemma TakenIsBooked(env: Env, srv: Fdms, r: Receipt, latest: int)
    requires srv.days != [] && Booked(srv.days)
    ensures Booked(Taken(env, srv, r, latest).days)
  {
    hide Errors, Accumulated, AllReceipts, Highest, CountersAfter;
    TodayTaken(env, srv, r, latest);
    var stored := Today(Taken(env, srv, r, latest)).receipts;
    BillsGrow(Today(srv).receipts, stored[|stored| - 1]);
  }

  lemma BillsGrow(stored: seq<Stored>, one: Stored)
    ensures CountersAfter(BillsOf(stored + [one])) == Accumulated(CountersAfter(BillsOf(stored)), one.receipt.bill)
  {
    hide Accumulated;
    assert BillsOf(stored + [one])[..|stored|] == BillsOf(stored);
  }

  lemma StepIsBooked(env: Env, dedup: bool, w: World, step: Step)
    requires Enabled(env, w, step) && Booked(w.srv.days)
    ensures Booked(Next(env, dedup, w, step).srv.days)
  {
    hide SignReceipt, Committed, FirstState, CloseRequestOf, Tail, Indexed, CloseVerdict, Duplicate, Taken, Errors,
      AllReceipts, Highest, CountersAfter, Accumulated, Raised;
    if step.Send? && w.srv.days != [] {
      TakenIsBooked(env, w.srv, w.pc.p.receipt, step.fate.latest);
    } else if step.OpenFiscalDay? {
      NothingBooked();
    }
  }

  lemma NothingBooked()
    ensures BillsOf([]) == [] && CountersAfter([]) == []
  {
  }

  /** So in every world that any steps reach: see Tallies for what each counter then holds. */
  lemma {:induction false} DaysAreBooked(env: Env, dedup: bool, w: World, steps: seq<Step>)
    requires Booked(w.srv.days) && Possible(env, dedup, w, steps)
    ensures Booked(End(env, dedup, w, steps).srv.days)
    decreases steps
  {
    hide Booked, Enabled, Next;
    if steps != [] {
      StepIsBooked(env, dedup, w, steps[0]);
      DaysAreBooked(env, dedup, Next(env, dedup, w, steps[0]), steps[1..]);
    }
  }

  /** What a quiet device will sign and send are the tallies of the receipts that FDMS holds today. */
  lemma DeviceCountersTally(env: Env, rules: Rules, steps: seq<Step>, c: Counter)
    requires KeyPair(env) && Run(rules, env, START, steps)
    requires
      var w := End(env, rules.Dedup?, START, steps);
      Quiet(w) && w.mem.Some? && w.srv.days != [] && c in w.mem.value.counters
    ensures
      var bs := BillsOf(Today(End(env, rules.Dedup?, START, steps).srv).receipts);
      if c.kind.BalanceByMoneyType? then
        c.moneyType.Some? && c.value == Tallies.MoneyTally(bs, c.currency, c.moneyType.value)
      else c.taxID.Some? && c.value == Tallies.TaxTally(bs, c.kind, c.currency, c.taxID.value)
  {
    hide Possible, Allowed, Reached, KeyPair, LastGlobal, AllReceipts, CountersAfter, BillsOf, Tallies.MoneyTally,
      Tallies.TaxTally, Tail, PreviousHash, PreviousDate;
    var w := End(env, rules.Dedup?, START, steps);
    DaysAreBooked(env, rules.Dedup?, START, steps);
    ReachedByRun(env, rules, steps);
    QuietDeviceEqualsServer(env, rules, w);
    Tallies.EveryCounterTallies(BillsOf(Today(w.srv).receipts), c);
  }

  // -- the queue and its journal -------------------------------------------

  /** What FDMS has taken stays, in its place, whatever steps are taken, permitted or not. */
  lemma {:induction false} AcceptedStays(env: Env, dedup: bool, w: World, steps: seq<Step>)
    requires Possible(env, dedup, w, steps)
    ensures AllReceipts(w.srv.days) <= AllReceipts(End(env, dedup, w, steps).srv.days)
    decreases steps
  {
    hide Enabled, Next, AllReceipts;
    if steps != [] {
      ReceiptsStay(env, dedup, w, steps[0]);
      AcceptedStays(env, dedup, Next(env, dedup, w, steps[0]), steps[1..]);
    }
  }

  lemma ReceiptsStay(env: Env, dedup: bool, w: World, step: Step)
    requires Enabled(env, w, step)
    ensures AllReceipts(w.srv.days) <= AllReceipts(Next(env, dedup, w, step).srv.days)
  {
    hide SignReceipt, Committed, FirstState, CloseRequestOf, Tail, Indexed, Errors, Accumulated, Highest,
      CloseVerdict, Duplicate, Taken, AllReceipts, Settled;
    if step.Send? && w.srv.days != [] {
      TakenShape(env, w.srv, w.pc.p.receipt, step.fate.latest);
    } else if step.OpenFiscalDay? {
      EmptyDayAdded(w.srv.days, OpenDay(w.srv, step.dayNo, step.openedAt).value.0.days);
    } else if step.Settle? {
      ClosedStays(w.srv);
    }
  }

  lemma EmptyDayAdded(days: seq<Day>, more: seq<Day>)
    requires |more| == |days| + 1 && more[..|days|] == days && more[|days|].receipts == []
    ensures AllReceipts(more) == AllReceipts(days)
  {
  }

  lemma ClosedStays(srv: Fdms)
    ensures AllReceipts(Settled(srv).days) == AllReceipts(srv.days)
  {
    AllIsEarlierAndToday(srv);
    AllIsEarlierAndToday(Settled(srv));
  }

  /** A body that is sent with a number FDMS already holds is the body FDMS holds. */
  lemma SentBodyIsHeldBody(env: Env, rules: Rules, w: World)
    requires KeyPair(env) && Reached(rules, env, w) && w.pc.Sending?
    ensures 1 <= w.pc.p.receipt.globalNo <= |AllReceipts(w.srv.days)| + 1
    ensures w.pc.p.receipt.globalNo <= |AllReceipts(w.srv.days)| ==>
              AllReceipts(w.srv.days)[w.pc.p.receipt.globalNo - 1] == w.pc.p.receipt && rules.Dedup?
  {
    hide Reached, AllReceipts, KeyPair, Inv, RedsOk;
    var log := ReachedHasInv(env, rules, w);
    SendingIsPlaced(env, rules, w, log);
  }

  lemma SendingIsPlaced(env: Env, rules: Rules, w: World, log: seq<Prepared>)
    requires Inv(env, rules, w, log) && w.pc.Sending?
    ensures
      var o, n := OriginOf(env, w.srv), w.pc.p.receipt.globalNo;
      && |AllReceipts(w.srv.days)| == o.base + HeldToday(w.srv) && 1 <= n <= |AllReceipts(w.srv.days)| + 1
      && (n <= |AllReceipts(w.srv.days)| ==> AllReceipts(w.srv.days)[n - 1] == w.pc.p.receipt && rules.Dedup?)
  {
    hide LogOk, ServerOk, JournalOk, QueueOk, MarkerOk, MemOk, DiskOk, LastOk, DatesOk, OnceOk, AllReceipts, InHand,
      SignedOn, PcOk, InLog, Tail;
    var o, p := OriginOf(env, w.srv), w.pc.p;
    AllIsEarlierAndToday(w.srv);
    SendingFacts(env, rules, w, log);
    HeldInLog(env, rules, o, w.srv, w.journal, p, log);
    if Index(o, p) < HeldToday(w.srv) {
      TakenAreHeld(env, w.srv, log, p);
    }
  }

  /**
   * Once FDMS has accepted a body with a number, every body sent later with
   * that number, after any further steps, is the same.
   */
  lemma NumberFixesBody(env: Env, rules: Rules, before: seq<Step>, after: seq<Step>, n: nat)
    requires KeyPair(env) && Run(rules, env, START, before)
    requires Run(rules, env, End(env, rules.Dedup?, START, before), after)
    requires
      var v := End(env, rules.Dedup?, START, before);
      var w := End(env, rules.Dedup?, v, after);
      1 <= n <= |AllReceipts(v.srv.days)| && w.pc.Sending? && w.pc.p.receipt.globalNo == n
    ensures
      var v := End(env, rules.Dedup?, START, before);
      var w := End(env, rules.Dedup?, v, after);
      w.pc.p.receipt == AllReceipts(v.srv.days)[n - 1]
  {
    hide Allowed, Possible, AllReceipts, KeyPair, Reached;
    var v := End(env, rules.Dedup?, START, before);
    var w := End(env, rules.Dedup?, v, after);
    RunsJoin(env, rules, START, before, after);
    assert Reached(rules, env, w) by { ReachedByRun(env, rules, before + after); }
    AcceptedStays(env, rules.Dedup?, v, after);
    SentBodyIsHeldBody(env, rules, w);
  }

  lemma ReachedByRun(env: Env, rules: Rules, steps: seq<Step>)
    requires Run(rules, env, START, steps)
    ensures Reached(rules, env, End(env, rules.Dedup?, START, steps))
  {
  }

  lemma {:induction false} StepsJoin(env: Env, dedup: bool, w: World, before: seq<Step>, after: seq<Step>)
    requires Possible(env, dedup, w, before) && Possible(env, dedup, End(env, dedup, w, before), after)
    ensures Possible(env, dedup, w, before + after)
    ensures End(env, dedup, w, before + after) == End(env, dedup, End(env, dedup, w, before), after)
    decreases before
  {
    hide Enabled, Next;
    if before == [] {
      assert before + after == after;
    } else {
      StepsJoin(env, dedup, Next(env, dedup, w, before[0]), before[1..], after);
      assert (before + after)[1..] == before[1..] + after;
    }
  }

  lemma {:induction false} RunsJoin(env: Env, rules: Rules, w: World, before: seq<Step>, after: seq<Step>)
    requires Run(rules, env, w, before) && Run(rules, env, End(env, rules.Dedup?, w, before), after)
    ensures Run(rules, env, w, before + after)
    ensures End(env, rules.Dedup?, w, before + after) ==
            End(env, rules.Dedup?, End(env, rules.Dedup?, w, before), after)
    decreases before
  {
    hide Permitted, Enabled, Next;
    StepsJoin(env, rules.Dedup?, w, before, after);
    if before == [] {
      assert before + after == after;
    } else {
      RunsJoin(env, rules, Next(env, rules.Dedup?, w, before[0]), before[1..], after);
      assert (before + after)[1..] == before[1..] + after;
    }
  }

  /**
   * The journal in number order: what is committed FDMS holds under its number,
   * what is not follows on without a gap, and the list in memory mirrors it.
   */
  lemma JournalMirrored(env: Env, rules: Rules, w: World)
    requires KeyPair(env) && Reached(rules, env, w)
    ensures w.journal.cursor <= |w.journal.records| && Increasing(w.journal.records)
    ensures forall i :: 0 <= i < w.journal.cursor ==> HeldAs(AllReceipts(w.srv.days), w.journal.records[i].receipt)
    ensures forall i :: w.journal.cursor <= i < |w.journal.records| ==>
              w.journal.records[i].receipt.globalNo ==
              w.journal.records[w.journal.cursor].receipt.globalNo + i - w.journal.cursor
    ensures w.journal.cursor < |w.journal.records| ==>
              w.journal.records[w.journal.cursor].receipt.globalNo <= |AllReceipts(w.srv.days)| + 1
    ensures w.queue.loaded && w.pc.Idle? ==>
              && |w.journal.records| == w.journal.cursor + |w.queue.pending|
              && forall i :: 0 <= i < |w.queue.pending| ==>
                   w.queue.pending[i] == Queued(w.journal.cursor + i, w.journal.records[w.journal.cursor + i])
  {
    hide Reached, AllReceipts, KeyPair, Inv, RedsOk;
    var log := ReachedHasInv(env, rules, w);
    JournalInOrder(env, rules, w, log);
  }

  lemma JournalInOrder(env: Env, rules: Rules, w: World, log: seq<Prepared>)
    requires Inv(env, rules, w, log)
    ensures
      var j := w.journal;
      && j.cursor <= |j.records| && Increasing(j.records) && CommittedHeld(AllReceipts(w.srv.days), j)
      && (forall i :: j.cursor <= i < |j.records| ==>
            j.records[i].receipt.globalNo == j.records[j.cursor].receipt.globalNo + i - j.cursor)
      && (j.cursor < |j.records| ==> j.records[j.cursor].receipt.globalNo <= |AllReceipts(w.srv.days)| + 1)
      && (w.queue.loaded && w.pc.Idle? ==> w.queue.pending == Indexed(j.cursor, Tail(j)))
  {
    hide LogOk, ServerOk, MarkerOk, MemOk, DiskOk, LastOk, DatesOk, OnceOk, AllReceipts, PcOk, CommittedHeld,
      Increasing, AllBelow;
    AllIsEarlierAndToday(w.srv);
    HeldFitsLog(env, w.srv, log);
    var j := w.journal;
    OpensToday(env, w.srv);
    forall i | j.cursor <= i < |j.records|
      ensures j.records[i].receipt.globalNo == OriginOf(env, w.srv).base + Begun(j, log) + i - j.cursor + 1
    {
      assert Tail(j)[i - j.cursor] == log[Begun(j, log)..][i - j.cursor];
      StateFacts(env, OriginOf(env, w.srv), log, Begun(j, log) + i - j.cursor + 1);
    }
  }

  /**
   * A plain server holds no uncommitted receipt but the head, and then the
   * marker still says so: nothing is sent twice.
   */
  lemma OnlyTheHeadMayBeHeld(env: Env, rules: Rules, w: World)
    requires KeyPair(env) && Reached(rules, env, w) && !rules.Dedup?
    ensures forall i :: w.journal.cursor < i < |w.journal.records| ==>
              w.journal.records[i].receipt !in AllReceipts(w.srv.days)
    ensures HeadHeld(w) && !w.pc.Advancing? ==> w.disk.marker == Some(Tail(w.journal)[0])
  {
    hide Reached, AllReceipts, KeyPair, Inv, RedsOk, HeadHeld;
    var log := ReachedHasInv(env, rules, w);
    JournalInOrder(env, rules, w, log);
    HeadIsNext(env, rules, w, log);
  }

  lemma HeadIsNext(env: Env, rules: Rules, w: World, log: seq<Prepared>)
    requires Inv(env, rules, w, log) && !rules.Dedup?
    ensures forall r :: r in AllReceipts(w.srv.days) ==> r.globalNo <= |AllReceipts(w.srv.days)|
    ensures Tail(w.journal) != [] ==> Tail(w.journal)[0].receipt.globalNo >= |AllReceipts(w.srv.days)|
    ensures HeadHeld(w) && !w.pc.Advancing? ==> w.disk.marker == Some(Tail(w.journal)[0])
  {
    hide LogOk, JournalOk, QueueOk, MarkerOk, MemOk, DiskOk, LastOk, DatesOk, AllReceipts, PcOk, HoldsPrefix, DayOk,
      Tail, Opens;
    AllIsEarlierAndToday(w.srv);
    if Tail(w.journal) != [] {
      OpensToday(env, w.srv);
      HeadInLog(env, OriginOf(env, w.srv), w.srv, w.journal, log);
      if HeadHeld(w) {
        assert Tail(w.journal)[0].receipt.globalNo <= |AllReceipts(w.srv.days)|;
      }
    }
  }

  // -- one process, all receipts through the queue --------------------------

  /** No restart, nobody but the queue submits or reconciles, and every failure is the network's or an HTTP answer. */
  predicate QueueOnly(step: Step) {
    && !step.Crash? && !step.Reconcile? && !(step.Submit? && step.via.Direct?)
    && !(step.Send? && step.fate.failure.Some? && step.fate.failure.value.Other?)
  }

  predicate ByQueue(pc: Pc) {
    && (pc.Marking? || pc.Asking? || pc.Sending? || pc.Dropping? || pc.Saving? || pc.SavingLast? || pc.Unmarking? ==>
          pc.via.Fallback? || pc.via.Flush?)
    && (pc.Asking? ==> pc.via.Flush?)
  }

  /** The receipt in hand of submitOrEnqueue, before the journal has it. */
  predicate Unjournaled(pc: Pc, p: Prepared) {
    || ((pc.Sending? || pc.Dropping? || pc.Saving? || pc.SavingLast? || pc.Unmarking?) && pc.via.Fallback?)
    || (pc.Appending? && pc.p == p)
  }

  predicate MarkerAtHead(w: World) {
    && ByQueue(w.pc)
    && (w.disk.marker.Some? ==>
          || (Tail(w.journal) != [] && w.disk.marker.value == Tail(w.journal)[0])
          || Unjournaled(w.pc, w.disk.marker.value))
  }

  lemma MarkerStaysAtHead(env: Env, rules: Rules, w: World, step: Step, log: seq<Prepared>)
    requires Inv(env, rules, w, log) && May(rules, env, w, step) && QueueOnly(step) && MarkerAtHead(w)
    ensures MarkerAtHead(Next(env, rules.Dedup?, w, step))
  {
    hide Inv, Next, Permitted, Enabled, Tail, LogOk, ServerOk, JournalOk, PcOk, MarkerAtHead, InHand, OriginOf;
    InHandFacts(env, rules, w, log);
    if step.Append? {
      AppendIsEnabled(env, w);
      AppendingMarker(env, rules, w, log);
      TailAppended(w.journal, w.pc.p);
      AppendKeepsHead(env, rules.Dedup?, w);
    } else {
      StepKeepsHead(env, rules, w, step);
    }
  }

  lemma AppendIsEnabled(env: Env, w: World)
    requires Enabled(env, w, Append)
    ensures w.pc.Appending?
  {
  }

  lemma AppendKeepsHead(env: Env, dedup: bool, w: World)
    requires MarkerAtHead(w) && Enabled(env, w, Append)
    requires Tail(w.journal.(records := w.journal.records + [w.pc.p])) == Tail(w.journal) + [w.pc.p]
    requires w.disk.marker == Some(w.pc.p) ==> Tail(w.journal) == []
    ensures MarkerAtHead(Next(env, dedup, w, Append))
  {
    hide Tail;
  }

  lemma StepKeepsHead(env: Env, rules: Rules, w: World, step: Step)
    requires Enabled(env, w, step) && QueueOnly(step) && MarkerAtHead(w) && !step.Append?
    requires w.pc.Sending? || w.pc.Dropping? || w.pc.Saving? || w.pc.SavingLast? || w.pc.Unmarking? || w.pc.Asking? ==>
               InHand(rules, w, w.pc.p, w.pc.via)
    requires w.pc.Marking? && w.pc.via.Flush? ==> AtHead(w, w.pc.p)
    requires w.pc.Advancing? || w.pc.Marking? ==> w.disk.marker.None?
    ensures MarkerAtHead(Next(env, rules.Dedup?, w, step))
  {
    hide SignReceipt, OpenDay, CloseDay, Server.Submit, Settled, Committed, FirstState, CloseRequestOf, Tail, Indexed,
      LastGlobal, NotHead;
  }

  lemma InHandFacts(env: Env, rules: Rules, w: World, log: seq<Prepared>)
    requires Inv(env, rules, w, log)
    ensures w.pc.Sending? || w.pc.Dropping? || w.pc.Saving? || w.pc.SavingLast? || w.pc.Unmarking? || w.pc.Asking? ==>
              InHand(rules, w, w.pc.p, w.pc.via)
    ensures w.pc.Marking? && w.pc.via.Flush? ==> AtHead(w, w.pc.p)
    ensures w.pc.Advancing? || w.pc.Marking? ==> w.disk.marker.None?
  {
    hide LogOk, ServerOk, JournalOk, QueueOk, MarkerOk, MemOk, DiskOk, LastOk, DatesOk, OnceOk, InHand, AtHead, Kept,
      SignedOn, Fits, OriginOf;
  }

  lemma AppendingMarker(env: Env, rules: Rules, w: World, log: seq<Prepared>)
    requires Inv(env, rules, w, log) && w.pc.Appending?
    ensures w.disk.marker == Some(w.pc.p) ==> Tail(w.journal) == []
    ensures w.journal.cursor <= |w.journal.records|
  {
    CursorFits(OriginOf(env, w.srv), w.srv, w.journal, log) by { hide LogOk, ServerOk, JournalOk, PcOk, OriginOf; }
    AppendingFacts(env, rules, w, log);
    hide LogOk, ServerOk, JournalOk, QueueOk, MemOk, DiskOk, LastOk, DatesOk, OnceOk, PcOk, OriginOf, Tail, Follows;
  }

  lemma {:induction false} QueueRunKeepsHead(env: Env, rules: Rules, w: World, steps: seq<Step>, log: seq<Prepared>)
    requires KeyPair(env) && Inv(env, rules, w, log) && MarkerAtHead(w)
    requires Run(rules, env, w, steps) && forall i :: 0 <= i < |steps| ==> QueueOnly(steps[i])
    ensures MarkerAtHead(End(env, rules.Dedup?, w, steps))
    decreases steps
  {
    hide Inv, Permitted, Enabled, Next, KeyPair, MarkerAtHead, QueueOnly;
    if steps != [] {
      StepKeepsInv(env, rules, w, steps[0], log);
      MarkerStaysAtHead(env, rules, w, steps[0], log);
      QueueRunKeepsHead(env, rules, Next(env, rules.Dedup?, w, steps[0]), steps[1..], LogAfter(env, w, steps[0], log));
    }
  }

  /**
   * Between two calls of the queue a marker is always that of the head, so
   * flush settles it before anything is sent.
   */
  lemma MarkerIsTheHead(env: Env, rules: Rules, steps: seq<Step>)
    requires KeyPair(env) && Run(rules, env, START, steps) && forall i :: 0 <= i < |steps| ==> QueueOnly(steps[i])
    ensures
      var w := End(env, rules.Dedup?, START, steps);
      w.pc.Idle? && w.disk.marker.Some? ==> Tail(w.journal) != [] && w.disk.marker.value == Tail(w.journal)[0]
  {
    hide Inv, Permitted, Enabled, Next, KeyPair, QueueOnly, Tail;
    StartHoldsInv(env, rules);
    QueueRunKeepsHead(env, rules, START, steps, []);
  }
}
