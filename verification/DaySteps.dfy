/** Opening, closing and clearing a fiscal day keep the invariant. */
module DaySteps {
  import opened Text
  import opened Options
  import opened Counters
  import opened Signing
  import opened Receipts
  import opened Server
  import opened Protocol
  import opened Invariant
  import opened Steps
  import opened CommitSteps

  /** With an empty journal tail and no marker, device, journal and FDMS are at the same receipt. */
  lemma InSync(env: Env, rules: Rules, w: World, log: seq<Prepared>)
    requires Inv(env, rules, w, log)
    requires Tail(w.journal) == [] && w.disk.marker.None?
    ensures HeldToday(w.srv) == |log| == Begun(w.journal, log)
    ensures |AllReceipts(w.srv.days)| == OriginOf(env, w.srv).base + |log| == LastGlobal(w.disk)
    ensures w.mem.Some? ==> Plain(w.mem.value) == StateAt(OriginOf(env, w.srv), log, |log|) && w.disk.dayState.Some?
  {
    hide LogOk, QueueOk, MarkerOk, PcOk, DatesOk, OnceOk, AllBelow, Increasing, CommittedHeld, DayOk, Numbered;
    AllIsEarlierAndToday(w.srv);
    HeldFitsLog(env, w.srv, log);
  }

  // -- opening -------------------------------------------------------------

  /**
   * The opening number is the number of receipts FDMS holds, whatever GetStatus
   * reports: the stored last number makes up for a report that is too low.
   */
  lemma OpeningNumber(env: Env, rules: Rules, w: World, reported: nat, given: nat, log: seq<Prepared>)
    requires Inv(env, rules, w, log)
    requires Tail(w.journal) == [] && w.disk.marker.None?
    requires Reports(AllReceipts(w.srv.days), reported) && given <= Highest(AllReceipts(w.srv.days))
    ensures Max(Max(reported, given),
                LastGlobal(w.disk)) == Highest(AllReceipts(w.srv.days)) == |AllReceipts(w.srv.days)|
  {
    hide LogOk, QueueOk, MarkerOk, PcOk, DatesOk, OnceOk, JournalOk, MemOk, DiskOk, LastOk, LastGlobal, Highest,
      OriginOf, HeldToday, HoldsPrefix, DayOk, AllReceipts;
    InSync(env, rules, w, log);
    NumberedHighest(AllReceipts(w.srv.days));
    ReportedIsLast(env, rules, w.srv, log, reported);
  }

  lemma DayAdded(env: Env, srv: Fdms, dayNo: Option<nat>, openedAt: int, log: seq<Prepared>)
    requires ServerOk(env, srv, log) && OpenDay(srv, dayNo, openedAt).Some?
    ensures var (s, no) := OpenDay(srv, dayNo, openedAt).value;
            && AllReceipts(s.days) == AllReceipts(srv.days) && HeldToday(s) == 0
            && s.status.DayOpened? && s.days != []
            && OriginOf(env, s) ==
               Origin(|AllReceipts(srv.days)|, FirstState(env, no, openedAt, |AllReceipts(srv.days)|))
            && ServerOk(env, s, [])
  {
  }

  lemma KeepOpenFiscalDay(env: Env, rules: Rules, w: World, v: World, dayNo: Option<nat>, openedAt: int,
                          reported: nat, given: nat, log: seq<Prepared>)
    requires Inv(env, rules, w, log)
    requires w.pc.Idle? && w.disk.marker.None? && Tail(w.journal) == [] && OpenDay(w.srv, dayNo, openedAt).Some?
    requires Reports(AllReceipts(w.srv.days), reported) && given <= Highest(AllReceipts(w.srv.days))
    requires
      var (srv, no) := OpenDay(w.srv, dayNo, openedAt).value;
      var s := FirstState(env, no, openedAt, Max(Max(reported, given), LastGlobal(w.disk)));
      v == w.(srv := srv, mem := Some(s), disk := Raised(w.disk.(dayState := Some(s)), s.globalNo))
    ensures Inv(env, rules, v, [])
  {
    hide LogOk, ServerOk, AllReceipts, Today, Earlier, OriginOf, HeldToday, AtLog, OpenDay, Highest, Tail, JournalOk,
      QueueOk, MarkerOk, MemOk, DiskOk, LastOk, DatesOk, OnceOk, LastGlobal;
    var (srv, no) := OpenDay(w.srv, dayNo, openedAt).value;
    InSync(env, rules, w, log);
    OpeningNumber(env, rules, w, reported, given, log);
    DayAdded(env, w.srv, dayNo, openedAt, log);
    var n := |AllReceipts(w.srv.days)|;
    OpenedDay(env, rules, w, v, srv, OriginOf(env, w.srv), OriginOf(env, srv), n, log);
  }

  lemma OpenedDay(env: Env, rules: Rules, w: World, v: World, srv: Fdms, o: Origin, u: Origin, n: nat,
                  log: seq<Prepared>)
    requires JournalOk(o, w.srv, w.journal, log) && QueueOk(w.journal, w.queue, false)
    requires o.base + |log| == n == LastGlobal(w.disk) && Tail(w.journal) == [] && w.disk.marker.None? && w.pc.Idle?
    requires srv.status.DayOpened? && srv.days != [] && HeldToday(srv) == 0
    requires AllReceipts(srv.days) == AllReceipts(w.srv.days)
    requires u == Origin(n, u.opening) && u.opening.globalNo == n
    requires v == w.(srv := srv, mem := Some(u.opening), disk := Raised(w.disk.(dayState := Some(u.opening)), n))
    ensures LogOk(env, u, []) && JournalOk(u, srv, v.journal, []) && MarkerOk(env, rules, u, srv, v.journal, None, [])
    ensures MemOk(u, v.journal, None, v.mem, []) && v.disk.marker.None?
    ensures DiskOk(u, srv, v.journal, None, v.disk.dayState, v.mem, [])
    ensures LastOk(u, v.journal, None, LastGlobal(v.disk), [])
    ensures DatesOk(rules, srv, []) && OnceOk(rules, srv, v.journal, None, false, []) && PcOk(env, rules, u, v, [])
  {
    hide AllReceipts, HeldToday, Tail, Increasing;
  }

  // -- closing -------------------------------------------------------------

  /**
   * In sync, the device signs the very string FDMS computes over its own
   * counters, and the close fails only for a receipt with an unknown tax ID.
   */
  lemma CloseIsJudged(env: Env, srv: Fdms, s: DayState, log: seq<Prepared>)
    requires KeyPair(env) && LogOk(env, OriginOf(env, srv), log) && ServerOk(env, srv, log)
    requires HeldToday(srv) <= |log| && Plain(s) == StateAt(OriginOf(env, srv), log, HeldToday(srv))
    ensures var q := CloseRequestOf(env, s);
            && q.dayNo == Today(srv).no && q.receiptCounter == HeldToday(srv)
            && q.counters == NonZero(Today(srv).counters)
            && CloseVerdict(env, srv, q) == JudgedAs(env, Today(srv))
  {
    hide LogOk, ServerOk, OriginOf, StateAt, FiscalDaySigningString, SignatureText, Verified, NonZero, Merged,
      KeyPair, Built, Highest, AllReceipts, Opens, TaxesKnown, Clean;
    var d := Today(srv);
    OpensToday(env, srv);
    StateMatchesServer(env, srv, log);
    StateFacts(env, OriginOf(env, srv), log, HeldToday(srv));
    MergeIsIdentity(s.counters);
    OwnSignatureVerifies(env, FiscalDaySigningString(env.deviceId, s.dayNo, s.dayDate, s.counters));
    TodayAnswers(env, srv, log);
  }

  function JudgedAs(env: Env, d: Day): Verdict {
    if AllKnown(env, d) then Fine else ReceiptsWithValidationErrors
  }

  lemma TodayAnswers(env: Env, srv: Fdms, log: seq<Prepared>)
    requires ServerOk(env, srv, log)
    ensures forall i :: 0 <= i < |Today(srv).receipts| ==>
              (Clean(Today(srv).receipts[i].errors) <==> TaxesKnown(env, Today(srv).receipts[i].receipt.bill))
  {
    hide Clean, TaxesKnown;
    if srv.days != [] {
      assert DayOk(env, Today(srv));
    }
  }

  lemma KeepCloseFiscalDay(env: Env, rules: Rules, w: World, v: World, fate: Fate, log: seq<Prepared>)
    requires KeyPair(env) && Inv(env, rules, w, log)
    requires w.pc.Idle? && w.disk.marker.None? && w.mem.Some? && Tail(w.journal) == []
    requires
      var (srv, taken) :=
        if fate.reached then CloseDay(env, w.srv, CloseRequestOf(env, w.mem.value)) else (w.srv, false);
      v == w.(srv := srv, mem := if taken && fate.failure.None? then None else w.mem)
    ensures Inv(env, rules, v, log)
    ensures fate.reached && w.srv.status.DayOpened? ==> v.srv.closing == Some(JudgedAs(env, Today(w.srv)))
  {
    hide LogOk, ServerOk, AllReceipts, Today, Earlier, OriginOf, HeldToday, AtLog, Tail, CloseRequestOf, CloseVerdict,
      KeyPair, JudgedAs, JournalOk, QueueOk, MarkerOk, MemOk, DiskOk, LastOk, DatesOk, OnceOk, LastGlobal, StateAt;
    InSync(env, rules, w, log);
    var o := OriginOf(env, w.srv);
    CloseIsJudged(env, w.srv, w.mem.value, log);
    if v.srv != w.srv {
      StatusChanges(env, rules, w, v.srv, log);
    }
    MemoryDropped(o, v.srv, w.journal, w.disk.dayState, w.mem, v.mem, log);
    assert OriginOf(env, v.srv) == o;
    assert PcOk(env, rules, o, v, log);
    assert MarkerOk(env, rules, o, v.srv, v.journal, None, log) by {
      NoMarker(env, rules, o, v.srv, v.journal, log);
    }
  }

  /** Moving to or from CloseInitiated when FDMS and the journal hold the same receipts of the day. */
  lemma StatusChanges(env: Env, rules: Rules, w: World, s: Fdms, log: seq<Prepared>)
    requires Inv(env, rules, w, log)
    requires w.pc.Idle? && w.disk.marker.None? && Tail(w.journal) == [] && HeldToday(w.srv) == Begun(w.journal, log)
    requires w.mem.Some?
    requires s == w.srv.(status := CloseInitiated, closing := s.closing, closingError := None)
    requires s.closing.Some? && w.srv.status.DayOpened?
    ensures OriginOf(env, s) == OriginOf(env, w.srv) && HeldToday(s) == HeldToday(w.srv)
    ensures ServerOk(env, s, log)
    ensures JournalOk(OriginOf(env, w.srv), s, w.journal, log)
    ensures DiskOk(OriginOf(env, w.srv), s, w.journal, None, w.disk.dayState, w.mem, log)
    ensures DatesOk(rules, s, log) && OnceOk(rules, s, w.journal, None, false, log)
  {
    hide LogOk, QueueOk, MemOk, LastOk, PcOk, HoldsPrefix, Numbered, DayOk, AllBelow, Increasing, CommittedHeld,
      AtLog, AllReceipts, Tail;
  }

  /** In memory, the day state may be dropped while nothing waits. */
  lemma MemoryDropped(o: Origin, srv: Fdms, j: Journal, dayState: Option<DayState>, mem: Option<DayState>,
                      kept: Option<DayState>, log: seq<Prepared>)
    requires DiskOk(o, srv, j, None, dayState, mem, log) && MemOk(o, j, None, mem, log)
    requires Tail(j) == [] && mem.Some? && (kept == mem || kept.None?)
    ensures DiskOk(o, srv, j, None, dayState, kept, log) && MemOk(o, j, None, kept, log)
  {
  }

  // -- settling and clearing -----------------------------------------------

  lemma DaySettled(env: Env, srv: Fdms, log: seq<Prepared>)
    requires ServerOk(env, srv, log) && srv.closing.Some?
    ensures var s := Settled(srv);
            && OriginOf(env, s) == OriginOf(env, srv) && Earlier(s) == Earlier(srv)
            && AllReceipts(s.days) == AllReceipts(srv.days)
            && HeldToday(s) == HeldToday(srv) && Today(s).receipts == Today(srv).receipts && s.days != []
            && srv.status.CloseInitiated? && ServerOk(env, s, log)
            && s.status == (if srv.closing.value.Fine? then DayClosed else DayOpened)
            && s.closingError == (if srv.closing.value.Fine? then srv.closingError else srv.closing)
  {
    assert srv.days != [];
    AllIsEarlierAndToday(srv);
    AllIsEarlierAndToday(Settled(srv));
  }

  lemma KeepSettle(env: Env, rules: Rules, w: World, v: World, log: seq<Prepared>)
    requires Inv(env, rules, w, log)
    requires w.srv.closing.Some? && v == w.(srv := Settled(w.srv))
    ensures Inv(env, rules, v, log)
  {
    hide LogOk, ServerOk, AllReceipts, Today, Earlier, OriginOf, HeldToday, AtLog, Tail, PcOk, Settled, JournalOk,
      QueueOk, MarkerOk, MemOk, DiskOk, LastOk, DatesOk, OnceOk, LastGlobal, StateAt;
    DaySettled(env, w.srv, log);
    SettledParts(env, rules, OriginOf(env, w.srv), w, v, log);
    SettledPc(env, rules, OriginOf(env, w.srv), w, v, log);
  }

  lemma SettledParts(env: Env, rules: Rules, o: Origin, w: World, v: World, log: seq<Prepared>)
    requires w.srv.status.CloseInitiated? && !v.srv.status.CloseInitiated? && v.srv.days != []
    requires HeldToday(v.srv) == HeldToday(w.srv) && Earlier(v.srv) == Earlier(w.srv)
    requires AllReceipts(v.srv.days) == AllReceipts(w.srv.days)
    requires JournalOk(o, w.srv, w.journal, log) && MarkerOk(env, rules, o, w.srv, w.journal, w.disk.marker, log)
    requires DiskOk(o, w.srv, w.journal, w.disk.marker, w.disk.dayState, w.mem, log)
    requires DatesOk(rules, w.srv, log) && OnceOk(rules, w.srv, w.journal, w.disk.marker, w.pc.Advancing?, log)
    requires v == w.(srv := v.srv)
    ensures JournalOk(o, v.srv, w.journal, log) && MarkerOk(env, rules, o, v.srv, w.journal, w.disk.marker, log)
    ensures DiskOk(o, v.srv, w.journal, w.disk.marker, w.disk.dayState, w.mem, log)
    ensures DatesOk(rules, v.srv, log) && OnceOk(rules, v.srv, w.journal, w.disk.marker, w.pc.Advancing?, log)
  {
    hide AllReceipts, Earlier, HeldToday, Tail, AllBelow, Increasing, CommittedHeld, AtLog, BehindMarker, Follows;
  }

  lemma SettledPc(env: Env, rules: Rules, o: Origin, w: World, v: World, log: seq<Prepared>)
    requires HeldToday(v.srv) == HeldToday(w.srv) && Earlier(v.srv) == Earlier(w.srv)
    requires PcOk(env, rules, o, w, log) && v == w.(srv := v.srv)
    ensures PcOk(env, rules, o, v, log)
  {
    hide AllReceipts, Earlier, HeldToday, Tail, AllBelow, BehindMarker, Follows, LastGlobal, Index, NotHead,
      MayFollow;
  }

  lemma KeepClearState(env: Env, rules: Rules, w: World, v: World, log: seq<Prepared>)
    requires Inv(env, rules, w, log)
    requires w.pc.Idle? && w.srv.status.DayClosed? && Tail(w.journal) == []
    requires v == w.(mem := None, disk := w.disk.(dayState := None))
    ensures Inv(env, rules, v, log)
  {
    hide LogOk, ServerOk, AllReceipts, Today, Earlier, OriginOf, HeldToday, AtLog, Tail, JournalOk, QueueOk, MarkerOk,
      LastOk, DatesOk, OnceOk, StateAt;
    assert PcOk(env, rules, OriginOf(env, w.srv), v, log);
  }
}
