/** Every step of the protocol keeps the invariant. */
module Steps {
  import opened Text
  import opened Options
  import opened Ledger
  import opened Counters
  import opened Signing
  import opened Receipts
  import opened Server
  import opened Protocol
  import opened Invariant

  // -- facts about the server ----------------------------------------------

  lemma {:induction false} NumberedHighest(rs: seq<Receipt>)
    requires Numbered(rs)
    ensures Highest(rs) == |rs|
  {
    if rs != [] {
      NumberedHighest(rs[..|rs| - 1]);
    }
  }

  /** All receipts are the earlier days' and then today's. */
  lemma AllIsEarlierAndToday(srv: Fdms)
    ensures AllReceipts(srv.days) == AllReceipts(Earlier(srv)) + ReceiptsOf(Today(srv).receipts)
  {
    if srv.days == [] {
      assert ReceiptsOf([]) == [];
    }
  }

  /** A log entry FDMS has taken is where its number says. */
  lemma TakenAreHeld(env: Env, srv: Fdms, log: seq<Prepared>, p: Prepared)
    requires ServerOk(env, srv, log)
    requires var o := OriginOf(env, srv); InLog(o, log, p) && Index(o, p) < HeldToday(srv)
    ensures HeldAs(AllReceipts(srv.days), p.receipt) && p.receipt in AllReceipts(srv.days)
  {
    AllIsEarlierAndToday(srv);
    var o := OriginOf(env, srv);
    assert AllReceipts(srv.days)[o.base + Index(o, p)] == p.receipt;
  }

  /**
   * No check of FDMS turns red on a receipt that follows the state FDMS itself
   * would compute: counter, number, date, chain, signature, totals, payments.
   * Only an unknown tax ID does.
   */
  lemma NoRedError(env: Env, d: Day, highest: nat, s: DayState, p: Prepared, latest: int)
    requires Follows(env, s, p)
    requires s.counter == |d.receipts| && s.globalNo == highest
    requires s.previousHash == PreviousHash(d) && s.previousDate == PreviousDate(d)
    ensures Answers(env, p.receipt, Errors(env, d, highest, p.receipt, latest))
  {
    hide Verified, CanonicalText, ReceiptTaxes, TotalDue, PaymentsTotal, Errors, Accumulated, Passes, TaxesKnown;
    PassesIff(env, d, highest, p.receipt, latest, true);
    PassesIff(env, d, highest, p.receipt, latest, false);
  }

  /** The state after what FDMS holds agrees with FDMS on everything it checks against. */
  lemma StateMatchesServer(env: Env, srv: Fdms, log: seq<Prepared>)
    requires LogOk(env, OriginOf(env, srv), log) && ServerOk(env, srv, log)
    ensures var s := StateAt(OriginOf(env, srv), log, |Today(srv).receipts|);
            && s.counter == |Today(srv).receipts|
            && s.globalNo == Highest(AllReceipts(srv.days)) == |AllReceipts(srv.days)|
            && s.previousHash == PreviousHash(Today(srv)) && s.previousDate == PreviousDate(Today(srv))
            && s.counters == Today(srv).counters
            && s.dayNo == Today(srv).no && s.dayDate == env.dayText(Today(srv).openedAt) && s.redErrors == []
  {
    AllIsEarlierAndToday(srv);
    NumberedHighest(AllReceipts(srv.days));
    StateFacts(env, OriginOf(env, srv), log, |Today(srv).receipts|);
    hide LogOk;
  }

  // -- extending the log ---------------------------------------------------

  /** The day's first state, as every origin has it. */
  predicate Opens(o: Origin) {
    o.opening.counter == 0 && o.opening.globalNo == o.base && o.opening.redErrors == [] && o.opening.counters == []
  }

  lemma OpensToday(env: Env, srv: Fdms)
    ensures Opens(OriginOf(env, srv))
  {
  }

  /** What the next state is, apart from the checks. */
  lemma FollowsAdvances(env: Env, s: DayState, p: Prepared)
    requires Follows(env, s, p) && Built(s.counters)
    ensures Plain(p.after) == Advanced(Plain(s), p.receipt)
    ensures p.receipt.counter == s.counter + 1 && p.receipt.globalNo == s.globalNo + 1
    ensures s.previousDate.Some? ==> p.receipt.date > s.previousDate.value
    ensures Built(p.after.counters)
  {
    hide Verified, Balanced, TaxesKnown, Accumulated, Built;
    AccumulateKeepsBuilt(s.counters, p.receipt.bill);
  }

  /** The state after the first j entries, and the date of the last of them. */
  lemma StateFacts(env: Env, o: Origin, log: seq<Prepared>, j: nat)
    requires LogOk(env, o, log) && Opens(o) && j <= |log|
    ensures var s := StateAt(o, log, j);
            && s.counter == j && s.globalNo == o.base + j && s.redErrors == [] && Built(s.counters)
            && s.dayNo == o.opening.dayNo && s.dayDate == o.opening.dayDate
            && (j > 0 ==>
                  var r := log[j - 1].receipt;
                  && s.previousDate == Some(r.date) && s.previousHash == Some(r.hash)
                  && r.globalNo == o.base + j && r.counter == j)
  {
    if j > 0 {
      assert Entry(env, o, log, j - 1);
      hide Verified, Balanced, TaxesKnown, Accumulated, Built;
      if j > 1 {
        assert Entry(env, o, log, j - 2);
      }
    }
  }

  lemma LogGrows(env: Env, rules: Rules, o: Origin, srv: Fdms, log: seq<Prepared>, p: Prepared)
    requires LogOk(env, o, log) && Fits(env, rules, o, srv, log, p) && Opens(o)
    ensures LogOk(env, o, log + [p])
    ensures forall j: nat :: j <= |log| ==> StateAt(o, log + [p], j) == StateAt(o, log, j)
  {
    LastEntry(env, rules, o, srv, log, p);
    EntriesGrow(env, o, log, p);
    DatesGrow(log, p);
    StatesStay(o, log, p);
    hide StateAt, EntriesOk, DatesIncrease, Fits, Entry;
  }

  lemma StatesStay(o: Origin, log: seq<Prepared>, p: Prepared)
    ensures forall j: nat :: j <= |log| ==> StateAt(o, log + [p], j) == StateAt(o, log, j)
  {
  }

  lemma EntriesGrow(env: Env, o: Origin, log: seq<Prepared>, p: Prepared)
    requires EntriesOk(env, o, log) && Entry(env, o, log + [p], |log|)
    ensures EntriesOk(env, o, log + [p])
  {
    hide Entry;
    forall j | 0 <= j < |log + [p]| ensures Entry(env, o, log + [p], j) {
      if j < |log| {
        SameEntry(env, o, log, p, j);
      }
    }
  }

  lemma DatesGrow(log: seq<Prepared>, p: Prepared)
    requires DatesIncrease(log) && (log != [] ==> log[|log| - 1].receipt.date < p.receipt.date)
    ensures DatesIncrease(log + [p])
  {
    forall i | 0 <= i < |log| ensures log[i].receipt.date < p.receipt.date {
      if i < |log| - 1 {
        assert log[i].receipt.date < log[|log| - 1].receipt.date;
      }
    }
  }

  lemma LastEntry(env: Env, rules: Rules, o: Origin, srv: Fdms, log: seq<Prepared>, p: Prepared)
    requires LogOk(env, o, log) && Fits(env, rules, o, srv, log, p) && Opens(o)
    ensures Entry(env, o, log + [p], |log|)
    ensures log != [] ==> log[|log| - 1].receipt.date < p.receipt.date
  {
    hide Follows, Built, LogOk, LaterThanEarlierDays, Accumulated;
    StateFacts(env, o, log, |log|);
    FollowsAdvances(env, StateAt(o, log, |log|), p);
    assert StateAt(o, log + [p], |log|) == StateAt(o, log, |log|);
  }

  lemma SameEntry(env: Env, o: Origin, log: seq<Prepared>, p: Prepared, j: nat)
    requires j < |log| && Entry(env, o, log, j)
    ensures Entry(env, o, log + [p], j)
  {
    hide Follows, Built;
    assert StateAt(o, log + [p], j) == StateAt(o, log, j);
  }

  // -- steps that write nothing --------------------------------------------

  /** A receipt of the log that FDMS does not hold has not had its turn. */
  lemma NotHeldNotTaken(env: Env, srv: Fdms, log: seq<Prepared>, p: Prepared)
    requires ServerOk(env, srv, log) && InLog(OriginOf(env, srv), log, p)
    requires p.receipt !in AllReceipts(srv.days)
    ensures Index(OriginOf(env, srv), p) >= HeldToday(srv)
  {
    var o := OriginOf(env, srv);
    if Index(o, p) < HeldToday(srv) {
      TakenAreHeld(env, srv, log, p);
    }
  }

  /** The head of the uncommitted journal is the log entry its position says. */
  lemma HeadInLog(env: Env, o: Origin, srv: Fdms, j: Journal, log: seq<Prepared>)
    requires LogOk(env, o, log) && Opens(o) && JournalOk(o, srv, j, log) && Tail(j) != []
    ensures var t := Begun(j, log);
            0 <= t < |log| && Tail(j)[0] == log[t] && InLog(o, log, log[t]) && Index(o, log[t]) == t
    ensures Tail(j)[|Tail(j)| - 1] == log[|log| - 1] && Index(o, log[|log| - 1]) == |log| - 1
  {
    StateFacts(env, o, log, Begun(j, log) + 1);
    StateFacts(env, o, log, |log|);
  }

  lemma KeepCrash(env: Env, rules: Rules, w: World, v: World, log: seq<Prepared>)
    requires Inv(env, rules, w, log) && Permitted(rules, env, w, Crash)
    requires v == w.(mem := None, queue := Queue([], false), pc := Idle)
    ensures Inv(env, rules, v, log)
  {
    hide LogOk, ServerOk, JournalOk, MarkerOk, LastOk, DatesOk, OriginOf, AtLog, HeldToday, Tail, BehindMarker,
      HeadHeld;
    if w.pc.Advancing? {
      NothingHeldAhead(env, rules, w, log);
    }
    var o := OriginOf(env, w.srv);
    assert QueueOk(w.journal, v.queue, Midway(v.pc));
    assert MemOk(o, w.journal, w.disk.marker, v.mem, log);
    assert DiskOk(o, w.srv, w.journal, w.disk.marker, w.disk.dayState, v.mem, log);
    assert PcOk(env, rules, o, v, log);
    assert OnceOk(rules, w.srv, w.journal, w.disk.marker, v.pc.Advancing?, log);
    assert AnsweredOk(rules, v.disk.marker, v.pc);
  }

  /** When FDMS does not hold the head of the journal, it holds nothing that is not committed. */
  lemma NothingHeldAhead(env: Env, rules: Rules, w: World, log: seq<Prepared>)
    requires var o := OriginOf(env, w.srv);
      && LogOk(env, o, log) && ServerOk(env, w.srv, log) && JournalOk(o, w.srv, w.journal, log)
      && OnceOk(rules, w.srv, w.journal, w.disk.marker, w.pc.Advancing?, log)
    requires rules.Dedup? || !HeadHeld(w)
    ensures rules.Dedup? || HeldToday(w.srv) == Begun(w.journal, log)
  {
    if Tail(w.journal) != [] && !rules.Dedup? {
      HeadInLog(env, OriginOf(env, w.srv), w.srv, w.journal, log);
      NotHeldNotTaken(env, w.srv, log, Tail(w.journal)[0]);
    }
    hide LogOk, ServerOk;
  }

  lemma KeepSubmit(env: Env, rules: Rules, w: World, v: World, p: Prepared, via: Via, log: seq<Prepared>)
    requires Inv(env, rules, w, log)
    requires w.pc.Idle? && w.disk.marker.None? && w.mem.Some? && Tail(w.journal) == []
    requires via.Direct? || (via.Fallback? && w.queue.loaded)
    requires Follows(env, w.mem.value, p) && (rules.Ordered? ==> LaterThanEarlierDays(w.srv, p.receipt.date))
    requires v == w.(pc := Marking(p, via))
    ensures Inv(env, rules, v, log)
  {
    SubmitReady(env, rules, OriginOf(env, w.srv), w, v, p, via, log);
    hide LogOk, ServerOk, JournalOk, QueueOk, MarkerOk, MemOk, DiskOk, LastOk, PcOk, DatesOk, OnceOk;
  }

  lemma SubmitReady(env: Env, rules: Rules, o: Origin, w: World, v: World, p: Prepared, via: Via, log: seq<Prepared>)
    requires w.pc.Idle? && w.disk.marker.None? && w.mem.Some? && Tail(w.journal) == []
    requires via.Direct? || (via.Fallback? && w.queue.loaded)
    requires Follows(env, w.mem.value, p) && (rules.Ordered? ==> LaterThanEarlierDays(w.srv, p.receipt.date))
    requires MemOk(o, w.journal, w.disk.marker, w.mem, log)
    requires v == w.(pc := Marking(p, via))
    ensures PcOk(env, rules, o, v, log)
  {
    hide Follows, LaterThanEarlierDays, Tail;
    FollowsPlain(env, w.mem.value, p);
  }

  lemma FollowsPlain(env: Env, s: DayState, p: Prepared)
    requires Follows(env, s, p)
    ensures p.receipt.globalNo == s.globalNo + 1 && Follows(env, Plain(s), p)
  {
    hide Verified, Balanced, Accumulated;
  }

  lemma KeepEnqueue(env: Env, rules: Rules, w: World, v: World, p: Prepared, log: seq<Prepared>)
    requires Inv(env, rules, w, log)
    requires w.pc.Idle? && w.queue.loaded && w.mem.Some? && CaughtUp(w)
    requires w.disk.marker.Some? ==> w.disk.marker.value.receipt.globalNo <= w.mem.value.globalNo
    requires Follows(env, w.mem.value, p) && (rules.Ordered? ==> LaterThanEarlierDays(w.srv, p.receipt.date))
    requires v == w.(pc := Appending(p))
    ensures Inv(env, rules, v, log)
  {
    EnqueueReady(env, rules, OriginOf(env, w.srv), w, v, p, log);
    hide LogOk, ServerOk, JournalOk, QueueOk, MarkerOk, MemOk, DiskOk, LastOk, PcOk, DatesOk, OnceOk;
  }

  /** In sync, the receipt just signed is the next entry of the log. */
  lemma EnqueueReady(env: Env, rules: Rules, o: Origin, w: World, v: World, p: Prepared, log: seq<Prepared>)
    requires w.pc.Idle? && w.queue.loaded && w.mem.Some? && CaughtUp(w)
    requires w.disk.marker.Some? ==> w.disk.marker.value.receipt.globalNo <= w.mem.value.globalNo
    requires Follows(env, w.mem.value, p) && (rules.Ordered? ==> LaterThanEarlierDays(w.srv, p.receipt.date))
    requires LogOk(env, o, log) && Opens(o) && JournalOk(o, w.srv, w.journal, log)
    requires MemOk(o, w.journal, w.disk.marker, w.mem, log)
    requires v == w.(pc := Appending(p))
    ensures PcOk(env, rules, o, v, log)
  {
    hide Follows, CommittedHeld, Increasing, LaterThanEarlierDays, HeldToday, Tail, LogOk;
    FollowsPlain(env, w.mem.value, p);
    if Tail(w.journal) != [] {
      HeadInLog(env, o, w.srv, w.journal, log);
    }
  }

  lemma KeepLoadQueue(env: Env, rules: Rules, w: World, v: World, log: seq<Prepared>)
    requires Inv(env, rules, w, log)
    requires w.pc.Idle? && !w.queue.loaded
    requires v == w.(queue := Queue(Indexed(w.journal.cursor, Tail(w.journal)), true), mem := v.mem)
    requires var tail := Tail(w.journal);
      v.mem == (if tail != [] && w.mem.Some? && tail[|tail| - 1].after.globalNo > w.mem.value.globalNo
                then Some(tail[|tail| - 1].after) else w.mem)
    ensures Inv(env, rules, v, log) && CaughtUp(v)
  {
    hide LogOk, ServerOk, JournalOk, MarkerOk, LastOk, DatesOk, OnceOk, OriginOf, Tail, HeldToday, AtLog,
      BehindMarker, DiskOk, MemOk;
    var o := OriginOf(env, w.srv);
    OpensToday(env, w.srv);
    JournalLoaded(env, o, w, v, log);
    assert PcOk(env, rules, o, v, log);
  }

  lemma JournalLoaded(env: Env, o: Origin, w: World, v: World, log: seq<Prepared>)
    requires LogOk(env, o, log) && Opens(o) && JournalOk(o, w.srv, w.journal, log)
    requires MemOk(o, w.journal, w.disk.marker, w.mem, log)
    requires DiskOk(o, w.srv, w.journal, w.disk.marker, w.disk.dayState, w.mem, log)
    requires v == w.(queue := Queue(Indexed(w.journal.cursor, Tail(w.journal)), true), mem := v.mem)
    requires var tail := Tail(w.journal);
      v.mem == (if tail != [] && w.mem.Some? && tail[|tail| - 1].after.globalNo > w.mem.value.globalNo
                then Some(tail[|tail| - 1].after) else w.mem)
    ensures MemOk(o, v.journal, v.disk.marker, v.mem, log)
    ensures DiskOk(o, v.srv, v.journal, v.disk.marker, v.disk.dayState, v.mem, log)
    ensures CaughtUp(v)
  {
    hide LogOk, JournalOk, Tail, HeldToday;
    if Tail(w.journal) != [] {
      HeadInLog(env, o, w.srv, w.journal, log);
      StateFacts(env, o, log, |log|);
    }
  }

  lemma KeepFlushHead(env: Env, rules: Rules, w: World, v: World, log: seq<Prepared>)
    requires Inv(env, rules, w, log)
    requires w.pc.Idle? && w.queue.loaded && w.queue.pending != []
    requires w.disk.marker.Some? ==> w.disk.marker.value.receipt.globalNo == w.queue.pending[0].item.receipt.globalNo
    requires v == (if w.disk.marker.None? then w.(pc := Marking(w.queue.pending[0].item, Flush))
                   else w.(mem := if w.mem.Some? then w.mem else w.disk.dayState,
                           pc := Asking(w.disk.marker.value, Flush)))
    ensures Inv(env, rules, v, log)
  {
    hide LogOk, ServerOk, JournalOk, QueueOk, MarkerOk, MemOk, DiskOk, LastOk, PcOk, DatesOk, OnceOk, OriginOf, Tail,
      Opens;
    OpensToday(env, w.srv);
    FlushReady(env, rules, OriginOf(env, w.srv), w, v, log);
    StateLoaded(OriginOf(env, w.srv), w.srv, w.journal, w.disk.marker, w.disk.dayState, w.mem, log);
  }

  /** A stored day state may take the place of none in memory. */
  lemma StateLoaded(o: Origin, srv: Fdms, j: Journal, marker: Option<Prepared>, dayState: Option<DayState>,
                    mem: Option<DayState>, log: seq<Prepared>)
    requires MemOk(o, j, marker, mem, log) && DiskOk(o, srv, j, marker, dayState, mem, log)
    ensures var loaded := if mem.Some? then mem else dayState;
            MemOk(o, j, marker, loaded, log) && DiskOk(o, srv, j, marker, dayState, loaded, log)
  {
    hide Tail, AtLog, BehindMarker;
  }

  lemma FlushReady(env: Env, rules: Rules, o: Origin, w: World, v: World, log: seq<Prepared>)
    requires LogOk(env, o, log) && Opens(o) && JournalOk(o, w.srv, w.journal, log)
    requires QueueOk(w.journal, w.queue, Midway(w.pc))
    requires MarkerOk(env, rules, o, w.srv, w.journal, w.disk.marker, log) && AnsweredOk(rules, w.disk.marker, w.pc)
    requires w.pc.Idle? && w.queue.loaded && w.queue.pending != []
    requires w.disk.marker.Some? ==> w.disk.marker.value.receipt.globalNo == w.queue.pending[0].item.receipt.globalNo
    requires v == (if w.disk.marker.None? then w.(pc := Marking(w.queue.pending[0].item, Flush))
                   else w.(mem := v.mem, pc := Asking(w.disk.marker.value, Flush)))
    ensures PcOk(env, rules, o, v, log) && QueueOk(v.journal, v.queue, Midway(v.pc))
    ensures AnsweredOk(rules, v.disk.marker, v.pc)
  {
    HeadInLog(env, o, w.srv, w.journal, log);
    hide LogOk, Fits, CommittedHeld, Increasing, AllBelow;
  }

  lemma KeepReconcile(env: Env, rules: Rules, w: World, v: World, log: seq<Prepared>)
    requires Inv(env, rules, w, log)
    requires w.pc.Idle? && (rules.Dedup? || !MarkerIsHead(w))
    requires v == w.(mem := if w.mem.Some? then w.mem else w.disk.dayState,
                     pc := if w.disk.marker.Some? then Asking(w.disk.marker.value, Startup) else Idle)
    ensures Inv(env, rules, v, log)
  {
    hide LogOk, ServerOk, JournalOk, MarkerOk, LastOk, DatesOk, OnceOk, QueueOk;
  }

  // -- asking and sending --------------------------------------------------

  /** Where dates increase, the last receipt that FDMS took today has the latest date. */
  lemma LastIsLatest(env: Env, rules: Rules, srv: Fdms, log: seq<Prepared>, i: nat)
    requires var o := OriginOf(env, srv); LogOk(env, o, log) && ServerOk(env, srv, log)
    requires DatesOk(rules, srv, log) && rules.Ordered? && HeldToday(srv) > 0 && i < |AllReceipts(srv.days)| - 1
    ensures AllReceipts(srv.days)[i].date < AllReceipts(srv.days)[|AllReceipts(srv.days)| - 1].date
  {
    hide EntriesOk, Numbered, DayOk, AllReceipts;
    AllIsEarlierAndToday(srv);
    var all, base, a := AllReceipts(srv.days), OriginOf(env, srv).base, HeldToday(srv);
    assert all[base + a - 1] == log[a - 1].receipt;
    if i < base {
      assert all[i] == AllReceipts(Earlier(srv))[i];
    } else {
      assert all[i] == log[i - base].receipt;
    }
  }

  /** Where dates increase, GetStatus reports the last receipt that FDMS took today. */
  lemma ReportedIsLast(env: Env, rules: Rules, srv: Fdms, log: seq<Prepared>, n: nat)
    requires var o := OriginOf(env, srv); LogOk(env, o, log) && ServerOk(env, srv, log)
    requires DatesOk(rules, srv, log) && Reports(AllReceipts(srv.days), n)
    ensures n <= OriginOf(env, srv).base + HeldToday(srv)
    ensures rules.Ordered? && HeldToday(srv) > 0 ==> n == OriginOf(env, srv).base + HeldToday(srv)
  {
    hide LogOk, DayOk, AllReceipts, HoldsPrefix;
    var all := AllReceipts(srv.days);
    AllIsEarlierAndToday(srv);
    if all != [] {
      var i :| 0 <= i < |all| && all[i].globalNo == n && forall j :: 0 <= j < |all| ==> all[j].date <= all[i].date;
      if rules.Ordered? && HeldToday(srv) > 0 {
        if i < |all| - 1 {
          LastIsLatest(env, rules, srv, log, i);
          assert false;
        }
      }
    }
  }

  lemma KeepAskStatus(env: Env, rules: Rules, w: World, v: World, answer: Option<nat>, log: seq<Prepared>)
    requires Inv(env, rules, w, log)
    requires w.pc.Asking? && (answer.Some? ==> Reports(AllReceipts(w.srv.days), answer.value))
    requires v == w.(pc := if answer.None? then Idle
                           else if answer.value >= w.pc.p.receipt.globalNo then Saving(w.pc.p, w.pc.via, [])
                           else Sending(w.pc.p, w.pc.via))
    ensures Inv(env, rules, v, log)
  {
    hide LogOk, ServerOk, JournalOk, QueueOk, MarkerOk, MemOk, DiskOk, LastOk, DatesOk, OnceOk, OriginOf, HeldToday,
      InHand, Index, AllReceipts, Reports;
    if answer.Some? {
      ReportedIsLast(env, rules, w.srv, log, answer.value);
    }
    AskedMarker(env, rules, w, log);
    AnswerSorts(rules, OriginOf(env, w.srv), w, v, answer, log);
    assert PcOk(env, rules, OriginOf(env, w.srv), v, log);
  }

  lemma AskedMarker(env: Env, rules: Rules, w: World, log: seq<Prepared>)
    requires Inv(env, rules, w, log) && w.pc.Asking?
    ensures !rules.AllAnswered? && 0 <= Index(OriginOf(env, w.srv), w.pc.p) <= HeldToday(w.srv)
  {
    hide LogOk, ServerOk, JournalOk, QueueOk, MemOk, DiskOk, LastOk, DatesOk, OnceOk, OriginOf, HeldToday, Index,
      AllBelow, Fits;
  }

  /** The answer tells whether FDMS has the receipt. */
  lemma AnswerSorts(rules: Rules, o: Origin, w: World, v: World, answer: Option<nat>, log: seq<Prepared>)
    requires w.pc.Asking? && InHand(rules, w, w.pc.p, w.pc.via) && (w.pc.via.Startup? || w.pc.via.Flush?)
    requires !rules.AllAnswered? && 0 <= Index(o, w.pc.p) <= HeldToday(w.srv)
    requires answer.Some? ==> answer.value <= o.base + HeldToday(w.srv)
    requires answer.Some? && rules.Ordered? && HeldToday(w.srv) > 0 ==> answer.value == o.base + HeldToday(w.srv)
    requires v == w.(pc := if answer.None? then Idle
                           else if answer.value >= w.pc.p.receipt.globalNo then Saving(w.pc.p, w.pc.via, [])
                           else Sending(w.pc.p, w.pc.via))
    ensures forall env :: PcOk(env, rules, o, v, log)
  {
  }

  lemma KeepWriteMarker(env: Env, rules: Rules, w: World, v: World, log: seq<Prepared>)
    requires Inv(env, rules, w, log)
    requires w.pc.Marking?
    requires v == w.(disk := w.disk.(marker := Some(w.pc.p)), pc := Sending(w.pc.p, w.pc.via))
    ensures Inv(env, rules, v, log)
  {
    hide LogOk, ServerOk, JournalOk, QueueOk, MarkerOk, MemOk, DiskOk, LastOk, DatesOk, OnceOk, OriginOf, Tail,
      HeldToday, Opens, MarkerInLog, Fits, SignedOn, AtHead;
    var o := OriginOf(env, w.srv);
    OpensToday(env, w.srv);
    assert w.disk.marker.None?;
    MarkerWritten(env, rules, o, w, v, log);
    MemoryMarked(env, o, w, v, log);
  }

  /** A marker written over none leaves the day state where it was. */
  lemma MemoryMarked(env: Env, o: Origin, w: World, v: World, log: seq<Prepared>)
    requires MemOk(o, w.journal, None, w.mem, log)
    requires DiskOk(o, w.srv, w.journal, None, w.disk.dayState, w.mem, log)
    requires LastOk(o, w.journal, None, LastGlobal(w.disk), log)
    requires !MarkerInLog(o, v.disk.marker, log) || Tail(v.journal) != []
    requires v == w.(disk := w.disk.(marker := v.disk.marker), pc := v.pc)
    ensures MemOk(o, v.journal, v.disk.marker, v.mem, log)
    ensures DiskOk(o, v.srv, v.journal, v.disk.marker, v.disk.dayState, v.mem, log)
    ensures LastOk(o, v.journal, v.disk.marker, LastGlobal(v.disk), log)
  {
    hide Tail, InLog, AtLog;
  }

  lemma MarkerWritten(env: Env, rules: Rules, o: Origin, w: World, v: World, log: seq<Prepared>)
    requires LogOk(env, o, log) && Opens(o) && JournalOk(o, w.srv, w.journal, log) && PcOk(env, rules, o, w, log)
    requires OnceOk(rules, w.srv, w.journal, w.disk.marker, w.pc.Advancing?, log)
    requires w.pc.Marking?
    requires v == w.(disk := w.disk.(marker := Some(w.pc.p)), pc := Sending(w.pc.p, w.pc.via))
    ensures MarkerOk(env, rules, o, v.srv, v.journal, v.disk.marker, log) && PcOk(env, rules, o, v, log)
    ensures OnceOk(rules, v.srv, v.journal, v.disk.marker, v.pc.Advancing?, log)
    ensures !MarkerInLog(o, v.disk.marker, log) || Tail(v.journal) != []
  {
    hide LogOk, Follows, JournalOk, MarkerOk, OnceOk, Tail, HeldToday, LaterThanEarlierDays;
    var p := w.pc.p;
    if w.pc.via.Flush? {
      HeadInLog(env, o, w.srv, w.journal, log);
      HeadMarked(env, rules, o, w.srv, w.journal, p, log);
    } else {
      FitsIndex(env, rules, o, w.srv, log, p);
      NextMarked(env, rules, o, w.srv, w.journal, p, log);
    }
  }

  lemma HeadMarked(env: Env, rules: Rules, o: Origin, srv: Fdms, j: Journal, p: Prepared, log: seq<Prepared>)
    requires JournalOk(o, srv, j, log) && OnceOk(rules, srv, j, None, false, log)
    requires Tail(j) != [] && Tail(j)[0] == p && InLog(o, log, p) && Index(o, p) == Begun(j, log)
    ensures MarkerOk(env, rules, o, srv, j, Some(p), log) && OnceOk(rules, srv, j, Some(p), false, log)
    ensures Fresh(rules, o, srv, p)
  {
    hide CommittedHeld, Increasing, AllBelow, Fits;
  }

  lemma NextMarked(env: Env, rules: Rules, o: Origin, srv: Fdms, j: Journal, p: Prepared, log: seq<Prepared>)
    requires JournalOk(o, srv, j, log) && OnceOk(rules, srv, j, None, false, log)
    requires Tail(j) == [] && Fits(env, rules, o, srv, log, p) && Index(o, p) == |log|
    ensures MarkerOk(env, rules, o, srv, j, Some(p), log) && OnceOk(rules, srv, j, Some(p), false, log)
    ensures Fresh(rules, o, srv, p) && !MarkerInLog(o, Some(p), log)
  {
    hide CommittedHeld, Increasing, Fits;
  }

  lemma FitsIndex(env: Env, rules: Rules, o: Origin, srv: Fdms, log: seq<Prepared>, p: Prepared)
    requires Fits(env, rules, o, srv, log, p)
    ensures Index(o, p) == |log|
  {
  }

  lemma KeepDropMarker(env: Env, rules: Rules, w: World, v: World, log: seq<Prepared>)
    requires Inv(env, rules, w, log)
    requires w.pc.Dropping?
    requires v == w.(disk := w.disk.(marker := None), pc := Idle)
    ensures Inv(env, rules, v, log)
  {
    hide LogOk, ServerOk, JournalOk, QueueOk, MarkerOk, MemOk, DiskOk, LastOk, DatesOk, OnceOk, OriginOf, Tail, Opens,
      HeldToday, Index, MarkerInLog;
    var o := OriginOf(env, w.srv);
    OpensToday(env, w.srv);
    NotInLog(o, w.srv, w.journal, w.pc.p, log);
    MemoryUnmarked(o, w, v, log);
    OnceDropped(env, rules, o, w.srv, w.journal, w.pc.p, log);
    NoMarker(env, rules, o, w.srv, w.journal, log);
  }

  /** With nothing queued, a receipt that FDMS does not hold is not in the log. */
  lemma NotInLog(o: Origin, srv: Fdms, j: Journal, p: Prepared, log: seq<Prepared>)
    requires JournalOk(o, srv, j, log) && Index(o, p) >= HeldToday(srv)
    ensures Tail(j) == [] ==> !MarkerInLog(o, Some(p), log)
  {
    hide CommittedHeld, Increasing, AllBelow;
  }

  /** A marker of no log entry may go without a trace. */
  lemma MemoryUnmarked(o: Origin, w: World, v: World, log: seq<Prepared>)
    requires MemOk(o, w.journal, w.disk.marker, w.mem, log)
    requires DiskOk(o, w.srv, w.journal, w.disk.marker, w.disk.dayState, w.mem, log)
    requires LastOk(o, w.journal, w.disk.marker, LastGlobal(w.disk), log)
    requires Tail(w.journal) == [] ==> !MarkerInLog(o, w.disk.marker, log)
    requires v == w.(disk := w.disk.(marker := None), pc := Idle)
    ensures MemOk(o, v.journal, None, v.mem, log)
    ensures DiskOk(o, v.srv, v.journal, None, v.disk.dayState, v.mem, log)
    ensures LastOk(o, v.journal, None, LastGlobal(v.disk), log)
  {
    hide Tail, InLog, AtLog;
  }

  lemma OnceDropped(env: Env, rules: Rules, o: Origin, srv: Fdms, j: Journal, p: Prepared, log: seq<Prepared>)
    requires LogOk(env, o, log) && Opens(o) && JournalOk(o, srv, j, log)
    requires OnceOk(rules, srv, j, Some(p), false, log) && Index(o, p) >= HeldToday(srv)
    ensures OnceOk(rules, srv, j, None, false, log)
  {
    if Tail(j) != [] {
      HeadInLog(env, o, srv, j, log);
    }
    hide LogOk, JournalOk, Tail, Opens, Begun, InLog;
  }

  lemma NoMarker(env: Env, rules: Rules, o: Origin, srv: Fdms, j: Journal, log: seq<Prepared>)
    ensures MarkerOk(env, rules, o, srv, j, None, log)
  {
  }
}
