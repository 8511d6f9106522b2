/**
 * Where the protocol's promises end: what the code does outside the three
 * settings, each with the exact condition under which the promise holds.
 */
module Limits {
  import opened Text
  import opened Options
  import opened Ledger
  import opened Counters
  import opened Receipts
  import opened Server
  import opened Protocol
  import opened Invariant
  import opened Steps
  import opened CommitSteps
  import opened Runs
  import opened Trace
  import opened Theorems
  import opened Calls

  // -- GetStatus -----------------------------------------------------------

  lemma {:induction false} LatestOf(rs: seq<Receipt>) returns (i: nat)
    requires rs != []
    ensures i < |rs| && forall j :: 0 <= j < |rs| ==> rs[j].date <= rs[i].date
  {
    var n := |rs| - 1;
    i := n;
    if n > 0 {
      var k := LatestOf(rs[..n]);
      if rs[k].date > rs[n].date {
        i := k;
      }
      assert forall j :: 0 <= j < n ==> rs[..n][j] == rs[j];
    }
  }

  /** GetStatus can only report the highest number exactly when the last receipt has the latest date of all. */
  lemma ReportIsHighestIff(rs: seq<Receipt>)
    requires Numbered(rs) && rs != []
    ensures (forall n: nat :: Reports(rs, n) ==> n == |rs|) <==>
            (forall j :: 0 <= j < |rs| - 1 ==> rs[j].date < rs[|rs| - 1].date)
  {
    var last := |rs| - 1;
    if j :| 0 <= j < last && rs[j].date >= rs[last].date {
      var i := LatestOf(rs[..last]);
      assert rs[..last][j].date <= rs[..last][i].date;
      forall k | 0 <= k < |rs| ensures rs[k].date <= rs[i].date {
        if k < last {
          assert rs[..last][k].date <= rs[..last][i].date;
        }
      }
      assert Reports(rs, i + 1);
    }
  }

  /** A plain server that takes a receipt it holds has that number twice, whatever else it takes. */
  lemma HeldIsTakenAgain(rs: seq<Receipt>, r: Receipt, more: seq<Receipt>)
    requires HeldAs(rs, r) && rs + [r] <= more
    ensures !Numbered(more)
  {
    assert (rs + [r])[|rs|] == r && more[|rs|] == (rs + [r])[|rs|];
  }

  /**
   * reconcile() on the last receipt that a plain server holds: no possible
   * report makes FDMS take it a second time if and only if it has the latest
   * date of all.
   */
  lemma ConfirmedIffLatest(env: Env, w: World, latest: int)
    requires w.pc.Asking? && w.srv.status.DayOpened? && w.srv.days != []
    requires var rs := AllReceipts(w.srv.days); Numbered(rs) && rs != [] && rs[|rs| - 1] == w.pc.p.receipt
    ensures
      var rs := AllReceipts(w.srv.days);
      (forall n: nat :: Reports(rs, n) ==> Numbered(AllReceipts(AskDone(env, false, w, n, latest).srv.days))) <==>
      (forall j :: 0 <= j < |rs| - 1 ==> rs[j].date < rs[|rs| - 1].date)
  {
    hide AllReceipts, Taken, Numbered, Reports, AskDone, HeldAs, Server.Submit;
    var rs := AllReceipts(w.srv.days);
    LastIsHeld(rs);
    forall n: nat ensures Reports(rs, n) ==>
        (Numbered(AllReceipts(AskDone(env, false, w, n, latest).srv.days)) <==> n == |rs|)
    {
      if Reports(rs, n) {
        ReportIsHeld(rs, n);
        AskedAgain(env, w, n, latest);
      }
    }
    ReportIsHighestIff(rs);
  }

  lemma ReportIsHeld(rs: seq<Receipt>, n: nat)
    requires Numbered(rs) && Reports(rs, n)
    ensures n <= |rs|
  {
  }

  lemma LastIsHeld(rs: seq<Receipt>)
    requires Numbered(rs) && rs != []
    ensures HeldAs(rs, rs[|rs| - 1]) && rs[|rs| - 1].globalNo == |rs|
  {
  }

  /** A reported number that reaches a held receipt confirms it; any other makes a plain server take it again. */
  lemma AskedAgain(env: Env, w: World, n: nat, latest: int)
    requires w.pc.Asking? && w.srv.status.DayOpened? && w.srv.days != []
    requires Numbered(AllReceipts(w.srv.days)) && HeldAs(AllReceipts(w.srv.days), w.pc.p.receipt)
    ensures Numbered(AllReceipts(AskDone(env, false, w, n, latest).srv.days)) <==> n >= w.pc.p.receipt.globalNo
  {
    hide AllReceipts, Taken, Numbered, HeldAs, AskDone;
    var v := AskDone(env, false, w, n, latest);
    if n < w.pc.p.receipt.globalNo {
      TakenShape(env, w.srv, w.pc.p.receipt, latest);
      HeldIsTakenAgain(AllReceipts(w.srv.days), w.pc.p.receipt, AllReceipts(v.srv.days));
    }
  }

  // -- what a request does to FDMS -----------------------------------------

  /** What FDMS holds stays, and what it accepts it holds. */
  lemma SubmitHolds(env: Env, dedup: bool, srv: Fdms, r: Receipt, latest: int)
    requires Numbered(AllReceipts(srv.days))
    requires HeldAs(AllReceipts(srv.days), r) || r.globalNo == |AllReceipts(srv.days)| + 1
    ensures
      var (s, response) := Server.Submit(env, dedup, srv, r, latest);
      && AllReceipts(srv.days) <= AllReceipts(s.days) && s.status == srv.status
      && (if response.Accepted? then HeldAs(AllReceipts(s.days), r) else s == srv)
      && (response.Accepted? <==> srv.status.DayOpened? && srv.days != [])
  {
    hide AllReceipts, Numbered, HeldAs, Errors, Duplicate, Highest, Accumulated, Today, Earlier;
    if srv.days != [] {
      TakenShape(env, srv, r, latest);
      HeldOrNext(AllReceipts(srv.days), r);
      if HeldAs(AllReceipts(srv.days), r) {
        HeldLonger(AllReceipts(srv.days), r, AllReceipts(Taken(env, srv, r, latest).days));
      } else {
        NextIsNew(srv, r);
      }
    }
  }

  lemma HeldOrNext(rs: seq<Receipt>, r: Receipt)
    ensures r.globalNo == |rs| + 1 ==> HeldAs(rs + [r], r)
  {
  }

  lemma HeldLonger(rs: seq<Receipt>, r: Receipt, more: seq<Receipt>)
    requires HeldAs(rs, r) && rs <= more
    ensures HeldAs(more, r)
  {
  }

  /** FDMS recognises no receipt with the next number. */
  lemma NextIsNew(srv: Fdms, r: Receipt)
    requires srv.days != [] && Numbered(AllReceipts(srv.days)) && r.globalNo == |AllReceipts(srv.days)| + 1
    ensures Duplicate(Today(srv).receipts, r).None?
  {
    AllIsEarlierAndToday(srv);
    hide AllReceipts, Numbered;
    DuplicateIsStored(Today(srv).receipts, r);
    if Duplicate(Today(srv).receipts, r).Some? {
      var i :| 0 <= i < |Today(srv).receipts| && Today(srv).receipts[i].receipt.globalNo == r.globalNo;
      NumberedToday(srv, i);
      assert false;
    }
  }

  lemma NumberedToday(srv: Fdms, i: nat)
    requires Numbered(AllReceipts(srv.days)) && i < |Today(srv).receipts|
    ensures Today(srv).receipts[i].receipt.globalNo <= |AllReceipts(srv.days)|
  {
    AllIsEarlierAndToday(srv);
    var rs := AllReceipts(srv.days);
    assert rs[|AllReceipts(Earlier(srv))| + i] == Today(srv).receipts[i].receipt;
  }

  lemma {:induction false} DuplicateIsStored(stored: seq<Stored>, r: Receipt)
    ensures Duplicate(stored, r).Some? <==>
              exists i :: 0 <= i < |stored| &&
                          stored[i].receipt.globalNo == r.globalNo && stored[i].receipt.hash == r.hash
  {
    if stored != [] {
      DuplicateIsStored(stored[1..], r);
      if i :| 0 <= i < |stored| && stored[i].receipt.globalNo == r.globalNo && stored[i].receipt.hash == r.hash {
        if i > 0 {
          assert stored[1..][i - 1] == stored[i];
        }
      }
    }
  }

  /** FDMS keeps what it holds through a flush, which outside an open day changes nothing there. */
  lemma {:induction false} FlushKeeps(env: Env, dedup: bool, w: World, n: nat, clock: nat -> int)
    requires w.pc.Idle? && w.queue.loaded
    ensures
      var v := FlushDone(env, dedup, w, n, clock);
      && AllReceipts(w.srv.days) <= AllReceipts(v.srv.days) && v.srv.status == w.srv.status
      && Earlier(v.srv) == Earlier(w.srv) && (!w.srv.status.DayOpened? ==> v.srv == w.srv)
      && (w.srv.days != [] ==> v.srv.days != [])
    decreases |w.queue.pending|
  {
    hide AllReceipts, HeadDone, RoundDone, Server.Submit;
    if Enabled(env, w, FlushHead) {
      var a := RoundDone(env, dedup, w, n, clock(|w.queue.pending|));
      SubmitKeeps(env, dedup, w.srv, InTurn(w).receipt, clock(|w.queue.pending|));
      if a.Some? {
        FlushKeeps(env, dedup, a.value, n, clock);
      }
    }
  }

  lemma SubmitKeeps(env: Env, dedup: bool, srv: Fdms, r: Receipt, latest: int)
    ensures
      var s := Server.Submit(env, dedup, srv, r, latest).0;
      && AllReceipts(srv.days) <= AllReceipts(s.days) && s.status == srv.status && Earlier(s) == Earlier(srv)
      && (!srv.status.DayOpened? ==> s == srv) && (srv.days != [] ==> s.days != [])
  {
    hide AllReceipts, Errors, Duplicate, Highest, Accumulated, Today, Earlier;
    if srv.days != [] {
      TakenShape(env, srv, r, latest);
      TodayTaken(env, srv, r, latest);
    }
  }

  // -- where every run stands ----------------------------------------------

  /** A stored marker is of a receipt FDMS holds or takes next; if it has the head's number, it is the head. */
  lemma MarkerFacts(env: Env, rules: Rules, w: World)
    requires KeyPair(env) && Reached(rules, env, w)
    ensures Numbered(AllReceipts(w.srv.days)) && (w.srv.status.DayOpened? ==> w.srv.days != [])
    ensures w.disk.marker.Some? ==>
              var r := w.disk.marker.value.receipt;
              && (HeldAs(AllReceipts(w.srv.days), r) || r.globalNo == |AllReceipts(w.srv.days)| + 1)
              && (!w.srv.status.DayOpened? ==> r.globalNo == |AllReceipts(w.srv.days)| + 1)
    ensures MarkerIsHead(w) ==> w.disk.marker == Some(Tail(w.journal)[0])
    ensures w.pc.Idle? && w.queue.loaded ==> w.queue.pending == Indexed(w.journal.cursor, Tail(w.journal))
  {
    hide KeyPair, Reached, AllReceipts, Inv, RedsOk;
    var log := ReachedHasInv(env, rules, w);
    MarkerStands(env, rules, w, log);
  }

  lemma MarkerStands(env: Env, rules: Rules, w: World, log: seq<Prepared>)
    requires Inv(env, rules, w, log)
    ensures Numbered(AllReceipts(w.srv.days)) && (w.srv.status.DayOpened? ==> w.srv.days != [])
    ensures w.disk.marker.Some? ==>
              var r := w.disk.marker.value.receipt;
              && (HeldAs(AllReceipts(w.srv.days), r) || r.globalNo == |AllReceipts(w.srv.days)| + 1)
              && (!w.srv.status.DayOpened? ==> r.globalNo == |AllReceipts(w.srv.days)| + 1)
    ensures MarkerIsHead(w) ==> w.disk.marker == Some(Tail(w.journal)[0])
    ensures w.pc.Idle? && w.queue.loaded ==> w.queue.pending == Indexed(w.journal.cursor, Tail(w.journal))
  {
    hide LogOk, JournalOk, MemOk, DiskOk, LastOk, DatesOk, OnceOk, PcOk, AllReceipts, HoldsPrefix, DayOk, Numbered,
      Tail, HeldAs, Opens, Begun, Fits, AllBelow;
    AllIsEarlierAndToday(w.srv);
    var o := OriginOf(env, w.srv);
    OpensToday(env, w.srv);
    if w.disk.marker.Some? {
      var p := w.disk.marker.value;
      HeldInLog(env, rules, o, w.srv, w.journal, p, log);
      if Index(o, p) < HeldToday(w.srv) {
        TakenAreHeld(env, w.srv, log, p);
      }
      if MarkerIsHead(w) {
        HeadInLog(env, o, w.srv, w.journal, log);
        FitsNothingQueued(env, rules, o, w.srv, w.journal, p, log);
      }
    }
  }

  lemma FitsNothingQueued(env: Env, rules: Rules, o: Origin, srv: Fdms, j: Journal, p: Prepared, log: seq<Prepared>)
    requires MarkerOk(env, rules, o, srv, j, Some(p), log) && Tail(j) != []
    ensures InLog(o, log, p)
  {
  }

  // -- reconcile() and the head of the queue -------------------------------

  /** flush() sends an unmarked head, and a plain server that holds it takes it twice; any other it takes once. */
  lemma FlushDuplicatesIff(env: Env, w: World, n: nat, latest: int)
    requires w.pc.Idle? && w.queue.loaded && w.queue.pending != [] && w.disk.marker.None?
    requires w.srv.status.DayOpened? && w.srv.days != [] && Numbered(AllReceipts(w.srv.days))
    requires var r := w.queue.pending[0].item.receipt;
      HeldAs(AllReceipts(w.srv.days), r) || r.globalNo == |AllReceipts(w.srv.days)| + 1
    ensures Numbered(AllReceipts(HeadDone(env, false, w, n, latest).srv.days)) <==>
            !HeldAs(AllReceipts(w.srv.days), w.queue.pending[0].item.receipt)
  {
    hide AllReceipts, Taken, Numbered, HeldAs, HeadDone;
    var r := w.queue.pending[0].item.receipt;
    TakenShape(env, w.srv, r, latest);
    if HeldAs(AllReceipts(w.srv.days), r) {
      HeldIsTakenAgain(AllReceipts(w.srv.days), r, AllReceipts(w.srv.days) + [r]);
    } else {
      NumberedGrows(AllReceipts(w.srv.days), r);
    }
  }

  /** A plain server takes an unmarked head, and the flush goes on from there. */
  lemma HeadIsTaken(env: Env, w: World, n: nat, latest: int)
    requires w.pc.Idle? && w.queue.loaded && w.queue.pending != [] && w.disk.marker.None?
    requires w.srv.status.DayOpened? && w.srv.days != []
    ensures Enabled(env, w, FlushHead)
    ensures
      var v := RoundDone(env, false, w, n, latest);
      v.Some? && AllReceipts(v.value.srv.days) == AllReceipts(w.srv.days) + [w.queue.pending[0].item.receipt]
  {
    hide AllReceipts, Taken, RoundDone;
    TakenShape(env, w.srv, w.queue.pending[0].item.receipt, latest);
  }

  /** A flush that starts with a held and unmarked head ends with that number twice. */
  lemma UnmarkedHeadIsDoubled(env: Env, w: World, n: nat, clock: nat -> int)
    requires w.pc.Idle? && w.queue.loaded && w.queue.pending != [] && w.disk.marker.None?
    requires w.srv.status.DayOpened? && w.srv.days != []
    requires HeldAs(AllReceipts(w.srv.days), w.queue.pending[0].item.receipt)
    ensures !Numbered(AllReceipts(FlushDone(env, false, w, n, clock).srv.days))
  {
    hide AllReceipts, Server.Submit, Numbered, HeldAs, HeadDone, RoundDone;
    var r := w.queue.pending[0].item.receipt;
    var a := RoundDone(env, false, w, n, clock(|w.queue.pending|));
    HeadIsTaken(env, w, n, clock(|w.queue.pending|));
    FlushKeeps(env, false, a.value, n, clock);
    HeldIsTakenAgain(AllReceipts(w.srv.days), r, AllReceipts(FlushDone(env, false, a.value, n, clock).srv.days));
  }

  /** reconcile() settles a marker, so that FDMS holds its receipt, and deletes it. */
  lemma MarkerIsSettled(env: Env, dedup: bool, w: World, n: nat, latest: int)
    requires w.pc.Idle? && w.disk.marker.Some? && w.srv.status.DayOpened? && w.srv.days != []
    requires Numbered(AllReceipts(w.srv.days)) && Reports(AllReceipts(w.srv.days), n)
    requires var r := w.disk.marker.value.receipt;
      HeldAs(AllReceipts(w.srv.days), r) || r.globalNo == |AllReceipts(w.srv.days)| + 1
    ensures
      var v := ReconcileDone(env, dedup, w, n, latest);
      HeldAs(AllReceipts(v.srv.days), w.disk.marker.value.receipt) && v.srv.status.DayOpened? && v.srv.days != []
  {
    hide AllReceipts, Numbered, HeldAs, ReconcileDone, Reports, Server.Submit;
    var r := w.disk.marker.value.receipt;
    ReportIsHeld(AllReceipts(w.srv.days), n);
    SubmitHolds(env, dedup, w.srv, r, latest);
    var v := ReconcileDone(env, dedup, w, n, latest);
    if n < r.globalNo {
      HeldIsSome(v.srv, r);
    }
  }

  lemma HeldIsSome(srv: Fdms, r: Receipt)
    requires HeldAs(AllReceipts(srv.days), r)
    ensures srv.days != []
  {
  }

  /** A start that finds the head of the journal held, or marked, makes a plain server take it twice. */
  lemma StartDoubles(env: Env, w: World, n: nat, latest: int, clock: nat -> int)
    requires w.pc.Idle? && w.srv.status.DayOpened? && w.srv.days != [] && Tail(w.journal) != []
    requires w.queue.loaded ==> w.queue.pending == Indexed(w.journal.cursor, Tail(w.journal))
    requires Numbered(AllReceipts(w.srv.days)) && Reports(AllReceipts(w.srv.days), n)
    requires
      if w.disk.marker.None? then HeldAs(AllReceipts(w.srv.days), Tail(w.journal)[0].receipt)
      else
        && w.disk.marker.value == Tail(w.journal)[0]
        && var r := w.disk.marker.value.receipt;
           HeldAs(AllReceipts(w.srv.days), r) || r.globalNo == |AllReceipts(w.srv.days)| + 1
    ensures !Numbered(AllReceipts(StartDone(env, false, w, n, latest, clock).srv.days))
  {
    hide AllReceipts, Numbered, HeldAs, ReconcileDone, LoadDone, FlushDone, Reports, Server.Submit, Tail;
    if w.disk.marker.Some? {
      MarkerIsSettled(env, false, w, n, latest);
    }
    var v := LoadDone(env, false, ReconcileDone(env, false, w, n, latest));
    assert v.queue.pending[0].item == Tail(w.journal)[0];
    UnmarkedHeadIsDoubled(env, v, n, clock);
  }

  /** Outside an open day nothing reaches FDMS. */
  lemma StartRefused(env: Env, dedup: bool, w: World, n: nat, latest: int, clock: nat -> int)
    requires w.pc.Idle? && !w.srv.status.DayOpened?
    ensures StartDone(env, dedup, w, n, latest, clock).srv == w.srv
  {
    hide ReconcileDone, LoadDone, FlushDone;
    if w.disk.marker.Some? {
      SubmitKeeps(env, dedup, w.srv, w.disk.marker.value.receipt, latest);
    }
    hide Server.Submit;
    FlushKeeps(env, dedup, LoadDone(env, dedup, ReconcileDone(env, dedup, w, n, latest)), n, clock);
  }

  /**
   * reconcile() and then flush(), both answered, from any point between two
   * calls: FDMS ends up with every number once if and only if the stored marker
   * is not that of the head of the queue, or FDMS takes nothing because no day
   * is open. Before the call pendingReceipt() and the journal tell.
   */
  lemma ReconcileThenFlush(env: Env, rules: Rules, w: World, n: nat, latest: int, clock: nat -> int)
    requires KeyPair(env) && Reached(rules, env, w) && w.pc.Idle? && Reports(AllReceipts(w.srv.days), n)
    ensures Numbered(AllReceipts(StartDone(env, rules.Dedup?, w, n, latest, clock).srv.days)) <==>
            rules.Dedup? || !(MarkerIsHead(w) && w.srv.status.DayOpened?)
  {
    hide KeyPair, Reached, AllReceipts, Numbered, HeldAs, Reports, StartDone, MarkerIsHead, Tail;
    MarkerFacts(env, rules, w);
    if !w.srv.status.DayOpened? {
      StartRefused(env, rules.Dedup?, w, n, latest, clock);
    } else if rules.Dedup? || !MarkerIsHead(w) {
      StartIsRun(rules, env, w, n, latest, clock);
      MarkerFacts(env, rules, StartDone(env, rules.Dedup?, w, n, latest, clock));
    } else {
      MarkedHead(w);
      StartDoubles(env, w, n, latest, clock);
    }
  }

  lemma MarkedHead(w: World)
    requires MarkerIsHead(w)
    ensures Tail(w.journal) != [] && w.disk.marker.Some?
  {
  }

  // -- after a crash -------------------------------------------------------

  /**
   * Where dates increase or FDMS deduplicates: the process dies anywhere, then
   * the documented start, reconcile() and flush(), runs and is answered. Every
   * number is at FDMS once if and only if FDMS deduplicates, the head of the
   * journal was neither held by FDMS nor marked, or no day is open.
   */
  lemma CrashThenStart(env: Env, rules: Rules, w: World, n: nat, latest: int, clock: nat -> int)
    requires KeyPair(env) && Reached(rules, env, w) && !rules.AllAnswered? && Reports(AllReceipts(w.srv.days), n)
    ensures
      var v := Next(env, rules.Dedup?, w, Crash);
      Numbered(AllReceipts(StartDone(env, rules.Dedup?, v, n, latest, clock).srv.days)) <==>
      rules.Dedup? || !((HeadHeld(w) || MarkerIsHead(w)) && w.srv.status.DayOpened?)
  {
    hide KeyPair, Reached, AllReceipts, Numbered, HeldAs, Reports, StartDone, MarkerIsHead, HeadHeld, Tail;
    var v := Next(env, rules.Dedup?, w, Crash);
    MarkerFacts(env, rules, w);
    if !w.srv.status.DayOpened? {
      StartRefused(env, rules.Dedup?, v, n, latest, clock);
    } else if rules.Dedup? || !(HeadHeld(w) || MarkerIsHead(w)) {
      OneMoreStep(rules, env, w, Crash);
      CrashKeepsHead(env, rules.Dedup?, w);
      StartIsRun(rules, env, v, n, latest, clock);
      MarkerFacts(env, rules, StartDone(env, rules.Dedup?, v, n, latest, clock));
    } else {
      HeadIsHeld(env, rules, w);
      StartDoubles(env, v, n, latest, clock);
    }
  }

  lemma CrashKeepsHead(env: Env, dedup: bool, w: World)
    ensures MarkerIsHead(Next(env, dedup, w, Crash)) == MarkerIsHead(w)
  {
  }

  /** The head that FDMS holds is held under its number, and no marker but its own is stored. */
  lemma HeadIsHeld(env: Env, rules: Rules, w: World)
    requires KeyPair(env) && Reached(rules, env, w) && rules.Ordered? && (HeadHeld(w) || MarkerIsHead(w))
    ensures Tail(w.journal) != [] && (w.disk.marker.Some? ==> w.disk.marker.value == Tail(w.journal)[0])
    ensures w.disk.marker.None? ==> HeldAs(AllReceipts(w.srv.days), Tail(w.journal)[0].receipt)
  {
    hide KeyPair, Reached, AllReceipts, Numbered, HeldAs, Tail;
    MarkerFacts(env, rules, w);
    if HeadHeld(w) {
      OnlyTheHeadMayBeHeld(env, rules, w);
      InIsHeld(AllReceipts(w.srv.days), Tail(w.journal)[0].receipt);
      AdvancingUnmarked(env, rules, w);
    }
  }

  lemma InIsHeld(rs: seq<Receipt>, r: Receipt)
    requires Numbered(rs)
    ensures r in rs <==> HeldAs(rs, r)
  {
  }

  lemma AdvancingUnmarked(env: Env, rules: Rules, w: World)
    requires KeyPair(env) && Reached(rules, env, w)
    ensures w.pc.Advancing? ==> w.disk.marker.None?
  {
    hide KeyPair, Reached, Inv, RedsOk;
    var log := ReachedHasInv(env, rules, w);
    InHandFacts(env, rules, w, log);
  }

  /**
   * Without reconcile(), flush() alone after the crash: every number is at FDMS
   * once if and only if FDMS deduplicates, the process did not die between the
   * deletion of a held head's marker and the write of the journal's cursor, or
   * no day is open.
   */
  lemma CrashThenFlush(env: Env, rules: Rules, w: World, n: nat, clock: nat -> int)
    requires KeyPair(env) && Reached(rules, env, w) && !rules.AllAnswered? && Reports(AllReceipts(w.srv.days), n)
    ensures
      var v := Next(env, rules.Dedup?, w, Crash);
      Numbered(AllReceipts(FlushDone(env, rules.Dedup?, LoadDone(env, rules.Dedup?, v), n, clock).srv.days)) <==>
      rules.Dedup? || !(HeadLost(w) && w.srv.status.DayOpened?)
  {
    hide KeyPair, Reached, AllReceipts, Numbered, HeldAs, Reports, FlushDone, LoadDone, HeadHeld, Tail;
    var v := Next(env, rules.Dedup?, w, Crash);
    var u := LoadDone(env, rules.Dedup?, v);
    MarkerFacts(env, rules, w);
    if !w.srv.status.DayOpened? {
      FlushKeeps(env, rules.Dedup?, u, n, clock);
    } else if rules.Dedup? || !HeadLost(w) {
      OneMoreStep(rules, env, w, Crash);
      LoadIsRun(rules, env, v);
      FlushIsRun(rules, env, u, n, clock);
      MarkerFacts(env, rules, FlushDone(env, rules.Dedup?, u, n, clock));
    } else {
      HeadIsHeld(env, rules, w);
      assert u.queue.pending[0].item == Tail(w.journal)[0];
      UnmarkedHeadIsDoubled(env, u, n, clock);
    }
  }

  /** Where the marker of a held head is still there, flush() settles it without a request. */
  lemma FlushSettlesTheHead(env: Env, rules: Rules, w: World, n: nat, latest: int)
    requires KeyPair(env) && Reached(rules, env, w) && rules.Ordered? && w.pc.Idle? && w.queue.loaded
    requires HeadHeld(w) && Reports(AllReceipts(w.srv.days), n)
    ensures Enabled(env, w, FlushHead)
    ensures
      var v := HeadDone(env, false, w, n, latest);
      v.srv == w.srv && v.pc == Advancing(w.queue.pending[0].item)
  {
    hide KeyPair, Reached, AllReceipts, Numbered, HeldAs, Reports, HeadDone, Tail, HeadHeld, Inv, RedsOk,
      Server.Submit;
    HeadIsHeld(env, rules, w);
    MarkerFacts(env, rules, w);
    OnlyTheHeadMayBeHeld(env, rules, w);
    var log := ReachedHasInv(env, rules, w);
    HeldIsReported(env, rules, w, n, log);
  }

  lemma HeldIsReported(env: Env, rules: Rules, w: World, n: nat, log: seq<Prepared>)
    requires Inv(env, rules, w, log) && rules.Ordered? && HeadHeld(w) && Reports(AllReceipts(w.srv.days), n)
    ensures n >= Tail(w.journal)[0].receipt.globalNo
  {
    hide LogOk, JournalOk, QueueOk, MarkerOk, MemOk, DiskOk, LastOk, OnceOk, PcOk, AllReceipts, HoldsPrefix, DayOk,
      Tail, Reports, Opens, DatesOk;
    AllIsEarlierAndToday(w.srv);
    OpensToday(env, w.srv);
    HeadInLog(env, OriginOf(env, w.srv), w.srv, w.journal, log);
    ReportedIsLast(env, rules, w.srv, log, n);
    InIsHeld(AllReceipts(w.srv.days), Tail(w.journal)[0].receipt);
  }

  // -- a sale behind an unresolved direct submit ---------------------------

  /** An unresolved submit has the number that the next sale will be signed with. */
  predicate SameNumberMarked(w: World) {
    && w.disk.marker.Some? && w.mem.Some? && w.disk.marker.value.receipt.globalNo == w.mem.value.globalNo + 1
  }

  /** Between two calls a marker's number is at most the next one, and that only while nothing is queued. */
  lemma NextNumber(env: Env, rules: Rules, w: World)
    requires KeyPair(env) && Reached(rules, env, w) && w.pc.Idle? && w.queue.loaded && w.mem.Some? && CaughtUp(w)
    ensures w.disk.marker.Some? ==> w.disk.marker.value.receipt.globalNo <= w.mem.value.globalNo + 1
    ensures SameNumberMarked(w) ==> Tail(w.journal) == []
    ensures !w.srv.status.DayOpened? ==> w.mem.value.globalNo >= |AllReceipts(w.srv.days)|
  {
    hide KeyPair, Reached, AllReceipts, Inv, RedsOk, Tail, CaughtUp;
    var log := ReachedHasInv(env, rules, w);
    NumbersStand(env, rules, w, log);
  }

  lemma NumbersStand(env: Env, rules: Rules, w: World, log: seq<Prepared>)
    requires Inv(env, rules, w, log) && w.pc.Idle? && w.mem.Some? && CaughtUp(w)
    ensures w.disk.marker.Some? ==> w.disk.marker.value.receipt.globalNo <= w.mem.value.globalNo + 1
    ensures SameNumberMarked(w) ==> Tail(w.journal) == []
    ensures !w.srv.status.DayOpened? ==> w.mem.value.globalNo >= |AllReceipts(w.srv.days)|
  {
    hide LogOk, JournalOk, QueueOk, DiskOk, LastOk, DatesOk, OnceOk, PcOk, AllReceipts, DayOk, Numbered, Tail, HeldAs,
      Opens, Begun, AllBelow, Follows, StateAt;
    AllIsEarlierAndToday(w.srv);
    OpensToday(env, w.srv);
    if Tail(w.journal) != [] {
      HeadInLog(env, OriginOf(env, w.srv), w.srv, w.journal, log);
    }
  }

  /** On an open day a flush that is not blocked delivers everything. */
  lemma {:induction false} FlushDelivers(env: Env, dedup: bool, w: World, n: nat, clock: nat -> int)
    requires w.pc.Idle? && w.queue.loaded && w.srv.status.DayOpened? && w.srv.days != []
    requires w.queue.pending != [] ==> !Blocks(w)
    ensures FlushDone(env, dedup, w, n, clock).queue.pending == []
    decreases |w.queue.pending|
  {
    hide AllReceipts, HeadDone, RoundDone, Server.Submit;
    if Enabled(env, w, FlushHead) {
      var a := RoundDone(env, dedup, w, n, clock(|w.queue.pending|));
      OpenAccepts(env, dedup, w.srv, InTurn(w).receipt, clock(|w.queue.pending|));
      FlushDelivers(env, dedup, a.value, n, clock);
    }
  }

  lemma OpenAccepts(env: Env, dedup: bool, srv: Fdms, r: Receipt, latest: int)
    requires srv.status.DayOpened? && srv.days != []
    ensures
      var (s, response) := Server.Submit(env, dedup, srv, r, latest);
      response.Accepted? && s.status.DayOpened? && s.days != []
  {
    hide AllReceipts, Errors, Duplicate, Highest, Accumulated, Today, Earlier;
  }

  /** A permitted enqueue() and its delivery: the sale is at FDMS once a day is open, and no number twice. */
  lemma QueuedSaleArrives(env: Env, rules: Rules, w: World, input: ReceiptInput, now: int, p: Prepared, n: nat,
                          latest: int, clock: nat -> int)
    requires KeyPair(env) && Reached(rules, env, w) && May(rules, env, w, Step.Enqueue(input, now))
    requires SignReceipt(env, w.mem.value, input, now) == Signed(p) && p.receipt.globalNo == w.mem.value.globalNo + 1
    requires Reports(AllReceipts(w.srv.days), n) && w.srv.status.DayOpened?
    ensures
      var v := DeliverDone(env, rules.Dedup?, EnqueueDone(env, rules.Dedup?, w, p), n, latest, clock);
      p.receipt in AllReceipts(v.srv.days) && Numbered(AllReceipts(v.srv.days))
  {
    hide KeyPair, Reached, AllReceipts, Numbered, HeldAs, Reports, Tail, SignReceipt, EnqueueDone, FlushDone,
      ReconcileDone, Permitted, MarkerIsHead, Server.Submit, Indexed;
    var a := EnqueueDone(env, rules.Dedup?, w, p);
    EnqueueIsRun(rules, env, w, input, now, p);
    MarkerFacts(env, rules, a);
    BlockedIsNotHead(a);
    DeliverIsRun(rules, env, a, n, latest, clock);
    var v := DeliverDone(env, rules.Dedup?, a, n, latest, clock);
    if Blocks(a) {
      OpenAccepts(env, rules.Dedup?, a.srv, a.disk.marker.value.receipt, latest);
      FlushDelivers(env, rules.Dedup?, ReconcileDone(env, rules.Dedup?, a, n, latest), n, clock);
    } else {
      FlushDelivers(env, rules.Dedup?, a, n, clock);
    }
    JournalMirrored(env, rules, v);
    MarkerFacts(env, rules, v);
    assert v.journal.records[|v.journal.records| - 1] == p;
    InIsHeld(AllReceipts(v.srv.days), p.receipt);
  }

  lemma BlockedIsNotHead(w: World)
    requires w.queue.pending == Indexed(w.journal.cursor, Tail(w.journal))
    ensures Blocks(w) ==> !MarkerIsHead(w)
  {
    hide Tail;
  }

  lemma NothingLeft(env: Env, dedup: bool, w: World, n: nat, clock: nat -> int)
    requires w.pc.Idle? && w.queue == Queue([], true)
    ensures FlushDone(env, dedup, w, n, clock) == w
  {
  }

  /** Behind a marker with its own number the sale is not sent: flush() sends, or confirms, the marker's receipt. */
  lemma MarkerGoesInstead(env: Env, dedup: bool, w: World, p: Prepared, n: nat, latest: int, clock: nat -> int)
    requires w.pc.Idle? && w.queue.loaded && SameNumberMarked(w) && w.queue.pending == []
    requires p.receipt.globalNo == w.mem.value.globalNo + 1
    ensures
      var v := DeliverDone(env, dedup, EnqueueDone(env, dedup, w, p), n, latest, clock);
      v.srv == ReconcileDone(env, dedup, w, n, clock(1)).srv
  {
    hide EnqueueDone, ReconcileDone, HeadDone, RoundDone, Server.Submit;
    var a := EnqueueDone(env, dedup, w, p);
    var b := RoundDone(env, dedup, a, n, clock(1));
    if b.Some? {
      NothingLeft(env, dedup, b.value, n, clock);
    }
  }

  lemma OneOfANumber(rs: seq<Receipt>, r: Receipt, s: Receipt)
    requires Numbered(rs) && HeldAs(rs, s) && r.globalNo == s.globalNo
    ensures r in rs <==> r == s
  {
  }

  /** The cases of a sale on a day state that covers the journal. */
  lemma CoveredSale(env: Env, rules: Rules, w: World, input: ReceiptInput, now: int, p: Prepared, n: nat,
                    latest: int, clock: nat -> int)
    requires KeyPair(env) && Reached(rules, env, w) && w.pc.Idle? && w.queue.loaded && w.mem.Some?
    requires SignReceipt(env, w.mem.value, input, now) == Signed(p) && p.receipt.globalNo == w.mem.value.globalNo + 1
    requires MaySign(rules, w, input, now) && Reports(AllReceipts(w.srv.days), n)
    requires CaughtUp(w) && w.srv.status.DayOpened?
    ensures
      var v := DeliverDone(env, rules.Dedup?, EnqueueDone(env, rules.Dedup?, w, p), n, latest, clock);
      && Numbered(AllReceipts(v.srv.days))
      && (p.receipt in AllReceipts(v.srv.days) <==>
          !(SameNumberMarked(w) && w.disk.marker.value.receipt != p.receipt))
  {
    hide KeyPair, Reached, AllReceipts, Numbered, HeldAs, Reports, Tail, SignReceipt, EnqueueDone, DeliverDone,
      ReconcileDone, MarkerIsHead, Server.Submit, CaughtUp, MaySign, Indexed;
    NextNumber(env, rules, w);
    MarkerFacts(env, rules, w);
    if !SameNumberMarked(w) {
      QueuedSaleArrives(env, rules, w, input, now, p, n, latest, clock);
    } else {
      var r := w.disk.marker.value.receipt;
      var v := ReconcileDone(env, rules.Dedup?, w, n, clock(1));
      MarkerIsSettled(env, rules.Dedup?, w, n, clock(1));
      NothingMarked(w);
      ReconcileIsRun(rules, env, w, n, clock(1));
      MarkerFacts(env, rules, v);
      MarkerGoesInstead(env, rules.Dedup?, w, p, n, latest, clock);
      OneOfANumber(AllReceipts(v.srv.days), p.receipt, r);
    }
  }

  lemma NothingMarked(w: World)
    requires Tail(w.journal) == []
    ensures !MarkerIsHead(w) && Indexed(w.journal.cursor, Tail(w.journal)) == []
  {
  }

  lemma TooHigh(rs: seq<Receipt>, r: Receipt)
    requires r.globalNo > |rs|
    ensures !HeldAs(rs, r)
  {
  }

  lemma DeliverRefused(env: Env, dedup: bool, w: World, n: nat, latest: int, clock: nat -> int)
    requires w.pc.Idle? && w.queue.loaded && !w.srv.status.DayOpened?
    ensures DeliverDone(env, dedup, w, n, latest, clock).srv == w.srv
  {
    hide ReconcileDone, FlushDone;
    if Blocks(w) {
      SubmitKeeps(env, dedup, w.srv, w.disk.marker.value.receipt, latest);
      hide Server.Submit;
      FlushKeeps(env, dedup, ReconcileDone(env, dedup, w, n, latest), n, clock);
    } else {
      FlushKeeps(env, dedup, w, n, clock);
    }
  }

  // -- a sale on a day state that is behind the journal --------------------

  /** The receipts that wait. */
  function Waiting(j: Journal): seq<Receipt> {
    seq(|Tail(j)|, i requires 0 <= i < |Tail(j)| => Tail(j)[i].receipt)
  }

  /** FDMS holds the receipt, or it waits to be sent. */
  predicate Issued(w: World, r: Receipt) {
    r in AllReceipts(w.srv.days) || r in Waiting(w.journal)
  }

  /** An issued receipt has this one's number and hash, by which a deduplicating FDMS tells receipts. */
  ghost predicate Twin(w: World, r: Receipt) {
    exists t :: Issued(w, t) && t.globalNo == r.globalNo && t.hash == r.hash
  }

  /** Two flushes that differ in one receipt at the end differ in one request. */
  lemma {:induction false} OneMoreSent(env: Env, dedup: bool, w: World, u: World, last: Queued, n: nat,
                                       clock: nat -> int, later: nat -> int)
    requires forall i: nat :: later(i) == clock(i + 1)
    requires w.pc.Idle? && w.queue.loaded && u.pc.Idle? && u.queue.loaded && u.srv == w.srv
    requires u.disk.marker == w.disk.marker && u.queue.pending == w.queue.pending + [last]
    requires w.srv.status.DayOpened? && w.srv.days != []
    requires if w.queue.pending == [] then w.disk.marker.None? else !Blocks(w)
    ensures FlushDone(env, dedup, u, n, clock).srv ==
            Server.Submit(env, dedup, FlushDone(env, dedup, w, n, later).srv, last.item.receipt, clock(1)).0
    decreases |w.queue.pending|
  {
    hide AllReceipts, RoundDone, Server.Submit, HeadDone;
    var b := RoundDone(env, dedup, u, n, clock(|u.queue.pending|));
    OpenAccepts(env, dedup, w.srv, InTurn(u).receipt, clock(|u.queue.pending|));
    if w.queue.pending == [] {
      NothingLeft(env, dedup, b.value, n, clock);
    } else {
      var a := RoundDone(env, dedup, w, n, later(|w.queue.pending|));
      OneMoreSent(env, dedup, a.value, b.value, last, n, clock, later);
    }
  }

  /** A flush to the end of the queue leaves FDMS with what was issued, and nothing else, under the queue's numbers. */
  lemma FlushedIsIssued(env: Env, rules: Rules, w: World, u: World, k: nat)
    requires KeyPair(env) && Reached(rules, env, w) && Reached(rules, env, u)
    requires w.pc.Idle? && w.queue.loaded && Tail(w.journal) != []
    requires u.pc.Idle? && u.queue == Queue([], true) && u.journal.records == w.journal.records
    requires AllReceipts(w.srv.days) <= AllReceipts(u.srv.days)
    requires 1 <= k <= Tail(w.journal)[|Tail(w.journal)| - 1].receipt.globalNo
    ensures k <= |AllReceipts(u.srv.days)|
    ensures forall r: Receipt :: r.globalNo == k ==> (r in AllReceipts(u.srv.days) <==> Issued(w, r))
  {
    hide KeyPair, Reached, AllReceipts, Numbered, HeldAs, Indexed;
    MarkerFacts(env, rules, w);
    MarkerFacts(env, rules, u);
    JournalMirrored(env, rules, w);
    JournalMirrored(env, rules, u);
    IssuedIsHeld(AllReceipts(w.srv.days), AllReceipts(u.srv.days), w.journal, k);
  }

  lemma IssuedIsHeld(rs: seq<Receipt>, ts: seq<Receipt>, j: Journal, k: nat)
    requires Numbered(rs) && Numbered(ts) && rs <= ts && j.cursor < |j.records|
    requires forall i :: 0 <= i < |j.records| ==> HeldAs(ts, j.records[i].receipt)
    requires forall i :: j.cursor <= i < |j.records| ==>
               j.records[i].receipt.globalNo == j.records[j.cursor].receipt.globalNo + i - j.cursor
    requires j.records[j.cursor].receipt.globalNo <= |rs| + 1
    requires 1 <= k <= j.records[|j.records| - 1].receipt.globalNo
    ensures k <= |ts| && forall r: Receipt :: r.globalNo == k ==> (r in ts <==> r in rs || r in Waiting(j))
  {
    var waiting := Waiting(j);
    assert forall i :: 0 <= i < |waiting| ==> waiting[i] == j.records[j.cursor + i].receipt;
    assert HeldAs(ts, j.records[|j.records| - 1].receipt);
    forall r: Receipt | r.globalNo == k && r in ts ensures r in rs || r in waiting {
      if k <= |rs| {
        assert rs[k - 1] == ts[k - 1] == r;
      } else {
        var i := j.cursor + k - j.records[j.cursor].receipt.globalNo;
        assert j.records[i].receipt.globalNo == k && HeldAs(ts, j.records[i].receipt);
        assert waiting[i - j.cursor] == r;
      }
    }
  }

  /** A deduplicating FDMS recognises, of the numbers of the day, what it holds with this number and hash. */
  lemma DuplicateIsHeld(srv: Fdms, r: Receipt)
    requires Numbered(AllReceipts(srv.days)) && |AllReceipts(Earlier(srv))| < r.globalNo
    ensures Duplicate(Today(srv).receipts, r).Some? <==>
              exists t :: t in AllReceipts(srv.days) && t.globalNo == r.globalNo && t.hash == r.hash
  {
    hide AllReceipts, Earlier, Today;
    AllIsEarlierAndToday(srv);
    var stored, rs, base := Today(srv).receipts, AllReceipts(srv.days), |AllReceipts(Earlier(srv))|;
    DuplicateIsStored(stored, r);
    assert forall i :: 0 <= i < |stored| ==> rs[base + i] == stored[i].receipt;
    if t :| t in rs && t.globalNo == r.globalNo && t.hash == r.hash {
      assert rs[t.globalNo - 1] == t;
      assert stored[t.globalNo - 1 - base].receipt == t;
    }
  }

  /** The day state is of the day: its number is past every earlier day's. */
  lemma StateIsTodays(env: Env, rules: Rules, w: World)
    requires KeyPair(env) && Reached(rules, env, w) && w.mem.Some?
    ensures w.mem.value.globalNo >= |AllReceipts(Earlier(w.srv))|
  {
    hide KeyPair, Reached, AllReceipts, RedsOk;
    var log := ReachedHasInv(env, rules, w);
    hide LogOk, ServerOk, JournalOk, QueueOk, MarkerOk, DiskOk, LastOk, PcOk, DatesOk, OnceOk;
  }

  /** A number that FDMS holds is recognised by a deduplicating FDMS, or doubled. */
  lemma LateSubmit(env: Env, dedup: bool, srv: Fdms, r: Receipt, latest: int)
    requires srv.status.DayOpened? && srv.days != [] && Numbered(AllReceipts(srv.days))
    requires 1 <= r.globalNo <= |AllReceipts(srv.days)|
    ensures
      var s := Server.Submit(env, dedup, srv, r, latest).0;
      if dedup && Duplicate(Today(srv).receipts, r).Some? then s == srv
      else AllReceipts(s.days) == AllReceipts(srv.days) + [r] && !Numbered(AllReceipts(s.days))
  {
    hide AllReceipts, Taken, Duplicate;
    TakenShape(env, srv, r, latest);
    assert (AllReceipts(srv.days) + [r])[|AllReceipts(srv.days)|] == r;
  }

  /**
   * A sale on a day state that is behind the queue: everything that waits is
   * delivered, and then the sale, under a number FDMS holds by then.
   */
  lemma BehindSale(env: Env, rules: Rules, w: World, p: Prepared, n: nat, latest: int, clock: nat -> int)
    requires KeyPair(env) && Reached(rules, env, w) && w.pc.Idle? && w.queue.loaded && w.mem.Some?
    requires p.receipt.globalNo == w.mem.value.globalNo + 1 && Reports(AllReceipts(w.srv.days), n)
    requires !CaughtUp(w) && w.srv.status.DayOpened?
    ensures
      var v := DeliverDone(env, rules.Dedup?, EnqueueDone(env, rules.Dedup?, w, p), n, latest, clock);
      && (Numbered(AllReceipts(v.srv.days)) <==> rules.Dedup? && Twin(w, p.receipt))
      && (p.receipt in AllReceipts(v.srv.days) <==> !(rules.Dedup? && Twin(w, p.receipt)) || Issued(w, p.receipt))
  {
    hide KeyPair, Reached, AllReceipts, Numbered, Reports, EnqueueDone, DeliverDone, Server.Submit, MarkerIsHead,
      Issued, Duplicate, Earlier, Today;
    var later: nat -> int := (i: nat) => clock(i + 1);
    var e := EnqueueDone(env, rules.Dedup?, w, p);
    var u := DeliverDone(env, rules.Dedup?, w, n, latest, later);
    MarkerFacts(env, rules, w);
    BlockedIsNotHead(w);
    DeliverIsRun(rules, env, w, n, latest, later);
    MarkerFacts(env, rules, u);
    DeliverSent(env, rules.Dedup?, w, e, n, latest, clock, later);
    FlushedIsIssued(env, rules, w, u, p.receipt.globalNo);
    StateIsTodays(env, rules, w);
    DuplicateIsHeld(u.srv, p.receipt);
    LateSubmit(env, rules.Dedup?, u.srv, p.receipt, clock(1));
  }

  /** Delivery of what waits, and of one receipt more. */
  lemma DeliverSent(env: Env, dedup: bool, w: World, e: World, n: nat, latest: int, clock: nat -> int,
                    later: nat -> int)
    requires w.pc.Idle? && w.queue.loaded && w.queue.pending != [] && w.srv.status.DayOpened? && w.srv.days != []
    requires e.pc.Idle? && e.queue.loaded && e.srv == w.srv && e.disk.marker == w.disk.marker
    requires |e.queue.pending| == |w.queue.pending| + 1 && e.queue.pending[..|w.queue.pending|] == w.queue.pending
    requires forall i: nat :: later(i) == clock(i + 1)
    ensures
      var u := DeliverDone(env, dedup, w, n, latest, later);
      && u.queue == Queue([], true) && u.journal.records == w.journal.records && u.pc.Idle?
      && u.srv.status.DayOpened? && u.srv.days != [] && Earlier(u.srv) == Earlier(w.srv)
      && AllReceipts(w.srv.days) <= AllReceipts(u.srv.days)
      && DeliverDone(env, dedup, e, n, latest, clock).srv ==
         Server.Submit(env, dedup, u.srv, e.queue.pending[|w.queue.pending|].item.receipt, clock(1)).0
  {
    hide AllReceipts, FlushDone, ReconcileDone, Server.Submit, Earlier, Today;
    var last := e.queue.pending[|w.queue.pending|];
    assert e.queue.pending == w.queue.pending + [last];
    if Blocks(w) {
      var r := w.disk.marker.value.receipt;
      SubmitKeeps(env, dedup, w.srv, r, latest);
      OpenAccepts(env, dedup, w.srv, r, latest);
      var a, b := ReconcileDone(env, dedup, w, n, latest), ReconcileDone(env, dedup, e, n, latest);
      OneMoreSent(env, dedup, a, b, last, n, clock, later);
      FlushKeeps(env, dedup, a, n, later);
      FlushDelivers(env, dedup, a, n, later);
    } else {
      OneMoreSent(env, dedup, w, e, last, n, clock, later);
      FlushKeeps(env, dedup, w, n, later);
      FlushDelivers(env, dedup, w, n, later);
    }
  }

  // -- a sale, wherever it is enqueued -------------------------------------

  /**
   * enqueue() and then delivery, answered, from any point between two calls:
   * FDMS ends up with every number once if and only if the day state in memory
   * covers the queue, no day is open, or FDMS deduplicates and the sale is, by
   * number and hash, one that was issued before.
   */
  lemma SaleOnceIff(env: Env, rules: Rules, w: World, input: ReceiptInput, now: int, p: Prepared, n: nat,
                    latest: int, clock: nat -> int)
    requires KeyPair(env) && Reached(rules, env, w) && w.pc.Idle? && w.queue.loaded && w.mem.Some?
    requires SignReceipt(env, w.mem.value, input, now) == Signed(p) && p.receipt.globalNo == w.mem.value.globalNo + 1
    requires MaySign(rules, w, input, now) && Reports(AllReceipts(w.srv.days), n)
    ensures
      var v := DeliverDone(env, rules.Dedup?, EnqueueDone(env, rules.Dedup?, w, p), n, latest, clock);
      Numbered(AllReceipts(v.srv.days)) <==>
      CaughtUp(w) || !w.srv.status.DayOpened? || (rules.Dedup? && Twin(w, p.receipt))
  {
    hide KeyPair, Reached, AllReceipts, Numbered, Reports, SignReceipt, EnqueueDone, DeliverDone, CaughtUp, MaySign,
      Twin, Issued;
    MarkerFacts(env, rules, w);
    if !w.srv.status.DayOpened? {
      DeliverRefused(env, rules.Dedup?, EnqueueDone(env, rules.Dedup?, w, p), n, latest, clock);
    } else if CaughtUp(w) {
      CoveredSale(env, rules, w, input, now, p, n, latest, clock);
    } else {
      BehindSale(env, rules, w, p, n, latest, clock);
    }
  }

  /** What decides, before enqueue(), whether FDMS will end up with the sale. */
  ghost predicate Arrives(rules: Rules, w: World, r: Receipt) {
    if !w.srv.status.DayOpened? then !CaughtUp(w) && r in AllReceipts(w.srv.days)
    else if CaughtUp(w) then !(SameNumberMarked(w) && w.disk.marker.value.receipt != r)
    else !(rules.Dedup? && Twin(w, r)) || Issued(w, r)
  }

  /**
   * enqueue() and then delivery, answered, from any point between two calls.
   * Where the day state covers the queue, FDMS ends up with the sale if and only
   * if a day is open and no unresolved submit of another receipt has its number,
   * state.globalNo + 1, which pendingReceipt() tells before the call. Where it
   * does not, an open day takes the sale unless FDMS answers it with a twin.
   */
  lemma SaleArrivesIff(env: Env, rules: Rules, w: World, input: ReceiptInput, now: int, p: Prepared, n: nat,
                       latest: int, clock: nat -> int)
    requires KeyPair(env) && Reached(rules, env, w) && w.pc.Idle? && w.queue.loaded && w.mem.Some?
    requires SignReceipt(env, w.mem.value, input, now) == Signed(p) && p.receipt.globalNo == w.mem.value.globalNo + 1
    requires MaySign(rules, w, input, now) && Reports(AllReceipts(w.srv.days), n)
    ensures
      var v := DeliverDone(env, rules.Dedup?, EnqueueDone(env, rules.Dedup?, w, p), n, latest, clock);
      p.receipt in AllReceipts(v.srv.days) <==> Arrives(rules, w, p.receipt)
  {
    hide KeyPair, Reached, AllReceipts, Numbered, HeldAs, Reports, SignReceipt, EnqueueDone, DeliverDone, CaughtUp,
      MaySign, Twin, Issued, SameNumberMarked;
    if !w.srv.status.DayOpened? {
      MarkerFacts(env, rules, w);
      DeliverRefused(env, rules.Dedup?, EnqueueDone(env, rules.Dedup?, w, p), n, latest, clock);
      InIsHeld(AllReceipts(w.srv.days), p.receipt);
      if CaughtUp(w) {
        NextNumber(env, rules, w);
        TooHigh(AllReceipts(w.srv.days), p.receipt);
      }
    } else if CaughtUp(w) {
      CoveredSale(env, rules, w, input, now, p, n, latest, clock);
    } else {
      BehindSale(env, rules, w, p, n, latest, clock);
    }
  }
}
