/** Sending, committing and journaling a receipt keep the invariant. */
module CommitSteps {
  import opened Text
  import opened Options
  import opened Ledger
  import opened Counters
  import opened Receipts
  import opened Server
  import Transport
  import opened Protocol
  import opened Invariant
  import opened Steps

  // -- Send ----------------------------------------------------------------

  /** Where FDMS takes a receipt: the log, one entry longer if the receipt was not in it. */
  function LogWith(o: Origin, log: seq<Prepared>, p: Prepared): seq<Prepared> {
    if InLog(o, log, p) then log else log + [p]
  }

  lemma TodayTaken(env: Env, srv: Fdms, r: Receipt, latest: int)
    requires srv.days != []
    ensures var s := Taken(env, srv, r, latest); var d := Today(srv);
            && Earlier(s) == Earlier(srv) && s.days != [] && s.status == srv.status && s.closing == srv.closing
            && Today(s).no == d.no && Today(s).openedAt == d.openedAt
            && Today(s).counters == Accumulated(d.counters, r.bill)
            && Today(s).receipts ==
               d.receipts + [Stored(r, srv.nextId, Errors(env, d, Highest(AllReceipts(srv.days)), r, latest))]
  {
    hide Errors, Accumulated, AllReceipts, Highest;
  }

  lemma TakenShape(env: Env, srv: Fdms, r: Receipt, latest: int)
    requires srv.days != []
    ensures var s := Taken(env, srv, r, latest);
            && OriginOf(env, s) == OriginOf(env, srv)
            && AllReceipts(s.days) == AllReceipts(srv.days) + [r]
  {
    hide Errors, Accumulated, AllReceipts, Highest, Taken, Today, Earlier, FirstState, ReceiptsOf;
    var s := Taken(env, srv, r, latest);
    TodayTaken(env, srv, r, latest);
    AllIsEarlierAndToday(srv);
    AllIsEarlierAndToday(s);
    ReceiptsOfGrows(Today(srv).receipts, Today(s).receipts[|Today(srv).receipts|]);
  }

  lemma ReceiptsOfGrows(stored: seq<Stored>, one: Stored)
    ensures ReceiptsOf(stored + [one]) == ReceiptsOf(stored) + [one.receipt]
  {
  }

  /** The receipt whose turn it is follows the state FDMS has reached. */
  lemma NextFollows(env: Env, rules: Rules, o: Origin, srv: Fdms, log: seq<Prepared>, p: Prepared)
    requires LogOk(env, o, log) && Index(o, p) <= |log|
    requires InLog(o, log, p) || Fits(env, rules, o, srv, log, p)
    ensures 0 <= Index(o, p) && Follows(env, StateAt(o, log, Index(o, p)), p)
  {
    hide Follows, StateAt;
    if InLog(o, log, p) {
      assert Entry(env, o, log, Index(o, p));
    }
  }

  /** FDMS takes the receipt whose turn it is, red for an unknown tax ID only, and stays in step with the log. */
  lemma ServerTakes(env: Env, rules: Rules, srv: Fdms, log: seq<Prepared>, p: Prepared, latest: int)
    requires var o := OriginOf(env, srv);
      && LogOk(env, o, log) && ServerOk(env, srv, log) && srv.days != []
      && Index(o, p) == HeldToday(srv) && (InLog(o, log, p) || Fits(env, rules, o, srv, log, p))
    ensures Answers(env, p.receipt, Errors(env, Today(srv), Highest(AllReceipts(srv.days)), p.receipt, latest))
    ensures LogOk(env, OriginOf(env, srv), LogWith(OriginOf(env, srv), log, p))
    ensures ServerOk(env, Taken(env, srv, p.receipt, latest), LogWith(OriginOf(env, srv), log, p))
  {
    hide LogOk, ServerOk, Follows, Errors, AllReceipts, Highest, Accumulated, Taken, Answers, DayOk, Fits, Today,
      Earlier, OriginOf, StateAt, Opens, Built, Plain, Index;
    var o := OriginOf(env, srv);
    var a := HeldToday(srv);
    OpensToday(env, srv);
    HeldFitsLog(env, srv, log);
    StateMatchesServer(env, srv, log);
    var s := StateAt(o, log, a);
    NextFollows(env, rules, o, srv, log, p);
    if !InLog(o, log, p) {
      LogGrows(env, rules, o, srv, log, p);
    }
    NoRedError(env, Today(srv), Highest(AllReceipts(srv.days)), s, p, latest);
    StateFacts(env, o, log, a);
    FollowsAdvances(env, s, p);
    CountersAdvance(s, p);
    TodayTaken(env, srv, p.receipt, latest);
    TakenShape(env, srv, p.receipt, latest);
    DaysHeld(env, srv, log);
    DaysTaken(env, srv, p.receipt, latest);
    LogWithTakes(env, rules, o, srv, log, p);
    ServerSteps(env, srv, Taken(env, srv, p.receipt, latest), log, LogWith(o, log, p), p);
  }

  lemma CountersAdvance(s: DayState, p: Prepared)
    requires Plain(p.after) == Advanced(Plain(s), p.receipt)
    ensures p.after.counters == Accumulated(s.counters, p.receipt.bill)
  {
    hide Accumulated;
  }

  lemma DaysHeld(env: Env, srv: Fdms, log: seq<Prepared>)
    requires ServerOk(env, srv, log)
    ensures forall k :: 0 <= k < |srv.days| ==> DayOk(env, srv.days[k])
  {
    hide DayOk;
  }

  lemma LogWithTakes(env: Env, rules: Rules, o: Origin, srv: Fdms, log: seq<Prepared>, p: Prepared)
    requires InLog(o, log, p) || Fits(env, rules, o, srv, log, p)
    ensures var l := LogWith(o, log, p);
            && 0 <= Index(o, p) < |l| && l[Index(o, p)] == p && (log == l || l == log + [p])
  {
    hide Follows;
  }

  lemma ServerSteps(env: Env, srv: Fdms, s: Fdms, log: seq<Prepared>, l: seq<Prepared>, p: Prepared)
    requires ServerOk(env, srv, log) && srv.days != []
    requires var a := HeldToday(srv); var o := OriginOf(env, srv);
      && a < |l| && l[a] == p && (log == l || l == log + [p])
      && p.receipt.globalNo == |AllReceipts(srv.days)| + 1
      && p.after.counters == Accumulated(StateAt(o, log, a).counters, p.receipt.bill)
    requires OriginOf(env, s) == OriginOf(env, srv) && AllReceipts(s.days) == AllReceipts(srv.days) + [p.receipt]
    requires s.days != [] && s.status == srv.status && s.closing == srv.closing
    requires Today(s).counters == Accumulated(Today(srv).counters, p.receipt.bill)
    requires HeldToday(s) == HeldToday(srv) + 1 && Today(s).receipts[..HeldToday(srv)] == Today(srv).receipts
    requires Today(s).receipts[HeldToday(srv)].receipt == p.receipt
    requires forall k :: 0 <= k < |s.days| ==> DayOk(env, s.days[k])
    ensures ServerOk(env, s, l)
  {
    hide AllReceipts, Today, OriginOf, DayOk, HoldsPrefix, Numbered, Accumulated;
    NumberedGrows(AllReceipts(srv.days), p.receipt);
    PrefixGrows(Today(srv), Today(s), log, l, p);
  }

  lemma NumberedGrows(rs: seq<Receipt>, r: Receipt)
    requires Numbered(rs) && r.globalNo == |rs| + 1
    ensures Numbered(rs + [r])
  {
  }

  lemma PrefixGrows(d: Day, e: Day, log: seq<Prepared>, l: seq<Prepared>, p: Prepared)
    requires HoldsPrefix(d, log) && (log == l || l == log + [p])
    requires |e.receipts| == |d.receipts| + 1 && e.receipts[..|d.receipts|] == d.receipts
    requires |d.receipts| < |l| && l[|d.receipts|] == p && e.receipts[|d.receipts|].receipt == p.receipt
    ensures HoldsPrefix(e, l)
  {
    forall i | 0 <= i < |e.receipts| ensures e.receipts[i].receipt == l[i].receipt {
      if i < |d.receipts| {
        assert e.receipts[..|d.receipts|][i] == d.receipts[i];
      }
    }
  }

  /** Every day stays without gaps and red errors. */
  lemma DaysTaken(env: Env, srv: Fdms, r: Receipt, latest: int)
    requires srv.days != [] && r.counter == |Today(srv).receipts| + 1
    requires forall k :: 0 <= k < |srv.days| ==> DayOk(env, srv.days[k])
    requires Answers(env, r, Errors(env, Today(srv), Highest(AllReceipts(srv.days)), r, latest))
    ensures var s := Taken(env, srv, r, latest); forall k :: 0 <= k < |s.days| ==> DayOk(env, s.days[k])
  {
    hide Errors, Accumulated, AllReceipts, Highest, Answers;
    assert DayOk(env, Today(srv));
    assert DayOk(env, Today(Taken(env, srv, r, latest)));
    hide DayOk;
  }

  /** Where the log stands towards the receipt in hand: it is an entry, or the next one. */
  predicate Placed(o: Origin, j: Journal, log: seq<Prepared>, p: Prepared) {
    InLog(o, log, p) || (Index(o, p) == |log| && Tail(j) == [])
  }

  lemma TakenJournal(o: Origin, srv: Fdms, s: Fdms, j: Journal, log: seq<Prepared>, p: Prepared)
    requires JournalOk(o, srv, j, log) && Placed(o, j, log, p) && Index(o, p) == HeldToday(srv)
    requires HeldToday(s) == HeldToday(srv) + 1 && s.status.DayOpened?
    requires AllReceipts(srv.days) <= AllReceipts(s.days)
    ensures JournalOk(o, s, j, LogWith(o, log, p))
  {
    hide AllReceipts, Increasing, HeldToday;
    HeldStays(AllReceipts(srv.days), AllReceipts(s.days), j);
    hide CommittedHeld;
  }

  lemma HeldStays(rs: seq<Receipt>, ts: seq<Receipt>, j: Journal)
    requires CommittedHeld(rs, j) && rs <= ts
    ensures CommittedHeld(ts, j)
  {
  }

  lemma TakenMarker(env: Env, rules: Rules, o: Origin, srv: Fdms, s: Fdms, j: Journal, log: seq<Prepared>, p: Prepared)
    requires MarkerOk(env, rules, o, srv, j, Some(p), log) && Placed(o, j, log, p) && Index(o, p) == HeldToday(srv)
    requires HeldToday(s) == HeldToday(srv) + 1 && s.status.DayOpened?
    ensures MarkerOk(env, rules, o, s, j, Some(p), LogWith(o, log, p))
  {
    hide HeldToday, AllBelow, Fits;
  }

  /** The device is one receipt behind, or was already where the log says. */
  lemma TakenMemory(o: Origin, w: World, s: Fdms, log: seq<Prepared>, p: Prepared)
    requires MemOk(o, w.journal, Some(p), w.mem, log)
    requires DiskOk(o, w.srv, w.journal, Some(p), w.disk.dayState, w.mem, log)
    requires LastOk(o, w.journal, Some(p), LastGlobal(w.disk), log)
    requires Placed(o, w.journal, log, p) && w.srv.status.DayOpened? && s.status.DayOpened? && s.days != []
    ensures MemOk(o, w.journal, Some(p), w.mem, LogWith(o, log, p))
    ensures DiskOk(o, s, w.journal, Some(p), w.disk.dayState, w.mem, LogWith(o, log, p))
    ensures LastOk(o, w.journal, Some(p), LastGlobal(w.disk), LogWith(o, log, p))
  {
  }

  lemma TakenOnce(env: Env, rules: Rules, o: Origin, srv: Fdms, s: Fdms, j: Journal, log: seq<Prepared>, p: Prepared)
    requires LogOk(env, o, log) && Opens(o) && JournalOk(o, srv, j, log) && OnceOk(rules, srv, j, Some(p), false, log)
    requires Placed(o, j, log, p) && Index(o, p) == HeldToday(srv) && HeldToday(s) == HeldToday(srv) + 1
    ensures OnceOk(rules, s, j, Some(p), false, LogWith(o, log, p))
  {
    if Tail(j) != [] {
      HeadInLog(env, o, srv, j, log);
    }
    hide LogOk, HeldToday, CommittedHeld, Increasing, AllBelow;
  }

  lemma TakenDates(env: Env, rules: Rules, o: Origin, srv: Fdms, s: Fdms, log: seq<Prepared>, p: Prepared)
    requires DatesOk(rules, srv, log) && Earlier(s) == Earlier(srv)
    requires InLog(o, log, p) || Fits(env, rules, o, srv, log, p)
    ensures DatesOk(rules, s, LogWith(o, log, p))
  {
    hide AllReceipts, Earlier, Follows;
  }

  /** What a receipt that was not answered means to submitOrEnqueue: it goes to the journal. */
  lemma ToJournal(env: Env, rules: Rules, o: Origin, w: World, v: World, log: seq<Prepared>, l: seq<Prepared>,
                  p: Prepared)
    requires MarkerOk(env, rules, o, v.srv, v.journal, Some(p), l)
    requires InHand(rules, v, p, Fallback) && SignedOn(v, p, Fallback)
    requires MemOk(o, v.journal, Some(p), v.mem, l) && v.pc == Appending(p)
    ensures PcOk(env, rules, o, v, l)
  {
    hide Fits, AllBelow;
  }

  lemma AnswerMayFollow(env: Env, p: Prepared, errors: seq<Code>)
    requires Answers(env, p.receipt, errors)
    ensures MayFollow(env, p, errors)
  {
  }

  lemma TakenPc(env: Env, rules: Rules, o: Origin, w: World, v: World, p: Prepared, via: Via, l: seq<Prepared>)
    requires InHand(rules, w, p, via) && SignedOn(w, p, via) && Index(o, p) < HeldToday(v.srv)
    requires v == w.(srv := v.srv, pc := v.pc)
    requires || (v.pc.Saving? && v.pc == Saving(p, via, v.pc.errors) && MayFollow(env, p, v.pc.errors))
             || v.pc == Idle || (via.Fallback? && v.pc == Appending(p))
    requires MarkerOk(env, rules, o, v.srv, v.journal, Some(p), l)
    requires MemOk(o, v.journal, Some(p), v.mem, l)
    ensures PcOk(env, rules, o, v, l)
  {
    hide MarkerOk, MemOk, HeldToday, MayFollow, Index;
    if v.pc.Appending? {
      ToJournal(env, rules, o, w, v, l, l, p);
    }
  }

  lemma TakenStep(env: Env, rules: Rules, o: Origin, w: World, s: Fdms, log: seq<Prepared>, p: Prepared)
    requires LogOk(env, o, log) && Opens(o)
    requires JournalOk(o, w.srv, w.journal, log) && MarkerOk(env, rules, o, w.srv, w.journal, Some(p), log)
    requires MemOk(o, w.journal, Some(p), w.mem, log)
    requires DiskOk(o, w.srv, w.journal, Some(p), w.disk.dayState, w.mem, log)
    requires LastOk(o, w.journal, Some(p), LastGlobal(w.disk), log)
    requires DatesOk(rules, w.srv, log) && OnceOk(rules, w.srv, w.journal, Some(p), false, log)
    requires w.srv.status.DayOpened? && s.status.DayOpened? && s.days != [] && Earlier(s) == Earlier(w.srv)
    requires Index(o, p) == HeldToday(w.srv) && HeldToday(s) == HeldToday(w.srv) + 1
    requires AllReceipts(w.srv.days) <= AllReceipts(s.days)
    ensures var l := LogWith(o, log, p);
      && JournalOk(o, s, w.journal, l) && MarkerOk(env, rules, o, s, w.journal, Some(p), l)
      && MemOk(o, w.journal, Some(p), w.mem, l)
      && DiskOk(o, s, w.journal, Some(p), w.disk.dayState, w.mem, l)
      && LastOk(o, w.journal, Some(p), LastGlobal(w.disk), l)
      && DatesOk(rules, s, l) && OnceOk(rules, s, w.journal, Some(p), false, l)
  {
    hide *;
    MarkedPlaced(env, rules, o, w.srv, w.journal, p, log);
    TakenJournal(o, w.srv, s, w.journal, log, p);
    TakenMarker(env, rules, o, w.srv, s, w.journal, log, p);
    TakenMemory(o, w, s, log, p);
    TakenOnce(env, rules, o, w.srv, s, w.journal, log, p);
    TakenDates(env, rules, o, w.srv, s, log, p);
  }

  lemma SendTaken(env: Env, rules: Rules, w: World, v: World, latest: int, log: seq<Prepared>)
    requires Inv(env, rules, w, log)
    requires w.pc.Sending? && w.srv.status.DayOpened? && Index(OriginOf(env, w.srv), w.pc.p) == HeldToday(w.srv)
    requires v == w.(srv := Taken(env, w.srv, w.pc.p.receipt, latest), pc := v.pc)
    requires
      || v.pc == Saving(w.pc.p, w.pc.via,
                        Errors(env, Today(w.srv), Highest(AllReceipts(w.srv.days)), w.pc.p.receipt, latest))
             || (!rules.AllAnswered? && (v.pc == Idle || (w.pc.via.Fallback? && v.pc == Appending(w.pc.p))))
    ensures Inv(env, rules, v, LogWith(OriginOf(env, w.srv), log, w.pc.p))
  {
    hide LogOk, Answers, ServerOk, Errors, Accumulated, Highest, AllReceipts, Taken, Today, Earlier, OriginOf,
      MayFollow, Placed, Fits, PcOk, InLog, JournalOk, QueueOk, MarkerOk, MemOk, DiskOk, LastOk, DatesOk, OnceOk,
      InHand, SignedOn, LogWith, Index, Opens, Tail, LastGlobal;
    var o, p, via := OriginOf(env, w.srv), w.pc.p, w.pc.via;
    SendingFacts(env, rules, w, log);
    MarkedPlaced(env, rules, o, w.srv, w.journal, p, log);
    ServerTakes(env, rules, w.srv, log, p, latest);
    TodayTaken(env, w.srv, p.receipt, latest);
    TakenShape(env, w.srv, p.receipt, latest);
    assert HeldToday(v.srv) == HeldToday(w.srv) + 1;
    hide HeldToday;
    TakenStep(env, rules, o, w, v.srv, log, p);
    AnswerMayFollow(env, p, Errors(env, Today(w.srv), Highest(AllReceipts(w.srv.days)), p.receipt, latest));
    TakenPc(env, rules, o, w, v, p, via, LogWith(o, log, p));
  }

  lemma SendingFacts(env: Env, rules: Rules, w: World, log: seq<Prepared>)
    requires Inv(env, rules, w, log) && w.pc.Sending?
    ensures w.disk.marker == Some(w.pc.p) && Opens(OriginOf(env, w.srv))
    ensures InHand(rules, w, w.pc.p, w.pc.via) && SignedOn(w, w.pc.p, w.pc.via)
    ensures Fresh(rules, OriginOf(env, w.srv), w.srv, w.pc.p)
    ensures 0 <= Index(OriginOf(env, w.srv), w.pc.p) <= HeldToday(w.srv)
    ensures !w.srv.status.DayOpened? ==> Index(OriginOf(env, w.srv), w.pc.p) >= HeldToday(w.srv)
    ensures w.srv.status.DayOpened? ==> w.srv.days != []
  {
    hide LogOk, JournalOk, QueueOk, MemOk, DiskOk, LastOk, DatesOk, OnceOk, AllBelow, Fits;
  }

  lemma MarkedPlaced(env: Env, rules: Rules, o: Origin, srv: Fdms, j: Journal, p: Prepared, log: seq<Prepared>)
    requires MarkerOk(env, rules, o, srv, j, Some(p), log)
    ensures Placed(o, j, log, p) && (InLog(o, log, p) || Fits(env, rules, o, srv, log, p))
  {
    hide Follows;
  }

  lemma {:induction false} NoDuplicate(stored: seq<Stored>, r: Receipt)
    requires forall i :: 0 <= i < |stored| ==> stored[i].receipt.globalNo != r.globalNo
    ensures Duplicate(stored, r).None?
  {
    if stored != [] {
      NoDuplicate(stored[1..], r);
    }
  }

  lemma {:induction false} FindsDuplicate(stored: seq<Stored>, r: Receipt, i: nat)
    requires i < |stored| && stored[i].receipt == r
    requires forall j :: 0 <= j < i ==> stored[j].receipt.globalNo != r.globalNo
    ensures Duplicate(stored, r) == Some(stored[i])
  {
    if i > 0 {
      FindsDuplicate(stored[1..], r, i - 1);
    }
  }

  /** Deduplication answers exactly the receipts that FDMS holds today, as it answered them first. */
  lemma SubmitSorts(env: Env, rules: Rules, srv: Fdms, log: seq<Prepared>, p: Prepared, latest: int)
    requires var o := OriginOf(env, srv);
      && ServerOk(env, srv, log) && Fresh(rules, o, srv, p) && 0 <= Index(o, p) <= HeldToday(srv)
      && (Index(o, p) < HeldToday(srv) ==> InLog(o, log, p))
    requires srv.status.DayOpened? ==> srv.days != []
    ensures var (s, response) := Server.Submit(env, rules.Dedup?, srv, p.receipt, latest);
      if !srv.status.DayOpened? then s == srv && response == Refused
      else if Index(OriginOf(env, srv), p) == HeldToday(srv) then
        s == Taken(env, srv, p.receipt, latest)
        && response == Accepted(Errors(env, Today(srv), Highest(AllReceipts(srv.days)), p.receipt, latest))
      else s == srv && response.Accepted? && Answers(env, p.receipt, response.errors)
  {
    hide Errors, AllReceipts, Highest, Taken, Answers, Duplicate, OriginOf, Today, Numbered, HoldsPrefix, DayOk,
      StateAt, Index, HeldToday;
    if srv.status.DayOpened? {
      DuplicateIff(env, srv, log, p);
    }
  }

  /** FDMS finds a duplicate of the receipt in hand exactly when it holds it today. */
  lemma DuplicateIff(env: Env, srv: Fdms, log: seq<Prepared>, p: Prepared)
    requires var o := OriginOf(env, srv);
      && ServerOk(env, srv, log) && srv.days != [] && 0 <= Index(o, p) <= HeldToday(srv)
      && (Index(o, p) < HeldToday(srv) ==> InLog(o, log, p))
    ensures
      var found, i := Duplicate(Today(srv).receipts, p.receipt), Index(OriginOf(env, srv), p);
      if i == HeldToday(srv) then found.None? else found.Some? && Answers(env, p.receipt, found.value.errors)
  {
    hide Errors, AllReceipts, Answers, Duplicate;
    var o, d := OriginOf(env, srv), Today(srv);
    AllIsEarlierAndToday(srv);
    forall i | 0 <= i < |d.receipts| ensures d.receipts[i].receipt.globalNo == o.base + i + 1 {
      assert AllReceipts(srv.days)[o.base + i] == d.receipts[i].receipt;
    }
    if Index(o, p) == HeldToday(srv) {
      NoDuplicate(d.receipts, p.receipt);
    } else {
      FindsDuplicate(d.receipts, p.receipt, Index(o, p));
      assert DayOk(env, d);
    }
  }

  /** A request that changed nothing at FDMS. */
  lemma SendUntaken(env: Env, rules: Rules, w: World, v: World, log: seq<Prepared>)
    requires Inv(env, rules, w, log)
    requires w.pc.Sending? && v == w.(pc := v.pc)
    requires
      var i, a := Index(OriginOf(env, w.srv), w.pc.p), HeldToday(w.srv);
      || (v.pc == Dropping(w.pc.p, w.pc.via) && i >= a)
      || (v.pc.Saving? && v.pc == Saving(w.pc.p, w.pc.via, v.pc.errors) && MayFollow(env, w.pc.p, v.pc.errors) && i < a)
      || (!rules.AllAnswered? && (v.pc == Idle || (w.pc.via.Fallback? && v.pc == Appending(w.pc.p))))
    ensures Inv(env, rules, v, log)
  {
    hide LogOk, ServerOk, AllReceipts, Today, Earlier, OriginOf, MayFollow, Placed, Fits, PcOk, InLog, HeldToday,
      Fresh, JournalOk, QueueOk, MarkerOk, MemOk, DiskOk, LastOk, DatesOk, OnceOk, InHand, SignedOn, Index, Opens,
      Tail, LastGlobal;
    SendingFacts(env, rules, w, log);
    UntakenPc(env, rules, OriginOf(env, w.srv), w, v, w.pc.p, w.pc.via, log);
  }

  lemma UntakenPc(env: Env, rules: Rules, o: Origin, w: World, v: World, p: Prepared, via: Via, l: seq<Prepared>)
    requires InHand(rules, w, p, via) && SignedOn(w, p, via) && v == w.(pc := v.pc)
    requires
      || (v.pc == Dropping(p, via) && Index(o, p) >= HeldToday(w.srv))
      || (v.pc.Saving? && v.pc == Saving(p, via, v.pc.errors) && MayFollow(env, p, v.pc.errors)
          && Index(o, p) < HeldToday(w.srv))
      || v.pc == Idle || (via.Fallback? && v.pc == Appending(p))
    requires MarkerOk(env, rules, o, v.srv, v.journal, Some(p), l)
    requires MemOk(o, v.journal, Some(p), v.mem, l)
    ensures PcOk(env, rules, o, v, l)
  {
    hide MarkerOk, MemOk, HeldToday, MayFollow, Index;
    if v.pc.Appending? {
      ToJournal(env, rules, o, w, v, l, l, p);
    }
  }

  /** Whatever becomes of a request, the log says what FDMS holds afterwards. */
  function LogAfterSend(env: Env, srv: Fdms, reached: bool, log: seq<Prepared>, p: Prepared): seq<Prepared> {
    if reached && srv.status.DayOpened? then LogWith(OriginOf(env, srv), log, p) else log
  }

  lemma KeepSend(env: Env, rules: Rules, w: World, v: World, fate: Fate, log: seq<Prepared>)
    requires Inv(env, rules, w, log)
    requires w.pc.Sending? && FateOk(rules, w.srv, w.pc.p.receipt, fate) && v == Sent(env, rules.Dedup?, w, fate)
    ensures Inv(env, rules, v, LogAfterSend(env, w.srv, fate.reached, log, w.pc.p))
  {
    hide LogOk, Answers, ServerOk, Errors, AllReceipts, Highest, Taken, Today, Earlier, OriginOf, MayFollow, Placed,
      Fits, PcOk, HeldToday, Fresh, JournalOk, QueueOk, MarkerOk, MemOk, DiskOk, LastOk, DatesOk, OnceOk, InHand,
      SignedOn, Index, Opens, Tail, LastGlobal, Server.Submit, Inv, InLog;
    var o, p := OriginOf(env, w.srv), w.pc.p;
    var i, a := Index(o, p), HeldToday(w.srv);
    SendingFacts(env, rules, w, log);
    SubmitSortsHere(env, rules, w, log, fate.latest);
    if fate.reached && w.srv.status.DayOpened? && i == a {
      SendTaken(env, rules, w, v, fate.latest, log);
    } else {
      if fate.failure.Some? && Transport.Refusal(fate.failure.value) {
        NotYetHeldHere(env, rules, w, log);
      }
      if v.pc.Saving? {
        AnswerMayFollow(env, p, v.pc.errors);
      }
      SendUntaken(env, rules, w, v, log);
    }
  }

  lemma SubmitSortsHere(env: Env, rules: Rules, w: World, log: seq<Prepared>, latest: int)
    requires Inv(env, rules, w, log) && w.pc.Sending?
    ensures Index(OriginOf(env, w.srv), w.pc.p) < HeldToday(w.srv) ==> InLog(OriginOf(env, w.srv), log, w.pc.p)
    ensures var (s, response) := Server.Submit(env, rules.Dedup?, w.srv, w.pc.p.receipt, latest);
      if !w.srv.status.DayOpened? then s == w.srv && response == Refused
      else if Index(OriginOf(env, w.srv), w.pc.p) == HeldToday(w.srv) then
        s == Taken(env, w.srv, w.pc.p.receipt, latest)
        && response == Accepted(Errors(env, Today(w.srv), Highest(AllReceipts(w.srv.days)), w.pc.p.receipt, latest))
      else s == w.srv && response.Accepted? && Answers(env, w.pc.p.receipt, response.errors)
  {
    hide LogOk, ServerOk, Errors, AllReceipts, Highest, Taken, Today, Earlier, OriginOf, MayFollow, PcOk, HeldToday,
      Fresh, JournalOk, QueueOk, MarkerOk, MemOk, DiskOk, LastOk, DatesOk, OnceOk, InHand, SignedOn, Index,
      Server.Submit, InLog;
    SendingFacts(env, rules, w, log);
    HeldInLog(env, rules, OriginOf(env, w.srv), w.srv, w.journal, w.pc.p, log);
    SubmitSorts(env, rules, w.srv, log, w.pc.p, latest);
  }

  lemma NotYetHeldHere(env: Env, rules: Rules, w: World, log: seq<Prepared>)
    requires Inv(env, rules, w, log) && w.pc.Sending? && w.pc.p.receipt !in AllReceipts(w.srv.days)
    ensures Index(OriginOf(env, w.srv), w.pc.p) >= HeldToday(w.srv)
  {
    hide LogOk, ServerOk, AllReceipts, OriginOf, PcOk, HeldToday, JournalOk, QueueOk, MarkerOk, MemOk, DiskOk, LastOk,
      DatesOk, OnceOk, InHand, SignedOn, Index, InLog;
    SendingFacts(env, rules, w, log);
    HeldInLog(env, rules, OriginOf(env, w.srv), w.srv, w.journal, w.pc.p, log);
    NotYetHeld(env, rules, w, w.pc.p, log);
  }

  lemma HeldInLog(env: Env, rules: Rules, o: Origin, srv: Fdms, j: Journal, p: Prepared, log: seq<Prepared>)
    requires MarkerOk(env, rules, o, srv, j, Some(p), log) && ServerOk(env, srv, log)
    ensures Index(o, p) < HeldToday(srv) ==> InLog(o, log, p)
  {
    hide Follows;
  }

  lemma NotYetHeld(env: Env, rules: Rules, w: World, p: Prepared, log: seq<Prepared>)
    requires var o := OriginOf(env, w.srv);
      && ServerOk(env, w.srv, log) && p.receipt !in AllReceipts(w.srv.days)
      && (Index(o, p) < HeldToday(w.srv) ==> InLog(o, log, p))
    ensures Index(OriginOf(env, w.srv), p) >= HeldToday(w.srv)
  {
    hide ServerOk, OriginOf, Index, InLog, AllReceipts;
    var o := OriginOf(env, w.srv);
    if Index(o, p) < HeldToday(w.srv) {
      NotHeldNotTaken(env, w.srv, log, p);
    }
  }

  // -- committing ----------------------------------------------------------

  /** An answer changes nothing of a day state but its red errors, and a clean one not even these. */
  lemma {:induction false} RedsOnly(s: DayState, p: Prepared, errors: seq<Code>)
    ensures Plain(WithReds(s, p, errors)) == Plain(s)
    ensures Clean(errors) ==> WithReds(s, p, errors) == s
  {
    if errors != [] {
      RedsOnly(s, p, errors[..|errors| - 1]);
    }
  }

  /** With nothing waiting in the journal, a taken marker is the end of the log. */
  lemma MarkerEndsLog(env: Env, rules: Rules, o: Origin, srv: Fdms, j: Journal, p: Prepared, log: seq<Prepared>)
    requires LogOk(env, o, log) && Opens(o)
    requires MarkerOk(env, rules, o, srv, j, Some(p), log) && Index(o, p) < HeldToday(srv) <= |log|
    ensures InLog(o, log, p) && p.after.globalNo == p.receipt.globalNo && AtLog(o, log, p.after)
    ensures Tail(j) == [] ==> p.receipt.globalNo == o.base + |log|
  {
    assert InLog(o, log, p) by { hide Follows, LogOk; }
    StateFacts(env, o, log, Index(o, p) + 1);
    hide LogOk, Fits;
  }

  lemma HeldFitsLog(env: Env, srv: Fdms, log: seq<Prepared>)
    requires ServerOk(env, srv, log)
    ensures HeldToday(srv) <= |log| && (log != [] ==> srv.days != [])
  {
  }

  lemma KeepWriteState(env: Env, rules: Rules, w: World, v: World, s: DayState, log: seq<Prepared>)
    requires Inv(env, rules, w, log)
    requires w.pc.Saving? && s == Committed(w.mem, w.pc.p, w.pc.errors)
    requires v == w.(mem := Some(s), disk := w.disk.(dayState := Some(s)), pc := SavingLast(w.pc.p, w.pc.via))
    ensures Inv(env, rules, v, log)
  {
    hide LogOk, ServerOk, AllReceipts, Today, Earlier, OriginOf, MayFollow, Fits, PcOk, HeldToday, AtHead, AtLog,
      WithReds, Plain, JournalOk, QueueOk, MarkerOk, MemOk, DiskOk, LastOk, DatesOk, OnceOk, InHand, Index, Opens,
      Tail;
    var o, p := OriginOf(env, w.srv), w.pc.p;
    SavingFacts(env, rules, w, log);
    HeldFitsLog(env, w.srv, log);
    var base := if w.mem.None? || w.mem.value.globalNo < p.receipt.globalNo then p.after else w.mem.value;
    RedsOnly(base, p, w.pc.errors);
    MarkerEndsLog(env, rules, o, w.srv, w.journal, p, log);
    StateWritten(o, w, v, p, base, s, log);
    SavedPc(env, rules, o, w, v, p, w.pc.via, log);
  }

  lemma SavingFacts(env: Env, rules: Rules, w: World, log: seq<Prepared>)
    requires Inv(env, rules, w, log) && (w.pc.Saving? || w.pc.SavingLast? || w.pc.Unmarking?)
    ensures w.disk.marker == Some(w.pc.p) && Opens(OriginOf(env, w.srv))
    ensures InHand(rules, w, w.pc.p, w.pc.via)
    ensures Index(OriginOf(env, w.srv), w.pc.p) < HeldToday(w.srv)
    ensures w.pc.Saving? ==> MayFollow(env, w.pc.p, w.pc.errors)
    ensures !w.pc.Saving? ==> Kept(w, w.pc.p)
    ensures w.pc.Unmarking? ==> LastGlobal(w.disk) >= w.mem.value.globalNo
  {
    hide LogOk, JournalOk, QueueOk, MemOk, DiskOk, LastOk, DatesOk, OnceOk, AllBelow, Fits;
  }

  lemma StateWritten(o: Origin, w: World, v: World, p: Prepared, base: DayState, s: DayState, log: seq<Prepared>)
    requires MemOk(o, w.journal, Some(p), w.mem, log)
    requires DiskOk(o, w.srv, w.journal, Some(p), w.disk.dayState, w.mem, log)
    requires AtLog(o, log, p.after) && p.after.globalNo == p.receipt.globalNo && w.srv.days != []
    requires Tail(w.journal) == [] ==> p.receipt.globalNo == o.base + |log|
    requires base == (if w.mem.None? || w.mem.value.globalNo < p.receipt.globalNo then p.after else w.mem.value)
    requires Plain(s) == Plain(base)
    requires v == w.(mem := Some(s), disk := w.disk.(dayState := Some(s)), pc := v.pc)
    ensures MemOk(o, w.journal, Some(p), v.mem, log)
    ensures DiskOk(o, w.srv, w.journal, Some(p), v.disk.dayState, v.mem, log)
    ensures Kept(v, p)
  {
    hide Tail;
  }

  lemma SavedPc(env: Env, rules: Rules, o: Origin, w: World, v: World, p: Prepared, via: Via, log: seq<Prepared>)
    requires InHand(rules, w, p, via) && Index(o, p) < HeldToday(w.srv) && Kept(v, p)
    requires v.disk.marker == w.disk.marker && v.queue == w.queue && v.journal == w.journal && v.srv == w.srv
    requires v.pc == SavingLast(p, via) || (v.pc == Unmarking(p, via) && LastGlobal(v.disk) >= v.mem.value.globalNo)
    ensures PcOk(env, rules, o, v, log)
  {
  }

  lemma KeepWriteLast(env: Env, rules: Rules, w: World, v: World, log: seq<Prepared>)
    requires Inv(env, rules, w, log)
    requires w.pc.SavingLast? && w.mem.Some?
    requires v == w.(disk := Raised(w.disk, w.mem.value.globalNo), pc := Unmarking(w.pc.p, w.pc.via))
    ensures Inv(env, rules, v, log)
  {
    hide LogOk, ServerOk, AllReceipts, Today, Earlier, OriginOf, MayFollow, Fits, PcOk, HeldToday, AtHead, AtLog,
      JournalOk, QueueOk, MarkerOk, MemOk, DiskOk, LastOk, DatesOk, OnceOk, InHand, Index, Opens, Tail;
    var o, p := OriginOf(env, w.srv), w.pc.p;
    SavingFacts(env, rules, w, log);
    HeldFitsLog(env, w.srv, log);
    MarkerEndsLog(env, rules, o, w.srv, w.journal, p, log);
    LastWritten(o, w, log, true);
    SavedPc(env, rules, o, w, v, p, w.pc.via, log);
  }

  /** Raising the stored number keeps it within the log. */
  lemma LastWritten(o: Origin, w: World, log: seq<Prepared>, marked: bool)
    requires w.mem.Some? && MemOk(o, w.journal, w.disk.marker, w.mem, log)
    requires LastOk(o, w.journal, w.disk.marker, LastGlobal(w.disk), log)
    requires if marked then MarkerInLog(o, w.disk.marker, log) else Tail(w.journal) != []
    ensures var d := Raised(w.disk, w.mem.value.globalNo);
            LastOk(o, w.journal, w.disk.marker, LastGlobal(d), log) && LastGlobal(d) >= w.mem.value.globalNo
  {
  }

  lemma KeepClearMarker(env: Env, rules: Rules, w: World, v: World, log: seq<Prepared>)
    requires Inv(env, rules, w, log)
    requires w.pc.Unmarking?
    requires v == w.(disk := w.disk.(marker := None), pc := AfterMarker(w.pc.p, w.pc.via))
    ensures Inv(env, rules, v, log)
  {
    hide LogOk, ServerOk, AllReceipts, Today, Earlier, OriginOf, MayFollow, Fits, PcOk, HeldToday, AtHead, AtLog,
      JournalOk, QueueOk, MarkerOk, MemOk, DiskOk, LastOk, DatesOk, OnceOk, InHand, Index, Opens, Tail, Kept;
    var o, p := OriginOf(env, w.srv), w.pc.p;
    SavingFacts(env, rules, w, log);
    HeldFitsLog(env, w.srv, log);
    MarkerEndsLog(env, rules, o, w.srv, w.journal, p, log);
    MarkerGone(env, rules, o, w, p, log);
    OnceCleared(rules, w, p, w.pc.via, log);
    ClearedPc(env, rules, o, w, v, p, w.pc.via, log);
  }

  lemma MarkerGone(env: Env, rules: Rules, o: Origin, w: World, p: Prepared, log: seq<Prepared>)
    requires MemOk(o, w.journal, Some(p), w.mem, log)
    requires DiskOk(o, w.srv, w.journal, Some(p), w.disk.dayState, w.mem, log)
    requires LastOk(o, w.journal, Some(p), LastGlobal(w.disk), log)
    requires Kept(w, p) && LastGlobal(w.disk) >= w.mem.value.globalNo
    requires Tail(w.journal) == [] ==> p.receipt.globalNo == o.base + |log|
    ensures MemOk(o, w.journal, None, w.mem, log)
    ensures DiskOk(o, w.srv, w.journal, None, w.disk.dayState, w.mem, log)
    ensures LastOk(o, w.journal, None, LastGlobal(w.disk), log)
    ensures MarkerOk(env, rules, o, w.srv, w.journal, None, log)
  {
    hide Tail;
  }

  lemma OnceCleared(rules: Rules, w: World, p: Prepared, via: Via, log: seq<Prepared>)
    requires InHand(rules, w, p, via) && OnceOk(rules, w.srv, w.journal, Some(p), false, log)
    ensures OnceOk(rules, w.srv, w.journal, None, via.Flush?, log)
  {
  }

  lemma ClearedPc(env: Env, rules: Rules, o: Origin, w: World, v: World, p: Prepared, via: Via, log: seq<Prepared>)
    requires InHand(rules, w, p, via) && Index(o, p) < HeldToday(w.srv) && Kept(w, p)
    requires LastGlobal(w.disk) >= w.mem.value.globalNo
    requires v == w.(disk := w.disk.(marker := None), pc := AfterMarker(p, via))
    ensures PcOk(env, rules, o, v, log)
  {
  }

  // -- the journal's cursor ------------------------------------------------

  lemma KeepCommitJournal(env: Env, rules: Rules, w: World, v: World, log: seq<Prepared>)
    requires Inv(env, rules, w, log)
    requires w.pc.Advancing? && w.queue.pending != []
    requires v == w.(journal := w.journal.(cursor := Max(w.journal.cursor, w.queue.pending[0].cursor + 1)),
                     queue := w.queue.(pending := w.queue.pending[1..]), pc := Idle)
    ensures Inv(env, rules, v, log)
  {
    hide LogOk, ServerOk, AllReceipts, Today, Earlier, OriginOf, MayFollow, Fits, HeldToday, AtLog, JournalOk, MemOk,
      DiskOk, LastOk, DatesOk, OnceOk, Index, Opens, Tail;
    var o, p := OriginOf(env, w.srv), w.pc.p;
    OpensToday(env, w.srv);
    HeadInLog(env, o, w.srv, w.journal, log);
    TakenAreHeld(env, w.srv, log, p);
    CursorMoves(o, w, v, p, log);
    hide Kept, AtHead, MarkerOk, QueueOk;
    assert Tail(v.journal) == [] ==> p.receipt.globalNo == o.base + |log| by { LastMoves(o, w, v, p, log); }
    MemoryMoves(o, w, v, p, log);
    OnceMoves(rules, o, w, v, p, log);
  }

  lemma CursorMoves(o: Origin, w: World, v: World, p: Prepared, log: seq<Prepared>)
    requires JournalOk(o, w.srv, w.journal, log) && QueueOk(w.journal, w.queue, false)
    requires AtHead(w, p) && Index(o, p) == Begun(w.journal, log) && Index(o, p) < HeldToday(w.srv)
    requires HeldAs(AllReceipts(w.srv.days), p.receipt)
    requires w.queue.pending != []
    requires v.srv == w.srv && v.queue == w.queue.(pending := w.queue.pending[1..])
    requires v.journal == w.journal.(cursor := Max(w.journal.cursor, w.queue.pending[0].cursor + 1))
    ensures v.journal.cursor == w.journal.cursor + 1 && Tail(v.journal) == Tail(w.journal)[1..]
    ensures JournalOk(o, v.srv, v.journal, log) && QueueOk(v.journal, v.queue, false)
  {
    hide AllReceipts, HeldAs, Increasing, AllBelow, HeldToday, Index;
    assert w.queue.pending[0].cursor == w.journal.cursor;
    assert Tail(w.journal)[1..] == w.journal.records[w.journal.cursor + 1..];
    assert log[Begun(w.journal, log)..][1..] == log[Begun(w.journal, log) + 1..];
  }

  /** When the head is all that is left it is the end of the log. */
  lemma LastMoves(o: Origin, w: World, v: World, p: Prepared, log: seq<Prepared>)
    requires Index(o, p) == Begun(w.journal, log) && Tail(w.journal) != [] && Tail(v.journal) == Tail(w.journal)[1..]
    ensures Tail(v.journal) == [] ==> p.receipt.globalNo == o.base + |log|
  {
    hide Tail;
  }

  lemma MemoryMoves(o: Origin, w: World, v: World, p: Prepared, log: seq<Prepared>)
    requires MemOk(o, w.journal, None, w.mem, log)
    requires DiskOk(o, w.srv, w.journal, None, w.disk.dayState, w.mem, log)
    requires LastOk(o, w.journal, None, LastGlobal(w.disk), log)
    requires Kept(w, p) && LastGlobal(w.disk) >= w.mem.value.globalNo && Tail(w.journal) != []
    requires Tail(v.journal) == [] ==> p.receipt.globalNo == o.base + |log|
    ensures MemOk(o, v.journal, None, w.mem, log)
    ensures DiskOk(o, w.srv, v.journal, None, w.disk.dayState, w.mem, log)
    ensures LastOk(o, v.journal, None, LastGlobal(w.disk), log)
  {
    hide Tail;
  }

  lemma OnceMoves(rules: Rules, o: Origin, w: World, v: World, p: Prepared, log: seq<Prepared>)
    requires OnceOk(rules, w.srv, w.journal, None, true, log) && v.srv == w.srv
    requires Tail(w.journal) != [] && Tail(v.journal) == Tail(w.journal)[1..]
    requires Begun(w.journal, log) < HeldToday(w.srv)
    ensures OnceOk(rules, v.srv, v.journal, None, false, log)
  {
    hide Tail, HeldToday;
  }

  // -- taking a receipt into the journal -----------------------------------

  /** A receipt about to be journaled is the next entry, or the one FDMS took unseen. */
  predicate Appendable(o: Origin, w: World, p: Prepared, log: seq<Prepared>) {
    && w.queue.loaded && w.mem.Some? && w.mem.value.globalNo + 1 == p.receipt.globalNo
    && AllBelow(w.journal.records, p.receipt.globalNo)
    && (if w.mem.value.globalNo == o.base + |log| then
          Index(o, p) == |log|
          && (w.disk.marker.Some? && Index(o, w.disk.marker.value) == |log| ==> w.disk.marker.value == p)
        else w.disk.marker == Some(p) && BehindMarker(o, w.journal, w.disk.marker, log, w.mem.value.globalNo))
  }

  lemma AppendingFacts(env: Env, rules: Rules, w: World, log: seq<Prepared>)
    requires Inv(env, rules, w, log) && w.pc.Appending?
    ensures Appendable(OriginOf(env, w.srv), w, w.pc.p, log) && Opens(OriginOf(env, w.srv))
    ensures w.mem.value.globalNo == OriginOf(env, w.srv).base + |log| ==>
              Fits(env, rules, OriginOf(env, w.srv), w.srv, log, w.pc.p)
    ensures w.mem.Some? && w.srv.days != [] && (rules.AllAnswered? ==> w.disk.marker.None?)
  {
    hide LogOk, ServerOk, JournalOk, QueueOk, MarkerOk, LastOk, DatesOk, OnceOk, AllBelow, Follows, OriginOf, AtLog;
    OpensToday(env, w.srv);
  }

  lemma KeepAppend(env: Env, rules: Rules, w: World, v: World, log: seq<Prepared>)
    requires Inv(env, rules, w, log)
    requires w.pc.Appending?
    requires v == w.(journal := w.journal.(records := w.journal.records + [w.pc.p]), pc := Applying(w.pc.p))
    ensures Inv(env, rules, v, LogWith(OriginOf(env, w.srv), log, w.pc.p))
  {
    hide LogOk, ServerOk, AllReceipts, Today, Earlier, OriginOf, MayFollow, Fits, HeldToday, AtLog, PcOk, InLog,
      JournalOk, QueueOk, MarkerOk, MemOk, DiskOk, LastOk, DatesOk, OnceOk, Index, Opens, Tail, Appendable,
      LastGlobal;
    var o, p := OriginOf(env, w.srv), w.pc.p;
    var l := LogWith(o, log, p);
    AppendingFacts(env, rules, w, log);
    HeldFitsLog(env, w.srv, log);
    CursorFits(o, w.srv, w.journal, log);
    LogAppended(env, rules, o, w.srv, w, log, p);
    hide LogWith;
    TailAppended(w.journal, p);
    JournalAppended(env, rules, o, w, v, log, p);
    MarkerAppended(env, rules, o, w, v, log, p);
    MemoryAppended(env, rules, o, w, v, log, p);
    OnceAppended(env, rules, o, w, v, log, p);
    AppendedPc(env, rules, o, w, v, log, p);
  }

  lemma LogAppended(env: Env, rules: Rules, o: Origin, srv: Fdms, w: World, log: seq<Prepared>, p: Prepared)
    requires o == OriginOf(env, srv) && LogOk(env, o, log) && ServerOk(env, srv, log) && Opens(o)
    requires DatesOk(rules, srv, log)
    requires srv.days != [] && Appendable(o, w, p, log) && w.mem.Some?
    requires w.mem.value.globalNo == o.base + |log| ==> Fits(env, rules, o, srv, log, p)
    ensures var l := LogWith(o, log, p);
            LogOk(env, o, l) && ServerOk(env, srv, l) && DatesOk(rules, srv, l)
  {
    hide ServerOk, LogOk, OriginOf, AllReceipts, Today, Earlier, LaterThanEarlierDays, DatesOk, Fits;
    if !InLog(o, log, p) {
      LogGrows(env, rules, o, srv, log, p);
      ServerAndNext(env, srv, log, p);
      TakenDates(env, rules, o, srv, srv, log, p);
    }
  }

  /** An entry that FDMS has not seen changes nothing on its side. */
  lemma ServerAndNext(env: Env, srv: Fdms, log: seq<Prepared>, p: Prepared)
    requires ServerOk(env, srv, log) && srv.days != []
    ensures ServerOk(env, srv, log + [p])
  {
    hide OriginOf, AllReceipts, Today, DayOk, Numbered;
    assert HoldsPrefix(Today(srv), log + [p]);
    hide HoldsPrefix;
  }

  lemma CursorFits(o: Origin, srv: Fdms, j: Journal, log: seq<Prepared>)
    requires JournalOk(o, srv, j, log)
    ensures j.cursor <= |j.records|
  {
  }

  lemma TailAppended(j: Journal, p: Prepared)
    requires j.cursor <= |j.records|
    ensures Tail(j.(records := j.records + [p])) == Tail(j) + [p]
  {
  }

  lemma JournalAppended(env: Env, rules: Rules, o: Origin, w: World, v: World, log: seq<Prepared>, p: Prepared)
    requires JournalOk(o, w.srv, w.journal, log) && QueueOk(w.journal, w.queue, false) && Appendable(o, w, p, log)
    requires MarkerOk(env, rules, o, w.srv, w.journal, w.disk.marker, log) && HeldToday(w.srv) <= |log|
    requires v == w.(journal := w.journal.(records := w.journal.records + [p]), pc := v.pc)
    requires Tail(v.journal) == Tail(w.journal) + [p]
    ensures JournalOk(o, v.srv, v.journal, LogWith(o, log, p)) && QueueOk(v.journal, v.queue, true)
  {
    hide AllReceipts, HeldToday, Tail, Follows, HeldAs;
    var l := LogWith(o, log, p);
    assert Tail(v.journal)[..|Tail(v.journal)| - 1] == Tail(w.journal);
    assert Tail(v.journal) == l[Begun(v.journal, l)..];
    assert CommittedHeld(AllReceipts(v.srv.days), v.journal);
  }

  lemma MarkerAppended(env: Env, rules: Rules, o: Origin, w: World, v: World, log: seq<Prepared>, p: Prepared)
    requires MarkerOk(env, rules, o, w.srv, w.journal, w.disk.marker, log) && Appendable(o, w, p, log)
    requires v == w.(journal := w.journal.(records := w.journal.records + [p]), pc := v.pc)
    requires Tail(v.journal) == Tail(w.journal) + [p]
    ensures MarkerOk(env, rules, o, v.srv, v.journal, v.disk.marker, LogWith(o, log, p))
  {
    hide HeldToday, Tail, Follows, AllBelow;
  }

  lemma MemoryAppended(env: Env, rules: Rules, o: Origin, w: World, v: World, log: seq<Prepared>, p: Prepared)
    requires MemOk(o, w.journal, w.disk.marker, w.mem, log) && Appendable(o, w, p, log)
    requires DiskOk(o, w.srv, w.journal, w.disk.marker, w.disk.dayState, w.mem, log)
    requires LastOk(o, w.journal, w.disk.marker, LastGlobal(w.disk), log)
    requires v == w.(journal := w.journal.(records := w.journal.records + [p]), pc := v.pc)
    requires Tail(v.journal) == Tail(w.journal) + [p]
    ensures MemOk(o, v.journal, v.disk.marker, v.mem, LogWith(o, log, p))
    ensures DiskOk(o, v.srv, v.journal, v.disk.marker, v.disk.dayState, v.mem, LogWith(o, log, p))
    ensures LastOk(o, v.journal, v.disk.marker, LastGlobal(v.disk), LogWith(o, log, p))
  {
    hide Tail, AllBelow;
  }

  lemma OnceAppended(env: Env, rules: Rules, o: Origin, w: World, v: World, log: seq<Prepared>, p: Prepared)
    requires OnceOk(rules, w.srv, w.journal, w.disk.marker, false, log) && Appendable(o, w, p, log)
    requires JournalOk(o, w.srv, w.journal, log) && HeldToday(w.srv) <= |log|
    requires v == w.(journal := w.journal.(records := w.journal.records + [p]), pc := v.pc)
    requires Tail(v.journal) == Tail(w.journal) + [p]
    ensures OnceOk(rules, v.srv, v.journal, v.disk.marker, false, LogWith(o, log, p))
  {
    hide Tail, AllBelow, CommittedHeld, Increasing, HeldToday;
  }

  lemma AppendedPc(env: Env, rules: Rules, o: Origin, w: World, v: World, log: seq<Prepared>, p: Prepared)
    requires Appendable(o, w, p, log)
    requires v == w.(journal := w.journal.(records := w.journal.records + [p]), pc := Applying(p))
    requires Tail(v.journal) == Tail(w.journal) + [p]
    ensures PcOk(env, rules, o, v, LogWith(o, log, p))
  {
    hide Tail, AllBelow, BehindMarker;
  }

  lemma KeepApplyState(env: Env, rules: Rules, w: World, v: World, log: seq<Prepared>)
    requires Inv(env, rules, w, log)
    requires w.pc.Applying?
    requires v == w.(mem := Some(w.pc.p.after), disk := w.disk.(dayState := Some(w.pc.p.after)),
                     pc := ApplyingLast(w.pc.p))
    ensures Inv(env, rules, v, log)
  {
    hide LogOk, ServerOk, AllReceipts, Today, Earlier, OriginOf, Fits, HeldToday, AtLog, JournalOk, MarkerOk, MemOk,
      DiskOk, LastOk, DatesOk, OnceOk, Index, Opens, Tail;
    var o, p := OriginOf(env, w.srv), w.pc.p;
    OpensToday(env, w.srv);
    HeldFitsLog(env, w.srv, log);
    HeadInLog(env, o, w.srv, w.journal, log);
    StateApplied(env, o, w, v, p, log);
    hide QueueOk;
  }

  lemma StateApplied(env: Env, o: Origin, w: World, v: World, p: Prepared, log: seq<Prepared>)
    requires LogOk(env, o, log) && Opens(o) && w.srv.days != []
    requires Tail(w.journal) != [] && log != [] && p == log[|log| - 1]
    requires v == w.(mem := Some(p.after), disk := w.disk.(dayState := Some(p.after)), pc := v.pc)
    ensures MemOk(o, v.journal, v.disk.marker, v.mem, log)
    ensures DiskOk(o, v.srv, v.journal, v.disk.marker, v.disk.dayState, v.mem, log)
  {
    StateFacts(env, o, log, |log|);
    hide LogOk, Tail;
  }

  lemma KeepApplyLast(env: Env, rules: Rules, w: World, v: World, log: seq<Prepared>)
    requires Inv(env, rules, w, log)
    requires w.pc.ApplyingLast? && w.mem.Some?
    requires
      var item := Queued(w.journal.cursor + |w.queue.pending|, w.pc.p);
      v == w.(disk := Raised(w.disk, w.mem.value.globalNo),
              queue := w.queue.(pending := w.queue.pending + [item]), pc := Idle)
    ensures Inv(env, rules, v, log)
  {
    hide LogOk, ServerOk, AllReceipts, Today, Earlier, OriginOf, Fits, HeldToday, AtLog, JournalOk, MarkerOk, MemOk,
      DiskOk, LastOk, DatesOk, OnceOk, Index, Opens, Tail, QueueOk;
    var o := OriginOf(env, w.srv);
    LastWritten(o, w, log, false);
    Listed(w, v, w.pc.p);
  }

  /** The receipt joins the list at its place in the journal. */
  lemma Listed(w: World, v: World, p: Prepared)
    requires QueueOk(w.journal, w.queue, true) && w.queue.loaded && Tail(w.journal) != []
    requires Tail(w.journal)[|Tail(w.journal)| - 1] == p && v.journal == w.journal
    requires v.queue == w.queue.(pending := w.queue.pending + [Queued(w.journal.cursor + |w.queue.pending|, p)])
    ensures QueueOk(v.journal, v.queue, false)
  {
    hide Tail;
  }
}
