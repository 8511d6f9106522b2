/** What every reachable world of the protocol satisfies. */
module Invariant {
  import opened Text
  import opened Options
  import opened Ledger
  import opened Counters
  import opened Receipts
  import opened Server
  import opened Protocol

  /** Where the current day began: after how many receipts, and in which state. */
  datatype Origin = Origin(base: nat, opening: DayState)

  function OriginOf(env: Env, srv: Fdms): Origin {
    var base := |AllReceipts(Earlier(srv))|;
    Origin(base, FirstState(env, Today(srv).no, Today(srv).openedAt, base))
  }

  /**
   * The log of a day: every receipt that FDMS holds or the journal holds, in
   * number order. It exists only in the proof. StateAt(o, log, j) is the day
   * state after the first j of them, but for red errors.
   */
  function StateAt(o: Origin, log: seq<Prepared>, j: nat): DayState
    requires j <= |log|
  {
    Plain(if j == 0 then o.opening else log[j - 1].after)
  }

  ghost predicate Entry(env: Env, o: Origin, log: seq<Prepared>, j: nat)
    requires j < |log|
  {
    && Follows(env, StateAt(o, log, j), log[j])
    && log[j].after.counter == j + 1 && log[j].after.globalNo == o.base + j + 1
    && log[j].after.dayNo == o.opening.dayNo && log[j].after.dayDate == o.opening.dayDate
    && Built(log[j].after.counters)
  }

  ghost predicate EntriesOk(env: Env, o: Origin, log: seq<Prepared>) {
    forall j :: 0 <= j < |log| ==> Entry(env, o, log, j)
  }

  predicate DatesIncrease(log: seq<Prepared>) {
    forall i, j :: 0 <= i < j < |log| ==> log[i].receipt.date < log[j].receipt.date
  }

  ghost predicate LogOk(env: Env, o: Origin, log: seq<Prepared>) {
    EntriesOk(env, o, log) && DatesIncrease(log)
  }

  /** How many receipts of today FDMS holds, and how many log entries are not waiting in the journal. */
  function HeldToday(srv: Fdms): nat { |Today(srv).receipts| }
  function Begun(j: Journal, log: seq<Prepared>): int { |log| - |Tail(j)| }

  /** A receipt's position in the log. */
  function Index(o: Origin, p: Prepared): int { p.receipt.globalNo - o.base - 1 }

  predicate InLog(o: Origin, log: seq<Prepared>, p: Prepared) {
    0 <= Index(o, p) < |log| && log[Index(o, p)] == p
  }

  /** A signed receipt that may become the next entry. */
  ghost predicate Fits(env: Env, rules: Rules, o: Origin, srv: Fdms, log: seq<Prepared>, p: Prepared) {
    && Index(o, p) == |log|
    && Follows(env, StateAt(o, log, |log|), p)
    && (rules.Ordered? ==> LaterThanEarlierDays(srv, p.receipt.date))
  }

  // -- the server ----------------------------------------------------------

  /** Counted from one, and red for an unknown tax ID only. */
  predicate DayOk(env: Env, d: Day) {
    forall i :: 0 <= i < |d.receipts| ==>
      && d.receipts[i].receipt.counter == i + 1
      && Answers(env, d.receipts[i].receipt, d.receipts[i].errors)
  }

  /** Errors that FDMS gives a receipt of this protocol: red exactly for an unknown tax ID. */
  predicate Answers(env: Env, r: Receipt, errors: seq<Code>) {
    Passes(errors, true) && (Clean(errors) <==> TaxesKnown(env, r.bill))
  }

  predicate Numbered(rs: seq<Receipt>) {
    forall i :: 0 <= i < |rs| ==> rs[i].globalNo == i + 1
  }

  predicate HoldsPrefix(d: Day, log: seq<Prepared>) {
    && |d.receipts| <= |log|
    && forall i :: 0 <= i < |d.receipts| ==> d.receipts[i].receipt == log[i].receipt
  }

  ghost predicate ServerOk(env: Env, srv: Fdms, log: seq<Prepared>) {
    && HoldsPrefix(Today(srv), log)
    && Today(srv).counters == StateAt(OriginOf(env, srv), log, HeldToday(srv)).counters
    && Numbered(AllReceipts(srv.days))
    && (forall k :: 0 <= k < |srv.days| ==> DayOk(env, srv.days[k]))
    && (srv.closing.Some? <==> srv.status.CloseInitiated?)
    && (srv.days == [] ==> srv.status.DayClosed? && log == [])
  }

  // -- the journal and the queue's list ------------------------------------

  predicate HeldAs(rs: seq<Receipt>, r: Receipt) {
    1 <= r.globalNo <= |rs| && rs[r.globalNo - 1] == r
  }

  predicate Increasing(records: seq<Prepared>) {
    forall i, j :: 0 <= i < j < |records| ==> records[i].receipt.globalNo < records[j].receipt.globalNo
  }

  predicate AllBelow(records: seq<Prepared>, n: int) {
    forall i :: 0 <= i < |records| ==> records[i].receipt.globalNo < n
  }

  predicate CommittedHeld(rs: seq<Receipt>, j: Journal) {
    forall i :: 0 <= i < j.cursor && i < |j.records| ==> HeldAs(rs, j.records[i].receipt)
  }

  predicate JournalOk(o: Origin, srv: Fdms, j: Journal, log: seq<Prepared>) {
    && j.cursor <= |j.records|
    && 0 <= Begun(j, log) <= HeldToday(srv)
    && Tail(j) == log[Begun(j, log)..]
    && (!srv.status.DayOpened? ==> Begun(j, log) == HeldToday(srv))
    && AllBelow(j.records, o.base + |log| + 1) && Increasing(j.records)
    && CommittedHeld(AllReceipts(srv.days), j)
  }

  /** While a receipt is being applied it is in the journal but not yet in the list. */
  predicate QueueOk(j: Journal, q: Queue, applying: bool) {
    if !q.loaded then q.pending == []
    else if applying then Tail(j) != [] && q.pending == Indexed(j.cursor, Tail(j)[..|Tail(j)| - 1])
    else q.pending == Indexed(j.cursor, Tail(j))
  }

  // -- the device ----------------------------------------------------------

  /** The marker holds an entry of the log whose turn has come, or the next one. */
  ghost predicate MarkerOk(env: Env, rules: Rules, o: Origin, srv: Fdms, j: Journal, marker: Option<Prepared>,
                           log: seq<Prepared>) {
    marker.Some? ==>
      && Begun(j, log) <= Index(o, marker.value) + 1 && 0 <= Index(o, marker.value) <= HeldToday(srv)
      && (InLog(o, log, marker.value) || (Fits(env, rules, o, srv, log, marker.value) && Tail(j) == []))
      && (Tail(j) == [] ==> AllBelow(j.records, marker.value.receipt.globalNo))
      && (!srv.status.DayOpened? ==> Index(o, marker.value) >= HeldToday(srv))
  }

  /** A state that some entry of the log led to. */
  predicate AtLog(o: Origin, log: seq<Prepared>, s: DayState) {
    o.base <= s.globalNo <= o.base + |log| && Plain(s) == StateAt(o, log, s.globalNo - o.base)
  }

  predicate MarkerInLog(o: Origin, marker: Option<Prepared>, log: seq<Prepared>) {
    marker.Some? && InLog(o, log, marker.value)
  }

  /** FDMS has taken a direct submit that the device does not know of yet: the marker says so. */
  predicate BehindMarker(o: Origin, j: Journal, marker: Option<Prepared>, log: seq<Prepared>, n: nat) {
    MarkerInLog(o, marker, log) && Tail(j) == [] && n + 1 == marker.value.receipt.globalNo == o.base + |log|
  }

  predicate MemOk(o: Origin, j: Journal, marker: Option<Prepared>, mem: Option<DayState>, log: seq<Prepared>) {
    mem.Some? ==>
      && AtLog(o, log, mem.value)
      && (mem.value.globalNo < o.base + |log| ==> Tail(j) != [] || BehindMarker(o, j, marker, log, mem.value.globalNo))
  }

  predicate DiskOk(o: Origin, srv: Fdms, j: Journal, marker: Option<Prepared>, dayState: Option<DayState>,
                   mem: Option<DayState>, log: seq<Prepared>) {
    if dayState.None? then mem.None? && srv.status.DayClosed? && Tail(j) == []
    else
      && AtLog(o, log, dayState.value) && srv.days != []
      && (dayState.value.globalNo < o.base + |log| ==>
            Tail(j) != [] || BehindMarker(o, j, marker, log, dayState.value.globalNo))
  }

  predicate LastOk(o: Origin, j: Journal, marker: Option<Prepared>, last: nat, log: seq<Prepared>) {
    && last <= o.base + |log|
    && (Tail(j) == [] && !MarkerInLog(o, marker, log) ==> last == o.base + |log|)
  }

  // -- the place in the program --------------------------------------------

  predicate AtHead(w: World, p: Prepared) {
    w.queue.loaded && Tail(w.journal) != [] && Tail(w.journal)[0] == p
  }

  /** Without deduplication nothing that FDMS holds is ever sent. */
  predicate Fresh(rules: Rules, o: Origin, srv: Fdms, p: Prepared) {
    rules.Dedup? || Index(o, p) >= HeldToday(srv)
  }

  /** reconcile() after a start never settles the head of the journal, unless FDMS deduplicates. */
  predicate NotHead(rules: Rules, j: Journal, p: Prepared, via: Via) {
    via.Startup? && !rules.Dedup? ==> Tail(j) == [] || Tail(j)[0].receipt.globalNo != p.receipt.globalNo
  }

  /** The marker of the receipt in hand, and whose business it is. */
  predicate InHand(rules: Rules, w: World, p: Prepared, via: Via) {
    && w.disk.marker == Some(p)
    && (via.Flush? ==> AtHead(w, p))
    && (via.Direct? || via.Fallback? ==> Tail(w.journal) == [])
    && NotHead(rules, w.journal, p, via)
  }

  /** A direct submit keeps the state it was signed on until it commits. */
  predicate SignedOn(w: World, p: Prepared, via: Via) {
    && (via.Direct? || via.Fallback? ==> w.mem.Some? && w.mem.value.globalNo + 1 == p.receipt.globalNo)
    && (via.Fallback? ==> w.queue.loaded)
  }

  /** The day state is stored and covers the receipt. */
  predicate Kept(w: World, p: Prepared) {
    w.mem.Some? && w.disk.dayState == w.mem && w.mem.value.globalNo >= p.receipt.globalNo
  }

  /** What an answer, or none, says of a receipt: nothing red but an unknown tax ID. */
  predicate MayFollow(env: Env, p: Prepared, errors: seq<Code>) {
    Passes(errors, true) && (TaxesKnown(env, p.receipt.bill) ==> Clean(errors))
  }

  ghost predicate PcOk(env: Env, rules: Rules, o: Origin, w: World, log: seq<Prepared>) {
    match w.pc
    case Idle => true
    case Marking(p, via) =>
      && w.disk.marker.None? && !via.Startup?
      && (if via.Flush? then AtHead(w, p)
          else Tail(w.journal) == [] && SignedOn(w, p, via) && Fits(env, rules, o, w.srv, log, p))
    case Asking(p, via) =>
      InHand(rules, w, p, via) && (via.Startup? || via.Flush?)
    case Sending(p, via) =>
      InHand(rules, w, p, via) && SignedOn(w, p, via) && Fresh(rules, o, w.srv, p)
    case Dropping(p, via) =>
      InHand(rules, w, p, via) && Index(o, p) >= HeldToday(w.srv)
    case Saving(p, via, errors) =>
      InHand(rules, w, p, via) && Index(o, p) < HeldToday(w.srv) && MayFollow(env, p, errors)
    case SavingLast(p, via) =>
      InHand(rules, w, p, via) && Index(o, p) < HeldToday(w.srv) && Kept(w, p)
    case Unmarking(p, via) =>
      && InHand(rules, w, p, via) && Index(o, p) < HeldToday(w.srv)
      && Kept(w, p) && LastGlobal(w.disk) >= w.mem.value.globalNo
    case Advancing(p) =>
      && w.disk.marker.None? && AtHead(w, p) && Index(o, p) < HeldToday(w.srv)
      && Kept(w, p) && LastGlobal(w.disk) >= w.mem.value.globalNo
    case Appending(p) =>
      && SignedOn(w, p, Fallback)
      && AllBelow(w.journal.records, p.receipt.globalNo)
      && (if w.mem.value.globalNo == o.base + |log| then
            Fits(env, rules, o, w.srv, log, p)
            && (w.disk.marker.Some? && Index(o, w.disk.marker.value) == |log| ==> w.disk.marker.value == p)
          else w.disk.marker == Some(p) && BehindMarker(o, w.journal, w.disk.marker, log, w.mem.value.globalNo))
    case Applying(p) =>
      && w.queue.loaded && Tail(w.journal) != [] && Tail(w.journal)[|Tail(w.journal)| - 1] == p
      && w.mem.Some? && w.mem.value.globalNo + 1 == p.receipt.globalNo
    case ApplyingLast(p) =>
      && w.queue.loaded && Tail(w.journal) != [] && Tail(w.journal)[|Tail(w.journal)| - 1] == p
      && w.mem == Some(p.after) && w.disk.dayState == w.mem
  }

  predicate Midway(pc: Pc) { pc.Applying? || pc.ApplyingLast? }

  // -- the three settings --------------------------------------------------

  ghost predicate DatesOk(rules: Rules, srv: Fdms, log: seq<Prepared>) {
    rules.Ordered? ==> forall j :: 0 <= j < |log| ==> LaterThanEarlierDays(srv, log[j].receipt.date)
  }

  predicate AnsweredOk(rules: Rules, marker: Option<Prepared>, pc: Pc) {
    rules.AllAnswered? && marker.Some? ==> pc.Sending? || pc.Dropping? || pc.Saving? || pc.SavingLast? || pc.Unmarking?
  }

  /** One uncommitted receipt at most is with FDMS already, and then its marker is still there. */
  predicate OnceOk(rules: Rules, srv: Fdms, j: Journal, marker: Option<Prepared>, advancing: bool, log: seq<Prepared>) {
    !rules.Dedup? && HeldToday(srv) != Begun(j, log) ==>
      && HeldToday(srv) == Begun(j, log) + 1 && Tail(j) != []
      && (advancing || (marker.Some? && marker.value == Tail(j)[0]))
  }

  ghost predicate Inv(env: Env, rules: Rules, w: World, log: seq<Prepared>) {
    var o := OriginOf(env, w.srv);
    var m := w.disk.marker;
    && LogOk(env, o, log) && ServerOk(env, w.srv, log)
    && JournalOk(o, w.srv, w.journal, log) && QueueOk(w.journal, w.queue, Midway(w.pc))
    && MarkerOk(env, rules, o, w.srv, w.journal, m, log)
    && MemOk(o, w.journal, m, w.mem, log)
    && DiskOk(o, w.srv, w.journal, m, w.disk.dayState, w.mem, log)
    && LastOk(o, w.journal, m, LastGlobal(w.disk), log)
    && PcOk(env, rules, o, w, log)
    && DatesOk(rules, w.srv, log) && AnsweredOk(rules, m, w.pc)
    && OnceOk(rules, w.srv, w.journal, m, w.pc.Advancing?, log)
  }

  // -- red errors ----------------------------------------------------------

  predicate AllKnown(env: Env, d: Day) {
    forall i :: 0 <= i < |d.receipts| ==> TaxesKnown(env, d.receipts[i].receipt.bill)
  }

  predicate NoReds(mem: Option<DayState>, disk: Disk, pc: Pc, log: seq<Prepared>) {
    && (mem.Some? ==> mem.value.redErrors == [])
    && (disk.dayState.Some? ==> disk.dayState.value.redErrors == [])
    && (disk.marker.Some? ==> disk.marker.value.after.redErrors == [])
    && (pc.Marking? || pc.Appending? ==> pc.p.after.redErrors == [])
    && (forall j :: 0 <= j < |log| ==> log[j].after.redErrors == [])
  }

  /** No day state anywhere holds a red error before FDMS holds a receipt of the day with an unknown tax ID. */
  predicate RedsOk(env: Env, w: World, log: seq<Prepared>) {
    AllKnown(env, Today(w.srv)) ==> NoReds(w.mem, w.disk, w.pc, log)
  }
}
