/**
 * A new process: which day state it has in memory once the queue is loaded, and
 * what becomes of it when flush() is called before reconcile().
 */
module Restart {
  import opened Text
  import opened Options
  import opened Receipts
  import opened Transport
  import opened Server
  import opened Protocol
  import opened Invariant
  import opened Steps
  import opened Reds
  import opened Runs
  import opened Theorems
  import opened Calls
  import opened Limits

  /**
   * Loading the queue catches up a day state that is in memory, and only such a
   * one: afterwards the day state covers the journal if and only if there was
   * one before, or nothing waits.
   */
  lemma LoadCoversIff(env: Env, rules: Rules, w: World)
    requires KeyPair(env) && Reached(rules, env, w) && w.pc.Idle? && !w.queue.loaded
    ensures
      var v := LoadDone(env, rules.Dedup?, w);
      && (v.mem.Some? <==> w.mem.Some?) && CaughtUp(v)
      && (Covers(v) <==> w.mem.Some? || Tail(w.journal) == [])
  {
    hide KeyPair, Reached, AllReceipts, Inv, RedsOk, Tail, Indexed;
    var log := ReachedHasInv(env, rules, w);
    KeepLoadQueue(env, rules, w, LoadDone(env, rules.Dedup?, w), log);
  }

  // -- flush() in rounds ---------------------------------------------------

  /** The world after k answered rounds of flush(), if it gets that far. */
  function RoundsDone(env: Env, dedup: bool, w: World, n: nat, clock: nat -> int, k: nat): (v: Option<World>)
    requires w.pc.Idle? && w.queue.loaded
    ensures v.Some? ==> v.value.pc.Idle? && v.value.queue.loaded
    decreases k
  {
    hide Server.Submit, NumberAfter;
    if k == 0 then Some(w)
    else if !Enabled(env, w, FlushHead) then None
    else
      match RoundDone(env, dedup, w, n, clock(|w.queue.pending|))
      case None => None
      case Some(u) => RoundsDone(env, dedup, u, n, clock, k - 1)
  }

  /** A request that is not answered, or refused: the end of a try. */
  function SendFails(env: Env, dedup: bool, w: World, fate: Fate): (v: Option<World>)
    requires w.pc.Sending? && w.pc.via.Flush?
    ensures v.Some? ==>
      v.value.pc.Idle? && v.value.queue == w.queue && v.value.journal == w.journal && v.value.mem == w.mem
  {
    hide Server.Submit;
    var a := Next(env, dedup, w, Send(fate));
    if a.pc.Saving? then None
    else if a.pc.Dropping? then Some(Next(env, dedup, a, DropMarker))
    else Some(a)
  }

  /** A try at the head of the queue that does not deliver it, if these answers make it one. */
  function TryFails(env: Env, dedup: bool, w: World, answer: Option<nat>, fate: Fate): (v: Option<World>)
    requires Enabled(env, w, FlushHead)
    ensures v.Some? ==>
      && v.value.pc.Idle? && v.value.queue == w.queue && v.value.journal == w.journal
      && v.value.mem == StateForTry(w)
  {
    hide SendFails;
    var a := Next(env, dedup, w, FlushHead);
    if a.pc.Marking? then SendFails(env, dedup, Next(env, dedup, a, WriteMarker), fate)
    else
      var b := Next(env, dedup, a, AskStatus(answer));
      if b.pc.Idle? then Some(b) else if b.pc.Sending? then SendFails(env, dedup, b, fate) else None
  }

  /** Where flush() stops: with nothing to try, or after one more try. */
  predicate Stops(env: Env, dedup: bool, w: World, answer: Option<nat>, fate: Fate, v: World) {
    if Enabled(env, w, FlushHead) then TryFails(env, dedup, w, answer, fate) == Some(v) else v == w
  }

  // -- the day state through the rounds ------------------------------------

  /** Receipts numbered without a gap, each with the state that counts it. */
  predicate InARow(items: seq<Prepared>) {
    forall i :: 0 <= i < |items| ==>
      items[i].after.globalNo == items[i].receipt.globalNo == items[0].receipt.globalNo + i
  }

  /** The queue's list is the journal from its cursor, in a row, and a marker that does not block is the head. */
  predicate Listed(w: World) {
    && w.pc.Idle? && w.queue.loaded && w.journal.cursor <= |w.journal.records|
    && w.queue.pending == Indexed(w.journal.cursor, Tail(w.journal)) && InARow(Tail(w.journal))
    && (w.queue.pending != [] && w.disk.marker.Some? && !Blocks(w) ==> w.disk.marker == Some(Tail(w.journal)[0]))
  }

  lemma RoundShape(env: Env, dedup: bool, w: World, n: nat, latest: int)
    requires Listed(w) && Enabled(env, w, FlushHead) && RoundDone(env, dedup, w, n, latest).Some?
    ensures
      var v := RoundDone(env, dedup, w, n, latest).value;
      && Tail(w.journal) != [] && Tail(v.journal) == Tail(w.journal)[1..] && Listed(v)
      && InTurn(w) == Tail(w.journal)[0] && v.disk.marker.None?
  {
    hide RoundDone, Server.Submit, NumberAfter;
    var v := RoundDone(env, dedup, w, n, latest).value;
    assert Tail(v.journal) == Tail(w.journal)[1..];
    assert v.queue.pending == Indexed(v.journal.cursor, Tail(v.journal));
  }

  /** After k rounds over a day state in memory, its number is the last delivered one, unless it was past that. */
  lemma {:induction false} RoundsShape(env: Env, dedup: bool, w: World, n: nat, clock: nat -> int, k: nat)
    requires Listed(w) && RoundsDone(env, dedup, w, n, clock, k).Some?
    ensures
      var v, items := RoundsDone(env, dedup, w, n, clock, k).value, Tail(w.journal);
      && k <= |items| && Listed(v) && Tail(v.journal) == items[k..]
      && (if k == 0 then v == w
          else
            && Enabled(env, w, FlushHead) && v.disk.marker.None? && v.mem.Some?
            && v.mem.value.globalNo ==
               Max(if StateForTry(w).Some? then StateForTry(w).value.globalNo else 0, items[k - 1].receipt.globalNo))
    decreases k
  {
    hide RoundDone, Server.Submit, Listed, Tail, Enabled;
    if k > 0 {
      var u := RoundDone(env, dedup, w, n, clock(|w.queue.pending|)).value;
      RoundShape(env, dedup, w, n, clock(|w.queue.pending|));
      RoundsShape(env, dedup, u, n, clock, k - 1);
      RowStarts(w);
    }
  }

  lemma RowStarts(w: World)
    requires Listed(w) && Tail(w.journal) != []
    ensures InARow(Tail(w.journal))
  {
    hide Tail;
  }

  // -- flush() before reconcile() ------------------------------------------

  /** What waits is numbered in a row, and then a day state is stored. */
  lemma QueueInARow(env: Env, rules: Rules, w: World)
    requires KeyPair(env) && Reached(rules, env, w)
    ensures w.journal.cursor <= |w.journal.records| && InARow(Tail(w.journal))
    ensures Tail(w.journal) != [] ==> w.disk.dayState.Some?
  {
    hide KeyPair, Reached, AllReceipts, Inv, RedsOk, Tail;
    var log := ReachedHasInv(env, rules, w);
    LogInARow(env, rules, w, log);
  }

  lemma LogInARow(env: Env, rules: Rules, w: World, log: seq<Prepared>)
    requires Inv(env, rules, w, log)
    ensures w.journal.cursor <= |w.journal.records| && InARow(Tail(w.journal))
    ensures Tail(w.journal) != [] ==> w.disk.dayState.Some?
  {
    hide ServerOk, QueueOk, MarkerOk, MemOk, LastOk, PcOk, DatesOk, OnceOk, AtLog, Tail, Follows, AllBelow,
      Increasing, CommittedHeld, HeldToday;
    var o, items := OriginOf(env, w.srv), Tail(w.journal);
    OpensToday(env, w.srv);
    forall i | 0 <= i < |items|
      ensures items[i].after.globalNo == items[i].receipt.globalNo == o.base + Begun(w.journal, log) + i + 1
    {
      var j := Begun(w.journal, log) + i;
      assert items[i] == log[j] && Entry(env, o, log, j);
      StateFacts(env, o, log, j + 1);
    }
  }

  /** The world after a crash and a load, of which nothing is in memory but the journal's list. */
  lemma StartIsListed(env: Env, rules: Rules, w: World)
    requires KeyPair(env) && Reached(rules, env, w)
    ensures
      var v := LoadDone(env, rules.Dedup?, Next(env, rules.Dedup?, w, Crash));
      && Listed(v) && v.mem.None? && v.journal == w.journal && v.disk == w.disk
      && (MarkerIsHead(w) <==> v.queue.pending != [] && v.disk.marker.Some? && !Blocks(v))
  {
    hide KeyPair, Reached, AllReceipts, InARow, HeldAs, Numbered, Tail;
    MarkerFacts(env, rules, w);
    QueueInARow(env, rules, w);
  }

  /** The number of the last record, and of the stored day state. */
  function LastNumber(j: Journal): nat { if j.records == [] then 0 else j.records[|j.records| - 1].receipt.globalNo }
  function StoredNumber(d: Disk): nat { if d.dayState.Some? then d.dayState.value.globalNo else 0 }

  /**
   * The process dies anywhere, and flush() runs before reconcile(), delivers k
   * receipts and stops. There is then no day state, so that enqueue() refuses, if
   * and only if nothing was delivered and the head was not marked. The day state
   * is behind what waits, so that the next sale reuses a number, if and only if
   * something waits and either the head was marked and the stored state was
   * behind, or it was not marked and something was delivered.
   */
  lemma FlushFirstIff(env: Env, rules: Rules, w: World, n: nat, clock: nat -> int, k: nat, u: World,
                      answer: Option<nat>, fate: Fate, x: World)
    requires KeyPair(env) && Reached(rules, env, w)
    requires RoundsDone(env, rules.Dedup?, LoadDone(env, rules.Dedup?, Next(env, rules.Dedup?, w, Crash)), n, clock, k)
             == Some(u)
    requires Stops(env, rules.Dedup?, u, answer, fate, x)
    ensures x.pc.Idle? && x.queue.loaded && k <= |Tail(w.journal)| && Tail(x.journal) == Tail(w.journal)[k..]
    ensures x.mem.None? <==> k == 0 && !MarkerIsHead(w)
    ensures !CaughtUp(x) <==>
              && k < |Tail(w.journal)|
              && if MarkerIsHead(w) then StoredNumber(w.disk) < LastNumber(w.journal) else k > 0
  {
    hide KeyPair, Reached, AllReceipts, Listed, RoundsDone, Server.Submit, TryFails, MarkerIsHead, Tail, Blocks,
      LoadDone;
    var v := LoadDone(env, rules.Dedup?, Next(env, rules.Dedup?, w, Crash));
    StartIsListed(env, rules, w);
    QueueInARow(env, rules, w);
    RoundsShape(env, rules.Dedup?, v, n, clock, k);
    LastWaits(w.journal);
    NothingTried(env, v);
    NothingTried(env, u);
  }

  lemma LastWaits(j: Journal)
    requires j.cursor <= |j.records|
    ensures var items := Tail(j); items != [] ==> items[|items| - 1].receipt.globalNo == LastNumber(j)
  {
  }

  lemma NothingTried(env: Env, w: World)
    requires Listed(w)
    ensures Enabled(env, w, FlushHead) <==> w.queue.pending != [] && !Blocks(w)
    ensures w.queue.pending == [] <==> Tail(w.journal) == []
  {
  }
}
