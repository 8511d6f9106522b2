/**
 * Whole calls of the device and the queue when every request is answered: what
 * they change, and that they are runs where the setting allows their first step.
 */
module Calls {
  import opened Text
  import opened Options
  import opened Receipts
  import opened Server
  import opened Protocol
  import opened CommitSteps
  import opened Runs
  import opened Trace

  /** The number in memory once a receipt is committed: the receipt's, unless the day state was there already. */
  function NumberAfter(mem: Option<DayState>, p: Prepared): nat {
    if mem.None? || mem.value.globalNo < p.receipt.globalNo then p.after.globalNo else mem.value.globalNo
  }

  lemma CommittedNumber(mem: Option<DayState>, p: Prepared, errors: seq<Code>)
    ensures Committed(mem, p, errors).globalNo == NumberAfter(mem, p)
  {
    RedsOnly(if mem.None? || mem.value.globalNo < p.receipt.globalNo then p.after else mem.value, p, errors);
  }

  /** State, last number, marker: the three writes after an answer. */
  function CommitDone(env: Env, dedup: bool, w: World): (v: World)
    requires w.pc.Saving?
    ensures v.srv == w.srv && v.journal == w.journal && v.queue == w.queue
    ensures v.disk.marker.None? && v.pc == AfterMarker(w.pc.p, w.pc.via)
    ensures v.mem.Some? && v.mem.value.globalNo == NumberAfter(w.mem, w.pc.p)
  {
    CommittedNumber(w.mem, w.pc.p, w.pc.errors);
    hide Committed, Raised, NumberAfter;
    var a := Next(env, dedup, w, WriteState);
    var b := Next(env, dedup, a, WriteLast);
    Next(env, dedup, b, ClearMarker)
  }

  /** A request with its answer, and what the device writes then. */
  function SendDone(env: Env, dedup: bool, w: World, latest: int): (v: World)
    requires w.pc.Sending?
    ensures v.journal == w.journal && v.queue == w.queue && v.disk.marker.None?
    ensures
      var (srv, response) := Server.Submit(env, dedup, w.srv, w.pc.p.receipt, latest);
      && v.srv == srv && v.pc == (if response.Accepted? then AfterMarker(w.pc.p, w.pc.via) else Idle)
      && (response.Accepted? ==> v.mem.Some? && v.mem.value.globalNo == NumberAfter(w.mem, w.pc.p))
  {
    hide Server.Submit, AfterMarker, NumberAfter;
    var a := Next(env, dedup, w, Send(Fate(true, None, latest)));
    if a.pc.Saving? then CommitDone(env, dedup, a) else Next(env, dedup, a, DropMarker)
  }

  /** The question about a marker, with its answer, and what follows. */
  function AskDone(env: Env, dedup: bool, w: World, n: nat, latest: int): (v: World)
    requires w.pc.Asking?
    ensures v.journal == w.journal && v.queue == w.queue && v.disk.marker.None?
    ensures
      var (srv, response) := Server.Submit(env, dedup, w.srv, w.pc.p.receipt, latest);
      if n >= w.pc.p.receipt.globalNo then v.srv == w.srv && v.pc == AfterMarker(w.pc.p, w.pc.via)
      else v.srv == srv && v.pc == if response.Accepted? then AfterMarker(w.pc.p, w.pc.via) else Idle
    ensures !v.pc.Idle? ==> v.mem.Some? && v.mem.value.globalNo == NumberAfter(w.mem, w.pc.p)
  {
    hide Server.Submit, AfterMarker, NumberAfter;
    var a := Next(env, dedup, w, AskStatus(Some(n)));
    if a.pc.Saving? then CommitDone(env, dedup, a) else SendDone(env, dedup, a, latest)
  }

  /** reconcile() */
  function ReconcileDone(env: Env, dedup: bool, w: World, n: nat, latest: int): (v: World)
    requires w.pc.Idle?
    ensures v.journal == w.journal && v.queue == w.queue && v.disk.marker.None? && v.pc.Idle?
    ensures v.srv == if w.disk.marker.None? || n >= w.disk.marker.value.receipt.globalNo then w.srv
                     else Server.Submit(env, dedup, w.srv, w.disk.marker.value.receipt, latest).0
  {
    hide Server.Submit;
    var a := Next(env, dedup, w, Step.Reconcile);
    if a.pc.Asking? then AskDone(env, dedup, a, n, latest) else a
  }

  /** What flush() sends for the head: the head, or the marker with its number. */
  function InTurn(w: World): Prepared
    requires w.queue.pending != []
  {
    if w.disk.marker.Some? then w.disk.marker.value else w.queue.pending[0].item
  }

  /** The day state that a try at the head works on: with a marker and none in memory, the stored one. */
  function StateForTry(w: World): Option<DayState> {
    if w.mem.None? && w.disk.marker.Some? then w.disk.dayState else w.mem
  }

  /** One round of flush(), before the journal's cursor moves. */
  function HeadDone(env: Env, dedup: bool, w: World, n: nat, latest: int): (v: World)
    requires Enabled(env, w, FlushHead)
    ensures v.journal == w.journal && v.queue == w.queue && v.disk.marker.None?
    ensures
      var (srv, response) := Server.Submit(env, dedup, w.srv, InTurn(w).receipt, latest);
      if w.disk.marker.Some? && n >= InTurn(w).receipt.globalNo then v.srv == w.srv && v.pc == Advancing(InTurn(w))
      else v.srv == srv && v.pc == if response.Accepted? then Advancing(InTurn(w)) else Idle
    ensures v.pc.Advancing? ==> v.mem.Some? && v.mem.value.globalNo == NumberAfter(StateForTry(w), InTurn(w))
  {
    hide Server.Submit, NumberAfter;
    var a := Next(env, dedup, w, FlushHead);
    if a.pc.Asking? then AskDone(env, dedup, a, n, latest)
    else SendDone(env, dedup, Next(env, dedup, a, WriteMarker), latest)
  }

  /** The journal's cursor moves past the head, and the head leaves the list. */
  function AdvanceDone(env: Env, dedup: bool, w: World): (v: World)
    requires w.pc.Advancing? && w.queue.pending != []
    ensures v.srv == w.srv && v.disk == w.disk && v.mem == w.mem && v.pc.Idle?
    ensures v.queue == w.queue.(pending := w.queue.pending[1..])
    ensures v.journal == w.journal.(cursor := Max(w.journal.cursor, w.queue.pending[0].cursor + 1))
  {
    Next(env, dedup, w, CommitJournal)
  }

  /** One round of flush() that goes on to the next receipt. */
  function RoundDone(env: Env, dedup: bool, w: World, n: nat, latest: int): (v: Option<World>)
    requires Enabled(env, w, FlushHead)
    ensures v.Some? ==>
      && v.value.pc.Idle? && v.value.queue == Queue(w.queue.pending[1..], true)
      && v.value.disk.marker.None?
      && v.value.journal == w.journal.(cursor := Max(w.journal.cursor, w.queue.pending[0].cursor + 1))
      && v.value.mem.Some? && v.value.mem.value.globalNo == NumberAfter(StateForTry(w), InTurn(w))
    ensures
      var (srv, response) := Server.Submit(env, dedup, w.srv, InTurn(w).receipt, latest);
      if w.disk.marker.Some? && n >= InTurn(w).receipt.globalNo then v.Some? && v.value.srv == w.srv
      else (v.Some? <==> response.Accepted?) && (v.Some? ==> v.value.srv == srv)
  {
    hide Server.Submit, HeadDone, AdvanceDone, Max, NumberAfter, StateForTry;
    var a := HeadDone(env, dedup, w, n, latest);
    if a.pc.Advancing? then Some(AdvanceDone(env, dedup, a)) else None
  }

  /** flush() of a loaded queue; `clock` is FDMS's clock, by the number of receipts still waiting. */
  function FlushDone(env: Env, dedup: bool, w: World, n: nat, clock: nat -> int): (v: World)
    requires w.pc.Idle? && w.queue.loaded
    ensures v.pc.Idle? && v.queue.loaded && v.journal.records == w.journal.records
    decreases |w.queue.pending|
  {
    hide Server.Submit, RoundDone, HeadDone;
    if !Enabled(env, w, FlushHead) then w
    else
      var v := RoundDone(env, dedup, w, n, clock(|w.queue.pending|));
      if v.Some? then FlushDone(env, dedup, v.value, n, clock)
      else HeadDone(env, dedup, w, n, clock(|w.queue.pending|))
  }

  /** The journal is read if it has not been yet. */
  function LoadDone(env: Env, dedup: bool, w: World): (v: World)
    requires w.pc.Idle?
    ensures v.pc.Idle? && v.queue.loaded && v.srv == w.srv && v.disk == w.disk && v.journal == w.journal
    ensures w.queue.loaded ==> v == w
    ensures !w.queue.loaded ==> v.queue.pending == Indexed(w.journal.cursor, Tail(w.journal))
  {
    hide Tail, Indexed;
    if w.queue.loaded then w else Next(env, dedup, w, LoadQueue)
  }

  /** The documented start: reconcile(), then flush(), which loads the queue first. */
  function StartDone(env: Env, dedup: bool, w: World, n: nat, latest: int, clock: nat -> int): (v: World)
    requires w.pc.Idle?
  {
    FlushDone(env, dedup, LoadDone(env, dedup, ReconcileDone(env, dedup, w, n, latest)), n, clock)
  }

  /** The journal, the day state, the last number, the list. */
  function TakeDone(env: Env, dedup: bool, w: World): (v: World)
    requires w.pc.Appending? && w.mem.Some? && w.pc.p.receipt.globalNo == w.mem.value.globalNo + 1
    ensures v.pc.Idle? && v.srv == w.srv && v.disk.marker == w.disk.marker && v.mem == Some(w.pc.p.after)
    ensures v.journal == w.journal.(records := w.journal.records + [w.pc.p])
    ensures v.queue == w.queue.(pending := w.queue.pending + [Queued(w.journal.cursor + |w.queue.pending|, w.pc.p)])
  {
    hide Raised;
    var a := Next(env, dedup, w, Append);
    var b := Next(env, dedup, a, ApplyState);
    Next(env, dedup, b, ApplyLast)
  }

  /** enqueue(), once the receipt is signed. */
  function EnqueueDone(env: Env, dedup: bool, w: World, p: Prepared): (v: World)
    requires w.pc.Idle? && w.queue.loaded && w.mem.Some? && p.receipt.globalNo == w.mem.value.globalNo + 1
    ensures v.pc.Idle? && v.queue.loaded && v.srv == w.srv && v.disk.marker == w.disk.marker && v.mem == Some(p.after)
    ensures v.journal == w.journal.(records := w.journal.records + [p])
    ensures v.queue.pending == w.queue.pending + [Queued(w.journal.cursor + |w.queue.pending|, p)]
  {
    hide TakeDone;
    TakeDone(env, dedup, w.(pc := Appending(p)))
  }

  lemma SignedNumber(env: Env, s: DayState, input: ReceiptInput, now: int)
    requires SignReceipt(env, s, input, now).Signed?
    ensures SignReceipt(env, s, input, now).prepared.receipt.globalNo == s.globalNo + 1
  {
  }

  /** A marker for another receipt than the head keeps flush() from sending. */
  predicate Blocks(w: World) {
    && w.disk.marker.Some?
    && (w.queue.pending != [] ==>
          w.disk.marker.value.receipt.globalNo != w.queue.pending[0].item.receipt.globalNo)
  }

  /** Delivery of what is queued: flush(), after reconcile() where a marker blocks it. */
  function DeliverDone(env: Env, dedup: bool, w: World, n: nat, latest: int, clock: nat -> int): (v: World)
    requires w.pc.Idle? && w.queue.loaded
  {
    FlushDone(env, dedup, if Blocks(w) then ReconcileDone(env, dedup, w, n, latest) else w, n, clock)
  }

  // -- they are runs -------------------------------------------------------

  lemma CommitIsRun(rules: Rules, env: Env, w: World)
    requires Reached(rules, env, w) && w.pc.Saving?
    ensures Reached(rules, env, CommitDone(env, rules.Dedup?, w))
  {
    hide Reached, Committed, Raised, AfterMarker, Tail, HeadLost, MarkerIsHead, AllReceipts, SignReceipt;
    OneMoreStep(rules, env, w, WriteState);
    var a := Next(env, rules.Dedup?, w, WriteState);
    OneMoreStep(rules, env, a, WriteLast);
    var b := Next(env, rules.Dedup?, a, WriteLast);
    OneMoreStep(rules, env, b, ClearMarker);
  }

  lemma SendIsRun(rules: Rules, env: Env, w: World, latest: int)
    requires Reached(rules, env, w) && w.pc.Sending?
    ensures Reached(rules, env, SendDone(env, rules.Dedup?, w, latest))
  {
    hide Reached, CommitDone, Server.Submit, Tail, HeadLost, MarkerIsHead, AllReceipts, SignReceipt;
    var send := Send(Fate(true, None, latest));
    OneMoreStep(rules, env, w, send);
    var a := Next(env, rules.Dedup?, w, send);
    if a.pc.Saving? {
      CommitIsRun(rules, env, a);
    } else {
      OneMoreStep(rules, env, a, DropMarker);
    }
  }

  lemma AskIsRun(rules: Rules, env: Env, w: World, n: nat, latest: int)
    requires Reached(rules, env, w) && w.pc.Asking? && Reports(AllReceipts(w.srv.days), n)
    ensures Reached(rules, env, AskDone(env, rules.Dedup?, w, n, latest))
  {
    hide Reached, CommitDone, SendDone, Server.Submit, Tail, HeadLost, MarkerIsHead, AllReceipts, SignReceipt,
      Reports;
    OneMoreStep(rules, env, w, AskStatus(Some(n)));
    var a := Next(env, rules.Dedup?, w, AskStatus(Some(n)));
    if a.pc.Saving? {
      CommitIsRun(rules, env, a);
    } else {
      SendIsRun(rules, env, a, latest);
    }
  }

  lemma ReconcileIsRun(rules: Rules, env: Env, w: World, n: nat, latest: int)
    requires Reached(rules, env, w) && w.pc.Idle? && Permitted(rules, env, w, Step.Reconcile)
    requires Reports(AllReceipts(w.srv.days), n)
    ensures Reached(rules, env, ReconcileDone(env, rules.Dedup?, w, n, latest))
  {
    hide Reached, AskDone, Tail, HeadLost, MarkerIsHead, AllReceipts, SignReceipt, Reports;
    OneMoreStep(rules, env, w, Step.Reconcile);
    var a := Next(env, rules.Dedup?, w, Step.Reconcile);
    if a.pc.Asking? {
      AskIsRun(rules, env, a, n, latest);
    }
  }

  lemma HeadIsRun(rules: Rules, env: Env, w: World, n: nat, latest: int)
    requires Reached(rules, env, w) && Enabled(env, w, FlushHead)
    requires w.disk.marker.Some? ==> Reports(AllReceipts(w.srv.days), n)
    ensures Reached(rules, env, HeadDone(env, rules.Dedup?, w, n, latest))
  {
    hide Reached, AskDone, SendDone, Tail, HeadLost, MarkerIsHead, AllReceipts, SignReceipt, Reports;
    OneMoreStep(rules, env, w, FlushHead);
    var a := Next(env, rules.Dedup?, w, FlushHead);
    if a.pc.Asking? {
      AskIsRun(rules, env, a, n, latest);
    } else {
      OneMoreStep(rules, env, a, WriteMarker);
      SendIsRun(rules, env, Next(env, rules.Dedup?, a, WriteMarker), latest);
    }
  }

  lemma {:induction false} FlushIsRun(rules: Rules, env: Env, w: World, n: nat, clock: nat -> int)
    requires Reached(rules, env, w) && w.pc.Idle? && w.queue.loaded
    requires w.disk.marker.Some? ==> Reports(AllReceipts(w.srv.days), n)
    ensures Reached(rules, env, FlushDone(env, rules.Dedup?, w, n, clock))
    decreases |w.queue.pending|
  {
    hide Reached, HeadDone, Tail, HeadLost, MarkerIsHead, AllReceipts, SignReceipt, Reports, Server.Submit;
    if Enabled(env, w, FlushHead) {
      var a := HeadDone(env, rules.Dedup?, w, n, clock(|w.queue.pending|));
      HeadIsRun(rules, env, w, n, clock(|w.queue.pending|));
      if a.pc.Advancing? {
        OneMoreStep(rules, env, a, CommitJournal);
        FlushIsRun(rules, env, Next(env, rules.Dedup?, a, CommitJournal), n, clock);
      }
    }
  }

  lemma LoadIsRun(rules: Rules, env: Env, w: World)
    requires Reached(rules, env, w) && w.pc.Idle?
    ensures Reached(rules, env, LoadDone(env, rules.Dedup?, w))
  {
    hide Reached, Tail, HeadLost, MarkerIsHead, AllReceipts, SignReceipt, Indexed;
    if !w.queue.loaded {
      OneMoreStep(rules, env, w, LoadQueue);
    }
  }

  /** The documented start is a run where reconcile() may be called. */
  lemma StartIsRun(rules: Rules, env: Env, w: World, n: nat, latest: int, clock: nat -> int)
    requires Reached(rules, env, w) && w.pc.Idle? && Permitted(rules, env, w, Step.Reconcile)
    requires Reports(AllReceipts(w.srv.days), n)
    ensures Reached(rules, env, StartDone(env, rules.Dedup?, w, n, latest, clock))
  {
    hide Reached, ReconcileDone, LoadDone, FlushDone, Permitted, Reports, AllReceipts;
    var a := ReconcileDone(env, rules.Dedup?, w, n, latest);
    ReconcileIsRun(rules, env, w, n, latest);
    LoadIsRun(rules, env, a);
    FlushIsRun(rules, env, LoadDone(env, rules.Dedup?, a), n, clock);
  }

  lemma TakeIsRun(rules: Rules, env: Env, w: World)
    requires Reached(rules, env, w)
    requires w.pc.Appending? && w.mem.Some? && w.pc.p.receipt.globalNo == w.mem.value.globalNo + 1
    ensures Reached(rules, env, TakeDone(env, rules.Dedup?, w))
  {
    hide Reached, Raised, Tail, HeadLost, MarkerIsHead, AllReceipts, SignReceipt;
    OneMoreStep(rules, env, w, Append);
    var a := Next(env, rules.Dedup?, w, Append);
    OneMoreStep(rules, env, a, ApplyState);
    var b := Next(env, rules.Dedup?, a, ApplyState);
    OneMoreStep(rules, env, b, ApplyLast);
  }

  lemma EnqueueIsRun(rules: Rules, env: Env, w: World, input: ReceiptInput, now: int, p: Prepared)
    requires Reached(rules, env, w) && May(rules, env, w, Step.Enqueue(input, now))
    requires SignReceipt(env, w.mem.value, input, now) == Signed(p) && p.receipt.globalNo == w.mem.value.globalNo + 1
    ensures Reached(rules, env, EnqueueDone(env, rules.Dedup?, w, p))
  {
    hide Reached, SignReceipt, TakeDone, MaySign, CaughtUp, Tail, HeadLost, MarkerIsHead, AllReceipts;
    OneMoreStep(rules, env, w, Step.Enqueue(input, now));
    TakeIsRun(rules, env, w.(pc := Appending(p)));
  }

  /** Delivery is a run, since a marker that blocks is not the head's. */
  lemma DeliverIsRun(rules: Rules, env: Env, w: World, n: nat, latest: int, clock: nat -> int)
    requires Reached(rules, env, w) && w.pc.Idle? && w.queue.loaded && Reports(AllReceipts(w.srv.days), n)
    requires Blocks(w) ==> !MarkerIsHead(w)
    ensures Reached(rules, env, DeliverDone(env, rules.Dedup?, w, n, latest, clock))
  {
    hide Reached, ReconcileDone, FlushDone, Reports, AllReceipts, Blocks, MarkerIsHead;
    if Blocks(w) {
      ReconcileIsRun(rules, env, w, n, latest);
      FlushIsRun(rules, env, ReconcileDone(env, rules.Dedup?, w, n, latest), n, clock);
    } else {
      FlushIsRun(rules, env, w, n, clock);
    }
  }
}
