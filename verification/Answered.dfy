/**
 * The calls that Calls composes are the ones the classes make when every request
 * is answered: what Limits and Restart say of the one holds of the other.
 */
module Answered {
  import opened Text
  import opened Options
  import opened Receipts
  import opened Transport
  import opened Server
  import opened Protocol
  import opened Theorems
  import opened Calls
  import opened Device
  import opened OfflineQueue
  import opened Selling

  /** The answers: GetStatus reports n, and FDMS's clock stands at clock(k) while k receipts wait. */
  predicate Tuned(w: World, step: Step, n: nat, clock: nat -> int) {
    match step
    case Send(fate) => fate == Fate(true, None, clock(|w.queue.pending|))
    case AskStatus(answer) => answer == Some(n)
    case _ => true
  }

  predicate AllTuned(env: Env, dedup: bool, w: World, steps: seq<Step>, n: nat, clock: nat -> int)
    requires Possible(env, dedup, w, steps)
    decreases steps
  {
    steps == [] ||
    (Tuned(w, steps[0], n, clock) && AllTuned(env, dedup, Next(env, dedup, w, steps[0]), steps[1..], n, clock))
  }

  // -- flush() -------------------------------------------------------------

  /** A round of a flush that is under way, or the point before the next. */
  predicate UnderWay(w: World) {
    && w.queue.loaded && (!w.pc.Idle? ==> w.queue.pending != [])
    && match w.pc
       case Idle => true
       case Marking(_, via) => via.Flush?
       case Asking(_, via) => via.Flush?
       case Sending(_, via) => via.Flush?
       case Dropping(_, via) => via.Flush?
       case Saving(_, via, _) => via.Flush?
       case SavingLast(_, via) => via.Flush? && w.mem.Some?
       case Unmarking(_, via) => via.Flush?
       case Advancing(_) => true
       case _ => false
  }

  /** A round that is over: on to the next one, or the end. */
  function Onward(env: Env, dedup: bool, w: World, n: nat, clock: nat -> int): World
    requires w.queue.loaded && (w.pc.Idle? || (w.pc.Advancing? && w.queue.pending != []))
  {
    if w.pc.Advancing? then FlushDone(env, dedup, AdvanceDone(env, dedup, w), n, clock) else w
  }

  /** Where a flush that is under way ends. */
  function Ending(env: Env, dedup: bool, w: World, n: nat, clock: nat -> int): World
    requires UnderWay(w)
  {
    hide Server.Submit, Committed, Raised;
    var now := clock(|w.queue.pending|);
    match w.pc
    case Marking(_, _) => Onward(env, dedup, SendDone(env, dedup, Next(env, dedup, w, WriteMarker), now), n, clock)
    case Asking(_, _) => Onward(env, dedup, AskDone(env, dedup, w, n, now), n, clock)
    case Sending(_, _) => Onward(env, dedup, SendDone(env, dedup, w, now), n, clock)
    case Dropping(_, _) => Next(env, dedup, w, DropMarker)
    case Saving(_, _, _) => Onward(env, dedup, CommitDone(env, dedup, w), n, clock)
    case SavingLast(_, _) =>
      Onward(env, dedup, Next(env, dedup, Next(env, dedup, w, WriteLast), ClearMarker), n, clock)
    case Unmarking(_, _) => Onward(env, dedup, Next(env, dedup, w, ClearMarker), n, clock)
    case Advancing(_) => Onward(env, dedup, w, n, clock)
    case Idle => FlushDone(env, dedup, w, n, clock)
    case _ => w
  }

  lemma RoundBegins(env: Env, dedup: bool, w: World, n: nat, clock: nat -> int)
    requires UnderWay(w) && Enabled(env, w, FlushHead)
    ensures
      var v := Next(env, dedup, w, FlushHead);
      UnderWay(v) && Ending(env, dedup, w, n, clock) == Ending(env, dedup, v, n, clock)
  {
    hide Committed, Raised, Tail, Server.Submit, NumberAfter, SendDone, AskDone, AdvanceDone;
  }

  /** No step of a round changes where the flush ends. */
  lemma StepOnward(env: Env, dedup: bool, w: World, step: Step, n: nat, clock: nat -> int)
    requires UnderWay(w) && Enabled(env, w, step) && OfFlush(step) && Tuned(w, step, n, clock)
    ensures UnderWay(Next(env, dedup, w, step))
    ensures step.DropMarker? ==>
              Next(env, dedup, w, step).pc.Idle? && Ending(env, dedup, w, n, clock) == Next(env, dedup, w, step)
    ensures !step.DropMarker? ==>
              Ending(env, dedup, w, n, clock) == Ending(env, dedup, Next(env, dedup, w, step), n, clock)
  {
    hide SignReceipt, OpenDay, CloseDay, Settled, CloseRequestOf, Committed, FirstState, Indexed, Raised, Tail,
      Server.Submit, NumberAfter, FlushDone;
    if step.FlushHead? {
      RoundBegins(env, dedup, w, n, clock);
    }
  }

  /** A round that moves the cursor, or the one try more that does not, comes last. */
  predicate Complete(env: Env, w: World, steps: seq<Step>) {
    && w.pc.Idle?
    && (Enabled(env, w, FlushHead) ==> steps != [] && steps[|steps| - 1] != CommitJournal)
  }

  lemma {:induction false} FlushEndsThere(env: Env, dedup: bool, w: World, steps: seq<Step>, n: nat,
                                          clock: nat -> int)
    requires UnderWay(w) && Possible(env, dedup, w, steps) && AllOfFlush(steps) && RoundByRound(steps)
    requires AllTuned(env, dedup, w, steps, n, clock) && Complete(env, End(env, dedup, w, steps), steps)
    ensures End(env, dedup, w, steps) == Ending(env, dedup, w, n, clock)
    decreases steps
  {
    hide UnderWay, Next, OfFlush, Tuned, Ending, Enabled;
    if steps == [] {
      NothingMore(env, dedup, w, n, clock);
    } else {
      var v, rest := Next(env, dedup, w, steps[0]), steps[1..];
      StepOnward(env, dedup, w, steps[0], n, clock);
      assert forall k :: 0 < k < |rest| ==> rest[k] == steps[k + 1] && rest[k - 1] == steps[k];
      if steps[0].DropMarker? {
        DropIsLast(env, dedup, v, steps);
      } else {
        if rest == [] {
          LastMoves(env, dedup, w, steps[0], n, clock);
        } else {
          assert rest[|rest| - 1] == steps[|steps| - 1];
        }
        FlushEndsThere(env, dedup, v, rest, n, clock);
      }
    }
  }

  lemma NothingMore(env: Env, dedup: bool, w: World, n: nat, clock: nat -> int)
    requires UnderWay(w) && w.pc.Idle? && !Enabled(env, w, FlushHead)
    ensures Ending(env, dedup, w, n, clock) == w
  {
    hide HeadDone, RoundDone;
  }

  /** Between rounds a flush can only begin the next. */
  lemma OnlyARound(env: Env, w: World, step: Step)
    requires w.pc.Idle? && Enabled(env, w, step) && OfFlush(step)
    ensures step == FlushHead
  {
  }

  /** A dropped marker ends the last round. */
  lemma DropIsLast(env: Env, dedup: bool, v: World, steps: seq<Step>)
    requires steps != [] && steps[0].DropMarker? && v.pc.Idle? && Possible(env, dedup, v, steps[1..])
    requires AllOfFlush(steps) && RoundByRound(steps)
    ensures steps[1..] == []
  {
    hide Next, Enabled, OfFlush;
    if |steps| > 1 {
      OnlyARound(env, v, steps[1]);
    }
  }

  /** A round that ends without dropping the marker has moved the cursor. */
  lemma LastMoves(env: Env, dedup: bool, w: World, step: Step, n: nat, clock: nat -> int)
    requires UnderWay(w) && Enabled(env, w, step) && OfFlush(step) && Tuned(w, step, n, clock) && !step.DropMarker?
    requires Next(env, dedup, w, step).pc.Idle?
    ensures step == CommitJournal
  {
    hide Server.Submit, Committed, Raised;
  }

  /**
   * OfflineReceiptQueue.Flush over a loaded queue, every request answered, ends
   * in the world that FlushDone composes.
   */
  lemma FlushIsDone(env: Env, dedup: bool, w: World, steps: seq<Step>, last: seq<Step>, n: nat, clock: nat -> int)
    requires w.pc.Idle? && w.queue.loaded && Flushes(env, dedup, w, steps, last)
    requires AllTuned(env, dedup, w, steps, n, clock)
    ensures End(env, dedup, w, steps) == FlushDone(env, dedup, w, n, clock)
  {
    hide Next, OfFlush, Tuned, AllTuned, Possible, FlushDone, AllOfFlush, RoundByRound;
    var v := End(env, dedup, w, steps);
    if Enabled(env, v, FlushHead) {
      assert Tried(last);
      assert last[|last| - 1] == steps[|steps| - 1];
      assert last[|last| - 1] in last;
    }
    FlushEndsThere(env, dedup, w, steps, n, clock);
  }

  // -- reconcile() ---------------------------------------------------------

  predicate Told(step: Step, n: nat, latest: int) {
    match step
    case Send(fate) => fate == Fate(true, None, latest)
    case AskStatus(answer) => answer == Some(n)
    case _ => true
  }

  /** reconcile() on the way, or over. */
  predicate Settling(w: World) {
    match w.pc
    case Idle => true
    case Asking(_, via) => via.Startup?
    case Sending(_, via) => via.Startup?
    case Dropping(_, via) => via.Startup?
    case Saving(_, via, _) => via.Startup?
    case SavingLast(_, via) => via.Startup? && w.mem.Some?
    case Unmarking(_, via) => via.Startup?
    case _ => false
  }

  function Settlement(env: Env, dedup: bool, w: World, n: nat, latest: int): World {
    hide Server.Submit, Committed, Raised;
    match w.pc
    case Asking(_, _) => AskDone(env, dedup, w, n, latest)
    case Sending(_, _) => SendDone(env, dedup, w, latest)
    case Dropping(_, _) => Next(env, dedup, w, DropMarker)
    case Saving(_, _, _) => CommitDone(env, dedup, w)
    case SavingLast(_, _) =>
      if w.mem.Some? then Next(env, dedup, Next(env, dedup, w, WriteLast), ClearMarker) else w
    case Unmarking(_, _) => Next(env, dedup, w, ClearMarker)
    case _ => w
  }

  lemma StepSettles(env: Env, dedup: bool, w: World, step: Step, n: nat, latest: int)
    requires Settling(w) && Enabled(env, w, step) && OfFlush(step) && step != FlushHead && Told(step, n, latest)
    ensures var v := Next(env, dedup, w, step);
            Settling(v) && Settlement(env, dedup, w, n, latest) == Settlement(env, dedup, v, n, latest)
  {
    hide SignReceipt, OpenDay, CloseDay, Settled, CloseRequestOf, Committed, FirstState, Indexed, Raised, Tail,
      Server.Submit, NumberAfter;
  }

  lemma {:induction false} SettlesThere(env: Env, dedup: bool, w: World, steps: seq<Step>, n: nat, latest: int)
    requires Settling(w) && Possible(env, dedup, w, steps) && AllOfFlush(steps) && FlushHead !in steps
    requires End(env, dedup, w, steps).pc.Idle? && forall i :: 0 <= i < |steps| ==> Told(steps[i], n, latest)
    ensures End(env, dedup, w, steps) == Settlement(env, dedup, w, n, latest)
    decreases steps
  {
    hide Settling, Next, OfFlush, Told, Enabled, AskDone, SendDone, CommitDone;
    if steps != [] {
      StepSettles(env, dedup, w, steps[0], n, latest);
      assert FlushHead !in steps[1..];
      SettlesThere(env, dedup, Next(env, dedup, w, steps[0]), steps[1..], n, latest);
    }
  }

  lemma ReconciledKinds(env: Env, dedup: bool, srv: Fdms, p: Prepared, steps: seq<Step>, r: ReconcileResult)
    requires Reconciled(env, dedup, srv, p, steps, r)
    ensures AllOfFlush(steps) && FlushHead !in steps
  {
    hide Reconciled;
    var all := [FlushHead] + steps;
    assert all[1..] == steps;
    ReconciledAttempts(env, dedup, srv, p, all, r);
    assert forall k :: 0 <= k < |steps| ==> steps[k] == all[k + 1];
  }

  /** FiscalDevice.Reconcile on a start, answered, ends in the world that ReconcileDone composes. */
  lemma ReconcileIsDone(env: Env, dedup: bool, w: World, steps: seq<Step>, r: ReconcileResult, n: nat, latest: int)
    requires w.pc.Idle? && Possible(env, dedup, w, steps) && steps != [] && steps[0] == Step.Reconcile
    requires if w.disk.marker.None? then |steps| == 1
             else Reconciled(env, dedup, w.srv, w.disk.marker.value, steps[1..], r)
    requires End(env, dedup, w, steps).pc.Idle? && forall i :: 0 <= i < |steps| ==> Told(steps[i], n, latest)
    ensures End(env, dedup, w, steps) == ReconcileDone(env, dedup, w, n, latest)
  {
    hide Enabled, Possible, End, Reconciled, AskDone, Told, AllOfFlush;
    StepTaken(env, dedup, w, steps);
    if w.disk.marker.Some? {
      ReconciledKinds(env, dedup, w.srv, w.disk.marker.value, steps[1..], r);
    } else {
      assert steps[1..] == [];
      assert AllOfFlush([]) by { NoneOfFlush(); }
    }
    SettlesThere(env, dedup, Next(env, dedup, w, Step.Reconcile), steps[1..], n, latest);
  }

  lemma NoneOfFlush()
    ensures AllOfFlush([])
  {
  }

  // -- enqueue() -----------------------------------------------------------

  /** OfflineReceiptQueue.Enqueue of a signed receipt ends in the world that EnqueueDone composes. */
  lemma EnqueueIsDone(env: Env, dedup: bool, w: World, input: ReceiptInput, now: int, p: Prepared)
    requires w.mem.Some? && SignReceipt(env, w.mem.value, input, now) == Signed(p)
    requires Possible(env, dedup, w, [Step.Enqueue(input, now)] + TAKE)
    requires p.receipt.globalNo == w.mem.value.globalNo + 1
    ensures End(env, dedup, w, [Step.Enqueue(input, now)] + TAKE) == EnqueueDone(env, dedup, w, p)
  {
    hide SignReceipt, Raised, Possible, End;
    var steps := [Step.Enqueue(input, now)] + TAKE;
    StepTaken(env, dedup, w, steps);
    var a := w.(pc := Appending(p));
    assert steps[1..] == TAKE;
    StepTaken(env, dedup, a, TAKE);
    var b := Next(env, dedup, a, Append);
    assert TAKE[1..] == [ApplyState, ApplyLast];
    StepTaken(env, dedup, b, TAKE[1..]);
    var c := Next(env, dedup, b, ApplyState);
    assert TAKE[1..][1..] == [ApplyLast];
    StepTaken(env, dedup, c, TAKE[1..][1..]);
    assert [ApplyLast][1..] == [];
    EndOfNothing(env, dedup, Next(env, dedup, c, ApplyLast));
  }

  lemma EndOfNothing(env: Env, dedup: bool, w: World)
    ensures Possible(env, dedup, w, []) && End(env, dedup, w, []) == w
  {
  }
}
