/** The device (FiscalDevice in src/core/device.ts): every call is a run of the machine. */
module Device {
  import opened Text
  import opened Options
  import opened Ledger
  import opened Counters
  import opened Signing
  import opened Receipts
  import opened Server
  import opened Transport
  import opened Protocol
  import opened Reds
  import opened Runs
  import opened Trace
  import opened Stores

  const COMMIT: seq<Step> := [WriteState, WriteLast, ClearMarker]

  /** The worlds a commit passes through, write by write. */
  lemma CommitDoes(rules: Rules, env: Env, w: World, a: World, b: World, c: World, t: seq<Durable>)
    requires w.pc.Saving?
    requires var s := Committed(w.mem, w.pc.p, w.pc.errors);
      && a == w.(mem := Some(s), disk := w.disk.(dayState := Some(s)), pc := SavingLast(w.pc.p, w.pc.via))
      && b == a.(disk := Raised(a.disk, s.globalNo), pc := Unmarking(w.pc.p, w.pc.via))
      && c == b.(disk := b.disk.(marker := None), pc := AfterMarker(w.pc.p, w.pc.via))
    ensures Does(rules, env, true, w, t, COMMIT, c,
                 t + Moved(DurableOf(w), DurableOf(a)) + Moved(DurableOf(a), DurableOf(b))
                 + Moved(DurableOf(b), DurableOf(c)))
  {
    hide Committed, Raised, AfterMarker, DurableOf, Moved, Does;
    var t1 := t + Moved(DurableOf(w), DurableOf(a));
    var t2 := t1 + Moved(DurableOf(a), DurableOf(b));
    DoesStep(rules, env, true, w, WriteState, a, t, t1);
    DoesMore(rules, env, true, w, t, [WriteState], a, t1, WriteLast, b, t2);
    DoesMore(rules, env, true, w, t, [WriteState] + [WriteLast], b, t2, ClearMarker, c,
             t2 + Moved(DurableOf(b), DurableOf(c)));
    assert [WriteState] + [WriteLast] + [ClearMarker] == COMMIT;
  }

  /** The request, and what its outcome leads to before anything else is written. */
  lemma SendDoes(rules: Rules, env: Env, w: World, fate: Fate, response: Response, v: World, t: seq<Durable>)
    requires w.pc.Sending? && FateOk(rules, w.srv, w.pc.p.receipt, fate)
    requires (v.srv, response) ==
      if fate.reached then Server.Submit(env, rules.Dedup?, w.srv, w.pc.p.receipt, fate.latest) else (w.srv, Refused)
    requires v == w.(srv := v.srv, pc := Answering(w.pc.p, w.pc.via, OutcomeOf(fate, response)))
    ensures Does(rules, env, true, w, t, [Send(fate)], v, t + Moved(DurableOf(w), DurableOf(v)))
  {
    hide Server.Submit, FateOk, Does, Moved, DurableOf;
    DoesStep(rules, env, true, w, Send(fate), v, t, t + Moved(DurableOf(w), DurableOf(v)));
  }

  /** The code's reading of a failure, and what FDMS can have done. */
  lemma FailureSorts(rules: Rules, srv: Fdms, r: Receipt, fate: Fate, response: Response)
    requires FateOk(rules, srv, r, fate) && OutcomeOf(fate, response).Failed?
    ensures
      var f := OutcomeOf(fate, response).failure;
      && (Refusal(f) <==> Unprocessed(f))
      && (Refusal(f) ==> f.Http? && f.status != 408 && f.status != 429 && f.status <= 499)
      && (!Refusal(f) && f.Http? ==> f.status == 408 || f.status == 429 || f.status >= 500)
  {
    hide AllReceipts;
  }

  function Answering(p: Prepared, via: Via, outcome: Outcome): Pc {
    if outcome.Answered? then Saving(p, via, outcome.errors)
    else if Refusal(outcome.failure) then Dropping(p, via)
    else if via.Fallback? && OutcomeUnknown(outcome.failure) then Appending(p)
    else Idle
  }

  lemma OpenDoes(rules: Rules, env: Env, w: World, v: World, dayNo: Option<nat>, openedAt: int, reported: nat,
                 given: nat)
    requires w.pc.Idle? && w.disk.marker.None? && OpenDay(w.srv, dayNo, openedAt).Some?
    requires Reports(AllReceipts(w.srv.days), reported)
    requires
      var (srv, no) := OpenDay(w.srv, dayNo, openedAt).value;
      var s := FirstState(env, no, openedAt, Max(Max(reported, given), LastGlobal(w.disk)));
      v == w.(srv := srv, mem := Some(s), disk := Raised(w.disk.(dayState := Some(s)), s.globalNo))
    ensures
      var steps := [Step.OpenFiscalDay(dayNo, openedAt, reported, given)];
      && Plays(rules, env, w, steps) && End(env, rules.Dedup?, w, steps) == v
      && (Tail(w.journal) == [] && given <= Highest(AllReceipts(w.srv.days)) ==> Run(rules, env, w, steps))
  {
    hide Run, Plays, End, Highest, AllReceipts, Moved, Tail, OpenDay, Reports, FirstState, Raised;
    OneStepPlays(rules, env, w, Step.OpenFiscalDay(dayNo, openedAt, reported, given));
    if Tail(w.journal) == [] && given <= Highest(AllReceipts(w.srv.days)) {
      OneStepRun(rules, env, w, Step.OpenFiscalDay(dayNo, openedAt, reported, given));
    }
  }

  lemma CloseTaken(env: Env, srv: Fdms, q: CloseRequest)
    ensures CloseDay(env, srv, q).1 <==> srv.status.DayOpened? && q.dayNo == Today(srv).no
  {
    hide CloseVerdict;
  }

  lemma CloseDoes(rules: Rules, env: Env, ok: bool, w: World, v: World, force: bool, fate: Fate, t: seq<Durable>)
    requires w.pc.Idle? && w.disk.marker.None? && w.mem.Some? && (force || w.mem.value.redErrors == [])
    requires (!fate.reached ==> fate.failure.Some?) && (ok ==> Tail(w.journal) == [])
    requires
      var (srv, taken) :=
        if fate.reached then CloseDay(env, w.srv, CloseRequestOf(env, w.mem.value)) else (w.srv, false);
      v == w.(srv := srv, mem := if taken && fate.failure.None? then None else w.mem)
    ensures Does(rules, env, ok, w, t, [Step.CloseFiscalDay(force, fate)], v, t + Moved(DurableOf(w), DurableOf(v)))
  {
    hide Does, Moved, DurableOf, Tail, CloseDay, CloseRequestOf;
    DoesStep(rules, env, ok, w, Step.CloseFiscalDay(force, fate), v, t, t + Moved(DurableOf(w), DurableOf(v)));
  }

  datatype SubmitResult =
    | Submitted(errors: seq<Code>)
    | Rejected(failure: Failure)      // a definite refusal: nothing is pending
    | Unresolved(failure: Failure)    // the marker stays
    | Pending(globalNo: nat)          // an earlier submit is unresolved: refused
    | Unsigned                        // no day state, or an invalid input

  function Landing(r: SubmitResult, p: Prepared, via: Via): Pc {
    match r
    case Submitted(_) => AfterMarker(p, via)
    case Unresolved(f) => if via.Fallback? && OutcomeUnknown(f) then Appending(p) else Idle
    case _ => Idle
  }

  datatype ReconcileResult =
    | NothingPending
    | Confirmed(globalNo: nat)
    | Resubmitted(globalNo: nat, errors: seq<Code>)
    | RejectedReceipt(globalNo: nat, failure: Failure)
    | Unanswered(lost: Option<Failure>)

  function AfterReconcile(r: ReconcileResult, marker: Option<Prepared>, via: Via): Pc {
    if marker.Some? && (r.Confirmed? || r.Resubmitted?) then AfterMarker(marker.value, via) else Idle
  }

  function AnswerTo(env: Env, dedup: bool, srv: Fdms, r: Receipt, fate: Fate): Outcome {
    OutcomeOf(fate, if fate.reached then Server.Submit(env, dedup, srv, r, fate.latest).1 else Refused)
  }

  /** The one request in `steps`, its outcome as the caller sees it, and what follows. */
  predicate Requested(env: Env, dedup: bool, srv: Fdms, p: Prepared, steps: seq<Step>, r: SubmitResult) {
    && steps != [] && steps[0].Send?
    && var outcome := AnswerTo(env, dedup, srv, p.receipt, steps[0].fate);
       match r
       case Submitted(errors) => outcome == Answered(errors) && steps[1..] == COMMIT
       case Rejected(f) => outcome == Failed(f) && Unprocessed(f) && steps[1..] == [DropMarker]
       case Unresolved(f) => outcome == Failed(f) && !Unprocessed(f) && steps[1..] == []
       case _ => false
  }

  /** What the device does with an outcome. */
  predicate Concludes(outcome: Outcome, r: SubmitResult, rest: seq<Step>) {
    match r
    case Submitted(errors) => outcome == Answered(errors) && rest == COMMIT
    case Rejected(f) => outcome == Failed(f) && Refusal(f) && rest == [DropMarker]
    case Unresolved(f) => outcome == Failed(f) && !Refusal(f) && rest == []
    case _ => false
  }

  lemma DropDoes(rules: Rules, env: Env, w: World, v: World, t: seq<Durable>, s: seq<Durable>)
    requires w.pc.Dropping? && v == w.(disk := w.disk.(marker := None), pc := Idle)
    requires s == t + Moved(DurableOf(w), DurableOf(v))
    ensures Does(rules, env, true, w, t, [DropMarker], v, s)
  {
    hide Does, Moved, DurableOf;
    DoesStep(rules, env, true, w, DropMarker, v, t, s);
  }

  /** What an outcome means for the marker, in the code's reading and in statuses. */
  lemma RequestSorts(rules: Rules, env: Env, srv: Fdms, p: Prepared, fate: Fate, outcome: Outcome, r: SubmitResult,
                     rest: seq<Step>)
    requires FateOk(rules, srv, p.receipt, fate) && outcome == AnswerTo(env, rules.Dedup?, srv, p.receipt, fate)
    requires Concludes(outcome, r, rest)
    ensures Requested(env, rules.Dedup?, srv, p, [Send(fate)] + rest, r) && !r.Pending? && !r.Unsigned?
    ensures r.Unresolved? && r.failure.Http? ==>
              r.failure.status == 408 || r.failure.status == 429 || r.failure.status >= 500
    ensures r.Rejected? ==>
              r.failure.Http? && r.failure.status != 408 && r.failure.status != 429 && r.failure.status <= 499
  {
    hide Server.Submit, FateOk, Unprocessed, OutcomeUnknown, Refusal, OutcomeOf;
    if outcome.Failed? {
      FailureSorts(rules, srv, p.receipt, fate,
                   if fate.reached then Server.Submit(env, rules.Dedup?, srv, p.receipt, fate.latest).1 else Refused);
    }
  }

  /** reconcile()'s steps: its question, then a commit, or one request and what follows. */
  predicate Reconciled(env: Env, dedup: bool, srv: Fdms, p: Prepared, steps: seq<Step>, r: ReconcileResult) {
    && steps != [] && steps[0].AskStatus?
    && match r
       case NothingPending => false
       case Confirmed(no) =>
         steps[0].answer.Some? && steps[0].answer.value >= no == p.receipt.globalNo && steps[1..] == COMMIT
       case Resubmitted(no, errors) =>
         no == p.receipt.globalNo && Requested(env, dedup, srv, p, steps[1..], Submitted(errors))
       case RejectedReceipt(no, f) =>
         no == p.receipt.globalNo && Requested(env, dedup, srv, p, steps[1..], Rejected(f))
       case Unanswered(None) => steps[0].answer.None? && steps[1..] == []
       case Unanswered(Some(f)) => Requested(env, dedup, srv, p, steps[1..], Unresolved(f))
  }

  class FiscalDevice {
    const env: Env
    const client: FdmsClient
    const storage: MemoryStorage
    const timeline: Timeline
    var state: Option<DayState>

    ghost predicate Valid()
      reads this, client.server, storage, timeline
    {
      && client.timeline == timeline && storage.timeline == timeline && client.server.env == env
      && client.Valid() && storage.Valid()
    }

    /** The world around the device, given the queue's memory and the place in the program. */
    ghost function At(queue: Queue, pc: Pc): World
      reads this, timeline
    {
      World(timeline.now.srv, timeline.now.disk, timeline.now.journal, state, queue, pc)
    }

    constructor (env: Env, client: FdmsClient, storage: MemoryStorage)
      requires client.timeline == storage.timeline && client.server.env == env && client.Valid() && storage.Valid()
      ensures Valid() && state.None? && this.client == client && this.storage == storage
    {
      this.env, this.client, this.storage, this.timeline := env, client, storage, client.timeline;
      state := None;
    }

    method PendingReceipt() returns (pending: Option<Prepared>)
      requires Valid()
      ensures pending == timeline.now.disk.marker
    {
      var value := storage.Get(PendingKey);
      pending := if value.Some? then Some(value.value.prepared) else None;
    }

    method LastIssuedGlobalNo() returns (last: Option<nat>)
      requires Valid()
      ensures last == timeline.now.disk.lastGlobal
    {
      var value := storage.Get(LastGlobalKey);
      last := if value.Some? then Some(value.value.number) else None;
    }

    method LoadPersistedState()
      requires Valid()
      modifies this
      ensures Valid() && state == if old(state).Some? then old(state) else timeline.now.disk.dayState
    {
      if state.None? {
        var value := storage.Get(DayStateKey);
        state := if value.Some? then Some(value.value.state) else None;
      }
    }

    /** Two writes, the day state first; the stored number is only ever raised. */
    method PersistState()
      requires Valid()
      modifies storage, timeline
      ensures Valid()
      ensures state.None? ==> timeline.now == old(timeline.now) && timeline.trail == old(timeline.trail)
      ensures state.Some? ==>
        var d := old(timeline.now).(disk := old(timeline.now.disk).(dayState := state));
        && timeline.now == d.(disk := Raised(d.disk, state.value.globalNo))
        && timeline.trail == old(timeline.trail) + Moved(old(timeline.now), d) + Moved(d, timeline.now)
    {
      if state.Some? {
        storage.Set(DayStateKey, StateValue(state.value));
        var last := LastIssuedGlobalNo();
        if state.value.globalNo > (if last.Some? then last.value else 0) {
          storage.Set(LastGlobalKey, NumberValue(state.value.globalNo));
        }
      }
    }

    method CommitPrepared(p: Prepared, errors: seq<Code>, ghost via: Via, ghost queue: Queue)
      requires Valid()
      modifies this, storage, timeline
      ensures Valid() && timeline.now.journal == old(timeline.now.journal)
      ensures Does(client.rules, env, true, old(At(queue, Saving(p, via, errors))), old(timeline.trail), COMMIT,
                   At(queue, AfterMarker(p, via)), timeline.trail)
      ensures timeline.now.disk.marker.None?
      // The state committed to, with one more entry for each red code of the answer.
      ensures
        var base := if old(state).Some? && old(state).value.globalNo >= p.receipt.globalNo then old(state).value
                    else p.after;
        state == timeline.now.disk.dayState == Some(base.(redErrors := base.redErrors + Entries(p, errors)))
    {
      hide Does, AfterMarker, Entries, LastGlobal;
      ghost var w := At(queue, Saving(p, via, errors));
      if state.None? || state.value.globalNo < p.receipt.globalNo {
        state := Some(p.after);
      }
      ghost var start := state.value;
      for i := 0 to |errors|
        modifies this
        invariant Valid() && state == Some(WithReds(start, p, errors[..i]))
      {
        assert errors[..i + 1][..i] == errors[..i];
        if Red(errors[i]) {
          state := Some(state.value.(redErrors :=
            state.value.redErrors + [RedError(p.receipt.globalNo, p.receipt.counter, CodeNo(errors[i]))]));
        }
      }
      assert errors[..|errors|] == errors;
      RedsAdded(start, p, errors);
      hide WithReds;
      PersistState();
      storage.Delete(PendingKey);
      ghost var a := w.(mem := state, disk := w.disk.(dayState := state), pc := SavingLast(p, via));
      ghost var b := a.(disk := Raised(a.disk, state.value.globalNo), pc := Unmarking(p, via));
      CommitDoes(client.rules, env, w, a, b, At(queue, AfterMarker(p, via)), old(timeline.trail));
    }

    /** The step that the next POST of a receipt is, whatever the network does with it. */
    ghost function NextPost(r: Receipt): Step
      reads client, timeline
    {
      Send(Granted(client.rules, timeline.now.srv, r, client.fates(client.sent)))
    }

    /** GetStatus will be answered. */
    ghost predicate Hears()
      reads client
    {
      Reaches(client.questions(client.asked), client.retries)
    }

    /** Submit a receipt in hand: the marker is on disk before the request leaves, and goes last. */
    method SubmitPrepared(p: Prepared, ghost via: Via, ghost queue: Queue)
      returns (r: SubmitResult, ghost steps: seq<Step>)
      requires Valid()
      modifies this, client, client.server, storage, timeline
      ensures Valid() && timeline.now.journal == old(timeline.now.journal)
      ensures old(timeline.now.disk.marker).Some? ==>
        && r == Pending(old(timeline.now.disk.marker).value.receipt.globalNo)
        && state == old(state) && timeline.now == old(timeline.now) && timeline.trail == old(timeline.trail)
      ensures client.asked == old(client.asked)
      ensures client.sent == old(client.sent) + if r.Pending? then 0 else 1
      ensures !r.Pending? ==> |steps| > 1 && steps[1] == old(NextPost(p.receipt))
      ensures old(timeline.now.disk.marker).None? ==>
        && !r.Pending? && !r.Unsigned? && (!r.Submitted? ==> state == old(state))
        && Does(client.rules, env, true, old(At(queue, Marking(p, via))), old(timeline.trail), steps,
                At(queue, Landing(r, p, via)), timeline.trail)
        && |steps| > 1 && steps[0] == WriteMarker
        && Requested(env, client.rules.Dedup?, old(timeline.now.srv), p, steps[1..], r)
        && timeline.now.disk.marker == if r.Unresolved? then Some(p) else None
      ensures r.Unresolved? && r.failure.Http? ==>
                r.failure.status == 408 || r.failure.status == 429 || r.failure.status >= 500
      ensures r.Rejected? ==>
                r.failure.Http? && r.failure.status != 408 && r.failure.status != 429 && r.failure.status <= 499
    {
      hide Does, Server.Submit, FateOk, AllReceipts, Moved;
      steps := [];
      var pending := PendingReceipt();
      if pending.Some? {
        return Pending(pending.value.receipt.globalNo), steps;
      }
      ghost var w, t := At(queue, Marking(p, via)), timeline.trail;
      storage.Set(PendingKey, PreparedValue(p));
      ghost var a, t1 := At(queue, Sending(p, via)), timeline.trail;
      DoesStep(client.rules, env, true, w, WriteMarker, a, t, t1);

      r, steps := Request(p, via, queue);
      DoesBoth(client.rules, env, true, w, t, [WriteMarker], a, t1, steps, At(queue, Landing(r, p, via)),
               timeline.trail);
      steps := [WriteMarker] + steps;
    }

    /** The request and its outcome, with the marker already on disk. */
    method Request(p: Prepared, ghost via: Via, ghost queue: Queue) returns (r: SubmitResult, ghost steps: seq<Step>)
      requires Valid() && timeline.now.disk.marker == Some(p)
      modifies this, client, client.server, storage, timeline
      ensures Valid() && timeline.now.journal == old(timeline.now.journal) && !r.Pending? && !r.Unsigned?
      ensures Does(client.rules, env, true, old(At(queue, Sending(p, via))), old(timeline.trail), steps,
                   At(queue, Landing(r, p, via)), timeline.trail)
      ensures Requested(env, client.rules.Dedup?, old(timeline.now.srv), p, steps,
                        r) && (!r.Submitted? ==> state == old(state))
      ensures steps != [] && steps[0] == old(NextPost(p.receipt))
      ensures client.sent == old(client.sent) + 1 && client.asked == old(client.asked)
      ensures timeline.now.disk.marker == if r.Unresolved? then Some(p) else None
      // The marker stays after the network's failures, 408, 429, 500 and up, and what is no HTTP answer; else it goes.
      ensures r.Unresolved? && r.failure.Http? ==>
                r.failure.status == 408 || r.failure.status == 429 || r.failure.status >= 500
      ensures r.Rejected? ==>
                r.failure.Http? && r.failure.status != 408 && r.failure.status != 429 && r.failure.status <= 499
      ensures if r.Submitted? then state.Some? else timeline.now.disk.dayState == old(timeline.now.disk.dayState)
    {
      hide Does, Server.Submit, FateOk, AllReceipts, Moved, Raised, Committed, AfterMarker, Granted, Entries, Requested,
        Answering, Landing, Refusal, OutcomeUnknown, Concludes;
      ghost var w, t := At(queue, Sending(p, via)), timeline.trail;
      ghost var fate;
      var outcome: Outcome;
      outcome, fate := client.SubmitReceipt(p.receipt);
      ghost var taken := Server.Submit(env, client.rules.Dedup?, w.srv, p.receipt, fate.latest);
      ghost var response := if fate.reached then taken.1 else Refused;
      ghost var a, t1 := At(queue, Answering(p, via, outcome)), timeline.trail;
      SendDoes(client.rules, env, w, fate, response, a, t);
      ghost var rest;
      r, rest := Conclude(p, outcome, via, queue);
      DoesBoth(client.rules, env, true, w, t, [Send(fate)], a, t1, rest, At(queue, Landing(r, p, via)), timeline.trail);
      steps := [Send(fate)] + rest;
      RequestSorts(client.rules, env, w.srv, p, fate, outcome, r, rest);
    }

    /** What an answer, a refusal or an unknown outcome leads to. */
    method Conclude(p: Prepared, outcome: Outcome, ghost via: Via, ghost queue: Queue)
      returns (r: SubmitResult, ghost rest: seq<Step>)
      requires Valid() && timeline.now.disk.marker == Some(p)
      modifies this, storage, timeline
      ensures Valid() && timeline.now.journal == old(timeline.now.journal) && Concludes(outcome, r, rest)
      ensures Does(client.rules, env, true, old(At(queue, Answering(p, via, outcome))), old(timeline.trail), rest,
                   At(queue, Landing(r, p, via)), timeline.trail)
      ensures timeline.now.disk.marker == if r.Unresolved? then Some(p) else None
      ensures if r.Submitted? then state.Some?
              else state == old(state) && timeline.now.disk.dayState == old(timeline.now.disk.dayState)
    {
      hide Does, Moved, Raised, Committed, AfterMarker, Entries;
      ghost var w, t := At(queue, Answering(p, via, outcome)), timeline.trail;
      if outcome.Answered? {
        CommitPrepared(p, outcome.errors, via, queue);
        r, rest := Submitted(outcome.errors), COMMIT;
      } else if Refusal(outcome.failure) {
        storage.Delete(PendingKey);
        r, rest := Rejected(outcome.failure), [DropMarker];
        DropDoes(client.rules, env, w, At(queue, Idle), t, timeline.trail);
      } else {
        r, rest := Unresolved(outcome.failure), [];
        DoesNothing(client.rules, env, true, w, t);
      }
    }

    /** The caller keeps to the setting: see `Permitted`. */
    ghost predicate MayReconcile(via: Via, queue: Queue)
      reads this, timeline
    {
      Permitted(client.rules, env, At(queue, Idle), if via.Flush? then FlushHead else Step.Reconcile)
    }

    /**
     * Settle the marker: load the stored state, ask GetStatus, and send the
     * identical receipt again only if it is not covered. Called on start, and
     * by flush() for the marker of its head.
     */
    method Reconcile(ghost via: Via, ghost queue: Queue) returns (r: ReconcileResult, ghost steps: seq<Step>)
      requires Valid() && (via.Startup? || (via.Flush? && timeline.now.disk.marker.Some?))
      requires Enabled(env, At(queue, Idle), if via.Flush? then FlushHead else Step.Reconcile)
      modifies this, client, client.server, storage, timeline
      ensures Valid() && timeline.now.journal == old(timeline.now.journal)
      ensures Does(client.rules, env, old(MayReconcile(via, queue)), old(At(queue, Idle)), old(timeline.trail), steps,
                   At(queue, AfterReconcile(r, old(timeline.now.disk.marker), via)), timeline.trail)
      ensures steps != [] && steps[0] == if via.Flush? then FlushHead else Step.Reconcile
      ensures r.NothingPending? <==> old(timeline.now.disk.marker).None?
      ensures !r.NothingPending? ==>
                Reconciled(env, client.rules.Dedup?, old(timeline.now.srv), old(timeline.now.disk.marker).value,
                           steps[1..], r)
      ensures r.NothingPending? ==> |steps| == 1 && client.asked == old(client.asked) && client.sent == old(client.sent)
      ensures !r.NothingPending? ==>
        && client.asked == old(client.asked) + 1 && (steps[1].answer.Some? <==> old(Hears()))
        && client.sent == old(client.sent) + (if r.Confirmed? || r == Unanswered(None) then 0 else 1)
        && (client.sent != old(client.sent) ==>
              |steps| > 2 && steps[2] == old(NextPost(timeline.now.disk.marker.value.receipt)))
      ensures timeline.now.disk.marker == if r.Unanswered? then old(timeline.now.disk.marker) else None
      ensures state.Some? || timeline.now.disk.dayState.None?
    {
      hide Does, Moved, Permitted, Tail, HeadLost, SignReceipt, OpenDay, CloseDay, Sent, Raised, Committed,
        FirstState, CloseRequestOf, Indexed, LastGlobal, Reconciled;
      ghost var ok := MayReconcile(via, queue);
      ghost var w, t := At(queue, Idle), timeline.trail;
      ghost var first := if via.Flush? then FlushHead else Step.Reconcile;
      DoesNothing(client.rules, env, ok, w, t);
      LoadPersistedState();
      var pending := PendingReceipt();
      if pending.None? {
        DoesUnseen(client.rules, env, ok, w, t, [], w, t, first, At(queue, Idle));
        return NothingPending, [] + [first];
      }
      var p := pending.value;
      ghost var a := At(queue, Asking(p, via));
      DoesUnseen(client.rules, env, ok, w, t, [], w, t, first, a);
      r, steps := Settle(p, via, queue);
      DoesBoth(client.rules, env, ok, w, t, [] + [first], a, t, steps, At(queue, AfterReconcile(r, Some(p), via)),
               timeline.trail);
      assert ([] + [first] + steps)[1..] == steps;
      steps := [] + [first] + steps;
    }

    method Settle(p: Prepared, ghost via: Via, ghost queue: Queue) returns (r: ReconcileResult, ghost steps: seq<Step>)
      requires Valid() && timeline.now.disk.marker == Some(p) && !via.Fallback?
      modifies this, client, client.server, storage, timeline
      ensures Valid() && timeline.now.journal == old(timeline.now.journal) && !r.NothingPending?
      ensures Does(client.rules, env, true, old(At(queue, Asking(p, via))), old(timeline.trail), steps,
                   At(queue, AfterReconcile(r, Some(p), via)), timeline.trail)
      ensures Reconciled(env, client.rules.Dedup?, old(timeline.now.srv), p, steps, r)
      ensures client.asked == old(client.asked) + 1 && (steps[0].answer.Some? <==> old(Hears()))
      ensures client.sent == old(client.sent) + (if r.Confirmed? || r == Unanswered(None) then 0 else 1)
      ensures client.sent != old(client.sent) ==> |steps| > 1 && steps[1] == old(NextPost(p.receipt))
      ensures timeline.now.disk.marker == if r.Unanswered? then Some(p) else None
      ensures state.Some? || (state == old(state) && timeline.now.disk.dayState == old(timeline.now.disk.dayState))
    {
      hide Does, AllReceipts, Moved, Reports, Requested, Tail, HeadLost, SignReceipt, OpenDay, CloseDay, Sent, Raised,
        Committed, FirstState, CloseRequestOf, Indexed, LastGlobal, MaySign, MarkerIsHead, Granted, Reaches,
        AfterMarker, Entries, AnswerTo, Refusal, OutcomeUnknown, Server.Submit, FateOk;
      ghost var w, t := At(queue, Asking(p, via)), timeline.trail;
      DoesNothing(client.rules, env, true, w, t);
      ghost var post := NextPost(p.receipt);
      var answer := client.GetStatus();
      assert NextPost(p.receipt) == post;
      ghost var ask := AskStatus(if answer.Some? then Some(answer.value.1) else None);
      if answer.None? {
        DoesUnseen(client.rules, env, true, w, t, [], w, t, ask, At(queue, Idle));
        r, steps := Unanswered(None), [] + [ask];
      } else if answer.value.1 >= p.receipt.globalNo {
        ghost var b := At(queue, Saving(p, via, []));
        DoesUnseen(client.rules, env, true, w, t, [], w, t, ask, b);
        CommitPrepared(p, [], via, queue);
        DoesBoth(client.rules, env, true, w, t, [] + [ask], b, t, COMMIT, At(queue, AfterMarker(p, via)),
                 timeline.trail);
        assert ([] + [ask] + COMMIT)[1..] == COMMIT;
        r, steps := Confirmed(p.receipt.globalNo), [] + [ask] + COMMIT;
      } else {
        ghost var b := At(queue, Sending(p, via));
        DoesUnseen(client.rules, env, true, w, t, [], w, t, ask, b);
        var sent;
        sent, steps := Request(p, via, queue);
        DoesBoth(client.rules, env, true, w, t, [] + [ask], b, t, steps, At(queue, Landing(sent, p, via)),
                 timeline.trail);
        assert ([] + [ask] + steps)[1..] == steps && ([] + [ask] + steps)[1] == steps[0];
        steps := [] + [ask] + steps;
        r := match sent
          case Submitted(errors) => Resubmitted(p.receipt.globalNo, errors)
          case Rejected(failure) => RejectedReceipt(p.receipt.globalNo, failure)
          case Unresolved(failure) => Unanswered(Some(failure))
          case _ => NothingPending;
      }
    }

    /** signReceipt: number, chain and sign on the day state in memory, changing nothing. */
    method SignNext(input: ReceiptInput, now: int) returns (signed: SignResult)
      ensures signed == if state.Some? then SignReceipt(env, state.value, input, now) else Invalid
    {
      signed := if state.Some? then SignReceipt(env, state.value, input, now) else Invalid;
    }

    /** The caller keeps to the setting: dates in order, nothing queued. */
    ghost predicate MaySubmit(input: ReceiptInput, now: int, queue: Queue)
      reads this, timeline
    {
      MaySign(client.rules, At(queue, Idle), input, now) && Tail(timeline.now.journal) == []
    }

    /** Build, sign and submit in one call. */
    method SubmitReceipt(input: ReceiptInput, now: int, ghost queue: Queue)
      returns (r: SubmitResult, ghost steps: seq<Step>)
      requires Valid()
      modifies this, client, client.server, storage, timeline
      ensures Valid() && timeline.now.journal == old(timeline.now.journal)
      ensures Does(client.rules, env, old(MaySubmit(input, now, queue)), old(At(queue, Idle)), old(timeline.trail),
                   steps, At(queue, Idle), timeline.trail)
      ensures r.Pending? <==> old(timeline.now.disk.marker).Some?
      ensures r.Pending? || r.Unsigned? ==> steps == []
      ensures !r.Pending? && !r.Unsigned? ==>
        && old(state).Some? && SignReceipt(env, old(state).value, input, now).Signed?
        && |steps| > 2 && steps[..2] == [Submit(input, now, Direct), WriteMarker]
        && Requested(env, client.rules.Dedup?, old(timeline.now.srv),
                     SignReceipt(env, old(state).value, input, now).prepared, steps[2..], r)
      ensures client.asked == old(client.asked)
      ensures if r.Pending? || r.Unsigned? then client.sent == old(client.sent)
              else
                && client.sent == old(client.sent) + 1
                && steps[2] == old(NextPost(SignReceipt(env, state.value, input, now).prepared.receipt))
      ensures r.Submitted? || r.Rejected? ==> timeline.now.disk.marker.None?
      ensures r.Unresolved? ==>
        timeline.now.disk.marker == Some(SignReceipt(env, old(state).value, input, now).prepared)
    {
      hide Does, SignReceipt, MaySign, Tail, Moved, Requested, Sent, OpenDay, CloseDay, Raised, Committed, FirstState,
        CloseRequestOf, Indexed, LastGlobal, Reports, AllReceipts, Highest;
      ghost var ok := MaySubmit(input, now, queue);
      ghost var w, t := At(queue, Idle), timeline.trail;
      steps := [];
      DoesNothing(client.rules, env, ok, w, t);
      var pending := PendingReceipt();
      if pending.Some? {
        return Pending(pending.value.receipt.globalNo), steps;
      }
      var signed := SignNext(input, now);
      if signed.Invalid? {
        return Unsigned, steps;
      }
      ghost var a := At(queue, Marking(signed.prepared, Direct));
      DoesUnseen(client.rules, env, ok, w, t, [], w, t, Submit(input, now, Direct), a);
      r, steps := SubmitPrepared(signed.prepared, Direct, queue);
      DoesBoth(client.rules, env, ok, w, t, [] + [Submit(input, now, Direct)], a, t, steps, At(queue, Idle),
               timeline.trail);
      assert ([] + [Submit(input, now, Direct)] + steps)[2..] == steps[1..];
      steps := [] + [Submit(input, now, Direct)] + steps;
    }

    /** Move past a receipt that the journal has taken. */
    method ApplyPrepared(p: Prepared) returns (applied: bool)
      requires Valid()
      modifies this, storage, timeline
      ensures Valid()
      ensures applied <==> old(state).Some? && p.receipt.globalNo == old(state).value.globalNo + 1
      ensures !applied ==> state == old(state) && timeline.now == old(timeline.now)
      ensures !applied ==> timeline.trail == old(timeline.trail)
      ensures applied ==>
        && state == Some(p.after) && timeline.now.disk.marker == old(timeline.now.disk.marker)
        && var d := old(timeline.now).(disk := old(timeline.now.disk).(dayState := state));
           && timeline.now == d.(disk := Raised(d.disk, p.after.globalNo))
           && timeline.trail == old(timeline.trail) + Moved(old(timeline.now), d) + Moved(d, timeline.now)
    {
      if state.None? || p.receipt.globalNo != state.value.globalNo + 1 {
        return false;
      }
      state := Some(p.after);
      PersistState();
      applied := true;
    }

    /**
     * Open a day. Numbers continue from the largest of the reported, the given
     * and the stored one. The call is taken to run to its end.
     */
    method OpenFiscalDay(dayNo: Option<nat>, openedAt: int, given: nat, ghost queue: Queue)
      returns (opening: Option<nat>, ghost steps: seq<Step>)
      requires Valid()
      modifies this, client, client.server, storage, timeline
      ensures Valid() && timeline.now.journal == old(timeline.now.journal)
      ensures Plays(client.rules, env, old(At(queue, Idle)), steps)
      ensures End(env, client.rules.Dedup?, old(At(queue, Idle)), steps) == At(queue, Idle)
      ensures old(Tail(timeline.now.journal) == [] && given <= Highest(AllReceipts(timeline.now.srv.days))) ==>
                Run(client.rules, env, old(At(queue, Idle)), steps)
      ensures opening.None? ==> steps == []
      // It opens a day exactly when nothing is pending, GetStatus is answered with a closed day, and FDMS agrees.
      ensures opening.Some? <==>
        && old(timeline.now.disk.marker).None? && old(Hears()) && old(timeline.now.srv).status.DayClosed?
        && OpenDay(old(timeline.now.srv), dayNo, openedAt).Some?
      ensures opening.Some? ==>
        && |steps| == 1 && steps[0].OpenFiscalDay?
        && steps[0].dayNo == dayNo && steps[0].openedAt == openedAt && steps[0].given == given
        && state.Some? && state.value.dayNo == opening.value
    {
      hide Run, Plays, End, Next, Permitted, Surroundings, Enabled, Highest, AllReceipts, Moved, Tail, OpenDay,
        Reports, Raised;
      ghost var w := At(queue, Idle);
      NoSteps(client.rules, env, w);
      steps := [];
      var pending := PendingReceipt();
      if pending.Some? {
        return None, steps;
      }
      var answer := client.GetStatus();
      if answer.None? || answer.value.0 != DayClosed {
        return None, steps;
      }
      opening := client.OpenDay(dayNo, openedAt);
      if opening.None? {
        return None, steps;
      }
      var last := LastIssuedGlobalNo();
      var start := Max(Max(answer.value.1, given), if last.Some? then last.value else 0);
      state := Some(FirstState(env, opening.value, openedAt, start));
      PersistState();
      OpenDoes(client.rules, env, w, At(queue, Idle), dayNo, openedAt, answer.value.1, given);
      steps := [Step.OpenFiscalDay(dayNo, openedAt, answer.value.1, given)];
    }

    /** Sign and send CloseDay; the state in memory goes once FDMS has accepted it. */
    method CloseFiscalDay(force: bool, ghost queue: Queue) returns (accepted: bool, ghost steps: seq<Step>)
      requires Valid()
      modifies this, client, client.server, timeline
      ensures Valid() && timeline.now.journal == old(timeline.now.journal)
      ensures timeline.now.disk == old(timeline.now.disk)
      ensures Does(client.rules, env, old(Tail(timeline.now.journal) == []), old(At(queue, Idle)), old(timeline.trail),
                   steps, At(queue, Idle), timeline.trail)
      ensures steps != [] ==>
                |steps| == 1 && steps[0] == Step.CloseFiscalDay(force, GrantedClose(client.fates(old(client.sent))))
      ensures client.sent == old(client.sent) + |steps|
      ensures accepted <==>
        && steps != [] && steps[0].fate.reached && steps[0].fate.failure.None?
        && old(timeline.now.srv).status.DayOpened? && old(state).value.dayNo == Today(old(timeline.now.srv)).no
      ensures state == if accepted then None else old(state)
      ensures steps == [] <==>
                || old(timeline.now.disk.marker).Some? || old(state).None?
                || (!force && old(state).value.redErrors != [])
    {
      hide Does, Moved, Tail, CloseDay, FiscalDaySigningString, SignatureText, NonZero, Merged;
      ghost var ok := Tail(timeline.now.journal) == [];
      ghost var w, t := At(queue, Idle), timeline.trail;
      steps := [];
      accepted := false;
      DoesNothing(client.rules, env, ok, w, t);
      var pending := PendingReceipt();
      if pending.Some? || state.None? || (!force && state.value.redErrors != []) {
        return;
      }
      var s := state.value;
      var counters := MergeCurrencyCase(s.counters);
      var canonical := FiscalDaySigningString(env.deviceId, s.dayNo, s.dayDate, counters);
      var q := CloseRequest(s.dayNo, NonZero(counters), env.hash(canonical), SignatureText(env, canonical), s.counter);
      ghost var fate;
      accepted, fate := client.CloseDay(q);
      CloseTaken(env, w.srv, q);
      if accepted {
        state := None;
      }
      CloseDoes(client.rules, env, ok, w, At(queue, Idle), force, fate, t);
      steps := [Step.CloseFiscalDay(force, fate)];
    }

    /** Called once GetStatus reports the day closed. */
    method ClearPersistedState(ghost queue: Queue)
      requires Valid()
      modifies this, storage, timeline
      ensures Valid() && state.None? && timeline.now.disk.dayState.None?
      ensures Does(client.rules, env, old(timeline.now.srv.status.DayClosed? && Tail(timeline.now.journal) == []),
                   old(At(queue, Idle)), old(timeline.trail), [ClearState], At(queue, Idle), timeline.trail)
    {
      hide Does, Moved, Tail;
      ghost var ok := timeline.now.srv.status.DayClosed? && Tail(timeline.now.journal) == [];
      ghost var w, t := At(queue, Idle), timeline.trail;
      state := None;
      storage.Delete(DayStateKey);
      DoesStep(client.rules, env, ok, w, ClearState, At(queue, Idle), t, timeline.trail);
    }
  }
}
