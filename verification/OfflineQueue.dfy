/** The offline queue (OfflineReceiptQueue in src/core/queue.ts): every call is a run of the machine. */
module OfflineQueue {
  import opened Text
  import opened Options
  import opened Ledger
  import opened Counters
  import opened Receipts
  import opened Server
  import opened Transport
  import opened Protocol
  import opened Steps
  import opened Reds
  import opened Runs
  import opened Trace
  import opened Calls
  import opened Stores
  import opened Device
  import opened Invariant
  import Theorems

  const TAKE: seq<Step> := [Append, ApplyState, ApplyLast]

  /** The worlds that taking a receipt into the journal passes through. */
  lemma TakeDoes(rules: Rules, env: Env, w: World, a: World, b: World, c: World, t: seq<Durable>)
    requires w.pc.Appending? && w.mem.Some? && w.pc.p.receipt.globalNo == w.mem.value.globalNo + 1
    requires var p := w.pc.p;
      && a == w.(journal := w.journal.(records := w.journal.records + [p]), pc := Applying(p))
      && b == a.(mem := Some(p.after), disk := a.disk.(dayState := Some(p.after)), pc := ApplyingLast(p))
      && c == b.(disk := Raised(b.disk, p.after.globalNo), pc := Idle,
                 queue := b.queue.(pending := b.queue.pending + [Queued(b.journal.cursor + |b.queue.pending|, p)]))
    ensures Does(rules, env, true, w, t, TAKE, c,
                 t + Moved(DurableOf(w), DurableOf(a)) + Moved(DurableOf(a), DurableOf(b))
                 + Moved(DurableOf(b), DurableOf(c)))
  {
    hide Raised, DurableOf, Moved, Does;
    var t1 := t + Moved(DurableOf(w), DurableOf(a));
    var t2 := t1 + Moved(DurableOf(a), DurableOf(b));
    DoesStep(rules, env, true, w, Append, a, t, t1);
    DoesMore(rules, env, true, w, t, [Append], a, t1, ApplyState, b, t2);
    DoesMore(rules, env, true, w, t, [Append] + [ApplyState], b, t2, ApplyLast, c,
             t2 + Moved(DurableOf(b), DurableOf(c)));
    assert [Append] + [ApplyState] + [ApplyLast] == TAKE;
  }

  lemma AppendDoes(rules: Rules, env: Env, w: World, a: World, t: seq<Durable>, s: seq<Durable>)
    requires w.pc.Appending? && s == t + Moved(DurableOf(w), DurableOf(a))
    requires a == w.(journal := w.journal.(records := w.journal.records + [w.pc.p]), pc := Applying(w.pc.p))
    ensures Does(rules, env, true, w, t, [Append], a, s)
  {
    hide DurableOf, Moved, Does;
    DoesStep(rules, env, true, w, Append, a, t, s);
  }

  /** The cursor moves past the head, and the head leaves the list. */
  lemma AdvanceDoes(rules: Rules, env: Env, ok: bool, w: World, t: seq<Durable>, steps: seq<Step>, a: World,
                    s: seq<Durable>, u: World, r: seq<Durable>)
    requires Does(rules, env, ok, w, t, steps, a, s) && a.pc.Advancing? && a.queue.pending != []
    requires u == a.(journal := a.journal.(cursor := Max(a.journal.cursor, a.queue.pending[0].cursor + 1)),
                     queue := a.queue.(pending := a.queue.pending[1..]), pc := Idle)
    requires r == s + Moved(DurableOf(a), DurableOf(u))
    ensures Does(rules, env, ok, w, t, steps + [CommitJournal], u, r)
  {
    hide Does, Moved, DurableOf;
    DoesMore(rules, env, ok, w, t, steps, a, s, CommitJournal, u, r);
  }

  /** A marker for another receipt than the head: nothing may be sent. */
  predicate Blocked(marker: Option<Prepared>, head: Prepared) {
    marker.Some? && marker.value.receipt.globalNo != head.receipt.globalNo
  }

  /** The steps of a flush: neither a sale nor anything of a day is among them. */
  predicate OfFlush(step: Step) {
    || step.FlushHead? || step.AskStatus? || step.WriteMarker? || step.Send? || step.DropMarker? || step.WriteState?
    || step.WriteLast? || step.ClearMarker? || step.CommitJournal?
  }

  predicate AllOfFlush(steps: seq<Step>) {
    forall i :: 0 <= i < |steps| ==> OfFlush(steps[i])
  }

  /** One try at the head of the queue, before the journal's cursor moves. */
  predicate Tried(steps: seq<Step>) {
    && steps != [] && steps[0] == FlushHead && FlushHead !in steps[1..] && CommitJournal !in steps
    && AllOfFlush(steps)
  }

  /** A round begins only at the start, or after the round before has moved the cursor. */
  predicate RoundByRound(steps: seq<Step>) {
    forall k :: 0 < k < |steps| && steps[k] == FlushHead ==> steps[k - 1] == CommitJournal
  }

  /**
   * What flush() makes of a loaded queue: its rounds, until nothing is left, a
   * marker of another receipt blocks the head, or a last try does not deliver it.
   */
  predicate Flushes(env: Env, dedup: bool, w: World, steps: seq<Step>, last: seq<Step>) {
    && Possible(env, dedup, w, steps) && AllOfFlush(steps) && RoundByRound(steps)
    && var v := End(env, dedup, w, steps);
       && v.pc.Idle? && v.queue.loaded
       && (v.queue.pending != [] ==>
             || Blocked(v.disk.marker, v.queue.pending[0].item)
             || (Tried(last) && |last| <= |steps| && steps[|steps| - |last|..] == last))
  }

  /** Steps of rounds that have moved the cursor. */
  predicate Rounds(steps: seq<Step>) {
    AllOfFlush(steps) && RoundByRound(steps) && (steps != [] ==> steps[|steps| - 1] == CommitJournal)
  }

  lemma OneTryMore(rounds: seq<Step>, more: seq<Step>)
    requires Rounds(rounds) && Tried(more)
    ensures AllOfFlush(rounds + more) && RoundByRound(rounds + more)
    ensures var all := rounds + more + [CommitJournal]; AllOfFlush(all) && RoundByRound(all) && Rounds(all)
  {
    hide OfFlush;
    assert forall k :: 0 < k < |more| ==> more[k] == more[1..][k - 1];
    assert OfFlush(CommitJournal) by { MovesTheCursor(); }
  }

  lemma NoRounds()
    ensures AllOfFlush([]) && RoundByRound([]) && Rounds([])
  {
  }

  lemma NothingFlushed(env: Env, dedup: bool, w: World)
    requires w.pc.Idle? && w.queue.loaded && w.queue.pending == []
    ensures Flushes(env, dedup, w, [], []) && End(env, dedup, w, []) == w
  {
  }

  lemma MovesTheCursor()
    ensures OfFlush(CommitJournal)
  {
  }

  lemma FlushEnds(rules: Rules, env: Env, w: World, t: seq<Durable>, steps: seq<Step>, v: World, s: seq<Durable>,
                  last: seq<Step>)
    requires Does(rules, env, true, w, t, steps, v, s) && AllOfFlush(steps) && RoundByRound(steps)
    requires v.pc.Idle? && v.queue.loaded
    requires v.queue.pending != [] ==>
      || Blocked(v.disk.marker, v.queue.pending[0].item)
      || (Tried(last) && |last| <= |steps| && steps[|steps| - |last|..] == last)
    ensures Flushes(env, rules.Dedup?, w, steps, last) && End(env, rules.Dedup?, w, steps) == v
  {
    hide Run, Surrounded, Trail, AllOfFlush, RoundByRound, Tried, Blocked, Possible;
  }

  lemma RequestedAttempts(env: Env, dedup: bool, srv: Fdms, p: Prepared, steps: seq<Step>, r: SubmitResult)
    requires Requested(env, dedup, srv, p, steps, r)
    ensures FlushHead !in steps && CommitJournal !in steps && AllOfFlush(steps)
  {
    hide AnswerTo;
    assert steps == [steps[0]] + steps[1..];
  }

  lemma SubmittedAttempts(env: Env, dedup: bool, srv: Fdms, p: Prepared, steps: seq<Step>, r: SubmitResult)
    requires |steps| > 1 && steps[0] == WriteMarker && Requested(env, dedup, srv, p, steps[1..], r)
    ensures Tried([] + [FlushHead] + steps)
  {
    hide Requested;
    RequestedAttempts(env, dedup, srv, p, steps[1..], r);
    assert steps == [WriteMarker] + steps[1..];
    assert [] + [FlushHead] + steps == [FlushHead, WriteMarker] + steps[1..];
  }

  lemma ReconciledAttempts(env: Env, dedup: bool, srv: Fdms, p: Prepared, steps: seq<Step>, r: ReconcileResult)
    requires steps != [] && steps[0] == FlushHead && Reconciled(env, dedup, srv, p, steps[1..], r)
    ensures Tried(steps)
  {
    hide Requested;
    var rest := steps[1..];
    assert rest == [rest[0]] + rest[1..];
    match r {
      case Resubmitted(no, errors) => RequestedAttempts(env, dedup, srv, p, rest[1..], Submitted(errors));
      case RejectedReceipt(no, f) => RequestedAttempts(env, dedup, srv, p, rest[1..], Rejected(f));
      case Unanswered(Some(f)) => RequestedAttempts(env, dedup, srv, p, rest[1..], Unresolved(f));
      case _ =>
    }
    assert FlushHead !in rest && CommitJournal !in rest;
    assert steps == [FlushHead] + rest;
  }

  datatype SaleResult = Journaled(prepared: Prepared) | Done(result: SubmitResult)

  /**
   * A sale with nothing queued: one direct submit, and the journal if and only
   * if its outcome is unknown: the network's failures, 408, 429, 500 and up.
   */
  predicate SoldNow(env: Env, dedup: bool, u: World, input: ReceiptInput, now: int, steps: seq<Step>, r: SaleResult) {
    match r
    case Done(Pending(n)) => steps == [] && u.disk.marker.Some? && n == u.disk.marker.value.receipt.globalNo
    case Done(Unsigned) => steps == [] && (u.mem.None? || SignReceipt(env, u.mem.value, input, now).Invalid?)
    case Done(result) =>
      && u.disk.marker.None? && u.mem.Some? && SignReceipt(env, u.mem.value, input, now).Signed?
      && |steps| > 2 && steps[..2] == [Submit(input, now, Fallback), WriteMarker]
      && Requested(env, dedup, u.srv, SignReceipt(env, u.mem.value, input, now).prepared, steps[2..], result)
      && (result.Unresolved? ==> result.failure.Other?)
    case Journaled(p) =>
      && u.disk.marker.None? && u.mem.Some? && SignReceipt(env, u.mem.value, input, now) == Signed(p)
      && |steps| > 3 && steps[..2] == [Submit(input, now, Fallback), WriteMarker]
      && steps[2].Send? && steps[3..] == TAKE
      && var outcome := AnswerTo(env, dedup, u.srv, p.receipt, steps[2].fate);
         && outcome.Failed?
         && (outcome.failure.Network?
             || (outcome.failure.Http?
                 && (outcome.failure.status == 408 || outcome.failure.status == 429 || outcome.failure.status >= 500)))
  }

  /** A sale behind what is queued. */
  predicate SoldBehind(env: Env, u: World, input: ReceiptInput, now: int, steps: seq<Step>, r: SaleResult) {
    match r
    case Journaled(p) =>
      && u.mem.Some? && SignReceipt(env, u.mem.value, input, now) == Signed(p)
      && steps == [Step.Enqueue(input, now)] + TAKE
    case Done(result) =>
      result.Unsigned? && steps == [] && (u.mem.None? || SignReceipt(env, u.mem.value, input, now).Invalid?)
  }

  /** A sale over a loaded queue: a flush first, and then the sale, behind others only where the flush stopped short. */
  predicate Sells(env: Env, dedup: bool, w: World, input: ReceiptInput, now: int, flushed: seq<Step>,
                  last: seq<Step>, rest: seq<Step>, r: SaleResult) {
    && Flushes(env, dedup, w, flushed, last)
    && var u := End(env, dedup, w, flushed);
       if u.queue.pending == [] then SoldNow(env, dedup, u, input, now, rest, r)
       else SoldBehind(env, u, input, now, rest, r)
  }

  class OfflineReceiptQueue {
    const device: FiscalDevice
    const journal: MemoryJournal
    var pending: seq<Queued>
    var loaded: bool

    ghost predicate Valid()
      reads this, device, device.client.server, device.storage, device.timeline, journal
    {
      device.Valid() && journal.timeline == device.timeline && journal.Valid()
    }

    ghost function Memory(): Queue
      reads this
    {
      Queue(pending, loaded)
    }

    ghost function Here(): World
      reads this, device, device.timeline
    {
      device.At(Memory(), Idle)
    }

    constructor (device: FiscalDevice, journal: MemoryJournal)
      requires device.Valid() && journal.timeline == device.timeline && journal.Valid()
      ensures Valid() && this.device == device && this.journal == journal && pending == [] && !loaded
    {
      this.device, this.journal, pending, loaded := device, journal, [], false;
    }

    /** Load once; a journal entry ahead of the day state catches the state up. */
    method EnsureLoaded() returns (ghost steps: seq<Step>)
      requires Valid()
      modifies this, device
      ensures Valid() && loaded && (old(device.state).Some? ==> device.state.Some?)
      ensures steps == if old(loaded) then [] else [LoadQueue]
      ensures Does(device.client.rules, device.env, true, old(Here()), device.timeline.trail, steps, Here(),
                   device.timeline.trail)
      ensures Here() == LoadDone(device.env, device.client.rules.Dedup?, old(Here()))
    {
      hide Does;
      ghost var w, t := Here(), device.timeline.trail;
      DoesNothing(device.client.rules, device.env, true, w, t);
      steps := [];
      if !loaded {
        pending := journal.ReadFrom(journal.cursor);
        loaded := true;
        if pending != [] {
          var last := pending[|pending| - 1].item;
          if device.state.Some? && last.after.globalNo > device.state.value.globalNo {
            device.state := Some(last.after);
          }
        }
        assert Indexed(w.journal.cursor, Tail(w.journal)) == pending;
        DoesUnseen(device.client.rules, device.env, true, w, t, [], w, t, LoadQueue, Here());
        steps := [] + [LoadQueue];
      }
    }

    /**
     * Append first, then move the device past the receipt, then list it. A receipt
     * that does not follow the day state is refused once it is in the journal.
     */
    method Take(p: Prepared) returns (taken: bool)
      requires Valid()
      modifies this, device, device.storage, device.timeline, journal
      ensures Valid() && loaded == old(loaded)
      ensures device.timeline.now.disk.marker == old(device.timeline.now.disk.marker)
      ensures taken <==> old(device.state).Some? && p.receipt.globalNo == old(device.state).value.globalNo + 1
      ensures taken ==>
        && pending == old(pending) + [Queued(old(journal.cursor) + |old(pending)|, p)] && device.state == Some(p.after)
        && Does(device.client.rules, device.env, true, old(device.At(Memory(), Appending(p))),
                old(device.timeline.trail), TAKE, Here(), device.timeline.trail)
      ensures !taken ==>
        && pending == old(pending) && device.state == old(device.state)
        && Does(device.client.rules, device.env, true, old(device.At(Memory(), Appending(p))),
                old(device.timeline.trail), [Append], device.At(Memory(), Applying(p)), device.timeline.trail)
    {
      hide Does, Raised, Moved;
      ghost var w, t := device.At(Memory(), Appending(p)), device.timeline.trail;
      var cursor := journal.cursor + |pending|;
      journal.Append(p);
      ghost var a := w.(journal := w.journal.(records := w.journal.records + [p]), pc := Applying(p));
      AppendDoes(device.client.rules, device.env, w, a, t, device.timeline.trail);
      taken := device.ApplyPrepared(p);
      if taken {
        pending := pending + [Queued(cursor, p)];
        ghost var b := a.(mem := Some(p.after), disk := a.disk.(dayState := Some(p.after)), pc := ApplyingLast(p));
        TakeDoes(device.client.rules, device.env, w, a, b, Here(), t);
      }
    }

    /** The caller keeps to the setting: the day state covers the journal, and no marker has the next number. */
    ghost predicate MayEnqueue(input: ReceiptInput, now: int)
      reads this, device, device.client, device.timeline
    {
      Permitted(device.client.rules, device.env, LoadDone(device.env, device.client.rules.Dedup?, Here()),
                Step.Enqueue(input, now))
    }

    /** Sign now, chain behind what is queued, and journal for later. */
    method Enqueue(input: ReceiptInput, now: int) returns (taken: SignResult, ghost steps: seq<Step>)
      requires Valid()
      modifies this, device, device.storage, device.timeline, journal
      ensures Valid() && loaded
      ensures Does(device.client.rules, device.env, old(MayEnqueue(input, now)), old(Here()),
                   old(device.timeline.trail), steps, Here(), device.timeline.trail)
      ensures
        var v := LoadDone(device.env, device.client.rules.Dedup?, old(Here()));
        && taken == (if v.mem.Some? then SignReceipt(device.env, v.mem.value, input, now) else Invalid)
        && steps == (if old(loaded) then [] else [LoadQueue])
                    + (if taken.Signed? then [Step.Enqueue(input, now)] + TAKE else [])
      ensures
        var queued := LoadDone(device.env, device.client.rules.Dedup?, old(Here())).queue.pending;
        if taken.Signed? then
          pending == queued + [Queued(old(journal.cursor) + |queued|, taken.prepared)]
          && device.state == Some(taken.prepared.after)
        else pending == queued
    {
      hide Does, SignReceipt, Permitted, LoadDone;
      ghost var rules, env := device.client.rules, device.env;
      ghost var ok := MayEnqueue(input, now);
      ghost var w, t := Here(), device.timeline.trail;
      steps := EnsureLoaded();
      ghost var v := Here();
      DoesUnder(rules, env, true, ok, w, t, steps, v, t);
      taken := device.SignNext(input, now);
      if taken.Signed? {
        var p := taken.prepared;
        SignedNumber(device.env, device.state.value, input, now);
        DoesUnseen(rules, env, ok, w, t, steps, v, t, Step.Enqueue(input, now), device.At(Memory(), Appending(p)));
        ghost var a := device.At(Memory(), Appending(p));
        var followed := Take(p);
        DoesBoth(rules, env, ok, w, t, steps + [Step.Enqueue(input, now)], a, t, TAKE, Here(), device.timeline.trail);
        assert steps + [Step.Enqueue(input, now)] + TAKE == steps + ([Step.Enqueue(input, now)] + TAKE);
        steps := steps + [Step.Enqueue(input, now)] + TAKE;
      }
    }

    /** Send one receipt, or settle its marker if a flush left one behind. */
    method SubmitOne() returns (sent: bool, ghost steps: seq<Step>, ghost p: Prepared)
      requires Valid() && loaded && pending != []
      modifies device, device.client, device.client.server, device.storage, device.timeline
      ensures Valid()
      ensures sent ==> device.timeline.now.disk.marker.None?
      ensures Does(device.client.rules, device.env, true, old(Here()), old(device.timeline.trail), steps,
                   device.At(Memory(), if sent then Advancing(p) else Idle), device.timeline.trail)
      ensures
        if Blocked(old(device.timeline.now.disk.marker), pending[0].item) then
          && !sent && steps == [] && device.timeline.now == old(device.timeline.now)
          && device.client.sent == old(device.client.sent)
        else Tried(steps)
    {
      hide Does, Requested, Reconciled, Tried, AllOfFlush, OfFlush, SignReceipt, Protocol.Sent, OpenDay, CloseDay,
        Raised, Committed, FirstState, CloseRequestOf, Indexed, LastGlobal, Tail, HeadLost, MarkerIsHead, Reports,
        AllReceipts, Granted, Reaches;
      ghost var rules, env := device.client.rules, device.env;
      ghost var w, t := Here(), device.timeline.trail;
      DoesNothing(rules, env, true, w, t);
      var item := pending[0].item;
      p := item;
      var marker := device.PendingReceipt();
      if marker.Some? && marker.value.receipt.globalNo == item.receipt.globalNo {
        var r;
        p := marker.value;
        r, steps := device.Reconcile(Via.Flush, Memory());
        sent := r.Confirmed? || r.Resubmitted?;
        ReconciledAttempts(env, rules.Dedup?, w.srv, p, steps, r);
      } else if marker.Some? {
        return false, [], item;
      } else {
        ghost var a := device.At(Memory(), Marking(item, Via.Flush));
        DoesUnseen(rules, env, true, w, t, [], w, t, FlushHead, a);
        var r;
        r, steps := device.SubmitPrepared(item, Via.Flush, Memory());
        sent := r.Submitted?;
        DoesBoth(rules, env, true, w, t, [] + [FlushHead], a, t, steps,
                 device.At(Memory(), Landing(r, item, Via.Flush)), device.timeline.trail);
        SubmittedAttempts(env, rules.Dedup?, w.srv, p, steps, r);
        steps := [] + [FlushHead] + steps;
      }
    }

    /** Oldest first, stopping at the first failure. */
    method Flush() returns (sent: nat, ghost steps: seq<Step>, ghost flushed: seq<Step>, ghost last: seq<Step>)
      requires Valid()
      modifies this, device, device.client, device.client.server, device.storage, device.timeline, journal
      ensures Valid() && loaded
      ensures Does(device.client.rules, device.env, true, old(Here()), old(device.timeline.trail), steps, Here(),
                   device.timeline.trail)
      ensures steps == (if old(loaded) then [] else [LoadQueue]) + flushed
      ensures
        var w := LoadDone(device.env, device.client.rules.Dedup?, old(Here()));
        && sent <= |w.queue.pending| && pending == w.queue.pending[sent..]
        && Flushes(device.env, device.client.rules.Dedup?, w, flushed, last)
        && End(device.env, device.client.rules.Dedup?, w, flushed) == Here()
    {
      hide Does, LoadDone, Blocked, AllReceipts, Next, Enabled, Permitted, Moved, Flushes, Possible, End, AllOfFlush,
        RoundByRound, Rounds, Tried;
      ghost var rules, env := device.client.rules, device.env;
      ghost var w, t := Here(), device.timeline.trail;
      steps := EnsureLoaded();
      ghost var v, s := Here(), device.timeline.trail;
      ghost var queued := pending;
      DoesNothing(rules, env, true, v, s);
      NoRounds();
      sent, flushed, last := 0, [], [];
      while pending != []
        invariant Valid() && loaded && sent <= |queued| && pending == queued[sent..]
        invariant Does(rules, env, true, v, s, flushed, Here(), device.timeline.trail)
        invariant AllOfFlush(flushed) && RoundByRound(flushed) && Rounds(flushed)
        decreases |pending|
      {
        ghost var u, r := Here(), device.timeline.trail;
        ghost var blocked := Blocked(device.timeline.now.disk.marker, pending[0].item);
        ghost var more, p;
        var done;
        done, more, p := SubmitOne();
        ghost var a, s1 := device.At(Memory(), if done then Advancing(p) else Idle), device.timeline.trail;
        DoesBoth(rules, env, true, v, s, flushed, u, r, more, a, s1);
        assert (flushed + more)[|flushed|..] == more;
        if blocked {
          assert flushed + more == flushed;
        } else {
          OneTryMore(flushed, more);
        }
        flushed := flushed + more;
        if !done {
          last := more;
          break;
        }
        journal.Commit(pending[0].cursor + 1);
        pending := pending[1..];
        sent := sent + 1;
        AdvanceDoes(rules, env, true, v, s, flushed, a, s1, Here(), device.timeline.trail);
        flushed := flushed + [CommitJournal];
      }
      FlushEnds(rules, env, v, s, flushed, Here(), device.timeline.trail, last);
      DoesBoth(rules, env, true, w, t, steps, v, s, flushed, Here(), device.timeline.trail);
      steps := steps + flushed;
    }

    /** Nothing is queued: submit directly, and journal the receipt if its outcome stays unknown. */
    method SubmitNow(input: ReceiptInput, now: int) returns (r: SaleResult, ghost steps: seq<Step>)
      requires Valid() && loaded && pending == []
      modifies this, device, device.client, device.client.server, device.storage, device.timeline, journal
      ensures Valid() && loaded
      ensures Does(device.client.rules, device.env, old(device.MaySubmit(input, now, Memory())), old(Here()),
                   old(device.timeline.trail), steps, Here(), device.timeline.trail)
      ensures SoldNow(device.env, device.client.rules.Dedup?, old(Here()), input, now, steps, r)
      ensures match r
        case Journaled(p) =>
          && |pending| == 1 && pending[0].item == p && device.state == Some(p.after)
          && device.timeline.now.disk.marker == Some(p)
        case Done(_) => pending == []
    {
      hide Does, SignReceipt, MaySign, Tail, Protocol.Sent, OpenDay, CloseDay, Raised, Committed, FirstState,
        CloseRequestOf, Indexed, LastGlobal, Requested, SoldNow;
      ghost var rules, env := device.client.rules, device.env;
      ghost var ok := device.MaySubmit(input, now, Memory());
      ghost var w, t := Here(), device.timeline.trail;
      steps := [];
      DoesNothing(rules, env, ok, w, t);
      var signed := device.SignNext(input, now);
      if signed.Invalid? {
        NotSold(env, rules.Dedup?, w, input, now, Unsigned);
        return Done(Unsigned), [];
      }
      var p := signed.prepared;
      SignedNumber(device.env, device.state.value, input, now);
      ghost var a := device.At(Memory(), Marking(p, Fallback));
      ghost var first := Submit(input, now, Fallback);
      ghost var more;
      var result;
      result, more := device.SubmitPrepared(p, Fallback, Memory());
      if result.Pending? {
        NotSold(env, rules.Dedup?, w, input, now, result);
        return Done(result), [];
      }
      DoesUnseen(rules, env, ok, w, t, [], w, t, first, a);
      ghost var b, s := device.At(Memory(), Landing(result, p, Fallback)), device.timeline.trail;
      DoesBoth(rules, env, ok, w, t, [] + [first], a, t, more, b, s);
      steps := [] + [first] + more;
      assert steps == [first, WriteMarker] + more[1..];
      if result.Unresolved? && OutcomeUnknown(result.failure) {
        UnresolvedIsOneRequest(env, rules.Dedup?, w, input, now, p, more[1..], result);
        var followed := Take(p);
        DoesBoth(rules, env, ok, w, t, steps, b, s, TAKE, Here(), device.timeline.trail);
        r, steps := Journaled(p), steps + TAKE;
      } else {
        DoneNow(env, rules.Dedup?, w, input, now, p, more[1..], result);
        r := Done(result);
      }
    }

    /**
     * The caller keeps to the setting, in a world the device can be in: the day
     * state is in memory before the queue is loaded, and dates are in order.
     */
    ghost predicate MaySell(input: ReceiptInput, now: int)
      reads this, device, device.client, device.timeline
    {
      && KeyPair(device.env) && Reached(device.client.rules, device.env, Here())
      && Covers(LoadDone(device.env, device.client.rules.Dedup?, Here()))
      && MayEver(device.client.rules, device.timeline.now.srv, input, now)
    }

    /** Older receipts first; then submit directly, and journal what stays unanswered. */
    method SubmitOrEnqueue(input: ReceiptInput, now: int)
      returns (r: SaleResult, ghost steps: seq<Step>, ghost flushed: seq<Step>, ghost last: seq<Step>,
               ghost rest: seq<Step>)
      requires Valid()
      modifies this, device, device.client, device.client.server, device.storage, device.timeline, journal
      ensures Valid() && loaded
      ensures Does(device.client.rules, device.env, old(MaySell(input, now)), old(Here()), old(device.timeline.trail),
                   steps, Here(), device.timeline.trail)
      ensures steps == (if old(loaded) then [] else [LoadQueue]) + flushed + rest
      ensures
        var loaded := LoadDone(device.env, device.client.rules.Dedup?, old(Here()));
        Sells(device.env, device.client.rules.Dedup?, loaded, input, now, flushed, last, rest, r)
      ensures match r
        case Journaled(p) => pending != [] && pending[|pending| - 1].item == p && device.state == Some(p.after)
        case Done(result) => result.Unsigned? || pending == []
    {
      hide Does, LoadDone, Reached, KeyPair, SignReceipt, MayEver, Permitted, Run, Landing, Tail, Covers, SoldNow,
        SoldBehind, Next, Enabled, Flushes, End, Possible;
      ghost var rules, env := device.client.rules, device.env;
      ghost var ok := MaySell(input, now);
      ghost var w, t := Here(), device.timeline.trail;
      ghost var load := EnsureLoaded();
      ghost var v, s := Here(), device.timeline.trail;
      DoesUnder(rules, env, true, ok, w, t, load, v, s);
      if ok {
        StillReached(rules, env, w, t, load, v, s);
        MayStill(rules, env, w, t, load, v, s, input, now);
      }
      flushed, last := [], [];
      if pending != [] {
        var sent;
        ghost var more;
        sent, more, flushed, last := Flush();
        assert [] + flushed == flushed;
        if ok {
          StillReady(rules, env, v, s, more, Here(), device.timeline.trail, input, now);
        }
        DoesUnder(rules, env, true, ok, v, s, more, Here(), device.timeline.trail);
      } else {
        DoesNothing(rules, env, ok, v, s);
        NothingFlushed(env, rules.Dedup?, v);
      }
      ghost var u, r1 := Here(), device.timeline.trail;
      DoesBoth(rules, env, ok, w, t, load, v, s, flushed, u, r1);
      if pending != [] {
        r, rest := QueueSale(input, now, ok);
      } else {
        if ok {
          EmptyIsReady(rules, env, u, input, now);
        }
        ghost var mine := device.MaySubmit(input, now, Memory());
        r, rest := SubmitNow(input, now);
        DoesUnder(rules, env, mine, ok, u, r1, rest, Here(), device.timeline.trail);
      }
      DoesBoth(rules, env, ok, w, t, load + flushed, u, r1, rest, Here(), device.timeline.trail);
      steps := load + flushed + rest;
    }

    /** Something is still queued: the sale goes behind it. */
    method QueueSale(input: ReceiptInput, now: int, ghost ok: bool) returns (r: SaleResult, ghost steps: seq<Step>)
      requires Valid() && loaded && pending != []
      requires ok ==>
        && KeyPair(device.env) && Reached(device.client.rules, device.env, Here()) && Covers(Here())
        && MayEver(device.client.rules, device.timeline.now.srv, input, now)
      modifies this, device, device.storage, device.timeline, journal
      ensures Valid() && loaded && pending != []
      ensures Does(device.client.rules, device.env, ok, old(Here()), old(device.timeline.trail), steps, Here(),
                   device.timeline.trail)
      ensures SoldBehind(device.env, old(Here()), input, now, steps, r)
      ensures match r
        case Journaled(p) => pending[|pending| - 1].item == p && device.state == Some(p.after)
        case Done(result) => result.Unsigned?
    {
      hide Does, LoadDone, Reached, KeyPair, SignReceipt, MayEver, Permitted, Covers;
      ghost var rules, env := device.client.rules, device.env;
      ghost var v, s := Here(), device.timeline.trail;
      if ok {
        QueuedIsReady(rules, env, v, input, now);
      }
      ghost var mine := MayEnqueue(input, now);
      var taken;
      taken, steps := Enqueue(input, now);
      DoesUnder(rules, env, mine, ok, v, s, steps, Here(), device.timeline.trail);
      r := if taken.Signed? then Journaled(taken.prepared) else Done(Unsigned);
    }
  }

  /** An unresolved submit is one request, and what is journaled is an unknown outcome. */
  lemma UnresolvedIsOneRequest(env: Env, dedup: bool, u: World, input: ReceiptInput, now: int, p: Prepared,
                               steps: seq<Step>, r: SubmitResult)
    requires u.disk.marker.None? && u.mem.Some? && SignReceipt(env, u.mem.value, input, now) == Signed(p)
    requires Requested(env, dedup, u.srv, p, steps, r) && r.Unresolved? && OutcomeUnknown(r.failure)
    ensures |steps| == 1 && steps[0].Send?
    ensures SoldNow(env, dedup, u, input, now, [Submit(input, now, Fallback), WriteMarker] + steps + TAKE, Journaled(p))
  {
    hide AnswerTo, SignReceipt;
    var all := [Submit(input, now, Fallback), WriteMarker] + steps + TAKE;
    assert all[..2] == [Submit(input, now, Fallback), WriteMarker] && all[2] == steps[0] && all[3..] == TAKE;
  }

  lemma NotSold(env: Env, dedup: bool, u: World, input: ReceiptInput, now: int, r: SubmitResult)
    requires
      || (r.Unsigned? && (u.mem.None? || SignReceipt(env, u.mem.value, input, now).Invalid?))
      || (u.disk.marker.Some? && r == Pending(u.disk.marker.value.receipt.globalNo))
    ensures SoldNow(env, dedup, u, input, now, [], Done(r))
  {
    hide SignReceipt;
  }

  lemma DoneNow(env: Env, dedup: bool, u: World, input: ReceiptInput, now: int, p: Prepared, steps: seq<Step>,
                r: SubmitResult)
    requires u.disk.marker.None? && u.mem.Some? && SignReceipt(env, u.mem.value, input, now) == Signed(p)
    requires Requested(env, dedup, u.srv, p, steps, r) && (r.Unresolved? ==> !OutcomeUnknown(r.failure))
    requires r.Unresolved? && r.failure.Http? ==>
               r.failure.status == 408 || r.failure.status == 429 || r.failure.status >= 500
    ensures SoldNow(env, dedup, u, input, now, [Submit(input, now, Fallback), WriteMarker] + steps, Done(r))
  {
    hide AnswerTo, SignReceipt;
    var all := [Submit(input, now, Fallback), WriteMarker] + steps;
    assert all[..2] == [Submit(input, now, Fallback), WriteMarker] && all[2..] == steps;
    match r
    case Submitted(_) =>
    case Rejected(_) =>
    case Unresolved(_) =>
    case _ =>
  }

  /** What a caller knows before a flush: that the date is later than every earlier day's. */
  predicate MayEver(rules: Rules, srv: Fdms, input: ReceiptInput, now: int) {
    rules.Ordered? ==> LaterThanEarlierDays(srv, if input.date.Some? then input.date.value else now)
  }

  lemma MayStill(rules: Rules, env: Env, w: World, t: seq<Durable>, steps: seq<Step>, v: World, s: seq<Durable>,
                 input: ReceiptInput, now: int)
    requires MayEver(rules, w.srv, input, now) && Does(rules, env, true, w, t, steps, v, s)
    ensures MayEver(rules, v.srv, input, now)
  {
    hide Run, Plays, End, Trail, AllReceipts, Earlier;
    EarlierStays(rules, env, w, steps);
  }

  /** A flush leaves the device as ready for the sale as it found it. */
  lemma StillReady(rules: Rules, env: Env, w: World, t: seq<Durable>, steps: seq<Step>, v: World, s: seq<Durable>,
                   input: ReceiptInput, now: int)
    requires KeyPair(env) && Reached(rules, env, w) && Covers(w) && MayEver(rules, w.srv, input, now)
    requires Does(rules, env, true, w, t, steps, v, s)
    ensures Reached(rules, env, v) && Covers(v) && MayEver(rules, v.srv, input, now)
  {
    hide KeyPair, Reached, Covers, MayEver, Trail, Plays, Run, Possible, Allowed;
    StillReached(rules, env, w, t, steps, v, s);
    MayStill(rules, env, w, t, steps, v, s, input, now);
    StaysCovered(rules, env, w, steps);
  }

  lemma EverIsNow(rules: Rules, v: World, input: ReceiptInput, now: int)
    requires MayEver(rules, v.srv, input, now)
    ensures MaySign(rules, v, input, now)
  {
    hide AllReceipts, Earlier;
  }

  /** Behind a queued receipt the next number is free: any marker is for an earlier one. */
  lemma QueuedIsReady(rules: Rules, env: Env, v: World, input: ReceiptInput, now: int)
    requires KeyPair(env) && Reached(rules, env, v) && v.pc.Idle? && v.queue.loaded && v.queue.pending != []
    requires Covers(v) && MayEver(rules, v.srv, input, now)
    ensures v.mem.Some? && Permitted(rules, env, v, Step.Enqueue(input, now))
  {
    hide MaySign, MayEver, KeyPair, Reached, Inv, Tail, RedsOk;
    EverIsNow(rules, v, input, now);
    var log := ReachedHasInv(env, rules, v);
    MarkerBehind(env, rules, v, log);
  }

  lemma MarkerBehind(env: Env, rules: Rules, v: World, log: seq<Prepared>)
    requires Inv(env, rules, v, log) && v.pc.Idle? && v.queue.loaded && v.queue.pending != [] && Covers(v)
    ensures v.mem.Some? && Tail(v.journal) != []
    ensures v.disk.marker.Some? ==> v.disk.marker.value.receipt.globalNo <= v.mem.value.globalNo
  {
    hide LogOk, ServerOk, JournalOk, DiskOk, LastOk, DatesOk, OnceOk, PcOk, OriginOf, HeldToday, Tail, Fits, AllBelow,
      Opens, Begun;
    OpensToday(env, v.srv);
    HeadInLog(env, OriginOf(env, v.srv), v.srv, v.journal, log);
  }

  lemma EmptyIsReady(rules: Rules, env: Env, v: World, input: ReceiptInput, now: int)
    requires KeyPair(env) && Reached(rules, env, v) && v.pc.Idle? && v.queue.loaded && v.queue.pending == []
    requires MayEver(rules, v.srv, input, now)
    ensures MaySign(rules, v, input, now) && Tail(v.journal) == []
  {
    hide MaySign, MayEver, KeyPair, Reached, AllReceipts;
    EverIsNow(rules, v, input, now);
    Theorems.JournalMirrored(env, rules, v);
  }
}
