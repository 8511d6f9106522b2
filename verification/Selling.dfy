/** submitOrEnqueue() when every request is answered: nothing is left behind. */
module Selling {
  import opened Text
  import opened Options
  import opened Receipts
  import opened Transport
  import opened Server
  import opened Protocol
  import opened Invariant
  import opened Runs
  import opened Theorems
  import opened CommitSteps
  import opened Calls
  import opened Limits
  import opened Device
  import opened OfflineQueue

  /** The request reaches FDMS and its answer comes back. */
  predicate Heard(step: Step) {
    match step
    case Send(fate) => fate.reached && fate.failure.None?
    case AskStatus(answer) => answer.Some?
    case _ => true
  }

  predicate AllHeard(steps: seq<Step>) {
    forall i :: 0 <= i < |steps| ==> Heard(steps[i])
  }

  lemma {:induction false} StepsSplit(env: Env, dedup: bool, w: World, before: seq<Step>, after: seq<Step>)
    requires Possible(env, dedup, w, before + after)
    ensures Possible(env, dedup, w, before) && Possible(env, dedup, End(env, dedup, w, before), after)
    ensures End(env, dedup, End(env, dedup, w, before), after) == End(env, dedup, w, before + after)
    decreases before
  {
    hide Enabled, Next;
    if before == [] {
      assert before + after == after;
    } else {
      assert (before + after)[1..] == before[1..] + after;
      StepsSplit(env, dedup, Next(env, dedup, w, before[0]), before[1..], after);
    }
  }

  lemma {:induction false} RunsSplit(env: Env, rules: Rules, w: World, before: seq<Step>, after: seq<Step>)
    requires Run(rules, env, w, before + after)
    ensures Run(rules, env, w, before) && Run(rules, env, End(env, rules.Dedup?, w, before), after)
    decreases before
  {
    hide Permitted, Enabled, Next;
    StepsSplit(env, rules.Dedup?, w, before, after);
    if before == [] {
      assert before + after == after;
    } else {
      assert (before + after)[1..] == before[1..] + after;
      RunsSplit(env, rules, Next(env, rules.Dedup?, w, before[0]), before[1..], after);
    }
  }

  // -- an answered flush ---------------------------------------------------

  /** A day is open, and the program is in a flush or between calls with no marker in its way. */
  predicate InFlight(w: World) {
    && w.srv.status.DayOpened? && w.srv.days != [] && w.queue.loaded
    && match w.pc
       case Idle => !Blocks(w)
       case Marking(_, via) => via.Flush?
       case Asking(_, via) => via.Flush?
       case Sending(_, via) => via.Flush?
       case Saving(_, via, _) => via.Flush?
       case SavingLast(_, via) => via.Flush?
       case Unmarking(_, via) => via.Flush?
       case Advancing(_) => w.disk.marker.None?
       case _ => false
  }

  /** A round that has begun comes to an end only by moving the cursor. */
  lemma FlightStep(env: Env, dedup: bool, w: World, step: Step)
    requires InFlight(w) && Enabled(env, w, step) && OfFlush(step) && Heard(step)
    ensures InFlight(Next(env, dedup, w, step))
    ensures Next(env, dedup, w, step).journal.records == w.journal.records
    ensures Next(env, dedup, w, step).pc.Idle? ==> step.CommitJournal?
  {
    hide SignReceipt, OpenDay, CloseDay, Settled, CloseRequestOf, Committed, FirstState, Indexed, Raised, Tail,
      Server.Submit;
    if step.Send? {
      OpenAccepts(env, dedup, w.srv, w.pc.p.receipt, step.fate.latest);
    }
  }

  lemma {:induction false} Flight(env: Env, dedup: bool, w: World, steps: seq<Step>)
    requires InFlight(w) && Possible(env, dedup, w, steps) && AllOfFlush(steps) && AllHeard(steps)
    ensures
      var v := End(env, dedup, w, steps);
      && InFlight(v) && v.journal.records == w.journal.records
      && (v.pc.Idle? && !w.pc.Idle? ==> CommitJournal in steps)
    decreases steps
  {
    hide InFlight, Enabled, Next, OfFlush, Heard;
    if steps != [] {
      FlightStep(env, dedup, w, steps[0]);
      Flight(env, dedup, Next(env, dedup, w, steps[0]), steps[1..]);
    }
  }

  /**
   * On an open day, with no other receipt's marker in the way and every request
   * answered, flush() delivers everything.
   */
  lemma FlushEmpties(env: Env, dedup: bool, w: World, steps: seq<Step>, last: seq<Step>)
    requires w.pc.Idle? && w.queue.loaded && w.srv.status.DayOpened? && w.srv.days != [] && !Blocks(w)
    requires Flushes(env, dedup, w, steps, last) && AllHeard(steps)
    ensures
      var v := End(env, dedup, w, steps);
      && v.queue == Queue([], true) && v.disk.marker.None? && v.pc.Idle?
      && v.srv.status.DayOpened? && v.srv.days != [] && v.journal.records == w.journal.records
  {
    hide Enabled, Next, OfFlush, Heard, Possible;
    Flight(env, dedup, w, steps);
    var v := End(env, dedup, w, steps);
    if v.queue.pending != [] {
      var before := steps[..|steps| - |last|];
      assert steps == before + last;
      StepsSplit(env, dedup, w, before, last);
      Flight(env, dedup, w, before);
      LastRound(env, dedup, End(env, dedup, w, before), last);
    }
  }

  lemma LastRound(env: Env, dedup: bool, w: World, steps: seq<Step>)
    requires InFlight(w) && Possible(env, dedup, w, steps) && AllHeard(steps) && Tried(steps)
    ensures !End(env, dedup, w, steps).pc.Idle?
  {
    hide InFlight, OfFlush, Heard, Committed, Raised, Sent, Indexed, SignReceipt, Tail;
    assert w.pc.Idle?;
    FlightStep(env, dedup, w, FlushHead);
    Flight(env, dedup, Next(env, dedup, w, FlushHead), steps[1..]);
    assert CommitJournal !in steps[1..];
  }

  // -- an answered sale ----------------------------------------------------

  /** The steps of a direct submit that is answered: what FDMS holds, and what is left. */
  lemma SaleSteps(env: Env, dedup: bool, w: World, input: ReceiptInput, now: int, fate: Fate, p: Prepared)
    requires SaleTaken(env, dedup, w, input, now, fate, p)
    ensures
      var v := End(env, dedup, w, [Submit(input, now, Fallback), WriteMarker, Send(fate)] + COMMIT);
      && v.srv == Server.Submit(env, dedup, w.srv, p.receipt, fate.latest).0 && v.queue == w.queue
      && v.journal == w.journal && v.disk.marker.None? && v.pc.Idle?
  {
    hide SignReceipt, Server.Submit, Possible, End;
    var rest := [Submit(input, now, Fallback), WriteMarker, Send(fate)] + COMMIT;
    StepTaken(env, dedup, w, rest);
    var a := Next(env, dedup, w, rest[0]);
    assert rest[1..] == [WriteMarker, Send(fate)] + COMMIT;
    StepTaken(env, dedup, a, rest[1..]);
    var b := Next(env, dedup, a, WriteMarker);
    assert rest[1..][1..] == [Send(fate)] + COMMIT;
    StepTaken(env, dedup, b, rest[1..][1..]);
    var c := Next(env, dedup, b, Send(fate));
    assert rest[1..][1..][1..] == COMMIT;
    OpenAccepts(env, dedup, w.srv, p.receipt, fate.latest);
    CommitEnds(env, dedup, c);
  }

  lemma StepTaken(env: Env, dedup: bool, w: World, steps: seq<Step>)
    requires Possible(env, dedup, w, steps) && steps != []
    ensures Enabled(env, w, steps[0]) && Possible(env, dedup, Next(env, dedup, w, steps[0]), steps[1..])
    ensures End(env, dedup, w, steps) == End(env, dedup, Next(env, dedup, w, steps[0]), steps[1..])
  {
    hide Enabled, Next;
  }

  predicate SaleTaken(env: Env, dedup: bool, w: World, input: ReceiptInput, now: int, fate: Fate, p: Prepared) {
    && w.pc.Idle? && w.mem.Some? && SignReceipt(env, w.mem.value, input, now) == Signed(p)
    && w.srv.status.DayOpened? && w.srv.days != [] && fate.reached && fate.failure.None?
    && Possible(env, dedup, w, [Submit(input, now, Fallback), WriteMarker, Send(fate)] + COMMIT)
  }

  lemma CommitEnds(env: Env, dedup: bool, w: World)
    requires w.pc.Saving? && Possible(env, dedup, w, COMMIT)
    ensures
      var v := End(env, dedup, w, COMMIT);
      && v.srv == w.srv && v.queue == w.queue && v.journal == w.journal && v.disk.marker.None?
      && v.pc == AfterMarker(w.pc.p, w.pc.via)
  {
    hide Committed, Raised, AfterMarker;
    var a := Next(env, dedup, w, WriteState);
    var b := Next(env, dedup, a, WriteLast);
    var c := Next(env, dedup, b, ClearMarker);
    assert COMMIT[1..] == [WriteLast, ClearMarker] && COMMIT[1..][1..] == [ClearMarker];
    assert End(env, dedup, c, []) == c;
  }

  /**
   * submitOrEnqueue() on an open day with every request answered, from any point
   * between two calls where no other receipt's marker is in the way: the sale is
   * submitted, nothing is left in the queue, every receipt that waited is held
   * under its own number, and the sale is the last that FDMS holds.
   */
  lemma AnsweredSaleArrives(env: Env, rules: Rules, w: World, input: ReceiptInput, now: int, flushed: seq<Step>,
                            last: seq<Step>, rest: seq<Step>, r: SaleResult) returns (sale: Prepared)
    requires KeyPair(env) && Reached(rules, env, w) && w.pc.Idle? && w.srv.status.DayOpened?
    requires !Blocks(LoadDone(env, rules.Dedup?, w))
    requires Run(rules, env, w, (if w.queue.loaded then [] else [LoadQueue]) + flushed + rest)
    requires Sells(env, rules.Dedup?, LoadDone(env, rules.Dedup?, w), input, now, flushed, last, rest, r)
    requires AllHeard(flushed) && AllHeard(rest) && r != Done(Unsigned)
    ensures r.Done? && r.result.Submitted?
    ensures
      var u := End(env, rules.Dedup?, LoadDone(env, rules.Dedup?, w), flushed);
      u.mem.Some? && SignReceipt(env, u.mem.value, input, now) == Signed(sale)
    ensures
      var v := End(env, rules.Dedup?, w, (if w.queue.loaded then [] else [LoadQueue]) + flushed + rest);
      var rs := AllReceipts(v.srv.days);
      && v.pc.Idle? && v.queue == Queue([], true) && Tail(v.journal) == [] && v.disk.marker.None?
      && (forall p :: p in Tail(w.journal) ==> HeldAs(rs, p.receipt) && p.receipt.globalNo < |rs|)
      && HeldAs(rs, sale.receipt) && sale.receipt.globalNo == |rs|
  {
    hide KeyPair, Reached, LoadDone, SoldNow, SoldBehind, Possible, Allowed, AllReceipts, SignReceipt, HeldAs, Blocks,
      Tail, AllHeard, Flushes;
    var load := if w.queue.loaded then [] else [LoadQueue];
    var b := LoadDone(env, rules.Dedup?, w);
    RunsSplit(env, rules, w, load + flushed, rest);
    RunsSplit(env, rules, w, load, flushed);
    StepsSplit(env, rules.Dedup?, w, load, flushed);
    LoadIsStep(env, rules.Dedup?, w);
    MarkerFacts(env, rules, w);
    FlushEmpties(env, rules.Dedup?, b, flushed, last);
    var u := End(env, rules.Dedup?, b, flushed);
    assert Reached(rules, env, u) by { GoesOn(env, rules, w, load + flushed); }
    sale := LastSale(env, rules, u, input, now, rest, r);
    QueueIsHeld(env, rules, w, u);
    StepsSplit(env, rules.Dedup?, w, load + flushed, rest);
    AcceptedStays(env, rules.Dedup?, u, rest);
    HeldStay(w, u, End(env, rules.Dedup?, u, rest), sale);
  }

  lemma LoadIsStep(env: Env, dedup: bool, w: World)
    requires w.pc.Idle? && Possible(env, dedup, w, if w.queue.loaded then [] else [LoadQueue])
    ensures End(env, dedup, w, if w.queue.loaded then [] else [LoadQueue]) == LoadDone(env, dedup, w)
    ensures LoadDone(env, dedup, w).srv == w.srv && LoadDone(env, dedup, w).journal == w.journal
    ensures LoadDone(env, dedup, w).pc.Idle? && LoadDone(env, dedup, w).queue.loaded
  {
    hide Tail, Indexed;
    assert [LoadQueue][1..] == [];
  }

  lemma GoesOn(env: Env, rules: Rules, w: World, steps: seq<Step>)
    requires Reached(rules, env, w) && Run(rules, env, w, steps)
    ensures Reached(rules, env, End(env, rules.Dedup?, w, steps))
  {
    hide Possible, Allowed;
    var past :| Run(rules, env, START, past) && End(env, rules.Dedup?, START, past) == w;
    RunsJoin(env, rules, START, past, steps);
    ReachedByRun(env, rules, past + steps);
  }

  /** With nothing queued the sale is submitted directly, under the next number. */
  lemma LastSale(env: Env, rules: Rules, u: World, input: ReceiptInput, now: int, rest: seq<Step>, r: SaleResult)
    returns (sale: Prepared)
    requires KeyPair(env) && Reached(rules, env, u) && u.pc.Idle? && u.queue == Queue([], true)
    requires u.disk.marker.None? && u.srv.status.DayOpened? && u.srv.days != []
    requires SoldNow(env, rules.Dedup?, u, input, now, rest, r) && Possible(env, rules.Dedup?, u, rest)
    requires AllHeard(rest) && r != Done(Unsigned)
    ensures r.Done? && r.result.Submitted? && Tail(u.journal) == []
    ensures u.mem.Some? && SignReceipt(env, u.mem.value, input, now) == Signed(sale)
    ensures
      var v := End(env, rules.Dedup?, u, rest);
      && v.pc.Idle? && v.queue == u.queue && v.journal == u.journal && v.disk.marker.None?
      && HeldAs(AllReceipts(v.srv.days), sale.receipt) && sale.receipt.globalNo == |AllReceipts(v.srv.days)|
      && |AllReceipts(v.srv.days)| == |AllReceipts(u.srv.days)| + 1
  {
    hide KeyPair, Reached, Possible, AllReceipts, SignReceipt, HeldAs, Server.Submit, Taken, Numbered;
    MarkerFacts(env, rules, u);
    EmptyIsQuiet(env, rules, u);
    sale := SignReceipt(env, u.mem.value, input, now).prepared;
    SignedNumber(env, u.mem.value, input, now);
    AnsweredIsDone(env, rules.Dedup?, u, input, now, rest, r, sale);
    var fate := rest[2].fate;
    SaleSteps(env, rules.Dedup?, u, input, now, fate, sale);
    SubmitHolds(env, rules.Dedup?, u.srv, sale.receipt, fate.latest);
    NextIsTaken(env, rules.Dedup?, u.srv, sale.receipt, fate.latest);
  }

  lemma EmptyIsQuiet(env: Env, rules: Rules, u: World)
    requires KeyPair(env) && Reached(rules, env, u) && u.pc.Idle? && u.queue == Queue([], true) && u.disk.marker.None?
    ensures Tail(u.journal) == [] && (u.mem.Some? ==> u.mem.value.globalNo == |AllReceipts(u.srv.days)|)
  {
    hide KeyPair, Reached, AllReceipts;
    JournalMirrored(env, rules, u);
    QuietDeviceEqualsServer(env, rules, u);
  }

  lemma NextIsTaken(env: Env, dedup: bool, srv: Fdms, r: Receipt, latest: int)
    requires srv.status.DayOpened? && srv.days != []
    requires Numbered(AllReceipts(srv.days)) && r.globalNo == |AllReceipts(srv.days)| + 1
    ensures AllReceipts(Server.Submit(env, dedup, srv, r, latest).0.days) == AllReceipts(srv.days) + [r]
  {
    hide AllReceipts, Taken, Numbered;
    NextIsNew(srv, r);
    TakenShape(env, srv, r, latest);
  }

  /** An answered request on an open day is a submitted receipt. */
  lemma AnsweredIsDone(env: Env, dedup: bool, u: World, input: ReceiptInput, now: int, rest: seq<Step>, r: SaleResult,
                       sale: Prepared)
    requires SoldNow(env, dedup, u, input, now, rest, r) && r != Done(Unsigned) && u.disk.marker.None?
    requires AllHeard(rest)
    requires u.mem.Some? && SignReceipt(env, u.mem.value, input, now) == Signed(sale)
    requires u.srv.status.DayOpened? && u.srv.days != []
    ensures r.Done? && r.result.Submitted? && |rest| > 2 && rest[2].Send?
    ensures rest == [Submit(input, now, Fallback), WriteMarker, Send(rest[2].fate)] + COMMIT
    ensures rest[2].fate.reached && rest[2].fate.failure.None?
  {
    hide SignReceipt, Server.Submit;
    assert Heard(rest[2]);
    OpenAccepts(env, dedup, u.srv, sale.receipt, rest[2].fate.latest);
    assert rest == rest[..2] + [rest[2]] + rest[3..];
  }

  lemma QueueIsHeld(env: Env, rules: Rules, w: World, u: World)
    requires KeyPair(env) && Reached(rules, env, u) && u.pc.Idle? && u.queue == Queue([], true)
    requires u.journal.records == w.journal.records
    ensures forall p :: p in Tail(w.journal) ==> HeldAs(AllReceipts(u.srv.days), p.receipt)
  {
    hide KeyPair, Reached, AllReceipts, HeldAs;
    JournalMirrored(env, rules, u);
    forall p | p in Tail(w.journal) ensures HeldAs(AllReceipts(u.srv.days), p.receipt) {
      assert p in w.journal.records;
      var i :| 0 <= i < |u.journal.records| && u.journal.records[i] == p;
    }
  }

  lemma HeldStay(w: World, u: World, v: World, sale: Prepared)
    requires AllReceipts(u.srv.days) <= AllReceipts(v.srv.days)
    requires |AllReceipts(v.srv.days)| == |AllReceipts(u.srv.days)| + 1
    requires forall p :: p in Tail(w.journal) ==> HeldAs(AllReceipts(u.srv.days), p.receipt)
    ensures forall p :: p in Tail(w.journal) ==>
              HeldAs(AllReceipts(v.srv.days), p.receipt) && p.receipt.globalNo < |AllReceipts(v.srv.days)|
  {
    hide AllReceipts, Tail;
  }
}
