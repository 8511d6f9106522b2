/**
 * Red errors that are recorded: where every answer is seen and the stored day
 * state is loaded before the queue, the day state tells at any time whether the
 * day can be closed, so that closeDay() needs no force exactly when it settles.
 */
module Unforced {
  import opened Text
  import opened Options
  import opened Ledger
  import opened Counters
  import opened Signing
  import opened Receipts
  import opened Server
  import opened Protocol
  import opened Invariant
  import opened Steps
  import opened CommitSteps
  import opened Reds
  import opened Runs
  import opened Theorems

  /**
   * Every submit is answered, or was not processed; the process does not die
   * between a submit and what its answer leads to; and reconcile() runs before
   * the queue loads.
   */
  predicate Attended(w: World, step: Step) {
    match step
    case Send(fate) => fate.failure.Some? ==> Unprocessed(fate.failure.value)
    case LoadQueue => w.mem.Some? || w.disk.dayState.None?
    case Crash => w.disk.marker.None?
    case _ => true
  }

  predicate AllAttended(env: Env, dedup: bool, w: World, steps: seq<Step>)
    requires Possible(env, dedup, w, steps)
    decreases steps
  {
    steps == [] ||
    (Attended(w, steps[0]) && AllAttended(env, dedup, Next(env, dedup, w, steps[0]), steps[1..]))
  }

  /** A run whose every step is attended. */
  predicate AttendedRun(rules: Rules, env: Env, w: World, steps: seq<Step>) {
    Run(rules, env, w, steps) && AllAttended(env, rules.Dedup?, w, steps)
  }

  /** A day state has red errors exactly when FDMS holds an unknown tax ID, counting the answer in hand. */
  predicate Tells(s: DayState, pc: Pc, known: bool) {
    (s.redErrors == [] && (pc.Saving? ==> Clean(pc.errors))) <==> known
  }

  function Last(w: World): DayState
    requires Tail(w.journal) != []
  {
    Tail(w.journal)[|Tail(w.journal)| - 1].after
  }

  /** A receipt signed on the day state in memory, until it is committed. */
  predicate OnMemory(w: World) {
    || w.pc.Appending? || w.pc.Applying?
    || ((w.pc.Marking? || w.pc.Sending? || w.pc.Saving?) && !w.pc.via.Flush?) ==>
      && w.mem.Some? && w.pc.p.after.redErrors == w.mem.value.redErrors
      && w.pc.p.receipt.globalNo == w.mem.value.globalNo + 1
  }

  /** A marker is there between a request and what its answer leads to, and only then. */
  predicate NeverAsked(w: World) {
    && (w.disk.marker.Some? ==>
          w.pc.Sending? || w.pc.Dropping? || w.pc.Saving? || w.pc.SavingLast? || w.pc.Unmarking?)
    && !w.pc.Asking?
    && (w.pc.Marking? || w.pc.Sending? || w.pc.Saving? ==> !w.pc.via.Startup?)
  }

  /** Memory and disk tell, and so does the last record of the journal while it is ahead of the disk. */
  predicate Told(env: Env, w: World) {
    var known := AllKnown(env, Today(w.srv));
    && NeverAsked(w) && OnMemory(w) && (w.queue.loaded ==> Covers(w))
    && (w.mem.Some? ==>
          && Tells(w.mem.value, w.pc, known)
          && w.disk.dayState.Some? && w.disk.dayState.value.globalNo <= w.mem.value.globalNo)
    && (w.disk.dayState.Some? ==> Tells(w.disk.dayState.value, w.pc, known))
    && (Tail(w.journal) != [] && w.disk.dayState.Some? && Last(w).globalNo > w.disk.dayState.value.globalNo ==>
          Tells(Last(w), w.pc, known))
  }

  // -- facts about reachable worlds ----------------------------------------

  /** What an answered or unprocessed request comes to. */
  lemma SendTells(env: Env, rules: Rules, w: World, fate: Fate, v: World, log: seq<Prepared>)
    requires Inv(env, rules, w, log) && w.pc.Sending? && FateOk(rules, w.srv, w.pc.p.receipt, fate)
    requires fate.failure.Some? ==> Unprocessed(fate.failure.value)
    requires v == Sent(env, rules.Dedup?, w, fate)
    ensures v == w.(srv := v.srv, pc := v.pc)
    ensures
      || (v.pc == Dropping(w.pc.p, w.pc.via) && v.srv == w.srv)
      || (v.pc.Saving? && v.pc == Saving(w.pc.p, w.pc.via, v.pc.errors)
          && (AllKnown(env, Today(v.srv)) <==> AllKnown(env, Today(w.srv)) && Clean(v.pc.errors)))
  {
    hide Inv, Errors, AllReceipts, Highest, Taken, Today, OriginOf, HeldToday, Index, Server.Submit, InLog, AllKnown,
      Clean, Answers, TaxesKnown;
    var o, p := OriginOf(env, w.srv), w.pc.p;
    SubmitSortsHere(env, rules, w, log, fate.latest);
    if fate.reached && w.srv.status.DayOpened? {
      AnswerTells(env, rules, w, fate.latest, log);
    }
  }

  lemma AnswerTells(env: Env, rules: Rules, w: World, latest: int, log: seq<Prepared>)
    requires Inv(env, rules, w, log) && w.pc.Sending? && w.srv.status.DayOpened?
    ensures
      var (s, response) := Server.Submit(env, rules.Dedup?, w.srv, w.pc.p.receipt, latest);
      && response.Accepted?
      && (AllKnown(env, Today(s)) <==> AllKnown(env, Today(w.srv)) && Clean(response.errors))
  {
    hide LogOk, ServerOk, Errors, AllReceipts, Highest, Taken, Today, OriginOf, HeldToday, Index, Server.Submit, InLog,
      AllKnown, Clean, TaxesKnown, JournalOk, QueueOk, MarkerOk, MemOk, DiskOk, LastOk, PcOk, DatesOk, OnceOk, Fits;
    var o, p := OriginOf(env, w.srv), w.pc.p;
    SendingFacts(env, rules, w, log);
    SubmitSortsHere(env, rules, w, log, latest);
    if Index(o, p) == HeldToday(w.srv) {
      MarkedPlaced(env, rules, o, w.srv, w.journal, p, log);
      ServerTakes(env, rules, w.srv, log, p, latest);
      TodayTaken(env, w.srv, p.receipt, latest);
      OneMoreKnown(env, Today(w.srv), Today(Taken(env, w.srv, p.receipt, latest)));
    } else {
      HeldIsKnown(env, w.srv, p, log);
    }
  }

  lemma OneMoreKnown(env: Env, d: Day, e: Day)
    requires |e.receipts| == |d.receipts| + 1 && e.receipts[..|d.receipts|] == d.receipts
    ensures AllKnown(env, e) <==> AllKnown(env, d) && TaxesKnown(env, e.receipts[|d.receipts|].receipt.bill)
  {
    hide TaxesKnown;
    assert forall i :: 0 <= i < |d.receipts| ==> e.receipts[..|d.receipts|][i] == e.receipts[i];
  }

  lemma HeldIsKnown(env: Env, srv: Fdms, p: Prepared, log: seq<Prepared>)
    requires ServerOk(env, srv, log) && 0 <= Index(OriginOf(env, srv), p) < HeldToday(srv)
    requires InLog(OriginOf(env, srv), log, p)
    ensures AllKnown(env, Today(srv)) ==> TaxesKnown(env, p.receipt.bill)
  {
    hide Numbered, DayOk, AllReceipts, OriginOf, TaxesKnown;
    assert Today(srv).receipts[Index(OriginOf(env, srv), p)].receipt == p.receipt;
  }

  /** Where the program's receipt and the journal stand. */
  lemma PlaceFacts(env: Env, rules: Rules, w: World, log: seq<Prepared>)
    requires Inv(env, rules, w, log) && (w.queue.loaded ==> Covers(w))
    ensures w.journal.cursor <= |w.journal.records|
    ensures w.disk.dayState.None? ==> Tail(w.journal) == []
    ensures w.pc.Saving? ==> w.disk.marker.Some?
    ensures Tail(w.journal) != [] ==>
              Last(w).globalNo == Tail(w.journal)[|Tail(w.journal)| - 1].receipt.globalNo >=
              Tail(w.journal)[0].receipt.globalNo
    ensures w.pc.Saving? && w.pc.via.Flush? ==>
              && Tail(w.journal) != [] && w.mem.Some?
              && w.pc.p.receipt.globalNo <= Last(w).globalNo <= w.mem.value.globalNo
    ensures w.pc.Saving? && !w.pc.via.Flush? && !w.pc.via.Startup? ==> Tail(w.journal) == []
  {
    hide ServerOk, MarkerOk, MemOk, LastOk, DatesOk, OnceOk, AllBelow, CommittedHeld, OriginOf, HeldToday, QueueOk;
    var o := OriginOf(env, w.srv);
    OpensToday(env, w.srv);
    if Tail(w.journal) != [] {
      HeadInLog(env, o, w.srv, w.journal, log);
      StateFacts(env, o, log, |log|);
      assert Tail(w.journal)[0] == w.journal.records[w.journal.cursor];
      assert Tail(w.journal)[|Tail(w.journal)| - 1] == w.journal.records[|w.journal.records| - 1];
    }
  }

  // -- every step ----------------------------------------------------------

  lemma TodayStays(env: Env, dedup: bool, w: World, step: Step)
    requires Enabled(env, w, step) && !step.OpenFiscalDay? && !step.Send?
    ensures AllKnown(env, Today(Next(env, dedup, w, step).srv)) <==> AllKnown(env, Today(w.srv))
  {
    hide SignReceipt, Committed, CloseRequestOf, Tail, Indexed, CloseVerdict, AllReceipts, Highest, LastGlobal,
      TaxesKnown, Raised, FirstState;
  }

  lemma SendKeepsTold(env: Env, rules: Rules, w: World, fate: Fate, v: World, log: seq<Prepared>)
    requires Inv(env, rules, w, log) && Told(env, w) && w.pc.Sending?
    requires FateOk(rules, w.srv, w.pc.p.receipt, fate) && (fate.failure.Some? ==> Unprocessed(fate.failure.value))
    requires v == Sent(env, rules.Dedup?, w, fate)
    ensures Told(env, v)
  {
    hide Inv, Sent, FateOk, AllKnown, Today, Clean, Tail, Unprocessed;
    SendTells(env, rules, w, fate, v, log);
  }

  lemma WriteKeepsTold(env: Env, w: World, v: World)
    requires Told(env, w) && w.pc.Saving? && w.mem.Some?
    requires w.pc.p.after.globalNo == w.pc.p.receipt.globalNo
    requires w.pc.via.Flush? ==>
               Tail(w.journal) != [] && w.pc.p.receipt.globalNo <= Last(w).globalNo <= w.mem.value.globalNo
    requires !w.pc.via.Flush? ==> Tail(w.journal) == []
    requires v.mem == v.disk.dayState == Some(Committed(w.mem, w.pc.p, w.pc.errors))
    requires v == w.(mem := v.mem, disk := w.disk.(dayState := v.mem), pc := SavingLast(w.pc.p, w.pc.via))
    ensures Told(env, v)
  {
    hide AllKnown, Today, Clean, Entries, WithReds;
    var base := if w.mem.value.globalNo < w.pc.p.receipt.globalNo then w.pc.p.after else w.mem.value;
    RedsAdded(base, w.pc.p, w.pc.errors);
  }

  lemma SignedTells(env: Env, s: DayState, input: ReceiptInput, now: int)
    requires SignReceipt(env, s, input, now).Signed?
    ensures var p := SignReceipt(env, s, input, now).prepared;
            p.after.redErrors == s.redErrors && p.receipt.globalNo == s.globalNo + 1
  {
    SignedKeepsReds(env, s, input, now);
    SignedShape(env, s, input, now);
    hide SignReceipt, Accumulated, CanonicalText, SignatureText, Balanced;
  }

  lemma LoadKeepsTold(env: Env, rules: Rules, w: World, v: World, log: seq<Prepared>)
    requires Inv(env, rules, w, log) && Told(env, w) && Enabled(env, w, LoadQueue) && Attended(w, LoadQueue)
    requires v == Next(env, rules.Dedup?, w, LoadQueue)
    ensures Told(env, v)
  {
    hide Inv, AllKnown, Today, Clean, Tail, Indexed;
    KeepLoadQueue(env, rules, w, v, log);
    PlaceFacts(env, rules, w, log);
  }

  /** A sale that is signed, to be submitted or to be queued. */
  lemma SignKeepsTold(env: Env, rules: Rules, w: World, step: Step, v: World)
    requires Told(env, w) && Enabled(env, w, step) && (step.Submit? || step.Enqueue?)
    requires v == Next(env, rules.Dedup?, w, step) && (w.queue.loaded ==> Covers(v))
    ensures Told(env, v)
  {
    hide AllKnown, Today, Clean, SignReceipt, Covers, Tail;
    if step.Submit? {
      SignedTells(env, w.mem.value, step.input, step.now);
    } else {
      SignedTells(env, w.mem.value, step.input, step.now);
    }
  }

  /** The steps that neither ask FDMS for a receipt nor open a day. */
  lemma LocalKeepsTold(env: Env, rules: Rules, w: World, step: Step, v: World)
    requires Told(env, w) && May(rules, env, w, step) && Attended(w, step) && v == Next(env, rules.Dedup?, w, step)
    requires !step.OpenFiscalDay? && !step.Send? && !step.LoadQueue? && !step.WriteState?
    requires !step.Submit? && !step.Enqueue?
    requires w.queue.loaded && !step.Crash? ==> Covers(v)
    requires AllKnown(env, Today(v.srv)) <==> AllKnown(env, Today(w.srv))
    requires w.journal.cursor <= |w.journal.records|
    requires w.pc.Applying? ==> w.pc.p.after.globalNo == w.pc.p.receipt.globalNo
    requires w.pc.Applying? ==> Tail(w.journal) != [] && Tail(w.journal)[|Tail(w.journal)| - 1] == w.pc.p
    requires w.pc.Advancing? && w.queue.pending != [] ==>
               Tail(w.journal) != [] && w.queue.pending[0].cursor == w.journal.cursor
    requires w.disk.dayState.None? ==> Tail(w.journal) == []
    requires w.pc.Saving? ==> w.disk.marker.Some?
    ensures Told(env, v)
  {
    hide AllKnown, Today, Clean, SignReceipt, OpenDay, CloseDay, Settled, CloseRequestOf, Committed, FirstState,
      Indexed, MaySign, CaughtUp, HeadLost, MarkerIsHead, AllReceipts, Reports, FateOk, Highest, Covers;
  }

  lemma StepKeepsTold(env: Env, rules: Rules, w: World, step: Step, log: seq<Prepared>)
    requires Inv(env, rules, w, log) && Told(env, w) && May(rules, env, w, step) && Attended(w, step)
    ensures Told(env, Next(env, rules.Dedup?, w, step))
  {
    hide Inv, AllKnown, Today, Clean, Covers, Tail, Told, Permitted, Enabled, Attended, Next;
    var v := Next(env, rules.Dedup?, w, step);
    if step.OpenFiscalDay? {
      OpeningIsTold(env, rules, w, step, v);
    } else if step.LoadQueue? {
      LoadKeepsTold(env, rules, w, v, log);
    } else if step.Send? {
      SendStepTold(env, rules, w, step, v, log);
    } else {
      CoverFacts(env, rules, w, log);
      TodayStays(env, rules.Dedup?, w, step);
      LoadedCovers(env, w);
      PlaceFacts(env, rules, w, log);
      if w.queue.loaded && !step.Crash? {
        StepKeepsCovers(env, rules, w, step, log);
      }
      if step.WriteState? {
        WriteStepTold(env, rules, w, v);
      } else if step.Submit? || step.Enqueue? {
        SignKeepsTold(env, rules, w, step, v);
      } else {
        LocalKeepsTold(env, rules, w, step, v);
      }
    }
  }

  lemma LoadedCovers(env: Env, w: World)
    requires Told(env, w)
    ensures w.queue.loaded ==> Covers(w)
  {
  }

  lemma SendStepTold(env: Env, rules: Rules, w: World, step: Step, v: World, log: seq<Prepared>)
    requires Inv(env, rules, w, log) && Told(env, w) && May(rules, env, w, step) && Attended(w, step) && step.Send?
    requires v == Next(env, rules.Dedup?, w, step)
    ensures Told(env, v)
  {
    hide Inv, Told, FateOk;
    SendKeepsTold(env, rules, w, step.fate, v, log);
  }

  lemma WriteStepTold(env: Env, rules: Rules, w: World, v: World)
    requires Told(env, w) && Enabled(env, w, WriteState) && v == Next(env, rules.Dedup?, w, WriteState)
    requires w.pc.Saving? ==> w.pc.p.after.globalNo == w.pc.p.receipt.globalNo
    requires w.pc.Saving? && w.pc.via.Flush? ==>
               && Tail(w.journal) != [] && w.mem.Some?
               && w.pc.p.receipt.globalNo <= Last(w).globalNo <= w.mem.value.globalNo
    requires w.pc.Saving? && !w.pc.via.Flush? && !w.pc.via.Startup? ==> Tail(w.journal) == []
    ensures Told(env, v)
  {
    hide AllKnown, Today, Clean, Covers, Tail, Committed;
    WriteKeepsTold(env, w, v);
  }

  lemma OpeningIsTold(env: Env, rules: Rules, w: World, step: Step, v: World)
    requires Told(env, w) && May(rules, env, w, step) && step.OpenFiscalDay? && v == Next(env, rules.Dedup?, w, step)
    ensures Told(env, v)
  {
    hide Tail, Reports, Highest, LastGlobal;
  }

  // -- runs ----------------------------------------------------------------

  lemma {:induction false} RunIsTold(env: Env, rules: Rules, w: World, steps: seq<Step>, log: seq<Prepared>)
    requires KeyPair(env) && Inv(env, rules, w, log) && Told(env, w) && AttendedRun(rules, env, w, steps)
    ensures Told(env, End(env, rules.Dedup?, w, steps))
    decreases steps
  {
    hide KeyPair, Inv, Told, Enabled, Permitted, Attended, Next;
    if steps != [] {
      StepKeepsInv(env, rules, w, steps[0], log);
      StepKeepsTold(env, rules, w, steps[0], log);
      RunIsTold(env, rules, Next(env, rules.Dedup?, w, steps[0]), steps[1..], LogAfter(env, w, steps[0], log));
    }
  }

  lemma StartIsTold(env: Env)
    ensures Told(env, START)
  {
  }

  /**
   * After an attended run the day state in memory, and the stored one, records a
   * red error if and only if FDMS holds a receipt of the day with an unknown tax
   * ID, except between the answer that says so and the write that follows it.
   */
  lemma RedErrorsAreRecorded(env: Env, rules: Rules, steps: seq<Step>)
    requires KeyPair(env) && AttendedRun(rules, env, START, steps)
    ensures
      var w := End(env, rules.Dedup?, START, steps);
      !w.pc.Saving? ==>
        && (w.mem.Some? ==> (w.mem.value.redErrors == [] <==> AllKnown(env, Today(w.srv))))
        && (w.disk.dayState.Some? ==> (w.disk.dayState.value.redErrors == [] <==> AllKnown(env, Today(w.srv))))
  {
    hide KeyPair, AllAttended, Allowed, Possible, AllKnown, Inv;
    StartHoldsInv(env, rules);
    StartIsTold(env);
    RunIsTold(env, rules, START, steps, []);
  }

  /**
   * Then closeDay() without force, on a quiet open day, is refused exactly when
   * the close would not settle to a closed day.
   */
  lemma NoForceIffSettles(env: Env, rules: Rules, steps: seq<Step>, latest: int)
    requires KeyPair(env) && AttendedRun(rules, env, START, steps)
    requires
      var w := End(env, rules.Dedup?, START, steps);
      Quiet(w) && w.mem.Some? && w.srv.status.DayOpened?
    ensures
      var w := End(env, rules.Dedup?, START, steps);
      var close := Fate(true, None, latest);
      && Enabled(env, w, CloseFiscalDay(true, close))
      && (Enabled(env, w, CloseFiscalDay(false, close)) <==>
          Settled(Next(env, rules.Dedup?, w, CloseFiscalDay(true, close)).srv).status.DayClosed?)
  {
    hide KeyPair, AllAttended, Allowed, AllKnown, Possible, CloseRequestOf, Reached, Tail, CloseDay, Enabled, Next,
      Settled, Today;
    var w := End(env, rules.Dedup?, START, steps);
    RedErrorsAreRecorded(env, rules, steps);
    ReachedByRun(env, rules, steps);
    NoForceHere(env, rules, w, latest);
  }

  lemma NoForceHere(env: Env, rules: Rules, w: World, latest: int)
    requires KeyPair(env) && Reached(rules, env, w) && Quiet(w) && w.mem.Some? && w.srv.status.DayOpened?
    requires w.mem.value.redErrors == [] <==> AllKnown(env, Today(w.srv))
    ensures
      var close := Fate(true, None, latest);
      && Enabled(env, w, CloseFiscalDay(true, close))
      && (Enabled(env, w, CloseFiscalDay(false, close)) <==>
          Settled(Next(env, rules.Dedup?, w, CloseFiscalDay(true, close)).srv).status.DayClosed?)
  {
    hide KeyPair, AllKnown, CloseRequestOf, Reached, Tail, CloseDay, Next, Settled, Today, Permitted, Quiet, Merged,
      NonZero, FiscalDaySigningString;
    CloseDaySettles(env, rules, w, latest);
  }
}
