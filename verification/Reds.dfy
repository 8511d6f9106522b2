/**
 * Red errors and the day state in memory: before FDMS holds a receipt with an
 * unknown tax ID no red error is recorded anywhere, and once the queue has
 * caught up with the journal it stays caught up until the process dies.
 */
module Reds {
  import opened Text
  import opened Options
  import opened Ledger
  import opened Counters
  import opened Receipts
  import opened Server
  import opened Protocol
  import opened Invariant
  import opened Steps
  import opened CommitSteps

  // -- what an answer adds -------------------------------------------------

  /** The number of a red code; the two Yellow codes have none. */
  function RedNumber(c: Code): Option<nat> {
    match c
    case RCPT010 => Some(10) case RCPT011 => Some(11) case RCPT012 => Some(12) case RCPT013 => Some(13)
    case RCPT020 => Some(20) case RCPT021 => Some(21) case RCPT030 => Some(30)
    case RCPT014 => None case RCPT031 => None
  }

  /** One entry for each red code of an answer, in the answer's order. */
  function Entries(p: Prepared, errors: seq<Code>): seq<RedError> {
    if errors == [] then []
    else
      (match RedNumber(errors[0])
       case Some(n) => [RedError(p.receipt.globalNo, p.receipt.counter, n)]
       case None => [])
      + Entries(p, errors[1..])
  }

  lemma {:induction false} EntriesSplit(p: Prepared, a: seq<Code>, b: seq<Code>)
    ensures Entries(p, a + b) == Entries(p, a) + Entries(p, b)
  {
    if a == [] {
      assert a + b == b;
    } else {
      assert (a + b)[1..] == a[1..] + b;
      EntriesSplit(p, a[1..], b);
    }
  }

  lemma OneEntry(p: Prepared, c: Code)
    ensures Red(c) <==> RedNumber(c).Some?
    ensures Entries(p, [c]) ==
            if Red(c) then [RedError(p.receipt.globalNo, p.receipt.counter, CodeNo(c))] else []
    ensures Clean([c]) <==> !Red(c)
  {
    assert c in [c] && [c][1..] == [];
    assert Entries(p, []) == [];
  }

  /** An answer adds its red codes to the red errors, and changes nothing else. */
  lemma {:induction false} RedsAdded(s: DayState, p: Prepared, errors: seq<Code>)
    ensures WithReds(s, p, errors) == s.(redErrors := s.redErrors + Entries(p, errors))
    ensures Entries(p, errors) == [] <==> Clean(errors)
  {
    hide Entries, RedNumber, CodeNo, Red, Passes;
    if errors == [] {
      NothingAdded(p);
    } else {
      var init, c := errors[..|errors| - 1], errors[|errors| - 1];
      RedsAdded(s, p, init);
      assert errors == init + [c];
      EntriesSplit(p, init, [c]);
      BothPass(init, [c], false);
      OneEntry(p, c);
    }
  }

  lemma NothingAdded(p: Prepared)
    ensures Entries(p, []) == [] && Clean([])
  {
  }

  // -- runs ----------------------------------------------------------------

  /** The log after a step: only a receipt that FDMS or the journal takes, or a new day, changes it. */
  function LogAfter(env: Env, w: World, step: Step, log: seq<Prepared>): seq<Prepared> {
    match step
    case Send(fate) => if w.pc.Sending? then LogAfterSend(env, w.srv, fate.reached, log, w.pc.p) else log
    case Append => if w.pc.Appending? then LogWith(OriginOf(env, w.srv), log, w.pc.p) else log
    case OpenFiscalDay(_, _, _, _) => []
    case _ => log
  }

  predicate Unmarred(ps: seq<Prepared>) {
    forall i :: 0 <= i < |ps| ==> ps[i].after.redErrors == []
  }

  /** What in the program's hands comes from the log or the marker. */
  lemma RedFacts(env: Env, rules: Rules, w: World, log: seq<Prepared>)
    requires Inv(env, rules, w, log) && NoReds(w.mem, w.disk, w.pc, log)
    ensures Unmarred(Tail(w.journal))
    ensures w.pc.Idle? && w.queue.loaded ==> w.queue.pending == Indexed(w.journal.cursor, Tail(w.journal))
    ensures w.pc.Sending? || w.pc.Saving? ==> w.disk.marker == Some(w.pc.p)
    ensures w.pc.Applying? ==> Tail(w.journal) != [] && Tail(w.journal)[|Tail(w.journal)| - 1] == w.pc.p
  {
    hide LogOk, ServerOk, MarkerOk, MemOk, DiskOk, LastOk, DatesOk, OnceOk, Fits, AllBelow, Increasing, CommittedHeld,
      OriginOf, Tail, AtHead, NotHead, SignedOn, Kept, HeldToday, MayFollow;
  }

  /** An answer of FDMS about a receipt it holds, on a day without unknown tax IDs, is clean. */
  lemma AnswerIsClean(env: Env, rules: Rules, w: World, log: seq<Prepared>)
    requires Inv(env, rules, w, log) && w.pc.Saving? && AllKnown(env, Today(w.srv))
    ensures Clean(w.pc.errors)
  {
    hide LogOk, JournalOk, QueueOk, MarkerOk, MemOk, DiskOk, LastOk, DatesOk, OnceOk, Fits, OriginOf, TaxesKnown,
      Clean, Passes, DayOk, Numbered, InHand, Tail;
    var o, p := OriginOf(env, w.srv), w.pc.p;
    SavingFacts(env, rules, w, log);
    HeldInLog(env, rules, o, w.srv, w.journal, p, log);
    assert Today(w.srv).receipts[Index(o, p)].receipt == log[Index(o, p)].receipt;
  }

  /** Today only grows, until the next day opens. */
  lemma TodayGrows(env: Env, dedup: bool, w: World, step: Step)
    requires Enabled(env, w, step) && !step.OpenFiscalDay?
    ensures Today(w.srv).receipts <= Today(Next(env, dedup, w, step).srv).receipts
  {
    hide SignReceipt, Committed, CloseRequestOf, Tail, Indexed, CloseVerdict, Duplicate, Errors, Accumulated,
      AllReceipts, Highest, OutcomeOf, LastGlobal;
  }

  lemma KnownBefore(env: Env, dedup: bool, w: World, step: Step)
    requires Enabled(env, w, step) && !step.OpenFiscalDay? && AllKnown(env, Today(Next(env, dedup, w, step).srv))
    ensures AllKnown(env, Today(w.srv))
  {
    TodayGrows(env, dedup, w, step);
    hide Next, Enabled, TaxesKnown, Today;
    var d, e := Today(w.srv), Today(Next(env, dedup, w, step).srv);
    assert forall i :: 0 <= i < |d.receipts| ==> d.receipts[i] == e.receipts[i];
  }

  lemma RedsStep(env: Env, dedup: bool, w: World, step: Step, log: seq<Prepared>)
    requires Enabled(env, w, step) && NoReds(w.mem, w.disk, w.pc, log) && Unmarred(Tail(w.journal))
    requires w.pc.Idle? && w.queue.loaded ==> w.queue.pending == Indexed(w.journal.cursor, Tail(w.journal))
    requires w.pc.Sending? || w.pc.Saving? ==> w.disk.marker == Some(w.pc.p)
    requires w.pc.Applying? ==> Tail(w.journal) != [] && Tail(w.journal)[|Tail(w.journal)| - 1] == w.pc.p
    requires w.pc.Saving? ==> Clean(w.pc.errors)
    ensures var v := Next(env, dedup, w, step); NoReds(v.mem, v.disk, v.pc, LogAfter(env, w, step, log))
  {
    hide OpenDay, CloseDay, Server.Submit, Settled, CloseRequestOf, Tail, OriginOf, InLog, SignReceipt, WithReds,
      Clean;
    match step
    case Submit(input, now, via) => SignedKeepsReds(env, w.mem.value, input, now);
    case Enqueue(input, now) => SignedKeepsReds(env, w.mem.value, input, now);
    case WriteState =>
      var s := if w.mem.None? || w.mem.value.globalNo < w.pc.p.receipt.globalNo then w.pc.p.after else w.mem.value;
      RedsOnly(s, w.pc.p, w.pc.errors);
    case _ =>
  }

  lemma SignedKeepsReds(env: Env, s: DayState, input: ReceiptInput, now: int)
    requires SignReceipt(env, s, input, now).Signed?
    ensures SignReceipt(env, s, input, now).prepared.after.redErrors == s.redErrors
  {
    SignedShape(env, s, input, now);
    hide SignReceipt, Accumulated, CanonicalText, SignatureText, Balanced;
  }

  /** Every step keeps red errors away until FDMS holds a receipt with an unknown tax ID. */
  lemma StepKeepsReds(env: Env, rules: Rules, w: World, step: Step, log: seq<Prepared>)
    requires Inv(env, rules, w, log) && RedsOk(env, w, log) && May(rules, env, w, step)
    ensures RedsOk(env, Next(env, rules.Dedup?, w, step), LogAfter(env, w, step, log))
  {
    hide Inv, Next, Enabled, Permitted, AllKnown, NoReds, LogAfter, Clean, Tail, Indexed;
    var v := Next(env, rules.Dedup?, w, step);
    if step.OpenFiscalDay? {
      OpeningIsUnmarred(env, rules.Dedup?, w, step, log);
    } else if AllKnown(env, Today(v.srv)) {
      KnownBefore(env, rules.Dedup?, w, step);
      RedFacts(env, rules, w, log);
      if w.pc.Saving? {
        AnswerIsClean(env, rules, w, log);
      }
      RedsStep(env, rules.Dedup?, w, step, log);
    }
  }

  lemma OpeningIsUnmarred(env: Env, dedup: bool, w: World, step: Step, log: seq<Prepared>)
    requires Enabled(env, w, step) && step.OpenFiscalDay?
    ensures var v := Next(env, dedup, w, step); NoReds(v.mem, v.disk, v.pc, LogAfter(env, w, step, log))
  {
    hide OpenDay, Tail, LastGlobal;
  }

  // -- catching up ---------------------------------------------------------

  /** The day state is loaded and covers the journal, or is about to. */
  predicate Covers(w: World) {
    w.pc.Applying? || Tail(w.journal) == [] ||
    (w.mem.Some? && Tail(w.journal)[|Tail(w.journal)| - 1].receipt.globalNo <= w.mem.value.globalNo)
  }

  lemma StepKeepsCovers(env: Env, rules: Rules, w: World, step: Step, log: seq<Prepared>)
    requires Inv(env, rules, w, log) && Covers(w) && May(rules, env, w, step) && !step.Crash?
    ensures Covers(Next(env, rules.Dedup?, w, step))
  {
    hide Inv, Enabled, Permitted, Next, Covers;
    CoverFacts(env, rules, w, log);
    CoversStep(env, rules, w, step);
  }

  lemma CoverFacts(env: Env, rules: Rules, w: World, log: seq<Prepared>)
    requires Inv(env, rules, w, log)
    ensures w.journal.cursor <= |w.journal.records|
    ensures w.pc.Saving? || w.pc.Applying? ==> w.pc.p.after.globalNo == w.pc.p.receipt.globalNo
    ensures w.pc.Applying? ==> Tail(w.journal) != [] && Tail(w.journal)[|Tail(w.journal)| - 1] == w.pc.p
    ensures w.pc.Advancing? && w.queue.pending != [] ==>
              Tail(w.journal) != [] && w.queue.pending[0].cursor == w.journal.cursor
  {
    hide LogOk, ServerOk, MarkerOk, MemOk, DiskOk, LastOk, DatesOk, OnceOk, Fits, AllBelow, Increasing, CommittedHeld,
      OriginOf, HeldToday, MayFollow, Follows, InLog, Index, Opens;
    var o := OriginOf(env, w.srv);
    OpensToday(env, w.srv);
    if w.pc.Saving? {
      SavingFacts(env, rules, w, log);
      HeldFitsLog(env, w.srv, log);
      MarkerEndsLog(env, rules, o, w.srv, w.journal, w.pc.p, log);
    } else if w.pc.Applying? {
      HeadInLog(env, o, w.srv, w.journal, log);
      StateFacts(env, o, log, |log|);
    }
  }

  lemma CoversStep(env: Env, rules: Rules, w: World, step: Step)
    requires Covers(w) && May(rules, env, w, step) && !step.Crash? && w.journal.cursor <= |w.journal.records|
    requires w.pc.Saving? || w.pc.Applying? ==> w.pc.p.after.globalNo == w.pc.p.receipt.globalNo
    requires w.pc.Applying? ==> Tail(w.journal) != [] && Tail(w.journal)[|Tail(w.journal)| - 1] == w.pc.p
    requires w.pc.Advancing? && w.queue.pending != [] ==>
               Tail(w.journal) != [] && w.queue.pending[0].cursor == w.journal.cursor
    ensures Covers(Next(env, rules.Dedup?, w, step))
  {
    hide OpenDay, CloseDay, Server.Submit, Settled, CloseRequestOf, SignReceipt, MaySign, Reports, FateOk,
      AllReceipts, HeadLost, MarkerIsHead, WithReds;
    if step.WriteState? {
      var s := if w.mem.None? || w.mem.value.globalNo < w.pc.p.receipt.globalNo then w.pc.p.after else w.mem.value;
      RedsOnly(s, w.pc.p, w.pc.errors);
    }
  }
}
