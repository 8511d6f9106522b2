/** Whole runs: the invariant holds in every world that a run reaches. */
module Runs {
  import opened Text
  import opened Options
  import opened Ledger
  import opened Counters
  import opened Receipts
  import opened Server
  import opened Protocol
  import opened Invariant
  import opened Steps
  import opened CommitSteps
  import opened DaySteps
  import opened Reds

  lemma StepKeepsInv(env: Env, rules: Rules, w: World, step: Step, log: seq<Prepared>)
    requires KeyPair(env) && Inv(env, rules, w, log) && May(rules, env, w, step)
    ensures Inv(env, rules, Next(env, rules.Dedup?, w, step), LogAfter(env, w, step, log))
  {
    hide Inv, KeyPair, SignReceipt, Reports, AllReceipts, Highest, OpenDay, CloseDay, Settled, LogWith, LogAfterSend,
      Sent, FateOk, FirstState, CloseRequestOf, Raised, LastGlobal, Committed, HeadLost, MarkerIsHead,
      LaterThanEarlierDays, Follows, Tail, Indexed, OriginOf, DateOf, AfterMarker, Max;
    var v := Next(env, rules.Dedup?, w, step);
    match step
    case Submit(input, now, via) =>
      var p := SignReceipt(env, w.mem.value, input, now).prepared;
      SignedNext(env, rules, w, input, now);
      KeepSubmit(env, rules, w, v, p, via, log);
    case Enqueue(input, now) =>
      var p := SignReceipt(env, w.mem.value, input, now).prepared;
      SignedNext(env, rules, w, input, now);
      KeepEnqueue(env, rules, w, v, p, log);
    case LoadQueue => KeepLoadQueue(env, rules, w, v, log);
    case FlushHead => KeepFlushHead(env, rules, w, v, log);
    case Reconcile => KeepReconcile(env, rules, w, v, log);
    case AskStatus(answer) => KeepAskStatus(env, rules, w, v, answer, log);
    case WriteMarker => KeepWriteMarker(env, rules, w, v, log);
    case Send(fate) => KeepSend(env, rules, w, v, fate, log);
    case DropMarker => KeepDropMarker(env, rules, w, v, log);
    case WriteState => KeepWriteState(env, rules, w, v, Committed(w.mem, w.pc.p, w.pc.errors), log);
    case WriteLast => KeepWriteLast(env, rules, w, v, log);
    case ClearMarker => KeepClearMarker(env, rules, w, v, log);
    case CommitJournal => KeepCommitJournal(env, rules, w, v, log);
    case Append => KeepAppend(env, rules, w, v, log);
    case ApplyState => KeepApplyState(env, rules, w, v, log);
    case ApplyLast => KeepApplyLast(env, rules, w, v, log);
    case OpenFiscalDay(dayNo, openedAt, reported, given) =>
      KeepOpenFiscalDay(env, rules, w, v, dayNo, openedAt, reported, given, log);
    case CloseFiscalDay(force, fate) => KeepCloseFiscalDay(env, rules, w, v, fate, log);
    case Settle => KeepSettle(env, rules, w, v, log);
    case ClearState => KeepClearState(env, rules, w, v, log);
    case Crash => KeepCrash(env, rules, w, v, log);
  }

  lemma SignedNext(env: Env, rules: Rules, w: World, input: ReceiptInput, now: int)
    requires KeyPair(env) && w.mem.Some? && SignReceipt(env, w.mem.value, input, now).Signed?
    requires MaySign(rules, w, input, now)
    ensures var p := SignReceipt(env, w.mem.value, input, now).prepared;
            Follows(env, w.mem.value, p) && (rules.Ordered? ==> LaterThanEarlierDays(w.srv, p.receipt.date))
  {
    SignedFollows(env, w.mem.value, input, now);
    hide Follows, LaterThanEarlierDays, TotalDue, PaymentsTotal, ReceiptTaxes, Acceptable, CanonicalText,
      SignatureText, Advanced, KeyPair;
  }

  lemma StartHoldsInv(env: Env, rules: Rules)
    ensures Inv(env, rules, START, []) && RedsOk(env, START, [])
  {
    assert AllReceipts([]) == [];
  }

  lemma {:induction false} RunKeepsInv(env: Env, rules: Rules, w: World, steps: seq<Step>, log: seq<Prepared>)
    returns (end: seq<Prepared>)
    requires KeyPair(env) && Inv(env, rules, w, log) && RedsOk(env, w, log) && Run(rules, env, w, steps)
    ensures Inv(env, rules, End(env, rules.Dedup?, w, steps), end)
    ensures RedsOk(env, End(env, rules.Dedup?, w, steps), end)
    decreases steps
  {
    hide Inv, RedsOk, Enabled, Permitted, Next, KeyPair;
    if steps == [] {
      end := log;
    } else {
      StepKeepsInv(env, rules, w, steps[0], log);
      StepKeepsReds(env, rules, w, steps[0], log);
      end := RunKeepsInv(env, rules, Next(env, rules.Dedup?, w, steps[0]), steps[1..], LogAfter(env, w, steps[0], log));
    }
  }

  /** The worlds of a device's whole life, over any number of days. */
  ghost predicate Reached(rules: Rules, env: Env, w: World) {
    exists steps: seq<Step> :: Run(rules, env, START, steps) && End(env, rules.Dedup?, START, steps) == w
  }

  lemma ReachedHasInv(env: Env, rules: Rules, w: World) returns (log: seq<Prepared>)
    requires KeyPair(env) && Reached(rules, env, w)
    ensures Inv(env, rules, w, log) && RedsOk(env, w, log)
  {
    hide Inv, RedsOk, Allowed, Possible, KeyPair;
    var steps :| Run(rules, env, START, steps) && End(env, rules.Dedup?, START, steps) == w;
    StartHoldsInv(env, rules);
    log := RunKeepsInv(env, rules, START, steps, []);
  }
}
