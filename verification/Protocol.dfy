/**
 * The submit protocol as a machine. Each storage write, each request and each
 * answer is one step; a crash between any two of them drops the day state in
 * memory, the queue's list of pending receipts and the place in the program.
 */
module Protocol {
  import opened Transport
  import opened Text
  import opened Options
  import opened Counters
  import opened Signing
  import opened Receipts
  import opened Server

  // -- answers (src/core/transport.ts) -------------------------------------

  /** What happens to one request: whether FDMS processes it, and what replaces its answer if anything. */
  datatype Fate = Fate(reached: bool, failure: Option<Failure>, latest: int)

  datatype Outcome = Answered(errors: seq<Code>) | Failed(failure: Failure)

  function OutcomeOf(fate: Fate, response: Response): Outcome {
    if fate.failure.Some? then Failed(fate.failure.value)
    else if response.Refused? then Failed(Http(422))
    else Answered(response.errors)
  }

  // -- state ---------------------------------------------------------------

  /** The three stored keys. */
  datatype Disk = Disk(dayState: Option<DayState>, marker: Option<Prepared>, lastGlobal: Option<nat>)

  /** The append-only journal and its commit cursor. */
  datatype Journal = Journal(records: seq<Prepared>, cursor: nat)

  /** The queue's list in memory, once it has been loaded. */
  datatype Queued = Queued(cursor: nat, item: Prepared)
  datatype Queue = Queue(pending: seq<Queued>, loaded: bool)

  /** Who is submitting: submitReceipt, submitOrEnqueue, flush, or reconcile after a start. */
  datatype Via = Direct | Fallback | Flush | Startup

  /** Where the program stands, before the next write, request or answer. */
  datatype Pc =
    | Idle
    | Marking(p: Prepared, via: Via)
    | Asking(p: Prepared, via: Via)
    | Sending(p: Prepared, via: Via)
    | Dropping(p: Prepared, via: Via)
    | Saving(p: Prepared, via: Via, errors: seq<Code>)
    | SavingLast(p: Prepared, via: Via)
    | Unmarking(p: Prepared, via: Via)
    | Advancing(p: Prepared)
    | Appending(p: Prepared)
    | Applying(p: Prepared)
    | ApplyingLast(p: Prepared)

  datatype World = World(srv: Fdms, disk: Disk, journal: Journal, mem: Option<DayState>, queue: Queue, pc: Pc)

  /** A registered device that has done nothing yet. */
  const START := World(FRESH, Disk(None, None, None), Journal([], 0), None, Queue([], false), Idle)

  /** The journal records that are not committed. */
  function Tail(j: Journal): seq<Prepared> {
    if j.cursor <= |j.records| then j.records[j.cursor..] else []
  }

  function Indexed(cursor: nat, items: seq<Prepared>): seq<Queued> {
    seq(|items|, i requires 0 <= i < |items| => Queued(cursor + i, items[i]))
  }

  function LastGlobal(d: Disk): nat { if d.lastGlobal.Some? then d.lastGlobal.value else 0 }

  function Max(a: nat, b: nat): nat { if a > b then a else b }

  /** Red errors of an answer are kept in the day state. */
  function WithReds(s: DayState, p: Prepared, errors: seq<Code>): DayState {
    if errors == [] then s
    else
      var t := WithReds(s, p, errors[..|errors| - 1]);
      if Red(errors[|errors| - 1]) then
        t.(redErrors := t.redErrors + [RedError(p.receipt.globalNo, p.receipt.counter, CodeNo(errors[|errors| - 1]))])
      else t
  }

  function CodeNo(c: Code): nat {
    match c
    case RCPT010 => 10 case RCPT011 => 11 case RCPT012 => 12 case RCPT013 => 13 case RCPT014 => 14
    case RCPT020 => 20 case RCPT021 => 21 case RCPT030 => 30 case RCPT031 => 31
  }

  /** The queue has already applied a receipt's state; a direct submit has not. */
  function Committed(mem: Option<DayState>, p: Prepared, errors: seq<Code>): DayState {
    WithReds(if mem.None? || mem.value.globalNo < p.receipt.globalNo then p.after else mem.value, p, errors)
  }

  function FirstState(env: Env, dayNo: nat, openedAt: int, lastGlobal: nat): DayState {
    DayState(dayNo, env.dayText(openedAt), 0, lastGlobal, None, None, [], [])
  }

  /** The request that closeDay sends for a day state. */
  function CloseRequestOf(env: Env, s: DayState): CloseRequest {
    var counters := Merged(s.counters);
    var canonical := FiscalDaySigningString(env.deviceId, s.dayNo, s.dayDate, counters);
    CloseRequest(s.dayNo, NonZero(counters), env.hash(canonical), SignatureText(env, canonical), s.counter)
  }

  // -- steps ---------------------------------------------------------------

  datatype Step =
    | Submit(input: ReceiptInput, now: int, via: Via)
    | Enqueue(input: ReceiptInput, now: int)
    | LoadQueue
    | FlushHead
    | Reconcile
    | AskStatus(answer: Option<nat>)
    | WriteMarker
    | Send(fate: Fate)
    | DropMarker
    | WriteState
    | WriteLast
    | ClearMarker
    | CommitJournal
    | Append
    | ApplyState
    | ApplyLast
    | OpenFiscalDay(dayNo: Option<nat>, openedAt: int, reported: nat, given: nat)
    | CloseFiscalDay(force: bool, fate: Fate)
    | Settle
    | ClearState
    | Crash

  /** The guards of the code: when it takes this step rather than throw or return. */
  predicate Enabled(env: Env, w: World, step: Step) {
    match step
    case Submit(input, now, via) =>
      && w.pc.Idle? && w.disk.marker.None? && w.mem.Some?
      && (via.Direct? || (via.Fallback? && w.queue.loaded && w.queue.pending == []))
      && SignReceipt(env, w.mem.value, input, now).Signed?
    case Enqueue(input, now) =>
      w.pc.Idle? && w.queue.loaded && w.mem.Some? && SignReceipt(env, w.mem.value, input, now).Signed?
    case LoadQueue => w.pc.Idle? && !w.queue.loaded
    case FlushHead =>
      && w.pc.Idle? && w.queue.loaded && w.queue.pending != []
      && (w.disk.marker.Some? ==> w.disk.marker.value.receipt.globalNo == w.queue.pending[0].item.receipt.globalNo)
    case Reconcile => w.pc.Idle?
    case AskStatus(_) => w.pc.Asking?
    case WriteMarker => w.pc.Marking?
    case Send(_) => w.pc.Sending?
    case DropMarker => w.pc.Dropping?
    case WriteState => w.pc.Saving?
    case WriteLast => w.pc.SavingLast? && w.mem.Some?
    case ClearMarker => w.pc.Unmarking?
    case CommitJournal => w.pc.Advancing? && w.queue.pending != []
    case Append => w.pc.Appending?
    case ApplyState => w.pc.Applying? && w.mem.Some? && w.pc.p.receipt.globalNo == w.mem.value.globalNo + 1
    case ApplyLast => w.pc.ApplyingLast? && w.mem.Some?
    case OpenFiscalDay(dayNo, openedAt, _, _) =>
      w.pc.Idle? && w.disk.marker.None? && OpenDay(w.srv, dayNo, openedAt).Some?
    case CloseFiscalDay(force, _) =>
      w.pc.Idle? && w.disk.marker.None? && w.mem.Some? && (force || w.mem.value.redErrors == [])
    case Settle => w.srv.closing.Some?
    case ClearState => w.pc.Idle?
    case Crash => true
  }

  /** What a flushed, a journaled or a direct receipt leads to once its marker is gone. */
  function AfterMarker(p: Prepared, via: Via): Pc { if via.Flush? then Advancing(p) else Idle }

  /** persistState's second write: the highest number only ever grows. */
  function Raised(d: Disk, n: nat): Disk {
    if n > LastGlobal(d) then d.(lastGlobal := Some(n)) else d
  }

  /** A request, what FDMS makes of it, and where the answer or its absence leads. */
  function Sent(env: Env, dedup: bool, w: World, fate: Fate): World
    requires w.pc.Sending?
  {
    var (srv, response) :=
      if fate.reached then Server.Submit(env, dedup, w.srv, w.pc.p.receipt, fate.latest) else (w.srv, Refused);
    var outcome := OutcomeOf(fate, response);
    w.(srv := srv,
       pc := if outcome.Answered? then Saving(w.pc.p, w.pc.via, outcome.errors)
             else if Refusal(outcome.failure) then Dropping(w.pc.p, w.pc.via)
             else if w.pc.via.Fallback? && OutcomeUnknown(outcome.failure) then Appending(w.pc.p)
             else Idle)
  }

  function Next(env: Env, dedup: bool, w: World, step: Step): World
    requires Enabled(env, w, step)
  {
    match step
    case Submit(input, now, via) =>
      w.(pc := Marking(SignReceipt(env, w.mem.value, input, now).prepared, via))
    case Enqueue(input, now) =>
      w.(pc := Appending(SignReceipt(env, w.mem.value, input, now).prepared))
    case LoadQueue =>
      var tail := Tail(w.journal);
      w.(queue := Queue(Indexed(w.journal.cursor, tail), true),
         mem := if tail != [] && w.mem.Some? && tail[|tail| - 1].after.globalNo > w.mem.value.globalNo
                then Some(tail[|tail| - 1].after) else w.mem)
    case FlushHead =>
      if w.disk.marker.None? then w.(pc := Marking(w.queue.pending[0].item, Flush))
      else w.(mem := if w.mem.Some? then w.mem else w.disk.dayState, pc := Asking(w.disk.marker.value, Flush))
    case Reconcile =>
      w.(mem := if w.mem.Some? then w.mem else w.disk.dayState,
         pc := if w.disk.marker.Some? then Asking(w.disk.marker.value, Startup) else Idle)
    case AskStatus(answer) =>
      w.(pc := if answer.None? then Idle
               else if answer.value >= w.pc.p.receipt.globalNo then Saving(w.pc.p, w.pc.via, [])
               else Sending(w.pc.p, w.pc.via))
    case WriteMarker =>
      w.(disk := w.disk.(marker := Some(w.pc.p)), pc := Sending(w.pc.p, w.pc.via))
    case Send(fate) =>
      Sent(env, dedup, w, fate)
    case DropMarker =>
      w.(disk := w.disk.(marker := None), pc := Idle)
    case WriteState =>
      var s := Committed(w.mem, w.pc.p, w.pc.errors);
      w.(mem := Some(s), disk := w.disk.(dayState := Some(s)), pc := SavingLast(w.pc.p, w.pc.via))
    case WriteLast =>
      w.(disk := Raised(w.disk, w.mem.value.globalNo), pc := Unmarking(w.pc.p, w.pc.via))
    case ClearMarker =>
      w.(disk := w.disk.(marker := None), pc := AfterMarker(w.pc.p, w.pc.via))
    case CommitJournal =>
      w.(journal := w.journal.(cursor := Max(w.journal.cursor, w.queue.pending[0].cursor + 1)),
         queue := w.queue.(pending := w.queue.pending[1..]), pc := Idle)
    case Append =>
      w.(journal := w.journal.(records := w.journal.records + [w.pc.p]), pc := Applying(w.pc.p))
    case ApplyState =>
      w.(mem := Some(w.pc.p.after), disk := w.disk.(dayState := Some(w.pc.p.after)), pc := ApplyingLast(w.pc.p))
    case ApplyLast =>
      w.(disk := Raised(w.disk, w.mem.value.globalNo),
         queue := w.queue.(pending := w.queue.pending + [Queued(w.journal.cursor + |w.queue.pending|, w.pc.p)]),
         pc := Idle)
    case OpenFiscalDay(dayNo, openedAt, reported, given) =>
      var (srv, no) := OpenDay(w.srv, dayNo, openedAt).value;
      var s := FirstState(env, no, openedAt, Max(Max(reported, given), LastGlobal(w.disk)));
      w.(srv := srv, mem := Some(s), disk := Raised(w.disk.(dayState := Some(s)), s.globalNo))
    case CloseFiscalDay(_, fate) =>
      var (srv, taken) :=
        if fate.reached then CloseDay(env, w.srv, CloseRequestOf(env, w.mem.value)) else (w.srv, false);
      w.(srv := srv, mem := if taken && fate.failure.None? then None else w.mem)
    case Settle =>
      w.(srv := Settled(w.srv))
    case ClearState =>
      w.(mem := None, disk := w.disk.(dayState := None))
    case Crash =>
      w.(mem := None, queue := Queue([], false), pc := Idle)
  }

  // -- what the surroundings may do ----------------------------------------

  /**
   * Three settings. Ordered: plain server, receipt dates increase across days.
   * AllAnswered: plain server, no such order, but every submit gets its answer.
   * Dedup: FDMS answers a receipt it holds with the original.
   */
  datatype Rules = Ordered | AllAnswered | Dedup

  /** FDMS already holds the receipt at the head of the uncommitted journal. */
  predicate HeadHeld(w: World) {
    Tail(w.journal) != [] && Tail(w.journal)[0].receipt in AllReceipts(w.srv.days)
  }

  /** FDMS holds the head, and no marker says so: flush() has settled it, but the journal's cursor has not moved. */
  predicate HeadLost(w: World) {
    HeadHeld(w) && w.disk.marker.None?
  }

  /** The stored marker is the head of the uncommitted journal. */
  predicate MarkerIsHead(w: World) {
    && Tail(w.journal) != [] && w.disk.marker.Some?
    && w.disk.marker.value.receipt.globalNo == Tail(w.journal)[0].receipt.globalNo
  }

  /** Dates of receipts increase over days too; within a day the code sees to it. */
  predicate LaterThanEarlierDays(srv: Fdms, date: int) {
    forall r :: r in AllReceipts(Earlier(srv)) ==> r.date < date
  }

  predicate MaySign(rules: Rules, w: World, input: ReceiptInput, now: int) {
    rules.Ordered? && w.mem.Some? ==> LaterThanEarlierDays(w.srv, DateOf(input, w.mem.value.previousDate, now))
  }

  /**
   * The day state covers the last record of the journal, as it does once the
   * queue has loaded over a loaded day state.
   */
  predicate CaughtUp(w: World) {
    Tail(w.journal) != [] && w.mem.Some? ==>
      Tail(w.journal)[|Tail(w.journal)| - 1].receipt.globalNo <= w.mem.value.globalNo
  }

  /** The statuses with which FDMS answers a request that it has not processed. */
  predicate Unprocessed(f: Failure) {
    f.Http? && f.status < 500 && !(200 <= f.status < 300) && f.status != 408 && f.status != 429
  }

  /**
   * A submit is processed before its failure is seen, or never. After the
   * statuses of `Unprocessed` FDMS does not have the receipt; after any other
   * failure it may. A status that says success is no failure.
   */
  predicate FateOk(rules: Rules, srv: Fdms, r: Receipt, fate: Fate) {
    && (!fate.reached ==> fate.failure.Some?)
    && (fate.failure.Some? && Unprocessed(fate.failure.value) ==> !fate.reached && r !in AllReceipts(srv.days))
    && (fate.failure.Some? && fate.failure.value.Http? ==> !(200 <= fate.failure.value.status < 300))
    && (rules.AllAnswered? && fate.failure.Some? ==> Unprocessed(fate.failure.value))
  }

  predicate Permitted(rules: Rules, env: Env, w: World, step: Step) {
    match step
    case Submit(input, now, via) =>
      MaySign(rules, w, input, now) && Tail(w.journal) == []
    case Enqueue(input, now) =>
      // No unjournaled receipt may be unresolved: its number is the one about to be signed.
      && MaySign(rules, w, input, now) && CaughtUp(w)
      && (w.disk.marker.Some? && w.mem.Some? ==> w.disk.marker.value.receipt.globalNo <= w.mem.value.globalNo)
    case Reconcile => rules.Dedup? || !MarkerIsHead(w)
    case AskStatus(answer) => answer.Some? ==> Reports(AllReceipts(w.srv.days), answer.value)
    case Send(fate) => w.pc.Sending? ==> FateOk(rules, w.srv, w.pc.p.receipt, fate)
    case OpenFiscalDay(_, _, reported, given) =>
      Tail(w.journal) == [] && Reports(AllReceipts(w.srv.days), reported) && given <= Highest(AllReceipts(w.srv.days))
    case CloseFiscalDay(_, fate) => Tail(w.journal) == [] && (!fate.reached ==> fate.failure.Some?)
    case ClearState => w.srv.status.DayClosed? && Tail(w.journal) == []
    case Crash => (rules.Dedup? || !HeadLost(w)) && (rules.AllAnswered? ==> w.disk.marker.None?)
    case _ => true
  }

  predicate May(rules: Rules, env: Env, w: World, step: Step) {
    Enabled(env, w, step) && Permitted(rules, env, w, step)
  }

  /** Steps that the code can take one after the other. */
  predicate Possible(env: Env, dedup: bool, w: World, steps: seq<Step>)
    decreases steps
  {
    steps == [] || (Enabled(env, w, steps[0]) && Possible(env, dedup, Next(env, dedup, w, steps[0]), steps[1..]))
  }

  /** Where they lead. */
  function End(env: Env, dedup: bool, w: World, steps: seq<Step>): World
    requires Possible(env, dedup, w, steps)
    decreases steps
  {
    if steps == [] then w else End(env, dedup, Next(env, dedup, w, steps[0]), steps[1..])
  }

  /** A run: every step possible and allowed where it is taken. */
  predicate Run(rules: Rules, env: Env, w: World, steps: seq<Step>) {
    Possible(env, rules.Dedup?, w, steps) && Allowed(rules, env, w, steps)
  }

  predicate Allowed(rules: Rules, env: Env, w: World, steps: seq<Step>)
    requires Possible(env, rules.Dedup?, w, steps)
    decreases steps
  {
    steps == [] ||
    (Permitted(rules, env, w, steps[0]) && Allowed(rules, env, Next(env, rules.Dedup?, w, steps[0]), steps[1..]))
  }
}
