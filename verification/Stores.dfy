/** The stores and the client of a device (src/core/storage.ts, journal.ts, transport.ts). */
module Stores {
  import opened Text
  import opened Options
  import opened Receipts
  import opened Server
  import opened Transport
  import opened Protocol
  import opened Trace

  /**
   * Proof-only: what a process killed now would leave behind, and everything
   * such a process could have left so far. Each store and the client record
   * their own effect on it, in the order the effects happen.
   */
  class Timeline {
    ghost var now: Durable
    ghost var trail: seq<Durable>

    constructor ()
      ensures now == DurableOf(START) && trail == []
    {
      now, trail := DurableOf(START), [];
    }

    ghost method Move(next: Durable)
      modifies this
      ensures now == next && trail == old(trail) + Moved(old(now), next)
    {
      trail := trail + Moved(now, next);
      now := next;
    }
  }

  datatype StorageKey = DayStateKey | PendingKey | LastGlobalKey
  datatype Value = StateValue(state: DayState) | PreparedValue(prepared: Prepared) | NumberValue(number: nat)

  predicate Suits(key: StorageKey, value: Value) {
    match key
    case DayStateKey => value.StateValue?
    case PendingKey => value.PreparedValue?
    case LastGlobalKey => value.NumberValue?
  }

  function DiskOf(items: map<StorageKey, Value>): Disk {
    Disk(if DayStateKey in items && items[DayStateKey].StateValue? then Some(items[DayStateKey].state) else None,
         if PendingKey in items && items[PendingKey].PreparedValue? then Some(items[PendingKey].prepared) else None,
         if LastGlobalKey in items && items[LastGlobalKey].NumberValue? then Some(items[LastGlobalKey].number)
         else None)
  }

  function Written(d: Disk, key: StorageKey, value: Value): Disk
    requires Suits(key, value)
  {
    match key
    case DayStateKey => d.(dayState := Some(value.state))
    case PendingKey => d.(marker := Some(value.prepared))
    case LastGlobalKey => d.(lastGlobal := Some(value.number))
  }

  function Erased(d: Disk, key: StorageKey): Disk {
    match key
    case DayStateKey => d.(dayState := None)
    case PendingKey => d.(marker := None)
    case LastGlobalKey => d.(lastGlobal := None)
  }

  /** Each set is atomic for its key. */
  class MemoryStorage {
    const timeline: Timeline
    var items: map<StorageKey, Value>

    ghost predicate Valid()
      reads this, timeline
    {
      && (forall key :: key in items ==> Suits(key, items[key]))
      && timeline.now.disk == DiskOf(items)
    }

    constructor (timeline: Timeline)
      requires timeline.now.disk == Disk(None, None, None)
      ensures Valid() && this.timeline == timeline && items == map[]
    {
      this.timeline, items := timeline, map[];
    }

    method Get(key: StorageKey) returns (value: Option<Value>)
      requires Valid()
      ensures value == if key in items then Some(items[key]) else None
      ensures value.Some? ==>
                Suits(key, value.value) && timeline.now.disk == Written(timeline.now.disk, key, value.value)
      ensures value.None? ==> timeline.now.disk == Erased(timeline.now.disk, key)
    {
      value := if key in items then Some(items[key]) else None;
    }

    method Set(key: StorageKey, value: Value)
      requires Valid() && Suits(key, value)
      modifies this, timeline
      ensures Valid() && items == old(items)[key := value]
      ensures timeline.now == old(timeline.now).(disk := Written(old(timeline.now.disk), key, value))
      ensures timeline.trail == old(timeline.trail) + Moved(old(timeline.now), timeline.now)
    {
      items := items[key := value];
      timeline.Move(timeline.now.(disk := DiskOf(items)));
    }

    method Delete(key: StorageKey)
      requires Valid()
      modifies this, timeline
      ensures Valid() && items == old(items) - {key}
      ensures timeline.now == old(timeline.now).(disk := Erased(old(timeline.now.disk), key))
      ensures timeline.trail == old(timeline.trail) + Moved(old(timeline.now), timeline.now)
    {
      items := items - {key};
      timeline.Move(timeline.now.(disk := DiskOf(items)));
    }
  }

  /** Records are appended once and never rewritten; the cursor only grows. */
  class MemoryJournal {
    const timeline: Timeline
    var records: seq<Prepared>
    var cursor: nat

    ghost predicate Valid()
      reads this, timeline
    {
      timeline.now.journal == Journal(records, cursor)
    }

    constructor (timeline: Timeline)
      requires timeline.now.journal == Journal([], 0)
      ensures Valid() && this.timeline == timeline && records == [] && cursor == 0
    {
      this.timeline, records, cursor := timeline, [], 0;
    }

    method Append(p: Prepared)
      requires Valid()
      modifies this, timeline
      ensures Valid()
      ensures timeline.now == old(timeline.now).(journal := Journal(old(records) + [p], old(cursor)))
      ensures timeline.trail == old(timeline.trail) + Moved(old(timeline.now), timeline.now)
    {
      records := records + [p];
      timeline.Move(timeline.now.(journal := Journal(records, cursor)));
    }

    method ReadFrom(from: nat) returns (entries: seq<Queued>)
      ensures entries == Indexed(from, if from <= |records| then records[from..] else [])
    {
      entries := [];
      var i := from;
      while i < |records|
        invariant from <= i && (i <= |records| || i == from)
        invariant entries == Indexed(from, if i <= |records| then records[from..i] else [])
      {
        assert records[from..i + 1] == records[from..i] + [records[i]];
        entries := entries + [Queued(i, records[i])];
        i := i + 1;
      }
      assert from <= |records| ==> records[from..i] == records[from..];
    }

    method Commit(to: nat)
      requires Valid()
      modifies this, timeline
      ensures Valid() && cursor == Max(old(cursor), to)
      ensures timeline.now == old(timeline.now).(journal := Journal(old(records), Max(old(cursor), to)))
      ensures timeline.trail == old(timeline.trail) + Moved(old(timeline.now), timeline.now)
    {
      if to > cursor {
        cursor := to;
      }
      timeline.Move(timeline.now.(journal := Journal(records, cursor)));
    }
  }

  // -- 0.3.x storage: a snapshot of what is not committed --------------------

  /** A place in the list: replace() past the end leaves places without a record. */
  type Slot = Option<Prepared>

  /** What a Journal holds that is not committed; a cursor past the end leaves nothing. */
  function Uncommitted(records: seq<Slot>, cursor: nat): seq<Slot> {
    if cursor <= |records| then records[cursor..] else []
  }

  /** Each record with its position. */
  function Placed(from: nat, records: seq<Slot>): seq<Option<Queued>> {
    seq(|records|, i requires 0 <= i < |records| =>
      if records[i].Some? then Some(Queued(from + i, records[i].value)) else None)
  }

  /** all[at] = record */
  function Put(records: seq<Slot>, at: nat, p: Prepared): (r: seq<Slot>)
    ensures at < |r| && r[at] == Some(p) && |r| == Max(|records|, at + 1)
    ensures forall i :: 0 <= i < |r| && i != at ==> r[i] == if i < |records| then records[i] else None
  {
    if at < |records| then records[at := Some(p)]
    else records + seq(at - |records|, _ => None) + [Some(p)]
  }

  /** The snapshot, rewritten as a whole at each save. */
  class QueueStorage {
    var items: seq<Slot>

    constructor (items: seq<Slot>)
      ensures this.items == items
    {
      this.items := items;
    }
  }

  /**
   * journalFromQueueStorage: a journal over a snapshot. Positions count from
   * the first load, and the snapshot always is what is not committed.
   */
  class SnapshotJournal {
    const storage: QueueStorage
    var records: Option<seq<Slot>>
    var cursor: nat

    ghost predicate Valid()
      reads this, storage
    {
      if records.None? then cursor == 0 else storage.items == Uncommitted(records.value, cursor)
    }

    /** The records as the next load would show them, or as it has shown them. */
    ghost function Records(): seq<Slot>
      reads this, storage
    {
      if records.None? then storage.items else records.value
    }

    constructor (storage: QueueStorage)
      ensures Valid() && this.storage == storage && Records() == storage.items && cursor == 0
    {
      this.storage, records, cursor := storage, None, 0;
    }

    method Load()
      requires Valid()
      modifies this
      ensures Valid() && records == Some(old(Records())) && cursor == old(cursor)
    {
      if records.None? {
        records := Some(storage.items);
      }
    }

    method Append(p: Prepared)
      requires Valid()
      modifies this, storage
      ensures Valid() && Records() == old(Records()) + [Some(p)] && cursor == old(cursor)
      ensures cursor <= |old(Records())| ==> storage.items == Uncommitted(old(Records()), cursor) + [Some(p)]
    {
      Load();
      records := Some(records.value + [Some(p)]);
      storage.items := Uncommitted(records.value, cursor);
    }

    method ReadFrom(from: nat) returns (entries: seq<Option<Queued>>)
      requires Valid()
      modifies this
      ensures Valid() && Records() == old(Records()) && cursor == old(cursor)
      ensures |entries| == if from <= |Records()| then |Records()| - from else 0
      ensures forall i :: 0 <= i < |entries| ==>
                entries[i] == match Records()[from + i] case Some(p) => Some(Queued(from + i, p)) case None => None
    {
      Load();
      entries := Placed(from, Uncommitted(records.value, from));
    }

    method Commit(to: nat)
      requires Valid()
      modifies this, storage
      ensures Valid() && Records() == old(Records()) && cursor == Max(old(cursor), to)
      ensures storage.items == Uncommitted(old(Records()), cursor)
    {
      Load();
      cursor := Max(cursor, to);
      storage.items := Uncommitted(records.value, cursor);
    }

    /** One record in place; past the end, the places between stay empty. */
    method Replace(at: nat, p: Prepared)
      requires Valid()
      modifies this, storage
      ensures Valid() && Records() == Put(old(Records()), at, p) && cursor == old(cursor)
      ensures storage.items == Uncommitted(Records(), cursor)
    {
      Load();
      records := Some(Put(records.value, at, p));
      storage.items := Uncommitted(records.value, cursor);
    }

    /** A new process over the same snapshot reads exactly what was not committed. */
    method Reopen() returns (next: SnapshotJournal)
      requires Valid() && records.Some?
      ensures fresh(next) && next.Valid() && next.cursor == 0 && next.Records() == Uncommitted(Records(), cursor)
    {
      next := new SnapshotJournal(storage);
    }
  }

  /** What becomes of a submit: the network's choice where the setting allows it. */
  function Granted(rules: Rules, srv: Fdms, r: Receipt, f: Fate): Fate {
    if FateOk(rules, srv, r, f) then f else Fate(true, None, f.latest)
  }

  /** And of a close. */
  function GrantedClose(f: Fate): Fate {
    if f.reached || f.failure.Some? then f else Fate(false, Some(Network), f.latest)
  }

  /**
   * Requests to FDMS over a network that loses requests and answers. What it does
   * with the k-th question and the k-th POST is given beforehand, and counted here,
   * so that a call cannot pretend to have been sent.
   */
  class FdmsClient {
    const server: FdmsSimulator
    const timeline: Timeline
    const rules: Rules
    const retries: nat
    const questions: nat -> nat -> Attempt
    const fates: nat -> Fate
    var asked: nat
    var sent: nat

    ghost predicate Valid()
      reads server, timeline
    {
      server.dedup == rules.Dedup? && timeline.now.srv == server.View()
    }

    constructor (server: FdmsSimulator, timeline: Timeline, rules: Rules, retries: nat,
                 questions: nat -> nat -> Attempt, fates: nat -> Fate)
      requires server.dedup == rules.Dedup? && timeline.now.srv == server.View()
      ensures Valid() && this.server == server && this.timeline == timeline
      ensures this.rules == rules && this.retries == retries && this.questions == questions && this.fates == fates
      ensures asked == sent == 0
    {
      this.server, this.timeline, this.rules, this.retries := server, timeline, rules, retries;
      this.questions, this.fates, asked, sent := questions, fates, 0, 0;
    }

    /** A GET is repeated after a network failure, and only then. */
    method GetStatus() returns (answer: Option<(Status, nat)>)
      requires Valid()
      modifies `asked
      ensures asked == old(asked) + 1
      ensures answer.Some? <==> Reaches(questions(old(asked)), retries)
      ensures answer.Some? ==>
                answer.value.0 == timeline.now.srv.status && Reports(AllReceipts(timeline.now.srv.days), answer.value.1)
    {
      var attempts := questions(asked);
      asked := asked + 1;
      var result, tries := Request(true, retries, attempts);
      if result.Err? {
        return None;
      }
      var status, last := server.GetStatus();
      answer := Some((status, last));
    }

    /** A submit is sent once, whatever happens. */
    method SubmitReceipt(r: Receipt) returns (outcome: Outcome, ghost fate: Fate)
      requires Valid()
      modifies `sent, server, timeline
      ensures Valid() && sent == old(sent) + 1
      ensures fate == Granted(rules, old(timeline.now.srv), r, fates(old(sent)))
      ensures FateOk(rules, old(timeline.now.srv), r, fate)
      ensures
        var (srv, response) :=
          if fate.reached then Server.Submit(server.env, rules.Dedup?, old(timeline.now.srv), r, fate.latest)
          else (old(timeline.now.srv), Refused);
        timeline.now == old(timeline.now).(srv := srv) && outcome == OutcomeOf(fate, response)
      ensures timeline.trail == old(timeline.trail) + Moved(old(timeline.now), timeline.now)
    {
      hide Server.Submit, AllReceipts;
      var chosen := Granted(rules, server.View(), r, fates(sent));
      sent := sent + 1;
      var response := Refused;
      if chosen.reached {
        response := server.SubmitReceipt(r, chosen.latest);
      }
      timeline.Move(timeline.now.(srv := server.View()));
      fate := chosen;
      outcome := OutcomeOf(chosen, response);
    }

    method OpenDay(dayNo: Option<nat>, openedAt: int) returns (opening: Option<nat>)
      requires Valid()
      modifies server, timeline
      ensures Valid() && opening.Some? == Server.OpenDay(old(timeline.now.srv), dayNo, openedAt).Some?
      ensures opening.Some? ==>
                var (srv, no) := Server.OpenDay(old(timeline.now.srv), dayNo, openedAt).value;
                timeline.now == old(timeline.now).(srv := srv) && opening.value == no
      ensures opening.None? ==> timeline.now == old(timeline.now)
    {
      opening := server.Open(dayNo, openedAt);
      timeline.Move(timeline.now.(srv := server.View()));
    }

    method CloseDay(q: CloseRequest) returns (accepted: bool, ghost fate: Fate)
      requires Valid()
      modifies `sent, server, timeline
      ensures Valid() && sent == old(sent) + 1 && fate == GrantedClose(fates(old(sent)))
      ensures
        var (srv, taken) :=
          if fate.reached then Server.CloseDay(server.env, old(timeline.now.srv), q)
          else (old(timeline.now.srv), false);
        timeline.now == old(timeline.now).(srv := srv) && accepted == (taken && fate.failure.None?)
      ensures timeline.trail == old(timeline.trail) + Moved(old(timeline.now), timeline.now)
    {
      hide Server.CloseDay;
      var chosen := GrantedClose(fates(sent));
      sent := sent + 1;
      accepted := false;
      if chosen.reached {
        accepted := server.Close(q);
      }
      accepted := accepted && chosen.failure.None?;
      timeline.Move(timeline.now.(srv := server.View()));
      fate := chosen;
    }
  }
}
