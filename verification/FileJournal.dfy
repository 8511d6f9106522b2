/**
 * The line journal of src/node/storage.ts: one record a line, and the commit
 * cursor in a file of its own.
 */
module FileJournals {
  import opened Text
  import opened Json

  const NEWLINE: CodeUnit := 10

  predicate OneLine(record: Str) { NEWLINE !in record }

  /** text.split("\n") */
  function Lines(text: Str): (lines: seq<Str>)
    ensures lines != []
    decreases |text|
  {
    var n := Break(text);
    if n == |text| then [text] else [text[..n]] + Lines(text[n + 1..])
  }

  /** Where the first newline is, or the length. */
  function Break(text: Str): (n: nat)
    ensures n <= |text| && OneLine(text[..n]) && (n < |text| ==> text[n] == NEWLINE)
  {
    if text == [] || text[0] == NEWLINE then 0
    else
      var n := 1 + Break(text[1..]);
      assert text[..n] == [text[0]] + text[1..][..n - 1];
      n
  }

  datatype Entry = Entry(cursor: nat, record: Str)
  datatype ReadResult = Read(entries: seq<Entry>) | Corrupt(line: nat)

  /** What reading makes of the lines from position i on. */
  function Entries(parses: Str -> bool, lines: seq<Str>, i: nat): ReadResult
    decreases |lines| - i
  {
    if i >= |lines| then Read([])
    else if lines[i] == [] then Entries(parses, lines, i + 1)
    else if !parses(lines[i]) then
      if i == |lines| - 1 then Read([]) else Corrupt(i)
    else
      match Entries(parses, lines, i + 1)
      case Corrupt(l) => Corrupt(l)
      case Read(es) => Read([Entry(i, lines[i])] + es)
  }

  datatype File<+T> = Absent | Holds(content: T)

  class FileJournal {
    const parses: Str -> bool  // whether JSON.parse accepts a text
    var log: File<Str>
    var cursor: File<nat>

    function Text(): Str
      reads this
    {
      if log.Holds? then log.content else []
    }

    constructor (parses: Str -> bool)
      ensures this.parses == parses && log == Absent && cursor == Absent
    {
      this.parses := parses;
      log, cursor := Absent, Absent;
    }

    method Append(record: Str) returns (ok: bool)
      modifies this`log
      ensures ok == OneLine(record)
      ensures ok ==> log == Holds(old(Text()) + record + [NEWLINE])
      ensures !ok ==> log == old(log)
    {
      ok := NEWLINE !in record;
      if ok {
        log := Holds(Text() + record + [NEWLINE]);
      }
    }

    /** An append cut short by a crash: the first n characters landed, and perhaps some bytes of the next one. */
    method TornAppend(record: Str, n: nat, cut: bool)
      requires OneLine(record) && TornTo(record + [NEWLINE], n, cut)
      modifies this`log
      ensures log == Holds(old(Text()) + Landed(record + [NEWLINE], n, cut))
    {
      log := Holds(Text() + ((record + [NEWLINE])[..n] + (if cut then [0xFFFD] else [])));
    }

    method ReadFrom(from: nat) returns (r: ReadResult)
      ensures log.Absent? ==> r == Read([])
      ensures log.Holds? ==> r == Entries(parses, Lines(log.content), from)
    {
      if log.Absent? {
        return Read([]);
      }
      var lines := Lines(log.content);
      var out: seq<Entry> := [];
      var i := from;
      while i < |lines|
        invariant from <= i && (i <= |lines| || i == from)
        invariant Entries(parses, lines, from) ==
          match Entries(parses, lines, i) case Corrupt(l) => Corrupt(l) case Read(es) => Read(out + es)
      {
        var record := lines[i];
        if record == [] {
          i := i + 1;
          continue;
        }
        if !parses(record) {
          if i == |lines| - 1 {
            break;
          }
          return Corrupt(i);
        }
        assert forall es :: out + ([Entry(i, record)] + es) == out + [Entry(i, record)] + es;
        out := out + [Entry(i, record)];
        i := i + 1;
      }
      r := Read(out);
    }

    /** The cursor only ever moves forward. */
    method Commit(to: nat)
      modifies this`cursor
      ensures cursor == if to > (if old(cursor).Holds? then old(cursor.content) else 0) then Holds(to) else old(cursor)
    {
      var committed := Committed();
      if to > committed {
        cursor := Holds(to);
      }
    }

    method Committed() returns (c: nat)
      ensures c == if cursor.Holds? then cursor.content else 0
    {
      c := if cursor.Holds? then cursor.content else 0;
    }
  }

  // -- what a torn append can do -------------------------------------------

  /** JSON.parse takes what JSON.stringify writes, and nothing whose braces or quotes are still open. */
  ghost predicate ParsesJson(parses: Str -> bool) {
    && (forall v :: parses(Stringify(v)))
    && (forall t :: parses(t) ==> Scanned(OUTSIDE, t) == OUTSIDE)
  }

  /** A parser of exactly the texts that are written is one. */
  lemma SomeParserParses(parses: Str -> bool)
    requires forall t :: parses(t) <==> exists v :: t == Stringify(v)
    ensures ParsesJson(parses)
  {
    hide Stringify;
    forall t | parses(t) ensures Scanned(OUTSIDE, t) == OUTSIDE {
      var v :| t == Stringify(v);
      ValueIsClosed(v);
      assert At(OUTSIDE, false);
    }
  }

  /** A record as the queue writes it: the text of an object. */
  function RecordOf(fields: seq<Field>): Str { Stringify(Object(fields)) }

  function Records(objects: seq<seq<Field>>): seq<Str> {
    seq(|objects|, i requires 0 <= i < |objects| => RecordOf(objects[i]))
  }

  /** What a reader sees of a text of which n characters landed, and perhaps some bytes of the next one. */
  predicate TornTo(text: Str, n: nat, cut: bool) {
    n <= |text| && (cut ==> n < |text| && text[n] >= 0x80)
  }

  function Landed(text: Str, n: nat, cut: bool): Str
    requires TornTo(text, n, cut)
  {
    text[..n] + if cut then [0xFFFD] else []
  }

  /** The file after these records were appended whole. */
  function Written(records: seq<Str>): Str {
    if records == [] then [] else records[0] + [NEWLINE] + Written(records[1..])
  }

  function Numbered(records: seq<Str>, first: nat): seq<Entry> {
    seq(|records|, i requires 0 <= i < |records| => Entry(first + i, records[i]))
  }

  lemma {:induction false} BreakAfter(record: Str, rest: Str)
    requires OneLine(record)
    ensures Break(record + [NEWLINE] + rest) == |record| && Break(record) == |record|
  {
    if record != [] {
      assert (record + [NEWLINE] + rest)[1..] == record[1..] + [NEWLINE] + rest;
      BreakAfter(record[1..], rest);
    }
  }

  lemma FirstLine(record: Str, rest: Str)
    requires OneLine(record)
    ensures Lines(record + [NEWLINE] + rest) == [record] + Lines(rest)
  {
    var text := record + [NEWLINE] + rest;
    BreakAfter(record, rest);
    assert text[..|record|] == record && text[|record| + 1..] == rest;
  }

  lemma {:induction false} LinesOfWritten(records: seq<Str>, tail: Str)
    requires forall i :: 0 <= i < |records| ==> OneLine(records[i])
    requires OneLine(tail)
    ensures Lines(Written(records) + tail) == records + [tail]
  {
    hide Lines;
    if records == [] {
      LastLine(tail);
      assert Written(records) + tail == tail;
    } else {
      var rest := Written(records[1..]) + tail;
      assert Written(records) + tail == records[0] + [NEWLINE] + rest;
      LinesOfWritten(records[1..], tail);
      FirstLine(records[0], rest);
      assert records == [records[0]] + records[1..];
    }
  }

  lemma LastLine(tail: Str)
    requires OneLine(tail)
    ensures Lines(tail) == [tail]
  {
    BreakAfter(tail, []);
  }

  /** The last line, torn or empty, adds at most itself. */
  lemma {:induction false} EntriesOfLines(parses: Str -> bool, records: seq<Str>, tail: Str, i: nat)
    requires i <= |records|
    requires forall k :: 0 <= k < |records| ==> records[k] != [] && parses(records[k])
    ensures Entries(parses, records + [tail], i) ==
      Read(Numbered(records[i..], i) + (if tail != [] && parses(tail) then [Entry(|records|, tail)] else []))
    decreases |records| - i
  {
    var lines := records + [tail];
    if i == |records| {
      assert Entries(parses, lines, i + 1) == Read([]);
    } else {
      EntriesOfLines(parses, records, tail, i + 1);
      assert lines[i] == records[i];
      assert Numbered(records[i..], i) == [Entry(i, records[i])] + Numbered(records[i + 1..], i + 1);
    }
  }

  /**
   * After whole appends of any objects and one append torn anywhere, even in
   * the bytes of a character, reading from any position never fails: it gives
   * every whole record from there on, at its position, and the torn one exactly
   * when its whole text landed.
   */
  lemma TornAppendReads(parses: Str -> bool, objects: seq<seq<Field>>, fields: seq<Field>, n: nat, cut: bool, from: nat)
    requires ParsesJson(parses) && TornTo(RecordOf(fields) + [NEWLINE], n, cut) && from <= |objects|
    ensures
      var records, torn := Records(objects), RecordOf(fields);
      Entries(parses, Lines(Written(records) + Landed(torn + [NEWLINE], n, cut)), from) ==
      Read(Numbered(records[from..], from) + (if n >= |torn| then [Entry(|records|, torn)] else []))
  {
    hide Lines, Entries, Written, RecordOf;
    var records, torn := Records(objects), RecordOf(fields);
    RecordReads(parses, fields);
    forall k | 0 <= k < |records| ensures records[k] != [] && OneLine(records[k]) && parses(records[k]) {
      RecordReads(parses, objects[k]);
    }
    if n == |torn| + 1 {
      var all := records + [torn];
      WrittenSnoc(records, torn);
      assert Written(records) + Landed(torn + [NEWLINE], n, cut) == Written(all) + [];
      LinesOfWritten(all, []);
      EntriesOfLines(parses, all, [], from);
      assert Numbered(all[from..], from) == Numbered(records[from..], from) + [Entry(|records|, torn)];
    } else {
      var tail := Landed(torn + [NEWLINE], n, cut);
      TornLine(parses, fields, n, cut);
      LinesOfWritten(records, tail);
      EntriesOfLines(parses, records, tail, from);
    }
  }

  lemma RecordReads(parses: Str -> bool, fields: seq<Field>)
    requires ParsesJson(parses)
    ensures var r := RecordOf(fields); r != [] && OneLine(r) && parses(r)
  {
    ObjectText(fields);
    hide Stringify, Scanned;
  }

  /** What landed of a record is one line, and parses only when all of it did. */
  lemma TornLine(parses: Str -> bool, fields: seq<Field>, n: nat, cut: bool)
    requires ParsesJson(parses) && TornTo(RecordOf(fields) + [NEWLINE], n, cut) && n <= |RecordOf(fields)|
    ensures
      var torn, tail := RecordOf(fields), Landed(RecordOf(fields) + [NEWLINE], n, cut);
      OneLine(tail) && (tail != [] && parses(tail) <==> n == |torn|) && (n == |torn| ==> tail == torn)
  {
    var torn := RecordOf(fields);
    var tail := Landed(torn + [NEWLINE], n, cut);
    assert (torn + [NEWLINE])[..n] == torn[..n];
    RecordReads(parses, fields);
    ObjectText(fields);
    hide Stringify;
    if n == |torn| {
      assert tail == torn;
    } else if cut {
      ScannedJoin(OUTSIDE, torn[..n], [0xFFFD]);
      One(Scanned(OUTSIDE, torn[..n]), 0xFFFD);
    } else {
      assert tail == torn[..n];
    }
  }

  lemma {:induction false} WrittenSnoc(records: seq<Str>, r: Str)
    ensures Written(records + [r]) == Written(records) + r + [NEWLINE]
  {
    if records != [] {
      WrittenSnoc(records[1..], r);
      assert (records + [r])[1..] == records[1..] + [r];
    }
  }
}
