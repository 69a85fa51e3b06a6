/** The durable event store: idempotent inserts that number events globally and per stream. */
module EventLog {
  import opened Basics

  /** Correlation ids: absent, the automatic `run:node:number`, or the caller's own. */
  datatype Correlation = Blank | Automatic(run: string, node: string, number: int) | Custom(text: string)

  datatype EventValue = EventValue(
    eventId: string, node: string, source: string, run: string,
    id: int, local: int, global: int, correlation: Correlation)

  datatype Row = Row(eventId: string, source: string, run: string, local: int, global: int, correlation: Correlation)

  function StreamRun(e: EventValue, run: string): string { if e.run != "" then e.run else run }

  function StreamSource(e: EventValue): string { if e.source != "" then e.source else e.node }

  function RunTag(run: string): string { if run != "" then run else "unbound" }

  predicate InStream(r: Row, source: string, run: string) { r.source == source && r.run == run }

  function Lookup(rows: seq<Row>, eventId: string): (r: Option<nat>)
    ensures r.Some? ==> r.value < |rows| && rows[r.value].eventId == eventId
    ensures r.None? ==> forall j :: 0 <= j < |rows| ==> rows[j].eventId != eventId
  {
    First(rows, (r: Row) => r.eventId == eventId)
  }

  function Max(a: int, b: int): int { if a >= b then a else b }

  /** COALESCE(MAX(...), 0) over a column that may be restricted to one stream. */
  function MaxLocal(rows: seq<Row>, source: string, run: string): (m: int)
    ensures forall i :: 0 <= i < |rows| && InStream(rows[i], source, run) ==> rows[i].local <= m
    ensures m == 0 || exists i :: 0 <= i < |rows| && InStream(rows[i], source, run) && rows[i].local == m
  {
    if rows == [] then 0
    else
      var rest := MaxLocal(rows[..|rows| - 1], source, run);
      var last := rows[|rows| - 1];
      var others := exists i :: 0 <= i < |rows| - 1 && InStream(rows[i], source, run);
      if !InStream(last, source, run) then rest
      else if others then Max(rest, last.local) else last.local
  }

  function MaxGlobal(rows: seq<Row>): (m: int)
    ensures forall i :: 0 <= i < |rows| ==> rows[i].global <= m
    ensures m == 0 || exists i :: 0 <= i < |rows| && rows[i].global == m
  {
    if rows == [] then 0
    else if |rows| == 1 then rows[0].global
    else Max(MaxGlobal(rows[..|rows| - 1]), rows[|rows| - 1].global)
  }

  function Requested(number: int, id: int): int { if number != 0 then number else id }

  /** The correlation id was left to the store, or names the numbers the event asked for. */
  predicate IsAutomatic(e: EventValue, stream: string) {
    || e.correlation == Blank
    || e.correlation == Automatic(RunTag(stream), e.node, e.id)
    || e.correlation == Automatic(RunTag(stream), e.node, Requested(e.global, e.id))
  }

  /** The event as `_insert_event` leaves it. */
  function Numbered(rows: seq<Row>, e: EventValue, run: string): EventValue {
    var known := Lookup(rows, e.eventId);
    if known.Some? then
      var row := rows[known.value];
      e.(local := row.local, global := row.global, id := row.global)
    else
      var stream := StreamRun(e, run);
      var global := Max(Requested(e.global, e.id), MaxGlobal(rows) + 1);
      var local := Max(Requested(e.local, e.id), MaxLocal(rows, StreamSource(e), stream) + 1);
      e.(local := local, global := global, id := global,
         correlation := if IsAutomatic(e, stream) then Automatic(RunTag(stream), e.node, global) else e.correlation)
  }

  function Insert(rows: seq<Row>, e: EventValue, run: string): seq<Row> {
    if Lookup(rows, e.eventId).Some? then rows
    else
      var n := Numbered(rows, e, run);
      rows + [Row(e.eventId, StreamSource(e), StreamRun(e, run), n.local, n.global, n.correlation)]
  }

  /** The table after a sequence of inserts, each with its own requested numbers. */
  function Log(inserts: seq<(EventValue, string)>): seq<Row> {
    if inserts == [] then []
    else
      var last := inserts[|inserts| - 1];
      Insert(Log(inserts[..|inserts| - 1]), last.0, last.1)
  }

  /** The two cases of an insert, as the procedure meets them. */
  lemma InsertCases(rows: seq<Row>, e: EventValue, run: string)
    ensures var known := Lookup(rows, e.eventId);
            var n := Numbered(rows, e, run);
            var stream, source := StreamRun(e, run), StreamSource(e);
            if known.Some? then
              && Insert(rows, e, run) == rows
              && n == e.(local := rows[known.value].local, global := rows[known.value].global, id := rows[known.value].global)
            else
              && n.local == Max(Requested(e.local, e.id), MaxLocal(rows, source, stream) + 1)
              && n.global == n.id == Max(Requested(e.global, e.id), MaxGlobal(rows) + 1)
              && n.correlation == (if IsAutomatic(e, stream) then Automatic(RunTag(stream), e.node, n.global) else e.correlation)
              && n == e.(local := n.local, global := n.global, id := n.id, correlation := n.correlation)
              && Insert(rows, e, run) == rows + [Row(e.eventId, source, stream, n.local, n.global, n.correlation)]
  {}

  // ------------------------------------------------------------- implementation

  class IncidentEvent {
    const eventId: string
    const node: string
    const source: string
    const run: string
    var id: int
    var local: int
    var global: int
    var correlation: Correlation

    constructor (value: EventValue)
      ensures Value() == value
    {
      eventId, node, source, run := value.eventId, value.node, value.source, value.run;
      id, local, global, correlation := value.id, value.local, value.global, value.correlation;
    }

    function Value(): EventValue
      reads this
    {
      EventValue(eventId, node, source, run, id, local, global, correlation)
    }
  }

  class EventStore {
    var rows: seq<Row>

    constructor ()
      ensures rows == []
    {
      rows := [];
    }

    /** _insert_event: true when the event was new. The event takes over its stored numbers. */
    method InsertEvent(event: IncidentEvent, runId: string) returns (stored: bool)
      modifies this, event
      ensures rows == Insert(old(rows), old(event.Value()), runId)
      ensures event.Value() == Numbered(old(rows), old(event.Value()), runId)
      ensures stored == (|rows| > |old(rows)|)
    {
      hide MaxLocal, MaxGlobal, Lookup, Max, RunTag, InStream, Insert, Numbered;
      InsertCases(rows, event.Value(), runId);
      var durableRun := if event.run != "" then event.run else runId;
      var sourceNode := if event.source != "" then event.source else event.node;
      var existing := Lookup(rows, event.eventId);
      if existing.Some? {
        event.local := rows[existing.value].local;
        event.global := rows[existing.value].global;
        event.id := event.global;
        return false;
      }
      var requestedLocal := if event.local != 0 then event.local else event.id;
      var requestedGlobal := if event.global != 0 then event.global else event.id;
      var nextLocal := Max(requestedLocal, MaxLocal(rows, sourceNode, durableRun) + 1);
      var nextGlobal := Max(requestedGlobal, MaxGlobal(rows) + 1);
      var tag := RunTag(durableRun);
      var automatic := event.correlation == Blank
                       || event.correlation == Automatic(tag, event.node, event.id)
                       || event.correlation == Automatic(tag, event.node, requestedGlobal);
      event.local := nextLocal;
      event.global := nextGlobal;
      event.id := nextGlobal;
      if automatic { event.correlation := Automatic(tag, event.node, nextGlobal); }
      rows := rows + [Row(event.eventId, sourceNode, durableRun, event.local, event.global, event.correlation)];
      return true;
    }
  }

  // ------------------------------------------------------------------- invariant

  predicate Sequenced(rows: seq<Row>) {
    && (forall i :: 0 <= i < |rows| ==> rows[i].local >= 1 && rows[i].global >= 1)
    && (forall i, j :: 0 <= i < j < |rows| ==> rows[i].eventId != rows[j].eventId && rows[i].global < rows[j].global)
    && (forall i, j :: 0 <= i < j < |rows| && InStream(rows[j], rows[i].source, rows[i].run) ==> rows[i].local < rows[j].local)
  }

  lemma InsertKeepsSequence(rows: seq<Row>, e: EventValue, run: string)
    requires Sequenced(rows)
    ensures Sequenced(Insert(rows, e, run))
  {
    hide MaxLocal, MaxGlobal, Lookup;
    assert MaxGlobal(rows) >= 0 && MaxLocal(rows, StreamSource(e), StreamRun(e, run)) >= 0;
  }

  lemma {:induction false} LogIsSequenced(inserts: seq<(EventValue, string)>)
    ensures Sequenced(Log(inserts))
  {
    hide Insert, Sequenced;
    if inserts != [] {
      var last := inserts[|inserts| - 1];
      LogIsSequenced(inserts[..|inserts| - 1]);
      InsertKeepsSequence(Log(inserts[..|inserts| - 1]), last.0, last.1);
    } else {
      EmptyIsSequenced();
    }
  }

  lemma EmptyIsSequenced()
    ensures Sequenced([])
  {}

  // -------------------------------------------------------------------- theorems

  /** Later inserts only append: a stored event keeps its row, and so its first numbers. */
  lemma {:induction false} LogOnlyGrows(inserts: seq<(EventValue, string)>, k: nat)
    requires k <= |inserts|
    ensures Log(inserts[..k]) <= Log(inserts)
    decreases |inserts|
  {
    hide Numbered;
    if k == |inserts| {
      assert inserts[..k] == inserts;
    } else {
      var before := inserts[..|inserts| - 1];
      LogOnlyGrows(before, k);
      assert before[..k] == inserts[..k];
    }
  }

  /** Every inserted event id ends up in exactly one row, and every insert of it - the first or
      a repeat with whatever numbers - reports that row's numbers to the caller. */
  lemma EachEventStoredOnce(inserts: seq<(EventValue, string)>, k: nat)
    returns (at: nat)
    requires k < |inserts|
    ensures var rows := Log(inserts);
            var reported := Numbered(Log(inserts[..k]), inserts[k].0, inserts[k].1);
            && at < |rows| && rows[at].eventId == inserts[k].0.eventId
            && (forall j :: 0 <= j < |rows| && rows[j].eventId == inserts[k].0.eventId ==> j == at)
            && reported.local == rows[at].local && reported.global == rows[at].global == reported.id
  {
    hide Numbered, Log;
    LogIsSequenced(inserts);
    LogOnlyGrows(inserts, k + 1);
    var before := Log(inserts[..k]);
    var after := Log(inserts[..k + 1]);
    LogStep(inserts, k);
    var found := Lookup(before, inserts[k].0.eventId);
    at := if found.Some? then found.value else |before|;
    ReportedNumbers(before, inserts[k].0, inserts[k].1);
  }

  lemma LogStep(inserts: seq<(EventValue, string)>, k: nat)
    requires k < |inserts|
    ensures Log(inserts[..k + 1]) == Insert(Log(inserts[..k]), inserts[k].0, inserts[k].1)
  {
    assert inserts[..k + 1][..k] == inserts[..k];
  }

  lemma ReportedNumbers(rows: seq<Row>, e: EventValue, run: string)
    ensures var n := Numbered(rows, e, run);
            var found := Lookup(rows, e.eventId);
            && n.id == n.global
            && (found.Some? ==> n.local == rows[found.value].local && n.global == rows[found.value].global)
            && (found.None? ==> |Insert(rows, e, run)| == |rows| + 1
                                && n.local == Insert(rows, e, run)[|rows|].local
                                && n.global == Insert(rows, e, run)[|rows|].global)
  {}

  /** Within a stream, insertion order, local order and global order are the same order. */
  lemma OrdersAgree(inserts: seq<(EventValue, string)>, i: nat, j: nat)
    requires i < |Log(inserts)| && j < |Log(inserts)|
    ensures var rows := Log(inserts);
            && (rows[i].global < rows[j].global <==> i < j)
            && (InStream(rows[j], rows[i].source, rows[i].run) ==> (rows[i].local < rows[j].local <==> i < j))
            && (InStream(rows[j], rows[i].source, rows[i].run) ==>
                  (rows[i].local < rows[j].local <==> rows[i].global < rows[j].global))
  {
    hide Log;
    LogIsSequenced(inserts);
  }

  /** The number an event asks for in a sequence: its own there, or else its id. */
  predicate AsksFor(own: int, id: int, number: int) { if own == 0 then number == id else number == own }

  /** A requested number is never lowered, and is kept exactly when it is above every number
      already given out in its sequence: all events, or those of its stream. */
  lemma RequestedNumberKeptIff(inserts: seq<(EventValue, string)>, e: EventValue, run: string, global: int, local: int)
    requires Lookup(Log(inserts), e.eventId).None?
    requires AsksFor(e.global, e.id, global) && AsksFor(e.local, e.id, local) && global > 0 && local > 0
    ensures var rows := Log(inserts);
            var n := Numbered(rows, e, run);
            && n.global >= global && n.local >= local
            && (n.global == global <==> forall i :: 0 <= i < |rows| ==> rows[i].global < global)
            && (n.local == local
                <==> forall i :: 0 <= i < |rows| && InStream(rows[i], StreamSource(e), StreamRun(e, run)) ==> rows[i].local < local)
  {
    hide Log, MaxLocal, MaxGlobal, Lookup;
    assert MaxGlobal(Log(inserts)) >= 0 by { LogIsSequenced(inserts); }
    assert MaxLocal(Log(inserts), StreamSource(e), StreamRun(e, run)) >= 0 by { LogIsSequenced(inserts); }
  }

  /** A new event's correlation id is its caller's own, or, when that was left open or named the
      numbers asked for, the automatic one of its run, node and global number. */
  lemma CorrelationIsKeptOrNumbered(inserts: seq<(EventValue, string)>, e: EventValue, run: string)
    requires Lookup(Log(inserts), e.eventId).None?
    ensures var rows := Insert(Log(inserts), e, run);
            var row := rows[|rows| - 1];
            var stream := if e.run != "" then e.run else run;
            var tag := if stream != "" then stream else "unbound";
            && row.run == stream && row.source == (if e.source != "" then e.source else e.node)
            && (e.correlation.Custom? ==> row.correlation == e.correlation)
            && (e.correlation.Blank? ==> row.correlation == Automatic(tag, e.node, row.global))
            && (e.correlation.Automatic? ==>
                  if e.correlation == Automatic(tag, e.node, e.id) || (e.global != 0 && e.correlation == Automatic(tag, e.node, e.global))
                  then row.correlation == Automatic(tag, e.node, row.global) else row.correlation == e.correlation)
  {
    hide Log, MaxLocal, MaxGlobal, Lookup;
  }
}
