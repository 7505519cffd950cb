/** The durable store: a session table holding one snapshot per session, an append-only event
    table, and the transactions over them. Integers are stored as i64. */
module Store {
  import opened Text
  import opened Conversation
  import opened History

  const I64_MAX: nat := 0x7FFF_FFFF_FFFF_FFFF

  type i64 = x: int | -0x8000_0000_0000_0000 <= x <= I64_MAX

  datatype SessionRow = SessionRow(
    version: i64, snapshot: ConversationState, createdAtMs: i64, updatedAtMs: i64)

  datatype EventRow = EventRow(
    sequence: i64, eventId: Uuid, eventType: string, payload: Payload, occurredAtMs: i64)

  /** The rows, keyed by session; each session's events stand in the order of `sequence`. */
  datatype Tables = Tables(
    sessions: map<SessionId, SessionRow>, events: map<SessionId, seq<EventRow>>)

  datatype NewEvent = NewEvent(
    eventId: Uuid, eventType: string, payload: Payload, occurredAtMs: u64)

  datatype StoredEvent = StoredEvent(
    sessionId: SessionId, sequence: u64, eventId: Uuid, eventType: string, payload: Payload,
    occurredAtMs: u64)

  datatype StoredSession = StoredSession(
    sessionId: SessionId, version: u64, snapshot: ConversationState,
    createdAtMs: u64, updatedAtMs: u64)

  datatype StoreError =
    | ConstraintViolation
    | SessionNotFound(id: SessionId)
    | VersionConflict(id: SessionId, expected: u64, actual: u64)
    | SnapshotSessionMismatch(requestedId: SessionId, snapshotId: SessionId)
    | SnapshotVersionMismatch(storedVersion: u64, snapshotVersion: u64)
    | NonAdvancingVersion(expected: u64, actual: u64)
    | EmptyEventBatch
    | EmptyEventType
    | NumericOverflow
    | NegativeStoredValue

  function ToI64(value: u64): (r: Result<i64, StoreError>)
    ensures r.Success? <==> value <= I64_MAX
    ensures r.Success? ==> r.value == value
  {
    if value <= I64_MAX then Success(value) else Failure(NumericOverflow)
  }

  function FromI64(value: i64): (r: Result<u64, StoreError>)
    ensures r.Success? <==> value >= 0
    ensures r.Success? ==> r.value == value
  {
    if value >= 0 then Success(value) else Failure(NegativeStoredValue)
  }

  function EventsOf(t: Tables, id: SessionId): seq<EventRow> {
    if id in t.events then t.events[id] else []
  }

  function EventIds(log: seq<EventRow>): set<Uuid> {
    set i | 0 <= i < |log| :: log[i].eventId
  }

  function AllEventIds(t: Tables): set<Uuid> {
    set id, i | id in t.events && 0 <= i < |t.events[id]| :: t.events[id][i].eventId
  }

  /** `MAX(sequence)` over a session's events, 0 when it has none. */
  function LastSequence(log: seq<EventRow>): i64 {
    if log == [] then 0 else log[|log| - 1].sequence
  }

  // ----- what the schema guarantees ------------------------------------------------------------

  ghost predicate RowSound(row: SessionRow) {
    row.version >= 0 && row.createdAtMs >= 0 && row.updatedAtMs >= 0
  }

  ghost predicate LogSound(log: seq<EventRow>) {
    && (forall i :: 0 <= i < |log| ==>
          && log[i].sequence > 0 && log[i].eventType != "" && log[i].occurredAtMs >= 0)
    && (forall i, j :: 0 <= i < j < |log| ==> log[i].sequence < log[j].sequence)
    && (forall i, j :: 0 <= i < j < |log| ==> log[i].eventId != log[j].eventId)
  }

  /** The constraints of the schema: keys, checks, globally unique event ids, and no event
      without its session. */
  ghost predicate Valid(t: Tables) {
    && (forall id :: id in t.sessions ==> RowSound(t.sessions[id]))
    && t.events.Keys <= t.sessions.Keys
    && (forall id :: id in t.events ==> LogSound(t.events[id]))
    && (forall a, b :: a in t.events && b in t.events && a != b ==>
          EventIds(t.events[a]) !! EventIds(t.events[b]))
  }

  // ----- the transactions as functions of the tables -------------------------------------------

  function CreateSession(t: Tables, snapshot: ConversationState, createdAtMs: u64)
    : Result<Tables, StoreError>
  {
    if ToI64(snapshot.version).Failure? || ToI64(createdAtMs).Failure? then Failure(NumericOverflow)
    else if snapshot.sessionId in t.sessions then Failure(ConstraintViolation)
    else
      var row := SessionRow(snapshot.version, snapshot, createdAtMs, createdAtMs);
      Success(t.(sessions := t.sessions[snapshot.sessionId := row]))
  }

  /** Deleting a session deletes its events with it. */
  function DeleteSession(t: Tables, id: SessionId): Tables {
    Tables(t.sessions - {id}, t.events - {id})
  }

  /** One `INSERT INTO events`, refused when a constraint of the table would break. */
  function InsertEvent(t: Tables, id: SessionId, row: EventRow): Result<Tables, StoreError> {
    if || id !in t.sessions || row.sequence <= 0 || row.eventType == "" || row.occurredAtMs < 0
       || row.eventId in AllEventIds(t) || row.sequence <= LastSequence(EventsOf(t, id))
    then Failure(ConstraintViolation)
    else Success(t.(events := t.events[id := EventsOf(t, id) + [row]]))
  }

  /** The row the event at `index` of a batch becomes. */
  function RowFor(base: u64, index: nat, event: NewEvent): Result<EventRow, StoreError> {
    if base + index + 1 >= U64_LIMIT then Failure(NumericOverflow)
    else if ToI64(base + index + 1).Failure? || ToI64(event.occurredAtMs).Failure? then
      Failure(NumericOverflow)
    else
      Success(EventRow(base + index + 1, event.eventId, Trim(IsWhiteSpace, event.eventType),
                       event.payload, event.occurredAtMs))
  }

  /** The insert loop of `append_events`. */
  function InsertBatch(t: Tables, id: SessionId, base: u64, events: seq<NewEvent>)
    : Result<Tables, StoreError>
  {
    if events == [] then Success(t)
    else
      var n := |events| - 1;
      match InsertBatch(t, id, base, events[..n])
      case Failure(e) => Failure(e)
      case Success(work) =>
        match RowFor(base, n, events[n])
        case Failure(e) => Failure(e)
        case Success(row) => InsertEvent(work, id, row)
  }

  predicate AnyBlankType(events: seq<NewEvent>) {
    exists i :: 0 <= i < |events| && Trim(IsWhiteSpace, events[i].eventType) == ""
  }

  /** The checks `append_events` makes before it opens a transaction. */
  function RefuseAppend(id: SessionId, expected: u64, events: seq<NewEvent>,
                        snapshot: ConversationState): Option<StoreError>
  {
    if events == [] then Some(EmptyEventBatch)
    else if snapshot.sessionId != id then Some(SnapshotSessionMismatch(id, snapshot.sessionId))
    else if snapshot.version <= expected then Some(NonAdvancingVersion(expected, snapshot.version))
    else if AnyBlankType(events) then Some(EmptyEventType)
    else None
  }

  function AppendEvents(t: Tables, id: SessionId, expected: u64, events: seq<NewEvent>,
                        snapshot: ConversationState, updatedAtMs: u64)
    : Result<Tables, StoreError>
  {
    if RefuseAppend(id, expected, events, snapshot).Some? then
      Failure(RefuseAppend(id, expected, events, snapshot).value)
    else if id !in t.sessions then Failure(SessionNotFound(id))
    else
      var row := t.sessions[id];
      if row.version < 0 then Failure(NegativeStoredValue)
      else if row.version != expected then Failure(VersionConflict(id, expected, row.version))
      else if LastSequence(EventsOf(t, id)) < 0 then Failure(NegativeStoredValue)
      else
        match InsertBatch(t, id, LastSequence(EventsOf(t, id)), events)
        case Failure(e) => Failure(e)
        case Success(work) =>
          if ToI64(snapshot.version).Failure? || ToI64(updatedAtMs).Failure? then
            Failure(NumericOverflow)
          else
            var row' := row.(version := snapshot.version, snapshot := snapshot,
                             updatedAtMs := updatedAtMs);
            Success(work.(sessions := work.sessions[id := row']))
  }

  // ----- appending is concatenation ------------------------------------------------------------

  /** No integer of the batch overflows a column. */
  ghost predicate FitsColumns(base: int, events: seq<NewEvent>) {
    && 0 <= base && base + |events| <= I64_MAX
    && (forall i :: 0 <= i < |events| ==> events[i].occurredAtMs <= I64_MAX)
  }

  /** The batch as rows, numbered from `base + 1`. */
  function Numbered(base: u64, events: seq<NewEvent>): (rows: seq<EventRow>)
    requires FitsColumns(base, events)
    ensures |rows| == |events|
  {
    if events == [] then []
    else
      var n := |events| - 1;
      Numbered(base, events[..n]) + [RowFor(base, n, events[n]).value]
  }

  lemma {:induction false} NumberedAt(base: u64, events: seq<NewEvent>, i: nat)
    requires FitsColumns(base, events) && i < |events|
    ensures RowFor(base, i, events[i]) == Success(Numbered(base, events)[i])
  {
    if i < |events| - 1 {
      NumberedAt(base, events[..|events| - 1], i);
    }
  }

  /** The event ids of the batch are new, and differ from one another. */
  ghost predicate FreshIds(t: Tables, events: seq<NewEvent>) {
    && (forall i :: 0 <= i < |events| ==> events[i].eventId !in AllEventIds(t))
    && (forall i, j :: 0 <= i < j < |events| ==> events[i].eventId != events[j].eventId)
  }

  /** Exactly the appends that go through. */
  ghost predicate Appendable(t: Tables, id: SessionId, expected: u64, events: seq<NewEvent>,
                             snapshot: ConversationState, updatedAtMs: u64)
  {
    && events != [] && !AnyBlankType(events)
    && snapshot.sessionId == id && expected < snapshot.version <= I64_MAX
    && updatedAtMs <= I64_MAX
    && id in t.sessions && t.sessions[id].version == expected
    && FitsColumns(LastSequence(EventsOf(t, id)), events)
    && FreshIds(t, events)
  }

  function Grown(t: Tables, id: SessionId, rows: seq<EventRow>): Tables {
    if rows == [] then t else t.(events := t.events[id := EventsOf(t, id) + rows])
  }

  lemma {:induction false} IdsAfterGrowth(t: Tables, id: SessionId, rows: seq<EventRow>)
    ensures AllEventIds(Grown(t, id, rows)) == AllEventIds(t) + EventIds(rows)
  {
    var t', log := Grown(t, id, rows), EventsOf(t, id);
    forall e | e in AllEventIds(t)
      ensures e in AllEventIds(t')
    {
      var a, i :| a in t.events && 0 <= i < |t.events[a]| && t.events[a][i].eventId == e;
      assert a in t'.events && t'.events[a][i].eventId == e;
    }
    forall e | e in EventIds(rows)
      ensures e in AllEventIds(t')
    {
      var i :| 0 <= i < |rows| && rows[i].eventId == e;
      assert t'.events[id][|log| + i].eventId == e;
    }
    forall e | e in AllEventIds(t')
      ensures e in AllEventIds(t) + EventIds(rows)
    {
      var a, i :| a in t'.events && 0 <= i < |t'.events[a]| && t'.events[a][i].eventId == e;
      if a == id && i >= |log| {
        assert rows[i - |log|].eventId == e;
      } else {
        assert t.events[a][i].eventId == e;
      }
    }
  }

  lemma {:induction false} LogSoundAfter(log: seq<EventRow>, row: EventRow)
    requires LogSound(log) && row.sequence > LastSequence(log) >= 0
    requires row.eventType != "" && row.occurredAtMs >= 0 && row.eventId !in EventIds(log)
    ensures LogSound(log + [row])
  {
    assert forall i :: 0 <= i < |log| ==> log[i].eventId in EventIds(log);
  }

  lemma {:induction false} InsertKeepsValid(t: Tables, id: SessionId, row: EventRow)
    requires Valid(t) && InsertEvent(t, id, row).Success?
    ensures Valid(InsertEvent(t, id, row).value)
    ensures InsertEvent(t, id, row).value == Grown(t, id, [row])
  {
    var log, t' := EventsOf(t, id), InsertEvent(t, id, row).value;
    assert forall a, e :: a in t.events && e in EventIds(t.events[a]) ==> e in AllEventIds(t);
    assert LogSound(log);
    LogSoundAfter(log, row);
    forall a, e | a in t.events && a != id && e in EventIds(t.events[a])
      ensures e !in EventIds(t'.events[id])
    {
      assert e != row.eventId;
      assert id in t.events ==> EventIds(t.events[a]) !! EventIds(t.events[id]);
    }
  }

  /** What inserting a batch may come to: it succeeds exactly when the batch fits the columns
      and brings new event ids, and then the batch has been appended in order. */
  ghost predicate Concatenates(t: Tables, id: SessionId, base: u64, events: seq<NewEvent>,
                               result: Result<Tables, StoreError>)
  {
    && (result.Success? <==> (FitsColumns(base, events) && FreshIds(t, events)))
    && (result.Success? ==>
          && Valid(result.value)
          && result.value == Grown(t, id, Numbered(base, events))
          && LastSequence(EventsOf(result.value, id)) == base + |events|)
  }

  lemma {:induction false} BatchIsConcatenation(t: Tables, id: SessionId, base: u64,
                                                events: seq<NewEvent>)
    requires Valid(t) && id in t.sessions && base == LastSequence(EventsOf(t, id))
    requires !AnyBlankType(events)
    ensures Concatenates(t, id, base, events, InsertBatch(t, id, base, events))
  {
    hide Valid, FreshIds, FitsColumns, Numbered, Grown, AnyBlankType, RowFor, InsertEvent, LastSequence;
    if events == [] {
      EmptyBatch(t, id, base);
    } else {
      var front, event := events[..|events| - 1], events[|events| - 1];
      assert events == front + [event];
      NoneBlank(front, event);
      BatchIsConcatenation(t, id, base, front);
      if InsertBatch(t, id, base, front).Success? {
        BatchStep(t, id, base, front, event, InsertBatch(t, id, base, front).value);
      } else {
        ShorterBatch(t, base, front, event);
      }
    }
  }

  lemma {:induction false} EmptyBatch(t: Tables, id: SessionId, base: u64)
    requires Valid(t) && id in t.sessions && base == LastSequence(EventsOf(t, id))
    ensures Concatenates(t, id, base, [], Success(t))
  {
    hide Valid;
    assert EventsOf(t, id) != [] ==> base <= I64_MAX;
  }

  lemma {:induction false} NoneBlank(front: seq<NewEvent>, event: NewEvent)
    requires !AnyBlankType(front + [event])
    ensures !AnyBlankType(front) && Trim(IsWhiteSpace, event.eventType) != ""
  {
    var events := front + [event];
    assert forall i :: 0 <= i < |front| ==> front[i] == events[i];
    assert events[|front|] == event;
  }

  lemma {:induction false} ShorterBatch(t: Tables, base: u64, front: seq<NewEvent>,
                                        event: NewEvent)
    ensures FitsColumns(base, front + [event]) ==> FitsColumns(base, front)
    ensures FreshIds(t, front + [event]) ==> FreshIds(t, front)
  {
    assert forall i :: 0 <= i < |front| ==> front[i] == (front + [event])[i];
  }

  ghost predicate SameIds(rows: seq<EventRow>, events: seq<NewEvent>) {
    && |rows| == |events|
    && (forall i :: 0 <= i < |events| ==> rows[i].eventId == events[i].eventId)
  }

  lemma {:induction false} NumberedKeepsIds(base: u64, events: seq<NewEvent>)
    requires FitsColumns(base, events)
    ensures SameIds(Numbered(base, events), events)
  {
    forall i | 0 <= i < |events|
      ensures Numbered(base, events)[i].eventId == events[i].eventId
    {
      NumberedAt(base, events, i);
    }
  }

  lemma {:induction false} FreshIdsOfLonger(t: Tables, front: seq<NewEvent>, event: NewEvent,
                                            rows: seq<EventRow>)
    requires SameIds(rows, front)
    ensures FreshIds(t, front + [event])
       <==> FreshIds(t, front) && event.eventId !in AllEventIds(t) + EventIds(rows)
  {
    var batch := front + [event];
    if FreshIds(t, batch) {
      assert forall i :: 0 <= i < |front| ==> front[i] == batch[i];
      assert batch[|front|] == event;
    }
    if FreshIds(t, front) && event.eventId !in AllEventIds(t) + EventIds(rows) {
      forall i, j | 0 <= i < j < |batch|
        ensures batch[i].eventId != batch[j].eventId
      {
        assert rows[i].eventId in EventIds(rows);
      }
    }
  }

  lemma {:induction false} FitsColumnsOfLonger(base: u64, front: seq<NewEvent>, event: NewEvent)
    ensures FitsColumns(base, front + [event])
       <==> FitsColumns(base, front) && RowFor(base, |front|, event).Success?
    ensures FitsColumns(base, front + [event]) ==>
              (Numbered(base, front + [event])
               == Numbered(base, front) + [RowFor(base, |front|, event).value])
  {
    var batch := front + [event];
    assert batch[|front|] == event && batch[..|front|] == front;
    assert forall i :: 0 <= i < |front| ==> front[i] == batch[i];
  }

  lemma {:induction false} GrowTwice(t: Tables, id: SessionId, rows: seq<EventRow>, row: EventRow)
    ensures Grown(Grown(t, id, rows), id, [row]) == Grown(t, id, rows + [row])
  {
    var log := EventsOf(t, id);
    assert log + (rows + [row]) == (log + rows) + [row];
    if rows == [] {
      assert rows + [row] == [row];
    } else {
      assert EventsOf(Grown(t, id, rows), id) == log + rows;
    }
  }

  /** One more event of a batch goes in exactly when the longer batch fits and is fresh. */
  lemma {:induction false} StepGoesIn(t: Tables, id: SessionId, base: u64, front: seq<NewEvent>,
                                      event: NewEvent, work: Tables)
    requires id in work.sessions && Trim(IsWhiteSpace, event.eventType) != ""
    requires FitsColumns(base, front) && FreshIds(t, front)
    requires AllEventIds(work) == AllEventIds(t) + EventIds(Numbered(base, front))
    requires LastSequence(EventsOf(work, id)) == base + |front|
    ensures (match RowFor(base, |front|, event)
             case Failure(e) => false
             case Success(row) => InsertEvent(work, id, row).Success?)
       <==> (FitsColumns(base, front + [event]) && FreshIds(t, front + [event]))
  {
    NumberedKeepsIds(base, front);
    FreshIdsOfLonger(t, front, event, Numbered(base, front));
    FitsColumnsOfLonger(base, front, event);
  }

  lemma {:induction false} BatchStep(t: Tables, id: SessionId, base: u64, front: seq<NewEvent>,
                                     event: NewEvent, work: Tables)
    requires id in t.sessions && Trim(IsWhiteSpace, event.eventType) != ""
    requires FitsColumns(base, front) && FreshIds(t, front)
    requires Valid(work) && work == Grown(t, id, Numbered(base, front))
    requires LastSequence(EventsOf(work, id)) == base + |front|
    ensures Concatenates(t, id, base, front + [event],
              match RowFor(base, |front|, event)
              case Failure(e) => Failure(e)
              case Success(row) => InsertEvent(work, id, row))
  {
    var row, rows := RowFor(base, |front|, event), Numbered(base, front);
    IdsAfterGrowth(t, id, rows);
    StepGoesIn(t, id, base, front, event, work);
    if row.Success? && InsertEvent(work, id, row.value).Success? {
      FitsColumnsOfLonger(base, front, event);
      InsertKeepsValid(work, id, row.value);
      GrowTwice(t, id, rows, row.value);
    }
  }

  lemma {:induction false} SequencesAreCounted(t: Tables, id: SessionId)
    requires Valid(t)
    ensures LastSequence(EventsOf(t, id)) >= 0
    ensures id in t.sessions ==> t.sessions[id].version >= 0
  {
  }

  /** `append_events` goes through exactly for the appendable batches; then it has appended the
      whole batch in order and advanced the row, and otherwise it has returned no new tables. */
  lemma {:induction false} AppendIsConcatenation(t: Tables, id: SessionId, expected: u64,
                                                 events: seq<NewEvent>,
                                                 snapshot: ConversationState, updatedAtMs: u64)
    requires Valid(t)
    ensures AppendEvents(t, id, expected, events, snapshot, updatedAtMs).Success?
       <==> Appendable(t, id, expected, events, snapshot, updatedAtMs)
    ensures AppendEvents(t, id, expected, events, snapshot, updatedAtMs).Success? ==>
              var t' := AppendEvents(t, id, expected, events, snapshot, updatedAtMs).value;
              var row := t.sessions[id];
              && Valid(t')
              && t'.events == t.events[
                   id := EventsOf(t, id) + Numbered(LastSequence(EventsOf(t, id)), events)]
              && t'.sessions == t.sessions[
                   id := SessionRow(snapshot.version, snapshot, row.createdAtMs, updatedAtMs)]
              && t'.sessions[id].version > row.version
  {
    hide InsertBatch, FreshIds, FitsColumns, Numbered, AnyBlankType, LogSound;
    SequencesAreCounted(t, id);
    if RefuseAppend(id, expected, events, snapshot).None? && id in t.sessions
       && t.sessions[id].version == expected {
      BatchIsConcatenation(t, id, LastSequence(EventsOf(t, id)), events);
    }
  }

  lemma {:induction false} CreateAndDeleteKeepValid(t: Tables, snapshot: ConversationState,
                                                    createdAtMs: u64, id: SessionId)
    requires Valid(t)
    ensures CreateSession(t, snapshot, createdAtMs).Success?
       <==> snapshot.version <= I64_MAX && createdAtMs <= I64_MAX
            && snapshot.sessionId !in t.sessions
    ensures CreateSession(t, snapshot, createdAtMs).Success? ==>
              var t' := CreateSession(t, snapshot, createdAtMs).value;
              Valid(t') && EventsOf(t', snapshot.sessionId) == []
    ensures Valid(DeleteSession(t, id))
    ensures id !in DeleteSession(t, id).sessions && EventsOf(DeleteSession(t, id), id) == []
  {
  }

  // ----- reading back --------------------------------------------------------------------------

  function ReadEvent(id: SessionId, row: EventRow): Result<StoredEvent, StoreError> {
    if row.sequence < 0 || row.occurredAtMs < 0 then Failure(NegativeStoredValue)
    else
      Success(StoredEvent(id, row.sequence, row.eventId, row.eventType, row.payload,
                          row.occurredAtMs))
  }

  /** `list_events`: all rows, or the first error. */
  function Listed(id: SessionId, rows: seq<EventRow>): Result<seq<StoredEvent>, StoreError> {
    if rows == [] then Success([])
    else
      match Listed(id, rows[..|rows| - 1])
      case Failure(e) => Failure(e)
      case Success(events) =>
        match ReadEvent(id, rows[|rows| - 1])
        case Failure(e) => Failure(e)
        case Success(event) => Success(events + [event])
  }

  /** An event as it is listed, field by field. */
  predicate Shows(event: StoredEvent, id: SessionId, row: EventRow) {
    && event.sessionId == id && event.sequence == row.sequence && event.eventId == row.eventId
    && event.eventType == row.eventType && event.payload == row.payload
    && event.occurredAtMs == row.occurredAtMs
  }

  /** A log that obeys the schema is listed whole. */
  lemma {:induction false} SoundLogIsListed(id: SessionId, log: seq<EventRow>)
    requires LogSound(log)
    ensures Listed(id, log).Success? && |Listed(id, log).value| == |log|
    ensures forall i | 0 <= i < |log| :: Shows(Listed(id, log).value[i], id, log[i])
  {
    if log != [] {
      SoundLogIsListed(id, log[..|log| - 1]);
    }
  }

  lemma {:induction false} ListedInParts(id: SessionId, log: seq<EventRow>, more: seq<EventRow>)
    requires Listed(id, log + more).Success?
    ensures Listed(id, log).Success?
    ensures Listed(id, log).value <= Listed(id, log + more).value
  {
    if more == [] {
      assert log + more == log;
    } else {
      assert (log + more)[..|log + more| - 1] == log + more[..|more| - 1];
      ListedInParts(id, log, more[..|more| - 1]);
    }
  }

  /** An event of the batch as it is listed afterwards: its own id, payload and time, its type
      without the white space around it, and a number of its own. */
  ghost predicate ListedAs(stored: StoredEvent, id: SessionId, sequence: int, event: NewEvent) {
    && stored.sessionId == id && stored.sequence == sequence && stored.eventId == event.eventId
    && Surrounds(IsWhiteSpace, event.eventType, stored.eventType) && stored.payload == event.payload
    && stored.occurredAtMs == event.occurredAtMs
  }

  /** `after` lists what `before` lists and then the batch, numbered on. */
  ghost predicate ListsMore(before: seq<StoredEvent>, after: seq<StoredEvent>, id: SessionId, events: seq<NewEvent>) {
    var base := if before == [] then 0 else before[|before| - 1].sequence;
    && before <= after && |after| == |before| + |events|
    && forall i | 0 <= i < |events| :: ListedAs(after[|before| + i], id, base + i + 1, events[i])
  }

  /** What is appended is what is listed: after a successful append the session lists what it
      listed before and then the batch; every other session has the events it had. */
  lemma {:induction false} AppendThenList(t: Tables, id: SessionId, expected: u64, events: seq<NewEvent>,
                                          snapshot: ConversationState, updatedAtMs: u64)
    requires Valid(t) && AppendEvents(t, id, expected, events, snapshot, updatedAtMs).Success?
    ensures var t' := AppendEvents(t, id, expected, events, snapshot, updatedAtMs).value;
      && Listed(id, EventsOf(t, id)).Success? && Listed(id, EventsOf(t', id)).Success?
      && ListsMore(Listed(id, EventsOf(t, id)).value, Listed(id, EventsOf(t', id)).value, id, events)
      && (forall other | other != id :: EventsOf(t', other) == EventsOf(t, other))
  {
    hide AppendEvents, ListsMore, LogSound, Listed;
    AppendIsConcatenation(t, id, expected, events, snapshot, updatedAtMs);
    var t' := AppendEvents(t, id, expected, events, snapshot, updatedAtMs).value;
    var log := EventsOf(t, id);
    EmptyLogIsSound();
    assert EventsOf(t', id) == log + Numbered(LastSequence(log), events);
    LongerLogIsListed(id, log, events);
  }

  lemma {:induction false} EmptyLogIsSound()
    ensures LogSound([])
  {
  }

  lemma {:induction false} LongerLogIsListed(id: SessionId, log: seq<EventRow>, events: seq<NewEvent>)
    requires LogSound(log) && LastSequence(log) >= 0 && FitsColumns(LastSequence(log), events)
    requires LogSound(log + Numbered(LastSequence(log), events))
    ensures Listed(id, log).Success? && Listed(id, log + Numbered(LastSequence(log), events)).Success?
    ensures ListsMore(Listed(id, log).value, Listed(id, log + Numbered(LastSequence(log), events)).value, id, events)
  {
    hide ListedAs, Listed, LogSound, Numbered;
    var base, rows := LastSequence(log), Numbered(LastSequence(log), events);
    SoundLogIsListed(id, log);
    SoundLogIsListed(id, log + rows);
    ListedInParts(id, log, rows);
    var after := Listed(id, log + rows).value;
    forall i | 0 <= i < |events|
      ensures ListedAs(after[|log| + i], id, base + i + 1, events[i])
    {
      assert (log + rows)[|log| + i] == rows[i];
      NumberedIsListed(id, base, events, i, after[|log| + i]);
    }
  }

  lemma {:induction false} NumberedIsListed(id: SessionId, base: u64, events: seq<NewEvent>, i: nat, stored: StoredEvent)
    requires FitsColumns(base, events) && i < |events| && Shows(stored, id, Numbered(base, events)[i])
    ensures ListedAs(stored, id, base + i + 1, events[i])
  {
    hide Numbered, IsWhiteSpace, Trim, Surrounds;
    NumberedAt(base, events, i);
    TrimExactly(IsWhiteSpace, events[i].eventType, stored.eventType);
  }

  /** A row of the session table as `list_sessions` reads it. */
  function ReadSession(id: SessionId, row: SessionRow): Result<StoredSession, StoreError> {
    if row.version < 0 then Failure(NegativeStoredValue)
    else if row.snapshot.sessionId != id then
      Failure(SnapshotSessionMismatch(id, row.snapshot.sessionId))
    else if row.snapshot.version != row.version then
      Failure(SnapshotVersionMismatch(row.version, row.snapshot.version))
    else if row.createdAtMs < 0 || row.updatedAtMs < 0 then Failure(NegativeStoredValue)
    else Success(StoredSession(id, row.version, row.snapshot, row.createdAtMs, row.updatedAtMs))
  }

  /** `ORDER BY created_at_ms, session_id`. */
  predicate Before(t: Tables, a: SessionId, b: SessionId)
    requires a in t.sessions && b in t.sessions
  {
    var x, y := t.sessions[a].createdAtMs, t.sessions[b].createdAtMs;
    x < y || (x == y && a < b)
  }

  /** `rows` are all the sessions of the table, read back without error, in query order. */
  ghost predicate Listing(t: Tables, rows: seq<StoredSession>) {
    && (forall i :: 0 <= i < |rows| ==>
          && rows[i].sessionId in t.sessions
          && ReadSession(rows[i].sessionId, t.sessions[rows[i].sessionId]) == Success(rows[i]))
    && (forall id :: id in t.sessions ==> exists i :: 0 <= i < |rows| && rows[i].sessionId == id)
    && (forall i, j :: 0 <= i < j < |rows| ==> Before(t, rows[i].sessionId, rows[j].sessionId))
  }

  /** A listing holds each row as it is stored, the oldest session first, and of sessions created
      at the same time the one with the lower id. */
  lemma {:induction false} ListingTells(t: Tables, rows: seq<StoredSession>, id: SessionId)
    requires Listing(t, rows) && id in t.sessions
    ensures exists i | 0 <= i < |rows| ::
              && rows[i].sessionId == id && rows[i].version == t.sessions[id].version
              && rows[i].snapshot == t.sessions[id].snapshot
              && rows[i].snapshot.sessionId == id && rows[i].snapshot.version == rows[i].version
              && rows[i].createdAtMs == t.sessions[id].createdAtMs
              && rows[i].updatedAtMs == t.sessions[id].updatedAtMs
    ensures forall i, j | 0 <= i < j < |rows| ::
              || rows[i].createdAtMs < rows[j].createdAtMs
              || (rows[i].createdAtMs == rows[j].createdAtMs && rows[i].sessionId < rows[j].sessionId)
  {
    var i :| 0 <= i < |rows| && rows[i].sessionId == id;
    assert ReadSession(id, t.sessions[id]) == Success(rows[i]);
    forall i, j | 0 <= i < j < |rows|
      ensures rows[i].createdAtMs < rows[j].createdAtMs
              || (rows[i].createdAtMs == rows[j].createdAtMs && rows[i].sessionId < rows[j].sessionId)
    {
      assert Before(t, rows[i].sessionId, rows[j].sessionId);
      assert ReadSession(rows[i].sessionId, t.sessions[rows[i].sessionId]) == Success(rows[i]);
      assert ReadSession(rows[j].sessionId, t.sessions[rows[j].sessionId]) == Success(rows[j]);
    }
  }

  /** A batch that can be tried at all: not empty, for its own session, to a higher version, with
      no blank type. */
  ghost predicate WellFormed(id: SessionId, expected: u64, events: seq<NewEvent>, snapshot: ConversationState) {
    && events != [] && snapshot.sessionId == id && snapshot.version > expected
    && forall i | 0 <= i < |events| :: !AllSpace(IsWhiteSpace, events[i].eventType)
  }

  lemma {:induction false} BlankTypes(events: seq<NewEvent>)
    ensures AnyBlankType(events) <==> exists i | 0 <= i < |events| :: AllSpace(IsWhiteSpace, events[i].eventType)
  {
    hide IsWhiteSpace, Trim;
    forall i | 0 <= i < |events|
      ensures Trim(IsWhiteSpace, events[i].eventType) == "" <==> AllSpace(IsWhiteSpace, events[i].eventType)
    {
      TrimExactly(IsWhiteSpace, events[i].eventType, "");
      BlankExactly(events[i].eventType);
    }
  }

  lemma {:induction false} BatchFailures(t: Tables, id: SessionId, base: u64, events: seq<NewEvent>)
    ensures InsertBatch(t, id, base, events).Failure? ==>
              var e := InsertBatch(t, id, base, events).error;
              e.ConstraintViolation? || e.NumericOverflow?
  {
    if events != [] {
      BatchFailures(t, id, base, events[..|events| - 1]);
    }
  }

  /** Optimistic versions: a batch meets a conflict exactly when its session has another version
      than expected, and is told which; it finds no session exactly when there is none. */
  lemma {:induction false} StaleAppendsConflict(t: Tables, id: SessionId, expected: u64, events: seq<NewEvent>,
                                                snapshot: ConversationState, updatedAtMs: u64, actual: u64)
    requires Valid(t)
    ensures AppendEvents(t, id, expected, events, snapshot, updatedAtMs) == Failure(SessionNotFound(id))
       <==> WellFormed(id, expected, events, snapshot) && id !in t.sessions
    ensures AppendEvents(t, id, expected, events, snapshot, updatedAtMs) == Failure(VersionConflict(id, expected, actual))
       <==> WellFormed(id, expected, events, snapshot) && id in t.sessions
            && t.sessions[id].version == actual != expected
  {
    hide InsertBatch, AllSpace, AnyBlankType, LogSound, IsWhiteSpace;
    BlankTypes(events);
    if id in t.sessions {
      BatchFailures(t, id, if LastSequence(EventsOf(t, id)) < 0 then 0 else LastSequence(EventsOf(t, id)), events);
    }
  }
}
