/** The store as an object whose transactions work on a copy of the tables and commit it. */
module SqliteStore {
  import opened Text
  import opened Conversation
  import opened History
  import opened Store

  class SqliteStore {
    var tables: Tables

    constructor ()
      ensures tables == Tables(map[], map[])
    {
      tables := Tables(map[], map[]);
    }

    method CreateSession(snapshot: ConversationState, createdAtMs: u64)
      returns (error: Option<StoreError>)
      modifies this
      ensures match Store.CreateSession(old(tables), snapshot, createdAtMs)
              case Success(t) => error == None && tables == t
              case Failure(e) => error == Some(e) && tables == old(tables)
    {
      if ToI64(snapshot.version).Failure? {
        return Some(NumericOverflow);
      }
      if ToI64(createdAtMs).Failure? {
        return Some(NumericOverflow);
      }
      if snapshot.sessionId in tables.sessions {
        return Some(ConstraintViolation);
      }
      var row := SessionRow(snapshot.version, snapshot, createdAtMs, createdAtMs);
      tables := tables.(sessions := tables.sessions[snapshot.sessionId := row]);
      error := None;
    }

    /** Inserts the events one by one into a working copy, then moves the session row from the
        expected version to the new one; only a complete transaction is committed. */
    method AppendEvents(id: SessionId, expected: u64, events: seq<NewEvent>,
                        snapshot: ConversationState, updatedAtMs: u64)
      returns (result: Result<u64, StoreError>)
      modifies this
      ensures match Store.AppendEvents(old(tables), id, expected, events, snapshot, updatedAtMs)
              case Success(t) => result == Success(snapshot.version) && tables == t
              case Failure(e) => result == Failure(e) && tables == old(tables)
    {
      if events == [] {
        return Failure(EmptyEventBatch);
      }
      if snapshot.sessionId != id {
        return Failure(SnapshotSessionMismatch(id, snapshot.sessionId));
      }
      if snapshot.version <= expected {
        return Failure(NonAdvancingVersion(expected, snapshot.version));
      }
      if AnyBlankType(events) {
        return Failure(EmptyEventType);
      }

      var work := tables;
      if id !in work.sessions {
        return Failure(SessionNotFound(id));
      }
      var actual := FromI64(work.sessions[id].version);
      if actual.Failure? {
        return Failure(actual.error);
      }
      if actual.value != expected {
        return Failure(VersionConflict(id, expected, actual.value));
      }
      var base := FromI64(LastSequence(EventsOf(work, id)));
      if base.Failure? {
        return Failure(base.error);
      }

      hide InsertBatch, InsertEvent, RowFor;
      BatchStarts(tables, id, base.value, events);
      for index := 0 to |events|
        invariant InsertBatch(old(tables), id, base.value, events[..index]) == Success(work)
        invariant work.sessions == old(tables).sessions && tables == old(tables)
      {
        BatchGoesOn(old(tables), id, base.value, events, index);
        var row := RowFor(base.value, index, events[index]);
        if row.Failure? {
          BatchFails(old(tables), id, base.value, events, index + 1);
          return Failure(row.error);
        }
        var inserted := InsertEvent(work, id, row.value);
        if inserted.Failure? {
          BatchFails(old(tables), id, base.value, events, index + 1);
          return Failure(inserted.error);
        }
        work := inserted.value;
      }
      assert events[..|events|] == events;

      if ToI64(snapshot.version).Failure? || ToI64(updatedAtMs).Failure? {
        return Failure(NumericOverflow);
      }
      if work.sessions[id].version != expected {
        assert false;  // no row to update: the version was checked in this same transaction
      }
      var row := work.sessions[id].(
        version := snapshot.version, snapshot := snapshot, updatedAtMs := updatedAtMs);
      tables := work.(sessions := work.sessions[id := row]);
      result := Success(snapshot.version);
    }

    method DeleteSession(id: SessionId) returns (deleted: bool)
      modifies this
      ensures tables == Store.DeleteSession(old(tables), id)
      ensures deleted <==> id in old(tables).sessions
    {
      deleted := id in tables.sessions;
      tables := Tables(tables.sessions - {id}, tables.events - {id});
    }

    /** The events of a session in the order of their sequence numbers. */
    method ListEvents(id: SessionId) returns (result: Result<seq<StoredEvent>, StoreError>)
      ensures result == Listed(id, EventsOf(tables, id))
    {
      var events: seq<StoredEvent> := [];
      var rows := EventsOf(tables, id);
      for i := 0 to |rows|
        invariant Listed(id, rows[..i]) == Success(events)
      {
        assert rows[..i + 1][..i] == rows[..i];
        var event := ReadEvent(id, rows[i]);
        if event.Failure? {
          ListingFails(id, rows, i + 1);
          return Failure(event.error);
        }
        events := events + [event.value];
      }
      assert rows[..|rows|] == rows;
      result := Success(events);
    }

    method ListSessions() returns (result: Result<seq<StoredSession>, StoreError>)
      ensures result.Success? <==>
              forall id :: id in tables.sessions ==>
                ReadSession(id, tables.sessions[id]).Success?
      ensures result.Success? ==> Listing(tables, result.value)
    {
      var sessions: seq<StoredSession> := [];
      var todo := tables.sessions.Keys;
      while todo != {}
        invariant todo <= tables.sessions.Keys
        invariant forall i :: 0 <= i < |sessions| ==>
                    && sessions[i].sessionId in tables.sessions.Keys - todo
                    && ReadSession(sessions[i].sessionId, tables.sessions[sessions[i].sessionId])
                       == Success(sessions[i])
        invariant forall id :: id in tables.sessions.Keys - todo ==>
                    exists i :: 0 <= i < |sessions| && sessions[i].sessionId == id
        invariant forall i, j :: 0 <= i < j < |sessions| ==>
                    Before(tables, sessions[i].sessionId, sessions[j].sessionId)
        invariant forall i, id :: 0 <= i < |sessions| && id in todo ==>
                    Before(tables, sessions[i].sessionId, id)
        decreases todo
      {
        LeastExists(tables, todo);
        var id :| id in todo && forall other :: other in todo - {id} ==> Before(tables, id, other);
        var session := ReadSession(id, tables.sessions[id]);
        if session.Failure? {
          return Failure(session.error);
        }
        ghost var before, unread := sessions, todo;
        sessions := sessions + [session.value];
        todo := todo - {id};
        assert sessions[|before|].sessionId == id;
        forall seen | seen in tables.sessions.Keys - todo
          ensures exists i :: 0 <= i < |sessions| && sessions[i].sessionId == seen
        {
          if seen != id {
            assert seen in tables.sessions.Keys - unread;
            var i :| 0 <= i < |before| && before[i].sessionId == seen;
            assert sessions[i].sessionId == seen;
          }
        }
      }
      forall id | id in tables.sessions
        ensures exists i :: 0 <= i < |sessions| && sessions[i].sessionId == id
      {
        assert id in tables.sessions.Keys - todo;
      }
      result := Success(sessions);
    }
  }

  lemma {:induction false} BatchStarts(t: Tables, id: SessionId, base: u64, events: seq<NewEvent>)
    ensures InsertBatch(t, id, base, events[..0]) == Success(t)
  {
  }

  lemma {:induction false} BatchGoesOn(t: Tables, id: SessionId, base: u64,
                                       events: seq<NewEvent>, index: nat)
    requires index < |events| && InsertBatch(t, id, base, events[..index]).Success?
    ensures InsertBatch(t, id, base, events[..index + 1]) ==
            match RowFor(base, index, events[index])
            case Failure(e) => Failure(e)
            case Success(row) => InsertEvent(InsertBatch(t, id, base, events[..index]).value, id, row)
    ensures forall row, work ::
              InsertEvent(InsertBatch(t, id, base, events[..index]).value, id, row) == Success(work)
              ==> work.sessions == InsertBatch(t, id, base, events[..index]).value.sessions
  {
    var longer := events[..index + 1];
    assert longer[..index] == events[..index];
  }

  lemma {:induction false} BatchFails(t: Tables, id: SessionId, base: u64,
                                      events: seq<NewEvent>, count: nat)
    requires count <= |events| && InsertBatch(t, id, base, events[..count]).Failure?
    ensures InsertBatch(t, id, base, events) == InsertBatch(t, id, base, events[..count])
    decreases |events| - count
  {
    if count < |events| {
      assert events[..count + 1][..count] == events[..count];
      BatchFails(t, id, base, events, count + 1);
    } else {
      assert events[..count] == events;
    }
  }

  lemma {:induction false} ListingFails(id: SessionId, rows: seq<EventRow>, count: nat)
    requires count <= |rows| && Listed(id, rows[..count]).Failure?
    ensures Listed(id, rows) == Listed(id, rows[..count])
    decreases |rows| - count
  {
    if count < |rows| {
      assert rows[..count + 1][..count] == rows[..count];
      ListingFails(id, rows, count + 1);
    } else {
      assert rows[..count] == rows;
    }
  }

  lemma {:induction false} LeastExists(t: Tables, ids: set<SessionId>)
    requires ids != {} && ids <= t.sessions.Keys
    ensures exists id :: id in ids && forall other :: other in ids - {id} ==> Before(t, id, other)
  {
    var id :| id in ids;
    if ids != {id} {
      var rest := ids - {id};
      LeastExists(t, rest);
      var least :| least in rest && forall other :: other in rest - {least} ==> Before(t, least, other);
      var best := if Before(t, id, least) then id else least;
      forall other | other in ids - {best}
        ensures Before(t, best, other)
      {
        if other != id && other != least {
          assert other in rest - {least} && Before(t, least, other);
        }
      }
    }
  }
}
