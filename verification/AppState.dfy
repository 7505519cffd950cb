/** The server's handlers as code over the objects they share: restoring and purging, and the
    sections that chat and reset run under a session's lock, rolling back when the store refuses. */
module AppState {
  import opened Text
  import opened Conversation
  import opened History
  import opened Store
  import opened Sessions
  import opened SqliteStore
  import opened SessionManager

  datatype AppError = Core(cause: CoreError) | StateConflict | UnknownSession | StorageUnavailable

  function FromStore(error: StoreError): AppError {
    match error
    case VersionConflict(_, _, _) => StateConflict
    case SessionNotFound(_) => UnknownSession
    case _ => StorageUnavailable
  }

  /** A drafted operation: the next state, the events that record it, and what to answer. */
  datatype Draft<T> = Draft(next: ConversationState, events: seq<NewEvent>, answer: T)

  function ChatDraft(rules: Rules, previous: ConversationState, message: string,
                     reply: Result<string, InferenceError>, predictionId: Uuid,
                     askedId: Uuid, answeredId: Uuid, nowMs: u64): Result<Draft<ChatOutcome>, CoreError>
  {
    match TurnResult(rules, previous, message, reply, predictionId)
    case Failure(error) => Failure(error)
    case Success((next, outcome)) =>
      var asked := UserRecorded(outcome.turnCount, Utf8Length(message));
      var answered := AssistantRecorded(outcome.backendId, outcome.stateVersion);
      Success(Draft(next, [NewEvent(askedId, TypeName(asked), asked, nowMs),
                           NewEvent(answeredId, TypeName(answered), answered, nowMs)], outcome))
  }

  function ResetDraft(previous: ConversationState, eventId: Uuid, nowMs: u64)
      : Result<Draft<(u64, u64)>, CoreError>
  {
    match ResetState(previous)
    case Failure(error) => Failure(error)
    case Success(next) =>
      var body := SessionReset(previous.version);
      Success(Draft(next, [NewEvent(eventId, TypeName(body), body, nowMs)], (next.turnCount, next.version)))
  }

  /** What a section leaves behind: both the state and the tables move, or neither does. */
  datatype Section<T> = Section(state: ConversationState, tables: Tables, answer: Result<T, AppError>)

  function Settle<T>(id: SessionId, previous: ConversationState, tables: Tables,
                     draft: Result<Draft<T>, CoreError>, nowMs: u64, fault: bool): Section<T>
  {
    match draft
    case Failure(error) => Section(previous, tables, Failure(Core(error)))
    case Success(d) =>
      if fault then Section(previous, tables, Failure(StorageUnavailable))
      else
        match Store.AppendEvents(tables, id, previous.version, d.events, d.next, nowMs)
        case Failure(error) => Section(previous, tables, Failure(FromStore(error)))
        case Success(appended) => Section(d.next, appended, Success(d.answer))
  }

  /** Whatever the draft and whatever the store does, a session whose row agrees with its state
      agrees again afterwards, and a section that fails has moved neither. */
  lemma {:induction false} SectionKeepsAgreement<T>(id: SessionId, previous: ConversationState, tables: Tables,
      draft: Result<Draft<T>, CoreError>, nowMs: u64, fault: bool)
    requires Valid(tables) && id in tables.sessions
    requires tables.sessions[id].snapshot == previous && tables.sessions[id].version == previous.version
    ensures var section := Settle(id, previous, tables, draft, nowMs, fault);
      && Valid(section.tables) && id in section.tables.sessions
      && section.tables.sessions[id].snapshot == section.state
      && section.tables.sessions[id].version == section.state.version
      && (section.answer.Failure? ==> section.state == previous && section.tables == tables)
  {
    hide Store.AppendEvents, Valid;
    if draft.Success? {
      AppendIsConcatenation(tables, id, previous.version, draft.value.events, draft.value.next, nowMs);
    }
  }

  lemma {:induction false} TypeNamesAreNotBlank(payload: Payload)
    ensures !AllSpace(IsWhiteSpace, TypeName(payload))
  {
    assert !IsWhiteSpace(TypeName(payload)[0]);
  }

  /** What chat and reset draft can always be tried. */
  lemma {:induction false} DraftsAreWellFormed(rules: Rules, previous: ConversationState, message: string,
      reply: Result<string, InferenceError>, predictionId: Uuid, askedId: Uuid, answeredId: Uuid, nowMs: u64)
    requires previous.version + 2 < U64_LIMIT
    ensures var chat := ChatDraft(rules, previous, message, reply, predictionId, askedId, answeredId, nowMs);
      chat.Success? ==> WellFormed(previous.sessionId, previous.version, chat.value.events, chat.value.next)
    ensures var reset := ResetDraft(previous, askedId, nowMs);
      reset.Success? && WellFormed(previous.sessionId, previous.version, reset.value.events, reset.value.next)
  {
    hide AllSpace, Admit, TypeName, Utf8Length, IsWhiteSpace;
    forall payload: Payload
      ensures !AllSpace(IsWhiteSpace, TypeName(payload))
    {
      TypeNamesAreNotBlank(payload);
    }
  }

  /** What a failed section answers: the error of the draft; a conflict exactly when the row has
      another version than the state, an unknown session exactly when there is no row, and
      otherwise that storage is unavailable. */
  lemma {:induction false} SectionErrors<T>(id: SessionId, previous: ConversationState, tables: Tables,
      draft: Result<Draft<T>, CoreError>, nowMs: u64, fault: bool)
    requires Valid(tables)
    requires draft.Success? ==> WellFormed(id, previous.version, draft.value.events, draft.value.next)
    ensures var answer := Settle(id, previous, tables, draft, nowMs, fault).answer;
      && (draft.Failure? ==> answer == Failure(Core(draft.error)))
      && (draft.Success? ==>
            && (answer == Failure(UnknownSession) <==> !fault && id !in tables.sessions)
            && (answer == Failure(StateConflict)
                <==> !fault && id in tables.sessions && tables.sessions[id].version != previous.version)
            && (answer.Failure? ==> answer.error in {UnknownSession, StateConflict, StorageUnavailable})
            && (fault ==> answer == Failure(StorageUnavailable)))
  {
    hide Store.AppendEvents, Valid, WellFormed;
    if draft.Success? && !fault {
      var events, next := draft.value.events, draft.value.next;
      AppendIsConcatenation(tables, id, previous.version, events, next, nowMs);
      var appended := Store.AppendEvents(tables, id, previous.version, events, next, nowMs);
      if appended.Failure? {
        AppendErrorsSpeakTruly(tables, id, previous.version, events, next, nowMs);
      }
    }
  }

  lemma {:induction false} AppendErrorsSpeakTruly(tables: Tables, id: SessionId, expected: u64,
      events: seq<NewEvent>, next: ConversationState, nowMs: u64)
    requires Valid(tables) && WellFormed(id, expected, events, next)
    ensures var appended := Store.AppendEvents(tables, id, expected, events, next, nowMs);
      && (appended.Failure? && appended.error.SessionNotFound? <==> id !in tables.sessions)
      && (appended.Failure? && appended.error.VersionConflict?
          <==> id in tables.sessions && tables.sessions[id].version != expected)
  {
    hide InsertBatch, AnyBlankType, LogSound, IsWhiteSpace, AllSpace;
    BlankTypes(events);
    if id in tables.sessions {
      StaleAppendsConflict(tables, id, expected, events, next, nowMs, tables.sessions[id].version);
      BatchFailures(tables, id, if LastSequence(EventsOf(tables, id)) < 0 then 0 else LastSequence(EventsOf(tables, id)), events);
    }
  }

  /** The store call of a section; `fault` when the database cannot be reached. */
  method Append(store: SqliteStore, id: SessionId, expected: u64, events: seq<NewEvent>,
                next: ConversationState, nowMs: u64, fault: bool) returns (error: Option<AppError>)
    modifies store
    ensures if fault then error == Some(StorageUnavailable) && store.tables == old(store.tables)
            else
              match Store.AppendEvents(old(store.tables), id, expected, events, next, nowMs)
              case Success(appended) => error == None && store.tables == appended
              case Failure(e) => error == Some(FromStore(e)) && store.tables == old(store.tables)
  {
    if fault {
      return Some(StorageUnavailable);
    }
    var result := store.AppendEvents(id, expected, events, next, nowMs);
    error := if result.Success? then None else Some(FromStore(result.error));
  }

  /** `chat`, under the lock of a session that is not deleted. */
  method Chat(guard: Conversation, store: SqliteStore, rules: Rules, id: SessionId, message: string,
              reply: Result<string, InferenceError>, predictionId: Uuid, askedId: Uuid, answeredId: Uuid,
              nowMs: u64, fault: bool) returns (answer: Result<ChatOutcome, AppError>)
    modifies guard, store
    ensures Section(guard.View(), store.tables, answer)
         == Settle(id, old(guard.View()), old(store.tables),
                   ChatDraft(rules, old(guard.View()), message, reply, predictionId, askedId, answeredId, nowMs),
                   nowMs, fault)
  {
    hide Store.AppendEvents, TurnResult;
    var previous := guard.View();
    var outcome := guard.ProcessTurn(rules, message, reply, predictionId);
    if outcome.Failure? {
      return Failure(Core(outcome.error));
    }
    var next := guard.View();
    var asked := UserRecorded(outcome.value.turnCount, Utf8Length(message));
    var answered := AssistantRecorded(outcome.value.backendId, outcome.value.stateVersion);
    var events := [NewEvent(askedId, TypeName(asked), asked, nowMs),
                   NewEvent(answeredId, TypeName(answered), answered, nowMs)];
    var error := Append(store, id, previous.version, events, next, nowMs, fault);
    if error.Some? {
      guard.Assign(previous);
      return Failure(error.value);
    }
    answer := Success(outcome.value);
  }

  /** `reset_session`, under the lock of a session that is not deleted. */
  method Reset(guard: Conversation, store: SqliteStore, id: SessionId, eventId: Uuid,
               nowMs: u64, fault: bool) returns (answer: Result<(u64, u64), AppError>)
    modifies guard, store
    ensures Section(guard.View(), store.tables, answer)
         == Settle(id, old(guard.View()), old(store.tables),
                   ResetDraft(old(guard.View()), eventId, nowMs), nowMs, fault)
  {
    hide Store.AppendEvents;
    var previous := guard.View();
    var refused := guard.Reset();
    if refused.Some? {
      return Failure(Core(refused.value));
    }
    var next := guard.View();
    var body := SessionReset(previous.version);
    var error := Append(store, id, previous.version, [NewEvent(eventId, TypeName(body), body, nowMs)], next,
                        nowMs, fault);
    if error.Some? {
      guard.Assign(previous);
      return Failure(error.value);
    }
    answer := Success((guard.turnCount, guard.version));
  }

  /** `delete_session` under the lock of a session that is not deleted: what becomes of map, tables
      and answer; `fault` when the database cannot be reached. */
  function Erased(m: Manager, tables: Tables, id: SessionId, fault: bool): (Manager, Tables, Option<AppError>) {
    if fault then (m, tables, Some(StorageUnavailable))
    else if id !in tables.sessions then (m, Store.DeleteSession(tables, id), Some(UnknownSession))
    else (Evict(m, id), Store.DeleteSession(tables, id), None)
  }

  lemma {:induction false} NothingToErase(tables: Tables, id: SessionId)
    requires Valid(tables)
    ensures id !in tables.sessions ==> Store.DeleteSession(tables, id) == tables
  {
    if id !in tables.sessions {
      assert tables.sessions - {id} == tables.sessions && tables.events - {id} == tables.events;
    }
  }

  /** A delete that succeeds leaves nothing to look up, to list or to restore, and an entry that
      tells those who wait for it; one that fails leaves everything. */
  lemma {:induction false} ErasedIsGone(m: Manager, tables: Tables, id: SessionId, fault: bool, ttlMs: u64, nowMs: u64)
    requires Own(m) && Valid(tables)
    ensures var (m', tables', error) := Erased(m, tables, id, fault);
      && (error.Some? ==> m' == m && tables' == tables)
      && (error.None? <==> !fault && id in tables.sessions)
      && (error.None? ==>
            && Valid(tables') && id !in tables'.sessions && EventsOf(tables', id) == []
            && Looked(ttlMs, m', id, nowMs).1.None?
            && (id in m.sessions ==> At(m', m.sessions[id]).deleted))
      && (forall other | other != id ::
            && (other in tables'.sessions <==> other in tables.sessions)
            && (other in tables.sessions ==> tables'.sessions[other] == tables.sessions[other])
            && EventsOf(tables', other) == EventsOf(tables, other)
            && (other in m'.sessions <==> other in m.sessions)
            && (other in m.sessions ==> At(m', m.sessions[other]) == At(m, m.sessions[other])))
  {
    hide Valid, Evict;
    NothingToErase(tables, id);
    EvictKeepsOthers(m, id);
    CreateAndDeleteKeepValid(tables, Fresh(id), 0, id);
    if Erased(m, tables, id, fault).2.None? {
      LookupFindsTheLiving(ttlMs, Erased(m, tables, id, fault).0, id, nowMs);
    }
  }

  lemma {:induction false} PurgedNone(t: Tables, ids: seq<SessionId>)
    ensures DeleteAll(t, ids[..0]) == t
  {
  }

  lemma {:induction false} PurgedOneMore(t: Tables, ids: seq<SessionId>, k: nat)
    requires k < |ids|
    ensures DeleteAll(t, ids[..k + 1]) == Store.DeleteSession(DeleteAll(t, ids[..k]), ids[k])
  {
    assert ids[..k + 1][..k] == ids[..k];
  }

  class AppState {
    const sessions: SessionManager
    const store: SqliteStore

    constructor (sessions: SessionManager, store: SqliteStore)
      ensures this.sessions == sessions && this.store == store
    {
      this.sessions, this.store := sessions, store;
    }

    method Delete(id: SessionId, fault: bool) returns (error: Option<AppError>)
      requires sessions.Valid()
      modifies sessions, sessions.heap, store
      ensures sessions.Valid() && sessions.heap == old(sessions.heap)
      ensures (sessions.View(), store.tables, error) == Erased(old(sessions.View()), old(store.tables), id, fault)
    {
      if fault {
        return Some(StorageUnavailable);
      }
      var deleted := store.DeleteSession(id);
      if !deleted {
        return Some(UnknownSession);
      }
      var removed := sessions.Remove(id);
      error := None;
    }

    /** `purge_expired`; the store fails after `working` calls. The drained ids are gone from the
        queue even when their rows could not all be deleted. */
    method PurgeExpired(working: nat) returns (purged: nat)
      requires sessions.Valid()
      modifies sessions, store
      ensures sessions.Valid() && sessions.View() == Drained(old(sessions.View()))
      ensures sessions.heap == old(sessions.heap)
      ensures purged == if working < |old(sessions.expired)| then working else |old(sessions.expired)|
      ensures store.tables == DeleteAll(old(store.tables), old(sessions.expired)[..purged])
    {
      hide DeleteAll, Drained;
      var ids := sessions.DrainExpired();
      purged := 0;
      PurgedNone(store.tables, ids);
      while purged < |ids|
        invariant 0 <= purged <= |ids| && purged <= working
        invariant sessions.Valid() && sessions.View() == Drained(old(sessions.View()))
        invariant sessions.heap == old(sessions.heap)
        invariant store.tables == DeleteAll(old(store.tables), ids[..purged])
        modifies store
      {
        if purged == working {
          return;
        }
        PurgedOneMore(old(store.tables), ids, purged);
        var deleted := store.DeleteSession(ids[purged]);
        purged := purged + 1;
      }
    }

    /** The restoring loop of `AppState::restore`: the manager is new, the clock reads `clock[i]`
        at the i-th session listed. */
    method RestoreSessions(rows: seq<StoredSession>, clock: seq<u64>)
      requires sessions.Valid() && sessions.View() == EMPTY
      requires |clock| == |rows|
      requires forall i | 0 <= i < |rows| :: rows[i].snapshot.sessionId == rows[i].sessionId
      modifies sessions
      ensures sessions.Valid() && sessions.View() == RestoreAll(sessions.ttlMs, rows, clock)
    {
      for i := 0 to |rows|
        invariant sessions.Valid()
        invariant sessions.View() == RestoreAll(sessions.ttlMs, rows[..i], clock[..i])
      {
        assert rows[..i + 1][..i] == rows[..i] && clock[..i + 1][..i] == clock[..i];
        var mapped := sessions.Restore(rows[i], clock[i]);
      }
      assert rows[..|rows|] == rows && clock[..|clock|] == clock;
    }
  }

  /** Every row of the session table reads back. */
  ghost predicate Readable(tables: Tables) {
    forall id | id in tables.sessions :: ReadSession(id, tables.sessions[id]).Success?
  }

  /** `AppState::restore`: the store is checked, the sessions are listed and restored, and the expired ones deleted; the
      start comes up when the list can be read and the store deletes them all. */
  method Restore(store: SqliteStore, ttlMs: u64, clock: nat -> u64, checked: bool, working: nat)
      returns (app: AppState, up: bool, ghost rows: seq<StoredSession>, ghost readings: seq<u64>, ghost purged: nat)
    modifies store
    ensures fresh(app) && fresh(app.sessions) && app.store == store && app.sessions.Valid()
    ensures !(checked && Readable(old(store.tables))) ==> !up && store.tables == old(store.tables)
    ensures checked && Readable(old(store.tables))
            ==> && Listing(old(store.tables), rows) && |readings| == |rows|
                && (forall i | 0 <= i < |rows| :: readings[i] == clock(i))
                && var m := RestoreAll(ttlMs, rows, readings);
                   && purged <= |m.expired| && (up <==> purged == |m.expired|)
                   && app.sessions.View() == Drained(m)
                   && store.tables == DeleteAll(old(store.tables), m.expired[..purged])
  {
    hide RestoreAll, DeleteAll;
    var manager := new SessionManager(ttlMs);
    app := new AppState(manager, store);
    rows, readings, purged := [], [], 0;
    if !checked {
      return app, false, rows, readings, purged;
    }
    var listed := store.ListSessions();
    if listed.Failure? {
      return app, false, rows, readings, purged;
    }
    rows := listed.value;
    readings := seq(|rows|, i requires 0 <= i < |rows| => clock(i));
    app.RestoreSessions(listed.value, seq(|listed.value|, i requires 0 <= i < |listed.value| => clock(i)));
    var due := |manager.expired|;
    var count := app.PurgeExpired(working);
    purged := count;
    up := count == due;
  }
}
