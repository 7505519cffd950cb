/** The times the server writes down: a row is dated by its creation and by its last event, and its
    entry in memory is as old as the row. */
module Times {
  import opened Text
  import opened Conversation
  import opened History
  import opened Store
  import opened Sessions
  import opened Server
  import opened Invariant
  import opened Preservation
  import opened Steps
  import opened Commit
  import opened Restart

  /** A row was updated when its last event occurred, or when it was created. */
  predicate RowDated(row: SessionRow, log: seq<EventRow>) {
    row.updatedAtMs == if log == [] then row.createdAtMs else log[|log| - 1].occurredAtMs
  }

  ghost predicate RowsDated(t: Tables) {
    forall id | id in t.sessions :: RowDated(t.sessions[id], EventsOf(t, id))
  }

  /** The entries of a session were created at `now`. */
  predicate EntriesFrom(m: Manager, id: SessionId, now: int) {
    forall r | 0 <= r < |m.heap| && m.heap[r].id == id :: m.heap[r].createdAtMs == now
  }

  predicate HasEntry(m: Manager, id: SessionId) {
    exists r :: 0 <= r < |m.heap| && m.heap[r].id == id
  }

  ghost predicate EntriesDated(m: Manager, t: Tables) {
    forall id | id in t.sessions :: EntriesFrom(m, id, t.sessions[id].createdAtMs)
  }

  /** A row to be inserted is dated as its entry, and a batch to be appended by its clock reading. */
  ghost predicate ThreadDated(m: Manager, thread: Thread) {
    && (thread.pc.InsertRow? ==>
          HasEntry(m, thread.id) && EntriesFrom(m, thread.id, thread.pc.createdAtMs))
    && (thread.pc.Append? ==>
          && thread.pc.events != []
          && forall i | 0 <= i < |thread.pc.events| :: thread.pc.events[i].occurredAtMs == thread.pc.now)
  }

  ghost predicate Dated(s: State) {
    && RowsDated(s.tables) && EntriesDated(s.m, s.tables)
    && forall t | t in s.threads :: ThreadDated(s.m, s.threads[t])
  }

  // ----- what a step does about it -------------------------------------------------------------

  predicate SameEntries(m: Manager, m': Manager) {
    && |m'.heap| == |m.heap|
    && forall r | 0 <= r < |m.heap| ::
         m'.heap[r].id == m.heap[r].id && m'.heap[r].createdAtMs == m.heap[r].createdAtMs
  }

  ghost predicate RowsStay(t: Tables, t': Tables) {
    forall id | id in t'.sessions ::
      id in t.sessions && t'.sessions[id] == t.sessions[id] && EventsOf(t', id) == EventsOf(t, id)
  }

  /** A step that inserts no row and appends nothing. */
  ghost predicate KeepsDates(s: State, s': State, t: Tid) {
    && SameEntries(s.m, s'.m) && RowsStay(s.tables, s'.tables)
    && (t in s'.threads ==> ThreadDated(s'.m, s'.threads[t]))
  }

  lemma {:induction false} AccessesKeepEntries(m: Manager)
    ensures forall id :: SameEntries(m, Evict(m, id)) && SameEntries(m, Unmap(m, id))
    ensures forall r :: SameEntries(m, MarkDeleted(m, r))
    ensures forall r, now :: SameEntries(m, Touch(m, r, now))
    ensures forall r, state :: SameEntries(m, SetState(m, r, state))
    ensures forall ids :: SameEntries(m, Enqueue(m, ids))
  {
  }

  lemma {:induction false} GetKeepsDates(cfg: Config, s: State, t: Tid, c: Choice, s': State)
    requires t in s.threads && StepGet(cfg, s, t, c) == Some(s')
    ensures KeepsDates(s, s', t)
  {
    hide Evict, Touch, Enqueue, SameEntries, IsExpired;
    AccessesKeepEntries(s.m);
    NoEntryChanged(s.m);
  }

  lemma {:induction false} NoEntryChanged(m: Manager)
    ensures SameEntries(m, m) && SameEntries(m, Drained(m))
  {
  }

  lemma {:induction false} PurgeKeepsDates(s: State, t: Tid, c: Choice, s': State)
    requires t in s.threads && StepPurge(s, t, c) == Some(s')
    ensures KeepsDates(s, s', t)
  {
    hide SameEntries;
    NoEntryChanged(s.m);
  }

  lemma {:induction false} SweepKeepsDates(cfg: Config, s: State, t: Tid, c: Choice, s': State)
    requires t in s.threads && StepSweep(cfg, s, t, c) == Some(s')
    ensures KeepsDates(s, s', t)
  {
    hide Evict, Sweeps, Enumerates, Enqueue, SameEntries;
    AccessesKeepEntries(s.m);
    NoEntryChanged(s.m);
  }

  lemma {:induction false} DescribeKeepsDates(s: State, t: Tid, s': State)
    requires t in s.threads && StepDescribe(s, t) == Some(s')
    ensures KeepsDates(s, s', t)
  {
    hide SameEntries;
    NoEntryChanged(s.m);
  }

  lemma {:induction false} DeleteKeepsDates(s: State, t: Tid, c: Choice, s': State)
    requires t in s.threads && StepDelete(s, t, c) == Some(s')
    ensures KeepsDates(s, s', t)
  {
    hide Unmap, MarkDeleted, SameEntries;
    AccessesKeepEntries(s.m);
    NoEntryChanged(s.m);
  }

  /** The entries of a session are one entry. */
  lemma {:induction false} OneEntry(cfg: Config, s: State, t: Tid)
    requires Inv(cfg, s) && t in s.threads && s.threads[t].pc.LockMeasure?
    ensures HasEntry(s.m, s.threads[t].id)
    ensures EntriesFrom(s.m, s.threads[t].id, At(s.m, s.threads[t].pc.r).createdAtMs)
  {
    hide Inv;
    MapOf(cfg, s);
    HolderIsLocked(cfg, s, t);
    assert s.threads[t].pc.r in Pointers(s.threads[t].pc);
  }

  lemma {:induction false} CreateKeepsDates(cfg: Config, s: State, t: Tid, c: Choice, s': State)
    requires Inv(cfg, s) && t in s.threads && StepCreate(s, t, c) == Some(s')
    requires s.threads[t].pc.InsertRow? ==> t in s'.threads
    ensures KeepsDates(s, s', t)
  {
    hide Inv, Unmap, MarkDeleted, SameEntries, HasEntry, EntriesFrom, Store.CreateSession;
    AccessesKeepEntries(s.m);
    NoEntryChanged(s.m);
    if s.threads[t].pc.LockMeasure? {
      OneEntry(cfg, s, t);
    }
  }

  lemma {:induction false} BeginKeepsDates(cfg: Config, s: State, t: Tid, c: Choice, s': State)
    requires t in s.threads && s.threads[t].pc.Begin? && StepBegin(cfg, s, t, c) == Some(s')
    ensures KeepsDates(s, s', t)
  {
    hide TurnResult, ResetState, SetState, TypeName, Utf8Length, SameEntries;
    AccessesKeepEntries(s.m);
    NoEntryChanged(s.m);
  }

  lemma {:induction false} CommitKeepsDates(cfg: Config, s: State, t: Tid, c: Choice, s': State)
    requires t in s.threads && StepCommit(cfg, s, t, c) == Some(s')
    requires s.threads[t].pc.Append? ==> s'.tables == s.tables && t in s'.threads && !s'.threads[t].pc.Append?
    ensures KeepsDates(s, s', t)
  {
    hide StepBegin, Store.AppendEvents, SetState, SameEntries;
    AccessesKeepEntries(s.m);
    NoEntryChanged(s.m);
    if s.threads[t].pc.Begin? {
      BeginKeepsDates(cfg, s, t, c, s');
    }
  }

  // ----- every step ----------------------------------------------------------------------------

  /** Threads that stay where they are keep what they know. */
  lemma {:induction false} OthersKeepDates(s: State, s': State, t: Tid)
    requires Dated(s) && SameEntries(s.m, s'.m) && OnlyMoves(s, s', t)
    requires t in s'.threads ==> ThreadDated(s'.m, s'.threads[t])
    ensures forall u | u in s'.threads :: ThreadDated(s'.m, s'.threads[u])
  {
    forall id | HasEntry(s.m, id)
      ensures HasEntry(s'.m, id)
    {
      var r :| 0 <= r < |s.m.heap| && s.m.heap[r].id == id;
      assert s'.m.heap[r].id == id;
    }
  }

  lemma {:induction false} KeptDates(s: State, s': State, t: Tid)
    requires Dated(s) && KeepsDates(s, s', t) && OnlyMoves(s, s', t)
    ensures Dated(s')
  {
    OthersKeepDates(s, s', t);
  }

  /** The one row that a create inserts. */
  lemma {:induction false} InsertedRowIsDated(t: Tables, snapshot: ConversationState, createdAtMs: u64)
    requires Valid(t) && RowsDated(t) && Store.CreateSession(t, snapshot, createdAtMs).Success?
    ensures var t' := Store.CreateSession(t, snapshot, createdAtMs).value;
      && RowsDated(t') && t'.sessions.Keys == t.sessions.Keys + {snapshot.sessionId}
      && t'.sessions[snapshot.sessionId].createdAtMs == createdAtMs
      && forall id | id in t.sessions :: t'.sessions[id] == t.sessions[id]
  {
    hide LogSound;
    assert EventsOf(t, snapshot.sessionId) == [];
  }

  lemma {:induction false} BirthIsDated(cfg: Config, s: State, t: Tid, c: Choice, s': State)
    requires Inv(cfg, s) && Dated(s) && t in s.threads && s.threads[t].pc.InsertRow?
    requires StepCreate(s, t, c) == Some(s') && t !in s'.threads
    ensures Dated(s')
  {
    hide Inv, EntriesFrom, RowsDated, Store.CreateSession, Valid;
    SharedOf(cfg, s);
    HolderIsLocked(cfg, s, t);
    var thread := s.threads[t];
    InsertedRowIsDated(s.tables, thread.pc.snapshot, thread.pc.createdAtMs);
    assert ThreadDated(s.m, thread) && thread.pc.snapshot.sessionId == thread.id;
  }

  /** What an append does to the row of its session, and to no other. */
  lemma {:induction false} AppendedRowIsDated(t: Tables, id: SessionId, expected: u64, events: seq<NewEvent>,
                                              snapshot: ConversationState, now: u64)
    requires Valid(t) && Store.AppendEvents(t, id, expected, events, snapshot, now).Success?
    requires events != [] && events[|events| - 1].occurredAtMs == now
    ensures var t' := Store.AppendEvents(t, id, expected, events, snapshot, now).value;
      && id in t.sessions && t'.sessions.Keys == t.sessions.Keys
      && RowDated(t'.sessions[id], EventsOf(t', id))
      && t'.sessions[id].createdAtMs == t.sessions[id].createdAtMs
      && forall other | other in t'.sessions && other != id ::
           t'.sessions[other] == t.sessions[other] && EventsOf(t', other) == EventsOf(t, other)
  {
    hide Store.AppendEvents, Numbered, FreshIds, LogSound;
    AppendIsConcatenation(t, id, expected, events, snapshot, now);
    NumberedAt(LastSequence(EventsOf(t, id)), events, |events| - 1);
  }

  lemma {:induction false} AppendDates(cfg: Config, s: State, t: Tid, t': Tables)
    requires Inv(cfg, s) && t in s.threads && s.threads[t].pc.Append? && ThreadDated(s.m, s.threads[t])
    requires var thread := s.threads[t];
      Store.AppendEvents(s.tables, thread.id, thread.pc.previous.version, thread.pc.events,
                         At(s.m, thread.pc.r).state, thread.pc.now) == Success(t')
    ensures var id := s.threads[t].id;
      && id in s.tables.sessions && t'.sessions.Keys == s.tables.sessions.Keys
      && RowDated(t'.sessions[id], EventsOf(t', id))
      && t'.sessions[id].createdAtMs == s.tables.sessions[id].createdAtMs
      && forall other | other in t'.sessions && other != id ::
           t'.sessions[other] == s.tables.sessions[other] && EventsOf(t', other) == EventsOf(s.tables, other)
  {
    hide Inv, Store.AppendEvents, Valid;
    var id, pc := s.threads[t].id, s.threads[t].pc;
    SharedOf(cfg, s);
    AppendedRowIsDated(s.tables, id, pc.previous.version, pc.events, At(s.m, pc.r).state, pc.now);
  }

  lemma {:induction false} CommitIsDated(cfg: Config, s: State, t: Tid, c: Choice, s': State)
    requires Inv(cfg, s) && Dated(s) && t in s.threads && s.threads[t].pc.Append?
    requires StepCommit(cfg, s, t, c) == Some(s')
    requires OnlyMoves(s, s', t)
    ensures Dated(s')
  {
    hide Inv, Store.AppendEvents, EntriesFrom, RowDated, StepBegin;
    var thread := s.threads[t];
    var appended := Store.AppendEvents(s.tables, thread.id, thread.pc.previous.version, thread.pc.events,
                                       At(s.m, thread.pc.r).state, thread.pc.now);
    if !c.fault && appended.Success? {
      AppendDates(cfg, s, t, appended.value);
    }
  }

  lemma {:induction false} StepKeepsDated(cfg: Config, s: State, t: Tid, c: Choice, s': State)
    requires Inv(cfg, s) && Dated(s) && t in s.threads && Step(cfg, s, t, c) == Some(s') && OnlyMoves(s, s', t)
    ensures Dated(s')
  {
    hide Inv, Dated, KeepsDates, OnlyMoves, StepGet, StepPurge, StepCreate, StepDelete, StepSweep, StepDescribe,
         StepCommit;
    var pc := s.threads[t].pc;
    if pc.Append? {
      CommitIsDated(cfg, s, t, c, s');
    } else if pc.InsertRow? && t !in s'.threads {
      BirthIsDated(cfg, s, t, c, s');
    } else {
      PlainStepKeepsDates(cfg, s, t, c, s');
      KeptDates(s, s', t);
    }
  }

  lemma {:induction false} PlainStepKeepsDates(cfg: Config, s: State, t: Tid, c: Choice, s': State)
    requires Inv(cfg, s) && t in s.threads && Step(cfg, s, t, c) == Some(s')
    requires !s.threads[t].pc.Append? && (s.threads[t].pc.InsertRow? ==> t in s'.threads)
    ensures KeepsDates(s, s', t)
  {
    hide Inv, KeepsDates, StepGet, StepPurge, StepCreate, StepDelete, StepSweep, StepDescribe, StepCommit;
    if StepGet(cfg, s, t, c) == Some(s') {
      GetKeepsDates(cfg, s, t, c, s');
    } else if StepPurge(s, t, c) == Some(s') {
      PurgeKeepsDates(s, t, c, s');
    } else if StepCreate(s, t, c) == Some(s') {
      CreateKeepsDates(cfg, s, t, c, s');
    } else if StepDelete(s, t, c) == Some(s') {
      DeleteKeepsDates(s, t, c, s');
    } else if StepSweep(cfg, s, t, c) == Some(s') {
      SweepKeepsDates(cfg, s, t, c, s');
    } else if StepCommit(cfg, s, t, c) == Some(s') {
      CommitKeepsDates(cfg, s, t, c, s');
    } else {
      DescribeKeepsDates(s, t, s');
    }
  }

  // ----- arrivals and restarts -----------------------------------------------------------------

  lemma {:induction false} UnusedHasNoRow(cfg: Config, s: State, id: SessionId)
    requires Inv(cfg, s) && id !in s.h.used
    ensures id !in s.tables.sessions
  {
    hide Inv;
    SharedOf(cfg, s);
    forall other | other in s.tables.sessions
      ensures other in s.h.used
    {
      assert RowExplained(cfg.rules, s.tables, s.h, other);
    }
  }

  lemma {:induction false} EntryInserted(m: Manager, e: Entry)
    ensures forall id | id != e.id && HasEntry(m, id) :: HasEntry(Insert(m, e), id)
    ensures forall id, now | id != e.id && EntriesFrom(m, id, now) :: EntriesFrom(Insert(m, e), id, now)
  {
    forall id | id != e.id && HasEntry(m, id)
      ensures HasEntry(Insert(m, e), id)
    {
      var r :| 0 <= r < |m.heap| && m.heap[r].id == id;
      assert Insert(m, e).heap[r].id == id;
    }
  }

  /** The id of a new session has no entry, no row, and no other create working on it. */
  lemma {:induction false} ArrivalIsDated(cfg: Config, s: State, s': State, t: Tid, id: SessionId, now: u64)
    requires Inv(cfg, s) && Dated(s) && CreateArrives(s, s', t, id, now)
    ensures Dated(s')
  {
    hide Inv, RowDated, HasEntry, EntriesFrom, Insert;
    UnusedHasNoRow(cfg, s, id);
    EntryInserted(s.m, NewEntry(Fresh(id), now, now));
    forall u | u in s'.threads
      ensures ThreadDated(s'.m, s'.threads[u])
    {
      if u != t {
        HolderIsLocked(cfg, s, u);
        assert ThreadDated(s.m, s.threads[u]);
      }
    }
  }

  lemma {:induction false} RestartIsDated(cfg: Config, s: State, s': State, rows: seq<StoredSession>,
                                          clock: seq<u64>, purged: nat)
    requires Inv(cfg, s) && Dated(s) && Restarts(cfg, s, s', rows, clock, purged)
    ensures Dated(s')
  {
    hide Inv, TablesSound, Replay, RestoreAll, Listing, RowDated, Mirrored;
    SharedOf(cfg, s);
    RestartFacts(cfg, s, s', rows, clock, purged);
    DeletingAll(cfg.rules, s.tables, s.h, RestoreAll(cfg.ttlMs, rows, clock).expired[..purged]);
    forall id | id in s'.tables.sessions
      ensures EntriesFrom(s'.m, id, s'.tables.sessions[id].createdAtMs)
    {
      forall r | 0 <= r < |s'.m.heap| && s'.m.heap[r].id == id
        ensures s'.m.heap[r].createdAtMs == s'.tables.sessions[id].createdAtMs
      {
        var i :| 0 <= i < |rows| && Carries(s'.m.heap[r], rows[i]);
        ListedDate(s.tables, rows, i);
      }
    }
  }

  lemma {:induction false} ListedDate(t: Tables, rows: seq<StoredSession>, i: nat)
    requires Listing(t, rows) && i < |rows|
    ensures rows[i].sessionId in t.sessions && rows[i].createdAtMs == t.sessions[rows[i].sessionId].createdAtMs
  {
    assert ReadSession(rows[i].sessionId, t.sessions[rows[i].sessionId]) == Success(rows[i]);
  }

  lemma {:induction false} NextKeepsDated(cfg: Config, s: State, s': State)
    requires Inv(cfg, s) && Dated(s) && Next(cfg, s, s')
    ensures Dated(s')
  {
    hide Inv, Step, CreateArrives, Restarts, StepSound;
    if t :| StepOf(cfg, s, s', t) {
      var c :| Step(cfg, s, t, c) == Some(s');
      StepKeepsInvariant(cfg, s, t, c, s');
      StepMovesOne(cfg, s, s', t);
      StepKeepsDated(cfg, s, t, c, s');
    } else if t, id, now :| CreateArrives(s, s', t, id, now) {
      ArrivalIsDated(cfg, s, s', t, id, now);
    } else if rows, clock, purged :| Restarts(cfg, s, s', rows, clock, purged) {
      RestartIsDated(cfg, s, s', rows, clock, purged);
    }
  }

  lemma {:induction false} StepMovesOne(cfg: Config, s: State, s': State, t: Tid)
    requires StepSound(cfg, s, s', t)
    ensures OnlyMoves(s, s', t)
  {
  }

  lemma {:induction false} RunIsDated(cfg: Config, states: seq<State>, n: nat)
    requires Run(cfg, states) && n < |states|
    ensures Dated(states[n])
  {
    hide Inv, Next, Dated;
    if n == 0 {
      EmptyIsDated(cfg, states[0]);
    } else {
      RunIsDated(cfg, states, n - 1);
      RunKeepsInvariant(cfg, states, n - 1);
      NextKeepsDated(cfg, states[n - 1], states[n]);
    }
  }

  lemma {:induction false} EmptyIsDated(cfg: Config, s: State)
    requires Init(cfg, s)
    ensures Dated(s)
  {
  }

  /** Over every run, restarts included: a row says it was updated when the last of its events
      occurred, or, without events, when it was created; and a mapped entry is as old as its row. */
  lemma {:induction false} TimesAgree(cfg: Config, states: seq<State>, n: nat, id: SessionId)
    requires Run(cfg, states) && n < |states| && id in states[n].tables.sessions
    ensures var s := states[n];
      var row, log := s.tables.sessions[id], EventsOf(s.tables, id);
      && row.updatedAtMs == (if log == [] then row.createdAtMs else log[|log| - 1].occurredAtMs)
      && (id in s.m.sessions ==> At(s.m, s.m.sessions[id]).createdAtMs == row.createdAtMs)
  {
    hide Next, Inv;
    var s := states[n];
    RunIsDated(cfg, states, n);
    RunKeepsInvariant(cfg, states, n);
    MapOf(cfg, s);
    assert RowDated(s.tables.sessions[id], EventsOf(s.tables, id));
    assert EntriesFrom(s.m, id, s.tables.sessions[id].createdAtMs);
  }

  // ----- the time of creation ------------------------------------------------------------------

  /** A session was created at `now`, as far as anything still tells. */
  ghost predicate CreatedAt(s: State, id: SessionId, now: int) {
    && id in s.h.used && EntriesFrom(s.m, id, now)
    && (id in s.tables.sessions ==> s.tables.sessions[id].createdAtMs == now)
  }

  /** Rows of other sessions may come and go; the row of this one may go, or come from its entry. */
  ghost predicate CreationStays(s: State, s': State, id: SessionId, now: int) {
    && SameEntries(s.m, s'.m) && s.h.used <= s'.h.used
    && (id in s'.tables.sessions ==>
          || (id in s.tables.sessions && s'.tables.sessions[id].createdAtMs == s.tables.sessions[id].createdAtMs)
          || (HasEntry(s.m, id) && EntriesFrom(s.m, id, s'.tables.sessions[id].createdAtMs)))
  }

  lemma {:induction false} CreationStaysKnown(s: State, s': State, id: SessionId, now: int)
    requires CreatedAt(s, id, now) && CreationStays(s, s', id, now)
    ensures CreatedAt(s', id, now)
  {
  }

  lemma {:induction false} StepKeepsCreation(cfg: Config, s: State, t: Tid, c: Choice, s': State, id: SessionId, now: int)
    requires Inv(cfg, s) && Dated(s) && t in s.threads && Step(cfg, s, t, c) == Some(s') && StepSound(cfg, s, s', t)
    requires CreatedAt(s, id, now)
    ensures CreatedAt(s', id, now)
  {
    hide Inv, SharedSound, MoverSound, Disciplined, HasEntry, EntriesFrom, SameEntries, Step, StepCreate, StepCommit, Store.AppendEvents;
    var pc := s.threads[t].pc;
    if pc.Append? {
      StepIsCommit(cfg, s, t, c, s');
      AppendKeepsCreation(cfg, s, t, c, s', id);
    } else if pc.InsertRow? && t !in s'.threads {
      StepIsCreate(cfg, s, t, c, s');
      BirthKeepsCreation(cfg, s, t, c, s', id);
    } else {
      PlainStepKeepsDates(cfg, s, t, c, s');
    }
    CreationStaysKnown(s, s', id, now);
  }

  lemma {:induction false} StepIsCommit(cfg: Config, s: State, t: Tid, c: Choice, s': State)
    requires t in s.threads && s.threads[t].pc.Append? && Step(cfg, s, t, c) == Some(s')
    ensures StepCommit(cfg, s, t, c) == Some(s')
  {
    hide StepCommit;
  }

  lemma {:induction false} StepIsCreate(cfg: Config, s: State, t: Tid, c: Choice, s': State)
    requires t in s.threads && s.threads[t].pc.InsertRow? && Step(cfg, s, t, c) == Some(s')
    ensures StepCreate(s, t, c) == Some(s')
  {
    hide StepCreate;
  }

  lemma {:induction false} AppendKeepsCreation(cfg: Config, s: State, t: Tid, c: Choice, s': State, id: SessionId)
    requires Inv(cfg, s) && Dated(s) && t in s.threads && s.threads[t].pc.Append?
    requires StepCommit(cfg, s, t, c) == Some(s')
    ensures SameEntries(s.m, s'.m) && s'.h.used == s.h.used
    ensures id in s'.tables.sessions ==>
              id in s.tables.sessions && s'.tables.sessions[id].createdAtMs == s.tables.sessions[id].createdAtMs
  {
    hide Inv, Store.AppendEvents, StepBegin, EntriesFrom, RowDated;
    var thread := s.threads[t];
    var appended := Store.AppendEvents(s.tables, thread.id, thread.pc.previous.version, thread.pc.events,
                                       At(s.m, thread.pc.r).state, thread.pc.now);
    if !c.fault && appended.Success? {
      AppendDates(cfg, s, t, appended.value);
    }
  }

  lemma {:induction false} BirthKeepsCreation(cfg: Config, s: State, t: Tid, c: Choice, s': State, id: SessionId)
    requires Inv(cfg, s) && Dated(s) && t in s.threads && s.threads[t].pc.InsertRow?
    requires StepCreate(s, t, c) == Some(s') && t !in s'.threads
    ensures SameEntries(s.m, s'.m) && s.h.used <= s'.h.used
    ensures id in s'.tables.sessions ==>
              || (id in s.tables.sessions && s'.tables.sessions[id].createdAtMs == s.tables.sessions[id].createdAtMs)
              || (HasEntry(s.m, id) && EntriesFrom(s.m, id, s'.tables.sessions[id].createdAtMs))
  {
    hide Inv, EntriesFrom, HasEntry, RowsDated, Store.CreateSession, Valid;
    SharedOf(cfg, s);
    HolderIsLocked(cfg, s, t);
    var thread := s.threads[t];
    InsertedRowIsDated(s.tables, thread.pc.snapshot, thread.pc.createdAtMs);
    assert ThreadDated(s.m, thread) && thread.pc.snapshot.sessionId == thread.id;
  }

  lemma {:induction false} RestartKeepsCreation(cfg: Config, s: State, s': State, rows: seq<StoredSession>,
      clock: seq<u64>, purged: nat, id: SessionId, now: int)
    requires Inv(cfg, s) && Restarts(cfg, s, s', rows, clock, purged) && CreatedAt(s, id, now)
    ensures CreatedAt(s', id, now)
  {
    hide Inv, TablesSound, Replay, RestoreAll, Listing, Mirrored;
    RestartFacts(cfg, s, s', rows, clock, purged);
    forall r | 0 <= r < |s'.m.heap| && s'.m.heap[r].id == id
      ensures s'.m.heap[r].createdAtMs == now
    {
      var i :| 0 <= i < |rows| && Carries(s'.m.heap[r], rows[i]);
      ListedDate(s.tables, rows, i);
    }
  }

  lemma {:induction false} NextKeepsCreation(cfg: Config, s: State, s': State, id: SessionId, now: int)
    requires Inv(cfg, s) && Dated(s) && Next(cfg, s, s') && CreatedAt(s, id, now)
    ensures CreatedAt(s', id, now)
  {
    hide Inv, Step, Restarts, StepSound, Dated;
    if t :| StepOf(cfg, s, s', t) {
      var c :| Step(cfg, s, t, c) == Some(s');
      StepKeepsInvariant(cfg, s, t, c, s');
      StepKeepsCreation(cfg, s, t, c, s', id, now);
    } else if rows, clock, purged :| Restarts(cfg, s, s', rows, clock, purged) {
      RestartKeepsCreation(cfg, s, s', rows, clock, purged, id, now);
    }
  }

  lemma {:induction false} JustCreated(cfg: Config, s: State, s': State, t: Tid, id: SessionId, now: u64)
    requires Inv(cfg, s) && CreateArrives(s, s', t, id, now)
    ensures CreatedAt(s', id, now)
  {
    hide Inv;
    SharedOf(cfg, s);
    UnusedHasNoRow(cfg, s, id);
  }

  /** A session's row and entry bear the clock reading with which its create arrived, for the rest
      of the run. */
  lemma {:induction false} CreationTimeStays(cfg: Config, states: seq<State>, i: nat, j: nat, t: Tid,
                                             id: SessionId, now: u64)
    requires Run(cfg, states) && i < j < |states| && CreateArrives(states[i], states[i + 1], t, id, now)
    ensures id in states[j].tables.sessions ==> states[j].tables.sessions[id].createdAtMs == now
    ensures id in states[j].m.sessions ==> At(states[j].m, states[j].m.sessions[id]).createdAtMs == now
  {
    hide Next, Inv;
    RunKeepsInvariant(cfg, states, j);
    MapOf(cfg, states[j]);
    CreationIsKept(cfg, states, i, j, t, id, now);
  }

  lemma {:induction false} CreationIsKept(cfg: Config, states: seq<State>, i: nat, j: nat, t: Tid,
                                          id: SessionId, now: u64)
    requires Run(cfg, states) && i < j < |states| && CreateArrives(states[i], states[i + 1], t, id, now)
    ensures CreatedAt(states[j], id, now)
    decreases j - i
  {
    hide Next, Inv, CreateArrives, CreatedAt, Dated;
    RunKeepsInvariant(cfg, states, j - 1);
    RunIsDated(cfg, states, j - 1);
    if j == i + 1 {
      JustCreated(cfg, states[i], states[j], t, id, now);
    } else {
      CreationIsKept(cfg, states, i, j - 1, t, id, now);
      NextKeepsCreation(cfg, states[j - 1], states[j], id, now);
    }
  }
}
