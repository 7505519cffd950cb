/** What holds of every run of the server, whatever the interleaving, the store failures and
    the restarts. */
module Runs {
  import opened Text
  import opened Conversation
  import opened History
  import opened Store
  import opened Sessions
  import opened Server
  import opened Invariant
  import opened Preservation
  import opened Steps
  import opened Commit
  import opened Restart
  import opened Accounting

  // ----- the cache agrees with the store -------------------------------------------------------

  /** A mapped session whose creation has finished and whose lock is free has a row with exactly
      its snapshot and version. */
  lemma {:induction false} CacheAgreesWithStore(cfg: Config, states: seq<State>, n: nat,
                                                id: SessionId)
    requires Run(cfg, states) && n < |states|
    requires var s := states[n];
      id in s.m.sessions && id in s.h.born && s.m.sessions[id] !in s.locks
    ensures var s := states[n];
      var e := At(s.m, s.m.sessions[id]);
      && e.id == id && id in s.tables.sessions
      && s.tables.sessions[id].snapshot == e.state
      && s.tables.sessions[id].version == e.state.version
  {
    var s := states[n];
    RunKeepsInvariant(cfg, states, n);
    CacheAgrees(cfg, s, id);
  }

  lemma {:induction false} CacheAgrees(cfg: Config, s: State, id: SessionId)
    requires Inv(cfg, s) && id in s.m.sessions && id in s.h.born
    requires s.m.sessions[id] !in s.locks
    ensures s.m.sessions[id] < |s.m.heap| && s.m.heap[s.m.sessions[id]].id == id
    ensures id in s.tables.sessions
    ensures s.tables.sessions[id].snapshot == s.m.heap[s.m.sessions[id]].state
    ensures s.tables.sessions[id].version == s.m.heap[s.m.sessions[id]].state.version
  {
    MappedIsSound(cfg, s, id);
    FreeMeansCommitted(cfg, s, s.m.sessions[id]);
    assert RowPresent(s, id);
    assert RowExplained(cfg.rules, s.tables, s.h, id);
  }

  /** The counters of a committed state, and the bound the store's i64 columns put on them. */
  lemma {:induction false} CommittedCounters(cfg: Config, s: State, id: SessionId)
    requires Inv(cfg, s)
    ensures var state := Replay(cfg.rules, id, OpsOf(s.h, id));
      && state.version == TotalCost(OpsOf(s.h, id)) <= I64_MAX
      && state.turnCount <= state.version && state.sessionId == id
    ensures Sound(OpsOf(s.h, id))
  {
    VersionCountsEvents(cfg.rules, id, OpsOf(s.h, id));
  }

  /** A drafted append passes every check made before the transaction. */
  lemma {:induction false} DraftIsWellFormed(cfg: Config, s: State, t: Tid)
    requires Inv(cfg, s) && t in s.threads && s.threads[t].pc.Append?
    ensures var pc := s.threads[t].pc;
      && RefuseAppend(s.threads[t].id, pc.previous.version, pc.events, At(s.m, pc.r).state).None?
      && pc.previous == Replay(cfg.rules, s.threads[t].id, OpsOf(s.h, s.threads[t].id))
  {
    hide Inv, Replay, Advance;
    var id, pc := s.threads[t].id, s.threads[t].pc;
    HolderIsLocked(cfg, s, t);
    CommittedCounters(cfg, s, id);
    CountersAdvance(cfg.rules, pc.previous, pc.op);
    forall i | 0 <= i < |pc.events|
      ensures Trim(IsWhiteSpace, pc.events[i].eventType) != ""
    {
      var bodies := BodiesOf(cfg.rules, pc.previous, pc.op, At(s.m, pc.r).state);
      TypeNamesAreTrimmed(bodies[i]);
    }
  }

  lemma {:induction false} RowVersion(cfg: Config, s: State, id: SessionId)
    requires Inv(cfg, s) && id in s.tables.sessions
    ensures s.tables.sessions[id].version == Replay(cfg.rules, id, OpsOf(s.h, id)).version
  {
    assert RowExplained(cfg.rules, s.tables, s.h, id);
  }

  /** Exactly when the append a handler is about to make goes through, and which errors it can
      meet: the row may be gone, an event id taken, a number too large for its column. With one
      server writing, the store never answers a version conflict, nor any of the errors that
      name a malformed request. */
  lemma {:induction false} AppendNeverConflicts(cfg: Config, s: State, t: Tid)
    requires Inv(cfg, s) && t in s.threads && s.threads[t].pc.Append?
    ensures var id, pc := s.threads[t].id, s.threads[t].pc;
      var next := At(s.m, pc.r).state;
      var appended :=
        Store.AppendEvents(s.tables, id, pc.previous.version, pc.events, next, pc.now);
      && (appended.Success? <==>
            (id in s.tables.sessions && next.version <= I64_MAX && pc.now <= I64_MAX
             && FreshIds(s.tables, pc.events)
             && FitsColumns(|EventsOf(s.tables, id)|, pc.events)))
      && (appended.Failure? ==>
            appended.error.SessionNotFound? || appended.error.ConstraintViolation?
            || appended.error.NumericOverflow?)
  {
    hide Inv, Replay, InsertBatch, FreshIds, FitsColumns, Valid, Holds, Journal;
    var id, pc := s.threads[t].id, s.threads[t].pc;
    DraftIsWellFormed(cfg, s, t);
    RowOf(cfg, s, id);
    if id in s.tables.sessions {
      RowVersion(cfg, s, id);
      BatchFailures(s.tables, id, |EventsOf(s.tables, id)|, pc.events);
    }
    AppendIsConcatenation(s.tables, id, pc.previous.version, pc.events, At(s.m, pc.r).state, pc.now);
  }

  /** The same in every state of every run. */
  lemma {:induction false} NoVersionConflict(cfg: Config, states: seq<State>, n: nat, t: Tid)
    requires Run(cfg, states) && n < |states|
    requires t in states[n].threads && states[n].threads[t].pc.Append?
    ensures var s := states[n];
      var id, pc := s.threads[t].id, s.threads[t].pc;
      var next := At(s.m, pc.r).state;
      var appended :=
        Store.AppendEvents(s.tables, id, pc.previous.version, pc.events, next, pc.now);
      && (appended.Success? <==>
            (id in s.tables.sessions && next.version <= I64_MAX && pc.now <= I64_MAX
             && FreshIds(s.tables, pc.events)
             && FitsColumns(|EventsOf(s.tables, id)|, pc.events)))
      && (appended.Failure? ==>
            appended.error.SessionNotFound? || appended.error.ConstraintViolation?
            || appended.error.NumericOverflow?)
  {
    hide Next, Inv, Store.AppendEvents, FreshIds, FitsColumns;
    RunKeepsInvariant(cfg, states, n);
    AppendNeverConflicts(cfg, states[n], t);
  }

  // ----- arithmetic ----------------------------------------------------------------------------

  /** Wherever a handler is about to compute on a state, two more versions fit in u64: neither
      unchecked increment wraps, and the overflow branch of a reset is never taken. */
  lemma {:induction false} NoCounterOverflows(cfg: Config, states: seq<State>, n: nat, t: Tid)
    requires Run(cfg, states) && n < |states|
    requires t in states[n].threads && states[n].threads[t].pc.Begin?
    ensures var state := At(states[n].m, states[n].threads[t].pc.r).state;
      && state.turnCount <= state.version <= I64_MAX
      && Increment(Increment(state.version)) == state.version + 2
      && Increment(Increment(state.turnCount)) == state.turnCount + 2
      && ResetState(state).Success?
  {
    hide Inv, Replay;
    RunKeepsInvariant(cfg, states, n);
    HeldIsCommitted(cfg, states[n], t, states[n].threads[t].pc.r);
    CommittedCounters(cfg, states[n], states[n].threads[t].id);
  }

  /** No sequence number computed by an append overflows u64. */
  lemma {:induction false} NoSequenceOverflows(cfg: Config, states: seq<State>, n: nat, t: Tid,
                                               i: nat)
    requires Run(cfg, states) && n < |states|
    requires t in states[n].threads && states[n].threads[t].pc.Append?
    requires i < |states[n].threads[t].pc.events|
    requires states[n].threads[t].id in states[n].tables.sessions
    ensures var last := LastSequence(EventsOf(states[n].tables, states[n].threads[t].id));
            0 <= last && last + i + 1 <= I64_MAX + 2 < U64_LIMIT
  {
    hide Inv, Replay, Journal, Valid;
    var s := states[n];
    RunKeepsInvariant(cfg, states, n);
    RowOf(cfg, s, s.threads[t].id);
    HolderIsLocked(cfg, s, t);
    CommittedCounters(cfg, s, s.threads[t].id);
    VersionCountsEvents(cfg.rules, s.threads[t].id, OpsOf(s.h, s.threads[t].id));
  }

  // ----- the event log -------------------------------------------------------------------------

  function Bodies(log: seq<EventRow>): (bodies: seq<Payload>)
    ensures |bodies| == |log|
    ensures forall i :: 0 <= i < |log| ==> bodies[i] == log[i].payload
  {
    seq(|log|, i requires 0 <= i < |log| => log[i].payload)
  }

  /** The name of an event says which kind it is. */
  ghost predicate NamedByKind(row: EventRow) {
    && (row.eventType == "turn.user_recorded" <==> row.payload.UserRecorded?)
    && (row.eventType == "turn.assistant_recorded" <==> row.payload.AssistantRecorded?)
    && (row.eventType == "session.reset" <==> row.payload.SessionReset?)
  }

  lemma {:induction false} TypeNamesTellKinds(row: EventRow)
    requires row.eventType == TypeName(row.payload)
    ensures NamedByKind(row)
  {
    assert |"turn.user_recorded"| == 18 && |"turn.assistant_recorded"| == 23 && |"session.reset"| == 13;
    assert |"external.update"| == 15;
  }

  /** The law of the event log, for every session the handlers write: as many events as the
      row's version, numbered from 1 without a gap, each recording the version or position it
      stands at, and the events since the last reset count the turns. */
  lemma {:induction false} LogLaw(cfg: Config, states: seq<State>, n: nat, id: SessionId)
    requires Run(cfg, states) && n < |states| && id in states[n].tables.sessions
    ensures var row, log := states[n].tables.sessions[id], EventsOf(states[n].tables, id);
      && row.version == row.snapshot.version == |log|
      && (forall i :: 0 <= i < |log| ==>
            log[i].sequence == i + 1 && NamedByKind(log[i]))
      && PositionsRecorded(Bodies(log))
      && TurnsSinceReset(Bodies(log)) == row.snapshot.turnCount
  {
    hide Inv, Replay, Journal, Valid, PositionsRecorded;
    var s := states[n];
    var ops := OpsOf(s.h, id);
    RunKeepsInvariant(cfg, states, n);
    RowOf(cfg, s, id);
    RowSnapshot(cfg, s, id);
    CommittedCounters(cfg, s, id);
    VersionCountsEvents(cfg.rules, id, ops);
    JournalRecordsPositions(cfg.rules, id, ops);
    var log := EventsOf(s.tables, id);
    assert Bodies(log) == Journal(cfg.rules, id, ops);
    forall i | 0 <= i < |log|
      ensures NamedByKind(log[i])
    {
      TypeNamesTellKinds(log[i]);
    }
  }

  /** The log holds the operations one after the other: two events for a chat, with the running turn
      count, the length of the message as it was sent, the backend, and the version the chat led
      to; one for a reset, with the version it replaced. */
  lemma {:induction false} LogTellsTheOperations(cfg: Config, states: seq<State>, n: nat, id: SessionId, k: nat)
    requires Run(cfg, states) && n < |states| && id in states[n].tables.sessions
    requires k < |OpsOf(states[n].h, id)|
    ensures Recorded(cfg.rules, Bodies(EventsOf(states[n].tables, id)), OpsOf(states[n].h, id), k)
  {
    hide Inv, Replay, Journal, Valid, Recorded;
    var s := states[n];
    var ops := OpsOf(s.h, id);
    RunKeepsInvariant(cfg, states, n);
    RowOf(cfg, s, id);
    CommittedCounters(cfg, s, id);
    OperationsAreRecorded(cfg.rules, id, ops, k);
    assert Bodies(EventsOf(s.tables, id)) == Journal(cfg.rules, id, ops);
  }

  lemma {:induction false} RowSnapshot(cfg: Config, s: State, id: SessionId)
    requires Inv(cfg, s) && id in s.tables.sessions
    ensures s.tables.sessions[id].snapshot == Replay(cfg.rules, id, OpsOf(s.h, id))
    ensures s.tables.sessions[id].version == s.tables.sessions[id].snapshot.version
  {
    assert RowExplained(cfg.rules, s.tables, s.h, id);
  }

  /** The constraints of the schema hold throughout: event ids are unique over all sessions, and no
      event is without its session. */
  lemma {:induction false} SchemaHolds(cfg: Config, states: seq<State>, n: nat)
    requires Run(cfg, states) && n < |states|
    ensures Valid(states[n].tables)
  {
    hide Next, Inv, Valid;
    RunKeepsInvariant(cfg, states, n);
    SharedOf(cfg, states[n]);
  }

  /** Every stored snapshot agrees with what was said and replied since the last reset. */
  lemma {:induction false} SnapshotsAreDerived(cfg: Config, states: seq<State>, n: nat,
                                               id: SessionId)
    requires Run(cfg, states) && n < |states| && id in states[n].tables.sessions
    ensures var snapshot := states[n].tables.sessions[id].snapshot;
      && Derived(snapshot, Exchanges(OpsOf(states[n].h, id)))
      && snapshot.userModel.topics == TopicsOf(cfg.rules.classify, Said(OpsOf(states[n].h, id)))
  {
    hide Inv, Replay, Derived;
    var s := states[n];
    RunKeepsInvariant(cfg, states, n);
    RowSnapshot(cfg, s, id);
    CommittedCounters(cfg, s, id);
    DerivedStateAgrees(cfg.rules, id, OpsOf(s.h, id));
    TopicsAccumulate(cfg.rules, id, OpsOf(s.h, id));
  }

  // ----- what a step adds to the history -------------------------------------------------------

  /** History only grows. */
  ghost predicate Extends(h: Chronicle, h': Chronicle) {
    && h.used <= h'.used && h.born <= h'.born && h.gone <= h'.gone
    && h.acks <= h'.acks
    && (forall id :: OpsOf(h, id) <= OpsOf(h', id))
  }

  lemma {:induction false} CommittingExtends(h: Chronicle, id: SessionId, op: Op)
    ensures Extends(h, Committed(h, id, op))
  {
    var h' := Committed(h, id, op);
    assert forall other :: other != id ==> OpsOf(h', other) == OpsOf(h, other);
    assert OpsOf(h', id) == OpsOf(h, id) + [op];
  }

  lemma {:induction false} CommitStepExtends(cfg: Config, s: State, t: Tid, c: Choice, s': State)
    requires t in s.threads && StepCommit(cfg, s, t, c) == Some(s')
    ensures Extends(s.h, s'.h)
  {
    hide Store.AppendEvents, TurnResult, ResetState, SetState;
    var pc := s.threads[t].pc;
    if pc.Append? {
      CommittingExtends(s.h, s.threads[t].id, pc.op);
    }
  }

  lemma {:induction false} LookupsKeepHistory(cfg: Config, s: State, t: Tid, c: Choice, s': State)
    requires t in s.threads
    ensures StepGet(cfg, s, t, c) == Some(s') ==> s'.h == s.h
    ensures StepPurge(s, t, c) == Some(s') ==> s'.h == s.h
    ensures StepSweep(cfg, s, t, c) == Some(s') ==> s'.h == s.h
  {
    hide Evict, Sweeps, Enumerates;
  }

  lemma {:induction false} OtherStepsExtend(cfg: Config, s: State, t: Tid, c: Choice, s': State)
    requires t in s.threads
    ensures StepCreate(s, t, c) == Some(s') ==> Extends(s.h, s'.h)
    ensures StepDescribe(s, t) == Some(s') ==> Extends(s.h, s'.h)
    ensures StepDelete(s, t, c) == Some(s') ==> Extends(s.h, s'.h)
  {
    hide Store.CreateSession;
  }

  lemma {:induction false} StepExtends(cfg: Config, s: State, t: Tid, c: Choice, s': State)
    requires t in s.threads && Step(cfg, s, t, c) == Some(s')
    ensures Extends(s.h, s'.h)
  {
    hide StepCommit, StepGet, StepPurge, StepSweep, StepCreate, StepDescribe, StepDelete;
    LookupsKeepHistory(cfg, s, t, c, s');
    OtherStepsExtend(cfg, s, t, c, s');
    if StepCommit(cfg, s, t, c) == Some(s') {
      CommitStepExtends(cfg, s, t, c, s');
    }
  }

  lemma {:induction false} NextExtends(cfg: Config, s: State, s': State)
    requires Next(cfg, s, s')
    ensures Extends(s.h, s'.h)
  {
    hide Step, Listing, RestoreAll;
    if t :| StepOf(cfg, s, s', t) {
      var c :| Step(cfg, s, t, c) == Some(s');
      StepExtends(cfg, s, t, c, s');
    } else {
      assert forall id :: OpsOf(s'.h, id) == OpsOf(s.h, id);
    }
  }

  lemma {:induction false} ExtendsTransitively(a: Chronicle, b: Chronicle, c: Chronicle)
    requires Extends(a, b) && Extends(b, c)
    ensures Extends(a, c)
  {
    forall id: SessionId
      ensures OpsOf(a, id) <= OpsOf(c, id)
    {
      assert OpsOf(a, id) <= OpsOf(b, id) <= OpsOf(c, id);
    }
    assert a.acks <= b.acks <= c.acks;
  }

  /** Over a whole run, restarts included, no committed operation and no response is ever taken
      back. */
  lemma {:induction false} HistoryOnlyGrows(cfg: Config, states: seq<State>, i: nat, j: nat)
    requires Run(cfg, states) && i <= j < |states|
    ensures Extends(states[i].h, states[j].h)
    decreases j - i
  {
    hide Next;
    if i < j {
      HistoryOnlyGrows(cfg, states, i, j - 1);
      NextExtends(cfg, states[j - 1], states[j]);
      ExtendsTransitively(states[i].h, states[j - 1].h, states[j].h);
    }
  }

  // ----- no resurrection -----------------------------------------------------------------------

  /** Once a DELETE was confirmed, nothing that follows, be it a chat or reset in flight, an
      expiry, a purge or a restart, gives the id a map entry, a row or an event again. */
  lemma {:induction false} NoResurrection(cfg: Config, states: seq<State>, i: nat, j: nat,
                                          id: SessionId)
    requires Run(cfg, states) && i <= j < |states| && id in states[i].h.gone
    ensures id !in states[j].m.sessions
    ensures id !in states[j].tables.sessions && EventsOf(states[j].tables, id) == []
  {
    hide Next;
    HistoryOnlyGrows(cfg, states, i, j);
    RunKeepsInvariant(cfg, states, j);
    GoneHasNothing(cfg, states[j], id);
  }

  lemma {:induction false} GoneHasNothing(cfg: Config, s: State, id: SessionId)
    requires Inv(cfg, s) && id in s.h.gone
    ensures id !in s.m.sessions && id !in s.tables.sessions && EventsOf(s.tables, id) == []
  {
  }

  /** The step that answers 204 is the one that records the id as gone, and it is taken only
      after the row was deleted and the entry unmapped and flagged. */
  lemma {:induction false} ConfirmedMeansGone(cfg: Config, states: seq<State>, n: nat, t: Tid,
                                              c: Choice, s': State)
    requires Run(cfg, states) && n < |states| && t in states[n].threads
    requires states[n].threads[t].pc.Confirm? && Step(cfg, states[n], t, c) == Some(s')
    ensures s'.h.gone == states[n].h.gone + {states[n].threads[t].id} && t !in s'.threads
    ensures var id := states[n].threads[t].id; id !in s'.tables.sessions && id !in s'.m.sessions
  {
    hide Next, Inv;
    RunKeepsInvariant(cfg, states, n);
    HolderIsLocked(cfg, states[n], t);
  }

  // ----- linearizability -----------------------------------------------------------------------

  /** Every response ever sent is the one a sequential run of its session's committed operations
      gives at its position, whatever ran in between, and no two responses claim the same
      operation. */
  lemma {:induction false} ResponsesAreSequential(cfg: Config, states: seq<State>, n: nat, i: nat)
    requires Run(cfg, states) && n < |states| && i < |states[n].h.acks|
    ensures var acks := states[n].h.acks;
      && Explained(cfg.rules, states[n].h, acks[i])
      && forall j | 0 <= j < |acks| && j != i ::
           acks[j].id == acks[i].id && acks[j].index == acks[i].index ==>
             acks[i].answer.MetadataAnswer? || acks[j].answer.MetadataAnswer?
  {
    hide Next, Explained, Inv;
    RunIsAccounted(cfg, states, n);
    ResponseIsExplained(cfg, states[n], states[n].h.acks[i]);
    var acks := states[n].h.acks;
    forall j | 0 <= j < |acks| && j != i && acks[j].id == acks[i].id && acks[j].index == acks[i].index
      ensures acks[i].answer.MetadataAnswer? || acks[j].answer.MetadataAnswer?
    {
      assert !SameOperation(acks[if i < j then i else j], acks[if i < j then j else i]);
    }
  }

  lemma {:induction false} ResponseIsExplained(cfg: Config, s: State, ack: Ack)
    requires Inv(cfg, s) && ack in s.h.acks
    ensures Explained(cfg.rules, s.h, ack)
  {
    hide Explained;
  }

  /** The sequential order respects real time: a request that arrives after a response to the
      same session was sent is placed after the operation that response answered. */
  lemma {:induction false} LaterRequestsComeAfter(cfg: Config, states: seq<State>, n: nat, t: Tid,
                                                  goal: Goal, ack: Ack)
    requires Run(cfg, states) && n + 1 < |states|
    requires RequestArrives(states[n], states[n + 1], t, ack.id, goal)
    requires ack in states[n].h.acks
    ensures states[n + 1].threads[t].since
         >= if ack.answer.MetadataAnswer? then ack.index else ack.index + 1
  {
    hide Next, Inv;
    RunKeepsInvariant(cfg, states, n);
    ResponseIsExplained(cfg, states[n], ack);
  }

  /** Whoever holds or reads an entry's lock sees a committed state, or the initial one when
      nothing was committed; so a failed operation has left no trace. */
  lemma {:induction false} LockHoldersSeeCommittedStates(cfg: Config, states: seq<State>, n: nat,
                                                         r: Ref)
    requires Run(cfg, states) && n < |states| && r < |states[n].m.heap|
    requires var s := states[n];
      r in s.locks ==> s.locks[r] in s.threads && !Dirty(s.threads[s.locks[r]].pc)
    ensures var e := states[n].m.heap[r];
            e.state == Replay(cfg.rules, e.id, OpsOf(states[n].h, e.id))
  {
    hide Next;
    RunKeepsInvariant(cfg, states, n);
    assert EntryCommitted(cfg.rules, states[n], r);
  }

  /** A handler whose append failed restores the committed state and changes nothing else: no
      row, no event, no history. */
  lemma {:induction false} FailureLeavesNoTrace(cfg: Config, states: seq<State>, n: nat, t: Tid,
                                                c: Choice, s': State)
    requires Run(cfg, states) && n < |states| && t in states[n].threads
    requires states[n].threads[t].pc.Undo? && Step(cfg, states[n], t, c) == Some(s')
    ensures s'.tables == states[n].tables && s'.h == states[n].h
    ensures var id, r := states[n].threads[t].id, states[n].threads[t].pc.r;
      && r < |s'.m.heap| && r !in s'.locks
      && s'.m.heap[r].state == Replay(cfg.rules, id, OpsOf(states[n].h, id))
      && s'.m == states[n].m.(heap := states[n].m.heap[r := states[n].m.heap[r].(state := s'.m.heap[r].state)])
      && s'.locks == states[n].locks - {r} && s'.permits == states[n].permits && s'.writer == states[n].writer
      && s'.threads - {t} == states[n].threads - {t}
  {
    hide Next, Inv, Replay;
    RunKeepsInvariant(cfg, states, n);
    UndoFacts(cfg, states[n], t);
  }

  // ----- crashes and restarts ------------------------------------------------------------------

  /** Stop the process between any two steps and start a new one. If the start comes up, its map
      holds exactly the sessions of the tables, which are those not expired; each entry holds the
      stored snapshot, which is the replay of the committed operations. Those never to be answered
      are the ones lost in earlier crashes, the ones whose response was still in the hands of a
      chat that had given up the lock, and at most one more, whose handler held the lock. */
  lemma {:induction false} RestartRecoversCommitted(cfg: Config, states: seq<State>, n: nat,
      s': State, rows: seq<StoredSession>, clock: seq<u64>, purged: nat, id: SessionId)
    requires Run(cfg, states) && n < |states|
    requires Restarts(cfg, states[n], s', rows, clock, purged) && s'.serving
    ensures s'.m.sessions.Keys == s'.tables.sessions.Keys && s'.m.expired == []
    ensures forall i :: 0 <= i < |rows| ==>
              (rows[i].sessionId in s'.m.sessions
               <==> clock[i] <= rows[i].updatedAtMs + cfg.ttlMs)
    ensures id in s'.m.sessions ==>
              && id in states[n].tables.sessions
              && s'.tables.sessions[id] == states[n].tables.sessions[id]
              && At(s'.m, s'.m.sessions[id]).state
                 == states[n].tables.sessions[id].snapshot
                 == Replay(cfg.rules, id, OpsOf(states[n].h, id))
    ensures forall k: nat ::
              (id, k) in s'.h.lost <==> (k < |OpsOf(states[n].h, id)| && !Answered(states[n].h.acks, id, k))
    ensures forall k: nat ::
              ((id, k) in s'.h.lost
               <==> (id, k) in states[n].h.lost || Carried(states[n], id, k) || AtReply(states[n], id, k))
  {
    hide Next, Restarts, Inv, Answered, Carried, AtReply;
    RunKeepsInvariant(cfg, states, n);
    RecoveredEntries(cfg, states[n], s', rows, clock, purged, id);
    LostAreUnanswered(cfg, states[n], s', rows, clock, purged, id);
    forall k: nat
      ensures (id, k) in s'.h.lost
         <==> (id, k) in states[n].h.lost || Carried(states[n], id, k) || AtReply(states[n], id, k)
    {
      EveryOperationIsAccounted(cfg, states, n, id, k);
    }
  }

  lemma {:induction false} LostAreUnanswered(cfg: Config, s: State, s': State,
      rows: seq<StoredSession>, clock: seq<u64>, purged: nat, id: SessionId)
    requires Restarts(cfg, s, s', rows, clock, purged)
    ensures forall k: nat ::
              (id, k) in s'.h.lost <==> (k < |OpsOf(s.h, id)| && !Answered(s.h.acks, id, k))
  {
    hide Answered, Listing, RestoreAll;
    assert s'.h == Recovered(s.h);
  }

  lemma {:induction false} RecoveredEntries(cfg: Config, s: State, s': State,
      rows: seq<StoredSession>, clock: seq<u64>, purged: nat, id: SessionId)
    requires Inv(cfg, s) && Restarts(cfg, s, s', rows, clock, purged) && s'.serving
    ensures s'.m.sessions.Keys == s'.tables.sessions.Keys && s'.m.expired == []
    ensures forall i :: 0 <= i < |rows| ==>
              (rows[i].sessionId in s'.m.sessions
               <==> clock[i] <= rows[i].updatedAtMs + cfg.ttlMs)
    ensures id in s'.m.sessions ==>
              && id in s.tables.sessions
              && s'.tables.sessions[id] == s.tables.sessions[id]
              && At(s'.m, s'.m.sessions[id]).state
                 == s.tables.sessions[id].snapshot == Replay(cfg.rules, id, OpsOf(s.h, id))
  {
    hide Inv, TablesSound, Replay, Listing, RestoreAll;
    RestartFacts(cfg, s, s', rows, clock, purged);
    if id in s'.m.sessions {
      RowSnapshot(cfg, s, id);
      if s'.m != EMPTY {
        var r := s'.m.sessions[id];
        var i :| 0 <= i < |rows| && Carries(s'.m.heap[r], rows[i]);
      }
    }
  }

  /** The tables any crash leaves can be listed: no stored row reads back as an error. */
  lemma {:induction false} CrashedTablesAreReadable(cfg: Config, states: seq<State>, n: nat,
                                                    id: SessionId)
    requires Run(cfg, states) && n < |states| && id in states[n].tables.sessions
    ensures ReadSession(id, states[n].tables.sessions[id]).Success?
  {
    hide Next, Inv, Replay, Holds;
    RunKeepsInvariant(cfg, states, n);
    SharedOf(cfg, states[n]);
    RowSnapshot(cfg, states[n], id);
    CommittedCounters(cfg, states[n], id);
    assert RowSound(states[n].tables.sessions[id]);
  }

  // ----- isolation -----------------------------------------------------------------------------

  /** An id that is queued as expired, or drained by a running purge, is not mapped. */
  lemma {:induction false} CondemnedAreUnmapped(cfg: Config, states: seq<State>, n: nat,
                                                t: Tid, id: SessionId)
    requires Run(cfg, states) && n < |states|
    requires || id in states[n].m.expired
             || (t in states[n].threads && states[n].threads[t].pc.Purge?
                 && id in states[n].threads[t].pc.ids)
    ensures id !in states[n].m.sessions
  {
    hide Next, Inv;
    var s := states[n];
    RunKeepsInvariant(cfg, states, n);
    MapOf(cfg, s);
    if id !in s.m.expired {
      HolderIsLocked(cfg, s, t);
      assert id in Condemning(s.threads[t].id, s.threads[t].pc);
    }
  }

  lemma {:induction false} StepTouchesOwnRow(cfg: Config, s: State, t: Tid, c: Choice, s': State,
                                             other: SessionId)
    requires Inv(cfg, s) && t in s.threads && Step(cfg, s, t, c) == Some(s')
    requires other != s.threads[t].id && other in s.m.sessions
    ensures other in s'.tables.sessions <==> other in s.tables.sessions
    ensures other in s.tables.sessions ==>
              s'.tables.sessions[other] == s.tables.sessions[other]
    ensures EventsOf(s'.tables, other) == EventsOf(s.tables, other)
  {
    hide Inv, StepCommit, StepGet, StepSweep, StepDescribe, StepBegin, StepPurge, StepCreate, StepDelete, EventsOf;
    var thread := s.threads[t];
    if StepPurge(s, t, c) == Some(s') {
      PurgeTouchesOthers(cfg, s, t, c, s', other);
    } else if StepCreate(s, t, c) == Some(s') || StepDelete(s, t, c) == Some(s') {
      OwnRowOnly(cfg, s, t, c, s', other);
    } else if thread.pc.Append? {
      AppendTouchesOwnRow(cfg, s, t, c, s', other);
    } else if StepCommit(cfg, s, t, c) == Some(s') {
      OthersKeepTables(cfg, s, t, c, s');
    } else {
      ReadersKeepTables(cfg, s, t, c, s');
    }
  }

  lemma {:induction false} PurgeTouchesOthers(cfg: Config, s: State, t: Tid, c: Choice, s': State, other: SessionId)
    requires Inv(cfg, s) && t in s.threads && StepPurge(s, t, c) == Some(s') && other in s.m.sessions
    ensures other in s'.tables.sessions <==> other in s.tables.sessions
    ensures other in s.tables.sessions ==>
              s'.tables.sessions[other] == s.tables.sessions[other]
    ensures EventsOf(s'.tables, other) == EventsOf(s.tables, other)
  {
    hide Inv;
    var thread := s.threads[t];
    HolderIsLocked(cfg, s, t);
    if thread.pc.Purge? && thread.pc.ids != [] {
      assert thread.pc.ids[0] in Condemning(thread.id, thread.pc);
    }
  }

  lemma {:induction false} OwnRowOnly(cfg: Config, s: State, t: Tid, c: Choice, s': State, other: SessionId)
    requires Inv(cfg, s) && t in s.threads && other != s.threads[t].id
    requires StepCreate(s, t, c) == Some(s') || StepDelete(s, t, c) == Some(s')
    ensures other in s'.tables.sessions <==> other in s.tables.sessions
    ensures other in s.tables.sessions ==>
              s'.tables.sessions[other] == s.tables.sessions[other]
    ensures EventsOf(s'.tables, other) == EventsOf(s.tables, other)
  {
    hide Inv, MapSound;
    HolderIsLocked(cfg, s, t);
  }

  lemma {:induction false} AppendTouchesOwnRow(cfg: Config, s: State, t: Tid, c: Choice, s': State,
                                               other: SessionId)
    requires Inv(cfg, s) && t in s.threads && StepCommit(cfg, s, t, c) == Some(s')
    requires s.threads[t].pc.Append? && other != s.threads[t].id
    ensures other in s'.tables.sessions <==> other in s.tables.sessions
    ensures other in s.tables.sessions ==>
              s'.tables.sessions[other] == s.tables.sessions[other]
    ensures EventsOf(s'.tables, other) == EventsOf(s.tables, other)
  {
    hide Inv, StepBegin, Store.AppendEvents, Appendable;
    var pc := s.threads[t].pc;
    SharedOf(cfg, s);
    AppendIsConcatenation(s.tables, s.threads[t].id, pc.previous.version, pc.events,
                          At(s.m, pc.r).state, pc.now);
  }

  lemma {:induction false} OthersKeepTables(cfg: Config, s: State, t: Tid, c: Choice, s': State)
    requires t in s.threads && StepCommit(cfg, s, t, c) == Some(s') && !s.threads[t].pc.Append?
    ensures s'.tables == s.tables
  {
  }

  lemma {:induction false} ReadersKeepTables(cfg: Config, s: State, t: Tid, c: Choice, s': State)
    requires t in s.threads
    ensures StepGet(cfg, s, t, c) == Some(s') ==> s'.tables == s.tables
    ensures StepSweep(cfg, s, t, c) == Some(s') ==> s'.tables == s.tables
    ensures StepDescribe(s, t) == Some(s') ==> s'.tables == s.tables
  {
    hide Evict, Sweeps, Enumerates;
  }

  /** A request never alters another session that stays mapped: not its state, its row, its
      events or its history. */
  lemma {:induction false} SessionsAreIsolated(cfg: Config, states: seq<State>, n: nat, t: Tid,
                                               other: SessionId)
    requires Run(cfg, states) && n + 1 < |states| && StepOf(cfg, states[n], states[n + 1], t)
    requires other != states[n].threads[t].id
    requires other in states[n].m.sessions && other in states[n + 1].m.sessions
    ensures var s, s' := states[n], states[n + 1];
      && (other in s'.tables.sessions <==> other in s.tables.sessions)
      && (other in s.tables.sessions ==> s'.tables.sessions[other] == s.tables.sessions[other])
      && EventsOf(s'.tables, other) == EventsOf(s.tables, other)
      && OpsOf(s'.h, other) == OpsOf(s.h, other)
      && s'.m.sessions[other] == s.m.sessions[other]
      && At(s'.m, s'.m.sessions[other]).state == At(s.m, s.m.sessions[other]).state
  {
    hide Next, Inv, Step;
    var s, s' := states[n], states[n + 1];
    var c :| Step(cfg, s, t, c) == Some(s');
    RunKeepsInvariant(cfg, states, n);
    StepKeepsInvariant(cfg, s, t, c, s');
    StepTouchesOwnRow(cfg, s, t, c, s', other);
    StepTouchesOwnEntry(cfg, s, s', t, other);
  }

  lemma {:induction false} StepTouchesOwnEntry(cfg: Config, s: State, s': State, t: Tid,
                                               other: SessionId)
    requires Inv(cfg, s) && StepSound(cfg, s, s', t) && other != s.threads[t].id
    requires other in s.m.sessions && other in s'.m.sessions
    ensures OpsOf(s'.h, other) == OpsOf(s.h, other)
    ensures s'.m.sessions[other] == s.m.sessions[other]
    ensures At(s'.m, s'.m.sessions[other]).state == At(s.m, s.m.sessions[other]).state
  {
    hide Inv, SharedSound, MoverSound, Disciplined;
    var mover := s.threads[t];
    MappedIsSound(cfg, s, other);
    HolderIsLocked(cfg, s, t);
    if Held(mover.pc).Some? {
      assert Held(mover.pc).value in Pointers(mover.pc);
    }
  }

  // ----- progress ------------------------------------------------------------------------------

  ghost predicate CanStep(cfg: Config, s: State, t: Tid) {
    t in s.threads && exists c :: Step(cfg, s, t, c).Some?
  }

  /** The entry whose lock a thread at `pc` is waiting for. */
  function WaitsFor(pc: Pc): Option<Ref> {
    match pc
    case LockSnapshot(r) => Some(r)
    case LockMeasure(r, _) => Some(r)
    case LockDescribe(r) => Some(r)
    case Lock(_, r) => Some(r)
    case _ => None
  }

  predicate WaitsForMap(pc: Pc) {
    pc.GetRead? || pc.GetEvict? || pc.Withdraw? || pc.UnmapErased? || pc.SweepLock? || pc.Count?
  }

  lemma {:induction false} EnumerationExists(ids: set<SessionId>)
    ensures exists order :: Enumerates(order, ids)
  {
    if ids == {} {
      assert Enumerates([], ids);
    } else {
      var id :| id in ids;
      EnumerationExists(ids - {id});
      var rest :| Enumerates(rest, ids - {id});
      forall i, j | 0 <= i < j < |rest + [id]|
        ensures (rest + [id])[i] != (rest + [id])[j]
      {
        assert rest[i] in (set x | x in rest);
      }
      assert (set x | x in rest + [id]) == (set x | x in rest) + {id};
      assert (ids - {id}) + {id} == ids;
      assert Enumerates(rest + [id], ids);
    }
  }

  /** A thread whose lock is free can step: it waits for nothing else. */
  lemma {:induction false} FreeThreadsStep(cfg: Config, s: State, t: Tid)
    requires Inv(cfg, s) && t in s.threads
    requires WaitsForMap(s.threads[t].pc) ==> s.writer.None?
    requires WaitsFor(s.threads[t].pc).Some? ==> WaitsFor(s.threads[t].pc).value !in s.locks
    ensures CanStep(cfg, s, t)
  {
    hide Inv, Enumerates, StepBegin, Store.AppendEvents, Store.CreateSession, Sweeps;
    EnumerationExists(s.m.sessions.Keys);
    var order :| Enumerates(order, s.m.sessions.Keys);
    var c := Choice(0, false, Failure(Timeout), 0, 0, 0, order);
    if s.threads[t].pc.Begin? {
      BeginsStep(cfg, s, t, c);
    }
    assert Step(cfg, s, t, c).Some?;
  }

  lemma {:induction false} BeginsStep(cfg: Config, s: State, t: Tid, c: Choice)
    requires Inv(cfg, s) && t in s.threads && s.threads[t].pc.Begin?
    ensures StepBegin(cfg, s, t, c).Some?
  {
    hide Inv, TurnResult, ResetState, SetState, TypeName, Utf8Length;
  }

  /** No deadlock: in every reachable state with a running handler, some handler can step. The
      session map's write lock is only held by handlers that wait for nothing, and entry locks
      only by handlers that at most wait for the map. */
  lemma {:induction false} NoDeadlock(cfg: Config, states: seq<State>, n: nat)
    requires Run(cfg, states) && n < |states| && states[n].threads != map[]
    ensures exists t :: CanStep(cfg, states[n], t)
  {
    hide Next, Inv, Step;
    var s := states[n];
    RunKeepsInvariant(cfg, states, n);
    SharedOf(cfg, s);
    var t :| t in s.threads;
    if s.writer.Some? {
      FreeThreadsStep(cfg, s, s.writer.value);
    } else if WaitsFor(s.threads[t].pc).Some? && WaitsFor(s.threads[t].pc).value in s.locks {
      FreeThreadsStep(cfg, s, s.locks[WaitsFor(s.threads[t].pc).value]);
    } else {
      FreeThreadsStep(cfg, s, t);
    }
  }

  /** Free permits and the chats holding one always add up to the configured number. */
  lemma {:induction false} PermitsAddUp(cfg: Config, states: seq<State>, n: nat)
    requires Run(cfg, states) && n < |states|
    ensures states[n].permits + |PermitHolders(states[n].threads)|
         == if cfg.maxInferenceConcurrency < 1 then 1 else cfg.maxInferenceConcurrency
  {
    hide Next;
    RunKeepsInvariant(cfg, states, n);
  }
}
