/** Committing, undoing and settling an operation keeps the invariant. */
module Commit {
  import opened Text
  import opened Conversation
  import opened History
  import opened Store
  import opened Sessions
  import opened Server
  import opened Invariant
  import opened Preservation
  import opened Steps

  /** Event types as written are already trimmed. */
  lemma {:induction false} TypeNamesAreTrimmed(payload: Payload)
    ensures Trim(IsWhiteSpace, TypeName(payload)) == TypeName(payload) != ""
  {
    TrimmedIsFixed(IsWhiteSpace, TypeName(payload));
  }

  /** Appending the drafted events to a log appends their bodies to what it holds. */
  lemma {:induction false} AppendHolds(log: seq<EventRow>, journal: seq<Payload>,
                                       events: seq<NewEvent>, bodies: seq<Payload>)
    requires Holds(log, journal) && FitsColumns(|log|, events) && Drafted(events, bodies)
    ensures Holds(log + Numbered(|log|, events), journal + bodies)
  {
    hide TypeName, Numbered, Trim;
    var rows := Numbered(|log|, events);
    forall i | 0 <= i < |rows|
      ensures rows[i].sequence == |log| + i + 1 && rows[i].payload == bodies[i]
      ensures rows[i].eventType == TypeName(bodies[i])
    {
      NumberedAt(|log|, events, i);
      TypeNamesAreTrimmed(bodies[i]);
    }
  }

  lemma {:induction false} JournalExtends(rules: Rules, id: SessionId, ops: seq<Op>, op: Op)
    ensures Journal(rules, id, ops + [op])
         == Journal(rules, id, ops) + BodiesOf(rules, Replay(rules, id, ops), op,
                                               Replay(rules, id, ops + [op]))
  {
    assert (ops + [op])[..|ops|] == ops;
  }

  /** A committed operation leads to the entry's new state and keeps the history sound. */
  lemma {:induction false} CommitExtendsHistory(rules: Rules, id: SessionId, ops: seq<Op>, op: Op,
                                                next: ConversationState)
    requires AllAccepted(ops) && TotalCost(ops) <= I64_MAX && Accepted(op)
    requires next == Advance(rules, Replay(rules, id, ops), op) && next.version <= I64_MAX
    ensures Replay(rules, id, ops + [op]) == next
    ensures AllAccepted(ops + [op]) && TotalCost(ops + [op]) <= I64_MAX
  {
    var ops' := ops + [op];
    assert ops'[..|ops|] == ops;
    VersionCountsEvents(rules, id, ops');
  }

  /** What a successful append finds and leaves. */
  ghost predicate CommitFacts(cfg: Config, s: State, t: Tid, t': Tables)
    requires t in s.threads && s.threads[t].pc.Append?
  {
    var id, pc := s.threads[t].id, s.threads[t].pc;
    var next, log := At(s.m, pc.r).state, EventsOf(s.tables, id);
    && Valid(t')
    && id in s.tables.sessions && id in s.h.born
    && FitsColumns(|log|, pc.events)
    && t'.events == s.tables.events[id := log + Numbered(|log|, pc.events)]
    && t'.sessions.Keys == s.tables.sessions.Keys
    && (forall other :: other in t'.sessions && other != id ==>
          t'.sessions[other] == s.tables.sessions[other])
    && t'.sessions[id].snapshot == next && t'.sessions[id].version == next.version <= I64_MAX
    && Holds(log, Journal(cfg.rules, id, OpsOf(s.h, id)))
  }

  lemma {:induction false} RowOf(cfg: Config, s: State, id: SessionId)
    requires Inv(cfg, s)
    ensures Valid(s.tables)
    ensures id in s.tables.sessions ==>
              && id in s.h.born
              && Holds(EventsOf(s.tables, id), Journal(cfg.rules, id, OpsOf(s.h, id)))
              && LastSequence(EventsOf(s.tables, id)) == |EventsOf(s.tables, id)|
  {
    hide Valid, Journal, Replay, MapSound, HistorySound, OpsOf;
    assert id in s.tables.sessions ==> RowExplained(cfg.rules, s.tables, s.h, id);
  }

  lemma {:induction false} AppendFinds(cfg: Config, s: State, t: Tid, t': Tables)
    requires Inv(cfg, s) && t in s.threads && s.threads[t].pc.Append?
    requires var pc := s.threads[t].pc;
             Store.AppendEvents(s.tables, s.threads[t].id, pc.previous.version, pc.events,
                                At(s.m, pc.r).state, pc.now) == Success(t')
    ensures CommitFacts(cfg, s, t, t')
  {
    hide Inv, Store.AppendEvents, Valid, Replay, Journal, Holds, Numbered, AnyBlankType, FreshIds;
    var id, pc := s.threads[t].id, s.threads[t].pc;
    RowOf(cfg, s, id);
    AppendIsConcatenation(s.tables, id, pc.previous.version, pc.events, At(s.m, pc.r).state, pc.now);
  }

  lemma {:induction false} CommitExplainsRow(cfg: Config, s: State, t: Tid, t': Tables)
    requires t in s.threads && s.threads[t].pc.Append? && CommitFacts(cfg, s, t, t')
    requires HistorySound(s.h)
    requires DraftSound(cfg.rules, OpsOf(s.h, s.threads[t].id), s.threads[t].id,
                        At(s.m, s.threads[t].pc.r).state, s.threads[t].pc)
    ensures RowExplained(cfg.rules, t', Committed(s.h, s.threads[t].id, s.threads[t].pc.op),
                         s.threads[t].id)
    ensures var ops' := OpsOf(s.h, s.threads[t].id) + [s.threads[t].pc.op];
            AllAccepted(ops') && TotalCost(ops') <= I64_MAX
    ensures Replay(cfg.rules, s.threads[t].id,
                   OpsOf(s.h, s.threads[t].id) + [s.threads[t].pc.op])
         == At(s.m, s.threads[t].pc.r).state
  {
    hide Replay, Advance, Journal, BodiesOf, Numbered, TypeName, Answers, Valid, FitsColumns;
    var id, pc := s.threads[t].id, s.threads[t].pc;
    var ops, log := OpsOf(s.h, id), EventsOf(s.tables, id);
    var bodies := BodiesOf(cfg.rules, pc.previous, pc.op, At(s.m, pc.r).state);
    CommitExtendsHistory(cfg.rules, id, ops, pc.op, At(s.m, pc.r).state);
    JournalExtends(cfg.rules, id, ops, pc.op);
    AppendHolds(log, Journal(cfg.rules, id, ops), pc.events, bodies);
    assert OpsOf(Committed(s.h, id, pc.op), id) == ops + [pc.op];
  }

  lemma {:induction false} CommitKeepsTables(cfg: Config, s: State, t: Tid, t': Tables)
    requires t in s.threads && s.threads[t].pc.Append? && CommitFacts(cfg, s, t, t')
    requires TablesSound(cfg.rules, s.tables, s.h)
    requires RowExplained(cfg.rules, t', Committed(s.h, s.threads[t].id, s.threads[t].pc.op),
                          s.threads[t].id)
    ensures TablesSound(cfg.rules, t', Committed(s.h, s.threads[t].id, s.threads[t].pc.op))
  {
    hide Replay, Journal, Numbered, Valid, FitsColumns, Holds;
    var id, pc := s.threads[t].id, s.threads[t].pc;
    var h' := Committed(s.h, id, pc.op);
    forall other | other in t'.sessions
      ensures RowExplained(cfg.rules, t', h', other)
    {
      if other != id {
        assert RowExplained(cfg.rules, s.tables, s.h, other);
        assert OpsOf(h', other) == OpsOf(s.h, other);
        assert EventsOf(t', other) == EventsOf(s.tables, other);
      }
    }
  }

  lemma {:induction false} CommitKeepsHistory(s: State, h': Chronicle, id: SessionId, op: Op)
    requires HistorySound(s.h) && id in s.h.born && h' == Committed(s.h, id, op)
    requires AllAccepted(OpsOf(s.h, id) + [op]) && TotalCost(OpsOf(s.h, id) + [op]) <= I64_MAX
    ensures HistorySound(h')
    ensures forall other :: OpsOf(s.h, other) <= OpsOf(h', other)
  {
    hide AllAccepted, TotalCost;
    assert forall other :: other != id ==> OpsOf(h', other) == OpsOf(s.h, other);
    assert OpsOf(h', id) == OpsOf(s.h, id) + [op];
  }

  lemma {:induction false} CommitKeepsShared(cfg: Config, s: State, t: Tid, s': State)
    requires Inv(cfg, s) && t in s.threads && s.threads[t].pc.Append?
    requires CommitFacts(cfg, s, t, s'.tables)
    requires s'.m == s.m && s'.h == Committed(s.h, s.threads[t].id, s.threads[t].pc.op)
    ensures SharedSound(cfg.rules, s')
  {
    hide Inv, MapSound, TablesSound, HistorySound, Condemned, Gone, Explained, DraftSound, AllAccepted, TotalCost,
         Replay, RowExplained, Valid, Holds, Numbered, Journal;
    var id, pc := s.threads[t].id, s.threads[t].pc;
    SharedOf(cfg, s);
    SameRows(cfg, s, t, s'.tables);
    GoneStays(s.m, s.tables, s'.tables, s.h, s'.h);
    DraftOf(cfg, s, t);
    CommitExplainsRow(cfg, s, t, s'.tables);
    CommitKeepsTables(cfg, s, t, s'.tables);
    CommitKeepsHistory(s, s'.h, id, pc.op);
    AcksStayExplained(cfg.rules, s.h, s'.h);
  }

  lemma {:induction false} DraftOf(cfg: Config, s: State, t: Tid)
    requires Inv(cfg, s) && t in s.threads && s.threads[t].pc.Append?
    ensures DraftSound(cfg.rules, OpsOf(s.h, s.threads[t].id), s.threads[t].id,
                       At(s.m, s.threads[t].pc.r).state, s.threads[t].pc)
  {
    hide Inv, DraftSound, PointersSound, CreationSound, DeletionSound;
    HolderIsLocked(cfg, s, t);
  }

  lemma {:induction false} GoneStays(m: Manager, t: Tables, t': Tables, h: Chronicle, h': Chronicle)
    requires Gone(m, t, h) && t'.sessions.Keys == t.sessions.Keys && h'.gone == h.gone && h'.born == h.born
    ensures Gone(m, t', h')
  {
  }

  lemma {:induction false} SameRows(cfg: Config, s: State, t: Tid, t': Tables)
    requires t in s.threads && s.threads[t].pc.Append? && CommitFacts(cfg, s, t, t')
    ensures t'.sessions.Keys == s.tables.sessions.Keys
  {
  }

  // ----- the steps of an operation under way ---------------------------------------------------

  /** No other handler is replying for the session a lock holder works on. */
  lemma {:induction false} NothingUnsettled(cfg: Config, s: State, t: Tid)
    requires Inv(cfg, s) && t in s.threads
    requires Held(s.threads[t].pc).Some? && !s.threads[t].pc.Reply?
    ensures |OpsOf(s.h, s.threads[t].id)| == SettledOf(s.h, s.threads[t].id)
  {
    hide MapSound, TablesSound, HistorySound, LocksSound, WriterSound, ThreadSound;
    var id := s.threads[t].id;
    assert Settled(s, id);
    if |OpsOf(s.h, id)| == SettledOf(s.h, id) + 1 {
      var u :| u in s.threads && s.threads[u].id == id && s.threads[u].pc.Reply?;
      PointersOf(s, cfg, t);
      PointersOf(s, cfg, u);
      HoldersDiffer(s, t, u);
    }
  }

  lemma {:induction false} PointersOf(s: State, cfg: Config, t: Tid)
    requires Inv(cfg, s) && t in s.threads
    ensures PointersSound(s.m, s.threads[t])
  {
    assert ThreadSound(cfg.rules, s, s.threads[t]);
  }

  lemma {:induction false} CommitEvolves(s: State, s': State, mover: Thread)
    requires mover.pc.Append? && s'.m == s.m && s'.h == Committed(s.h, mover.id, mover.pc.op)
    requires s'.tables.sessions.Keys == s.tables.sessions.Keys
    ensures Evolves(s, s', mover)
    ensures OpsOf(s'.h, mover.id) == OpsOf(s.h, mover.id) + [mover.pc.op]
    ensures SettledOf(s'.h, mover.id) == SettledOf(s.h, mover.id)
  {
  }

  /** After the commit the mover knows that its operation is the last, unsettled one. */
  lemma {:induction false} CommitInformsMover(cfg: Config, s: State, s': State, t: Tid)
    requires Inv(cfg, s) && t in s.threads && s.threads[t].pc.Append?
    requires var pc := s.threads[t].pc;
      && t in s'.threads && s'.threads[t] == s.threads[t].(pc := Reply(pc.action, pc.r, pc.answer))
    requires Evolves(s, s', s.threads[t]) && s'.m == s.m
    requires OpsOf(s'.h, s.threads[t].id) == OpsOf(s.h, s.threads[t].id) + [s.threads[t].pc.op]
    requires SettledOf(s'.h, s.threads[t].id) == SettledOf(s.h, s.threads[t].id)
    ensures ThreadSound(cfg.rules, s', s'.threads[t]) && Settled(s', s.threads[t].id)
  {
    hide Inv, Evolves, Replay, Advance;
    var id, pc := s.threads[t].id, s.threads[t].pc;
    var ops, ops' := OpsOf(s.h, id), OpsOf(s'.h, id);
    HolderIsLocked(cfg, s, t);
    NothingUnsettled(cfg, s, t);
    assert ops'[..|ops'| - 1] == ops;
    assert pc.r in Pointers(pc);
  }

  lemma {:induction false} CommitIsSound(cfg: Config, s: State, t: Tid, t': Tables)
    requires Inv(cfg, s) && t in s.threads && s.threads[t].pc.Append?
    requires var pc := s.threads[t].pc;
             Store.AppendEvents(s.tables, s.threads[t].id, pc.previous.version, pc.events,
                                At(s.m, pc.r).state, pc.now) == Success(t')
    ensures var pc := s.threads[t].pc;
      StepSound(cfg, s, Go(s.(tables := t', h := Committed(s.h, s.threads[t].id, pc.op)), t,
                           Reply(pc.action, pc.r, pc.answer)), t)
  {
    hide Inv, SharedSound, Evolves, ThreadSound, Settled, CommitFacts, Replay, DraftSound,
      Store.AppendEvents, MapSound;
    var thread := s.threads[t];
    var pc, id := thread.pc, thread.id;
    var base := s.(tables := t', h := Committed(s.h, id, pc.op));
    var s' := Go(base, t, Reply(pc.action, pc.r, pc.answer));
    AppendFinds(cfg, s, t, t');
    SameRows(cfg, s, t, t');
    CommitEvolves(s, s', thread);
    CommitKeepsShared(cfg, s, t, s');
    CommitInformsMover(cfg, s, s', t);
    CommitReplays(cfg, s, t, t');
    GoMoves(s, base, t, Reply(pc.action, pc.r, pc.answer));
    HolderIsLocked(cfg, s, t);
  }

  /** The entry's state is the replay of the longer history. */
  lemma {:induction false} CommitReplays(cfg: Config, s: State, t: Tid, t': Tables)
    requires Inv(cfg, s) && t in s.threads && s.threads[t].pc.Append?
    requires CommitFacts(cfg, s, t, t')
    ensures var pc := s.threads[t].pc;
      && pc.r < |s.m.heap| && s.m.heap[pc.r].id == s.threads[t].id
      && s.m.heap[pc.r].state
         == Replay(cfg.rules, s.threads[t].id, OpsOf(s.h, s.threads[t].id) + [pc.op])
  {
    hide Inv, CommitFacts, Replay, Advance, DraftSound, MapSound, TablesSound;
    HolderIsLocked(cfg, s, t);
    SharedOf(cfg, s);
    var pc := s.threads[t].pc;
    assert pc.r in Pointers(pc);
    CommitExplainsRow(cfg, s, t, t');
  }

  lemma {:induction false} AppendIsSound(cfg: Config, s: State, t: Tid, c: Choice, s': State)
    requires Inv(cfg, s) && t in s.threads && s.threads[t].pc.Append?
    requires StepCommit(cfg, s, t, c) == Some(s')
    ensures StepSound(cfg, s, s', t)
  {
    hide Inv, StepSound, StepBegin, Store.AppendEvents, Replay, Advance;
    var thread := s.threads[t];
    var pc, id := thread.pc, thread.id;
    var appended :=
      Store.AppendEvents(s.tables, id, pc.previous.version, pc.events, At(s.m, pc.r).state, pc.now);
    if c.fault || appended.Failure? {
      FailureGoesToUndo(cfg, s, t);
    } else {
      CommitIsSound(cfg, s, t, appended.value);
    }
  }

  lemma {:induction false} FailureGoesToUndo(cfg: Config, s: State, t: Tid)
    requires Inv(cfg, s) && t in s.threads && s.threads[t].pc.Append?
    ensures var pc := s.threads[t].pc; StepSound(cfg, s, Go(s, t, Undo(pc.action, pc.r, pc.previous)), t)
  {
    hide Inv, StepSound, Replay, Advance, Answers, Drafted;
    var pc := s.threads[t].pc;
    HolderIsLocked(cfg, s, t);
    assert Pointers(pc) == Pointers(Undo(pc.action, pc.r, pc.previous));
    QuietGo(cfg, s, t, Undo(pc.action, pc.r, pc.previous));
  }

  /** Undoing puts the committed state back before the lock is released. */
  lemma {:induction false} UndoingIsSound(cfg: Config, s: State, t: Tid, next: Option<Pc>)
    requires Inv(cfg, s) && t in s.threads && s.threads[t].pc.Undo?
    requires next == AfterFailure(s.threads[t].pc.action)
    ensures var pc := s.threads[t].pc;
      StepSound(cfg, s, Move(Unlock(s.(m := SetState(s.m, pc.r, pc.previous)), pc.r), t, next), t)
  {
    hide Inv, SharedSound, Evolves, MapSound, SetState, Replay, ThreadSound, Disciplined;
    var thread := s.threads[t];
    var pc := thread.pc;
    var base := Unlock(s.(m := SetState(s.m, pc.r, pc.previous)), pc.r);
    var s' := Move(base, t, next);
    UndoFacts(cfg, s, t);
    MapOf(cfg, s);
    SetStateKeepsMap(s.m, s.h.used, pc.r, pc.previous);
    SetStateEvolves(s, s', thread, pc.r, pc.previous);
    SetStateKeepsShared(cfg, s, s', pc.r, pc.previous);
    UndoneIsSound(cfg.rules, s, s', thread);
    UndoIsDisciplined(s, base, t, next);
    if next.Some? {
      GoMoves(s, base, t, next.value);
    } else {
      FinishMoves(s, base, t);
    }
  }

  /** Whoever undoes holds the lock of an entry of its session, and remembers the committed state. */
  lemma {:induction false} UndoFacts(cfg: Config, s: State, t: Tid)
    requires Inv(cfg, s) && t in s.threads && s.threads[t].pc.Undo?
    ensures var id, pc := s.threads[t].id, s.threads[t].pc;
      && pc.r < |s.m.heap| && s.m.heap[pc.r].id == id && pc.r in s.locks && s.locks[pc.r] == t
      && pc.previous == Replay(cfg.rules, id, OpsOf(s.h, id))
    ensures ThreadSound(cfg.rules, s, s.threads[t])
  {
    hide Inv, Replay;
    HolderIsLocked(cfg, s, t);
    assert s.threads[t].pc.r in Pointers(s.threads[t].pc);
  }

  lemma {:induction false} UndoneIsSound(rules: Rules, s: State, s': State, thread: Thread)
    requires ThreadSound(rules, s, thread) && thread.pc.Undo? && s'.h == s.h
    ensures ThreadSound(rules, s', thread.(pc := GivePermit(None)))
  {
    hide Replay;
  }

  lemma {:induction false} UndoIsDisciplined(s: State, base: State, t: Tid, next: Option<Pc>)
    requires t in s.threads && s.threads[t].pc.Undo? && next == AfterFailure(s.threads[t].pc.action)
    requires s.threads[t].pc.r in s.locks && s.locks[s.threads[t].pc.r] == t
    requires exists m :: base == Unlock(s.(m := m), s.threads[t].pc.r)
    ensures Disciplined(s, Move(base, t, next), t)
  {
  }

  lemma {:induction false} UndoIsSound(cfg: Config, s: State, t: Tid, c: Choice, s': State)
    requires Inv(cfg, s) && t in s.threads && s.threads[t].pc.Undo?
    requires StepCommit(cfg, s, t, c) == Some(s')
    ensures StepSound(cfg, s, s', t)
  {
    hide Inv, StepSound, StepBegin, SetState;
    UndoingIsSound(cfg, s, t, AfterFailure(s.threads[t].pc.action));
  }

  lemma {:induction false} SettleEvolves(s: State, s': State, mover: Thread)
    requires mover.pc.Reply? && s'.m == s.m && s'.tables == s.tables
    requires s'.h.used == s.h.used && s'.h.born == s.h.born && s'.h.ops == s.h.ops
    requires forall id :: id != mover.id ==> SettledOf(s'.h, id) == SettledOf(s.h, id)
    ensures Evolves(s, s', mover)
  {
  }

  lemma {:induction false} SettleKeepsShared(cfg: Config, s: State, s': State, acks: seq<Ack>)
    requires Inv(cfg, s) && s'.m == s.m && s'.tables == s.tables
    requires s'.h == s.h.(settled := s'.h.settled, acks := s.h.acks + acks)
    requires forall ack :: ack in acks ==> Explained(cfg.rules, s.h, ack)
    ensures SharedSound(cfg.rules, s')
  {
    hide Inv, MapSound, Replay, Journal;
    SharedOf(cfg, s);
    assert forall id :: OpsOf(s'.h, id) == OpsOf(s.h, id);
    forall ack | ack in s'.h.acks
      ensures Explained(cfg.rules, s'.h, ack)
    {
      ExplanationLasts(cfg.rules, s.h, s'.h, ack);
    }
    forall id | id in s'.tables.sessions
      ensures RowExplained(cfg.rules, s'.tables, s'.h, id)
    {
      assert RowExplained(cfg.rules, s.tables, s.h, id);
    }
  }

  /** The response to a committed operation. */
  function ReplyAck(s: State, t: Tid): Ack
    requires t in s.threads && s.threads[t].pc.Reply?
  {
    var n := |OpsOf(s.h, s.threads[t].id)|;
    Ack(s.threads[t].id, s.threads[t].since, if n == 0 then 0 else n - 1, s.threads[t].pc.answer)
  }

  lemma {:induction false} ReplyIsExplained(cfg: Config, s: State, t: Tid)
    requires Inv(cfg, s) && t in s.threads && s.threads[t].pc.Reply?
    ensures Explained(cfg.rules, s.h, ReplyAck(s, t))
  {
    hide Inv, Replay;
    HolderIsLocked(cfg, s, t);
  }

  function Settling(s: State, t: Tid): State
    requires t in s.threads && s.threads[t].pc.Reply?
  {
    var id := s.threads[t].id;
    Unlock(s.(h := s.h.(settled := s.h.settled[id := |OpsOf(s.h, id)|])), s.threads[t].pc.r)
  }

  /** What settling does to the counts, and what remains committed. */
  lemma {:induction false} SettleFacts(cfg: Config, s: State, t: Tid, s': State)
    requires Inv(cfg, s) && t in s.threads && s.threads[t].pc.Reply?
    requires s'.m == s.m && s'.tables == s.tables && s'.locks == Settling(s, t).locks
    requires s'.h == Settling(s, t).h.(acks := s'.h.acks)
    ensures Evolves(s, s', s.threads[t]) && Settled(s', s.threads[t].id)
    ensures var r := s.threads[t].pc.r; r < |s.m.heap| && EntryCommitted(cfg.rules, s', r)
    ensures forall id :: OpsOf(s'.h, id) == OpsOf(s.h, id)
    ensures s.threads[t].pc.r in s.locks
  {
    hide Inv, Replay, MapSound, Explained, Evolves;
    var thread := s.threads[t];
    HeldIsCommitted(cfg, s, t, thread.pc.r);
    HolderIsLocked(cfg, s, t);
    assert forall id :: id != thread.id ==> SettledOf(s'.h, id) == SettledOf(s.h, id);
    SettleEvolves(s, s', thread);
  }

  lemma {:induction false} ChatReplyIsSound(cfg: Config, s: State, t: Tid)
    requires Inv(cfg, s) && t in s.threads && s.threads[t].pc.Reply? && s.threads[t].pc.action.Chat?
    ensures StepSound(cfg, s, Go(Settling(s, t), t, GivePermit(Some(ReplyAck(s, t)))), t)
  {
    hide Inv, SharedSound, Evolves, MapSound, Replay, Explained, EntryCommitted, Settled, OpsOf, ThreadSound,
         Disciplined;
    var next := GivePermit(Some(ReplyAck(s, t)));
    var s' := Go(Settling(s, t), t, next);
    SettleFacts(cfg, s, t, s');
    HolderIsLocked(cfg, s, t);
    ReplyIsExplained(cfg, s, t);
    AckIsKnown(cfg.rules, s, s', s.threads[t], ReplyAck(s, t));
    ReplyIsDisciplined(s, t);
    SettleKeepsShared(cfg, s, s', []);
    GoMoves(s, Settling(s, t), t, next);
  }

  lemma {:induction false} AckIsKnown(rules: Rules, s: State, s': State, thread: Thread, ack: Ack)
    requires ThreadSound(rules, s, thread) && thread.pc.Reply? && Explained(rules, s.h, ack)
    requires forall id :: OpsOf(s'.h, id) == OpsOf(s.h, id)
    ensures ThreadSound(rules, s', thread.(pc := GivePermit(Some(ack))))
  {
    hide Explained, ReplySound, OpsOf;
    SameHistoryExplains(rules, s.h, s'.h, ack);
  }

  lemma {:induction false} ReplyIsDisciplined(s: State, t: Tid)
    requires t in s.threads && s.threads[t].pc.Reply? && s.threads[t].pc.action.Chat?
    ensures Disciplined(s, Go(Settling(s, t), t, GivePermit(Some(ReplyAck(s, t)))), t)
  {
    hide OpsOf;
  }

  lemma {:induction false} ResetReplyIsSound(cfg: Config, s: State, t: Tid)
    requires Inv(cfg, s) && t in s.threads && s.threads[t].pc.Reply? && !s.threads[t].pc.action.Chat?
    ensures StepSound(cfg, s, Finish(Acknowledge(Settling(s, t), ReplyAck(s, t)), t), t)
  {
    hide Inv, SharedSound, Evolves, MapSound, Replay, Explained, EntryCommitted, Settled, OpsOf;
    var s' := Finish(Acknowledge(Settling(s, t), ReplyAck(s, t)), t);
    SettleFacts(cfg, s, t, s');
    ReplyIsExplained(cfg, s, t);
    SettleKeepsShared(cfg, s, s', [ReplyAck(s, t)]);
    FinishMoves(s, Acknowledge(Settling(s, t), ReplyAck(s, t)), t);
  }

  lemma {:induction false} ReplyIsSound(cfg: Config, s: State, t: Tid, c: Choice, s': State)
    requires Inv(cfg, s) && t in s.threads && s.threads[t].pc.Reply?
    requires StepCommit(cfg, s, t, c) == Some(s')
    ensures StepSound(cfg, s, s', t)
  {
    hide Inv, StepSound, StepBegin;
    if s.threads[t].pc.action.Chat? {
      ChatReplyIsSound(cfg, s, t);
    } else {
      ResetReplyIsSound(cfg, s, t);
    }
  }

  lemma {:induction false} SameHistoryExplains(rules: Rules, h: Chronicle, h': Chronicle, ack: Ack)
    requires Explained(rules, h, ack) && OpsOf(h', ack.id) == OpsOf(h, ack.id)
    ensures Explained(rules, h', ack)
  {
  }

  // ----- delete_session ------------------------------------------------------------------------

  lemma {:induction false} EraseIsSound(cfg: Config, s: State, t: Tid, c: Choice, s': State)
    requires Inv(cfg, s) && t in s.threads && s.threads[t].pc.Erase?
    requires StepDelete(s, t, c) == Some(s')
    ensures StepSound(cfg, s, s', t)
  {
    hide Inv, StepSound, MapSound;
    var thread := s.threads[t];
    var r := thread.pc.r;
    if c.fault || thread.id !in s.tables.sessions {
      MapOf(cfg, s);
      HolderIsLocked(cfg, s, t);
      MapMove(cfg, s, Unlock(s, r), t, None);
    } else {
      ErasureIsSound(cfg, s, t);
    }
  }

  lemma {:induction false} ErasureInformsMover(cfg: Config, s: State, t: Tid, s': State)
    requires Inv(cfg, s) && t in s.threads && s.threads[t].pc.Erase?
    requires var thread := s.threads[t];
      && thread.id in s.tables.sessions
      && s' == Go(s.(tables := DeleteSession(s.tables, thread.id)), t, UnmapErased(thread.pc.r))
    ensures ThreadSound(cfg.rules, s', s'.threads[t])
    ensures s.threads[t].pc.r < |s.m.heap| && EntryCommitted(cfg.rules, s', s.threads[t].pc.r)
    ensures s.threads[t].id in s.m.sessions ==> RowPresent(s', s.threads[t].id)
  {
    hide Inv, Replay, Condemned;
    var thread := s.threads[t];
    HolderIsLocked(cfg, s, t);
    HeldIsCommitted(cfg, s, t, thread.pc.r);
    if thread.id in s.m.sessions {
      MappedIsUnique(cfg, s, thread.id, thread.pc.r);
    }
    RowIsBorn(cfg, s, thread.id);
    assert Condemning(thread.id, s'.threads[t].pc) == Condemning(thread.id, thread.pc) == [];
  }

  lemma {:induction false} ErasureIsSound(cfg: Config, s: State, t: Tid)
    requires Inv(cfg, s) && t in s.threads && s.threads[t].pc.Erase?
    requires s.threads[t].id in s.tables.sessions
    ensures StepSound(cfg, s, Go(s.(tables := DeleteSession(s.tables, s.threads[t].id)), t,
                                 UnmapErased(s.threads[t].pc.r)), t)
  {
    hide Inv, SharedSound, Evolves, ThreadSound, EntryCommitted, RowPresent;
    var thread := s.threads[t];
    var base := s.(tables := DeleteSession(s.tables, thread.id));
    var s' := Go(base, t, UnmapErased(thread.pc.r));
    HolderIsLocked(cfg, s, t);
    ErasureInformsMover(cfg, s, t, s');
    GoMoves(s, base, t, UnmapErased(thread.pc.r));
    DeleteEvolves(s, s', thread, thread.id);
    DeleteKeepsShared(cfg, s, s', thread.id);
  }

  lemma {:induction false} RowIsBorn(cfg: Config, s: State, id: SessionId)
    requires Inv(cfg, s) && id in s.tables.sessions
    ensures id in s.h.born
  {
    assert RowExplained(cfg.rules, s.tables, s.h, id);
  }

  lemma {:induction false} MappedIsUnique(cfg: Config, s: State, id: SessionId, r: Ref)
    requires Inv(cfg, s) && id in s.m.sessions && r < |s.m.heap| && s.m.heap[r].id == id
    ensures s.m.sessions[id] == r
  {
    MappedIsSound(cfg, s, id);
  }

  lemma {:induction false} UnmappingIsSound(cfg: Config, s: State, t: Tid)
    requires Inv(cfg, s) && t in s.threads && s.threads[t].pc.UnmapErased?
    requires s.threads[t].id in s.m.sessions
    ensures var id, r := s.threads[t].id, s.threads[t].pc.r;
      StepSound(cfg, s, Go(s.(m := Unmap(s.m, id)), t, MarkErased(r, s.m.sessions[id])), t)
  {
    hide Inv, StepSound, MapSound, BenignChange, ThreadSound, Condemned, Unmap;
    var thread := s.threads[t];
    var id, r := thread.id, thread.pc.r;
    var next := MarkErased(r, s.m.sessions[id]);
    var m := Unmap(s.m, id);
    HolderIsLocked(cfg, s, t);
    MapOf(cfg, s);
    MappedIsSound(cfg, s, id);
    PointersOf(s, cfg, t);
    assert r in Pointers(thread.pc);
    MappedIsUnique(cfg, s, id, r);
    UnmapIsBenign(s.m, s.h.used, id);
    BenignKeepsThread(cfg.rules, s, s.(m := m), thread);
    HeapIsKept(s.m, m);
    ErasedKnows(cfg.rules, s.(m := m), thread, next);
    MapGo(cfg, s, m, t, next);
  }

  lemma {:induction false} HeapIsKept(m: Manager, m': Manager)
    requires BenignChange(m, m')
    ensures |m'.heap| == |m.heap| && forall r | 0 <= r < |m.heap| :: m'.heap[r].id == m.heap[r].id
  {
  }

  lemma {:induction false} UnmapErasedIsSound(cfg: Config, s: State, t: Tid, c: Choice, s': State)
    requires Inv(cfg, s) && t in s.threads && s.threads[t].pc.UnmapErased?
    requires StepDelete(s, t, c) == Some(s')
    ensures StepSound(cfg, s, s', t)
  {
    hide Inv, StepSound, MapSound;
    if s.threads[t].id in s.m.sessions {
      UnmappingIsSound(cfg, s, t);
    } else {
      NothingToUnmap(cfg, s, t);
    }
  }

  lemma {:induction false} NothingToUnmap(cfg: Config, s: State, t: Tid)
    requires Inv(cfg, s) && t in s.threads && s.threads[t].pc.UnmapErased?
    requires s.threads[t].id !in s.m.sessions
    ensures StepSound(cfg, s, Go(s, t, Confirm(s.threads[t].pc.r)), t)
  {
    hide Inv, StepSound, MapSound, OperationSound, CreationSound, DeletionSound;
    var thread := s.threads[t];
    HolderIsLocked(cfg, s, t);
    assert thread.pc.r in Pointers(thread.pc);
    ErasedKnows(cfg.rules, s, thread, Confirm(thread.pc.r));
    QuietGo(cfg, s, t, Confirm(thread.pc.r));
  }

  lemma {:induction false} MarkErasedIsSound(cfg: Config, s: State, t: Tid, c: Choice, s': State)
    requires Inv(cfg, s) && t in s.threads && s.threads[t].pc.MarkErased?
    requires StepDelete(s, t, c) == Some(s')
    ensures StepSound(cfg, s, s', t)
  {
    hide Inv, StepSound, MapSound, BenignChange, OperationSound, Condemned, MarkDeleted, CreationSound;
    var thread := s.threads[t];
    var pc := thread.pc;
    var m := MarkDeleted(s.m, pc.mapped);
    HolderIsLocked(cfg, s, t);
    MapOf(cfg, s);
    assert pc.mapped in Pointers(pc) && pc.r in Pointers(pc);
    MarkIsBenign(s.m, s.h.used, pc.mapped);
    BenignKeepsThread(cfg.rules, s, s.(m := m), thread);
    ErasedKnows(cfg.rules, s.(m := m), thread, Confirm(pc.r));
    MapGo(cfg, s, m, t, Confirm(pc.r));
  }

  /** After the erasure a delete knows that row and entry are gone, and where the entry was. */
  lemma {:induction false} ErasedKnows(rules: Rules, s: State, thread: Thread, pc: Pc)
    requires ThreadSound(rules, s, thread)
    requires (thread.pc.UnmapErased? && thread.id !in s.m.sessions) || thread.pc.MarkErased?
    requires pc.MarkErased? || pc.Confirm?
    requires forall r | r in Pointers(pc) :: r < |s.m.heap| && s.m.heap[r].id == thread.id
    ensures ThreadSound(rules, s, thread.(pc := pc))
  {
    hide OperationSound;
    PlainOperation(rules, s, thread, s, pc);
  }

  lemma {:induction false} ConfirmKeepsShared(cfg: Config, s: State, s': State, id: SessionId)
    requires Inv(cfg, s) && s'.m == s.m && s'.tables == s.tables
    requires s'.h == s.h.(gone := s.h.gone + {id})
    requires id in s.h.born && id !in s.m.sessions && id !in s.tables.sessions
    ensures SharedSound(cfg.rules, s')
  {
    hide Inv, MapSound, Replay, Journal;
    SharedOf(cfg, s);
    assert forall other :: OpsOf(s'.h, other) == OpsOf(s.h, other);
    forall ack | ack in s'.h.acks
      ensures Explained(cfg.rules, s'.h, ack)
    {
      SameHistoryExplains(cfg.rules, s.h, s'.h, ack);
    }
    forall other | other in s'.tables.sessions
      ensures RowExplained(cfg.rules, s'.tables, s'.h, other)
    {
      assert RowExplained(cfg.rules, s.tables, s.h, other);
    }
  }

  lemma {:induction false} ConfirmIsSound(cfg: Config, s: State, t: Tid, c: Choice, s': State)
    requires Inv(cfg, s) && t in s.threads && s.threads[t].pc.Confirm?
    requires StepDelete(s, t, c) == Some(s')
    ensures StepSound(cfg, s, s', t)
  {
    hide Inv, SharedSound, Replay, MapSound;
    var thread := s.threads[t];
    var base := Unlock(s.(h := s.h.(gone := s.h.gone + {thread.id})), thread.pc.r);
    HolderIsLocked(cfg, s, t);
    HeldIsCommitted(cfg, s, t, thread.pc.r);
    FinishMoves(s, base, t);
    assert forall id :: OpsOf(s'.h, id) == OpsOf(s.h, id) && SettledOf(s'.h, id) == SettledOf(s.h, id);
    ConfirmKeepsShared(cfg, s, s', thread.id);
  }

  // ----- readiness -----------------------------------------------------------------------------

  lemma {:induction false} SweepIsSound(cfg: Config, s: State, t: Tid, c: Choice, s': State)
    requires Inv(cfg, s) && t in s.threads && s.threads[t].pc.Sweep?
    requires StepSweep(cfg, s, t, c) == Some(s')
    ensures StepSound(cfg, s, s', t)
  {
    hide Inv, StepSound, MapSound, Sweeps, Evict;
    var thread := s.threads[t];
    var pc := thread.pc;
    HolderIsLocked(cfg, s, t);
    if pc.todo == [] {
      SweepUnlocks(cfg, s, t);
    } else if Sweeps(cfg.ttlMs, s.m, pc.todo[0], pc.now) {
      SweepEvicts(cfg, s, t);
    } else {
      PlainMove(cfg, s, t, Some(Sweep(pc.now, pc.todo[1..], pc.dead)));
    }
  }

  lemma {:induction false} SweepUnlocks(cfg: Config, s: State, t: Tid)
    requires Inv(cfg, s) && t in s.threads && s.threads[t].pc.Sweep?
    ensures StepSound(cfg, s, Go(s.(writer := None), t, Extend(s.threads[t].pc.dead)), t)
  {
    hide Inv, StepSound, MapSound, Disciplined;
    var pc := s.threads[t].pc;
    MapOf(cfg, s);
    HolderIsLocked(cfg, s, t);
    WriterDisciplined(s, s.m, None, t, Extend(pc.dead));
    MapMove(cfg, s, s.(m := s.m, writer := None), t, Some(Extend(pc.dead)));
  }

  lemma {:induction false} SweptIsMapped(ttlMs: u64, m: Manager, id: SessionId, now: u64)
    requires Sweeps(ttlMs, m, id, now)
    ensures id in m.sessions
  {
  }

  lemma {:induction false} SweptAreCondemned(cfg: Config, s: State, t: Tid)
    requires Inv(cfg, s) && t in s.threads && s.threads[t].pc.Sweep?
    ensures Condemned(s.m, s.h.used, s.threads[t].pc.dead)
  {
    hide Inv, Condemned;
    HolderIsLocked(cfg, s, t);
  }

  lemma {:induction false} SweepKeepsWriter(cfg: Config, s: State, t: Tid, m: Manager, pc: Pc)
    requires Inv(cfg, s) && t in s.threads && s.threads[t].pc.Sweep? && pc.Sweep?
    ensures Disciplined(s, Move(s.(m := m), t, Some(pc)), t)
  {
    hide Inv, Disciplined;
    WriterDisciplined(s, m, s.writer, t, pc);
    assert s.(m := m, writer := s.writer) == s.(m := m);
  }

  lemma {:induction false} SweepEvicts(cfg: Config, s: State, t: Tid)
    requires Inv(cfg, s) && t in s.threads && s.threads[t].pc.Sweep? && s.threads[t].pc.todo != []
    requires Sweeps(cfg.ttlMs, s.m, s.threads[t].pc.todo[0], s.threads[t].pc.now)
    ensures var pc := s.threads[t].pc;
      StepSound(cfg, s, Go(s.(m := Evict(s.m, pc.todo[0])), t,
                           Sweep(pc.now, pc.todo[1..], pc.dead + [pc.todo[0]])), t)
  {
    hide Inv, StepSound, MapSound, Evict, BenignChange, Sweeps, Disciplined;
    var thread := s.threads[t];
    var pc := thread.pc;
    var id := pc.todo[0];
    assert id in s.m.sessions by {
      SweptIsMapped(cfg.ttlMs, s.m, id, pc.now);
    }
    MapOf(cfg, s);
    SweptAreCondemned(cfg, s, t);
    MappedIsSound(cfg, s, id);
    EvictIsBenign(s.m, s.h.used, id);
    SweepKeepsWriter(cfg, s, t, Evict(s.m, id), Sweep(pc.now, pc.todo[1..], pc.dead + [id]));
    MapMove(cfg, s, s.(m := Evict(s.m, id)), t,
            Some(Sweep(pc.now, pc.todo[1..], pc.dead + [id])));
  }

  lemma {:induction false} SweepLockIsSound(cfg: Config, s: State, t: Tid, c: Choice, s': State)
    requires Inv(cfg, s) && t in s.threads && s.threads[t].pc.SweepLock?
    requires StepSweep(cfg, s, t, c) == Some(s')
    ensures StepSound(cfg, s, s', t)
  {
    hide Inv, StepSound, MapSound, Enumerates;
    MapOf(cfg, s);
    MapMove(cfg, s, s.(writer := Some(t)), t, Some(Sweep(c.now, c.order, [])));
  }

  lemma {:induction false} ExtendIsSound(cfg: Config, s: State, t: Tid, c: Choice, s': State)
    requires Inv(cfg, s) && t in s.threads && s.threads[t].pc.Extend?
    requires StepSweep(cfg, s, t, c) == Some(s')
    ensures StepSound(cfg, s, s', t)
  {
    hide Inv, StepSound;
    var dead := s.threads[t].pc.dead;
    MapOf(cfg, s);
    HolderIsLocked(cfg, s, t);
    MapMove(cfg, s, s.(m := Enqueue(s.m, dead)), t, Some(Count));
  }

  lemma {:induction false} CountIsSound(cfg: Config, s: State, t: Tid, c: Choice, s': State)
    requires Inv(cfg, s) && t in s.threads && s.threads[t].pc.Count?
    requires StepSweep(cfg, s, t, c) == Some(s')
    ensures StepSound(cfg, s, s', t)
  {
    hide Inv, StepSound;
    PlainMove(cfg, s, t, Some(Drain(Readiness, None)));
  }

  // ----- every step ----------------------------------------------------------------------------

  lemma {:induction false} GetStepIsSound(cfg: Config, s: State, t: Tid, c: Choice, s': State)
    requires Inv(cfg, s) && t in s.threads && StepGet(cfg, s, t, c) == Some(s')
    ensures StepSound(cfg, s, s', t)
  {
    hide Inv, StepSound;
    match s.threads[t].pc {
      case GetRead(_) => GetReadIsSound(cfg, s, t, c, s');
      case GetFlag(_, _, _) => GetCheckIsSound(cfg, s, t, c, s');
      case GetAge(_, _, _) => GetCheckIsSound(cfg, s, t, c, s');
      case GetTouch(_, _, _) => GetTouchIsSound(cfg, s, t, c, s');
      case GetEvict(_, _) => GetEvictIsSound(cfg, s, t, c, s');
      case GetPush(_) => GetPushIsSound(cfg, s, t, c, s');
      case _ => assert false;
    }
  }

  lemma {:induction false} CreateStepIsSound(cfg: Config, s: State, t: Tid, c: Choice, s': State)
    requires Inv(cfg, s) && t in s.threads && StepCreate(s, t, c) == Some(s')
    ensures StepSound(cfg, s, s', t)
  {
    hide Inv, StepSound;
    match s.threads[t].pc {
      case LockSnapshot(_) => LockedReadIsSound(cfg, s, t, c, s');
      case LockMeasure(_, _) => LockedReadIsSound(cfg, s, t, c, s');
      case InsertRow(_, _) => InsertRowIsSound(cfg, s, t, c, s');
      case Withdraw => WithdrawIsSound(cfg, s, t, c, s');
      case MarkWithdrawn(_) => MarkWithdrawnIsSound(cfg, s, t, c, s');
      case _ => assert false;
    }
  }

  lemma {:induction false} CommitStepIsSound(cfg: Config, s: State, t: Tid, c: Choice, s': State)
    requires Inv(cfg, s) && t in s.threads && StepCommit(cfg, s, t, c) == Some(s')
    ensures StepSound(cfg, s, s', t)
  {
    hide Inv, StepSound, StepBegin;
    match s.threads[t].pc {
      case TakePermit(_, _) => TakePermitIsSound(cfg, s, t, c, s');
      case Lock(_, _) => LockIsSound(cfg, s, t, c, s');
      case Begin(_, _) => BeginIsSound(cfg, s, t, c, s');
      case Append(_, _, _, _, _, _, _) => AppendIsSound(cfg, s, t, c, s');
      case Undo(_, _, _) => UndoIsSound(cfg, s, t, c, s');
      case Reply(_, _, _) => ReplyIsSound(cfg, s, t, c, s');
      case GivePermit(_) => GivePermitIsSound(cfg, s, t, c, s');
      case _ => assert false;
    }
  }

  lemma {:induction false} DeleteStepIsSound(cfg: Config, s: State, t: Tid, c: Choice, s': State)
    requires Inv(cfg, s) && t in s.threads && StepDelete(s, t, c) == Some(s')
    ensures StepSound(cfg, s, s', t)
  {
    hide Inv, StepSound;
    match s.threads[t].pc {
      case Erase(_) => EraseIsSound(cfg, s, t, c, s');
      case UnmapErased(_) => UnmapErasedIsSound(cfg, s, t, c, s');
      case MarkErased(_, _) => MarkErasedIsSound(cfg, s, t, c, s');
      case Confirm(_) => ConfirmIsSound(cfg, s, t, c, s');
      case _ => assert false;
    }
  }

  /** Every step of every handler keeps the invariant. */
  lemma {:induction false} StepKeepsInvariant(cfg: Config, s: State, t: Tid, c: Choice, s': State)
    requires Inv(cfg, s) && t in s.threads && Step(cfg, s, t, c) == Some(s')
    ensures StepSound(cfg, s, s', t) && Inv(cfg, s')
  {
    hide Inv, StepSound, StepGet, StepPurge, StepCreate, StepDescribe, StepDelete, StepSweep,
      StepCommit;
    var pc := s.threads[t].pc;
    if pc.GetRead? || pc.GetFlag? || pc.GetAge? || pc.GetTouch? || pc.GetEvict? || pc.GetPush? {
      GetStepIsSound(cfg, s, t, c, s');
    } else if pc.Drain? {
      DrainIsSound(cfg, s, t, c, s');
    } else if pc.Purge? {
      PurgeIsSound(cfg, s, t, c, s');
    } else if pc.LockSnapshot? || pc.LockMeasure? || pc.InsertRow? || pc.Withdraw?
              || pc.MarkWithdrawn? {
      CreateStepIsSound(cfg, s, t, c, s');
    } else if pc.LockDescribe? {
      DescribeIsSound(cfg, s, t, s');
    } else if pc.Erase? || pc.UnmapErased? || pc.MarkErased? || pc.Confirm? {
      DeleteStepIsSound(cfg, s, t, c, s');
    } else if pc.Sweep? {
      SweepIsSound(cfg, s, t, c, s');
    } else if pc.SweepLock? {
      SweepLockIsSound(cfg, s, t, c, s');
    } else if pc.Extend? {
      ExtendIsSound(cfg, s, t, c, s');
    } else if pc.Count? {
      CountIsSound(cfg, s, t, c, s');
    } else {
      CommitStepIsSound(cfg, s, t, c, s');
    }
    SoundStepKeepsInvariant(cfg, s, s', t);
  }
}
