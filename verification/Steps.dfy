/** Each kind of step is sound, so every step keeps the invariant. */
module Steps {
  import opened Text
  import opened Conversation
  import opened History
  import opened Store
  import opened Sessions
  import opened Server
  import opened Invariant
  import opened Preservation

  lemma {:induction false} GoMoves(s: State, base: State, t: Tid, pc: Pc)
    requires t in s.threads && base.threads == s.threads
    requires Creating(pc) ==> Creating(s.threads[t].pc)
    ensures OnlyMoves(s, Go(base, t, pc), t)
  {
  }

  lemma {:induction false} FinishMoves(s: State, base: State, t: Tid)
    requires t in s.threads && base.threads == s.threads
    ensures OnlyMoves(s, Finish(base, t), t)
  {
  }

  /** The session of a thread stays settled when nothing is committed. */
  lemma {:induction false} OwnSettled(s: State, s': State, t: Tid)
    requires OnlyMoves(s, s', t) && Settled(s, s.threads[t].id)
    requires s'.h.ops == s.h.ops && s'.h.settled == s.h.settled && !s.threads[t].pc.Reply?
    ensures Settled(s', s.threads[t].id)
  {
    var id := s.threads[t].id;
    if |OpsOf(s.h, id)| == SettledOf(s.h, id) + 1 {
      var u :| u in s.threads && s.threads[u].id == id && s.threads[u].pc.Reply?;
      assert u != t && u in s'.threads && s'.threads[u] == s.threads[u];
    }
  }

  // ----- benign steps --------------------------------------------------------------------------

  /** Access times, flags and queues may change and sessions may leave the map; states stay. */
  ghost predicate BenignChange(m: Manager, m': Manager) {
    && |m'.heap| == |m.heap|
    && (forall r :: 0 <= r < |m.heap| ==>
          m'.heap[r].id == m.heap[r].id && m'.heap[r].state == m.heap[r].state)
    && (forall id :: id in m'.sessions ==> id in m.sessions && m'.sessions[id] == m.sessions[id])
  }

  /** A step that leaves the tables, the history and every entry's state alone. */
  ghost predicate Benign(cfg: Config, s: State, s': State, t: Tid) {
    && OnlyMoves(s, s', t) && Disciplined(s, s', t)
    && s'.tables == s.tables && s'.h == s.h && BenignChange(s.m, s'.m)
    && MapSound(s'.m, s'.h.used) && Condemned(s'.m, s'.h.used, s'.m.expired)
    && (t in s'.threads ==> ThreadSound(cfg.rules, s', s'.threads[t]))
    && !s.threads[t].pc.Reply?
    && (s.threads[t].pc.UnmapErased? ==> s.threads[t].id !in s'.m.sessions)
    && (Dirty(s.threads[t].pc) ==>
          t in s'.threads && Dirty(s'.threads[t].pc)
          && Held(s'.threads[t].pc) == Held(s.threads[t].pc))
    && (HeldAfter(s', t).Some? && HeldAfter(s', t).value !in s.locks ==>
          !Dirty(s'.threads[t].pc))
  }

  lemma {:induction false} BenignEvolves(s: State, s': State, mover: Thread)
    requires s'.tables == s.tables && s'.h == s.h && BenignChange(s.m, s'.m)
    ensures Evolves(s, s', mover)
  {
  }

  lemma {:induction false} BenignShared(cfg: Config, s: State, s': State)
    requires Inv(cfg, s)
    requires s'.tables == s.tables && s'.h == s.h && BenignChange(s.m, s'.m)
    requires MapSound(s'.m, s'.h.used) && Condemned(s'.m, s'.h.used, s'.m.expired)
    ensures SharedSound(cfg.rules, s')
  {
  }

  lemma {:induction false} OwnEntryCommitted(cfg: Config, s: State, s': State, t: Tid, r: Ref)
    requires LocksSound(s.locks, s.threads) && Benign(cfg, s, s', t)
    requires Held(s.threads[t].pc) == Some(r) && r < |s.m.heap|
    requires EntryCommitted(cfg.rules, s, r)
    ensures EntryCommitted(cfg.rules, s', r)
  {
    assert s.locks[r] == t;
  }

  lemma {:induction false} OwnRowPresent(s: State, s': State, t: Tid)
    requires LocksSound(s.locks, s.threads) && OnlyMoves(s, s', t) && MapSound(s.m, s.h.used)
    requires BenignChange(s.m, s'.m) && s'.tables == s.tables && s'.h == s.h
    requires PointersSound(s.m, s.threads[t]) && s.threads[t].pc.Erase?
    requires s.threads[t].id in s'.m.sessions && RowPresent(s, s.threads[t].id)
    ensures RowPresent(s', s.threads[t].id)
  {
    var mover := s.threads[t];
    var r, mapped := mover.pc.r, s.m.sessions[mover.id];
    assert r in Pointers(mover.pc) && Held(mover.pc) == Some(r);
    assert s.m.heap[r].id == s.m.heap[mapped].id;
    assert r == mapped && s.locks[r] == t;
  }

  lemma {:induction false} BenignStep(cfg: Config, s: State, s': State, t: Tid)
    requires Inv(cfg, s) && Benign(cfg, s, s', t)
    ensures StepSound(cfg, s, s', t)
  {
    hide TablesSound, HistorySound, Explained, CreationSound, DeletionSound, OperationSound, SharedSound, Evolves;
    var mover := s.threads[t];
    BenignEvolves(s, s', mover);
    BenignShared(cfg, s, s');
    assert Settled(s, mover.id);
    OwnSettled(s, s', t);
    if Held(mover.pc).Some? && Held(mover.pc).value < |s.m.heap| {
      assert EntryCommitted(cfg.rules, s, Held(mover.pc).value);
      OwnEntryCommitted(cfg, s, s', t, Held(mover.pc).value);
    }
    if mover.pc.Erase? && mover.id in s'.m.sessions {
      assert ThreadSound(cfg.rules, s, mover) && RowPresent(s, mover.id);
      OwnRowPresent(s, s', t);
    }
  }

  // ----- moving a program counter --------------------------------------------------------------

  predicate SameHoldings(before: Pc, pc: Pc) {
    && Held(pc) == Held(before)
    && HoldsWriter(pc) == HoldsWriter(before)
    && HoldsPermit(pc) == HoldsPermit(before)
  }

  lemma {:induction false} GoDisciplined(s: State, t: Tid, pc: Pc)
    requires t in s.threads && SameHoldings(s.threads[t].pc, pc)
    ensures Disciplined(s, Go(s, t, pc), t)
  {
  }

  lemma {:induction false} FinishDisciplined(s: State, t: Tid)
    requires t in s.threads && Held(s.threads[t].pc).None?
    requires !HoldsWriter(s.threads[t].pc) && !HoldsPermit(s.threads[t].pc)
    ensures Disciplined(s, Finish(s, t), t)
  {
  }

  /** A thread moves on without touching anything shared. */
  lemma {:induction false} QuietGo(cfg: Config, s: State, t: Tid, pc: Pc)
    requires Inv(cfg, s) && t in s.threads && !s.threads[t].pc.Reply?
    requires SameHoldings(s.threads[t].pc, pc)
    requires Creating(pc) ==> Creating(s.threads[t].pc)
    requires Dirty(s.threads[t].pc) ==> Dirty(pc)
    requires s.threads[t].pc.UnmapErased? ==> s.threads[t].id !in s.m.sessions
    requires ThreadSound(cfg.rules, s, s.threads[t].(pc := pc))
    ensures StepSound(cfg, s, Go(s, t, pc), t)
  {
    var s' := Go(s, t, pc);
    GoMoves(s, s, t, pc);
    GoDisciplined(s, t, pc);
    HolderIsLocked(cfg, s, t);
    BenignStep(cfg, s, s', t);
  }

  lemma {:induction false} HolderIsLocked(cfg: Config, s: State, t: Tid)
    requires Inv(cfg, s) && t in s.threads
    ensures Held(s.threads[t].pc).Some? ==>
              Held(s.threads[t].pc).value in s.locks && s.locks[Held(s.threads[t].pc).value] == t
    ensures ThreadSound(cfg.rules, s, s.threads[t])
  {
  }

  lemma {:induction false} MappedIsSound(cfg: Config, s: State, id: SessionId)
    requires Inv(cfg, s) && id in s.m.sessions
    ensures s.m.sessions[id] < |s.m.heap| && s.m.heap[s.m.sessions[id]].id == id
    ensures id in s.h.used
  {
  }

  /** A thread that holds nothing ends. */
  lemma {:induction false} QuietFinish(cfg: Config, s: State, t: Tid)
    requires Inv(cfg, s) && t in s.threads && !s.threads[t].pc.Reply?
    requires Held(s.threads[t].pc).None? && !HoldsWriter(s.threads[t].pc)
    requires !HoldsPermit(s.threads[t].pc)
    ensures StepSound(cfg, s, Finish(s, t), t)
  {
    FinishMoves(s, s, t);
    FinishDisciplined(s, t);
    BenignStep(cfg, s, Finish(s, t), t);
  }

  /** A program counter whose locals claim no more than where the pointers lead. */
  predicate Plain(pc: Pc) {
    && !pc.UnmapErased? && !pc.MarkErased? && !pc.Confirm? && !pc.MarkWithdrawn?
    && !Dirty(pc) && !pc.Reply? && !(pc.GivePermit? && pc.ack.Some?)
  }

  lemma {:induction false} Relabelled(rules: Rules, s: State, thread: Thread, pc: Pc)
    requires ThreadSound(rules, s, thread) && Plain(pc)
    requires PointersSound(s.m, thread.(pc := pc))
    requires Condemned(s.m, s.h.used, Condemning(thread.id, pc))
    requires Creating(pc) ==> Creating(thread.pc)
    requires SnapshotOf(pc).Some? ==>
               SnapshotOf(pc) == SnapshotOf(thread.pc) || SnapshotOf(pc).value == Fresh(thread.id)
    ensures ThreadSound(rules, s, thread.(pc := pc))
  {
  }

  /** A thread that holds nothing ends, or moves to a plain program counter. */
  ghost predicate MayMove(s: State, thread: Thread, next: Option<Pc>) {
    && Plain(thread.pc)
    && match next
       case None =>
         Held(thread.pc).None? && !HoldsWriter(thread.pc) && !HoldsPermit(thread.pc)
       case Some(pc) =>
         && SameHoldings(thread.pc, pc) && Plain(pc)
         && PointersSound(s.m, thread.(pc := pc))
         && Condemned(s.m, s.h.used, Condemning(thread.id, pc))
         && (Creating(pc) ==> Creating(thread.pc))
         && (SnapshotOf(pc).Some? ==>
               SnapshotOf(pc) == SnapshotOf(thread.pc)
               || SnapshotOf(pc).value == Fresh(thread.id))
  }

  lemma {:induction false} PlainMove(cfg: Config, s: State, t: Tid, next: Option<Pc>)
    requires Inv(cfg, s) && t in s.threads && MayMove(s, s.threads[t], next)
    ensures StepSound(cfg, s, Move(s, t, next), t)
  {
    if next.Some? {
      HolderIsLocked(cfg, s, t);
      Relabelled(cfg.rules, s, s.threads[t], next.value);
      QuietGo(cfg, s, t, next.value);
    } else {
      QuietFinish(cfg, s, t);
    }
  }

  // ----- SessionManager::get -------------------------------------------------------------------

  /** Whoever looked a session up may go on with what was found. */
  lemma {:induction false} CallerMayMove(s: State, thread: Thread, caller: Caller,
                                         found: Option<Ref>)
    requires CallerOf(thread.pc) == Some(caller) && !thread.pc.GetPush?
    requires found.Some? ==> found.value < |s.m.heap| && s.m.heap[found.value].id == thread.id
    ensures MayMove(s, thread, AfterGet(caller, found))
  {
  }

  lemma {:induction false} GetReadIsSound(cfg: Config, s: State, t: Tid, c: Choice, s': State)
    requires Inv(cfg, s) && t in s.threads && s.threads[t].pc.GetRead?
    requires StepGet(cfg, s, t, c) == Some(s')
    ensures StepSound(cfg, s, s', t)
  {
    hide Inv, StepSound;
    var thread := s.threads[t];
    var caller := thread.pc.caller;
    if thread.id in s.m.sessions {
      MappedIsSound(cfg, s, thread.id);
      PlainMove(cfg, s, t, Some(GetFlag(caller, c.now, s.m.sessions[thread.id])));
    } else {
      CallerMayMove(s, thread, caller, None);
      PlainMove(cfg, s, t, AfterGet(caller, None));
    }
  }

  lemma {:induction false} GetCheckIsSound(cfg: Config, s: State, t: Tid, c: Choice, s': State)
    requires Inv(cfg, s) && t in s.threads
    requires s.threads[t].pc.GetFlag? || s.threads[t].pc.GetAge?
    requires StepGet(cfg, s, t, c) == Some(s')
    ensures StepSound(cfg, s, s', t)
  {
    hide Inv, StepSound;
    var pc := s.threads[t].pc;
    HolderIsLocked(cfg, s, t);
    assert pc.r in Pointers(pc);
    PlainMove(cfg, s, t, Some(s'.threads[t].pc));
  }

  /** What a thread knows keeps true when entries' flags and access times change and sessions
      leave the map. */
  lemma {:induction false} BenignKeepsThread(rules: Rules, s: State, s': State, thread: Thread)
    requires ThreadSound(rules, s, thread) && BenignChange(s.m, s'.m)
    requires s'.tables == s.tables && s'.h == s.h
    ensures ThreadSound(rules, s', thread)
  {
    assert thread.pc.Append? ==> thread.pc.r in Pointers(thread.pc);
  }

  /** What a thread knows depends on the map, the tables and the history only. */
  lemma {:induction false} SameKnowledge(rules: Rules, s: State, s': State, thread: Thread)
    requires ThreadSound(rules, s, thread) && s'.m == s.m && s'.tables == s.tables && s'.h == s.h
    ensures ThreadSound(rules, s', thread)
  {
    hide PointersSound, CreationSound, DeletionSound, Condemned, DraftSound, ReplySound, Explained;
  }

  /** A step that changes the session map benignly and moves on to a program counter the thread has
      the knowledge for. */
  lemma {:induction false} MapGo(cfg: Config, s: State, m: Manager, t: Tid, pc: Pc)
    requires Inv(cfg, s) && t in s.threads && !s.threads[t].pc.Reply?
    requires BenignChange(s.m, m) && MapSound(m, s.h.used) && Condemned(m, s.h.used, m.expired)
    requires SameHoldings(s.threads[t].pc, pc) && (Creating(pc) ==> Creating(s.threads[t].pc))
    requires Dirty(s.threads[t].pc) ==> Dirty(pc)
    requires s.threads[t].pc.UnmapErased? ==> s.threads[t].id !in m.sessions
    requires ThreadSound(cfg.rules, s.(m := m), s.threads[t].(pc := pc))
    ensures StepSound(cfg, s, Go(s.(m := m), t, pc), t)
  {
    hide Inv, StepSound, ThreadSound, MapSound, BenignChange, Condemned;
    var s' := Go(s.(m := m), t, pc);
    HeldIsLocked(cfg, s, t);
    SameKnowledge(cfg.rules, s.(m := m), s', s.threads[t].(pc := pc));
    GoMoves(s, s.(m := m), t, pc);
    BenignStep(cfg, s, s', t);
  }

  lemma {:induction false} HeldIsLocked(cfg: Config, s: State, t: Tid)
    requires Inv(cfg, s) && t in s.threads
    ensures Held(s.threads[t].pc).Some? ==>
              Held(s.threads[t].pc).value in s.locks && s.locks[Held(s.threads[t].pc).value] == t
  {
    hide Inv, ThreadSound;
    HolderIsLocked(cfg, s, t);
  }

  /** The write lock is taken, kept or released as the program counter says. */
  lemma {:induction false} WriterDisciplined(s: State, m: Manager, writer: Option<Tid>, t: Tid, pc: Pc)
    requires t in s.threads
    requires Held(s.threads[t].pc) == Held(pc) && HoldsPermit(s.threads[t].pc) == HoldsPermit(pc)
    requires if HoldsWriter(s.threads[t].pc) == HoldsWriter(pc) then writer == s.writer
             else if HoldsWriter(pc) then s.writer.None? && writer == Some(t)
             else writer.None?
    ensures Disciplined(s, Move(s.(m := m, writer := writer), t, Some(pc)), t)
  {
  }

  /** A plain step that also changes the session map benignly. */
  lemma {:induction false} MapMove(cfg: Config, s: State, base: State, t: Tid, next: Option<Pc>)
    requires Inv(cfg, s) && t in s.threads && base.threads == s.threads
    requires base.tables == s.tables && base.h == s.h && BenignChange(s.m, base.m)
    requires MapSound(base.m, s.h.used) && Condemned(base.m, s.h.used, base.m.expired)
    requires Plain(s.threads[t].pc) && Disciplined(s, Move(base, t, next), t)
    requires next.Some? ==>
               && Plain(next.value)
               && PointersSound(base.m, s.threads[t].(pc := next.value))
               && Condemned(base.m, s.h.used, Condemning(s.threads[t].id, next.value))
               && (Creating(next.value) ==> Creating(s.threads[t].pc))
               && (SnapshotOf(next.value).Some? ==>
                     || SnapshotOf(next.value) == SnapshotOf(s.threads[t].pc)
                     || SnapshotOf(next.value).value == Fresh(s.threads[t].id))
    ensures StepSound(cfg, s, Move(base, t, next), t)
  {
    hide Inv, StepSound;
    var s', thread := Move(base, t, next), s.threads[t];
    HolderIsLocked(cfg, s, t);
    if next.Some? {
      GoMoves(s, base, t, next.value);
      BenignKeepsThread(cfg.rules, s, s', thread);
      Relabelled(cfg.rules, s', thread, next.value);
    } else {
      FinishMoves(s, base, t);
    }
    BenignStep(cfg, s, s', t);
  }

  lemma {:induction false} SharedOf(cfg: Config, s: State)
    requires Inv(cfg, s)
    ensures SharedSound(cfg.rules, s) && LocksSound(s.locks, s.threads)
    ensures WriterSound(s.writer, s.threads)
  {
  }

  lemma {:induction false} MapOf(cfg: Config, s: State)
    requires Inv(cfg, s)
    ensures MapSound(s.m, s.h.used) && Condemned(s.m, s.h.used, s.m.expired)
  {
  }

  lemma {:induction false} TouchIsBenign(m: Manager, used: set<SessionId>, r: Ref, now: u64)
    requires MapSound(m, used)
    ensures BenignChange(m, Touch(m, r, now)) && MapSound(Touch(m, r, now), used)
    ensures Touch(m, r, now).expired == m.expired && Touch(m, r, now).sessions == m.sessions
  {
  }

  lemma {:induction false} EvictIsBenign(m: Manager, used: set<SessionId>, id: SessionId)
    requires MapSound(m, used)
    ensures BenignChange(m, Evict(m, id)) && MapSound(Evict(m, id), used)
    ensures Evict(m, id).expired == m.expired && id !in Evict(m, id).sessions
  {
  }

  lemma {:induction false} UnmapIsBenign(m: Manager, used: set<SessionId>, id: SessionId)
    requires MapSound(m, used)
    ensures BenignChange(m, Unmap(m, id)) && MapSound(Unmap(m, id), used)
    ensures Unmap(m, id).expired == m.expired && id !in Unmap(m, id).sessions
    ensures Condemned(m, used, m.expired) ==> Condemned(Unmap(m, id), used, m.expired)
  {
  }

  /** Marking an entry that has left the map. */
  lemma {:induction false} MarkIsBenign(m: Manager, used: set<SessionId>, r: Ref)
    requires MapSound(m, used) && r < |m.heap| && m.heap[r].id !in m.sessions
    ensures BenignChange(m, MarkDeleted(m, r)) && MapSound(MarkDeleted(m, r), used)
    ensures MarkDeleted(m, r).expired == m.expired && MarkDeleted(m, r).sessions == m.sessions
    ensures Condemned(m, used, m.expired) ==> Condemned(MarkDeleted(m, r), used, m.expired)
  {
  }

  lemma {:induction false} GetTouchIsSound(cfg: Config, s: State, t: Tid, c: Choice, s': State)
    requires Inv(cfg, s) && t in s.threads && s.threads[t].pc.GetTouch?
    requires StepGet(cfg, s, t, c) == Some(s')
    ensures StepSound(cfg, s, s', t)
  {
    hide Inv, StepSound, MapSound;
    var thread := s.threads[t];
    var r, next := thread.pc.r, AfterGet(thread.pc.caller, Some(thread.pc.r));
    MapOf(cfg, s);
    HolderIsLocked(cfg, s, t);
    assert r in Pointers(thread.pc);
    TouchIsBenign(s.m, s.h.used, r, thread.pc.now);
    var base := s.(m := Touch(s.m, r, thread.pc.now));
    CallerMayMove(base, thread, thread.pc.caller, Some(r));
    MapMove(cfg, s, base, t, next);
  }

  lemma {:induction false} EvictionIsSound(cfg: Config, s: State, t: Tid)
    requires Inv(cfg, s) && t in s.threads && s.threads[t].pc.GetEvict?
    requires s.writer.None? && s.threads[t].id in s.m.sessions
    ensures StepSound(cfg, s, Go(s.(m := Evict(s.m, s.threads[t].id), writer := Some(t)), t,
                                 GetPush(s.threads[t].pc.caller)), t)
  {
    hide Inv, StepSound, MapSound, Disciplined, BenignChange, Evict;
    var thread := s.threads[t];
    MapOf(cfg, s);
    MappedIsSound(cfg, s, thread.id);
    EvictIsBenign(s.m, s.h.used, thread.id);
    WriterDisciplined(s, Evict(s.m, thread.id), Some(t), t, GetPush(thread.pc.caller));
    MapMove(cfg, s, s.(m := Evict(s.m, thread.id), writer := Some(t)), t,
            Some(GetPush(thread.pc.caller)));
  }

  lemma {:induction false} GetEvictIsSound(cfg: Config, s: State, t: Tid, c: Choice, s': State)
    requires Inv(cfg, s) && t in s.threads && s.threads[t].pc.GetEvict?
    requires StepGet(cfg, s, t, c) == Some(s')
    ensures StepSound(cfg, s, s', t)
  {
    hide Inv, StepSound, Evict;
    var thread := s.threads[t];
    if thread.id in s.m.sessions && s.m.sessions[thread.id] == thread.pc.r {
      EvictionIsSound(cfg, s, t);
    } else {
      CallerMayMove(s, thread, thread.pc.caller, None);
      PlainMove(cfg, s, t, AfterGet(thread.pc.caller, None));
    }
  }

  lemma {:induction false} GetPushIsSound(cfg: Config, s: State, t: Tid, c: Choice, s': State)
    requires Inv(cfg, s) && t in s.threads && s.threads[t].pc.GetPush?
    requires StepGet(cfg, s, t, c) == Some(s')
    ensures StepSound(cfg, s, s', t)
  {
    hide Inv, StepSound;
    var thread := s.threads[t];
    MapOf(cfg, s);
    HolderIsLocked(cfg, s, t);
    assert thread.id in Condemning(thread.id, thread.pc);
    var base := s.(m := Enqueue(s.m, [thread.id]), writer := None);
    MapMove(cfg, s, base, t, AfterGet(thread.pc.caller, None));
  }

  // ----- AppState::purge_expired ---------------------------------------------------------------

  lemma {:induction false} DrainIsSound(cfg: Config, s: State, t: Tid, c: Choice, s': State)
    requires Inv(cfg, s) && t in s.threads && s.threads[t].pc.Drain?
    requires StepPurge(s, t, c) == Some(s')
    ensures StepSound(cfg, s, s', t)
  {
    hide Inv, StepSound;
    var thread := s.threads[t];
    MapOf(cfg, s);
    HolderIsLocked(cfg, s, t);
    MapMove(cfg, s, s.(m := Drained(s.m)), t,
            Some(Purge(thread.pc.goal, thread.pc.found, s.m.expired)));
  }

  lemma {:induction false} DeleteKeepsTables(rules: Rules, t: Tables, h: Chronicle,
                                             id: SessionId)
    requires TablesSound(rules, t, h)
    ensures TablesSound(rules, DeleteSession(t, id), h)
  {
    var t' := DeleteSession(t, id);
    CreateAndDeleteKeepValid(t, Fresh(id), 0, id);
    forall other | other in t'.sessions
      ensures RowExplained(rules, t', h, other)
    {
      assert RowExplained(rules, t, h, other);
    }
  }

  lemma {:induction false} DeleteEvolves(s: State, s': State, mover: Thread, id: SessionId)
    requires s'.m == s.m && s'.h == s.h && s'.tables == DeleteSession(s.tables, id)
    requires id !in s.m.sessions || (id == mover.id && mover.pc.Erase?)
    ensures Evolves(s, s', mover)
  {
  }

  lemma {:induction false} DeleteKeepsShared(cfg: Config, s: State, s': State, id: SessionId)
    requires Inv(cfg, s)
    requires s'.m == s.m && s'.h == s.h && s'.tables == DeleteSession(s.tables, id)
    ensures SharedSound(cfg.rules, s')
  {
    hide Inv, MapSound, TablesSound, HistorySound;
    SharedOf(cfg, s);
    DeleteKeepsTables(cfg.rules, s.tables, s.h, id);
  }

  /** A purge deletes the row of a condemned id, which no mapped session has. */
  lemma {:induction false} PurgeOneIsSound(cfg: Config, s: State, t: Tid)
    requires Inv(cfg, s) && t in s.threads && s.threads[t].pc.Purge? && s.threads[t].pc.ids != []
    ensures var pc := s.threads[t].pc;
      StepSound(cfg, s, Go(s.(tables := DeleteSession(s.tables, pc.ids[0])), t,
                           Purge(pc.goal, pc.found, pc.ids[1..])), t)
  {
    hide Inv, SharedSound, Evolves, ThreadSound, HistorySound;
    var thread := s.threads[t];
    var id, pc := thread.pc.ids[0], Purge(thread.pc.goal, thread.pc.found, thread.pc.ids[1..]);
    var base := s.(tables := DeleteSession(s.tables, id));
    PurgeMoves(cfg, s, t);
    GoMoves(s, base, t, pc);
    DeleteEvolves(s, Go(base, t, pc), thread, id);
    DeleteKeepsShared(cfg, s, Go(base, t, pc), id);
    BornAreUsed(cfg, s);
    ThreadSurvives(cfg.rules, s, Go(base, t, pc), thread, thread.(pc := pc));
  }

  lemma {:induction false} BornAreUsed(cfg: Config, s: State)
    requires Inv(cfg, s)
    ensures s.h.born <= s.h.used
  {
  }

  lemma {:induction false} PurgeMoves(cfg: Config, s: State, t: Tid)
    requires Inv(cfg, s) && t in s.threads && s.threads[t].pc.Purge? && s.threads[t].pc.ids != []
    ensures var pc := s.threads[t].pc;
      && pc.ids[0] !in s.m.sessions
      && ThreadSound(cfg.rules, s, s.threads[t].(pc := Purge(pc.goal, pc.found, pc.ids[1..])))
  {
    hide Inv;
    var thread := s.threads[t];
    var pc := Purge(thread.pc.goal, thread.pc.found, thread.pc.ids[1..]);
    HolderIsLocked(cfg, s, t);
    assert thread.pc.ids[0] in Condemning(thread.id, thread.pc);
    assert forall other :: other in pc.ids ==> other in thread.pc.ids;
    assert Pointers(pc) == Pointers(thread.pc);
    Relabelled(cfg.rules, s, thread, pc);
  }

  lemma {:induction false} AfterPurgeMayMove(s: State, thread: Thread)
    requires thread.pc.Purge? && PointersSound(s.m, thread)
    ensures MayMove(s, thread, AfterPurge(thread.pc.goal, thread.pc.found))
  {
    var found, next := thread.pc.found, AfterPurge(thread.pc.goal, thread.pc.found);
    assert found.Some? ==> found.value in Pointers(thread.pc);
  }

  lemma {:induction false} PurgeIsSound(cfg: Config, s: State, t: Tid, c: Choice, s': State)
    requires Inv(cfg, s) && t in s.threads && s.threads[t].pc.Purge?
    requires StepPurge(s, t, c) == Some(s')
    ensures StepSound(cfg, s, s', t)
  {
    hide Inv, StepSound, MayMove;
    var thread := s.threads[t];
    if thread.pc.ids == [] {
      HolderIsLocked(cfg, s, t);
      AfterPurgeMayMove(s, thread);
      PlainMove(cfg, s, t, AfterPurge(thread.pc.goal, thread.pc.found));
    } else if c.fault {
      QuietFinish(cfg, s, t);
    } else {
      PurgeOneIsSound(cfg, s, t);
    }
  }

  // ----- create_session ------------------------------------------------------------------------

  /** An entry whose lock is free holds a committed state. */
  lemma {:induction false} FreeMeansCommitted(cfg: Config, s: State, r: Ref)
    requires Inv(cfg, s) && r < |s.m.heap| && r !in s.locks
    ensures s.m.heap[r].state == Replay(cfg.rules, s.m.heap[r].id, OpsOf(s.h, s.m.heap[r].id))
  {
    assert EntryCommitted(cfg.rules, s, r);
  }

  lemma {:induction false} UnbornHasNoOps(cfg: Config, s: State, id: SessionId)
    requires Inv(cfg, s) && id !in s.h.born
    ensures OpsOf(s.h, id) == [] && id !in s.tables.sessions && EventsOf(s.tables, id) == []
    ensures id !in s.h.gone
  {
  }

  lemma {:induction false} LockedReadIsSound(cfg: Config, s: State, t: Tid, c: Choice, s': State)
    requires Inv(cfg, s) && t in s.threads
    requires s.threads[t].pc.LockSnapshot? || s.threads[t].pc.LockMeasure?
    requires StepCreate(s, t, c) == Some(s')
    ensures StepSound(cfg, s, s', t)
  {
    hide Inv, StepSound;
    var thread := s.threads[t];
    HolderIsLocked(cfg, s, t);
    assert thread.pc.r in Pointers(thread.pc);
    FreeMeansCommitted(cfg, s, thread.pc.r);
    UnbornHasNoOps(cfg, s, thread.id);
    PlainMove(cfg, s, t, Some(s'.threads[t].pc));
  }

  lemma {:induction false} BirthKeepsTables(rules: Rules, t: Tables, h: Chronicle, t': Tables,
                                            id: SessionId, createdAtMs: u64)
    requires TablesSound(rules, t, h) && id !in h.born && OpsOf(h, id) == []
    requires Store.CreateSession(t, Fresh(id), createdAtMs) == Success(t')
    ensures TablesSound(rules, t', h.(born := h.born + {id}))
  {
    var h' := h.(born := h.born + {id});
    CreateAndDeleteKeepValid(t, Fresh(id), createdAtMs, id);
    forall other | other in t'.sessions
      ensures RowExplained(rules, t', h', other)
    {
      assert OpsOf(h', other) == OpsOf(h, other);
      if other != id {
        assert RowExplained(rules, t, h, other);
      }
    }
  }

  lemma {:induction false} AcksStayExplained(rules: Rules, h: Chronicle, h': Chronicle)
    requires forall ack :: ack in h.acks ==> Explained(rules, h, ack)
    requires forall id :: OpsOf(h, id) <= OpsOf(h', id)
    ensures forall ack :: ack in h.acks ==> Explained(rules, h', ack)
  {
    forall ack | ack in h.acks
      ensures Explained(rules, h', ack)
    {
      ExplanationLasts(rules, h, h', ack);
    }
  }

  lemma {:induction false} BirthKeepsShared(cfg: Config, s: State, s': State, id: SessionId,
                                            createdAtMs: u64)
    requires Inv(cfg, s) && id in s.h.used && id !in s.h.born
    requires Store.CreateSession(s.tables, Fresh(id), createdAtMs) == Success(s'.tables)
    requires s'.m == s.m && s'.h == s.h.(born := s.h.born + {id})
    ensures SharedSound(cfg.rules, s')
  {
    hide Inv, MapSound, TablesSound;
    SharedOf(cfg, s);
    UnbornHasNoOps(cfg, s, id);
    BirthKeepsTables(cfg.rules, s.tables, s.h, s'.tables, id, createdAtMs);
    assert forall other :: OpsOf(s'.h, other) == OpsOf(s.h, other);
    AcksStayExplained(cfg.rules, s.h, s'.h);
  }

  lemma {:induction false} BirthIsSound(cfg: Config, s: State, t: Tid, t': Tables)
    requires Inv(cfg, s) && t in s.threads && s.threads[t].pc.InsertRow?
    requires Store.CreateSession(s.tables, s.threads[t].pc.snapshot, s.threads[t].pc.createdAtMs)
          == Success(t')
    ensures StepSound(cfg, s, Finish(
              s.(tables := t', h := s.h.(born := s.h.born + {s.threads[t].id})), t), t)
  {
    hide Inv, SharedSound;
    var thread := s.threads[t];
    var base := s.(tables := t', h := s.h.(born := s.h.born + {thread.id}));
    HolderIsLocked(cfg, s, t);
    FinishMoves(s, base, t);
    BirthKeepsShared(cfg, s, Finish(base, t), thread.id, thread.pc.createdAtMs);
  }

  lemma {:induction false} InsertRowIsSound(cfg: Config, s: State, t: Tid, c: Choice, s': State)
    requires Inv(cfg, s) && t in s.threads && s.threads[t].pc.InsertRow?
    requires StepCreate(s, t, c) == Some(s')
    ensures StepSound(cfg, s, s', t)
  {
    hide Inv, StepSound;
    var pc := s.threads[t].pc;
    var created := Store.CreateSession(s.tables, pc.snapshot, pc.createdAtMs);
    if c.fault || created.Failure? {
      HolderIsLocked(cfg, s, t);
      PlainMove(cfg, s, t, Some(Withdraw));
    } else {
      BirthIsSound(cfg, s, t, created.value);
    }
  }

  /** Program counters that carry no operation say nothing about one. */
  lemma {:induction false} PlainOperation(rules: Rules, s: State, thread: Thread, s': State, pc: Pc)
    requires OperationSound(rules, s, thread) && s'.m == s.m && s'.h == s.h
    requires !Dirty(pc) && !pc.Reply? && !pc.GivePermit?
    ensures OperationSound(rules, s', thread.(pc := pc))
  {
  }

  lemma {:induction false} WithdrawalIsSound(cfg: Config, s: State, t: Tid)
    requires Inv(cfg, s) && t in s.threads && s.threads[t].pc.Withdraw?
    requires s.threads[t].id in s.m.sessions
    ensures var id := s.threads[t].id;
      StepSound(cfg, s, Go(s.(m := Unmap(s.m, id)), t, MarkWithdrawn(s.m.sessions[id])), t)
  {
    hide Inv, StepSound, MapSound, BenignChange, ThreadSound, Unmap, Condemned;
    var thread := s.threads[t];
    var id := thread.id;
    var m := Unmap(s.m, id);
    MapOf(cfg, s);
    HolderIsLocked(cfg, s, t);
    MappedIsSound(cfg, s, id);
    UnmapIsBenign(s.m, s.h.used, id);
    BenignKeepsThread(cfg.rules, s, s.(m := m), thread);
    WithdrawnKnows(cfg.rules, s, m, thread, s.m.sessions[id]);
    MapGo(cfg, s, m, t, MarkWithdrawn(s.m.sessions[id]));
  }

  lemma {:induction false} WithdrawnKnows(rules: Rules, s: State, m: Manager, thread: Thread, r: Ref)
    requires ThreadSound(rules, s.(m := m), thread) && thread.pc.Withdraw?
    requires BenignChange(s.m, m) && thread.id !in m.sessions
    requires r < |s.m.heap| && s.m.heap[r].id == thread.id
    ensures ThreadSound(rules, s.(m := m), thread.(pc := MarkWithdrawn(r)))
  {
    hide OperationSound;
    PlainOperation(rules, s.(m := m), thread, s.(m := m), MarkWithdrawn(r));
  }

  lemma {:induction false} WithdrawIsSound(cfg: Config, s: State, t: Tid, c: Choice, s': State)
    requires Inv(cfg, s) && t in s.threads && s.threads[t].pc.Withdraw?
    requires StepCreate(s, t, c) == Some(s')
    ensures StepSound(cfg, s, s', t)
  {
    hide Inv, StepSound, Unmap;
    if s.threads[t].id in s.m.sessions {
      WithdrawalIsSound(cfg, s, t);
    } else {
      QuietFinish(cfg, s, t);
    }
  }

  lemma {:induction false} MarkWithdrawnIsSound(cfg: Config, s: State, t: Tid, c: Choice, s': State)
    requires Inv(cfg, s) && t in s.threads && s.threads[t].pc.MarkWithdrawn?
    requires StepCreate(s, t, c) == Some(s')
    ensures StepSound(cfg, s, s', t)
  {
    hide Inv, StepSound, MapSound;
    var r := s.threads[t].pc.r;
    MapOf(cfg, s);
    HolderIsLocked(cfg, s, t);
    assert r in Pointers(s.threads[t].pc);
    MarkIsBenign(s.m, s.h.used, r);
    FinishMoves(s, s.(m := MarkDeleted(s.m, r)), t);
    BenignStep(cfg, s, s', t);
  }

  // ----- responses -----------------------------------------------------------------------------

  lemma {:induction false} AckKeepsShared(cfg: Config, s: State, s': State, ack: Ack)
    requires Inv(cfg, s) && s'.m == s.m && s'.tables == s.tables
    requires s'.h == s.h.(acks := s.h.acks + [ack]) && Explained(cfg.rules, s.h, ack)
    ensures SharedSound(cfg.rules, s')
  {
    hide Inv, MapSound, Replay, Journal, Explained, Holds, Valid;
    SharedOf(cfg, s);
    forall other | other in s'.h.acks
      ensures Explained(cfg.rules, s'.h, other)
    {
      ExplanationLasts(cfg.rules, s.h, s'.h, other);
    }
    forall id | id in s'.tables.sessions
      ensures RowExplained(cfg.rules, s'.tables, s'.h, id)
    {
      assert RowExplained(cfg.rules, s.tables, s.h, id);
    }
    assert forall id :: OpsOf(s'.h, id) == OpsOf(s.h, id);
  }

  lemma {:induction false} AckEvolves(s: State, s': State, mover: Thread, acks: seq<Ack>)
    requires s'.m == s.m && s'.tables == s.tables && s'.h == s.h.(acks := acks)
    ensures Evolves(s, s', mover)
  {
  }

  lemma {:induction false} DescribeIsSound(cfg: Config, s: State, t: Tid, s': State)
    requires Inv(cfg, s) && t in s.threads && s.threads[t].pc.LockDescribe?
    requires StepDescribe(s, t) == Some(s')
    ensures StepSound(cfg, s, s', t)
  {
    hide Inv, SharedSound, Evolves;
    var thread := s.threads[t];
    var state := At(s.m, thread.pc.r).state;
    var ack := Ack(thread.id, thread.since, |OpsOf(s.h, thread.id)|,
                   MetadataAnswer(state.turnCount, state.version));
    HolderIsLocked(cfg, s, t);
    assert thread.pc.r in Pointers(thread.pc);
    FreeMeansCommitted(cfg, s, thread.pc.r);
    assert OpsOf(s.h, thread.id)[..ack.index] == OpsOf(s.h, thread.id);
    FinishMoves(s, Acknowledge(s, ack), t);
    AckEvolves(s, s', thread, s.h.acks + [ack]);
    AckKeepsShared(cfg, s, s', ack);
  }

  lemma {:induction false} ChatAckIsSound(cfg: Config, s: State, t: Tid, ack: Ack)
    requires Inv(cfg, s) && t in s.threads && s.threads[t].pc == GivePermit(Some(ack))
    ensures StepSound(cfg, s, Finish(Acknowledge(s.(permits := s.permits + 1), ack), t), t)
  {
    hide Inv, SharedSound, Evolves, CreationSound, DeletionSound, PointersSound, Explained, EntryCommitted;
    var base := Acknowledge(s.(permits := s.permits + 1), ack);
    HolderIsLocked(cfg, s, t);
    FinishMoves(s, base, t);
    AckEvolves(s, Finish(base, t), s.threads[t], s.h.acks + [ack]);
    AckKeepsShared(cfg, s, Finish(base, t), ack);
  }

  lemma {:induction false} GivePermitIsSound(cfg: Config, s: State, t: Tid, c: Choice, s': State)
    requires Inv(cfg, s) && t in s.threads && s.threads[t].pc.GivePermit?
    requires StepCommit(cfg, s, t, c) == Some(s')
    ensures StepSound(cfg, s, s', t)
  {
    hide Inv, StepSound, MapSound, StepBegin;
    var pc := s.threads[t].pc;
    if pc.ack.Some? {
      ChatAckIsSound(cfg, s, t, pc.ack.value);
    } else {
      MapOf(cfg, s);
      MapMove(cfg, s, s.(permits := s.permits + 1), t, None);
    }
  }

  // ----- taking the permit and the lock --------------------------------------------------------

  lemma {:induction false} TakePermitIsSound(cfg: Config, s: State, t: Tid, c: Choice, s': State)
    requires Inv(cfg, s) && t in s.threads && s.threads[t].pc.TakePermit?
    requires StepCommit(cfg, s, t, c) == Some(s')
    ensures StepSound(cfg, s, s', t)
  {
    hide Inv, StepSound, MapSound, StepBegin;
    var pc := s.threads[t].pc;
    if s.permits == 0 {
      QuietFinish(cfg, s, t);
    } else {
      MapOf(cfg, s);
      HolderIsLocked(cfg, s, t);
      MapMove(cfg, s, s.(permits := s.permits - 1), t, Some(Lock(Chat(pc.message), pc.r)));
    }
  }

  lemma {:induction false} LockIsSound(cfg: Config, s: State, t: Tid, c: Choice, s': State)
    requires Inv(cfg, s) && t in s.threads && s.threads[t].pc.Lock?
    requires StepCommit(cfg, s, t, c) == Some(s')
    ensures StepSound(cfg, s, s', t)
  {
    hide Inv, StepSound, MapSound, StepBegin;
    var pc := s.threads[t].pc;
    MapOf(cfg, s);
    HolderIsLocked(cfg, s, t);
    MapMove(cfg, s, s.(locks := s.locks[pc.r := t]), t, Some(Begin(pc.action, pc.r)));
  }

  // ----- drafting an operation -----------------------------------------------------------------

  lemma {:induction false} HeldIsCommitted(cfg: Config, s: State, t: Tid, r: Ref)
    requires Inv(cfg, s) && t in s.threads && Held(s.threads[t].pc) == Some(r)
    requires !Dirty(s.threads[t].pc)
    ensures r < |s.m.heap| && s.m.heap[r].id == s.threads[t].id
    ensures s.m.heap[r].state == Replay(cfg.rules, s.threads[t].id, OpsOf(s.h, s.threads[t].id))
  {
    HolderIsLocked(cfg, s, t);
    assert r in Pointers(s.threads[t].pc);
    assert EntryCommitted(cfg.rules, s, r);
  }

  lemma {:induction false} AbandonIsSound(cfg: Config, s: State, t: Tid)
    requires Inv(cfg, s) && t in s.threads && s.threads[t].pc.Begin?
    ensures StepSound(cfg, s, Move(Unlock(s, s.threads[t].pc.r), t,
                                   AfterFailure(s.threads[t].pc.action)), t)
  {
    hide Inv, StepSound, MapSound;
    var pc := s.threads[t].pc;
    MapOf(cfg, s);
    MapMove(cfg, s, Unlock(s, pc.r), t, AfterFailure(pc.action));
  }

  /** Replacing the state of one entry changes neither the map nor the queue. */
  lemma {:induction false} SetStateKeepsMap(m: Manager, used: set<SessionId>, r: Ref,
                                            state: ConversationState)
    requires MapSound(m, used)
    ensures MapSound(SetState(m, r, state), used)
    ensures SetState(m, r, state).sessions == m.sessions
    ensures SetState(m, r, state).expired == m.expired
    ensures |SetState(m, r, state).heap| == |m.heap|
    ensures forall q :: 0 <= q < |m.heap| ==>
              && SetState(m, r, state).heap[q].id == m.heap[q].id
              && (q != r ==> SetState(m, r, state).heap[q] == m.heap[q])
    ensures r < |m.heap| ==> SetState(m, r, state).heap[r].state == state
  {
  }

  lemma {:induction false} SetStateEvolves(s: State, s': State, mover: Thread, r: Ref,
                                           state: ConversationState)
    requires s'.m == SetState(s.m, r, state) && s'.tables == s.tables && s'.h == s.h
    requires Held(mover.pc) == Some(r)
    ensures Evolves(s, s', mover)
  {
  }

  lemma {:induction false} SetStateKeepsShared(cfg: Config, s: State, s': State, r: Ref,
                                               state: ConversationState)
    requires Inv(cfg, s)
    requires s'.m == SetState(s.m, r, state) && s'.tables == s.tables && s'.h == s.h
    ensures SharedSound(cfg.rules, s')
  {
    SetStateKeepsMap(s.m, s.h.used, r, state);
  }

  /** The lock holder replaces the committed state by a drafted one. */
  lemma {:induction false} DraftIsSound(cfg: Config, s: State, t: Tid, next: ConversationState,
                                        pc: Pc)
    requires Inv(cfg, s) && t in s.threads && s.threads[t].pc.Begin?
    requires pc.Append? && pc.r == s.threads[t].pc.r && pc.action == s.threads[t].pc.action
    requires DraftSound(cfg.rules, OpsOf(s.h, s.threads[t].id), s.threads[t].id, next, pc)
    ensures StepSound(cfg, s, Go(s.(m := SetState(s.m, pc.r, next)), t, pc), t)
  {
    hide Inv, SharedSound, Evolves, MapSound, SetState, DraftSound, Replay;
    var thread, base := s.threads[t], s.(m := SetState(s.m, pc.r, next));
    var s' := Go(base, t, pc);
    HolderIsLocked(cfg, s, t);
    HeldIsCommitted(cfg, s, t, pc.r);
    MapOf(cfg, s);
    SetStateKeepsMap(s.m, s.h.used, pc.r, next);
    GoMoves(s, base, t, pc);
    SetStateEvolves(s, s', thread, pc.r, next);
    SetStateKeepsShared(cfg, s, s', pc.r, next);
  }

  lemma {:induction false} ResetDrafts(rules: Rules, id: SessionId, ops: seq<Op>,
                                       previous: ConversationState, pc: Pc)
    requires previous == Replay(rules, id, ops) && ResetState(previous).Success?
    requires pc.Append? && pc.previous == previous && pc.op == ResetOp
    requires var next := ResetState(previous).value;
             pc.answer == ResetAnswer(next.turnCount, next.version)
    requires |pc.events| == 1 && pc.events[0].payload == SessionReset(previous.version)
    requires pc.events[0].eventType == TypeName(pc.events[0].payload)
    ensures DraftSound(rules, ops, id, ResetState(previous).value, pc)
  {
  }

  lemma {:induction false} ChatDrafts(rules: Rules, id: SessionId, ops: seq<Op>,
                                      previous: ConversationState, message: string,
                                      reply: Result<string, InferenceError>, predictionId: Uuid,
                                      pc: Pc)
    requires previous == Replay(rules, id, ops) && reply.Success?
    requires TurnResult(rules, previous, message, reply, predictionId).Success?
    requires var outcome := TurnResult(rules, previous, message, reply, predictionId).value.1;
      && pc.Append? && pc.previous == previous
      && pc.op == ChatOp(message, reply.value, predictionId)
      && pc.answer == ChatAnswer(message, outcome)
      && |pc.events| == 2
      && pc.events[0].payload == UserRecorded(outcome.turnCount, Utf8Length(message))
      && pc.events[1].payload == AssistantRecorded(outcome.backendId, outcome.stateVersion)
      && pc.events[0].eventType == TypeName(pc.events[0].payload)
      && pc.events[1].eventType == TypeName(pc.events[1].payload)
    ensures DraftSound(rules, ops, id,
              TurnResult(rules, previous, message, reply, predictionId).value.0, pc)
  {
  }

  lemma {:induction false} TurnsNeedReplies(rules: Rules, state: ConversationState, message: string,
                                            reply: Result<string, InferenceError>, predictionId: Uuid)
    requires TurnResult(rules, state, message, reply, predictionId).Success?
    ensures reply.Success?
  {
  }

  lemma {:induction false} EraseBegins(cfg: Config, s: State, t: Tid)
    requires Inv(cfg, s) && t in s.threads && s.threads[t].pc.Begin? && s.threads[t].pc.action.Delete?
    ensures StepSound(cfg, s, Go(s, t, Erase(s.threads[t].pc.r)), t)
  {
    hide Inv, StepSound, OperationSound, CreationSound, DeletionSound;
    var thread := s.threads[t];
    HolderIsLocked(cfg, s, t);
    assert Pointers(Erase(thread.pc.r)) == Pointers(thread.pc);
    assert PointersSound(s.m, thread.(pc := Erase(thread.pc.r)));
    PlainMove(cfg, s, t, Some(Erase(thread.pc.r)));
  }

  lemma {:induction false} BeginIsSound(cfg: Config, s: State, t: Tid, c: Choice, s': State)
    requires Inv(cfg, s) && t in s.threads && s.threads[t].pc.Begin?
    requires StepBegin(cfg, s, t, c) == Some(s')
    ensures StepSound(cfg, s, s', t)
  {
    hide Inv, StepSound, MapSound, DraftSound, TurnResult, ResetState, SetState, TypeName;
    var thread := s.threads[t];
    var r, id := thread.pc.r, thread.id;
    var previous := At(s.m, r).state;
    HeldIsCommitted(cfg, s, t, r);
    if t in s'.threads && s'.threads[t].pc.Append? {
      var pc := s'.threads[t].pc;
      match thread.pc.action {
        case Reset =>
          ResetDrafts(cfg.rules, id, OpsOf(s.h, id), previous, pc);
          DraftIsSound(cfg, s, t, ResetState(previous).value, pc);
        case Chat(message) =>
          var result := TurnResult(cfg.rules, previous, message, c.reply, c.predictionId);
          TurnsNeedReplies(cfg.rules, previous, message, c.reply, c.predictionId);
          ChatDrafts(cfg.rules, id, OpsOf(s.h, id), previous, message, c.reply,
                     c.predictionId, pc);
          DraftIsSound(cfg, s, t, result.value.0, pc);
        case Delete => assert false;
      }
    } else if t in s'.threads && s'.threads[t].pc.Erase? {
      EraseBegins(cfg, s, t);
    } else {
      AbandonIsSound(cfg, s, t);
    }
  }
}
