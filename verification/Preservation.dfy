/** Every step keeps the invariant: what one thread's step may change, why the other threads'
    knowledge survives it, and how the parts of the invariant follow. */
module Preservation {
  import opened Text
  import opened Conversation
  import opened History
  import opened Store
  import opened Sessions
  import opened Server
  import opened Invariant

  // ----- what a step may change ----------------------------------------------------------------

  /** The changes of shared state a step of a thread `mover` is confined to. */
  ghost predicate Evolves(s: State, s': State, mover: Thread) {
    && |s.m.heap| <= |s'.m.heap|
    && (forall r :: 0 <= r < |s.m.heap| ==>
          && s'.m.heap[r].id == s.m.heap[r].id
          && (Held(mover.pc) != Some(r) ==> s'.m.heap[r].state == s.m.heap[r].state))
    && s.h.used <= s'.h.used && s.h.born <= s'.h.born
    && (forall id :: id in s'.h.born && id !in s.h.born ==>
          id == mover.id && mover.pc.InsertRow? && id in s'.tables.sessions)
    && (forall id :: id in s.h.used && id !in s.m.sessions ==> id !in s'.m.sessions)
    && (forall id :: id in s.h.born && id !in s.tables.sessions ==> id !in s'.tables.sessions)
    && (forall id :: id in s.tables.sessions && id !in s'.tables.sessions ==>
          id !in s.m.sessions || (id == mover.id && mover.pc.Erase?))
    && (forall id :: OpsOf(s'.h, id) ==
          if id == mover.id && mover.pc.Append? && OpsOf(s'.h, id) != OpsOf(s.h, id)
          then OpsOf(s.h, id) + [mover.pc.op] else OpsOf(s.h, id))
    && (forall id :: id != mover.id || !mover.pc.Reply? ==>
          SettledOf(s'.h, id) == SettledOf(s.h, id))
  }

  /** Only the thread `t` moved; its request stays the same. */
  ghost predicate OnlyMoves(s: State, s': State, t: Tid) {
    && t in s.threads
    && (forall u :: u in s.threads && u != t ==> u in s'.threads)
    && (forall u :: u in s'.threads && u != t ==>
          u in s.threads && s'.threads[u] == s.threads[u])
    && (t in s'.threads ==>
          && s'.threads[t].id == s.threads[t].id && s'.threads[t].since == s.threads[t].since
          && (Creating(s'.threads[t].pc) ==> Creating(s.threads[t].pc)))
  }

  function HeldAfter(s': State, t: Tid): Option<Ref> {
    if t in s'.threads then Held(s'.threads[t].pc) else None
  }

  /** Locks, write lock and permits change hands exactly as the program counter says. */
  ghost predicate Disciplined(s: State, s': State, t: Tid)
    requires t in s.threads
  {
    var before, after := Held(s.threads[t].pc), HeldAfter(s', t);
    var wrote := HoldsWriter(s.threads[t].pc);
    var writes := t in s'.threads && HoldsWriter(s'.threads[t].pc);
    var had := HoldsPermit(s.threads[t].pc);
    var has := t in s'.threads && HoldsPermit(s'.threads[t].pc);
    && (before == after ==> s'.locks == s.locks)
    && (before != after ==> before.None? || after.None?)
    && (before.None? && after.Some? ==>
          after.value !in s.locks && s'.locks == s.locks[after.value := t])
    && (before.Some? && after.None? ==> s'.locks == s.locks - {before.value})
    && (wrote == writes ==> s'.writer == s.writer)
    && (!wrote && writes ==> s.writer.None? && s'.writer == Some(t))
    && (wrote && !writes ==> s'.writer.None?)
    && s'.permits + (if has then 1 else 0) == s.permits + (if had then 1 else 0)
  }

  /** The parts of the invariant that do not speak of threads. */
  ghost predicate SharedSound(rules: Rules, s: State) {
    && MapSound(s.m, s.h.used)
    && Condemned(s.m, s.h.used, s.m.expired)
    && TablesSound(rules, s.tables, s.h)
    && HistorySound(s.h)
    && Gone(s.m, s.tables, s.h)
    && (forall ack :: ack in s.h.acks ==> Explained(rules, s.h, ack))
  }

  /** What the moving thread must show about itself: its locals, the entry it holds, and the
      operation it may have committed or settled. */
  ghost predicate MoverSound(rules: Rules, s: State, s': State, t: Tid)
    requires t in s.threads
  {
    var mover := s.threads[t];
    && (t in s'.threads ==> ThreadSound(rules, s', s'.threads[t]))
    && (Held(mover.pc).Some? && Held(mover.pc).value < |s'.m.heap| ==>
          EntryCommitted(rules, s', Held(mover.pc).value))
    && (forall r :: |s.m.heap| <= r < |s'.m.heap| ==> EntryCommitted(rules, s', r))
    && ((mover.pc.Append? || mover.pc.Reply?) ==> Settled(s', mover.id))
    && (mover.pc.Erase? && mover.id in s'.m.sessions ==> RowPresent(s', mover.id))
    && (mover.pc.UnmapErased? ==> mover.id !in s'.m.sessions)
  }

  // ----- the other threads ---------------------------------------------------------------------

  lemma {:induction false} ExplanationLasts(rules: Rules, h: Chronicle, h': Chronicle, ack: Ack)
    requires Explained(rules, h, ack) && OpsOf(h, ack.id) <= OpsOf(h', ack.id)
    ensures Explained(rules, h', ack)
  {
    var ops, ops' := OpsOf(h, ack.id), OpsOf(h', ack.id);
    assert ops'[..ack.index] == ops[..ack.index];
  }

  /** Two threads never hold the locks of one session. */
  lemma {:induction false} HoldersDiffer(s: State, t: Tid, u: Tid)
    requires MapSound(s.m, s.h.used) && LocksSound(s.locks, s.threads)
    requires t in s.threads && u in s.threads && t != u
    requires PointersSound(s.m, s.threads[t]) && PointersSound(s.m, s.threads[u])
    requires Held(s.threads[t].pc).Some? && Held(s.threads[u].pc).Some?
    ensures s.threads[t].id != s.threads[u].id
    ensures Held(s.threads[t].pc) != Held(s.threads[u].pc)
  {
    var a, b := Held(s.threads[t].pc).value, Held(s.threads[u].pc).value;
    assert a in Pointers(s.threads[t].pc) && b in Pointers(s.threads[u].pc);
    assert s.locks[a] == t && s.locks[b] == u;
    assert s.m.heap[a].id == s.threads[t].id && s.m.heap[b].id == s.threads[u].id;
  }

  /** What a thread knows of its operation survives the step of a thread that holds no lock of
      its session. */
  lemma {:induction false} OperationStaysSound(rules: Rules, s: State, s': State, mover: Thread,
                                               thread: Thread)
    requires Evolves(s, s', mover) && OperationSound(rules, s, thread)
    requires PointersSound(s.m, thread)
    requires Held(thread.pc).Some? && Held(mover.pc).Some? ==>
               thread.id != mover.id && Held(thread.pc) != Held(mover.pc)
    ensures OperationSound(rules, s', thread)
  {
    assert OpsOf(s.h, thread.id) <= OpsOf(s'.h, thread.id);
    if thread.pc.GivePermit? && thread.pc.ack.Some? {
      assert OpsOf(s.h, thread.pc.ack.value.id) <= OpsOf(s'.h, thread.pc.ack.value.id);
      ExplanationLasts(rules, s.h, s'.h, thread.pc.ack.value);
    }
    if thread.pc.Append? {
      assert thread.pc.r in Pointers(thread.pc);
    }
  }

  /** So does what it knows of ids, pointers and rows. */
  lemma {:induction false} KnowledgeStaysSound(s: State, s': State, mover: Thread, thread: Thread)
    requires Evolves(s, s', mover) && s.h.born <= s.h.used
    requires PointersSound(s.m, thread) && CreationSound(s.h, thread)
    requires Condemned(s.m, s.h.used, Condemning(thread.id, thread.pc))
    requires DeletionSound(s.m, s.tables, s.h, thread)
    requires mover.pc.InsertRow? && Creating(thread.pc) ==> mover.id != thread.id
    ensures PointersSound(s'.m, thread) && CreationSound(s'.h, thread)
    ensures Condemned(s'.m, s'.h.used, Condemning(thread.id, thread.pc))
    ensures DeletionSound(s'.m, s'.tables, s'.h, thread)
  {
  }

  lemma {:induction false} ThreadSurvives(rules: Rules, s: State, s': State, mover: Thread,
                                          thread: Thread)
    requires ThreadSound(rules, s, thread) && Evolves(s, s', mover) && s.h.born <= s.h.used
    requires mover.pc.InsertRow? && Creating(thread.pc) ==> mover.id != thread.id
    requires Held(thread.pc).Some? && Held(mover.pc).Some? ==>
               thread.id != mover.id && Held(thread.pc) != Held(mover.pc)
    ensures ThreadSound(rules, s', thread)
  {
    hide Evolves, OperationSound, PointersSound, CreationSound, DeletionSound, Condemned;
    OperationStaysSound(rules, s, s', mover, thread);
    KnowledgeStaysSound(s, s', mover, thread);
  }

  lemma {:induction false} OthersStaySound(cfg: Config, s: State, s': State, t: Tid, u: Tid)
    requires MapSound(s.m, s.h.used) && LocksSound(s.locks, s.threads)
    requires ThreadsSound(cfg.rules, s) && s.h.born <= s.h.used
    requires t in s.threads && Evolves(s, s', s.threads[t])
    requires u in s.threads && u != t
    ensures ThreadSound(cfg.rules, s', s.threads[u])
  {
    hide Evolves, OperationSound;
    var mover, thread := s.threads[t], s.threads[u];
    assert ThreadSound(cfg.rules, s, thread) && ThreadSound(cfg.rules, s, mover);
    if Held(thread.pc).Some? && Held(mover.pc).Some? {
      HoldersDiffer(s, t, u);
    }
    ThreadSurvives(cfg.rules, s, s', mover, thread);
  }

  // ----- the parts of the invariant after a step -----------------------------------------------

  lemma {:induction false} ThreadsStaySound(cfg: Config, s: State, s': State, t: Tid)
    requires MapSound(s.m, s.h.used) && LocksSound(s.locks, s.threads)
    requires ThreadsSound(cfg.rules, s) && s.h.born <= s.h.used
    requires OnlyMoves(s, s', t) && Evolves(s, s', s.threads[t])
    requires t in s'.threads ==> ThreadSound(cfg.rules, s', s'.threads[t])
    ensures ThreadsSound(cfg.rules, s')
  {
    forall u | u in s'.threads
      ensures ThreadSound(cfg.rules, s', s'.threads[u])
    {
      if u != t {
        OthersStaySound(cfg, s, s', t, u);
      }
    }
  }

  lemma {:induction false} LocksStaySound(s: State, s': State, t: Tid)
    requires LocksSound(s.locks, s.threads) && WriterSound(s.writer, s.threads)
    requires OnlyMoves(s, s', t) && Disciplined(s, s', t)
    ensures LocksSound(s'.locks, s'.threads) && WriterSound(s'.writer, s'.threads)
  {
  }

  lemma {:induction false} SizeByMember(a: set<Tid>, t: Tid)
    ensures |a| == |a - {t}| + (if t in a then 1 else 0)
  {
    assert a == if t in a then (a - {t}) + {t} else a - {t};
  }

  lemma {:induction false} PermitsStaySound(s: State, s': State, t: Tid)
    requires OnlyMoves(s, s', t)
    requires s'.permits + (if t in PermitHolders(s'.threads) then 1 else 0)
          == s.permits + (if t in PermitHolders(s.threads) then 1 else 0)
    ensures s'.permits + |PermitHolders(s'.threads)| == s.permits + |PermitHolders(s.threads)|
  {
    var before, after := PermitHolders(s.threads), PermitHolders(s'.threads);
    SizeByMember(before, t);
    SizeByMember(after, t);
    assert after - {t} == before - {t};
  }

  lemma {:induction false} EntriesStayCommitted(cfg: Config, s: State, s': State, t: Tid, r: Ref)
    requires MapSound(s.m, s.h.used) && LocksSound(s.locks, s.threads)
    requires OnlyMoves(s, s', t) && Evolves(s, s', s.threads[t]) && Disciplined(s, s', t)
    requires PointersSound(s.m, s.threads[t])
    requires r < |s.m.heap| && Held(s.threads[t].pc) != Some(r)
    requires EntryCommitted(cfg.rules, s, r)
    requires HeldAfter(s', t) == Some(r) && r !in s.locks ==> !Dirty(s'.threads[t].pc)
    ensures EntryCommitted(cfg.rules, s', r)
  {
    hide Replay;
    var mover, id := s.threads[t], s.m.heap[r].id;
    if Held(mover.pc).Some? {
      assert Held(mover.pc).value in Pointers(mover.pc);
      assert id != mover.id;
    }
    assert OpsOf(s'.h, id) == OpsOf(s.h, id);
    if r in s.locks {
      assert s'.locks[r] == s.locks[r] != t;
    }
  }

  lemma {:induction false} RowsStayPresent(s: State, s': State, t: Tid, id: SessionId)
    requires OnlyMoves(s, s', t) && Evolves(s, s', s.threads[t]) && Disciplined(s, s', t)
    requires LocksSound(s.locks, s.threads)
    requires id in s.m.sessions && id in s'.m.sessions
    requires s'.m.sessions[id] == s.m.sessions[id] && RowPresent(s, id)
    requires s.threads[t].id != id || !(s.threads[t].pc.Erase? || s.threads[t].pc.UnmapErased?)
    requires s.threads[t].pc.UnmapErased? ==> Held(s.threads[t].pc) != Some(s.m.sessions[id])
    ensures RowPresent(s', id)
  {
  }

  lemma {:induction false} StaysSettled(s: State, s': State, t: Tid, id: SessionId)
    requires OnlyMoves(s, s', t) && Evolves(s, s', s.threads[t])
    requires s.threads[t].id != id || !(s.threads[t].pc.Append? || s.threads[t].pc.Reply?)
    requires Settled(s, id)
    ensures Settled(s', id)
  {
    assert OpsOf(s'.h, id) == OpsOf(s.h, id) && SettledOf(s'.h, id) == SettledOf(s.h, id);
    if |OpsOf(s.h, id)| == SettledOf(s.h, id) + 1 {
      var u :| u in s.threads && s.threads[u].id == id && s.threads[u].pc.Reply?;
      assert u != t && u in s'.threads && s'.threads[u] == s.threads[u];
    }
  }

  /** What a step must be shown to do for the invariant to survive it. */
  ghost predicate StepSound(cfg: Config, s: State, s': State, t: Tid) {
    && OnlyMoves(s, s', t) && Evolves(s, s', s.threads[t]) && Disciplined(s, s', t)
    && SharedSound(cfg.rules, s') && MoverSound(cfg.rules, s, s', t)
    && (forall id :: id in s'.m.sessions ==>
          id in s.m.sessions && s'.m.sessions[id] == s.m.sessions[id])
    && (HeldAfter(s', t).Some? && HeldAfter(s', t).value !in s.locks ==>
          !Dirty(s'.threads[t].pc))
  }

  lemma {:induction false} StepKeepsEntries(cfg: Config, s: State, s': State, t: Tid)
    requires Inv(cfg, s) && StepSound(cfg, s, s', t)
    ensures forall r :: 0 <= r < |s'.m.heap| ==> EntryCommitted(cfg.rules, s', r)
  {
    assert ThreadSound(cfg.rules, s, s.threads[t]);
    forall r | 0 <= r < |s'.m.heap|
      ensures EntryCommitted(cfg.rules, s', r)
    {
      if r < |s.m.heap| && Held(s.threads[t].pc) != Some(r) {
        EntriesStayCommitted(cfg, s, s', t, r);
      }
    }
  }

  lemma {:induction false} StepKeepsRows(cfg: Config, s: State, s': State, t: Tid)
    requires Inv(cfg, s) && StepSound(cfg, s, s', t)
    ensures forall id :: id in s'.m.sessions ==> RowPresent(s', id)
  {
    hide TablesSound, HistorySound, Gone, WriterSound, EntryCommitted, Settled, Explained, SharedSound,
         CreationSound, DeletionSound, OperationSound, Condemned;
    var mover := s.threads[t];
    assert ThreadSound(cfg.rules, s, mover);
    forall id | id in s'.m.sessions
      ensures RowPresent(s', id)
    {
      assert RowPresent(s, id);
      if mover.id != id || !(mover.pc.Erase? || mover.pc.UnmapErased?) {
        if mover.pc.UnmapErased? {
          assert mover.pc.r in Pointers(mover.pc);
        }
        RowsStayPresent(s, s', t, id);
      }
    }
  }

  lemma {:induction false} StepKeepsSettled(cfg: Config, s: State, s': State, t: Tid)
    requires Inv(cfg, s) && StepSound(cfg, s, s', t)
    ensures forall id :: Settled(s', id)
  {
    forall id: SessionId
      ensures Settled(s', id)
    {
      assert Settled(s, id);
      if s.threads[t].id != id || !(s.threads[t].pc.Append? || s.threads[t].pc.Reply?) {
        StaysSettled(s, s', t, id);
      }
    }
  }

  /** A step that is sound in itself keeps the whole invariant. */
  lemma {:induction false} SoundStepKeepsInvariant(cfg: Config, s: State, s': State, t: Tid)
    requires Inv(cfg, s) && StepSound(cfg, s, s', t)
    ensures Inv(cfg, s')
  {
    ThreadsStaySound(cfg, s, s', t);
    LocksStaySound(s, s', t);
    PermitsStaySound(s, s', t);
    StepKeepsEntries(cfg, s, s', t);
    StepKeepsRows(cfg, s, s', t);
    StepKeepsSettled(cfg, s, s', t);
  }
}
