/** The flag that tells a handler waiting for a lock that its session is gone. An entry that left
    the map is flagged, or its flagging is the next step of the handler that took it out; so when a
    DELETE is confirmed its entry is flagged, and every request still waiting for it is refused. */
module Flags {
  import opened Text
  import opened Conversation
  import opened History
  import opened Store
  import opened Sessions
  import opened Server
  import opened Invariant
  import opened Preservation
  import opened Steps
  import opened Commit
  import opened Restart

  /** The handler's next step flags the entry. */
  predicate Flagging(pc: Pc, r: Ref) {
    (pc.MarkErased? && pc.mapped == r) || (pc.MarkWithdrawn? && pc.r == r)
  }

  ghost predicate BeingFlagged(s: State, r: Ref) {
    exists t :: t in s.threads && Flagging(s.threads[t].pc, r)
  }

  ghost predicate Flagged(s: State) {
    && (forall r: Ref | r < |s.m.heap| && s.m.heap[r].id !in s.m.sessions ::
          s.m.heap[r].deleted || BeingFlagged(s, r))
    && (forall r: Ref | r < |s.m.heap| && s.m.heap[r].id in s.h.gone :: s.m.heap[r].deleted)
  }

  /** Flags are never taken back. */
  predicate FlagsStay(m: Manager, m': Manager) {
    && |m'.heap| == |m.heap|
    && forall r: Ref | r < |m.heap| ::
         m'.heap[r].id == m.heap[r].id && (m.heap[r].deleted ==> m'.heap[r].deleted)
  }

  /** An entry that a step takes out of the map is flagged by it or by the next one. */
  ghost predicate KeepsFlags(s: State, s': State, t: Tid) {
    && t in s.threads && FlagsStay(s.m, s'.m)
    && (forall r: Ref | r < |s.m.heap| && s.m.heap[r].id in s.m.sessions && s.m.heap[r].id !in s'.m.sessions ::
          s'.m.heap[r].deleted || (t in s'.threads && Flagging(s'.threads[t].pc, r)))
    && (forall r: Ref | r < |s.m.heap| && Flagging(s.threads[t].pc, r) :: s'.m.heap[r].deleted)
  }

  lemma {:induction false} AccessesKeepFlags(m: Manager)
    ensures forall r: Ref :: FlagsStay(m, MarkDeleted(m, r)) && (r < |m.heap| ==> MarkDeleted(m, r).heap[r].deleted)
    ensures forall r: Ref, now :: FlagsStay(m, Touch(m, r, now)) && Touch(m, r, now).sessions == m.sessions
    ensures forall r: Ref, state :: FlagsStay(m, SetState(m, r, state)) && SetState(m, r, state).sessions == m.sessions
    ensures forall r: Ref :: MarkDeleted(m, r).sessions == m.sessions
    ensures FlagsStay(m, m)
  {
  }

  /** Evicting flags the entry, the only one of its session. */
  lemma {:induction false} EvictFlags(m: Manager, used: set<SessionId>, id: SessionId)
    requires MapSound(m, used)
    ensures FlagsStay(m, Evict(m, id)) && Evict(m, id).sessions == m.sessions - {id}
    ensures forall r: Ref | r < |m.heap| && m.heap[r].id in m.sessions && m.heap[r].id == id ::
              Evict(m, id).heap[r].deleted
  {
  }

  lemma {:induction false} UnmappedIsOne(m: Manager, used: set<SessionId>, id: SessionId)
    requires MapSound(m, used) && id in m.sessions
    ensures forall r: Ref | r < |m.heap| && m.heap[r].id == id :: r == m.sessions[id]
  {
  }

  lemma {:induction false} GetKeepsFlags(cfg: Config, s: State, t: Tid, c: Choice, s': State)
    requires Inv(cfg, s) && t in s.threads && StepGet(cfg, s, t, c) == Some(s')
    ensures KeepsFlags(s, s', t)
  {
    hide Inv, MapSound, Evict, Touch, FlagsStay, IsExpired;
    MapOf(cfg, s);
    AccessesKeepFlags(s.m);
    EvictFlags(s.m, s.h.used, s.threads[t].id);
    QueueKeepsFlags(s.m, [s.threads[t].id]);
  }

  lemma {:induction false} QueueKeepsFlags(m: Manager, ids: seq<SessionId>)
    ensures FlagsStay(m, Enqueue(m, ids)) && FlagsStay(m, Drained(m)) && FlagsStay(m, m)
  {
  }

  lemma {:induction false} PurgeKeepsFlags(s: State, t: Tid, c: Choice, s': State)
    requires t in s.threads && StepPurge(s, t, c) == Some(s')
    ensures KeepsFlags(s, s', t)
  {
    hide FlagsStay;
    QueueKeepsFlags(s.m, []);
  }

  lemma {:induction false} DescribeKeepsFlags(s: State, t: Tid, s': State)
    requires t in s.threads && StepDescribe(s, t) == Some(s')
    ensures KeepsFlags(s, s', t)
  {
    hide FlagsStay;
    QueueKeepsFlags(s.m, []);
  }

  lemma {:induction false} SweepKeepsFlags(cfg: Config, s: State, t: Tid, c: Choice, s': State)
    requires Inv(cfg, s) && t in s.threads && StepSweep(cfg, s, t, c) == Some(s')
    ensures KeepsFlags(s, s', t)
  {
    hide Inv, MapSound, Evict, FlagsStay, Sweeps, Enumerates;
    MapOf(cfg, s);
    var pc := s.threads[t].pc;
    QueueKeepsFlags(s.m, if pc.Extend? then pc.dead else []);
    if pc.Sweep? && pc.todo != [] {
      EvictFlags(s.m, s.h.used, pc.todo[0]);
    }
  }

  lemma {:induction false} CreateKeepsFlags(cfg: Config, s: State, t: Tid, c: Choice, s': State)
    requires Inv(cfg, s) && t in s.threads && StepCreate(s, t, c) == Some(s')
    ensures KeepsFlags(s, s', t)
  {
    hide Inv, MapSound, MarkDeleted, FlagsStay, Store.CreateSession;
    MapOf(cfg, s);
    AccessesKeepFlags(s.m);
    QueueKeepsFlags(s.m, []);
    var id := s.threads[t].id;
    if id in s.m.sessions {
      UnmappedIsOne(s.m, s.h.used, id);
      UnmapKeepsFlags(s.m, id);
    }
  }

  lemma {:induction false} UnmapKeepsFlags(m: Manager, id: SessionId)
    ensures FlagsStay(m, Unmap(m, id))
  {
  }

  lemma {:induction false} DeleteKeepsFlags(cfg: Config, s: State, t: Tid, c: Choice, s': State)
    requires Inv(cfg, s) && t in s.threads && StepDelete(s, t, c) == Some(s')
    ensures KeepsFlags(s, s', t)
  {
    hide Inv, MapSound, MarkDeleted, FlagsStay;
    MapOf(cfg, s);
    AccessesKeepFlags(s.m);
    QueueKeepsFlags(s.m, []);
    var id := s.threads[t].id;
    if id in s.m.sessions {
      UnmappedIsOne(s.m, s.h.used, id);
      UnmapKeepsFlags(s.m, id);
    }
  }

  lemma {:induction false} BeginKeepsFlags(cfg: Config, s: State, t: Tid, c: Choice, s': State)
    requires t in s.threads && s.threads[t].pc.Begin? && StepBegin(cfg, s, t, c) == Some(s')
    ensures KeepsFlags(s, s', t)
  {
    hide TurnResult, ResetState, SetState, TypeName, Utf8Length, FlagsStay;
    AccessesKeepFlags(s.m);
  }

  lemma {:induction false} CommitKeepsFlags(cfg: Config, s: State, t: Tid, c: Choice, s': State)
    requires t in s.threads && StepCommit(cfg, s, t, c) == Some(s')
    ensures KeepsFlags(s, s', t)
  {
    hide StepBegin, Store.AppendEvents, SetState, FlagsStay;
    AccessesKeepFlags(s.m);
    if s.threads[t].pc.Begin? {
      BeginKeepsFlags(cfg, s, t, c, s');
    }
  }

  lemma {:induction false} StepKeepsFlags(cfg: Config, s: State, t: Tid, c: Choice, s': State)
    requires Inv(cfg, s) && t in s.threads && Step(cfg, s, t, c) == Some(s')
    ensures KeepsFlags(s, s', t)
  {
    hide Inv, KeepsFlags, StepGet, StepPurge, StepCreate, StepDelete, StepSweep, StepDescribe, StepCommit;
    if StepGet(cfg, s, t, c) == Some(s') {
      GetKeepsFlags(cfg, s, t, c, s');
    } else if StepPurge(s, t, c) == Some(s') {
      PurgeKeepsFlags(s, t, c, s');
    } else if StepCreate(s, t, c) == Some(s') {
      CreateKeepsFlags(cfg, s, t, c, s');
    } else if StepDelete(s, t, c) == Some(s') {
      DeleteKeepsFlags(cfg, s, t, c, s');
    } else if StepSweep(cfg, s, t, c) == Some(s') {
      SweepKeepsFlags(cfg, s, t, c, s');
    } else if StepCommit(cfg, s, t, c) == Some(s') {
      CommitKeepsFlags(cfg, s, t, c, s');
    } else {
      DescribeKeepsFlags(s, t, s');
    }
  }

  // ----- the confirmed deletes -----------------------------------------------------------------

  /** Nobody is about to flag the entry of a session that its delete is about to confirm: the
      delete holds the entry's lock, and the session was created long ago. */
  lemma {:induction false} ConfirmedAreFlagged(cfg: Config, s: State, t: Tid)
    requires Inv(cfg, s) && Flagged(s) && t in s.threads && s.threads[t].pc.Confirm?
    ensures forall r: Ref | r < |s.m.heap| && s.m.heap[r].id == s.threads[t].id :: s.m.heap[r].deleted
  {
    hide Inv;
    HolderIsLocked(cfg, s, t);
    forall r: Ref | r < |s.m.heap| && s.m.heap[r].id == s.threads[t].id
      ensures s.m.heap[r].deleted
    {
      if BeingFlagged(s, r) {
        var u :| u in s.threads && Flagging(s.threads[u].pc, r);
        NotFlaggedByOthers(cfg, s, t, u, r);
      }
    }
  }

  lemma {:induction false} NotFlaggedByOthers(cfg: Config, s: State, t: Tid, u: Tid, r: Ref)
    requires Inv(cfg, s) && t in s.threads && s.threads[t].pc.Confirm? && u in s.threads
    requires r < |s.m.heap| && s.m.heap[r].id == s.threads[t].id
    ensures !Flagging(s.threads[u].pc, r)
  {
    hide Inv, OperationSound;
    HolderIsLocked(cfg, s, t);
    HolderIsLocked(cfg, s, u);
    if Flagging(s.threads[u].pc, r) {
      assert r in Pointers(s.threads[u].pc);
      if s.threads[u].pc.MarkErased? {
        SharedOf(cfg, s);
        LocksOf(cfg, s);
        HoldersDiffer(s, t, u);
      }
    }
  }

  lemma {:induction false} LocksOf(cfg: Config, s: State)
    requires Inv(cfg, s)
    ensures MapSound(s.m, s.h.used) && LocksSound(s.locks, s.threads)
  {
  }

  lemma {:induction false} GoneGrows(cfg: Config, s: State, t: Tid, c: Choice, s': State)
    requires t in s.threads && Step(cfg, s, t, c) == Some(s')
    ensures s'.h.gone == if s.threads[t].pc.Confirm? then s.h.gone + {s.threads[t].id} else s.h.gone
  {
    hide StepBegin, Store.AppendEvents, Store.CreateSession, Evict, Sweeps, Enumerates;
    if s.threads[t].pc.Begin? {
      BeginKeepsGone(cfg, s, t, c);
    }
  }

  lemma {:induction false} BeginKeepsGone(cfg: Config, s: State, t: Tid, c: Choice)
    requires t in s.threads && s.threads[t].pc.Begin?
    ensures StepBegin(cfg, s, t, c).Some? ==> StepBegin(cfg, s, t, c).value.h == s.h
  {
    hide TurnResult, ResetState, SetState, TypeName, Utf8Length;
  }

  lemma {:induction false} StepKeepsFlagged(cfg: Config, s: State, t: Tid, c: Choice, s': State)
    requires Inv(cfg, s) && Flagged(s) && t in s.threads && Step(cfg, s, t, c) == Some(s')
    requires OnlyMoves(s, s', t)
    requires forall id | id in s.h.used && id !in s.m.sessions :: id !in s'.m.sessions
    ensures Flagged(s')
  {
    hide Inv, Step;
    StepKeepsFlags(cfg, s, t, c, s');
    GoneGrows(cfg, s, t, c, s');
    if s.threads[t].pc.Confirm? {
      ConfirmedAreFlagged(cfg, s, t);
    }
    forall r: Ref | r < |s'.m.heap| && s'.m.heap[r].id !in s'.m.sessions
      ensures s'.m.heap[r].deleted || BeingFlagged(s', r)
    {
      if s.m.heap[r].id !in s.m.sessions && !s.m.heap[r].deleted {
        var u :| u in s.threads && Flagging(s.threads[u].pc, r);
        assert u != t ==> u in s'.threads && s'.threads[u] == s.threads[u];
      }
    }
  }

  // ----- every run -----------------------------------------------------------------------------

  lemma {:induction false} ArrivalKeepsFlagged(cfg: Config, s: State, s': State, t: Tid, id: SessionId, now: u64)
    requires Inv(cfg, s) && Flagged(s) && CreateArrives(s, s', t, id, now)
    ensures Flagged(s')
  {
    hide Inv;
    BornAreUsed(cfg, s);
    GoneIsBorn(cfg, s);
    forall r: Ref | r < |s'.m.heap| && s'.m.heap[r].id !in s'.m.sessions
      ensures s'.m.heap[r].deleted || BeingFlagged(s', r)
    {
      StillFlagged(s, s', t, r);
    }
  }

  lemma {:induction false} GoneIsBorn(cfg: Config, s: State)
    requires Inv(cfg, s)
    ensures s.h.gone <= s.h.born
  {
  }

  lemma {:induction false} StillFlagged(s: State, s': State, t: Tid, r: Ref)
    requires Flagged(s) && t !in s.threads && t in s'.threads && s'.threads == s.threads[t := s'.threads[t]]
    requires r < |s.m.heap| && s.m.heap[r].id !in s.m.sessions
    ensures s.m.heap[r].deleted || BeingFlagged(s', r)
  {
    if !s.m.heap[r].deleted {
      var u :| u in s.threads && Flagging(s.threads[u].pc, r);
      assert u in s'.threads && s'.threads[u] == s.threads[u];
    }
  }

  lemma {:induction false} RequestKeepsFlagged(s: State, s': State, t: Tid, id: SessionId, goal: Goal)
    requires Flagged(s) && RequestArrives(s, s', t, id, goal)
    ensures Flagged(s')
  {
    forall r: Ref | r < |s'.m.heap| && s'.m.heap[r].id !in s'.m.sessions
      ensures s'.m.heap[r].deleted || BeingFlagged(s', r)
    {
      StillFlagged(s, s', t, r);
    }
  }

  /** A new process maps all its entries, and none of a deleted session. */
  lemma {:induction false} RestartKeepsFlagged(cfg: Config, s: State, s': State, rows: seq<StoredSession>,
                                               clock: seq<u64>, purged: nat)
    requires Inv(cfg, s) && Restarts(cfg, s, s', rows, clock, purged)
    ensures Flagged(s')
  {
    hide Inv, TablesSound, Replay, RestoreAll, Listing;
    SharedOf(cfg, s);
    RestartFacts(cfg, s, s', rows, clock, purged);
    RecoveredFields(s.h);
  }

  lemma {:induction false} NextKeepsFlagged(cfg: Config, s: State, s': State)
    requires Inv(cfg, s) && Flagged(s) && Next(cfg, s, s')
    ensures Flagged(s')
  {
    hide Inv, Step, CreateArrives, Restarts, StepSound, RequestArrives, Flagged;
    if t :| StepOf(cfg, s, s', t) {
      var c :| Step(cfg, s, t, c) == Some(s');
      StepKeepsInvariant(cfg, s, t, c, s');
      StepUnmapsForGood(cfg, s, s', t);
      StepKeepsFlagged(cfg, s, t, c, s');
    } else if t, id, now :| CreateArrives(s, s', t, id, now) {
      ArrivalKeepsFlagged(cfg, s, s', t, id, now);
    } else if t, id, goal :| RequestArrives(s, s', t, id, goal) {
      RequestKeepsFlagged(s, s', t, id, goal);
    } else if rows, clock, purged :| Restarts(cfg, s, s', rows, clock, purged) {
      RestartKeepsFlagged(cfg, s, s', rows, clock, purged);
    } else {
      NothingToFlag(s');
    }
  }

  lemma {:induction false} NothingToFlag(s: State)
    requires s.m == EMPTY
    ensures Flagged(s)
  {
  }

  lemma {:induction false} StepUnmapsForGood(cfg: Config, s: State, s': State, t: Tid)
    requires StepSound(cfg, s, s', t)
    ensures OnlyMoves(s, s', t)
    ensures forall id | id in s.h.used && id !in s.m.sessions :: id !in s'.m.sessions
  {
  }

  lemma {:induction false} RunIsFlagged(cfg: Config, states: seq<State>, n: nat)
    requires Run(cfg, states) && n < |states|
    ensures Flagged(states[n])
  {
    hide Inv, Next, Flagged;
    if n == 0 {
      NothingToFlag(states[0]);
    } else {
      RunIsFlagged(cfg, states, n - 1);
      RunKeepsInvariant(cfg, states, n - 1);
      NextKeepsFlagged(cfg, states[n - 1], states[n]);
    }
  }

  /** A chat, reset or delete that gets the lock of a session whose DELETE was confirmed is refused:
      it changes nothing and is answered nothing but that there is no such session. */
  lemma {:induction false} LateRequestsAreRefused(cfg: Config, states: seq<State>, n: nat, t: Tid, c: Choice, s': State)
    requires Run(cfg, states) && n < |states| && t in states[n].threads
    requires states[n].threads[t].pc.Begin? && states[n].threads[t].id in states[n].h.gone
    requires Step(cfg, states[n], t, c) == Some(s')
    ensures s'.m == states[n].m && s'.tables == states[n].tables && s'.h == states[n].h
    ensures s'.locks == states[n].locks - {states[n].threads[t].pc.r}
    ensures t in s'.threads ==> s'.threads[t].pc == GivePermit(None)
  {
    hide Next, Inv;
    var s := states[n];
    RunIsFlagged(cfg, states, n);
    RunKeepsInvariant(cfg, states, n);
    HolderIsLocked(cfg, s, t);
    assert s.threads[t].pc.r in Pointers(s.threads[t].pc);
  }
}
