/** No entry without a row, but for good reason: a mapped session has its row, or its create is
    still at work on it, or a delete has just erased the row and is about to unmap it. */
module Makers {
  import opened Text
  import opened Conversation
  import opened History
  import opened Store
  import opened Sessions
  import opened Server
  import opened Invariant
  import opened Preservation
  import opened Steps
  import opened Commit
  import opened Restart

  /** The create of a session is at work. */
  ghost predicate BeingMade(s: State, id: SessionId) {
    exists t :: t in s.threads && s.threads[t].id == id && Creating(s.threads[t].pc)
  }

  ghost predicate Made(s: State) {
    forall id | id in s.m.sessions :: id in s.h.born || BeingMade(s, id)
  }

  /** A create goes on, or has inserted the row, or leaves no entry behind. */
  ghost predicate MakesOrWithdraws(s: State, s': State, t: Tid) {
    t in s.threads && Creating(s.threads[t].pc) ==>
      || (t in s'.threads && s'.threads[t].id == s.threads[t].id && Creating(s'.threads[t].pc))
      || s.threads[t].id in s'.h.born
      || s.threads[t].id !in s'.m.sessions
  }

  lemma {:induction false} LookupOfMaker(cfg: Config, s: State, t: Tid, c: Choice, s': State)
    requires Inv(cfg, s) && t in s.threads && StepGet(cfg, s, t, c) == Some(s')
    ensures MakesOrWithdraws(s, s', t)
  {
    hide Inv, Evict, Touch, IsExpired, OperationSound;
    var thread := s.threads[t];
    MapOf(cfg, s);
    HolderIsLocked(cfg, s, t);
    if thread.pc.GetEvict? {
      assert thread.pc.r in Pointers(thread.pc);
      EvictUnmaps(s.m, thread.id);
    } else if thread.pc.GetPush? {
      assert thread.id in Condemning(thread.id, thread.pc);
    }
  }

  lemma {:induction false} EvictUnmaps(m: Manager, id: SessionId)
    ensures id !in Evict(m, id).sessions
  {
  }

  lemma {:induction false} MakerStep(cfg: Config, s: State, t: Tid, c: Choice, s': State)
    requires Inv(cfg, s) && t in s.threads && StepCreate(s, t, c) == Some(s')
    ensures MakesOrWithdraws(s, s', t)
  {
    hide Inv, Store.CreateSession, OperationSound;
    HolderIsLocked(cfg, s, t);
  }

  lemma {:induction false} StepMakesOrWithdraws(cfg: Config, s: State, t: Tid, c: Choice, s': State)
    requires Inv(cfg, s) && t in s.threads && Step(cfg, s, t, c) == Some(s')
    ensures MakesOrWithdraws(s, s', t)
  {
    hide Inv, MakesOrWithdraws, StepGet, StepPurge, StepCreate, StepDelete, StepSweep, StepDescribe, StepCommit;
    if StepGet(cfg, s, t, c) == Some(s') {
      LookupOfMaker(cfg, s, t, c, s');
    } else if StepCreate(s, t, c) == Some(s') {
      MakerStep(cfg, s, t, c, s');
    } else {
      OthersMakeNothing(s, s', t);
    }
  }

  lemma {:induction false} OthersMakeNothing(s: State, s': State, t: Tid)
    requires t in s.threads && !Creating(s.threads[t].pc)
    ensures MakesOrWithdraws(s, s', t)
  {
  }

  lemma {:induction false} StepKeepsMade(s: State, s': State, t: Tid)
    requires Made(s) && MakesOrWithdraws(s, s', t) && OnlyMoves(s, s', t)
    requires s'.m.sessions.Keys <= s.m.sessions.Keys && s.h.born <= s'.h.born
    ensures Made(s')
  {
    forall id | id in s'.m.sessions && id !in s'.h.born
      ensures BeingMade(s', id)
    {
      var u :| u in s.threads && s.threads[u].id == id && Creating(s.threads[u].pc);
      assert u != t ==> u in s'.threads && s'.threads[u] == s.threads[u];
    }
  }

  lemma {:induction false} StepsUnmap(cfg: Config, s: State, s': State, t: Tid)
    requires Inv(cfg, s) && StepSound(cfg, s, s', t) && s'.h.used == s.h.used
    ensures OnlyMoves(s, s', t) && s.h.born <= s'.h.born
    ensures s'.m.sessions.Keys <= s.m.sessions.Keys
  {
    hide Inv, MoverSound, Disciplined, TablesSound;
    assert MapSound(s'.m, s'.h.used);
    forall id | id in s'.m.sessions
      ensures id in s.h.used
    {
      assert s'.m.heap[s'.m.sessions[id]].id == id;
    }
  }

  lemma {:induction false} StepsDrawNothing(cfg: Config, s: State, t: Tid, c: Choice, s': State)
    requires t in s.threads && Step(cfg, s, t, c) == Some(s')
    ensures s'.h.used == s.h.used
  {
    hide StepBegin, Store.AppendEvents, Store.CreateSession, Evict, Sweeps, Enumerates;
    if s.threads[t].pc.Begin? {
      BeginDrawsNothing(cfg, s, t, c);
    }
  }

  lemma {:induction false} BeginDrawsNothing(cfg: Config, s: State, t: Tid, c: Choice)
    requires t in s.threads && s.threads[t].pc.Begin?
    ensures StepBegin(cfg, s, t, c).Some? ==> StepBegin(cfg, s, t, c).value.h == s.h
  {
    hide TurnResult, ResetState, SetState, TypeName, Utf8Length;
  }

  lemma {:induction false} ArrivalKeepsMade(s: State, s': State, t: Tid, thread: Thread)
    requires Made(s) && t !in s.threads && s'.threads == s.threads[t := thread] && s'.h.born == s.h.born
    requires s'.m.sessions.Keys <= s.m.sessions.Keys + (if Creating(thread.pc) then {thread.id} else {})
    ensures Made(s')
  {
    forall id | id in s'.m.sessions && id !in s'.h.born
      ensures BeingMade(s', id)
    {
      if id in s.m.sessions {
        var u :| u in s.threads && s.threads[u].id == id && Creating(s.threads[u].pc);
        assert u in s'.threads && s'.threads[u] == s.threads[u];
      } else {
        assert t in s'.threads && s'.threads[t] == thread;
      }
    }
  }

  lemma {:induction false} RestartKeepsMade(cfg: Config, s: State, s': State, rows: seq<StoredSession>,
                                            clock: seq<u64>, purged: nat)
    requires Inv(cfg, s) && Restarts(cfg, s, s', rows, clock, purged)
    ensures Made(s')
  {
    hide Inv, Replay, RestoreAll, Listing, Restored;
    RestartFacts(cfg, s, s', rows, clock, purged);
    RecoveredFields(s.h);
    forall id | id in s'.tables.sessions
      ensures id in s.h.born
    {
      assert RowExplained(cfg.rules, s'.tables, s.h, id);
    }
  }

  lemma {:induction false} NextKeepsMade(cfg: Config, s: State, s': State)
    requires Inv(cfg, s) && Made(s) && Next(cfg, s, s')
    ensures Made(s')
  {
    hide Inv, Step, Restarts, StepSound, Made, MakesOrWithdraws, OnlyMoves;
    if t :| StepOf(cfg, s, s', t) {
      var c :| Step(cfg, s, t, c) == Some(s');
      StepKeepsInvariant(cfg, s, t, c, s');
      StepsDrawNothing(cfg, s, t, c, s');
      StepsUnmap(cfg, s, s', t);
      StepMakesOrWithdraws(cfg, s, t, c, s');
      StepKeepsMade(s, s', t);
    } else if t, id, now :| CreateArrives(s, s', t, id, now) {
      ArrivalKeepsMade(s, s', t, s'.threads[t]);
    } else if t, id, goal :| RequestArrives(s, s', t, id, goal) {
      ArrivalKeepsMade(s, s', t, s'.threads[t]);
    } else if rows, clock, purged :| Restarts(cfg, s, s', rows, clock, purged) {
      RestartKeepsMade(cfg, s, s', rows, clock, purged);
    } else {
      NothingToMake(s');
    }
  }

  lemma {:induction false} NothingToMake(s: State)
    requires s.m == EMPTY
    ensures Made(s)
  {
  }

  lemma {:induction false} RunIsMade(cfg: Config, states: seq<State>, n: nat)
    requires Run(cfg, states) && n < |states|
    ensures Made(states[n])
  {
    hide Inv, Next, Made;
    if n == 0 {
      NothingToMake(states[0]);
    } else {
      RunIsMade(cfg, states, n - 1);
      RunKeepsInvariant(cfg, states, n - 1);
      NextKeepsMade(cfg, states[n - 1], states[n]);
    }
  }

  /** So a create that fails leaves nothing behind: a mapped session without a row is being made, or
      is being deleted by the handler that holds its lock. */
  lemma {:induction false} MappedHasItsRow(cfg: Config, states: seq<State>, n: nat, id: SessionId)
    requires Run(cfg, states) && n < |states|
    requires id in states[n].m.sessions && id !in states[n].tables.sessions
    ensures var s := states[n];
      || (exists t :: t in s.threads && s.threads[t].id == id && Creating(s.threads[t].pc))
      || (exists t :: t in s.threads && s.threads[t].id == id && s.threads[t].pc.UnmapErased?)
  {
    hide Next, Inv;
    var s := states[n];
    RunIsMade(cfg, states, n);
    RunKeepsInvariant(cfg, states, n);
    if id in s.h.born {
      ErasedByItsHolder(cfg, s, id);
    } else {
      assert BeingMade(s, id);
    }
  }

  lemma {:induction false} ErasedByItsHolder(cfg: Config, s: State, id: SessionId)
    requires Inv(cfg, s) && id in s.m.sessions && id in s.h.born && id !in s.tables.sessions
    ensures exists t :: t in s.threads && s.threads[t].id == id && s.threads[t].pc.UnmapErased?
  {
    hide Inv;
    MapOf(cfg, s);
    RowPresence(cfg, s, id);
    var r := s.m.sessions[id];
    var t := s.locks[r];
    HolderIsLocked(cfg, s, t);
    assert r in Pointers(s.threads[t].pc);
  }

  lemma {:induction false} RowPresence(cfg: Config, s: State, id: SessionId)
    requires Inv(cfg, s) && id in s.m.sessions
    ensures RowPresent(s, id)
  {
  }
}
