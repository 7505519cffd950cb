/** Rows that a failing purge leaves behind: their ids were drained and are dropped, so no handler
    comes back to them while the process lives. */
module Leftovers {
  import opened Text
  import opened Conversation
  import opened History
  import opened Store
  import opened Sessions
  import opened Server
  import opened Invariant
  import opened Preservation
  import opened Steps
  import opened Commit
  import opened Restart
  import opened Runs

  /** A stored session that is neither mapped nor queued, that no handler is about to delete, and
      whose entry no handler has looked up. */
  ghost predicate Leftover(s: State, id: SessionId) {
    && id in s.tables.sessions && id in s.h.used && id !in s.m.sessions && id !in s.m.expired
    && (forall t | t in s.threads :: id !in Condemning(s.threads[t].id, s.threads[t].pc))
    && (forall t | t in s.threads && s.threads[t].id == id ::
          Pointers(s.threads[t].pc) == {} && !Creating(s.threads[t].pc))
  }

  predicate SameRow(t: Tables, t': Tables, id: SessionId) {
    && id in t.sessions && id in t'.sessions && t'.sessions[id] == t.sessions[id]
    && EventsOf(t', id) == EventsOf(t, id)
  }

  /** What a step of a thread does about an id that it has nothing to do with. */
  ghost predicate PassesBy(s: State, s': State, t: Tid, id: SessionId) {
    && SameRow(s.tables, s'.tables, id) && id !in s'.m.expired
    && (t in s'.threads ==>
          && id !in Condemning(s'.threads[t].id, s'.threads[t].pc)
          && (s'.threads[t].id == id ==> Pointers(s'.threads[t].pc) == {} && !Creating(s'.threads[t].pc)))
  }

  lemma {:induction false} GetPassesBy(cfg: Config, s: State, t: Tid, c: Choice, s': State, id: SessionId)
    requires Leftover(s, id) && t in s.threads && StepGet(cfg, s, t, c) == Some(s')
    ensures PassesBy(s, s', t, id)
  {
    hide Evict, Touch, IsExpired;
    EvictKeepsQueue(s.m, s.threads[t].id);
    TouchKeepsQueue(s.m);
  }

  lemma {:induction false} EvictKeepsQueue(m: Manager, id: SessionId)
    ensures Evict(m, id).expired == m.expired
  {
  }

  lemma {:induction false} TouchKeepsQueue(m: Manager)
    ensures forall r, now :: Touch(m, r, now).expired == m.expired
  {
  }

  lemma {:induction false} PurgePassesBy(s: State, t: Tid, c: Choice, s': State, id: SessionId)
    requires Leftover(s, id) && t in s.threads && StepPurge(s, t, c) == Some(s')
    ensures PassesBy(s, s', t, id)
  {
  }

  lemma {:induction false} CreatePassesBy(s: State, t: Tid, c: Choice, s': State, id: SessionId)
    requires Leftover(s, id) && t in s.threads && StepCreate(s, t, c) == Some(s')
    requires SnapshotOf(s.threads[t].pc).Some? ==> SnapshotOf(s.threads[t].pc).value.sessionId == s.threads[t].id
    ensures PassesBy(s, s', t, id)
  {
  }

  lemma {:induction false} DeletePassesBy(s: State, t: Tid, c: Choice, s': State, id: SessionId)
    requires Leftover(s, id) && t in s.threads && StepDelete(s, t, c) == Some(s')
    ensures PassesBy(s, s', t, id)
  {
  }

  /** The ids a sweep has taken out so far do not include one that is not mapped. */
  lemma {:induction false} DeadOmits(s: State, t: Tid, id: SessionId)
    requires Leftover(s, id) && t in s.threads && s.threads[t].pc.Sweep?
    ensures id !in s.threads[t].pc.dead
    ensures s.threads[t].id == id ==> Pointers(s.threads[t].pc) == {} && !Creating(s.threads[t].pc)
    ensures SameRow(s.tables, s.tables, id) && id !in s.m.expired && id !in s.m.sessions
  {
    assert s.threads[t].pc.dead == Condemning(s.threads[t].id, s.threads[t].pc);
  }

  lemma {:induction false} VisitPassesBy(cfg: Config, s: State, t: Tid, c: Choice, s': State, id: SessionId)
    requires Leftover(s, id) && t in s.threads && StepSweep(cfg, s, t, c) == Some(s') && s.threads[t].pc.Sweep?
    ensures PassesBy(s, s', t, id)
  {
    hide Evict, Enumerates, Sweeps, Leftover, SameRow;
    var pc := s.threads[t].pc;
    DeadOmits(s, t, id);
    if pc.todo != [] {
      EvictKeepsQueue(s.m, pc.todo[0]);
      if Sweeps(cfg.ttlMs, s.m, pc.todo[0], pc.now) {
        SweptIsMapped(cfg.ttlMs, s.m, pc.todo[0], pc.now);
      }
    }
  }

  lemma {:induction false} SweepPassesBy(cfg: Config, s: State, t: Tid, c: Choice, s': State, id: SessionId)
    requires Leftover(s, id) && t in s.threads && StepSweep(cfg, s, t, c) == Some(s')
    ensures PassesBy(s, s', t, id)
  {
    hide Evict, Enumerates, Sweeps;
    if s.threads[t].pc.Sweep? {
      VisitPassesBy(cfg, s, t, c, s', id);
    }
  }

  lemma {:induction false} CommitPassesBy(cfg: Config, s: State, t: Tid, c: Choice, s': State, id: SessionId)
    requires Inv(cfg, s) && Leftover(s, id) && t in s.threads && StepCommit(cfg, s, t, c) == Some(s')
    ensures PassesBy(s, s', t, id)
  {
    hide Inv, Store.AppendEvents, StepBegin, SetState;
    if s.threads[t].pc.Append? {
      AppendTouchesOwnRow(cfg, s, t, c, s', id);
    } else {
      OthersKeepTables(cfg, s, t, c, s');
    }
    if s.threads[t].pc.Begin? {
      BeginPassesBy(cfg, s, t, c, s', id);
    }
    SetStateKeepsQueue(s.m);
  }

  lemma {:induction false} SetStateKeepsQueue(m: Manager)
    ensures forall r, state :: SetState(m, r, state).expired == m.expired
  {
  }

  lemma {:induction false} BeginPassesBy(cfg: Config, s: State, t: Tid, c: Choice, s': State, id: SessionId)
    requires Leftover(s, id) && t in s.threads && s.threads[t].pc.Begin? && StepBegin(cfg, s, t, c) == Some(s')
    ensures PassesBy(s, s', t, id)
  {
    hide TurnResult, ResetState, SetState, TypeName, Utf8Length;
    SetStateKeepsQueue(s.m);
  }

  lemma {:induction false} StepPassesBy(cfg: Config, s: State, t: Tid, c: Choice, s': State, id: SessionId)
    requires Inv(cfg, s) && Leftover(s, id) && t in s.threads && Step(cfg, s, t, c) == Some(s')
    ensures PassesBy(s, s', t, id)
  {
    hide Inv, Leftover, PassesBy, StepGet, StepPurge, StepCreate, StepDelete, StepSweep, StepDescribe, StepCommit;
    HolderIsLocked(cfg, s, t);
    if StepGet(cfg, s, t, c) == Some(s') {
      GetPassesBy(cfg, s, t, c, s', id);
    } else if StepPurge(s, t, c) == Some(s') {
      PurgePassesBy(s, t, c, s', id);
    } else if StepCreate(s, t, c) == Some(s') {
      CreatePassesBy(s, t, c, s', id);
    } else if StepDelete(s, t, c) == Some(s') {
      DeletePassesBy(s, t, c, s', id);
    } else if StepSweep(cfg, s, t, c) == Some(s') {
      SweepPassesBy(cfg, s, t, c, s', id);
    } else if StepCommit(cfg, s, t, c) == Some(s') {
      CommitPassesBy(cfg, s, t, c, s', id);
    } else {
      DescribePassesBy(s, t, s', id);
    }
  }

  lemma {:induction false} DescribePassesBy(s: State, t: Tid, s': State, id: SessionId)
    requires Leftover(s, id) && t in s.threads && StepDescribe(s, t) == Some(s')
    ensures PassesBy(s, s', t, id)
  {
  }

  /** Passing by is all there is: the rest of the state concerns other threads or only shrinks. */
  lemma {:induction false} StillLeftover(cfg: Config, s: State, s': State, t: Tid, id: SessionId)
    requires Leftover(s, id) && StepSound(cfg, s, s', t) && PassesBy(s, s', t, id)
    ensures Leftover(s', id)
  {
    hide SharedSound, MoverSound, Disciplined;
  }

  /** The process goes on: a handler steps or a request arrives. */
  ghost predicate GoesOn(cfg: Config, s: State, s': State) {
    || (exists t :: StepOf(cfg, s, s', t))
    || (exists t, id, now :: CreateArrives(s, s', t, id, now))
    || (exists t, id, goal :: RequestArrives(s, s', t, id, goal))
  }

  lemma {:induction false} GoingOnKeepsLeftover(cfg: Config, s: State, s': State, id: SessionId)
    requires Inv(cfg, s) && Leftover(s, id) && GoesOn(cfg, s, s')
    ensures Leftover(s', id) && SameRow(s.tables, s'.tables, id)
  {
    hide Inv, Step, StepSound;
    if t :| StepOf(cfg, s, s', t) {
      var c :| Step(cfg, s, t, c) == Some(s');
      StepKeepsInvariant(cfg, s, t, c, s');
      StepPassesBy(cfg, s, t, c, s', id);
      StillLeftover(cfg, s, s', t, id);
    }
  }

  /** A row that a failing purge left behind stays as it is, and no handler gets hold of it, for as
      long as the process goes on; it takes a restart to find it again. */
  lemma {:induction false} LeftoverRowStays(cfg: Config, states: seq<State>, i: nat, j: nat, id: SessionId)
    requires Run(cfg, states) && i <= j < |states| && Leftover(states[i], id)
    requires forall k | i < k <= j :: GoesOn(cfg, states[k - 1], states[k])
    ensures Leftover(states[j], id) && SameRow(states[i].tables, states[j].tables, id)
    decreases j - i
  {
    hide Inv, Next, GoesOn, Leftover;
    if i < j {
      LeftoverRowStays(cfg, states, i, j - 1, id);
      RunKeepsInvariant(cfg, states, j - 1);
      GoingOnKeepsLeftover(cfg, states[j - 1], states[j], id);
    } else {
      LeftoverHasRow(states[i], id);
    }
  }

  lemma {:induction false} LeftoverHasRow(s: State, id: SessionId)
    requires Leftover(s, id)
    ensures SameRow(s.tables, s.tables, id)
  {
  }

  /** And that is how a purge fails: an id it had drained, and that nobody else is concerned with,
      is left over. */
  lemma {:induction false} FailingPurgeLeavesRows(cfg: Config, states: seq<State>, n: nat, t: Tid, c: Choice,
                                                  s': State, id: SessionId)
    requires Run(cfg, states) && n < |states| && t in states[n].threads && c.fault
    requires states[n].threads[t].pc.Purge? && id in states[n].threads[t].pc.ids
    requires Step(cfg, states[n], t, c) == Some(s')
    requires id in states[n].tables.sessions && id !in states[n].m.expired
    requires forall u | u in states[n].threads && u != t ::
               states[n].threads[u].id != id && id !in Condemning(states[n].threads[u].id, states[n].threads[u].pc)
    ensures Leftover(s', id) && s'.tables == states[n].tables
  {
    hide Next, Inv;
    RunKeepsInvariant(cfg, states, n);
    CondemnedAreUnmapped(cfg, states, n, t, id);
    HolderIsLocked(cfg, states[n], t);
    assert id in Condemning(states[n].threads[t].id, states[n].threads[t].pc);
  }
}
