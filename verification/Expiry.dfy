/** How long a session lives: what a restart makes of the times in its row, and what a lookup that
    follows finds. */
module Expiry {
  import opened Text
  import opened Conversation
  import opened History
  import opened Store
  import opened Sessions
  import opened Server
  import opened Invariant
  import opened Preservation
  import opened Steps
  import opened Restart
  import opened Runs
  import opened Uninterrupted

  lemma {:induction false} RestoredEntry(ttlMs: u64, m: Manager, rows: seq<StoredSession>, clock: seq<u64>,
                                         id: SessionId)
    requires |clock| == |rows| && Restored(ttlMs, m, rows, clock) && id in m.sessions
    ensures Own(m) && At(m, m.sessions[id]).id == id && !At(m, m.sessions[id]).deleted
    ensures exists i | 0 <= i < |rows| :: Carries(At(m, m.sessions[id]), rows[i])
  {
  }

  lemma {:induction false} ListedRow(t: Tables, rows: seq<StoredSession>, i: nat)
    requires Listing(t, rows) && i < |rows|
    ensures var id := rows[i].sessionId;
      && id in t.sessions && rows[i].snapshot == t.sessions[id].snapshot
      && rows[i].createdAtMs == t.sessions[id].createdAtMs && rows[i].updatedAtMs == t.sessions[id].updatedAtMs
  {
    assert ReadSession(rows[i].sessionId, t.sessions[rows[i].sessionId]) == Success(rows[i]);
  }

  lemma {:induction false} RestoredTimes(cfg: Config, s: State, s': State, rows: seq<StoredSession>,
                                         clock: seq<u64>, purged: nat, id: SessionId)
    requires Inv(cfg, s) && Restarts(cfg, s, s', rows, clock, purged) && id in s'.m.sessions
    ensures id in s.tables.sessions && Own(s'.m)
    ensures var e, row := At(s'.m, s'.m.sessions[id]), s.tables.sessions[id];
      && !e.deleted && e.id == id && e.state == row.snapshot
      && e.createdAtMs == row.createdAtMs && e.lastAccessMs == row.updatedAtMs
  {
    hide Inv, RestoreAll, TablesSound, Listing, Restored, Replay;
    RestartFacts(cfg, s, s', rows, clock, purged);
    var m := RestoreAll(cfg.ttlMs, rows, clock);
    RestoredEntry(cfg.ttlMs, m, rows, clock, id);
    var i :| 0 <= i < |rows| && Carries(At(m, m.sessions[id]), rows[i]);
    ListedRow(s.tables, rows, i);
  }

  /** A stored session outlives a restart that comes up exactly if it was updated at most the time
      to live before it was read back, and its entry has the times of the row; so a lookup that
      follows finds it exactly if, besides, no more than the time to live has passed by then. */
  lemma {:induction false} RestartKeepsTheTimes(cfg: Config, states: seq<State>, n: nat, s': State,
      rows: seq<StoredSession>, clock: seq<u64>, purged: nat, i: nat, nowMs: u64)
    requires Run(cfg, states) && n < |states| && i < |rows|
    requires Restarts(cfg, states[n], s', rows, clock, purged) && s'.serving
    ensures rows[i].sessionId in states[n].tables.sessions
    ensures var id := rows[i].sessionId;
      var row := states[n].tables.sessions[id];
      && (id in s'.m.sessions <==> clock[i] <= row.updatedAtMs + cfg.ttlMs)
      && (id in s'.m.sessions ==>
            && At(s'.m, s'.m.sessions[id]).createdAtMs == row.createdAtMs
            && At(s'.m, s'.m.sessions[id]).lastAccessMs == row.updatedAtMs)
      && (Looked(cfg.ttlMs, s'.m, id, nowMs).1.Some?
          <==> clock[i] <= row.updatedAtMs + cfg.ttlMs && nowMs <= row.updatedAtMs + cfg.ttlMs)
  {
    hide Next, Inv, RestoreAll, Listing;
    var s, id := states[n], rows[i].sessionId;
    RunKeepsInvariant(cfg, states, n);
    RestartRecoversCommitted(cfg, states, n, s', rows, clock, purged, id);
    ListedRow(s.tables, rows, i);
    if id in s'.m.sessions {
      RestoredTimes(cfg, s, s', rows, clock, purged, id);
      LookupFindsTheLiving(cfg.ttlMs, s'.m, id, nowMs);
    }
  }

  /** The same for a request that arrives after the restart, step by step, with the clock reading
      `c.now`: its lookup goes on with the session's entry exactly then, and otherwise without. */
  lemma {:induction false} RequestAfterRestart(cfg: Config, states: seq<State>, n: nat, s': State,
      rows: seq<StoredSession>, clock: seq<u64>, purged: nat, i: nat, s'': State, t: Tid, goal: Goal, c: Choice)
      returns (steps: nat, u: State)
    requires Run(cfg, states) && n < |states| && i < |rows| && |clock| == |rows|
    requires Restarts(cfg, states[n], s', rows, clock, purged) && s'.serving
    requires RequestArrives(s', s'', t, rows[i].sessionId, goal) && !goal.Readiness?
    ensures rows[i].sessionId in states[n].tables.sessions
    ensures Alone(cfg, s'', t, Times(c, steps)) == Some(u) && t in u.threads
    ensures var lived := states[n].tables.sessions[rows[i].sessionId].updatedAtMs + cfg.ttlMs;
            var found := clock[i] <= lived && c.now <= lived;
      && u.threads[t].pc.Drain? && u.threads[t].pc.goal == goal
      && (u.threads[t].pc.found.Some? <==> found)
      && (found ==> rows[i].sessionId in s'.m.sessions
                    && u.threads[t].pc.found == Some(s'.m.sessions[rows[i].sessionId]))
  {
    hide Next, Run, Alone, Times, Restarts, Touch, Evict;
    RestartKeepsTheTimes(cfg, states, n, s', rows, clock, purged, i, c.now);
    RestartIsIdle(cfg, states[n], s', rows, clock, purged);
    steps := GetAlone(cfg, s'', t, Lookup(goal), c);
    u := Alone(cfg, s'', t, Times(c, steps)).value;
  }

  /** A session just created is found for one time to live, by whoever looks it up next. */
  lemma {:induction false} CreatedIsLookedUp(cfg: Config, states: seq<State>, n: nat, t: Tid, id: SessionId,
                                             now: u64, laterMs: u64)
    requires Run(cfg, states) && n + 1 < |states| && CreateArrives(states[n], states[n + 1], t, id, now)
    ensures Looked(cfg.ttlMs, states[n + 1].m, id, laterMs).1.Some? <==> laterMs <= now + cfg.ttlMs
  {
    hide Next, Inv;
    RunKeepsInvariant(cfg, states, n + 1);
    MapOf(cfg, states[n + 1]);
    LookupFindsTheLiving(cfg.ttlMs, states[n + 1].m, id, laterMs);
  }

  lemma {:induction false} RestartIsIdle(cfg: Config, s: State, s': State, rows: seq<StoredSession>,
                                         clock: seq<u64>, purged: nat)
    requires Restarts(cfg, s, s', rows, clock, purged)
    ensures s'.writer.None? && s'.locks == map[] && s'.threads == map[]
  {
    hide Listing, RestoreAll, Recovered;
  }
}
