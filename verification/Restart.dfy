/** Arriving requests and restarts keep the invariant, so every run does. */
module Restart {
  import opened Text
  import opened Conversation
  import opened History
  import opened Store
  import opened Sessions
  import opened Server
  import opened Invariant
  import opened Preservation
  import opened Steps
  import opened Commit

  // ----- arrivals ------------------------------------------------------------------------------

  /** A new thread that holds nothing joins. */
  ghost predicate Joins(s: State, s': State, t: Tid, thread: Thread) {
    && t !in s.threads && s'.threads == s.threads[t := thread]
    && s'.locks == s.locks && s'.writer == s.writer && s'.permits == s.permits
    && Held(thread.pc).None? && !HoldsWriter(thread.pc) && !HoldsPermit(thread.pc)
  }

  lemma {:induction false} JoiningKeepsHoldings(s: State, s': State, t: Tid, thread: Thread)
    requires Joins(s, s', t, thread)
    requires LocksSound(s.locks, s.threads) && WriterSound(s.writer, s.threads)
    ensures LocksSound(s'.locks, s'.threads) && WriterSound(s'.writer, s'.threads)
    ensures PermitHolders(s'.threads) == PermitHolders(s.threads)
  {
  }

  lemma {:induction false} JoiningKeepsEntries(rules: Rules, s: State, s': State, t: Tid,
                                               thread: Thread, r: Ref)
    requires Joins(s, s', t, thread) && LocksSound(s.locks, s.threads)
    requires r < |s.m.heap| && r < |s'.m.heap| && s'.m.heap[r] == s.m.heap[r]
    requires s'.h.ops == s.h.ops && EntryCommitted(rules, s, r)
    ensures EntryCommitted(rules, s', r)
  {
  }

  lemma {:induction false} JoiningKeepsRows(s: State, s': State, t: Tid, thread: Thread,
                                            id: SessionId)
    requires Joins(s, s', t, thread) && LocksSound(s.locks, s.threads)
    requires id in s.m.sessions && id in s'.m.sessions && s'.m.sessions[id] == s.m.sessions[id]
    requires s'.tables == s.tables && s'.h.born == s.h.born && RowPresent(s, id)
    ensures RowPresent(s', id)
  {
  }

  lemma {:induction false} JoiningKeepsSettled(s: State, s': State, t: Tid, thread: Thread,
                                               id: SessionId)
    requires Joins(s, s', t, thread) && Settled(s, id)
    requires s'.h.ops == s.h.ops && s'.h.settled == s.h.settled
    ensures Settled(s', id)
  {
    if |OpsOf(s.h, id)| == SettledOf(s.h, id) + 1 {
      var u :| u in s.threads && s.threads[u].id == id && s.threads[u].pc.Reply?;
      assert u in s'.threads && s'.threads[u] == s.threads[u];
    }
  }

  lemma {:induction false} JoiningKeepsThreads(rules: Rules, s: State, s': State, t: Tid,
                                               thread: Thread)
    requires Joins(s, s', t, thread) && ThreadsSound(rules, s) && ThreadSound(rules, s', thread)
    requires Evolves(s, s', thread) && s.h.born <= s.h.used && !thread.pc.InsertRow?
    requires Creating(thread.pc) ==> thread.id !in s.h.used
    ensures ThreadsSound(rules, s')
  {
    hide Evolves, OperationSound;
    forall u | u in s'.threads
      ensures ThreadSound(rules, s', s'.threads[u])
    {
      if u != t {
        assert ThreadSound(rules, s, s.threads[u]);
        ThreadSurvives(rules, s, s', thread, s.threads[u]);
      }
    }
    forall u | u in s.threads && Creating(s.threads[u].pc)
      ensures s.threads[u].id in s.h.used
    {
      assert ThreadSound(rules, s, s.threads[u]);
    }
  }

  lemma {:induction false} RequestKeepsInvariant(cfg: Config, s: State, s': State, t: Tid,
                                                 id: SessionId, goal: Goal)
    requires Inv(cfg, s) && RequestArrives(s, s', t, id, goal)
    ensures Inv(cfg, s')
  {
    hide MapSound, TablesSound, HistorySound, Gone, ThreadsSound, LocksSound, WriterSound,
      EntryCommitted, RowPresent, Settled, Explained;
    var thread := s'.threads[t];
    NothingEvolves(s, s', thread);
    BornAreUsed(cfg, s);
    JoiningKeepsHoldings(s, s', t, thread);
    JoiningKeepsThreads(cfg.rules, s, s', t, thread);
    forall r | 0 <= r < |s'.m.heap|
      ensures EntryCommitted(cfg.rules, s', r)
    {
      JoiningKeepsEntries(cfg.rules, s, s', t, thread, r);
    }
    forall other | other in s'.m.sessions
      ensures RowPresent(s', other)
    {
      JoiningKeepsRows(s, s', t, thread, other);
    }
    forall other: SessionId
      ensures Settled(s', other)
    {
      JoiningKeepsSettled(s, s', t, thread, other);
    }
  }

  lemma {:induction false} NothingEvolves(s: State, s': State, mover: Thread)
    requires s'.m == s.m && s'.tables == s.tables && s'.h == s.h
    ensures Evolves(s, s', mover)
  {
  }

  lemma {:induction false} ArrivalEvolves(s: State, s': State, t: Tid, id: SessionId, now: u64)
    requires CreateArrives(s, s', t, id, now)
    ensures Evolves(s, s', s'.threads[t])
  {
  }

  lemma {:induction false} ArrivalKeepsShared(cfg: Config, s: State, s': State, t: Tid,
                                              id: SessionId, now: u64)
    requires Inv(cfg, s) && CreateArrives(s, s', t, id, now)
    ensures SharedSound(cfg.rules, s')
  {
    hide Inv, Replay, Journal, Valid;
    SharedOf(cfg, s);
    assert forall other :: OpsOf(s'.h, other) == OpsOf(s.h, other);
    AcksStayExplained(cfg.rules, s.h, s'.h);
    forall other | other in s'.tables.sessions
      ensures RowExplained(cfg.rules, s'.tables, s'.h, other)
    {
      assert RowExplained(cfg.rules, s.tables, s.h, other);
    }
  }

  lemma {:induction false} CreateKeepsInvariant(cfg: Config, s: State, s': State, t: Tid,
                                                id: SessionId, now: u64)
    requires Inv(cfg, s) && CreateArrives(s, s', t, id, now)
    ensures Inv(cfg, s')
  {
    hide MapSound, TablesSound, HistorySound, Gone, ThreadsSound, LocksSound, WriterSound,
      EntryCommitted, RowPresent, Settled, Explained, SharedSound, Evolves;
    var thread := s'.threads[t];
    ArrivalEvolves(s, s', t, id, now);
    ArrivalKeepsShared(cfg, s, s', t, id, now);
    SharedParts(cfg.rules, s');
    BornAreUsed(cfg, s);
    UnbornHasNoOps(cfg, s, id);
    JoiningKeepsHoldings(s, s', t, thread);
    JoiningKeepsThreads(cfg.rules, s, s', t, thread);
    NewEntryIsCommitted(cfg, s, s', t, id, now);
    forall r | 0 <= r < |s.m.heap|
      ensures EntryCommitted(cfg.rules, s', r)
    {
      JoiningKeepsEntries(cfg.rules, s, s', t, thread, r);
    }
    forall other | other in s'.m.sessions
      ensures RowPresent(s', other)
    {
      if other != id {
        JoiningKeepsRows(s, s', t, thread, other);
      }
    }
    forall other: SessionId
      ensures Settled(s', other)
    {
      JoiningKeepsSettled(s, s', t, thread, other);
    }
  }

  lemma {:induction false} SharedParts(rules: Rules, s: State)
    requires SharedSound(rules, s)
    ensures MapSound(s.m, s.h.used) && Condemned(s.m, s.h.used, s.m.expired)
    ensures TablesSound(rules, s.tables, s.h) && HistorySound(s.h) && Gone(s.m, s.tables, s.h)
    ensures forall ack :: ack in s.h.acks ==> Explained(rules, s.h, ack)
  {
  }

  lemma {:induction false} NewEntryIsCommitted(cfg: Config, s: State, s': State, t: Tid,
                                               id: SessionId, now: u64)
    requires Inv(cfg, s) && CreateArrives(s, s', t, id, now)
    ensures EntryCommitted(cfg.rules, s', |s.m.heap|) && RowPresent(s', id)
  {
    hide Inv;
    UnbornHasNoOps(cfg, s, id) by {
      BornAreUsed(cfg, s);
    }
    BornAreUsed(cfg, s);
    assert OpsOf(s'.h, id) == [];
  }

  // ----- restarts ------------------------------------------------------------------------------

  ghost predicate Distinct(rows: seq<StoredSession>) {
    && (forall i, j :: 0 <= i < j < |rows| ==> rows[i].sessionId != rows[j].sessionId)
    && (forall i :: 0 <= i < |rows| ==> rows[i].snapshot.sessionId == rows[i].sessionId)
  }

  /** The map and the entries mirror one another, and the queue holds none of them. */
  ghost predicate Mirrored(m: Manager) {
    && (forall id :: id in m.sessions ==>
          && m.sessions[id] < |m.heap| && m.heap[m.sessions[id]].id == id)
    && (forall r :: 0 <= r < |m.heap| ==>
          && m.heap[r].id in m.sessions && m.sessions[m.heap[r].id] == r
          && !m.heap[r].deleted)
    && (forall id :: id in m.expired ==> id !in m.sessions)
  }

  /** An entry with the snapshot of a row, its time of creation, and its last update as last use. */
  predicate Carries(e: Entry, row: StoredSession) {
    && row.sessionId == e.id && row.snapshot == e.state
    && row.createdAtMs == e.createdAtMs && row.updatedAtMs == e.lastAccessMs
  }

  /** Every entry carries a row, and every queued id is the id of one. */
  ghost predicate FromRows(m: Manager, rows: seq<StoredSession>) {
    && (forall r :: 0 <= r < |m.heap| ==>
          exists i :: 0 <= i < |rows| && Carries(m.heap[r], rows[i]))
    && (forall id :: id in m.expired ==>
          exists i :: 0 <= i < |rows| && rows[i].sessionId == id)
  }

  /** What restoring leaves: each row is mapped to a live entry with its snapshot, or queued. */
  ghost predicate Restored(ttlMs: u64, m: Manager, rows: seq<StoredSession>, clock: seq<u64>)
    requires |clock| == |rows|
  {
    && Mirrored(m) && FromRows(m, rows)
    && (forall i :: 0 <= i < |rows| ==>
          if IsExpired(ttlMs, rows[i].updatedAtMs, clock[i]) then rows[i].sessionId in m.expired
          else rows[i].sessionId in m.sessions)
  }

  lemma {:induction false} RestoringFromRows(ttlMs: u64, m: Manager, rows: seq<StoredSession>,
                                             row: StoredSession, now: u64)
    requires FromRows(m, rows) && row.snapshot.sessionId == row.sessionId
    ensures FromRows(RestoreOne(ttlMs, m, row, now), rows + [row])
  {
    var m', rows' := RestoreOne(ttlMs, m, row, now), rows + [row];
    assert rows'[|rows|] == row;
    forall r | 0 <= r < |m'.heap|
      ensures exists i :: 0 <= i < |rows'| && Carries(m'.heap[r], rows'[i])
    {
      if r < |m.heap| {
        assert m'.heap[r] == m.heap[r];
        var i :| 0 <= i < |rows| && Carries(m.heap[r], rows[i]);
        assert rows'[i] == rows[i];
      }
    }
    forall id | id in m'.expired
      ensures exists i :: 0 <= i < |rows'| && rows'[i].sessionId == id
    {
      if id in m.expired {
        var i :| 0 <= i < |rows| && rows[i].sessionId == id;
        assert rows'[i] == rows[i];
      }
    }
  }

  lemma {:induction false} RestoringOne(ttlMs: u64, m: Manager, rows: seq<StoredSession>,
                                        clock: seq<u64>, row: StoredSession, now: u64)
    requires |clock| == |rows| && Restored(ttlMs, m, rows, clock) && Distinct(rows + [row])
    ensures Restored(ttlMs, RestoreOne(ttlMs, m, row, now), rows + [row], clock + [now])
  {
    hide FromRows;
    var rows', clock' := rows + [row], clock + [now];
    assert rows'[|rows|] == row && clock'[|rows|] == now;
    assert forall i :: 0 <= i < |rows| ==> rows'[i] == rows[i] && clock'[i] == clock[i];
    RestoringFromRows(ttlMs, m, rows, row, now);
    NewRowIsNew(m, rows, row);
  }

  lemma {:induction false} NewRowIsNew(m: Manager, rows: seq<StoredSession>, row: StoredSession)
    requires Mirrored(m) && FromRows(m, rows) && Distinct(rows + [row])
    ensures row.sessionId !in m.sessions && row.sessionId !in m.expired
  {
    var rows' := rows + [row];
    assert rows'[|rows|] == row;
    assert forall i :: 0 <= i < |rows| ==> rows'[i] == rows[i];
  }

  lemma {:induction false} RestoringAll(ttlMs: u64, rows: seq<StoredSession>, clock: seq<u64>)
    requires |clock| == |rows| && Distinct(rows)
    ensures Restored(ttlMs, RestoreAll(ttlMs, rows, clock), rows, clock)
  {
    if rows != [] {
      var n := |rows| - 1;
      RestoringAll(ttlMs, rows[..n], clock[..n]);
      assert rows == rows[..n] + [rows[n]] && clock == clock[..n] + [clock[n]];
      RestoringOne(ttlMs, RestoreAll(ttlMs, rows[..n], clock[..n]), rows[..n], clock[..n],
                   rows[n], clock[n]);
    }
  }

  lemma {:induction false} DeletingAll(rules: Rules, t: Tables, h: Chronicle, ids: seq<SessionId>)
    requires TablesSound(rules, t, h)
    ensures TablesSound(rules, DeleteAll(t, ids), h)
    ensures forall id :: id in DeleteAll(t, ids).sessions <==> id in t.sessions && id !in ids
    ensures forall id :: id in DeleteAll(t, ids).sessions ==>
              && DeleteAll(t, ids).sessions[id] == t.sessions[id]
              && EventsOf(DeleteAll(t, ids), id) == EventsOf(t, id)
  {
    hide TablesSound;
    if ids != [] {
      var front, last := ids[..|ids| - 1], ids[|ids| - 1];
      DeletingAll(rules, t, h, front);
      DeleteKeepsTables(rules, DeleteAll(t, front), h, last);
      assert forall id :: id in ids <==> id in front || id == last;
    }
  }

  /** A listing of sound tables: distinct rows, each with its replayed snapshot. */
  lemma {:induction false} ListingIsExplained(rules: Rules, t: Tables, h: Chronicle,
                                              rows: seq<StoredSession>)
    requires TablesSound(rules, t, h) && Listing(t, rows)
    ensures Distinct(rows)
    ensures forall i :: 0 <= i < |rows| ==>
              && rows[i].sessionId in h.born && rows[i].sessionId in t.sessions
              && rows[i].snapshot == Replay(rules, rows[i].sessionId, OpsOf(h, rows[i].sessionId))
  {
    forall i | 0 <= i < |rows|
      ensures rows[i].sessionId in h.born && rows[i].sessionId in t.sessions
      ensures rows[i].snapshot == Replay(rules, rows[i].sessionId, OpsOf(h, rows[i].sessionId))
      ensures rows[i].snapshot.sessionId == rows[i].sessionId
    {
      assert ReadSession(rows[i].sessionId, t.sessions[rows[i].sessionId]) == Success(rows[i]);
      assert RowExplained(rules, t, h, rows[i].sessionId);
    }
  }

  lemma {:induction false} RecoveryKeepsHistory(rules: Rules, t: Tables, h: Chronicle)
    requires TablesSound(rules, t, h) && HistorySound(h)
    requires forall ack :: ack in h.acks ==> Explained(rules, h, ack)
    ensures TablesSound(rules, t, Recovered(h)) && HistorySound(Recovered(h))
    ensures forall ack :: ack in h.acks ==> Explained(rules, Recovered(h), ack)
  {
    var h' := Recovered(h);
    assert forall id :: OpsOf(h', id) == OpsOf(h, id);
    AcksStayExplained(rules, h, h');
    forall id | id in t.sessions
      ensures RowExplained(rules, t, h', id)
    {
      assert RowExplained(rules, t, h, id);
    }
  }

  /** A state without threads is sound when its entries are committed and have their rows. */
  lemma {:induction false} FreshProcessIsSound(cfg: Config, s: State, h: Chronicle)
    requires s.threads == map[] && s.locks == map[] && s.writer == None && s.permits == Slots(cfg)
    requires s.h == Recovered(h) && SharedSound(cfg.rules, s)
    requires forall r :: 0 <= r < |s.m.heap| ==>
               s.m.heap[r].state == Replay(cfg.rules, s.m.heap[r].id, OpsOf(h, s.m.heap[r].id))
    requires forall id :: id in s.m.sessions ==> id in s.tables.sessions
    ensures Inv(cfg, s)
  {
    hide MapSound, TablesSound, HistorySound, Gone, Explained, Replay;
    SharedParts(cfg.rules, s);
    assert PermitHolders(s.threads) == {};
    assert forall id :: OpsOf(s.h, id) == OpsOf(h, id) && SettledOf(s.h, id) == |OpsOf(h, id)|;
  }

  lemma {:induction false} CrashKeepsInvariant(cfg: Config, s: State, s': State)
    requires Inv(cfg, s) && Crashes(cfg, s, s')
    ensures Inv(cfg, s')
  {
    hide TablesSound, HistorySound, Explained, Replay;
    RecoveryKeepsHistory(cfg.rules, s.tables, s.h);
    FreshProcessIsSound(cfg, s', s.h);
  }

  /** What a restart leaves in memory and in the tables. */
  lemma {:induction false} RestartFacts(cfg: Config, s: State, s': State,
                                        rows: seq<StoredSession>, clock: seq<u64>, purged: nat)
    requires Inv(cfg, s) && Restarts(cfg, s, s', rows, clock, purged)
    ensures TablesSound(cfg.rules, s'.tables, s.h)
    ensures forall id :: id in s'.tables.sessions ==>
              id in s.tables.sessions && s'.tables.sessions[id] == s.tables.sessions[id]
    ensures s'.serving ==> forall i :: 0 <= i < |rows| ==>
              (rows[i].sessionId in s'.tables.sessions
               <==> clock[i] <= rows[i].updatedAtMs + cfg.ttlMs)
    ensures s'.serving ==> s'.m.sessions.Keys == s'.tables.sessions.Keys
    ensures s'.m == EMPTY || (Restored(cfg.ttlMs, RestoreAll(cfg.ttlMs, rows, clock), rows, clock)
                              && s'.m == Drained(RestoreAll(cfg.ttlMs, rows, clock)))
    ensures forall i :: 0 <= i < |rows| ==>
              && rows[i].sessionId in s.h.born && rows[i].sessionId in s.tables.sessions
              && rows[i].snapshot == Replay(cfg.rules, rows[i].sessionId, OpsOf(s.h, rows[i].sessionId))
    ensures forall id :: id in s'.m.sessions ==> id in s'.tables.sessions
  {
    hide Inv, TablesSound, Replay, Listing;
    SharedOf(cfg, s);
    var m := RestoreAll(cfg.ttlMs, rows, clock);
    ListingIsExplained(cfg.rules, s.tables, s.h, rows);
    RestoringAll(cfg.ttlMs, rows, clock);
    DeletingAll(cfg.rules, s.tables, s.h, m.expired[..purged]);
    forall id | id in s'.m.sessions
      ensures id in s'.tables.sessions
    {
      assert m.heap[m.sessions[id]].id == id;
      var i :| 0 <= i < |rows| && rows[i].sessionId == id;
      assert id !in m.expired[..purged];
    }
    if s'.serving {
      assert m.expired[..purged] == m.expired;
      forall i | 0 <= i < |rows|
        ensures rows[i].sessionId in s'.tables.sessions
           <==> clock[i] <= rows[i].updatedAtMs + cfg.ttlMs
      {
      }
      forall id | id in s'.tables.sessions
        ensures id in s'.m.sessions
      {
        ListedOnce(s.tables, rows, id);
      }
    }
  }

  lemma {:induction false} ListedOnce(t: Tables, rows: seq<StoredSession>, id: SessionId)
    requires Listing(t, rows) && id in t.sessions
    ensures exists i :: 0 <= i < |rows| && rows[i].sessionId == id
  {
  }

  lemma {:induction false} RestartKeepsInvariant(cfg: Config, s: State, s': State,
                                                 rows: seq<StoredSession>, clock: seq<u64>,
                                                 purged: nat)
    requires Inv(cfg, s) && Restarts(cfg, s, s', rows, clock, purged)
    ensures Inv(cfg, s')
  {
    hide Inv, TablesSound, Replay, Listing, Explained, Recovered, RestoreAll, HistorySound, MapSound, Restored;
    SharedOf(cfg, s);
    RestartFacts(cfg, s, s', rows, clock, purged);
    RecoveryKeepsHistory(cfg.rules, s'.tables, s.h);
    RecoveredFields(s.h);
    RestartedEntries(cfg, s, s', rows, clock, purged);
    RestartKeepsGone(cfg, s, s', rows, clock, purged);
    FreshProcessIsSound(cfg, s', s.h);
  }

  /** The entries a restart makes are those of stored sessions, with their snapshots. */
  lemma {:induction false} RestartedEntries(cfg: Config, s: State, s': State,
                                            rows: seq<StoredSession>, clock: seq<u64>, purged: nat)
    requires Inv(cfg, s) && Restarts(cfg, s, s', rows, clock, purged)
    ensures MapSound(s'.m, s'.h.used) && Condemned(s'.m, s'.h.used, s'.m.expired)
    ensures forall r :: 0 <= r < |s'.m.heap| ==>
              s'.m.heap[r].state == Replay(cfg.rules, s'.m.heap[r].id, OpsOf(s.h, s'.m.heap[r].id))
  {
    hide Inv, TablesSound, Replay, Listing, Recovered, RestoreAll;
    BornAreUsed(cfg, s);
    RestartFacts(cfg, s, s', rows, clock, purged);
    RecoveredFields(s.h);
    forall r | 0 <= r < |s'.m.heap|
      ensures s'.m.heap[r].id in s.h.born
      ensures s'.m.heap[r].state == Replay(cfg.rules, s'.m.heap[r].id, OpsOf(s.h, s'.m.heap[r].id))
    {
      var i :| 0 <= i < |rows| && Carries(s'.m.heap[r], rows[i]);
    }
  }

  lemma {:induction false} RestartKeepsGone(cfg: Config, s: State, s': State,
                                            rows: seq<StoredSession>, clock: seq<u64>, purged: nat)
    requires Inv(cfg, s) && Restarts(cfg, s, s', rows, clock, purged)
    ensures Gone(s'.m, s'.tables, s'.h)
  {
    hide Inv, TablesSound, Replay, Listing, Recovered, RestoreAll, Restored, MapSound, HistorySound;
    SharedOf(cfg, s);
    RestartFacts(cfg, s, s', rows, clock, purged);
    RecoveredFields(s.h);
  }

  lemma {:induction false} RecoveredFields(h: Chronicle)
    ensures Recovered(h) == h.(settled := Recovered(h).settled, lost := Recovered(h).lost)
  {
  }

  // ----- every run -----------------------------------------------------------------------------

  lemma {:induction false} InitIsSound(cfg: Config, s: State)
    requires Init(cfg, s)
    ensures Inv(cfg, s)
  {
    assert PermitHolders(s.threads) == {};
  }

  lemma {:induction false} NextKeepsInvariant(cfg: Config, s: State, s': State)
    requires Inv(cfg, s) && Next(cfg, s, s')
    ensures Inv(cfg, s')
  {
    hide Inv, Step, CreateArrives, RequestArrives, Restarts, Crashes;
    if t :| StepOf(cfg, s, s', t) {
      var c :| Step(cfg, s, t, c) == Some(s');
      StepKeepsInvariant(cfg, s, t, c, s');
    } else if t, id, now :| CreateArrives(s, s', t, id, now) {
      CreateKeepsInvariant(cfg, s, s', t, id, now);
    } else if t, id, goal :| RequestArrives(s, s', t, id, goal) {
      RequestKeepsInvariant(cfg, s, s', t, id, goal);
    } else if rows, clock, purged :| Restarts(cfg, s, s', rows, clock, purged) {
      RestartKeepsInvariant(cfg, s, s', rows, clock, purged);
    } else {
      CrashKeepsInvariant(cfg, s, s');
    }
  }

  /** The invariant holds in every state of every run. */
  lemma {:induction false} RunKeepsInvariant(cfg: Config, states: seq<State>, i: nat)
    requires Run(cfg, states) && i < |states|
    ensures Inv(cfg, states[i])
  {
    hide Inv, Next;
    if i == 0 {
      InitIsSound(cfg, states[0]);
    } else {
      RunKeepsInvariant(cfg, states, i - 1);
      NextKeepsInvariant(cfg, states[i - 1], states[i]);
    }
  }
}
