/** A schedule at which a crash costs two responses of one session: a chat has given up the
    session's lock and not yet answered when a reset commits behind it. */
module LostResponses {
  import opened Text
  import opened Conversation
  import opened History
  import opened Store
  import opened Sessions
  import opened Server
  import opened Uninterrupted
  import opened Accounting
  import opened Restart
  import opened Invariant
  import Preservation
  import Steps
  import Runs

  ghost predicate Reaches(cfg: Config, s: State) {
    exists states :: Run(cfg, states) && states[|states| - 1] == s
  }

  lemma {:induction false} ReachNext(cfg: Config, s: State, s': State)
    requires Reaches(cfg, s) && Next(cfg, s, s')
    ensures Reaches(cfg, s')
  {
    hide Next, Init;
    var states :| Run(cfg, states) && states[|states| - 1] == s;
    var longer := states + [s'];
    forall i | 0 <= i < |longer| - 1
      ensures Next(cfg, longer[i], longer[i + 1])
    {
      assert longer[i] == states[i];
    }
    assert Run(cfg, longer);
  }

  lemma {:induction false} ReachStep(cfg: Config, s: State, t: Tid, c: Choice, s': State)
    requires Reaches(cfg, s) && t in s.threads && Step(cfg, s, t, c) == Some(s')
    ensures Reaches(cfg, s')
  {
    hide Reaches, Step, CreateArrives, RequestArrives, Restarts, Crashes;
    assert StepOf(cfg, s, s', t);
    ReachNext(cfg, s, s');
  }

  lemma {:induction false} ReachAlone(cfg: Config, s: State, t: Tid, choices: seq<Choice>, s': State)
    requires Reaches(cfg, s) && Alone(cfg, s, t, choices) == Some(s')
    ensures Reaches(cfg, s')
  {
    hide Reaches, Step;
    if choices != [] {
      var front := choices[..|choices| - 1];
      var u := Alone(cfg, s, t, front).value;
      ReachAlone(cfg, s, t, front, u);
      ReachStep(cfg, u, t, choices[|choices| - 1], s');
    }
  }

  /** Session 0 is mapped, live at time 0, has its row, and nothing is queued. */
  ghost predicate Ready(s: State) {
    && s.serving && s.writer.None? && s.m.expired == [] && s.m.sessions == map[0 := 0]
    && |s.m.heap| == 1 && s.m.heap[0].id == 0 && !s.m.heap[0].deleted && s.m.heap[0].lastAccessMs == 0
    && 0 in s.tables.sessions
  }

  function At0(eventId: Uuid): Choice {
    Choice(0, false, Success("reply"), 0, eventId, eventId + 1, [])
  }

  /** At time 0 a lookup of session 0 finds it and changes nothing. */
  lemma {:induction false} FindsSession(cfg: Config, s: State, t: Tid, caller: Caller)
    requires t in s.threads && s.threads[t].pc == GetRead(caller) && s.threads[t].id == 0
    requires s.writer.None? && s.m.sessions == map[0 := 0] && |s.m.heap| == 1
    requires !s.m.heap[0].deleted && s.m.heap[0].lastAccessMs == 0
    requires Reaches(cfg, s) && AfterGet(caller, Some(0)).Some?
    ensures Reaches(cfg, Go(s, t, AfterGet(caller, Some(0)).value))
  {
    hide Reaches, Alone, Times, AfterGet;
    var n := GetAlone(cfg, s, t, caller, At0(1));
    assert s.m.heap[0 := s.m.heap[0].(lastAccessMs := 0)] == s.m.heap;
    ReachAlone(cfg, s, t, Times(At0(1), n), Go(s, t, AfterGet(caller, Some(0)).value));
  }

  /** The server just after the first create drew its id. */
  function Begun(cfg: Config, pc: Pc): State {
    State(Insert(EMPTY, NewEntry(Fresh(0), 0, 0)), None, map[], Slots(cfg), map[0 := Thread(0, 0, pc)], true,
          Tables(map[], map[]), Chronicle({0}, {}, map[], map[], [], {}, {}))
  }

  lemma {:induction false} GoesTo(cfg: Config, pc: Pc, next: Pc)
    ensures Go(Begun(cfg, pc), 0, next) == Begun(cfg, next)
  {
  }

  /** It reads its session back, twice. */
  lemma {:induction false} ReadsSnapshot(cfg: Config)
    ensures Reaches(cfg, Begun(cfg, LockSnapshot(0)))
  {
    hide Reaches, Step, Go;
    Begins(cfg);
    FindsSession(cfg, Begun(cfg, GetRead(Snapshotting)), 0, Snapshotting);
    GoesTo(cfg, GetRead(Snapshotting), LockSnapshot(0));
  }

  lemma {:induction false} ReadsMetadata(cfg: Config)
    ensures Reaches(cfg, Begun(cfg, LockMeasure(0, Fresh(0))))
  {
    hide Reaches, Step, Go;
    var again := GetRead(Measuring(Fresh(0)));
    ReadsSnapshot(cfg);
    CreateSteps(cfg, Begun(cfg, LockSnapshot(0)), 0);
    GoesTo(cfg, LockSnapshot(0), again);
    ReachStep(cfg, Begun(cfg, LockSnapshot(0)), 0, At0(1), Begun(cfg, again));
    FindsSession(cfg, Begun(cfg, again), 0, Measuring(Fresh(0)));
    GoesTo(cfg, again, LockMeasure(0, Fresh(0)));
  }

  /** The first session is created. */
  lemma {:induction false} ReadsBack(cfg: Config)
    ensures Reaches(cfg, Begun(cfg, InsertRow(Fresh(0), 0)))
  {
    hide Reaches, Step, Go;
    ReadsMetadata(cfg);
    CreateSteps(cfg, Begun(cfg, LockMeasure(0, Fresh(0))), 0);
    GoesTo(cfg, LockMeasure(0, Fresh(0)), InsertRow(Fresh(0), 0));
    ReachStep(cfg, Begun(cfg, LockMeasure(0, Fresh(0))), 0, At0(1), Begun(cfg, InsertRow(Fresh(0), 0)));
  }

  lemma {:induction false} Created(cfg: Config) returns (s: State)
    ensures Reaches(cfg, s) && Ready(s) && s.threads == map[] && s.locks == map[] && s.permits == Slots(cfg)
    ensures s.h == Chronicle({0}, {0}, map[], map[], [], {}, {}) && s.m.heap[0].state == Fresh(0)
    ensures s.tables.events == map[]
  {
    hide Reaches, Step;
    var inserting := Begun(cfg, InsertRow(Fresh(0), 0));
    ReadsBack(cfg);
    CreateSteps(cfg, inserting, 0);
    s := Finish(inserting.(tables := Tables(map[0 := SessionRow(0, Fresh(0), 0, 0)], map[]),
                           h := inserting.h.(born := inserting.h.born + {0})), 0);
    ReachStep(cfg, inserting, 0, At0(1), s);
  }

  lemma {:induction false} Begins(cfg: Config)
    ensures Reaches(cfg, Begun(cfg, GetRead(Snapshotting)))
  {
    hide Step;
    var start := State(EMPTY, None, map[], Slots(cfg), map[], true, Tables(map[], map[]),
                       Chronicle({}, {}, map[], map[], [], {}, {}));
    assert Run(cfg, [start]) && [start][0] == start;
    assert CreateArrives(start, Begun(cfg, GetRead(Snapshotting)), 0, 0, 0);
    ReachNext(cfg, start, Begun(cfg, GetRead(Snapshotting)));
  }

  lemma {:induction false} CreateSteps(cfg: Config, s: State, t: Tid)
    requires t in s.threads && s.threads[t].id == 0 && s.locks == map[]
    requires |s.m.heap| == 1 && s.m.heap[0].state == Fresh(0) && s.m.heap[0].createdAtMs == 0
    ensures s.threads[t].pc == LockSnapshot(0) ==>
              Step(cfg, s, t, At0(1)) == Some(Go(s, t, GetRead(Measuring(Fresh(0)))))
    ensures s.threads[t].pc == LockMeasure(0, Fresh(0)) ==>
              Step(cfg, s, t, At0(1)) == Some(Go(s, t, InsertRow(Fresh(0), 0)))
    ensures s.threads[t].pc == InsertRow(Fresh(0), 0) && s.tables == Tables(map[], map[]) ==>
              Step(cfg, s, t, At0(1))
              == Some(Finish(s.(tables := Tables(map[0 := SessionRow(0, Fresh(0), 0, 0)], map[]),
                                h := s.h.(born := s.h.born + {0})), t))
  {
  }

  /** A request for session 0 arrives and gets past its lookup and its purge. */
  lemma {:induction false} LooksUp(cfg: Config, s: State, t: Tid, action: Action) returns (u: State)
    requires Reaches(cfg, s) && Ready(s) && t !in s.threads
    ensures Reaches(cfg, u) && AfterPurge(Change(action), Some(0)).Some?
    ensures u == s.(threads := s.threads[t := Thread(0, |OpsOf(s.h, 0)|, AfterPurge(Change(action), Some(0)).value)])
  {
    hide Reaches, Step;
    var goal := Change(action);
    var base := s.(threads := s.threads[t := Thread(0, |OpsOf(s.h, 0)|, GetRead(Lookup(goal)))]);
    assert RequestArrives(s, base, t, 0, goal);
    ReachNext(cfg, s, base);
    FindsSession(cfg, base, t, Lookup(goal));
    var draining := Go(base, t, Drain(goal, Some(0)));
    var purging := Go(draining, t, Purge(goal, Some(0), []));
    PurgesNothing(cfg, draining, t, goal);
    ReachStep(cfg, draining, t, At0(1), purging);
    u := Go(purging, t, AfterPurge(goal, Some(0)).value);
    ReachStep(cfg, purging, t, At0(1), u);
  }

  lemma {:induction false} PurgesNothing(cfg: Config, s: State, t: Tid, goal: Goal)
    requires t in s.threads && s.threads[t].pc == Drain(goal, Some(0)) && s.m.expired == []
    requires AfterPurge(goal, Some(0)).Some?
    ensures var purging := Go(s, t, Purge(goal, Some(0), []));
      && Step(cfg, s, t, At0(1)) == Some(purging)
      && Step(cfg, purging, t, At0(1)) == Some(Go(purging, t, AfterPurge(goal, Some(0)).value))
  {
    hide AfterPurge;
  }

  /** It takes the session's lock, which is free. */
  lemma {:induction false} TakesLock(cfg: Config, s: State, t: Tid, action: Action) returns (u: State)
    requires Reaches(cfg, s) && t in s.threads && s.threads[t].pc == Lock(action, 0) && 0 !in s.locks
    ensures Reaches(cfg, u) && u == Go(s.(locks := s.locks[0 := t]), t, Begin(action, 0))
  {
    hide Reaches;
    u := Step(cfg, s, t, At0(1)).value;
    ReachStep(cfg, s, t, At0(1), u);
  }

  lemma {:induction false} ReachedIsSound(cfg: Config, s: State)
    requires Reaches(cfg, s)
    ensures Inv(cfg, s)
  {
    hide Inv, Run;
    RunsAreNotEmpty(cfg);
    var states :| Run(cfg, states) && states[|states| - 1] == s;
    RunKeepsInvariant(cfg, states, |states| - 1);
  }

  lemma {:induction false} RunsAreNotEmpty(cfg: Config)
    ensures forall states :: Run(cfg, states) ==> states != []
  {
  }

  lemma {:induction false} AppendStep(cfg: Config, s: State, t: Tid)
    requires t in s.threads && s.threads[t].pc.Append?
    ensures var id, pc := s.threads[t].id, s.threads[t].pc;
      var appended := Store.AppendEvents(s.tables, id, pc.previous.version, pc.events, At(s.m, pc.r).state, pc.now);
      appended.Success? ==>
        Step(cfg, s, t, At0(1))
        == Some(Go(s.(tables := appended.value, h := Committed(s.h, id, pc.op)), t,
                   Reply(pc.action, pc.r, pc.answer)))
  {
    hide Store.AppendEvents;
  }

  lemma {:induction false} AppendAddsIds(t: Tables, id: SessionId, expected: u64, events: seq<NewEvent>,
                                         snapshot: ConversationState, now: u64)
    requires Valid(t) && Store.AppendEvents(t, id, expected, events, snapshot, now).Success?
    ensures var t' := Store.AppendEvents(t, id, expected, events, snapshot, now).value;
      && id in t'.sessions && |EventsOf(t', id)| == |EventsOf(t, id)| + |events|
      && AllEventIds(t') == AllEventIds(t) + (set i | 0 <= i < |events| :: events[i].eventId)
  {
    hide Store.AppendEvents, AllEventIds, FreshIds, Valid;
    AppendIsConcatenation(t, id, expected, events, snapshot, now);
    var t' := Store.AppendEvents(t, id, expected, events, snapshot, now).value;
    var base := LastSequence(EventsOf(t, id));
    var rows := Numbered(base, events);
    NumberedKeepsIds(base, events);
    IdsAfterGrowth(t, id, rows);
    SameEventIds(rows, events);
    EventsOnly(t', Grown(t, id, rows));
  }

  lemma {:induction false} SameEventIds(rows: seq<EventRow>, events: seq<NewEvent>)
    requires SameIds(rows, events)
    ensures EventIds(rows) == (set i | 0 <= i < |events| :: events[i].eventId)
  {
  }

  lemma {:induction false} EventsOnly(a: Tables, b: Tables)
    requires a.events == b.events
    ensures AllEventIds(a) == AllEventIds(b)
  {
  }

  /** With fresh event ids and small numbers the append of a drafted operation goes through. */
  lemma {:induction false} Commits(cfg: Config, s: State, t: Tid, pc: Pc) returns (u: State)
    requires Reaches(cfg, s) && t in s.threads && s.threads[t].id == 0 && s.threads[t].pc == pc && pc.Append?
    requires 0 in s.tables.sessions && At(s.m, pc.r).state.version <= 10 && pc.now == 0
    requires FreshIds(s.tables, pc.events) && |EventsOf(s.tables, 0)| + |pc.events| <= 10
    requires forall i | 0 <= i < |pc.events| :: pc.events[i].occurredAtMs == 0
    ensures Reaches(cfg, u) && 0 in u.tables.sessions
    ensures u == Go(s.(tables := u.tables, h := Committed(s.h, 0, pc.op)), t, Reply(pc.action, pc.r, pc.answer))
    ensures |EventsOf(u.tables, 0)| == |EventsOf(s.tables, 0)| + |pc.events|
    ensures AllEventIds(u.tables) == AllEventIds(s.tables) + (set i | 0 <= i < |pc.events| :: pc.events[i].eventId)
  {
    hide Reaches, Inv, Store.AppendEvents, AllEventIds, FreshIds, Step, EventsOf, Committed, At, Valid;
    ReachedIsSound(cfg, s);
    Runs.AppendNeverConflicts(cfg, s, t);
    var appended := Store.AppendEvents(s.tables, 0, pc.previous.version, pc.events, At(s.m, pc.r).state, pc.now);
    ReachedTablesAreValid(cfg, s);
    AppendAddsIds(s.tables, 0, pc.previous.version, pc.events, At(s.m, pc.r).state, pc.now);
    u := Go(s.(tables := appended.value, h := Committed(s.h, 0, pc.op)), t, Reply(pc.action, pc.r, pc.answer));
    AppendStep(cfg, s, t);
    ReachStep(cfg, s, t, At0(1), u);
  }

  lemma {:induction false} ReachedTablesAreValid(cfg: Config, s: State)
    requires Inv(cfg, s)
    ensures Valid(s.tables)
  {
    hide Inv, Valid;
    Steps.SharedOf(cfg, s);
  }

  lemma {:induction false} AdmitsHello()
    ensures Admit("hi") == Success("hi")
  {
    TrimmedIsFixed(IsWhiteSpace, "hi");
  }

  /** The chat drafts its turn. */
  lemma {:induction false} DraftsChat(cfg: Config, s: State, t: Tid) returns (u: State)
    requires Reaches(cfg, s) && t in s.threads && s.threads[t].pc == Begin(Chat("hi"), 0)
    requires |s.m.heap| == 1 && s.m.heap[0].state == Fresh(0) && !s.m.heap[0].deleted
    ensures Reaches(cfg, u) && t in u.threads
    ensures var pc := u.threads[t].pc;
      && u == Go(s.(m := SetState(s.m, 0, At(u.m, 0).state)), t, pc)
      && pc.Append? && pc.action == Chat("hi") && pc.r == 0 && pc.now == 0
      && |pc.events| == 2 && pc.events[0].eventId == 1 && pc.events[1].eventId == 2
      && (forall i | 0 <= i < 2 :: pc.events[i].occurredAtMs == 0)
    ensures At(u.m, 0).state.version == 2
  {
    hide Reaches, Admit, Utf8Length, TypeName;
    AdmitsHello();
    u := Step(cfg, s, t, At0(1)).value;
    ReachStep(cfg, s, t, At0(1), u);
  }

  /** The reset drafts its own. */
  lemma {:induction false} DraftsReset(cfg: Config, s: State, t: Tid) returns (u: State)
    requires Reaches(cfg, s) && t in s.threads && s.threads[t].pc == Begin(Action.Reset, 0)
    requires |s.m.heap| == 1 && s.m.heap[0].state.version == 2 && !s.m.heap[0].deleted
    ensures Reaches(cfg, u) && t in u.threads
    ensures var pc := u.threads[t].pc;
      && u == Go(s.(m := SetState(s.m, 0, At(u.m, 0).state)), t, pc)
      && pc.Append? && pc.action == Action.Reset && pc.r == 0 && pc.now == 0
      && |pc.events| == 1 && pc.events[0].eventId == 3 && pc.events[0].occurredAtMs == 0
    ensures At(u.m, 0).state.version == 3
  {
    hide Reaches, TypeName;
    u := Step(cfg, s, t, At0(3)).value;
    ReachStep(cfg, s, t, At0(3), u);
  }

  lemma {:induction false} SetStateFacts(m: Manager, state: ConversationState)
    requires |m.heap| == 1
    ensures var m' := SetState(m, 0, state);
      && |m'.heap| == 1 && m'.heap[0] == m.heap[0].(state := state)
      && m'.sessions == m.sessions && m'.expired == m.expired
  {
  }

  /** The chat gets the lock. */
  lemma {:induction false} ChatBegins(cfg: Config) returns (s: State)
    ensures Reaches(cfg, s) && Ready(s) && s.threads == map[1 := Thread(0, 0, Begin(Chat("hi"), 0))]
    ensures s.locks == map[0 := 1] && s.m.heap[0].state == Fresh(0) && s.tables.events == map[]
    ensures s.h == Chronicle({0}, {0}, map[], map[], [], {}, {})
  {
    hide Reaches, Step;
    var s0 := Created(cfg);
    var s1 := LooksUp(cfg, s0, 1, Chat("hi"));
    var s2 := Go(s1.(permits := s1.permits - 1), 1, Lock(Chat("hi"), 0));
    PermitStep(cfg, s1, 1, "hi");
    ReachStep(cfg, s1, 1, At0(1), s2);
    s := TakesLock(cfg, s2, 1, Chat("hi"));
  }

  /** The chat commits. */
  lemma {:induction false} ChatCommits(cfg: Config) returns (s: State)
    ensures Reaches(cfg, s) && Ready(s) && s.threads.Keys == {1} && s.locks == map[0 := 1]
    ensures s.threads[1].id == 0 && s.threads[1].pc.Reply? && s.threads[1].pc.action == Chat("hi") && s.threads[1].pc.r == 0
    ensures |OpsOf(s.h, 0)| == 1 && s.h.acks == [] && s.h.lost == {} && s.h.ops.Keys == {0}
    ensures s.m.heap[0].state.version == 2
    ensures |EventsOf(s.tables, 0)| == 2 && AllEventIds(s.tables) == {1, 2}
  {
    hide Reaches, Step, SetState, AllEventIds, FreshIds;
    var s3 := ChatBegins(cfg);
    var s4 := DraftsChat(cfg, s3, 1);
    var events := s4.threads[1].pc.events;
    SetStateFacts(s3.m, At(s4.m, 0).state);
    NoEvents(s4.tables);
    ChatIdsAreFresh(s4.tables, events);
    TwoIds(events);
    s := Commits(cfg, s4, 1, s4.threads[1].pc);
  }

  /** The chat has given up the lock and has not answered yet. */
  lemma {:induction false} ChatHandsOver(cfg: Config) returns (s: State)
    ensures Reaches(cfg, s) && Ready(s) && s.threads.Keys == {1} && s.locks == map[]
    ensures InHand(s, 1).Some? && |OpsOf(s.h, 0)| == 1 && s.h.acks == [] && s.h.lost == {} && s.h.ops.Keys == {0}
    ensures s.m.heap[0].state.version == 2
    ensures |EventsOf(s.tables, 0)| == 2 && AllEventIds(s.tables) == {1, 2}
  {
    hide Reaches, Step, AllEventIds;
    var s5 := ChatCommits(cfg);
    s := HandsOver(cfg, s5, 1);
  }

  /** A reset takes the lock and commits behind it. */
  lemma {:induction false} ResetCommits(cfg: Config) returns (s: State)
    ensures Reaches(cfg, s) && |OpsOf(s.h, 0)| == 2 && s.h.acks == [] && s.h.lost == {} && s.h.ops.Keys == {0}
    ensures InHand(s, 1).Some? && HoldsReply(s, 2, 0, 0)
  {
    hide Reaches, Step, SetState, AllEventIds, FreshIds;
    var s6 := ChatHandsOver(cfg);
    var s7 := LooksUp(cfg, s6, 2, Action.Reset);
    var s8 := TakesLock(cfg, s7, 2, Action.Reset);
    var s9 := DraftsReset(cfg, s8, 2);
    SetStateFacts(s8.m, At(s9.m, 0).state);
    ResetIdIsFresh(s9.tables, s9.threads[2].pc.events);
    s := Commits(cfg, s9, 2, s9.threads[2].pc);
  }

  lemma {:induction false} NoEvents(t: Tables)
    requires t.events == map[]
    ensures AllEventIds(t) == {}
  {
  }

  lemma {:induction false} TwoIds(events: seq<NewEvent>)
    requires |events| == 2 && events[0].eventId == 1 && events[1].eventId == 2
    ensures (set i | 0 <= i < |events| :: events[i].eventId) == {1, 2}
  {
    assert events[0].eventId in (set i | 0 <= i < |events| :: events[i].eventId);
    assert events[1].eventId in (set i | 0 <= i < |events| :: events[i].eventId);
  }

  lemma {:induction false} ChatIdsAreFresh(t: Tables, events: seq<NewEvent>)
    requires |events| == 2 && events[0].eventId == 1 && events[1].eventId == 2 && AllEventIds(t) == {}
    ensures FreshIds(t, events)
  {
  }

  lemma {:induction false} ResetIdIsFresh(t: Tables, events: seq<NewEvent>)
    requires |events| == 1 && events[0].eventId == 3 && AllEventIds(t) == {1, 2}
    ensures FreshIds(t, events)
  {
    hide AllEventIds;
  }

  lemma {:induction false} PermitStep(cfg: Config, s: State, t: Tid, message: string)
    requires t in s.threads && s.threads[t].pc == TakePermit(message, 0) && s.permits > 0
    ensures Step(cfg, s, t, At0(1)) == Some(Go(s.(permits := s.permits - 1), t, Lock(Chat(message), 0)))
  {
  }

  lemma {:induction false} HandsOver(cfg: Config, s: State, t: Tid) returns (u: State)
    requires Reaches(cfg, s) && t in s.threads && s.threads[t].pc.Reply? && s.threads[t].pc.action.Chat?
    ensures Reaches(cfg, u) && t in u.threads && InHand(u, t).Some?
    ensures u == Go(Unlock(s.(h := u.h), s.threads[t].pc.r), t, u.threads[t].pc)
    ensures u.h.ops == s.h.ops && u.h.acks == s.h.acks && u.h.lost == s.h.lost
  {
    hide Reaches;
    u := Step(cfg, s, t, At0(1)).value;
    ReachStep(cfg, s, t, At0(1), u);
  }

  lemma {:induction false} ReachedIsAccounted(cfg: Config, s: State)
    requires Reaches(cfg, s)
    ensures Inv(cfg, s) && Accounted(s)
  {
    hide Inv, Accounted, Run;
    RunsAreNotEmpty(cfg);
    var states :| Run(cfg, states) && states[|states| - 1] == s;
    RunIsAccounted(cfg, states, |states| - 1);
  }

  lemma {:induction false} LosesAll(h: Chronicle)
    requires h.acks == [] && h.ops.Keys == {0} && |OpsOf(h, 0)| == 2
    ensures Recovered(h).lost == {(0, 0), (0, 1)}
  {
    assert forall id: SessionId, k: nat :: !Answered(h.acks, id, k);
    assert (0, 0) in Recovered(h).lost && (0, 1) in Recovered(h).lost;
  }

  /** Under every configuration there is a run with two committed operations of one session and no
      response sent: a crash there loses both, and the lock is held for one of them only. */
  lemma {:induction false} CrashMayLoseTwo(cfg: Config)
    ensures exists s ::
      && Reaches(cfg, s) && |OpsOf(s.h, 0)| == 2 && s.h.acks == []
      && Carried(s, 0, 0) && AtReply(s, 0, 1)
      && Recovered(s.h).lost == {(0, 0), (0, 1)}
  {
    hide Reaches, Inv, Accounted, InHand, HoldsReply;
    var s := ResetCommits(cfg);
    ReachedIsAccounted(cfg, s);
    UnsettledIsHeld(cfg, s, 0);
    PlacesOf(cfg, s, 0, 0);
    LosesAll(s.h);
  }
}
