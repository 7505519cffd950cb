/** The state machine, run without interruption, does what the sequential code does: one thread's
    steps taken in a row are one call of the corresponding method. */
module Uninterrupted {
  import opened Text
  import opened Conversation
  import opened History
  import opened Store
  import opened Sessions
  import opened Server
  import App = AppState

  /** Thread `t` takes one step for each choice, and no other thread runs. */
  function Alone(cfg: Config, s: State, t: Tid, choices: seq<Choice>): Option<State> {
    if choices == [] then Some(s)
    else
      match Alone(cfg, s, t, choices[..|choices| - 1])
      case None => None
      case Some(u) => if t in u.threads then Step(cfg, u, t, choices[|choices| - 1]) else None
  }

  function Times(c: Choice, n: nat): seq<Choice> {
    if n == 0 then [] else Times(c, n - 1) + [c]
  }

  lemma {:induction false} OneMore(cfg: Config, s: State, t: Tid, c: Choice, n: nat)
    ensures Alone(cfg, s, t, Times(c, 0)) == Some(s)
    ensures Alone(cfg, s, t, Times(c, n + 1)) ==
            match Alone(cfg, s, t, Times(c, n))
            case None => None
            case Some(u) => if t in u.threads then Step(cfg, u, t, c) else None
  {
    assert Times(c, n + 1)[..|Times(c, n + 1)| - 1] == Times(c, n);
  }

  lemma {:induction false} GoTwice(s: State, t: Tid, a: Pc, b: Pc)
    requires t in s.threads
    ensures Go(Go(s, t, a), t, b) == Go(s, t, b)
  {
    var first, second := s.threads[t].(pc := a), s.threads[t].(pc := b);
    assert s.threads[t := first][t := second] == s.threads[t := second];
  }

  lemma {:induction false} EndAfterGo(s: State, t: Tid, a: Pc)
    requires t in s.threads
    ensures Finish(Go(s, t, a), t) == Finish(s, t)
  {
    assert s.threads[t := s.threads[t].(pc := a)] - {t} == s.threads - {t};
  }

  lemma {:induction false} MoveAfterGo(s: State, t: Tid, a: Pc, m: Manager, writer: Option<Tid>, next: Option<Pc>)
    requires t in s.threads
    ensures Move(Go(s, t, a).(m := m, writer := writer), t, next)
         == Move(s.(m := m, writer := writer), t, next)
  {
    if next.Some? {
      GoTwice(s.(m := m, writer := writer), t, a, next.value);
    } else {
      EndAfterGo(s.(m := m, writer := writer), t, a);
    }
  }

  /** Looking up an id that is not mapped takes one step, a live session four. */
  lemma {:induction false} LiveGetAlone(cfg: Config, s: State, t: Tid, caller: Caller, c: Choice, r: Ref)
    requires t in s.threads && s.threads[t].pc == GetRead(caller) && s.writer.None?
    requires s.threads[t].id in s.m.sessions && r == s.m.sessions[s.threads[t].id]
    requires !Sweeps(cfg.ttlMs, s.m, s.threads[t].id, c.now)
    ensures Alone(cfg, s, t, Times(c, 4)) == Some(Move(s.(m := Touch(s.m, r, c.now)), t, AfterGet(caller, Some(r))))
  {
    hide Alone, Times, AfterGet, Touch, Move;
    var s1 := Go(s, t, GetFlag(caller, c.now, r));
    var s2 := Go(s, t, GetAge(caller, c.now, r));
    var s3 := Go(s, t, GetTouch(caller, c.now, r));
    OneMore(cfg, s, t, c, 0);
    GoTwice(s, t, GetFlag(caller, c.now, r), GetAge(caller, c.now, r));
    OneMore(cfg, s, t, c, 1);
    GoTwice(s, t, GetAge(caller, c.now, r), GetTouch(caller, c.now, r));
    OneMore(cfg, s, t, c, 2);
    OneMore(cfg, s, t, c, 3);
    MoveAfterGo(s, t, GetTouch(caller, c.now, r), Touch(s.m, r, c.now), None, AfterGet(caller, Some(r)));
  }

  /** From the eviction on, two steps. */
  lemma {:induction false} EvictAlone(cfg: Config, s: State, t: Tid, caller: Caller, c: Choice, id: SessionId)
      returns (pushing: State)
    requires t in s.threads && s.threads[t].id == id && s.writer.None? && id in s.m.sessions
    ensures Step(cfg, Go(s, t, GetEvict(caller, s.m.sessions[id])), t, c) == Some(pushing)
    ensures t in pushing.threads
    ensures Step(cfg, pushing, t, c)
         == Some(Move(s.(m := Enqueue(Evict(s.m, id), [id])), t, AfterGet(caller, None)))
  {
    hide AfterGet, Evict, Enqueue, Move;
    var r := s.m.sessions[id];
    var m := Enqueue(Evict(s.m, id), [id]);
    var s1 := Go(s, t, GetEvict(caller, r)).(m := Evict(s.m, id), writer := Some(t));
    pushing := Go(s1, t, GetPush(caller));
    MoveAfterGo(s1, t, GetPush(caller), m, None, AfterGet(caller, None));
    MoveAfterGo(s, t, GetEvict(caller, r), m, None, AfterGet(caller, None));
  }

  lemma {:induction false} DeadGetAlone(cfg: Config, s: State, t: Tid, caller: Caller, c: Choice, id: SessionId)
      returns (n: nat)
    requires t in s.threads && s.threads[t].pc == GetRead(caller) && s.writer.None?
    requires s.threads[t].id == id && Sweeps(cfg.ttlMs, s.m, id, c.now)
    ensures 4 <= n <= 5
    ensures Alone(cfg, s, t, Times(c, n))
         == Some(Move(s.(m := Enqueue(Evict(s.m, id), [id])), t, AfterGet(caller, None)))
  {
    hide Alone, Times, AfterGet, Evict, Enqueue, Move, Step, Go;
    var pushing := EvictAlone(cfg, s, t, caller, c, id);
    n := FindsDead(cfg, s, t, caller, c, id);
    OneMore(cfg, s, t, c, n - 2);
    OneMore(cfg, s, t, c, n - 1);
  }

  /** Reading the map, the flag and perhaps the age tells a dead session from a live one. */
  lemma {:induction false} FindsDead(cfg: Config, s: State, t: Tid, caller: Caller, c: Choice, id: SessionId)
      returns (n: nat)
    requires t in s.threads && s.threads[t].pc == GetRead(caller) && s.writer.None?
    requires s.threads[t].id == id && Sweeps(cfg.ttlMs, s.m, id, c.now)
    ensures 4 <= n <= 5
    ensures Alone(cfg, s, t, Times(c, n - 2)) == Some(Go(s, t, GetEvict(caller, s.m.sessions[id])))
    ensures t in Go(s, t, GetEvict(caller, s.m.sessions[id])).threads
  {
    hide Alone, Times;
    var r := s.m.sessions[id];
    OneMore(cfg, s, t, c, 0);
    OneMore(cfg, s, t, c, 1);
    n := 4;
    if At(s.m, r).deleted {
      GoTwice(s, t, GetFlag(caller, c.now, r), GetEvict(caller, r));
    } else {
      GoTwice(s, t, GetFlag(caller, c.now, r), GetAge(caller, c.now, r));
      GoTwice(s, t, GetAge(caller, c.now, r), GetEvict(caller, r));
      OneMore(cfg, s, t, c, 2);
      n := 5;
    }
  }

  /** `SessionManager::get`, uninterrupted: at most five steps do what the method does. */
  lemma {:induction false} GetAlone(cfg: Config, s: State, t: Tid, caller: Caller, c: Choice) returns (n: nat)
    requires t in s.threads && s.threads[t].pc == GetRead(caller) && s.writer.None?
    ensures 1 <= n <= 5
    ensures var (m, found) := Looked(cfg.ttlMs, s.m, s.threads[t].id, c.now);
            Alone(cfg, s, t, Times(c, n)) == Some(Move(s.(m := m), t, AfterGet(caller, found)))
  {
    hide Alone, Times, AfterGet, Evict, Enqueue, Move, Touch, Sweeps;
    var id := s.threads[t].id;
    if id !in s.m.sessions {
      OneMore(cfg, s, t, c, 0);
      n := 1;
    } else if Sweeps(cfg.ttlMs, s.m, id, c.now) {
      n := DeadGetAlone(cfg, s, t, caller, c, id);
    } else {
      LiveGetAlone(cfg, s, t, caller, c, s.m.sessions[id]);
      n := 4;
    }
  }

  // ----- the sweep -----------------------------------------------------------------------------

  /** The sweep in the middle, with the sessions of `order[..k]` visited. */
  function Sweeping(cfg: Config, s: State, t: Tid, c: Choice, k: nat): State
    requires t in s.threads && k <= |c.order|
  {
    var dead := Dead(cfg.ttlMs, s.m, c.order[..k], c.now);
    Go(s.(m := EvictAll(s.m, dead), writer := Some(t)), t, Sweep(c.now, c.order[k..], dead))
  }

  lemma {:induction false} OrderIsMapped(order: seq<SessionId>, ids: set<SessionId>, k: nat)
    requires Enumerates(order, ids) && k < |order|
    ensures order[k] in ids && order[k] !in order[..k]
  {
    assert order[k] in (set x | x in order);
  }

  lemma {:induction false} SweepingStep(cfg: Config, s: State, t: Tid, c: Choice, k: nat)
    requires t in s.threads && Own(s.m) && Enumerates(c.order, s.m.sessions.Keys) && k < |c.order|
    ensures Step(cfg, Sweeping(cfg, s, t, c, k), t, c) == Some(Sweeping(cfg, s, t, c, k + 1))
  {
    hide Own, Evict, EvictAll, Dead, Sweeps, Enumerates;
    var id := c.order[k];
    OrderIsMapped(c.order, s.m.sessions.Keys, k);
    assert c.order[..k + 1] == c.order[..k] + [id] && c.order[k..][0] == id && c.order[k..][1..] == c.order[k + 1..];
    SweepStep(cfg.ttlMs, s.m, c.order[..k], id, c.now);
    var dead := Dead(cfg.ttlMs, s.m, c.order[..k], c.now);
    var dead' := Dead(cfg.ttlMs, s.m, c.order[..k + 1], c.now);
    GoTwice(s.(m := EvictAll(s.m, dead'), writer := Some(t)), t,
            Sweep(c.now, c.order[k..], dead), Sweep(c.now, c.order[k + 1..], dead'));
  }

  lemma {:induction false} SweepingReaches(cfg: Config, s: State, t: Tid, c: Choice, k: nat)
    requires t in s.threads && Own(s.m) && Enumerates(c.order, s.m.sessions.Keys) && k <= |c.order|
    requires s.threads[t].pc == SweepLock && s.writer.None?
    ensures Alone(cfg, s, t, Times(c, k + 1)) == Some(Sweeping(cfg, s, t, c, k))
  {
    hide Own, Alone, Times, Enumerates;
    if k == 0 {
      OneMore(cfg, s, t, c, 0);
      assert c.order[..0] == [] && c.order[0..] == c.order;
    } else {
      SweepingReaches(cfg, s, t, c, k - 1);
      SweepingStep(cfg, s, t, c, k - 1);
      OneMore(cfg, s, t, c, k);
    }
  }

  /** `SessionManager::sweep_expired`, uninterrupted: one step to lock the map, one per session,
      one to unlock it and one to extend the queue do what the method does. */
  lemma {:induction false} SweepAlone(cfg: Config, s: State, t: Tid, c: Choice)
    requires t in s.threads && s.threads[t].pc == SweepLock && s.writer.None?
    requires Own(s.m) && Enumerates(c.order, s.m.sessions.Keys)
    ensures Alone(cfg, s, t, Times(c, |c.order| + 3))
         == Some(Go(s.(m := Swept(cfg.ttlMs, s.m, c.order, c.now)), t, Count))
  {
    hide Own, Alone, Times, Enumerates, Step;
    var n := |c.order|;
    SweepingReaches(cfg, s, t, c, n);
    var extending := SweepEnds(cfg, s, t, c);
    OneMore(cfg, s, t, c, n + 1);
    OneMore(cfg, s, t, c, n + 2);
  }

  lemma {:induction false} SweepEnds(cfg: Config, s: State, t: Tid, c: Choice) returns (extending: State)
    requires t in s.threads && s.writer.None?
    ensures Step(cfg, Sweeping(cfg, s, t, c, |c.order|), t, c) == Some(extending) && t in extending.threads
    ensures Step(cfg, extending, t, c) == Some(Go(s.(m := Swept(cfg.ttlMs, s.m, c.order, c.now)), t, Count))
  {
    hide EvictAll, Dead, Step;
    var n := |c.order|;
    var dead := Dead(cfg.ttlMs, s.m, c.order, c.now);
    var evicted := s.(m := EvictAll(s.m, dead));
    assert c.order[..n] == c.order && c.order[n..] == [];
    assert Sweeping(cfg, s, t, c, n) == Go(evicted.(writer := Some(t)), t, Sweep(c.now, [], dead));
    extending := SweepUnlocks(cfg, evicted, t, c, dead);
  }

  lemma {:induction false} SweepUnlocks(cfg: Config, s: State, t: Tid, c: Choice, dead: seq<SessionId>)
      returns (extending: State)
    requires t in s.threads && s.writer.None?
    ensures Step(cfg, Go(s.(writer := Some(t)), t, Sweep(c.now, [], dead)), t, c) == Some(extending)
    ensures t in extending.threads
    ensures Step(cfg, extending, t, c) == Some(Go(s.(m := Enqueue(s.m, dead)), t, Count))
  {
    hide Evict, Sweeps, Enqueue;
    GoTwice(s, t, Sweep(c.now, [], dead), Extend(dead));
    extending := Go(s, t, Extend(dead));
    GoTwice(s.(m := Enqueue(s.m, dead)), t, Extend(dead), Count);
  }

  // ----- the sections under a session's lock ---------------------------------------------------

  lemma {:induction false} ThreeAlone(cfg: Config, s: State, t: Tid, c: seq<Choice>, u: State, v: State)
    requires t in s.threads && |c| == 3
    requires Step(cfg, s, t, c[0]) == Some(u) && t in u.threads
    requires Step(cfg, u, t, c[1]) == Some(v) && t in v.threads
    ensures Alone(cfg, s, t, c[..1]) == Some(u) && Alone(cfg, s, t, c) == Step(cfg, v, t, c[2])
  {
    hide Step;
    assert c[..3] == c && c[..3][..2] == c[..2] && c[..2][..1] == c[..1] && c[..1][..0] == [];
    assert Alone(cfg, s, t, c[..1]) == Some(u);
    assert Alone(cfg, s, t, c[..2]) == Some(v);
  }

  /** An append and what follows it: the operation is committed, or the entry rolled back. */
  lemma {:induction false} AppendAlone(cfg: Config, s: State, t: Tid, b: Choice, pc: Pc) returns (v: State)
    requires t in s.threads && s.threads[t].pc == pc && pc.Append?
    requires pc.r < |s.m.heap|
    ensures Step(cfg, s, t, b) == Some(v) && t in v.threads && v.m == s.m && v.h.acks == s.h.acks
    ensures v.permits == s.permits && v.threads[t].id == s.threads[t].id
    ensures var appended := Store.AppendEvents(s.tables, s.threads[t].id, pc.previous.version, pc.events,
                                               At(s.m, pc.r).state, pc.now);
      var done := !b.fault && appended.Success?;
      && v.tables == (if done then appended.value else s.tables)
      && v.threads[t].pc == (if done then Reply(pc.action, pc.r, pc.answer) else Undo(pc.action, pc.r, pc.previous))
  {
    hide Store.AppendEvents;
    v := Step(cfg, s, t, b).value;
  }

  lemma {:induction false} EndAlone(cfg: Config, s: State, t: Tid, b: Choice, r: Ref) returns (u: State)
    requires t in s.threads && r < |s.m.heap|
    requires (s.threads[t].pc.Reply? || s.threads[t].pc.Undo?) && s.threads[t].pc.action.Chat? && s.threads[t].pc.r == r
    ensures Step(cfg, s, t, b) == Some(u) && t in u.threads && u.threads[t].pc.GivePermit?
    ensures u.tables == s.tables && r !in u.locks && u.m.sessions == s.m.sessions
    ensures u.h.acks == s.h.acks && u.permits == s.permits
    ensures s.threads[t].pc.Reply? ==>
              && u.m == s.m && u.threads[t].pc.ack.Some? && u.threads[t].pc.ack.value.id == s.threads[t].id
              && u.threads[t].pc.ack.value.answer == s.threads[t].pc.answer
    ensures s.threads[t].pc.Undo? ==> At(u.m, r).state == s.threads[t].pc.previous && u.threads[t].pc.ack.None?
  {
    u := Step(cfg, s, t, b).value;
  }

  /** What the section of an action leaves in the entry and in the tables. */
  ghost predicate SettlesAs<T>(s: State, r: Ref, section: App.Section<T>, u: State) {
    && At(u.m, r).state == section.state && u.tables == section.tables && r !in u.locks
    && u.m.sessions == s.m.sessions
  }

  lemma {:induction false} ChatBegins(cfg: Config, s: State, t: Tid, message: string, r: Ref, a: Choice)
      returns (u: State)
    requires t in s.threads && s.threads[t].pc == Begin(Chat(message), r)
    requires r < |s.m.heap| && !s.m.heap[r].deleted
    ensures Step(cfg, s, t, a) == Some(u) && t in u.threads && u.threads[t].id == s.threads[t].id
    ensures u.tables == s.tables && u.m.sessions == s.m.sessions && r < |u.m.heap|
    ensures u.h == s.h && u.permits == s.permits
    ensures match App.ChatDraft(cfg.rules, s.m.heap[r].state, message, a.reply, a.predictionId,
                                a.eventId, a.otherEventId, a.now)
            case Failure(_) => u.threads[t].pc == GivePermit(None) && u.m == s.m && r !in u.locks
            case Success(d) =>
              var pc := u.threads[t].pc;
              && pc.Append? && pc.action == Chat(message) && pc.r == r && pc.now == a.now
              && pc.previous == s.m.heap[r].state && pc.events == d.events
              && pc.answer == ChatAnswer(message, d.answer) && At(u.m, r).state == d.next
  {
    hide TurnResult, Utf8Length, TypeName;
    u := Step(cfg, s, t, a).value;
  }

  /** The section of `chat`, uninterrupted: one step when the turn is refused, three when it is
      drafted, leave what the method leaves, and the answer is the method's. */
  lemma {:induction false} ChatAlone(cfg: Config, s: State, t: Tid, message: string, r: Ref, a: Choice, b: Choice)
      returns (choices: seq<Choice>, u: State)
    requires t in s.threads && s.threads[t].pc == Begin(Chat(message), r)
    requires r < |s.m.heap| && !s.m.heap[r].deleted
    ensures Alone(cfg, s, t, choices) == Some(u) && t in u.threads
    ensures var previous := s.m.heap[r].state;
      var draft := App.ChatDraft(cfg.rules, previous, message, a.reply, a.predictionId,
                                 a.eventId, a.otherEventId, a.now);
      var section := App.Settle(s.threads[t].id, previous, s.tables, draft, a.now, b.fault);
      && SettlesAs(s, r, section, u)
      && u.threads[t].pc.GivePermit? && u.h.acks == s.h.acks && u.permits == s.permits
      && (section.answer.Success? <==> u.threads[t].pc.ack.Some?)
      && (section.answer.Success? ==>
            && u.threads[t].pc.ack.value.id == s.threads[t].id
            && u.threads[t].pc.ack.value.answer == ChatAnswer(message, section.answer.value))
  {
    hide Step, Store.AppendEvents, Alone, App.ChatDraft;
    var s1 := ChatBegins(cfg, s, t, message, r, a);
    if s1.threads[t].pc.GivePermit? {
      OneMore(cfg, s, t, a, 0);
      return Times(a, 1), s1;
    }
    var s2 := AppendAlone(cfg, s1, t, b, s1.threads[t].pc);
    u := EndAlone(cfg, s2, t, b, r);
    choices := [a, b, b];
    ThreeAlone(cfg, s, t, choices, s1, s2);
  }

  lemma {:induction false} ResetBegins(cfg: Config, s: State, t: Tid, r: Ref, a: Choice) returns (u: State)
    requires t in s.threads && s.threads[t].pc == Begin(Action.Reset, r)
    requires r < |s.m.heap| && !s.m.heap[r].deleted
    ensures Step(cfg, s, t, a) == Some(u) && u.tables == s.tables && u.m.sessions == s.m.sessions && r < |u.m.heap|
    ensures u.h == s.h
    ensures match App.ResetDraft(s.m.heap[r].state, a.eventId, a.now)
            case Failure(_) => t !in u.threads && u.m == s.m && r !in u.locks
            case Success(d) =>
              && t in u.threads && u.threads[t].id == s.threads[t].id
              && var pc := u.threads[t].pc;
                 && pc.Append? && pc.action.Reset? && pc.r == r && pc.now == a.now
                 && pc.previous == s.m.heap[r].state && pc.events == d.events
                 && pc.answer == ResetAnswer(d.answer.0, d.answer.1) && At(u.m, r).state == d.next
  {
    hide ResetState, TypeName;
    u := Step(cfg, s, t, a).value;
  }

  lemma {:induction false} ResetEnds(cfg: Config, s: State, t: Tid, b: Choice, r: Ref) returns (u: State)
    requires t in s.threads && r < |s.m.heap|
    requires s.threads[t].pc.Reply? || s.threads[t].pc.Undo?
    requires s.threads[t].pc.action.Reset? && s.threads[t].pc.r == r
    ensures Step(cfg, s, t, b) == Some(u) && t !in u.threads
    ensures u.tables == s.tables && r !in u.locks && u.m.sessions == s.m.sessions
    ensures s.threads[t].pc.Reply? ==>
              && u.m == s.m && |u.h.acks| == |s.h.acks| + 1 && u.h.acks[..|s.h.acks|] == s.h.acks
              && u.h.acks[|s.h.acks|].answer == s.threads[t].pc.answer
    ensures s.threads[t].pc.Undo? ==> At(u.m, r).state == s.threads[t].pc.previous && u.h.acks == s.h.acks
  {
    u := Step(cfg, s, t, b).value;
  }

  /** The section of `reset_session`, uninterrupted: likewise, and a response is sent exactly when
      the method answers, with the method's answer. */
  lemma {:induction false} ResetAlone(cfg: Config, s: State, t: Tid, r: Ref, a: Choice, b: Choice)
      returns (choices: seq<Choice>, u: State)
    requires t in s.threads && s.threads[t].pc == Begin(Action.Reset, r)
    requires r < |s.m.heap| && !s.m.heap[r].deleted
    ensures Alone(cfg, s, t, choices) == Some(u) && t !in u.threads
    ensures var previous := s.m.heap[r].state;
      var draft := App.ResetDraft(previous, a.eventId, a.now);
      var section := App.Settle(s.threads[t].id, previous, s.tables, draft, a.now, b.fault);
      && SettlesAs(s, r, section, u)
      && match section.answer
         case Failure(_) => u.h.acks == s.h.acks
         case Success(answer) =>
           && |u.h.acks| == |s.h.acks| + 1 && u.h.acks[..|s.h.acks|] == s.h.acks
           && u.h.acks[|s.h.acks|].answer == ResetAnswer(answer.0, answer.1)
  {
    hide Step, Store.AppendEvents, Alone, App.ResetDraft;
    var s1 := ResetBegins(cfg, s, t, r, a);
    if t !in s1.threads {
      OneMore(cfg, s, t, a, 0);
      return Times(a, 1), s1;
    }
    var s2 := AppendAlone(cfg, s1, t, b, s1.threads[t].pc);
    u := ResetEnds(cfg, s2, t, b, r);
    choices := [a, b, b];
    ThreeAlone(cfg, s, t, choices, s1, s2);
  }

  // ----- whole requests ------------------------------------------------------------------------

  /** What is taken off the queue is deleted, one step for each id. */
  function Purging(s: State, t: Tid, goal: Goal, found: Option<Ref>, k: nat): State
    requires t in s.threads && k <= |s.m.expired|
  {
    Go(s.(m := Drained(s.m), tables := DeleteAll(s.tables, s.m.expired[..k])), t, Purge(goal, found, s.m.expired[k..]))
  }

  lemma {:induction false} PurgingReaches(cfg: Config, s: State, t: Tid, goal: Goal, found: Option<Ref>, c: Choice, k: nat)
    requires t in s.threads && s.threads[t].pc == Drain(goal, found) && !c.fault && k <= |s.m.expired|
    ensures Alone(cfg, s, t, Times(c, k + 1)) == Some(Purging(s, t, goal, found, k))
  {
    hide Alone, Times;
    var ids := s.m.expired;
    if k == 0 {
      OneMore(cfg, s, t, c, 0);
      assert ids[..0] == [] && ids[0..] == ids;
    } else {
      PurgingReaches(cfg, s, t, goal, found, c, k - 1);
      assert ids[..k][..k - 1] == ids[..k - 1] && ids[k - 1..][0] == ids[k - 1] && ids[k - 1..][1..] == ids[k..];
      GoTwice(s.(m := Drained(s.m), tables := DeleteAll(s.tables, ids[..k])), t,
              Purge(goal, found, ids[k - 1..]), Purge(goal, found, ids[k..]));
      OneMore(cfg, s, t, c, k);
    }
  }

  /** `purge_expired`, uninterrupted and with a store that works: the queue is empty, the rows of all
      its ids are gone, and the request goes on with what its lookup found. */
  lemma {:induction false} PurgeAlone(cfg: Config, s: State, t: Tid, goal: Goal, found: Option<Ref>, c: Choice)
    requires t in s.threads && s.threads[t].pc == Drain(goal, found) && !c.fault
    ensures Alone(cfg, s, t, Times(c, |s.m.expired| + 2))
         == Some(Move(s.(m := Drained(s.m), tables := DeleteAll(s.tables, s.m.expired)), t, AfterPurge(goal, found)))
  {
    hide Alone, Times, AfterPurge, DeleteAll;
    var ids := s.m.expired;
    PurgingReaches(cfg, s, t, goal, found, c, |ids|);
    assert ids[..|ids|] == ids && ids[|ids|..] == [];
    OneMore(cfg, s, t, c, |ids| + 1);
    MoveOn(s.(m := Drained(s.m), tables := DeleteAll(s.tables, ids)), t, Purge(goal, found, []), AfterPurge(goal, found));
  }

  lemma {:induction false} MoveOn(s: State, t: Tid, a: Pc, next: Option<Pc>)
    requires t in s.threads
    ensures Move(Go(s, t, a), t, next) == Move(s, t, next)
  {
    if next.Some? {
      GoTwice(s, t, a, next.value);
    } else {
      EndAfterGo(s, t, a);
    }
  }

  lemma {:induction false} AloneInTurn(cfg: Config, s: State, t: Tid, first: seq<Choice>, more: seq<Choice>)
    requires Alone(cfg, s, t, first).Some?
    ensures Alone(cfg, s, t, first + more) == Alone(cfg, Alone(cfg, s, t, first).value, t, more)
  {
    hide Step;
    if more == [] {
      assert first + more == first;
    } else {
      AloneInTurn(cfg, s, t, first, more[..|more| - 1]);
      assert (first + more)[..|first + more| - 1] == first + more[..|more| - 1];
    }
  }

  /** A request for a living session whose lock is free reaches the section of its own action, with
      its own message: the session is renewed, the queue has been purged, the lock is taken, and a
      chat has a permit. */
  lemma {:induction false} RequestReachesItsSection(cfg: Config, s: State, t: Tid, action: Action, c: Choice)
      returns (choices: seq<Choice>, u: State)
    requires t in s.threads && s.threads[t].pc == GetRead(Lookup(Change(action))) && s.writer.None? && Own(s.m)
    requires Alive(cfg.ttlMs, s.m, s.threads[t].id, c.now) && !c.fault
    requires s.m.sessions[s.threads[t].id] !in s.locks && (action.Chat? ==> s.permits > 0)
    ensures var r := s.m.sessions[s.threads[t].id];
      && Alone(cfg, s, t, choices) == Some(u) && t in u.threads
      && u.threads[t] == s.threads[t].(pc := Begin(action, r))
      && u.m == Drained(Touch(s.m, r, c.now)) && u.tables == DeleteAll(s.tables, s.m.expired)
      && u.locks == s.locks[r := t] && u.h == s.h
      && u.permits == if action.Chat? then s.permits - 1 else s.permits
  {
    hide Alone, Times, DeleteAll, Touch, Step;
    var r := s.m.sessions[s.threads[t].id];
    LookupFindsTheLiving(cfg.ttlMs, s.m, s.threads[t].id, c.now);
    var n := GetAlone(cfg, s, t, Lookup(Change(action)), c);
    var s1 := s.(m := Touch(s.m, r, c.now));
    var s2 := Go(s1, t, Drain(Change(action), Some(r)));
    assert s2.m.expired == s.m.expired;
    PurgeAlone(cfg, s2, t, Change(action), Some(r), c);
    AloneInTurn(cfg, s, t, Times(c, n), Times(c, |s.m.expired| + 2));
    var s3 := Move(s2.(m := Drained(s1.m), tables := DeleteAll(s.tables, s.m.expired)), t, AfterPurge(Change(action), Some(r)));
    choices, u := LockAlone(cfg, s3, t, action, r, c);
    AloneInTurn(cfg, s, t, Times(c, n) + Times(c, |s.m.expired| + 2), choices);
    choices := Times(c, n) + Times(c, |s.m.expired| + 2) + choices;
  }

  lemma {:induction false} LockAlone(cfg: Config, s: State, t: Tid, action: Action, r: Ref, c: Choice)
      returns (choices: seq<Choice>, u: State)
    requires t in s.threads && r !in s.locks
    requires Some(s.threads[t].pc) == AfterPurge(Change(action), Some(r)) && (action.Chat? ==> s.permits > 0)
    ensures Alone(cfg, s, t, choices) == Some(u) && t in u.threads
    ensures u.threads[t] == s.threads[t].(pc := Begin(action, r))
    ensures u.m == s.m && u.tables == s.tables && u.locks == s.locks[r := t] && u.h == s.h
    ensures u.permits == if action.Chat? then s.permits - 1 else s.permits
  {
    hide Alone, Times;
    OneMore(cfg, s, t, c, 0);
    if action.Chat? {
      OneMore(cfg, s, t, c, 1);
      choices := Times(c, 2);
    } else {
      choices := Times(c, 1);
    }
    u := Alone(cfg, s, t, choices).value;
  }

  /** A whole chat, uninterrupted, with a session that is living, a lock that is free, a permit to
      take, and a store that works until the append: it leaves in the entry and in the tables what
      the section of `chat` leaves after a purge, gives back what it took, and sends one response,
      about its own message, exactly when the section succeeds. */
  lemma {:induction false} WholeChatAlone(cfg: Config, s: State, t: Tid, message: string, a: Choice, b: Choice)
      returns (choices: seq<Choice>, u: State)
    requires t in s.threads && s.threads[t].pc == GetRead(Lookup(Change(Chat(message)))) && s.writer.None? && Own(s.m)
    requires Alive(cfg.ttlMs, s.m, s.threads[t].id, a.now) && !a.fault
    requires s.m.sessions[s.threads[t].id] !in s.locks && s.permits > 0
    ensures Alone(cfg, s, t, choices) == Some(u) && t !in u.threads
    ensures var id := s.threads[t].id;
      var r := s.m.sessions[id];
      var previous := At(s.m, r).state;
      var draft := App.ChatDraft(cfg.rules, previous, message, a.reply, a.predictionId,
                                 a.eventId, a.otherEventId, a.now);
      var section := App.Settle(id, previous, DeleteAll(s.tables, s.m.expired), draft, a.now, b.fault);
      && SettlesAs(s, r, section, u) && u.permits == s.permits
      && match section.answer
         case Failure(_) => u.h.acks == s.h.acks
         case Success(outcome) =>
           && |u.h.acks| == |s.h.acks| + 1 && u.h.acks[..|s.h.acks|] == s.h.acks
           && u.h.acks[|s.h.acks|].id == id && u.h.acks[|s.h.acks|].answer == ChatAnswer(message, outcome)
  {
    hide Alone, Step, App.ChatDraft, App.Settle, DeleteAll, Touch;
    var r := s.m.sessions[s.threads[t].id];
    var first, s1 := RequestReachesItsSection(cfg, s, t, Chat(message), a);
    RenewedEntry(s.m, r, a.now);
    var more, s2 := ChatAlone(cfg, s1, t, message, r, a, b);
    AloneInTurn(cfg, s, t, first, more);
    u := PermitAlone(cfg, s2, t, b);
    OneMoreAlone(cfg, s, t, first + more, b);
    choices := first + more + [b];
  }

  lemma {:induction false} RenewedEntry(m: Manager, r: Ref, now: u64)
    requires r < |m.heap|
    ensures Drained(Touch(m, r, now)).heap == m.heap[r := m.heap[r].(lastAccessMs := now)]
    ensures Drained(Touch(m, r, now)).sessions == m.sessions
  {
  }

  lemma {:induction false} OneMoreAlone(cfg: Config, s: State, t: Tid, choices: seq<Choice>, c: Choice)
    ensures Alone(cfg, s, t, choices + [c]) ==
            match Alone(cfg, s, t, choices)
            case None => None
            case Some(u) => if t in u.threads then Step(cfg, u, t, c) else None
  {
    assert (choices + [c])[..|choices + [c]| - 1] == choices;
  }

  lemma {:induction false} PermitAlone(cfg: Config, s: State, t: Tid, b: Choice) returns (u: State)
    requires t in s.threads && s.threads[t].pc.GivePermit?
    ensures Step(cfg, s, t, b) == Some(u) && t !in u.threads && u.m == s.m && u.tables == s.tables
    ensures u.locks == s.locks && u.permits == s.permits + 1
    ensures u.h.acks == match s.threads[t].pc.ack
                        case None => s.h.acks
                        case Some(ack) => s.h.acks + [ack]
  {
    u := Step(cfg, s, t, b).value;
  }

  lemma {:induction false} EraseSteps(cfg: Config, s: State, t: Tid, r: Ref, c: Choice)
    requires t in s.threads
    ensures Step(cfg, Go(s, t, Erase(r)), t, c)
         == Some(if c.fault || s.threads[t].id !in s.tables.sessions then Finish(Unlock(s, r), t)
                 else Go(s.(tables := Store.DeleteSession(s.tables, s.threads[t].id)), t, UnmapErased(r)))
  {
    EndAfterGo(Unlock(s, r), t, Erase(r));
    GoTwice(s.(tables := Store.DeleteSession(s.tables, s.threads[t].id)), t, Erase(r), UnmapErased(r));
  }

  lemma {:induction false} UnmapSteps(cfg: Config, s: State, t: Tid, r: Ref, c: Choice)
    requires t in s.threads && s.writer.None?
    ensures var id := s.threads[t].id;
      Step(cfg, Go(s, t, UnmapErased(r)), t, c)
      == Some(if id in s.m.sessions then Go(s.(m := Unmap(s.m, id)), t, MarkErased(r, s.m.sessions[id]))
              else Go(s, t, Confirm(r)))
  {
    var id := s.threads[t].id;
    if id in s.m.sessions {
      GoTwice(s.(m := Unmap(s.m, id)), t, UnmapErased(r), MarkErased(r, s.m.sessions[id]));
    } else {
      GoTwice(s, t, UnmapErased(r), Confirm(r));
    }
  }

  lemma {:induction false} MarkSteps(cfg: Config, s: State, t: Tid, r: Ref, mapped: Ref, c: Choice)
    requires t in s.threads
    ensures Step(cfg, Go(s, t, MarkErased(r, mapped)), t, c)
         == Some(Go(s.(m := MarkDeleted(s.m, mapped)), t, Confirm(r)))
  {
    GoTwice(s.(m := MarkDeleted(s.m, mapped)), t, MarkErased(r, mapped), Confirm(r));
  }

  lemma {:induction false} ConfirmSteps(cfg: Config, s: State, t: Tid, r: Ref, c: Choice)
    requires t in s.threads
    ensures Step(cfg, Go(s, t, Confirm(r)), t, c)
         == Some(Finish(Unlock(s.(h := s.h.(gone := s.h.gone + {s.threads[t].id})), r), t))
  {
    EndAfterGo(Unlock(s.(h := s.h.(gone := s.h.gone + {s.threads[t].id})), r), t, Confirm(r));
  }

  lemma {:induction false} UnmapThenMark(m: Manager, id: SessionId)
    ensures id in m.sessions ==> MarkDeleted(Unmap(m, id), m.sessions[id]) == Evict(m, id)
    ensures id !in m.sessions ==> m == Evict(m, id)
  {
  }

  /** What a delete that erased the row leaves. */
  function Confirmed(s: State, t: Tid, r: Ref, id: SessionId): State {
    Finish(Unlock(s.(m := Evict(s.m, id), tables := Store.DeleteSession(s.tables, id),
                     h := s.h.(gone := s.h.gone + {id})), r), t)
  }

  lemma {:induction false} ErasureAlone(cfg: Config, s: State, t: Tid, r: Ref, c: Choice) returns (n: nat)
    requires t in s.threads && s.threads[t].pc == Begin(Delete, r) && s.writer.None?
    requires Alone(cfg, s, t, Times(c, 1)) == Some(Go(s, t, Erase(r)))
    requires !c.fault && s.threads[t].id in s.tables.sessions
    ensures 4 <= n <= 5 && Alone(cfg, s, t, Times(c, n)) == Some(Confirmed(s, t, r, s.threads[t].id))
  {
    hide Alone, Times, Step, Evict, Unmap, MarkDeleted;
    var id := s.threads[t].id;
    var base := s.(tables := Store.DeleteSession(s.tables, id));
    EraseSteps(cfg, s, t, r, c);
    OneMore(cfg, s, t, c, 1);
    UnmapSteps(cfg, base, t, r, c);
    OneMore(cfg, s, t, c, 2);
    UnmapThenMark(s.m, id);
    if id in s.m.sessions {
      MarkSteps(cfg, base.(m := Unmap(s.m, id)), t, r, s.m.sessions[id], c);
      OneMore(cfg, s, t, c, 3);
      ConfirmSteps(cfg, base.(m := Evict(s.m, id)), t, r, c);
      OneMore(cfg, s, t, c, 4);
      n := 5;
    } else {
      ConfirmSteps(cfg, base, t, r, c);
      OneMore(cfg, s, t, c, 3);
      n := 4;
    }
  }

  /** The section of `delete_session`, uninterrupted: at most five steps do what the method does,
      and the delete is confirmed exactly when the method succeeds. */
  lemma {:induction false} DeleteAlone(cfg: Config, s: State, t: Tid, r: Ref, c: Choice)
      returns (n: nat, u: State)
    requires t in s.threads && s.threads[t].pc == Begin(Delete, r) && s.writer.None? && Valid(s.tables)
    requires r < |s.m.heap| && !s.m.heap[r].deleted
    ensures 2 <= n <= 5 && Alone(cfg, s, t, Times(c, n)) == Some(u) && t !in u.threads && r !in u.locks
    ensures var id := s.threads[t].id;
      var (m, tables, error) := App.Erased(s.m, s.tables, id, c.fault);
      && u.m == m && u.tables == tables
      && u.h == s.h.(gone := if error.None? then s.h.gone + {id} else s.h.gone)
  {
    hide Alone, Times, Evict, Valid;
    var id := s.threads[t].id;
    OneMore(cfg, s, t, c, 0);
    assert Step(cfg, s, t, c) == Some(Go(s, t, Erase(r)));
    if c.fault || id !in s.tables.sessions {
      hide Step;
      EraseSteps(cfg, s, t, r, c);
      OneMore(cfg, s, t, c, 1);
      App.NothingToErase(s.tables, id);
      n, u := 2, Finish(Unlock(s, r), t);
    } else {
      hide Step;
      n := ErasureAlone(cfg, s, t, r, c);
      u := Confirmed(s, t, r, id);
    }
  }
}
