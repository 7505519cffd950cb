/** The server as a state machine. Each request handler is a thread with a program counter;
    between two steps of a thread any other thread may run. A step touches at most one thing
    that is not protected by a lock the thread holds. A store call is one step, which may fail
    without having written anything. */
module Server {
  import opened Text
  import opened Conversation
  import opened History
  import opened Store
  import opened Sessions

  type Tid = nat

  datatype Config = Config(rules: Rules, ttlMs: u64, maxInferenceConcurrency: nat)

  function Slots(cfg: Config): nat {
    if cfg.maxInferenceConcurrency == 0 then 1 else cfg.maxInferenceConcurrency
  }

  /** What a handler means to do under a session's lock. */
  datatype Action = Reset | Delete | Chat(message: string)

  /** What a request means to do with the session it looks up; `Readiness` only purges. */
  datatype Goal = Describe | Change(action: Action) | Readiness

  /** Where `SessionManager::get` returns to. */
  datatype Caller =
    | Lookup(goal: Goal)                    // lookup_session
    | Snapshotting                          // create_session, first read
    | Measuring(snapshot: ConversationState) // create_session, second read
    | Describing                            // get_session, after its lookup

  datatype Answer =
    | ChatAnswer(message: string, outcome: ChatOutcome)
    | ResetAnswer(turnCount: u64, version: u64)
    | MetadataAnswer(turnCount: u64, version: u64)

  /** A response that reports session state: `index` operations were committed before the one
      it answers, and `since` when its request arrived. */
  datatype Ack = Ack(id: SessionId, since: nat, index: nat, answer: Answer)

  datatype Pc =
    // SessionManager::get
    | GetRead(caller: Caller)
    | GetFlag(caller: Caller, now: u64, r: Ref)
    | GetAge(caller: Caller, now: u64, r: Ref)
    | GetTouch(caller: Caller, now: u64, r: Ref)
    | GetEvict(caller: Caller, r: Ref)
    | GetPush(caller: Caller)
    // AppState::purge_expired
    | Drain(goal: Goal, found: Option<Ref>)
    | Purge(goal: Goal, found: Option<Ref>, ids: seq<SessionId>)
    // create_session
    | LockSnapshot(r: Ref)
    | LockMeasure(r: Ref, snapshot: ConversationState)
    | InsertRow(snapshot: ConversationState, createdAtMs: u64)
    | Withdraw
    | MarkWithdrawn(r: Ref)
    // get_session
    | LockDescribe(r: Ref)
    // reset_session, delete_session, chat
    | TakePermit(message: string, r: Ref)
    | Lock(action: Action, r: Ref)
    | Begin(action: Action, r: Ref)
    | Append(action: Action, r: Ref, previous: ConversationState, op: Op, answer: Answer,
             events: seq<NewEvent>, now: u64)
    | Undo(action: Action, r: Ref, previous: ConversationState)
    | Reply(action: Action, r: Ref, answer: Answer)
    | GivePermit(ack: Option<Ack>)
    | Erase(r: Ref)
    | UnmapErased(r: Ref)
    | MarkErased(r: Ref, mapped: Ref)
    | Confirm(r: Ref)
    // readiness
    | SweepLock
    | Sweep(now: u64, todo: seq<SessionId>, dead: seq<SessionId>)
    | Extend(dead: seq<SessionId>)
    | Count

  /** A running handler: the session it serves, how many operations were committed to that
      session when the request arrived, and where it stands. */
  datatype Thread = Thread(id: SessionId, since: nat, pc: Pc)

  /** What happened so far, across restarts; only the specification looks at it. */
  datatype Chronicle = Chronicle(
    used: set<SessionId>,               // ids drawn by create
    born: set<SessionId>,               // ids whose row was inserted
    ops: map<SessionId, seq<Op>>,       // operations committed, in order
    settled: map<SessionId, nat>,       // how many of them no handler is still working on
    acks: seq<Ack>,                     // responses sent
    gone: set<SessionId>,               // ids whose DELETE was confirmed
    lost: set<(SessionId, nat)>)        // operations that a crash left without a response

  datatype State = State(
    m: Manager,
    writer: Option<Tid>,                // who holds the session map's write lock
    locks: map<Ref, Tid>,               // who holds each entry's state lock
    permits: nat,                       // free inference permits
    threads: map<Tid, Thread>,
    serving: bool,                      // the last start came up
    tables: Tables,
    h: Chronicle)

  /** Everything a step cannot know: clock, store failure, backend reply, drawn ids, and the
      order in which a hash map is traversed. */
  datatype Choice = Choice(
    now: u64, fault: bool, reply: Result<string, InferenceError>,
    predictionId: Uuid, eventId: Uuid, otherEventId: Uuid, order: seq<SessionId>)

  function OpsOf(h: Chronicle, id: SessionId): seq<Op> {
    if id in h.ops then h.ops[id] else []
  }

  function SettledOf(h: Chronicle, id: SessionId): nat {
    if id in h.settled then h.settled[id] else 0
  }

  // ----- bookkeeping of threads and locks ------------------------------------------------------

  function Go(s: State, t: Tid, pc: Pc): State
    requires t in s.threads
  {
    s.(threads := s.threads[t := s.threads[t].(pc := pc)])
  }

  function Finish(s: State, t: Tid): State {
    s.(threads := s.threads - {t})
  }

  function Unlock(s: State, r: Ref): State {
    s.(locks := s.locks - {r})
  }

  /** Moves on to a program counter, or ends. */
  function Move(s: State, t: Tid, next: Option<Pc>): State
    requires t in s.threads
  {
    if next.Some? then Go(s, t, next.value) else Finish(s, t)
  }

  /** A chat that gives up after taking its permit returns it; other handlers just end. */
  function AfterFailure(action: Action): Option<Pc> {
    if action.Chat? then Some(GivePermit(None)) else None
  }

  function Acknowledge(s: State, ack: Ack): State {
    s.(h := s.h.(acks := s.h.acks + [ack]))
  }

  // ----- the handlers, step by step ------------------------------------------------------------

  /** Where a caller of `SessionManager::get` goes on. */
  function AfterGet(caller: Caller, found: Option<Ref>): Option<Pc> {
    match caller
    case Lookup(goal) => Some(Drain(goal, found))
    case Snapshotting => if found.None? then None else Some(LockSnapshot(found.value))
    case Measuring(snapshot) => if found.None? then None else Some(LockMeasure(found.value, snapshot))
    case Describing => if found.None? then None else Some(LockDescribe(found.value))
  }

  function StepGet(cfg: Config, s: State, t: Tid, c: Choice): Option<State>
    requires t in s.threads
  {
    var id := s.threads[t].id;
    match s.threads[t].pc
    case GetRead(caller) =>
      if s.writer.Some? then None
      else if id !in s.m.sessions then Some(Move(s, t, AfterGet(caller, None)))
      else Some(Go(s, t, GetFlag(caller, c.now, s.m.sessions[id])))
    case GetFlag(caller, now, r) =>
      Some(Go(s, t, if At(s.m, r).deleted then GetEvict(caller, r) else GetAge(caller, now, r)))
    case GetAge(caller, now, r) =>
      Some(Go(s, t, if IsExpired(cfg.ttlMs, At(s.m, r).lastAccessMs, now)
                    then GetEvict(caller, r) else GetTouch(caller, now, r)))
    case GetTouch(caller, now, r) =>
      Some(Move(s.(m := Touch(s.m, r, now)), t, AfterGet(caller, Some(r))))
    case GetEvict(caller, r) =>
      if s.writer.Some? then None
      else if id in s.m.sessions && s.m.sessions[id] == r then
        Some(Go(s.(m := Evict(s.m, id), writer := Some(t)), t, GetPush(caller)))
      else Some(Move(s, t, AfterGet(caller, None)))
    case GetPush(caller) =>
      Some(Move(s.(m := Enqueue(s.m, [id]), writer := None), t, AfterGet(caller, None)))
    case _ => None
  }

  /** Where a handler goes once its lookup has purged. */
  function AfterPurge(goal: Goal, found: Option<Ref>): Option<Pc> {
    if found.None? then None
    else
      match goal
      case Readiness => None
      case Describe => Some(GetRead(Describing))
      case Change(Chat(message)) => Some(TakePermit(message, found.value))
      case Change(action) => Some(Lock(action, found.value))
  }

  function StepPurge(s: State, t: Tid, c: Choice): Option<State>
    requires t in s.threads
  {
    match s.threads[t].pc
    case Drain(goal, found) =>
      Some(Go(s.(m := Drained(s.m)), t, Purge(goal, found, s.m.expired)))
    case Purge(goal, found, ids) =>
      if ids == [] then Some(Move(s, t, AfterPurge(goal, found)))
      else if c.fault then Some(Finish(s, t))
      else
        Some(Go(s.(tables := DeleteSession(s.tables, ids[0])), t, Purge(goal, found, ids[1..])))
    case _ => None
  }

  function StepCreate(s: State, t: Tid, c: Choice): Option<State>
    requires t in s.threads
  {
    var id := s.threads[t].id;
    match s.threads[t].pc
    case LockSnapshot(r) =>
      if r in s.locks then None else Some(Go(s, t, GetRead(Measuring(At(s.m, r).state))))
    case LockMeasure(r, snapshot) =>
      if r in s.locks then None else Some(Go(s, t, InsertRow(snapshot, At(s.m, r).createdAtMs)))
    case InsertRow(snapshot, createdAtMs) =>
      var created := Store.CreateSession(s.tables, snapshot, createdAtMs);
      if c.fault || created.Failure? then Some(Go(s, t, Withdraw))
      else
        Some(Finish(s.(tables := created.value, h := s.h.(born := s.h.born + {id})), t))
    case Withdraw =>
      if s.writer.Some? then None
      else if id in s.m.sessions then
        Some(Go(s.(m := Unmap(s.m, id)), t, MarkWithdrawn(s.m.sessions[id])))
      else Some(Finish(s, t))
    case MarkWithdrawn(r) => Some(Finish(s.(m := MarkDeleted(s.m, r)), t))
    case _ => None
  }

  function StepDescribe(s: State, t: Tid): Option<State>
    requires t in s.threads
  {
    var thread := s.threads[t];
    match thread.pc
    case LockDescribe(r) =>
      if r in s.locks then None
      else
        var state := At(s.m, r).state;
        var ack := Ack(thread.id, thread.since, |OpsOf(s.h, thread.id)|,
                       MetadataAnswer(state.turnCount, state.version));
        Some(Finish(Acknowledge(s, ack), t))
    case _ => None
  }

  /** Under the entry's lock: check the `deleted` flag, compute the next state, and draft the
      events; a reset or a chat replaces the entry's state before the store has agreed. */
  function StepBegin(cfg: Config, s: State, t: Tid, c: Choice): Option<State>
    requires t in s.threads && s.threads[t].pc.Begin?
  {
    var action, r := s.threads[t].pc.action, s.threads[t].pc.r;
    var previous := At(s.m, r).state;
    if At(s.m, r).deleted then Some(Move(Unlock(s, r), t, AfterFailure(action)))
    else
      match action
      case Delete => Some(Go(s, t, Erase(r)))
      case Reset =>
        (match ResetState(previous)
         case Failure(_) => Some(Move(Unlock(s, r), t, AfterFailure(action)))
         case Success(next) =>
           var events := [NewEvent(c.eventId, TypeName(SessionReset(previous.version)),
                                   SessionReset(previous.version), c.now)];
           Some(Go(s.(m := SetState(s.m, r, next)), t,
                   Append(action, r, previous, ResetOp, ResetAnswer(next.turnCount, next.version),
                          events, c.now))))
      case Chat(message) =>
        (match TurnResult(cfg.rules, previous, message, c.reply, c.predictionId)
         case Failure(_) => Some(Move(Unlock(s, r), t, AfterFailure(action)))
         case Success((next, outcome)) =>
           var asked := UserRecorded(outcome.turnCount, Utf8Length(message));
           var answered := AssistantRecorded(outcome.backendId, outcome.stateVersion);
           var events := [NewEvent(c.eventId, TypeName(asked), asked, c.now),
                          NewEvent(c.otherEventId, TypeName(answered), answered, c.now)];
           Some(Go(s.(m := SetState(s.m, r, next)), t,
                   Append(action, r, previous, ChatOp(message, c.reply.value, c.predictionId),
                          ChatAnswer(message, outcome), events, c.now))))
  }

  function Committed(h: Chronicle, id: SessionId, op: Op): Chronicle {
    h.(ops := h.ops[id := OpsOf(h, id) + [op]])
  }

  function StepCommit(cfg: Config, s: State, t: Tid, c: Choice): Option<State>
    requires t in s.threads
  {
    var id, since := s.threads[t].id, s.threads[t].since;
    match s.threads[t].pc
    case TakePermit(message, r) =>
      if s.permits == 0 then Some(Finish(s, t))
      else Some(Go(s.(permits := s.permits - 1), t, Lock(Chat(message), r)))
    case Lock(action, r) =>
      if r in s.locks then None else Some(Go(s.(locks := s.locks[r := t]), t, Begin(action, r)))
    case Begin(_, _) => StepBegin(cfg, s, t, c)
    case Append(action, r, previous, op, answer, events, now) =>
      var appended :=
        Store.AppendEvents(s.tables, id, previous.version, events, At(s.m, r).state, now);
      if c.fault || appended.Failure? then Some(Go(s, t, Undo(action, r, previous)))
      else
        Some(Go(s.(tables := appended.value, h := Committed(s.h, id, op)), t,
                Reply(action, r, answer)))
    case Undo(action, r, previous) =>
      Some(Move(Unlock(s.(m := SetState(s.m, r, previous)), r), t, AfterFailure(action)))
    case Reply(action, r, answer) =>
      var n := |OpsOf(s.h, id)|;
      var ack := Ack(id, since, if n == 0 then 0 else n - 1, answer);
      var s' := Unlock(s.(h := s.h.(settled := s.h.settled[id := n])), r);
      if action.Chat? then Some(Go(s', t, GivePermit(Some(ack))))
      else Some(Finish(Acknowledge(s', ack), t))
    case GivePermit(ack) =>
      var s' := s.(permits := s.permits + 1);
      Some(Finish(if ack.Some? then Acknowledge(s', ack.value) else s', t))
    case _ => None
  }

  function StepDelete(s: State, t: Tid, c: Choice): Option<State>
    requires t in s.threads
  {
    var id := s.threads[t].id;
    match s.threads[t].pc
    case Erase(r) =>
      if c.fault || id !in s.tables.sessions then Some(Finish(Unlock(s, r), t))
      else Some(Go(s.(tables := DeleteSession(s.tables, id)), t, UnmapErased(r)))
    case UnmapErased(r) =>
      if s.writer.Some? then None
      else if id in s.m.sessions then
        Some(Go(s.(m := Unmap(s.m, id)), t, MarkErased(r, s.m.sessions[id])))
      else Some(Go(s, t, Confirm(r)))
    case MarkErased(r, mapped) => Some(Go(s.(m := MarkDeleted(s.m, mapped)), t, Confirm(r)))
    case Confirm(r) => Some(Finish(Unlock(s.(h := s.h.(gone := s.h.gone + {id})), r), t))
    case _ => None
  }

  /** The sweep holds the write lock while it visits the sessions one by one. */
  function StepSweep(cfg: Config, s: State, t: Tid, c: Choice): Option<State>
    requires t in s.threads
  {
    match s.threads[t].pc
    case SweepLock =>
      if s.writer.Some? || !Enumerates(c.order, s.m.sessions.Keys) then None
      else Some(Go(s.(writer := Some(t)), t, Sweep(c.now, c.order, [])))
    case Sweep(now, todo, dead) =>
      if todo == [] then Some(Go(s.(writer := None), t, Extend(dead)))
      else if Sweeps(cfg.ttlMs, s.m, todo[0], now) then
        Some(Go(s.(m := Evict(s.m, todo[0])), t, Sweep(now, todo[1..], dead + [todo[0]])))
      else Some(Go(s, t, Sweep(now, todo[1..], dead)))
    case Extend(dead) => Some(Go(s.(m := Enqueue(s.m, dead)), t, Count))
    case Count => if s.writer.Some? then None else Some(Go(s, t, Drain(Readiness, None)))
    case _ => None
  }

  /** One step of the thread `t`; `None` when it must wait. */
  function Step(cfg: Config, s: State, t: Tid, c: Choice): Option<State>
    requires t in s.threads
  {
    var pc := s.threads[t].pc;
    if pc.GetRead? || pc.GetFlag? || pc.GetAge? || pc.GetTouch? || pc.GetEvict? || pc.GetPush? then
      StepGet(cfg, s, t, c)
    else if pc.Drain? || pc.Purge? then StepPurge(s, t, c)
    else if pc.LockSnapshot? || pc.LockMeasure? || pc.InsertRow? || pc.Withdraw?
            || pc.MarkWithdrawn? then StepCreate(s, t, c)
    else if pc.LockDescribe? then StepDescribe(s, t)
    else if pc.Erase? || pc.UnmapErased? || pc.MarkErased? || pc.Confirm? then StepDelete(s, t, c)
    else if pc.SweepLock? || pc.Sweep? || pc.Extend? || pc.Count? then StepSweep(cfg, s, t, c)
    else StepCommit(cfg, s, t, c)
  }

  // ----- arrivals and restarts -----------------------------------------------------------------

  /** POST /api/v1/sessions: a fresh id is drawn and its entry mapped. */
  predicate CreateArrives(s: State, s': State, t: Tid, id: SessionId, now: u64) {
    && s.serving && t !in s.threads && s.writer.None? && id !in s.h.used
    && s' == s.(
         m := Insert(s.m, NewEntry(Fresh(id), now, now)),
         threads := s.threads[t := Thread(id, 0, GetRead(Snapshotting))],
         h := s.h.(used := s.h.used + {id}))
  }

  /** Any other request, for any id at all. */
  predicate RequestArrives(s: State, s': State, t: Tid, id: SessionId, goal: Goal) {
    && s.serving && t !in s.threads
    && s' == s.(threads := s.threads[t := Thread(id, |OpsOf(s.h, id)|,
         if goal.Readiness? then SweepLock else GetRead(Lookup(goal)))])
  }

  /** The process stops between any two steps, and a new one runs `AppState::restore` over what
      the tables hold: it lists the sessions, restores each, and deletes the expired ones, of
      which `purged` are deleted before the start comes up or the store fails. */
  ghost predicate Restarts(cfg: Config, s: State, s': State, rows: seq<StoredSession>,
                           clock: seq<u64>, purged: nat)
  {
    && Listing(s.tables, rows) && |clock| == |rows|
    && var m := RestoreAll(cfg.ttlMs, rows, clock);
       && purged <= |m.expired|
       && var up := purged == |m.expired|;
          s' == State(if up then Drained(m) else EMPTY, None, map[], Slots(cfg), map[], up,
                      DeleteAll(s.tables, m.expired[..purged]), Recovered(s.h))
  }

  /** The process stops, and the new one cannot read the tables. */
  predicate Crashes(cfg: Config, s: State, s': State) {
    s' == State(EMPTY, None, map[], Slots(cfg), map[], false, s.tables, Recovered(s.h))
  }

  /** The response to the operation at position `k` of a session. */
  predicate Responds(ack: Ack, id: SessionId, k: nat) {
    !ack.answer.MetadataAnswer? && ack.id == id && ack.index == k
  }

  predicate Answered(acks: seq<Ack>, id: SessionId, k: nat) {
    exists i | 0 <= i < |acks| :: Responds(acks[i], id, k)
  }

  /** No handler survives the process, so no committed operation is still being worked on, and the
      operations not answered by now never will be. */
  function Recovered(h: Chronicle): Chronicle {
    h.(settled := map id | id in h.ops :: |h.ops[id]|,
       lost := set id, k: nat | id in h.ops && k < |h.ops[id]| && !Answered(h.acks, id, k) :: (id, k))
  }

  ghost predicate Init(cfg: Config, s: State) {
    s == State(EMPTY, None, map[], Slots(cfg), map[], true, Tables(map[], map[]),
               Chronicle({}, {}, map[], map[], [], {}, {}))
  }

  ghost predicate StepOf(cfg: Config, s: State, s': State, t: Tid) {
    t in s.threads && exists c :: Step(cfg, s, t, c) == Some(s')
  }

  ghost predicate Next(cfg: Config, s: State, s': State) {
    || (exists t :: StepOf(cfg, s, s', t))
    || (exists t, id, now :: CreateArrives(s, s', t, id, now))
    || (exists t, id, goal :: RequestArrives(s, s', t, id, goal))
    || (exists rows, clock, purged :: Restarts(cfg, s, s', rows, clock, purged))
    || Crashes(cfg, s, s')
  }

  /** A run: any interleaving of steps, arrivals and restarts from the initial state. */
  ghost predicate Run(cfg: Config, states: seq<State>) {
    && states != [] && Init(cfg, states[0])
    && forall i :: 0 <= i < |states| - 1 ==> Next(cfg, states[i], states[i + 1])
  }
}
