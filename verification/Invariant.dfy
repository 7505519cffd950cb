/** What every step of the server keeps. */
module Invariant {
  import opened Text
  import opened Conversation
  import opened History
  import opened Store
  import opened Sessions
  import opened Server

  // ----- what a program counter implies --------------------------------------------------------

  /** The entry whose state lock a thread at `pc` holds. */
  function Held(pc: Pc): Option<Ref> {
    match pc
    case Begin(_, r) => Some(r)
    case Append(_, r, _, _, _, _, _) => Some(r)
    case Undo(_, r, _) => Some(r)
    case Reply(_, r, _) => Some(r)
    case Erase(r) => Some(r)
    case UnmapErased(r) => Some(r)
    case MarkErased(r, _) => Some(r)
    case Confirm(r) => Some(r)
    case _ => None
  }

  predicate HoldsWriter(pc: Pc) {
    pc.GetPush? || pc.Sweep?
  }

  predicate HoldsPermit(pc: Pc) {
    || (pc.Lock? && pc.action.Chat?) || (pc.Begin? && pc.action.Chat?)
    || (pc.Append? && pc.action.Chat?) || (pc.Undo? && pc.action.Chat?)
    || (pc.Reply? && pc.action.Chat?) || pc.GivePermit?
  }

  /** The entries a thread at `pc` points to. */
  function Pointers(pc: Pc): set<Ref> {
    match pc
    case GetFlag(_, _, r) => {r}
    case GetAge(_, _, r) => {r}
    case GetTouch(_, _, r) => {r}
    case GetEvict(_, r) => {r}
    case Drain(_, found) => if found.Some? then {found.value} else {}
    case Purge(_, found, _) => if found.Some? then {found.value} else {}
    case LockSnapshot(r) => {r}
    case LockMeasure(r, _) => {r}
    case MarkWithdrawn(r) => {r}
    case LockDescribe(r) => {r}
    case TakePermit(_, r) => {r}
    case Lock(_, r) => {r}
    case Begin(_, r) => {r}
    case Append(_, r, _, _, _, _, _) => {r}
    case Undo(_, r, _) => {r}
    case Reply(_, r, _) => {r}
    case Erase(r) => {r}
    case UnmapErased(r) => {r}
    case MarkErased(r, mapped) => {r, mapped}
    case Confirm(r) => {r}
    case _ => {}
  }

  function CallerOf(pc: Pc): Option<Caller> {
    match pc
    case GetRead(caller) => Some(caller)
    case GetFlag(caller, _, _) => Some(caller)
    case GetAge(caller, _, _) => Some(caller)
    case GetTouch(caller, _, _) => Some(caller)
    case GetEvict(caller, _) => Some(caller)
    case GetPush(caller) => Some(caller)
    case _ => None
  }

  /** A create whose row has not been inserted. */
  predicate Creating(pc: Pc) {
    || (CallerOf(pc).Some? && (CallerOf(pc).value.Snapshotting? || CallerOf(pc).value.Measuring?))
    || pc.LockSnapshot? || pc.LockMeasure? || pc.InsertRow? || pc.Withdraw? || pc.MarkWithdrawn?
  }

  /** The snapshot a create has taken, if it has. */
  function SnapshotOf(pc: Pc): Option<ConversationState> {
    if CallerOf(pc).Some? && CallerOf(pc).value.Measuring? then Some(CallerOf(pc).value.snapshot)
    else if pc.LockMeasure? then Some(pc.snapshot)
    else if pc.InsertRow? then Some(pc.snapshot)
    else None
  }

  /** Ids a thread is about to queue or delete. */
  function Condemning(id: SessionId, pc: Pc): seq<SessionId> {
    match pc
    case GetPush(_) => [id]
    case Purge(_, _, ids) => ids
    case Sweep(_, _, dead) => dead
    case Extend(dead) => dead
    case _ => []
  }

  // ----- the parts of the invariant, each over the fields it speaks of -------------------------

  /** Entries have distinct ids, and the map leads each mapped id to its own live entry. */
  ghost predicate MapSound(m: Manager, used: set<SessionId>) {
    && (forall r :: 0 <= r < |m.heap| ==> m.heap[r].id in used)
    && (forall r, r' :: 0 <= r < r' < |m.heap| ==> m.heap[r].id != m.heap[r'].id)
    && (forall id :: id in m.sessions ==>
          && m.sessions[id] < |m.heap|
          && m.heap[m.sessions[id]].id == id
          && !m.heap[m.sessions[id]].deleted)
  }

  ghost predicate Condemned(m: Manager, used: set<SessionId>, ids: seq<SessionId>) {
    forall id :: id in ids ==> id in used && id !in m.sessions
  }

  /** A log holds the given events in order, numbered from 1. */
  ghost predicate Holds(log: seq<EventRow>, journal: seq<Payload>) {
    && |log| == |journal|
    && (forall i :: 0 <= i < |log| ==>
          && log[i].sequence == i + 1
          && log[i].payload == journal[i]
          && log[i].eventType == TypeName(journal[i]))
  }

  /** A row and its log are what a sequential run of the committed operations leaves. */
  ghost predicate RowExplained(rules: Rules, t: Tables, h: Chronicle, id: SessionId)
    requires id in t.sessions
  {
    && id in h.born
    && t.sessions[id].snapshot == Replay(rules, id, OpsOf(h, id))
    && t.sessions[id].version == t.sessions[id].snapshot.version
    && Holds(EventsOf(t, id), Journal(rules, id, OpsOf(h, id)))
  }

  ghost predicate TablesSound(rules: Rules, t: Tables, h: Chronicle) {
    && Valid(t)
    && (forall id :: id in t.sessions ==> RowExplained(rules, t, h, id))
  }

  ghost predicate HistorySound(h: Chronicle) {
    && h.born <= h.used && h.ops.Keys <= h.born
    && (forall id :: AllAccepted(OpsOf(h, id)) && TotalCost(OpsOf(h, id)) <= I64_MAX)
  }

  /** A deleted session is gone: no entry is mapped, no row, no event. */
  ghost predicate Gone(m: Manager, t: Tables, h: Chronicle) {
    forall id :: id in h.gone ==> id in h.born && id !in m.sessions && id !in t.sessions
  }

  ghost predicate LocksSound(locks: map<Ref, Tid>, threads: map<Tid, Thread>) {
    && (forall r :: r in locks ==>
          locks[r] in threads && Held(threads[locks[r]].pc) == Some(r))
    && (forall t :: t in threads && Held(threads[t].pc).Some? ==>
          && Held(threads[t].pc).value in locks
          && locks[Held(threads[t].pc).value] == t)
  }

  ghost predicate WriterSound(writer: Option<Tid>, threads: map<Tid, Thread>) {
    && (writer.Some? ==> writer.value in threads && HoldsWriter(threads[writer.value].pc))
    && (forall t :: t in threads && HoldsWriter(threads[t].pc) ==> writer == Some(t))
  }

  function PermitHolders(threads: map<Tid, Thread>): set<Tid> {
    set t | t in threads && HoldsPermit(threads[t].pc)
  }

  predicate Dirty(pc: Pc) {
    pc.Append? || pc.Undo?
  }

  /** Unless its lock holder has an operation under way, an entry's state is committed. */
  ghost predicate EntryCommitted(rules: Rules, s: State, r: Ref)
    requires r < |s.m.heap|
  {
    (r in s.locks && s.locks[r] in s.threads ==> !Dirty(s.threads[s.locks[r]].pc)) ==>
      s.m.heap[r].state == Replay(rules, s.m.heap[r].id, OpsOf(s.h, s.m.heap[r].id))
  }

  /** A mapped session that was born has its row, unless the delete holding it just removed it. */
  ghost predicate RowPresent(s: State, id: SessionId)
    requires id in s.m.sessions
  {
    id in s.h.born && id !in s.tables.sessions ==>
      && s.m.sessions[id] in s.locks && s.locks[s.m.sessions[id]] in s.threads
      && s.threads[s.locks[s.m.sessions[id]]].pc == UnmapErased(s.m.sessions[id])
  }

  /** All committed operations are settled but possibly one, and that one's handler still holds
      the lock. */
  ghost predicate Settled(s: State, id: SessionId) {
    && SettledOf(s.h, id) <= |OpsOf(s.h, id)| <= SettledOf(s.h, id) + 1
    && (|OpsOf(s.h, id)| == SettledOf(s.h, id) + 1 ==>
          exists t :: t in s.threads && s.threads[t].id == id && s.threads[t].pc.Reply?)
  }

  /** The answer to `op` run on `state`, and the state it leads to. */
  ghost predicate Answers(rules: Rules, state: ConversationState, op: Op, answer: Answer) {
    match op
    case ResetOp =>
      && ResetState(state).Success?
      && var next := ResetState(state).value;
         answer == ResetAnswer(next.turnCount, next.version)
    case ChatOp(message, reply, id) =>
      && TurnResult(rules, state, message, Success(reply), id).Success?
      && answer == ChatAnswer(message, TurnResult(rules, state, message, Success(reply), id).value.1)
  }

  /** A response is explained by the sequential history of its session: it is the answer a run
      of the committed operations gives at its index, and the index falls after the request. */
  ghost predicate Explained(rules: Rules, h: Chronicle, ack: Ack) {
    var ops := OpsOf(h, ack.id);
    && ack.since <= ack.index <= |ops|
    && if ack.answer.MetadataAnswer? then
         var state := Replay(rules, ack.id, ops[..ack.index]);
         ack.answer == MetadataAnswer(state.turnCount, state.version)
       else
         && ack.index < |ops|
         && Answers(rules, Replay(rules, ack.id, ops[..ack.index]), ops[ack.index], ack.answer)
  }

  /** The events drafted for `op` are those a sequential run writes. */
  ghost predicate Drafted(events: seq<NewEvent>, bodies: seq<Payload>) {
    && |events| == |bodies|
    && forall i :: 0 <= i < |events| ==>
         events[i].payload == bodies[i] && events[i].eventType == TypeName(bodies[i])
  }

  // ----- what the locals of a thread are worth -------------------------------------------------

  /** Pointers lead to entries of the thread's own session. */
  ghost predicate PointersSound(m: Manager, thread: Thread) {
    forall r :: r in Pointers(thread.pc) ==> r < |m.heap| && m.heap[r].id == thread.id
  }

  ghost predicate CreationSound(h: Chronicle, thread: Thread) {
    && (Creating(thread.pc) ==> thread.id in h.used && thread.id !in h.born)
    && (SnapshotOf(thread.pc).Some? ==> SnapshotOf(thread.pc).value == Fresh(thread.id))
  }

  ghost predicate DeletionSound(m: Manager, t: Tables, h: Chronicle, thread: Thread) {
    && ((thread.pc.UnmapErased? || thread.pc.MarkErased? || thread.pc.Confirm?) ==>
          thread.id in h.born && thread.id !in t.sessions)
    && ((thread.pc.MarkErased? || thread.pc.Confirm? || thread.pc.MarkWithdrawn?) ==>
          thread.id !in m.sessions)
  }

  /** A drafted operation leads from the committed state to the entry's state. */
  ghost predicate DraftSound(rules: Rules, ops: seq<Op>, id: SessionId, next: ConversationState,
                             pc: Pc)
    requires pc.Append?
  {
    && pc.previous == Replay(rules, id, ops)
    && Accepted(pc.op)
    && next == Advance(rules, pc.previous, pc.op)
    && Answers(rules, pc.previous, pc.op, pc.answer)
    && Drafted(pc.events, BodiesOf(rules, pc.previous, pc.op, next))
  }

  /** A committed operation is the last one, not settled, and its answer is the right one. */
  ghost predicate ReplySound(rules: Rules, ops: seq<Op>, settled: nat, thread: Thread)
    requires thread.pc.Reply?
  {
    && |ops| == settled + 1 && thread.since < |ops|
    && Answers(rules, Replay(rules, thread.id, ops[..|ops| - 1]), ops[|ops| - 1],
               thread.pc.answer)
  }

  ghost predicate OperationSound(rules: Rules, s: State, thread: Thread) {
    var ops, pc := OpsOf(s.h, thread.id), thread.pc;
    && thread.since <= |ops|
    && (pc.Undo? ==> pc.previous == Replay(rules, thread.id, ops))
    && (pc.Append? ==> DraftSound(rules, ops, thread.id, At(s.m, pc.r).state, pc))
    && (pc.Reply? ==> ReplySound(rules, ops, SettledOf(s.h, thread.id), thread))
    && (pc.GivePermit? && pc.ack.Some? ==> Explained(rules, s.h, pc.ack.value))
  }

  ghost predicate ThreadSound(rules: Rules, s: State, thread: Thread) {
    && PointersSound(s.m, thread)
    && Condemned(s.m, s.h.used, Condemning(thread.id, thread.pc))
    && CreationSound(s.h, thread)
    && DeletionSound(s.m, s.tables, s.h, thread)
    && OperationSound(rules, s, thread)
  }

  ghost predicate ThreadsSound(rules: Rules, s: State) {
    && (forall t :: t in s.threads ==> ThreadSound(rules, s, s.threads[t]))
    && (forall t, u | t in s.threads && u in s.threads && t != u ::
          Creating(s.threads[t].pc) && Creating(s.threads[u].pc) ==>
            s.threads[t].id != s.threads[u].id)
  }

  ghost predicate Inv(cfg: Config, s: State) {
    && MapSound(s.m, s.h.used)
    && Condemned(s.m, s.h.used, s.m.expired)
    && TablesSound(cfg.rules, s.tables, s.h)
    && HistorySound(s.h)
    && Gone(s.m, s.tables, s.h)
    && LocksSound(s.locks, s.threads)
    && WriterSound(s.writer, s.threads)
    && s.permits + |PermitHolders(s.threads)| == Slots(cfg)
    && (forall r :: 0 <= r < |s.m.heap| ==> EntryCommitted(cfg.rules, s, r))
    && (forall id :: id in s.m.sessions ==> RowPresent(s, id))
    && (forall id :: Settled(s, id))
    && (forall ack :: ack in s.h.acks ==> Explained(cfg.rules, s.h, ack))
    && ThreadsSound(cfg.rules, s)
  }
}
