/** The in-memory session map: shared entries, the map from ids to entries, and the queue of
    expired ids, with each access the server makes to them as a function. */
module Sessions {
  import opened Text
  import opened Conversation
  import opened Store

  /** A shared pointer to an entry: its position in the order of allocation. */
  type Ref = nat

  datatype Entry = Entry(
    id: SessionId, state: ConversationState, createdAtMs: u64, lastAccessMs: u64, deleted: bool)

  datatype Manager = Manager(
    heap: seq<Entry>, sessions: map<SessionId, Ref>, expired: seq<SessionId>)

  const EMPTY: Manager := Manager([], map[], [])

  function NewEntry(state: ConversationState, createdAtMs: u64, lastAccessMs: u64): Entry {
    Entry(state.sessionId, state, createdAtMs, lastAccessMs, false)
  }

  /** The entry behind a pointer; no pointer a handler holds dangles. */
  function At(m: Manager, r: Ref): Entry {
    if r < |m.heap| then m.heap[r] else NewEntry(Fresh(0), 0, 0)
  }

  function Put(m: Manager, r: Ref, e: Entry): Manager {
    if r < |m.heap| then m.(heap := m.heap[r := e]) else m
  }

  function Insert(m: Manager, e: Entry): Manager {
    m.(heap := m.heap + [e], sessions := m.sessions[e.id := |m.heap|])
  }

  /** `now.saturating_sub(last) > ttl` */
  predicate IsExpired(ttlMs: u64, lastAccessMs: u64, nowMs: u64): (expired: bool)
    ensures expired <==> nowMs > lastAccessMs + ttlMs
  {
    nowMs > lastAccessMs && nowMs - lastAccessMs > ttlMs
  }

  function MarkDeleted(m: Manager, r: Ref): Manager {
    Put(m, r, At(m, r).(deleted := true))
  }

  function Touch(m: Manager, r: Ref, nowMs: u64): Manager {
    Put(m, r, At(m, r).(lastAccessMs := nowMs))
  }

  function SetState(m: Manager, r: Ref, state: ConversationState): Manager {
    Put(m, r, At(m, r).(state := state))
  }

  function Unmap(m: Manager, id: SessionId): Manager {
    m.(sessions := m.sessions - {id})
  }

  /** Under the write lock: mark an entry deleted and take it out of the map. */
  function Evict(m: Manager, id: SessionId): Manager {
    if id in m.sessions then Unmap(MarkDeleted(m, m.sessions[id]), id) else m
  }

  function Enqueue(m: Manager, ids: seq<SessionId>): Manager {
    m.(expired := m.expired + ids)
  }

  function Drained(m: Manager): Manager {
    m.(expired := [])
  }

  /** What a sweep at `nowMs` does with the session `id`. */
  predicate Sweeps(ttlMs: u64, m: Manager, id: SessionId, nowMs: u64) {
    && id in m.sessions
    && var e := At(m, m.sessions[id]);
       e.deleted || IsExpired(ttlMs, e.lastAccessMs, nowMs)
  }

  /** Restoring one stored session at `nowMs`: expired ones are queued, the others mapped. */
  function RestoreOne(ttlMs: u64, m: Manager, stored: StoredSession, nowMs: u64): Manager {
    if IsExpired(ttlMs, stored.updatedAtMs, nowMs) then Enqueue(m, [stored.sessionId])
    else
      m.(heap := m.heap + [NewEntry(stored.snapshot, stored.createdAtMs, stored.updatedAtMs)],
         sessions := m.sessions[stored.sessionId := |m.heap|])
  }

  /** Restoring a list of stored sessions, the clock reading `clock[i]` at the i-th. */
  function RestoreAll(ttlMs: u64, rows: seq<StoredSession>, clock: seq<u64>): Manager
    requires |clock| == |rows|
  {
    if rows == [] then EMPTY
    else
      var n := |rows| - 1;
      RestoreOne(ttlMs, RestoreAll(ttlMs, rows[..n], clock[..n]), rows[n], clock[n])
  }

  function DeleteAll(t: Tables, ids: seq<SessionId>): Tables {
    if ids == [] then t
    else DeleteSession(DeleteAll(t, ids[..|ids| - 1]), ids[|ids| - 1])
  }

  /** `SessionManager::get` when nothing interrupts it. */
  function Looked(ttlMs: u64, m: Manager, id: SessionId, nowMs: u64): (Manager, Option<Ref>) {
    if id !in m.sessions then (m, None)
    else if Sweeps(ttlMs, m, id, nowMs) then (Enqueue(Evict(m, id), [id]), None)
    else (Touch(m, m.sessions[id], nowMs), Some(m.sessions[id]))
  }

  /** Those of `order` that a sweep at `nowMs` takes out. */
  function Dead(ttlMs: u64, m: Manager, order: seq<SessionId>, nowMs: u64): seq<SessionId> {
    if order == [] then []
    else
      var last := order[|order| - 1];
      Dead(ttlMs, m, order[..|order| - 1], nowMs)
      + (if Sweeps(ttlMs, m, last, nowMs) then [last] else [])
  }

  function EvictAll(m: Manager, ids: seq<SessionId>): Manager {
    if ids == [] then m else Evict(EvictAll(m, ids[..|ids| - 1]), ids[|ids| - 1])
  }

  /** `SessionManager::sweep_expired` when it traverses the map in the given order. */
  function Swept(ttlMs: u64, m: Manager, order: seq<SessionId>, nowMs: u64): Manager {
    var dead := Dead(ttlMs, m, order, nowMs);
    Enqueue(EvictAll(m, dead), dead)
  }

  /** Each mapped id leads to its own entry. */
  predicate Own(m: Manager) {
    forall id | id in m.sessions :: m.sessions[id] < |m.heap| && m.heap[m.sessions[id]].id == id
  }

  predicate Enumerates(order: seq<SessionId>, ids: set<SessionId>) {
    && (set id | id in order) == ids
    && (forall i, j :: 0 <= i < j < |order| ==> order[i] != order[j])
  }

  lemma {:induction false} EvictKeepsOthers(m: Manager, id: SessionId)
    requires Own(m)
    ensures Own(Evict(m, id))
    ensures Evict(m, id).sessions == m.sessions - {id} && Evict(m, id).expired == m.expired
    ensures forall other | other in m.sessions && other != id ::
              At(Evict(m, id), m.sessions[other]) == At(m, m.sessions[other])
    ensures id in m.sessions ==> At(Evict(m, id), m.sessions[id]) == At(m, m.sessions[id]).(deleted := true)
  {
  }

  lemma {:induction false} EvictedHeap(m: Manager, id: SessionId)
    requires Own(m) && id in m.sessions
    ensures Evict(m, id) == m.(heap := m.heap[m.sessions[id] := m.heap[m.sessions[id]].(deleted := true)],
                               sessions := m.sessions - {id})
  {
  }

  lemma {:induction false} InsertKeepsOwn(m: Manager, e: Entry)
    requires Own(m)
    ensures Own(Insert(m, e)) && Insert(m, e) == Manager(m.heap + [e], m.sessions[e.id := |m.heap|], m.expired)
  {
  }

  lemma {:induction false} EnqueueKeepsOwn(m: Manager, ids: seq<SessionId>)
    requires Own(m)
    ensures Own(Enqueue(m, ids))
  {
  }

  lemma {:induction false} DeadAreSwept(ttlMs: u64, m: Manager, order: seq<SessionId>, nowMs: u64)
    ensures forall id :: id in Dead(ttlMs, m, order, nowMs) <==> id in order && Sweeps(ttlMs, m, id, nowMs)
  {
    if order != [] {
      var front, last := order[..|order| - 1], order[|order| - 1];
      DeadAreSwept(ttlMs, m, front, nowMs);
      assert order == front + [last];
    }
  }

  /** What a run of evictions leaves behind. */
  ghost predicate Evicted(m: Manager, ids: seq<SessionId>, m': Manager) {
    && Own(m') && m'.expired == m.expired
    && m'.sessions == m.sessions - (set id | id in ids)
    && (forall id | id in m'.sessions :: At(m', m.sessions[id]) == At(m, m.sessions[id]))
    && (forall id | id in m.sessions && id in ids :: At(m', m.sessions[id]).deleted)
  }

  lemma {:induction false} EvictAllIsEvicted(m: Manager, ids: seq<SessionId>)
    requires Own(m)
    ensures Evicted(m, ids, EvictAll(m, ids))
  {
    if ids != [] {
      var front, last := ids[..|ids| - 1], ids[|ids| - 1];
      EvictAllIsEvicted(m, front);
      var before := EvictAll(m, front);
      EvictKeepsOthers(before, last);
      assert ids == front + [last];
      assert (set id | id in ids) == (set id | id in front) + {last};
      forall id | id in m.sessions && id in ids
        ensures At(EvictAll(m, ids), m.sessions[id]).deleted
      {
        if id != last && last in before.sessions {
          assert m.sessions[last] != m.sessions[id];
        }
      }
    }
  }

  /** One more session visited by a sweep. */
  lemma {:induction false} SweepStep(ttlMs: u64, m: Manager, order: seq<SessionId>, id: SessionId, nowMs: u64)
    requires Own(m) && id in m.sessions && id !in order
    ensures var dead := Dead(ttlMs, m, order, nowMs);
      var before := EvictAll(m, dead);
      && id in before.sessions && Sweeps(ttlMs, before, id, nowMs) == Sweeps(ttlMs, m, id, nowMs)
      && Dead(ttlMs, m, order + [id], nowMs) == (if Sweeps(ttlMs, m, id, nowMs) then dead + [id] else dead)
      && EvictAll(m, dead + [id]) == Evict(before, id)
  {
    hide Evict;
    var dead := Dead(ttlMs, m, order, nowMs);
    DeadAreSwept(ttlMs, m, order, nowMs);
    EvictAllIsEvicted(m, dead);
    assert (order + [id])[..|order|] == order && (dead + [id])[..|dead|] == dead;
  }

  /** `order` names each of `ids` that is not yet to do, once. */
  ghost predicate Traversed(order: seq<SessionId>, ids: set<SessionId>, todo: set<SessionId>) {
    && todo <= ids
    && (forall id :: id in order <==> id in ids - todo)
    && (forall i, j :: 0 <= i < j < |order| ==> order[i] != order[j])
  }

  lemma {:induction false} TraverseOne(order: seq<SessionId>, ids: set<SessionId>, todo: set<SessionId>, id: SessionId)
    requires Traversed(order, ids, todo) && id in todo
    ensures Traversed(order + [id], ids, todo - {id}) && id !in order && id in ids
  {
  }

  lemma {:induction false} SweepDone(ttlMs: u64, m: Manager, order: seq<SessionId>, nowMs: u64)
    requires Traversed(order, m.sessions.Keys, {})
    ensures Enumerates(order, m.sessions.Keys)
    ensures var dead := Dead(ttlMs, m, order, nowMs);
            Enqueue(EvictAll(m, dead), dead) == Swept(ttlMs, m, order, nowMs)
  {
    assert (set id | id in order) == m.sessions.Keys;
  }

  /** A mapped session that is not deleted and was used at most the time to live ago. */
  ghost predicate Alive(ttlMs: u64, m: Manager, id: SessionId, nowMs: u64) {
    && id in m.sessions
    && var e := At(m, m.sessions[id]);
       !e.deleted && nowMs <= e.lastAccessMs + ttlMs
  }

  /** A sweep takes out exactly the deleted and the expired sessions, flags and queues them, and
      leaves the others as they were. */
  lemma {:induction false} SweepTakesTheExpired(ttlMs: u64, m: Manager, order: seq<SessionId>, nowMs: u64)
    requires Own(m) && Enumerates(order, m.sessions.Keys)
    ensures var m' := Swept(ttlMs, m, order, nowMs);
      && Own(m')
      && (forall id :: id in m'.sessions <==> Alive(ttlMs, m, id, nowMs))
      && (forall id | id in m'.sessions ::
            m'.sessions[id] == m.sessions[id] && At(m', m.sessions[id]) == At(m, m.sessions[id]))
      && (forall id | id in m.sessions && id !in m'.sessions ::
            At(m', m.sessions[id]).deleted && id in m'.expired)
  {
    var dead := Dead(ttlMs, m, order, nowMs);
    DeadAreSwept(ttlMs, m, order, nowMs);
    EvictAllIsEvicted(m, dead);
    assert forall id :: id in order <==> id in (set x | x in order);
  }

  /** Looking up a live session renews it and nothing else; a dead one is as if it were not there. */
  lemma {:induction false} LookupFindsTheLiving(ttlMs: u64, m: Manager, id: SessionId, nowMs: u64)
    requires Own(m)
    ensures var (m', found) := Looked(ttlMs, m, id, nowMs);
      && Own(m')
      && (found.Some? <==> Alive(ttlMs, m, id, nowMs))
      && (found.Some? ==>
            && found.value == m.sessions[id] && m'.sessions == m.sessions && m'.expired == m.expired
            && At(m', found.value) == At(m, found.value).(lastAccessMs := nowMs))
      && (found.None? ==>
            && m'.sessions == m.sessions - {id}
            && m'.expired == if id in m.sessions then m.expired + [id] else m.expired)
      && (forall other | other in m.sessions && other != id ::
            At(m', m.sessions[other]) == At(m, m.sessions[other]))
  {
    EvictKeepsOthers(m, id);
  }

  /** What is found is good for another time to live: looking again finds it unless more than that
      has passed. */
  lemma {:induction false} LookupsRenew(ttlMs: u64, m: Manager, id: SessionId, nowMs: u64, laterMs: u64)
    requires Own(m) && Alive(ttlMs, m, id, nowMs)
    ensures Looked(ttlMs, Looked(ttlMs, m, id, nowMs).0, id, laterMs).1.Some? <==> laterMs <= nowMs + ttlMs
  {
    LookupFindsTheLiving(ttlMs, m, id, nowMs);
    LookupFindsTheLiving(ttlMs, Looked(ttlMs, m, id, nowMs).0, id, laterMs);
  }

  /** A session just created is found for one time to live. */
  lemma {:induction false} CreatedIsFound(ttlMs: u64, m: Manager, id: SessionId, createdMs: u64, nowMs: u64)
    requires Own(m)
    ensures var m' := Insert(m, NewEntry(Fresh(id), createdMs, createdMs));
      Looked(ttlMs, m', id, nowMs).1.Some? <==> nowMs <= createdMs + ttlMs
  {
    var e := NewEntry(Fresh(id), createdMs, createdMs);
    InsertKeepsOwn(m, e);
    LookupFindsTheLiving(ttlMs, Insert(m, e), id, nowMs);
  }
}
