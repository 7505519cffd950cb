/** The session map as objects: entries shared by pointer, a map that the methods change in place,
    and the queue of expired ids. Clock readings are parameters. */
module SessionManager {
  import opened Text
  import opened Conversation
  import opened Store
  import opened Sessions

  class SessionEntry {
    const id: SessionId
    const createdAtMs: u64
    var state: ConversationState
    var lastAccessMs: u64
    var deleted: bool

    function View(): Entry
      reads this
    {
      Entry(id, state, createdAtMs, lastAccessMs, deleted)
    }

    constructor (state: ConversationState, createdAtMs: u64, lastAccessMs: u64)
      ensures View() == NewEntry(state, createdAtMs, lastAccessMs)
    {
      this.id, this.state := state.sessionId, state;
      this.createdAtMs, this.lastAccessMs := createdAtMs, lastAccessMs;
      deleted := false;
    }
  }

  function Views(entries: seq<SessionEntry>): (views: seq<Entry>)
    reads entries
    ensures |views| == |entries|
    ensures forall i | 0 <= i < |entries| :: views[i] == entries[i].View()
  {
    if entries == [] then []
    else Views(entries[..|entries| - 1]) + [entries[|entries| - 1].View()]
  }

  lemma {:induction false} ViewsOfOneMore(entries: seq<SessionEntry>, entry: SessionEntry)
    ensures Views(entries + [entry]) == Views(entries) + [entry.View()]
  {
    assert (entries + [entry])[..|entries|] == entries;
  }

  class SessionManager {
    const ttlMs: u64
    var sessions: map<SessionId, SessionEntry>
    var expired: seq<SessionId>
    ghost var heap: seq<SessionEntry>
    ghost var refs: map<SessionId, Ref>

    ghost function View(): Manager
      reads this, heap
    {
      Manager(Views(heap), refs, expired)
    }

    /** Entries are distinct objects, and the map leads each id to its own. */
    ghost predicate Valid()
      reads this, heap
    {
      && (forall i, j | 0 <= i < j < |heap| :: heap[i] != heap[j])
      && refs.Keys == sessions.Keys
      && (forall id | id in sessions :: refs[id] < |heap| && heap[refs[id]] == sessions[id])
      && Own(View())
    }

    constructor (ttlMs: u64)
      ensures Valid() && View() == EMPTY && this.ttlMs == ttlMs && heap == []
    {
      this.ttlMs := ttlMs;
      sessions, expired, heap, refs := map[], [], [], map[];
    }

    method Map(entry: SessionEntry)
      requires Valid() && entry !in heap
      modifies this
      ensures Valid() && View() == Insert(old(View()), entry.View())
      ensures heap == old(heap) + [entry]
    {
      hide Views, Own, Insert;
      ghost var m := View();
      InsertKeepsOwn(m, entry.View());
      ViewsOfOneMore(heap, entry);
      sessions := sessions[entry.id := entry];
      refs := refs[entry.id := |heap|];
      heap := heap + [entry];
    }

    method Create(id: SessionId, nowMs: u64)
      requires Valid()
      modifies this
      ensures Valid() && View() == Insert(old(View()), NewEntry(Fresh(id), nowMs, nowMs))
      ensures fresh(set e | e in heap && e !in old(heap)) && old(heap) <= heap
    {
      var entry := new SessionEntry(Fresh(id), nowMs, nowMs);
      Map(entry);
    }

    method Restore(stored: StoredSession, nowMs: u64) returns (mapped: bool)
      requires Valid() && stored.snapshot.sessionId == stored.sessionId
      modifies this
      ensures Valid() && View() == RestoreOne(ttlMs, old(View()), stored, nowMs)
      ensures mapped <==> nowMs <= stored.updatedAtMs + ttlMs
      ensures mapped ==>
                && stored.sessionId in sessions && sessions[stored.sessionId].state == stored.snapshot
                && sessions[stored.sessionId].createdAtMs == stored.createdAtMs
                && sessions[stored.sessionId].lastAccessMs == stored.updatedAtMs
      ensures fresh(set e | e in heap && e !in old(heap)) && old(heap) <= heap
    {
      if nowMs > stored.updatedAtMs && nowMs - stored.updatedAtMs > ttlMs {
        expired := expired + [stored.sessionId];
        return false;
      }
      var entry := new SessionEntry(stored.snapshot, stored.createdAtMs, stored.updatedAtMs);
      Map(entry);
      return true;
    }

    /** Marks the mapped entry deleted and takes it out of the map. */
    method Withdraw(id: SessionId)
      requires Valid() && id in sessions
      modifies this, sessions[id]
      ensures Valid() && View() == Evict(old(View()), id) && heap == old(heap)
      ensures sessions == old(sessions) - {id}
    {
      hide Views, Own, Evict;
      ghost var m, r := View(), refs[id];
      EvictKeepsOthers(m, id);
      EvictedHeap(m, id);
      var entry := sessions[id];
      entry.deleted := true;
      assert Views(heap) == m.heap[r := m.heap[r].(deleted := true)];
      sessions := sessions - {id};
      refs := refs - {id};
      assert View() == Evict(m, id);
    }

    method Renew(id: SessionId, nowMs: u64)
      requires Valid() && id in sessions
      modifies sessions[id]
      ensures Valid() && View() == Touch(old(View()), refs[id], nowMs)
    {
      hide Views;
      ghost var m, r := View(), refs[id];
      sessions[id].lastAccessMs := nowMs;
      assert Views(heap) == m.heap[r := m.heap[r].(lastAccessMs := nowMs)];
    }

    method Get(id: SessionId, nowMs: u64) returns (found: SessionEntry?)
      requires Valid()
      modifies this, heap
      ensures Valid() && heap == old(heap)
      ensures View() == Looked(ttlMs, old(View()), id, nowMs).0
      ensures match Looked(ttlMs, old(View()), id, nowMs).1
              case None => found == null
              case Some(r) => found == heap[r]
    {
      hide Views, Own, Evict, Touch;
      if id !in sessions {
        return null;
      }
      assert At(View(), refs[id]) == sessions[id].View();
      var entry := sessions[id];
      if entry.deleted || (nowMs > entry.lastAccessMs && nowMs - entry.lastAccessMs > ttlMs) {
        Withdraw(id);
        Queue([id]);
        return null;
      }
      Renew(id, nowMs);
      found := entry;
    }

    method Remove(id: SessionId) returns (removed: bool)
      requires Valid()
      modifies this, heap
      ensures Valid() && View() == Evict(old(View()), id) && heap == old(heap)
      ensures removed <==> id in old(sessions)
    {
      removed := id in sessions;
      if removed {
        Withdraw(id);
      }
    }

    method Queue(ids: seq<SessionId>)
      requires Valid()
      modifies `expired
      ensures Valid() && View() == Enqueue(old(View()), ids)
    {
      hide Views, Own;
      EnqueueKeepsOwn(View(), ids);
      expired := expired + ids;
    }

    /** The closure that a sweep runs on each mapped session. */
    method Retain(id: SessionId, nowMs: u64) returns (keep: bool)
      requires Valid() && id in sessions
      modifies this, heap
      ensures Valid() && heap == old(heap)
      ensures keep <==> !Sweeps(ttlMs, old(View()), id, nowMs)
      ensures View() == if keep then old(View()) else Evict(old(View()), id)
      ensures sessions == if keep then old(sessions) else old(sessions) - {id}
    {
      hide Views, Own, Evict;
      var entry := sessions[id];
      assert At(View(), refs[id]) == entry.View();
      keep := !entry.deleted && !(nowMs > entry.lastAccessMs && nowMs - entry.lastAccessMs > ttlMs);
      if !keep {
        Withdraw(id);
      }
    }

    method SweepExpired(nowMs: u64) returns (count: nat, ghost order: seq<SessionId>)
      requires Valid()
      modifies this, heap
      ensures Valid() && heap == old(heap)
      ensures Enumerates(order, old(sessions).Keys)
      ensures View() == Swept(ttlMs, old(View()), order, nowMs)
      ensures count == |Dead(ttlMs, old(View()), order, nowMs)|
    {
      ghost var m := View();
      var dead: seq<SessionId> := [];
      var todo := sessions.Keys;
      order := [];
      ghost var keys := sessions.Keys;
      assert Traversed(order, keys, todo);
      assert Dead(ttlMs, m, order, nowMs) == dead && EvictAll(m, dead) == m;
      assert Own(m) && m.sessions.Keys == sessions.Keys;
      hide *;
      while todo != {}
        invariant Valid() && heap == old(heap) && todo <= sessions.Keys
        invariant dead == Dead(ttlMs, m, order, nowMs)
        invariant View() == EvictAll(m, dead)
        invariant Traversed(order, keys, todo)
        decreases todo
      {
        var id :| id in todo;
        TraverseOne(order, keys, todo, id);
        SweepStep(ttlMs, m, order, id, nowMs);
        var keep := Retain(id, nowMs);
        todo := todo - {id};
        order := order + [id];
        if !keep {
          dead := dead + [id];
        }
      }
      SweepDone(ttlMs, m, order, nowMs);
      Queue(dead);
      count := |dead|;
    }

    method DrainExpired() returns (ids: seq<SessionId>)
      requires Valid()
      modifies this
      ensures Valid() && View() == Drained(old(View())) && heap == old(heap)
      ensures ids == old(expired)
    {
      ids := expired;
      expired := [];
    }
  }
}
