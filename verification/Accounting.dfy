/** Where the response to each committed operation is: sent, in the hands of a handler, or lost in
    a crash. Every operation is in exactly one of these places, so no two responses are about the
    same operation. */
module Accounting {
  import opened Text
  import opened Conversation
  import opened History
  import opened Store
  import opened Sessions
  import opened Server
  import opened Invariant
  import opened Preservation
  import opened Steps
  import opened Commit
  import opened Restart

  predicate SameOperation(a: Ack, b: Ack) {
    Responds(a, b.id, b.index) && Responds(b, a.id, a.index)
  }

  /** The response a handler is about to send, having given up its session's lock. */
  function InHand(s: State, t: Tid): Option<Ack> {
    if t in s.threads && s.threads[t].pc.GivePermit? then s.threads[t].pc.ack else None
  }

  ghost predicate Carried(s: State, id: SessionId, k: nat) {
    exists t :: InHand(s, t).Some? && Responds(InHand(s, t).value, id, k)
  }

  /** A response not sent yet: its operation is settled, not answered, and not lost. */
  predicate Outstanding(h: Chronicle, ack: Ack) {
    && !ack.answer.MetadataAnswer? && ack.index < SettledOf(h, ack.id)
    && !Answered(h.acks, ack.id, ack.index) && (ack.id, ack.index) !in h.lost
  }

  ghost predicate AnswersSettled(h: Chronicle) {
    && (forall i | 0 <= i < |h.acks| ::
          !h.acks[i].answer.MetadataAnswer? ==> h.acks[i].index < SettledOf(h, h.acks[i].id))
    && (forall i, j | 0 <= i < j < |h.acks| :: !SameOperation(h.acks[i], h.acks[j]))
  }

  ghost predicate HandsDistinct(s: State) {
    && (forall t | InHand(s, t).Some? :: Outstanding(s.h, InHand(s, t).value))
    && (forall t, u | t != u && InHand(s, t).Some? && InHand(s, u).Some? ::
          !SameOperation(InHand(s, t).value, InHand(s, u).value))
  }

  ghost predicate LossesSettled(h: Chronicle) {
    forall id, k | (id, k) in h.lost :: k < SettledOf(h, id) && !Answered(h.acks, id, k)
  }

  ghost predicate Complete(s: State) {
    forall id: SessionId, k: nat | k < SettledOf(s.h, id) ::
      Answered(s.h.acks, id, k) || Carried(s, id, k) || (id, k) in s.h.lost
  }

  ghost predicate Accounted(s: State) {
    AnswersSettled(s.h) && HandsDistinct(s) && LossesSettled(s.h) && Complete(s)
  }

  // ----- the kinds of change -------------------------------------------------------------------

  lemma {:induction false} AnsweredByMore(acks: seq<Ack>, ack: Ack, id: SessionId, k: nat)
    ensures Answered(acks + [ack], id, k) <==> Answered(acks, id, k) || Responds(ack, id, k)
  {
    if Answered(acks, id, k) {
      var i :| 0 <= i < |acks| && Responds(acks[i], id, k);
      assert Responds((acks + [ack])[i], id, k);
    }
    if Responds(ack, id, k) {
      assert Responds((acks + [ack])[|acks|], id, k);
    }
  }

  /** Nothing is settled, sent, taken in hand or lost. */
  ghost predicate KeepsAccounts(s: State, s': State) {
    && s'.h.acks == s.h.acks && s'.h.lost == s.h.lost && s'.h.settled == s.h.settled
    && (forall u :: InHand(s', u) == InHand(s, u))
  }

  lemma {:induction false} QuietIsAccounted(s: State, s': State)
    requires Accounted(s) && KeepsAccounts(s, s')
    ensures Accounted(s')
  {
    hide HandsDistinct, Complete, SameOperation, Answered, InHand;
    assert forall id :: SettledOf(s'.h, id) == SettledOf(s.h, id);
    QuietHands(s, s');
    QuietIsComplete(s, s');
  }

  lemma {:induction false} QuietHands(s: State, s': State)
    requires HandsDistinct(s) && KeepsAccounts(s, s')
    ensures HandsDistinct(s')
  {
    hide InHand, SameOperation, Answered;
    assert forall id :: SettledOf(s'.h, id) == SettledOf(s.h, id);
  }

  lemma {:induction false} QuietIsComplete(s: State, s': State)
    requires Complete(s) && KeepsAccounts(s, s')
    ensures Complete(s')
  {
    hide InHand, Answered, Responds;
    assert forall id :: SettledOf(s'.h, id) == SettledOf(s.h, id);
    forall id: SessionId, k: nat | k < SettledOf(s'.h, id)
      ensures Answered(s'.h.acks, id, k) || Carried(s', id, k) || (id, k) in s'.h.lost
    {
      if t :| InHand(s, t).Some? && Responds(InHand(s, t).value, id, k) {
        assert InHand(s', t) == InHand(s, t);
      }
    }
  }

  /** A response that reports metadata answers no operation. */
  lemma {:induction false} ReportIsAccounted(s: State, s': State, ack: Ack)
    requires Accounted(s) && ack.answer.MetadataAnswer?
    requires s'.h == s.h.(acks := s.h.acks + [ack]) && forall u :: InHand(s', u) == InHand(s, u)
    ensures Accounted(s')
  {
    hide InHand, Answered;
    forall id: SessionId, k: nat
      ensures Answered(s'.h.acks, id, k) == Answered(s.h.acks, id, k)
    {
      AnsweredByMore(s.h.acks, ack, id, k);
    }
    forall id: SessionId, k: nat | k < SettledOf(s'.h, id)
      ensures Answered(s'.h.acks, id, k) || Carried(s', id, k) || (id, k) in s'.h.lost
    {
      if t :| InHand(s, t).Some? && Responds(InHand(s, t).value, id, k) {
        assert InHand(s', t) == InHand(s, t);
      }
    }
  }

  /** A handler sends the response it had in hand. */
  lemma {:induction false} SendingIsAccounted(s: State, s': State, t: Tid, ack: Ack)
    requires Accounted(s) && InHand(s, t) == Some(ack)
    requires s'.h == s.h.(acks := s.h.acks + [ack])
    requires forall u :: InHand(s', u) == if u == t then None else InHand(s, u)
    ensures Accounted(s')
  {
    hide InHand, Answered;
    forall id: SessionId, k: nat
      ensures Answered(s'.h.acks, id, k) <==> Answered(s.h.acks, id, k) || Responds(ack, id, k)
    {
      AnsweredByMore(s.h.acks, ack, id, k);
    }
    forall i | 0 <= i < |s.h.acks|
      ensures !SameOperation(s.h.acks[i], ack)
    {
      AnsweredAt(s.h.acks, i);
    }
    forall id: SessionId, k: nat | k < SettledOf(s'.h, id)
      ensures Answered(s'.h.acks, id, k) || Carried(s', id, k) || (id, k) in s'.h.lost
    {
      if u :| InHand(s, u).Some? && Responds(InHand(s, u).value, id, k) {
        if u != t {
          assert InHand(s', u) == InHand(s, u);
        }
      }
    }
  }

  lemma {:induction false} AnsweredAt(acks: seq<Ack>, i: nat)
    requires i < |acks|
    ensures acks[i].answer.MetadataAnswer? || Answered(acks, acks[i].id, acks[i].index)
  {
    if !acks[i].answer.MetadataAnswer? {
      assert Responds(acks[i], acks[i].id, acks[i].index);
    }
  }

  /** A handler settles the last operation of its session and takes the response in hand. */
  lemma {:induction false} SettlingIsAccounted(s: State, s': State, t: Tid, ack: Ack)
    requires Accounted(s) && InHand(s, t) == None
    requires !ack.answer.MetadataAnswer? && ack.index == SettledOf(s.h, ack.id)
    requires s'.h == s.h.(settled := s.h.settled[ack.id := SettledOf(s.h, ack.id) + 1])
    requires forall u :: InHand(s', u) == if u == t then Some(ack) else InHand(s, u)
    ensures Accounted(s')
  {
    hide InHand;
    assert forall id :: SettledOf(s'.h, id) == SettledOf(s.h, id) + (if id == ack.id then 1 else 0);
    assert !Answered(s.h.acks, ack.id, ack.index);
    assert Carried(s', ack.id, ack.index) by {
      assert InHand(s', t) == Some(ack);
    }
    forall id: SessionId, k: nat | k < SettledOf(s'.h, id)
      ensures Answered(s'.h.acks, id, k) || Carried(s', id, k) || (id, k) in s'.h.lost
    {
      if k < SettledOf(s.h, id) {
        if u :| InHand(s, u).Some? && Responds(InHand(s, u).value, id, k) {
          assert InHand(s', u) == InHand(s, u);
        }
      }
    }
  }

  /** A crash turns what was in hand, or not yet settled, into losses. */
  lemma {:induction false} CrashIsAccounted(cfg: Config, s: State, s': State)
    requires Inv(cfg, s) && Accounted(s) && s'.h == Recovered(s.h) && s'.threads == map[]
    ensures Accounted(s')
  {
    hide Inv, Answered, SameOperation;
    AnsweredAreCommitted(cfg, s);
    assert forall id :: SettledOf(s'.h, id) == |OpsOf(s.h, id)|;
    assert forall u :: InHand(s', u) == None;
  }

  lemma {:induction false} AnsweredAreCommitted(cfg: Config, s: State)
    requires Inv(cfg, s)
    ensures forall i | 0 <= i < |s.h.acks| :: !s.h.acks[i].answer.MetadataAnswer? ==>
              s.h.acks[i].index < |OpsOf(s.h, s.h.acks[i].id)|
  {
    hide MapSound, TablesSound, HistorySound, ThreadsSound, Replay, Answers;
    forall i | 0 <= i < |s.h.acks|
      ensures !s.h.acks[i].answer.MetadataAnswer? ==>
                s.h.acks[i].index < |OpsOf(s.h, s.h.acks[i].id)|
    {
      assert Explained(cfg.rules, s.h, s.h.acks[i]);
    }
  }

  // ----- every step ----------------------------------------------------------------------------

  lemma {:induction false} GetKeepsAccounts(cfg: Config, s: State, t: Tid, c: Choice, s': State)
    requires t in s.threads && StepGet(cfg, s, t, c) == Some(s')
    ensures KeepsAccounts(s, s')
  {
    hide Evict, Touch, IsExpired;
  }

  lemma {:induction false} PurgeKeepsAccounts(s: State, t: Tid, c: Choice, s': State)
    requires t in s.threads && StepPurge(s, t, c) == Some(s')
    ensures KeepsAccounts(s, s')
  {
  }

  lemma {:induction false} SweepKeepsAccounts(cfg: Config, s: State, t: Tid, c: Choice, s': State)
    requires t in s.threads && StepSweep(cfg, s, t, c) == Some(s')
    ensures KeepsAccounts(s, s')
  {
    hide Evict, Sweeps, Enumerates;
  }

  lemma {:induction false} CreateKeepsAccounts(s: State, t: Tid, c: Choice, s': State)
    requires t in s.threads && StepCreate(s, t, c) == Some(s')
    ensures KeepsAccounts(s, s')
  {
    hide Store.CreateSession;
  }

  lemma {:induction false} DeleteKeepsAccounts(s: State, t: Tid, c: Choice, s': State)
    requires t in s.threads && StepDelete(s, t, c) == Some(s')
    ensures KeepsAccounts(s, s')
  {
  }

  lemma {:induction false} BeginKeepsAccounts(cfg: Config, s: State, t: Tid, c: Choice, s': State)
    requires t in s.threads && s.threads[t].pc.Begin? && StepBegin(cfg, s, t, c) == Some(s')
    ensures KeepsAccounts(s, s')
  {
    hide TurnResult, ResetState, SetState, TypeName, Utf8Length;
  }

  lemma {:induction false} CommitsKeepAccounts(cfg: Config, s: State, t: Tid, c: Choice, s': State)
    requires t in s.threads && StepCommit(cfg, s, t, c) == Some(s')
    requires !s.threads[t].pc.Reply? && InHand(s, t).None?
    ensures KeepsAccounts(s, s')
  {
    hide StepBegin, Store.AppendEvents, SetState;
    if s.threads[t].pc.Begin? {
      BeginKeepsAccounts(cfg, s, t, c, s');
    }
  }

  lemma {:induction false} DescriptionIsAccounted(s: State, t: Tid, s': State)
    requires Accounted(s) && t in s.threads && StepDescribe(s, t) == Some(s')
    ensures Accounted(s')
  {
    hide Accounted;
    var thread := s.threads[t];
    var state := At(s.m, thread.pc.r).state;
    var ack := Ack(thread.id, thread.since, |OpsOf(s.h, thread.id)|,
                   MetadataAnswer(state.turnCount, state.version));
    ReportIsAccounted(s, s', ack);
  }

  lemma {:induction false} PermitIsAccounted(cfg: Config, s: State, t: Tid, c: Choice, s': State)
    requires Accounted(s) && InHand(s, t).Some? && StepCommit(cfg, s, t, c) == Some(s')
    ensures Accounted(s')
  {
    hide Accounted, StepBegin;
    SendingIsAccounted(s, s', t, InHand(s, t).value);
  }

  /** The response to a committed operation answers the one operation not settled yet. */
  lemma {:induction false} ReplyAnswersLast(cfg: Config, s: State, t: Tid)
    requires Inv(cfg, s) && t in s.threads && s.threads[t].pc.Reply?
    ensures ReplyAck(s, t).index == SettledOf(s.h, s.threads[t].id)
    ensures |OpsOf(s.h, s.threads[t].id)| == SettledOf(s.h, s.threads[t].id) + 1
    ensures !ReplyAck(s, t).answer.MetadataAnswer?
  {
    hide Inv, Replay;
    HolderIsLocked(cfg, s, t);
  }

  lemma {:induction false} ReplyIsAccounted(cfg: Config, s: State, t: Tid, c: Choice, s': State)
    requires Inv(cfg, s) && Accounted(s) && t in s.threads && s.threads[t].pc.Reply?
    requires StepCommit(cfg, s, t, c) == Some(s')
    ensures Accounted(s')
  {
    hide Inv, Accounted, StepBegin;
    var ack := ReplyAck(s, t);
    var handed := Go(Settling(s, t), t, GivePermit(Some(ack)));
    ReplyAnswersLast(cfg, s, t);
    SettlingIsAccounted(s, handed, t, ack);
    if !s.threads[t].pc.action.Chat? {
      SendingIsAccounted(handed, s', t, ack);
    }
  }

  lemma {:induction false} StepKeepsAccounted(cfg: Config, s: State, t: Tid, c: Choice, s': State)
    requires Inv(cfg, s) && Accounted(s) && t in s.threads && Step(cfg, s, t, c) == Some(s')
    ensures Accounted(s')
  {
    hide Inv, Accounted, KeepsAccounts, StepGet, StepPurge, StepCreate, StepDelete, StepSweep, StepDescribe,
         StepCommit;
    var pc := s.threads[t].pc;
    if pc.LockDescribe? {
      DescriptionIsAccounted(s, t, s');
    } else if pc.Reply? {
      ReplyIsAccounted(cfg, s, t, c, s');
    } else if InHand(s, t).Some? {
      PermitIsAccounted(cfg, s, t, c, s');
    } else {
      if StepGet(cfg, s, t, c) == Some(s') {
        GetKeepsAccounts(cfg, s, t, c, s');
      } else if StepPurge(s, t, c) == Some(s') {
        PurgeKeepsAccounts(s, t, c, s');
      } else if StepSweep(cfg, s, t, c) == Some(s') {
        SweepKeepsAccounts(cfg, s, t, c, s');
      } else if StepCreate(s, t, c) == Some(s') {
        CreateKeepsAccounts(s, t, c, s');
      } else if StepDelete(s, t, c) == Some(s') {
        DeleteKeepsAccounts(s, t, c, s');
      } else {
        CommitsKeepAccounts(cfg, s, t, c, s');
      }
      QuietIsAccounted(s, s');
    }
  }

  lemma {:induction false} NextKeepsAccounted(cfg: Config, s: State, s': State)
    requires Inv(cfg, s) && Accounted(s) && Next(cfg, s, s')
    ensures Accounted(s')
  {
    hide Inv, Accounted, Step, Recovered, Listing, RestoreAll;
    if t :| StepOf(cfg, s, s', t) {
      var c :| Step(cfg, s, t, c) == Some(s');
      StepKeepsAccounted(cfg, s, t, c, s');
    } else if rows, clock, purged :| Restarts(cfg, s, s', rows, clock, purged) {
      CrashIsAccounted(cfg, s, s');
    } else if Crashes(cfg, s, s') {
      CrashIsAccounted(cfg, s, s');
    } else {
      QuietIsAccounted(s, s');
    }
  }

  /** In every state of every run every settled operation is accounted for. */
  lemma {:induction false} RunIsAccounted(cfg: Config, states: seq<State>, n: nat)
    requires Run(cfg, states) && n < |states|
    ensures Inv(cfg, states[n]) && Accounted(states[n])
  {
    hide Inv, Next;
    RunKeepsInvariant(cfg, states, n);
    if n > 0 {
      hide Accounted;
      RunIsAccounted(cfg, states, n - 1);
      NextKeepsAccounted(cfg, states[n - 1], states[n]);
    }
  }

  // ----- where every operation is --------------------------------------------------------------

  ghost predicate HoldsReply(s: State, t: Tid, r: Ref, id: SessionId) {
    && t in s.threads && s.threads[t].id == id && s.threads[t].pc.Reply? && s.threads[t].pc.r == r
    && r in s.locks && s.locks[r] == t
  }

  /** The last operation of a session, committed by a handler that still holds the session's lock. */
  ghost predicate AtReply(s: State, id: SessionId, k: nat) {
    k + 1 == |OpsOf(s.h, id)| && exists t, r :: HoldsReply(s, t, r, id)
  }

  lemma {:induction false} UnsettledIsHeld(cfg: Config, s: State, id: SessionId)
    requires Inv(cfg, s)
    ensures |OpsOf(s.h, id)| != SettledOf(s.h, id) <==> exists t, r :: HoldsReply(s, t, r, id)
    ensures SettledOf(s.h, id) <= |OpsOf(s.h, id)| <= SettledOf(s.h, id) + 1
  {
    hide Inv;
    SettledIsKnown(cfg, s, id);
    if |OpsOf(s.h, id)| != SettledOf(s.h, id) {
      var t :| t in s.threads && s.threads[t].id == id && s.threads[t].pc.Reply?;
      HolderIsLocked(cfg, s, t);
      assert HoldsReply(s, t, s.threads[t].pc.r, id);
    }
    if t, r :| HoldsReply(s, t, r, id) {
      ReplyAnswersLast(cfg, s, t);
    }
  }

  lemma {:induction false} SettledIsKnown(cfg: Config, s: State, id: SessionId)
    requires Inv(cfg, s)
    ensures Settled(s, id)
  {
    hide Settled;
  }

  /** What the four places say about a position, each on its own. */
  lemma {:induction false} PlacesOf(cfg: Config, s: State, id: SessionId, k: nat)
    requires Inv(cfg, s) && Accounted(s)
    ensures Answered(s.h.acks, id, k) ==> k < SettledOf(s.h, id)
    ensures Carried(s, id, k) ==> k < SettledOf(s.h, id) && !Answered(s.h.acks, id, k) && (id, k) !in s.h.lost
    ensures (id, k) in s.h.lost ==> k < SettledOf(s.h, id) && !Answered(s.h.acks, id, k)
    ensures AtReply(s, id, k) <==> SettledOf(s.h, id) == k < |OpsOf(s.h, id)|
    ensures k < SettledOf(s.h, id) ==> Answered(s.h.acks, id, k) || Carried(s, id, k) || (id, k) in s.h.lost
  {
    hide Inv, InHand, HoldsReply;
    UnsettledIsHeld(cfg, s, id);
  }

  /** In every state of every run each committed operation is in exactly one of four places: a
      response to it was sent; a chat that has given up the session's lock has the response in
      hand; it is the last one and its handler holds the lock; or an earlier crash lost it. */
  lemma {:induction false} EveryOperationIsAccounted(cfg: Config, states: seq<State>, n: nat,
                                                     id: SessionId, k: nat)
    requires Run(cfg, states) && n < |states|
    ensures var s := states[n];
      var sent, inHand := Answered(s.h.acks, id, k), Carried(s, id, k);
      var atReply, lost := AtReply(s, id, k), (id, k) in s.h.lost;
      && (k < |OpsOf(s.h, id)| <==> sent || inHand || atReply || lost)
      && !(sent && (inHand || atReply || lost)) && !(inHand && (atReply || lost)) && !(atReply && lost)
  {
    hide Inv, Next, Answered, Carried, AtReply, Accounted;
    var s := states[n];
    RunIsAccounted(cfg, states, n);
    PlacesOf(cfg, s, id, k);
    UnsettledIsHeld(cfg, s, id);
  }

  /** No two handlers have the response to the same operation in hand. */
  lemma {:induction false} OneHandEach(cfg: Config, states: seq<State>, n: nat, t: Tid, u: Tid)
    requires Run(cfg, states) && n < |states| && t != u
    requires InHand(states[n], t).Some? && InHand(states[n], u).Some?
    ensures var a, b := InHand(states[n], t).value, InHand(states[n], u).value;
      !a.answer.MetadataAnswer? && !b.answer.MetadataAnswer? && (a.id != b.id || a.index != b.index)
  {
    hide Inv, Next;
    RunIsAccounted(cfg, states, n);
    assert !SameOperation(InHand(states[n], t).value, InHand(states[n], u).value);
  }

  /** A session's committed operations are the answered ones, or those and the one whose handler
      holds the lock, exactly when no response of the session is in hand and none was lost. */
  lemma {:induction false} AnsweredOrOneMore(cfg: Config, states: seq<State>, n: nat, id: SessionId)
    requires Run(cfg, states) && n < |states|
    ensures var s := states[n];
      (forall k: nat | k < |OpsOf(s.h, id)| :: Answered(s.h.acks, id, k) || AtReply(s, id, k))
      <==> (&& (forall t | InHand(s, t).Some? :: InHand(s, t).value.id != id)
            && (forall k: nat :: (id, k) !in s.h.lost))
  {
    hide Inv, Next, Answered, AtReply, Accounted;
    var s := states[n];
    RunIsAccounted(cfg, states, n);
    HandsCarry(s);
    forall k: nat
      ensures k < |OpsOf(s.h, id)| && !Answered(s.h.acks, id, k) && !AtReply(s, id, k)
         <==> Carried(s, id, k) || (id, k) in s.h.lost
    {
      PlacesOf(cfg, s, id, k);
      UnsettledIsHeld(cfg, s, id);
    }
  }

  lemma {:induction false} HandsCarry(s: State)
    requires Accounted(s)
    ensures forall t | InHand(s, t).Some? :: Carried(s, InHand(s, t).value.id, InHand(s, t).value.index)
  {
    hide InHand;
    forall t | InHand(s, t).Some?
      ensures Carried(s, InHand(s, t).value.id, InHand(s, t).value.index)
    {
      assert Outstanding(s.h, InHand(s, t).value);
      assert Responds(InHand(s, t).value, InHand(s, t).value.id, InHand(s, t).value.index);
    }
  }
}
