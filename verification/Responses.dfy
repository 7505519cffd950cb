/** What the responses of the server say, and where the store keeps it, in terms of the operations
    committed alone. */
module Responses {
  import opened Text
  import opened Conversation
  import opened History
  import opened Store
  import opened Server
  import opened Invariant
  import opened Restart
  import opened Runs

  /** A response tells of the operations before it, and of its own: how many turns since the last
      reset, how many events were ever written, and for a chat the backend's reply itself. */
  ghost predicate Tells(rules: Rules, ops: seq<Op>, ack: Ack) {
    && ack.index <= |ops|
    && match ack.answer
       case MetadataAnswer(turnCount, version) =>
         turnCount == |Exchanges(ops[..ack.index])| && version == TotalCost(ops[..ack.index])
       case ResetAnswer(turnCount, version) =>
         && ack.index < |ops| && ops[ack.index].ResetOp?
         && turnCount == 0 && version == TotalCost(ops[..ack.index]) + 1
       case ChatAnswer(message, outcome) =>
         && ack.index < |ops| && ops[ack.index].ChatOp?
         && message == ops[ack.index].message && outcome.text == ops[ack.index].reply
         && outcome.backendId == rules.backendId
         && outcome.turnCount == |Exchanges(ops[..ack.index])| + 1
         && outcome.stateVersion == TotalCost(ops[..ack.index]) + 2
  }

  lemma {:induction false} PrefixIsSound(ops: seq<Op>, k: nat)
    requires AllAccepted(ops) && k <= |ops|
    ensures AllAccepted(ops[..k]) && TotalCost(ops[..k]) <= TotalCost(ops)
    decreases |ops|
  {
    if k < |ops| {
      var front := ops[..|ops| - 1];
      PrefixIsSound(front, k);
      assert ops[..k] == front[..k];
    } else {
      assert ops[..k] == ops;
    }
  }

  /** Where a sequential run of the first operations stands. */
  lemma {:induction false} PrefixCounters(rules: Rules, id: SessionId, ops: seq<Op>, k: nat)
    requires AllAccepted(ops) && TotalCost(ops) <= I64_MAX && k <= |ops|
    ensures var state := Replay(rules, id, ops[..k]);
      && state.turnCount == |Exchanges(ops[..k])| <= state.version
      && state.version == TotalCost(ops[..k]) <= I64_MAX
  {
    PrefixIsSound(ops, k);
    VersionCountsEvents(rules, id, ops[..k]);
    DerivedStateAgrees(rules, id, ops[..k]);
  }

  lemma {:induction false} ChatTells(rules: Rules, state: ConversationState, op: Op, answer: Answer)
    requires op.ChatOp? && Answers(rules, state, op, answer)
    requires state.version + 2 < U64_LIMIT && state.turnCount + 2 < U64_LIMIT
    ensures answer == ChatAnswer(op.message, ChatOutcome(op.reply, rules.backendId, state.turnCount + 1, state.version + 2))
  {
    var text := Admit(op.message).value;
    hide Admit, Contributes;
    AdmittedExactly(op.message, text);
    TurnExactly(rules, state, op.message, text, Success(op.reply), op.predictionId);
  }

  lemma {:induction false} ExplainedTells(rules: Rules, h: Chronicle, ack: Ack)
    requires HistorySound(h) && Explained(rules, h, ack)
    ensures Tells(rules, OpsOf(h, ack.id), ack)
  {
    hide TurnResult, Replay;
    var ops := OpsOf(h, ack.id);
    var state := Replay(rules, ack.id, ops[..ack.index]);
    PrefixCounters(rules, ack.id, ops, ack.index);
    if ack.answer.ChatAnswer? {
      ChatTells(rules, state, ops[ack.index], ack.answer);
    }
  }

  /** Every response of every run says just that. */
  lemma {:induction false} ResponsesTell(cfg: Config, states: seq<State>, n: nat, ack: Ack)
    requires Run(cfg, states) && n < |states| && ack in states[n].h.acks
    ensures Tells(cfg.rules, OpsOf(states[n].h, ack.id), ack)
  {
    hide Next, Inv, Explained, Tells;
    RunKeepsInvariant(cfg, states, n);
    ResponseIsExplained(cfg, states[n], ack);
    HistoryOf(cfg, states[n]);
    ExplainedTells(cfg.rules, states[n].h, ack);
  }

  lemma {:induction false} HistoryOf(cfg: Config, s: State)
    requires Inv(cfg, s)
    ensures HistorySound(s.h)
  {
  }

  lemma {:induction false} ExchangesStay(ops: seq<Op>, k: nat)
    requires k <= |ops| && forall j | k <= j < |ops| :: ops[j].ChatOp?
    ensures Exchanges(ops[..k]) <= Exchanges(ops)
    decreases |ops|
  {
    if k < |ops| {
      var front := ops[..|ops| - 1];
      ExchangesStay(front, k);
      assert ops[..k] == front[..k];
    } else {
      assert ops[..k] == ops;
    }
  }

  /** The turns a chat's response speaks of. */
  ghost predicate HoldsAnswer(turns: seq<Turn>, message: string, outcome: ChatOutcome) {
    var n := 2 * outcome.turnCount;
    && 2 <= n <= |turns|
    && turns[n - 1] == Turn(n, Assistant, outcome.text)
    && turns[n - 2].sequence == n - 1 && turns[n - 2].role == User
    && Contributes(message, turns[n - 2].content)
  }

  lemma {:induction false} ExchangeAt(ops: seq<Op>, k: nat)
    requires k < |ops| && AllAccepted(ops) && forall j | k < j < |ops| :: ops[j].ChatOp?
    requires ops[k].ChatOp?
    ensures var n := |Exchanges(ops[..k])|;
      && n < |Exchanges(ops)| && Exchanges(ops)[n].reply == ops[k].reply
      && Contributes(ops[k].message, Exchanges(ops)[n].said)
  {
    hide Admit, Contributes;
    ExchangesStay(ops, k + 1);
    var upto := ops[..k + 1];
    assert upto[..k] == ops[..k] && upto[k] == ops[k];
    assert Accepted(ops[k]);
    AdmittedExactly(ops[k].message, Admit(ops[k].message).value);
    assert Exchanges(upto) == Exchanges(ops[..k])
      + [Exchange(Admit(ops[k].message).value, ops[k].reply, ops[k].predictionId)];
  }

  /** As long as no reset follows, the stored row holds what a chat was answered: its turns are the
      trimmed message and the very text of the response, where the response's turn count says. */
  lemma {:induction false} AnswersAreStored(cfg: Config, states: seq<State>, n: nat, ack: Ack)
    requires Run(cfg, states) && n < |states| && ack in states[n].h.acks && ack.answer.ChatAnswer?
    requires ack.id in states[n].tables.sessions
    requires forall j | ack.index < j < |OpsOf(states[n].h, ack.id)| :: OpsOf(states[n].h, ack.id)[j].ChatOp?
    ensures HoldsAnswer(states[n].tables.sessions[ack.id].snapshot.turns, ack.answer.message, ack.answer.outcome)
  {
    hide Next, Inv, Run, Contributes, Exchanges;
    ResponsesTell(cfg, states, n, ack);
    SnapshotsAreDerived(cfg, states, n, ack.id);
    RunKeepsInvariant(cfg, states, n);
    HistoryOf(cfg, states[n]);
    ExchangeAt(OpsOf(states[n].h, ack.id), ack.index);
  }
}
