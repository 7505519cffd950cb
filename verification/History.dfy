/** Sequential histories of one session: the operations committed to it, the state they lead
    to, and the events they write. Every concurrent run is explained by such histories. */
module History {
  import opened Text
  import opened Conversation

  /** A committed operation; `reply` is what the backend answered. */
  datatype Op = ChatOp(message: string, reply: string, predictionId: Uuid) | ResetOp

  datatype Payload =
    | UserRecorded(turnCount: u64, contentBytes: nat)
    | AssistantRecorded(backendId: string, stateVersion: u64)
    | SessionReset(previousVersion: u64)
    | Foreign(json: string)

  function TypeName(payload: Payload): string {
    match payload
    case UserRecorded(_, _) => "turn.user_recorded"
    case AssistantRecorded(_, _) => "turn.assistant_recorded"
    case SessionReset(_) => "session.reset"
    case Foreign(_) => "external.update"
  }

  predicate Accepted(op: Op) {
    op.ChatOp? ==> Admit(op.message).Success?
  }

  predicate AllAccepted(ops: seq<Op>) {
    forall i :: 0 <= i < |ops| ==> Accepted(ops[i])
  }

  function Cost(op: Op): nat {
    if op.ChatOp? then 2 else 1
  }

  function TotalCost(ops: seq<Op>): nat {
    if ops == [] then 0 else TotalCost(ops[..|ops| - 1]) + Cost(ops[|ops| - 1])
  }

  /** A history no prefix of which wraps a counter. */
  predicate Sound(ops: seq<Op>) {
    AllAccepted(ops) && TotalCost(ops) < U64_LIMIT
  }

  function Advance(rules: Rules, state: ConversationState, op: Op): ConversationState {
    match op
    case ResetOp =>
      (match ResetState(state) case Success(next) => next case Failure(_) => state)
    case ChatOp(message, reply, id) =>
      match TurnResult(rules, state, message, Success(reply), id)
      case Success((next, _)) => next
      case Failure(_) => state
  }

  /** The state a sequential run of `ops` leaves behind. */
  function Replay(rules: Rules, id: SessionId, ops: seq<Op>): ConversationState {
    if ops == [] then Fresh(id)
    else Advance(rules, Replay(rules, id, ops[..|ops| - 1]), ops[|ops| - 1])
  }

  /** The events a handler writes for `op` when it takes the session from `before` to `after`. */
  function BodiesOf(rules: Rules, before: ConversationState, op: Op, after: ConversationState)
    : (bodies: seq<Payload>)
    ensures |bodies| == Cost(op)
  {
    match op
    case ResetOp => [SessionReset(before.version)]
    case ChatOp(message, _, _) =>
      [UserRecorded(after.turnCount, Utf8Length(message)),
       AssistantRecorded(rules.backendId, after.version)]
  }

  /** The event log a sequential run of `ops` writes. */
  function Journal(rules: Rules, id: SessionId, ops: seq<Op>): seq<Payload> {
    if ops == [] then []
    else
      var front := ops[..|ops| - 1];
      Journal(rules, id, front)
      + BodiesOf(rules, Replay(rules, id, front), ops[|ops| - 1], Replay(rules, id, ops))
  }

  /** The turns in a log since its last reset, from the kinds of its events alone. */
  function TurnsSinceReset(log: seq<Payload>): nat {
    if log == [] then 0
    else
      var front, last := log[..|log| - 1], log[|log| - 1];
      if last.SessionReset? then 0
      else if last.UserRecorded? then TurnsSinceReset(front) + 1
      else TurnsSinceReset(front)
  }

  /** A chat as its operation records it: the message as admitted, the backend's reply, and the id
      of the prediction issued. */
  datatype Exchange = Exchange(said: string, reply: string, predictionId: Uuid)

  /** The chats since the last reset. */
  function Exchanges(ops: seq<Op>): seq<Exchange> {
    if ops == [] then []
    else
      match ops[|ops| - 1]
      case ResetOp => []
      case ChatOp(message, reply, id) =>
        Exchanges(ops[..|ops| - 1])
        + (match Admit(message) case Success(text) => [Exchange(text, reply, id)] case Failure(_) => [])
  }

  /** What the user said since the last reset, as stored. */
  function Said(ops: seq<Op>): (said: seq<string>)
    ensures |said| == |Exchanges(ops)|
  {
    seq(|Exchanges(ops)|, k requires 0 <= k < |Exchanges(ops)| => Exchanges(ops)[k].said)
  }

  /** What a classifier finds in a series of messages. */
  function TopicsOf(classify: string -> set<string>, messages: seq<string>): set<string> {
    if messages == [] then {}
    else TopicsOf(classify, messages[..|messages| - 1]) + classify(messages[|messages| - 1])
  }

  /** The version of a session is the number of events ever written for it. */
  lemma {:induction false} VersionCountsEvents(rules: Rules, id: SessionId, ops: seq<Op>)
    requires Sound(ops)
    ensures Replay(rules, id, ops).version == TotalCost(ops) == |Journal(rules, id, ops)|
    ensures Replay(rules, id, ops).turnCount <= TotalCost(ops)
    ensures Replay(rules, id, ops).sessionId == id
  {
    if ops != [] {
      VersionCountsEvents(rules, id, ops[..|ops| - 1]);
    }
  }

  /** Each event of a journal records the position it stands at: an assistant event the version
      it produced, a reset the version it replaced, a user event the running turn count. */
  ghost predicate PositionsRecorded(log: seq<Payload>) {
    forall i :: 0 <= i < |log| ==> RecordedAt(log, i)
  }

  ghost predicate RecordedAt(log: seq<Payload>, i: nat)
    requires i < |log|
  {
    match log[i]
    case AssistantRecorded(_, version) =>
      version == i + 1 && i > 0 && log[i - 1].UserRecorded?
    case SessionReset(previous) => previous == i
    case UserRecorded(turnCount, _) =>
      && turnCount == TurnsSinceReset(log[..i + 1])
      && i + 1 < |log| && log[i + 1].AssistantRecorded?
    case Foreign(_) => false
  }

  lemma {:induction false} PositionsOfLongerLog(log: seq<Payload>, more: seq<Payload>)
    requires PositionsRecorded(log)
    ensures forall i :: 0 <= i < |log| ==> RecordedAt(log + more, i)
  {
    forall i | 0 <= i < |log|
      ensures RecordedAt(log + more, i)
    {
      assert RecordedAt(log, i);
      assert (log + more)[..i + 1] == log[..i + 1];
    }
  }

  lemma {:induction false} TurnsAfter(log: seq<Payload>, body: Payload)
    ensures TurnsSinceReset(log + [body]) ==
            if body.SessionReset? then 0
            else if body.UserRecorded? then TurnsSinceReset(log) + 1
            else TurnsSinceReset(log)
  {
    assert (log + [body])[..|log|] == log;
  }

  lemma {:induction false} ResetRecordsPosition(log: seq<Payload>)
    requires PositionsRecorded(log) && |log| < U64_LIMIT
    ensures PositionsRecorded(log + [SessionReset(|log|)])
  {
    PositionsOfLongerLog(log, [SessionReset(|log|)]);
  }

  lemma {:induction false} ChatRecordsPositions(log: seq<Payload>, turns: u64, bytes: nat, backendId: string)
    requires PositionsRecorded(log) && |log| + 2 < U64_LIMIT
    requires turns == TurnsSinceReset(log) + 1
    ensures PositionsRecorded(
              log + [UserRecorded(turns, bytes), AssistantRecorded(backendId, |log| + 2)])
  {
    var asked, answered := UserRecorded(turns, bytes), AssistantRecorded(backendId, |log| + 2);
    var log' := log + [asked, answered];
    PositionsOfLongerLog(log, [asked, answered]);
    TurnsAfter(log, asked);
    assert log'[..|log| + 1] == log + [asked];
    assert RecordedAt(log', |log|) && RecordedAt(log', |log| + 1);
  }

  /** Where the counters of a state stand after one more operation. */
  lemma {:induction false} CountersAdvance(rules: Rules, state: ConversationState, op: Op)
    requires Accepted(op) && state.version + 2 < U64_LIMIT && state.turnCount + 2 < U64_LIMIT
    ensures Advance(rules, state, op).version == state.version + Cost(op)
    ensures Advance(rules, state, op).turnCount == if op.ChatOp? then state.turnCount + 1 else 0
    ensures Advance(rules, state, op).sessionId == state.sessionId
  {
  }

  lemma {:induction false} JournalRecordsPositions(rules: Rules, id: SessionId, ops: seq<Op>)
    requires Sound(ops) && TotalCost(ops) + 2 < U64_LIMIT
    ensures PositionsRecorded(Journal(rules, id, ops))
    ensures TurnsSinceReset(Journal(rules, id, ops)) == Replay(rules, id, ops).turnCount
  {
    if ops != [] {
      var front, op := ops[..|ops| - 1], ops[|ops| - 1];
      var state, log := Replay(rules, id, front), Journal(rules, id, front);
      JournalRecordsPositions(rules, id, front);
      VersionCountsEvents(rules, id, front);
      CountersAdvance(rules, state, op);
      if op.ChatOp? {
        var bytes := Utf8Length(op.message);
        ChatRecordsPositions(log, state.turnCount + 1, bytes, rules.backendId);
        TurnsAfterChat(log, UserRecorded(state.turnCount + 1, bytes),
                       AssistantRecorded(rules.backendId, |log| + 2));
      } else {
        ResetRecordsPosition(log);
        TurnsAfter(log, SessionReset(|log|));
      }
    }
  }

  lemma {:induction false} TurnsAfterChat(log: seq<Payload>, asked: Payload, answered: Payload)
    requires asked.UserRecorded? && answered.AssistantRecorded?
    ensures TurnsSinceReset(log + [asked, answered]) == TurnsSinceReset(log) + 1
  {
    TurnsAfter(log, asked);
    TurnsAfter(log + [asked], answered);
    assert log + [asked, answered] == (log + [asked]) + [answered];
  }

  /** Each exchange has become two turns, with what was said and what was replied. */
  ghost predicate TurnsDerived(turns: seq<Turn>, chats: seq<Exchange>) {
    && |turns| == 2 * |chats|
    && (forall k :: 0 <= k < |chats| ==>
          && turns[2 * k] == Turn(2 * k + 1, User, chats[k].said)
          && turns[2 * k + 1] == Turn(2 * k + 2, Assistant, chats[k].reply))
  }

  ghost predicate PredictionsDerived(predictions: seq<Prediction>, chats: seq<Exchange>) {
    && |predictions| == |chats|
    && (forall k :: 0 <= k < |chats| ==>
          && predictions[k].id == chats[k].predictionId && predictions[k].target == "next_turn.intent"
          && predictions[k].confidence == 0.5 && predictions[k].issuedBeforeTurn == k + 2
          && predictions[k].status == Pending)
  }

  /** What the fields of a state say about the chats since the last reset. */
  ghost predicate Derived(state: ConversationState, chats: seq<Exchange>) {
    && state.turnCount == |chats|
    && TurnsDerived(state.turns, chats)
    && PredictionsDerived(state.predictions, chats)
    && state.userModel.explicitPreferences == map[]
  }

  lemma {:induction false} OneMoreTurn(turns: seq<Turn>, chats: seq<Exchange>, chat: Exchange)
    requires TurnsDerived(turns, chats)
    ensures TurnsDerived(turns + [Turn(|turns| + 1, User, chat.said)] + [Turn(|turns| + 2, Assistant, chat.reply)],
                         chats + [chat])
  {
  }

  lemma {:induction false} ChatKeepsDerived(rules: Rules, state: ConversationState, chats: seq<Exchange>, op: Op)
    requires Derived(state, chats) && op.ChatOp? && Accepted(op)
    requires state.turnCount + 2 < U64_LIMIT
    ensures Derived(Advance(rules, state, op),
                    chats + [Exchange(Admit(op.message).value, op.reply, op.predictionId)])
  {
    OneMoreTurn(state.turns, chats, Exchange(Admit(op.message).value, op.reply, op.predictionId));
  }

  /** After any run of turns and resets, `turns`, `predictions` and `turn_count` are those of the
      chats since the last reset, replies included. */
  lemma {:induction false} DerivedStateAgrees(rules: Rules, id: SessionId, ops: seq<Op>)
    requires Sound(ops) && TotalCost(ops) + 1 < U64_LIMIT
    ensures Derived(Replay(rules, id, ops), Exchanges(ops))
  {
    if ops != [] {
      var front, op := ops[..|ops| - 1], ops[|ops| - 1];
      DerivedStateAgrees(rules, id, front);
      VersionCountsEvents(rules, id, front);
      if op.ChatOp? {
        ChatKeepsDerived(rules, Replay(rules, id, front), Exchanges(front), op);
      }
    }
  }

  /** What the log of a sequential run holds for the operation at `k`, and where. */
  ghost predicate Recorded(rules: Rules, log: seq<Payload>, ops: seq<Op>, k: nat)
    requires k < |ops|
  {
    var at := TotalCost(ops[..k]);
    && at + Cost(ops[k]) <= |log|
    && match ops[k]
       case ResetOp => log[at].SessionReset? && log[at].previousVersion == at
       case ChatOp(message, _, _) =>
         && log[at].UserRecorded? && log[at].turnCount == |Exchanges(ops[..k])| + 1
         && log[at].contentBytes == Utf8Length(message)
         && log[at + 1].AssistantRecorded? && log[at + 1].backendId == rules.backendId
         && log[at + 1].stateVersion == at + 2
  }

  lemma {:induction false} OperationsAreRecorded(rules: Rules, id: SessionId, ops: seq<Op>, k: nat)
    requires Sound(ops) && TotalCost(ops) + 2 < U64_LIMIT && k < |ops|
    ensures Recorded(rules, Journal(rules, id, ops), ops, k)
  {
    var front, op := ops[..|ops| - 1], ops[|ops| - 1];
    VersionCountsEvents(rules, id, front);
    if k < |front| {
      OperationsAreRecorded(rules, id, front, k);
      assert ops[..k] == front[..k];
    } else {
      DerivedStateAgrees(rules, id, front);
      CountersAdvance(rules, Replay(rules, id, front), op);
    }
  }

  lemma {:induction false} SaidGrows(ops: seq<Op>)
    requires ops != [] && Accepted(ops[|ops| - 1])
    ensures match ops[|ops| - 1]
            case ResetOp => Said(ops) == []
            case ChatOp(message, _, _) => Said(ops) == Said(ops[..|ops| - 1]) + [Admit(message).value]
  {
  }

  lemma {:induction false} TopicsAccumulate(rules: Rules, id: SessionId, ops: seq<Op>)
    requires Sound(ops)
    ensures Replay(rules, id, ops).userModel.topics == TopicsOf(rules.classify, Said(ops))
  {
    if ops != [] {
      var front := ops[..|ops| - 1];
      TopicsAccumulate(rules, id, front);
      VersionCountsEvents(rules, id, front);
      SaidGrows(ops);
      assert Said(ops) != [] ==> Said(ops)[..|Said(ops)| - 1] == Said(front);
    }
  }
}
