/** The conversation state of one session, and the turns and resets that advance it. */
module Conversation {
  import opened Text

  type SessionId = nat
  type Uuid = nat

  const U64_LIMIT: nat := 0x1_0000_0000_0000_0000
  type u64 = x: int | 0 <= x < U64_LIMIT

  const MAX_MESSAGE_BYTES: nat := 16 * 1024

  datatype Role = User | Assistant

  datatype Turn = Turn(sequence: nat, role: Role, content: string)

  datatype UserModel = UserModel(topics: set<string>, explicitPreferences: map<string, string>)

  datatype PredictionStatus = Pending | Resolved(outcome: string) | Expired

  datatype Prediction = Prediction(
    id: Uuid, target: string, confidence: real, issuedBeforeTurn: u64, status: PredictionStatus)

  datatype ConversationState = ConversationState(
    sessionId: SessionId,
    version: u64,
    turnCount: u64,
    turns: seq<Turn>,
    userModel: UserModel,
    predictions: seq<Prediction>)

  datatype InferenceError = Unavailable | Timeout | Failed(reason: string)

  datatype CoreError = EmptyMessage | MessageTooLarge | Inference(cause: InferenceError)

  datatype ChatOutcome = ChatOutcome(
    text: string, backendId: string, turnCount: u64, stateVersion: u64)

  /** What a turn consults beside the state: the topic classifier (`Topics.ClassifyTopics` in
      production) and the name of the inference backend. */
  datatype Rules = Rules(classify: string -> set<string>, backendId: string)

  /** `x + 1` on u64 as release builds compute it: the largest value wraps to zero. */
  function Increment(x: u64): (y: u64)
    ensures y == (x + 1) % U64_LIMIT
  {
    if x + 1 == U64_LIMIT then 0 else x + 1
  }

  function Fresh(sessionId: SessionId): ConversationState {
    ConversationState(sessionId, 0, 0, [], UserModel({}, map[]), [])
  }

  // ----- the mutating operations, as functions of the state ------------------------------------

  function ResetState(state: ConversationState): Result<ConversationState, CoreError> {
    if state.version + 1 == U64_LIMIT then
      Failure(Inference(Failed("conversation state version overflowed")))
    else
      Success(Fresh(state.sessionId).(version := state.version + 1))
  }

  function WithUserMessage(rules: Rules, state: ConversationState, message: string)
    : ConversationState
  {
    state.(
      turnCount := Increment(state.turnCount),
      version := Increment(state.version),
      turns := state.turns + [Turn(|state.turns| + 1, User, message)],
      userModel := state.userModel.(
        topics := state.userModel.topics + rules.classify(message)))
  }

  function WithAssistantMessage(state: ConversationState, message: string): ConversationState {
    state.(
      version := Increment(state.version),
      turns := state.turns + [Turn(|state.turns| + 1, Assistant, message)])
  }

  function WithPrediction(state: ConversationState, id: Uuid): ConversationState {
    state.(predictions := state.predictions
      + [Prediction(id, "next_turn.intent", 0.5, Increment(state.turnCount), Pending)])
  }

  /** The text a message contributes, or why it is refused. */
  function Admit(message: string): Result<string, CoreError> {
    var text := Trim(IsWhiteSpace, message);
    if text == [] then Failure(EmptyMessage)
    else if Utf8Length(text) > MAX_MESSAGE_BYTES then Failure(MessageTooLarge)
    else Success(text)
  }

  /** `process_turn` as a function; `reply` is what the inference backend answers. */
  function TurnResult(rules: Rules, state: ConversationState, message: string,
                       reply: Result<string, InferenceError>, predictionId: Uuid)
    : Result<(ConversationState, ChatOutcome), CoreError>
  {
    match Admit(message)
    case Failure(e) => Failure(e)
    case Success(text) =>
      var asked := WithPrediction(WithUserMessage(rules, state, text), predictionId);
      match reply
      case Failure(e) => Failure(Inference(e))
      case Success(answer) =>
        var next := WithAssistantMessage(asked, answer);
        Success((next, ChatOutcome(answer, rules.backendId, next.turnCount, next.version)))
  }

  // ----- what one turn does --------------------------------------------------------------------

  /** `text` is what a message contributes: the message without the white space around it, if that
      is neither empty nor longer than 16384 bytes. */
  ghost predicate Contributes(message: string, text: string) {
    Surrounds(IsWhiteSpace, message, text) && text != "" && Utf8Length(text) <= 16384
  }

  lemma {:induction false} AdmittedExactly(message: string, text: string)
    ensures Admit(message) == Success(text) <==> Contributes(message, text)
    ensures Admit(message) == Failure(EmptyMessage) <==> AllSpace(IsWhiteSpace, message)
    ensures Admit(message) == Failure(MessageTooLarge)
       <==> exists long :: Surrounds(IsWhiteSpace, message, long) && Utf8Length(long) > 16384
  {
    hide IsWhiteSpace, Trim, AllSpace, Surrounds;
    TrimExactly(IsWhiteSpace, message, text);
    TrimExactly(IsWhiteSpace, message, Trim(IsWhiteSpace, message));
    TrimExactly(IsWhiteSpace, message, "");
    BlankExactly(message);
    if long :| Surrounds(IsWhiteSpace, message, long) && Utf8Length(long) > 16384 {
      TrimExactly(IsWhiteSpace, message, long);
    }
  }

  lemma {:induction false} BlankExactly(message: string)
    ensures Surrounds(IsWhiteSpace, message, "") <==> AllSpace(IsWhiteSpace, message)
  {
    hide IsWhiteSpace;
    if AllSpace(IsWhiteSpace, message) {
      assert message == message + "" + "" && AllSpace(IsWhiteSpace, "");
    }
  }

  /** One turn, for every state and whatever the backend answers. It succeeds exactly when the
      message is admitted and the backend replies; then the trimmed message and the very reply are
      the two turns added, and the reply is what is answered. */
  lemma {:induction false} TurnExactly(rules: Rules, state: ConversationState, message: string, text: string,
                                       reply: Result<string, InferenceError>, predictionId: Uuid)
    requires Contributes(message, text)
    requires state.version + 2 < U64_LIMIT && state.turnCount + 2 < U64_LIMIT
    ensures match reply
      case Failure(e) => TurnResult(rules, state, message, reply, predictionId) == Failure(Inference(e))
      case Success(answer) =>
        var n := |state.turns|;
        TurnResult(rules, state, message, reply, predictionId) == Success((
          ConversationState(
            state.sessionId, state.version + 2, state.turnCount + 1,
            state.turns + [Turn(n + 1, User, text), Turn(n + 2, Assistant, answer)],
            UserModel(state.userModel.topics + rules.classify(text), state.userModel.explicitPreferences),
            state.predictions + [Prediction(predictionId, "next_turn.intent", 0.5, state.turnCount + 2, Pending)]),
          ChatOutcome(answer, rules.backendId, state.turnCount + 1, state.version + 2)))
  {
    hide Contributes, Admit, Utf8Length, IsWhiteSpace;
    AdmittedExactly(message, text);
    if reply.Success? {
      var asked, answered := Turn(|state.turns| + 1, User, text), Turn(|state.turns| + 2, Assistant, reply.value);
      assert state.turns + [asked] + [answered] == state.turns + [asked, answered];
    }
  }

  // ----- the same operations on a mutable object -----------------------------------------------

  /** The state as the mutable struct the operations are methods of. */
  class Conversation {
    var sessionId: SessionId
    var version: u64
    var turnCount: u64
    var turns: seq<Turn>
    var userModel: UserModel
    var predictions: seq<Prediction>

    function View(): ConversationState
      reads this
    {
      ConversationState(sessionId, version, turnCount, turns, userModel, predictions)
    }

    constructor (sessionId: SessionId)
      ensures View() == Fresh(sessionId)
    {
      this.sessionId := sessionId;
      version, turnCount, turns, predictions := 0, 0, [], [];
      userModel := UserModel({}, map[]);
    }

    method Assign(state: ConversationState)
      modifies this
      ensures View() == state
    {
      sessionId, version, turnCount := state.sessionId, state.version, state.turnCount;
      turns, userModel, predictions := state.turns, state.userModel, state.predictions;
    }

    method Clone() returns (copy: Conversation)
      ensures fresh(copy) && copy.View() == View()
    {
      copy := new Conversation(sessionId);
      copy.Assign(View());
    }

    method Reset() returns (error: Option<CoreError>)
      modifies this
      ensures match ResetState(old(View()))
              case Success(next) => error == None && View() == next
              case Failure(e) => error == Some(e) && View() == old(View())
    {
      if version + 1 == U64_LIMIT {
        return Some(Inference(Failed("conversation state version overflowed")));
      }
      var nextVersion := version + 1;
      Assign(Fresh(sessionId));
      version := nextVersion;
      error := None;
    }

    method RecordUserMessage(rules: Rules, message: string)
      modifies this
      ensures View() == WithUserMessage(rules, old(View()), message)
      ensures turns == old(turns) + [Turn(|old(turns)| + 1, User, message)]
    {
      turnCount := Increment(turnCount);
      version := Increment(version);
      turns := turns + [Turn(|turns| + 1, User, message)];
      userModel := userModel.(topics := userModel.topics + rules.classify(message));
    }

    method RecordAssistantMessage(message: string)
      modifies this
      ensures View() == WithAssistantMessage(old(View()), message)
      ensures turns == old(turns) + [Turn(|old(turns)| + 1, Assistant, message)]
    {
      version := Increment(version);
      turns := turns + [Turn(|turns| + 1, Assistant, message)];
    }

    method IssueNextTurnPrediction(id: Uuid)
      modifies this
      ensures View() == WithPrediction(old(View()), id)
    {
      predictions := predictions
        + [Prediction(id, "next_turn.intent", 0.5, Increment(turnCount), Pending)];
    }

    /** Works on a clone, so that a refused message or a failing backend leaves no trace. */
    method ProcessTurn(rules: Rules, message: string, reply: Result<string, InferenceError>,
                       predictionId: Uuid)
      returns (result: Result<ChatOutcome, CoreError>)
      modifies this
      ensures match TurnResult(rules, old(View()), message, reply, predictionId)
              case Success((next, outcome)) => result == Success(outcome) && View() == next
              case Failure(e) => result == Failure(e) && View() == old(View())
      ensures result.Success? ==>
                && reply == Success(result.value.text) && |turns| == |old(turns)| + 2 && old(turns) <= turns
                && turns[|turns| - 1].content == result.value.text && turns[|turns| - 1].role == Assistant
    {
      var text := Trim(IsWhiteSpace, message);
      if text == [] {
        return Failure(EmptyMessage);
      }
      if Utf8Length(text) > MAX_MESSAGE_BYTES {
        return Failure(MessageTooLarge);
      }
      var next := Clone();
      next.RecordUserMessage(rules, text);
      next.IssueNextTurnPrediction(predictionId);
      if reply.Failure? {
        return Failure(Inference(reply.error));
      }
      next.RecordAssistantMessage(reply.value);
      result := Success(ChatOutcome(reply.value, rules.backendId, next.turnCount, next.version));
      Assign(next.View());
    }
  }
}
