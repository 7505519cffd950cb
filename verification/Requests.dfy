/** What holds of whole generation requests: room for the output, the fast path, sending the
    retained messages again, and continuing an answer that was cut off. */
module Requests {
  import opened Text
  import opened Trimming

  const CONTINUATION_INSTRUCTION := "Continue exactly where the prior answer stopped. Do not repeat it."

  /** With a checked configuration, the budget of every request is positive, and the counted
      input, the output limit and the reserve fit the context window together. */
  lemma {:induction false} RequestsFitTheContext(
      payload: map<string, Json>, settings: Settings, counter: Counter,
      bound: Option<seq<Message> -> int>, request: GenerationRequest)
    requires settings.PostInit().None?
    requires bound.Some? ==> forall messages :: EstimateMessageTokens(messages) <= bound.value(messages)
    requires Normalized(payload, settings, counter, bound) == Success(request)
    ensures 0 < request.inputBudget
    ensures 1 <= request.maxNewTokens <= settings.maxNewTokens
    ensures request.inputTokens + request.maxNewTokens + settings.reserveTokens <= settings.contextTokens
  {
    hide Validated, Fitted, LongestFrom, NewestUser, EstimateMessageTokens;
    var messages := Validated(Field(payload, "messages")).value;
    var limit := Limit(payload, settings).value;
    var budget := settings.Budget(limit);
    if !(bound.Some? && bound.value(messages) <= budget) {
      TrimmingKeepsTheMost(messages, limit, budget, counter, request);
    }
  }

  // What becomes of a payload

  /** The output limit a payload asks for: the integer it names, or the default. */
  predicate AsksFor(payload: map<string, Json>, settings: Settings, limit: int) {
    if "max_new_tokens" in payload then payload["max_new_tokens"] == Int(limit)
    else limit == settings.defaultMaxNewTokens
  }

  predicate RefusesToStream(payload: map<string, Json>) {
    "stream" in payload && payload["stream"] != Bool(true)
  }

  /** A successful request has the limit its payload asks for, within the allowed ones, and as its
      input budget what that limit and the reserve leave of the context window. */
  lemma {:induction false} RequestedLimit(
      payload: map<string, Json>, settings: Settings, counter: Counter,
      bound: Option<seq<Message> -> int>, request: GenerationRequest)
    requires Normalized(payload, settings, counter, bound) == Success(request)
    ensures AsksFor(payload, settings, request.maxNewTokens)
    ensures 1 <= request.maxNewTokens <= settings.maxNewTokens && !RefusesToStream(payload)
    ensures request.inputBudget == settings.contextTokens - request.maxNewTokens - settings.reserveTokens
  {
    hide Validated, Fitted, EstimateMessageTokens;
    var messages := Validated(Field(payload, "messages")).value;
    var limit := Limit(payload, settings).value;
    AnswerHasItsLimit(messages, limit, settings.Budget(limit), counter, bound, request);
  }

  lemma {:induction false} AnswerHasItsLimit(
      messages: seq<Message>, limit: int, budget: int, counter: Counter,
      bound: Option<seq<Message> -> int>, request: GenerationRequest)
    requires HasUser(messages)
    requires Answered(messages, limit, budget, counter, bound) == Success(request)
    ensures request.maxNewTokens == limit && request.inputBudget == budget
  {
    hide NewestUser, Candidate, FirstCut;
  }

  lemma {:induction false} AnswerErrors(
      messages: seq<Message>, limit: int, budget: int, counter: Counter, bound: Option<seq<Message> -> int>)
    requires HasUser(messages)
    ensures match Answered(messages, limit, budget, counter, bound)
            case Success(_) => true
            case Failure(error) => error.RuntimeUnavailable? || error == MessageTooLarge(budget)
  {
    hide NewestUser, Candidate, FirstCut;
  }

  lemma {:induction false} ValidationErrors(raw: Option<Json>)
    ensures match Validated(raw)
            case Success(_) => true
            case Failure(error) =>
              error in {NoMessages, TooManyMessages, NoUserTurn}
              || error.NotAnObject? || error.UnhashableRole? || error.InvalidRole? || error.BlankContent?
  {
    ValidationAnswersForTheList(raw);
  }

  /** Exactly why a payload is refused before its length matters. A complaint about the messages
      comes first; with valid messages the limit is complained about, then the stream field. */
  lemma {:induction false} RefusalsExactly(
      payload: map<string, Json>, settings: Settings, counter: Counter, bound: Option<seq<Message> -> int>)
    ensures Validated(Field(payload, "messages")).Failure? ==>
              Normalized(payload, settings, counter, bound) == Failure(Validated(Field(payload, "messages")).error)
    ensures Validated(Field(payload, "messages")).Success? ==>
      var answer := Normalized(payload, settings, counter, bound);
      && (answer == Failure(LimitNotInteger) <==> "max_new_tokens" in payload && !payload["max_new_tokens"].Int?)
      && (answer == Failure(LimitOutOfRange)
          <==> exists limit :: AsksFor(payload, settings, limit) && !(1 <= limit <= settings.maxNewTokens))
      && (answer == Failure(NotStreaming)
          <==> && RefusesToStream(payload)
               && exists limit :: AsksFor(payload, settings, limit) && 1 <= limit <= settings.maxNewTokens)
      && (answer.Success? || answer.error.MessageTooLarge? || answer.error.RuntimeUnavailable?
          <==> && !RefusesToStream(payload)
               && exists limit :: AsksFor(payload, settings, limit) && 1 <= limit <= settings.maxNewTokens)
  {
    hide Validated, Answered;
    var read := Validated(Field(payload, "messages"));
    if read.Success? {
      var limit := if "max_new_tokens" !in payload then settings.defaultMaxNewTokens
                   else if payload["max_new_tokens"].Int? then payload["max_new_tokens"].number else 0;
      AnswerErrors(read.value, limit, settings.Budget(limit), counter, bound);
      var integer := "max_new_tokens" in payload ==> payload["max_new_tokens"].Int?;
      assert forall l :: AsksFor(payload, settings, l) <==> integer && l == limit;
      assert integer ==> AsksFor(payload, settings, limit);
    }
  }

  /** Exactly when a payload that is otherwise in order is refused for its length. */
  lemma {:induction false} TooLargeExactly(
      payload: map<string, Json>, settings: Settings, counter: Counter,
      bound: Option<seq<Message> -> int>, limit: int)
    requires Validated(Field(payload, "messages")).Success?
    requires AsksFor(payload, settings, limit) && 1 <= limit <= settings.maxNewTokens && !RefusesToStream(payload)
    ensures var messages := Validated(Field(payload, "messages")).value;
      var budget := settings.contextTokens - limit - settings.reserveTokens;
      Normalized(payload, settings, counter, bound) == Failure(MessageTooLarge(budget))
      <==> && (bound.Some? ==> bound.value(messages) > budget)
           && (|| TooLong(counter, [messages[NewestUser(messages)]], budget)
               || (&& counter([messages[NewestUser(messages)]]).Some?
                   && forall k | Pinned(messages) <= k <= NewestUser(messages) && IsCut(messages, k) ::
                        TooLong(counter, Candidate(messages, k), budget)))
  {
    hide Validated, Fitted, NewestUser, Candidate;
    var messages := Validated(Field(payload, "messages")).value;
    RefusedWhenNothingFits(messages, limit, settings.Budget(limit), counter);
  }

  // Sublists

  lemma {:induction false} SublistOfItself(a: seq<Message>)
    ensures Sublist(a, a)
  {
    if a != [] {
      SublistOfItself(a[1..]);
    }
  }

  lemma {:induction false} SuffixIsSublist(a: seq<Message>, from: nat)
    requires from <= |a|
    ensures Sublist(a[from..], a)
  {
    if from == 0 {
      SublistOfItself(a);
      assert a[0..] == a;
    } else {
      SuffixIsSublist(a[1..], from - 1);
      assert a[1..][from - 1..] == a[from..];
    }
  }

  lemma {:induction false} MessageIsSublist(a: seq<Message>, at: nat)
    requires at < |a|
    ensures Sublist([a[at]], a)
  {
    if at == 0 {
      assert [a[0]][1..] == [];
    } else {
      MessageIsSublist(a[1..], at - 1);
    }
  }

  /** Later cuts keep less, and every cut keeps the newest user message. */
  lemma {:induction false} LaterCutsKeepLess(messages: seq<Message>, early: nat, late: nat)
    requires Pinned(messages) <= early <= late <= |messages|
    ensures Sublist(Candidate(messages, late), Candidate(messages, early))
  {
    SuffixIsSublist(messages[early..], late - early);
    assert messages[early..][late - early..] == messages[late..];
    PrefixedSublist(messages[..Pinned(messages)], messages[late..], messages[early..]);
  }

  lemma {:induction false} PrefixedSublist(front: seq<Message>, a: seq<Message>, b: seq<Message>)
    requires Sublist(a, b) && |front| <= 1
    ensures Sublist(front + a, front + b)
  {
    if front == [] {
      assert front + a == a && front + b == b;
    } else {
      assert (front + a)[1..] == a && (front + b)[1..] == b;
    }
  }

  lemma {:induction false} CutsKeepTheNewestUser(messages: seq<Message>, cut: nat)
    requires HasUser(messages)
    requires Pinned(messages) <= cut <= NewestUser(messages)
    ensures Sublist([messages[NewestUser(messages)]], Candidate(messages, cut))
  {
    MessageIsSublist(Candidate(messages, cut), NewestUser(messages) - cut + Pinned(messages));
  }

  // The two shortcuts

  /** When asking about the newest user message first leaves the answer as it would be, for any
      counter: that message fits; or it is too long and so is every admissible list; or it cannot
      be counted and the first list that is not too long cannot either. */
  ghost predicate EarlyCheckAgrees(messages: seq<Message>, budget: int, counter: Counter)
    requires HasUser(messages)
  {
    match counter([messages[NewestUser(messages)]])
    case Some(count) =>
      || count <= budget
      || (forall cut: nat | cut <= NewestUser(messages) && IsCut(messages, cut) ::
            TooLong(counter, Candidate(messages, cut), budget))
    case None =>
      exists cut: nat ::
        && cut <= NewestUser(messages) && IsCut(messages, cut) && counter(Candidate(messages, cut)).None?
        && forall k: nat | k < cut && IsCut(messages, k) :: TooLong(counter, Candidate(messages, k), budget)
  }

  lemma {:induction false} EarlyCheckExactly(messages: seq<Message>, limit: int, budget: int, counter: Counter)
    requires HasUser(messages)
    ensures Fitted(messages, limit, budget, counter) == LongestFit(messages, limit, budget, counter)
       <==> EarlyCheckAgrees(messages, budget, counter)
  {
    FirstCutIsLeast(messages, counter, budget, Pinned(messages));
    var first := FirstCut(messages, counter, budget, Pinned(messages));
    if first.Some? {
      assert first.value <= NewestUser(messages);
    }
    if counter([messages[NewestUser(messages)]]).None? {
      if cut: nat :| cut <= NewestUser(messages) && IsCut(messages, cut) && counter(Candidate(messages, cut)).None?
                     && forall k: nat | k < cut && IsCut(messages, k) ::
                          TooLong(counter, Candidate(messages, k), budget) {
        assert first == Some(cut);
      }
    }
  }

  /** So for a counter that grows with the conversation the early check never changes the answer. */
  lemma {:induction false} EarlyCheckIsRedundant(messages: seq<Message>, limit: int, budget: int, counter: Counter)
    requires HasUser(messages) && Monotone(counter)
    ensures Fitted(messages, limit, budget, counter) == LongestFit(messages, limit, budget, counter)
  {
    var alone := [messages[NewestUser(messages)]];
    SublistOfItself(alone);
    if TooLong(counter, alone, budget) {
      forall cut: nat | cut <= NewestUser(messages) && IsCut(messages, cut)
        ensures TooLong(counter, Candidate(messages, cut), budget)
      {
        CutsKeepTheNewestUser(messages, cut);
      }
    }
    EarlyCheckExactly(messages, limit, budget, counter);
  }

  /** For a counter that does not grow with the conversation, it can: here a system message makes
      the list cheaper. */
  lemma {:induction false} EarlyCheckCanRefuse()
    ensures exists messages, counter ::
      && HasUser(messages)
      && LongestFit(messages, 1, 10, counter).Success?
      && Fitted(messages, 1, 10, counter) == Failure(MessageTooLarge(10))
  {
    var messages := [Message(System, "s"), Message(User, "u")];
    var counter: Counter := candidate => Some(if |candidate| == 1 then 11 else 10);
    assert messages[1].role == User;
    assert NewestUser(messages) == 1;
    assert IsCut(messages, 1) && Candidate(messages, 1) == messages;
    assert FirstCut(messages, counter, 10, 1) == Some(1);
    assert HasUser(messages) && LongestFit(messages, 1, 10, counter).Success?;
    assert Fitted(messages, 1, 10, counter) == Failure(MessageTooLarge(10));
  }

  ghost predicate Bounds(bound: seq<Message> -> int, counter: Counter) {
    forall messages :: counter(messages).Some? && counter(messages).value <= bound(messages)
  }

  /** The fast path answers what the slow path answers, whatever the counter below the bound,
      except that it reports the default estimate for the input. */
  lemma {:induction false} FastPathKeepsTheList(
      messages: seq<Message>, limit: int, budget: int, counter: Counter, bound: seq<Message> -> int)
    requires HasUser(messages)
    requires Bounds(bound, counter) && GrowsWithTheList(bound)
    requires bound(messages) <= budget
    ensures Fitted(messages, limit, budget, counter).Success?
    ensures Answered(messages, limit, budget, counter, Some(bound))
         == Success(Fitted(messages, limit, budget, counter).value.(inputTokens := EstimateMessageTokens(messages)))
  {
    NothingCut(messages);
    CutsKeepTheNewestUser(messages, Pinned(messages));
    var alone := [messages[NewestUser(messages)]];
    assert bound(alone) <= bound(messages);
    assert counter(alone).value <= bound(alone) && counter(messages).value <= bound(messages);
    CutFound(messages, counter, budget, Pinned(messages));
  }

  lemma {:induction false} FastAnswerIsTheSlowAnswer(messages: seq<Message>, limit: int, budget: int)
    requires HasUser(messages)
    ensures Answered(messages, limit, budget, DefaultCount, Some(ConservativeUpperBound))
         == Answered(messages, limit, budget, DefaultCount, None)
  {
    if ConservativeUpperBound(messages) <= budget {
      EstimatorsAreMonotone();
      FastPathKeepsTheList(messages, limit, budget, DefaultCount, ConservativeUpperBound);
      NothingCut(messages);
      CutFound(messages, DefaultCount, budget, Pinned(messages));
    }
  }

  /** With the default estimator, supplying the conservative bound changes no answer at all. */
  lemma {:induction false} FastPathIsTheSlowPath(payload: map<string, Json>, settings: Settings)
    ensures Normalized(payload, settings, DefaultCount, Some(ConservativeUpperBound))
         == Normalized(payload, settings, DefaultCount, None)
  {
    hide Validated, Limit, Streaming, Fitted;
    var read := Validated(Field(payload, "messages"));
    var limit := Limit(payload, settings);
    if read.Success? && limit.Success? && Streaming(payload) {
      FastAnswerIsTheSlowAnswer(read.value, limit.value, settings.Budget(limit.value));
    }
  }

  // Sending the retained messages again

  function RoleName(role: Role): string {
    match role
    case System => "system"
    case User => "user"
    case Assistant => "assistant"
  }

  function Encoded(message: Message): Json {
    Obj(map["role" := Str(RoleName(message.role)), "content" := Str(message.content)])
  }

  function EncodedAll(messages: seq<Message>): Json {
    Arr(seq(|messages|, i requires 0 <= i < |messages| => Encoded(messages[i])))
  }

  predicate Acceptable(messages: seq<Message>) {
    && |messages| <= 32 && HasUser(messages)
    && forall i | 0 <= i < |messages| :: Trim(IsPySpace, messages[i].content) != ""
  }

  lemma {:induction false} EncodedIsRead(message: Message, index: nat)
    requires Trim(IsPySpace, message.content) != ""
    ensures Item(Encoded(message), index) == Success(message)
  {
  }

  /** The lists that validation lets through are exactly these, and it reads back what was sent. */
  lemma {:induction false} ValidationRoundTrip(messages: seq<Message>)
    ensures Validated(Some(EncodedAll(messages))) == Success(messages) <==> Acceptable(messages)
  {
    var items := EncodedAll(messages).items;
    ValidationAnswersForTheList(Some(EncodedAll(messages)));
    if Acceptable(messages) {
      forall i | 0 <= i < |items|
        ensures Item(items[i], i) == Success(messages[i])
      {
        EncodedIsRead(messages[i], i);
      }
      FirstErrorIsFirst(items, 0);
      assert messages == seq(|items|, i requires 0 <= i < |items| => Item(items[i], i).value);
    }
    if Validated(Some(EncodedAll(messages))) == Success(messages) {
      forall i | 0 <= i < |messages|
        ensures Trim(IsPySpace, messages[i].content) != ""
      {
        assert Item(items[i], i) == Success(messages[i]);
      }
    }
  }

  lemma {:induction false} ValidatedIsAcceptable(raw: Option<Json>)
    requires Validated(raw).Success?
    ensures Acceptable(Validated(raw).value)
  {
    ValidationAnswersForTheList(raw);
    var messages := Validated(raw).value;
    forall i | 0 <= i < |messages|
      ensures Trim(IsPySpace, messages[i].content) != ""
    {
      assert Item(raw.value.items[i], i) == Success(messages[i]);
    }
  }

  lemma {:induction false} CandidateIsAcceptable(messages: seq<Message>, cut: nat)
    requires Acceptable(messages) && IsCut(messages, cut) && cut <= NewestUser(messages)
    ensures Acceptable(Candidate(messages, cut))
  {
    NewestOfCandidate(messages, cut);
    var retained := Candidate(messages, cut);
    forall i | 0 <= i < |retained|
      ensures Trim(IsPySpace, retained[i].content) != ""
    {
      assert retained[i] == messages[if i < Pinned(messages) then i else i - Pinned(messages) + cut];
    }
  }

  /** The slow path applied to its own answer trims nothing. */
  lemma {:induction false} FittedIsFixed(
      messages: seq<Message>, limit: int, budget: int, counter: Counter, request: GenerationRequest)
    requires HasUser(messages)
    requires Fitted(messages, limit, budget, counter) == Success(request)
    ensures HasUser(request.messages)
    ensures Fitted(request.messages, limit, budget, counter) == Success(request.(contextTrimmed := false))
  {
    hide NewestUser, Candidate, FirstCut, HasUser;
    TrimmingKeepsTheMost(messages, limit, budget, counter, request);
    var cut: nat :| LongestFrom(messages, cut, request, counter);
    var retained := request.messages;
    NewestOfCandidate(messages, cut);
    NewestMessageOfCandidate(messages, cut);
    NothingCut(retained);
    CutFound(retained, counter, budget, Pinned(retained));
  }

  lemma {:induction false} NewestMessageOfCandidate(messages: seq<Message>, cut: nat)
    requires HasUser(messages) && IsCut(messages, cut) && cut <= NewestUser(messages)
    ensures HasUser(Candidate(messages, cut))
    ensures Candidate(messages, cut)[NewestUser(Candidate(messages, cut))] == messages[NewestUser(messages)]
  {
    NewestOfCandidate(messages, cut);
  }

  lemma {:induction false} AnswerIsAcceptable(
      messages: seq<Message>, limit: int, budget: int, counter: Counter,
      bound: Option<seq<Message> -> int>, request: GenerationRequest)
    requires Acceptable(messages)
    requires Answered(messages, limit, budget, counter, bound) == Success(request)
    ensures Acceptable(request.messages)
    ensures request.maxNewTokens == limit && request.inputBudget == budget
  {
    hide NewestUser, Candidate, FirstCut, Acceptable;
    if !(bound.Some? && bound.value(messages) <= budget) {
      TrimmingKeepsTheMost(messages, limit, budget, counter, request);
      var cut: nat :| LongestFrom(messages, cut, request, counter);
      CandidateIsAcceptable(messages, cut);
    }
  }

  lemma {:induction false} AnswerIsFixed(
      messages: seq<Message>, limit: int, budget: int, counter: Counter,
      bound: Option<seq<Message> -> int>, request: GenerationRequest)
    requires HasUser(messages) && HasUser(request.messages)
    requires Answered(messages, limit, budget, counter, bound) == Success(request)
    ensures Answered(request.messages, limit, budget, counter, bound).Success?
    ensures Answered(request.messages, limit, budget, counter, bound).value
         == request.(contextTrimmed := false,
                     inputTokens := Answered(request.messages, limit, budget, counter, bound).value.inputTokens)
    ensures bound.None? ==>
              Answered(request.messages, limit, budget, counter, bound).value.inputTokens == request.inputTokens
  {
    hide NewestUser, Candidate, FirstCut, Fitted;
    if bound.Some? && bound.value(messages) <= budget {
    } else {
      TrimmingKeepsTheMost(messages, limit, budget, counter, request);
      FittedIsFixed(messages, limit, budget, counter, request);
    }
  }

  /** The payload with its messages replaced by the retained ones. */
  function Resubmitted(payload: map<string, Json>, request: GenerationRequest): map<string, Json> {
    payload["messages" := EncodedAll(request.messages)]
  }

  /** Sending the retained messages back with the same settings keeps them all, untrimmed. Only
      the reported input count may differ, when the shorter list now takes the fast path. */
  lemma {:induction false} ResubmittingTrimsNothing(
      payload: map<string, Json>, settings: Settings, counter: Counter,
      bound: Option<seq<Message> -> int>, request: GenerationRequest)
    requires Normalized(payload, settings, counter, bound) == Success(request)
    ensures var again := Normalized(Resubmitted(payload, request), settings, counter, bound);
      && again.Success?
      && again.value == request.(contextTrimmed := false, inputTokens := again.value.inputTokens)
      && (bound.None? ==> again.value.inputTokens == request.inputTokens)
  {
    hide Validated, Answered, HasUser;
    var raw := Field(payload, "messages");
    var messages := Validated(raw).value;
    var limit := Limit(payload, settings).value;
    var budget := settings.Budget(limit);
    ValidatedIsAcceptable(raw);
    AnswerIsAcceptable(messages, limit, budget, counter, bound, request);
    ValidationRoundTrip(request.messages);
    AnswerIsFixed(messages, limit, budget, counter, bound, request);
    assert Limit(Resubmitted(payload, request), settings) == Limit(payload, settings);
    assert Streaming(Resubmitted(payload, request)) == Streaming(payload);
  }

  // Continuing an answer

  /** `build_continuation_messages` */
  function Continuation(messages: seq<Json>, priorText: Option<Json>): Result<seq<Json>, RequestError> {
    if Blank(priorText) then Failure(BlankPriorText)
    else Success(messages + [Encoded(Message(Assistant, priorText.value.text)),
                             Encoded(Message(User, CONTINUATION_INSTRUCTION))])
  }

  /** A chat request as it came in. */
  datatype Chat = Chat(payload: map<string, Json>, continuation: bool)

  /** The work done under the lock before the stream is handed over. */
  function Prepared(chat: Chat, settings: Settings, counter: Counter): Result<GenerationRequest, RequestError> {
    var bound := Some(ConservativeUpperBound);
    if !chat.continuation then Normalized(chat.payload, settings, counter, bound)
    else
      match Field(chat.payload, "messages")
      case Some(Arr(items)) =>
        (match Continuation(items, Field(chat.payload, "prior_text"))
         case Failure(error) => Failure(error)
         case Success(extended) =>
           Normalized(chat.payload["messages" := Arr(extended)], settings, counter, bound))
      case _ => Failure(NoMessages)
  }

  lemma {:induction false} InstructionIsText()
    ensures Trim(IsPySpace, CONTINUATION_INSTRUCTION) != ""
  {
    hide Trim;
    assert CONTINUATION_INSTRUCTION[|CONTINUATION_INSTRUCTION| - 1] == '.';
    LastCharacterStays(IsPySpace, CONTINUATION_INSTRUCTION);
  }
}
