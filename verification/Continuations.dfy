/** What the handler of a chat may rely on once its request is prepared, and what becomes of the
    text that a continuation is to continue. */
module Continuations {
  import opened Text
  import opened Trimming
  import opened Requests

  /** The messages a chat is prepared from: those sent, and for a continuation the text so far and
      the instruction after them. */
  function MessagesOf(chat: Chat): Option<Json> {
    if !chat.continuation then Field(chat.payload, "messages")
    else
      match Field(chat.payload, "messages")
      case Some(Arr(items)) =>
        (match Continuation(items, Field(chat.payload, "prior_text"))
         case Failure(_) => None
         case Success(extended) => Some(Arr(extended)))
      case _ => None
  }

  predicate FitsContext(settings: Settings, request: GenerationRequest) {
    && 0 < request.inputBudget && 1 <= request.maxNewTokens <= settings.maxNewTokens
    && request.inputTokens + request.maxNewTokens + settings.reserveTokens <= settings.contextTokens
  }

  /** `request` keeps the pinned system message, the newest user turn and all that follows it, and
      what it drops ends in front of a user turn. */
  ghost predicate KeepsTheNewest(messages: seq<Message>, request: GenerationRequest) {
    && HasUser(messages)
    && exists cut: nat ::
         && IsCut(messages, cut) && cut <= NewestUser(messages)
         && request.messages == Candidate(messages, cut)
         && (request.contextTrimmed <==> cut > Pinned(messages))
  }

  lemma {:induction false} AnswerKeepsTheNewest(
      messages: seq<Message>, limit: int, budget: int, counter: Counter,
      bound: Option<seq<Message> -> int>, request: GenerationRequest)
    requires HasUser(messages)
    requires Answered(messages, limit, budget, counter, bound) == Success(request)
    ensures KeepsTheNewest(messages, request) && request.inputBudget == budget
  {
    hide Candidate, NewestUser, HasUser, Fitted;
    NothingCut(messages);
    if !(bound.Some? && bound.value(messages) <= budget) {
      TrimmingKeepsTheMost(messages, limit, budget, counter, request);
      var cut: nat :| LongestFrom(messages, cut, request, counter);
    }
  }

  /** Preparing is normalising a payload whose messages are the chat's. */
  lemma {:induction false} PreparedIsNormalized(chat: Chat, settings: Settings, counter: Counter)
      returns (payload: map<string, Json>)
    requires Prepared(chat, settings, counter).Success?
    ensures Field(payload, "messages") == MessagesOf(chat)
    ensures forall key | key != "messages" :: Field(payload, key) == Field(chat.payload, key)
    ensures Prepared(chat, settings, counter)
         == Normalized(payload, settings, counter, Some(ConservativeUpperBound))
  {
    hide Normalized;
    payload := chat.payload;
    if chat.continuation {
      payload := payload["messages" := MessagesOf(chat).value];
    }
  }

  /** A prepared request has the limit its chat asks for, fits the context window with that and the
      reserve, and keeps the newest turn of the chat's messages. */
  lemma {:induction false} PreparedRequest(chat: Chat, settings: Settings, counter: Counter, request: GenerationRequest)
    requires Prepared(chat, settings, counter) == Success(request)
    ensures settings.PostInit().None? ==> FitsContext(settings, request)
    ensures AsksFor(chat.payload, settings, request.maxNewTokens) && !RefusesToStream(chat.payload)
    ensures Validated(MessagesOf(chat)).Success?
    ensures KeepsTheNewest(Validated(MessagesOf(chat)).value, request)
  {
    hide Prepared, MessagesOf, Validated, Answered, KeepsTheNewest, EstimateMessageTokens;
    var payload := PreparedIsNormalized(chat, settings, counter);
    var bound := Some(ConservativeUpperBound);
    EstimatorsAreMonotone();
    RequestedLimit(payload, settings, counter, bound, request);
    assert Field(payload, "max_new_tokens") == Field(chat.payload, "max_new_tokens");
    assert Field(payload, "stream") == Field(chat.payload, "stream");
    if settings.PostInit().None? {
      RequestsFitTheContext(payload, settings, counter, bound, request);
    }
    var limit := Limit(payload, settings).value;
    AnswerKeepsTheNewest(Validated(Field(payload, "messages")).value, limit, settings.Budget(limit), counter, bound, request);
  }

  // Continuing an answer

  /** A continuation is refused as such exactly when the chat's messages are no list, or there is no
      text to continue; any other complaint is about the payload it makes. */
  lemma {:induction false} ContinuationRefusals(chat: Chat, settings: Settings, counter: Counter)
    ensures var given := Field(chat.payload, "messages");
      var list := given.Some? && given.value.Arr?;
      var silent := SaysNothing(Field(chat.payload, "prior_text"));
      && (chat.continuation ==> (Prepared(chat, settings, counter) == Failure(NoMessages) <==> !list))
      && (Prepared(chat, settings, counter) == Failure(BlankPriorText) <==> chat.continuation && list && silent)
  {
    hide Validated, Answered, Limit, Streaming, Trim;
    var prior := Field(chat.payload, "prior_text");
    if prior.Some? && prior.value.Str? {
      BlankText(prior.value.text);
    }
    NoPriorErrors(chat.payload, settings, counter);
    if chat.continuation && MessagesOf(chat).Some? {
      NoPriorErrors(chat.payload["messages" := MessagesOf(chat).value], settings, counter);
    }
  }

  lemma {:induction false} NoPriorErrors(payload: map<string, Json>, settings: Settings, counter: Counter)
    ensures Normalized(payload, settings, counter, Some(ConservativeUpperBound)) != Failure(BlankPriorText)
    ensures "messages" in payload && payload["messages"].Arr? && payload["messages"].items != [] ==>
              Normalized(payload, settings, counter, Some(ConservativeUpperBound)) != Failure(NoMessages)
  {
    hide Validated, Answered, ConservativeUpperBound;
    var read := Validated(Field(payload, "messages"));
    ValidationErrors(Field(payload, "messages"));
    if read.Failure? && "messages" in payload && payload["messages"].Arr? && payload["messages"].items != [] {
      ListErrors(Field(payload, "messages"));
    }
    if read.Success? && Limit(payload, settings).Success? {
      var limit := Limit(payload, settings).value;
      AnswerErrors(read.value, limit, settings.Budget(limit), counter, Some(ConservativeUpperBound));
    }
  }

  lemma {:induction false} ListErrors(raw: Option<Json>)
    requires raw.Some? && raw.value.Arr? && raw.value.items != []
    ensures Validated(raw) != Failure(NoMessages)
  {
    ValidationAnswersForTheList(raw);
  }

  /** A continuation of a list that is sent as JSON is read as that list, the text and the
      instruction, exactly when the list is short enough and its texts are not blank. */
  lemma {:induction false} ContinuationIsRead(messages: seq<Message>, prior: string)
    requires Trim(IsPySpace, prior) != ""
    ensures Continuation(EncodedAll(messages).items, Some(Str(prior))).Success?
    ensures var next := Continuation(EncodedAll(messages).items, Some(Str(prior))).value;
      (Validated(Some(Arr(next)))
       == Success(messages + [Message(Assistant, prior), Message(User, CONTINUATION_INSTRUCTION)]))
      <==> |messages| <= 30
           && forall i | 0 <= i < |messages| :: Trim(IsPySpace, messages[i].content) != ""
  {
    hide Validated, Trim;
    var whole := messages + [Message(Assistant, prior), Message(User, CONTINUATION_INSTRUCTION)];
    var next := Continuation(EncodedAll(messages).items, Some(Str(prior)));
    assert next.value == EncodedAll(whole).items;
    InstructionIsText();
    assert whole[|messages| + 1].role == User;
    assert forall i | 0 <= i < |messages| :: whole[i] == messages[i];
    ValidationRoundTrip(whole);
  }

  /** `whole` ends with the text to continue and the instruction to continue it. */
  predicate EndsWith(whole: seq<Message>, prior: string) {
    && |whole| >= 2 && whole[|whole| - 2] == Message(Assistant, prior)
    && whole[|whole| - 1] == Message(User, CONTINUATION_INSTRUCTION)
  }

  predicate Continues(chat: Chat, prior: string) {
    && chat.continuation && Field(chat.payload, "prior_text") == Some(Str(prior))
    && MessagesOf(chat).Some?
  }

  lemma {:induction false} ContinuationEnds(chat: Chat, prior: string)
    requires Continues(chat, prior) && Validated(MessagesOf(chat)).Success?
    ensures EndsWith(Validated(MessagesOf(chat)).value, prior)
  {
    hide Validated, Trim;
    var items := chat.payload["messages"].items;
    var extended := Continuation(items, Some(Str(prior))).value;
    var whole := Validated(MessagesOf(chat)).value;
    ValidationAnswersForTheList(MessagesOf(chat));
    InstructionIsText();
    assert Item(extended[|items|], |items|) == Success(whole[|items|]);
    assert Item(extended[|items| + 1], |items| + 1) == Success(whole[|items| + 1]);
    EncodedIsRead(Message(Assistant, prior), |items|);
    EncodedIsRead(Message(User, CONTINUATION_INSTRUCTION), |items| + 1);
  }

  /** The text to continue survives in the request. */
  predicate KeepsText(request: GenerationRequest, prior: string) {
    EndsWith(request.messages, prior)
  }

  lemma {:induction false} CutsOfContinuation(whole: seq<Message>, prior: string, cut: nat)
    requires EndsWith(whole, prior) && IsCut(whole, cut)
    ensures HasUser(whole) && NewestUser(whole) == |whole| - 1
    ensures cut <= |whole| - 2 || cut == |whole| - 1
    ensures EndsWith(Candidate(whole, cut), prior) <==> cut <= |whole| - 2
  {
    assert whole[|whole| - 1].role == User;
    var kept := Candidate(whole, cut);
    assert kept[|kept| - 1] == whole[|whole| - 1];
    if cut <= |whole| - 2 {
      assert kept[|kept| - 2] == whole[|whole| - 2];
    } else {
      assert whole[cut..] == [whole[|whole| - 1]];
    }
  }

  lemma {:induction false} AnswerKeepsText(
      whole: seq<Message>, prior: string, limit: int, budget: int, counter: Counter, request: GenerationRequest)
    requires EndsWith(whole, prior) && HasUser(whole)
    requires Fitted(whole, limit, budget, counter) == Success(request)
    ensures KeepsText(request, prior)
       <==> exists cut: nat :: cut <= |whole| - 2 && IsCut(whole, cut) && !TooLong(counter, Candidate(whole, cut), budget)
  {
    hide NewestUser, FirstCut, HasUser, Fitted, EndsWith, Candidate;
    TrimmingKeepsTheMost(whole, limit, budget, counter, request);
    var kept: nat :| LongestFrom(whole, kept, request, counter);
    CutsOfContinuation(whole, prior, kept);
    if cut: nat :| cut <= |whole| - 2 && IsCut(whole, cut) && !TooLong(counter, Candidate(whole, cut), budget) {
      assert cut >= kept;
    }
  }

  /** Trimming may drop the very text that is to be continued. For every counter it stays exactly
      when the cheap bound lets the whole list through, or some admissible list that reaches back
      beyond the instruction fits. */
  lemma {:induction false} ContinuationKeepsItsText(
      chat: Chat, settings: Settings, counter: Counter, prior: string, request: GenerationRequest)
    requires Continues(chat, prior) && Prepared(chat, settings, counter) == Success(request)
    ensures Validated(MessagesOf(chat)).Success?
    ensures var whole := Validated(MessagesOf(chat)).value;
      KeepsText(request, prior)
      <==> (|| ConservativeUpperBound(whole) <= request.inputBudget
            || exists cut: nat ::
                 cut <= |whole| - 2 && IsCut(whole, cut) && !TooLong(counter, Candidate(whole, cut), request.inputBudget))
  {
    hide Prepared, MessagesOf, Validated, Fitted, Candidate, EndsWith;
    PreparedRequest(chat, settings, counter, request);
    var payload := PreparedIsNormalized(chat, settings, counter);
    var whole := Validated(MessagesOf(chat)).value;
    var limit := Limit(payload, settings).value;
    var budget := settings.Budget(limit);
    ContinuationEnds(chat, prior);
    if ConservativeUpperBound(whole) > budget {
      AnswerKeepsTheNewest(whole, limit, budget, counter, Some(ConservativeUpperBound), request);
      AnswerKeepsText(whole, prior, limit, budget, counter, request);
    }
  }

  /** For a counter that grows with the conversation only the last of those lists matters: the one
      cut at the user turn the text answers, or the whole one when there is no such turn. */
  lemma {:induction false} LastListDecides(whole: seq<Message>, prior: string, budget: int, counter: Counter, last: nat)
    requires EndsWith(whole, prior) && Monotone(counter)
    requires last <= |whole| - 2 && IsCut(whole, last)
    requires forall cut: nat | last < cut <= |whole| - 2 :: !IsCut(whole, cut)
    ensures !TooLong(counter, Candidate(whole, last), budget)
       <==> exists cut: nat :: cut <= |whole| - 2 && IsCut(whole, cut) && !TooLong(counter, Candidate(whole, cut), budget)
  {
    hide Candidate, EndsWith;
    if cut: nat :| cut <= |whole| - 2 && IsCut(whole, cut) && !TooLong(counter, Candidate(whole, cut), budget) {
      LaterCutsKeepLess(whole, cut, last);
    }
  }

  // A continuation that loses its text

  function LongText(): string {
    seq(400, i => 'p')
  }

  function LongContinuation(): Chat {
    Chat(map["messages" := Arr([Encoded(Message(User, "u"))]), "prior_text" := Str(LongText()),
             "max_new_tokens" := Int(1)], true)
  }

  const NARROW := Settings(81, 1, 1, 1, 0, 8000, 8081)

  function LongHistory(): seq<Message> {
    [Message(User, "u")] + [Message(Assistant, LongText()), Message(User, CONTINUATION_INSTRUCTION)]
  }

  lemma {:induction false} LongHistoryIsRead()
    ensures MessagesOf(LongContinuation()).Some? && Validated(MessagesOf(LongContinuation())) == Success(LongHistory())
    ensures Continues(LongContinuation(), LongText())
  {
    hide Validated, Trim, EncodedAll, Encoded;
    var first := [Message(User, "u")];
    LastCharacterStays(IsPySpace, "u");
    LastCharacterStays(IsPySpace, LongText());
    OneEncoded(Message(User, "u"));
    ContinuationIsRead(first, LongText());
  }

  lemma {:induction false} OneEncoded(message: Message)
    ensures EncodedAll([message]) == Arr([Encoded(message)])
  {
  }

  lemma {:induction false} CountOfThree(a: Message, b: Message, c: Message)
    ensures EstimateMessageTokens([a, b, c]) >= 3 + EstimateTextTokens(b.content)
    ensures ConservativeUpperBound([a, b, c]) >= Utf8Length(b.content)
    ensures EstimateMessageTokens([c]) == 7 + EstimateTextTokens(c.content)
  {
    hide EstimateTextTokens, Utf8Length;
    assert [a, b, c][1..] == [b, c] && [b, c][1..] == [c] && [c][1..] == [];
    assert EstimateFrom([c]) == 4 + EstimateTextTokens(c.content);
    assert EstimateFrom([b, c]) >= EstimateTextTokens(b.content) && UpperBoundFrom([b, c]) >= Utf8Length(b.content);
  }

  /** The instruction alone is within 80 tokens, the whole list is not. */
  lemma {:induction false} LongHistoryCounts()
    ensures ConservativeUpperBound(LongHistory()) > 80
    ensures TooLong(DefaultCount, LongHistory(), 80)
    ensures !TooLong(DefaultCount, [Message(User, CONTINUATION_INSTRUCTION)], 80)
  {
    hide EstimateMessageTokens, ConservativeUpperBound, Utf8Length;
    var a, b, c := Message(User, "u"), Message(Assistant, LongText()), Message(User, CONTINUATION_INSTRUCTION);
    assert LongHistory() == [a, b, c];
    assert Utf8Length(LongText()) >= 400 && Utf8Length(CONTINUATION_INSTRUCTION) <= 4 * |CONTINUATION_INSTRUCTION|;
    assert |CONTINUATION_INSTRUCTION| == 66;
    CountOfThree(a, b, c);
  }

  /** Cutting at the question keeps all, cutting at the instruction keeps nothing else. */
  lemma {:induction false} CutToTheInstruction(a: Message, b: Message, c: Message, limit: int, budget: int, counter: Counter)
    requires a.role == User && b.role == Assistant && c.role == User
    requires TooLong(counter, [a, b, c], budget) && counter([c]).Some? && !TooLong(counter, [c], budget)
    ensures HasUser([a, b, c])
    ensures Fitted([a, b, c], limit, budget, counter)
         == Success(GenerationRequest([c], limit, true, counter([c]).value, budget))
  {
    hide FirstCut, NewestUser;
    var messages := [a, b, c];
    assert messages[2].role == User && messages[1].role == Assistant;
    assert NewestUser(messages) == 2;
    assert Candidate(messages, 0) == messages && Candidate(messages, 2) == [c];
    SkipToCut(messages, counter, budget, 0, 2);
    CutFound(messages, counter, budget, 2);
  }

  lemma {:induction false} PreparedFrom(chat: Chat, settings: Settings, counter: Counter, messages: seq<Message>)
    requires MessagesOf(chat).Some? && Validated(MessagesOf(chat)) == Success(messages)
    requires Limit(chat.payload, settings) == Success(1) && Streaming(chat.payload)
    requires ConservativeUpperBound(messages) > settings.Budget(1)
    ensures HasUser(messages)
    ensures Prepared(chat, settings, counter) == Fitted(messages, 1, settings.Budget(1), counter)
  {
    hide Validated, Fitted, ConservativeUpperBound, HasUser;
  }

  /** With the default estimator and a valid configuration: the answer so far does not fit beside
      the question it answers, and the request asks to continue without either. */
  lemma {:induction false} ContinuationMayLoseItsText()
    ensures NARROW.PostInit().None? && Continues(LongContinuation(), LongText())
    ensures Prepared(LongContinuation(), NARROW, DefaultCount).Success?
    ensures Prepared(LongContinuation(), NARROW, DefaultCount).value.messages
         == [Message(User, CONTINUATION_INSTRUCTION)]
    ensures !KeepsText(Prepared(LongContinuation(), NARROW, DefaultCount).value, LongText())
  {
    hide Validated, ConservativeUpperBound, EstimateMessageTokens, Continuation, LongText, Prepared, MessagesOf, Fitted;
    var a, b, c := Message(User, "u"), Message(Assistant, LongText()), Message(User, CONTINUATION_INSTRUCTION);
    LongHistoryIsRead();
    LongHistoryCounts();
    assert LongHistory() == [a, b, c];
    CutToTheInstruction(a, b, c, 1, 80, DefaultCount);
    PreparedFrom(LongContinuation(), NARROW, DefaultCount, LongHistory());
  }
}
