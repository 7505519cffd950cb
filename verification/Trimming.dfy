/** Turning a chat payload into a generation request: validation, and trimming of the history
    to the input budget that the context window leaves. */
module Trimming {
  import opened Text

  /** A decoded JSON value. */
  datatype Json =
    | Null
    | Bool(flag: bool)
    | Int(number: int)
    | Float(amount: real)
    | Str(text: string)
    | Arr(items: seq<Json>)
    | Obj(fields: map<string, Json>)

  datatype Role = System | User | Assistant

  datatype Message = Message(role: Role, content: string)

  /** The count of a conversation's tokens; `None` when the runtime cannot be asked. */
  type Counter = seq<Message> -> Option<int>

  datatype GenerationRequest = GenerationRequest(
    messages: seq<Message>,
    maxNewTokens: int,
    contextTrimmed: bool,
    inputTokens: int,
    inputBudget: int)

  datatype RequestError =
    | NoMessages
    | TooManyMessages
    | NotAnObject(index: nat)
    | UnhashableRole(index: nat)
    | InvalidRole(index: nat)
    | BlankContent(index: nat)
    | NoUserTurn
    | LimitNotInteger
    | LimitOutOfRange
    | NotStreaming
    | BlankPriorText
    | MessageTooLarge(allowed: int)
    | RuntimeUnavailable

  datatype SettingsError = DefaultOutOfRange | NoInputRoom | NoThreads | BadPort

  datatype Settings = Settings(
    contextTokens: int,
    defaultMaxNewTokens: int,
    maxNewTokens: int,
    threads: int,
    reserveTokens: int,
    publicPort: int,
    llamaPort: int)
  {
    function PostInit(): Option<SettingsError> {
      if !(1 <= defaultMaxNewTokens <= maxNewTokens) then Some(DefaultOutOfRange)
      else if contextTokens <= maxNewTokens + reserveTokens then Some(NoInputRoom)
      else if threads < 1 then Some(NoThreads)
      else if !(1 <= publicPort <= 65535) || !(1 <= llamaPort <= 65535) then Some(BadPort)
      else None
    }

    /** What is left of the context window for the input. */
    function Budget(limit: int): int {
      contextTokens - limit - reserveTokens
    }
  }

  /** The constructor accepts a configuration exactly when every output limit that a request may
      name leaves an input budget, the default is such a limit, there is a thread, and the ports
      exist; for want of input room it refuses exactly when some limit would leave none. */
  lemma {:induction false} EveryBudgetIsPositive(settings: Settings)
    ensures settings.PostInit().None?
       <==> && 1 <= settings.defaultMaxNewTokens <= settings.maxNewTokens
            && (forall limit | 1 <= limit <= settings.maxNewTokens :: settings.Budget(limit) >= 1)
            && settings.threads >= 1
            && 0 < settings.publicPort < 65536 && 0 < settings.llamaPort < 65536
    ensures settings.PostInit() == Some(NoInputRoom)
       <==> && 1 <= settings.defaultMaxNewTokens <= settings.maxNewTokens
            && exists limit :: 1 <= limit <= settings.maxNewTokens && settings.Budget(limit) <= 0
  {
    assert settings.Budget(settings.maxNewTokens)
        == settings.contextTokens - settings.maxNewTokens - settings.reserveTokens;
  }

  // Estimators

  /** The fewest groups of four bytes that hold the text, and at least one. */
  function EstimateTextTokens(text: string): (n: nat)
    ensures 1 <= n <= Utf8Length(text) + 1
    ensures 4 * n >= Utf8Length(text) && (n > 1 ==> 4 * (n - 1) < Utf8Length(text))
  {
    var quarters := (Utf8Length(text) + 3) / 4;
    if quarters < 1 then 1 else quarters
  }

  function EstimateFrom(messages: seq<Message>): nat {
    if messages == [] then 0 else 4 + EstimateTextTokens(messages[0].content) + EstimateFrom(messages[1..])
  }

  function EstimateMessageTokens(messages: seq<Message>): nat {
    3 + EstimateFrom(messages)
  }

  /** The counter used when none is supplied. */
  function DefaultCount(messages: seq<Message>): Option<int> {
    Some(EstimateMessageTokens(messages))
  }

  function UpperBoundFrom(messages: seq<Message>): nat {
    if messages == [] then 0 else 8 + Utf8Length(messages[0].content) + UpperBoundFrom(messages[1..])
  }

  function ConservativeUpperBound(messages: seq<Message>): int {
    3 + UpperBoundFrom(messages)
  }

  /** Both estimates charge 3 for the conversation; for each message the one charges 4 and its
      tokens, the other 8 and its bytes. */
  lemma {:induction false} EstimatesAddUp(a: seq<Message>, message: Message)
    ensures DefaultCount([]) == Some(3) && ConservativeUpperBound([]) == 3
    ensures DefaultCount(a + [message])
         == Some(EstimateMessageTokens(a) + 4 + EstimateTextTokens(message.content))
    ensures ConservativeUpperBound(a + [message]) == ConservativeUpperBound(a) + 8 + Utf8Length(message.content)
  {
    if a == [] {
      assert [] + [message] == [message] && [message][1..] == [];
      assert EstimateFrom([message]) == 4 + EstimateTextTokens(message.content) + EstimateFrom([]);
      assert UpperBoundFrom([message]) == 8 + Utf8Length(message.content) + UpperBoundFrom([]);
    } else {
      EstimatesAddUp(a[1..], message);
      assert (a + [message])[1..] == a[1..] + [message];
    }
  }

  /** `b` with some of its messages left out. */
  predicate Sublist(a: seq<Message>, b: seq<Message>) {
    || a == []
    || (b != [] && ((a[0] == b[0] && Sublist(a[1..], b[1..])) || Sublist(a, b[1..])))
  }

  ghost predicate Monotone(counter: Counter) {
    forall a, b | Sublist(a, b) ::
      counter(a).Some? && counter(b).Some? && counter(a).value <= counter(b).value
  }

  ghost predicate GrowsWithTheList(bound: seq<Message> -> int) {
    forall a, b | Sublist(a, b) :: bound(a) <= bound(b)
  }

  lemma {:induction false} EstimatesFromGrow(a: seq<Message>, b: seq<Message>)
    requires Sublist(a, b)
    ensures EstimateFrom(a) <= EstimateFrom(b)
    ensures UpperBoundFrom(a) <= UpperBoundFrom(b)
    decreases |b|
  {
    if a == [] || b == [] {
    } else if a[0] == b[0] && Sublist(a[1..], b[1..]) {
      EstimatesFromGrow(a[1..], b[1..]);
    } else {
      EstimatesFromGrow(a, b[1..]);
    }
  }

  lemma {:induction false} EstimateFromIsBelowBound(messages: seq<Message>)
    ensures EstimateFrom(messages) <= UpperBoundFrom(messages)
  {
    if messages != [] {
      EstimateFromIsBelowBound(messages[1..]);
    }
  }

  /** Both estimators grow with the conversation, and the cheap bound is never below the
      default estimate. */
  lemma {:induction false} EstimatorsAreMonotone()
    ensures Monotone(DefaultCount)
    ensures GrowsWithTheList(ConservativeUpperBound)
    ensures forall messages :: EstimateMessageTokens(messages) <= ConservativeUpperBound(messages)
  {
    forall a, b | Sublist(a, b)
      ensures EstimateFrom(a) <= EstimateFrom(b) && UpperBoundFrom(a) <= UpperBoundFrom(b)
    {
      EstimatesFromGrow(a, b);
    }
    forall messages
      ensures EstimateFrom(messages) <= UpperBoundFrom(messages)
    {
      EstimateFromIsBelowBound(messages);
    }
  }

  // Validation

  function Field(fields: map<string, Json>, key: string): Option<Json> {
    if key in fields then Some(fields[key]) else None
  }

  function RoleOf(role: Option<Json>): Option<Role> {
    match role
    case Some(Str(text)) =>
      if text == "system" then Some(System)
      else if text == "user" then Some(User)
      else if text == "assistant" then Some(Assistant)
      else None
    case _ => None
  }

  predicate Blank(content: Option<Json>) {
    match content
    case Some(Str(text)) => Trim(IsPySpace, text) == ""
    case _ => true
  }

  /** One item of the list, at position `index`. A role that is a list or an object cannot be
      looked up among the allowed ones at all. */
  function Item(item: Json, index: nat): Result<Message, RequestError> {
    if !item.Obj? then Failure(NotAnObject(index))
    else
      var role := Field(item.fields, "role");
      var content := Field(item.fields, "content");
      if role.Some? && (role.value.Arr? || role.value.Obj?) then Failure(UnhashableRole(index))
      else if RoleOf(role).None? then Failure(InvalidRole(index))
      else if Blank(content) then Failure(BlankContent(index))
      else Success(Message(RoleOf(role).value, content.value.text))
  }

  /** The strings a role is sent as. */
  predicate NamesRole(text: string, role: Role) {
    match role
    case System => text == "system"
    case User => text == "user"
    case Assistant => text == "assistant"
  }

  predicate HasRole(role: Option<Json>) {
    role.Some? && role.value.Str? && role.value.text in {"system", "user", "assistant"}
  }

  /** Missing, no text, or nothing but white space. */
  predicate SaysNothing(content: Option<Json>) {
    content.Some? && content.value.Str? ==> AllSpace(IsPySpace, content.value.text)
  }

  /** When an item is read, and as what; and what each complaint about it means. */
  lemma {:induction false} ItemExactly(item: Json, index: nat, message: Message)
    ensures Item(item, index) == Success(message)
       <==> && item.Obj? && HasRole(Field(item.fields, "role")) && !SaysNothing(Field(item.fields, "content"))
            && NamesRole(item.fields["role"].text, message.role)
            && item.fields["content"] == Str(message.content)
    ensures Item(item, index) == Failure(NotAnObject(index)) <==> !item.Obj?
    ensures Item(item, index) == Failure(UnhashableRole(index))
       <==> item.Obj? && "role" in item.fields && (item.fields["role"].Arr? || item.fields["role"].Obj?)
    ensures Item(item, index) == Failure(InvalidRole(index))
       <==> item.Obj? && !HasRole(Field(item.fields, "role"))
            && !("role" in item.fields && (item.fields["role"].Arr? || item.fields["role"].Obj?))
    ensures Item(item, index) == Failure(BlankContent(index))
       <==> item.Obj? && HasRole(Field(item.fields, "role")) && SaysNothing(Field(item.fields, "content"))
  {
    hide Trim, AllSpace, IsPySpace;
    if item.Obj? && "content" in item.fields && item.fields["content"].Str? {
      BlankText(item.fields["content"].text);
    }
  }

  lemma {:induction false} BlankText(text: string)
    ensures Trim(IsPySpace, text) == "" <==> AllSpace(IsPySpace, text)
  {
    hide IsPySpace, Trim;
    TrimExactly(IsPySpace, text, "");
    if AllSpace(IsPySpace, text) {
      assert text == text + "" + "" && AllSpace(IsPySpace, "");
    }
  }

  predicate HasUser(messages: seq<Message>) {
    exists i | 0 <= i < |messages| :: messages[i].role == User
  }

  /** `messages` is what the items say, in their order. */
  predicate Reads(items: seq<Json>, messages: seq<Message>) {
    |items| == |messages| && forall i | 0 <= i < |items| :: Item(items[i], i) == Success(messages[i])
  }

  /** What the validation of a `messages` field may answer. */
  predicate ValidationAnswers(raw: Option<Json>, answer: Result<seq<Message>, RequestError>) {
    if raw.None? || !raw.value.Arr? || raw.value.items == [] then answer == Failure(NoMessages)
    else if |raw.value.items| > 32 then answer == Failure(TooManyMessages)
    else
      var items := raw.value.items;
      match answer
      case Success(messages) => Reads(items, messages) && HasUser(messages)
      case Failure(NoUserTurn) =>
        forall i | 0 <= i < |items| :: Item(items[i], i).Success? && Item(items[i], i).value.role != User
      case Failure(error) =>
        exists i | 0 <= i < |items| ::
          && Item(items[i], i) == Failure(error)
          && forall k | 0 <= k < i :: Item(items[k], k).Success?
  }

  /** The first complaint about the items from position `from` on. */
  function FirstError(items: seq<Json>, from: nat): Option<RequestError>
    requires from <= |items|
    decreases |items| - from
  {
    if from == |items| then None
    else if Item(items[from], from).Failure? then Some(Item(items[from], from).error)
    else FirstError(items, from + 1)
  }

  lemma {:induction false} FirstErrorIsFirst(items: seq<Json>, from: nat)
    requires from <= |items|
    ensures match FirstError(items, from)
            case None => forall i | from <= i < |items| :: Item(items[i], i).Success?
            case Some(error) =>
              exists i | from <= i < |items| ::
                && Item(items[i], i) == Failure(error)
                && forall k | from <= k < i :: Item(items[k], k).Success?
    decreases |items| - from
  {
    if from < |items| && Item(items[from], from).Success? {
      FirstErrorIsFirst(items, from + 1);
      if FirstError(items, from).Some? {
        var i :| from + 1 <= i < |items| && Item(items[i], i) == Failure(FirstError(items, from).value)
          && forall k | from + 1 <= k < i :: Item(items[k], k).Success?;
        assert forall k | from <= k < i :: Item(items[k], k).Success?;
      }
    }
  }

  function Validated(raw: Option<Json>): (answer: Result<seq<Message>, RequestError>)
    ensures answer.Success? ==> HasUser(answer.value)
  {
    if raw.None? || !raw.value.Arr? || raw.value.items == [] then Failure(NoMessages)
    else if |raw.value.items| > 32 then Failure(TooManyMessages)
    else
      var items := raw.value.items;
      match FirstError(items, 0)
      case Some(error) => Failure(error)
      case None =>
        FirstErrorIsFirst(items, 0);
        var messages := seq(|items|, i requires 0 <= i < |items| => Item(items[i], i).value);
        if HasUser(messages) then Success(messages) else Failure(NoUserTurn)
  }

  /** Either every item is read, in order, or the complaint is about the first item at fault. */
  lemma {:induction false} ValidationAnswersForTheList(raw: Option<Json>)
    ensures ValidationAnswers(raw, Validated(raw))
  {
    if raw.Some? && raw.value.Arr? && 0 < |raw.value.items| <= 32 {
      var items := raw.value.items;
      FirstErrorIsFirst(items, 0);
      if Validated(raw) == Failure(NoUserTurn) && FirstError(items, 0).None? {
        var messages := seq(|items|, i requires 0 <= i < |items| => Item(items[i], i).value);
        forall i | 0 <= i < |items|
          ensures Item(items[i], i).value.role != User
        {
          assert messages[i].role != User;
        }
      }
    }
  }

  /** `_validate_messages` */
  method ValidateMessages(raw: Option<Json>) returns (answer: Result<seq<Message>, RequestError>)
    ensures answer == Validated(raw)
  {
    if raw.None? || !raw.value.Arr? || raw.value.items == [] {
      return Failure(NoMessages);
    }
    var items := raw.value.items;
    if |items| > 32 {
      return Failure(TooManyMessages);
    }
    hide Item;
    var messages: seq<Message> := [];
    for index := 0 to |items|
      invariant |messages| == index
      invariant FirstError(items, 0) == FirstError(items, index)
      invariant forall i | 0 <= i < index :: Item(items[i], i) == Success(messages[i])
    {
      var item := Item(items[index], index);
      if item.Failure? {
        return Failure(item.error);
      }
      messages := messages + [item.value];
    }
    FirstErrorIsFirst(items, 0);
    assert messages == seq(|items|, i requires 0 <= i < |items| => Item(items[i], i).value);
    answer := if HasUser(messages) then Success(messages) else Failure(NoUserTurn);
  }

  // Trimming

  /** How many leading messages are pinned: a leading system message is. */
  function Pinned(messages: seq<Message>): (n: nat)
    ensures n <= |messages|
  {
    if messages != [] && messages[0].role == System then 1 else 0
  }

  function NewestUser(messages: seq<Message>): (index: nat)
    requires HasUser(messages)
    ensures index < |messages| && messages[index].role == User
    ensures forall i | index < i < |messages| :: messages[i].role != User
  {
    var last := |messages| - 1;
    if messages[last].role == User then last
    else
      assert HasUser(messages[..last]) by {
        var i :| 0 <= i < |messages| && messages[i].role == User;
        assert messages[..last][i].role == User;
      }
      NewestUser(messages[..last])
  }

  /** A position the history may be cut at: right after the pinned part, which cuts nothing, or
      in front of a later user turn. */
  predicate IsCut(messages: seq<Message>, cut: nat) {
    || cut == Pinned(messages)
    || (Pinned(messages) < cut < |messages| && messages[cut].role == User)
  }

  /** The pinned part and everything from the cut on. */
  function Candidate(messages: seq<Message>, cut: nat): seq<Message>
    requires Pinned(messages) <= cut <= |messages|
  {
    messages[..Pinned(messages)] + messages[cut..]
  }

  predicate TooLong(counter: Counter, messages: seq<Message>, budget: int) {
    counter(messages).Some? && counter(messages).value > budget
  }

  /** The first cut from `from` on whose candidate is not too long. */
  function FirstCut(messages: seq<Message>, counter: Counter, budget: int, from: nat): Option<nat>
    requires Pinned(messages) <= from <= |messages|
    decreases |messages| - from
  {
    if IsCut(messages, from) && !TooLong(counter, Candidate(messages, from), budget) then Some(from)
    else if from == |messages| then None
    else FirstCut(messages, counter, budget, from + 1)
  }

  lemma {:induction false} FirstCutIsLeast(messages: seq<Message>, counter: Counter, budget: int, from: nat)
    requires Pinned(messages) <= from <= |messages|
    ensures match FirstCut(messages, counter, budget, from)
            case Some(cut) =>
              && from <= cut <= |messages| && IsCut(messages, cut)
              && !TooLong(counter, Candidate(messages, cut), budget)
              && (forall k | from <= k < cut && IsCut(messages, k) ::
                    TooLong(counter, Candidate(messages, k), budget))
            case None =>
              forall k | from <= k <= |messages| && IsCut(messages, k) ::
                TooLong(counter, Candidate(messages, k), budget)
    decreases |messages| - from
  {
    if IsCut(messages, from) && !TooLong(counter, Candidate(messages, from), budget) {
    } else if from < |messages| {
      FirstCutIsLeast(messages, counter, budget, from + 1);
    }
  }

  /** The request that keeps the history from `cut` on. */
  function Kept(messages: seq<Message>, limit: int, budget: int, counter: Counter, cut: Option<nat>)
      : Result<GenerationRequest, RequestError>
    requires cut.Some? ==> Pinned(messages) <= cut.value <= |messages|
  {
    match cut
    case None => Failure(MessageTooLarge(budget))
    case Some(at) =>
      match counter(Candidate(messages, at))
      case None => Failure(RuntimeUnavailable)
      case Some(count) =>
        Success(GenerationRequest(Candidate(messages, at), limit, at > Pinned(messages), count, budget))
  }

  /** The longest history that fits, without asking about the newest user message first. */
  function LongestFit(messages: seq<Message>, limit: int, budget: int, counter: Counter)
      : Result<GenerationRequest, RequestError>
  {
    FirstCutIsLeast(messages, counter, budget, Pinned(messages));
    Kept(messages, limit, budget, counter, FirstCut(messages, counter, budget, Pinned(messages)))
  }

  /** The slow path. */
  function Fitted(messages: seq<Message>, limit: int, budget: int, counter: Counter)
      : Result<GenerationRequest, RequestError>
    requires HasUser(messages)
  {
    match counter([messages[NewestUser(messages)]])
    case None => Failure(RuntimeUnavailable)
    case Some(count) =>
      if count > budget then Failure(MessageTooLarge(budget))
      else LongestFit(messages, limit, budget, counter)
  }

  /** `_drop_oldest_turn`: one turn leaves the front of the list, or nothing does. */
  method DropOldestTurn(messages: seq<Message>, protected: nat)
      returns (dropped: bool, remaining: seq<Message>)
    requires protected < |messages| && messages[protected].role == User
    ensures dropped <==> Pinned(messages) < protected
    ensures !dropped ==> remaining == messages
    ensures dropped ==>
              exists end | Pinned(messages) < end <= protected ::
                && messages[end].role == User
                && (forall i | Pinned(messages) < i < end :: messages[i].role != User)
                && remaining == Candidate(messages, end)
  {
    var start := if messages != [] && messages[0].role == System then 1 else 0;
    if start >= protected {
      return false, messages;
    }
    var end := start + 1;
    while end < protected && messages[end].role != User
      invariant start < end <= protected
      invariant forall i | start < i < end :: messages[i].role != User
    {
      end := end + 1;
    }
    return true, messages[..start] + messages[end..];
  }

  ghost predicate Remembers(cache: map<seq<Message>, int>, counter: Counter) {
    forall key | key in cache :: counter(key) == Some(cache[key])
  }

  /** `exact_count`; `asked` are the lists the counter was asked about so far. */
  method ExactCount(candidate: seq<Message>, counter: Counter, cache: map<seq<Message>, int>,
                    ghost asked: seq<seq<Message>>)
      returns (value: Option<int>, remembered: map<seq<Message>, int>, ghost asked': seq<seq<Message>>)
    requires Remembers(cache, counter)
    ensures value == counter(candidate)
    ensures Remembers(remembered, counter)
    ensures asked' == if candidate in cache then asked else asked + [candidate]
    ensures remembered.Keys == if value.Some? then cache.Keys + {candidate} else cache.Keys
  {
    asked' := asked;
    if candidate in cache {
      return Some(cache[candidate]), cache, asked;
    }
    value := counter(candidate);
    asked' := asked + [candidate];
    remembered := if value.Some? then cache[candidate := value.value] else cache;
  }

  /** No list occurs twice. */
  predicate Distinct(lists: seq<seq<Message>>) {
    forall i, j | 0 <= i < j < |lists| :: lists[i] != lists[j]
  }

  /** A candidate's newest user message is the history's. */
  lemma {:induction false} NewestOfCandidate(messages: seq<Message>, cut: nat)
    requires HasUser(messages) && IsCut(messages, cut) && cut <= NewestUser(messages)
    ensures Pinned(Candidate(messages, cut)) == Pinned(messages)
    ensures HasUser(Candidate(messages, cut))
    ensures NewestUser(Candidate(messages, cut)) == NewestUser(messages) - cut + Pinned(messages)
  {
    var retained := Candidate(messages, cut);
    var shift := cut - Pinned(messages);
    assert forall i | Pinned(messages) <= i < |retained| :: retained[i] == messages[i + shift];
    assert retained[NewestUser(messages) - shift].role == User;
    assert messages[NewestUser(retained) + shift].role == User;
  }

  /** Cutting a candidate again is cutting the history later. */
  lemma {:induction false} CandidateOfCandidate(messages: seq<Message>, cut: nat, end: nat)
    requires IsCut(messages, cut)
    requires Pinned(Candidate(messages, cut)) == Pinned(messages)
    requires Pinned(messages) <= end <= |Candidate(messages, cut)|
    ensures Candidate(Candidate(messages, cut), end) == Candidate(messages, end - Pinned(messages) + cut)
  {
    var retained := Candidate(messages, cut);
    assert retained[..Pinned(messages)] == messages[..Pinned(messages)];
    assert retained[end..] == messages[end - Pinned(messages) + cut..];
  }

  /** Between a cut and the next user turn there is no further cut. */
  lemma {:induction false} NextCut(messages: seq<Message>, cut: nat, end: nat)
    requires HasUser(messages) && IsCut(messages, cut) && cut <= NewestUser(messages)
    requires Pinned(messages) < end < |Candidate(messages, cut)|
    requires Candidate(messages, cut)[end].role == User
    requires forall i | Pinned(messages) < i < end :: Candidate(messages, cut)[i].role != User
    ensures IsCut(messages, end - Pinned(messages) + cut)
    ensures forall k | cut < k < end - Pinned(messages) + cut :: !IsCut(messages, k)
  {
    var retained := Candidate(messages, cut);
    var shift := cut - Pinned(messages);
    forall k | cut < k < end + shift
      ensures !IsCut(messages, k)
    {
      assert retained[k - shift] == messages[k];
    }
  }

  lemma {:induction false} SkipToCut(messages: seq<Message>, counter: Counter, budget: int, cut: nat, next: nat)
    requires Pinned(messages) <= cut < next <= |messages|
    requires IsCut(messages, cut) ==> TooLong(counter, Candidate(messages, cut), budget)
    requires forall k | cut < k < next :: !IsCut(messages, k)
    ensures FirstCut(messages, counter, budget, cut) == FirstCut(messages, counter, budget, next)
    decreases next - cut
  {
    if cut + 1 < next {
      SkipToCut(messages, counter, budget, cut + 1, next);
    }
  }

  lemma {:induction false} NothingLeftToDrop(messages: seq<Message>, counter: Counter, budget: int, cut: nat)
    requires HasUser(messages) && IsCut(messages, cut) && cut == NewestUser(messages)
    requires TooLong(counter, Candidate(messages, cut), budget)
    ensures FirstCut(messages, counter, budget, cut) == None
  {
    assert forall k | cut < k <= |messages| :: !IsCut(messages, k);
    FirstCutIsLeast(messages, counter, budget, cut);
  }

  lemma {:induction false} CutFound(messages: seq<Message>, counter: Counter, budget: int, cut: nat)
    requires IsCut(messages, cut) && !TooLong(counter, Candidate(messages, cut), budget)
    ensures FirstCut(messages, counter, budget, cut) == Some(cut)
  {
  }

  lemma {:induction false} NothingCut(messages: seq<Message>)
    requires HasUser(messages)
    ensures Candidate(messages, Pinned(messages)) == messages
    ensures IsCut(messages, Pinned(messages)) && Pinned(messages) <= NewestUser(messages)
  {
  }

  /** One dropped turn leads to the next cut. */
  lemma {:induction false} DroppedTurn(messages: seq<Message>, counter: Counter, budget: int, cut: nat, end: nat)
      returns (next: nat)
    requires HasUser(messages) && IsCut(messages, cut) && cut <= NewestUser(messages)
    requires TooLong(counter, Candidate(messages, cut), budget)
    requires Pinned(messages) < end <= NewestUser(messages) - cut + Pinned(messages)
    requires end < |Candidate(messages, cut)| && Candidate(messages, cut)[end].role == User
    requires forall i | Pinned(messages) < i < end :: Candidate(messages, cut)[i].role != User
    ensures cut < next <= NewestUser(messages) && IsCut(messages, next)
    ensures Pinned(Candidate(messages, cut)) == Pinned(messages)
    ensures Candidate(messages, next) == Candidate(Candidate(messages, cut), end)
    ensures FirstCut(messages, counter, budget, cut) == FirstCut(messages, counter, budget, next)
  {
    hide FirstCut, NewestUser, Candidate, HasUser, TooLong;
    next := end - Pinned(messages) + cut;
    NewestOfCandidate(messages, cut);
    NextCut(messages, cut, end);
    CandidateOfCandidate(messages, cut, end);
    SkipToCut(messages, counter, budget, cut, next);
  }

  /** The slow path of `normalize_request`: turns are dropped until the list fits. */
  method FitHistory(messages: seq<Message>, limit: int, budget: int, counter: Counter)
      returns (result: Result<GenerationRequest, RequestError>, ghost asked: seq<seq<Message>>)
    requires HasUser(messages)
    ensures result == Fitted(messages, limit, budget, counter)
    ensures Distinct(asked)
  {
    hide FirstCut, Candidate, NewestUser;
    var retained, cache, trimmed := messages, map[], false;
    asked := [];
    ghost var cut := Pinned(messages);
    NothingCut(messages);
    var count;
    count, cache, asked := ExactCount([retained[NewestUser(retained)]], counter, cache, asked);
    if count.None? {
      return Failure(RuntimeUnavailable), asked;
    }
    if count.value > budget {
      return Failure(MessageTooLarge(budget)), asked;
    }
    count, cache, asked := ExactCount(retained, counter, cache, asked);
    while count.Some? && count.value > budget
      invariant Remembers(cache, counter) && count == counter(retained) && Distinct(asked)
      invariant count.Some? ==> forall list | list in asked :: list in cache
      invariant Pinned(messages) <= cut <= NewestUser(messages) && IsCut(messages, cut)
      invariant retained == Candidate(messages, cut)
      invariant trimmed <==> cut > Pinned(messages)
      invariant FirstCut(messages, counter, budget, Pinned(messages)) == FirstCut(messages, counter, budget, cut)
      decreases NewestUser(messages) - cut
    {
      NewestOfCandidate(messages, cut);
      var dropped, remaining := DropOldestTurn(retained, NewestUser(retained));
      if !dropped {
        NothingLeftToDrop(messages, counter, budget, cut);
        return Failure(MessageTooLarge(budget)), asked;
      }
      ghost var end :| Pinned(retained) < end <= NewestUser(retained) && retained[end].role == User
        && (forall i | Pinned(retained) < i < end :: retained[i].role != User)
        && remaining == Candidate(retained, end);
      cut := DroppedTurn(messages, counter, budget, cut, end);
      retained, trimmed := remaining, true;
      count, cache, asked := ExactCount(retained, counter, cache, asked);
    }
    CutFound(messages, counter, budget, cut);
    if count.None? {
      return Failure(RuntimeUnavailable), asked;
    }
    return Success(GenerationRequest(retained, limit, trimmed, count.value, budget)), asked;
  }

  // Whole requests

  function Limit(payload: map<string, Json>, settings: Settings): Result<int, RequestError> {
    match Field(payload, "max_new_tokens")
    case None => InRange(settings.defaultMaxNewTokens, settings)
    case Some(Int(number)) => InRange(number, settings)
    case Some(_) => Failure(LimitNotInteger)
  }

  function InRange(limit: int, settings: Settings): Result<int, RequestError> {
    if 1 <= limit <= settings.maxNewTokens then Success(limit) else Failure(LimitOutOfRange)
  }

  predicate Streaming(payload: map<string, Json>) {
    Field(payload, "stream") in {None, Some(Bool(true))}
  }

  /** A valid request answered, by way of the cheap bound where it suffices. */
  function Answered(messages: seq<Message>, limit: int, budget: int, counter: Counter,
                    bound: Option<seq<Message> -> int>): Result<GenerationRequest, RequestError>
    requires HasUser(messages)
  {
    if bound.Some? && bound.value(messages) <= budget then
      Success(GenerationRequest(messages, limit, false, EstimateMessageTokens(messages), budget))
    else
      Fitted(messages, limit, budget, counter)
  }

  function Normalized(payload: map<string, Json>, settings: Settings, counter: Counter,
                      bound: Option<seq<Message> -> int>): Result<GenerationRequest, RequestError>
  {
    match Validated(Field(payload, "messages"))
    case Failure(error) => Failure(error)
    case Success(messages) =>
      match Limit(payload, settings)
      case Failure(error) => Failure(error)
      case Success(limit) =>
        if Streaming(payload) then Answered(messages, limit, settings.Budget(limit), counter, bound)
        else Failure(NotStreaming)
  }

  /** `normalize_request` */
  method NormalizeRequest(payload: map<string, Json>, settings: Settings, counter: Counter,
                          bound: Option<seq<Message> -> int>)
      returns (result: Result<GenerationRequest, RequestError>)
    ensures result == Normalized(payload, settings, counter, bound)
  {
    var answer := ValidateMessages(Field(payload, "messages"));
    if answer.Failure? {
      return Failure(answer.error);
    }
    var messages := answer.value;
    var given := if "max_new_tokens" in payload then payload["max_new_tokens"]
                 else Int(settings.defaultMaxNewTokens);
    if !given.Int? {
      return Failure(LimitNotInteger);
    }
    var limit := given.number;
    if !(1 <= limit <= settings.maxNewTokens) {
      return Failure(LimitOutOfRange);
    }
    var stream := if "stream" in payload then payload["stream"] else Bool(true);
    if stream != Bool(true) {
      return Failure(NotStreaming);
    }
    var budget := settings.contextTokens - limit - settings.reserveTokens;
    if bound.Some? && bound.value(messages) <= budget {
      return Success(GenerationRequest(messages, limit, false, EstimateMessageTokens(messages), budget));
    }
    ghost var asked;
    result, asked := FitHistory(messages, limit, budget, counter);
  }

  /** `request` keeps the history from `cut` on, and every longer history was too long. */
  ghost predicate LongestFrom(messages: seq<Message>, cut: nat, request: GenerationRequest, counter: Counter)
    requires HasUser(messages)
  {
    && IsCut(messages, cut) && cut <= NewestUser(messages)
    && request.messages == Candidate(messages, cut)
    && (request.contextTrimmed <==> cut > Pinned(messages))
    && (forall k | Pinned(messages) <= k < cut && IsCut(messages, k) ::
          TooLong(counter, Candidate(messages, k), request.inputBudget))
  }

  /** Trimming is the greedy optimum: the slow path answers with a list exactly when the newest
      user message fits alone and some admissible list fits, and then with the longest that does. */
  lemma {:induction false} TrimmingKeepsTheMost(
      messages: seq<Message>, limit: int, budget: int, counter: Counter, request: GenerationRequest)
    requires HasUser(messages)
    ensures Fitted(messages, limit, budget, counter) == Success(request)
       <==> (&& request.maxNewTokens == limit && request.inputBudget == budget
             && counter([messages[NewestUser(messages)]]).Some?
             && counter([messages[NewestUser(messages)]]).value <= budget
             && counter(request.messages) == Some(request.inputTokens)
             && request.inputTokens <= budget
             && exists cut: nat :: LongestFrom(messages, cut, request, counter))
  {
    FirstCutIsLeast(messages, counter, budget, Pinned(messages));
    var cut := FirstCut(messages, counter, budget, Pinned(messages));
    if Fitted(messages, limit, budget, counter) == Success(request) {
      assert LongestFrom(messages, cut.value, request, counter);
    }
    if request.inputBudget == budget && counter(request.messages).Some?
       && counter(request.messages).value <= budget
       && exists at: nat :: LongestFrom(messages, at, request, counter) {
      var at: nat :| LongestFrom(messages, at, request, counter);
      assert cut == Some(at);
    }
  }

  /** The refusal for length, exactly. */
  lemma {:induction false} RefusedWhenNothingFits(messages: seq<Message>, limit: int, budget: int, counter: Counter)
    requires HasUser(messages)
    ensures Fitted(messages, limit, budget, counter) == Failure(MessageTooLarge(budget))
       <==> (|| TooLong(counter, [messages[NewestUser(messages)]], budget)
             || (&& counter([messages[NewestUser(messages)]]).Some?
                 && forall k | Pinned(messages) <= k <= NewestUser(messages) && IsCut(messages, k) ::
                      TooLong(counter, Candidate(messages, k), budget)))
  {
    FirstCutIsLeast(messages, counter, budget, Pinned(messages));
    var cut := FirstCut(messages, counter, budget, Pinned(messages));
    if cut.Some? {
      assert cut.value <= NewestUser(messages);
    }
  }

  lemma {:induction false} CandidateKeepsTheEnd(messages: seq<Message>, cut: nat, from: nat)
    requires Pinned(messages) <= cut <= from <= |messages|
    ensures messages[..Pinned(messages)] <= Candidate(messages, cut)
    ensures |Candidate(messages, cut)| == |messages| - cut + Pinned(messages)
    ensures Candidate(messages, cut)[from - cut + Pinned(messages)..] == messages[from..]
    ensures cut < |messages| ==> Candidate(messages, cut)[Pinned(messages)] == messages[cut]
    ensures Candidate(messages, cut) == messages <==> cut == Pinned(messages)
  {
  }

  /** What every answer of the slow path keeps: the pinned system message, the newest user message
      and all that follows it; and a trimmed history starts with a user turn, so that no assistant
      turn is kept without the user turn before it. */
  lemma {:induction false} NewestTurnIsKept(
      messages: seq<Message>, limit: int, budget: int, counter: Counter, request: GenerationRequest)
    requires HasUser(messages)
    requires Fitted(messages, limit, budget, counter) == Success(request)
    ensures messages[..Pinned(messages)] <= request.messages
    ensures |messages| - NewestUser(messages) <= |request.messages|
    ensures messages[NewestUser(messages)..]
         == request.messages[|request.messages| - (|messages| - NewestUser(messages))..]
    ensures request.contextTrimmed <==> request.messages != messages
    ensures request.contextTrimmed ==> request.messages[Pinned(messages)].role == User
  {
    hide Fitted, NewestUser, HasUser;
    TrimmingKeepsTheMost(messages, limit, budget, counter, request);
    var cut: nat :| LongestFrom(messages, cut, request, counter);
    CandidateKeepsTheEnd(messages, cut, NewestUser(messages));
  }

  /** So a leading system message leads every answer. */
  lemma {:induction false} SystemMessageStays(
      messages: seq<Message>, limit: int, budget: int, counter: Counter, request: GenerationRequest)
    requires HasUser(messages) && messages[0].role == System
    requires Fitted(messages, limit, budget, counter) == Success(request)
    ensures request.messages != [] && request.messages[0] == messages[0]
  {
    hide Fitted, NewestUser, HasUser;
    NewestTurnIsKept(messages, limit, budget, counter, request);
    assert messages[..Pinned(messages)][0] == messages[0];
  }
}
