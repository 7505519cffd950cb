/** One streaming request followed from start to end: the handler that takes the lock and the stream
    that gives it back, with the lock as the object they share. */
module StreamChat {
  import opened Text
  import opened Trimming
  import opened Requests
  import opened Slot

  /** Giving back a lock that nobody holds is an error, so it is a precondition here. */
  class GenerationLock {
    var held: bool

    constructor ()
      ensures !held
    {
      held := false;
    }

    method TryAcquire() returns (taken: bool)
      modifies this
      ensures held
      ensures taken == !old(held)
    {
      taken := !held;
      held := true;
    }

    method Release()
      requires held
      modifies this
      ensures !held
    {
      held := false;
    }
  }

  /** `stream_chat`: either a status, with the lock as it was found, or a request to stream, with
      the lock taken. */
  method StreamChat(lock: GenerationLock, ready: bool, chat: Chat, settings: Settings, counter: Counter)
      returns (answer: Result<GenerationRequest, int>)
    modifies lock
    ensures lock.held == (old(lock.held) || answer.Success?)
    ensures answer == (
              if !ready then Failure(503)
              else if old(lock.held) then Failure(429)
              else
                match Prepared(chat, settings, counter)
                case Success(request) => Success(request)
                case Failure(error) => Failure(Status(error)))
  {
    if !ready {
      return Failure(503);
    }
    var taken := lock.TryAcquire();
    if !taken {
      return Failure(429);
    }
    var setupComplete := false;
    var prepared := Prepare(chat, settings, counter);
    if prepared.Success? {
      setupComplete := true;
      answer := Success(prepared.value);
    } else {
      answer := Failure(Status(prepared.error));
    }
    if !setupComplete {
      lock.Release();
    }
  }

  method Prepare(chat: Chat, settings: Settings, counter: Counter)
      returns (result: Result<GenerationRequest, RequestError>)
    ensures result == Prepared(chat, settings, counter)
  {
    var payload := chat.payload;
    if chat.continuation {
      if "messages" !in payload || !payload["messages"].Arr? {
        return Failure(NoMessages);
      }
      var extended := Continuation(payload["messages"].items, Field(payload, "prior_text"));
      if extended.Failure? {
        return Failure(extended.error);
      }
      payload := payload["messages" := Arr(extended.value)];
    }
    result := NormalizeRequest(payload, settings, counter, Some(ConservativeUpperBound));
  }

  /** Steps of one request taken in a row; `None` when one of them cannot be taken. */
  function InTurn(settings: Settings, s: Slot.State, r: nat, choices: seq<Choice>): Option<Slot.State> {
    if choices == [] then Some(s)
    else
      match InTurn(settings, s, r, choices[..|choices| - 1])
      case None => None
      case Some(t) => Slot.Step(settings, t, r, choices[|choices| - 1])
  }

  lemma {:induction false} OneMoreInTurn(settings: Settings, s: Slot.State, r: nat, choices: seq<Choice>, choice: Choice)
    ensures InTurn(settings, s, r, choices + [choice])
         == match InTurn(settings, s, r, choices)
            case None => None
            case Some(t) => Slot.Step(settings, t, r, choice)
  {
    assert (choices + [choice])[..|choices + [choice]| - 1] == choices;
  }

  /** A request among others, from its arrival on, is answered as `stream_chat` answers: 503 while the
      runtime is not ready, 429 while another one holds the lock, and otherwise by what becomes of its
      chat; only a request to stream keeps the lock. */
  lemma {:induction false} HandlerAlone(settings: Settings, s: Slot.State, r: nat, chat: Chat, ready: bool, counter: Counter)
      returns (choices: seq<Choice>, t: Slot.State)
    requires r !in s.requests
    ensures InTurn(settings, s, r, choices) == Some(t) && r in t.requests && t.requests - {r} == s.requests - {r}
    ensures t.requests[r].stage == (
              if !ready then Slot.Answered(503)
              else if s.lock.Some? then Slot.Answered(429)
              else
                match Prepared(chat, settings, counter)
                case Success(request) => Handed(request)
                case Failure(error) => Slot.Answered(Status(error)))
    ensures t.lock == if t.requests[r].stage.Handed? then Some(r) else s.lock
    ensures t.requests[r].frames == []
  {
    hide InTurn, Prepared;
    var before := [Arrive(chat), Probe(ready)];
    InTurnTwice(settings, s, r, Arrive(chat), Probe(ready));
    t := InTurn(settings, s, r, before).value;
    choices := before;
    if ready {
      OneMoreInTurn(settings, s, r, choices, Acquire);
      choices := choices + [Acquire];
      t := InTurn(settings, s, r, choices).value;
      if s.lock.None? {
        OneMoreInTurn(settings, s, r, choices, Choice.Prepare(counter));
        choices := choices + [Choice.Prepare(counter)];
        t := InTurn(settings, s, r, choices).value;
      }
    }
  }

  lemma {:induction false} InTurnTwice(settings: Settings, s: Slot.State, r: nat, a: Choice, b: Choice)
    ensures InTurn(settings, s, r, [a, b])
         == match Slot.Step(settings, s, r, a) case None => None case Some(t) => Slot.Step(settings, t, r, b)
  {
    hide Slot.Step;
    assert [a, b][..1] == [a] && [a][..0] == [];
    assert InTurn(settings, s, r, [a]) == Slot.Step(settings, s, r, a);
  }

  /** Everything the stream sends for what upstream delivers before it ends or breaks. */
  function Whole(request: GenerationRequest, received: seq<Chunk>, broken: bool): seq<Frame> {
    var locals := Heard(received);
    [Meta(request)] + Tokens(received) +
    (if broken then [Error, locals.ErrorDoneFrame()] else [locals.DoneFrame()])
  }

  /** The whole stream, in terms of what was received: the request, the texts in order, and what the
      done frame says of the chunks, after an error exactly when upstream broke. */
  lemma {:induction false} WholeStream(request: GenerationRequest, received: seq<Chunk>, broken: bool)
    ensures var whole := Whole(request, received, broken);
      && |whole| >= 2 && whole[0] == Meta(request)
      && var done := whole[|whole| - 1];
         && Concludes(done, received, broken)
         && Shaped(whole, received, if broken then [Error, done] else [done])
  {
    hide Tokens, Heard, Concludes, AreTheTexts;
    LastFramesConclude(received);
    TokensAreTheTexts(received);
    var whole := Whole(request, received, broken);
    var tail := if broken then [Error, Heard(received).ErrorDoneFrame()] else [Heard(received).DoneFrame()];
    assert whole[1..|whole| - |tail|] == Tokens(received) && whole[|whole| - |tail|..] == tail;
  }

  /** The requests that share the slot send that very stream. */
  lemma {:induction false} SlotSendsTheWhole(settings: Settings, run: seq<State>, i: nat, r: nat)
    requires Slot.Run(settings, run) && i < |run| && r in run[i].requests
    requires run[i].requests[r].stage == Ended(false)
    ensures var q := run[i].requests[r];
      && q.frames != [] && q.frames[0].Meta?
      && q.frames == Whole(q.frames[0].request, q.received, q.ending.BrokenOff?)
  {
    hide Slot.Run;
    RunKeepsInv(settings, run, i);
    assert Sound(run[i].requests[r]);
  }

  /** `events`, for a client that closes the stream once it has `wanted` frames: it gets that many
      frames of the whole stream, or all of them, and the lock is free afterwards. */
  method Events(lock: GenerationLock, request: GenerationRequest, upstream: seq<Chunk>, broken: bool, wanted: nat)
      returns (frames: seq<Frame>)
    requires lock.held && 1 <= wanted
    modifies lock
    ensures !lock.held
    ensures frames <= Whole(request, upstream, broken)
    ensures |frames| == if wanted <= |Whole(request, upstream, broken)| then wanted
                        else |Whole(request, upstream, broken)|
  {
    frames := Relay(request, upstream, broken, wanted);
    lock.Release();
  }

  method Relay(request: GenerationRequest, upstream: seq<Chunk>, broken: bool, wanted: nat)
      returns (frames: seq<Frame>)
    requires 1 <= wanted
    ensures frames <= Whole(request, upstream, broken)
    ensures |frames| == if wanted <= |Whole(request, upstream, broken)| then wanted
                        else |Whole(request, upstream, broken)|
  {
    hide Tokens, Heard;
    NothingHeard();
    var completionTokens, decodeRate, rawFinish := 0, None, None;
    frames := [Meta(request)];
    if |frames| == wanted {
      return;
    }
    for i := 0 to |upstream|
      invariant Locals(rawFinish, completionTokens, decodeRate) == Heard(upstream[..i])
      invariant frames == [Meta(request)] + Tokens(upstream[..i]) && |frames| < wanted
    {
      var chunk := upstream[i];
      TokensGrow(upstream, i);
      if chunk.text != "" {
        frames := frames + [Token(chunk.text)];
        if |frames| == wanted {
          TokensArePrefix(upstream, i + 1);
          return;
        }
      }
      rawFinish := if chunk.finish.Some? then chunk.finish else rawFinish;
      completionTokens := if chunk.tokens.Some? then chunk.tokens.value else completionTokens;
      decodeRate := if chunk.rate.Some? then chunk.rate else decodeRate;
    }
    assert upstream[..|upstream|] == upstream;
    if broken {
      frames := frames + [Error];
      if |frames| == wanted {
        return;
      }
      frames := frames + [Done("error", completionTokens, decodeRate, false)];
    } else {
      var finishReason := if rawFinish == Some("length") then "length" else "stop";
      frames := frames + [Done(finishReason, completionTokens, decodeRate, finishReason == "length")];
    }
  }

  lemma {:induction false} NothingHeard()
    ensures Tokens([]) == [] && Heard([]) == UNSET
  {
  }

  lemma {:induction false} TokensGrow(upstream: seq<Chunk>, i: nat)
    requires i < |upstream|
    ensures Tokens(upstream[..i + 1])
         == Tokens(upstream[..i]) + (if upstream[i].text == "" then [] else [Token(upstream[i].text)])
    ensures Heard(upstream[..i + 1]) == Heard(upstream[..i]).After(upstream[i])
  {
    assert upstream[..i + 1][..i] == upstream[..i];
  }

  lemma {:induction false} TokensArePrefix(upstream: seq<Chunk>, i: nat)
    requires i <= |upstream|
    ensures Tokens(upstream[..i]) <= Tokens(upstream)
    decreases |upstream| - i
  {
    if i == |upstream| {
      assert upstream[..i] == upstream;
    } else {
      TokensGrow(upstream, i);
      TokensArePrefix(upstream, i + 1);
    }
  }
}
