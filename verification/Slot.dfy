/** The single generation slot of the streaming server: requests run side by side, the lock passes
    from the request handler into the stream it hands over, and every way out of the stream gives
    it back. A stream that was handed over is assumed to be started. */
module Slot {
  import opened Text
  import opened Trimming
  import opened Requests
  import Sse

  /** What one upstream chunk says. */
  datatype Chunk = Chunk(text: string, finish: Option<string>, tokens: Option<int>, rate: Option<real>)

  datatype Upstream = Next(chunk: Chunk) | End | Broken

  /** What the stream sends down. */
  datatype Frame =
    | Meta(request: GenerationRequest)
    | Token(text: string)
    | Done(finishReason: string, completionTokens: int, decodeRate: Option<real>, canContinue: bool)
    | Error

  /** The stream's local variables. */
  datatype Locals = Locals(rawFinish: Option<string>, completionTokens: int, decodeRate: Option<real>)
  {
    function After(chunk: Chunk): Locals {
      Locals(
        if chunk.finish.Some? then chunk.finish else rawFinish,
        if chunk.tokens.Some? then chunk.tokens.value else completionTokens,
        if chunk.rate.Some? then chunk.rate else decodeRate)
    }

    function DoneFrame(): Frame {
      var reason := if rawFinish == Some("length") then "length" else "stop";
      Done(reason, completionTokens, decodeRate, reason == "length")
    }

    function ErrorDoneFrame(): Frame {
      Done("error", completionTokens, decodeRate, false)
    }
  }

  const UNSET := Locals(None, 0, None)

  /** The yield a suspended stream waits at. */
  datatype Yield = AtMeta | AtToken(chunk: Chunk) | AtDone | AtError | AtLastDone

  datatype Stage =
    | Arrived
    | Admitted
    | Preparing
    | Handed(request: GenerationRequest)
    | Running(locals: Locals)
    | Suspended(at: Yield, locals: Locals)
    | Answered(status: int)
    | Ended(closed: bool)

  /** How upstream has come to an end, if it has. */
  datatype Ending = StillOpen | Finished | BrokenOff

  /** A request, with what it has sent, what it has received, how that ended, and how often it took
      and gave back the lock. */
  datatype Request = Request(
    chat: Chat, stage: Stage, frames: seq<Frame>, received: seq<Chunk>, ending: Ending,
    acquired: nat, released: nat)

  datatype State = State(lock: Option<nat>, requests: map<nat, Request>)

  datatype Choice =
    | Arrive(chat: Chat)
    | Probe(ready: bool)
    | Acquire
    | Prepare(counter: Counter)
    | Start
    | Resume
    | Pull(upstream: Upstream)
    | Close

  /** The status that answers an error: 422 for a text that is too long, 503 when the runtime cannot
      be asked, 500 for what the handler does not expect, and 400 for every other refusal. */
  function Status(error: RequestError): (status: int)
    ensures status == 422 <==> error.MessageTooLarge?
    ensures status == 503 <==> error.RuntimeUnavailable?
    ensures status == 500 <==> error.UnhashableRole?
    ensures status in {400, 422, 500, 503}
  {
    match error
    case MessageTooLarge(_) => 422
    case RuntimeUnavailable => 503
    case UnhashableRole(_) => 500
    case _ => 400
  }

  function With(s: State, r: nat, request: Request): State {
    s.(requests := s.requests[r := request])
  }

  /** Giving the lock back, whoever holds it. */
  function Releasing(s: State, r: nat, request: Request): State {
    State(None, s.requests[r := request.(released := request.released + 1)])
  }

  function Sending(q: Request, frame: Frame, at: Yield, locals: Locals): Request {
    q.(frames := q.frames + [frame], stage := Suspended(at, locals))
  }

  function Resumed(s: State, r: nat, q: Request): State
    requires q.stage.Suspended?
  {
    var locals := q.stage.locals;
    match q.stage.at
    case AtMeta => With(s, r, q.(stage := Running(locals)))
    case AtToken(chunk) => With(s, r, q.(stage := Running(locals.After(chunk))))
    case AtError => With(s, r, Sending(q, locals.ErrorDoneFrame(), AtLastDone, locals))
    case AtDone => Releasing(s, r, q.(stage := Ended(false)))
    case AtLastDone => Releasing(s, r, q.(stage := Ended(false)))
  }

  function Pulled(q: Request, upstream: Upstream): Request
    requires q.stage.Running?
  {
    var locals := q.stage.locals;
    match upstream
    case Next(chunk) =>
      var heard := q.(received := q.received + [chunk]);
      if chunk.text == "" then heard.(stage := Running(locals.After(chunk)))
      else Sending(heard, Token(chunk.text), AtToken(chunk), locals)
    case End => Sending(q.(ending := Finished), locals.DoneFrame(), AtDone, locals)
    case Broken => Sending(q.(ending := BrokenOff), Error, AtError, locals)
  }

  /** One step of request `r`; `None` when it cannot take that step now. */
  function Step(settings: Settings, s: State, r: nat, choice: Choice): Option<State> {
    if choice.Arrive? then
      if r in s.requests then None
      else Some(With(s, r, Request(choice.chat, Arrived, [], [], StillOpen, 0, 0)))
    else if r !in s.requests then None
    else
      var q := s.requests[r];
      match (q.stage, choice)
      case (Arrived, Probe(ready)) =>
        Some(With(s, r, q.(stage := if ready then Admitted else Answered(503))))
      case (Admitted, Acquire) =>
        if s.lock.Some? then Some(With(s, r, q.(stage := Answered(429))))
        else Some(With(s, r, q.(stage := Preparing, acquired := q.acquired + 1)).(lock := Some(r)))
      case (Preparing, Prepare(counter)) =>
        (match Prepared(q.chat, settings, counter)
         case Success(request) => Some(With(s, r, q.(stage := Handed(request))))
         case Failure(error) => Some(Releasing(s, r, q.(stage := Answered(Status(error))))))
      case (Handed(request), Start) => Some(With(s, r, Sending(q, Meta(request), AtMeta, UNSET)))
      case (Suspended(_, _), Resume) => Some(Resumed(s, r, q))
      case (Suspended(_, _), Close) => Some(Releasing(s, r, q.(stage := Ended(true))))
      case (Running(_), Pull(upstream)) => Some(With(s, r, Pulled(q, upstream)))
      case _ => None
  }

  ghost predicate StepOf(settings: Settings, s: State, t: State) {
    exists r, choice :: Step(settings, s, r, choice) == Some(t)
  }

  /** A finite run from the empty server. */
  ghost predicate Run(settings: Settings, run: seq<State>) {
    && run != [] && run[0] == State(None, map[])
    && forall i | 0 < i < |run| :: StepOf(settings, run[i - 1], run[i])
  }

  // The invariant

  predicate Holding(stage: Stage) {
    stage.Preparing? || stage.Handed? || stage.Running? || stage.Suspended?
  }

  function Tokens(received: seq<Chunk>): seq<Frame> {
    if received == [] then []
    else
      var last := received[|received| - 1];
      Tokens(received[..|received| - 1]) + (if last.text == "" then [] else [Token(last.text)])
  }

  function Heard(received: seq<Chunk>): Locals {
    if received == [] then UNSET
    else Heard(received[..|received| - 1]).After(received[|received| - 1])
  }

  /** The meta frame, a token frame for every text received, and then `tail`. */
  predicate Sent(q: Request, tail: seq<Frame>) {
    q.frames != [] && q.frames[0].Meta? && q.frames[1..] == Tokens(q.received) + tail
  }

  predicate SentAll(q: Request) {
    match q.ending
    case StillOpen => false
    case Finished => Sent(q, [Heard(q.received).DoneFrame()])
    case BrokenOff => Sent(q, [Error, Heard(q.received).ErrorDoneFrame()])
  }

  predicate SentSome(q: Request) {
    (q.ending.StillOpen? && Sent(q, [])) || (q.ending.BrokenOff? && Sent(q, [Error])) || SentAll(q)
  }

  predicate SuspendedSoundly(q: Request, at: Yield, locals: Locals) {
    match at
    case AtMeta => q.ending.StillOpen? && q.received == [] && Sent(q, []) && locals == UNSET
    case AtToken(chunk) =>
      && q.ending.StillOpen? && q.received != [] && q.received[|q.received| - 1] == chunk
      && Sent(q, []) && locals == Heard(q.received[..|q.received| - 1])
    case AtDone => q.ending.Finished? && Sent(q, [locals.DoneFrame()]) && locals == Heard(q.received)
    case AtError => q.ending.BrokenOff? && Sent(q, [Error]) && locals == Heard(q.received)
    case AtLastDone =>
      q.ending.BrokenOff? && Sent(q, [Error, locals.ErrorDoneFrame()]) && locals == Heard(q.received)
  }

  predicate Idle(q: Request) {
    q.frames == [] && q.received == [] && q.ending.StillOpen?
  }

  predicate Sound(q: Request) {
    && q.acquired == q.released + (if Holding(q.stage) then 1 else 0)
    && q.acquired <= 1
    && match q.stage
       case Running(locals) => q.ending.StillOpen? && Sent(q, []) && locals == Heard(q.received)
       case Suspended(at, locals) => SuspendedSoundly(q, at, locals)
       case Ended(closed) => q.acquired == 1 && SentSome(q) && (closed || SentAll(q))
       case Arrived => q.acquired == 0 && Idle(q)
       case Admitted => q.acquired == 0 && Idle(q)
       case _ => Idle(q)
  }

  predicate Inv(s: State) {
    && (forall r | r in s.requests :: Sound(s.requests[r]))
    && (forall r | r in s.requests :: Holding(s.requests[r].stage) <==> s.lock == Some(r))
    && (s.lock.Some? ==> s.lock.value in s.requests)
  }

  lemma {:induction false} SentMore(q: Request, tail: seq<Frame>, frame: Frame, at: Yield, locals: Locals)
    requires Sent(q, tail)
    ensures Sent(Sending(q, frame, at, locals), tail + [frame])
  {
  }

  lemma {:induction false} PulledIsSound(q: Request, upstream: Upstream)
    requires Sound(q) && q.stage.Running?
    ensures Sound(Pulled(q, upstream)) && Holding(Pulled(q, upstream).stage)
  {
    if upstream.Next? {
      var received := q.received + [upstream.chunk];
      assert received[..|received| - 1] == q.received;
    }
  }

  /** What a request receives is what upstream hands over, and it ends as upstream ends. */
  lemma {:induction false} PullsAreRecorded(settings: Settings, s: State, r: nat, upstream: Upstream, t: State)
    requires Inv(s) && Step(settings, s, r, Pull(upstream)) == Some(t)
    ensures r in s.requests && r in t.requests && s.requests[r].ending.StillOpen?
    ensures t.requests[r].ending
         == match upstream case Next(_) => StillOpen case End => Finished case Broken => BrokenOff
    ensures t.requests[r].received
         == s.requests[r].received + (if upstream.Next? then [upstream.chunk] else [])
    ensures upstream.Broken? ==> t.requests[r].frames == s.requests[r].frames + [Error]
  {
    assert Sound(s.requests[r]);
  }

  lemma {:induction false} ResumedIsSound(s: State, r: nat, q: Request)
    requires Sound(q) && q.stage.Suspended?
    ensures Sound(Resumed(s, r, q).requests[r])
    ensures Resumed(s, r, q).requests == s.requests[r := Resumed(s, r, q).requests[r]]
    ensures Holding(Resumed(s, r, q).requests[r].stage) ==> Resumed(s, r, q).lock == s.lock
    ensures !Holding(Resumed(s, r, q).requests[r].stage) ==> Resumed(s, r, q).lock == None
  {
    assert Heard([]) == UNSET;
    hide Tokens, Heard;
    if q.stage.at.AtError? {
      var locals := q.stage.locals;
      SentMore(q, [Error], locals.ErrorDoneFrame(), AtLastDone, locals);
      assert [Error] + [locals.ErrorDoneFrame()] == [Error, locals.ErrorDoneFrame()];
    } else if q.stage.at.AtToken? {
      LastHeard(q.received);
    }
  }

  lemma {:induction false} LastHeard(received: seq<Chunk>)
    requires received != []
    ensures Heard(received) == Heard(received[..|received| - 1]).After(received[|received| - 1])
  {
  }

  lemma {:induction false} LockOf(s: State, r: nat)
    requires Inv(s)
    ensures s.lock == Some(r) <==> r in s.requests && Holding(s.requests[r].stage)
    ensures r in s.requests ==> Sound(s.requests[r])
  {
    hide Sound;
  }

  /** A step moves its own request soundly, and the lock with it. */
  lemma {:induction false} StepMovesRequest(settings: Settings, s: State, r: nat, choice: Choice, t: State)
    requires Inv(s) && Step(settings, s, r, choice) == Some(t)
    ensures r in t.requests && t.requests == s.requests[r := t.requests[r]] && Sound(t.requests[r])
    ensures Holding(t.requests[r].stage) ==> t.lock == Some(r) && (s.lock == Some(r) || s.lock == None)
    ensures !Holding(t.requests[r].stage) ==> t.lock == if s.lock == Some(r) then None else s.lock
  {
    hide Inv, Prepared, Sent, SentAll, SentSome, Resumed, Pulled;
    LockOf(s, r);
    if r in s.requests {
      var q := s.requests[r];
      if q.stage.Running? && choice.Pull? {
        PulledIsSound(q, choice.upstream);
      } else if q.stage.Suspended? && choice.Resume? {
        ResumedIsSound(s, r, q);
      } else if q.stage.Suspended? && choice.Close? {
        ClosedIsSound(q);
      } else if q.stage.Handed? && choice.Start? {
        StartedIsSound(q);
      }
    }
  }

  /** Every step keeps the invariant. */
  lemma {:induction false} StepKeepsInv(settings: Settings, s: State, r: nat, choice: Choice, t: State)
    requires Inv(s) && Step(settings, s, r, choice) == Some(t)
    ensures Inv(t)
  {
    hide Inv, Step, Sound;
    StepMovesRequest(settings, s, r, choice, t);
    RequestMoves(s, r, t.requests[r], t.lock);
  }

  /** One request moves on, and the lock with it. */
  lemma {:induction false} RequestMoves(s: State, r: nat, q: Request, lock: Option<nat>)
    requires Inv(s) && Sound(q)
    requires Holding(q.stage) ==> lock == Some(r) && (s.lock == Some(r) || s.lock == None)
    requires !Holding(q.stage) ==> lock == if s.lock == Some(r) then None else s.lock
    ensures Inv(State(lock, s.requests[r := q]))
  {
    hide Sound;
  }

  lemma {:induction false} ClosedIsSound(q: Request)
    requires Sound(q) && q.stage.Suspended?
    ensures Sound(q.(stage := Ended(true), released := q.released + 1))
  {
  }

  lemma {:induction false} StartedIsSound(q: Request)
    requires Sound(q) && q.stage.Handed?
    ensures Sound(Sending(q, Meta(q.stage.request), AtMeta, UNSET))
  {
  }

  lemma {:induction false} RunKeepsInv(settings: Settings, run: seq<State>, i: nat)
    requires Run(settings, run) && i < |run|
    ensures Inv(run[i])
  {
    hide Inv, Step;
    if i == 0 {
      EmptyServer();
    } else {
      RunKeepsInv(settings, run, i - 1);
      var r, choice :| Step(settings, run[i - 1], r, choice) == Some(run[i]);
      StepKeepsInv(settings, run[i - 1], r, choice, run[i]);
    }
  }

  lemma {:induction false} EmptyServer()
    ensures Inv(State(None, map[]))
  {
  }

  // Where the meta frame comes from

  /** `request` is what the work under the lock made of the chat, for some answers of the counter. */
  ghost predicate Origin(settings: Settings, chat: Chat, request: GenerationRequest) {
    exists counter :: Prepared(chat, settings, counter) == Success(request)
  }

  ghost predicate OpensWithItsRequest(settings: Settings, q: Request) {
    && (q.stage.Handed? ==> Origin(settings, q.chat, q.stage.request))
    && (q.stage.Running? || q.stage.Suspended? ==> q.frames != [])
    && (q.frames != [] ==> q.frames[0].Meta? && Origin(settings, q.chat, q.frames[0].request))
  }

  lemma {:induction false} StepKeepsOpening(settings: Settings, s: State, r: nat, choice: Choice, t: State, q: nat)
    requires Step(settings, s, r, choice) == Some(t)
    requires q in s.requests ==> OpensWithItsRequest(settings, s.requests[q])
    requires q in s.requests && s.requests[q].stage.Handed? ==> s.requests[q].frames == []
    requires q in t.requests
    ensures OpensWithItsRequest(settings, t.requests[q])
    ensures q in s.requests ==> t.requests[q].chat == s.requests[q].chat
  {
    hide Prepared;
    if q == r && r in s.requests && choice.Prepare? && t.requests[r].stage.Handed? {
      assert Prepared(s.requests[r].chat, settings, choice.counter) == Success(t.requests[r].stage.request);
    }
  }

  /** Whatever a request has sent opens with the meta frame of its own chat. */
  lemma {:induction false} RunKeepsOpening(settings: Settings, run: seq<State>, i: nat, q: nat)
    requires Run(settings, run) && i < |run| && q in run[i].requests
    ensures OpensWithItsRequest(settings, run[i].requests[q])
  {
    hide OpensWithItsRequest, Step, Inv;
    if i > 0 {
      var r, choice :| Step(settings, run[i - 1], r, choice) == Some(run[i]);
      RunKeepsInv(settings, run, i - 1);
      if q in run[i - 1].requests {
        RunKeepsOpening(settings, run, i - 1, q);
        if run[i - 1].requests[q].stage.Handed? {
          HandedHasSentNothing(run[i - 1], q);
        }
      }
      StepKeepsOpening(settings, run[i - 1], r, choice, run[i], q);
    }
  }

  lemma {:induction false} HandedHasSentNothing(s: State, q: nat)
    requires Inv(s) && q in s.requests && s.requests[q].stage.Handed?
    ensures s.requests[q].frames == []
  {
  }

  // What holds of every run

  /** At most one request generates at a time, and the lock is free when none does. */
  lemma {:induction false} OneHolder(settings: Settings, run: seq<State>, i: nat, a: nat, b: nat)
    requires Run(settings, run) && i < |run|
    requires a in run[i].requests && Holding(run[i].requests[a].stage)
    requires b in run[i].requests && Holding(run[i].requests[b].stage)
    ensures a == b && run[i].lock == Some(a)
  {
    RunKeepsInv(settings, run, i);
  }

  /** The lock is held exactly while some request is between taking it and giving it back. */
  lemma {:induction false} LockIsFreeWhenIdle(settings: Settings, run: seq<State>, i: nat)
    requires Run(settings, run) && i < |run|
    ensures run[i].lock.None?
       <==> forall r | r in run[i].requests :: !Holding(run[i].requests[r].stage)
  {
    RunKeepsInv(settings, run, i);
    if run[i].lock.Some? {
      assert Holding(run[i].requests[run[i].lock.value].stage);
    }
  }

  /** The lock is only ever given back by the request that holds it, and only ever taken when free. */
  lemma {:induction false} LockChangesHands(settings: Settings, run: seq<State>, i: nat, r: nat)
    requires Run(settings, run) && 0 < i < |run|
    requires r in run[i - 1].requests
    ensures r in run[i].requests
    ensures run[i].requests[r].released > run[i - 1].requests[r].released ==> run[i - 1].lock == Some(r)
    ensures run[i].requests[r].acquired > run[i - 1].requests[r].acquired ==> run[i - 1].lock == None
    ensures run[i - 1].lock == Some(r) ==>
              (run[i].lock == Some(r) <==> run[i].requests[r].released == run[i - 1].requests[r].released)
  {
    hide Prepared, Sound, Inv;
    RunKeepsInv(settings, run, i - 1);
    HolderHasTheLock(run[i - 1], r);
    var who, choice :| Step(settings, run[i - 1], who, choice) == Some(run[i]);
    if run[i - 1].lock == Some(r) && who != r && who in run[i - 1].requests {
      HolderHasTheLock(run[i - 1], who);
    }
  }

  lemma {:induction false} HolderHasTheLock(s: State, r: nat)
    requires Inv(s) && r in s.requests
    ensures Holding(s.requests[r].stage) <==> s.lock == Some(r)
  {
  }

  /** A request that is over has given the lock back as often as it took it: once, or never when it
      was refused before. */
  lemma {:induction false} ReleasedExactlyOnce(settings: Settings, run: seq<State>, i: nat, r: nat)
    requires Run(settings, run) && i < |run| && r in run[i].requests
    ensures run[i].requests[r].acquired <= 1
    ensures !Holding(run[i].requests[r].stage) ==> run[i].requests[r].released == run[i].requests[r].acquired
    ensures run[i].requests[r].stage.Ended? ==> run[i].requests[r].released == 1
  {
    RunKeepsInv(settings, run, i);
  }

  function TextOfFrames(frames: seq<Frame>): string {
    if frames == [] then ""
    else
      var last := frames[|frames| - 1];
      TextOfFrames(frames[..|frames| - 1]) + (if last.Token? then last.text else "")
  }

  function TextOfChunks(received: seq<Chunk>): string {
    if received == [] then "" else TextOfChunks(received[..|received| - 1]) + received[|received| - 1].text
  }

  lemma {:induction false} TextOfTwo(a: seq<Frame>, b: seq<Frame>)
    ensures TextOfFrames(a + b) == TextOfFrames(a) + TextOfFrames(b)
  {
    if b == [] {
      assert a + b == a;
    } else {
      assert (a + b)[..|a + b| - 1] == a + b[..|b| - 1];
      TextOfTwo(a, b[..|b| - 1]);
    }
  }

  lemma {:induction false} TokensCarryTheText(received: seq<Chunk>)
    ensures TextOfFrames(Tokens(received)) == TextOfChunks(received)
    ensures forall i | 0 <= i < |Tokens(received)| :: Tokens(received)[i].Token?
  {
    if received != [] {
      var front, last := received[..|received| - 1], received[|received| - 1];
      TokensCarryTheText(front);
      var more := if last.text == "" then [] else [Token(last.text)];
      assert Tokens(received) == Tokens(front) + more;
      TextOfTwo(Tokens(front), more);
      assert TextOfFrames(more) == last.text by {
        if last.text != "" {
          assert more[..0] == [];
        }
      }
    }
  }

  /** `frames` are tokens with the texts of the chunks received, in order, one for each chunk that
      has a text; `at` says which. */
  ghost predicate TextsAt(frames: seq<Frame>, received: seq<Chunk>, at: seq<nat>) {
    && |at| == |frames|
    && (forall k | 0 <= k < |at| ::
          && at[k] < |received| && received[at[k]].text != ""
          && frames[k] == Token(received[at[k]].text))
    && (forall j, k | 0 <= j < k < |at| :: at[j] < at[k])
    && (forall i: nat | i < |received| && received[i].text != "" :: i in at)
  }

  ghost predicate AreTheTexts(frames: seq<Frame>, received: seq<Chunk>) {
    exists at :: TextsAt(frames, received, at)
  }

  lemma {:induction false} TextAdded(frames: seq<Frame>, received: seq<Chunk>, at: seq<nat>, chunk: Chunk)
    requires TextsAt(frames, received, at)
    ensures chunk.text != "" ==> TextsAt(frames + [Token(chunk.text)], received + [chunk], at + [|received|])
    ensures chunk.text == "" ==> TextsAt(frames, received + [chunk], at)
  {
    var longer, more := received + [chunk], at + [|received|];
    assert forall i: nat | i < |received| :: longer[i] == received[i];
    assert forall i: nat | i in at :: i in more;
    assert more[|at|] == |received|;
  }

  lemma {:induction false} TokensAreTheTexts(received: seq<Chunk>)
    ensures AreTheTexts(Tokens(received), received)
  {
    hide TextsAt;
    if received == [] {
      NoTexts();
    } else {
      var front, chunk := received[..|received| - 1], received[|received| - 1];
      TokensAreTheTexts(front);
      var at :| TextsAt(Tokens(front), front, at);
      TextAdded(Tokens(front), front, at, chunk);
      assert received == front + [chunk];
      assert chunk.text == "" ==> Tokens(front) + [] == Tokens(front);
    }
  }

  lemma {:induction false} NoTexts()
    ensures TextsAt([], [], [])
  {
  }

  /** `frames` is a meta frame, then the texts received, then `tail`. */
  ghost predicate Shaped(frames: seq<Frame>, received: seq<Chunk>, tail: seq<Frame>) {
    && |frames| >= 1 + |tail|
    && frames[0].Meta?
    && AreTheTexts(frames[1..|frames| - |tail|], received)
    && frames[|frames| - |tail|..] == tail
  }

  lemma {:induction false} SentIsShaped(q: Request, tail: seq<Frame>)
    requires Sent(q, tail) && forall i | 0 <= i < |tail| :: !tail[i].Token?
    ensures Shaped(q.frames, q.received, tail)
    ensures TextOfFrames(q.frames) == TextOfChunks(q.received)
  {
    hide Tokens, TextOfFrames, TextOfChunks, AreTheTexts;
    var tokens := Tokens(q.received);
    TokensCarryTheText(q.received);
    TokensAreTheTexts(q.received);
    assert q.frames == [q.frames[0]] + (tokens + tail);
    assert q.frames[1..|q.frames| - |tail|] == tokens;
    NoTokensNoText([q.frames[0]]);
    TextOfTwo([q.frames[0]], tokens + tail);
    TextOfTwo(tokens, tail);
    NoTokensNoText(tail);
    assert q.frames[|q.frames| - |tail|..] == tail;
  }

  lemma {:induction false} NoTokensNoText(frames: seq<Frame>)
    requires forall i | 0 <= i < |frames| :: !frames[i].Token?
    ensures TextOfFrames(frames) == ""
  {
    if frames != [] {
      NoTokensNoText(frames[..|frames| - 1]);
    }
  }

  // What the last frame says

  predicate LastAt<T>(reports: seq<Option<T>>, i: nat) {
    i < |reports| && reports[i].Some? && forall j | i < j < |reports| :: reports[j].None?
  }

  /** The last report there is, if any. */
  ghost predicate Latest<T>(reports: seq<Option<T>>, value: Option<T>) {
    if value.None? then forall i | 0 <= i < |reports| :: reports[i].None?
    else exists i: nat :: LastAt(reports, i) && reports[i] == value
  }

  function Finishes(received: seq<Chunk>): seq<Option<string>> {
    seq(|received|, i requires 0 <= i < |received| => received[i].finish)
  }

  function TokenCounts(received: seq<Chunk>): seq<Option<int>> {
    seq(|received|, i requires 0 <= i < |received| => received[i].tokens)
  }

  function DecodeRates(received: seq<Chunk>): seq<Option<real>> {
    seq(|received|, i requires 0 <= i < |received| => received[i].rate)
  }

  /** What a done frame says of the chunks received. An unbroken stream was cut off at the limit,
      when the last chunk that names a finish reason says so, and can be continued then; otherwise
      it stopped, and cannot. A broken one ends in error. The count and the rate are those of the
      last chunk that reports one. */
  ghost predicate Concludes(frame: Frame, received: seq<Chunk>, broken: bool) {
    var cutOff := Latest(Finishes(received), Some("length"));
    && frame.Done?
    && frame.finishReason == (if broken then "error" else if cutOff then "length" else "stop")
    && (frame.canContinue <==> !broken && cutOff)
    && (|| Latest(TokenCounts(received), Some(frame.completionTokens))
        || (Latest(TokenCounts(received), None) && frame.completionTokens == 0))
    && Latest(DecodeRates(received), frame.decodeRate)
  }

  lemma {:induction false} LatestOfLonger<T>(front: seq<Option<T>>, last: Option<T>, value: Option<T>)
    requires Latest(front, value)
    ensures Latest(front + [last], if last.Some? then last else value)
  {
    var reports := front + [last];
    if last.Some? {
      assert LastAt(reports, |front|);
    } else if value.Some? {
      var i: nat :| LastAt(front, i) && front[i] == value;
      assert LastAt(reports, i);
    }
  }

  lemma {:induction false} LatestIsOne<T>(reports: seq<Option<T>>, value: Option<T>, other: Option<T>)
    requires Latest(reports, value) && Latest(reports, other)
    ensures value == other
  {
    if value.Some? && other.Some? {
      var i: nat :| LastAt(reports, i) && reports[i] == value;
      var j: nat :| LastAt(reports, j) && reports[j] == other;
      assert i == j;
    }
  }

  lemma {:induction false} HeardLatest(received: seq<Chunk>)
    ensures Latest(Finishes(received), Heard(received).rawFinish)
    ensures Latest(DecodeRates(received), Heard(received).decodeRate)
    ensures || Latest(TokenCounts(received), Some(Heard(received).completionTokens))
            || (Latest(TokenCounts(received), None) && Heard(received).completionTokens == 0)
  {
    if received != [] {
      var front, last := received[..|received| - 1], received[|received| - 1];
      HeardLatest(front);
      ReportsGrow(received);
      hide Latest;
      var before := Heard(front);
      LatestOfLonger(Finishes(front), last.finish, before.rawFinish);
      LatestOfLonger(DecodeRates(front), last.rate, before.decodeRate);
      if Latest(TokenCounts(front), None) && before.completionTokens == 0 {
        LatestOfLonger(TokenCounts(front), last.tokens, None);
      } else {
        LatestOfLonger(TokenCounts(front), last.tokens, Some(before.completionTokens));
      }
    }
  }

  lemma {:induction false} ReportsGrow(received: seq<Chunk>)
    requires received != []
    ensures var front, last := received[..|received| - 1], received[|received| - 1];
      && Finishes(received) == Finishes(front) + [last.finish]
      && TokenCounts(received) == TokenCounts(front) + [last.tokens]
      && DecodeRates(received) == DecodeRates(front) + [last.rate]
  {
  }

  lemma {:induction false} LastFramesConclude(received: seq<Chunk>)
    ensures Concludes(Heard(received).DoneFrame(), received, false)
    ensures Concludes(Heard(received).ErrorDoneFrame(), received, true)
  {
    hide Heard, Latest;
    HeardLatest(received);
    var finish := Heard(received).rawFinish;
    if Latest(Finishes(received), Some("length")) {
      LatestIsOne(Finishes(received), finish, Some("length"));
    }
  }

  /** A stream that ran to its end sent meta, tokens and done, or, when upstream broke off, meta,
      tokens, error and done. Meta carries the request prepared for its chat, the tokens are the
      texts received, in order, and done says what the chunks received say. */
  lemma {:induction false} CompletedStream(settings: Settings, run: seq<State>, i: nat, r: nat)
    requires Run(settings, run) && i < |run| && r in run[i].requests
    requires run[i].requests[r].stage == Ended(false)
    ensures var q := run[i].requests[r];
      && !q.ending.StillOpen? && |q.frames| >= 2
      && q.frames[0].Meta? && Origin(settings, q.chat, q.frames[0].request)
      && TextOfFrames(q.frames) == TextOfChunks(q.received)
      && var done := q.frames[|q.frames| - 1];
         && Concludes(done, q.received, q.ending.BrokenOff?)
         && Shaped(q.frames, q.received, if q.ending.BrokenOff? then [Error, done] else [done])
  {
    hide Run, Sound, Origin, Shaped;
    RunKeepsInv(settings, run, i);
    RunKeepsOpening(settings, run, i, r);
    EndedIsShaped(run[i].requests[r]);
  }

  lemma {:induction false} EndedIsShaped(q: Request)
    requires Sound(q) && q.stage == Ended(false)
    ensures !q.ending.StillOpen? && |q.frames| >= 2 && q.frames[0].Meta?
    ensures var done := q.frames[|q.frames| - 1];
      && Concludes(done, q.received, q.ending.BrokenOff?)
      && Shaped(q.frames, q.received, if q.ending.BrokenOff? then [Error, done] else [done])
    ensures TextOfFrames(q.frames) == TextOfChunks(q.received)
  {
    hide Tokens, Heard, Concludes, AreTheTexts, TextOfFrames, TextOfChunks;
    var locals := Heard(q.received);
    LastFramesConclude(q.received);
    if q.ending.Finished? {
      SentIsShaped(q, [locals.DoneFrame()]);
    } else {
      SentIsShaped(q, [Error, locals.ErrorDoneFrame()]);
    }
  }

  /** How the frames of a stream that was closed may end: after some token while upstream was open,
      with the done frame, with the error, or with the done frame after it. */
  ghost predicate BreaksOff(q: Request, tail: seq<Frame>) {
    match q.ending
    case StillOpen => tail == []
    case Finished => |tail| == 1 && Concludes(tail[0], q.received, false)
    case BrokenOff =>
      tail == [Error] || (|tail| == 2 && tail[0] == Error && Concludes(tail[1], q.received, true))
  }

  /** A stream closed early sent a beginning of such a stream and lost none of the text received. */
  lemma {:induction false} ClosedStream(settings: Settings, run: seq<State>, i: nat, r: nat)
    requires Run(settings, run) && i < |run| && r in run[i].requests
    requires run[i].requests[r].stage == Ended(true)
    ensures var q := run[i].requests[r];
      && TextOfFrames(q.frames) == TextOfChunks(q.received)
      && (exists tail :: BreaksOff(q, tail) && Shaped(q.frames, q.received, tail))
      && q.frames != [] && q.frames[0].Meta? && Origin(settings, q.chat, q.frames[0].request)
  {
    hide Run, Sound, BreaksOff, Origin, Shaped;
    RunKeepsInv(settings, run, i);
    RunKeepsOpening(settings, run, i, r);
    ClosedIsShaped(run[i].requests[r]);
  }

  lemma {:induction false} ClosedIsShaped(q: Request)
    requires Sound(q) && q.stage == Ended(true)
    ensures TextOfFrames(q.frames) == TextOfChunks(q.received)
    ensures exists tail :: BreaksOff(q, tail) && Shaped(q.frames, q.received, tail)
    ensures q.frames != [] && q.frames[0].Meta?
  {
    hide Shaped, Concludes, TextOfFrames, TextOfChunks, Tokens, Heard;
    var locals := Heard(q.received);
    LastFramesConclude(q.received);
    if q.ending.StillOpen? {
      SentIsShaped(q, []);
    } else if q.ending.BrokenOff? && Sent(q, [Error]) {
      SentIsShaped(q, [Error]);
    } else if q.ending.Finished? {
      SentIsShaped(q, [locals.DoneFrame()]);
    } else {
      SentIsShaped(q, [Error, locals.ErrorDoneFrame()]);
    }
  }

  // From the slot to the page

  function NameOf(frame: Frame): string {
    match frame
    case Meta(_) => "meta"
    case Token(_) => "token"
    case Done(_, _, _, _) => "done"
    case Error => "error"
  }

  function Printed(frames: seq<Frame>, encode: Frame -> string): seq<Sse.Event> {
    seq(|frames|, i requires 0 <= i < |frames| => Sse.Event(NameOf(frames[i]), encode(frames[i])))
  }

  lemma {:induction false} NamesAreOneLine(frame: Frame)
    ensures Sse.OneLine(NameOf(frame))
  {
  }

  /** The page sees the frames the stream sent, however the text is cut on its way, for every
      encoding of a frame's data as one line. */
  lemma {:induction false} PageSeesTheStream(frames: seq<Frame>, encode: Frame -> string, chunks: seq<string>)
    requires forall frame :: Sse.OneLine(encode(frame))
    requires Sse.Concat(chunks) == Sse.Stream(Printed(frames, encode))
    ensures Sse.Consumed(chunks) == Sse.Reading(Printed(frames, encode), "")
  {
    hide NameOf, Sse.OneLine, Sse.Stream, Sse.Concat, Sse.Consumed;
    forall i | 0 <= i < |frames|
      ensures Sse.OneLine(NameOf(frames[i]))
    {
      NamesAreOneLine(frames[i]);
    }
    assert Sse.Printable(Printed(frames, encode));
    Sse.StreamRoundTrip(Printed(frames, encode), chunks);
  }
}
