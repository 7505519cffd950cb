/** The page that shows a stream: what each event does to it, and what the reader sees in the end.
    The data of an event are read back as the frame they were made from. */
module Page {
  import opened Text
  import opened Trimming
  import opened Slot
  import opened StreamChat
  import Sse

  /** What a request to the server changes on the page: the text shown for the answer and kept for a
      continuation, the messages to send along, the notice that the context was trimmed, the button
      that continues, the completion record, and whether the request has failed. */
  datatype View = View(
    text: string, lastText: string, retained: seq<Message>, noticeHidden: bool, continueHidden: bool,
    done: Option<Frame>, failed: bool)

  /** Before the request is sent: an empty node, and nothing offered. */
  function Opened(retained: seq<Message>, lastText: string): View {
    View("", lastText, retained, true, true, None, false)
  }

  /** One event, by its name; after an error nothing more is read. */
  function Seen(view: View, name: string, frame: Frame): View {
    if view.failed then view
    else if name == "meta" then
      if frame.Meta? then
        view.(noticeHidden := !frame.request.contextTrimmed, retained := frame.request.messages)
      else view.(noticeHidden := true)
    else if name == "token" then
      var text := view.text + (if frame.Token? then frame.text else "undefined");
      view.(text := text, lastText := text)
    else if name == "error" then view.(failed := true)
    else if name == "done" then view.(done := Some(frame))
    else view
  }

  function SeenAll(view: View, events: seq<Sse.Event>, decode: string -> Frame): View {
    if events == [] then view
    else
      var last := events[|events| - 1];
      Seen(SeenAll(view, events[..|events| - 1], decode), last.name, decode(last.data))
  }

  /** When the stream is over: without a completion record the request has failed. */
  function Concluded(view: View): View {
    if view.failed then view
    else
      match view.done
      case Some(Done(reason, _, _, canContinue)) => view.(continueHidden := !(reason == "length" && canContinue))
      case Some(_) => view.(continueHidden := true)
      case None => view.(failed := true)
  }

  class Page {
    var text: string
    var lastText: string
    var retained: seq<Message>
    var noticeHidden: bool
    var continueHidden: bool
    var done: Option<Frame>

    function Shown(failed: bool): View
      reads this
    {
      View(text, lastText, retained, noticeHidden, continueHidden, done, failed)
    }

    constructor (retained: seq<Message>)
      ensures Shown(false) == Opened(retained, "")
    {
      text, lastText, this.retained, noticeHidden, continueHidden, done := "", "", retained, true, true, None;
    }

    /** The callback of `streamRequest`; `false` when it throws. */
    method OnEvent(name: string, frame: Frame) returns (goesOn: bool)
      modifies this
      ensures Shown(!goesOn) == Seen(old(Shown(false)), name, frame)
    {
      goesOn := true;
      if name == "meta" {
        noticeHidden := !(frame.Meta? && frame.request.contextTrimmed);
        if frame.Meta? {
          retained := frame.request.messages;
        }
      } else if name == "token" {
        text := text + (if frame.Token? then frame.text else "undefined");
        lastText := text;
      } else if name == "error" {
        goesOn := false;
      } else if name == "done" {
        done := Some(frame);
      }
    }

    /** `streamRequest`, for a response that comes in these chunks. */
    method StreamRequest(chunks: seq<string>, decode: string -> Frame) returns (ok: bool)
      modifies this
      ensures Shown(!ok)
           == Concluded(SeenAll(Opened(old(retained), old(lastText)), Sse.Consumed(chunks).events, decode))
    {
      text, noticeHidden, continueHidden, done := "", true, true, None;
      var events, buffer := Sse.ConsumeSse(chunks);
      ghost var start := Shown(false);
      assert events == Sse.Consumed(chunks).events;
      for i := 0 to |events|
        invariant Shown(false) == SeenAll(start, events[..i], decode) && !SeenAll(start, events[..i], decode).failed
      {
        assert events[..i + 1][..i] == events[..i];
        var goesOn := OnEvent(events[i].name, decode(events[i].data));
        if !goesOn {
          NothingMoreIsSeen(start, events, i + 1, decode);
          return false;
        }
      }
      assert events[..|events|] == events;
      if done.None? {
        return false;
      }
      continueHidden := !(done.value.Done? && done.value.finishReason == "length" && done.value.canContinue);
      return true;
    }
  }

  lemma {:induction false} NothingMoreIsSeen(view: View, events: seq<Sse.Event>, n: nat, decode: string -> Frame)
    requires n <= |events| && SeenAll(view, events[..n], decode).failed
    ensures SeenAll(view, events, decode) == SeenAll(view, events[..n], decode)
    decreases |events|
  {
    if n < |events| {
      var front := events[..|events| - 1];
      assert front[..n] == events[..n];
      NothingMoreIsSeen(view, front, n, decode);
    } else {
      assert events[..n] == events;
    }
  }

  // ----- what the reader sees ------------------------------------------------------------------

  function SeenFrames(view: View, frames: seq<Frame>): View {
    if frames == [] then view
    else
      var last := frames[|frames| - 1];
      Seen(SeenFrames(view, frames[..|frames| - 1]), NameOf(last), last)
  }

  lemma {:induction false} PrintedIsSeen(view: View, frames: seq<Frame>, encode: Frame -> string, decode: string -> Frame)
    requires forall frame :: decode(encode(frame)) == frame
    ensures SeenAll(view, Printed(frames, encode), decode) == SeenFrames(view, frames)
  {
    if frames != [] {
      var front := frames[..|frames| - 1];
      PrintedIsSeen(view, front, encode, decode);
      assert Printed(frames, encode)[..|frames| - 1] == Printed(front, encode);
    }
  }

  lemma {:induction false} SeenInTurn(view: View, a: seq<Frame>, b: seq<Frame>)
    ensures SeenFrames(view, a + b) == SeenFrames(SeenFrames(view, a), b)
  {
    if b == [] {
      assert a + b == a;
    } else {
      assert (a + b)[..|a + b| - 1] == a + b[..|b| - 1];
      SeenInTurn(view, a, b[..|b| - 1]);
    }
  }

  lemma {:induction false} TokensAreShown(view: View, received: seq<Chunk>)
    requires !view.failed && view.text == ""
    ensures SeenFrames(view, Tokens(received))
         == view.(text := TextOfChunks(received), lastText := if TextOfChunks(received) == "" then view.lastText
                                                             else TextOfChunks(received))
  {
    if received != [] {
      var front, last := received[..|received| - 1], received[|received| - 1];
      TokensAreShown(view, front);
      if last.text == "" {
        assert Tokens(front) + [] == Tokens(front);
        assert TextOfChunks(front) + "" == TextOfChunks(front);
      } else {
        SeenInTurn(view, Tokens(front), [Token(last.text)]);
        assert [Token(last.text)][..0] == [];
      }
    }
  }

  /** From the model runtime to the reader. Whatever the runtime delivers, however the text is cut on
      its way: the page shows the texts put together and keeps them and the retained messages for a
      continuation; it tells whether the context was trimmed; it fails exactly when the runtime broke;
      and it offers to continue exactly when the answer was cut off at its limit. */
  lemma {:induction false} PageShowsTheAnswer(
      request: GenerationRequest, received: seq<Chunk>, broken: bool, encode: Frame -> string,
      decode: string -> Frame, chunks: seq<string>, retained: seq<Message>, lastText: string)
    requires forall frame :: Sse.OneLine(encode(frame)) && decode(encode(frame)) == frame
    requires Sse.Concat(chunks) == Sse.Stream(Printed(Whole(request, received, broken), encode))
    ensures var shown := Concluded(SeenAll(Opened(retained, lastText), Sse.Consumed(chunks).events, decode));
      && shown.text == TextOfChunks(received)
      && (shown.text != "" ==> shown.lastText == shown.text)
      && shown.retained == request.messages && shown.noticeHidden == !request.contextTrimmed
      && (shown.failed <==> broken)
      && (!shown.continueHidden <==> !broken && Latest(Finishes(received), Some("length")))
  {
    hide Sse.OneLine, Sse.Stream, Sse.Concat, Sse.Consumed, Tokens, Heard, TextOfChunks, Latest;
    var whole := Whole(request, received, broken);
    var view := Opened(retained, lastText);
    PageSeesTheStream(whole, encode, chunks);
    PrintedIsSeen(view, whole, encode, decode);
    WholeIsSeen(view, request, received, broken);
    LastFramesConclude(received);
  }

  /** The meta frame, the tokens, and then the ending. */
  lemma {:induction false} WholeIsSeen(view: View, request: GenerationRequest, received: seq<Chunk>, broken: bool)
    requires !view.failed && view.text == ""
    ensures var text := TextOfChunks(received);
      var read := view.(noticeHidden := !request.contextTrimmed, retained := request.messages, text := text,
                        lastText := if text == "" then view.lastText else text);
      SeenFrames(view, Whole(request, received, broken))
      == if broken then read.(failed := true) else read.(done := Some(Heard(received).DoneFrame()))
  {
    hide Tokens, Heard, TextOfChunks;
    var started := view.(noticeHidden := !request.contextTrimmed, retained := request.messages);
    var locals := Heard(received);
    var tail := if broken then [Error, locals.ErrorDoneFrame()] else [locals.DoneFrame()];
    SeenOne(view, Meta(request));
    TokensAreShown(started, received);
    SeenInTurn(view, [Meta(request)], Tokens(received));
    SeenInTurn(view, [Meta(request)] + Tokens(received), tail);
    var read := SeenFrames(started, Tokens(received));
    if broken {
      assert tail == [Error] + [locals.ErrorDoneFrame()];
      SeenOne(read, Error);
      SeenInTurn(read, [Error], [locals.ErrorDoneFrame()]);
      SeenOne(read.(failed := true), locals.ErrorDoneFrame());
    } else {
      SeenOne(read, locals.DoneFrame());
    }
  }

  lemma {:induction false} SeenOne(view: View, frame: Frame)
    ensures SeenFrames(view, [frame]) == Seen(view, NameOf(frame), frame)
  {
    assert [frame][..0] == [];
  }

  /** A stream that is cut off before its last frame, at a frame or within one, is never taken for a
      complete answer. */
  lemma {:induction false} TruncatedAnswerFails(
      frames: seq<Frame>, request: GenerationRequest, received: seq<Chunk>, encode: Frame -> string,
      decode: string -> Frame, rest: string, chunks: seq<string>, retained: seq<Message>, lastText: string)
    requires forall frame :: Sse.OneLine(encode(frame)) && decode(encode(frame)) == frame
    requires frames < Whole(request, received, false)
    requires '\r' !in rest && Sse.Boundary(rest).None?
    requires Sse.Concat(chunks) == Sse.Stream(Printed(frames, encode)) + rest
    ensures Concluded(SeenAll(Opened(retained, lastText), Sse.Consumed(chunks).events, decode)).failed
  {
    hide Sse.OneLine, Sse.Stream, Sse.Concat, Sse.Consumed, Sse.Boundary, Tokens, Heard;
    var view := Opened(retained, lastText);
    PrintedIsPrintable(frames, encode);
    Sse.TruncatedStream(Printed(frames, encode), rest, chunks);
    PrintedIsSeen(view, frames, encode, decode);
    var whole := Whole(request, received, false);
    TokensCarryTheText(received);
    assert forall i | 0 <= i < |frames| :: frames[i] == whole[i];
    NoneDone(view, frames);
  }

  lemma {:induction false} PrintedIsPrintable(frames: seq<Frame>, encode: Frame -> string)
    requires forall frame :: Sse.OneLine(encode(frame))
    ensures Sse.Printable(Printed(frames, encode))
  {
    hide Sse.OneLine, NameOf;
    forall i | 0 <= i < |frames|
      ensures Sse.OneLine(NameOf(frames[i]))
    {
      NamesAreOneLine(frames[i]);
    }
  }

  lemma {:induction false} NoneDone(view: View, frames: seq<Frame>)
    requires view.done.None? && forall i | 0 <= i < |frames| :: !frames[i].Done?
    ensures SeenFrames(view, frames).done.None?
  {
    if frames != [] {
      NoneDone(view, frames[..|frames| - 1]);
    }
  }
}
