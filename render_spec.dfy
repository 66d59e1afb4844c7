/**
 * The page bookkeeping of the single-page renderer as functions on a value
 * snapshot of its state.  The class in PageRenderer is proved against these
 * functions; the lemmas of FlipRuns compose them into whole page turns.
 */
module RenderSpec {
  import opened PageFlipEngine

  /** Why a frame is being drawn. */
  datatype DrawCommand = MovingFrame | AnimatingFrame | FullPage

  /** The message a frame posts to the main thread when it has been drawn. */
  datatype Message = EndedDrawingFrame(command: DrawCommand)

  /** Everything the bookkeeping reads or writes: the current page number (the
      page held by the first slot), the drawing command, the content of the
      renderer's bitmap and the engine's state. */
  datatype RenderState = RenderState(
    pageNo: int,
    command: DrawCommand,
    bitmap: PageImage,
    engine: EngineView)

  /** The effect of drawing one frame: the new state, the engine calls made, the
      number of pages drawn into the bitmap (each of which also hands a redraw to
      the GL thread's queue) and the message posted. */
  datatype Frame = Frame(after: RenderState, calls: seq<EngineCall>, redraws: nat, posted: Message)

  /** The effect of a call that answers a boolean. */
  datatype Outcome = Outcome(after: RenderState, calls: seq<EngineCall>, result: bool)

  /** Pages are numbered from 0 to maxPages - 1. */
  predicate ValidPage(number: int, maxPages: int) {
    0 <= number < maxPages
  }

  /** The caption drawn under the page number. */
  function CaptionFor(number: int, maxPages: int): (c: Caption)
    ensures c == FirstPageCaption <==> number <= 1
    ensures c == LastPageCaption <==> 1 < number && maxPages <= number
    ensures c == NoCaption <==> 1 < number < maxPages
  {
    if number <= 1 then FirstPageCaption
    else if number >= maxPages then LastPageCaption
    else NoCaption
  }

  /** Pages are numbered from 0, so no page is ever captioned as the last one,
      and page 1 is captioned as the first one just as page 0 is. */
  lemma CaptionsOfPages(number: int, maxPages: int)
    requires ValidPage(number, maxPages)
    ensures CaptionFor(number, maxPages) != LastPageCaption
    ensures CaptionFor(number, maxPages) == FirstPageCaption <==> number <= 1
  {
  }

  /** The stand-in drawing of a page: its number and its caption. */
  function Rendered(number: int, maxPages: int): (img: PageImage)
    ensures img.Drawn? && img.number == number
  {
    Drawn(number, CaptionFor(number, maxPages))
  }

  /** Whether a forward turn is allowed: whether there is a page after this one. */
  function CanFlipForward(pageNo: int, maxPages: int): (b: bool)
    ensures ValidPage(pageNo, maxPages) ==> (b <==> ValidPage(pageNo + 1, maxPages))
    ensures b ==> pageNo + 1 < maxPages
  {
    pageNo < maxPages - 1
  }

  /** Whether a backward turn is allowed; when it is, the current page's texture
      moves to the second slot so that the turn starts with the right content. */
  function CanFlipBackward(s: RenderState, maxPages: int): (o: Outcome)
    ensures ValidPage(s.pageNo, maxPages) ==> (o.result <==> ValidPage(s.pageNo - 1, maxPages))
    ensures o.result <==> 0 < s.pageNo
    ensures o.result ==> o.after == s.(engine := MoveFirstToSecond(s.engine))
                         && o.calls == [SetSecondTextureWithFirst]
    ensures !o.result ==> o.after == s && o.calls == []
  {
    if s.pageNo > 0 then
      Outcome(s.(engine := MoveFirstToSecond(s.engine)), [SetSecondTextureWithFirst], true)
    else
      Outcome(s, [], false)
  }

  /** The number of times `c` occurs in `calls`. */
  function CountCalls(calls: seq<EngineCall>, c: EngineCall): (n: nat)
    ensures n <= |calls|
    ensures n == 0 <==> c !in calls
  {
    if calls == [] then 0
    else (if calls[0] == c then 1 else 0) + CountCalls(calls[1..], c)
  }

  /** Counting distributes over concatenation of call logs. */
  lemma {:induction false} CountCallsAppend(a: seq<EngineCall>, b: seq<EngineCall>, c: EngineCall)
    ensures CountCalls(a + b, c) == CountCalls(a, c) + CountCalls(b, c)
  {
    if a == [] {
      assert a + b == b;
    } else {
      assert (a + b)[1..] == a[1..] + b;
      CountCallsAppend(a[1..], b, c);
    }
  }

  /** The number of frame compositions in `calls`. */
  function Compositions(calls: seq<EngineCall>): nat {
    CountCalls(calls, DrawFlipFrame) + CountCalls(calls, DrawPageFrame)
  }

  lemma CompositionsAppend(a: seq<EngineCall>, b: seq<EngineCall>)
    ensures Compositions(a + b) == Compositions(a) + Compositions(b)
  {
    CountCallsAppend(a, b, DrawFlipFrame);
    CountCallsAppend(a, b, DrawPageFrame);
  }

  /** A texture upload followed by a flip frame composes exactly once. */
  lemma UploadThenFlipFrame(upload: EngineCall)
    requires upload.SetFirstTexture? || upload.SetSecondTexture?
    ensures Compositions([DeleteUnusedTextures, upload, DrawFlipFrame]) == 1
  {
    assert [DeleteUnusedTextures, upload, DrawFlipFrame] == [DeleteUnusedTextures, upload] + [DrawFlipFrame];
    CompositionsAppend([DeleteUnusedTextures, upload], [DrawFlipFrame]);
  }

  /** Draws one frame.  While the finger moves or the page is animating, a
      missing slot is filled: the next page into the second slot on a forward
      turn, otherwise the previous page (the page number stepping back first)
      into the first slot; then a flip frame is composed.  For a full page, a
      missing first slot is filled with the current page and a flip frame is
      composed; an already filled one is presented with a page frame. */
  function DrawFrame(s: RenderState, maxPages: int): (f: Frame)
    // one message, carrying the command the frame was drawn for, which stays
    ensures f.posted == EndedDrawingFrame(s.command)
    ensures f.after.command == s.command
    // the engine's flip state and animation are only read
    ensures f.after.engine.state == s.engine.state
    ensures f.after.engine.animating == s.engine.animating
    // unused textures go first, and exactly one frame is composed
    ensures |f.calls| >= 2 && f.calls[0] == DeleteUnusedTextures
    ensures Compositions(f.calls) == 1
    // a drawn page is uploaded to the slot it fills just before a flip frame
    // is composed; otherwise nothing is uploaded
    ensures f.redraws == 0 ==> |f.calls| == 2
    ensures f.redraws == 1 ==>
              && |f.calls| == 3
              && f.calls[2] == DrawFlipFrame
              && f.calls[1] == (if f.after.engine.first != s.engine.first
                                then SetFirstTexture(f.after.bitmap)
                                else SetSecondTexture(f.after.bitmap))
    // at most one page is drawn, and only into a slot that was empty
    ensures f.redraws <= 1
    ensures f.redraws == 0 ==> f.after == s
    ensures f.after.engine.first == s.engine.first || f.after.engine.second == s.engine.second
    ensures f.after.engine.first != s.engine.first ==>
              s.engine.first == None && f.after.engine.first == Some(f.after.bitmap)
    ensures f.after.engine.second != s.engine.second ==>
              s.engine.second == None && f.after.engine.second == Some(f.after.bitmap)
    // finger moving or animating, turning forward
    ensures s.command != FullPage && s.engine.state == ForwardFlip ==>
              && f.after.pageNo == s.pageNo
              && f.after.engine.first == s.engine.first
              && (f.redraws == 1 <==> s.engine.second == None)
              && (s.engine.second == None ==>
                    f.after.engine.second == Some(Rendered(s.pageNo + 1, maxPages)))
              && DrawPageFrame !in f.calls
    // finger moving or animating, any other flip state
    ensures s.command != FullPage && s.engine.state != ForwardFlip ==>
              && f.after.engine.second == s.engine.second
              && (f.redraws == 1 <==> s.engine.first == None)
              && (s.engine.first == None ==>
                    f.after.pageNo == s.pageNo - 1
                    && f.after.engine.first == Some(Rendered(f.after.pageNo, maxPages)))
              && (s.engine.first != None ==> f.after.pageNo == s.pageNo)
              && DrawPageFrame !in f.calls
    // a page lying still
    ensures s.command == FullPage ==>
              && f.after.pageNo == s.pageNo
              && f.after.engine.second == s.engine.second
              && (f.redraws == 1 <==> s.engine.first == None)
              && (s.engine.first == None ==>
                    f.after.engine.first == Some(Rendered(s.pageNo, maxPages)))
              && (DrawPageFrame in f.calls <==> s.engine.first != None)
  {
    var msg := EndedDrawingFrame(s.command);
    var e := s.engine;
    if s.command != FullPage then
      if e.state == ForwardFlip then
        if e.second == None then
          var img := Rendered(s.pageNo + 1, maxPages);
          UploadThenFlipFrame(SetSecondTexture(img));
          Frame(s.(bitmap := img, engine := e.(second := Some(img))),
                [DeleteUnusedTextures, SetSecondTexture(img), DrawFlipFrame], 1, msg)
        else
          Frame(s, [DeleteUnusedTextures, DrawFlipFrame], 0, msg)
      else if e.first == None then
        var img := Rendered(s.pageNo - 1, maxPages);
        UploadThenFlipFrame(SetFirstTexture(img));
        Frame(s.(pageNo := s.pageNo - 1, bitmap := img, engine := e.(first := Some(img))),
              [DeleteUnusedTextures, SetFirstTexture(img), DrawFlipFrame], 1, msg)
      else
        Frame(s, [DeleteUnusedTextures, DrawFlipFrame], 0, msg)
    else if e.first == None then
      var img := Rendered(s.pageNo, maxPages);
      UploadThenFlipFrame(SetFirstTexture(img));
      Frame(s.(bitmap := img, engine := e.(first := Some(img))),
            [DeleteUnusedTextures, SetFirstTexture(img), DrawFlipFrame], 1, msg)
    else
      Frame(s, [DeleteUnusedTextures, DrawPageFrame], 0, msg)
  }

  /** On page 0 in full-page mode with nothing in the first slot, the first
      frame fills that slot with page 0 captioned as the first page. */
  lemma FirstFrameOfFirstPage(s: RenderState, maxPages: int)
    requires s.pageNo == 0 && s.command == FullPage && s.engine.first == None
    ensures DrawFrame(s, maxPages).after.engine.first == Some(Drawn(0, FirstPageCaption))
    ensures DrawFrame(s, maxPages).redraws == 1
  {
  }

  /** Handles the message of a drawn frame.  Only the end of an animation frame
      matters: while the engine still animates, another animation frame is
      asked for; once it stops, a completed forward turn promotes the second
      slot to the first and advances the page number, and a full page is asked
      for. */
  function EndedDrawing(s: RenderState, what: DrawCommand): (o: Outcome)
    // only the command, the page number and the slots may change
    ensures o.after.bitmap == s.bitmap
    ensures o.after.engine.state == s.engine.state
    ensures o.after.engine.animating == s.engine.animating
    // no frame is composed here
    ensures Compositions(o.calls) == 0
    // nothing but animation frames asks for another frame
    ensures o.result <==> what == AnimatingFrame
    ensures what != AnimatingFrame ==> o.after == s && o.calls == []
    // the animation goes on
    ensures what == AnimatingFrame && s.engine.animating ==>
              o.after == s.(command := AnimatingFrame) && o.calls == []
    // the animation has stopped
    ensures what == AnimatingFrame && !s.engine.animating ==>
              o.after.command == FullPage
    ensures what == AnimatingFrame && !s.engine.animating && s.engine.state == EndWithForward ==>
              && o.after.pageNo == s.pageNo + 1
              && o.after.engine.first == s.engine.second
              && o.after.engine.second == None
              && o.calls == [SetFirstTextureWithSecond]
    ensures what == AnimatingFrame && !s.engine.animating && s.engine.state != EndWithForward ==>
              o.after == s.(command := FullPage) && o.calls == []
  {
    if what == AnimatingFrame then
      if s.engine.animating then
        Outcome(s.(command := AnimatingFrame), [], true)
      else if s.engine.state == EndWithBackward then
        // the page number already stepped back when the previous page was drawn
        Outcome(s.(command := FullPage), [], true)
      else if s.engine.state == EndWithForward then
        Outcome(s.(engine := MoveSecondToFirst(s.engine), pageNo := s.pageNo + 1, command := FullPage),
                [SetFirstTextureWithSecond], true)
      else
        Outcome(s.(command := FullPage), [], true)
    else
      Outcome(s, [], false)
  }
}
