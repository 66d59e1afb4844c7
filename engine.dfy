/**
 * A stand-in for the page-flip engine the renderer drives (the library classes
 * PageFlip and Page, whose code is not part of this model).  Only what the
 * renderer observes or changes is kept: the flip state, whether an animation
 * is still running, and the two texture slots of the first page.  Every call
 * that uploads, moves or deletes textures or composes a frame is recorded in a
 * ghost log, so that contracts can say which calls a frame issued and in what
 * order; the queries and the animation step are not recorded.
 */
module PageFlipEngine {

  datatype Option<T> = None | Some(value: T)

  /** The phases of a page turn the renderer distinguishes; every other phase
      of the engine (beginning, restoring, ...) is `OtherState`. */
  datatype FlipState = ForwardFlip | BackwardFlip | EndWithForward | EndWithBackward | OtherState

  /** The caption drawn under the page number. */
  datatype Caption = FirstPageCaption | LastPageCaption | NoCaption

  /** What the renderer's bitmap holds: nothing yet, or the stand-in drawing of a
      page (cyan background, page number, optional caption). */
  datatype PageImage = Blank | Drawn(number: int, caption: Caption)

  /** The engine calls that change or present texture state. */
  datatype EngineCall =
    | DeleteUnusedTextures
    | SetFirstTexture(image: PageImage)
    | SetSecondTexture(image: PageImage)
    | SetFirstTextureWithSecond
    | SetSecondTextureWithFirst
    | DrawFlipFrame
    | DrawPageFrame

  /** A value snapshot of the engine as the renderer sees it. */
  datatype EngineView = EngineView(
    state: FlipState,
    animating: bool,
    first: Option<PageImage>,
    second: Option<PageImage>)

  /** The second slot's texture becomes the first one; the second slot is emptied. */
  function MoveSecondToFirst(e: EngineView): (r: EngineView)
    ensures r.first == e.second && r.second == None
    ensures r.state == e.state && r.animating == e.animating
  {
    e.(first := e.second, second := None)
  }

  /** The first slot's texture becomes the second one; the first slot is emptied. */
  function MoveFirstToSecond(e: EngineView): (r: EngineView)
    ensures r.second == e.first && r.first == None
    ensures r.state == e.state && r.animating == e.animating
  {
    e.(second := e.first, first := None)
  }

  class PageFlip {
    var state: FlipState
    var animating: bool
    var first: Option<PageImage>
    var second: Option<PageImage>
    ghost var calls: seq<EngineCall>

    function View(): EngineView
      reads this
    {
      EngineView(state, animating, first, second)
    }

    constructor (state: FlipState, animating: bool)
      ensures View() == EngineView(state, animating, None, None)
      ensures calls == []
    {
      this.state := state;
      this.animating := animating;
      first := None;
      second := None;
      calls := [];
    }

    /** Releases textures queued for deletion; the slots are not affected. */
    method DeleteUnusedTextures()
      modifies this
      ensures View() == old(View())
      ensures calls == old(calls) + [EngineCall.DeleteUnusedTextures]
    {
      calls := calls + [EngineCall.DeleteUnusedTextures];
    }

    method SetFirstTexture(image: PageImage)
      modifies this
      ensures View() == old(View()).(first := Some(image))
      ensures calls == old(calls) + [EngineCall.SetFirstTexture(image)]
    {
      first := Some(image);
      calls := calls + [EngineCall.SetFirstTexture(image)];
    }

    method SetSecondTexture(image: PageImage)
      modifies this
      ensures View() == old(View()).(second := Some(image))
      ensures calls == old(calls) + [EngineCall.SetSecondTexture(image)]
    {
      second := Some(image);
      calls := calls + [EngineCall.SetSecondTexture(image)];
    }

    method SetFirstTextureWithSecond()
      modifies this
      ensures View() == MoveSecondToFirst(old(View()))
      ensures calls == old(calls) + [EngineCall.SetFirstTextureWithSecond]
    {
      first, second := second, None;
      calls := calls + [EngineCall.SetFirstTextureWithSecond];
    }

    method SetSecondTextureWithFirst()
      modifies this
      ensures View() == MoveFirstToSecond(old(View()))
      ensures calls == old(calls) + [EngineCall.SetSecondTextureWithFirst]
    {
      second, first := first, None;
      calls := calls + [EngineCall.SetSecondTextureWithFirst];
    }

    /** Composes a frame of the page being turned. */
    method DrawFlipFrame()
      modifies this
      ensures View() == old(View())
      ensures calls == old(calls) + [EngineCall.DrawFlipFrame]
    {
      calls := calls + [EngineCall.DrawFlipFrame];
    }

    /** Composes a frame of the page lying still. */
    method DrawPageFrame()
      modifies this
      ensures View() == old(View())
      ensures calls == old(calls) + [EngineCall.DrawPageFrame]
    {
      calls := calls + [EngineCall.DrawPageFrame];
    }
  }
}
