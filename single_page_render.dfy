/**
 * The single-page renderer: on every frame it decides which texture slot of the
 * engine's first page needs content and which page number to draw into it, and
 * when a frame's message comes back it decides whether to draw again and
 * advances the page number.  Each method is proved against the function of
 * RenderSpec that gives its effect on the renderer's state.
 */
module PageRenderer {
  import opened PageFlipEngine
  import opened RenderSpec

  /** What happens when the runnable handed to DrawPage is run: every variant
      queues a redraw on the GL thread; the backward turn's runnable also
      uploads the bitmap to the first slot and composes a flip frame. */
  datatype EndAction = QueueRedraw | QueueRedrawThenSetFirst

  class SinglePageRender {
    const maxPages: int
    const flip: PageFlip
    var pageNo: int
    var drawCommand: DrawCommand
    var bitmap: PageImage
    /** Messages posted to the main thread, oldest first. */
    ghost var posted: seq<Message>
    /** Runnables handed to the GL thread's queue. */
    ghost var queuedRedraws: nat

    ghost function State(): RenderState
      reads this, flip
    {
      RenderState(pageNo, drawCommand, bitmap, flip.View())
    }

    constructor (flip: PageFlip, pageNo: int, maxPages: int)
      ensures this.flip == flip && this.maxPages == maxPages
      ensures pageNo == this.pageNo && drawCommand == FullPage && bitmap == Blank
      ensures posted == [] && queuedRedraws == 0
    {
      this.flip := flip;
      this.maxPages := maxPages;
      this.pageNo := pageNo;
      drawCommand := FullPage;
      bitmap := Blank;
      posted := [];
      queuedRedraws := 0;
    }

    /** Draws one frame and posts its message. */
    method OnDrawFrame()
      modifies this, flip
      ensures State() == DrawFrame(old(State()), maxPages).after
      ensures flip.calls == old(flip.calls) + DrawFrame(old(State()), maxPages).calls
      ensures queuedRedraws == old(queuedRedraws) + DrawFrame(old(State()), maxPages).redraws
      ensures posted == old(posted) + [EndedDrawingFrame(old(drawCommand))]
      ensures drawCommand == old(drawCommand)
    {
      ghost var f := DrawFrame(State(), maxPages);
      flip.DeleteUnusedTextures();
      if drawCommand == MovingFrame || drawCommand == AnimatingFrame {
        if flip.state == ForwardFlip {
          if flip.second == None {
            DrawPage(pageNo + 1, QueueRedraw);
            flip.SetSecondTexture(bitmap);
            flip.DrawFlipFrame();
          } else {
            flip.DrawFlipFrame();
          }
        } else if flip.first == None {
          // the previous page is drawn and uploaded by the runnable DrawPage runs
          pageNo := pageNo - 1;
          DrawPage(pageNo, QueueRedrawThenSetFirst);
        } else {
          flip.DrawFlipFrame();
        }
      } else {
        if flip.first == None {
          DrawPage(pageNo, QueueRedraw);
          flip.SetFirstTexture(bitmap);
          flip.DrawFlipFrame();
        } else {
          flip.DrawPageFrame();
        }
      }
      posted := posted + [EndedDrawingFrame(drawCommand)];
      assert State() == f.after;
    }

    /** Draws page `number` into the bitmap and runs `end`. */
    method DrawPage(number: int, end: EndAction)
      modifies this`bitmap, this`queuedRedraws, flip
      ensures bitmap == Rendered(number, maxPages)
      ensures queuedRedraws == old(queuedRedraws) + 1
      ensures end == QueueRedraw ==> flip.View() == old(flip.View()) && flip.calls == old(flip.calls)
      ensures end == QueueRedrawThenSetFirst ==>
                flip.View() == old(flip.View()).(first := Some(bitmap))
                && flip.calls == old(flip.calls) + [SetFirstTexture(bitmap), DrawFlipFrame]
    {
      bitmap := Rendered(number, maxPages);
      queuedRedraws := queuedRedraws + 1;
      if end == QueueRedrawThenSetFirst {
        flip.SetFirstTexture(bitmap);
        flip.DrawFlipFrame();
      }
    }

    /** Handles the message of a drawn frame; answers whether to draw again. */
    method OnEndedDrawing(what: DrawCommand) returns (again: bool)
      modifies this`pageNo, this`drawCommand, flip
      ensures State() == EndedDrawing(old(State()), what).after
      ensures flip.calls == old(flip.calls) + EndedDrawing(old(State()), what).calls
      ensures again == EndedDrawing(old(State()), what).result
    {
      if what == AnimatingFrame {
        if flip.animating {
          drawCommand := AnimatingFrame;
          return true;
        } else {
          var state := flip.state;
          if state == EndWithBackward {
            // the page number already stepped back in OnDrawFrame
          } else if state == EndWithForward {
            flip.SetFirstTextureWithSecond();
            pageNo := pageNo + 1;
          }
          drawCommand := FullPage;
          return true;
        }
      }
      return false;
    }

    /** Whether a forward turn is allowed: whether there is a page after the
        current one.  Nothing changes. */
    function CanFlipForward(): (b: bool)
      reads this
      ensures ValidPage(pageNo, maxPages) ==> (b <==> ValidPage(pageNo + 1, maxPages))
      ensures b == RenderSpec.CanFlipForward(pageNo, maxPages)
    {
      RenderSpec.CanFlipForward(pageNo, maxPages)
    }

    /** Whether there is a page before the current one; if so, the current
        page's texture moves to the second slot. */
    method CanFlipBackward() returns (b: bool)
      modifies flip
      ensures State() == RenderSpec.CanFlipBackward(old(State()), maxPages).after
      ensures flip.calls == old(flip.calls) + RenderSpec.CanFlipBackward(old(State()), maxPages).calls
      ensures b == RenderSpec.CanFlipBackward(old(State()), maxPages).result
    {
      if pageNo > 0 {
        flip.SetSecondTextureWithFirst();
        return true;
      } else {
        return false;
      }
    }
  }
}
