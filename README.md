# Page bookkeeping of the single-page flip renderer

This project models the page-bookkeeping state machine of `SinglePageRender`, the
renderer of the Android page-flip sample. On every frame the renderer decides which
texture slot of the engine's first page needs content, and which page number to
draw into it. When the frame's "ended drawing" message comes back, it decides
whether to draw again and advances the page number. Two boundary checks gate the
start of a turn.

Modules:

- `PageFlipEngine` (engine.dfy) stands in for the library classes `PageFlip` and
  `Page`, which are not part of this model. It keeps the flip state, the animation
  flag and the two texture slots (`Option<PageImage>`). Every call that uploads,
  moves or deletes textures or composes a frame is recorded in a ghost log. The
  queries (`getFlipState`, `isFirstTextureSet`, `isSecondTextureSet`) and the
  animation step `animating()` are not recorded.
- `RenderSpec` (render_spec.dfy) gives each operation as a function on a value
  snapshot (`RenderState`) or on the page number: `DrawFrame`, `EndedDrawing`, `CanFlipForward`,
  `CanFlipBackward` and the caption choice `CaptionFor`.
- `PageRenderer` (single_page_render.dfy) holds the class `SinglePageRender`. Its
  fields are `pageNo`, `drawCommand`, the bitmap, the engine, and ghost logs of
  posted messages and queued redraws. Its methods change that state step by step
  as the Java code does, and each is proved against the function of `RenderSpec`
  that specifies it.
- `FlipRuns` (flip_runs.dfy) composes frames into whole page turns. A frame is
  drawn in the engine's current flip state. When its message is handled, the
  engine's animation step (line 211) reports whether the animation goes on and the
  state it has settled in, so the last frame of a turn is drawn while still turning.
  The lemmas prove that a completed turn moves the page number by exactly one. They
  also prove that the turn leaves the first slot holding the page that `pageNo`
  names: the source comment at lines 222-223 says `mPageNo` always represents the
  first texture.

Points where the code is modelled as written:

- A backward turn steps the page number back inside `onDrawFrame` (line 115),
  when it draws the previous page. `END_WITH_BACKWARD` leaves the page number alone
  (lines 221-224), and no page is loaded ahead of time.
- In the backward branch the first slot is filled only by the runnable that
  `drawPage` runs synchronously at line 308 (lines 124-125). The model's `DrawPage`
  takes that runnable as an `EndAction`.
- The full-page redraw composes with `drawFlipFrame` (line 151). The already-valid
  path composes with `drawPageFrame` (line 154).
- Pages are numbered from 0 (`canFlipForward` tests `mPageNo < MAX_PAGES - 1`,
  `canFlipBackward` tests `mPageNo > 0`). The caption tests are `number <= 1` and
  `number >= MAX_PAGES`, so page 1 is also captioned "The First Page" and no real
  page is ever captioned "The Last Page". `CaptionsOfPages` states this.
- The library's `setFirstTextureWithSecond` and `setSecondTextureWithFirst` are
  modelled as moves: the source slot is left empty. The backward redraw at lines
  112-127 relies on this, because after `canFlipBackward` it finds the first slot
  empty.

## Model

| member | source | states |
|---|---|---|
| `RenderSpec.CaptionFor` | Sample/src/main/java/com/eschao/android/widget/sample/pageflip/SinglePageRender.java:295-307 | The caption is "first page" exactly when the number is at most 1. It is "last page" exactly when the number is above 1 and at least MAX_PAGES. Otherwise there is none. |
| `RenderSpec.CaptionsOfPages` | Sample/src/main/java/com/eschao/android/widget/sample/pageflip/SinglePageRender.java:266-278 | For every page 0..MAX_PAGES-1, the "last page" caption never appears, and "first page" appears exactly for pages 0 and 1. |
| `RenderSpec.CanFlipBackward` | Sample/src/main/java/com/eschao/android/widget/sample/pageflip/SinglePageRender.java:325-332 | True iff pageNo > 0, i.e. for a valid page iff a previous page exists. When true, the second slot takes the first slot's content and nothing else changes. When false, nothing changes and no engine call is made. |
| `RenderSpec.DrawFrame` | Sample/src/main/java/com/eschao/android/widget/sample/pageflip/SinglePageRender.java:77-168 | Every frame posts one message carrying the entry command, keeps the command, deletes unused textures first and composes exactly one frame. At most one page is drawn, only into a slot that was empty, and it is uploaded to that slot just before a flip frame is composed. A frame that draws nothing uploads nothing. Moving/animating forward with the second slot empty: page pageNo+1 goes there and pageNo stays. Otherwise with the first slot empty: pageNo drops by exactly 1 and the new pageNo goes into the first slot. A filled slot is not redrawn and only a flip frame is composed. Full page: an empty first slot gets page pageNo; a page frame is composed iff the slot was filled. |
| `RenderSpec.FirstFrameOfFirstPage` | Sample/src/main/java/com/eschao/android/widget/sample/pageflip/SinglePageRender.java:135-151 | On page 0 in full-page mode with an empty first slot, one frame draws page 0 captioned "The First Page" into that slot. |
| `RenderSpec.EndedDrawing` | Sample/src/main/java/com/eschao/android/widget/sample/pageflip/SinglePageRender.java:209-236 | Asks for another frame iff the message is an animation frame. Any other message changes nothing. While the engine animates, the command becomes animating and pageNo is kept. Once it stops with END_WITH_FORWARD, the first slot takes the second's content, the second empties and pageNo rises by exactly 1. Any other end state, END_WITH_BACKWARD included, keeps pageNo and the slots. Either way the command becomes full page. |
| `PageRenderer.SinglePageRender.constructor` | Sample/src/main/java/com/eschao/android/widget/sample/pageflip/SinglePageRender.java:60-63 | The renderer starts on the given engine and page number, in full-page mode, with nothing posted or queued. |
| `PageRenderer.SinglePageRender.OnDrawFrame` | Sample/src/main/java/com/eschao/android/widget/sample/pageflip/SinglePageRender.java:77-168 | The new state, engine calls and queued redraws are exactly those of `DrawFrame`. Exactly one message carrying the entry command is appended to the posted messages, and drawCommand is unchanged. |
| `PageRenderer.SinglePageRender.DrawPage` | Sample/src/main/java/com/eschao/android/widget/sample/pageflip/SinglePageRender.java:243-309 | The bitmap holds the page number with its caption. The runnable run at line 308 queues one redraw. The backward runnable also fills the first slot with the bitmap and composes a flip frame. Otherwise the engine is untouched. |
| `PageRenderer.SinglePageRender.OnEndedDrawing` | Sample/src/main/java/com/eschao/android/widget/sample/pageflip/SinglePageRender.java:209-236 | The new state, engine calls and answer are exactly those of `EndedDrawing`. |
| `RenderSpec.CanFlipForward` | Sample/src/main/java/com/eschao/android/widget/sample/pageflip/SinglePageRender.java:316-318 | For a valid page, true iff a next page exists. True implies pageNo + 1 < MAX_PAGES. |
| `RenderSpec.CountCallsAppend` | Sample/src/main/java/com/eschao/android/widget/sample/pageflip/SinglePageRender.java:77-168 | The number of times a call occurs in two call logs laid end to end is the sum of the two counts. Frame compositions are counted this way across frames. |
| `PageRenderer.SinglePageRender.CanFlipForward` | Sample/src/main/java/com/eschao/android/widget/sample/pageflip/SinglePageRender.java:316-318 | For a valid page, true iff a next page exists. True implies pageNo + 1 < MAX_PAGES. It reads the state and changes nothing. |
| `PageRenderer.SinglePageRender.CanFlipBackward` | Sample/src/main/java/com/eschao/android/widget/sample/pageflip/SinglePageRender.java:325-332 | The new state, engine calls and answer are exactly those of `RenderSpec.CanFlipBackward`. |
| `FlipRuns.Tick` | Sample/src/main/java/com/eschao/android/widget/sample/pageflip/SinglePageRender.java:160-167 | One frame followed by the handling of its message posts exactly one message with the entry command, composes exactly one frame and draws at most one page. `onEndedDrawing` answers true iff it was an animation frame. A drawn page also requests a render through `queueOnGlThread` (lines 170-173); that request is counted in `redraws`. |
| `FlipRuns.Run` | Sample/src/main/java/com/eschao/android/widget/sample/pageflip/SinglePageRender.java:160-168 | A run of frames posts exactly one message per frame, composes exactly one frame per frame and draws at most one page per frame. |
| `FlipRuns.SettledAnimation` | Sample/src/main/java/com/eschao/android/widget/sample/pageflip/SinglePageRender.java:86-132 | Once the slot a turn needs is filled, the rest of the animation draws no page, so it requests no render through `queueOnGlThread`, and `onEndedDrawing` answers true to every frame. Each frame posts an animation-frame message, and the final state is the one `EndedDrawing` gives for the stopped engine. |
| `FlipRuns.AnimationFromFirstFrame` | Sample/src/main/java/com/eschao/android/widget/sample/pageflip/SinglePageRender.java:86-132 | When the first frame of an animation fills the slot the turn needs, the whole animation ends in the state `EndedDrawing` gives for that frame's state with the engine stopped. Only the first frame may draw a page, one message is posted per frame, and `onEndedDrawing` answers true to every frame. |
| `FlipRuns.ForwardTurnAdvancesOnePage` | Sample/src/main/java/com/eschao/android/widget/sample/pageflip/SinglePageRender.java:217-232 | Any forward animation from a coherent state raises pageNo by exactly 1, whatever its length. Coherent means the first slot holds page pageNo and a filled second slot holds pageNo+1. The turn ends coherent and in full-page mode with the second slot empty. It draws page pageNo+1 once if the second slot was empty and never otherwise, and posts one animation message per frame. From a valid page it ends on a valid page iff `canFlipForward` (lines 316-318) allowed the turn. |
| `FlipRuns.BackwardTurnRetreatsOnePage` | Sample/src/main/java/com/eschao/android/widget/sample/pageflip/SinglePageRender.java:112-127 | After `canFlipBackward` answers true on a coherent state, any backward animation lowers pageNo by exactly 1 and draws the previous page exactly once. It ends coherent and in full-page mode with the page it left in the second slot, and keeps pageNo a valid page. |
| `FlipRuns.FullPageFrameSettles` | Sample/src/main/java/com/eschao/android/widget/sample/pageflip/SinglePageRender.java:135-157 | A full-page frame whose filled slots hold the right pages leaves a coherent state and the same pageNo. It draws a page iff the first slot was empty, and only then requests a render through `queueOnGlThread`. `onEndedDrawing` answers false to its message. |

## Left out

- Asynchronous bitmap loading (`LoadBitmapTask.getBitmap` and its `onBitmapLoaded` callback, lines 252-286) is left out, and so is what a queued GL-thread runnable does when it runs later (`queueOnGlThread`, lines 170-173). The model counts the runnables handed to the queue (`queuedRedraws`) but does not run them. The turn lemmas' conclusions that the second slot ends empty and the state coherent rely on this. The forward branch's queued runnable (lines 97-103) uploads the bitmap into the second slot again. If it runs after END_WITH_FORWARD has been handled, the second slot then holds the page that is now in the first slot. A drawn page is the synchronous stand-in: cyan background, page number and caption.
- Canvas and Paint drawing, `calcFontSize`, text measurement and positioning (lines 245-307) are left out. Only the caption choice is kept.
- `onSurfaceChanged` (lines 181-198) is left out: it recycles and allocates Android bitmaps and configures the loader, with no page bookkeeping.
- `Handler`/`Message` delivery between the GL and main threads is left out. Posting a message appends it to a ghost log, and the runs in `FlipRuns` hand each frame's message straight to `EndedDrawing`.
- The internals of `PageFlip` and `Page` are not part of this model: texture deletion, curl geometry, GL uploads, and how `animating()` advances the animation and sets the end state. `deleteUnusedTextures` leaves the slots as they are, and the flip state and animation flag are inputs.
- `PageRender.java` is not part of this model. `MAX_PAGES` is a parameter, the draw commands are a closed datatype without their integer codes, and the renderer is assumed to start in full-page mode.
- `Log.d` calls and the constructor's `Paint` set-up are left out.
- `pageNo` is an unbounded integer; Java `int` overflow of `mPageNo++`/`--mPageNo` is not modelled, because it needs a page number near 2^31, far beyond any page count. A forward turn from a valid page stays in range exactly when `canFlipForward` allows it (`ForwardTurnAdvancesOnePage`). A backward turn allowed by `canFlipBackward` always does (`BackwardTurnRetreatsOnePage`). A forward turn from the last page, which `canFlipForward` refuses, ends on MAX_PAGES.
- FlipRuns.ForwardTurnAdvancesOnePage: covers the animation phase only, starting with the animation command. The finger-drag phase (moving frames) and the switch to animation are made by the view, which is not part of this model.
- FlipRuns.BackwardTurnRetreatsOnePage: covers the animation phase only, starting with the animation command, for the same reason.
- A turn that is abandoned (the engine restoring the page) is not covered by a lemma, because what the engine shows then is decided in library code not part of this model.
