/**
 * Whole page turns.  A frame is drawn, its message is handled, and the answer
 * decides whether another frame follows; the engine's flip state and
 * animation progress come from outside (the view that drives the renderer
 * and the engine, neither of which is part of this model).  The lemmas here
 * show that a completed turn moves the page number by exactly one and leaves
 * the first slot holding the page the page number names.
 */
module FlipRuns {
  import opened PageFlipEngine
  import opened RenderSpec

  /** What the engine reports around one frame: the flip state the frame is
      drawn in, and, when the frame's message is handled, whether its
      animation still runs and the flip state it has then settled in (the
      engine's animation step can end a turn between the two). */
  datatype Observation = Observation(drawnIn: FlipState, animating: bool, settled: FlipState)

  /** A run of frames: the final state, the engine calls made, the messages
      posted, the number of pages drawn, and whether the renderer's answer to
      every frame's message was to draw another one.  Each page drawn also
      hands a redraw to the GL thread, which requests one more frame of its
      own; that request is counted in `redraws`, not in `continued`. */
  datatype Trace = Trace(last: RenderState, calls: seq<EngineCall>, posted: seq<Message>,
                         redraws: nat, continued: bool)

  /** The engine in state `state` with the animation running or not. */
  function Reported(s: RenderState, state: FlipState, animating: bool): RenderState {
    s.(engine := s.engine.(state := state, animating := animating))
  }

  /** One frame: it is drawn in `o.drawnIn`, then the message it posts is
      handled with the engine reporting `o.animating` and `o.settled`. */
  function Tick(s: RenderState, o: Observation, maxPages: int): (t: Trace)
    ensures t.posted == [EndedDrawingFrame(s.command)]
    ensures Compositions(t.calls) == 1
    ensures t.redraws <= 1
    ensures t.continued <==> s.command == AnimatingFrame
  {
    var f := DrawFrame(s.(engine := s.engine.(state := o.drawnIn)), maxPages);
    var e := EndedDrawing(Reported(f.after, o.settled, o.animating), f.posted.command);
    CompositionsAppend(f.calls, e.calls);
    Trace(e.after, f.calls + e.calls, [f.posted], f.redraws, e.result)
  }

  /** Frames drawn one after the other, the engine reporting `obs[i]` around
      the i-th. */
  function Run(s: RenderState, obs: seq<Observation>, maxPages: int): (t: Trace)
    ensures |t.posted| == |obs|
    ensures Compositions(t.calls) == |obs|
    ensures t.redraws <= |obs|
    decreases |obs|
  {
    if obs == [] then Trace(s, [], [], 0, true)
    else
      var head := Tick(s, obs[0], maxPages);
      var rest := Run(head.last, obs[1..], maxPages);
      CompositionsAppend(head.calls, rest.calls);
      Trace(rest.last, head.calls + rest.calls, head.posted + rest.posted,
            head.redraws + rest.redraws, head.continued && rest.continued)
  }

  /** The page number names the page in the first slot, and the second slot,
      when filled, holds the page after it. */
  predicate Coherent(s: RenderState, maxPages: int) {
    && s.engine.first == Some(Rendered(s.pageNo, maxPages))
    && (s.engine.second != None ==> s.engine.second == Some(Rendered(s.pageNo + 1, maxPages)))
  }

  /** The engine's reports during an animation of `k + 1` frames, all drawn
      while turning in state `turning`: after the first `k` it is still
      animating, after the last it has stopped in state `end`. */
  function Animation(k: nat, turning: FlipState, end: FlipState): (obs: seq<Observation>)
    ensures |obs| == k + 1
  {
    seq(k, _ => Observation(turning, true, turning)) + [Observation(turning, false, end)]
  }

  function Repeat(k: nat, m: Message): (ms: seq<Message>)
    ensures |ms| == k && forall i :: 0 <= i < k ==> ms[i] == m
  {
    seq(k, _ => m)
  }

  lemma RepeatCons(k: nat, m: Message)
    ensures [m] + Repeat(k, m) == Repeat(k + 1, m)
  {
  }

  lemma AnimationStep(k: nat, turning: FlipState, end: FlipState)
    requires k > 0
    ensures Animation(k, turning, end)[0] == Observation(turning, true, turning)
    ensures Animation(k, turning, end)[1..] == Animation(k - 1, turning, end)
  {
  }

  /** A run is its first frame followed by the run of the rest. */
  lemma RunCons(s: RenderState, obs: seq<Observation>, maxPages: int)
    requires obs != []
    ensures var head := Tick(s, obs[0], maxPages);
            var rest := Run(head.last, obs[1..], maxPages);
            var t := Run(s, obs, maxPages);
            && t.last == rest.last
            && t.redraws == head.redraws + rest.redraws
            && t.posted == head.posted + rest.posted
            && t.continued == (head.continued && rest.continued)
  {
  }

  /** The state of an animation frame once drawn in flip state `turning`. */
  function AfterDrawing(s: RenderState, turning: FlipState, maxPages: int): RenderState {
    DrawFrame(s.(engine := s.engine.(state := turning)), maxPages).after
  }

  /** The slot a turn in flip state `turning` draws into is filled. */
  predicate Loaded(s: RenderState, turning: FlipState) {
    if turning == ForwardFlip then s.engine.second != None else s.engine.first != None
  }

  /** An animation frame handled while the engine goes on turning leaves the
      drawn state, still animating, and asks for the next frame. */
  lemma TurningFrame(s: RenderState, turning: FlipState, maxPages: int)
    requires s.command == AnimatingFrame
    ensures var h := Tick(s, Observation(turning, true, turning), maxPages);
            && h.last == Reported(AfterDrawing(s, turning, maxPages), turning, true)
            && h.redraws == DrawFrame(s.(engine := s.engine.(state := turning)), maxPages).redraws
            && h.posted == [EndedDrawingFrame(AnimatingFrame)]
            && h.continued
  {
  }

  /** The last frame of an animation: its message finds the engine stopped. */
  lemma StoppingFrame(s: RenderState, turning: FlipState, end: FlipState, maxPages: int)
    requires s.command == AnimatingFrame
    ensures var h := Tick(s, Observation(turning, false, end), maxPages);
            && h.last == EndedDrawing(Reported(AfterDrawing(s, turning, maxPages), end, false), AnimatingFrame).after
            && h.redraws == DrawFrame(s.(engine := s.engine.(state := turning)), maxPages).redraws
            && h.posted == [EndedDrawingFrame(AnimatingFrame)]
            && h.continued
  {
  }

  /** Drawing a frame whose slot is already filled changes nothing but the
      flip state it is drawn in. */
  lemma LoadedFrame(s: RenderState, turning: FlipState, maxPages: int)
    requires s.command == AnimatingFrame && Loaded(s, turning)
    ensures AfterDrawing(s, turning, maxPages) == s.(engine := s.engine.(state := turning))
    ensures DrawFrame(s.(engine := s.engine.(state := turning)), maxPages).redraws == 0
  {
  }

  /** With its slot filled, a turning frame draws nothing and only records
      the engine's report. */
  lemma SettledTurningFrame(s: RenderState, turning: FlipState, maxPages: int)
    requires s.command == AnimatingFrame && Loaded(s, turning)
    ensures var h := Tick(s, Observation(turning, true, turning), maxPages);
            && h.last == Reported(s, turning, true)
            && h.redraws == 0
            && h.posted == [EndedDrawingFrame(AnimatingFrame)]
            && h.continued
  {
    LoadedFrame(s, turning, maxPages);
    TurningFrame(s, turning, maxPages);
    assert Reported(s.(engine := s.engine.(state := turning)), turning, true) == Reported(s, turning, true);
  }

  /** With its slot filled, the last frame of an animation draws nothing. */
  lemma SettledLastFrame(s: RenderState, turning: FlipState, end: FlipState, maxPages: int)
    requires s.command == AnimatingFrame && Loaded(s, turning)
    ensures var t := Run(s, Animation(0, turning, end), maxPages);
            && t.last == EndedDrawing(Reported(s, end, false), AnimatingFrame).after
            && t.redraws == 0
            && t.posted == Repeat(1, EndedDrawingFrame(AnimatingFrame))
            && t.continued
  {
    var obs := Animation(0, turning, end);
    assert obs == [Observation(turning, false, end)];
    RunCons(s, obs, maxPages);
    LoadedFrame(s, turning, maxPages);
    StoppingFrame(s, turning, end, maxPages);
    assert Reported(s.(engine := s.engine.(state := turning)), end, false) == Reported(s, end, false);
    assert obs[1..] == [];
  }

  /** Once the slot a turn needs is filled, the rest of the animation draws no
      page, the renderer asks for every next frame, and the last message
      leaves the state that EndedDrawing gives for an engine stopped in
      `end`. */
  lemma {:induction false} SettledAnimation(s: RenderState, k: nat, turning: FlipState, end: FlipState, maxPages: int)
    requires s.command == AnimatingFrame && Loaded(s, turning)
    ensures var t := Run(s, Animation(k, turning, end), maxPages);
            && t.last == EndedDrawing(Reported(s, end, false), AnimatingFrame).after
            && t.redraws == 0
            && t.posted == Repeat(k + 1, EndedDrawingFrame(AnimatingFrame))
            && t.continued
    decreases k
  {
    if k == 0 {
      SettledLastFrame(s, turning, end, maxPages);
    } else {
      var obs := Animation(k, turning, end);
      RunCons(s, obs, maxPages);
      AnimationStep(k, turning, end);
      SettledTurningFrame(s, turning, maxPages);
      var s' := Reported(s, turning, true);
      SettledAnimation(s', k - 1, turning, end, maxPages);
      assert Reported(s', end, false) == Reported(s, end, false);
      RepeatCons(k, EndedDrawingFrame(AnimatingFrame));
    }
  }

  /** An animation whose first frame fills the slot the turn needs ends in the
      state EndedDrawing gives for that frame's state with the engine stopped
      in `end`; only the first frame may draw a page. */
  lemma AnimationFromFirstFrame(s: RenderState, n: nat, turning: FlipState, end: FlipState, maxPages: int)
    requires s.command == AnimatingFrame && Loaded(AfterDrawing(s, turning, maxPages), turning)
    ensures var t := Run(s, Animation(n, turning, end), maxPages);
            && t.last == EndedDrawing(Reported(AfterDrawing(s, turning, maxPages), end, false), AnimatingFrame).after
            && t.redraws == DrawFrame(s.(engine := s.engine.(state := turning)), maxPages).redraws
            && t.posted == Repeat(n + 1, EndedDrawingFrame(AnimatingFrame))
            && t.continued
  {
    var obs := Animation(n, turning, end);
    var d := AfterDrawing(s, turning, maxPages);
    RunCons(s, obs, maxPages);
    if n == 0 {
      assert obs == [Observation(turning, false, end)];
      StoppingFrame(s, turning, end, maxPages);
      assert obs[1..] == [];
    } else {
      AnimationStep(n, turning, end);
      TurningFrame(s, turning, maxPages);
      var s1 := Reported(d, turning, true);
      SettledAnimation(s1, n - 1, turning, end, maxPages);
      assert Reported(s1, end, false) == Reported(d, end, false);
      RepeatCons(n, EndedDrawingFrame(AnimatingFrame));
    }
  }

  /** A forward turn animated over `n + 1` frames, started on a coherent
      state, advances the page number by exactly one, draws the next page at
      most once (not at all when the second slot already held it), and ends
      coherent, in full-page mode, with the second slot empty.  From a valid
      page it ends on a valid page exactly when CanFlipForward allowed it. */
  lemma ForwardTurnAdvancesOnePage(s: RenderState, n: nat, maxPages: int)
    requires Coherent(s, maxPages) && s.command == AnimatingFrame
    ensures var t := Run(s, Animation(n, ForwardFlip, EndWithForward), maxPages);
            && t.last.pageNo == s.pageNo + 1
            && Coherent(t.last, maxPages)
            && t.last.engine.second == None
            && t.last.command == FullPage
            && t.redraws == (if s.engine.second == None then 1 else 0)
            && t.posted == Repeat(n + 1, EndedDrawingFrame(AnimatingFrame))
            && t.continued
            && (ValidPage(s.pageNo, maxPages) ==>
                  (ValidPage(t.last.pageNo, maxPages) <==> CanFlipForward(s.pageNo, maxPages)))
  {
    var d := AfterDrawing(s, ForwardFlip, maxPages);
    assert d.pageNo == s.pageNo && d.engine.second == Some(Rendered(s.pageNo + 1, maxPages));
    AnimationFromFirstFrame(s, n, ForwardFlip, EndWithForward, maxPages);
  }

  /** The first frame after CanFlipBackward steps the page number back and
      draws the previous page into the emptied first slot. */
  lemma BackwardFirstFrame(s: RenderState, maxPages: int)
    requires Coherent(s, maxPages) && s.command == AnimatingFrame
    requires CanFlipBackward(s, maxPages).result
    ensures var s0 := CanFlipBackward(s, maxPages).after;
            var d := AfterDrawing(s0, BackwardFlip, maxPages);
            && s0.command == AnimatingFrame
            && d.pageNo == s.pageNo - 1
            && d.engine.first == Some(Rendered(s.pageNo - 1, maxPages))
            && d.engine.second == Some(Rendered(s.pageNo, maxPages))
            && DrawFrame(s0.(engine := s0.engine.(state := BackwardFlip)), maxPages).redraws == 1
  {
    var s0 := CanFlipBackward(s, maxPages).after;
    assert s0.engine.first == None && s0.engine.second == s.engine.first && s0.pageNo == s.pageNo;
  }

  /** A backward turn, allowed by CanFlipBackward on a coherent state and
      animated over `n + 1` frames, moves the page number back by exactly
      one, draws the previous page exactly once, and ends coherent, in
      full-page mode, with the page it left in the second slot. */
  lemma BackwardTurnRetreatsOnePage(s: RenderState, n: nat, maxPages: int)
    requires Coherent(s, maxPages) && s.command == AnimatingFrame
    requires CanFlipBackward(s, maxPages).result
    ensures var t := Run(CanFlipBackward(s, maxPages).after,
                         Animation(n, BackwardFlip, EndWithBackward), maxPages);
            && t.last.pageNo == s.pageNo - 1
            && Coherent(t.last, maxPages)
            && t.last.engine.second == Some(Rendered(s.pageNo, maxPages))
            && t.last.command == FullPage
            && t.redraws == 1
            && t.posted == Repeat(n + 1, EndedDrawingFrame(AnimatingFrame))
            && t.continued
            && (ValidPage(s.pageNo, maxPages) ==> ValidPage(t.last.pageNo, maxPages))
  {
    var s0 := CanFlipBackward(s, maxPages).after;
    BackwardFirstFrame(s, maxPages);
    AnimationFromFirstFrame(s0, n, BackwardFlip, EndWithBackward, maxPages);
  }

  /** A full-page frame on a state whose second slot, if filled, holds the next
      page leaves a coherent state, and the renderer's answer to its message
      is not to draw again.  It draws a page exactly when the first slot was
      empty, and only then hands a redraw to the GL thread. */
  lemma FullPageFrameSettles(s: RenderState, o: Observation, maxPages: int)
    requires s.command == FullPage
    requires s.engine.first == None || s.engine.first == Some(Rendered(s.pageNo, maxPages))
    requires s.engine.second != None ==> s.engine.second == Some(Rendered(s.pageNo + 1, maxPages))
    ensures var t := Tick(s, o, maxPages);
            && Coherent(t.last, maxPages)
            && t.last.pageNo == s.pageNo
            && (t.redraws == 1 <==> s.engine.first == None)
            && !t.continued
  {
  }
}
