/** The viking-room example's frame loop: per frame slot a fence, an
    image-available and a render-finished semaphore and a command buffer;
    draw_frame waits on the slot's fence, acquires an image, resets the fence,
    records, submits, presents, and recreates the swapchain when the
    swapchain is out of date, suboptimal at present, or the window was resized.

    Driver answers (acquire and present results) are inputs. The GPU is an
    explicit step that completes a slot's submitted work and re-signals its
    fence; the blocking wait is modelled as running that step when the fence
    is not yet signalled. Every synchronisation action is appended to an
    event log, so ordering properties are statements about that log. */
module VikingRoom {
  import opened Vk
  import Driver
  import FixedStuff

  /** vk::Result::ERROR_OUT_OF_DATE_KHR */
  const ERROR_OUT_OF_DATE: int := -1000001004

  /** acquire_next_image: Ok((image index, suboptimal)) or an error code. */
  datatype AcquireResult = Acquired(imageIndex: u32, suboptimal: bool) | AcquireFailed(code: int)

  /** queue_present: Ok(suboptimal) or an error code. */
  datatype PresentResult = Presented(suboptimal: bool) | PresentFailed(code: int)

  datatype Event =
    | WaitFence(fence: Handle)
    | GpuSignal(fence: Handle)
    | Acquire(signal: Handle)
    | ResetFence(fence: Handle)
    | Record(commandBuffer: Handle, imageIndex: nat)
    | Submit(wait: Handle, commandBuffer: Handle, signal: Handle, fence: Handle)
    | Present(imageIndex: nat, wait: Handle)
    | RecreateSwapchain

  /** How draw_frame ends: a full frame, the early return after an out-of-date
      acquire, or a panic on any other driver error. */
  datatype FrameOutcome = Drawn | AcquireOutOfDate | Panicked

  /** The synchronisation objects of one frame slot. */
  datatype SlotHandles = SlotHandles(imageAvailable: Handle, renderFinished: Handle,
                                     fence: Handle, commandBuffer: Handle)

  /** The present result's verdict: Some(recreate needed) or None for a fatal error. */
  function PresentNeedsRecreate(present: PresentResult): (r: Option<bool>)
    ensures r == None <==> present.PresentFailed? && present.code != ERROR_OUT_OF_DATE
    ensures r == Some(true) <==> present == PresentFailed(ERROR_OUT_OF_DATE) || present == Presented(true)
    ensures r == Some(false) <==> present == Presented(false)
  {
    match present
    case PresentFailed(code) => if code == ERROR_OUT_OF_DATE then Some(true) else None
    case Presented(suboptimal) => Some(suboptimal)
  }

  /** The outcome of a frame for the given driver answers. */
  function Outcome(acquire: AcquireResult, present: PresentResult): FrameOutcome {
    match acquire
    case AcquireFailed(code) => if code == ERROR_OUT_OF_DATE then AcquireOutOfDate else Panicked
    case Acquired(_, _) => if PresentNeedsRecreate(present).None? then Panicked else Drawn
  }

  /** The events one call of draw_frame produces on slot `h`. */
  function FrameEvents(h: SlotHandles, fenceSignaled: bool, acquire: AcquireResult,
                       present: PresentResult, resized: bool): seq<Event>
  {
    var waited := [WaitFence(h.fence)] + (if fenceSignaled then [] else [GpuSignal(h.fence)])
                  + [Acquire(h.imageAvailable)];
    match acquire
    case AcquireFailed(code) =>
      if code == ERROR_OUT_OF_DATE then waited + [RecreateSwapchain] else waited
    case Acquired(index, _) =>
      var drawn := waited + [ResetFence(h.fence), Record(h.commandBuffer, index),
                             Submit(h.imageAvailable, h.commandBuffer, h.renderFinished, h.fence),
                             Present(index, h.renderFinished)];
      match PresentNeedsRecreate(present)
      case None => drawn
      case Some(need) => if need || resized then drawn + [RecreateSwapchain] else drawn
  }

  /** Every frame starts by waiting on its slot's fence: nothing is acquired,
      reset, submitted or presented before that wait. */
  lemma WaitComesFirst(h: SlotHandles, fenceSignaled: bool, acquire: AcquireResult,
                       present: PresentResult, resized: bool)
    ensures var evs := FrameEvents(h, fenceSignaled, acquire, present, resized);
      && |evs| >= 2 && evs[0] == WaitFence(h.fence)
      && Driver.Occurrences(evs, WaitFence(h.fence)) == 1
  {
    var evs := FrameEvents(h, fenceSignaled, acquire, present, resized);
    var rest := evs[1..];
    assert evs == [WaitFence(h.fence)] + rest;
    Driver.OccurrencesAppend([WaitFence(h.fence)], rest, WaitFence(h.fence));
    assert WaitFence(h.fence) !in rest;
  }

  /** An out-of-date acquire recreates exactly once and returns: the fence is
      not reset and nothing is recorded, submitted or presented. */
  lemma OutOfDateAcquireRecreatesOnly(h: SlotHandles, fenceSignaled: bool, present: PresentResult, resized: bool)
    ensures var evs := FrameEvents(h, fenceSignaled, AcquireFailed(ERROR_OUT_OF_DATE), present, resized);
      && evs[|evs| - 1] == RecreateSwapchain
      && Driver.Occurrences(evs, RecreateSwapchain) == 1
      && (forall i | 0 <= i < |evs| :: !evs[i].ResetFence? && !evs[i].Submit? && !evs[i].Present?)
  {
    var evs := FrameEvents(h, fenceSignaled, AcquireFailed(ERROR_OUT_OF_DATE), present, resized);
    var waited := evs[..|evs| - 1];
    assert evs == waited + [RecreateSwapchain];
    Driver.OccurrencesAppend(waited, [RecreateSwapchain], RecreateSwapchain);
    assert RecreateSwapchain !in waited;
  }

  /** A failed acquire never resets the fence, so the slot's fence stays
      signalled or pending and the next wait on it cannot block forever. */
  lemma FailedAcquireNeverResets(h: SlotHandles, fenceSignaled: bool, code: int,
                                 present: PresentResult, resized: bool)
    ensures var evs := FrameEvents(h, fenceSignaled, AcquireFailed(code), present, resized);
      forall k | 0 <= k < |evs| :: !evs[k].ResetFence? && !evs[k].Submit? && !evs[k].Present?
  {
  }

  /** The slot's fence is reset only after a successful acquire and before the
      submission, exactly once, and the submission signals that same fence. */
  lemma FenceResetBetweenAcquireAndSubmit(h: SlotHandles, fenceSignaled: bool, index: u32, suboptimal: bool,
                                          present: PresentResult, resized: bool, i: int)
    requires var evs := FrameEvents(h, fenceSignaled, Acquired(index, suboptimal), present, resized);
      0 <= i < |evs| && evs[i].ResetFence?
    ensures var evs := FrameEvents(h, fenceSignaled, Acquired(index, suboptimal), present, resized);
      && evs[i] == ResetFence(h.fence)
      && evs[i - 1] == Acquire(h.imageAvailable)
      && evs[i + 2] == Submit(h.imageAvailable, h.commandBuffer, h.renderFinished, h.fence)
      && (forall k | 0 <= k < |evs| && k != i :: !evs[k].ResetFence?)
  {
    var evs := FrameEvents(h, fenceSignaled, Acquired(index, suboptimal), present, resized);
    var waited := [WaitFence(h.fence)] + (if fenceSignaled then [] else [GpuSignal(h.fence)])
                  + [Acquire(h.imageAvailable)];
    var drawn := waited + [ResetFence(h.fence), Record(h.commandBuffer, index),
                           Submit(h.imageAvailable, h.commandBuffer, h.renderFinished, h.fence),
                           Present(index, h.renderFinished)];
    assert evs == drawn || evs == drawn + [RecreateSwapchain];
    assert forall k | 0 <= k < |evs| && k != |waited| :: !evs[k].ResetFence?;
  }

  /** The submission waits on the slot's image-available semaphore and signals
      its render-finished semaphore; the present waits on that same one. */
  lemma SubmitAndPresentChainSemaphores(h: SlotHandles, fenceSignaled: bool, index: u32, suboptimal: bool,
                                        present: PresentResult, resized: bool)
    ensures var evs := FrameEvents(h, fenceSignaled, Acquired(index, suboptimal), present, resized);
      var k := if fenceSignaled then 2 else 3;
      && evs[k] == ResetFence(h.fence)
      && evs[k + 2] == Submit(h.imageAvailable, h.commandBuffer, h.renderFinished, h.fence)
      && evs[k + 3] == Present(index, h.renderFinished)
      && evs[k + 3].wait == evs[k + 2].signal
  {
  }

  /** After a non-fatal present the swapchain is recreated exactly once iff the
      present was out of date or suboptimal or the window was resized. */
  lemma RecreateAfterPresentIff(h: SlotHandles, fenceSignaled: bool, index: u32, suboptimal: bool,
                                present: PresentResult, resized: bool)
    requires PresentNeedsRecreate(present).Some?
    ensures var evs := FrameEvents(h, fenceSignaled, Acquired(index, suboptimal), present, resized);
      Driver.Occurrences(evs, RecreateSwapchain)
        == if present == PresentFailed(ERROR_OUT_OF_DATE) || present == Presented(true) || resized then 1 else 0
  {
    var evs := FrameEvents(h, fenceSignaled, Acquired(index, suboptimal), present, resized);
    var waited := [WaitFence(h.fence)] + (if fenceSignaled then [] else [GpuSignal(h.fence)])
                  + [Acquire(h.imageAvailable)];
    var drawn := waited + [ResetFence(h.fence), Record(h.commandBuffer, index),
                           Submit(h.imageAvailable, h.commandBuffer, h.renderFinished, h.fence),
                           Present(index, h.renderFinished)];
    assert RecreateSwapchain !in drawn;
    Driver.OccurrencesAppend(drawn, [RecreateSwapchain], RecreateSwapchain);
  }

  /** A suboptimal acquire is treated like a plain success: it never
      recreates by itself. */
  lemma SuboptimalAcquireDoesNotRecreate(h: SlotHandles, fenceSignaled: bool, index: u32)
    ensures RecreateSwapchain !in FrameEvents(h, fenceSignaled, Acquired(index, true), Presented(false), false)
  {
  }

  /** The frame-loop state of VikingRoomApp. */
  class FrameLoop {
    const imageAvailable: seq<Handle>
    const renderFinished: seq<Handle>
    const inFlightFences: seq<Handle>
    const commandBuffers: seq<Handle>
    var currentFrame: nat
    var windowResized: bool
    /** Per slot: is the fence signalled? */
    var signaled: seq<bool>
    /** Per slot: has submitted work not yet completed on the GPU? */
    var pending: seq<bool>
    var events: seq<Event>

    /** Slots are in range, and every unsignalled fence has submitted work that
        will signal it, so waiting on any slot's fence can never block forever. */
    predicate Valid()
      reads this
    {
      && |imageAvailable| == FixedStuff.MAX_FRAMES_IN_FLIGHT
      && |renderFinished| == FixedStuff.MAX_FRAMES_IN_FLIGHT
      && |inFlightFences| == FixedStuff.MAX_FRAMES_IN_FLIGHT
      && |commandBuffers| == FixedStuff.MAX_FRAMES_IN_FLIGHT
      && |signaled| == FixedStuff.MAX_FRAMES_IN_FLIGHT
      && |pending| == FixedStuff.MAX_FRAMES_IN_FLIGHT
      && currentFrame < FixedStuff.MAX_FRAMES_IN_FLIGHT
      && forall s | 0 <= s < FixedStuff.MAX_FRAMES_IN_FLIGHT :: signaled[s] == !pending[s]
    }

    function Slot(s: nat): SlotHandles
      requires Valid() && s < FixedStuff.MAX_FRAMES_IN_FLIGHT
      reads this
    {
      SlotHandles(imageAvailable[s], renderFinished[s], inFlightFences[s], commandBuffers[s])
    }

    /** The app starts on slot 0, not resized, with every fence signalled as
        FixedVulkanStuff creates them. */
    constructor(imageAvailable: seq<Handle>, renderFinished: seq<Handle>,
                inFlightFences: seq<Handle>, commandBuffers: seq<Handle>)
      requires |imageAvailable| == FixedStuff.MAX_FRAMES_IN_FLIGHT
      requires |renderFinished| == FixedStuff.MAX_FRAMES_IN_FLIGHT
      requires |inFlightFences| == FixedStuff.MAX_FRAMES_IN_FLIGHT
      requires |commandBuffers| == FixedStuff.MAX_FRAMES_IN_FLIGHT
      ensures Valid()
      ensures this.imageAvailable == imageAvailable && this.renderFinished == renderFinished
      ensures this.inFlightFences == inFlightFences && this.commandBuffers == commandBuffers
      ensures currentFrame == 0 && !windowResized && events == []
      ensures forall s | 0 <= s < FixedStuff.MAX_FRAMES_IN_FLIGHT :: signaled[s]
    {
      this.imageAvailable := imageAvailable;
      this.renderFinished := renderFinished;
      this.inFlightFences := inFlightFences;
      this.commandBuffers := commandBuffers;
      currentFrame := 0;
      windowResized := false;
      signaled := [true, true];
      pending := [false, false];
      events := [];
    }

    /** on_window_resized: only records that a resize happened. */
    method OnWindowResized()
      modifies this
      ensures windowResized
      ensures currentFrame == old(currentFrame) && events == old(events)
      ensures signaled == old(signaled) && pending == old(pending)
    {
      windowResized := true;
    }

    /** The GPU finishes slot s's submitted work and signals its fence. */
    method GpuComplete(s: nat)
      requires Valid() && s < FixedStuff.MAX_FRAMES_IN_FLIGHT && pending[s]
      modifies this
      ensures Valid()
      ensures signaled == old(signaled)[s := true] && pending == old(pending)[s := false]
      ensures events == old(events) + [GpuSignal(inFlightFences[s])]
      ensures currentFrame == old(currentFrame) && windowResized == old(windowResized)
    {
      signaled := signaled[s := true];
      pending := pending[s := false];
      events := events + [GpuSignal(inFlightFences[s])];
    }

    /** wait_for_fences on slot s: returns at once when the fence is
        signalled, otherwise once the GPU has completed the slot's work. */
    method WaitForFence(s: nat)
      requires Valid() && s < FixedStuff.MAX_FRAMES_IN_FLIGHT
      modifies this
      ensures Valid() && signaled[s] && !pending[s]
      ensures signaled == old(signaled)[s := true] && pending == old(pending)[s := false]
      ensures events == old(events) + [WaitFence(inFlightFences[s])]
                        + (if old(signaled[s]) then [] else [GpuSignal(inFlightFences[s])])
      ensures currentFrame == old(currentFrame) && windowResized == old(windowResized)
    {
      events := events + [WaitFence(inFlightFences[s])];
      if !signaled[s] {
        GpuComplete(s);
      } else {
        assert signaled == signaled[s := true] && pending == pending[s := false];
      }
    }

    /** After a successful acquire: reset the slot's fence, record into its
        command buffer, submit (waiting on image-available, signalling
        render-finished and the fence), then present waiting on render-finished. */
    method ResetSubmitPresent(s: nat, index: u32)
      requires Valid() && s < FixedStuff.MAX_FRAMES_IN_FLIGHT && signaled[s]
      modifies this
      ensures Valid() && !signaled[s] && pending[s]
      ensures signaled == old(signaled)[s := false] && pending == old(pending)[s := true]
      ensures events == old(events) + [ResetFence(inFlightFences[s]), Record(commandBuffers[s], index),
                                       Submit(imageAvailable[s], commandBuffers[s], renderFinished[s], inFlightFences[s]),
                                       Present(index, renderFinished[s])]
      ensures currentFrame == old(currentFrame) && windowResized == old(windowResized)
    {
      signaled, pending := signaled[s := false], pending[s := true];
      events := events + [ResetFence(inFlightFences[s]), Record(commandBuffers[s], index),
                          Submit(imageAvailable[s], commandBuffers[s], renderFinished[s], inFlightFences[s]),
                          Present(index, renderFinished[s])];
    }

    /** draw_frame with the driver's answers to acquire and present. */
    method DrawFrame(acquire: AcquireResult, present: PresentResult) returns (outcome: FrameOutcome)
      requires Valid()
      modifies this
      ensures outcome == Outcome(acquire, present)
      ensures events == old(events) + FrameEvents(old(Slot(currentFrame)), old(signaled[currentFrame]),
                                                   acquire, present, old(windowResized))
      ensures outcome != Panicked ==> Valid()
      ensures outcome == AcquireOutOfDate ==>
        currentFrame == old(currentFrame) && windowResized == old(windowResized)
      ensures outcome == Drawn ==>
        && currentFrame == (old(currentFrame) + 1) % FixedStuff.MAX_FRAMES_IN_FLIGHT
        && !windowResized
      ensures outcome != Panicked ==>
        && signaled == old(signaled)[old(currentFrame) := outcome == AcquireOutOfDate]
        && pending == old(pending)[old(currentFrame) := outcome == Drawn]
    {
      var slot := currentFrame;
      ghost var h := Slot(slot);
      ghost var fenceSignaled, events0 := signaled[slot], events;
      ghost var waited := [WaitFence(h.fence)] + (if fenceSignaled then [] else [GpuSignal(h.fence)])
                          + [Acquire(h.imageAvailable)];
      WaitForFence(slot);
      events := events + [Acquire(imageAvailable[slot])];
      assert events == events0 + waited;
      if acquire.AcquireFailed? {
        if acquire.code == ERROR_OUT_OF_DATE {
          events := events + [RecreateSwapchain];
          return AcquireOutOfDate;
        }
        return Panicked;
      }
      ResetSubmitPresent(slot, acquire.imageIndex);
      assert events == events0 + waited + [ResetFence(h.fence), Record(h.commandBuffer, acquire.imageIndex),
                                           Submit(h.imageAvailable, h.commandBuffer, h.renderFinished, h.fence),
                                           Present(acquire.imageIndex, h.renderFinished)];
      outcome := AfterPresent(present);
    }

    /** The end of draw_frame, after the present: a fatal present error panics;
        otherwise the swapchain is recreated when needed or the window was
        resized, the resize flag is cleared and the slot advances. */
    method AfterPresent(present: PresentResult) returns (outcome: FrameOutcome)
      requires Valid()
      modifies this
      ensures outcome == (if PresentNeedsRecreate(present).None? then Panicked else Drawn)
      ensures Valid() && signaled == old(signaled) && pending == old(pending)
      ensures outcome == Panicked ==> events == old(events)
      ensures outcome == Drawn ==>
        && events == old(events) + (if PresentNeedsRecreate(present).value || old(windowResized)
                                    then [RecreateSwapchain] else [])
        && currentFrame == (old(currentFrame) + 1) % FixedStuff.MAX_FRAMES_IN_FLIGHT
        && !windowResized
    {
      var needRecreate := PresentNeedsRecreate(present);
      if needRecreate.None? {
        return Panicked;
      }
      if needRecreate.value || windowResized {
        windowResized := false;
        events := events + [RecreateSwapchain];
      }
      currentFrame := (currentFrame + 1) % FixedStuff.MAX_FRAMES_IN_FLIGHT;
      return Drawn;
    }

    /** The event loop's guard: a frame is drawn only for a non-empty window. */
    method OnMainEventsCleared(width: u32, height: u32, acquire: AcquireResult, present: PresentResult)
      returns (outcome: Option<FrameOutcome>)
      requires Valid()
      modifies this
      ensures width == 0 || height == 0 ==>
        && outcome == None && events == old(events) && currentFrame == old(currentFrame)
        && windowResized == old(windowResized) && signaled == old(signaled) && pending == old(pending)
      ensures width > 0 && height > 0 ==>
        && outcome == Some(Outcome(acquire, present))
        && events == old(events) + FrameEvents(old(Slot(currentFrame)), old(signaled[currentFrame]),
                                               acquire, present, old(windowResized))
      ensures outcome == Some(AcquireOutOfDate) ==>
        currentFrame == old(currentFrame) && windowResized == old(windowResized)
      ensures outcome == Some(Drawn) ==>
        currentFrame == (old(currentFrame) + 1) % FixedStuff.MAX_FRAMES_IN_FLIGHT && !windowResized
      ensures outcome.Some? && outcome != Some(Panicked) ==>
        && signaled == old(signaled)[old(currentFrame) := outcome == Some(AcquireOutOfDate)]
        && pending == old(pending)[old(currentFrame) := outcome == Some(Drawn)]
      ensures outcome != Some(Panicked) ==> Valid()
    {
      if width > 0 && height > 0 {
        var o := DrawFrame(acquire, present);
        return Some(o);
      }
      return None;
    }
  }

  /** One pass of the event loop: a resize notification possibly arriving
      first, the window's size when the events are cleared, and the driver's
      answers should a frame be drawn. */
  datatype FrameInput = FrameInput(resizedBefore: bool, width: u32, height: u32,
                                   acquire: AcquireResult, present: PresentResult)

  /** How one pass ends: None when the window is empty and nothing is drawn. */
  function PassOutcome(input: FrameInput): (r: Option<FrameOutcome>)
    ensures r.None? <==> input.width == 0 || input.height == 0
    ensures r.Some? ==> r.value == Outcome(input.acquire, input.present)
  {
    if input.width > 0 && input.height > 0 then Some(Outcome(input.acquire, input.present)) else None
  }

  /** The slot index after a run of non-panicking frames, from the slot's
      point of view: only drawn frames advance it. */
  function SlotAfter(start: nat, inputs: seq<FrameInput>): (s: nat)
    requires start < FixedStuff.MAX_FRAMES_IN_FLIGHT
    ensures s < FixedStuff.MAX_FRAMES_IN_FLIGHT
    decreases |inputs|
  {
    if inputs == [] then start
    else
      var next := if PassOutcome(inputs[0]) == Some(Drawn)
                  then (start + 1) % FixedStuff.MAX_FRAMES_IN_FLIGHT else start;
      SlotAfter(next, inputs[1..])
  }

  /** The event loop: starting from any valid state, every pass keeps the
      slot index in range and follows SlotAfter; the run panics exactly when
      some pass draws a frame that panics. */
  method RunFrames(app: FrameLoop, inputs: seq<FrameInput>) returns (panicked: bool)
    requires app.Valid()
    modifies app
    ensures panicked <==> exists k | 0 <= k < |inputs| :: PassOutcome(inputs[k]) == Some(Panicked)
    ensures !panicked ==> app.Valid() && app.currentFrame == SlotAfter(old(app.currentFrame), inputs)
  {
    var i := 0;
    ghost var start := app.currentFrame;
    while i < |inputs|
      invariant 0 <= i <= |inputs|
      invariant app.Valid()
      invariant SlotAfter(app.currentFrame, inputs[i..]) == SlotAfter(start, inputs)
      invariant forall k | 0 <= k < i :: PassOutcome(inputs[k]) != Some(Panicked)
    {
      if inputs[i].resizedBefore {
        app.OnWindowResized();
      }
      var outcome := app.OnMainEventsCleared(inputs[i].width, inputs[i].height,
                                             inputs[i].acquire, inputs[i].present);
      if outcome == Some(Panicked) {
        return true;
      }
      assert inputs[i..][1..] == inputs[i + 1..];
      i := i + 1;
    }
    return false;
  }
}
