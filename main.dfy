/** The window's event loop (src/main.rs): one call of the event handler per
    window event, rebuilding the swapchain when the renderer asks for it,
    drawing a frame and moving to the next frame slot. */
module EventLoop {
  import opened Outcomes
  import opened Vulkan
  import opened Resources
  import opened Base
  import opened Data
  import opened Render

  /** The window events the handler tells apart. */
  datatype Event = CloseRequested | MainEventsCleared | OtherEvent

  datatype ControlFlow = Poll | Exit

  /** The window's inner size in pixels. */
  datatype Size = Size(width: nat, height: nat)

  /** A minimised window: nothing is drawn. */
  predicate Minimised(size: Size) {
    size.width == 0 && size.height == 0
  }

  // Frame slots

  /** The slot after `current` among `k` slots. */
  function NextFrame(current: nat, k: nat): (n: nat)
    requires 1 <= k
    ensures n < k
  {
    (current + 1) % k
  }

  /** The slot `n` frames after `start`. */
  function Advance(start: nat, n: nat, k: nat): (slot: nat)
    requires 1 <= k
  {
    if n == 0 then start else NextFrame(Advance(start, n - 1, k), k)
  }

  lemma ModOfMultiplePlus(q: nat, k: nat, m: nat)
    requires 1 <= k && m < k
    ensures (q * k + m) % k == m
  {
    var x := q * k + m;
    var d := x / k;
    if d < q {
      MulLess(d, q, k);
      assert false;
    } else if d > q {
      MulLess(q, d, k);
      assert false;
    }
  }

  lemma {:induction false} MulLess(a: int, b: int, k: nat)
    requires a < b && 1 <= k
    ensures a * k + k <= b * k
    decreases b - a
  {
    assert (b - 1) * k + k == b * k;
    if a < b - 1 {
      MulLess(a, b - 1, k);
    }
  }

  lemma ModStep(a: nat, k: nat)
    requires 1 <= k
    ensures (a % k + 1) % k == (a + 1) % k
  {
    var q, r := a / k, a % k;
    assert a == q * k + r;
    if r + 1 < k {
      ModOfMultiplePlus(q, k, r + 1);
      ModOfMultiplePlus(0, k, r + 1);
    } else {
      assert a + 1 == (q + 1) * k + 0;
      ModOfMultiplePlus(q + 1, k, 0);
      ModOfMultiplePlus(1, k, 0);
    }
  }

  /** Moving on one slot per frame is counting modulo the number of slots. */
  lemma {:induction false} AdvanceIsModular(start: nat, n: nat, k: nat)
    requires 1 <= k && start < k
    ensures Advance(start, n, k) == (start + n) % k
  {
    if n == 0 {
      ModOfMultiplePlus(0, k, start);
    } else {
      AdvanceIsModular(start, n - 1, k);
      ModStep(start + n - 1, k);
    }
  }

  /** Any `k` consecutive frames use `k` different slots, and the `k`-th frame
      after a slot is that slot again. */
  lemma SlotsCycle(start: nat, k: nat)
    requires 1 <= k && start < k
    ensures Advance(start, k, k) == start
    ensures forall i, j :: 0 <= i < j < k ==> Advance(start, i, k) != Advance(start, j, k)
  {
    AdvanceIsModular(start, k, k);
    ModOfMultiplePlus(1, k, start);
    forall i, j | 0 <= i < j < k
      ensures Advance(start, i, k) != Advance(start, j, k)
    {
      AdvanceIsModular(start, i, k);
      AdvanceIsModular(start, j, k);
      Wrap(start + i, k);
      Wrap(start + j, k);
    }
  }

  /** A value below twice the modulus wraps at most once. */
  lemma Wrap(a: nat, k: nat)
    requires 1 <= k && a < 2 * k
    ensures a % k == if a < k then a else a - k
  {
    if a < k {
      ModOfMultiplePlus(0, k, a);
    } else {
      ModOfMultiplePlus(1, k, a - k);
    }
  }

  // One call of the event handler

  /** How one call of the handler ends: with a control flow for the event
      loop and the error it logged, if any, or with a panic, or never. */
  datatype Handled = Handled(flow: ControlFlow, logged: Option<string>, advance: bool) | Panicked(msg: string) | Hung

  /** A step that failed: its error is logged and the loop told to exit; a
      panic or a hang ends the handler there. */
  function Stop(r: Result<()>): (h: Handled)
    requires !r.Ok?
    ensures r.Err? <==> h.Handled?
    ensures r.Err? ==> h == Handled(Exit, Some(r.msg), false)
    ensures r.Panic? ==> h == Panicked(r.msg)
    ensures r.Hang? ==> h == Hung
  {
    match r
    case Err(m) => Handled(Exit, Some(m), false)
    case Panic(m) => Panicked(m)
    case Hang => Hung
  }

  /** Whether the handler rebuilds the swapchain, and whether it draws. */
  predicate Rebuilds(event: Event, minimised: bool, rebuild: bool) {
    event == MainEventsCleared && !minimised && rebuild
  }

  predicate Draws(event: Event, minimised: bool, rebuild: bool, base: Result<()>, data: Result<()>) {
    event == MainEventsCleared && !minimised && (rebuild ==> base.Ok? && data.Ok?)
  }

  /** The handler, given the outcomes of the base rebuild, the data rebuild
      and the draw (each used only when that step runs). */
  function TickSpec(event: Event, minimised: bool, rebuild: bool, base: Result<()>, data: Result<()>, draw: Result<()>): Handled {
    match event
    case CloseRequested => Handled(Exit, None, false)
    case OtherEvent => Handled(Poll, None, false)
    case MainEventsCleared =>
      if minimised then Handled(Poll, None, false)
      else if rebuild && !base.Ok? then Stop(base)
      else if rebuild && !data.Ok? then Stop(data)
      else if !draw.Ok? then Stop(draw)
      else Handled(Poll, None, true)
  }

  /** The frame slot moves on exactly when a frame was drawn without error,
      and only `Poll` follows a drawn frame. */
  lemma TickAdvancesIff(event: Event, minimised: bool, rebuild: bool, base: Result<()>, data: Result<()>, draw: Result<()>)
    ensures var h := TickSpec(event, minimised, rebuild, base, data, draw);
      && (h.Handled? && h.advance <==> Draws(event, minimised, rebuild, base, data) && draw.Ok?)
      && (h.Handled? && h.advance ==> h.flow == Poll && h.logged == None)
  {
  }

  /** The loop is told to exit exactly on a close request or on a step that
      returned an error, and the error logged is that of the first failing
      step. */
  lemma TickExitsIff(event: Event, minimised: bool, rebuild: bool, base: Result<()>, data: Result<()>, draw: Result<()>)
    ensures var h := TickSpec(event, minimised, rebuild, base, data, draw);
      && (h.Handled? && h.flow == Exit <==>
            event == CloseRequested
            || (Rebuilds(event, minimised, rebuild) && base.Err?)
            || (Rebuilds(event, minimised, rebuild) && base.Ok? && data.Err?)
            || (Draws(event, minimised, rebuild, base, data) && draw.Err?))
      && (event == CloseRequested ==> h.logged == None)
      && (Rebuilds(event, minimised, rebuild) && base.Err? ==> h.logged == Some(base.msg))
      && (Rebuilds(event, minimised, rebuild) && base.Ok? && data.Err? ==> h.logged == Some(data.msg))
      && (Draws(event, minimised, rebuild, base, data) && draw.Err? ==> h.logged == Some(draw.msg))
  {
  }

  /** A panic or a hang in a step that runs ends the handler the same way;
      nothing else panics or hangs. */
  lemma TickPanicsIff(event: Event, minimised: bool, rebuild: bool, base: Result<()>, data: Result<()>, draw: Result<()>)
    ensures var h := TickSpec(event, minimised, rebuild, base, data, draw);
      && (!h.Handled? <==>
            (Rebuilds(event, minimised, rebuild) && (base.Panic? || base.Hang?))
            || (Rebuilds(event, minimised, rebuild) && base.Ok? && (data.Panic? || data.Hang?))
            || (Draws(event, minimised, rebuild, base, data) && (draw.Panic? || draw.Hang?)))
      && (Draws(event, minimised, rebuild, base, data) && draw == Hang ==> h == Hung)
      && (Rebuilds(event, minimised, rebuild) && base.Panic? ==> h == Panicked(base.msg))
  {
  }

  /** A minimised window, a close request or any other event leaves
      everything to the next event: nothing is rebuilt or drawn. */
  lemma IdleEventsDoNothing(event: Event, minimised: bool, rebuild: bool, base: Result<()>, data: Result<()>, draw: Result<()>)
    requires event != MainEventsCleared || minimised
    ensures var h := TickSpec(event, minimised, rebuild, base, data, draw);
      && h.Handled? && h.logged == None && !h.advance
      && (h.flow == Exit <==> event == CloseRequested)
      && !Rebuilds(event, minimised, rebuild) && !Draws(event, minimised, rebuild, base, data)
  {
  }

  /** The outcomes of the device calls one call of the handler makes. */
  datatype TickOracle = TickOracle(size: Size, resize: ResizeOracle, framebuffers: seq<bool>, draw: DrawOracle)

  /** The rebuild in `MainEventsCleared` from device state `before`, swapchain
      `chain0` and framebuffers `fbs0`: `RenderBase::resize` leaves the device
      in `s1`; if it failed, the swapchain and the framebuffers stay and the
      tick goes no further; if it succeeded, the swapchain is the new one and
      `RenderData::resize` rebuilds the framebuffers on its views, ending in
      `after` with framebuffers `fbs`. */
  ghost predicate Rebuilt(before: DeviceState, chain0: ResizeResult, fbs0: seq<Handle>, surface: Handle, renderPass: Handle,
                          o: ResizeOracle, framebuffers: seq<bool>, baseR: Result<()>, dataR: Result<()>,
                          s1: DeviceState, after: DeviceState, chain: ResizeResult, fbs: seq<Handle>)
  {
    var b := ResizeOutcome(o, before.next);
    && s1 == ResizeState(before, o, chain0.swapchain, surface, chain0.swapchainImageViews)
    && baseR == Forget(b)
    && chain == (if b.Ok? then b.value else chain0)
    && (!b.Ok? ==> dataR == Ok(()) && fbs == fbs0 && after == s1)
    && (b.Ok? ==>
          var infos := FramebufferInfos(chain.swapchainImageViews, renderPass, chain.surfaceExtent);
          var ok := PadFlags(framebuffers, |chain.swapchainImageViews|);
          var out := LoopResult(infos, ok, s1.next, "framebuffer");
          && dataR == Forget(out)
          && fbs == (if out.Ok? then out.value else fbs0)
          && after == DataResizeState(s1, fbs0, infos, ok))
  }

  /** The rebuild in `MainEventsCleared`: `RenderBase::resize`, then, if it
      succeeded, `RenderData::resize` on the new image views. */
  method Rebuild(base: RenderBase, data: RenderData, o: ResizeOracle, framebuffers: seq<bool>)
    returns (baseR: Result<()>, dataR: Result<()>, ghost s1: DeviceState)
    requires base.Valid() && data.Valid()
    requires forall i :: 0 <= i < |data.fences| ==> data.fences[i] in base.device.fence
    modifies base, data, base.device
    ensures base.Valid() && data.Valid()
    ensures Rebuilt(old(base.device.State()), old(base.Swapchain()), old(data.framebuffers), base.surface, data.renderPass,
                    o, framebuffers, baseR, dataR, s1, base.device.State(), base.Swapchain(), data.framebuffers)
    ensures forall i :: 0 <= i < |data.fences| ==>
      data.fences[i] in base.device.fence
      && base.device.fence[data.fences[i]] == (if o.idle then Idled(old(base.device.fence)) else old(base.device.fence))[data.fences[i]]
  {
    ResizeKeepsFenceSeq(base.device.State(), o, base.swapchain, base.surface, base.swapchainImageViews, data.fences);
    baseR := base.Resize(o);
    s1 := base.device.State();
    dataR := Ok(());
    if baseR.Ok? {
      dataR := RebuildData(base, data, framebuffers);
    }
  }

  /** `RenderData::resize` on the image views of the rebuilt swapchain. */
  method RebuildData(base: RenderBase, data: RenderData, framebuffers: seq<bool>) returns (dataR: Result<()>)
    requires base.Valid() && data.Valid()
    requires forall i :: 0 <= i < |data.fences| ==> data.fences[i] in base.device.fence
    modifies data, base.device
    ensures base.Valid() && data.Valid()
    ensures base.Swapchain() == old(base.Swapchain())
    ensures var infos := FramebufferInfos(base.swapchainImageViews, data.renderPass, base.surfaceExtent);
      var ok := PadFlags(framebuffers, |base.swapchainImageViews|);
      var out := LoopResult(infos, ok, old(base.device.next), "framebuffer");
      && dataR == Forget(out)
      && data.framebuffers == (if out.Ok? then out.value else old(data.framebuffers))
      && base.device.State() == DataResizeState(old(base.device.State()), old(data.framebuffers), infos, ok)
    ensures forall i :: 0 <= i < |data.fences| ==>
      data.fences[i] in base.device.fence && base.device.fence[data.fences[i]] == old(base.device.fence)[data.fences[i]]
  {
    var ok := PadFlags(framebuffers, |base.swapchainImageViews|);
    DataResizeKeepsFenceSeq(base.device.State(), data.framebuffers, base.swapchainImageViews, data.renderPass, base.surfaceExtent, ok, data.fences);
    dataR := data.Resize(base, ok);
  }

  /** The rebuild the renderer asked for: the request is cleared first, then
      the base and the framebuffers are rebuilt. */
  method RebuildStep(r: Renderer, o: TickOracle) returns (baseR: Result<()>, dataR: Result<()>, ghost s1: DeviceState)
    requires r.Valid()
    modifies r, r.base, r.data, r.base.device
    ensures r.Valid()
    ensures Rebuilt(old(r.base.device.State()), old(r.base.Swapchain()), old(r.data.framebuffers), r.base.surface, r.data.renderPass,
                    o.resize, o.framebuffers, baseR, dataR, s1, r.base.device.State(), r.base.Swapchain(), r.data.framebuffers)
    ensures var f := r.data.fences[r.currentFrameIndex];
      f in r.base.device.fence
      && r.base.device.fence[f] == (if o.resize.idle then Idled(old(r.base.device.fence)) else old(r.base.device.fence))[f]
    ensures !r.rebuildSwapchain && r.currentFrameIndex == old(r.currentFrameIndex) && r.imageIndex == old(r.imageIndex)
  {
    r.rebuildSwapchain := false;
    baseR, dataR, s1 := Rebuild(r.base, r.data, o.resize, o.framebuffers);
  }

  /** `renderer.draw()` followed, when it succeeded, by the move to the next
      frame slot. */
  method DrawStep(r: Renderer, o: DrawOracle) returns (drawR: Result<()>)
    requires r.Valid()
    modifies r, r.base.device
    ensures r.Valid()
    ensures var refs := r.RefsAt(old(r.currentFrameIndex));
      var e := DrawSpec(refs, o, old(r.base.device.fence[refs.fence]));
      && drawR == e.result
      && r.base.device.State() == FrameState(old(r.base.device.State()), refs.fence, e)
      && r.rebuildSwapchain == (old(r.rebuildSwapchain) || e.rebuild)
      && r.imageIndex == (if e.image.Some? then e.image.value else old(r.imageIndex))
    ensures r.currentFrameIndex == if drawR.Ok? then NextFrame(old(r.currentFrameIndex), r.data.maxFrameDraws) else old(r.currentFrameIndex)
    ensures r.base.Swapchain() == old(r.base.Swapchain()) && r.data.framebuffers == old(r.data.framebuffers)
  {
    drawR := r.Draw(o);
    if drawR.Ok? {
      r.currentFrameIndex := NextFrame(r.currentFrameIndex, r.data.maxFrameDraws);
    }
  }

  /** `MainEventsCleared` on a window that is not minimised: the rebuild the
      renderer asked for, then the draw and the move to the next slot. The
      ghost results are the outcomes of the steps that ran, and `mid` the
      device just before the draw. */
  method MainEvents(r: Renderer, o: TickOracle)
    returns (h: Handled, ghost baseR: Result<()>, ghost dataR: Result<()>, ghost drawR: Result<()>,
             ghost s1: DeviceState, ghost mid: DeviceState)
    requires r.Valid()
    modifies r, r.base, r.data, r.base.device
    ensures r.Valid()
    ensures h == TickSpec(MainEventsCleared, false, old(r.rebuildSwapchain), baseR, dataR, drawR)
    ensures old(r.rebuildSwapchain) ==>
      Rebuilt(old(r.base.device.State()), old(r.base.Swapchain()), old(r.data.framebuffers), r.base.surface, r.data.renderPass,
              o.resize, o.framebuffers, baseR, dataR, s1, mid, r.base.Swapchain(), r.data.framebuffers)
    ensures !old(r.rebuildSwapchain) ==>
      mid == old(r.base.device.State()) && r.base.Swapchain() == old(r.base.Swapchain()) && r.data.framebuffers == old(r.data.framebuffers)
    ensures var f := r.data.fences[old(r.currentFrameIndex)];
      f in mid.fence && mid.fence[f] == (if old(r.rebuildSwapchain) && o.resize.idle then Idled(old(r.base.device.fence)) else old(r.base.device.fence))[f]
    ensures var refs := r.RefsAt(old(r.currentFrameIndex));
      var e := DrawSpec(refs, o.draw, mid.fence[refs.fence]);
      if Draws(MainEventsCleared, false, old(r.rebuildSwapchain), baseR, dataR) then
        && drawR == e.result
        && r.base.device.State() == FrameState(mid, refs.fence, e)
        && r.rebuildSwapchain == e.rebuild
        && r.imageIndex == (if e.image.Some? then e.image.value else old(r.imageIndex))
      else
        && r.base.device.State() == mid
        && !r.rebuildSwapchain
        && r.imageIndex == old(r.imageIndex)
    ensures r.currentFrameIndex == if h.Handled? && h.advance then NextFrame(old(r.currentFrameIndex), r.data.maxFrameDraws) else old(r.currentFrameIndex)
  {
    baseR, dataR, drawR, s1 := Ok(()), Ok(()), Ok(()), r.base.device.State();
    if r.rebuildSwapchain {
      var resized, rebuilt;
      resized, rebuilt, s1 := RebuildStep(r, o);
      baseR, dataR, mid := resized, rebuilt, r.base.device.State();
      if !resized.Ok? {
        return Stop(resized), baseR, dataR, drawR, s1, mid;
      }
      if !rebuilt.Ok? {
        return Stop(rebuilt), baseR, dataR, drawR, s1, mid;
      }
    }
    mid := r.base.device.State();
    var drawn := DrawStep(r, o.draw);
    drawR := drawn;
    if !drawn.Ok? {
      return Stop(drawn), baseR, dataR, drawR, s1, mid;
    }
    h := Handled(Poll, None, true);
  }

  /** One call of the event handler (src/main.rs): `CloseRequested` asks the
      loop to exit, `MainEventsCleared` on a window that is not minimised
      rebuilds if asked to and draws, and everything else leaves the loop
      polling. The ghost results are the outcomes of the steps that ran and
      `mid` the device just before the draw. */
  method HandleEvent(r: Renderer, event: Event, o: TickOracle)
    returns (h: Handled, ghost baseR: Result<()>, ghost dataR: Result<()>, ghost drawR: Result<()>,
             ghost s1: DeviceState, ghost mid: DeviceState)
    requires r.Valid()
    modifies r, r.base, r.data, r.base.device
    ensures r.Valid()
    ensures var rebuilds := Rebuilds(event, Minimised(o.size), old(r.rebuildSwapchain));
      && h == TickSpec(event, Minimised(o.size), old(r.rebuildSwapchain), baseR, dataR, drawR)
      && (rebuilds ==>
            Rebuilt(old(r.base.device.State()), old(r.base.Swapchain()), old(r.data.framebuffers), r.base.surface, r.data.renderPass,
                    o.resize, o.framebuffers, baseR, dataR, s1, mid, r.base.Swapchain(), r.data.framebuffers))
      && (!rebuilds ==>
            mid == old(r.base.device.State()) && r.base.Swapchain() == old(r.base.Swapchain()) && r.data.framebuffers == old(r.data.framebuffers))
    ensures var f := r.data.fences[old(r.currentFrameIndex)];
      var rebuilds := Rebuilds(event, Minimised(o.size), old(r.rebuildSwapchain));
      f in mid.fence && mid.fence[f] == (if rebuilds && o.resize.idle then Idled(old(r.base.device.fence)) else old(r.base.device.fence))[f]
    ensures var refs := r.RefsAt(old(r.currentFrameIndex));
      var e := DrawSpec(refs, o.draw, mid.fence[refs.fence]);
      var rebuilds := Rebuilds(event, Minimised(o.size), old(r.rebuildSwapchain));
      if Draws(event, Minimised(o.size), old(r.rebuildSwapchain), baseR, dataR) then
        && drawR == e.result
        && r.base.device.State() == FrameState(mid, refs.fence, e)
        && r.rebuildSwapchain == e.rebuild
        && r.imageIndex == (if e.image.Some? then e.image.value else old(r.imageIndex))
      else
        && r.base.device.State() == mid
        && r.rebuildSwapchain == (old(r.rebuildSwapchain) && !rebuilds)
        && r.imageIndex == old(r.imageIndex)
    ensures r.currentFrameIndex == if h.Handled? && h.advance then NextFrame(old(r.currentFrameIndex), r.data.maxFrameDraws) else old(r.currentFrameIndex)
  {
    baseR, dataR, drawR, s1, mid := Ok(()), Ok(()), Ok(()), r.base.device.State(), r.base.device.State();
    if event == CloseRequested {
      h := Handled(Exit, None, false);
    } else if event == OtherEvent || Minimised(o.size) {
      h := Handled(Poll, None, false);
    } else {
      h, baseR, dataR, drawR, s1, mid := MainEvents(r, o);
    }
  }
}
