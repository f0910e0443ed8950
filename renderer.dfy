/** The renderer's frame: the per-slot fence protocol, image acquisition and
    presentation, and the recording of one frame's command buffer
    (src/renderer/mod.rs and src/renderer/draw_setup.rs). */
module Render {
  import opened Outcomes
  import opened Vulkan
  import opened Resources
  import opened Base
  import opened Data

  // The renderer's error messages, as `expect`, `map_err` and `format!` spell them.
  const AcquireFailed: string := "failed to acquire next image"
  const PresentFailed: string := "failed to present"
  const WaitFenceFailed: string := "failed to wait for resource fence "
  const ResetFenceFailed: string := "failed to reset resource fence "
  const BeginFailed: string := "failed to begin command buffer"
  const EndFailed: string := "failed to end command buffer"
  const SubmitFailed: string := "failed to submit graphics command buffer"

  /** `get_img_index` on the display engine's reply: the image to draw into,
      `None` when the swapchain has to be rebuilt first, or an error. */
  function ClassifyAcquire(reply: AcquireReply): (r: Result<Option<nat>>)
    ensures r.Ok? && r.value.Some? <==> reply.AcquireOk? && !reply.suboptimal
    ensures r.Ok? && r.value.Some? ==> r.value.value == reply.index
    ensures r == Ok(None) <==> (reply.AcquireOk? && reply.suboptimal) || reply == AcquireErr(ERROR_OUT_OF_DATE_KHR)
    ensures r.Err? <==> reply.AcquireErr? && reply.code != ERROR_OUT_OF_DATE_KHR
    ensures r.Err? ==> r.msg == AcquireFailed
    ensures r.Ok? || r.Err?
  {
    match reply
    case AcquireOk(index, suboptimal) => if suboptimal then Ok(None) else Ok(Some(index))
    case AcquireErr(code) => if code == ERROR_OUT_OF_DATE_KHR then Ok(None) else Err(AcquireFailed)
  }

  /** `present` on the display engine's reply: `false` when the swapchain has
      to be rebuilt, `true` for any successful presentation. */
  function ClassifyPresent(reply: PresentReply): (r: Result<bool>)
    ensures r == Ok(true) <==> reply.PresentOk?
    ensures r == Ok(false) <==> reply == PresentErr(SUBOPTIMAL_KHR) || reply == PresentErr(ERROR_OUT_OF_DATE_KHR)
    ensures r.Err? <==> reply.PresentErr? && reply.code != SUBOPTIMAL_KHR && reply.code != ERROR_OUT_OF_DATE_KHR
    ensures r.Err? ==> r.msg == PresentFailed
    ensures r.Ok? || r.Err?
  {
    match reply
    case PresentOk(_) => Ok(true)
    case PresentErr(code) =>
      if code == SUBOPTIMAL_KHR || code == ERROR_OUT_OF_DATE_KHR then Ok(false) else Err(PresentFailed)
  }

  /** The message Rust panics with when a `Vec` index is out of range. */
  function IndexPanic(len: nat, index: nat): string {
    "index out of bounds: the len is " + NatToString(len) + " but the index is " + NatToString(index)
  }

  /** The objects one frame works with, all picked by the frame slot: the
      slot's fence and command buffer, the framebuffer at the slot's position
      (`None` when there are fewer framebuffers than slots), and the shared
      render pass, swapchain, queue, semaphores and extent. */
  datatype FrameRefs = FrameRefs(
    slot: nat,
    fence: Handle,
    commandBuffer: Handle,
    framebuffer: Option<Handle>,
    framebufferCount: nat,
    renderPass: Handle,
    swapchain: Handle,
    queue: Handle,
    imgAvailable: Handle,
    renderFinished: Handle,
    extent: Extent)

  /** The outcomes of the device calls one `draw` makes, in order. */
  datatype DrawOracle = DrawOracle(
    wait: bool,
    reset: bool,
    acquire: AcquireReply,
    resetCommandBuffer: bool,
    beginCommandBuffer: bool,
    endCommandBuffer: bool,
    submit: bool,
    present: PresentReply)

  /** The fence wait and reset that open a frame. */
  function WaitCalls(refs: FrameRefs): seq<Call> {
    [WaitForFence(refs.fence), ResetFence(refs.fence)]
  }

  /** The render pass recorded into the slot's command buffer (with a null
      framebuffer when the slot has none, a call no draw reaches). */
  function PassCalls(refs: FrameRefs): seq<Call> {
    var cb := refs.commandBuffer;
    var fb := if refs.framebuffer.Some? then refs.framebuffer.value else NullHandle(FramebufferKind);
    [ CmdBeginRenderPass(cb, refs.renderPass, fb, refs.extent),
      CmdSetViewport(cb, refs.extent), CmdSetScissor(cb, refs.extent),
      CmdEndRenderPass(cb), EndCommandBuffer(cb) ]
  }

  function RecordCalls(refs: FrameRefs): seq<Call> {
    [ResetCommandBuffer(refs.commandBuffer), BeginCommandBuffer(refs.commandBuffer)] + PassCalls(refs)
  }

  function PresentCalls(refs: FrameRefs): seq<Call> {
    [ QueueSubmit(refs.queue, refs.commandBuffer, refs.imgAvailable, refs.renderFinished, refs.fence),
      QueuePresent(refs.queue, refs.renderFinished, refs.swapchain, refs.slot) ]
  }

  /** The full call sequence of one frame, from the fence wait to the present. */
  function FrameCalls(refs: FrameRefs): (calls: seq<Call>)
    ensures |calls| == 12
  {
    ((WaitCalls(refs) + [AcquireNextImage(refs.swapchain, refs.imgAvailable)]) + RecordCalls(refs)) + PresentCalls(refs)
  }

  predicate IsPrefix<T(==)>(p: seq<T>, s: seq<T>) {
    |p| <= |s| && p == s[..|p|]
  }

  lemma PrefixOfLonger<T>(p: seq<T>, s: seq<T>, t: seq<T>)
    requires IsPrefix(p, s)
    ensures IsPrefix(p, s + t)
  {
    assert (s + t)[..|p|] == s[..|p|];
  }

  lemma PrefixAfter<T>(s: seq<T>, p: seq<T>, t: seq<T>)
    requires IsPrefix(p, t)
    ensures IsPrefix(s + p, s + t)
  {
    assert (s + t)[..|s + p|] == s + t[..|p|];
  }

  // wait_resource_available

  /** The wait got through: the wait call succeeded on a fence that is
      signalled or will be. */
  predicate Waited(wait: bool, before: FenceState) {
    wait && before != Unsignaled
  }

  function WaitOutcome(wait: bool, reset: bool, before: FenceState, slot: nat): Result<()> {
    if !wait then Err(WaitFenceFailed + NatToString(slot))
    else if before == Unsignaled then Hang
    else if !reset then Err(ResetFenceFailed + NatToString(slot))
    else Ok(())
  }

  function WaitFence(wait: bool, reset: bool, before: FenceState): FenceState {
    if !Waited(wait, before) then before else if reset then Unsignaled else Signaled
  }

  function WaitLog(f: Handle, wait: bool, before: FenceState): seq<Call> {
    if Waited(wait, before) then [WaitForFence(f), ResetFence(f)] else [WaitForFence(f)]
  }

  /** The wait comes back only from a fence that is signalled or pending, and
      succeeds exactly when both calls do, leaving the fence unsignalled; a
      failure names the slot. */
  lemma WaitThenReset(wait: bool, reset: bool, before: FenceState, slot: nat)
    ensures var r := WaitOutcome(wait, reset, before, slot);
      && (r.Ok? <==> wait && reset && before != Unsignaled)
      && (r.Ok? ==> WaitFence(wait, reset, before) == Unsignaled)
      && (r.Hang? <==> wait && before == Unsignaled)
      && (!wait ==> r == Err(WaitFenceFailed + NatToString(slot)))
      && (Waited(wait, before) && !reset ==>
            r == Err(ResetFenceFailed + NatToString(slot)) && WaitFence(wait, reset, before) == Signaled)
  {
  }

  /** Two slots never report the same wait or reset failure. */
  lemma WaitMessagesNameSlot(reset: bool, before: FenceState, slot: nat, other: nat)
    requires slot != other
    ensures WaitOutcome(false, reset, before, slot) != WaitOutcome(false, reset, before, other)
    ensures before != Unsignaled ==> WaitOutcome(true, false, before, slot) != WaitOutcome(true, false, before, other)
  {
    if WaitOutcome(false, reset, before, slot) == WaitOutcome(false, reset, before, other) {
      IndexedMessageInjective(WaitFenceFailed, slot, other);
    }
    if before != Unsignaled && WaitOutcome(true, false, before, slot) == WaitOutcome(true, false, before, other) {
      IndexedMessageInjective(ResetFenceFailed, slot, other);
    }
  }

  // Recording: src/renderer/mod.rs:47-69 with the draw_setup helpers

  function RecordOutcome(refs: FrameRefs, o: DrawOracle): Result<()> {
    if !o.resetCommandBuffer then Panic(UnwrapMsg)
    else if !o.beginCommandBuffer then Err(BeginFailed)
    else if refs.framebuffer.None? then Panic(IndexPanic(refs.framebufferCount, refs.slot))
    else if !o.endCommandBuffer then Err(EndFailed)
    else Ok(())
  }

  /** The calls of the render pass once the command buffer has begun; none
      when the slot has no framebuffer. */
  function RecordPassLog(refs: FrameRefs): seq<Call> {
    if refs.framebuffer.None? then [] else PassCalls(refs)
  }

  function RecordLog(refs: FrameRefs, o: DrawOracle): seq<Call> {
    [ResetCommandBuffer(refs.commandBuffer)] +
    if !o.resetCommandBuffer then [] else
    [BeginCommandBuffer(refs.commandBuffer)] +
    if !o.beginCommandBuffer then [] else RecordPassLog(refs)
  }

  // submit and present

  function PresentStageOutcome(o: DrawOracle): Result<bool> {
    if !o.submit then Err(SubmitFailed) else ClassifyPresent(o.present)
  }

  function PresentStageLog(refs: FrameRefs, o: DrawOracle): seq<Call> {
    if o.submit then PresentCalls(refs) else PresentCalls(refs)[..1]
  }

  /** What one `draw` does: its result, the calls it makes, the state it leaves
      the slot's fence in, whether it asks for a rebuild and the image index
      it stores, if any. */
  datatype DrawEffect = DrawEffect(result: Result<()>, log: seq<Call>, fence: FenceState, rebuild: bool, image: Option<nat>)

  /** How far a draw gets: 0 when the fence wait or reset fails, 1 when the
      acquire fails or asks for a rebuild, 2 when the recording fails, 3 when
      it reaches the submit. */
  function DrawStage(refs: FrameRefs, o: DrawOracle, before: FenceState): (n: nat)
    ensures n <= 3
  {
    if !WaitOutcome(o.wait, o.reset, before, refs.slot).Ok? then 0
    else if !ClassifyAcquire(o.acquire).Ok? || ClassifyAcquire(o.acquire).value.None? then 1
    else if !RecordOutcome(refs, o).Ok? then 2
    else 3
  }

  function DrawResult(refs: FrameRefs, o: DrawOracle, before: FenceState): Result<()> {
    match DrawStage(refs, o, before)
    case 0 => WaitOutcome(o.wait, o.reset, before, refs.slot)
    case 1 => Forget(ClassifyAcquire(o.acquire))
    case 2 => RecordOutcome(refs, o)
    case _ => Forget(PresentStageOutcome(o))
  }

  function DrawLog(refs: FrameRefs, o: DrawOracle, before: FenceState): seq<Call> {
    var acq := WaitCalls(refs) + [AcquireNextImage(refs.swapchain, refs.imgAvailable)];
    match DrawStage(refs, o, before)
    case 0 => WaitLog(refs.fence, o.wait, before)
    case 1 => acq
    case 2 => acq + RecordLog(refs, o)
    case _ => (acq + RecordLog(refs, o)) + PresentStageLog(refs, o)
  }

  function DrawFence(refs: FrameRefs, o: DrawOracle, before: FenceState): FenceState {
    match DrawStage(refs, o, before)
    case 0 => WaitFence(o.wait, o.reset, before)
    case 1 => Unsignaled
    case 2 => Unsignaled
    case _ => if o.submit then Pending else Unsignaled
  }

  /** `Renderer::draw`, given the state of the slot's fence before it: a
      rebuild is requested by an acquire or a present that finds the
      swapchain stale, and the image index is stored once an image is
      acquired. */
  function DrawSpec(refs: FrameRefs, o: DrawOracle, before: FenceState): DrawEffect {
    var n := DrawStage(refs, o, before);
    DrawEffect(
      DrawResult(refs, o, before), DrawLog(refs, o, before), DrawFence(refs, o, before),
      (n == 1 && ClassifyAcquire(o.acquire).Ok?) || (n == 3 && PresentStageOutcome(o) == Ok(false)),
      if n >= 2 then ClassifyAcquire(o.acquire).value else None)
  }

  /** The device after a draw: one fence changed and the calls appended. */
  function FrameState(s: DeviceState, f: Handle, e: DrawEffect): DeviceState {
    DeviceState(s.next, s.live, s.fence[f := e.fence], s.log + e.log)
  }

  /** The device after `wait_resource_available` on fence `f`. */
  function WaitState(s: DeviceState, f: Handle, wait: bool, reset: bool): DeviceState
    requires f in s.fence
  {
    s.(fence := s.fence[f := WaitFence(wait, reset, s.fence[f])], log := s.log + WaitLog(f, wait, s.fence[f]))
  }

  /** The device after calls that change nothing but the log. */
  function Logged(s: DeviceState, calls: seq<Call>): DeviceState {
    s.(log := s.log + calls)
  }

  /** The device after recording, submit and present. */
  function RenderState(s: DeviceState, refs: FrameRefs, o: DrawOracle): DeviceState {
    var rec := RecordOutcome(refs, o);
    s.(fence := if rec.Ok? && o.submit then s.fence[refs.fence := Pending] else s.fence,
       log := s.log + (RecordLog(refs, o) + if rec.Ok? then PresentStageLog(refs, o) else []))
  }

  /** `DrawSpec` for a draw that stops at the fence wait. */
  lemma DrawAtWait(s: DeviceState, refs: FrameRefs, o: DrawOracle)
    requires refs.fence in s.fence && !WaitOutcome(o.wait, o.reset, s.fence[refs.fence], refs.slot).Ok?
    ensures var e := DrawSpec(refs, o, s.fence[refs.fence]);
      && e.result == WaitOutcome(o.wait, o.reset, s.fence[refs.fence], refs.slot) && !e.rebuild && e.image == None
      && FrameState(s, refs.fence, e) == WaitState(s, refs.fence, o.wait, o.reset)
  {
  }

  /** `DrawSpec` for a draw that stops at the acquire. */
  lemma DrawAtAcquire(s: DeviceState, refs: FrameRefs, o: DrawOracle)
    requires refs.fence in s.fence && WaitOutcome(o.wait, o.reset, s.fence[refs.fence], refs.slot).Ok?
    requires ClassifyAcquire(o.acquire).Err? || ClassifyAcquire(o.acquire) == Ok(None)
    ensures var e, a := DrawSpec(refs, o, s.fence[refs.fence]), ClassifyAcquire(o.acquire);
      && e.result == Forget(a) && e.rebuild == a.Ok? && e.image == None
      && FrameState(s, refs.fence, e)
         == Logged(WaitState(s, refs.fence, o.wait, o.reset), [AcquireNextImage(refs.swapchain, refs.imgAvailable)])
  {
    assert WaitLog(refs.fence, o.wait, s.fence[refs.fence]) == WaitCalls(refs);
  }

  /** `DrawSpec` for a draw that acquires an image. */
  lemma DrawAfterAcquire(s: DeviceState, refs: FrameRefs, o: DrawOracle)
    requires refs.fence in s.fence && WaitOutcome(o.wait, o.reset, s.fence[refs.fence], refs.slot).Ok?
    requires ClassifyAcquire(o.acquire).Ok? && ClassifyAcquire(o.acquire).value.Some?
    ensures var e, rec, p := DrawSpec(refs, o, s.fence[refs.fence]), RecordOutcome(refs, o), PresentStageOutcome(o);
      && e.result == (if rec.Ok? then Forget(p) else rec)
      && e.rebuild == (rec.Ok? && p == Ok(false))
      && e.image == ClassifyAcquire(o.acquire).value
  {
  }

  /** The calls and the fence of a draw that acquires an image. */
  lemma DrawAfterAcquireParts(refs: FrameRefs, o: DrawOracle, before: FenceState)
    requires WaitOutcome(o.wait, o.reset, before, refs.slot).Ok?
    requires ClassifyAcquire(o.acquire).Ok? && ClassifyAcquire(o.acquire).value.Some?
    ensures DrawLog(refs, o, before)
         == (WaitCalls(refs) + [AcquireNextImage(refs.swapchain, refs.imgAvailable)])
            + (RecordLog(refs, o) + if RecordOutcome(refs, o).Ok? then PresentStageLog(refs, o) else [])
    ensures DrawFence(refs, o, before) == if RecordOutcome(refs, o).Ok? && o.submit then Pending else Unsignaled
  {
    var acq := WaitCalls(refs) + [AcquireNextImage(refs.swapchain, refs.imgAvailable)];
    if RecordOutcome(refs, o).Ok? {
      assert (acq + RecordLog(refs, o)) + PresentStageLog(refs, o) == acq + (RecordLog(refs, o) + PresentStageLog(refs, o));
    } else {
      assert RecordLog(refs, o) + [] == RecordLog(refs, o);
    }
  }

  /** The device after a draw that acquires an image. */
  lemma DrawAfterAcquireState(s: DeviceState, refs: FrameRefs, o: DrawOracle)
    requires refs.fence in s.fence && WaitOutcome(o.wait, o.reset, s.fence[refs.fence], refs.slot).Ok?
    requires ClassifyAcquire(o.acquire).Ok? && ClassifyAcquire(o.acquire).value.Some?
    ensures FrameState(s, refs.fence, DrawSpec(refs, o, s.fence[refs.fence]))
         == RenderState(Logged(WaitState(s, refs.fence, o.wait, o.reset), [AcquireNextImage(refs.swapchain, refs.imgAvailable)]), refs, o)
  {
    var before := s.fence[refs.fence];
    var acq := WaitCalls(refs) + [AcquireNextImage(refs.swapchain, refs.imgAvailable)];
    var tail := RecordLog(refs, o) + if RecordOutcome(refs, o).Ok? then PresentStageLog(refs, o) else [];
    DrawAfterAcquireParts(refs, o, before);
    assert WaitLog(refs.fence, o.wait, before) == WaitCalls(refs);
    assert WaitFence(o.wait, o.reset, before) == Unsignaled;
    assert s.log + (acq + tail) == ((s.log + WaitCalls(refs)) + [AcquireNextImage(refs.swapchain, refs.imgAvailable)]) + tail;
  }

  /** A draw makes a prefix of the frame's call sequence: the fence wait and
      reset come before the acquire, and recording, submit and present follow
      in that order; a render pass is begun only on a slot with a
      framebuffer. */
  lemma DrawCallOrder(refs: FrameRefs, o: DrawOracle, before: FenceState)
    ensures var log := DrawLog(refs, o, before);
      && 1 <= |log| && IsPrefix(log, FrameCalls(refs))
      && (|log| > 5 ==> refs.framebuffer.Some?)
  {
    var log := DrawLog(refs, o, before);
    var w := WaitCalls(refs);
    var acq := [AcquireNextImage(refs.swapchain, refs.imgAvailable)];
    var rec, pres := RecordCalls(refs), PresentCalls(refs);
    var wlog := WaitLog(refs.fence, o.wait, before);
    assert IsPrefix(wlog, w);
    if !WaitOutcome(o.wait, o.reset, before, refs.slot).Ok? {
      PrefixOfLonger(wlog, w, acq);
      PrefixOfLonger(wlog, w + acq, rec);
      PrefixOfLonger(wlog, (w + acq) + rec, pres);
    } else if !ClassifyAcquire(o.acquire).Ok? || ClassifyAcquire(o.acquire).value.None? {
      assert log == w + acq;
      PrefixOfLonger(w + acq, w + acq, rec);
      PrefixOfLonger(w + acq, (w + acq) + rec, pres);
    } else {
      var rlog := RecordLog(refs, o);
      assert IsPrefix(rlog, rec);
      PrefixAfter(w + acq, rlog, rec);
      if !RecordOutcome(refs, o).Ok? {
        PrefixOfLonger((w + acq) + rlog, (w + acq) + rec, pres);
      } else {
        assert rlog == rec;
        PrefixAfter((w + acq) + rec, PresentStageLog(refs, o), pres);
      }
    }
  }

  /** Every object a call of the frame names is the slot's own one: its fence,
      command buffer and framebuffer, the shared swapchain, queue and
      semaphores, the surface extent, and the slot as image index. */
  predicate SlotCall(refs: FrameRefs, c: Call) {
    && (c.WaitForFence? || c.ResetFence? ==> c.fence == refs.fence)
    && (c.AcquireNextImage? ==> c.swapchain == refs.swapchain && c.signal == refs.imgAvailable)
    && (c.ResetCommandBuffer? || c.BeginCommandBuffer? || c.EndCommandBuffer? || c.CmdEndRenderPass? ==> c.cb == refs.commandBuffer)
    && (c.CmdSetViewport? ==> c.cb == refs.commandBuffer && c.extent == refs.extent)
    && (c.QueueSubmit? || c.QueuePresent? ==> c.queue == refs.queue)
    && (c.CmdBeginRenderPass? ==>
          c.cb == refs.commandBuffer && refs.framebuffer == Some(c.framebuffer)
          && c.area == refs.extent && c.renderPass == refs.renderPass)
    && (c.CmdSetScissor? ==> c.cb == refs.commandBuffer && c.extent == refs.extent)
    && (c.QueueSubmit? ==>
          c.cb == refs.commandBuffer && c.fence == refs.fence
          && c.wait == refs.imgAvailable && c.signal == refs.renderFinished)
    && (c.QueuePresent? ==> c.imageIndex == refs.slot && c.wait == refs.renderFinished && c.swapchain == refs.swapchain)
  }

  /** Every call of a draw uses the slot's own objects, and the slot's
      framebuffer exists whenever a render pass begins. */
  lemma DrawUsesSlot(refs: FrameRefs, o: DrawOracle, before: FenceState)
    ensures forall c :: c in DrawLog(refs, o, before) ==> SlotCall(refs, c)
  {
    var acq := WaitCalls(refs) + [AcquireNextImage(refs.swapchain, refs.imgAvailable)];
    assert forall c :: c in WaitLog(refs.fence, o.wait, before) ==> SlotCall(refs, c);
    assert forall c :: c in acq ==> SlotCall(refs, c);
    RecordUsesSlot(refs, o);
    assert forall c :: c in PresentStageLog(refs, o) ==> SlotCall(refs, c);
  }

  lemma RecordUsesSlot(refs: FrameRefs, o: DrawOracle)
    ensures forall c :: c in RecordLog(refs, o) ==> SlotCall(refs, c)
  {
    if o.resetCommandBuffer && o.beginCommandBuffer && refs.framebuffer.Some? {
      assert RecordLog(refs, o) == RecordCalls(refs);
    }
  }

  /** An acquire that asks for a rebuild ends the draw with `Ok`: the slot's
      fence stays reset with nothing pending, no command buffer is touched,
      nothing is submitted or presented and the image index is kept. */
  lemma StaleAcquireLeavesFenceReset(refs: FrameRefs, o: DrawOracle, before: FenceState)
    requires WaitOutcome(o.wait, o.reset, before, refs.slot).Ok? && ClassifyAcquire(o.acquire) == Ok(None)
    ensures var e := DrawSpec(refs, o, before);
      && e.result == Ok(()) && e.rebuild && e.image == None && e.fence == Unsignaled
      && e.log == [WaitForFence(refs.fence), ResetFence(refs.fence), AcquireNextImage(refs.swapchain, refs.imgAvailable)]
  {
  }

  /** A draw that finds a slot's fence as a stale acquire left it, reset and
      with nothing submitted, never returns: its wait blocks for ever. */
  lemma StaleSlotHangs(refs: FrameRefs, o: DrawOracle, before: FenceState, next: FrameRefs, o2: DrawOracle)
    requires WaitOutcome(o.wait, o.reset, before, refs.slot).Ok? && ClassifyAcquire(o.acquire) == Ok(None)
    requires o2.wait
    ensures DrawSpec(next, o2, DrawSpec(refs, o, before).fence).result == Hang
  {
    StaleAcquireLeavesFenceReset(refs, o, before);
  }

  /** A draw that gets past the wait leaves the fence pending exactly when it
      submitted, and unsignalled otherwise; so the next wait on the slot
      returns exactly when this draw submitted. */
  lemma DrawFenceProtocol(refs: FrameRefs, o: DrawOracle, before: FenceState)
    requires WaitOutcome(o.wait, o.reset, before, refs.slot).Ok?
    ensures var fence, log := DrawFence(refs, o, before), DrawLog(refs, o, before);
      && (fence == Pending <==> QueueSubmit(refs.queue, refs.commandBuffer, refs.imgAvailable, refs.renderFinished, refs.fence) in log && o.submit)
      && (fence != Pending ==> fence == Unsignaled)
  {
    var log := DrawLog(refs, o, before);
    var acq := WaitCalls(refs) + [AcquireNextImage(refs.swapchain, refs.imgAvailable)];
    var sub := QueueSubmit(refs.queue, refs.commandBuffer, refs.imgAvailable, refs.renderFinished, refs.fence);
    assert sub !in acq;
    if DrawStage(refs, o, before) == 3 {
      assert sub == PresentStageLog(refs, o)[0];
      assert log == (acq + RecordLog(refs, o)) + PresentStageLog(refs, o);
    } else {
      assert sub !in RecordLog(refs, o);
      assert log == acq || log == acq + RecordLog(refs, o);
    }
  }

  /** `draw` ends with `Ok` exactly when every step succeeds or the acquire or
      present asks for a rebuild; it asks for one in exactly those two cases. */
  lemma DrawSucceedsIff(refs: FrameRefs, o: DrawOracle, before: FenceState)
    ensures var e := DrawSpec(refs, o, before);
      var a, p := ClassifyAcquire(o.acquire), PresentStageOutcome(o);
      && (e.result.Ok? <==>
            WaitOutcome(o.wait, o.reset, before, refs.slot).Ok? && a.Ok?
            && (a.value.Some? ==> RecordOutcome(refs, o).Ok? && p.Ok?))
      && (e.rebuild <==>
            WaitOutcome(o.wait, o.reset, before, refs.slot).Ok? && a.Ok?
            && (a.value.None? || (RecordOutcome(refs, o).Ok? && p == Ok(false))))
      && (e.rebuild ==> e.result.Ok?)
  {
  }

  /** A failing step after the acquire stops the draw with its own error; a
      failed command-buffer reset and a missing framebuffer panic instead. */
  lemma DrawFailures(refs: FrameRefs, o: DrawOracle, before: FenceState)
    requires WaitOutcome(o.wait, o.reset, before, refs.slot).Ok? && ClassifyAcquire(o.acquire).Ok?
    requires ClassifyAcquire(o.acquire).value.Some?
    ensures var r := DrawSpec(refs, o, before).result;
      && (!o.resetCommandBuffer ==> r == Panic(UnwrapMsg))
      && (o.resetCommandBuffer && !o.beginCommandBuffer ==> r == Err(BeginFailed))
      && (o.resetCommandBuffer && o.beginCommandBuffer && refs.framebuffer.None? ==>
            r == Panic(IndexPanic(refs.framebufferCount, refs.slot)))
      && (RecordOutcome(refs, o).Ok? && !o.submit ==> r == Err(SubmitFailed))
      && (RecordOutcome(refs, o).Ok? && o.submit && ClassifyPresent(o.present).Err? ==> r == Err(PresentFailed))
  {
  }

  class Renderer {
    const base: RenderBase
    const data: RenderData
    /** The frame slot, `0 <= currentFrameIndex < MAX_FRAME_DRAWS`. */
    var currentFrameIndex: nat
    var rebuildSwapchain: bool
    var imageIndex: nat

    ghost predicate Valid()
      reads this, base, base.device, data
    {
      && base.Valid() && data.Valid()
      && currentFrameIndex < data.maxFrameDraws
      && (forall i :: 0 <= i < |data.fences| ==> data.fences[i] in base.device.fence)
    }

    /** The current slot has a fence and a command buffer. */
    predicate Ready()
      reads this, data
    {
      currentFrameIndex < |data.fences| && currentFrameIndex < |data.commandBuffers|
    }

    /** The objects slot `i` picks out. */
    function RefsAt(i: nat): FrameRefs
      reads this, base, data
      requires i < |data.fences| && i < |data.commandBuffers|
    {
      FrameRefs(i, data.fences[i], data.commandBuffers[i],
                if i < |data.framebuffers| then Some(data.framebuffers[i]) else None, |data.framebuffers|,
                data.renderPass, base.swapchain, base.queue, data.imgAvailableSemaphore,
                data.renderFinishedSemaphore, base.surfaceExtent)
    }

    /** The objects the current slot picks out. */
    function Refs(): FrameRefs
      reads this, base, data
      requires Ready()
    {
      RefsAt(currentFrameIndex)
    }

    /** `Renderer::new` once the base is built: slot 0, a rebuild requested
        and image index 0. */
    constructor Init(base: RenderBase, data: RenderData)
      requires base.Valid() && data.Valid()
      requires forall i :: 0 <= i < |data.fences| ==> data.fences[i] in base.device.fence
      ensures Valid() && this.base == base && this.data == data
      ensures currentFrameIndex == 0 && rebuildSwapchain && imageIndex == 0
    {
      this.base := base;
      this.data := data;
      currentFrameIndex := 0;
      rebuildSwapchain := true;
      imageIndex := 0;
    }

    /** `wait_resource_available`: wait on the slot's fence, then reset it. */
    method WaitResourceAvailable(wait: bool, reset: bool) returns (r: Result<()>)
      requires Ready() && base.device.Valid() && Refs().fence in base.device.fence
      modifies base.device
      ensures base.device.Valid()
      ensures r == WaitOutcome(wait, reset, old(base.device.fence[Refs().fence]), currentFrameIndex)
      ensures base.device.State() == WaitState(old(base.device.State()), Refs().fence, wait, reset)
    {
      var f := data.fences[currentFrameIndex];
      var w := base.device.WaitForFence(f, wait);
      if w == WaitFailed {
        return Err(WaitFenceFailed + NatToString(currentFrameIndex));
      }
      if w == Blocked {
        return Hang;
      }
      var ok := base.device.ResetFence(f, reset);
      if !ok {
        return Err(ResetFenceFailed + NatToString(currentFrameIndex));
      }
      r := Ok(());
    }

    /** `get_img_index`: acquire the next image, signalling the image-available
        semaphore. */
    method GetImgIndex(reply: AcquireReply) returns (r: Result<Option<nat>>)
      requires Ready() && base.device.Valid()
      modifies base.device
      ensures base.device.Valid() && r == ClassifyAcquire(reply)
      ensures base.device.Appended([AcquireNextImage(base.swapchain, data.imgAvailableSemaphore)])
    {
      var got := base.device.AcquireNextImage(base.swapchain, data.imgAvailableSemaphore, reply);
      match got
      case AcquireOk(index, suboptimal) =>
        r := if suboptimal then Ok(None) else Ok(Some(index));
      case AcquireErr(code) =>
        r := if code == ERROR_OUT_OF_DATE_KHR then Ok(None) else Err(AcquireFailed);
    }

    /** `begin_command_buffer` on the slot's command buffer. */
    method BeginCommandBuffer(ok: bool) returns (r: Result<()>)
      requires Ready() && base.device.Valid()
      modifies base.device
      ensures base.device.Valid() && r == (if ok then Ok(()) else Err(BeginFailed))
      ensures base.device.Appended([Call.BeginCommandBuffer(Refs().commandBuffer)])
    {
      var began := base.device.BeginCommandBuffer(data.commandBuffers[currentFrameIndex], ok);
      r := if began then Ok(()) else Err(BeginFailed);
    }

    /** `begin_render_pass`: the slot's framebuffer over the whole surface,
        recorded into the slot's command buffer; a slot past the last
        framebuffer panics on the `Vec` index. */
    method BeginRenderPass() returns (r: Result<()>)
      requires Ready() && base.device.Valid()
      modifies base.device
      ensures base.device.Valid()
      ensures var refs := Refs();
        && r == (if refs.framebuffer.Some? then Ok(()) else Panic(IndexPanic(refs.framebufferCount, refs.slot)))
        && base.device.Appended(
             if refs.framebuffer.Some?
             then [CmdBeginRenderPass(refs.commandBuffer, refs.renderPass, refs.framebuffer.value, refs.extent)]
             else [])
    {
      if currentFrameIndex >= |data.framebuffers| {
        return Panic(IndexPanic(|data.framebuffers|, currentFrameIndex));
      }
      base.device.CmdBeginRenderPass(data.commandBuffers[currentFrameIndex], data.renderPass,
                                     data.framebuffers[currentFrameIndex], base.surfaceExtent);
      r := Ok(());
    }

    /** `set_viewport` over the surface extent (its float fields are not modelled). */
    method SetViewport()
      requires Ready() && base.device.Valid()
      modifies base.device
      ensures base.device.Valid() && base.device.Appended([CmdSetViewport(Refs().commandBuffer, base.surfaceExtent)])
    {
      base.device.CmdSetViewport(data.commandBuffers[currentFrameIndex], base.surfaceExtent);
    }

    /** `set_scissor`: the scissor is the whole surface extent. */
    method SetScissor()
      requires Ready() && base.device.Valid()
      modifies base.device
      ensures base.device.Valid() && base.device.Appended([CmdSetScissor(Refs().commandBuffer, base.surfaceExtent)])
    {
      base.device.CmdSetScissor(data.commandBuffers[currentFrameIndex], base.surfaceExtent);
    }

    /** The recording part of `draw`: reset the slot's command buffer
        (unwrapped), begin it, record the render pass and end it. */
    method Record(o: DrawOracle) returns (r: Result<()>)
      requires Ready() && base.device.Valid()
      modifies base.device
      ensures base.device.Valid() && r == RecordOutcome(Refs(), o)
      ensures base.device.Appended(RecordLog(Refs(), o))
    {
      ghost var refs, log0 := Refs(), base.device.log;
      var cb := data.commandBuffers[currentFrameIndex];
      var reset := base.device.ResetCommandBuffer(cb, o.resetCommandBuffer);
      if !reset {
        return Panic(UnwrapMsg);
      }
      r := BeginCommandBuffer(o.beginCommandBuffer);
      assert base.device.log == log0 + [Call.ResetCommandBuffer(cb), Call.BeginCommandBuffer(cb)];
      if !r.Ok? {
        return;
      }
      r := RecordPass(o.endCommandBuffer);
      assert RecordLog(refs, o) == [Call.ResetCommandBuffer(cb), Call.BeginCommandBuffer(cb)] + RecordPassLog(refs);
    }

    /** The render pass of the recording, once the command buffer has begun:
        the pass with its viewport and scissor, then the end of the buffer. */
    method RecordPass(ended: bool) returns (r: Result<()>)
      requires Ready() && base.device.Valid()
      modifies base.device
      ensures base.device.Valid()
      ensures var refs := Refs();
        && r == (if refs.framebuffer.None? then Panic(IndexPanic(refs.framebufferCount, refs.slot))
                 else if ended then Ok(()) else Err(EndFailed))
        && base.device.Appended(RecordPassLog(refs))
    {
      ghost var refs, log0 := Refs(), base.device.log;
      r := BeginRenderPass();
      if !r.Ok? {
        return;
      }
      var cb := data.commandBuffers[currentFrameIndex];
      ghost var pass := CmdBeginRenderPass(cb, refs.renderPass, refs.framebuffer.value, refs.extent);
      SetViewport();
      SetScissor();
      assert base.device.log == log0 + [pass, CmdSetViewport(cb, refs.extent), CmdSetScissor(cb, refs.extent)];
      base.device.CmdEndRenderPass(cb);
      var ok := base.device.EndCommandBuffer(cb, ended);
      assert base.device.log == log0 + RecordPassLog(refs);
      if !ok {
        r := Err(EndFailed);
      }
    }

    /** `submit`: the slot's command buffer against the slot's fence, waiting
        on image-available and signalling render-finished. */
    method Submit(ok: bool) returns (r: Result<()>)
      requires Ready() && base.device.Valid() && Refs().fence in base.device.fence
      modifies base.device
      ensures base.device.Valid()
      ensures r == (if ok then Ok(()) else Err(SubmitFailed))
      ensures var refs := Refs();
        base.device.State() == old(base.device.State()).(
          fence := if ok then old(base.device.fence)[refs.fence := Pending] else old(base.device.fence),
          log := old(base.device.log) + [QueueSubmit(refs.queue, refs.commandBuffer, refs.imgAvailable, refs.renderFinished, refs.fence)])
    {
      var submitted := base.device.QueueSubmit(base.queue, data.commandBuffers[currentFrameIndex], data.imgAvailableSemaphore,
                                               data.renderFinishedSemaphore, data.fences[currentFrameIndex], ok);
      r := if submitted then Ok(()) else Err(SubmitFailed);
    }

    /** `present`: image index `currentFrameIndex`, waiting on render-finished. */
    method Present(reply: PresentReply) returns (r: Result<bool>)
      requires Ready() && base.device.Valid()
      modifies base.device
      ensures base.device.Valid() && r == ClassifyPresent(reply)
      ensures base.device.Appended([QueuePresent(base.queue, data.renderFinishedSemaphore, base.swapchain, currentFrameIndex)])
    {
      var shown := base.device.QueuePresent(base.queue, data.renderFinishedSemaphore, base.swapchain, currentFrameIndex, reply);
      if shown.PresentErr? {
        if shown.code == SUBOPTIMAL_KHR || shown.code == ERROR_OUT_OF_DATE_KHR {
          return Ok(false);
        }
        return Err(PresentFailed);
      }
      r := Ok(true);
    }

    /** `Renderer::draw`: the frame the current slot describes. Only the
        device, the rebuild flag and the image index change. */
    method Draw(o: DrawOracle) returns (r: Result<()>)
      requires Ready() && base.device.Valid() && Refs().fence in base.device.fence
      modifies this, base.device
      ensures Ready() && base.device.Valid() && Refs() == old(Refs())
      ensures var refs := old(Refs());
        var e := DrawSpec(refs, o, old(base.device.fence[refs.fence]));
        && r == e.result
        && base.device.State() == FrameState(old(base.device.State()), refs.fence, e)
        && currentFrameIndex == old(currentFrameIndex)
        && rebuildSwapchain == (old(rebuildSwapchain) || e.rebuild)
        && imageIndex == (if e.image.Some? then e.image.value else old(imageIndex))
    {
      var rebuild, image;
      r, rebuild, image := DrawFrame(o);
      if rebuild {
        rebuildSwapchain := true;
      }
      if image.Some? {
        imageIndex := image.value;
      }
    }

    /** The device side of `draw`: the calls in order, and whether the flag
        and the image index are to be set. */
    method DrawFrame(o: DrawOracle) returns (r: Result<()>, rebuild: bool, image: Option<nat>)
      requires Ready() && base.device.Valid() && Refs().fence in base.device.fence
      modifies base.device
      ensures base.device.Valid()
      ensures var refs := Refs();
        var e := DrawSpec(refs, o, old(base.device.fence[refs.fence]));
        && r == e.result && rebuild == e.rebuild && image == e.image
        && base.device.State() == FrameState(old(base.device.State()), refs.fence, e)
    {
      ghost var refs, s0 := Refs(), base.device.State();
      rebuild, image := false, None;
      r := WaitResourceAvailable(o.wait, o.reset);
      if !r.Ok? {
        DrawAtWait(s0, refs, o);
        return;
      }
      ghost var s1 := base.device.State();
      var a := GetImgIndex(o.acquire);
      assert base.device.State() == Logged(s1, [AcquireNextImage(refs.swapchain, refs.imgAvailable)]);
      if a.Err? || a.value.None? {
        DrawAtAcquire(s0, refs, o);
        return Forget(a), a.Ok?, None;
      }
      DrawAfterAcquire(s0, refs, o);
      DrawAfterAcquireState(s0, refs, o);
      image := a.value;
      r, rebuild := RenderFrame(o);
    }

    /** Recording, submit and present, once an image is acquired and the
        slot's fence is reset. */
    method RenderFrame(o: DrawOracle) returns (r: Result<()>, rebuild: bool)
      requires Ready() && base.device.Valid() && Refs().fence in base.device.fence
      modifies base.device
      ensures base.device.Valid()
      ensures var rec := RecordOutcome(Refs(), o);
        && r == (if rec.Ok? then Forget(PresentStageOutcome(o)) else rec)
        && rebuild == (rec.Ok? && PresentStageOutcome(o) == Ok(false))
        && base.device.State() == RenderState(old(base.device.State()), Refs(), o)
    {
      ghost var refs, log0 := Refs(), base.device.log;
      rebuild := false;
      r := Record(o);
      if !r.Ok? {
        assert RecordLog(refs, o) + [] == RecordLog(refs, o);
        return;
      }
      r := Submit(o.submit);
      if !r.Ok? {
        assert base.device.log == log0 + (RecordLog(refs, o) + PresentStageLog(refs, o));
        return;
      }
      var shown := Present(o.present);
      assert base.device.log == log0 + (RecordLog(refs, o) + PresentStageLog(refs, o));
      if shown.Err? {
        return Err(shown.msg), false;
      }
      rebuild := !shown.value;
      r := Ok(());
    }
  }

  /** The second half of `Renderer::new`, on the base just built:
      `RenderData::new` for `maxFrameDraws` slots, then slot 0 with a rebuild
      requested. Every slot's fence starts signalled, so the first wait on
      each returns. */
  method NewRendererOnBase(base: RenderBase, maxFrameDraws: nat, o: DataOracle) returns (r: Result<Renderer>)
    requires base.Valid() && 1 <= maxFrameDraws && Fits(o, base.swapchainImageViews, maxFrameDraws)
    modifies base.device
    ensures base.Valid()
    ensures base.device.State()
      == NewDataState(old(base.device.State()), o, base.swapchainImageViews, base.surfaceExtent, base.queueFamily, maxFrameDraws)
    ensures var out := NewDataOutcome(o, old(base.device.next), base.swapchainImageViews, base.surfaceExtent, maxFrameDraws);
      && r.Ok? == out.Ok?
      && (!r.Ok? ==> r == Propagate(out))
      && (r.Ok? ==>
            && fresh(r.value) && fresh(r.value.data) && r.value.Valid() && r.value.base == base
            && r.value.data.Objects() == out.value && r.value.data.maxFrameDraws == maxFrameDraws
            && r.value.currentFrameIndex == 0 && r.value.rebuildSwapchain && r.value.imageIndex == 0
            && (forall i :: 0 <= i < maxFrameDraws ==> base.device.fence[r.value.data.fences[i]] == Signaled))
  {
    ghost var s := base.device.State();
    var data := NewRenderData(base, maxFrameDraws, o);
    if !data.Ok? {
      return Propagate(data);
    }
    NewDataFencesSignaled(s, o, base.swapchainImageViews, base.surfaceExtent, base.queueFamily, maxFrameDraws);
    var renderer := new Renderer.Init(base, data.value);
    r := Ok(renderer);
  }

  /** `Renderer::new`: `RenderBase::new`, then `RenderData::new` on the new
      base, each failure passed on with `?`. The framebuffer outcomes of `o`
      are padded to the number of image views the base ends up with. */
  method NewRenderer(device: Device, surface: Handle, queue: Handle, queueFamily: nat, maxFrameDraws: nat,
                     ro: ResizeOracle, o: DataOracle)
    returns (r: Result<Renderer>)
    requires device.Valid() && 1 <= maxFrameDraws && |o.fences| == maxFrameDraws
    modifies device
    ensures device.Valid()
    ensures var b := ResizeOutcome(ro, old(device.next));
      var s1 := ResizeState(old(device.State()), ro, NullHandle(SwapchainKind), surface, []);
      && (!b.Ok? ==> r == Propagate(b) && device.State() == s1)
      && (b.Ok? ==>
            var views := b.value.swapchainImageViews;
            var od := o.(framebuffers := PadFlags(o.framebuffers, |views|));
            var out := NewDataOutcome(od, s1.next, views, b.value.surfaceExtent, maxFrameDraws);
            && device.State() == NewDataState(s1, od, views, b.value.surfaceExtent, queueFamily, maxFrameDraws)
            && r.Ok? == out.Ok?
            && (!r.Ok? ==> r == Propagate(out))
            && (r.Ok? ==>
                  && fresh(r.value) && fresh(r.value.base) && fresh(r.value.data) && r.value.Valid()
                  && r.value.base.device == device && r.value.base.surface == surface
                  && r.value.base.queue == queue && r.value.base.queueFamily == queueFamily
                  && r.value.base.Swapchain() == b.value
                  && r.value.data.Objects() == out.value && r.value.data.maxFrameDraws == maxFrameDraws
                  && r.value.currentFrameIndex == 0 && r.value.rebuildSwapchain && r.value.imageIndex == 0
                  && (forall i :: 0 <= i < maxFrameDraws ==> device.fence[r.value.data.fences[i]] == Signaled)))
  {
    var built := NewRenderBase(device, surface, queue, queueFamily, ro);
    if !built.Ok? {
      return Propagate(built);
    }
    var base := built.value;
    var od := o.(framebuffers := PadFlags(o.framebuffers, |base.swapchainImageViews|));
    r := NewRendererOnBase(base, maxFrameDraws, od);
  }
}
