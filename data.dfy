/** `RenderData`: the pipeline objects, framebuffers, synchronisation objects
    and command buffers the renderer draws with (src/renderer/data.rs). */
module Data {
  import opened Outcomes
  import opened Vulkan
  import opened Resources
  import opened Base

  /** The outcomes of the device calls `RenderData::new` makes, in order:
      pipeline layout, render pass, pipeline, one per framebuffer, the two
      semaphores, one per fence, the command pool and the command-buffer
      allocation (which reports the device's error text). */
  datatype DataOracle = DataOracle(
    pipelineLayout: bool,
    renderPass: bool,
    pipelines: bool,
    framebuffers: seq<bool>,
    imgSemaphore: bool,
    renderSemaphore: bool,
    fences: seq<bool>,
    commandPool: bool,
    commandBuffers: Step)

  /** The handles `RenderData::new` stores. */
  datatype DataObjects = DataObjects(
    pipelineLayout: Handle,
    renderPass: Handle,
    pipeline: Handle,
    framebuffers: seq<Handle>,
    imgAvailableSemaphore: Handle,
    renderFinishedSemaphore: Handle,
    fences: seq<Handle>,
    commandPool: Handle,
    commandBuffers: seq<Handle>)

  /** The handles of the synchronisation and command objects. */
  datatype SyncObjects = SyncObjects(
    imgAvailableSemaphore: Handle,
    renderFinishedSemaphore: Handle,
    fences: seq<Handle>,
    commandPool: Handle,
    commandBuffers: seq<Handle>)

  /** The oracle fits the views and the frame count `k`. */
  predicate Fits(o: DataOracle, views: seq<Handle>, k: nat) {
    |o.framebuffers| == |views| && |o.fences| == k
  }

  /** Framebuffer outcomes for `n` image views, a number only known once the
      swapchain is built: the given ones first, success for the rest. */
  function PadFlags(ok: seq<bool>, n: nat): (flags: seq<bool>)
    ensures |flags| == n
    ensures forall i :: 0 <= i < n ==> flags[i] == (i >= |ok| || ok[i])
  {
    seq(n, i requires 0 <= i < n => i >= |ok| || ok[i])
  }

  /** The first three steps of `new`: pipeline layout, render pass, and the
      pipeline built against them. */
  function PipelineStageState(s: DeviceState, o: DataOracle): DeviceState {
    var s1 := CreateState(s, PipelineLayoutInfo, o.pipelineLayout);
    if !o.pipelineLayout then s1 else
    var s2 := CreateState(s1, RenderPassInfo, o.renderPass);
    if !o.renderPass then s2 else
    CreateState(s2, PipelineInfo(Handle(PipelineLayoutKind, s.next), Handle(RenderPassKind, s.next + 1)), o.pipelines)
  }

  function PipelineStageOutcome(o: DataOracle, base: nat): (r: Result<(Handle, Handle, Handle)>)
    ensures r.Ok? <==> o.pipelineLayout && o.renderPass && o.pipelines
    ensures r.Ok? || r.Err?
  {
    if !o.pipelineLayout then Err("failed to create pipeline layout")
    else if !o.renderPass then Err("failed to create render pass")
    else if !o.pipelines then Err("failed to create pipelines")
    else Ok((Handle(PipelineLayoutKind, base), Handle(RenderPassKind, base + 1), Handle(PipelineKind, base + 2)))
  }

  /** The two semaphores of `new`. */
  function SemaphoreStageState(s: DeviceState, o: DataOracle): DeviceState {
    var s5 := CreateState(s, SemaphoreInfo, o.imgSemaphore);
    if !o.imgSemaphore then s5 else CreateState(s5, SemaphoreInfo, o.renderSemaphore)
  }

  function SemaphoreStageOutcome(o: DataOracle, base: nat): (r: Result<(Handle, Handle)>)
    ensures r.Ok? <==> o.imgSemaphore && o.renderSemaphore
    ensures r.Ok? || r.Err?
  {
    if !o.imgSemaphore then Err(SemaphoreFailure("img available semaphore"))
    else if !o.renderSemaphore then Err(SemaphoreFailure("rendering finished semaphore"))
    else Ok((Handle(SemaphoreKind, base), Handle(SemaphoreKind, base + 1)))
  }

  /** The command pool of `new` and the `k` command buffers allocated from it. */
  function CommandStageState(s: DeviceState, o: DataOracle, queueFamily: nat, k: nat): DeviceState {
    var s8 := CreateState(s, CommandPoolInfo(true, queueFamily), o.commandPool);
    if !o.commandPool then s8 else AllocState(s8, Handle(CommandPoolKind, s.next), k, o.commandBuffers.Pass?)
  }

  function CommandStageOutcome(o: DataOracle, base: nat, k: nat): (r: Result<(Handle, seq<Handle>)>)
    ensures r.Ok? <==> o.commandPool && o.commandBuffers.Pass?
    ensures r.Panic? <==> !o.commandPool
    ensures !r.Hang?
  {
    if !o.commandPool then Panic(CommandPoolPanic)
    else if o.commandBuffers.Fail? then Err(o.commandBuffers.msg)
    else Ok((Handle(CommandPoolKind, base), FreshOfKind(CommandBufferKind, k, base + 1)))
  }

  /** The last steps of `new`: the two semaphores, the fences, the command
      pool and `k` command buffers from it. */
  function SyncStageState(s: DeviceState, o: DataOracle, queueFamily: nat, k: nat): DeviceState
    requires |o.fences| == k
  {
    var s6 := SemaphoreStageState(s, o);
    if !SemaphoreStageOutcome(o, s.next).Ok? then s6 else
    var s7 := LoopState(s6, FenceInfos(k), o.fences);
    if FirstFailure(o.fences).Some? then s7 else
    CommandStageState(s7, o, queueFamily, k)
  }

  function SyncStageOutcome(o: DataOracle, base: nat, k: nat): (r: Result<SyncObjects>)
    requires |o.fences| == k
    ensures !r.Hang?
  {
    var m := SemaphoreStageOutcome(o, base);
    if !m.Ok? then Propagate(m) else
    var fs := LoopResult(FenceInfos(k), o.fences, base + 2, "fence");
    if !fs.Ok? then Propagate(fs) else
    var c := CommandStageOutcome(o, base + 2 + k, k);
    if !c.Ok? then Propagate(c) else
    Ok(SyncObjects(m.value.0, m.value.1, fs.value, c.value.0, c.value.1))
  }

  /** The synchronisation stage stops at its first failing step with that
      step's error; the ids of each step follow the previous step's. */
  lemma SyncStageSteps(o: DataOracle, base: nat, base7: nat, k: nat)
    requires |o.fences| == k && base7 == base + 2 + k
    ensures var m := SemaphoreStageOutcome(o, base);
      !m.Ok? ==> SyncStageOutcome(o, base, k) == Propagate(m)
    ensures var m, fs := SemaphoreStageOutcome(o, base), LoopResult(FenceInfos(k), o.fences, base + 2, "fence");
      m.Ok? && !fs.Ok? ==> SyncStageOutcome(o, base, k) == Propagate(fs)
    ensures var m, c := SemaphoreStageOutcome(o, base), CommandStageOutcome(o, base7, k);
      m.Ok? && FirstFailure(o.fences).None? && !c.Ok? ==> SyncStageOutcome(o, base, k) == Propagate(c)
    ensures var m, c := SemaphoreStageOutcome(o, base), CommandStageOutcome(o, base7, k);
      var fs := LoopResult(FenceInfos(k), o.fences, base + 2, "fence");
      m.Ok? && fs.Ok? && c.Ok? ==>
        SyncStageOutcome(o, base, k) == Ok(SyncObjects(m.value.0, m.value.1, fs.value, c.value.0, c.value.1))
  {
  }

  /** The device after `RenderData::new`, step by step; it stops at the first
      failing step and destroys nothing made by the earlier steps. */
  function NewDataState(s: DeviceState, o: DataOracle, views: seq<Handle>, extent: Extent, queueFamily: nat, k: nat): DeviceState
    requires Fits(o, views, k)
  {
    var s3 := PipelineStageState(s, o);
    if !PipelineStageOutcome(o, s.next).Ok? then s3 else
    var s4 := LoopState(s3, FramebufferInfos(views, Handle(RenderPassKind, s.next + 1), extent), o.framebuffers);
    if FirstFailure(o.framebuffers).Some? then s4 else
    SyncStageState(s4, o, queueFamily, k)
  }

  /** What `RenderData::new` returns, with ids handed out from `base`. */
  function NewDataOutcome(o: DataOracle, base: nat, views: seq<Handle>, extent: Extent, k: nat): (r: Result<DataObjects>)
    requires Fits(o, views, k)
    ensures !r.Hang?
  {
    var p := PipelineStageOutcome(o, base);
    if !p.Ok? then Propagate(p) else
    var infos := FramebufferInfos(views, p.value.1, extent);
    var fbs := LoopResult(infos, o.framebuffers, base + 3, "framebuffer");
    if !fbs.Ok? then Propagate(fbs) else
    var y := SyncStageOutcome(o, base + 3 + |views|, k);
    if !y.Ok? then Propagate(y) else
    Ok(DataObjects(p.value.0, p.value.1, p.value.2, fbs.value, y.value.imgAvailableSemaphore,
                   y.value.renderFinishedSemaphore, y.value.fences, y.value.commandPool, y.value.commandBuffers))
  }

  /** `RenderData::new` succeeds exactly when every step does, and the only
      panic is a failed command-pool creation. */
  lemma NewDataSucceedsIff(o: DataOracle, base: nat, views: seq<Handle>, extent: Extent, k: nat)
    requires Fits(o, views, k)
    ensures var r := NewDataOutcome(o, base, views, extent, k);
      && (r.Ok? <==>
            && o.pipelineLayout && o.renderPass && o.pipelines
            && (forall i :: 0 <= i < |views| ==> o.framebuffers[i])
            && o.imgSemaphore && o.renderSemaphore
            && (forall i :: 0 <= i < k ==> o.fences[i])
            && o.commandPool && o.commandBuffers.Pass?)
      && (r.Panic? ==> r.msg == CommandPoolPanic && !o.commandPool)
  {
  }

  /** `new` runs its stages in order and stops at the first failing one
      with that stage's error; the ids of each stage follow the previous
      stage's. */
  lemma NewDataSteps(o: DataOracle, base: nat, base3: nat, base4: nat, views: seq<Handle>, extent: Extent, k: nat)
    requires Fits(o, views, k) && base3 == base + 3 && base4 == base3 + |views|
    ensures var p := PipelineStageOutcome(o, base);
      !p.Ok? ==> NewDataOutcome(o, base, views, extent, k) == Propagate(p)
    ensures var p := PipelineStageOutcome(o, base);
      var fbs := LoopResult(FramebufferInfos(views, Handle(RenderPassKind, base + 1), extent), o.framebuffers, base3, "framebuffer");
      p.Ok? && !fbs.Ok? ==> NewDataOutcome(o, base, views, extent, k) == Propagate(fbs)
    ensures var p, y := PipelineStageOutcome(o, base), SyncStageOutcome(o, base4, k);
      p.Ok? && FirstFailure(o.framebuffers).None? && !y.Ok? ==> NewDataOutcome(o, base, views, extent, k) == Propagate(y)
    ensures var p, y := PipelineStageOutcome(o, base), SyncStageOutcome(o, base4, k);
      var fbs := LoopResult(FramebufferInfos(views, Handle(RenderPassKind, base + 1), extent), o.framebuffers, base3, "framebuffer");
      p.Ok? && fbs.Ok? && y.Ok? ==>
        NewDataOutcome(o, base, views, extent, k)
          == Ok(DataObjects(p.value.0, p.value.1, p.value.2, fbs.value, y.value.imgAvailableSemaphore,
                            y.value.renderFinishedSemaphore, y.value.fences, y.value.commandPool, y.value.commandBuffers))
  {
  }

  /** On success `new` holds `k` command buffers, `k` fences taken from
      `create_fences` and one framebuffer per view, each framebuffer built
      from its view and the extent; the two semaphores are distinct. */
  lemma NewDataCounts(o: DataOracle, base: nat, views: seq<Handle>, extent: Extent, k: nat)
    requires Fits(o, views, k)
    ensures var r := NewDataOutcome(o, base, views, extent, k);
      r.Ok? ==>
        var d := r.value;
        && |d.commandBuffers| == k && (forall i :: 0 <= i < k ==> d.commandBuffers[i].kind == CommandBufferKind)
        && Ok(d.fences) == LoopResult(FenceInfos(k), o.fences, base + 5 + |views|, "fence")
        && |d.fences| == k && (forall i :: 0 <= i < k ==> d.fences[i].kind == FenceKind)
        && Ok(d.framebuffers) == LoopResult(FramebufferInfos(views, d.renderPass, extent), o.framebuffers, base + 3, "framebuffer")
        && |d.framebuffers| == |views|
        && (forall i :: 0 <= i < |views| ==> d.framebuffers[i].kind == FramebufferKind)
        && d.imgAvailableSemaphore != d.renderFinishedSemaphore
  {
  }

  /** The live objects only grow along `new`: a failing step leaves every
      object the earlier steps made alive, and nothing that was alive before
      is destroyed. */
  lemma NewDataKeepsEarlierObjects(s: DeviceState, o: DataOracle, views: seq<Handle>, extent: Extent, queueFamily: nat, k: nat)
    requires Fits(o, views, k)
    ensures var t := NewDataState(s, o, views, extent, queueFamily, k);
      && s.live <= t.live
      && (o.pipelineLayout ==> Handle(PipelineLayoutKind, s.next) in t.live)
      && (o.pipelineLayout && o.renderPass ==> Handle(RenderPassKind, s.next + 1) in t.live)
      && (o.pipelineLayout && o.renderPass && o.pipelines ==> Handle(PipelineKind, s.next + 2) in t.live)
  {
    PipelineStageGrowsLive(s, o);
    LaterStagesGrowLive(s, o, views, extent, queueFamily, k);
  }

  lemma PipelineStageGrowsLive(s: DeviceState, o: DataOracle)
    ensures var t := PipelineStageState(s, o);
      && s.live <= t.live
      && (o.pipelineLayout ==> Handle(PipelineLayoutKind, s.next) in t.live)
      && (o.pipelineLayout && o.renderPass ==> Handle(RenderPassKind, s.next + 1) in t.live)
      && (o.pipelineLayout && o.renderPass && o.pipelines ==> Handle(PipelineKind, s.next + 2) in t.live)
  {
  }

  lemma LaterStagesGrowLive(s: DeviceState, o: DataOracle, views: seq<Handle>, extent: Extent, queueFamily: nat, k: nat)
    requires Fits(o, views, k)
    ensures PipelineStageState(s, o).live <= NewDataState(s, o, views, extent, queueFamily, k).live
  {
    var s3 := PipelineStageState(s, o);
    if PipelineStageOutcome(o, s.next).Ok? {
      var infos := FramebufferInfos(views, Handle(RenderPassKind, s.next + 1), extent);
      LoopGrowsLive(s3, infos, o.framebuffers);
      if FirstFailure(o.framebuffers).None? {
        var s4 := LoopState(s3, infos, o.framebuffers);
        SyncStageGrowsLive(s4, o, queueFamily, k);
      }
    }
  }

  lemma SyncStageGrowsLive(s: DeviceState, o: DataOracle, queueFamily: nat, k: nat)
    requires |o.fences| == k
    ensures s.live <= SyncStageState(s, o, queueFamily, k).live
  {
    if o.imgSemaphore && o.renderSemaphore {
      var s6 := CreateState(CreateState(s, SemaphoreInfo, true), SemaphoreInfo, true);
      LoopGrowsLive(s6, FenceInfos(k), o.fences);
    }
  }

  /** The pipeline and framebuffer stages of `new` make no fence. */
  lemma NewDataPrefixKeepsFences(s: DeviceState, o: DataOracle, views: seq<Handle>, extent: Extent)
    requires |o.framebuffers| == |views| && PipelineStageOutcome(o, s.next).Ok? && FirstFailure(o.framebuffers).None?
    ensures var s3 := PipelineStageState(s, o);
      var s4 := LoopState(s3, FramebufferInfos(views, Handle(RenderPassKind, s.next + 1), extent), o.framebuffers);
      s4.fence == s.fence && s4.next == s.next + 3 + |views|
  {
    var s3 := PipelineStageState(s, o);
    var infos := FramebufferInfos(views, Handle(RenderPassKind, s.next + 1), extent);
    LoopWithoutFences(s3, infos, o.framebuffers);
    RunStateComplete(s3, infos);
  }

  /** After a successful synchronisation stage, every fence it returns is
      alive and signalled, and every earlier fence keeps its state. */
  lemma SyncStageFencesSignaled(s: DeviceState, o: DataOracle, queueFamily: nat, k: nat)
    requires |o.fences| == k && forall h :: h in s.fence ==> h.id < s.next
    ensures var y, t := SyncStageOutcome(o, s.next, k), SyncStageState(s, o, queueFamily, k);
      y.Ok? ==>
        && (forall i :: 0 <= i < k ==> y.value.fences[i] in t.fence && t.fence[y.value.fences[i]] == Signaled)
        && (forall h :: h in s.fence ==> h in t.fence && t.fence[h] == s.fence[h])
  {
    if SyncStageOutcome(o, s.next, k).Ok? {
      var s6 := SemaphoreStageState(s, o);
      assert s6.fence == s.fence && s6.next == s.next + 2;
      FencesStartSignaled(s6, k, o.fences);
      var s7 := LoopState(s6, FenceInfos(k), o.fences);
      assert SyncStageState(s, o, queueFamily, k).fence == s7.fence;
    }
  }

  /** After a successful `new`, every fence is alive in the device and
      signalled, and every earlier fence keeps its state. */
  lemma NewDataFencesSignaled(s: DeviceState, o: DataOracle, views: seq<Handle>, extent: Extent, queueFamily: nat, k: nat)
    requires Fits(o, views, k) && forall h :: h in s.fence ==> h.id < s.next
    ensures var t := NewDataState(s, o, views, extent, queueFamily, k);
      var r := NewDataOutcome(o, s.next, views, extent, k);
      r.Ok? ==>
        && (forall i :: 0 <= i < k ==> r.value.fences[i] in t.fence && t.fence[r.value.fences[i]] == Signaled)
        && (forall h :: h in s.fence ==> h in t.fence && t.fence[h] == s.fence[h])
  {
    if NewDataOutcome(o, s.next, views, extent, k).Ok? {
      NewDataPrefixKeepsFences(s, o, views, extent);
      var s3 := PipelineStageState(s, o);
      var s4 := LoopState(s3, FramebufferInfos(views, Handle(RenderPassKind, s.next + 1), extent), o.framebuffers);
      SyncStageFencesSignaled(s4, o, queueFamily, k);
      NewDataSteps(o, s.next, s.next + 3, s4.next, views, extent, k);
    }
  }

  /** The device after `RenderData::resize`: every old framebuffer is
      destroyed, then the creation loop runs over the current views. */
  function DataResizeState(s: DeviceState, oldFramebuffers: seq<Handle>, infos: seq<CreateInfo>, ok: seq<bool>): DeviceState
    requires |ok| == |infos|
  {
    LoopState(DestroyState(s, oldFramebuffers), infos, ok)
  }

  /** `resize` destroys every old framebuffer before it creates any new one:
      its log starts with the destruction of the old framebuffers in order. */
  lemma DataResizeDestroysFirst(s: DeviceState, oldFramebuffers: seq<Handle>, infos: seq<CreateInfo>, ok: seq<bool>)
    requires |ok| == |infos|
    ensures var t := DataResizeState(s, oldFramebuffers, infos, ok);
      && |s.log| + |oldFramebuffers| <= |t.log|
      && t.log[..|s.log| + |oldFramebuffers|] == s.log + DestroyedCalls(oldFramebuffers)
  {
    var d := DestroyState(s, oldFramebuffers);
    LoopLogExtends(d, infos, ok);
  }

  /** When `resize` fails, none of the old framebuffers, which the field
      still holds, is alive any more. */
  lemma DataResizeFailureLeavesDestroyed(s: DeviceState, oldFramebuffers: seq<Handle>, infos: seq<CreateInfo>, ok: seq<bool>)
    requires |ok| == |infos| && FirstFailure(ok).Some?
    ensures var t := DataResizeState(s, oldFramebuffers, infos, ok);
      forall i :: 0 <= i < |oldFramebuffers| ==> oldFramebuffers[i] !in t.live
  {
  }

  /** `resize` leaves the fences alone when the framebuffers are not fences. */
  lemma DataResizeKeepsFences(s: DeviceState, oldFramebuffers: seq<Handle>, infos: seq<CreateInfo>, ok: seq<bool>, f: Handle)
    requires |ok| == |infos| && forall i :: 0 <= i < |infos| ==> !infos[i].FenceInfo?
    requires f in s.fence && forall i :: 0 <= i < |oldFramebuffers| ==> oldFramebuffers[i] != f
    ensures var t := DataResizeState(s, oldFramebuffers, infos, ok);
      f in t.fence && t.fence[f] == s.fence[f]
  {
    LoopWithoutFences(DestroyState(s, oldFramebuffers), infos, ok);
  }

  /** Rebuilding the framebuffers on some image views keeps every fence of a
      sequence of fences. */
  lemma DataResizeKeepsFenceSeq(s: DeviceState, oldFramebuffers: seq<Handle>, views: seq<Handle>, renderPass: Handle, extent: Extent, ok: seq<bool>, fences: seq<Handle>)
    requires |ok| == |views|
    requires forall i :: 0 <= i < |oldFramebuffers| ==> oldFramebuffers[i].kind == FramebufferKind
    requires forall i :: 0 <= i < |fences| ==> fences[i] in s.fence && fences[i].kind == FenceKind
    ensures var t := DataResizeState(s, oldFramebuffers, FramebufferInfos(views, renderPass, extent), ok);
      forall i :: 0 <= i < |fences| ==> fences[i] in t.fence && t.fence[fences[i]] == s.fence[fences[i]]
  {
    var infos := FramebufferInfos(views, renderPass, extent);
    forall i | 0 <= i < |fences|
      ensures var t := DataResizeState(s, oldFramebuffers, infos, ok);
        fences[i] in t.fence && t.fence[fences[i]] == s.fence[fences[i]]
    {
      DataResizeKeepsFences(s, oldFramebuffers, infos, ok, fences[i]);
    }
  }

  class RenderData {
    /** `MAX_FRAME_DRAWS`, the number of frames in flight. */
    const maxFrameDraws: nat
    const pipelineLayout: Handle
    const renderPass: Handle
    const pipeline: Handle
    var framebuffers: seq<Handle>
    const imgAvailableSemaphore: Handle
    const renderFinishedSemaphore: Handle
    const fences: seq<Handle>
    const commandPool: Handle
    const commandBuffers: seq<Handle>

    ghost predicate Valid()
      reads this
    {
      && 1 <= maxFrameDraws
      && |fences| == maxFrameDraws && |commandBuffers| == maxFrameDraws
      && (forall i :: 0 <= i < |fences| ==> fences[i].kind == FenceKind)
      && (forall i :: 0 <= i < |framebuffers| ==> framebuffers[i].kind == FramebufferKind)
    }

    function Objects(): DataObjects
      reads this
    {
      DataObjects(pipelineLayout, renderPass, pipeline, framebuffers, imgAvailableSemaphore,
                  renderFinishedSemaphore, fences, commandPool, commandBuffers)
    }

    constructor Init(maxFrameDraws: nat, d: DataObjects)
      requires 1 <= maxFrameDraws && |d.fences| == maxFrameDraws && |d.commandBuffers| == maxFrameDraws
      requires forall i :: 0 <= i < |d.fences| ==> d.fences[i].kind == FenceKind
      requires forall i :: 0 <= i < |d.framebuffers| ==> d.framebuffers[i].kind == FramebufferKind
      ensures Valid() && this.maxFrameDraws == maxFrameDraws && Objects() == d
    {
      this.maxFrameDraws := maxFrameDraws;
      pipelineLayout := d.pipelineLayout;
      renderPass := d.renderPass;
      pipeline := d.pipeline;
      framebuffers := d.framebuffers;
      imgAvailableSemaphore := d.imgAvailableSemaphore;
      renderFinishedSemaphore := d.renderFinishedSemaphore;
      fences := d.fences;
      commandPool := d.commandPool;
      commandBuffers := d.commandBuffers;
    }

    /** `RenderData::resize`: destroy every framebuffer, then make one per
        current view; the field is reassigned only on success. Nothing but
        `framebuffers` and the device changes. */
    method Resize(base: RenderBase, ok: seq<bool>) returns (r: Result<()>)
      requires Valid() && base.Valid() && |ok| == |base.swapchainImageViews|
      modifies this`framebuffers, base.device
      ensures Valid() && base.Valid()
      ensures var infos := FramebufferInfos(base.swapchainImageViews, renderPass, base.surfaceExtent);
        var out := LoopResult(infos, ok, old(base.device.next), "framebuffer");
        && r == Forget(out)
        && framebuffers == (if out.Ok? then out.value else old(framebuffers))
        && base.device.State() == DataResizeState(old(base.device.State()), old(framebuffers), infos, ok)
    {
      DestroyAll(base.device, framebuffers);
      var made := CreateFramebuffers(base.device, base.swapchainImageViews, renderPass, base.surfaceExtent, ok);
      if !made.Ok? {
        return Forget(made);
      }
      framebuffers := made.value;
      r := Ok(());
    }
  }

  /** The first three steps of `RenderData::new`. */
  method CreatePipelineObjects(dev: Device, o: DataOracle) returns (r: Result<(Handle, Handle, Handle)>)
    requires dev.Valid()
    modifies dev
    ensures dev.Valid()
    ensures r == PipelineStageOutcome(o, old(dev.next))
    ensures dev.State() == PipelineStageState(old(dev.State()), o)
  {
    var layout := CreatePipelineLayout(dev, o.pipelineLayout);
    if layout.Err? {
      return Err(layout.msg);
    }
    var renderPass := CreateRenderPass(dev, o.renderPass);
    if renderPass.Err? {
      return Err(renderPass.msg);
    }
    var pipeline := CreatePipelines(dev, layout.value, renderPass.value, o.pipelines);
    if pipeline.Err? {
      return Err(pipeline.msg);
    }
    r := Ok((layout.value, renderPass.value, pipeline.value));
  }

  /** The two semaphores of `RenderData::new`. */
  method CreateSemaphores(dev: Device, o: DataOracle) returns (r: Result<(Handle, Handle)>)
    requires dev.Valid()
    modifies dev
    ensures dev.Valid()
    ensures r == SemaphoreStageOutcome(o, old(dev.next))
    ensures dev.State() == SemaphoreStageState(old(dev.State()), o)
  {
    var imgAvailable := CreateSemaphore(dev, "img available semaphore", o.imgSemaphore);
    if imgAvailable.Err? {
      return Err(imgAvailable.msg);
    }
    var renderFinished := CreateSemaphore(dev, "rendering finished semaphore", o.renderSemaphore);
    if renderFinished.Err? {
      return Err(renderFinished.msg);
    }
    r := Ok((imgAvailable.value, renderFinished.value));
  }

  /** The command pool and command buffers of `RenderData::new`. */
  method CreateCommandObjects(dev: Device, o: DataOracle, queueFamily: nat, k: nat) returns (r: Result<(Handle, seq<Handle>)>)
    requires dev.Valid()
    modifies dev
    ensures dev.Valid()
    ensures r == CommandStageOutcome(o, old(dev.next), k)
    ensures dev.State() == CommandStageState(old(dev.State()), o, queueFamily, k)
  {
    var pool := CreateCommandPool(dev, queueFamily, o.commandPool);
    if pool.Panic? {
      return Panic(pool.msg);
    }
    var buffers := dev.AllocateCommandBuffers(pool.value, k, o.commandBuffers.Pass?);
    if buffers.None? {
      return Err(o.commandBuffers.msg);
    }
    r := Ok((pool.value, buffers.value));
  }

  /** The last steps of `RenderData::new`. */
  method CreateSyncObjects(dev: Device, o: DataOracle, queueFamily: nat, k: nat, ghost s: DeviceState)
    returns (r: Result<SyncObjects>)
    requires dev.Valid() && |o.fences| == k && dev.State() == s
    modifies dev
    ensures dev.Valid()
    ensures r == SyncStageOutcome(o, s.next, k)
    ensures dev.State() == SyncStageState(s, o, queueFamily, k)
  {
    var m := CreateSemaphores(dev, o);
    if !m.Ok? {
      SyncStageSteps(o, s.next, s.next + 2 + k, k);
      return Propagate(m);
    }
    ghost var s6 := dev.State();
    assert s6.next == s.next + 2;
    var fences := CreateFences(dev, k, o.fences);
    if !fences.Ok? {
      SyncStageSteps(o, s.next, s.next + 2 + k, k);
      return Propagate(fences);
    }
    ghost var s7 := dev.State();
    RunStateComplete(s6, FenceInfos(k));
    assert s7.next == s6.next + k;
    SyncStageSteps(o, s.next, s7.next, k);
    var c := CreateCommandObjects(dev, o, queueFamily, k);
    if !c.Ok? {
      return Propagate(c);
    }
    r := Ok(SyncObjects(m.value.0, m.value.1, fences.value, c.value.0, c.value.1));
  }

  /** `RenderData::new`, after the shader modules: the pipeline objects, the
      framebuffers for the base's views, the semaphores, the fences, the
      command pool and `maxFrameDraws` primary command buffers, in that order.
      A failing step returns at once and destroys nothing made before it. */
  method NewRenderData(base: RenderBase, maxFrameDraws: nat, o: DataOracle) returns (r: Result<RenderData>)
    requires base.Valid() && 1 <= maxFrameDraws && Fits(o, base.swapchainImageViews, maxFrameDraws)
    modifies base.device
    ensures base.Valid()
    ensures base.device.State()
      == NewDataState(old(base.device.State()), o, base.swapchainImageViews, base.surfaceExtent, base.queueFamily, maxFrameDraws)
    ensures var out := NewDataOutcome(o, old(base.device.next), base.swapchainImageViews, base.surfaceExtent, maxFrameDraws);
      && r.Ok? == out.Ok?
      && (!r.Ok? ==> r == Propagate(out))
      && (r.Ok? ==> fresh(r.value) && r.value.Valid() && r.value.maxFrameDraws == maxFrameDraws
                    && r.value.Objects() == out.value)
  {
    NewDataCounts(o, base.device.next, base.swapchainImageViews, base.surfaceExtent, maxFrameDraws);
    var out := CreateDataObjects(base.device, o, base.swapchainImageViews, base.surfaceExtent, base.queueFamily, maxFrameDraws);
    if !out.Ok? {
      return Propagate(out);
    }
    var d := new RenderData.Init(maxFrameDraws, out.value);
    r := Ok(d);
  }

  /** The device calls of `RenderData::new`, in order. */
  method CreateDataObjects(dev: Device, o: DataOracle, views: seq<Handle>, extent: Extent, queueFamily: nat, k: nat)
    returns (r: Result<DataObjects>)
    requires dev.Valid() && Fits(o, views, k)
    modifies dev
    ensures dev.Valid()
    ensures r == NewDataOutcome(o, old(dev.next), views, extent, k)
    ensures dev.State() == NewDataState(old(dev.State()), o, views, extent, queueFamily, k)
  {
    ghost var s0 := dev.State();
    var p := CreatePipelineObjects(dev, o);
    if !p.Ok? {
      NewDataSteps(o, s0.next, s0.next + 3, s0.next + 3 + |views|, views, extent, k);
      return Propagate(p);
    }
    ghost var s3 := dev.State();
    assert s3.next == s0.next + 3;
    var framebuffers := CreateFramebuffers(dev, views, p.value.1, extent, o.framebuffers);
    if !framebuffers.Ok? {
      NewDataSteps(o, s0.next, s3.next, s3.next + |views|, views, extent, k);
      return Propagate(framebuffers);
    }
    ghost var s4 := dev.State();
    RunStateComplete(s3, FramebufferInfos(views, p.value.1, extent));
    assert s4.next == s3.next + |views|;
    NewDataSteps(o, s0.next, s3.next, s4.next, views, extent, k);
    var y := CreateSyncObjects(dev, o, queueFamily, k, s4);
    if !y.Ok? {
      return Propagate(y);
    }
    r := Ok(DataObjects(p.value.0, p.value.1, p.value.2, framebuffers.value, y.value.imgAvailableSemaphore,
                       y.value.renderFinishedSemaphore, y.value.fences, y.value.commandPool, y.value.commandBuffers));
  }
}
