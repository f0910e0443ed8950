/** `RenderBase`: the swapchain half of the renderer, and the rebuild sequence
    `resize_internal` that both its construction and `resize` run. */
module Base {
  import opened Outcomes
  import opened Vulkan
  import opened Resources

  /** The answer of a fallible helper whose body is not part of this model. */
  datatype Step = Pass | Fail(msg: string)

  /** The outcomes of the steps `resize_internal` takes, in order: the idle
      wait, the capabilities query, the extent derived from the window and the
      capabilities, the swapchain creation, the image query and the creation
      of the image views. */
  datatype ResizeOracle = ResizeOracle(
    idle: bool,
    capabilities: Reply<Capabilities>,
    extent: Extent,
    swapchain: Step,
    images: Reply<seq<Handle>>,
    views: Step)

  /** The five swapchain-related fields a rebuild produces together. */
  datatype ResizeResult = ResizeResult(
    surfaceCapabilities: Capabilities,
    surfaceExtent: Extent,
    swapchain: Handle,
    swapchainImages: seq<Handle>,
    swapchainImageViews: seq<Handle>)

  /** One view per swapchain image, in order. */
  function ImageViewInfos(images: seq<Handle>): (infos: seq<CreateInfo>)
    ensures |infos| == |images|
    ensures forall i :: 0 <= i < |images| ==> infos[i] == ImageViewInfo(images[i])
  {
    seq(|images|, i requires 0 <= i < |images| => ImageViewInfo(images[i]))
  }

  /** How far a rebuild gets: the new swapchain exists, its images were
      fetched, its views were made. */
  predicate SwapchainMade(o: ResizeOracle) {
    o.idle && o.capabilities.Value? && o.swapchain.Pass?
  }

  predicate ImagesFetched(o: ResizeOracle) {
    SwapchainMade(o) && o.images.Value?
  }

  predicate ViewsMade(o: ResizeOracle) {
    ImagesFetched(o) && o.views.Pass?
  }

  /** The calls `resize_internal` makes, with fresh ids handed out from `base`. */
  function ResizeLog(o: ResizeOracle, oldSwapchain: Handle, surface: Handle, oldViews: seq<Handle>, base: nat): seq<Call>
  {
    [DeviceWaitIdle] +
    if !o.idle then [] else
    [GetSurfaceCapabilities(surface)] +
    if o.capabilities.Failure? then [] else
    var info := SwapchainInfo(oldSwapchain, surface, o.extent);
    if o.swapchain.Fail? then [CreateFailed(info)] else
    var sc := Handle(SwapchainKind, base);
    [Created(sc, info), GetSwapchainImages(sc)] +
    if o.images.Failure? then [] else
    var infos := ImageViewInfos(o.images.value);
    DestroyedCalls(oldViews) +
    if o.views.Fail? then [] else CreatedCalls(FreshHandles(infos, base + 1), infos)
  }

  /** What `resize_internal` returns. */
  function ResizeOutcome(o: ResizeOracle, base: nat): (r: Result<ResizeResult>)
    ensures r.Ok? <==> ViewsMade(o)
    ensures r.Hang? == false
  {
    if !o.idle then Panic(UnwrapMsg)
    else if o.capabilities.Failure? then Err(o.capabilities.msg)
    else if o.swapchain.Fail? then Err(o.swapchain.msg)
    else if o.images.Failure? then Err(o.images.msg)
    else if o.views.Fail? then Err(o.views.msg)
    else
      var infos := ImageViewInfos(o.images.value);
      Ok(ResizeResult(o.capabilities.value, o.extent, Handle(SwapchainKind, base),
                      o.images.value, FreshHandles(infos, base + 1)))
  }

  /** The device after `resize_internal`, from the device before it, for
      each step at which the rebuild can stop. */
  function ResizeState(s: DeviceState, o: ResizeOracle, oldSwapchain: Handle, surface: Handle, oldViews: seq<Handle>): DeviceState
  {
    var calls := s.log + ResizeLog(o, oldSwapchain, surface, oldViews, s.next);
    var sc := Handle(SwapchainKind, s.next);
    if !o.idle then DeviceState(s.next, s.live, s.fence, calls)
    else if !SwapchainMade(o) then DeviceState(s.next, s.live, Idled(s.fence), calls)
    else if !ImagesFetched(o) then DeviceState(s.next + 1, s.live + {sc}, Idled(s.fence), calls)
    else if !ViewsMade(o) then DeviceState(s.next + 1, (s.live + {sc}) - Elems(oldViews), Idled(s.fence) - Elems(oldViews), calls)
    else
      var views := FreshHandles(ImageViewInfos(o.images.value), s.next + 1);
      DeviceState(s.next + 1 + |views|, ((s.live + {sc}) - Elems(oldViews)) + Elems(views), Idled(s.fence) - Elems(oldViews), calls)
  }

  /** `resize_internal`. */
  method ResizeInternal(dev: Device, o: ResizeOracle, oldSwapchain: Handle, surface: Handle, oldViews: seq<Handle>)
    returns (r: Result<ResizeResult>)
    requires dev.Valid()
    modifies dev
    ensures dev.Valid()
    ensures r == ResizeOutcome(o, old(dev.next))
    ensures dev.State() == ResizeState(old(dev.State()), o, oldSwapchain, surface, oldViews)
  {
    ghost var s0 := dev.State();
    if ViewsMade(o) {
      ResizeCompletes(s0, o, oldSwapchain, surface, oldViews);
    } else {
      ResizeStopsEarly(s0, o, oldSwapchain, surface, oldViews);
    }
    var idle := dev.DeviceWaitIdle(o.idle);
    if !idle {
      return Panic(UnwrapMsg);
    }
    var capabilities := dev.GetSurfaceCapabilities(surface, o.capabilities);
    if capabilities.Failure? {
      return Err(capabilities.msg);
    }
    var extent := o.extent;
    var info := SwapchainInfo(oldSwapchain, surface, extent);
    var swapchain := dev.Create(info, o.swapchain.Pass?);
    if swapchain.None? {
      return Err(o.swapchain.msg);
    }
    var images := dev.GetSwapchainImages(swapchain.value, o.images);
    ghost var head := [DeviceWaitIdle, GetSurfaceCapabilities(surface), Created(swapchain.value, info), GetSwapchainImages(swapchain.value)];
    if images.Failure? {
      return Err(images.msg);
    }
    assert dev.log == s0.log + head;
    var views := ReplaceViews(dev, oldViews, images.value, o.views.Pass?);
    if views.None? {
      return Err(o.views.msg);
    }
    r := Ok(ResizeResult(capabilities.value, extent, swapchain.value, images.value, views.value));
  }

  /** `ResizeLog` spelled out for each step at which a rebuild can stop. */
  lemma ResizeLogStages(o: ResizeOracle, oldSwapchain: Handle, surface: Handle, oldViews: seq<Handle>, base: nat)
    ensures var calls := ResizeLog(o, oldSwapchain, surface, oldViews, base);
      var info := SwapchainInfo(oldSwapchain, surface, o.extent);
      var sc := Handle(SwapchainKind, base);
      var head := [DeviceWaitIdle, GetSurfaceCapabilities(surface), Created(sc, info), GetSwapchainImages(sc)];
      && (!o.idle ==> calls == [DeviceWaitIdle])
      && (o.idle && o.capabilities.Failure? ==> calls == [DeviceWaitIdle, GetSurfaceCapabilities(surface)])
      && (o.idle && o.capabilities.Value? && o.swapchain.Fail? ==>
            calls == [DeviceWaitIdle, GetSurfaceCapabilities(surface), CreateFailed(info)])
      && (SwapchainMade(o) && o.images.Failure? ==> calls == head)
      && (ImagesFetched(o) && o.views.Fail? ==> calls == head + DestroyedCalls(oldViews))
      && (ViewsMade(o) ==>
            var infos := ImageViewInfos(o.images.value);
            calls == head + DestroyedCalls(oldViews) + CreatedCalls(FreshHandles(infos, base + 1), infos))
  {
  }

  /** `ResizeState` spelled out for each step at which a rebuild stops early. */
  lemma ResizeStopsEarly(s: DeviceState, o: ResizeOracle, oldSwapchain: Handle, surface: Handle, oldViews: seq<Handle>)
    requires !ViewsMade(o)
    ensures var r := ResizeState(s, o, oldSwapchain, surface, oldViews);
      var info := SwapchainInfo(oldSwapchain, surface, o.extent);
      var sc := Handle(SwapchainKind, s.next);
      var head := [DeviceWaitIdle, GetSurfaceCapabilities(surface), Created(sc, info), GetSwapchainImages(sc)];
      && (!o.idle ==> r == DeviceState(s.next, s.live, s.fence, s.log + [DeviceWaitIdle]))
      && (o.idle && o.capabilities.Failure? ==>
            r == DeviceState(s.next, s.live, Idled(s.fence), s.log + [DeviceWaitIdle, GetSurfaceCapabilities(surface)]))
      && (o.idle && o.capabilities.Value? && o.swapchain.Fail? ==>
            r == DeviceState(s.next, s.live, Idled(s.fence), s.log + [DeviceWaitIdle, GetSurfaceCapabilities(surface), CreateFailed(info)]))
      && (SwapchainMade(o) && o.images.Failure? ==>
            r == DeviceState(s.next + 1, s.live + {sc}, Idled(s.fence), s.log + head))
      && (ImagesFetched(o) && o.views.Fail? ==>
            r == DeviceState(s.next + 1, (s.live + {sc}) - Elems(oldViews), Idled(s.fence) - Elems(oldViews),
                             s.log + head + DestroyedCalls(oldViews)))
  {
    ResizeLogStages(o, oldSwapchain, surface, oldViews, s.next);
  }

  /** `ResizeState` spelled out for a rebuild that completes. */
  lemma ResizeCompletes(s: DeviceState, o: ResizeOracle, oldSwapchain: Handle, surface: Handle, oldViews: seq<Handle>)
    requires ViewsMade(o)
    ensures var r := ResizeState(s, o, oldSwapchain, surface, oldViews);
      var info := SwapchainInfo(oldSwapchain, surface, o.extent);
      var sc := Handle(SwapchainKind, s.next);
      var head := [DeviceWaitIdle, GetSurfaceCapabilities(surface), Created(sc, info), GetSwapchainImages(sc)];
      var infos := ImageViewInfos(o.images.value);
      var views := FreshHandles(infos, s.next + 1);
      r == DeviceState(s.next + 1 + |views|, ((s.live + {sc}) - Elems(oldViews)) + Elems(views),
                       Idled(s.fence) - Elems(oldViews), s.log + head + DestroyedCalls(oldViews) + CreatedCalls(views, infos))
  {
    var sc := Handle(SwapchainKind, s.next);
    var info := SwapchainInfo(oldSwapchain, surface, o.extent);
    var infos := ImageViewInfos(o.images.value);
    var views := FreshHandles(infos, s.next + 1);
    assert ResizeLog(o, oldSwapchain, surface, oldViews, s.next)
        == [DeviceWaitIdle, GetSurfaceCapabilities(surface), Created(sc, info), GetSwapchainImages(sc)]
           + DestroyedCalls(oldViews) + CreatedCalls(views, infos);
  }

  /** The last two steps of `resize_internal`: destroy the old views, then,
      when the view helper succeeds, make one view per new image. */
  method ReplaceViews(dev: Device, oldViews: seq<Handle>, images: seq<Handle>, ok: bool)
    returns (views: Option<seq<Handle>>)
    requires dev.Valid()
    modifies dev
    ensures dev.Valid()
    ensures var made := if ok then FreshHandles(ImageViewInfos(images), old(dev.next)) else [];
      && views == (if ok then Some(made) else None)
      && dev.next == old(dev.next) + |made|
      && dev.live == (old(dev.live) - Elems(oldViews)) + Elems(made)
      && dev.fence == old(dev.fence) - Elems(oldViews)
      && dev.log == old(dev.log) + DestroyedCalls(oldViews)
                    + (if ok then CreatedCalls(made, ImageViewInfos(images)) else [])
  {
    DestroyAll(dev, oldViews);
    if !ok {
      return None;
    }
    var infos := ImageViewInfos(images);
    RunFenceWithoutFences(dev.fence, infos, dev.next, |infos|);
    RunStateComplete(dev.State(), infos);
    var r := CreateAll(dev, infos, seq(|infos|, _ => true), "image view");
    views := Some(r.value);
  }

  /** The first call of a rebuild is the idle wait, whatever happens after. */
  lemma ResizeWaitsIdleFirst(o: ResizeOracle, oldSwapchain: Handle, surface: Handle, oldViews: seq<Handle>, base: nat)
    ensures var calls := ResizeLog(o, oldSwapchain, surface, oldViews, base);
      |calls| >= 1 && calls[0] == DeviceWaitIdle
  {
  }

  /** An idle-wait failure panics, and then nothing else is called. */
  lemma IdleFailurePanics(o: ResizeOracle, oldSwapchain: Handle, surface: Handle, oldViews: seq<Handle>, base: nat)
    requires !o.idle
    ensures ResizeOutcome(o, base) == Panic(UnwrapMsg)
    ensures ResizeLog(o, oldSwapchain, surface, oldViews, base) == [DeviceWaitIdle]
  {
  }

  /** The only swapchain a rebuild creates names the current one as its old
      swapchain. */
  lemma ResizeChainsOldSwapchain(o: ResizeOracle, oldSwapchain: Handle, surface: Handle, oldViews: seq<Handle>, base: nat, k: nat)
    requires var calls := ResizeLog(o, oldSwapchain, surface, oldViews, base);
      k < |calls| && calls[k].Created? && calls[k].info.SwapchainInfo?
    ensures SwapchainMade(o) && k == 2
    ensures ResizeLog(o, oldSwapchain, surface, oldViews, base)[k].info == SwapchainInfo(oldSwapchain, surface, o.extent)
  {
    var calls := ResizeLog(o, oldSwapchain, surface, oldViews, base);
    if SwapchainMade(o) && o.images.Value? {
      var infos := ImageViewInfos(o.images.value);
      var tail := DestroyedCalls(oldViews) + if o.views.Fail? then [] else CreatedCalls(FreshHandles(infos, base + 1), infos);
    }
  }

  /** Old views are destroyed only once the new swapchain and its images
      exist, and every destruction comes before every view creation. */
  lemma ResizeDestroysOldViewsAfterImages(o: ResizeOracle, oldSwapchain: Handle, surface: Handle, oldViews: seq<Handle>, base: nat, k: nat)
    requires var calls := ResizeLog(o, oldSwapchain, surface, oldViews, base);
      k < |calls| && calls[k].Destroyed?
    ensures ImagesFetched(o)
    ensures var calls := ResizeLog(o, oldSwapchain, surface, oldViews, base);
      && 4 <= k < 4 + |oldViews|
      && calls[k] == Destroyed(oldViews[k - 4])
      && calls[3] == GetSwapchainImages(Handle(SwapchainKind, base))
  {
    var calls := ResizeLog(o, oldSwapchain, surface, oldViews, base);
    if ImagesFetched(o) {
      var infos := ImageViewInfos(o.images.value);
      var made := if o.views.Fail? then [] else CreatedCalls(FreshHandles(infos, base + 1), infos);
      var head := [DeviceWaitIdle, GetSurfaceCapabilities(surface), Created(Handle(SwapchainKind, base), SwapchainInfo(oldSwapchain, surface, o.extent)), GetSwapchainImages(Handle(SwapchainKind, base))];
      if k < 4 + |oldViews| {
        assert DestroyedCalls(oldViews)[k - 4] == calls[k];
      }
    }
  }

  /** The new views are made from the freshly fetched images, one per image
      in order, after all old views are gone. */
  lemma ResizeViewsFromNewImages(o: ResizeOracle, oldSwapchain: Handle, surface: Handle, oldViews: seq<Handle>, base: nat, k: nat)
    requires var calls := ResizeLog(o, oldSwapchain, surface, oldViews, base);
      k < |calls| && calls[k].Created? && calls[k].info.ImageViewInfo?
    ensures ViewsMade(o)
    ensures var calls := ResizeLog(o, oldSwapchain, surface, oldViews, base);
      && 4 + |oldViews| <= k < 4 + |oldViews| + |o.images.value|
      && calls[k].info == ImageViewInfo(o.images.value[k - 4 - |oldViews|])
  {
    var calls := ResizeLog(o, oldSwapchain, surface, oldViews, base);
    if SwapchainMade(o) && o.images.Value? {
      var infos := ImageViewInfos(o.images.value);
      var made := if o.views.Fail? then [] else CreatedCalls(FreshHandles(infos, base + 1), infos);
      var head := [DeviceWaitIdle, GetSurfaceCapabilities(surface), Created(Handle(SwapchainKind, base), SwapchainInfo(oldSwapchain, surface, o.extent)), GetSwapchainImages(Handle(SwapchainKind, base))];
      if k >= 4 + |oldViews| {
        assert made[k - 4 - |oldViews|] == calls[k];
      }
    }
  }

  /** A rebuild never destroys the swapchain it replaces: the old one is
      retired by the new swapchain's creation but stays alive. */
  lemma ResizeKeepsOldSwapchain(o: ResizeOracle, oldSwapchain: Handle, surface: Handle, oldViews: seq<Handle>, base: nat, k: nat)
    requires oldSwapchain.kind == SwapchainKind
    requires forall i :: 0 <= i < |oldViews| ==> oldViews[i].kind == ImageViewKind
    requires k < |ResizeLog(o, oldSwapchain, surface, oldViews, base)|
    ensures ResizeLog(o, oldSwapchain, surface, oldViews, base)[k] != Destroyed(oldSwapchain)
  {
    var calls := ResizeLog(o, oldSwapchain, surface, oldViews, base);
    if calls[k].Destroyed? {
      ResizeDestroysOldViewsAfterImages(o, oldSwapchain, surface, oldViews, base, k);
    }
  }

  /** A rebuild keeps every fence: it only waits for the device, which
      signals the pending ones, and destroys image views. */
  lemma ResizeKeepsFences(s: DeviceState, o: ResizeOracle, oldSwapchain: Handle, surface: Handle, oldViews: seq<Handle>, f: Handle)
    requires f in s.fence && f.kind == FenceKind
    requires forall i :: 0 <= i < |oldViews| ==> oldViews[i].kind == ImageViewKind
    ensures var t := ResizeState(s, o, oldSwapchain, surface, oldViews);
      f in t.fence && t.fence[f] == (if o.idle then Idled(s.fence) else s.fence)[f]
  {
    assert f !in Elems(oldViews);
  }

  /** `ResizeKeepsFences` for every fence of a sequence at once. */
  lemma ResizeKeepsFenceSeq(s: DeviceState, o: ResizeOracle, oldSwapchain: Handle, surface: Handle, oldViews: seq<Handle>, fences: seq<Handle>)
    requires forall i :: 0 <= i < |fences| ==> fences[i] in s.fence && fences[i].kind == FenceKind
    requires forall i :: 0 <= i < |oldViews| ==> oldViews[i].kind == ImageViewKind
    ensures var t := ResizeState(s, o, oldSwapchain, surface, oldViews);
      forall i :: 0 <= i < |fences| ==>
        fences[i] in t.fence && t.fence[fences[i]] == (if o.idle then Idled(s.fence) else s.fence)[fences[i]]
  {
    forall i | 0 <= i < |fences|
      ensures var t := ResizeState(s, o, oldSwapchain, surface, oldViews);
        fences[i] in t.fence && t.fence[fences[i]] == (if o.idle then Idled(s.fence) else s.fence)[fences[i]]
    {
      ResizeKeepsFences(s, o, oldSwapchain, surface, oldViews, fences[i]);
    }
  }

  class RenderBase {
    const device: Device
    const surface: Handle
    const queue: Handle
    const queueFamily: nat
    var surfaceCapabilities: Capabilities
    var surfaceExtent: Extent
    var swapchain: Handle
    var swapchainImages: seq<Handle>
    var swapchainImageViews: seq<Handle>

    ghost predicate Valid()
      reads this, device
    {
      && device.Valid()
      && swapchain.kind == SwapchainKind
      && (forall i :: 0 <= i < |swapchainImageViews| ==> swapchainImageViews[i].kind == ImageViewKind)
    }

    /** The value of the five fields a rebuild replaces. */
    function Swapchain(): ResizeResult
      reads this
    {
      ResizeResult(surfaceCapabilities, surfaceExtent, swapchain, swapchainImages, swapchainImageViews)
    }

    constructor Init(device: Device, surface: Handle, queue: Handle, queueFamily: nat, chain: ResizeResult)
      requires device.Valid() && chain.swapchain.kind == SwapchainKind
      requires forall i :: 0 <= i < |chain.swapchainImageViews| ==> chain.swapchainImageViews[i].kind == ImageViewKind
      ensures Valid()
      ensures this.device == device && this.surface == surface && this.queue == queue && this.queueFamily == queueFamily
      ensures Swapchain() == chain
    {
      this.device := device;
      this.surface := surface;
      this.queue := queue;
      this.queueFamily := queueFamily;
      surfaceCapabilities := chain.surfaceCapabilities;
      surfaceExtent := chain.surfaceExtent;
      swapchain := chain.swapchain;
      swapchainImages := chain.swapchainImages;
      swapchainImageViews := chain.swapchainImageViews;
    }

    /** `RenderBase::resize`: rebuild against the current swapchain and its
        views; the five fields are replaced together, and only on success. */
    method Resize(o: ResizeOracle) returns (r: Result<()>)
      requires Valid()
      modifies this`surfaceCapabilities, this`surfaceExtent, this`swapchain, this`swapchainImages, this`swapchainImageViews, device
      ensures Valid()
      ensures var out := ResizeOutcome(o, old(device.next));
        && r == Forget(out)
        && Swapchain() == (if out.Ok? then out.value else old(Swapchain()))
      ensures device.State() == ResizeState(old(device.State()), o, old(swapchain), surface, old(swapchainImageViews))
    {
      var data := ResizeInternal(device, o, swapchain, surface, swapchainImageViews);
      if !data.Ok? {
        return Forget(data);
      }
      surfaceCapabilities := data.value.surfaceCapabilities;
      surfaceExtent := data.value.surfaceExtent;
      swapchain := data.value.swapchain;
      swapchainImages := data.value.swapchainImages;
      swapchainImageViews := data.value.swapchainImageViews;
      r := Ok(());
    }
  }

  /** The swapchain part of `RenderBase::new`: the first rebuild starts from
      the null swapchain and no views. Instance, device and allocator set-up
      come in as the already created `device`, `surface` and `queue`. */
  method NewRenderBase(device: Device, surface: Handle, queue: Handle, queueFamily: nat, o: ResizeOracle)
    returns (r: Result<RenderBase>)
    requires device.Valid()
    modifies device
    ensures device.Valid()
    ensures device.State() == ResizeState(old(device.State()), o, NullHandle(SwapchainKind), surface, [])
    ensures var out := ResizeOutcome(o, old(device.next));
      && r.Ok? == out.Ok?
      && (!r.Ok? ==> r == Propagate(out))
      && (r.Ok? ==> fresh(r.value) && r.value.Valid() && r.value.device == device && r.value.surface == surface
                    && r.value.queue == queue && r.value.queueFamily == queueFamily && r.value.Swapchain() == out.value)
  {
    var data := ResizeInternal(device, o, NullHandle(SwapchainKind), surface, []);
    if data.Ok? {
      var b := new RenderBase.Init(device, surface, queue, queueFamily, data.value);
      r := Ok(b);
    } else {
      r := Propagate(data);
    }
  }
}
