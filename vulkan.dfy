/** The GPU API as an abstract device. The renderer only ever talks to Vulkan
    through this class: every call is appended to `log`, every call that can
    fail takes its outcome as a parameter, and the device keeps just the state
    the renderer's control logic depends on: which handles are alive and the
    state of every live fence. */
module Vulkan {
  import opened Outcomes

  datatype Kind =
    | FramebufferKind | FenceKind | SemaphoreKind | DescriptorPoolKind
    | CommandPoolKind | CommandBufferKind | ImageViewKind | ImageKind
    | SwapchainKind | SurfaceKind | QueueKind | RenderPassKind
    | PipelineLayoutKind | PipelineKind | ShaderModuleKind

  /** A Vulkan handle. Id 0 is `VK_NULL_HANDLE`; the device hands out ids from 1. */
  datatype Handle = Handle(kind: Kind, id: nat)

  function NullHandle(k: Kind): (h: Handle)
    ensures h.kind == k && h.id == 0
  {
    Handle(k, 0)
  }

  datatype Extent = Extent(width: nat, height: nat)

  /** The part of `VkSurfaceCapabilitiesKHR` the model carries along. */
  datatype Capabilities = Capabilities(minImageCount: nat, maxImageCount: nat, currentExtent: Extent)

  /** What a create call was asked to build. Only the fields the renderer's
      logic sets per call are kept; fixed configuration tables are not modelled. */
  datatype CreateInfo =
    | FramebufferInfo(renderPass: Handle, attachment: Handle, width: nat, height: nat, layers: nat)
    | FenceInfo(signaled: bool)
    | SemaphoreInfo
    | DescriptorPoolInfo(maxSets: nat, uniformBufferCount: nat)
    | CommandPoolInfo(resetCommandBuffer: bool, queueFamily: nat)
    | SwapchainInfo(oldSwapchain: Handle, surface: Handle, extent: Extent)
    | ImageViewInfo(image: Handle)
    | RenderPassInfo
    | PipelineLayoutInfo
    | PipelineInfo(layout: Handle, renderPass: Handle)

  function KindOf(info: CreateInfo): Kind {
    match info
    case FramebufferInfo(_, _, _, _, _) => FramebufferKind
    case FenceInfo(_) => FenceKind
    case SemaphoreInfo => SemaphoreKind
    case DescriptorPoolInfo(_, _) => DescriptorPoolKind
    case CommandPoolInfo(_, _) => CommandPoolKind
    case SwapchainInfo(_, _, _) => SwapchainKind
    case ImageViewInfo(_) => ImageViewKind
    case RenderPassInfo => RenderPassKind
    case PipelineLayoutInfo => PipelineLayoutKind
    case PipelineInfo(_, _) => PipelineKind
  }

  /** A fence is signalled, unsignalled with nothing pending, or unsignalled
      with a submission pending that will signal it. */
  datatype FenceState = Signaled | Unsignaled | Pending

  /** The state a newly created fence starts in. */
  function InitialFenceState(info: CreateInfo): FenceState
    requires info.FenceInfo?
  {
    if info.signaled then Signaled else Unsignaled
  }

  /** A non-success `VkResult` code. */
  datatype VkCode = SUBOPTIMAL_KHR | ERROR_OUT_OF_DATE_KHR | OtherCode(name: string)

  /** What the display engine reports for `acquire_next_image`. */
  datatype AcquireReply = AcquireOk(index: nat, suboptimal: bool) | AcquireErr(code: VkCode)

  /** What the display engine reports for `queue_present`. */
  datatype PresentReply = PresentOk(suboptimal: bool) | PresentErr(code: VkCode)

  /** What a fence wait with an infinite timeout comes to. */
  datatype WaitReply = Waited | WaitFailed | Blocked

  datatype Call =
    | Created(handle: Handle, info: CreateInfo)
    | CreateFailed(info: CreateInfo)
    | Destroyed(handle: Handle)
    | AllocateCommandBuffers(pool: Handle, count: nat)
    | WaitForFence(fence: Handle)
    | ResetFence(fence: Handle)
    | DeviceWaitIdle
    | GetSurfaceCapabilities(surface: Handle)
    | GetSwapchainImages(swapchain: Handle)
    | AcquireNextImage(swapchain: Handle, signal: Handle)
    | ResetCommandBuffer(cb: Handle)
    | BeginCommandBuffer(cb: Handle)
    | CmdBeginRenderPass(cb: Handle, renderPass: Handle, framebuffer: Handle, area: Extent)
    | CmdSetViewport(cb: Handle, extent: Extent)
    | CmdSetScissor(cb: Handle, extent: Extent)
    | CmdEndRenderPass(cb: Handle)
    | EndCommandBuffer(cb: Handle)
    | QueueSubmit(queue: Handle, cb: Handle, wait: Handle, signal: Handle, fence: Handle)
    | QueuePresent(queue: Handle, wait: Handle, swapchain: Handle, imageIndex: nat)

  /** A snapshot of the device, for specifications that describe a whole
      sequence of calls at once. */
  datatype DeviceState = DeviceState(next: nat, live: set<Handle>, fence: map<Handle, FenceState>, log: seq<Call>)

  /** The fence states once the device is idle: every pending submission has
      completed and signalled its fence. */
  function Idled(fence: map<Handle, FenceState>): (m: map<Handle, FenceState>)
    ensures m.Keys == fence.Keys
    ensures forall h :: h in m ==> m[h] != Pending
    ensures forall h :: h in m && fence[h] != Pending ==> m[h] == fence[h]
  {
    map h | h in fence :: if fence[h] == Pending then Signaled else fence[h]
  }

  /** The device after one create call with the given outcome: on success a
      fresh handle of the info's kind, and a new fence in the state its info
      asks for; on failure only the log grows. */
  function CreateState(s: DeviceState, info: CreateInfo, ok: bool): DeviceState {
    if !ok then DeviceState(s.next, s.live, s.fence, s.log + [CreateFailed(info)])
    else
      var h := Handle(KindOf(info), s.next);
      DeviceState(s.next + 1, s.live + {h},
                  if info.FenceInfo? then s.fence[h := InitialFenceState(info)] else s.fence,
                  s.log + [Created(h, info)])
  }

  /** The device after allocating `count` command buffers from `pool`. */
  function AllocState(s: DeviceState, pool: Handle, count: nat, ok: bool): DeviceState {
    var calls := s.log + [AllocateCommandBuffers(pool, count)];
    if !ok then DeviceState(s.next, s.live, s.fence, calls)
    else DeviceState(s.next + count, s.live + Elems(FreshOfKind(CommandBufferKind, count, s.next)), s.fence, calls)
  }

  /** A successful create adds exactly one live object, a fresh one, and a
      failed one changes nothing but the log. */
  lemma CreateMakesOneFresh(s: DeviceState, info: CreateInfo, ok: bool)
    requires forall h :: h in s.live ==> h.id < s.next
    ensures var t := CreateState(s, info, ok);
      && s.live <= t.live
      && (ok ==> exists h :: h !in s.live && h.kind == KindOf(info) && t.live - s.live == {h})
      && (!ok ==> t.live == s.live && t.fence == s.fence && t.next == s.next)
      && (forall h :: h in t.live ==> h.id < t.next)
  {
    if ok {
      var h := Handle(KindOf(info), s.next);
      assert CreateState(s, info, ok).live - s.live == {h};
    }
  }

  /** The set of handles in a sequence. */
  function Elems(hs: seq<Handle>): (s: set<Handle>)
    ensures forall i :: 0 <= i < |hs| ==> hs[i] in s
    ensures forall h :: h in s ==> h in hs
  {
    set h | h in hs
  }

  /** The handles a run of successful creations starting at id `base` yields. */
  function FreshHandles(infos: seq<CreateInfo>, base: nat): (hs: seq<Handle>)
    ensures |hs| == |infos|
    ensures forall i :: 0 <= i < |infos| ==> hs[i] == Handle(KindOf(infos[i]), base + i)
  {
    seq(|infos|, i requires 0 <= i < |infos| => Handle(KindOf(infos[i]), base + i))
  }

  /** `count` fresh handles of one kind, ids from `base`. */
  function FreshOfKind(k: Kind, count: nat, base: nat): (hs: seq<Handle>)
    ensures |hs| == count
    ensures forall i :: 0 <= i < count ==> hs[i] == Handle(k, base + i)
  {
    seq(count, i requires 0 <= i < count => Handle(k, base + i))
  }

  /** The log entries of a run of successful creations. */
  function CreatedCalls(hs: seq<Handle>, infos: seq<CreateInfo>): (calls: seq<Call>)
    requires |hs| == |infos|
    ensures |calls| == |hs|
    ensures forall i :: 0 <= i < |hs| ==> calls[i] == Created(hs[i], infos[i])
  {
    seq(|hs|, i requires 0 <= i < |hs| => Created(hs[i], infos[i]))
  }

  /** The log entries of destroying `hs` in order. */
  function DestroyedCalls(hs: seq<Handle>): (calls: seq<Call>)
    ensures |calls| == |hs|
    ensures forall i :: 0 <= i < |hs| ==> calls[i] == Destroyed(hs[i])
  {
    seq(|hs|, i requires 0 <= i < |hs| => Destroyed(hs[i]))
  }

  class Device {
    /** The id the next created handle receives. */
    var next: nat
    /** Handles created and not yet destroyed. */
    var live: set<Handle>
    /** The state of every live fence. */
    var fence: map<Handle, FenceState>
    /** Every call the renderer made, oldest first. */
    var log: seq<Call>

    ghost predicate Valid()
      reads this
    {
      && 0 < next
      && (forall h :: h in live ==> 0 < h.id < next)
      && fence.Keys <= live
      && (forall h :: h in fence ==> h.kind == FenceKind)
    }

    function State(): DeviceState
      reads this
    {
      DeviceState(next, live, fence, log)
    }

    /** The call appended `calls` to the log and changed nothing else. */
    twostate predicate Appended(calls: seq<Call>)
      reads this
    {
      next == old(next) && live == old(live) && fence == old(fence) && log == old(log) + calls
    }

    constructor ()
      ensures Valid()
      ensures next == 1 && live == {} && fence == map[] && log == []
    {
      next, live, fence, log := 1, {}, map[], [];
    }

    /** Every `vkCreate*`: on success a fresh handle of the info's kind; a new
        fence starts in the state its create info asks for. */
    method Create(info: CreateInfo, ok: bool) returns (r: Option<Handle>)
      requires Valid()
      modifies this
      ensures Valid()
      ensures ok ==> r == Some(Handle(KindOf(info), old(next)))
      ensures ok ==> next == old(next) + 1 && live == old(live) + {r.value}
      ensures ok ==> fence == (if info.FenceInfo? then old(fence)[r.value := InitialFenceState(info)] else old(fence))
      ensures ok ==> log == old(log) + [Created(r.value, info)]
      ensures !ok ==> r == None && Appended([CreateFailed(info)])
      ensures State() == CreateState(old(State()), info, ok)
    {
      if ok {
        var h := Handle(KindOf(info), next);
        next := next + 1;
        live := live + {h};
        if info.FenceInfo? {
          fence := fence[h := InitialFenceState(info)];
        }
        log := log + [Created(h, info)];
        r := Some(h);
      } else {
        log := log + [CreateFailed(info)];
        r := None;
      }
    }

    /** Every `vkDestroy*`. */
    method Destroy(h: Handle)
      requires Valid()
      modifies this
      ensures Valid()
      ensures next == old(next) && live == old(live) - {h} && fence == old(fence) - {h}
      ensures log == old(log) + [Destroyed(h)]
    {
      live := live - {h};
      fence := fence - {h};
      log := log + [Destroyed(h)];
    }

    /** `vkAllocateCommandBuffers` for `count` primary buffers. */
    method AllocateCommandBuffers(pool: Handle, count: nat, ok: bool) returns (r: Option<seq<Handle>>)
      requires Valid()
      modifies this
      ensures Valid()
      ensures ok ==> r == Some(FreshOfKind(CommandBufferKind, count, old(next)))
      ensures ok ==> next == old(next) + count && live == old(live) + Elems(r.value)
      ensures ok ==> fence == old(fence) && log == old(log) + [Call.AllocateCommandBuffers(pool, count)]
      ensures !ok ==> r == None && Appended([Call.AllocateCommandBuffers(pool, count)])
      ensures State() == AllocState(old(State()), pool, count, ok)
    {
      log := log + [Call.AllocateCommandBuffers(pool, count)];
      if !ok {
        return None;
      }
      var hs := FreshOfKind(CommandBufferKind, count, next);
      live := live + Elems(hs);
      next := next + count;
      r := Some(hs);
    }

    /** `vkWaitForFences` on one fence with an infinite timeout: a pending
        submission completes and signals it; an unsignalled fence with nothing
        pending is never signalled, so the wait blocks for ever. */
    method WaitForFence(f: Handle, ok: bool) returns (r: WaitReply)
      requires Valid() && f in fence
      modifies this
      ensures Valid()
      ensures r == (if !ok then WaitFailed else if old(fence[f]) == Unsignaled then Blocked else Waited)
      ensures r == Waited ==> fence == old(fence)[f := Signaled]
      ensures r != Waited ==> fence == old(fence)
      ensures next == old(next) && live == old(live) && log == old(log) + [Call.WaitForFence(f)]
    {
      log := log + [Call.WaitForFence(f)];
      if !ok {
        r := WaitFailed;
      } else if fence[f] == Unsignaled {
        r := Blocked;
      } else {
        r := Waited;
        fence := fence[f := Signaled];
      }
    }

    /** `vkResetFences` on one fence. */
    method ResetFence(f: Handle, ok: bool) returns (success: bool)
      requires Valid() && f in fence
      modifies this
      ensures Valid()
      ensures success == ok
      ensures fence == (if ok then old(fence)[f := Unsignaled] else old(fence))
      ensures next == old(next) && live == old(live) && log == old(log) + [Call.ResetFence(f)]
    {
      log := log + [Call.ResetFence(f)];
      success := ok;
      if ok {
        fence := fence[f := Unsignaled];
      }
    }

    /** `vkDeviceWaitIdle`: on success all submitted work has completed, so
        every pending fence is signalled. */
    method DeviceWaitIdle(ok: bool) returns (success: bool)
      requires Valid()
      modifies this
      ensures Valid()
      ensures success == ok
      ensures fence == (if ok then Idled(old(fence)) else old(fence))
      ensures next == old(next) && live == old(live) && log == old(log) + [Call.DeviceWaitIdle]
    {
      log := log + [Call.DeviceWaitIdle];
      success := ok;
      if ok {
        fence := Idled(fence);
      }
    }

    method GetSurfaceCapabilities(surface: Handle, reply: Reply<Capabilities>) returns (r: Reply<Capabilities>)
      requires Valid()
      modifies this
      ensures Valid() && r == reply && Appended([Call.GetSurfaceCapabilities(surface)])
    {
      log := log + [Call.GetSurfaceCapabilities(surface)];
      r := reply;
    }

    method GetSwapchainImages(swapchain: Handle, reply: Reply<seq<Handle>>) returns (r: Reply<seq<Handle>>)
      requires Valid()
      modifies this
      ensures Valid() && r == reply && Appended([Call.GetSwapchainImages(swapchain)])
    {
      log := log + [Call.GetSwapchainImages(swapchain)];
      r := reply;
    }

    /** `vkAcquireNextImageKHR` with no fence and the given semaphore to signal. */
    method AcquireNextImage(swapchain: Handle, signal: Handle, reply: AcquireReply) returns (r: AcquireReply)
      requires Valid()
      modifies this
      ensures Valid() && r == reply && Appended([Call.AcquireNextImage(swapchain, signal)])
    {
      log := log + [Call.AcquireNextImage(swapchain, signal)];
      r := reply;
    }

    method ResetCommandBuffer(cb: Handle, ok: bool) returns (success: bool)
      requires Valid()
      modifies this
      ensures Valid() && success == ok && Appended([Call.ResetCommandBuffer(cb)])
    {
      log := log + [Call.ResetCommandBuffer(cb)];
      success := ok;
    }

    method BeginCommandBuffer(cb: Handle, ok: bool) returns (success: bool)
      requires Valid()
      modifies this
      ensures Valid() && success == ok && Appended([Call.BeginCommandBuffer(cb)])
    {
      log := log + [Call.BeginCommandBuffer(cb)];
      success := ok;
    }

    method CmdBeginRenderPass(cb: Handle, renderPass: Handle, framebuffer: Handle, area: Extent)
      requires Valid()
      modifies this
      ensures Valid() && Appended([Call.CmdBeginRenderPass(cb, renderPass, framebuffer, area)])
    {
      log := log + [Call.CmdBeginRenderPass(cb, renderPass, framebuffer, area)];
    }

    method CmdSetViewport(cb: Handle, extent: Extent)
      requires Valid()
      modifies this
      ensures Valid() && Appended([Call.CmdSetViewport(cb, extent)])
    {
      log := log + [Call.CmdSetViewport(cb, extent)];
    }

    method CmdSetScissor(cb: Handle, extent: Extent)
      requires Valid()
      modifies this
      ensures Valid() && Appended([Call.CmdSetScissor(cb, extent)])
    {
      log := log + [Call.CmdSetScissor(cb, extent)];
    }

    method CmdEndRenderPass(cb: Handle)
      requires Valid()
      modifies this
      ensures Valid() && Appended([Call.CmdEndRenderPass(cb)])
    {
      log := log + [Call.CmdEndRenderPass(cb)];
    }

    method EndCommandBuffer(cb: Handle, ok: bool) returns (success: bool)
      requires Valid()
      modifies this
      ensures Valid() && success == ok && Appended([Call.EndCommandBuffer(cb)])
    {
      log := log + [Call.EndCommandBuffer(cb)];
      success := ok;
    }

    /** `vkQueueSubmit` of one command buffer; on success the fence is pending
        until the submitted work completes. */
    method QueueSubmit(queue: Handle, cb: Handle, wait: Handle, signal: Handle, f: Handle, ok: bool)
      returns (success: bool)
      requires Valid() && f in fence
      modifies this
      ensures Valid()
      ensures success == ok
      ensures fence == (if ok then old(fence)[f := Pending] else old(fence))
      ensures next == old(next) && live == old(live)
      ensures log == old(log) + [Call.QueueSubmit(queue, cb, wait, signal, f)]
    {
      log := log + [Call.QueueSubmit(queue, cb, wait, signal, f)];
      success := ok;
      if ok {
        fence := fence[f := Pending];
      }
    }

    method QueuePresent(queue: Handle, wait: Handle, swapchain: Handle, imageIndex: nat, reply: PresentReply)
      returns (r: PresentReply)
      requires Valid()
      modifies this
      ensures Valid() && r == reply && Appended([Call.QueuePresent(queue, wait, swapchain, imageIndex)])
    {
      log := log + [Call.QueuePresent(queue, wait, swapchain, imageIndex)];
      r := reply;
    }
  }
}
