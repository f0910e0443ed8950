/** Creation of the renderer's Vulkan objects (src/renderer/resources/mod.rs).
    The framebuffer, fence and descriptor-pool constructors share one loop
    shape: create the objects one at a time, and when creation number i fails,
    destroy every object created before it and report i. `CreateAll` is that
    loop; the three constructors instantiate it. */
module Resources {
  import opened Outcomes
  import opened Vulkan

  /** The index of the first failing outcome, if any. */
  function FirstFailure(ok: seq<bool>): (r: Option<nat>)
    ensures r.None? <==> forall i :: 0 <= i < |ok| ==> ok[i]
    ensures r.Some? ==> r.value < |ok| && !ok[r.value]
    ensures r.Some? ==> forall j :: 0 <= j < r.value ==> ok[j]
  {
    if ok == [] then None
    else if !ok[0] then Some(0)
    else match FirstFailure(ok[1..])
      case None => None
      case Some(i) => Some(i + 1)
  }

  /** The message of a failed creation loop, e.g. "failed to create fence 1". */
  function IndexedFailure(what: string, i: nat): string {
    "failed to create " + what + " " + NatToString(i)
  }

  /** The calls a creation loop makes when creation number `i` fails: the `i`
      successful creations, the failing one, then the clean-up of the `i`
      objects in creation order. */
  function FailedLoopCalls(infos: seq<CreateInfo>, i: nat, base: nat): (calls: seq<Call>)
    requires i < |infos|
  {
    var made := FreshHandles(infos[..i], base);
    CreatedCalls(made, infos[..i]) + [CreateFailed(infos[i])] + DestroyedCalls(made)
  }

  /** In a failed loop every object that was created is destroyed again, after
      the failure and in creation order. */
  lemma FailedLoopDestroysEveryCreated(infos: seq<CreateInfo>, i: nat, base: nat, k: nat)
    requires i < |infos| && k < i
    ensures var calls := FailedLoopCalls(infos, i, base);
      && |calls| == 2 * i + 1
      && calls[k] == Created(Handle(KindOf(infos[k]), base + k), infos[k])
      && calls[i] == CreateFailed(infos[i])
      && calls[i + 1 + k] == Destroyed(Handle(KindOf(infos[k]), base + k))
  {
  }

  /** The device after destroying `hs` in order. */
  function DestroyState(s: DeviceState, hs: seq<Handle>): DeviceState {
    DeviceState(s.next, s.live - Elems(hs), s.fence - Elems(hs), s.log + DestroyedCalls(hs))
  }

  /** Destroys `hs` one by one, in order. */
  method DestroyAll(dev: Device, hs: seq<Handle>)
    requires dev.Valid()
    modifies dev
    ensures dev.Valid()
    ensures dev.State() == DestroyState(old(dev.State()), hs)
    ensures dev.next == old(dev.next)
    ensures dev.live == old(dev.live) - Elems(hs)
    ensures dev.fence == old(dev.fence) - Elems(hs)
    ensures dev.log == old(dev.log) + DestroyedCalls(hs)
  {
    var i := 0;
    while i < |hs|
      invariant 0 <= i <= |hs|
      invariant dev.Valid()
      invariant dev.next == old(dev.next)
      invariant dev.live == old(dev.live) - Elems(hs[..i])
      invariant dev.fence == old(dev.fence) - Elems(hs[..i])
      invariant dev.log == old(dev.log) + DestroyedCalls(hs[..i])
    {
      assert Elems(hs[..i + 1]) == Elems(hs[..i]) + {hs[i]} by {
        assert hs[..i + 1] == hs[..i] + [hs[i]];
      }
      assert DestroyedCalls(hs[..i + 1]) == DestroyedCalls(hs[..i]) + [Destroyed(hs[i])];
      dev.Destroy(hs[i]);
      i := i + 1;
    }
    assert hs[..i] == hs;
  }

  /** The fence states after the first `n` creations of a run whose ids
      start at `base` all succeeded: each new fence starts as its info says. */
  function RunFence(fence: map<Handle, FenceState>, infos: seq<CreateInfo>, base: nat, n: nat): map<Handle, FenceState>
    requires n <= |infos|
    decreases n
  {
    if n == 0 then fence
    else
      var m := RunFence(fence, infos, base, n - 1);
      var info := infos[n - 1];
      if info.FenceInfo? then m[Handle(KindOf(info), base + n - 1) := InitialFenceState(info)] else m
  }

  /** A run that creates no fence leaves the fence states alone. */
  lemma {:induction false} RunFenceWithoutFences(fence: map<Handle, FenceState>, infos: seq<CreateInfo>, base: nat, n: nat)
    requires n <= |infos| && forall i :: 0 <= i < n ==> !infos[i].FenceInfo?
    ensures RunFence(fence, infos, base, n) == fence
    decreases n
  {
    if n > 0 {
      RunFenceWithoutFences(fence, infos, base, n - 1);
    }
  }

  /** What a run does to the fence states, entry by entry, when every
      earlier id is below `base`: earlier entries stay as they were, and every
      new entry is a fence of the run, in the state its info asks for. */
  lemma {:induction false} RunFenceShape(fence: map<Handle, FenceState>, infos: seq<CreateInfo>, base: nat, n: nat)
    requires n <= |infos| && forall h :: h in fence ==> h.id < base
    ensures var m := RunFence(fence, infos, base, n);
      && (forall h :: h in fence ==> h in m && m[h] == fence[h])
      && (forall h :: h in m && h !in fence ==>
            && h.kind == FenceKind && base <= h.id < base + n
            && infos[h.id - base].FenceInfo? && m[h] == InitialFenceState(infos[h.id - base]))
    decreases n
  {
    if n > 0 {
      RunFenceShape(fence, infos, base, n - 1);
    }
  }

  /** A run of fence creations adds exactly its own handles to the fence
      entries. */
  lemma {:induction false} RunFenceKeys(fence: map<Handle, FenceState>, infos: seq<CreateInfo>, base: nat, n: nat)
    requires n <= |infos| && forall i :: 0 <= i < n ==> infos[i].FenceInfo?
    ensures RunFence(fence, infos, base, n).Keys == fence.Keys + Elems(FreshHandles(infos[..n], base))
    decreases n
  {
    if n > 0 {
      RunFenceKeys(fence, infos, base, n - 1);
      LoopStep(FreshHandles(infos[..n - 1], base), infos, n - 1, base);
    }
  }

  /** A run of signalled-fence creations adds one signalled entry per created
      fence and keeps every earlier entry. */
  lemma RunFenceSignaled(fence: map<Handle, FenceState>, infos: seq<CreateInfo>, base: nat)
    requires (forall i :: 0 <= i < |infos| ==> infos[i] == FenceInfo(true))
    requires forall h :: h in fence ==> h.id < base
    ensures var m := RunFence(fence, infos, base, |infos|);
      && m.Keys == fence.Keys + Elems(FreshHandles(infos, base))
      && (forall h :: h in fence ==> m[h] == fence[h])
      && (forall h :: h in m && h !in fence ==> m[h] == Signaled)
  {
    RunFenceShape(fence, infos, base, |infos|);
    RunFenceKeys(fence, infos, base, |infos|);
    assert infos[..|infos|] == infos;
  }

  /** Destroying what a run made, from a device whose ids are all below
      `base`, restores the fence states the run started from. */
  lemma RunFenceCleanup(fence: map<Handle, FenceState>, infos: seq<CreateInfo>, base: nat, n: nat)
    requires n <= |infos| && forall h :: h in fence ==> h.id < base
    ensures RunFence(fence, infos, base, n) - Elems(FreshHandles(infos[..n], base)) == fence
  {
    RunFenceShape(fence, infos, base, n);
    var m := RunFence(fence, infos, base, n);
    var hs := FreshHandles(infos[..n], base);
    var e := Elems(hs);
    forall h | h in e
      ensures h !in fence
    {
      var i :| 0 <= i < |hs| && hs[i] == h;
    }
    forall h | h in m && h !in fence
      ensures h in e
    {
      assert hs[h.id - base] == h;
    }
    assert (m - e).Keys == fence.Keys;
  }

  /** Destroying what a run made restores the live set it started from. */
  lemma CleanupRestoresLive(live: set<Handle>, infos: seq<CreateInfo>, base: nat)
    requires forall x :: x in live ==> x.id < base
    ensures (live + Elems(FreshHandles(infos, base))) - Elems(FreshHandles(infos, base)) == live
  {
    assert forall x :: x in Elems(FreshHandles(infos, base)) ==> x.id >= base;
  }

  /** One more successful creation extends the run's handles and log. */
  lemma LoopStep(hs: seq<Handle>, infos: seq<CreateInfo>, i: nat, base: nat)
    requires i < |infos| && hs == FreshHandles(infos[..i], base)
    ensures var h := Handle(KindOf(infos[i]), base + i);
      && hs + [h] == FreshHandles(infos[..i + 1], base)
      && Elems(hs + [h]) == Elems(hs) + {h}
      && CreatedCalls(hs + [h], infos[..i + 1]) == CreatedCalls(hs, infos[..i]) + [Created(h, infos[i])]
  {
    assert infos[..i + 1] == infos[..i] + [infos[i]];
  }

  /** The device after the first `n` creations of a run that started in
      state `s` all succeeded. */
  function RunState(s: DeviceState, infos: seq<CreateInfo>, n: nat): DeviceState
    requires n <= |infos|
  {
    var made := FreshHandles(infos[..n], s.next);
    DeviceState(s.next + n, s.live + Elems(made), RunFence(s.fence, infos, s.next, n),
                s.log + CreatedCalls(made, infos[..n]))
  }

  /** One more successful creation takes a run from `n` to `n + 1` creations. */
  lemma RunStep(s: DeviceState, infos: seq<CreateInfo>, n: nat)
    requires n < |infos|
    ensures RunState(s, infos, n + 1) == CreateState(RunState(s, infos, n), infos[n], true)
  {
    var hs, h := FreshHandles(infos[..n], s.next), Handle(KindOf(infos[n]), s.next + n);
    var t, u := RunState(s, infos, n), RunState(s, infos, n + 1);
    LoopStep(hs, infos, n, s.next);
    var fence := if infos[n].FenceInfo? then t.fence[h := InitialFenceState(infos[n])] else t.fence;
    assert u.live == t.live + {h};
    assert u.fence == fence;
    assert u.log == t.log + [Created(h, infos[n])];
    assert u == DeviceState(t.next + 1, t.live + {h}, fence, t.log + [Created(h, infos[n])]);
  }

  /** Creation number `i` of a run: on success the run grows by one object. */
  method CreateNext(dev: Device, infos: seq<CreateInfo>, ok: bool, i: nat, ghost s0: DeviceState)
    returns (h: Option<Handle>)
    requires dev.Valid() && i < |infos| && dev.State() == RunState(s0, infos, i)
    modifies dev
    ensures dev.Valid()
    ensures ok ==> h == Some(Handle(KindOf(infos[i]), s0.next + i)) && dev.State() == RunState(s0, infos, i + 1)
    ensures !ok ==> h == None
    ensures var t := RunState(s0, infos, i);
      !ok ==> dev.State() == DeviceState(t.next, t.live, t.fence, t.log + [CreateFailed(infos[i])])
  {
    RunStep(s0, infos, i);
    h := dev.Create(infos[i], ok);
  }

  /** The clean-up a creation loop runs when creation number `i` fails:
      destroy the `i` objects made so far, in order, and report `i`. */
  method Unwind(dev: Device, infos: seq<CreateInfo>, ok: seq<bool>, i: nat, hs: seq<Handle>, what: string,
                ghost s0: DeviceState)
    returns (r: Result<seq<Handle>>)
    requires dev.Valid() && i < |infos| == |ok| && !ok[i] && forall j :: 0 <= j < i ==> ok[j]
    requires (forall x :: x in s0.live ==> x.id < s0.next) && s0.fence.Keys <= s0.live
    requires hs == FreshHandles(infos[..i], s0.next)
    requires var t := RunState(s0, infos, i);
      dev.State() == DeviceState(t.next, t.live, t.fence, t.log + [CreateFailed(infos[i])])
    modifies dev
    ensures dev.Valid()
    ensures r == LoopResult(infos, ok, s0.next, what)
    ensures dev.State() == LoopState(s0, infos, ok)
  {
    LoopFailed(s0, infos, ok, i, what);
    DestroyAll(dev, hs);
    CleanupRestoresLive(s0.live, infos[..i], s0.next);
    RunFenceCleanup(s0.fence, infos, s0.next, i);
    FailedLoopLog(s0.log, infos, i, s0.next);
    r := Err(IndexedFailure(what, i));
  }

  /** The log of a failed loop, as the loop writes it. */
  lemma FailedLoopLog(log: seq<Call>, infos: seq<CreateInfo>, i: nat, base: nat)
    requires i < |infos|
    ensures var hs := FreshHandles(infos[..i], base);
      log + CreatedCalls(hs, infos[..i]) + [CreateFailed(infos[i])] + DestroyedCalls(hs)
        == log + FailedLoopCalls(infos, i, base)
  {
  }

  /** A loop whose creation number `i` is its first failure. */
  lemma LoopFailed(s0: DeviceState, infos: seq<CreateInfo>, ok: seq<bool>, i: nat, what: string)
    requires i < |infos| == |ok| && !ok[i] && forall j :: 0 <= j < i ==> ok[j]
    ensures LoopResult(infos, ok, s0.next, what) == Err(IndexedFailure(what, i))
    ensures LoopState(s0, infos, ok) == DeviceState(s0.next + i, s0.live, s0.fence, s0.log + FailedLoopCalls(infos, i, s0.next))
  {
    FirstFailureAt(ok, i);
  }

  /** The first failure is the failure all of whose predecessors succeeded. */
  lemma FirstFailureAt(ok: seq<bool>, i: nat)
    requires i < |ok| && !ok[i] && forall j :: 0 <= j < i ==> ok[j]
    ensures FirstFailure(ok) == Some(i)
  {
  }

  /** A loop that got through every info without a failure returns the whole
      run. */
  lemma LoopDone(s0: DeviceState, infos: seq<CreateInfo>, ok: seq<bool>, hs: seq<Handle>, what: string)
    requires |ok| == |infos| && forall j :: 0 <= j < |ok| ==> ok[j]
    requires hs == FreshHandles(infos[..|infos|], s0.next)
    ensures Ok(hs) == LoopResult(infos, ok, s0.next, what)
    ensures RunState(s0, infos, |infos|) == LoopState(s0, infos, ok)
  {
    assert infos[..|infos|] == infos;
  }

  /** What the creation loop returns: every handle of the run, or the error
      naming the first failing index. */
  function LoopResult(infos: seq<CreateInfo>, ok: seq<bool>, base: nat, what: string): (r: Result<seq<Handle>>)
    requires |ok| == |infos|
    ensures r.Ok? <==> FirstFailure(ok).None?
    ensures r.Ok? || r.Err?
  {
    match FirstFailure(ok)
    case None => Ok(FreshHandles(infos, base))
    case Some(i) => Err(IndexedFailure(what, i))
  }

  /** The device after the creation loop from state `s`: the whole run when
      every creation succeeds; otherwise only the ids are used up and the log
      records the run, the failure and the clean-up. */
  function LoopState(s: DeviceState, infos: seq<CreateInfo>, ok: seq<bool>): DeviceState
    requires |ok| == |infos|
  {
    match FirstFailure(ok)
    case None => RunState(s, infos, |infos|)
    case Some(i) => DeviceState(s.next + i, s.live, s.fence, s.log + FailedLoopCalls(infos, i, s.next))
  }

  /** A complete run, spelled out. */
  lemma RunStateComplete(s: DeviceState, infos: seq<CreateInfo>)
    ensures var made := FreshHandles(infos, s.next);
      RunState(s, infos, |infos|)
        == DeviceState(s.next + |infos|, s.live + Elems(made), RunFence(s.fence, infos, s.next, |infos|),
                       s.log + CreatedCalls(made, infos))
  {
    assert infos[..|infos|] == infos;
  }

  /** The creation loop shared by `create_framebuffers`, `create_fences` and
      `create_descriptor_pools`: `ok[i]` is the outcome of creation number i.
      All or nothing: on success one fresh object per info, in order; on the
      first failure every object made so far is destroyed and the error names
      the failing index. */
  method CreateAll(dev: Device, infos: seq<CreateInfo>, ok: seq<bool>, what: string)
    returns (r: Result<seq<Handle>>)
    requires dev.Valid() && |ok| == |infos|
    modifies dev
    ensures dev.Valid()
    ensures r == LoopResult(infos, ok, old(dev.next), what)
    ensures dev.State() == LoopState(old(dev.State()), infos, ok)
  {
    ghost var s0 := dev.State();
    var hs: seq<Handle> := [];
    var i := 0;
    while i < |infos|
      invariant 0 <= i <= |infos|
      invariant forall j :: 0 <= j < i ==> ok[j]
      invariant dev.Valid()
      invariant hs == FreshHandles(infos[..i], s0.next)
      invariant dev.State() == RunState(s0, infos, i)
    {
      var h := CreateNext(dev, infos, ok[i], i, s0);
      if h.None? {
        r := Unwind(dev, infos, ok, i, hs, what, s0);
        return;
      }
      LoopStep(hs, infos, i, s0.next);
      hs := hs + [h.value];
      i := i + 1;
    }
    LoopDone(s0, infos, ok, hs, what);
    r := Ok(hs);
  }

  /** The create info of framebuffer i: it attaches view i and covers the
      given extent with one layer. */
  function FramebufferInfos(views: seq<Handle>, renderPass: Handle, extent: Extent): (infos: seq<CreateInfo>)
    ensures |infos| == |views|
    ensures forall i :: 0 <= i < |views| ==> infos[i] == FramebufferInfo(renderPass, views[i], extent.width, extent.height, 1)
  {
    seq(|views|, i requires 0 <= i < |views| => FramebufferInfo(renderPass, views[i], extent.width, extent.height, 1))
  }

  /** `create_framebuffers`: one framebuffer per swapchain image view. */
  method CreateFramebuffers(dev: Device, views: seq<Handle>, renderPass: Handle, extent: Extent, ok: seq<bool>)
    returns (r: Result<seq<Handle>>)
    requires dev.Valid() && |ok| == |views|
    modifies dev
    ensures dev.Valid()
    ensures r == LoopResult(FramebufferInfos(views, renderPass, extent), ok, old(dev.next), "framebuffer")
    ensures dev.State() == LoopState(old(dev.State()), FramebufferInfos(views, renderPass, extent), ok)
  {
    r := CreateAll(dev, FramebufferInfos(views, renderPass, extent), ok, "framebuffer");
  }

  /** `count` copies of one create info. */
  function Repeat(info: CreateInfo, count: nat): (infos: seq<CreateInfo>)
    ensures |infos| == count && forall i :: 0 <= i < count ==> infos[i] == info
  {
    seq(count, _ => info)
  }

  /** The create infos of `create_fences`: every fence starts signalled. */
  function FenceInfos(maxFrameDraws: nat): (infos: seq<CreateInfo>)
    ensures |infos| == maxFrameDraws && forall i :: 0 <= i < maxFrameDraws ==> infos[i] == FenceInfo(true)
  {
    Repeat(FenceInfo(true), maxFrameDraws)
  }

  /** The create infos of `create_descriptor_pools`: pools of 100
      uniform-buffer descriptors and at most 100 sets each. */
  function DescriptorPoolInfos(maxFrameDraws: nat): (infos: seq<CreateInfo>)
    ensures |infos| == maxFrameDraws && forall i :: 0 <= i < maxFrameDraws ==> infos[i] == DescriptorPoolInfo(100, 100)
  {
    Repeat(DescriptorPoolInfo(100, 100), maxFrameDraws)
  }

  /** `create_fences`: `maxFrameDraws` fences, all created signalled. */
  method CreateFences(dev: Device, maxFrameDraws: nat, ok: seq<bool>) returns (r: Result<seq<Handle>>)
    requires dev.Valid() && |ok| == maxFrameDraws
    modifies dev
    ensures dev.Valid()
    ensures r == LoopResult(FenceInfos(maxFrameDraws), ok, old(dev.next), "fence")
    ensures dev.State() == LoopState(old(dev.State()), FenceInfos(maxFrameDraws), ok)
  {
    r := CreateAll(dev, FenceInfos(maxFrameDraws), ok, "fence");
  }

  /** `create_descriptor_pools`: `maxFrameDraws` descriptor pools. */
  method CreateDescriptorPools(dev: Device, maxFrameDraws: nat, ok: seq<bool>) returns (r: Result<seq<Handle>>)
    requires dev.Valid() && |ok| == maxFrameDraws
    modifies dev
    ensures dev.Valid()
    ensures r == LoopResult(DescriptorPoolInfos(maxFrameDraws), ok, old(dev.next), "descriptor pool")
    ensures dev.State() == LoopState(old(dev.State()), DescriptorPoolInfos(maxFrameDraws), ok)
  {
    r := CreateAll(dev, DescriptorPoolInfos(maxFrameDraws), ok, "descriptor pool");
  }

  /** The creation loop is all or nothing. On success it returns one fresh,
      distinct handle per info, of the info's kind, and logs their creation
      in order; on the first failure it names the failing index, leaves the
      live objects and fences as they were, and logs the run, the failure and
      the clean-up. */
  lemma LoopAllOrNothing(s: DeviceState, infos: seq<CreateInfo>, ok: seq<bool>, what: string)
    requires |ok| == |infos| && forall h :: h in s.live ==> h.id < s.next
    ensures var r := LoopResult(infos, ok, s.next, what);
      var t := LoopState(s, infos, ok);
      && (r.Ok? <==> forall i :: 0 <= i < |ok| ==> ok[i])
      && (r.Ok? ==>
            && |r.value| == |infos|
            && (forall i :: 0 <= i < |infos| ==> r.value[i].kind == KindOf(infos[i]) && r.value[i] !in s.live)
            && (forall i, j :: 0 <= i < j < |infos| ==> r.value[i] != r.value[j])
            && t.next == s.next + |infos|
            && t.live == s.live + Elems(r.value)
            && t.log == s.log + CreatedCalls(r.value, infos))
      && (r.Err? ==>
            var i := FirstFailure(ok).value;
            && r.msg == IndexedFailure(what, i)
            && t.next == s.next + i
            && t.live == s.live && t.fence == s.fence
            && t.log == s.log + FailedLoopCalls(infos, i, s.next))
  {
    RunStateComplete(s, infos);
  }

  /** The creation loop never removes a live object it did not make. */
  lemma LoopGrowsLive(s: DeviceState, infos: seq<CreateInfo>, ok: seq<bool>)
    requires |ok| == |infos|
    ensures s.live <= LoopState(s, infos, ok).live
  {
  }

  /** The creation loop only appends to the log. */
  lemma LoopLogExtends(s: DeviceState, infos: seq<CreateInfo>, ok: seq<bool>)
    requires |ok| == |infos|
    ensures var t := LoopState(s, infos, ok);
      |s.log| <= |t.log| && t.log[..|s.log|] == s.log
  {
  }

  /** A loop that creates no fence leaves the fence states alone, whatever
      its outcome. */
  lemma LoopWithoutFences(s: DeviceState, infos: seq<CreateInfo>, ok: seq<bool>)
    requires |ok| == |infos| && forall i :: 0 <= i < |infos| ==> !infos[i].FenceInfo?
    ensures LoopState(s, infos, ok).fence == s.fence
  {
    RunFenceWithoutFences(s.fence, infos, s.next, |infos|);
  }

  /** After a successful `create_fences` every new fence is signalled, so the
      first wait on each returns at once; earlier fences keep their state. */
  lemma FencesStartSignaled(s: DeviceState, maxFrameDraws: nat, ok: seq<bool>)
    requires |ok| == maxFrameDraws && forall h :: h in s.fence ==> h.id < s.next
    ensures var r := LoopResult(FenceInfos(maxFrameDraws), ok, s.next, "fence");
      var t := LoopState(s, FenceInfos(maxFrameDraws), ok);
      r.Ok? ==>
        && t.fence.Keys == s.fence.Keys + Elems(r.value)
        && (forall i :: 0 <= i < |r.value| ==> r.value[i] in t.fence && t.fence[r.value[i]] == Signaled)
        && (forall h :: h in s.fence ==> t.fence[h] == s.fence[h])
  {
    var infos := FenceInfos(maxFrameDraws);
    if FirstFailure(ok).None? {
      RunStateComplete(s, infos);
      RunFenceSignaled(s.fence, infos, s.next);
    }
  }

  /** A constructor that makes exactly one object with one device call and
      reports `msg` when that call fails. */
  method CreateOne(dev: Device, info: CreateInfo, ok: bool, msg: string) returns (r: Result<Handle>)
    requires dev.Valid()
    modifies dev
    ensures dev.Valid()
    ensures r == (if ok then Ok(Handle(KindOf(info), old(dev.next))) else Err(msg))
    ensures dev.State() == CreateState(old(dev.State()), info, ok)
  {
    var h := dev.Create(info, ok);
    if h.None? {
      return Err(msg);
    }
    r := Ok(h.value);
  }

  /** The message of a failed `create_semaphore`. */
  function SemaphoreFailure(objectName: string): string {
    "failed to create " + objectName
  }

  /** `create_semaphore`: exactly one semaphore, or "failed to create <name>". */
  method CreateSemaphore(dev: Device, objectName: string, ok: bool) returns (r: Result<Handle>)
    requires dev.Valid()
    modifies dev
    ensures dev.Valid()
    ensures r == (if ok then Ok(Handle(SemaphoreKind, old(dev.next))) else Err(SemaphoreFailure(objectName)))
    ensures dev.State() == CreateState(old(dev.State()), SemaphoreInfo, ok)
  {
    r := CreateOne(dev, SemaphoreInfo, ok, SemaphoreFailure(objectName));
  }

  /** The message `create_command_pool` panics with. */
  const CommandPoolPanic: string := "Failed to create command pool"

  /** `create_command_pool`: never an `Err`; a failed creation panics
      (`expect`). The pool lets its command buffers be reset one by one. */
  method CreateCommandPool(dev: Device, queueFamily: nat, ok: bool) returns (r: Result<Handle>)
    requires dev.Valid()
    modifies dev
    ensures dev.Valid()
    ensures r == (if ok then Ok(Handle(CommandPoolKind, old(dev.next))) else Panic(CommandPoolPanic))
    ensures dev.State() == CreateState(old(dev.State()), CommandPoolInfo(true, queueFamily), ok)
  {
    var h := dev.Create(CommandPoolInfo(true, queueFamily), ok);
    if h.None? {
      return Panic(CommandPoolPanic);
    }
    r := Ok(h.value);
  }

  /** `create_render_pass` (its attachment and subpass tables are not modelled). */
  method CreateRenderPass(dev: Device, ok: bool) returns (r: Result<Handle>)
    requires dev.Valid()
    modifies dev
    ensures dev.Valid()
    ensures r == (if ok then Ok(Handle(RenderPassKind, old(dev.next))) else Err("failed to create render pass"))
    ensures dev.State() == CreateState(old(dev.State()), RenderPassInfo, ok)
  {
    r := CreateOne(dev, RenderPassInfo, ok, "failed to create render pass");
  }

  /** `create_pipeline_layout` (no descriptor set layouts). */
  method CreatePipelineLayout(dev: Device, ok: bool) returns (r: Result<Handle>)
    requires dev.Valid()
    modifies dev
    ensures dev.Valid()
    ensures r == (if ok then Ok(Handle(PipelineLayoutKind, old(dev.next))) else Err("failed to create pipeline layout"))
    ensures dev.State() == CreateState(old(dev.State()), PipelineLayoutInfo, ok)
  {
    r := CreateOne(dev, PipelineLayoutInfo, ok, "failed to create pipeline layout");
  }

  /** `create_pipelines`: the one graphics pipeline, against the given layout
      and render pass (its fixed-function state tables are not modelled). */
  method CreatePipelines(dev: Device, layout: Handle, renderPass: Handle, ok: bool) returns (r: Result<Handle>)
    requires dev.Valid()
    modifies dev
    ensures dev.Valid()
    ensures r == (if ok then Ok(Handle(PipelineKind, old(dev.next))) else Err("failed to create pipelines"))
    ensures dev.State() == CreateState(old(dev.State()), PipelineInfo(layout, renderPass), ok)
  {
    r := CreateOne(dev, PipelineInfo(layout, renderPass), ok, "failed to create pipelines");
  }
}
