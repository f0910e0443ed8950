# ash-base-template renderer core, modelled in Dafny

This project models the control logic of a small Vulkan renderer written in Rust
with `ash` and `winit`. It covers:

- the tick handler of the window's event loop;
- `Renderer::draw` and the per-slot synchronisation helpers it calls;
- the all-or-nothing creation loops for framebuffers, fences and descriptor pools;
- swapchain and framebuffer rebuilding;
- the integer vector arithmetic of the engine.

The GPU is an abstract device (`Vulkan.Device`). It holds:

- a counter for fresh handle ids;
- the set of live handles;
- the state of every fence: signalled, unsignalled, or pending after a submit;
- the log of every call made.

Every Vulkan call is a method of the device. It takes its outcome as a parameter, so every
path through the renderer, error paths included, is covered by one contract. Each
imperative operation is a method. Its contract ties the result and the new device state
to a specification function of the old state, for example `Render.DrawSpec` for a draw or
`Resources.LoopResult` / `Resources.LoopState` for a creation loop. The properties are
proved about those functions.

Notable facts the proofs establish about the code as written:

- **The fence is reset before the acquire.** `draw` waits on and resets the current slot's
  fence before it asks for an image. When the acquire reports an out-of-date or suboptimal
  swapchain, `draw` returns `Ok(())` and nothing is submitted, so the slot's fence stays
  unsignalled with no pending work. `Render.StaleSlotHangs` proves that a draw that finds the
  slot's fence as the stale draw left it waits forever: the wait has an infinite timeout. The
  model calls this outcome `Hang`.
- **One index picks every per-frame object.** The framebuffer, the command buffer, the fence
  and the image index given to `queue_present` are all taken from `current_frame_index`.
  The acquired image index is stored but never used (`Render.DrawUsesSlot`). A slot without
  a framebuffer makes `begin_render_pass` index out of bounds, which panics.
- **Failed setup is not cleaned up.** `RenderData::new` leaves every object created before
  a failing step alive (`Data.NewDataKeepsEarlierObjects`). Within one creation loop, a
  failure destroys everything that loop created (`Resources.LoopAllOrNothing`).
- **A failed framebuffer rebuild keeps destroyed handles.** When `RenderData::resize`
  fails, the `framebuffers` field still holds the handles it destroyed
  (`Data.DataResizeFailureLeavesDestroyed`).
- **A failed swapchain rebuild leaks or keeps destroyed handles.** When `RenderBase::resize`
  fails after the new swapchain was created, that swapchain stays alive and nothing refers
  to it. When view creation fails, the old views are already destroyed, and
  `swapchain_image_views` still holds them. `Base.ResizeStopsEarly` and `Base.RenderBase.Resize`
  prove this.

Where this code departs from the usual Vulkan frame loop, the model follows the code:

- A suboptimal present counts as success. `ash` reports a suboptimal present as `Ok(true)`,
  and `present` only asks for a rebuild on an error code.
- The framebuffer is chosen by the frame slot, not by the acquired image.
- The fence is reset as well as waited on before the acquire, so a stale acquire leaves it reset with nothing submitted (the first notable fact above).
- There is one semaphore pair, not one per slot.

`MAX_FRAME_DRAWS` is `RenderData.maxFrameDraws`, an arbitrary constant of at least 1. Fixed
at construction, it is the number of fences and command buffers.

Files:

- `outcomes.dfy`: result types and decimal formatting.
- `vulkan.dfy`: the device.
- `resources.dfy`: creation loops and single-object helpers.
- `base.dfy`: swapchain rebuild.
- `data.dfy`: render data creation and framebuffer rebuild.
- `renderer.dfy`: draw and its helpers.
- `main.dfy`: the event loop.
- `lin_alg.dfy`: vectors.

## Model

| member | source | states |
|---|---|---|
| Outcomes.DigitsValueOfNatToString | src/renderer/resources/mod.rs:241 | the decimal text of an index reads back as that index |
| Outcomes.IndexedMessageInjective | src/renderer/resources/mod.rs:205 | two "failed to create ... i" messages with the same prefix are equal only for equal indices |
| Vulkan.Idled | src/renderer/base/mod.rs:155-157 | waiting for the device to go idle keeps the set of fences, leaves none pending and changes no fence that was not pending |
| Vulkan.CreateMakesOneFresh | src/renderer/resources/mod.rs:215-225 | a successful create adds exactly one handle of the requested kind that was not live before; a failed one changes nothing but the log |
| Vulkan.Device.Create | src/renderer/resources/mod.rs:200-207 | a create call returns a fresh handle of the kind of its create info and records it live; a fence starts in the state its flags ask for; a failure only logs |
| Vulkan.Device.Destroy | src/renderer/data.rs:93-97 | destroying a handle removes it from the live set and the fence map and logs the call |
| Vulkan.Device.AllocateCommandBuffers | src/renderer/data.rs:60-71 | allocation yields `count` fresh command buffers, or nothing on failure |
| Vulkan.Device.WaitForFence | src/renderer/draw_setup.rs:163-172 | the wait fails, blocks forever on an unsignalled fence, or returns with the fence signalled |
| Vulkan.Device.ResetFence | src/renderer/draw_setup.rs:174-179 | a successful reset leaves the fence unsignalled; every other fence is untouched |
| Vulkan.Device.DeviceWaitIdle | src/renderer/base/mod.rs:155-157 | a successful idle wait signals every pending fence |
| Vulkan.Device.GetSurfaceCapabilities | src/renderer/base/mod.rs:159 | the query's answer is the outcome supplied, and the call is logged |
| Vulkan.Device.GetSwapchainImages | src/renderer/base/mod.rs:172 | the query's answer is the outcome supplied, and the call is logged |
| Vulkan.Device.AcquireNextImage | src/renderer/draw_setup.rs:52-59 | the acquire's reply is the outcome supplied; the call names the swapchain and the image-available semaphore |
| Vulkan.Device.ResetCommandBuffer | src/renderer/mod.rs:47-55 | the reset succeeds as supplied and is logged for that command buffer |
| Vulkan.Device.BeginCommandBuffer | src/renderer/draw_setup.rs:38-46 | the begin succeeds as supplied and is logged for that command buffer |
| Vulkan.Device.CmdBeginRenderPass | src/renderer/draw_setup.rs:23-29 | the render pass begin is logged with its command buffer, render pass, framebuffer and area |
| Vulkan.Device.CmdSetViewport | src/renderer/draw_setup.rs:127-133 | the viewport command is logged with its command buffer and extent |
| Vulkan.Device.CmdSetScissor | src/renderer/draw_setup.rs:108-114 | the scissor command is logged with its command buffer and extent |
| Vulkan.Device.CmdEndRenderPass | src/renderer/mod.rs:61-64 | the end of the render pass is logged |
| Vulkan.Device.EndCommandBuffer | src/renderer/mod.rs:66-69 | the end succeeds as supplied and is logged |
| Vulkan.Device.QueueSubmit | src/renderer/draw_setup.rs:150-155 | a successful submit makes its fence pending; the call records queue, command buffer, both semaphores and fence |
| Vulkan.Device.QueuePresent | src/renderer/draw_setup.rs:82-87 | the present's reply is the outcome supplied; the call records the wait semaphore, swapchain and image index |
| Resources.FirstFailure | src/renderer/resources/mod.rs:189-210 | the loop stops at the first failing index: none exists exactly when every step succeeds, and every earlier step succeeded |
| Resources.FailedLoopDestroysEveryCreated | src/renderer/resources/mod.rs:200-206 | a loop failing at index i logs the i creations, the failure, and then the destruction of each created handle |
| Resources.DestroyAll | src/renderer/data.rs:93-97 | destroying a sequence removes exactly those handles and logs one destroy per handle, in order |
| Resources.Unwind | src/renderer/resources/mod.rs:200-206 | the error path destroys every handle made so far and returns the error naming the failing index |
| Resources.LoopResult | src/renderer/resources/mod.rs:187-212 | a creation loop succeeds exactly when no step fails, and otherwise fails with an error |
| Resources.CreateAll | src/renderer/resources/mod.rs:187-212 | the creation loop returns the loop's specified result and leaves the device in the loop's specified state |
| Resources.LoopAllOrNothing | src/renderer/resources/mod.rs:187-212 | on success one fresh, distinct handle per create info, in order, all live; on failure at the first failing i, no live handle added, fences unchanged, and the error names i |
| Resources.LoopGrowsLive | src/renderer/resources/mod.rs:187-212 | a creation loop never removes a handle that was live before it |
| Resources.LoopLogExtends | src/renderer/resources/mod.rs:187-212 | a creation loop only appends to the call log |
| Resources.LoopWithoutFences | src/renderer/resources/mod.rs:187-212 | a loop that creates no fences leaves every fence as it was |
| Resources.FencesStartSignaled | src/renderer/resources/mod.rs:228-248 | the fences made by the fence loop are all signalled and every earlier fence keeps its state |
| Resources.FramebufferInfos | src/renderer/resources/mod.rs:189-198 | framebuffer i is described with view i, the given render pass, width and height, and one layer |
| Resources.CreateFramebuffers | src/renderer/resources/mod.rs:181-213 | `create_framebuffers` is the creation loop over one framebuffer per view, with the message "framebuffer" |
| Resources.FenceInfos | src/renderer/resources/mod.rs:228-234 | the fence loop creates MAX_FRAME_DRAWS fences, each created signalled |
| Resources.DescriptorPoolInfos | src/renderer/resources/mod.rs:276-289 | the pool loop creates MAX_FRAME_DRAWS pools of 100 sets and 100 uniform buffers |
| Resources.CreateFences | src/renderer/resources/mod.rs:227-249 | `create_fences` is the creation loop over MAX_FRAME_DRAWS signalled fences, with the message "fence" |
| Resources.CreateDescriptorPools | src/renderer/resources/mod.rs:275-305 | `create_descriptor_pools` is the creation loop over MAX_FRAME_DRAWS pools, with the message "descriptor pool" |
| Resources.CreateSemaphore | src/renderer/resources/mod.rs:215-225 | creates exactly one semaphore, or fails with "failed to create " followed by the object name |
| Resources.CreateCommandPool | src/renderer/resources/mod.rs:307-322 | never returns an error: a creation failure panics with the `expect` message |
| Base.ImageViewInfos | src/renderer/base/mod.rs:182-183 | one image view is requested per swapchain image, in order |
| Base.ResizeOutcome | src/renderer/base/mod.rs:154-192 | `resize_internal` succeeds exactly when the idle wait, capabilities query, swapchain creation, image query and view creation all succeed, and never hangs |
| Base.ResizeInternal | src/renderer/base/mod.rs:143-192 | `resize_internal` returns the specified outcome and leaves the device in the specified state for the old swapchain, surface and old views it is given |
| Base.ResizeLogStages | src/renderer/base/mod.rs:155-183 | the exact call sequence for each step at which a rebuild can stop |
| Base.ResizeStopsEarly | src/renderer/base/mod.rs:155-180 | the device after a rebuild that fails: what was created, idled and destroyed up to the failing step |
| Base.ResizeCompletes | src/renderer/base/mod.rs:155-191 | the device after a successful rebuild: a new swapchain, old views destroyed, new views live, pending fences signalled |
| Base.ReplaceViews | src/renderer/base/mod.rs:174-183 | every old view is destroyed, then one new view per image is created (or none on failure) |
| Base.ResizeWaitsIdleFirst | src/renderer/base/mod.rs:155-157 | the first call of every rebuild is the device idle wait |
| Base.IdleFailurePanics | src/renderer/base/mod.rs:155-157 | a failing idle wait panics through `unwrap` with no further call |
| Base.ResizeChainsOldSwapchain | src/renderer/base/mod.rs:162-170 | the only swapchain creation is the third call, and it passes the current swapchain as the old one |
| Base.ResizeDestroysOldViewsAfterImages | src/renderer/base/mod.rs:172-180 | old views are destroyed only after the new swapchain and its images were obtained, in their stored order |
| Base.ResizeViewsFromNewImages | src/renderer/base/mod.rs:182-183 | every view created is made from a newly fetched image, after all old views were destroyed |
| Base.ResizeKeepsOldSwapchain | src/renderer/base/mod.rs:143-192 | a rebuild never destroys the old swapchain |
| Base.ResizeKeepsFences | src/renderer/base/mod.rs:155-183 | a rebuild keeps every fence, changed only by the idle wait |
| Base.ResizeKeepsFenceSeq | src/renderer/base/mod.rs:155-183 | the same for every fence of a sequence |
| Base.RenderBase.Init | src/renderer/base/mod.rs:85-107 | a base built from a valid device and swapchain holds exactly those values |
| Base.RenderBase.Resize | src/renderer/base/mod.rs:110-132 | on error none of the five swapchain fields changes; on success all five are replaced together by the new chain |
| Base.NewRenderBase | src/renderer/base/mod.rs:72-107 | the first build of the chain passes a null old swapchain and no old views, and yields a base holding the new chain exactly when it succeeds |
| Data.PipelineStageOutcome | src/renderer/data.rs:32-42 | layout, render pass and pipeline all succeed or the first failure is returned |
| Data.SemaphoreStageOutcome | src/renderer/data.rs:51-55 | both semaphores are created or the first failure is returned |
| Data.CommandStageOutcome | src/renderer/data.rs:58-71 | a command pool failure panics; a command buffer allocation failure is an error |
| Data.SyncStageSteps | src/renderer/data.rs:51-71 | semaphores, fences, command pool and buffers run in this order, and the first failure is what `new` returns |
| Data.NewDataSucceedsIff | src/renderer/data.rs:28-89 | `RenderData::new` succeeds exactly when every creation step succeeds; it panics only for the command pool |
| Data.NewDataSteps | src/renderer/data.rs:28-89 | the steps of `new` run in source order and the first failing step's error is returned |
| Data.NewDataCounts | src/renderer/data.rs:44-71 | on success: MAX_FRAME_DRAWS command buffers and fences from the fence loop, one framebuffer per view, two distinct semaphores |
| Data.NewDataKeepsEarlierObjects | src/renderer/data.rs:32-71 | a later failure in `new` destroys nothing created earlier in `new` |
| Data.SyncStageFencesSignaled | src/renderer/data.rs:57 | the fences `new` stores are all signalled and earlier fences are unchanged |
| Data.NewDataFencesSignaled | src/renderer/data.rs:57 | after a successful `new` every slot fence is signalled |
| Data.DataResizeDestroysFirst | src/renderer/data.rs:93-104 | `resize` destroys every old framebuffer, in order, before it creates any new one |
| Data.DataResizeFailureLeavesDestroyed | src/renderer/data.rs:93-104 | after a failed `resize` none of the old framebuffers is alive |
| Data.DataResizeKeepsFences | src/renderer/data.rs:92-107 | `resize` leaves every fence as it was |
| Data.DataResizeKeepsFenceSeq | src/renderer/data.rs:92-107 | the same for every fence of a sequence |
| Data.RenderData.Init | src/renderer/data.rs:73-88 | the data built holds exactly the objects created |
| Data.RenderData.Resize | src/renderer/data.rs:91-107 | only `framebuffers` changes: on success it holds one new framebuffer per current view with the current extent; on failure it keeps the destroyed handles |
| Data.CreatePipelineObjects | src/renderer/data.rs:32-42 | the pipeline steps return their specified outcome and device state |
| Data.CreateSemaphores | src/renderer/data.rs:51-55 | the semaphore steps return their specified outcome and device state |
| Data.CreateCommandObjects | src/renderer/data.rs:58-71 | the command pool and buffer steps return their specified outcome and device state |
| Data.CreateSyncObjects | src/renderer/data.rs:51-71 | the semaphore, fence and command steps return their specified outcome and device state |
| Data.CreateDataObjects | src/renderer/data.rs:32-89 | the creation steps of `new` return the specified outcome and device state |
| Data.NewRenderData | src/renderer/data.rs:28-89 | `RenderData::new` yields data holding the created objects exactly when the creation steps succeed |
| Render.ClassifyAcquire | src/renderer/draw_setup.rs:51-70 | a non-suboptimal image gives Some with its index; suboptimal or out of date gives None; any other error gives "failed to acquire next image" |
| Render.ClassifyPresent | src/renderer/draw_setup.rs:82-96 | any success gives true; a suboptimal or out-of-date error gives false; any other error gives "failed to present" |
| Render.WaitThenReset | src/renderer/draw_setup.rs:160-183 | the wait-and-reset succeeds exactly when both calls do and the fence was not unsignalled, leaving it unsignalled; it hangs on an unsignalled fence |
| Render.WaitMessagesNameSlot | src/renderer/draw_setup.rs:167-179 | wait and reset failure messages differ for different slots |
| Render.DrawAtWait | src/renderer/mod.rs:37 | a draw whose fence wait fails returns that failure after only the wait and reset calls |
| Render.DrawAtAcquire | src/renderer/mod.rs:39-45 | a draw whose acquire fails or finds the chain stale stops after the acquire; a stale chain asks for a rebuild |
| Render.DrawAfterAcquire | src/renderer/mod.rs:47-77 | after an acquired image the result is the recording's failure, else the submit and present outcome; a rebuild is asked for exactly when present reports false |
| Render.DrawAfterAcquireState | src/renderer/mod.rs:47-77 | the device after such a draw is the wait, the acquire, the recording and, if that succeeded, submit and present |
| Render.DrawCallOrder | src/renderer/mod.rs:36-78 | the calls of a draw are a prefix of wait, reset, acquire, reset cb, begin cb, begin pass, viewport, scissor, end pass, end cb, submit, present; a pass is begun only with a framebuffer |
| Render.DrawUsesSlot | src/renderer/draw_setup.rs:7-183 | every call of a draw uses the current slot's fence, command buffer and framebuffer, the shared swapchain, queue and semaphores, the surface extent, and the slot index as image index |
| Render.RecordUsesSlot | src/renderer/mod.rs:47-69 | every recording call uses the current slot's objects |
| Render.StaleAcquireLeavesFenceReset | src/renderer/mod.rs:37-45 | on a stale acquire, draw returns Ok, asks for a rebuild, keeps the image index, and leaves the slot's fence unsignalled after only wait, reset and acquire |
| Render.StaleSlotHangs | src/renderer/mod.rs:37-45 | a draw that finds the slot's fence as a stale draw left it waits forever |
| Render.DrawFenceProtocol | src/renderer/mod.rs:37-71 | after a successful wait, the slot's fence is pending exactly when the submit succeeded, and unsignalled otherwise |
| Render.DrawSucceedsIff | src/renderer/mod.rs:36-78 | draw succeeds exactly when the wait and acquire succeed and, for an acquired image, recording, submit and present do; a rebuild request is never an error |
| Render.DrawFailures | src/renderer/mod.rs:47-76 | a reset failure panics; begin, end, submit and present failures return their messages; a missing framebuffer panics on the index |
| Render.Renderer.Init | src/renderer/mod.rs:26-32 | a new renderer starts at slot 0 and image index 0, with a rebuild requested |
| Render.Renderer.WaitResourceAvailable | src/renderer/draw_setup.rs:160-183 | waits on and resets only the current slot's fence, with the specified outcome |
| Render.Renderer.GetImgIndex | src/renderer/draw_setup.rs:51-70 | acquires with the swapchain and image-available semaphore and classifies the reply |
| Render.Renderer.BeginCommandBuffer | src/renderer/draw_setup.rs:33-49 | begins the current slot's command buffer or returns "failed to begin command buffer" |
| Render.Renderer.BeginRenderPass | src/renderer/draw_setup.rs:7-30 | begins the pass on the current slot's framebuffer and command buffer over the surface extent, or panics on a missing framebuffer |
| Render.Renderer.SetViewport | src/renderer/draw_setup.rs:117-134 | sets the viewport of the current slot's command buffer to the surface extent |
| Render.Renderer.SetScissor | src/renderer/draw_setup.rs:99-115 | sets the scissor of the current slot's command buffer to the surface extent |
| Render.Renderer.Record | src/renderer/mod.rs:47-69 | records the slot's commands with the specified outcome and calls |
| Render.Renderer.RecordPass | src/renderer/mod.rs:58-69 | the render pass part of the recording |
| Render.Renderer.Submit | src/renderer/draw_setup.rs:136-158 | submits the current command buffer against the current fence, which becomes pending on success |
| Render.Renderer.Present | src/renderer/draw_setup.rs:72-97 | presents image index `current_frame_index`, waiting on the render-finished semaphore, and classifies the reply |
| Render.Renderer.Draw | src/renderer/mod.rs:36-78 | `draw` returns the specified result and device state, sets the rebuild flag when asked for, stores an acquired image index, and keeps the slot |
| Render.Renderer.DrawFrame | src/renderer/mod.rs:37-76 | the device side of `draw` and its rebuild and image outcomes |
| Render.Renderer.RenderFrame | src/renderer/mod.rs:47-77 | the recording, submit and present part of `draw` |
| Render.NewRendererOnBase | src/renderer/mod.rs:24-32 | on the base just built, `RenderData::new` either fails, passing its error on, or yields a renderer at slot 0 and image index 0 with a rebuild requested, every slot's fence signalled |
| Render.NewRenderer | src/renderer/mod.rs:22-33 | `Renderer::new` passes on a failure of `RenderBase::new` unchanged; otherwise it passes on a failure of `RenderData::new` on the new base, or yields a renderer holding the new swapchain and data, at slot 0 with a rebuild requested and every slot's fence signalled |
| LinAlg.New2 | src/engine/lin_alg.rs:23-25 | `Vector2::new` stores its arguments unchanged |
| LinAlg.Add2 | src/engine/lin_alg.rs:42-47 | `Vector2 + Vector2`, summing `rhs + self` per component; its laws are `LinAlg.Add2Commutes` and `LinAlg.Add2Monoid` |
| LinAlg.Sub2 | src/engine/lin_alg.rs:50-59 | `Vector2 - Vector2`, `self - rhs` per component; it undoes addition (`LinAlg.Sub2UndoesAdd2`) |
| LinAlg.Mul2 | src/engine/lin_alg.rs:62-71 | the componentwise product of two `Vector2`s; its laws are `LinAlg.Mul2Laws` |
| LinAlg.Scale2 | src/engine/lin_alg.rs:74-83 | a `Vector2` times a scalar, per component; its laws are `LinAlg.Scale2Laws` |
| LinAlg.Add2Commutes | src/engine/lin_alg.rs:42-47 | `Vector2` addition, computed as `rhs + self`, commutes |
| LinAlg.Add2Monoid | src/engine/lin_alg.rs:42-47 | `Vector2` addition is associative with the zero vector as identity |
| LinAlg.Sub2UndoesAdd2 | src/engine/lin_alg.rs:42-59 | subtraction undoes addition and `a - a` is zero |
| LinAlg.Mul2Laws | src/engine/lin_alg.rs:66-71 | componentwise multiplication commutes and distributes over addition |
| LinAlg.Scale2Laws | src/engine/lin_alg.rs:78-83 | scalar multiplication scales each component, distributes over addition, and 1 and 0 act as expected |
| LinAlg.New3 | src/engine/lin_alg.rs:102-104 | `Vector3::new` stores its arguments unchanged |
| LinAlg.Add3 | src/engine/lin_alg.rs:118-127 | `Vector3 + Vector3`, summing `rhs + self` per component; its laws are `LinAlg.Add3Commutes` and `LinAlg.Add3Monoid` |
| LinAlg.Sub3 | src/engine/lin_alg.rs:130-139 | `Vector3 - Vector3`, `self - rhs` per component; it undoes addition (`LinAlg.Sub3UndoesAdd3`) |
| LinAlg.Add3Commutes | src/engine/lin_alg.rs:121-127 | `Vector3` addition commutes |
| LinAlg.Add3Monoid | src/engine/lin_alg.rs:121-127 | `Vector3` addition is associative with the zero vector as identity |
| LinAlg.Sub3UndoesAdd3 | src/engine/lin_alg.rs:118-139 | `Vector3` subtraction undoes addition and `a - a` is zero |
| EventLoop.NextFrame | src/main.rs:84 | the next slot is below MAX_FRAME_DRAWS |
| EventLoop.AdvanceIsModular | src/main.rs:84 | moving on one slot per frame counts modulo MAX_FRAME_DRAWS |
| EventLoop.SlotsCycle | src/main.rs:84 | MAX_FRAME_DRAWS consecutive frames use distinct slots and the next one reuses the first |
| EventLoop.TickSpec | src/main.rs:45-85 | how one handler call ends for an event, a window size, the rebuild flag and the step outcomes; its properties are `EventLoop.TickAdvancesIff`, `EventLoop.TickExitsIff`, `EventLoop.TickPanicsIff` and `EventLoop.IdleEventsDoNothing` |
| EventLoop.TickAdvancesIff | src/main.rs:52-85 | the slot moves on exactly when a frame was drawn without error, and the loop then keeps polling |
| EventLoop.TickExitsIff | src/main.rs:45-85 | the loop exits exactly on a close request or a returned error, logging the first failing step's error |
| EventLoop.TickPanicsIff | src/main.rs:52-85 | the handler panics or hangs exactly when a step that runs does |
| EventLoop.IdleEventsDoNothing | src/main.rs:43-55 | a minimised window (both sides zero), a close request or another event rebuilds and draws nothing |
| EventLoop.Rebuild | src/main.rs:62-74 | the base is rebuilt before the framebuffers, which are rebuilt only after a successful base rebuild, on its new views; on a base failure the swapchain and framebuffers stay and the outcome is the base's error |
| EventLoop.RebuildStep | src/main.rs:57-75 | the rebuild request is cleared, then the base and framebuffers are rebuilt as `EventLoop.Rebuild` states; slot and image index stay |
| EventLoop.RebuildData | src/main.rs:69-74 | the framebuffer rebuild on the new image views keeps every slot fence |
| EventLoop.DrawStep | src/main.rs:77-84 | draw, then one slot on modulo MAX_FRAME_DRAWS exactly when it succeeded |
| EventLoop.MainEvents | src/main.rs:52-85 | when a rebuild was asked for, the outcomes of both resizes, the new swapchain and framebuffers and the device before the draw are those of the rebuild, and a failure of either resize stops the tick with Exit; otherwise the draw runs on the rebuilt chain and the slot moves on exactly when it succeeds |
| EventLoop.HandleEvent | src/main.rs:42-88 | one handler call: the control flow of `TickSpec` for the outcomes of the rebuild (stated as in `EventLoop.MainEvents`) and of the draw; the device, swapchain, framebuffers, rebuild flag, image index and slot after it; the slot stays below MAX_FRAME_DRAWS |

## Left out

- Vulkan and `ash` calls are abstract device methods whose outcomes are parameters; the GPU itself, memory and concurrency between CPU and GPU beyond each fence's state are not modelled.
- The swapchain helpers of the unshown setup module (capabilities query, extent choice, swapchain creation, image query, view creation) are not part of this model; their outcomes are parameters, and view creation is taken to be all or nothing.
- `RenderBase::new` before the first swapchain build (instance, debug messenger, surface, physical device, logical device, queue, allocator) is not part of this model: the device, surface and queue are parameters of `Base.NewRenderBase` and `Render.NewRenderer`.
- Render pass, pipeline layout, pipeline and descriptor set layout creation are flat configuration records: each is one create call with its failure message; their contents are not modelled.
- Shader loading is file input and is left out.
- Floating-point values (viewport depth range, clear colour, line width) are left out; the viewport is recorded by its extent.
- `Convert::conv` is a lossy numeric cast and is left out; vectors have unbounded integer components, so the integer overflow of the Rust operators is not modelled.
- Window creation, logging and the `winit` event loop are input and output: the handler receives the event and the window size as parameters, and a logged error is part of its result.
- `Renderer::new` failing makes `main` panic; this is not modelled beyond the `Result` of `Render.NewRenderer`.
- `u32` and `usize` widths are not modelled; indices and counts are natural numbers.
- `queue_present`'s `Ok` payload (the suboptimal flag) is not modelled: any success counts as `true`, as in the code.
- The old swapchain is never destroyed after a rebuild; the model records that it stays alive (`Base.ResizeKeepsOldSwapchain`) but has no destroy step for it.
- The panic messages of `unwrap` and `expect` are modelled without the `Debug` text of the error each appends.
- EventLoop.Rebuild: the framebuffer outcomes supplied with an event are padded with successes to the number of new image views (`Data.PadFlags`), since that number is only known after the base rebuild.
- Render.NewRenderer: the framebuffer outcomes given for `RenderData::new` are padded with successes to the number of image views the new base has (`Data.PadFlags`).
- `RenderData.Valid` does not require the slot fences to be distinct, so the model does not prove that ticks on other slots leave a stale slot's fence alone; `Render.StaleSlotHangs` is stated about the fence state itself.
