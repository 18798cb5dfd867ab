# Vita3K Vulkan rendering context, modelled in Dafny

This project models the control logic of Vita3K's Vulkan rendering context
(`VKContext` in `vita3k/renderer/src/vulkan/context.cpp`) and proves
properties of it. There are three parts.

- **The recording and render-pass state machine** of the render thread
  (`start_recording`, `start_render_pass`, `stop_render_pass`,
  `stop_recording`). `VulkanContext.VKContext` is a class whose fields mirror
  the context's members: the `is_recording`, `in_renderpass` and
  `is_in_query` flags, `visibility_max_used_idx`, the two command buffers,
  the per-frame `rendered_fences`, the request queue and the scene's
  render-pass state. `RenderTargets.RenderTarget` holds a render target's
  per-frame command-buffer pools, its slot cursor `cmd_buffer_idx`, its
  fence ring walked by `fence_idx`, and its extent. Every Vulkan call and
  every call into a collaborator is appended as an `Event` to a ghost
  `trace`. Every object Vulkan allocates gets the next number of the
  counter `nextHandle`. The context's invariant keeps every command buffer
  and fence of the bound target between 0 and that counter, and its fence
  ring free of duplicates. So a growth's new fence is not in the ring
  already, and a fence is not handed out twice within a lap of the ring.
- **The scene setup of `set_context`.** The colour format and flag choice
  with its null-surface fallback, and the depth/stencil choice, are pure
  functions (`SceneSetup`). The multi-sample emulation doubles the target's
  extent for one scene, and `stop_recording` halves it back.
- **The fence-wait thread `wait_thread_function`**, without its thread and
  queue (`WaitThread`). The popped requests become a sequence, and what the
  thread does becomes a trace of `Action`s. `Run` is a left fold of `Step`
  over the requests. `WaitThreadFunction` is the loop, proved equal to that
  fold. Lemmas then show what the batching guarantees: no fence is lost or
  reordered, no wait is empty, guest memory changes only by the traced
  writes, and every side effect comes after a wait that covers every
  earlier fence.

`FenceRing` holds the sequence facts behind the fence ring. Inserting at
the cursor makes the new fence the next one submitted. Advancing the cursor
rotates the order in which fences are handed out. A slot of the ring is
handed out again only after a full lap. These facts are about a ring of
fixed size: a growth that inserts a fence between two submissions is not
covered by them.

`RenderTargets.Slots` is the value of a render target's slot state (pools,
fence ring and both cursors). `Took` and `Grown` say what taking a slot and
growing the pools do to that value, and the methods of `RenderTarget` and
`VKContext` are stated against them.

## Model

| member | source | states |
|---|---|---|
| SceneSetup.ChooseColorSetup | vita3k/renderer/src/vulkan/context.cpp:104-123 | With a null colour address: the defaults (R8G8B8A8Unorm, U8U8U8U8, no gamma, no mask update, no downscale) and no surface for the framebuffer lookup. Otherwise: the surface itself, its base format, gamma-corrected iff gamma is non-zero, and the mask flag and downscale kept. Gamma over R8G8B8A8Unorm gives R8G8B8A8Srgb, and that is the only way the translated format is ever replaced. |
| SceneSetup.DepthStencilTarget | vita3k/renderer/src/vulkan/context.cpp:131-134 | The depth/stencil surface is absent exactly when both its depth and its stencil address are null; otherwise it is passed unchanged. |
| SceneSetup.Halved | vita3k/renderer/src/vulkan/context.cpp:357-358 | Halving is integer division by two: twice the result is at most the input and less than two more. `Doubled` states the round trip. |
| SceneSetup.Doubled | vita3k/renderer/src/vulkan/context.cpp:125-129 | The doubled extent is never smaller, and halving it (`stop_recording`'s `/= 2`) gives back the original: the MSAA doubling is reversible. |
| FenceRing.Inserted | vita3k/renderer/src/vulkan/context.cpp:188 | `vector::insert` of one element makes the sequence exactly one longer. |
| FenceRing.InsertedPositions | vita3k/renderer/src/vulkan/context.cpp:186-188 | The new fence sits at `fence_idx`; earlier fences keep their positions, later ones move up by one, and the multiset is the old one plus the new fence. |
| FenceRing.InsertedDistinct | vita3k/renderer/src/vulkan/context.cpp:186-188 | Inserting a fence the ring does not hold keeps the ring free of duplicates. |
| FenceRing.InsertedAtCursorIsNext | vita3k/renderer/src/vulkan/context.cpp:186-188 | Inserting at the cursor makes the new fence the very next one handed out, followed by all the others in their previous order. |
| FenceRing.Advanced | vita3k/renderer/src/vulkan/context.cpp:330-332 | The cyclic advance of `fence_idx` stays inside the ring. |
| FenceRing.AdvancedBy | vita3k/renderer/src/vulkan/context.cpp:329-332 | After any number of submissions the cursor is still inside the ring. |
| FenceRing.AdvancedByWithinLap | vita3k/renderer/src/vulkan/context.cpp:329-332 | Within one lap, `k` submissions move the cursor exactly `k` slots round the ring, wrapping once past the end. |
| FenceRing.ReuseDistance | vita3k/renderer/src/vulkan/context.cpp:329-332 | A slot of the ring is not handed out again before the cursor has gone once round the ring. |
| FenceRing.NotReusedWithinLap | vita3k/renderer/src/vulkan/context.cpp:329-332 | In a ring without duplicate fences, the fence at the cursor is not handed out again before the cursor has gone once round the ring. |
| FenceRing.FullLapReturns | vita3k/renderer/src/vulkan/context.cpp:329-332 | After exactly as many submissions as there are fences, the cursor is back where it started. |
| FenceRing.AdvanceRotates | vita3k/renderer/src/vulkan/context.cpp:329-332 | Submitting the fence at the cursor and advancing rotates the ring order by one: that fence becomes the last one handed out. |
| RenderTargets.Slots.Grown | vita3k/renderer/src/vulkan/context.cpp:176-188 | The render pool of the frame gains `h` and the pre-render pool `h + 1` at their ends; other frames' pools are untouched. The fence ring gains the fence `h + 2` at `fence_idx`, keeping the fences before and after it in order. Both cursors and `last_used_frame` are kept, and the pools stay paired. |
| RenderTargets.Slots.Took | vita3k/renderer/src/vulkan/context.cpp:164-193 | The slot is 0 in a new frame and the old cursor otherwise. `last_used_frame` becomes the frame stamp, the cursor ends one past the slot, and `fence_idx` is kept. The slot is in bounds, and its command buffers are the existing ones, or the two new handles `h` and `h + 1` when the pools were full. Nothing grows when they were not full. |
| RenderTargets.GrownStaysFresh | vita3k/renderer/src/vulkan/context.cpp:176-188 | If every handle of the target is below `h`, then after a growth with `h`, `h + 1` and `h + 2` every handle is below `h + 3` and the ring still has no duplicate fence. |
| RenderTargets.TookStaysFresh | vita3k/renderer/src/vulkan/context.cpp:164-193 | If every handle of the target is below `h` and its ring has no duplicates, a growth's fence `h + 2` is not in the ring yet. After taking the slot, every handle is below the counter's next value (`h + 3` after a growth, `h` otherwise), and the ring has no duplicates. |
| RenderTargets.RenderTarget.GrowPools | vita3k/renderer/src/vulkan/context.cpp:176-188 | The target's slot state afterwards is exactly `Grown` of its slot state before. |
| RenderTargets.RenderTarget.TakeSlot | vita3k/renderer/src/vulkan/context.cpp:164-193 | The slot returned is 0 in a new frame and the old cursor otherwise. The pools grow iff the slot equals the pool size. The target's slot state afterwards is exactly `Took` of its slot state before. |
| RenderTargets.RenderTarget.NextFence | vita3k/renderer/src/vulkan/context.cpp:329-332 | The fence used is `fences[fence_idx]`, and the cursor advances cyclically and stays inside the ring. |
| RenderTargets.RenderTarget.DoubleExtent | vita3k/renderer/src/vulkan/context.cpp:125-129 | Width and height are both doubled. |
| RenderTargets.RenderTarget.HalveExtent | vita3k/renderer/src/vulkan/context.cpp:355-359 | Width and height are both halved (integer division). |
| VulkanContext.DynamicStateEvents | vita3k/renderer/src/vulkan/context.cpp:203-211 | The dynamic state is five calls, or six under two-sided rendering. |
| VulkanContext.BackStencilOnlyTwoSided | vita3k/renderer/src/vulkan/context.cpp:208-211 | The front stencil function is always synchronised; the back one exactly under two-sided rendering. |
| VulkanContext.GrowthEvents | vita3k/renderer/src/vulkan/context.cpp:177-188 | A pool growth allocates the render command buffer `h` from the render pool, then the pre-render one `h + 1` from the pre-render pool, then creates the fence `h + 2`. |
| VulkanContext.RecordingEvents | vita3k/renderer/src/vulkan/context.cpp:195-211 | A recording begins the render command buffer, then the pre-render one; every later event is exactly the dynamic state on the render command buffer. |
| VulkanContext.SceneEvents | vita3k/renderer/src/vulkan/context.cpp:141-148 | The render pass is looked up for the format and the depth/stencil control. Then the framebuffer is looked up over the chosen surfaces, that render pass and the target's extent. The mask is synchronised only when the mask bit is in use. |
| VulkanContext.PassEvents | vita3k/renderer/src/vulkan/context.cpp:232-283 | The render pass begins over the whole target with the current render pass and framebuffer. The descriptor update writes two attachments with the mask bit and one without. |
| VulkanContext.CloseEvents | vita3k/renderer/src/vulkan/context.cpp:306-320 | Closing issues one call for an open query, one for an open render pass and one copy when a visibility slot was used, and nothing else. |
| VulkanContext.CloseEventsOrder | vita3k/renderer/src/vulkan/context.cpp:306-320 | The query is ended iff one is open, and the render pass iff one is open; the query goes first. The visibility results are copied last, exactly when a slot was used. |
| VulkanContext.SubmitEvents | vita3k/renderer/src/vulkan/context.cpp:322-339 | The last call submits the pre-render and the render command buffer together, signalling the fence. |
| VulkanContext.SurfaceSyncBeforeEnd | vita3k/renderer/src/vulkan/context.cpp:322-327 | The surface cache is synchronised iff surface sync is on (`SubmitRecording` passes memory mapping without sync disabled), and then before either command buffer is ended. |
| VulkanContext.CompletionRequests | vita3k/renderer/src/vulkan/context.cpp:342-353 | With no memory mapping, no request is pushed. With memory mapping, the first request is the notification request carrying both notifications and the submit fence, and at most one more follows. |
| VulkanContext.PostSyncQueuedIffSynced | vita3k/renderer/src/vulkan/context.cpp:342-353 | A post-surface-sync request is pushed iff memory mapping is on and a surface was synchronised. |
| VulkanContext.VKContext.SceneTarget | vita3k/renderer/src/vulkan/context.cpp:94-100 | The target bound is the one given, or the guest's current render target when none is given. |
| VulkanContext.VKContext.PrepareScene | vita3k/renderer/src/vulkan/context.cpp:93-137 | The target is bound and `scene_timestamp` goes up by exactly one. The record's colour fields are rewritten as `ChooseColorSetup` says. The extent is doubled iff MSAA is emulated. The target's pools and cursors are untouched, and the target is handed to the surface cache. |
| VulkanContext.VKContext.BindFramebuffer | vita3k/renderer/src/vulkan/context.cpp:141-148 | The render pass and the framebuffer, views and height the caches return become current, and the lookups are traced as `SceneEvents` states. |
| VulkanContext.VKContext.BindScene | vita3k/renderer/src/vulkan/context.cpp:141-150 | Called while recording: the caches' render pass and framebuffer become current, and the render pass is entered. The render target and both command buffers are untouched, and the pass state is fresh if no pass was open. The trace grows by exactly the lookups, then the pass events if no pass was open. |
| VulkanContext.VKContext.OpenScene | vita3k/renderer/src/vulkan/context.cpp:139-150 | Afterwards the context is recording and in a render pass. When a recording was already open, the target and command buffers are untouched; otherwise the target's slot state is `Took` of the old one and the command buffers are that slot's. The target's extent is kept. The trace grows by exactly the recording's start events if one was started, the lookups, and the pass events if no pass was open. |
| VulkanContext.VKContext.SetContext | vita3k/renderer/src/vulkan/context.cpp:93-151 | The whole of `set_context`. The target is bound, the scene counted and the colour flags chosen; the extent is doubled iff MSAA is emulated. If no recording was open, the target's slot state becomes `Took` of the old one and the command buffers are that slot's; otherwise both are untouched. The caches' render pass and framebuffer are bound, and the context is left recording and in a render pass. The trace is exactly the surface-cache call, the recording's start events if one was started, the lookups with the format and surface `ChooseColorSetup` gives (no colour surface for a null address) and the depth/stencil target, and the pass events if no pass was open. |
| VulkanContext.VKContext.StartRecording | vita3k/renderer/src/vulkan/context.cpp:153-212 | No state changes when already recording or without a render target. Otherwise recording begins as `BeginRecording` states, and after a growth the next fence submitted was not in the ring before. |
| VulkanContext.VKContext.BeginRecording | vita3k/renderer/src/vulkan/context.cpp:164-211 | The target's slot state becomes `Took` of the old one, and the command buffers begun and made current are those of the slot just before the new cursor. The handle counter advances by three iff the pools grew. The trace grows by exactly the growth allocations, if any, then the begin calls and the dynamic state. The extent is kept. After a growth, the next fence the target submits is the new one, which was not in the ring before. The invariant is kept: the target's handles stay below the counter, and its ring stays free of duplicates. |
| VulkanContext.VKContext.BeginCommandBuffers | vita3k/renderer/src/vulkan/context.cpp:191-211 | The given command buffers become current and recording starts, with the growth and begin events traced in order. |
| VulkanContext.VKContext.ForgetTextures | vita3k/renderer/src/vulkan/context.cpp:223-230 | Both texture counts are `~0` and all 16 vertex and 16 fragment sampler slots are null. |
| VulkanContext.VKContext.BeginPass | vita3k/renderer/src/vulkan/context.cpp:223-287 | The pass state is fresh: in the pass, the pipeline to be refreshed and null, and no texture remembered. A new descriptor set is allocated, and the pass events are traced. |
| VulkanContext.VKContext.EnterPass | vita3k/renderer/src/vulkan/context.cpp:220-287 | A recording in progress is kept with the target untouched, or one is started with the target's slot state becoming `Took` of the old one. Then the pass is begun fresh on the next handle. The trace grows by exactly the recording's start events, if any, then the pass events. |
| VulkanContext.VKContext.StartRenderPass | vita3k/renderer/src/vulkan/context.cpp:214-288 | Inside a render pass nothing changes. Otherwise the context is left in a fresh pass exactly as `EnterPass` states, with the target's extent kept. |
| VulkanContext.VKContext.StopRenderPass | vita3k/renderer/src/vulkan/context.cpp:290-298 | Outside a render pass the trace is unchanged. Inside one, the pass is ended on the render command buffer. Either way the context is out of the pass afterwards. |
| VulkanContext.VKContext.CloseCommands | vita3k/renderer/src/vulkan/context.cpp:306-320 | The query and pass flags are cleared and `visibility_max_used_idx` is -1, with the calls traced as `CloseEvents`. |
| VulkanContext.VKContext.SubmitRecording | vita3k/renderer/src/vulkan/context.cpp:322-353 | The fence at the cursor is used to submit and is appended to the current frame's `rendered_fences`, and the cursor advances cyclically. The completion requests are pushed as `CompletionRequests` states. |
| VulkanContext.VKContext.ReleaseRecording | vita3k/renderer/src/vulkan/context.cpp:355-363 | The extent is halved iff MSAA is emulated, and both command buffers are null and recording is off. |
| VulkanContext.VKContext.FinishRecording | vita3k/renderer/src/vulkan/context.cpp:322-363 | The submission and the release together: the pools and slot cursor are untouched, and only the fence cursor and the extent change on the target. |
| VulkanContext.VKContext.StopRecording | vita3k/renderer/src/vulkan/context.cpp:300-364 | No state changes when not recording. Otherwise the context ends with every flag cleared, `visibility_max_used_idx` at -1 and both command buffers null. The submit fence is `fences[fence_idx]`: it is appended to the frame's rendered fences, the cursor advances cyclically, and the completion requests are pushed. The extent is halved iff MSAA is emulated. The trace is the close calls followed by the submission. |
| WaitThread.Delivered | vita3k/renderer/src/vulkan/context.cpp:48-52 | The requests handled are the pops in order, up to the first empty pop or the end. |
| WaitThread.WaitForFences | vita3k/renderer/src/vulkan/context.cpp:35-46 | An empty batch emits nothing. A non-empty batch emits exactly one wait covering the whole batch. The batch is empty afterwards. |
| WaitThread.Step | vita3k/renderer/src/vulkan/context.cpp:54-89 | One request never shortens the action trace, and it leaves the batch empty iff it has effects. `StepFencesConserved`, `StepWaitsNeverEmpty`, `LastRequestWaitsFirst`, `StepMemory`, `EmittedWaits` and `SilentNotificationOnlyBatches` state the rest, and `HandleRequest` is proved equal to it. |
| WaitThread.Run | vita3k/renderer/src/vulkan/context.cpp:48-90 | The fold never shortens the action trace. `FencesConserved`, `WaitsNeverEmpty`, `MemoryFollowsWrites` and `RunFromStart` state the rest, and `WaitThreadFunction` is proved equal to it. |
| WaitThread.Notified | vita3k/renderer/src/vulkan/context.cpp:64-67 | No address is removed, and other requests leave memory alone. A set second address holds the second value; a set first address holds the first value unless the second write went to the same address. `NotifiedIsTraced` ties it to the traced writes. |
| WaitThread.HandleNotification | vita3k/renderer/src/vulkan/context.cpp:55-73 | The request's batch, actions and memory are exactly one `Step` of the fold. |
| WaitThread.HandleFrameDone | vita3k/renderer/src/vulkan/context.cpp:74-83 | The frame-done request's batch, actions and `last_frame_waited` are exactly one `Step` of the fold. |
| WaitThread.HandlePostSurfaceSync | vita3k/renderer/src/vulkan/context.cpp:84-88 | The post-sync request's batch and actions are exactly one `Step` of the fold. |
| WaitThread.HandleRequest | vita3k/renderer/src/vulkan/context.cpp:54-89 | Dispatching on the request's kind is exactly one `Step` of the fold. |
| WaitThread.WaitThreadFunction | vita3k/renderer/src/vulkan/context.cpp:31-91 | The loop's result is the fold `Run` over the delivered requests, in order. Waited plus still-batched fences are exactly the requests' fences in order. No wait is empty. Guest memory is the traced writes applied in order. |
| WaitThread.RunFromStart | vita3k/renderer/src/vulkan/context.cpp:31-91 | From the thread's initial state, the fold conserves the fences, never waits for an empty batch, and changes memory only by its traced writes. |
| WaitThread.NotifiedIsTraced | vita3k/renderer/src/vulkan/context.cpp:64-67 | The memory a notification request leaves is its traced writes applied in order: first, then second, each only at a non-null address. |
| WaitThread.SilentNotificationOnlyBatches | vita3k/renderer/src/vulkan/context.cpp:56-58 | A notification request with both addresses null only adds its fence to the batch; it performs no action. |
| WaitThread.EmittedWaits | vita3k/renderer/src/vulkan/context.cpp:56-87 | A request with effects waits, in its actions, for the pending batch plus its own fence; a silent one waits for nothing. |
| WaitThread.StepFencesConserved | vita3k/renderer/src/vulkan/context.cpp:54-89 | One request moves fences from the batch into waits without losing or reordering any, and adds its own fence last. After a request with effects the batch is empty. |
| WaitThread.FencesConserved | vita3k/renderer/src/vulkan/context.cpp:48-89 | After any number of requests, the fences waited for, followed by those still batched, are exactly the initial ones followed by the requests' fences in request order. |
| WaitThread.StepWaitsNeverEmpty | vita3k/renderer/src/vulkan/context.cpp:35-46 | One request never adds a wait for an empty batch. |
| WaitThread.WaitsNeverEmpty | vita3k/renderer/src/vulkan/context.cpp:35-46 | No number of requests ever adds a wait for an empty batch. |
| WaitThread.LastRequestWaitsFirst | vita3k/renderer/src/vulkan/context.cpp:58-87 | Every side effect of a request comes after a wait that covers everything waited before it, the pending batch and the request's own fence. |
| WaitThread.SideEffectsFollowWaits | vita3k/renderer/src/vulkan/context.cpp:54-89 | Take any state `FencesConserved` describes after `j - 1` requests. Every side effect of request `j` is preceded by waits covering exactly the fences of requests 1 to `j`, in request order. |
| WaitThread.StepMemory | vita3k/renderer/src/vulkan/context.cpp:58-72 | If memory so far is the traced writes applied, it still is after one more request. |
| WaitThread.MemoryFollowsWrites | vita3k/renderer/src/vulkan/context.cpp:48-89 | After any number of requests, guest memory is the initial memory with the traced writes applied in order. |

## Left out

- Threading: the blocking `request_queue.pop`, `notification_mutex`, `notification_ready`, `new_frame_mutex` and `new_frame_condv` are cross-thread synchronisation. The fence-wait thread is a sequential loop over the sequence of pops; `notify_all`/`notify_one` have no counterpart.
- WaitThread.WaitForFences: the wait is assumed to succeed. On failure the source logs, asserts and returns without clearing the batch; that path is not modelled.
- The Vulkan API (`allocateCommandBuffers`, `createFence`, `begin`, `end`, `beginRenderPass`, `allocateDescriptorSets`, `updateDescriptorSets`, `submit`, `endQuery`, `copyQueryPoolResults`, `waitForFences`) is foreign code. Each call is an event in the trace, and each object it returns is the counter's next handle number. A render target passed to `set_context` must hold only handles below the counter and no fence twice, as one created through this context does; how render targets are created is not part of this model.
- Collaborators whose code is not part of this model become parameters or events. `color::translate_format` is the function parameter `translate`. The render pass from `retrieve_render_pass` and the framebuffer from `retrieve_framebuffer_handle` are the parameters `renderPass` and `binding`. The surface handle from `perform_surface_sync` is `syncedSurface`. `set_render_target`, `sync_mask`, `sync_depth_bias`, `sync_point_line_width`, `sync_stencil_func` and `perform_post_surface_sync` are events or actions.
- `gxm::get_base_format`: the colour surface carries its base format already decoded.
- Guest memory is a map from address to 32-bit value; `address.get(mem)` is a map update.
- The clear values of the render pass (`backgroundDepth` and the stencil bits) and the descriptor image infos' layouts are not modelled; only the descriptor count and views are.
- Logging, and the process-wide `has_happened` warning flag, have no behaviour to verify.
- The `const_cast` in `set_context` is modelled as "use the guest's current render target".
- How `current_render_target`, `frame_timestamp`, `current_frame_idx`, the record and the visibility buffer are set belongs to other files. Here they are fields whose values are given.
- RenderTargets.RenderTarget.DoubleExtent: width and height are unbounded naturals, so the 32-bit wrap-around of `*= 2` is not modelled. The round trip `Halved(Doubled(x)) == x` holds only as long as no overflow happens.
- WaitThread.SideEffectsFollowWaits: it is stated for a state satisfying the invariant `FencesConserved` proves of every state the fold reaches, not directly for `Run`. The two lemmas together give the guarantee for the whole run.
- Vulkan handles are opaque integers, with 0 as the null handle.
- VulkanContext.VKContext.SetContext and VulkanContext.VKContext.PrepareScene: they require the target they bind to hold only non-null handles below the counter and no fence twice. Vulkan guarantees that the handles it returns are distinct; the model cannot see where a target's handles came from, so it requires this of the target instead.
