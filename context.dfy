/** The render-thread side of the Vulkan rendering context: starting and
    stopping command-buffer recording and render passes on the bound render
    target, and the scene setup of `set_context` that ties them together.

    Vulkan calls and the calls into collaborators (pipeline cache, surface
    cache, the dynamic-state helpers) are recorded as events in a ghost
    trace; objects Vulkan allocates are numbered by a handle counter, which
    stays above every command buffer and fence of the bound render target. */
module VulkanContext {
  import opened VulkanTypes
  import opened FenceRing
  import opened SceneSetup
  import opened RenderTargets

  /** The number of texture slots of each shader stage. */
  const TEXTURE_SLOTS := 16

  /** `~0` in the 32-bit texture counts: "nothing bound yet". */
  const NO_TEXTURE_COUNT: uint32 := 0xFFFF_FFFF

  /** The two command pools of a frame. */
  datatype Pool = RenderPool | PrerenderPool

  /** The parts of the GXM record (`context.record`) this file reads or
      rewrites. */
  datatype GxmRecord = GxmRecord(
    colorSurface: ColorSurface,
    depthStencilSurface: DepthStencilSurface,
    colorBaseFormat: ColorBaseFormat,
    isGammaCorrected: bool,
    isMaskupdate: bool,
    twoSided: bool)

  /** What the surface cache reports for a framebuffer lookup. */
  datatype FramebufferBinding = FramebufferBinding(
    framebuffer: Handle,
    colorView: Handle,
    depthStencilView: Handle,
    framebufferHeight: nat)

  /** The calls the context makes, in the order it makes them. */
  datatype Event =
    | AllocateCommandBuffer(pool: Pool, cmd: Handle)
    | CreateFence(fence: Handle)
    | BeginCommandBuffer(cmd: Handle)
    | SetViewport(cmd: Handle)
    | SetScissor(cmd: Handle)
    | SyncDepthBias
    | SyncPointLineWidth
    | SyncStencilFunc(backFace: bool)
    | SetSurfaceTarget(width: nat, height: nat)
    | RetrieveRenderPass(format: VkFormat, zlsControl: nat)
    | RetrieveFramebuffer(color: Option<ColorSurface>, depthStencil: Option<DepthStencilSurface>,
                          renderPass: Handle, width: nat, height: nat)
    | SyncMask
    | BeginRenderPass(cmd: Handle, renderPass: Handle, framebuffer: Handle, width: nat, height: nat)
    | AllocateDescriptorSet(descriptorSet: Handle)
    | UpdateAttachmentDescriptors(descriptorSet: Handle, count: nat, colorView: Handle, maskView: Handle)
    | EndRenderPass(cmd: Handle)
    | EndQuery(cmd: Handle)
    | CopyQueryResults(cmd: Handle, queryCount: int)
    | PerformSurfaceSync
    | EndCommandBuffer(cmd: Handle)
    | Submit(prerender: Handle, render: Handle, fence: Handle)

  /** The dynamic state set on a freshly begun render command buffer; the back
      stencil function is synchronised only for two-sided rendering. */
  function DynamicStateEvents(cmd: Handle, twoSided: bool): (es: seq<Event>)
    ensures |es| == if twoSided then 6 else 5
  {
    [SetViewport(cmd), SetScissor(cmd), SyncDepthBias, SyncPointLineWidth, SyncStencilFunc(false)]
    + (if twoSided then [SyncStencilFunc(true)] else [])
  }

  /** The front stencil function is always set; the back one exactly for
      two-sided rendering. */
  lemma BackStencilOnlyTwoSided(cmd: Handle, twoSided: bool)
    ensures SyncStencilFunc(false) in DynamicStateEvents(cmd, twoSided)
    ensures SyncStencilFunc(true) in DynamicStateEvents(cmd, twoSided) <==> twoSided
  {
    assert DynamicStateEvents(cmd, twoSided)[4] == SyncStencilFunc(false);
    if twoSided {
      assert DynamicStateEvents(cmd, twoSided)[5] == SyncStencilFunc(true);
    }
  }

  /** The allocations of one pool growth: a render and a pre-render command
      buffer, then a fence. */
  function GrowthEvents(h: Handle): (es: seq<Event>)
    ensures |es| == 3
    ensures es[0] == AllocateCommandBuffer(RenderPool, h) && es[1] == AllocateCommandBuffer(PrerenderPool, h + 1)
    ensures es[2] == CreateFence(h + 2)
  {
    [AllocateCommandBuffer(RenderPool, h), AllocateCommandBuffer(PrerenderPool, h + 1), CreateFence(h + 2)]
  }

  /** Beginning the two command buffers of a recording, then its dynamic
      state on the render command buffer. */
  function RecordingEvents(render: Handle, prerender: Handle, twoSided: bool): (es: seq<Event>)
    ensures |es| >= 7 && es[0] == BeginCommandBuffer(render) && es[1] == BeginCommandBuffer(prerender)
    ensures es[2..] == DynamicStateEvents(render, twoSided)
  {
    [BeginCommandBuffer(render), BeginCommandBuffer(prerender)] + DynamicStateEvents(render, twoSided)
  }

  /** The render-pass and framebuffer lookups of `set_context`, and the mask
      synchronisation when the mask bit is in use. */
  function SceneEvents(format: VkFormat, zlsControl: nat, color: Option<ColorSurface>,
                       depthStencil: Option<DepthStencilSurface>, renderPass: Handle,
                       width: nat, height: nat, useMaskBit: bool): (es: seq<Event>)
    ensures |es| == if useMaskBit then 3 else 2
    ensures es[0] == RetrieveRenderPass(format, zlsControl)
    ensures es[1] == RetrieveFramebuffer(color, depthStencil, renderPass, width, height)
  {
    [RetrieveRenderPass(format, zlsControl), RetrieveFramebuffer(color, depthStencil, renderPass, width, height)]
    + (if useMaskBit then [SyncMask] else [])
  }

  /** Beginning a render pass over the whole render target and writing its
      attachment descriptor set: the colour attachment always, the mask only
      when the mask bit is in use. */
  function PassEvents(cmd: Handle, renderPass: Handle, framebuffer: Handle, width: nat, height: nat,
                      descriptorSet: Handle, useMaskBit: bool, colorView: Handle, maskView: Handle): (es: seq<Event>)
    ensures |es| == 3 && es[0] == BeginRenderPass(cmd, renderPass, framebuffer, width, height)
    ensures es[2].UpdateAttachmentDescriptors? && es[2].count == (if useMaskBit then 2 else 1)
  {
    [BeginRenderPass(cmd, renderPass, framebuffer, width, height),
     AllocateDescriptorSet(descriptorSet),
     UpdateAttachmentDescriptors(descriptorSet, if useMaskBit then 2 else 1, colorView, maskView)]
  }

  /** What closing a recording issues on the render command buffer before it
      ends: the open query is ended before the render pass, then the
      visibility results of slots `0..maxUsedIdx` are copied. */
  function CloseEvents(cmd: Handle, inQuery: bool, inPass: bool, maxUsedIdx: int): (es: seq<Event>)
    ensures |es| == (if inQuery then 1 else 0) + (if inPass then 1 else 0) + (if maxUsedIdx != -1 then 1 else 0)
  {
    (if inQuery then [EndQuery(cmd)] else [])
    + (if inPass then [EndRenderPass(cmd)] else [])
    + (if maxUsedIdx != -1 then [CopyQueryResults(cmd, maxUsedIdx + 1)] else [])
  }

  /** The query is ended before the render pass, each only when open, and
      the results are copied last exactly when a visibility slot was used. */
  lemma CloseEventsOrder(cmd: Handle, inQuery: bool, inPass: bool, maxUsedIdx: int)
    ensures var es := CloseEvents(cmd, inQuery, inPass, maxUsedIdx);
      && (EndQuery(cmd) in es <==> inQuery)
      && (EndRenderPass(cmd) in es <==> inPass)
      && (inQuery && inPass ==> es[0] == EndQuery(cmd) && es[1] == EndRenderPass(cmd))
      && (maxUsedIdx != -1 <==> |es| > 0 && es[|es| - 1] == CopyQueryResults(cmd, maxUsedIdx + 1))
  {
  }

  /** The end of a recording: the surface cache's synchronisation when it is
      enabled, then both command buffers ended and submitted together,
      pre-render first, signalling `fence`. */
  function SubmitEvents(surfaceSync: bool, prerender: Handle, render: Handle, fence: Handle): (es: seq<Event>)
    ensures |es| == if surfaceSync then 4 else 3
    ensures es[|es| - 1] == Submit(prerender, render, fence)
  {
    (if surfaceSync then [PerformSurfaceSync] else [])
      + [EndCommandBuffer(prerender), EndCommandBuffer(render), Submit(prerender, render, fence)]
  }

  /** The surface cache is synchronised exactly when it is enabled, and
      before either command buffer is ended. */
  lemma SurfaceSyncBeforeEnd(surfaceSync: bool, prerender: Handle, render: Handle, fence: Handle)
    ensures PerformSurfaceSync in SubmitEvents(surfaceSync, prerender, render, fence) <==> surfaceSync
    ensures surfaceSync ==> SubmitEvents(surfaceSync, prerender, render, fence)[0] == PerformSurfaceSync
  {
    var es := SubmitEvents(surfaceSync, prerender, render, fence);
    if surfaceSync {
      assert es[0] == PerformSurfaceSync;
    }
  }

  /** The requests a finished recording hands to the fence-wait thread. Only
      with memory mapping: the notifications to write once `fence` signals,
      followed by the post-synchronisation of the surface that was
      synchronised, if any. */
  function CompletionRequests(memoryMapping: bool, notif1: Notification, notif2: Notification,
                              fence: Handle, syncedSurface: Handle): (reqs: seq<Request>)
    ensures !memoryMapping ==> reqs == []
    ensures memoryMapping ==> |reqs| >= 1 && reqs[0] == NotificationRequest(notif1, notif2, fence)
    ensures |reqs| <= 2
  {
    if !memoryMapping then
      []
    else
      [NotificationRequest(notif1, notif2, fence)]
      + (if syncedSurface != NULL_HANDLE then [PostSurfaceSyncRequest(syncedSurface)] else [])
  }

  /** A post-synchronisation request follows exactly when memory mapping is
      on and the surface cache synchronised a surface. */
  lemma PostSyncQueuedIffSynced(memoryMapping: bool, notif1: Notification, notif2: Notification,
                                fence: Handle, syncedSurface: Handle)
    ensures PostSurfaceSyncRequest(syncedSurface) in CompletionRequests(memoryMapping, notif1, notif2, fence, syncedSurface)
        <==> memoryMapping && syncedSurface != NULL_HANDLE
  {
    var reqs := CompletionRequests(memoryMapping, notif1, notif2, fence, syncedSurface);
    if memoryMapping && syncedSurface != NULL_HANDLE {
      assert reqs[1] == PostSurfaceSyncRequest(syncedSurface);
    }
  }

  /** What `start_recording` issues when it takes a slot of `frame` from the
      bookkeeping `before`, with `h` the counter's next handle: the allocations
      of a pool growth when every slot is taken, then the begin calls and
      the dynamic state on the slot's command buffers. */
  function StartEvents(before: Slots, frame: nat, frameTimestamp: nat, h: Handle, twoSided: bool): seq<Event>
    requires before.Fits(|before.cmdBuffers|, frame, frameTimestamp)
  {
    (if before.GrowsFor(frame, frameTimestamp) then GrowthEvents(h) else [])
    + RecordingEvents(before.CmdFor(frame, frameTimestamp, h), before.PreCmdFor(frame, frameTimestamp, h), twoSided)
  }

  /** The handles that taking a slot uses: three for a pool growth. */
  function StartHandles(before: Slots, frame: nat, frameTimestamp: nat): nat
    requires frame < |before.cmdBuffers|
  {
    if before.GrowsFor(frame, frameTimestamp) then 3 else 0
  }

  class VKContext {
    // features of the device and the configuration
    const supportMemoryMapping: bool
    const disableSurfaceSync: bool
    const useMaskBit: bool

    // the render target being drawn to, and the one bound by the guest
    var renderTarget: RenderTarget?
    var currentRenderTarget: RenderTarget?

    // the recording state machine
    var isRecording: bool
    var inRenderpass: bool
    var isInQuery: bool
    var visibilityMaxUsedIdx: int
    var renderCmd: Handle
    var prerenderCmd: Handle

    // frames
    var frameTimestamp: nat
    var sceneTimestamp: nat
    var currentFrameIdx: nat
    var renderedFences: seq<seq<Handle>>

    // the queue read by the fence-wait thread
    var requestQueue: seq<Request>

    var record: GxmRecord

    // the scene's render pass, framebuffer and pipeline state
    var currentRenderPass: Handle
    var currentFramebuffer: Handle
    var currentColorView: Handle
    var currentDepthStencilView: Handle
    var currentFramebufferHeight: nat
    var rendertargetSet: Handle
    var currentPipeline: Handle
    var refreshPipeline: bool
    var lastVertTextureCount: uint32
    var lastFragTextureCount: uint32
    const vertexSamplers: array<Handle>
    const fragmentSamplers: array<Handle>

    /** The next handle Vulkan hands out; 0 is the null handle. */
    var nextHandle: nat
    ghost var trace: seq<Event>

    /** A render pass only inside a recording, a recording only on a render
        target, and the bound render target fits the frames in flight. Every
        command buffer and fence the bound target holds was allocated before
        the handle counter reached its current value, and its fence ring
        holds no fence twice. */
    ghost predicate Valid()
      reads this`renderedFences, this`currentFrameIdx, this`frameTimestamp, this`nextHandle
      reads this`inRenderpass, this`isRecording, this`renderTarget, renderTarget
    {
      && currentFrameIdx < |renderedFences|
      && (inRenderpass ==> isRecording)
      && (isRecording ==> renderTarget != null)
      && 0 < nextHandle
      && (renderTarget != null ==> renderTarget.Fits(|renderedFences|, currentFrameIdx, frameTimestamp))
      && (renderTarget != null ==> renderTarget.Snapshot().FreshBelow(nextHandle))
    }

    /** One sampler slot per texture unit of each stage, in two arrays. */
    predicate SamplerSlots()
    {
      && vertexSamplers.Length == TEXTURE_SLOTS
      && fragmentSamplers.Length == TEXTURE_SLOTS
      && vertexSamplers != fragmentSamplers
    }

    constructor (supportMemoryMapping: bool, disableSurfaceSync: bool, useMaskBit: bool, frames: nat)
      requires frames > 0
      ensures Valid() && SamplerSlots()
      ensures this.supportMemoryMapping == supportMemoryMapping
      ensures this.disableSurfaceSync == disableSurfaceSync
      ensures this.useMaskBit == useMaskBit
      ensures renderTarget == null && currentRenderTarget == null
      ensures !isRecording && !inRenderpass && !isInQuery && visibilityMaxUsedIdx == -1
      ensures |renderedFences| == frames && requestQueue == [] && trace == []
    {
      this.supportMemoryMapping := supportMemoryMapping;
      this.disableSurfaceSync := disableSurfaceSync;
      this.useMaskBit := useMaskBit;
      renderTarget, currentRenderTarget := null, null;
      isRecording, inRenderpass, isInQuery, visibilityMaxUsedIdx := false, false, false, -1;
      renderCmd, prerenderCmd := NULL_HANDLE, NULL_HANDLE;
      frameTimestamp, sceneTimestamp, currentFrameIdx := 0, 0, 0;
      renderedFences := seq(frames, _ => []);
      requestQueue := [];
      record := GxmRecord(ColorSurface(0, U8U8U8U8, 0, false), DepthStencilSurface(0, 0, 0),
                          U8U8U8U8, false, false, false);
      currentRenderPass, currentFramebuffer, currentColorView, currentDepthStencilView := 0, 0, 0, 0;
      currentFramebufferHeight, rendertargetSet, currentPipeline, refreshPipeline := 0, 0, 0, false;
      lastVertTextureCount, lastFragTextureCount := NO_TEXTURE_COUNT, NO_TEXTURE_COUNT;
      vertexSamplers := new Handle[TEXTURE_SLOTS](_ => NULL_HANDLE);
      fragmentSamplers := new Handle[TEXTURE_SLOTS](_ => NULL_HANDLE);
      nextHandle := 1;
      trace := [];
    }

    /** The render target `set_context` binds: the one given, or the one
        the guest bound last when none is given. */
    function SceneTarget(rt: RenderTarget?): (target: RenderTarget?)
      reads this`currentRenderTarget
      ensures rt != null ==> target == rt
      ensures rt == null ==> target == currentRenderTarget
    {
      if rt != null then rt else currentRenderTarget
    }

    /** The first part of `set_context`: binds the render target, opens a new
        scene, rewrites the record's colour flags from the colour surface,
        doubles the target's extent for emulated multi-sampling and hands the
        target to the surface cache. Returns the colour format and the
        surfaces the render-pass and framebuffer lookups are given. */
    method PrepareScene(rt: RenderTarget?, translate: ColorBaseFormat -> VkFormat)
      returns (format: VkFormat, color: Option<ColorSurface>, depthStencil: Option<DepthStencilSurface>)
      requires Valid()
      requires SceneTarget(rt) != null && SceneTarget(rt).Fits(|renderedFences|, currentFrameIdx, frameTimestamp)
      requires SceneTarget(rt).Snapshot().FreshBelow(nextHandle)
      modifies this`renderTarget, this`sceneTimestamp, this`record, this`trace
      modifies SceneTarget(rt)`width, SceneTarget(rt)`height
      ensures Valid()
      ensures unchanged(this`isRecording, this`inRenderpass, this`nextHandle, this`renderCmd, this`prerenderCmd)
      ensures unchanged(this`currentFrameIdx, this`frameTimestamp)
      ensures renderTarget == old(SceneTarget(rt)) && sceneTimestamp == old(sceneTimestamp) + 1
      ensures var setup := ChooseColorSetup(old(record.colorSurface), old(record.isMaskupdate), translate);
        && format == setup.format && color == setup.surface
        && record == old(record).(colorSurface := old(record.colorSurface).(downscale := setup.downscale),
                                  colorBaseFormat := setup.baseFormat, isGammaCorrected := setup.gammaCorrected,
                                  isMaskupdate := setup.maskUpdate)
      ensures depthStencil == DepthStencilTarget(record.depthStencilSurface)
      ensures var target := renderTarget;
        && unchanged(target`cmdBuffers, target`preCmdBuffers, target`fences, target`fenceIdx)
        && unchanged(target`cmdBufferIdx, target`lastUsedFrame)
        && if EmulatesMsaa(target.multisampleMode, record.colorSurface.downscale)
           then target.width == Doubled(old(target.width)) && target.height == Doubled(old(target.height))
           else target.width == old(target.width) && target.height == old(target.height)
      ensures trace == old(trace) + [SetSurfaceTarget(renderTarget.width, renderTarget.height)]
    {
      var target := SceneTarget(rt);
      renderTarget := target;
      sceneTimestamp := sceneTimestamp + 1;
      var setup := ChooseColorSetup(record.colorSurface, record.isMaskupdate, translate);
      record := record.(colorSurface := record.colorSurface.(downscale := setup.downscale),
                        colorBaseFormat := setup.baseFormat, isGammaCorrected := setup.gammaCorrected,
                        isMaskupdate := setup.maskUpdate);
      format, color := setup.format, setup.surface;
      if EmulatesMsaa(target.multisampleMode, setup.downscale) {
        target.DoubleExtent();
      }
      depthStencil := DepthStencilTarget(record.depthStencilSurface);
      trace := trace + [SetSurfaceTarget(target.width, target.height)];
    }

    /** The lookups of `set_context` once recording has started: the render
        pass for the colour format and the depth/stencil control, then the
        framebuffer over the surfaces at the target's extent, whose handles
        become current; then the mask is synchronised when in use. */
    method BindFramebuffer(format: VkFormat, color: Option<ColorSurface>, depthStencil: Option<DepthStencilSurface>,
                           renderPass: Handle, binding: FramebufferBinding)
      requires Valid() && renderTarget != null
      modifies this`currentRenderPass, this`currentFramebuffer, this`currentColorView
      modifies this`currentDepthStencilView, this`currentFramebufferHeight, this`trace
      ensures Valid()
      ensures unchanged(this`renderTarget, this`isRecording, this`inRenderpass, this`nextHandle)
      ensures currentRenderPass == renderPass
      ensures binding == FramebufferBinding(currentFramebuffer, currentColorView, currentDepthStencilView, currentFramebufferHeight)
      ensures trace == old(trace) + SceneEvents(format, record.depthStencilSurface.zlsControl, color, depthStencil,
                                                renderPass, renderTarget.width, renderTarget.height, useMaskBit)
    {
      currentRenderPass := renderPass;
      currentFramebuffer, currentColorView := binding.framebuffer, binding.colorView;
      currentDepthStencilView, currentFramebufferHeight := binding.depthStencilView, binding.framebufferHeight;
      trace := trace + SceneEvents(format, record.depthStencilSurface.zlsControl, color, depthStencil,
                                   renderPass, renderTarget.width, renderTarget.height, useMaskBit);
    }

    /** The lookups and the render pass of `set_context`, once a recording
        is open: binds the render pass and framebuffer the caches return and
        starts the render pass over the target, which stays untouched. */
    method BindScene(format: VkFormat, color: Option<ColorSurface>, depthStencil: Option<DepthStencilSurface>,
                     renderPass: Handle, binding: FramebufferBinding)
      requires Valid() && SamplerSlots() && renderTarget != null && isRecording
      modifies this`renderCmd, this`prerenderCmd, this`isRecording, this`nextHandle, this`trace, renderTarget
      modifies this`currentRenderPass, this`currentFramebuffer, this`currentColorView
      modifies this`currentDepthStencilView, this`currentFramebufferHeight
      modifies this`lastVertTextureCount, this`lastFragTextureCount, this`rendertargetSet
      modifies this`refreshPipeline, this`currentPipeline, this`inRenderpass
      modifies vertexSamplers, fragmentSamplers
      ensures Valid() && isRecording && inRenderpass
      ensures currentRenderPass == renderPass
      ensures binding == FramebufferBinding(currentFramebuffer, currentColorView, currentDepthStencilView, currentFramebufferHeight)
      ensures unchanged(this`renderTarget, this`sceneTimestamp, this`record, this`currentFrameIdx, this`frameTimestamp)
      ensures unchanged(renderTarget) && renderCmd == old(renderCmd) && prerenderCmd == old(prerenderCmd)
      ensures !old(inRenderpass) ==> FreshPass()
      ensures var rt := renderTarget;
        trace == old(trace)
          + SceneEvents(format, record.depthStencilSurface.zlsControl, color, depthStencil,
                        renderPass, rt.width, rt.height, useMaskBit)
          + (if old(inRenderpass) then []
             else PassEvents(renderCmd, renderPass, currentFramebuffer, rt.width, rt.height,
                             rendertargetSet, useMaskBit, currentColorView, rt.maskView))
    {
      BindFramebuffer(format, color, depthStencil, renderPass, binding);
      StartRenderPass();
    }

    /** The end of `set_context`: makes sure a recording is open, then binds
        the scene and starts its render pass. */
    method OpenScene(format: VkFormat, color: Option<ColorSurface>, depthStencil: Option<DepthStencilSurface>,
                     renderPass: Handle, binding: FramebufferBinding)
      requires Valid() && SamplerSlots() && renderTarget != null
      modifies this`renderCmd, this`prerenderCmd, this`isRecording, this`nextHandle, this`trace, renderTarget
      modifies this`currentRenderPass, this`currentFramebuffer, this`currentColorView
      modifies this`currentDepthStencilView, this`currentFramebufferHeight
      modifies this`lastVertTextureCount, this`lastFragTextureCount, this`rendertargetSet
      modifies this`refreshPipeline, this`currentPipeline, this`inRenderpass
      modifies vertexSamplers, fragmentSamplers
      ensures Valid() && isRecording && inRenderpass
      ensures currentRenderPass == renderPass
      ensures binding == FramebufferBinding(currentFramebuffer, currentColorView, currentDepthStencilView, currentFramebufferHeight)
      ensures unchanged(this`renderTarget, this`sceneTimestamp, this`record, this`currentFrameIdx, this`frameTimestamp)
      ensures unchanged(renderTarget`width, renderTarget`height)
      ensures old(isRecording) ==> unchanged(renderTarget) && renderCmd == old(renderCmd) && prerenderCmd == old(prerenderCmd)
      ensures !old(isRecording) ==> StartedOn(renderTarget, old(nextHandle), old(renderTarget.Snapshot()))
      ensures !old(inRenderpass) ==> FreshPass()
      ensures var rt := renderTarget;
        trace == old(trace)
          + (if old(isRecording) then [] else StartEvents(old(rt.Snapshot()), currentFrameIdx, frameTimestamp, old(nextHandle), record.twoSided))
          + SceneEvents(format, record.depthStencilSurface.zlsControl, color, depthStencil,
                        renderPass, rt.width, rt.height, useMaskBit)
          + (if old(inRenderpass) then []
             else PassEvents(renderCmd, renderPass, currentFramebuffer, rt.width, rt.height,
                             rendertargetSet, useMaskBit, currentColorView, rt.maskView))
    {
      StartRecording();
      BindScene(format, color, depthStencil, renderPass, binding);
    }

    /** `set_context`: binds `rt` (or the guest's current render target),
        sets up the scene's formats and multi-sample emulation, makes sure a
        recording is open, binds the render pass and framebuffer the caches
        return (`renderPass`, `binding`) and starts the render pass.
        `translate` stands for color::translate_format. */
    method SetContext(rt: RenderTarget?, translate: ColorBaseFormat -> VkFormat,
                      renderPass: Handle, binding: FramebufferBinding)
      requires Valid() && SamplerSlots()
      requires SceneTarget(rt) != null && SceneTarget(rt).Fits(|renderedFences|, currentFrameIdx, frameTimestamp)
      requires SceneTarget(rt).Snapshot().FreshBelow(nextHandle)
      modifies this`renderTarget, this`sceneTimestamp, this`record, this`trace, SceneTarget(rt)
      modifies this`renderCmd, this`prerenderCmd, this`isRecording, this`nextHandle
      modifies this`currentRenderPass, this`currentFramebuffer, this`currentColorView
      modifies this`currentDepthStencilView, this`currentFramebufferHeight
      modifies this`lastVertTextureCount, this`lastFragTextureCount, this`rendertargetSet
      modifies this`refreshPipeline, this`currentPipeline, this`inRenderpass
      modifies vertexSamplers, fragmentSamplers
      ensures Valid() && isRecording && inRenderpass
      ensures renderTarget == old(SceneTarget(rt)) && sceneTimestamp == old(sceneTimestamp) + 1
      ensures var setup := ChooseColorSetup(old(record.colorSurface), old(record.isMaskupdate), translate);
        record == old(record).(colorSurface := old(record.colorSurface).(downscale := setup.downscale),
                               colorBaseFormat := setup.baseFormat, isGammaCorrected := setup.gammaCorrected,
                               isMaskupdate := setup.maskUpdate)
      ensures currentRenderPass == renderPass
      ensures binding == FramebufferBinding(currentFramebuffer, currentColorView, currentDepthStencilView, currentFramebufferHeight)
      ensures var target := renderTarget;
        if EmulatesMsaa(target.multisampleMode, record.colorSurface.downscale)
        then target.width == Doubled(old(target.width)) && target.height == Doubled(old(target.height))
        else target.width == old(target.width) && target.height == old(target.height)
      ensures old(isRecording) ==>
        && unchanged(renderTarget`cmdBuffers, renderTarget`preCmdBuffers, renderTarget`fences, renderTarget`fenceIdx)
        && unchanged(renderTarget`cmdBufferIdx, renderTarget`lastUsedFrame)
        && renderCmd == old(renderCmd) && prerenderCmd == old(prerenderCmd)
      ensures !old(isRecording) ==> StartedOn(renderTarget, old(nextHandle), old(SceneTarget(rt).Snapshot()))
      ensures !old(inRenderpass) ==> FreshPass()
      ensures var target, setup := renderTarget, ChooseColorSetup(old(record.colorSurface), old(record.isMaskupdate), translate);
        trace == old(trace)
          + [SetSurfaceTarget(target.width, target.height)]
          + (if old(isRecording) then []
             else StartEvents(old(SceneTarget(rt).Snapshot()), currentFrameIdx, frameTimestamp, old(nextHandle), record.twoSided))
          + SceneEvents(setup.format, record.depthStencilSurface.zlsControl, setup.surface,
                        DepthStencilTarget(record.depthStencilSurface), renderPass, target.width, target.height, useMaskBit)
          + (if old(inRenderpass) then []
             else PassEvents(renderCmd, renderPass, currentFramebuffer, target.width, target.height,
                             rendertargetSet, useMaskBit, currentColorView, target.maskView))
    {
      var format, color, depthStencil := PrepareScene(rt, translate);
      OpenScene(format, color, depthStencil, renderPass, binding);
    }

    /** What `start_recording` leaves behind when it takes a slot of
        `target` whose bookkeeping was `before`, `h` being the counter's next
        handle before it: the bookkeeping `Slots.Took` describes, and that
        slot's command buffers current. */
    ghost predicate StartedOn(target: RenderTarget, h: Handle, before: Slots)
      reads this`renderCmd, this`prerenderCmd, this`currentFrameIdx, this`frameTimestamp
      reads target`cmdBuffers, target`preCmdBuffers, target`fenceIdx, target`fences
      reads target`lastUsedFrame, target`cmdBufferIdx
    {
      && before.Fits(|before.cmdBuffers|, currentFrameIdx, frameTimestamp)
      && target.Snapshot() == before.Took(currentFrameIdx, frameTimestamp, h)
      && renderCmd == before.CmdFor(currentFrameIdx, frameTimestamp, h)
      && prerenderCmd == before.PreCmdFor(currentFrameIdx, frameTimestamp, h)
    }

    /** What starting a recording on the bound target leaves behind: a
        recording in progress on the slot `StartedOn` describes, whose
        command buffers are the ones just before the cursor, on a target of
        the same extent; the handles a growth took, and the trace
        grown by exactly the events `StartEvents` names. */
    twostate predicate Began()
      reads this, renderTarget
      requires renderTarget != null && old(renderTarget) == renderTarget
    {
      var rt, cf := renderTarget, currentFrameIdx;
      && isRecording
      && StartedOn(rt, old(nextHandle), old(rt.Snapshot()))
      && renderCmd == rt.cmdBuffers[cf][rt.cmdBufferIdx - 1]
      && prerenderCmd == rt.preCmdBuffers[cf][rt.cmdBufferIdx - 1]
      && unchanged(rt`width, rt`height)
      && nextHandle == old(nextHandle) + StartHandles(old(rt.Snapshot()), currentFrameIdx, frameTimestamp)
      && trace == old(trace) + StartEvents(old(rt.Snapshot()), currentFrameIdx, frameTimestamp, old(nextHandle), record.twoSided)
    }

    /** `start_recording`: takes the next command-buffer slot of the bound
        render target, begins both command buffers and sets the dynamic
        state. Starting while already recording, or with no render target,
        is a no-op. */
    method StartRecording()
      requires Valid()
      modifies this`renderCmd, this`prerenderCmd, this`isRecording, this`nextHandle, this`trace, renderTarget
      ensures Valid()
      ensures unchanged(this`renderTarget, this`sceneTimestamp, this`record, this`currentFrameIdx, this`frameTimestamp)
      ensures old(isRecording) || renderTarget == null ==>
        && unchanged(this)
        && (renderTarget != null ==> unchanged(renderTarget))
      ensures !old(isRecording) && renderTarget != null ==> Began()
      ensures !old(isRecording) && renderTarget != null && old(renderTarget.Snapshot()).GrowsFor(currentFrameIdx, frameTimestamp) ==>
        renderTarget.fences[renderTarget.fenceIdx] !in old(renderTarget.fences)
    {
      if isRecording {
        return;
      }
      if renderTarget == null {
        return;
      }
      BeginRecording();
    }

    /** `start_recording` past its guards: the slot is taken and its
        command buffers begun. */
    method BeginRecording()
      requires Valid() && !isRecording && renderTarget != null
      modifies this`renderCmd, this`prerenderCmd, this`isRecording, this`nextHandle, this`trace, renderTarget
      ensures Valid()
      ensures unchanged(this`renderTarget, this`sceneTimestamp, this`record, this`currentFrameIdx, this`frameTimestamp)
      ensures Began()
      ensures old(renderTarget.Snapshot()).GrowsFor(currentFrameIdx, frameTimestamp) ==>
        renderTarget.fences[renderTarget.fenceIdx] !in old(renderTarget.fences)
    {
      var rt, h := renderTarget, nextHandle;
      TookStaysFresh(rt.Snapshot(), currentFrameIdx, frameTimestamp, h);
      var slot, grown := rt.TakeSlot(|renderedFences|, currentFrameIdx, frameTimestamp, h);
      BeginCommandBuffers(rt.cmdBuffers[currentFrameIdx][slot], rt.preCmdBuffers[currentFrameIdx][slot],
                          if grown then GrowthEvents(h) else [], if grown then 3 else 0);
    }

    /** Begins the command buffers `render` and `prerender` after the
        allocations `growth` that took `used` handles, and sets the dynamic
        state. */
    method BeginCommandBuffers(render: Handle, prerender: Handle, growth: seq<Event>, used: nat)
      modifies this`renderCmd, this`prerenderCmd, this`isRecording, this`nextHandle, this`trace
      ensures isRecording && renderCmd == render && prerenderCmd == prerender
      ensures nextHandle == old(nextHandle) + used
      ensures trace == old(trace) + (growth + RecordingEvents(render, prerender, record.twoSided))
    {
      nextHandle := nextHandle + used;
      renderCmd, prerenderCmd := render, prerender;
      trace := trace + (growth + RecordingEvents(render, prerender, record.twoSided));
      isRecording := true;
    }

    /** The texture state a render pass starts from: no texture count
        remembered and no sampler bound in any slot. */
    method ForgetTextures()
      requires SamplerSlots()
      modifies this`lastVertTextureCount, this`lastFragTextureCount, vertexSamplers, fragmentSamplers
      ensures lastVertTextureCount == NO_TEXTURE_COUNT && lastFragTextureCount == NO_TEXTURE_COUNT
      ensures forall i :: 0 <= i < vertexSamplers.Length ==> vertexSamplers[i] == NULL_HANDLE
      ensures forall i :: 0 <= i < fragmentSamplers.Length ==> fragmentSamplers[i] == NULL_HANDLE
    {
      for i := 0 to TEXTURE_SLOTS
        invariant forall j :: 0 <= j < i ==> vertexSamplers[j] == NULL_HANDLE
        invariant forall j :: 0 <= j < i ==> fragmentSamplers[j] == NULL_HANDLE
      {
        vertexSamplers[i] := NULL_HANDLE;
        fragmentSamplers[i] := NULL_HANDLE;
      }
      lastVertTextureCount, lastFragTextureCount := NO_TEXTURE_COUNT, NO_TEXTURE_COUNT;
    }

    /** The state a render pass starts in: recording and in the pass, no
        texture of an earlier pass remembered or bound, and the pipeline to
        be chosen again by the next draw. */
    ghost predicate FreshPass()
      reads this, vertexSamplers, fragmentSamplers
    {
      && isRecording && inRenderpass
      && refreshPipeline && currentPipeline == NULL_HANDLE
      && lastVertTextureCount == NO_TEXTURE_COUNT && lastFragTextureCount == NO_TEXTURE_COUNT
      && (forall i :: 0 <= i < vertexSamplers.Length ==> vertexSamplers[i] == NULL_HANDLE)
      && (forall i :: 0 <= i < fragmentSamplers.Length ==> fragmentSamplers[i] == NULL_HANDLE)
    }

    /** The part of `start_render_pass` after recording is ensured: the render
        pass over the whole target, a fresh attachment descriptor set, and
        the pipeline to be chosen again. */
    method BeginPass()
      requires Valid() && SamplerSlots() && isRecording && !inRenderpass
      modifies this`lastVertTextureCount, this`lastFragTextureCount, this`rendertargetSet, this`nextHandle
      modifies this`refreshPipeline, this`currentPipeline, this`inRenderpass, this`trace
      modifies vertexSamplers, fragmentSamplers
      ensures Valid() && FreshPass()
      ensures unchanged(this`renderTarget, this`sceneTimestamp, this`record, this`currentFrameIdx, this`frameTimestamp)
      ensures unchanged(this`renderCmd, this`prerenderCmd, this`isRecording, renderTarget)
      ensures rendertargetSet == old(nextHandle) && nextHandle == old(nextHandle) + 1
      ensures trace == old(trace) + PassEvents(renderCmd, currentRenderPass, currentFramebuffer,
        renderTarget.width, renderTarget.height, rendertargetSet, useMaskBit, currentColorView, renderTarget.maskView)
    {
      ForgetTextures();
      var rt, descriptorSet := renderTarget, nextHandle;
      rendertargetSet, nextHandle := descriptorSet, descriptorSet + 1;
      trace := trace + PassEvents(renderCmd, currentRenderPass, currentFramebuffer, rt.width, rt.height,
                                  descriptorSet, useMaskBit, currentColorView, rt.maskView);
      refreshPipeline, currentPipeline, inRenderpass := true, NULL_HANDLE, true;
    }

    /** What entering a render pass leaves behind: the fresh pass state on
        the same target, its extent untouched. A recording in progress is
        continued, with the target untouched; otherwise one was started on
        the next slot of the current frame, as `StartedOn` states. The trace
        grows by exactly the start of the recording, if any, and the pass
        events, and the descriptor set is the counter's next handle after those
        the recording took. */
    twostate predicate EnteredPass()
      reads this, renderTarget, vertexSamplers, fragmentSamplers
    {
      && FreshPass()
      && renderTarget != null && old(renderTarget) == renderTarget
      && unchanged(renderTarget`width, renderTarget`height)
      && (old(isRecording) ==>
            && renderCmd == old(renderCmd) && prerenderCmd == old(prerenderCmd) && unchanged(renderTarget))
      && (!old(isRecording) ==> StartedOn(renderTarget, old(nextHandle), old(renderTarget.Snapshot())))
      && var rt := renderTarget;
         var started := if old(isRecording) then [] else StartEvents(old(rt.Snapshot()), currentFrameIdx, frameTimestamp, old(nextHandle), record.twoSided);
         var used := if old(isRecording) then 0 else StartHandles(old(rt.Snapshot()), currentFrameIdx, frameTimestamp);
         && rendertargetSet == old(nextHandle) + used && nextHandle == rendertargetSet + 1
         && trace == old(trace) + started
              + PassEvents(renderCmd, currentRenderPass, currentFramebuffer, rt.width, rt.height,
                           rendertargetSet, useMaskBit, currentColorView, rt.maskView)
    }

    /** `start_render_pass` past its guard: starts recording if needed, then
        begins the pass. */
    method EnterPass()
      requires Valid() && SamplerSlots() && renderTarget != null && !inRenderpass
      modifies this`renderCmd, this`prerenderCmd, this`isRecording, this`nextHandle, this`trace, renderTarget
      modifies this`lastVertTextureCount, this`lastFragTextureCount, this`rendertargetSet
      modifies this`refreshPipeline, this`currentPipeline, this`inRenderpass
      modifies vertexSamplers, fragmentSamplers
      ensures Valid() && EnteredPass()
      ensures unchanged(this`renderTarget, this`sceneTimestamp, this`record, this`currentFrameIdx, this`frameTimestamp)
    {
      if !isRecording {
        StartRecording();
      }
      BeginPass();
    }

    /** `start_render_pass`: starts recording if needed, forgets every texture
        of the previous pass, begins the render pass over the whole target,
        writes the attachment descriptor set and forces the next draw to pick
        a pipeline. Starting while already in a render pass is a no-op. */
    method StartRenderPass()
      requires Valid() && SamplerSlots() && renderTarget != null
      modifies this`renderCmd, this`prerenderCmd, this`isRecording, this`nextHandle, this`trace, renderTarget
      modifies this`lastVertTextureCount, this`lastFragTextureCount, this`rendertargetSet
      modifies this`refreshPipeline, this`currentPipeline, this`inRenderpass
      modifies vertexSamplers, fragmentSamplers
      ensures Valid()
      ensures unchanged(this`renderTarget, this`sceneTimestamp, this`record, this`currentFrameIdx, this`frameTimestamp)
      ensures old(inRenderpass) ==>
        && unchanged(this) && unchanged(renderTarget)
        && unchanged(vertexSamplers) && unchanged(fragmentSamplers)
      ensures !old(inRenderpass) ==> EnteredPass()
    {
      if inRenderpass {
        return;
      }
      EnterPass();
    }

    /** `stop_render_pass`: ends the render pass; a no-op outside one. */
    method StopRenderPass()
      requires Valid()
      modifies this`inRenderpass, this`trace
      ensures Valid()
      ensures !inRenderpass
      ensures !old(inRenderpass) ==> trace == old(trace)
      ensures old(inRenderpass) ==> trace == old(trace) + [EndRenderPass(renderCmd)]
    {
      if !inRenderpass {
        return;
      }
      trace := trace + [EndRenderPass(renderCmd)];
      inRenderpass := false;
    }

    /** The first part of `stop_recording`: the open query and the render
        pass are ended and the visibility results copied. */
    method CloseCommands()
      modifies this`isInQuery, this`inRenderpass, this`visibilityMaxUsedIdx, this`trace
      ensures !isInQuery && !inRenderpass && visibilityMaxUsedIdx == -1
      ensures trace == old(trace) + CloseEvents(renderCmd, old(isInQuery), old(inRenderpass), old(visibilityMaxUsedIdx))
    {
      trace := trace + CloseEvents(renderCmd, isInQuery, inRenderpass, visibilityMaxUsedIdx);
      isInQuery, inRenderpass, visibilityMaxUsedIdx := false, false, -1;
    }

    /** The middle of `stop_recording`: both command buffers are ended and
        submitted, pre-render first, with the next fence of the ring; the
        fence is remembered as rendered in the current frame and the
        completion requests are queued for the fence-wait thread. */
    method SubmitRecording(rt: RenderTarget, notif1: Notification, notif2: Notification, syncedSurface: Handle)
      requires rt.Fits(|renderedFences|, currentFrameIdx, frameTimestamp)
      modifies rt`fenceIdx, this`renderedFences, this`requestQueue, this`trace
      ensures rt.Fits(|renderedFences|, currentFrameIdx, frameTimestamp)
      ensures rt.fenceIdx == Advanced(old(rt.fenceIdx), |rt.fences|)
      ensures var fence := old(rt.fences[rt.fenceIdx]);
        var syncing := supportMemoryMapping && !disableSurfaceSync;
        && renderedFences == old(renderedFences)[currentFrameIdx := old(renderedFences[currentFrameIdx]) + [fence]]
        && requestQueue == old(requestQueue)
             + CompletionRequests(supportMemoryMapping, notif1, notif2, fence, if syncing then syncedSurface else NULL_HANDLE)
        && trace == old(trace) + SubmitEvents(syncing, prerenderCmd, renderCmd, fence)
    {
      var syncing := supportMemoryMapping && !disableSurfaceSync;
      var fence := rt.NextFence(|renderedFences|, currentFrameIdx, frameTimestamp);
      trace := trace + SubmitEvents(syncing, prerenderCmd, renderCmd, fence);
      renderedFences := renderedFences[currentFrameIdx := renderedFences[currentFrameIdx] + [fence]];
      requestQueue := requestQueue
        + CompletionRequests(supportMemoryMapping, notif1, notif2, fence, if syncing then syncedSurface else NULL_HANDLE);
    }

    /** The end of `stop_recording`: the multi-sample doubling of
        `set_context` is undone and no command buffer is recorded any more. */
    method ReleaseRecording(rt: RenderTarget)
      modifies rt`width, rt`height, this`renderCmd, this`prerenderCmd, this`isRecording
      ensures !isRecording && renderCmd == NULL_HANDLE && prerenderCmd == NULL_HANDLE
      ensures if EmulatesMsaa(rt.multisampleMode, record.colorSurface.downscale)
        then rt.width == Halved(old(rt.width)) && rt.height == Halved(old(rt.height))
        else rt.width == old(rt.width) && rt.height == old(rt.height)
    {
      if EmulatesMsaa(rt.multisampleMode, record.colorSurface.downscale) {
        rt.HalveExtent();
      }
      renderCmd, prerenderCmd, isRecording := NULL_HANDLE, NULL_HANDLE, false;
    }

    /** The rest of `stop_recording` once the commands are closed: the
        submission, then the release of the recording. */
    method FinishRecording(rt: RenderTarget, notif1: Notification, notif2: Notification, syncedSurface: Handle)
      requires rt.Fits(|renderedFences|, currentFrameIdx, frameTimestamp)
      modifies rt, this`renderedFences, this`requestQueue, this`trace, this`renderCmd, this`prerenderCmd, this`isRecording
      ensures rt.Fits(|renderedFences|, currentFrameIdx, frameTimestamp)
      ensures !isRecording && renderCmd == NULL_HANDLE && prerenderCmd == NULL_HANDLE
      ensures rt.fenceIdx == Advanced(old(rt.fenceIdx), old(|rt.fences|))
      ensures unchanged(rt`cmdBuffers, rt`preCmdBuffers, rt`fences, rt`cmdBufferIdx, rt`lastUsedFrame)
      ensures var fence := old(rt.fences[rt.fenceIdx]);
        var syncing := supportMemoryMapping && !disableSurfaceSync;
        && renderedFences == old(renderedFences)[currentFrameIdx := old(renderedFences[currentFrameIdx]) + [fence]]
        && requestQueue == old(requestQueue)
             + CompletionRequests(supportMemoryMapping, notif1, notif2, fence, if syncing then syncedSurface else NULL_HANDLE)
        && trace == old(trace) + SubmitEvents(syncing, old(prerenderCmd), old(renderCmd), fence)
      ensures if EmulatesMsaa(rt.multisampleMode, record.colorSurface.downscale)
        then rt.width == Halved(old(rt.width)) && rt.height == Halved(old(rt.height))
        else rt.width == old(rt.width) && rt.height == old(rt.height)
    {
      SubmitRecording(rt, notif1, notif2, syncedSurface);
      ReleaseRecording(rt);
    }

    /** `stop_recording`: closes the recording, submits it with the next fence
        of the ring, hands the completion to the fence-wait thread and undoes
        the multi-sample doubling of `set_context`. `syncedSurface` is what
        the surface cache's synchronisation reports (0 for none). Stopping
        while not recording is a no-op. */
    method StopRecording(notif1: Notification, notif2: Notification, syncedSurface: Handle)
      requires Valid()
      modifies this`isInQuery, this`inRenderpass, this`visibilityMaxUsedIdx, this`trace
      modifies this`renderedFences, this`requestQueue, this`renderCmd, this`prerenderCmd, this`isRecording
      modifies renderTarget
      ensures Valid()
      ensures !old(isRecording) ==> unchanged(this) && (renderTarget != null ==> unchanged(renderTarget))
      ensures old(isRecording) ==>
        var rt := renderTarget;
        var fence := old(rt.fences[rt.fenceIdx]);
        var syncing := supportMemoryMapping && !disableSurfaceSync;
        && (isRecording, inRenderpass, isInQuery, visibilityMaxUsedIdx, renderCmd, prerenderCmd)
           == (false, false, false, -1, NULL_HANDLE, NULL_HANDLE)
        && rt.fenceIdx == Advanced(old(rt.fenceIdx), old(|rt.fences|))
        && renderedFences == old(renderedFences)[currentFrameIdx := old(renderedFences[currentFrameIdx]) + [fence]]
        && requestQueue == old(requestQueue)
             + CompletionRequests(supportMemoryMapping, notif1, notif2, fence, if syncing then syncedSurface else NULL_HANDLE)
        && (if EmulatesMsaa(rt.multisampleMode, record.colorSurface.downscale)
            then rt.width == Halved(old(rt.width)) && rt.height == Halved(old(rt.height))
            else rt.width == old(rt.width) && rt.height == old(rt.height))
        && unchanged(rt`cmdBuffers, rt`preCmdBuffers, rt`fences, rt`cmdBufferIdx, rt`lastUsedFrame)
        && trace == old(trace) + CloseEvents(old(renderCmd), old(isInQuery), old(inRenderpass), old(visibilityMaxUsedIdx))
             + SubmitEvents(syncing, old(prerenderCmd), old(renderCmd), fence)
    {
      if !isRecording {
        return;
      }
      CloseCommands();
      FinishRecording(renderTarget, notif1, notif2, syncedSurface);
    }
  }
}
