/** The value-level decisions `set_context` takes before it binds a scene:
    which colour format and flags the pipeline cache is asked for, which
    surfaces the framebuffer cache is given, and the multi-sample emulation
    that doubles the render target's extent for one scene. */
module SceneSetup {
  import opened VulkanTypes

  /** The Vulkan formats this file names; every other one is opaque. */
  datatype VkFormat = R8G8B8A8Unorm | R8G8B8A8Srgb | OtherFormat(code: nat)

  /** SceGxmColorBaseFormat: only U8U8U8U8 is named by this file. */
  datatype ColorBaseFormat = U8U8U8U8 | OtherBaseFormat(code: nat)

  /** The parts of SceGxmColorSurface that `set_context` reads. The base
      format is carried already decoded from the surface's colour format. */
  datatype ColorSurface = ColorSurface(
    address: Address,
    baseFormat: ColorBaseFormat,
    gamma: nat,
    downscale: bool)

  /** The parts of SceGxmDepthStencilSurface that `set_context` reads. */
  datatype DepthStencilSurface = DepthStencilSurface(
    depthAddress: Address,
    stencilAddress: Address,
    zlsControl: nat)

  /** What `set_context` derives from the colour surface: the format handed to
      the render-pass lookup, the record fields it rewrites, and the surface
      handed to the framebuffer lookup (None for nullptr). */
  datatype ColorSetup = ColorSetup(
    format: VkFormat,
    baseFormat: ColorBaseFormat,
    gammaCorrected: bool,
    maskUpdate: bool,
    downscale: bool,
    surface: Option<ColorSurface>)

  /** The defaults used when there is no colour surface. */
  const DEFAULT_COLOR_SETUP := ColorSetup(R8G8B8A8Unorm, U8U8U8U8, false, false, false, None)

  /** Format and flag selection for the colour surface. `translate` stands for
      color::translate_format; `maskUpdate` is the record's current flag. */
  function ChooseColorSetup(surface: ColorSurface, maskUpdate: bool, translate: ColorBaseFormat -> VkFormat): (r: ColorSetup)
    ensures r.surface == None <==> surface.address == 0
    ensures surface.address == 0 ==> r == DEFAULT_COLOR_SETUP
    ensures surface.address != 0 ==>
      && r.surface == Some(surface)
      && r.baseFormat == surface.baseFormat
      && r.gammaCorrected == (surface.gamma != 0)
      && r.maskUpdate == maskUpdate
      && r.downscale == surface.downscale
    // gamma output over 8-bit unorm is encoded as sRGB ...
    ensures surface.address != 0 && surface.gamma != 0 && translate(surface.baseFormat) == R8G8B8A8Unorm ==>
      r.format == R8G8B8A8Srgb
    // ... and that is the only way the translated format is ever replaced
    ensures surface.address != 0 && r.format != translate(surface.baseFormat) ==>
      surface.gamma != 0 && translate(surface.baseFormat) == R8G8B8A8Unorm && r.format == R8G8B8A8Srgb
  {
    var translated := translate(surface.baseFormat);
    var format := if surface.gamma != 0 && translated == R8G8B8A8Unorm then R8G8B8A8Srgb else translated;
    if surface.address == 0 then
      DEFAULT_COLOR_SETUP
    else
      ColorSetup(format, surface.baseFormat, surface.gamma != 0, maskUpdate, surface.downscale, Some(surface))
  }

  /** The depth/stencil surface handed to the framebuffer lookup: absent
      exactly when neither the depth nor the stencil data has an address. */
  function DepthStencilTarget(ds: DepthStencilSurface): (r: Option<DepthStencilSurface>)
    ensures r == None <==> ds.depthAddress == 0 && ds.stencilAddress == 0
    ensures r != None ==> r == Some(ds)
  {
    if ds.depthAddress == 0 && ds.stencilAddress == 0 then None else Some(ds)
  }

  /** Multi-sampling without a downscale pass is emulated by rendering at
      twice the width and height for the duration of one scene. */
  predicate EmulatesMsaa(multisampleMode: bool, downscale: bool)
  {
    multisampleMode && !downscale
  }

  /** The extent `stop_recording` restores (`/= 2`). */
  function Halved(x: nat): (h: nat)
    ensures 2 * h <= x < 2 * h + 2
  {
    x / 2
  }

  /** The extent `set_context` renders at (`*= 2`); `stop_recording` undoes it. */
  function Doubled(x: nat): (r: nat)
    ensures Halved(r) == x
    ensures r >= x
  {
    x * 2
  }
}
