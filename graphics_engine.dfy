/**
 * The selection rules of Graphics::create_swapchain and Graphics::pick_queue_family. What the
 * physical device reports for the surface (formats, present modes, capabilities) is passed in;
 * the swapchain create info is returned and the members the code assigns are fields of Graphics.
 */
module GraphicsEngine {
  import opened VulkanHelper

  /** vk::Format and vk::ColorSpaceKHR, by their enumerator values. */
  type Format = nat
  type ColorSpace = nat

  const FormatUndefined: Format := 0
  const FormatB8G8R8A8Unorm: Format := 44
  const ColorSpaceSrgbNonlinear: ColorSpace := 0

  /** vk::SurfaceFormatKHR. */
  datatype SurfaceFormat = SurfaceFormat(format: Format, colorSpace: ColorSpace)

  /** The pair create_swapchain prefers: B8G8R8A8 UNORM in the sRGB non-linear colour space. */
  const PreferredFormat := SurfaceFormat(FormatB8G8R8A8Unorm, ColorSpaceSrgbNonlinear)

  /** The test of the `any_of` in create_swapchain, as written: the entry is Undefined in sRGB non-linear. */
  predicate MatchesAsWritten(f: SurfaceFormat) {
    f.format == FormatUndefined && f.colorSpace == ColorSpaceSrgbNonlinear
  }

  /** The format choice of create_swapchain as written. A lone Undefined entry means "no preference" and
    * gets the preferred pair; so does a list holding (Undefined, sRGB non-linear); otherwise the first
    * entry is taken, which needs a non-empty list. */
  function ChooseSurfaceFormat(formats: seq<SurfaceFormat>): (r: SurfaceFormat)
    requires formats != []
    ensures |formats| == 1 && formats[0].format == FormatUndefined ==> r == PreferredFormat
    ensures (exists k | 0 <= k < |formats| :: MatchesAsWritten(formats[k])) ==> r == PreferredFormat
    ensures (!(|formats| == 1 && formats[0].format == FormatUndefined)
             && !(exists k | 0 <= k < |formats| :: MatchesAsWritten(formats[k]))) ==> r == formats[0]
  {
    if |formats| == 1 && formats[0].format == FormatUndefined then PreferredFormat
    else if exists k | 0 <= k < |formats| :: MatchesAsWritten(formats[k]) then PreferredFormat
    else formats[0]
  }

  /** The test the `any_of` evidently means: the entry is the preferred pair itself. */
  predicate MatchesIntended(f: SurfaceFormat) {
    f == PreferredFormat
  }

  /** The format choice with the intended test: the preferred pair whenever the surface offers it or has
    * no preference, else the first entry. */
  function ChooseSurfaceFormatIntended(formats: seq<SurfaceFormat>): (r: SurfaceFormat)
    requires formats != []
    ensures PreferredFormat in formats ==> r == PreferredFormat
    ensures |formats| == 1 && formats[0].format == FormatUndefined ==> r == PreferredFormat
    ensures !(|formats| == 1 && formats[0].format == FormatUndefined) && PreferredFormat !in formats ==>
              r == formats[0]
  {
    if |formats| == 1 && formats[0].format == FormatUndefined then PreferredFormat
    else if exists k | 0 <= k < |formats| :: MatchesIntended(formats[k]) then PreferredFormat
    else formats[0]
  }

  /** Whenever the surface states a real format, the intended choice is one the surface offers. */
  lemma IntendedFormatIsOffered(formats: seq<SurfaceFormat>)
    requires formats != []
    requires forall k | 0 <= k < |formats| :: formats[k].format != FormatUndefined
    ensures ChooseSurfaceFormatIntended(formats) in formats
  {
  }

  /** A surface that offers R8G8B8A8 UNORM first and the preferred pair second: as written the first entry
    * is taken, although the preferred pair is offered. */
  lemma PreferredFormatMissedAsWritten()
    ensures var formats := [SurfaceFormat(37, ColorSpaceSrgbNonlinear), PreferredFormat];
            && ChooseSurfaceFormat(formats) == SurfaceFormat(37, ColorSpaceSrgbNonlinear)
            && ChooseSurfaceFormatIntended(formats) == PreferredFormat
  {
    var formats := [SurfaceFormat(37, ColorSpaceSrgbNonlinear), PreferredFormat];
    assert !MatchesAsWritten(formats[0]) && !MatchesAsWritten(formats[1]);
    assert MatchesIntended(formats[1]);
  }

  /** vk::PresentModeKHR. */
  datatype PresentMode = Immediate | Mailbox | Fifo | FifoRelaxed

  /** The present mode of create_swapchain: Mailbox if offered, else Immediate if offered, else Fifo. */
  function ChoosePresentMode(modes: seq<PresentMode>): (r: PresentMode)
    ensures r == Mailbox <==> Mailbox in modes
    ensures r == Immediate <==> Mailbox !in modes && Immediate in modes
    ensures r == Fifo <==> Mailbox !in modes && Immediate !in modes
  {
    if Mailbox in modes then Mailbox
    else if Immediate in modes then Immediate
    else Fifo
  }

  /** How much create_swapchain prefers a present mode. */
  function Preference(m: PresentMode): nat {
    match m
    case Mailbox => 2
    case Immediate => 1
    case _ => 0
  }

  /** The chosen mode is the most preferred one offered, and it is offered unless it is Fifo (which every
    * Vulkan surface supports). */
  lemma PresentModeIsMostPreferred(modes: seq<PresentMode>)
    ensures forall m | m in modes :: Preference(m) <= Preference(ChoosePresentMode(modes))
    ensures ChoosePresentMode(modes) in modes || ChoosePresentMode(modes) == Fifo
  {
  }

  function Min(a: U32, b: U32): U32 { if a <= b then a else b }
  function Max(a: U32, b: U32): U32 { if a >= b then a else b }

  /** One dimension of the swapchain extent, `max(minExtent, min(maxExtent, requested))`: never below the
    * minimum, within [minimum, maximum] when that range is not empty, a request already in range kept, and
    * always one of the three inputs. */
  function ClampDimension(minimum: U32, maximum: U32, requested: U32): (r: U32)
    ensures r >= minimum
    ensures minimum <= maximum ==> r <= maximum
    ensures minimum <= requested <= maximum ==> r == requested
    ensures r in {minimum, maximum, requested}
  {
    Max(minimum, Min(maximum, requested))
  }

  /** Clamping again with the same capabilities changes nothing, so calling create_swapchain a second time
    * keeps the dimensions the first call chose. */
  lemma ClampDimensionIdempotent(minimum: U32, maximum: U32, requested: U32)
    requires minimum <= maximum
    ensures ClampDimension(minimum, maximum, ClampDimension(minimum, maximum, requested))
            == ClampDimension(minimum, maximum, requested)
  {
  }

  /** A larger request never gives a smaller dimension. */
  lemma ClampDimensionMonotone(minimum: U32, maximum: U32, a: U32, b: U32)
    requires a <= b
    ensures ClampDimension(minimum, maximum, a) <= ClampDimension(minimum, maximum, b)
  {
  }

  /** The part of vk::SurfaceCapabilitiesKHR that create_swapchain reads. */
  datatype SurfaceCapabilities = SurfaceCapabilities(
    minImageCount: U32, maxImageCount: U32, minImageExtent: Extent2D, maxImageExtent: Extent2D,
    currentTransform: bv32)

  /** `capabilities.minImageCount + 1` in uint32_t arithmetic. */
  function NextImageCount(minImageCount: U32): U32 {
    (minImageCount + 1) % (U32Max + 1)
  }

  /** The minimum image count of the swapchain: one more than the surface's minimum, capped by its maximum
    * when it has one (a maximum of 0 means none). It never exceeds a stated maximum; without a maximum, or
    * with a maximum above the minimum, it is the minimum plus one; and it is at least the minimum unless the
    * uint32_t addition wraps, which happens only for a minimum of 2^32 - 1. */
  function MinImageCount(caps: SurfaceCapabilities): (r: U32)
    ensures caps.maxImageCount > 0 ==> r <= caps.maxImageCount
    ensures caps.maxImageCount == 0 && caps.minImageCount < U32Max ==> r == caps.minImageCount + 1
    ensures caps.minImageCount < caps.maxImageCount ==> r == caps.minImageCount + 1
    ensures caps.minImageCount < U32Max && caps.minImageCount <= caps.maxImageCount ==> r >= caps.minImageCount
    ensures caps.minImageCount == U32Max ==> r == 0
  {
    if caps.maxImageCount > 0 then Min(caps.maxImageCount, NextImageCount(caps.minImageCount))
    else NextImageCount(caps.minImageCount)
  }

  /** vk::ImageUsageFlagBits::eColorAttachment and vk::CompositeAlphaFlagBitsKHR::eOpaque. */
  const ImageUsageColorAttachment: bv32 := 0x10
  const CompositeAlphaOpaque: bv32 := 0x1

  /** The fields of vk::SwapchainCreateInfoKHR that create_swapchain sets. */
  datatype SwapchainCreateInfo = SwapchainCreateInfo(
    imageFormat: Format, imageColorSpace: ColorSpace, presentMode: PresentMode, imageExtent: Extent2D,
    minImageCount: U32, imageArrayLayers: nat, imageUsage: bv32, preTransform: bv32, compositeAlpha: bv32,
    clipped: bool)

  /** The vk::QueueFlagBits the Graphics constructor asks pick_queue_family for: graphics | compute. */
  const DefaultQueueRequest: QueueFlags := 0x3

  /** Graphics::pick_queue_family as called by the Graphics constructor: the family chosen is the first one
    * that supports graphics or compute work, and the assertion fails exactly when no family does. */
  lemma DefaultQueueFamilyDoesGraphicsOrCompute(families: seq<QueueFlags>)
    ensures PickQueueFamily(families, DefaultQueueRequest).Ok? ==>
              var i := PickQueueFamily(families, DefaultQueueRequest).value;
              && (families[i] & QueueGraphics != 0 || families[i] & QueueCompute != 0)
              && forall j | 0 <= j < i :: families[j] & QueueGraphics == 0 && families[j] & QueueCompute == 0
    ensures PickQueueFamily(families, DefaultQueueRequest).Err? <==>
              forall j | 0 <= j < |families| :: families[j] & QueueGraphics == 0 && families[j] & QueueCompute == 0
  {
    forall f: QueueFlags
      ensures Intersects(f, DefaultQueueRequest) <==> f & QueueGraphics != 0 || f & QueueCompute != 0
    {
      GraphicsOrCompute(f);
    }
  }

  lemma GraphicsOrCompute(f: QueueFlags)
    ensures f & 0x3 != 0 <==> f & 0x1 != 0 || f & 0x2 != 0
  {
  }

  /** The state of Graphics that create_swapchain reads and assigns: the window dimensions (the members
    * `width` and `height` of graphics_engine.cpp) and the chosen image format. */
  class Graphics {
    var width: U32
    var height: U32
    var swapChainImageFormat: Format

    constructor (width: U32, height: U32)
      ensures this.width == width && this.height == height && swapChainImageFormat == FormatUndefined
    {
      this.width := width;
      this.height := height;
      swapChainImageFormat := FormatUndefined;
    }

    /** Graphics::create_swapchain up to vk::Device::createSwapchainKHR: picks the format, the present mode,
      * the extent (clamping and storing the window dimensions) and the image count, and records the format. */
    method CreateSwapchain(formats: seq<SurfaceFormat>, modes: seq<PresentMode>, caps: SurfaceCapabilities)
      returns (info: SwapchainCreateInfo)
      requires formats != []
      modifies this
      ensures var chosen := ChooseSurfaceFormat(formats);
              info.imageFormat == chosen.format && info.imageColorSpace == chosen.colorSpace
      ensures swapChainImageFormat == info.imageFormat
      ensures info.presentMode == ChoosePresentMode(modes)
      ensures width == ClampDimension(caps.minImageExtent.width, caps.maxImageExtent.width, old(width))
      ensures height == ClampDimension(caps.minImageExtent.height, caps.maxImageExtent.height, old(height))
      ensures info.imageExtent == Extent2D(width, height)
      ensures info.minImageCount == MinImageCount(caps)
      ensures info.imageArrayLayers == 1 && info.imageUsage == ImageUsageColorAttachment
      ensures info.preTransform == caps.currentTransform && info.compositeAlpha == CompositeAlphaOpaque
      ensures info.clipped
    {
      info := SwapchainCreateInfo(FormatUndefined, ColorSpaceSrgbNonlinear, Fifo, Extent2D(0, 0), 0, 0, 0, 0, 0, false);

      // format
      if |formats| == 1 && formats[0].format == FormatUndefined {
        info := info.(imageFormat := FormatB8G8R8A8Unorm, imageColorSpace := ColorSpaceSrgbNonlinear);
      } else if exists k | 0 <= k < |formats| :: MatchesAsWritten(formats[k]) {
        info := info.(imageFormat := FormatB8G8R8A8Unorm, imageColorSpace := ColorSpaceSrgbNonlinear);
      } else {
        info := info.(imageFormat := formats[0].format, imageColorSpace := formats[0].colorSpace);
      }
      swapChainImageFormat := info.imageFormat;

      // present mode
      if Mailbox in modes {
        info := info.(presentMode := Mailbox);
      } else if Immediate in modes {
        info := info.(presentMode := Immediate);
      } else {
        info := info.(presentMode := Fifo);
      }

      // dimensions
      width := Max(caps.minImageExtent.width, Min(caps.maxImageExtent.width, width));
      height := Max(caps.minImageExtent.height, Min(caps.maxImageExtent.height, height));
      info := info.(imageExtent := Extent2D(width, height));

      var next := NextImageCount(caps.minImageCount);
      info := info.(minImageCount := if caps.maxImageCount > 0 then Min(caps.maxImageCount, next) else next);
      info := info.(imageArrayLayers := 1, imageUsage := ImageUsageColorAttachment);
      info := info.(preTransform := caps.currentTransform, compositeAlpha := CompositeAlphaOpaque, clipped := true);
    }
  }
}
