/**
 * The image stage of the second renderer: surface properties, the
 * swapchain request, the depth-format choice, the depth image and its view,
 * and their release.
 */
module Images {
  import opened Vk
  import opened Common
  import opened Handles
  import opened Queues
  import opened CubeTypes
  import opened Heap
  import Scope
  import FailFast

  datatype CreateStep = SurfaceProperties | Swapchain | DepthFormat | DepthImage | DepthImageView

  const CreateOrder: seq<CreateStep> := [SurfaceProperties, Swapchain, DepthFormat, DepthImage, DepthImageView]

  /**
   * graphics_create_images: the five helpers in order, each asserted, so a
   * helper runs only when every earlier one succeeded.
   */
  function CreateImages(succeeds: CreateStep -> bool): (e: Scope.Exit)
    ensures e.result == CUBE_SUCCESS <==> forall i :: 0 <= i < |CreateOrder| ==> succeeds(CreateOrder[i])
    ensures forall k :: 0 <= k < |CreateOrder| ==>
              (k < e.executed <==> FailFast.SucceededBefore(CreateOrder, succeeds, k))
    ensures e.executed <= |CreateOrder|
    ensures e.result == CUBE_FAILURE ==> 0 < e.executed && !succeeds(CreateOrder[e.executed - 1])
    ensures e.freed == [FreeArray]
  {
    Scope.RunAsserts(CreateOrder, succeeds)
  }

  datatype Destroyed = DestroyDepthImageView | DestroyDepthImage | DestroySwapchain

  function DestroyRank(kind: Destroyed): int
  {
    match kind
    case DestroyDepthImageView => 0
    case DestroyDepthImage => 1
    case DestroySwapchain => 2
  }

  /**
   * graphics_destroy_images: the depth view, then the depth image, then the
   * swapchain, each destroyed only when its handle is not null.
   */
  function DestroyImages(g: CubeGraphics): (calls: seq<Release<Destroyed>>)
    reads g
    ensures forall c :: c in calls ==> c.handle != Null
    ensures Release(DestroyDepthImageView, g.depthImageView) in calls <==> g.depthImageView != Null
    ensures Release(DestroyDepthImage, g.depthImage) in calls <==> g.depthImage != Null
    ensures Release(DestroySwapchain, g.swapchain) in calls <==> g.swapchain != Null
    ensures Ordered(calls, DestroyRank)
  {
    var slots := [Release(DestroyDepthImageView, g.depthImageView),
                  Release(DestroyDepthImage, g.depthImage),
                  Release(DestroySwapchain, g.swapchain)];
    SkipNullKeepsOrder(slots, DestroyRank);
    SkipNull(slots)
  }

  /**
   * The swapchain's minImageCount as the source computes it:
   * CLAMP(2, minImageCount, maxImageCount). A maxImageCount of 0 means the
   * surface sets no upper limit, yet the clamp then treats 0 as the upper
   * bound: the request is the surface minimum when that exceeds 2, and 0
   * otherwise.
   */
  function MinImageCountAsWritten(caps: SurfaceCapabilities): (n: nat)
    ensures caps.minImageCount <= caps.maxImageCount ==>
              caps.minImageCount <= n <= caps.maxImageCount
    ensures caps.minImageCount <= 2 <= caps.maxImageCount ==> n == 2
    ensures caps.minImageCount > caps.maxImageCount ==>
              n == (if caps.minImageCount > 2 then caps.minImageCount else caps.maxImageCount)
    ensures caps.maxImageCount == 0 ==>
              n == (if caps.minImageCount > 2 then caps.minImageCount else 0)
  {
    Clamp(2, caps.minImageCount, caps.maxImageCount)
  }

  /**
   * On an unbounded surface whose minimum is at most 2 (every surface has a
   * minimum of at least 1) the source requests 0 images, fewer than the
   * surface minimum that vkCreateSwapchainKHR demands.
   */
  lemma AsWrittenBelowMinimum(caps: SurfaceCapabilities)
    requires caps.maxImageCount == 0 && 1 <= caps.minImageCount <= 2
    ensures MinImageCountAsWritten(caps) == 0 < caps.minImageCount
  {
  }

  /** A concrete surface: minimum 2, no maximum. The source asks for 0 images. */
  lemma AsWrittenUnboundedSurface()
    ensures MinImageCountAsWritten(SurfaceCapabilities(2, 0, Extent2D(1, 1), Extent2D(4096, 4096))) == 0
  {
  }

  /**
   * The evidently intended request: two images (double buffering), raised
   * to the surface minimum and lowered to the surface maximum when there is
   * one.
   */
  function MinImageCount(caps: SurfaceCapabilities): (n: nat)
    ensures caps.maxImageCount == 0 || caps.minImageCount <= caps.maxImageCount ==>
              caps.minImageCount <= n
    ensures caps.maxImageCount != 0 && caps.minImageCount <= caps.maxImageCount ==>
              n <= caps.maxImageCount
    ensures caps.minImageCount <= 2 && (caps.maxImageCount == 0 || 2 <= caps.maxImageCount) ==> n == 2
    ensures caps.maxImageCount != 0 ==> n == MinImageCountAsWritten(caps)
  {
    if caps.maxImageCount == 0 then
      (if caps.minImageCount > 2 then caps.minImageCount else 2)
    else
      Clamp(2, caps.minImageCount, caps.maxImageCount)
  }

  /** The fields of VkSwapchainCreateInfoKHR that the model follows. */
  datatype SwapchainInfo = SwapchainInfo(
    minImageCount: nat,
    imageFormat: Format,
    imageColorSpace: nat,
    imageExtent: Extent2D,
    sharing: Sharing)

  /**
   * The swapchain request of graphics_create_swapchain: the image count as
   * the source computes it, the chosen surface format, the clamped display
   * size, and exclusive ownership unless the graphics and present families
   * differ.
   */
  function SwapchainInfoFor(
    caps: SurfaceCapabilities, surfaceFormat: SurfaceFormat, displaySize: Extent2D,
    graphicsFamily: nat, presentFamily: nat): (info: SwapchainInfo)
    ensures caps.minImageCount <= caps.maxImageCount ==>
              caps.minImageCount <= info.minImageCount <= caps.maxImageCount
    ensures caps.minImageCount <= 2 <= caps.maxImageCount ==> info.minImageCount == 2
    ensures caps.maxImageCount == 0 ==>
              info.minImageCount == (if caps.minImageCount > 2 then caps.minImageCount else 0)
    ensures info.imageFormat == surfaceFormat.format && info.imageColorSpace == surfaceFormat.colorSpace
    ensures info.imageExtent == displaySize
    ensures info.sharing.mode == Concurrent <==> graphicsFamily != presentFamily
    ensures info.sharing.mode == Concurrent ==>
              info.sharing.queueFamilyIndices == [graphicsFamily as int, presentFamily as int]
    ensures info.sharing.mode == Exclusive ==> info.sharing.queueFamilyIndices == []
  {
    SwapchainInfo(
      MinImageCountAsWritten(caps),
      surfaceFormat.format,
      surfaceFormat.colorSpace,
      displaySize,
      SwapchainSharing(graphicsFamily, presentFamily))
  }

  /**
   * The request with the evidently intended image count: everything else as
   * the source builds it, and never fewer images than the surface minimum
   * when the limits are consistent or the surface has no maximum.
   */
  function SwapchainInfoCorrected(
    caps: SurfaceCapabilities, surfaceFormat: SurfaceFormat, displaySize: Extent2D,
    graphicsFamily: nat, presentFamily: nat): (info: SwapchainInfo)
    ensures caps.maxImageCount == 0 || caps.minImageCount <= caps.maxImageCount ==>
              caps.minImageCount <= info.minImageCount
    ensures caps.maxImageCount != 0 && caps.minImageCount <= caps.maxImageCount ==>
              info.minImageCount <= caps.maxImageCount
    ensures info.(minImageCount := 0) ==
              SwapchainInfoFor(caps, surfaceFormat, displaySize, graphicsFamily, presentFamily).(minImageCount := 0)
    ensures caps.maxImageCount != 0 ==>
              info == SwapchainInfoFor(caps, surfaceFormat, displaySize, graphicsFamily, presentFamily)
  {
    SwapchainInfo(
      MinImageCount(caps),
      surfaceFormat.format,
      surfaceFormat.colorSpace,
      displaySize,
      SwapchainSharing(graphicsFamily, presentFamily))
  }

  /**
   * graphics_create_swapchain: one create call with the request built from
   * the graphics record; the swapchain handle it writes is stored.
   */
  method CreateSwapchain(g: CubeGraphics, reply: Reply) returns (result: int, info: SwapchainInfo)
    modifies g`swapchain
    ensures info == SwapchainInfoFor(g.surfaceCapabilities, g.surfaceFormat, g.displaySize,
                                     g.graphicsFamily, g.presentFamily)
    ensures g.swapchain == reply.handle
    ensures result == CUBE_SUCCESS <==> Succeeded(reply)
    ensures result == CUBE_SUCCESS || result == CUBE_FAILURE
  {
    info := SwapchainInfoFor(g.surfaceCapabilities, g.surfaceFormat, g.displaySize,
                             g.graphicsFamily, g.presentFamily);
    g.swapchain := reply.handle;
    result := if Succeeded(reply) then CUBE_SUCCESS else CUBE_FAILURE;
  }

  /** The depth formats graphics_create_depth_format tries, in order of preference. */
  const DepthCandidates: seq<Format> := [FORMAT_D32_SFLOAT, FORMAT_D32_SFLOAT_S8_UINT, FORMAT_D24_UNORM_S8_UINT]

  predicate HasStencil(format: Format)
  {
    format == FORMAT_D32_SFLOAT_S8_UINT || format == FORMAT_D24_UNORM_S8_UINT
  }

  /**
   * graphics_create_depth_format. The depth format starts undefined and the
   * loop queries the next candidate (`optimalFeatures(f)` is the
   * optimal-tiling feature mask the query reports) only while no format has
   * been taken. The result is the first candidate usable as a depth/stencil
   * attachment, and the function fails when there is none; stencil support
   * is recorded, after that check, for the two formats with a stencil
   * aspect.
   */
  method CreateDepthFormat(g: CubeGraphics, optimalFeatures: Format -> bv32) returns (result: int)
    modifies g`depthFormat, g`depthStencilSupport
    ensures var k := FirstAttachable(DepthCandidates, optimalFeatures);
            g.depthFormat == (if k < |DepthCandidates| then DepthCandidates[k] else FORMAT_UNDEFINED)
    ensures result == CUBE_SUCCESS <==> FirstAttachable(DepthCandidates, optimalFeatures) < |DepthCandidates|
    ensures result == CUBE_SUCCESS || result == CUBE_FAILURE
    ensures g.depthStencilSupport <==> result == CUBE_SUCCESS && HasStencil(g.depthFormat)
  {
    g.depthFormat := FORMAT_UNDEFINED;
    g.depthStencilSupport := false;
    var index := 0;
    while index < |DepthCandidates|
      invariant 0 <= index <= |DepthCandidates|
      invariant var k := FirstAttachable(DepthCandidates, optimalFeatures);
                if k < index then g.depthFormat == DepthCandidates[k] else g.depthFormat == FORMAT_UNDEFINED
      invariant !g.depthStencilSupport
    {
      if g.depthFormat == FORMAT_UNDEFINED {
        var features := optimalFeatures(DepthCandidates[index]);
        if features & FORMAT_FEATURE_DEPTH_STENCIL_ATTACHMENT_BIT == FORMAT_FEATURE_DEPTH_STENCIL_ATTACHMENT_BIT {
          g.depthFormat := DepthCandidates[index];
        }
      }
      index := index + 1;
    }
    if g.depthFormat == FORMAT_UNDEFINED {
      return CUBE_FAILURE;
    }
    if g.depthFormat == FORMAT_D32_SFLOAT_S8_UINT || g.depthFormat == FORMAT_D24_UNORM_S8_UINT {
      g.depthStencilSupport := true;
    }
    return CUBE_SUCCESS;
  }

  /** The fields of the depth image's VkImageCreateInfo that the model follows. */
  datatype DepthImageInfo = DepthImageInfo(format: Format, extent: Extent2D, sharing: SharingMode)

  /**
   * graphics_create_depth_image: one image of the depth format, as large as
   * the display, used by a single queue family.
   */
  method CreateDepthImage(g: CubeGraphics, reply: Reply) returns (result: int, info: DepthImageInfo)
    modifies g`depthImage
    ensures info == DepthImageInfo(g.depthFormat, g.displaySize, Exclusive)
    ensures g.depthImage == reply.handle
    ensures result == CUBE_SUCCESS <==> Succeeded(reply)
  {
    info := DepthImageInfo(g.depthFormat, g.displaySize, Exclusive);
    g.depthImage := reply.handle;
    result := if Succeeded(reply) then CUBE_SUCCESS else CUBE_FAILURE;
  }

  /** graphics_create_depth_image_view: a view of the depth image in the depth format. */
  method CreateDepthImageView(g: CubeGraphics, reply: Reply) returns (result: int, image: Handle, format: Format)
    modifies g`depthImageView
    ensures image == g.depthImage && format == g.depthFormat
    ensures g.depthImageView == reply.handle
    ensures result == CUBE_SUCCESS <==> Succeeded(reply)
  {
    image := g.depthImage;
    format := g.depthFormat;
    g.depthImageView := reply.handle;
    result := if Succeeded(reply) then CUBE_SUCCESS else CUBE_FAILURE;
  }
}
