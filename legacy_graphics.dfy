/**
 * The first Vulkan renderer (a single graphics object built by one long
 * chain of helpers): its create and render sequences, the physical-device
 * queue-family scan, the logical device's queue requests, the swapchain
 * request, the per-image handle arrays, and the depth-format and
 * memory-type scans of the depth buffer.
 */
module LegacyGraphics {
  import opened Maybe
  import opened Vk
  import opened Common
  import opened Handles
  import opened Queues
  import FailFast

  datatype CreateStep =
    | CheckHandle | Allocate
    | Window | Instance | Surface | PhysicalDevice | LogicalDevice | SwapChain
    | ImageViews | DepthStencil | RenderPass | Framebuffers | CommandPool
    | CommandBuffers | Semaphores | Fences

  /** The NULL-handle check, the allocation, then the fourteen helpers in call order. */
  const CreateOrder: seq<CreateStep> :=
    [CheckHandle, Allocate, Window, Instance, Surface, PhysicalDevice, LogicalDevice,
     SwapChain, ImageViews, DepthStencil, RenderPass, Framebuffers, CommandPool,
     CommandBuffers, Semaphores, Fences]

  /**
   * graphics_create: each helper runs only when everything before it
   * succeeded, and the status is success only when all of them do.
   */
  function Create(succeeds: CreateStep -> bool): (r: FailFast.Run<CreateStep>)
    ensures r.ok <==> forall i :: 0 <= i < |CreateOrder| ==> succeeds(CreateOrder[i])
    ensures r.attempted <= CreateOrder
    ensures forall k :: 0 <= k < |CreateOrder| ==>
              (k < |r.attempted| <==> FailFast.SucceededBefore(CreateOrder, succeeds, k))
  {
    FailFast.RunSteps(CreateOrder, succeeds)
  }

  datatype RenderStep =
    | AcquireImage | ResetCommands | BeginCommands | BeginPass
    | EndPass | EndCommands | QueueSubmit | QueuePresent

  const RenderOrder: seq<RenderStep> :=
    [AcquireImage, ResetCommands, BeginCommands, BeginPass, EndPass, EndCommands, QueueSubmit, QueuePresent]

  /** graphics_render: the eight per-frame steps, fail-fast, in order. */
  function Render(succeeds: RenderStep -> bool): (r: FailFast.Run<RenderStep>)
    ensures r.ok <==> forall i :: 0 <= i < |RenderOrder| ==> succeeds(RenderOrder[i])
    ensures r.attempted <= RenderOrder
    ensures forall k :: 0 <= k < |RenderOrder| ==>
              (k < |r.attempted| <==> FailFast.SucceededBefore(RenderOrder, succeeds, k))
  {
    FailFast.RunSteps(RenderOrder, succeeds)
  }

  /** A family that can take graphics work: it has queues and the graphics bit. */
  predicate GraphicsCapable(family: QueueFamily)
  {
    family.queueCount > 0 && HasGraphicsBit(family)
  }

  /**
   * The queue-family scan of graphics_create_physical_device. Both indices
   * start at -1 and each takes the first family that qualifies. The
   * present-support query (`supportAfterQuery(i)` is the VkBool32 it leaves
   * set for family i; its VkResult is not looked at) is made only while no
   * present family has been found, and a family also needs queues to
   * qualify. The scan fails when either index is still -1.
   */
  method FindQueueFamilies(families: seq<QueueFamily>, supportAfterQuery: nat -> bool)
    returns (graphicsIndex: int, presentIndex: int, queries: nat, status: int)
    ensures -1 <= graphicsIndex < |families| && -1 <= presentIndex < |families|
    ensures graphicsIndex >= 0 ==>
              GraphicsCapable(families[graphicsIndex]) &&
              forall j :: 0 <= j < graphicsIndex ==> !GraphicsCapable(families[j])
    ensures graphicsIndex == -1 ==> forall j :: 0 <= j < |families| ==> !GraphicsCapable(families[j])
    ensures presentIndex >= 0 ==>
              families[presentIndex].queueCount > 0 && supportAfterQuery(presentIndex) &&
              forall j :: 0 <= j < presentIndex ==> !(families[j].queueCount > 0 && supportAfterQuery(j))
    ensures presentIndex == -1 ==>
              forall j :: 0 <= j < |families| ==> !(families[j].queueCount > 0 && supportAfterQuery(j))
    ensures queries == (if presentIndex >= 0 then presentIndex + 1 else |families|)
    ensures status == CUBE_SUCCESS <==> graphicsIndex >= 0 && presentIndex >= 0
    ensures status == CUBE_SUCCESS || status == CUBE_FAILURE
  {
    graphicsIndex := -1;
    presentIndex := -1;
    queries := 0;
    var index := 0;
    while index < |families|
      invariant 0 <= index <= |families|
      invariant -1 <= graphicsIndex < index && -1 <= presentIndex < index
      invariant graphicsIndex >= 0 ==>
                  GraphicsCapable(families[graphicsIndex]) &&
                  forall j :: 0 <= j < graphicsIndex ==> !GraphicsCapable(families[j])
      invariant graphicsIndex == -1 ==> forall j :: 0 <= j < index ==> !GraphicsCapable(families[j])
      invariant presentIndex >= 0 ==>
                  families[presentIndex].queueCount > 0 && supportAfterQuery(presentIndex) &&
                  forall j :: 0 <= j < presentIndex ==> !(families[j].queueCount > 0 && supportAfterQuery(j))
      invariant presentIndex == -1 ==>
                  forall j :: 0 <= j < index ==> !(families[j].queueCount > 0 && supportAfterQuery(j))
      invariant queries == (if presentIndex >= 0 then presentIndex + 1 else index)
    {
      var family := families[index];
      if graphicsIndex == -1 {
        if GraphicsCapable(family) {
          graphicsIndex := index;
        }
      }
      if presentIndex == -1 {
        var support := supportAfterQuery(index);
        queries := queries + 1;
        if family.queueCount > 0 && support {
          presentIndex := index;
        }
      }
      index := index + 1;
    }
    if graphicsIndex == -1 || presentIndex == -1 {
      status := CUBE_FAILURE;
    } else {
      status := CUBE_SUCCESS;
    }
  }

  /** The fields of the swapchain request that the model follows. */
  datatype SwapchainRequest = SwapchainRequest(
    surfaceFormat: SurfaceFormat,
    minImageCount: nat,
    imageExtent: Extent2D,
    sharing: Sharing)

  /**
   * The choices of graphics_create_swap_chain once its queries succeeded:
   * the first reported surface format must be B8G8R8A8_UNORM; the drawable
   * size (an int converted to uint32_t) is clamped into the surface's
   * extent limits; the surface's own minimum image count is requested; the
   * sharing mode follows the queue families.
   */
  function SwapchainRequestFor(
    formats: seq<SurfaceFormat>, caps: SurfaceCapabilities,
    drawableWidth: int, drawableHeight: int,
    graphicsFamily: int, presentFamily: int): (r: Option<SwapchainRequest>)
    ensures r.Some? <==> 0 < |formats| && formats[0].format == FORMAT_B8G8R8A8_UNORM
    ensures r.Some? ==> r.value.surfaceFormat == formats[0]
    ensures r.Some? ==> r.value.minImageCount == caps.minImageCount
    ensures r.Some? && caps.minImageExtent.width <= caps.maxImageExtent.width ==>
              caps.minImageExtent.width <= r.value.imageExtent.width <= caps.maxImageExtent.width
    ensures r.Some? && caps.minImageExtent.height <= caps.maxImageExtent.height ==>
              caps.minImageExtent.height <= r.value.imageExtent.height <= caps.maxImageExtent.height
    ensures r.Some? && caps.minImageExtent.width <= drawableWidth <= caps.maxImageExtent.width < UINT32_LIMIT ==>
              r.value.imageExtent.width == drawableWidth
    ensures r.Some? && caps.minImageExtent.height <= drawableHeight <= caps.maxImageExtent.height < UINT32_LIMIT ==>
              r.value.imageExtent.height == drawableHeight
    ensures r.Some? && caps.minImageExtent.width <= ToUint32(drawableWidth) <= caps.maxImageExtent.width ==>
              r.value.imageExtent.width == ToUint32(drawableWidth)
    ensures r.Some? && ToUint32(drawableWidth) < caps.minImageExtent.width ==>
              r.value.imageExtent.width == caps.minImageExtent.width
    ensures r.Some? && caps.minImageExtent.width <= ToUint32(drawableWidth) &&
            caps.maxImageExtent.width < ToUint32(drawableWidth) ==>
              r.value.imageExtent.width == caps.maxImageExtent.width
    ensures r.Some? && caps.minImageExtent.height <= ToUint32(drawableHeight) <= caps.maxImageExtent.height ==>
              r.value.imageExtent.height == ToUint32(drawableHeight)
    ensures r.Some? && ToUint32(drawableHeight) < caps.minImageExtent.height ==>
              r.value.imageExtent.height == caps.minImageExtent.height
    ensures r.Some? && caps.minImageExtent.height <= ToUint32(drawableHeight) &&
            caps.maxImageExtent.height < ToUint32(drawableHeight) ==>
              r.value.imageExtent.height == caps.maxImageExtent.height
    ensures r.Some? ==> r.value.sharing == SwapchainSharing(graphicsFamily, presentFamily)
  {
    if |formats| == 0 || formats[0].format != FORMAT_B8G8R8A8_UNORM then None
    else
      var width := Clamp(ToUint32(drawableWidth), caps.minImageExtent.width, caps.maxImageExtent.width);
      var height := Clamp(ToUint32(drawableHeight), caps.minImageExtent.height, caps.maxImageExtent.height);
      Some(SwapchainRequest(
        formats[0],
        caps.minImageCount,
        Extent2D(width, height),
        SwapchainSharing(graphicsFamily, presentFamily)))
  }

  /**
   * The per-image arrays of graphics_create_image_views,
   * graphics_create_framebuffers and graphics_create_fences: a zeroed array
   * of one handle per swapchain image, filled in image order by create calls
   * (`created(i)` is the handle call i produced, None when it failed). The
   * first failure ends the loop: `filled` slots hold their handles and the
   * rest stay null.
   */
  method CreatePerImage(imageCount: nat, created: nat -> Option<Handle>)
    returns (handles: array<Handle>, filled: nat, status: int)
    ensures handles.Length == imageCount && filled <= imageCount
    ensures forall i :: 0 <= i < filled ==> created(i).Some? && handles[i] == created(i).value
    ensures forall i :: filled <= i < imageCount ==> handles[i] == Null
    ensures status == CUBE_SUCCESS <==> filled == imageCount
    ensures status == CUBE_FAILURE <==> filled < imageCount
    ensures filled < imageCount ==> created(filled).None?
  {
    handles := new Handle[imageCount](_ => Null);
    status := CUBE_SUCCESS;
    filled := 0;
    while filled < imageCount && status == CUBE_SUCCESS
      invariant 0 <= filled <= imageCount
      invariant status == CUBE_SUCCESS || status == CUBE_FAILURE
      invariant status == CUBE_FAILURE ==> filled < imageCount && created(filled).None?
      invariant forall i :: 0 <= i < filled ==> created(i).Some? && handles[i] == created(i).value
      invariant forall i :: filled <= i < imageCount ==> handles[i] == Null
      decreases imageCount - filled, if status == CUBE_SUCCESS then 1 else 0
    {
      var result := created(filled);
      if result.Some? {
        handles[filled] := result.value;
        filled := filled + 1;
      } else {
        status := CUBE_FAILURE;
      }
    }
  }

  /** The depth formats graphics_create_depth_stencil tries, most precise first. */
  const DepthCandidates: seq<Format> :=
    [FORMAT_D32_SFLOAT_S8_UINT, FORMAT_D32_SFLOAT, FORMAT_D24_UNORM_S8_UINT,
     FORMAT_D16_UNORM_S8_UINT, FORMAT_D16_UNORM]

  /**
   * The depth-format scan: query the candidates in order until one allows
   * depth/stencil attachment; the depth format stays UNDEFINED, and the
   * helper fails, when none does.
   */
  method FindDepthFormat(optimalFeatures: Format -> bv32) returns (depthFormat: Format, status: int)
    ensures var k := FirstAttachable(DepthCandidates, optimalFeatures);
            depthFormat == (if k < |DepthCandidates| then DepthCandidates[k] else FORMAT_UNDEFINED)
    ensures status == CUBE_FAILURE <==> depthFormat == FORMAT_UNDEFINED
    ensures status == CUBE_SUCCESS || status == CUBE_FAILURE
  {
    depthFormat := FORMAT_UNDEFINED;
    var index := 0;
    while depthFormat == FORMAT_UNDEFINED && index < |DepthCandidates|
      invariant 0 <= index <= |DepthCandidates|
      invariant forall j :: 0 <= j < index ==> !DepthAttachable(optimalFeatures(DepthCandidates[j]))
      invariant depthFormat != FORMAT_UNDEFINED ==>
                  index < |DepthCandidates| && depthFormat == DepthCandidates[index] &&
                  DepthAttachable(optimalFeatures(DepthCandidates[index]))
      decreases |DepthCandidates| - index, if depthFormat == FORMAT_UNDEFINED then 1 else 0
    {
      var features := optimalFeatures(DepthCandidates[index]);
      if features & FORMAT_FEATURE_DEPTH_STENCIL_ATTACHMENT_BIT != 0 {
        depthFormat := DepthCandidates[index];
      } else {
        index := index + 1;
      }
    }
    status := if depthFormat == FORMAT_UNDEFINED then CUBE_FAILURE else CUBE_SUCCESS;
  }

  /**
   * The memory-type test of graphics_create_depth_stencil as written: the
   * index i itself, rather than bit i, is and-ed with the image's
   * memoryTypeBits, and the type must be device local.
   */
  predicate AsWrittenCandidate(types: seq<MemoryType>, memoryTypeBits: bv32, i: nat)
    requires i < |types| <= MAX_MEMORY_TYPES
  {
    (i as bv32) & memoryTypeBits != 0 && DeviceLocal(types[i])
  }

  /**
   * The memory-type scan as written: advance until a type passes the
   * as-written test; the helper fails when the index reaches
   * memoryTypeCount.
   */
  method FindMemoryTypeAsWritten(types: seq<MemoryType>, memoryTypeBits: bv32)
    returns (memoryType: nat, status: int)
    requires |types| <= MAX_MEMORY_TYPES
    ensures memoryType <= |types|
    ensures memoryType < |types| ==> AsWrittenCandidate(types, memoryTypeBits, memoryType)
    ensures forall j :: 0 <= j < memoryType ==> !AsWrittenCandidate(types, memoryTypeBits, j)
    ensures status == CUBE_FAILURE <==> memoryType == |types|
    ensures status == CUBE_SUCCESS || status == CUBE_FAILURE
  {
    var memoryTypeCount := |types|;
    memoryType := memoryTypeCount;
    var index := 0;
    while memoryType == memoryTypeCount && index < memoryTypeCount
      invariant 0 <= index <= memoryTypeCount
      invariant forall j :: 0 <= j < index ==> !AsWrittenCandidate(types, memoryTypeBits, j)
      invariant memoryType == memoryTypeCount || (memoryType == index < memoryTypeCount &&
                AsWrittenCandidate(types, memoryTypeBits, index))
      decreases memoryTypeCount - index, if memoryType == memoryTypeCount then 1 else 0
    {
      if (index as bv32) & memoryTypeBits != 0 &&
         types[index].propertyFlags & MEMORY_PROPERTY_DEVICE_LOCAL_BIT == MEMORY_PROPERTY_DEVICE_LOCAL_BIT {
        memoryType := index;
      } else {
        index := index + 1;
      }
    }
    status := if index == memoryTypeCount then CUBE_FAILURE else CUBE_SUCCESS;
  }

  /** The as-written test can never accept memory type 0, whatever the mask. */
  lemma AsWrittenRejectsTypeZero(types: seq<MemoryType>, memoryTypeBits: bv32)
    requires 0 < |types| <= MAX_MEMORY_TYPES
    ensures !AsWrittenCandidate(types, memoryTypeBits, 0)
  {
  }

  /** Memory type i is permitted by the mask: bit i of memoryTypeBits is set. */
  predicate Allowed(memoryTypeBits: bv32, i: nat)
    requires i < MAX_MEMORY_TYPES
  {
    memoryTypeBits & ((1 as bv32) << i) != 0
  }

  /**
   * Two device-local types, and an image that may only use type 0: the
   * as-written test rejects type 0 and accepts type 1, which the mask
   * forbids, so the scan settles on a type the image cannot be bound to.
   */
  lemma AsWrittenPicksForbiddenType()
    ensures var types := [MemoryType(MEMORY_PROPERTY_DEVICE_LOCAL_BIT, 0), MemoryType(MEMORY_PROPERTY_DEVICE_LOCAL_BIT, 0)];
            Allowed(1, 0) && DeviceLocal(types[0]) &&
            !AsWrittenCandidate(types, 1, 0) && AsWrittenCandidate(types, 1, 1) && !Allowed(1, 1)
  {
  }

  /**
   * The evidently intended scan: the first memory type that the mask allows
   * and that is device local, or None.
   */
  function MemoryTypeFor(types: seq<MemoryType>, memoryTypeBits: bv32): (r: Option<nat>)
    requires |types| <= MAX_MEMORY_TYPES
    ensures r.Some? ==> r.value < |types| && Allowed(memoryTypeBits, r.value) && DeviceLocal(types[r.value])
    ensures r.Some? ==> forall j :: 0 <= j < r.value ==> !(Allowed(memoryTypeBits, j) && DeviceLocal(types[j]))
    ensures r.None? ==> forall j :: 0 <= j < |types| ==> !(Allowed(memoryTypeBits, j) && DeviceLocal(types[j]))
  {
    MemoryTypeFrom(types, memoryTypeBits, 0)
  }

  function MemoryTypeFrom(types: seq<MemoryType>, memoryTypeBits: bv32, from: nat): (r: Option<nat>)
    requires from <= |types| <= MAX_MEMORY_TYPES
    ensures r.Some? ==> from <= r.value < |types| && Allowed(memoryTypeBits, r.value) && DeviceLocal(types[r.value])
    ensures r.Some? ==> forall j :: from <= j < r.value ==> !(Allowed(memoryTypeBits, j) && DeviceLocal(types[j]))
    ensures r.None? ==> forall j :: from <= j < |types| ==> !(Allowed(memoryTypeBits, j) && DeviceLocal(types[j]))
    decreases |types| - from
  {
    if from == |types| then None
    else if Allowed(memoryTypeBits, from) && DeviceLocal(types[from]) then Some(from)
    else MemoryTypeFrom(types, memoryTypeBits, from + 1)
  }
}
