/**
 * The part of the Vulkan API vocabulary the renderer relies on: result
 * codes, format and flag constants (with the values the Vulkan headers
 * give them) and the records the physical-device queries return.
 * Unsigned 32-bit fields are `nat`.
 */
module Vk {
  const VK_SUCCESS: int := 0

  type Format = nat
  const FORMAT_UNDEFINED: Format := 0
  const FORMAT_B8G8R8A8_UNORM: Format := 44
  const FORMAT_D16_UNORM: Format := 124
  const FORMAT_D32_SFLOAT: Format := 126
  const FORMAT_D16_UNORM_S8_UINT: Format := 128
  const FORMAT_D24_UNORM_S8_UINT: Format := 129
  const FORMAT_D32_SFLOAT_S8_UINT: Format := 130

  const QUEUE_GRAPHICS_BIT: bv32 := 0x1
  const FORMAT_FEATURE_DEPTH_STENCIL_ATTACHMENT_BIT: bv32 := 0x200
  const MEMORY_PROPERTY_DEVICE_LOCAL_BIT: bv32 := 0x1
  /** VK_MAX_MEMORY_TYPES: the length of the memoryTypes array. */
  const MAX_MEMORY_TYPES: nat := 32

  datatype SharingMode = Exclusive | Concurrent

  datatype Extent2D = Extent2D(width: nat, height: nat)

  datatype SurfaceCapabilities = SurfaceCapabilities(
    minImageCount: nat,
    maxImageCount: nat,   // 0 means "no limit"
    minImageExtent: Extent2D,
    maxImageExtent: Extent2D)

  datatype SurfaceFormat = SurfaceFormat(format: Format, colorSpace: nat)

  datatype QueueFamily = QueueFamily(queueFlags: bv32, queueCount: nat)

  datatype MemoryType = MemoryType(propertyFlags: bv32, heapIndex: nat)

  predicate HasGraphicsBit(family: QueueFamily)
  {
    family.queueFlags & QUEUE_GRAPHICS_BIT != 0
  }

  predicate DeviceLocal(memoryType: MemoryType)
  {
    memoryType.propertyFlags & MEMORY_PROPERTY_DEVICE_LOCAL_BIT != 0
  }

  /** Optimal-tiling features that allow use as a depth/stencil attachment. */
  predicate DepthAttachable(features: bv32)
  {
    features & FORMAT_FEATURE_DEPTH_STENCIL_ATTACHMENT_BIT != 0
  }

  /**
   * The position of the first candidate format whose optimal-tiling
   * features (`optimalFeatures(f)`, as vkGetPhysicalDeviceFormatProperties
   * reports them) allow depth/stencil use; |candidates| when none does.
   */
  function FirstAttachable(candidates: seq<Format>, optimalFeatures: Format -> bv32): (k: nat)
    ensures k <= |candidates|
    ensures k < |candidates| ==> DepthAttachable(optimalFeatures(candidates[k]))
    ensures forall j :: 0 <= j < k ==> !DepthAttachable(optimalFeatures(candidates[j]))
  {
    if candidates == [] then 0
    else if DepthAttachable(optimalFeatures(candidates[0])) then 0
    else
      var k := FirstAttachable(candidates[1..], optimalFeatures);
      assert forall j :: 1 <= j < |candidates| ==> candidates[j] == candidates[1..][j - 1];
      1 + k
  }
}
