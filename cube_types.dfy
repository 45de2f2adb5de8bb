/**
 * The state of the second renderer: one cube_graphics record that every
 * create, render and destroy function of the renderer reads and updates in
 * place, and the per-image frame and mesh records it points to. Only the
 * fields the modelled logic reads or writes are kept.
 */
module CubeTypes {
  import opened Maybe
  import opened Vk
  import opened Handles

  /**
   * One Vulkan call that produces an object: the VkResult (or CUBE status)
   * it returned and the handle it wrote through its output pointer.
   */
  datatype Reply = Reply(result: int, handle: Handle)

  predicate Succeeded(reply: Reply)
  {
    reply.result == VK_SUCCESS
  }

  /** cube_frame: the objects owned by one swapchain image. */
  datatype Frame = Frame(
    index: nat,
    imageView: Handle,
    framebuffer: Handle,
    commandBuffer: Handle,
    uniformBuffer: Handle,
    mapping: Handle,        // uniform_buffer_mapping, the host address of the uniform buffer
    descriptorSet: Handle)

  /** A frame as calloc leaves it: index 0 and every handle null. */
  const ZeroFrame: Frame := Frame(0, Null, Null, Null, Null, Null, Null)

  /** cube_object: the mesh's two device buffers and their element counts. */
  datatype CubeObject = CubeObject(
    vertexBuffer: Handle,
    indexBuffer: Handle,
    vertexCount: nat,
    indexCount: nat)

  class CubeGraphics {
    var displaySize: Extent2D
    var physicalDevice: Handle
    var logicalDevice: Handle
    var graphicsFamily: nat       // graphics_queue_family_index
    var presentFamily: nat        // present_queue_family_index
    var surfaceCapabilities: SurfaceCapabilities
    var surfaceFormat: SurfaceFormat
    var depthFormat: Format
    var depthStencilSupport: bool
    var swapchain: Handle
    var depthImage: Handle
    var depthImageView: Handle
    var renderPass: Handle
    var descriptorSetLayout: Handle
    var pipelineLayout: Handle
    var graphicsPipeline: Handle
    var mesh: Option<CubeObject>    // the object pointer; None while NULL
    var timestamp: int
    var theta: int
    var frameCount: nat
    var frames: array<Frame>        // a NULL frames pointer is an array of length 0
    var descriptorPool: Handle
    var frameRendered: Handle
    var framePresented: Handle
    var commandFence: Handle

    /** The frames array holds one entry per counted frame. */
    ghost predicate Valid()
      reads this
    {
      frames.Length == frameCount
    }

    /** calloc(1, sizeof(cube_graphics)): every field zero or null. */
    constructor()
      ensures Valid() && frameCount == 0
      ensures physicalDevice == Null && logicalDevice == Null
      ensures displaySize == Extent2D(0, 0) && graphicsFamily == 0 && presentFamily == 0
      ensures depthFormat == FORMAT_UNDEFINED && !depthStencilSupport
      ensures swapchain == Null && depthImage == Null && depthImageView == Null
      ensures renderPass == Null && descriptorSetLayout == Null
      ensures pipelineLayout == Null && graphicsPipeline == Null
      ensures mesh == None && timestamp == 0 && theta == 0
      ensures descriptorPool == Null && frameRendered == Null
      ensures framePresented == Null && commandFence == Null
      ensures surfaceCapabilities == SurfaceCapabilities(0, 0, Extent2D(0, 0), Extent2D(0, 0))
      ensures surfaceFormat == SurfaceFormat(FORMAT_UNDEFINED, 0)
      ensures fresh(frames)
    {
      displaySize := Extent2D(0, 0);
      physicalDevice := Null;
      logicalDevice := Null;
      graphicsFamily := 0;
      presentFamily := 0;
      surfaceCapabilities := SurfaceCapabilities(0, 0, Extent2D(0, 0), Extent2D(0, 0));
      surfaceFormat := SurfaceFormat(FORMAT_UNDEFINED, 0);
      depthFormat := FORMAT_UNDEFINED;
      depthStencilSupport := false;
      swapchain := Null;
      depthImage := Null;
      depthImageView := Null;
      renderPass := Null;
      descriptorSetLayout := Null;
      pipelineLayout := Null;
      graphicsPipeline := Null;
      mesh := None;
      timestamp := 0;
      theta := 0;
      frameCount := 0;
      frames := new Frame[0];
      descriptorPool := Null;
      frameRendered := Null;
      framePresented := Null;
      commandFence := Null;
    }
  }
}
