/**
 * The pipeline stage of the second renderer: its creation order, the
 * graphics pipeline's shader loads and layout objects, and the release of
 * the pipeline and render pass.
 */
module Pipeline {
  import opened Common
  import opened Handles
  import opened CubeTypes
  import opened Heap
  import Scope
  import FailFast

  datatype CreateStep = SurfaceProperties | RenderPass | GraphicsPipeline

  const CreateOrder: seq<CreateStep> := [SurfaceProperties, RenderPass, GraphicsPipeline]

  /**
   * graphics_create_pipeline: surface properties, the render pass, then the
   * graphics pipeline, each asserted, so a helper runs only when every
   * earlier one succeeded.
   */
  function CreatePipeline(succeeds: CreateStep -> bool): (e: Scope.Exit)
    ensures e.result == CUBE_SUCCESS <==> forall i :: 0 <= i < |CreateOrder| ==> succeeds(CreateOrder[i])
    ensures forall k :: 0 <= k < |CreateOrder| ==>
              (k < e.executed <==> FailFast.SucceededBefore(CreateOrder, succeeds, k))
    ensures e.executed <= |CreateOrder|
    ensures e.result == CUBE_FAILURE ==> 0 < e.executed && !succeeds(CreateOrder[e.executed - 1])
    ensures e.freed == [FreeArray]
  {
    Scope.RunAsserts(CreateOrder, succeeds)
  }

  /**
   * graphics_create_graphics_pipeline. `vertexShader` and `fragmentShader`
   * are the two shader loads (their CUBE status and the module they
   * produce); the other three replies are the creation of the descriptor-set
   * layout, the pipeline layout and the pipeline. The vertex shader is
   * loaded first and a failed load ends the function; each later object is
   * created only after every earlier step succeeded. The two shader modules
   * are destroyed, fragment first, only on the success path.
   */
  method CreateGraphicsPipeline(
    g: CubeGraphics, vertexShader: Reply, fragmentShader: Reply,
    setLayout: Reply, pipelineLayout: Reply, pipeline: Reply)
    returns (result: int, shaderLoads: nat, destroyedShaders: seq<Handle>)
    modifies g`descriptorSetLayout, g`pipelineLayout, g`graphicsPipeline
    ensures result == CUBE_SUCCESS || result == CUBE_FAILURE
    ensures result == CUBE_SUCCESS <==>
              Succeeded(vertexShader) && Succeeded(fragmentShader) && Succeeded(setLayout) &&
              Succeeded(pipelineLayout) && Succeeded(pipeline)
    ensures shaderLoads == (if Succeeded(vertexShader) then 2 else 1)
    ensures var loaded := Succeeded(vertexShader) && Succeeded(fragmentShader);
            g.descriptorSetLayout == (if loaded then setLayout.handle else old(g.descriptorSetLayout)) &&
            g.pipelineLayout == (if loaded && Succeeded(setLayout) then pipelineLayout.handle
                                 else old(g.pipelineLayout)) &&
            g.graphicsPipeline == (if loaded && Succeeded(setLayout) && Succeeded(pipelineLayout)
                                   then pipeline.handle else old(g.graphicsPipeline))
    ensures destroyedShaders == (if result == CUBE_SUCCESS then [fragmentShader.handle, vertexShader.handle] else [])
  {
    destroyedShaders := [];
    shaderLoads := 1;
    if !Succeeded(vertexShader) {
      return CUBE_FAILURE, shaderLoads, destroyedShaders;
    }
    shaderLoads := 2;
    if !Succeeded(fragmentShader) {
      return CUBE_FAILURE, shaderLoads, destroyedShaders;
    }
    g.descriptorSetLayout := setLayout.handle;
    if !Succeeded(setLayout) {
      return CUBE_FAILURE, shaderLoads, destroyedShaders;
    }
    g.pipelineLayout := pipelineLayout.handle;
    if !Succeeded(pipelineLayout) {
      return CUBE_FAILURE, shaderLoads, destroyedShaders;
    }
    g.graphicsPipeline := pipeline.handle;
    if !Succeeded(pipeline) {
      return CUBE_FAILURE, shaderLoads, destroyedShaders;
    }
    destroyedShaders := [fragmentShader.handle, vertexShader.handle];
    result := CUBE_SUCCESS;
  }

  datatype Destroyed = DestroyPipeline | DestroyRenderPass

  function DestroyRank(kind: Destroyed): int
  {
    match kind
    case DestroyPipeline => 0
    case DestroyRenderPass => 1
  }

  /**
   * graphics_destroy_pipeline: the pipeline, then the render pass, each
   * destroyed only when its handle is not null.
   */
  function DestroyPipelineObjects(g: CubeGraphics): (calls: seq<Release<Destroyed>>)
    reads g
    ensures forall c :: c in calls ==> c.handle != Null
    ensures Release(DestroyPipeline, g.graphicsPipeline) in calls <==> g.graphicsPipeline != Null
    ensures Release(DestroyRenderPass, g.renderPass) in calls <==> g.renderPass != Null
    ensures Ordered(calls, DestroyRank)
  {
    var slots := [Release(DestroyPipeline, g.graphicsPipeline), Release(DestroyRenderPass, g.renderPass)];
    SkipNullKeepsOrder(slots, DestroyRank);
    SkipNull(slots)
  }
}
