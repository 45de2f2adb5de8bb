/**
 * The frame pool of the second renderer: one frame per swapchain image, the
 * descriptor pool and sets that bind each frame's uniform buffer, the
 * synchronisation objects, the per-frame acquire and rotation update, and
 * the release of all of it.
 */
module Frames {
  import opened Maybe
  import opened Vk
  import opened Common
  import opened Handles
  import opened CubeTypes
  import Scope
  import FailFast

  /** The replies of the calls graphics_create_frame makes, in call order. */
  datatype FrameReplies = FrameReplies(
    imageView: Reply,
    framebuffer: Reply,
    commandBuffer: Reply,
    uniformBuffer: Reply,
    mapping: Handle)        // pMappedData of the uniform buffer's allocation

  predicate AllSucceeded(replies: FrameReplies)
  {
    Succeeded(replies.imageView) && Succeeded(replies.framebuffer) &&
    Succeeded(replies.commandBuffer) && Succeeded(replies.uniformBuffer)
  }

  datatype FrameBuild = FrameBuild(result: int, frame: Frame)

  /**
   * graphics_create_frame on the frame at position `index`: the index is
   * stored first, then the image view, framebuffer, command buffer and
   * uniform buffer are created in that order, each only after the previous
   * one succeeded, and the uniform buffer's mapping is kept on success. The
   * descriptor set is not touched.
   */
  function CreateFrame(index: nat, frame: Frame, replies: FrameReplies): (r: FrameBuild)
    ensures r.result == CUBE_SUCCESS || r.result == CUBE_FAILURE
    ensures r.frame.index == index && r.frame.descriptorSet == frame.descriptorSet
    ensures r.result == CUBE_SUCCESS <==> AllSucceeded(replies)
    ensures r.result == CUBE_SUCCESS ==>
              r.frame == Frame(index, replies.imageView.handle, replies.framebuffer.handle,
                               replies.commandBuffer.handle, replies.uniformBuffer.handle,
                               replies.mapping, frame.descriptorSet)
    ensures r.frame.imageView == replies.imageView.handle
    ensures r.frame.framebuffer ==
              (if Succeeded(replies.imageView) then replies.framebuffer.handle else frame.framebuffer)
    ensures r.frame.commandBuffer ==
              (if Succeeded(replies.imageView) && Succeeded(replies.framebuffer)
               then replies.commandBuffer.handle else frame.commandBuffer)
    ensures r.frame.uniformBuffer ==
              (if Succeeded(replies.imageView) && Succeeded(replies.framebuffer) && Succeeded(replies.commandBuffer)
               then replies.uniformBuffer.handle else frame.uniformBuffer)
    ensures r.frame.mapping == (if r.result == CUBE_SUCCESS then replies.mapping else frame.mapping)
    ensures r.frame.framebuffer != frame.framebuffer ==> Succeeded(replies.imageView)
    ensures r.frame.commandBuffer != frame.commandBuffer ==>
              Succeeded(replies.imageView) && Succeeded(replies.framebuffer)
    ensures r.frame.uniformBuffer != frame.uniformBuffer ==>
              Succeeded(replies.imageView) && Succeeded(replies.framebuffer) && Succeeded(replies.commandBuffer)
    ensures r.frame.mapping != frame.mapping ==> r.result == CUBE_SUCCESS
  {
    var withView := frame.(index := index, imageView := replies.imageView.handle);
    if !Succeeded(replies.imageView) then FrameBuild(CUBE_FAILURE, withView)
    else
      var withFramebuffer := withView.(framebuffer := replies.framebuffer.handle);
      if !Succeeded(replies.framebuffer) then FrameBuild(CUBE_FAILURE, withFramebuffer)
      else
        var withCommands := withFramebuffer.(commandBuffer := replies.commandBuffer.handle);
        if !Succeeded(replies.commandBuffer) then FrameBuild(CUBE_FAILURE, withCommands)
        else
          var withUniform := withCommands.(uniformBuffer := replies.uniformBuffer.handle);
          if !Succeeded(replies.uniformBuffer) then FrameBuild(CUBE_FAILURE, withUniform)
          else FrameBuild(CUBE_SUCCESS, withUniform.(mapping := replies.mapping))
  }

  /**
   * The frame loop of graphics_create_frame_pool: for each position i in
   * turn, frame i is built with index i from `replies(i)`; the first frame
   * that fails ends the loop and later frames stay as they were.
   */
  method CreateFrames(g: CubeGraphics, replies: nat -> FrameReplies) returns (result: int, built: nat)
    requires g.Valid()
    modifies g.frames
    ensures result == CUBE_SUCCESS || result == CUBE_FAILURE
    ensures built <= g.frameCount
    ensures forall i :: 0 <= i < built ==> g.frames[i] == CreateFrame(i, old(g.frames[i]), replies(i)).frame
    ensures forall i :: built <= i < g.frameCount ==> g.frames[i] == old(g.frames[i])
    ensures result == CUBE_SUCCESS <==> forall i :: 0 <= i < g.frameCount ==> AllSucceeded(replies(i))
    ensures result == CUBE_SUCCESS ==> built == g.frameCount
    ensures result == CUBE_FAILURE ==>
              0 < built && !AllSucceeded(replies(built - 1)) &&
              forall i :: 0 <= i < built - 1 ==> AllSucceeded(replies(i))
  {
    var index := 0;
    while index < g.frameCount
      invariant 0 <= index <= g.frameCount
      invariant forall i :: 0 <= i < index ==> AllSucceeded(replies(i))
      invariant forall i :: 0 <= i < index ==> g.frames[i] == CreateFrame(i, old(g.frames[i]), replies(i)).frame
      invariant forall i :: index <= i < g.frameCount ==> g.frames[i] == old(g.frames[i])
    {
      var build := CreateFrame(index, g.frames[index], replies(index));
      g.frames[index] := build.frame;
      if build.result != CUBE_SUCCESS {
        return CUBE_FAILURE, index + 1;
      }
      index := index + 1;
    }
    return CUBE_SUCCESS, index;
  }

  /** The fields of VkDescriptorPoolCreateInfo and its one pool size that the model follows. */
  datatype DescriptorPoolInfo = DescriptorPoolInfo(descriptorCount: nat, maxSets: nat)

  /**
   * graphics_create_descriptor_pool: room for one uniform-buffer descriptor
   * and one set per frame.
   */
  method CreateDescriptorPool(g: CubeGraphics, reply: Reply) returns (result: int, info: DescriptorPoolInfo)
    modifies g`descriptorPool
    ensures info.descriptorCount == g.frameCount && info.maxSets == g.frameCount
    ensures g.descriptorPool == reply.handle
    ensures result == CUBE_SUCCESS <==> Succeeded(reply)
    ensures result == CUBE_SUCCESS || result == CUBE_FAILURE
  {
    info := DescriptorPoolInfo(g.frameCount, g.frameCount);
    g.descriptorPool := reply.handle;
    result := if Succeeded(reply) then CUBE_SUCCESS else CUBE_FAILURE;
  }

  /** The layouts array handed to vkAllocateDescriptorSets: `count` copies of the one set layout. */
  method FillLayouts(count: nat, layout: Handle) returns (layouts: array<Handle>)
    ensures fresh(layouts) && layouts.Length == count
    ensures forall i :: 0 <= i < count ==> layouts[i] == layout
  {
    layouts := new Handle[count](_ => Null);
    var index := 0;
    while index < count
      invariant 0 <= index <= count
      invariant forall i :: 0 <= i < index ==> layouts[i] == layout
    {
      layouts[index] := layout;
      index := index + 1;
    }
  }

  /** One vkUpdateDescriptorSets call: the set written and the uniform buffer it is bound to. */
  datatype SetWrite = SetWrite(dstSet: Handle, buffer: Handle)

  /** The position of the first frame without a uniform-buffer mapping; |frames| when all have one. */
  function FirstUnmapped(frames: seq<Frame>): (k: nat)
    ensures k <= |frames|
    ensures k < |frames| ==> frames[k].mapping == Null
    ensures forall j :: 0 <= j < k ==> frames[j].mapping != Null
  {
    if frames == [] then 0
    else if frames[0].mapping == Null then 0
    else
      var k := FirstUnmapped(frames[1..]);
      assert forall j :: 1 <= j < |frames| ==> frames[j] == frames[1..][j - 1];
      1 + k
  }

  /**
   * graphics_create_descriptor_sets. `layoutsBlock` and `setsBlock` are the
   * two registered callocs (null when they failed), `allocateResult` the
   * result of vkAllocateDescriptorSets and `sets(i)` the set it wrote at
   * position i. Frame i's set is written with frame i's uniform buffer and
   * stored in frame i, then the frame's initial matrices are written, which
   * fails when the frame has no mapping and ends the loop.
   */
  method CreateDescriptorSets(
    g: CubeGraphics, layoutsBlock: Handle, setsBlock: Handle, allocateResult: int, sets: nat -> Handle)
    returns (result: int, layouts: seq<Handle>, writes: seq<SetWrite>)
    requires g.Valid()
    modifies g.frames
    ensures result == CUBE_SUCCESS || result == CUBE_FAILURE
    ensures result == CUBE_SUCCESS <==>
              layoutsBlock != Null && setsBlock != Null && allocateResult == VK_SUCCESS &&
              forall i :: 0 <= i < g.frameCount ==> old(g.frames[i]).mapping != Null
    ensures |layouts| == (if layoutsBlock == Null then 0 else g.frameCount)
    ensures forall i :: 0 <= i < |layouts| ==> layouts[i] == g.descriptorSetLayout
    ensures var k := FirstUnmapped(old(g.frames[..]));
            |writes| == (if layoutsBlock == Null || setsBlock == Null || allocateResult != VK_SUCCESS then 0
                         else if k < g.frameCount then k + 1 else g.frameCount)
    ensures forall i :: 0 <= i < |writes| ==>
              writes[i] == SetWrite(sets(i), old(g.frames[i]).uniformBuffer) &&
              g.frames[i] == old(g.frames[i]).(descriptorSet := sets(i))
    ensures forall i :: |writes| <= i < g.frameCount ==> g.frames[i] == old(g.frames[i])
  {
    ghost var before := g.frames[..];
    ghost var k := FirstUnmapped(before);
    layouts := [];
    writes := [];
    if layoutsBlock == Null {
      return CUBE_FAILURE, layouts, writes;
    }
    var layoutArray := FillLayouts(g.frameCount, g.descriptorSetLayout);
    layouts := layoutArray[..];
    if setsBlock == Null || allocateResult != VK_SUCCESS {
      return CUBE_FAILURE, layouts, writes;
    }
    var index := 0;
    while index < g.frameCount
      invariant 0 <= index <= g.frameCount
      invariant |writes| == index && index <= k
      invariant forall i :: 0 <= i < index ==>
                  writes[i] == SetWrite(sets(i), before[i].uniformBuffer) &&
                  g.frames[i] == before[i].(descriptorSet := sets(i))
      invariant forall i :: index <= i < g.frameCount ==> g.frames[i] == before[i]
    {
      var frame := g.frames[index];
      writes := writes + [SetWrite(sets(index), frame.uniformBuffer)];
      g.frames[index] := frame.(descriptorSet := sets(index));
      if frame.mapping == Null {
        return CUBE_FAILURE, layouts, writes;
      }
      index := index + 1;
    }
    return CUBE_SUCCESS, layouts, writes;
  }

  /**
   * graphics_create_sync_objects: the rendered semaphore, the presented
   * semaphore and the command fence, each created only after the previous
   * one succeeded.
   */
  method CreateSyncObjects(g: CubeGraphics, rendered: Reply, presented: Reply, fence: Reply) returns (result: int)
    modifies g`frameRendered, g`framePresented, g`commandFence
    ensures result == CUBE_SUCCESS || result == CUBE_FAILURE
    ensures result == CUBE_SUCCESS <==> Succeeded(rendered) && Succeeded(presented) && Succeeded(fence)
    ensures g.frameRendered == rendered.handle
    ensures g.framePresented == (if Succeeded(rendered) then presented.handle else old(g.framePresented))
    ensures g.commandFence ==
              (if Succeeded(rendered) && Succeeded(presented) then fence.handle else old(g.commandFence))
  {
    g.frameRendered := rendered.handle;
    if !Succeeded(rendered) {
      return CUBE_FAILURE;
    }
    g.framePresented := presented.handle;
    if !Succeeded(presented) {
      return CUBE_FAILURE;
    }
    g.commandFence := fence.handle;
    if !Succeeded(fence) {
      return CUBE_FAILURE;
    }
    return CUBE_SUCCESS;
  }

  /** The replies of every call graphics_create_frame_pool makes, directly or through its helpers. */
  datatype PoolReplies = PoolReplies(
    countResult: int,           // first vkGetSwapchainImagesKHR (the count)
    imageCount: nat,            // the swapchain image count it reports
    imagesBlock: Handle,        // registered calloc of the image array
    imagesResult: int,          // second vkGetSwapchainImagesKHR (the images)
    framesAllocated: bool,      // calloc of the frame array
    pool: Reply,                // vkCreateDescriptorPool
    frame: nat -> FrameReplies, // the calls building frame i
    layoutsBlock: Handle,       // registered calloc of the layouts array
    setsBlock: Handle,          // registered calloc of the set array
    allocateResult: int,        // vkAllocateDescriptorSets
    sets: nat -> Handle,        // the set it writes at position i
    rendered: Reply,
    presented: Reply,
    fence: Reply)

  /** The swapchain's images were counted and listed. */
  predicate ImagesListed(q: PoolReplies)
  {
    q.countResult == VK_SUCCESS && q.imagesBlock != Null && q.imagesResult == VK_SUCCESS
  }

  predicate FramesBuilt(q: PoolReplies)
  {
    forall i :: 0 <= i < q.imageCount ==> AllSucceeded(q.frame(i))
  }

  predicate SetsBound(q: PoolReplies)
  {
    q.layoutsBlock != Null && q.setsBlock != Null && q.allocateResult == VK_SUCCESS &&
    forall i :: 0 <= i < q.imageCount ==> q.frame(i).mapping != Null
  }

  /** Every step before graphics_create_sync_objects succeeded, so the pool goes on to create them. */
  predicate SyncReached(q: PoolReplies)
  {
    ImagesListed(q) && q.framesAllocated && Succeeded(q.pool) && FramesBuilt(q) && SetsBound(q)
  }

  predicate SyncCreated(q: PoolReplies)
  {
    Succeeded(q.rendered) && Succeeded(q.presented) && Succeeded(q.fence)
  }

  /**
   * graphics_create_frame_pool. The frame count is the swapchain image
   * count, stored before the frame array's allocation is checked; then come
   * the descriptor pool, one frame per image, the descriptor sets and the
   * synchronisation objects, the first failure ending the function. On
   * success frame i holds index i, the objects built for it and descriptor
   * set i.
   */
  method CreateFramePool(g: CubeGraphics, q: PoolReplies) returns (result: int, built: nat)
    modifies g`frameCount, g`frames, g`descriptorPool, g`frameRendered, g`framePresented, g`commandFence
    ensures result == CUBE_SUCCESS || result == CUBE_FAILURE
    ensures !ImagesListed(q) ==>
              result == CUBE_FAILURE && built == 0 &&
              g.frameCount == old(g.frameCount) && g.frames == old(g.frames) &&
              g.descriptorPool == old(g.descriptorPool) &&
              g.frameRendered == old(g.frameRendered) && g.framePresented == old(g.framePresented) &&
              g.commandFence == old(g.commandFence)
    ensures ImagesListed(q) ==> g.frameCount == q.imageCount
    ensures ImagesListed(q) && !q.framesAllocated ==> result == CUBE_FAILURE && built == 0 && g.frames.Length == 0
    ensures ImagesListed(q) && q.framesAllocated ==>
              fresh(g.frames) && g.Valid() && g.descriptorPool == q.pool.handle
    ensures built <= q.imageCount
    ensures forall i :: 0 <= i < built ==> g.frames.Length == g.frameCount && g.frames[i].index == i
    ensures result == CUBE_SUCCESS <==>
              ImagesListed(q) && q.framesAllocated && Succeeded(q.pool) && FramesBuilt(q) &&
              SetsBound(q) && SyncCreated(q)
    ensures result == CUBE_SUCCESS ==>
              built == g.frameCount &&
              forall i :: 0 <= i < g.frameCount ==>
                g.frames[i] == Frame(i, q.frame(i).imageView.handle, q.frame(i).framebuffer.handle,
                                     q.frame(i).commandBuffer.handle, q.frame(i).uniformBuffer.handle,
                                     q.frame(i).mapping, q.sets(i))
    ensures g.frameRendered == (if SyncReached(q) then q.rendered.handle else old(g.frameRendered))
    ensures g.framePresented ==
              (if SyncReached(q) && Succeeded(q.rendered) then q.presented.handle else old(g.framePresented))
    ensures g.commandFence ==
              (if SyncReached(q) && Succeeded(q.rendered) && Succeeded(q.presented) then q.fence.handle
               else old(g.commandFence))
    ensures result == CUBE_SUCCESS ==>
              g.frameRendered == q.rendered.handle && g.framePresented == q.presented.handle &&
              g.commandFence == q.fence.handle
  {
    if q.countResult != VK_SUCCESS || q.imagesBlock == Null || q.imagesResult != VK_SUCCESS {
      return CUBE_FAILURE, 0;
    }
    g.frameCount := q.imageCount;
    if !q.framesAllocated {
      g.frames := new Frame[0];
      return CUBE_FAILURE, 0;
    }
    g.frames := new Frame[q.imageCount](_ => ZeroFrame);
    var poolResult, poolInfo := CreateDescriptorPool(g, q.pool);
    if poolResult != CUBE_SUCCESS {
      return CUBE_FAILURE, 0;
    }
    var framesResult;
    framesResult, built := CreateFrames(g, q.frame);
    if framesResult != CUBE_SUCCESS {
      return CUBE_FAILURE, built;
    }
    ghost var framesBuilt := g.frames[..];
    assert forall i :: 0 <= i < g.frameCount ==> framesBuilt[i].mapping == q.frame(i).mapping;
    var setsResult, layouts, writes := CreateDescriptorSets(g, q.layoutsBlock, q.setsBlock, q.allocateResult, q.sets);
    if setsResult != CUBE_SUCCESS {
      return CUBE_FAILURE, built;
    }
    var syncResult := CreateSyncObjects(g, q.rendered, q.presented, q.fence);
    if syncResult != CUBE_SUCCESS {
      return CUBE_FAILURE, built;
    }
    return CUBE_SUCCESS, built;
  }

  /** What graphics_render_acquire_frame hands back: its status, the Vulkan calls made, and the frame chosen. */
  datatype Acquired = Acquired(result: int, calls: nat, frame: Option<nat>)

  /**
   * graphics_render_acquire_frame: wait for the command fence, reset it,
   * acquire the next swapchain image (`imageIndex` is the index it reports),
   * stopping at the first failure; on success the frame handed back is the
   * one at that index of the frame array.
   */
  function AcquireFrame(waitResult: int, resetResult: int, acquireResult: int, imageIndex: nat): (a: Acquired)
    ensures a.result == CUBE_SUCCESS || a.result == CUBE_FAILURE
    ensures a.result == CUBE_SUCCESS <==>
              waitResult == VK_SUCCESS && resetResult == VK_SUCCESS && acquireResult == VK_SUCCESS
    ensures a.frame == (if a.result == CUBE_SUCCESS then Some(imageIndex) else None)
    ensures a.calls == (if waitResult != VK_SUCCESS then 1 else if resetResult != VK_SUCCESS then 2 else 3)
  {
    var body := [Scope.Check(waitResult), Scope.Check(resetResult), Scope.Check(acquireResult)];
    var e := Scope.Run(body);
    assert FailFast.SucceededBefore(body, Scope.Proceeds, 0);
    assert (forall i :: 0 <= i < |body| ==> Scope.Proceeds(body[i])) <==>
             Scope.Proceeds(body[0]) && Scope.Proceeds(body[1]) && Scope.Proceeds(body[2]);
    Acquired(e.result, e.executed, if e.result == CUBE_SUCCESS then Some(imageIndex) else None)
  }

  /**
   * The step graphics_render_update_object adds to the angle: the clock
   * difference narrowed to int, then divided by 10 with C's truncation.
   */
  function ElapsedStep(now: int, timestamp: int): (step: int)
    ensures 0 <= now - timestamp < INT32_LIMIT ==> 0 <= step && step * 10 <= now - timestamp < step * 10 + 10
    ensures -INT32_LIMIT < now - timestamp < 0 ==> step <= 0 && now - timestamp <= step * 10 < now - timestamp + 10
    ensures -214748364 <= step <= 214748364
  {
    CDiv(ToInt32(now - timestamp), 10)
  }

  /**
   * The new angle, (theta + step) % 360 in C: within (-360, 360), congruent
   * to theta + step modulo 360, and in [0, 360) when theta + step is not
   * negative.
   */
  function NextTheta(theta: int, step: int): (r: int)
    ensures -360 < r < 360
    ensures theta + step >= 0 ==> r == (theta + step) % 360
    ensures theta + step <= 0 ==> r <= 0
    ensures (theta + step - r) % 360 == 0
  {
    var r := CRem(theta + step, 360);
    assert theta + step - r == CDiv(theta + step, 360) * 360;
    r
  }

  /**
   * graphics_render_update_object on a frame: the clock reading `now`
   * becomes the timestamp and the angle advances by the elapsed step, before
   * the frame's mapping is checked; the function fails when the frame has no
   * mapping.
   */
  method UpdateObject(g: CubeGraphics, now: int, frame: Frame) returns (result: int)
    modifies g`timestamp, g`theta
    ensures result == CUBE_SUCCESS || result == CUBE_FAILURE
    ensures g.timestamp == now
    ensures g.theta == NextTheta(old(g.theta), ElapsedStep(now, old(g.timestamp)))
    ensures result == CUBE_SUCCESS <==> frame.mapping != Null
  {
    var step := ElapsedStep(now, g.timestamp);
    g.timestamp := now;
    g.theta := NextTheta(g.theta, step);
    if frame.mapping == Null {
      return CUBE_FAILURE;
    }
    return CUBE_SUCCESS;
  }

  /** The angle after one update per step, in order. */
  function Spin(theta: int, steps: seq<int>): int
  {
    if steps == [] then theta
    else NextTheta(Spin(theta, steps[..|steps| - 1]), steps[|steps| - 1])
  }

  function Sum(steps: seq<int>): int
  {
    if steps == [] then 0 else Sum(steps[..|steps| - 1]) + steps[|steps| - 1]
  }

  lemma ModShift(x: int, y: int)
    ensures (x % 360 + y) % 360 == (x + y) % 360
  {
    var q := x / 360;
    assert x == q * 360 + x % 360;
    assert x + y == (x % 360 + y) + q * 360;
  }

  /**
   * While the clock does not run backwards, the angle starting in [0, 360)
   * stays there, and is the starting angle plus every step taken, modulo
   * 360: no rotation is lost to the C remainder.
   */
  lemma {:induction false} SpinIsTotalRotation(theta: int, steps: seq<int>)
    requires 0 <= theta < 360
    requires forall i :: 0 <= i < |steps| ==> 0 <= steps[i]
    ensures 0 <= Spin(theta, steps) < 360
    ensures Spin(theta, steps) == (theta + Sum(steps)) % 360
  {
    if steps != [] {
      var init := steps[..|steps| - 1];
      var last := steps[|steps| - 1];
      assert forall i :: 0 <= i < |init| ==> init[i] == steps[i];
      SpinIsTotalRotation(theta, init);
      ModShift(theta + Sum(init), last);
    }
  }

  /** The objects graphics_destroy_frame_pool releases. */
  datatype PoolObject =
    | DescriptorSetLayout | UniformBuffer | Framebuffer | ImageView
    | DescriptorPool | RenderedSemaphore | PresentedSemaphore | CommandFence

  /** One call of the pool's teardown: a destroy call, or the free of the frame array. */
  datatype Teardown = Destroy(release: Release<PoolObject>) | FreeFrames

  function FrameRank(kind: PoolObject): int
  {
    match kind
    case UniformBuffer => 0
    case Framebuffer => 1
    case ImageView => 2
    case _ => 3
  }

  /**
   * graphics_destroy_frame: the uniform buffer, the framebuffer, then the
   * image view, each only when its handle is not null.
   */
  function DestroyFrame(frame: Frame): (calls: seq<Release<PoolObject>>)
    ensures forall c :: c in calls ==> c.handle != Null
    ensures Release(UniformBuffer, frame.uniformBuffer) in calls <==> frame.uniformBuffer != Null
    ensures Release(Framebuffer, frame.framebuffer) in calls <==> frame.framebuffer != Null
    ensures Release(ImageView, frame.imageView) in calls <==> frame.imageView != Null
    ensures Ordered(calls, FrameRank)
  {
    var slots := [Release(UniformBuffer, frame.uniformBuffer),
                  Release(Framebuffer, frame.framebuffer),
                  Release(ImageView, frame.imageView)];
    SkipNullKeepsOrder(slots, FrameRank);
    SkipNull(slots)
  }

  function Destroys(releases: seq<Release<PoolObject>>): (calls: seq<Teardown>)
  {
    seq(|releases|, i requires 0 <= i < |releases| => Destroy(releases[i]))
  }

  /** The frames' destroy calls, frame 0 first. */
  function DestroyFrames(frames: seq<Frame>): seq<Teardown>
  {
    if frames == [] then []
    else DestroyFrames(frames[..|frames| - 1]) + Destroys(DestroyFrame(frames[|frames| - 1]))
  }

  /** One `if (h != VK_NULL_HANDLE) destroy(h);` statement of the pool's teardown. */
  function DestroyIfLive(kind: PoolObject, handle: Handle): (calls: seq<Teardown>)
    ensures forall c :: c in calls ==> c == Destroy(Release(kind, handle)) && handle != Null
    ensures handle != Null ==> calls == [Destroy(Release(kind, handle))]
  {
    if handle == Null then [] else [Destroy(Release(kind, handle))]
  }

  /**
   * The calls of graphics_destroy_frame_pool: the set layout, the frames in
   * order, the free of the frame array, then the descriptor pool, the two
   * semaphores and the fence, each destroy only on a non-null handle.
   */
  function PoolTeardown(
    layout: Handle, frames: seq<Frame>, pool: Handle, rendered: Handle, presented: Handle, fence: Handle)
    : seq<Teardown>
  {
    DestroyIfLive(DescriptorSetLayout, layout) + DestroyFrames(frames) + [FreeFrames] +
    DestroyIfLive(DescriptorPool, pool) + DestroyIfLive(RenderedSemaphore, rendered) +
    DestroyIfLive(PresentedSemaphore, presented) + DestroyIfLive(CommandFence, fence)
  }

  /**
   * graphics_destroy_frame_pool, statement by statement, over the first
   * frame_count frames of the frame array.
   */
  method DestroyFramePool(g: CubeGraphics) returns (calls: seq<Teardown>)
    requires g.frameCount <= g.frames.Length
    ensures calls == PoolTeardown(g.descriptorSetLayout, g.frames[..g.frameCount], g.descriptorPool,
                                  g.frameRendered, g.framePresented, g.commandFence)
  {
    calls := [];
    if g.descriptorSetLayout != Null {
      calls := calls + [Destroy(Release(DescriptorSetLayout, g.descriptorSetLayout))];
    }
    assert calls == DestroyIfLive(DescriptorSetLayout, g.descriptorSetLayout);
    var frameCalls := DestroyEachFrame(g);
    calls := calls + frameCalls;
    calls := calls + [FreeFrames];
    calls := AppendIfLive(calls, DescriptorPool, g.descriptorPool);
    calls := AppendIfLive(calls, RenderedSemaphore, g.frameRendered);
    calls := AppendIfLive(calls, PresentedSemaphore, g.framePresented);
    calls := AppendIfLive(calls, CommandFence, g.commandFence);
  }

  /** The frame loop of graphics_destroy_frame_pool: frame 0 to frame_count - 1, in order. */
  method DestroyEachFrame(g: CubeGraphics) returns (calls: seq<Teardown>)
    requires g.frameCount <= g.frames.Length
    ensures calls == DestroyFrames(g.frames[..g.frameCount])
  {
    ghost var frames := g.frames[..g.frameCount];
    calls := [];
    var index := 0;
    while index < g.frameCount
      invariant 0 <= index <= g.frameCount
      invariant calls == DestroyFrames(frames[..index])
    {
      DestroyFramesStep(frames, index);
      assert g.frames[index] == frames[index];
      calls := calls + Destroys(DestroyFrame(g.frames[index]));
      index := index + 1;
    }
    assert frames[..index] == frames;
  }

  lemma DestroyFramesStep(frames: seq<Frame>, index: nat)
    requires index < |frames|
    ensures DestroyFrames(frames[..index + 1]) == DestroyFrames(frames[..index]) + Destroys(DestroyFrame(frames[index]))
  {
    var next := frames[..index + 1];
    assert next[..index] == frames[..index] && next[index] == frames[index];
  }

  /** One `if (h != VK_NULL_HANDLE) destroy(h);` statement, appended to the calls made so far. */
  method AppendIfLive(calls: seq<Teardown>, kind: PoolObject, handle: Handle) returns (after: seq<Teardown>)
    ensures after == calls + DestroyIfLive(kind, handle)
  {
    after := calls;
    if handle != Null {
      after := after + [Destroy(Release(kind, handle))];
    }
  }

  /** Every destroy call of the frames is on a non-null handle, and the frame array is not freed among them. */
  lemma {:induction false} DestroyFramesSafe(frames: seq<Frame>)
    ensures forall c :: c in DestroyFrames(frames) ==> c.Destroy? && c.release.handle != Null
  {
    if frames != [] {
      DestroyFramesSafe(frames[..|frames| - 1]);
    }
  }

  /** Each non-null uniform buffer, framebuffer and image view of every frame is destroyed. */
  lemma {:induction false} DestroyFramesComplete(frames: seq<Frame>, i: nat)
    requires i < |frames|
    ensures frames[i].uniformBuffer != Null ==>
              Destroy(Release(UniformBuffer, frames[i].uniformBuffer)) in DestroyFrames(frames)
    ensures frames[i].framebuffer != Null ==>
              Destroy(Release(Framebuffer, frames[i].framebuffer)) in DestroyFrames(frames)
    ensures frames[i].imageView != Null ==>
              Destroy(Release(ImageView, frames[i].imageView)) in DestroyFrames(frames)
  {
    var init := frames[..|frames| - 1];
    var own := DestroyFrame(frames[|frames| - 1]);
    if i < |frames| - 1 {
      assert init[i] == frames[i];
      DestroyFramesComplete(init, i);
    } else {
      forall c | c in own
        ensures Destroy(c) in Destroys(own)
      {
        var k :| 0 <= k < |own| && own[k] == c;
        assert Destroys(own)[k] == Destroy(c);
      }
    }
  }

  /** The pool's teardown destroys only non-null handles. */
  lemma PoolTeardownNonNull(
    layout: Handle, frames: seq<Frame>, pool: Handle, rendered: Handle, presented: Handle, fence: Handle)
    ensures forall c :: c in PoolTeardown(layout, frames, pool, rendered, presented, fence) && c.Destroy? ==>
              c.release.handle != Null
  {
    DestroyFramesSafe(frames);
  }

  /** The pool's teardown frees the frame array exactly once. */
  lemma PoolTeardownFreesOnce(
    layout: Handle, frames: seq<Frame>, pool: Handle, rendered: Handle, presented: Handle, fence: Handle)
    ensures multiset(PoolTeardown(layout, frames, pool, rendered, presented, fence))[FreeFrames] == 1
  {
    DestroyFramesSafe(frames);
    var calls := DestroyIfLive(DescriptorSetLayout, layout) + DestroyFrames(frames);
    assert FreeFrames !in calls;
    calls := calls + [FreeFrames];
    assert multiset(calls)[FreeFrames] == 1;
    NoFreeAppended(calls, DescriptorPool, pool);
    calls := calls + DestroyIfLive(DescriptorPool, pool);
    NoFreeAppended(calls, RenderedSemaphore, rendered);
    calls := calls + DestroyIfLive(RenderedSemaphore, rendered);
    NoFreeAppended(calls, PresentedSemaphore, presented);
    calls := calls + DestroyIfLive(PresentedSemaphore, presented);
    NoFreeAppended(calls, CommandFence, fence);
    calls := calls + DestroyIfLive(CommandFence, fence);
    assert calls == PoolTeardown(layout, frames, pool, rendered, presented, fence);
  }

  /** A single destroy statement appended to a run of calls adds no free of the frame array. */
  lemma NoFreeAppended(calls: seq<Teardown>, kind: PoolObject, handle: Handle)
    ensures multiset(calls + DestroyIfLive(kind, handle))[FreeFrames] == multiset(calls)[FreeFrames]
  {
    assert FreeFrames !in DestroyIfLive(kind, handle);
  }

  /** The pool's teardown destroys every non-null uniform buffer, framebuffer and image view of every frame. */
  lemma PoolTeardownComplete(
    layout: Handle, frames: seq<Frame>, pool: Handle, rendered: Handle, presented: Handle, fence: Handle, i: nat)
    requires i < |frames|
    ensures var calls := PoolTeardown(layout, frames, pool, rendered, presented, fence);
            (frames[i].uniformBuffer != Null ==> Destroy(Release(UniformBuffer, frames[i].uniformBuffer)) in calls) &&
            (frames[i].framebuffer != Null ==> Destroy(Release(Framebuffer, frames[i].framebuffer)) in calls) &&
            (frames[i].imageView != Null ==> Destroy(Release(ImageView, frames[i].imageView)) in calls)
    ensures var calls := PoolTeardown(layout, frames, pool, rendered, presented, fence);
            (layout != Null ==> Destroy(Release(DescriptorSetLayout, layout)) in calls) &&
            (pool != Null ==> Destroy(Release(DescriptorPool, pool)) in calls) &&
            (rendered != Null ==> Destroy(Release(RenderedSemaphore, rendered)) in calls) &&
            (presented != Null ==> Destroy(Release(PresentedSemaphore, presented)) in calls) &&
            (fence != Null ==> Destroy(Release(CommandFence, fence)) in calls)
  {
    DestroyFramesComplete(frames, i);
    PoolObjectsDestroyed(layout, frames, pool, rendered, presented, fence);
  }

  /**
   * The pool's teardown destroys each non-null pool-level object: the set
   * layout, the descriptor pool, the two semaphores and the fence, with or
   * without frames.
   */
  lemma PoolObjectsDestroyed(
    layout: Handle, frames: seq<Frame>, pool: Handle, rendered: Handle, presented: Handle, fence: Handle)
    ensures var calls := PoolTeardown(layout, frames, pool, rendered, presented, fence);
            (layout != Null ==> Destroy(Release(DescriptorSetLayout, layout)) in calls) &&
            (pool != Null ==> Destroy(Release(DescriptorPool, pool)) in calls) &&
            (rendered != Null ==> Destroy(Release(RenderedSemaphore, rendered)) in calls) &&
            (presented != Null ==> Destroy(Release(PresentedSemaphore, presented)) in calls) &&
            (fence != Null ==> Destroy(Release(CommandFence, fence)) in calls)
  {
    var head := DestroyIfLive(DescriptorSetLayout, layout);
    var middle := DestroyFrames(frames) + [FreeFrames];
    var p := DestroyIfLive(DescriptorPool, pool);
    var r := DestroyIfLive(RenderedSemaphore, rendered);
    var s := DestroyIfLive(PresentedSemaphore, presented);
    var f := DestroyIfLive(CommandFence, fence);
    var calls := PoolTeardown(layout, frames, pool, rendered, presented, fence);
    assert calls == head + middle + p + r + s + f;
    assert forall c :: c in head || c in p || c in r || c in s || c in f ==> c in calls;
  }
}
