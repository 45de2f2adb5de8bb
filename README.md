# johnnyscube, modelled in Dafny

johnnyscube draws a spinning cube. Its repository holds three programs
that do not link together:

- an OpenGL prototype (`src/main2.c`);
- an SDL2 + Vulkan renderer with sound (`src/application.c`, `src/audio.c`,
  `src/graphics.c`);
- a second Vulkan renderer built on a per-function allocation registry
  (`src/cube/**`, with the headers `src/include/application/common.h` and
  `src/include/cube.h`).

Between the calls into Vulkan, SDL and VMA sits a layer of sequential
decision logic. This project models that layer and proves what it promises:

- the registry and the CUBE error macros (every exit frees every recorded
  block once, and the status is failure exactly when an assertion or a
  Vulkan check failed);
- the clamp macro, including its behaviour with inverted bounds;
- the single-clip audio cursor;
- the first-match scans that choose queue families, surface formats, depth
  formats and memory types;
- the swapchain's image count, extent and sharing mode;
- the fail-fast create and render sequences and the null-skipping destroy
  sequences;
- the frame pool's indexing and rotation angle;
- the cube mesh tables;
- the keyboard and event state machines of the three programs.

Everything the code asks of Vulkan, SDL, VMA, the C library, the clock or
`rand()` is a parameter of the model. It is either the value the call
returned (a `Reply` holds a result code and the handle written), or an
oracle function from an index to that value. Event loops run over a finite
sequence of polled events. Where the source updates a record in place, the
model is a class with `modifies` frames:

- `CubeTypes.CubeGraphics` is the `cube_graphics` record;
- `Audio.AudioState` is the audio state;
- `Heap.CubeHeap` is the registry;
- the applications' loop flags and `GlMain.Context` are classes too.

Loops become `while` loops with invariants, proved against pure
specification functions.

## Model

| member | source | states |
|---|---|---|
| Common.Clamp | src/include/application/common.h:116-117 | the result is x, lo or hi; within [lo, hi] and equal to x when x is already in range if lo <= hi; lo when x is below lo, hi when x is at least lo and above hi; with lo > hi never x, but lo below lo and hi otherwise |
| Common.ClampIdempotent | src/include/application/common.h:116-117 | with lo <= hi, clamping a clamped value changes nothing |
| Common.ClampInvertedAlternates | src/include/cube.h:96-97 | the same macro in cube.h with lo > hi: a second clamp always changes the value, so clamping is not idempotent there |
| Common.ToUint32 | src/graphics.c:491-492 | the `(uint32_t)` cast of the drawable size lies in [0, 2^32), is congruent to its argument modulo 2^32 and keeps values already in range |
| Common.ToInt32 | src/cube/graphics/frame.c:212 | the `(int)` narrowing of the clock difference lies in [-2^31, 2^31), is congruent modulo 2^32 and keeps values already in range |
| Common.CDiv | src/cube/graphics/frame.c:212 | C's `/`: the quotient truncates toward zero, bracketing the dividend from below for non-negative and from above for negative dividends |
| Common.CRem | src/cube/graphics/frame.c:214 | C's `%`: below the divisor in magnitude, with the dividend's sign, `a == CDiv(a, b) * b + r`, and equal to Dafny's `%` for non-negative dividends |
| Heap.FreeAll | src/cube/application/common.c:53-61 | a clean makes one free per recorded block, in index order, then one free of the array |
| Heap.CubeHeap.constructor | src/include/application/common.h:70-78 | CUBE_BEGIN_FUNCTION starts with an empty registry: no blocks and a count of 0 |
| Heap.CubeHeap.Push | src/cube/application/common.c:26-31 | cube_heap_push appends the block and counts it; earlier entries are unchanged |
| Heap.CubeHeap.Malloc | src/cube/application/common.c:33-41 | cube_heap_malloc returns exactly what the allocator returned and records it as the new last entry, NULL included |
| Heap.CubeHeap.Calloc | src/cube/application/common.c:43-51 | cube_heap_calloc likewise returns and records the allocator's result, NULL included |
| Heap.CubeHeap.Clean | src/cube/application/common.c:53-61 | the free calls are FreeAll of the recorded blocks; the fields are not reset and the registry is marked cleaned, so it cannot be cleaned twice |
| FailFast.RunSteps | src/graphics.c:61-108 | a `status = step(); if failed goto error` chain: step k starts exactly when every earlier step succeeded, the run succeeds exactly when every step does, and a failed run ends with its first failing step |
| FailFast.RunEndsAfter | src/include/application/common.h:88-99 | any step-by-step execution that stopped after n steps at its first failure, or after all steps, agrees with RunSteps |
| Scope.Run | src/include/application/common.h:80-114 | a body of CUBE_ASSERT, VK_CHECK_RESULT and allocation ops: the status is failure exactly when some op fails, op k runs exactly when every earlier op proceeded, and the blocks recorded by the ops that ran are freed once each, in order, on both exits |
| Scope.Execute | src/include/cube.h:50-94 | the macros executed one statement at a time, with a registry object, a jump to the error label and one clean, give exactly Scope.Run |
| Scope.RunAsserts | src/include/application/common.h:88-99 | a function made only of CUBE_ASSERTs over its helpers: step k runs exactly when every earlier step succeeded, success exactly when all do, and only the empty registry array is freed |
| Handles.SkipNull | src/cube/graphics/image.c:30-44 | a run of `if (h != VK_NULL_HANDLE) destroy(h)` statements destroys every non-null handle and only non-null handles |
| Handles.SkipNullKeepsOrder | src/cube/graphics/pipeline.c:22-32 | skipping null handles never reorders the remaining destroy calls |
| Vk.FirstAttachable | src/cube/graphics/image.c:150-178 | the position of the first candidate format whose optimal-tiling features allow depth/stencil attachment; no earlier candidate allows it |
| Queues.SwapchainSharing | src/cube/graphics/image.c:120-136 | concurrent sharing exactly when the graphics and present families differ, with exactly those two indices, graphics first; otherwise exclusive with no indices |
| Queues.UniqueQueueCount | src/cube/graphics/device.c:93 | unique_queue_count is the number of distinct families: 2 exactly when the indices differ, 1 exactly when they are equal |
| Queues.QueueCreateFamilies | src/graphics.c:389-412 | the logical device requests one queue from each distinct family, graphics first, with no family requested twice |
| Surface.ClampExtent | src/cube/graphics/image.c:60-68 | each dimension of the display size is clamped separately into the surface's image-extent limits: kept when already within them, the minimum when below it, the maximum when at least the minimum and above the maximum |
| Surface.ClampExtentIdempotent | src/cube/graphics/pipeline.c:48-56 | the pipeline's copy clamps the already clamped size again; with consistent limits this changes nothing |
| Surface.FirstPreferred | src/cube/graphics/image.c:86-98 | the position of the first B8G8R8A8_UNORM surface format; no earlier entry has that format |
| Surface.ScanFormats | src/cube/graphics/pipeline.c:74-86 | the format loop finds a format exactly when one is listed and then keeps the first; otherwise the chosen format is the last entry examined |
| Surface.CreateSurfaceProperties | src/cube/graphics/image.c:46-100 | success exactly when the three queries succeed and a B8G8R8A8_UNORM format is listed; the capabilities are stored, the display size is clamped once they are read, and the surface format follows the scan |
| Images.CreateImages | src/cube/graphics/image.c:9-28 | surface properties, swapchain, depth format, depth image and depth view run in order, each only after every earlier one succeeded |
| Images.DestroyImages | src/cube/graphics/image.c:30-44 | the depth view, the depth image and the swapchain are destroyed in that order, each exactly when its handle is not null |
| Images.MinImageCountAsWritten | src/cube/graphics/image.c:112-115 | CLAMP(2, min, max) as written: within the surface limits when they are consistent, and 2 when they allow it; when min > max it is min if min > 2 and max otherwise, so with maxImageCount 0 (no limit) it is min when min > 2 and 0 otherwise |
| Images.AsWrittenBelowMinimum | src/cube/graphics/image.c:112-115 | on an unbounded surface with a minimum of 1 or 2 the request is 0, below the surface minimum |
| Images.AsWrittenUnboundedSurface | src/cube/graphics/image.c:112-115 | a surface with minimum 2 and no maximum gets a request of 0 images |
| Images.MinImageCount | src/cube/graphics/image.c:112-115 | the corrected count: never below the surface minimum, never above a real maximum, exactly 2 when the limits allow it, and equal to the as-written value whenever a maximum is set |
| Images.SwapchainInfoFor | src/cube/graphics/image.c:102-145 | the swapchain request as written: its image count is CLAMP(2, min, max), so it lies within the surface limits only when min <= max, is 2 when the limits allow it, and with maxImageCount 0 is min when min > 2 and 0 otherwise; plus the chosen format and colour space, the display size, and the sharing rule |
| Images.SwapchainInfoCorrected | src/cube/graphics/image.c:102-145 | the request with the corrected image count: never below the surface minimum when the limits are consistent or unbounded, never above a real maximum, every other field as the source builds it, and identical to the source's request whenever a maximum is set |
| Images.CreateSwapchain | src/cube/graphics/image.c:102-145 | the request, as the source writes it, is built from the record's current fields, and the swapchain handle the call writes is stored; success exactly when the call succeeds |
| Images.CreateDepthFormat | src/cube/graphics/image.c:147-186 | the depth format is the first of D32, D32_S8, D24_S8 usable as a depth/stencil attachment, else UNDEFINED with failure; stencil support is set exactly on success with D32_S8 or D24_S8 |
| Images.CreateDepthImage | src/cube/graphics/image.c:188-221 | one exclusive image of the depth format and the display size; its handle is stored |
| Images.CreateDepthImageView | src/cube/graphics/image.c:223-246 | a view of the stored depth image in the depth format; its handle is stored |
| Pipeline.CreatePipeline | src/cube/graphics/pipeline.c:7-20 | surface properties, render pass and graphics pipeline run in order, each only after every earlier one succeeded |
| Pipeline.CreateGraphicsPipeline | src/cube/graphics/pipeline.c:272-314 | the vertex shader loads before the fragment shader and a failed load ends the function; the set layout, pipeline layout and pipeline are each stored only after every earlier step succeeded; both shader modules are destroyed, fragment first, on success only |
| Pipeline.DestroyPipelineObjects | src/cube/graphics/pipeline.c:22-32 | the pipeline and then the render pass are destroyed, each exactly when its handle is not null |
| Device.CreateDevice | src/cube/graphics/device.c:9-18 | physical device, queue families, logical device, allocator and command pool run in order, each only after every earlier one succeeded |
| Device.CreatePhysicalDevice | src/cube/graphics/device.c:30-40 | at most one device is taken (the first reported) and the function always succeeds, its only assertion being 1 > 0 |
| Device.FirstGraphicsFamily | src/cube/graphics/device.c:66-72 | the first family with the graphics bit, its queue count not looked at |
| Device.PresentQueriesEnd | src/cube/graphics/device.c:73-81 | the family at which present-support queries stop: the first whose query fails or reports support |
| Device.Examined | src/cube/graphics/device.c:64-85 | the loop passes made: all of them unless a query failed |
| Device.CreateQueueFamiliesAsWritten | src/cube/graphics/device.c:42-86 | a failed calloc fails at once; queries run only until support is found and a failed query ends the function; the graphics family is the first with the graphics bit among the passes made; success exactly when both were found; the present index of the record is never assigned |
| Device.PresentIndexLostOnFreshRecord | src/cube/graphics/device.c:42-86 | the scan run on a freshly allocated record over two graphics families, only the second able to present: it reports success while the record's present family is 0, a family that cannot present |
| Device.PresentIndexLost | src/cube/graphics/device.c:64-85 | two graphics families of which only the second presents: the scan succeeds yet the record's present index stays 0, so one queue is requested from a family that cannot present |
| Device.CreateQueueFamilies | src/cube/graphics/device.c:42-86 | the corrected scan: as above, and the family whose query first reports support becomes the present family; on success the graphics family has the graphics bit and the present family supports presentation |
| Device.CreateLogicalDevice | src/cube/graphics/device.c:88-134 | one queue is requested from each distinct family of the record, unique_queue_count of them, graphics first; the device handle is stored; success exactly when creation succeeds |
| Frames.CreateFrame | src/cube/graphics/frame.c:315-390 | the index is set first; image view, framebuffer, command buffer and uniform buffer are created in order, each only after the previous succeeded; success exactly when all four do; every call reached stores the handle it wrote, failed or not, and fields of calls not reached keep their old values, so a partly built frame holds exactly what teardown will see; the mapping is kept only on success; the descriptor set is untouched |
| Frames.CreateFrames | src/cube/graphics/frame.c:44-53 | frame i is built with index i for each i in turn; the first failing frame ends the loop and later frames are unchanged; success exactly when every frame succeeds |
| Frames.CreateDescriptorPool | src/cube/graphics/frame.c:392-412 | descriptorCount and maxSets both equal frame_count; the pool handle is stored |
| Frames.FillLayouts | src/cube/graphics/frame.c:438-443 | the layouts array holds frame_count copies of the descriptor-set layout |
| Frames.FirstUnmapped | src/cube/graphics/frame.c:451-458 | the position of the first frame without a uniform-buffer mapping |
| Frames.CreateDescriptorSets | src/cube/graphics/frame.c:414-461 | success exactly when both callocs and the allocation succeed and every frame is mapped; frame i receives descriptor set i, written with frame i's uniform buffer, up to and including the first unmapped frame; later frames are unchanged |
| Frames.CreateSyncObjects | src/cube/graphics/frame.c:67-96 | the rendered semaphore, the presented semaphore and the fence are created in order, each only after the previous succeeded |
| Frames.CreateFramePool | src/cube/graphics/frame.c:12-65 | frame_count is the swapchain image count and the frame array has that many entries; a failed image listing changes nothing, the synchronisation handles included; the rendered semaphore, presented semaphore and fence hold their replies' handles exactly when the steps before them succeeded and keep their old values otherwise; success exactly when every step succeeds, and then frame i holds index i, its own objects and descriptor set i |
| Frames.AcquireFrame | src/cube/graphics/frame.c:98-129 | wait, reset and acquire run in order up to the first failure; the frame handed back is the one at the acquired index, exactly on success |
| Frames.ElapsedStep | src/cube/graphics/frame.c:211-212 | the step is the clock difference divided by 10 with truncation: a tenth of a non-negative difference rounded down, and bounded by 2^31 / 10 in magnitude |
| Frames.NextTheta | src/cube/graphics/frame.c:214 | the new angle lies in (-360, 360), is congruent to theta + step modulo 360, and is (theta + step) mod 360 when that sum is non-negative |
| Frames.UpdateObject | src/cube/graphics/frame.c:208-226 | the timestamp becomes the clock reading and the angle advances by the elapsed step before the mapping is checked; failure exactly when the frame has no mapping |
| Frames.SpinIsTotalRotation | src/cube/graphics/frame.c:211-214 | from an angle in [0, 360), with a clock that never runs backwards, the angle stays in [0, 360) and equals the start plus every step taken, modulo 360 |
| Frames.DestroyFrame | src/cube/graphics/frame.c:503-520 | the uniform buffer, framebuffer and image view are destroyed in that order, each exactly when its handle is not null |
| Frames.DestroyIfLive | src/cube/graphics/frame.c:284-313 | one statement of the pool's teardown destroys its own object exactly when the handle is not null, and nothing else |
| Frames.DestroyFramePool | src/cube/graphics/frame.c:284-313 | the teardown, statement by statement, makes exactly the calls of PoolTeardown over the first frame_count frames |
| Frames.DestroyEachFrame | src/cube/graphics/frame.c:292-295 | the frame loop destroys frame 0 to frame_count - 1 in order, each by DestroyFrame |
| Frames.DestroyFramesSafe | src/cube/graphics/frame.c:292-295 | every call the frame loop makes destroys a non-null handle |
| Frames.DestroyFramesComplete | src/cube/graphics/frame.c:292-295 | every non-null uniform buffer, framebuffer and image view of every frame is destroyed |
| Frames.PoolTeardownNonNull | src/cube/graphics/frame.c:284-313 | the whole teardown destroys only non-null handles |
| Frames.PoolTeardownFreesOnce | src/cube/graphics/frame.c:284-313 | the frame array is freed exactly once |
| Frames.PoolTeardownComplete | src/cube/graphics/frame.c:284-313 | every frame's non-null objects, and the non-null set layout, descriptor pool, both semaphores and fence, are destroyed by the pool's teardown |
| Frames.PoolObjectsDestroyed | src/cube/graphics/frame.c:284-313 | the non-null set layout, descriptor pool, rendered and presented semaphores and fence are each destroyed by the pool's teardown, whatever the frames |
| Mesh.TrianglesWithin | src/cube/graphics/object.c:15-21 | an index table passes exactly when it holds whole triangles and every index names one of the vertices |
| Mesh.CubeIndicesWithin | src/cube/graphics/object.c:6-21 | the cube has 8 vertices and 36 indices, 12 triangles, every index below 8 |
| Mesh.TrianglesDistinct | src/cube/graphics/object.c:15-21 | checking an index table one triangle at a time passes exactly when every triangle names three different vertices |
| Mesh.CubeTrianglesNonDegenerate | src/cube/graphics/object.c:15-21 | each of the 12 triangles names three different vertices |
| Mesh.CubeUsesEveryVertex | src/cube/graphics/object.c:6-21 | every vertex is used by some triangle |
| Mesh.CreateObject | src/cube/graphics/object.c:3-50 | a failed record allocation fails at once; the vertex buffer uploads before the index buffer and the first failure ends the function; the counts become 8 and 36 only after both uploads succeed and stay 0 otherwise |
| Mesh.DestroyObject | src/cube/graphics/object.c:52-69 | the vertex buffer and then the index buffer are destroyed, each exactly when its handle is not null |
| Audio.Deliver | src/audio.c:121-140 | one callback copies the next bytes of the clip in order, all of the request while more than that remains, otherwise the rest of the clip, which then retires |
| Audio.Mixed | src/audio.c:112-140 | the output buffer is the copied bytes followed by silence, exactly as long as the request |
| Audio.PlaybackIsClipSegment | src/audio.c:123-139 | successive callbacks play one contiguous stretch of the clip from the offset: no byte is skipped or repeated, up to the clip's end or the bytes requested |
| Audio.AudioState.constructor | src/audio.c:8-12 | audio_create: a zero-filled state with no clips and no current clip |
| Audio.AudioState.Initialize | src/audio.c:32-50 | one slot per fgets read in order (fgets reads at most 126 characters, so a line of 126 or more characters before its newline takes more than one read and so more than one slot), each empty unless its load succeeded; no clip is current |
| Audio.AudioState.PlayRandom | src/audio.c:64-78 | with no clip playing, clip `random % wav_count` starts at offset 0; a playing clip is left alone; the offset never exceeds the clip's size |
| Audio.AudioState.Callback | src/audio.c:102-142 | the stream is silence with the delivered bytes over its start; the offset advances by the request while the clip goes on, and the clip is retired otherwise; with no clip the stream is silent and nothing changes |
| Audio.Fill | src/audio.c:112-117 | SDL_memset sets every byte of the stream to the silence value |
| Audio.Copy | src/audio.c:126-137 | SDL_memcpy replaces the first bytes of the stream and leaves the rest |
| Application.Create | src/application.c:7-22 | SDL init, allocation, audio and graphics run in order, each only after every earlier one succeeded |
| Application.Destroy | src/application.c:52-61 | the subsystems and the application are released exactly when the application is not NULL, and SDL_Quit is called in every case, last and once |
| Application.App.HandleKeyboardEvent | src/application.c:63-78 | repeats are ignored; a first Escape press stops the loop; any other first press starts a random clip and leaves the flag alone |
| Application.App.Loop | src/application.c:24-50 | each pass renders and then handles the polled event; the loop ends after the first quit request or Escape press, render failures not stopping it; it returns 0 |
| CubeApplication.Create | src/cube/application/application.c:7-22 | a NULL handle fails first; then SDL init, allocation and graphics, each only after every earlier step succeeded |
| CubeApplication.App.HandleKeyboardEvent | src/cube/application/application.c:60-72 | a first Escape press stops the loop; every other key event changes nothing |
| CubeApplication.App.Loop | src/cube/application/application.c:24-51 | a failed render ends the loop with CUBE_FAILURE before polling; a quit request or Escape press ends it with CUBE_SUCCESS; the registry is cleaned on both exits |
| GlMain.Context.GetScreenSize | src/main2.c:110-123 | the size is stored only when the display-mode query returns SDL_OK, and the query's status is returned |
| GlMain.Context.HandleEvent | src/main2.c:175-202 | only key-down events are handled; repeats are ignored; Escape stops the loop; any other key flips rotation and plays the sound |
| GlMain.Context.MainLoop | src/main2.c:126-142 | each pass handles the polled event and then renders; only an Escape press ends the loop; rotation ends flipped exactly when an odd number of other keys were pressed |
| LegacyGraphics.Create | src/graphics.c:61-108 | the handle check, the allocation and the fourteen helpers run in order, each only after every earlier one succeeded |
| LegacyGraphics.Render | src/graphics.c:110-136 | acquire, reset, begin, begin-pass, end-pass, end, submit and present run in order, stopping at the first failure |
| LegacyGraphics.FindQueueFamilies | src/graphics.c:286-359 | the graphics index is the first family with queues and the graphics bit, and the present index the first with queues and support; each is fixed once found; support is queried only until it is found; failure exactly when either index stays -1 |
| LegacyGraphics.SwapchainRequestFor | src/graphics.c:438-519 | a request exists exactly when the first surface format is B8G8R8A8_UNORM; the drawable size, cast to uint32, is clamped per dimension into the extent limits (kept when within them, the minimum below, the maximum above); the surface minimum image count is requested; sharing follows the queue families |
| LegacyGraphics.CreatePerImage | src/graphics.c:569-617 | one handle per swapchain image, filled in order; the first failed create ends the loop with failure, later slots staying null |
| LegacyGraphics.FindDepthFormat | src/graphics.c:619-667 | the first of D32_S8, D32, D24_S8, D16_S8, D16 usable as a depth/stencil attachment; UNDEFINED and failure when none is |
| LegacyGraphics.FindMemoryTypeAsWritten | src/graphics.c:704-722 | the memory-type scan as written: the first index i with `i & memoryTypeBits` non-zero whose type is device local; failure exactly when the scan reaches the count |
| LegacyGraphics.AsWrittenRejectsTypeZero | src/graphics.c:708 | the as-written test never accepts memory type 0, whatever the mask |
| LegacyGraphics.AsWrittenPicksForbiddenType | src/graphics.c:704-722 | with two device-local types and a mask allowing only type 0, the as-written scan picks type 1, which the mask forbids |
| LegacyGraphics.MemoryTypeFor | src/graphics.c:704-722 | the corrected scan: the first device-local type whose bit is set in the mask, and None only when no type qualifies |
| CubeTypes.CubeGraphics.constructor | src/cube/graphics/graphics.c:10-11 | the calloc'd graphics record: every handle null, every count and index 0, zeroed surface capabilities, an undefined surface format, a fresh empty frame array and no mesh |

## Left out

- Every call into Vulkan, SDL and VMA is a parameter: the result it returned and the handle it wrote. The instance, window, surface, render pass, allocator, command pool and command recording are not modelled. Nor are `graphics_render_draw_frame`, `graphics_render_submit_frame` and `graphics_render_prepare_frame`.
- src/cube/graphics/display.c, src/cube/graphics/util.c and src/cube/graphics/graphics.c are thin wrappers over those calls and are not part of this model. The only exception is the calloc of the graphics record, modelled by `CubeTypes.CubeGraphics.constructor`.
- The entry points src/main.c and src/cube/main.c, the OpenGL setup and rendering in src/main2.c, and `audio_play` (src/main2.c:204-237) are not part of this model.
- Floating point is left out: the rotation and projection matrices of the uniform buffer, `graphics_create_initialize_object`'s matrices, and the `angle` derived from `theta`.
- Vertex coordinates and colours are kept only as constant data. `cube_vertex` in src/include/graphics/types.h declares `position[2]`, while the initialiser gives three coordinates and the pipeline's vertex attribute reads three floats. That layout mismatch concerns floating-point data the model does not interpret.
- The audio mutex and every other form of concurrency are left out: each callback and each play call is one atomic step. Fences and semaphores are handles only.
- File and device I/O are left out: reading the registry file (a registry that fails to open is not modelled), `SDL_LoadWAV` (each load's outcome is a parameter), opening the audio device, and shader loading (each load's outcome is a parameter).
- `realloc` failure in `audio_initialize` and `calloc` failure in `audio_create` are not modelled. Both functions return 0 regardless.
- `audio_destroy` is not part of this model.
- Heap.CubeHeap.Push, Malloc, Calloc: the SDL_realloc that grows the registry array (src/cube/application/common.c:28,36,46) is assumed to succeed. When it fails the source writes through the NULL it returned, which is undefined behaviour the model does not represent.
- `rand()` and `clock()` are parameters.
- Audio.AudioState.PlayRandom: requires at least one clip when none is playing, because the source divides by `wav_count`.
- Application.App.HandleKeyboardEvent: requires at least one clip only for a first press of a key other than Escape while no clip is playing, the one case that reaches that division.
- Application.App.Loop: requires at least one clip only when some polled event is a first press of a key other than Escape. A run on an empty registry made of quit requests, Escape presses and repeats is covered.
- Frames.ElapsedStep: models the `(int)` narrowing of the clock difference but not the width of `clock_t` itself; the clock readings are unbounded integers.
- `theta` and `timestamp` are fields of the model's graphics record although src/include/graphics/types.h does not declare `theta`. frame.c uses both.
- `cube_frame`'s `fence` field is not read or written by the modelled logic and is left out.
- Frames.DestroyFramePool: requires `frame_count` not to exceed the frame array. After a failed calloc of the frames the source still walks `frame_count` entries of a NULL array, which is undefined behaviour the model does not represent.
- Mesh.DestroyObject: requires the object record to exist, since the source dereferences it without a check. The object record itself is never freed by the source, and the model does not free it either.
- Surface.CreateSurfaceProperties: the CUBE_CALLOC of the surface-format array is not checked by the source, and its failure is not modelled.
- LegacyGraphics.CreatePerImage: models the fill loop over a successfully allocated array. The calloc failure path, which fails before the loop, is not modelled.
- LegacyGraphics.FindQueueFamilies: the present-support query's VkResult is not looked at by the source. The model takes only the VkBool32 it leaves behind.
- LegacyGraphics.SwapchainRequestFor: the capability and format queries before the choices are not modelled. An empty format list gives no request.
- The second renderer's `application_destroy` (src/cube/application/application.c:53-58) makes three unconditional calls with no decision logic. It is not modelled.
- `graphics_destroy_device` is not modelled: it only destroys the device objects.

## Findings

| source | as written | input that shows it | evidently intended | confidence | as-written member | corrected member |
|---|---|---|---|---|---|---|
| src/cube/graphics/image.c:112-115 | `minImageCount = CLAMP(2, min, max)` treats a `maxImageCount` of 0 as an upper bound | a surface with minImageCount 2 and maxImageCount 0 (no limit): the request is 0 images | 2 images, raised to the surface minimum, and lowered only to a real maximum | not executed | Images.AsWrittenUnboundedSurface | Images.MinImageCount |
| src/graphics.c:704-722 | the memory-type test ands the index `i` with `memoryTypeBits` instead of bit `i` | two device-local types and a mask of 1 (only type 0 allowed): type 1 is chosen | the first device-local type whose bit `1 << i` is set in the mask | not executed | LegacyGraphics.AsWrittenPicksForbiddenType | LegacyGraphics.MemoryTypeFor |
| src/cube/graphics/device.c:64-85 | the queue-family scan finds a present family but never stores its index | two graphics families of which only the second can present: the record's present index stays 0 | the family whose query first reports support becomes the present family | not executed | Device.PresentIndexLostOnFreshRecord | Device.CreateQueueFamilies |
