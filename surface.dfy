/**
 * graphics_create_surface_properties, which the second renderer defines
 * twice with the same body (once for its images, once for its pipeline):
 * read the surface capabilities, clamp the display size into the surface's
 * extent limits, list the surface formats and pick B8G8R8A8_UNORM.
 */
module Surface {
  import opened Vk
  import opened Common
  import opened CubeTypes

  /** The display size clamped, width and height separately, into the surface's image-extent limits. */
  function ClampExtent(size: Extent2D, caps: SurfaceCapabilities): (r: Extent2D)
    ensures caps.minImageExtent.width <= caps.maxImageExtent.width ==>
              caps.minImageExtent.width <= r.width <= caps.maxImageExtent.width
    ensures caps.minImageExtent.height <= caps.maxImageExtent.height ==>
              caps.minImageExtent.height <= r.height <= caps.maxImageExtent.height
    ensures caps.minImageExtent.width <= size.width <= caps.maxImageExtent.width ==> r.width == size.width
    ensures caps.minImageExtent.height <= size.height <= caps.maxImageExtent.height ==> r.height == size.height
    ensures size.width < caps.minImageExtent.width ==> r.width == caps.minImageExtent.width
    ensures caps.minImageExtent.width <= size.width && caps.maxImageExtent.width < size.width ==>
              r.width == caps.maxImageExtent.width
    ensures size.height < caps.minImageExtent.height ==> r.height == caps.minImageExtent.height
    ensures caps.minImageExtent.height <= size.height && caps.maxImageExtent.height < size.height ==>
              r.height == caps.maxImageExtent.height
  {
    Extent2D(
      Clamp(size.width, caps.minImageExtent.width, caps.maxImageExtent.width),
      Clamp(size.height, caps.minImageExtent.height, caps.maxImageExtent.height))
  }

  /**
   * Both renderer stages clamp the display size against the same
   * capabilities; when the limits are consistent the second clamp changes
   * nothing.
   */
  lemma ClampExtentIdempotent(size: Extent2D, caps: SurfaceCapabilities)
    requires caps.minImageExtent.width <= caps.maxImageExtent.width
    requires caps.minImageExtent.height <= caps.maxImageExtent.height
    ensures ClampExtent(ClampExtent(size, caps), caps) == ClampExtent(size, caps)
  {
  }

  /** The position of the first B8G8R8A8_UNORM entry; |formats| when there is none. */
  function FirstPreferred(formats: seq<SurfaceFormat>): (k: nat)
    ensures k <= |formats|
    ensures k < |formats| ==> formats[k].format == FORMAT_B8G8R8A8_UNORM
    ensures forall j :: 0 <= j < k ==> formats[j].format != FORMAT_B8G8R8A8_UNORM
  {
    if formats == [] then 0
    else if formats[0].format == FORMAT_B8G8R8A8_UNORM then 0
    else
      var k := FirstPreferred(formats[1..]);
      assert forall j :: 1 <= j < |formats| ==> formats[j] == formats[1..][j - 1];
      1 + k
  }

  /**
   * The surface-format loop: it walks the whole list, copying each entry
   * into the chosen format until one is B8G8R8A8_UNORM. It finds a format
   * exactly when the list holds one, and then the chosen format is the first
   * such entry; otherwise the chosen format is the last entry examined (the
   * previous value when the list is empty).
   */
  method ScanFormats(formats: seq<SurfaceFormat>, current: SurfaceFormat)
    returns (chosen: SurfaceFormat, found: bool)
    ensures found <==> FirstPreferred(formats) < |formats|
    ensures found ==> chosen == formats[FirstPreferred(formats)]
    ensures !found ==> chosen == (if formats == [] then current else formats[|formats| - 1])
  {
    chosen := current;
    found := false;
    var index := 0;
    while index < |formats|
      invariant 0 <= index <= |formats|
      invariant found <==> FirstPreferred(formats) < index
      invariant found ==> chosen == formats[FirstPreferred(formats)]
      invariant !found ==> chosen == (if index == 0 then current else formats[index - 1])
    {
      if !found {
        chosen := formats[index];
        if chosen.format == FORMAT_B8G8R8A8_UNORM {
          found := true;
        }
      }
      index := index + 1;
    }
  }

  /**
   * graphics_create_surface_properties. `capsResult` and `caps` are what
   * the capabilities query returned and wrote; `countResult` and
   * `formatsResult` are the two surface-format queries, the second one
   * filling `formats`. The function succeeds exactly when the three queries
   * succeed and a B8G8R8A8_UNORM format is listed.
   */
  method CreateSurfaceProperties(
    g: CubeGraphics, capsResult: int, caps: SurfaceCapabilities,
    countResult: int, formatsResult: int, formats: seq<SurfaceFormat>)
    returns (result: int)
    modifies g`surfaceCapabilities, g`displaySize, g`surfaceFormat
    ensures result == CUBE_SUCCESS || result == CUBE_FAILURE
    ensures result == CUBE_SUCCESS <==>
              capsResult == VK_SUCCESS && countResult == VK_SUCCESS && formatsResult == VK_SUCCESS &&
              FirstPreferred(formats) < |formats|
    ensures g.surfaceCapabilities == caps
    ensures g.displaySize == (if capsResult == VK_SUCCESS then ClampExtent(old(g.displaySize), caps)
                              else old(g.displaySize))
    ensures g.surfaceFormat ==
              if capsResult != VK_SUCCESS || countResult != VK_SUCCESS || formatsResult != VK_SUCCESS then
                old(g.surfaceFormat)
              else if FirstPreferred(formats) < |formats| then formats[FirstPreferred(formats)]
              else if formats == [] then old(g.surfaceFormat)
              else formats[|formats| - 1]
  {
    g.surfaceCapabilities := caps;
    if capsResult != VK_SUCCESS {
      return CUBE_FAILURE;
    }
    g.displaySize := Extent2D(
      Clamp(g.displaySize.width, caps.minImageExtent.width, caps.maxImageExtent.width),
      g.displaySize.height);
    g.displaySize := Extent2D(
      g.displaySize.width,
      Clamp(g.displaySize.height, caps.minImageExtent.height, caps.maxImageExtent.height));
    if countResult != VK_SUCCESS || formatsResult != VK_SUCCESS {
      return CUBE_FAILURE;
    }
    var chosen, found := ScanFormats(formats, g.surfaceFormat);
    g.surfaceFormat := chosen;
    if !found {
      return CUBE_FAILURE;
    }
    return CUBE_SUCCESS;
  }
}
