/**
 * The device stage of the second renderer: the physical device, the
 * queue-family scan, and the logical device's queue requests.
 */
module Device {
  import opened Vk
  import opened Common
  import opened Handles
  import opened Queues
  import opened CubeTypes
  import opened Heap
  import Scope
  import FailFast

  datatype CreateStep = PhysicalDevice | QueueFamilies | LogicalDevice | Allocator | CommandPool

  const CreateOrder: seq<CreateStep> := [PhysicalDevice, QueueFamilies, LogicalDevice, Allocator, CommandPool]

  /**
   * graphics_create_device: the five helpers in order, each asserted, so a
   * helper runs only when every earlier one succeeded.
   */
  function CreateDevice(succeeds: CreateStep -> bool): (e: Scope.Exit)
    ensures e.result == CUBE_SUCCESS <==> forall i :: 0 <= i < |CreateOrder| ==> succeeds(CreateOrder[i])
    ensures forall k :: 0 <= k < |CreateOrder| ==>
              (k < e.executed <==> FailFast.SucceededBefore(CreateOrder, succeeds, k))
    ensures e.executed <= |CreateOrder|
    ensures e.result == CUBE_FAILURE ==> 0 < e.executed && !succeeds(CreateOrder[e.executed - 1])
    ensures e.freed == [FreeArray]
  {
    Scope.RunAsserts(CreateOrder, succeeds)
  }

  /**
   * graphics_create_physical_device: the enumeration (`devices` is what the
   * instance reports) is asked for at most one device and its result is not
   * looked at; the only assertion, 1 > 0, always holds.
   */
  method CreatePhysicalDevice(g: CubeGraphics, devices: seq<Handle>) returns (result: int)
    modifies g`physicalDevice
    ensures result == CUBE_SUCCESS
    ensures g.physicalDevice == (if devices == [] then old(g.physicalDevice) else devices[0])
  {
    if devices != [] {
      g.physicalDevice := devices[0];
    }
    var body := [Scope.Assert(1 > 0)];
    var exit := Scope.Execute(body);
    result := exit.result;
  }

  /** What vkGetPhysicalDeviceSurfaceSupportKHR returned, and the VkBool32 it wrote. */
  datatype SupportReply = SupportReply(result: int, supported: bool)

  /** The position of the first family with the graphics bit (its queue count is not looked at); |families| when none has it. */
  function FirstGraphicsFamily(families: seq<QueueFamily>): (k: nat)
    ensures k <= |families|
    ensures k < |families| ==> HasGraphicsBit(families[k])
    ensures forall j :: 0 <= j < k ==> !HasGraphicsBit(families[j])
  {
    if families == [] then 0
    else if HasGraphicsBit(families[0]) then 0
    else
      var k := FirstGraphicsFamily(families[1..]);
      assert forall j :: 1 <= j < |families| ==> families[j] == families[1..][j - 1];
      1 + k
  }

  /** The present query for family i ends the querying: it fails or it reports support. */
  predicate EndsQueries(reply: SupportReply)
  {
    reply.result != VK_SUCCESS || reply.supported
  }

  /**
   * The family at which the present-support queries over n families stop
   * (`query(i)` is the reply for family i): the first whose query fails or
   * reports support; n when every query succeeds without support.
   */
  function PresentQueriesEnd(query: nat -> SupportReply, n: nat): (k: nat)
    ensures k <= n
    ensures k < n ==> EndsQueries(query(k))
    ensures forall j :: 0 <= j < k ==> !EndsQueries(query(j))
  {
    if n == 0 then 0
    else
      var k := PresentQueriesEnd(query, n - 1);
      if k < n - 1 then k
      else if EndsQueries(query(n - 1)) then n - 1
      else n
  }

  /** The scan stopped because a present-support query failed. */
  predicate QueryFailed(query: nat -> SupportReply, n: nat)
  {
    var k := PresentQueriesEnd(query, n);
    k < n && query(k).result != VK_SUCCESS
  }

  /** Some family reported present support before any query failed. */
  predicate PresentFound(query: nat -> SupportReply, n: nat)
  {
    var k := PresentQueriesEnd(query, n);
    k < n && query(k).result == VK_SUCCESS && query(k).supported
  }

  /** The loop passes the scan makes: up to the failed query, or all of them. */
  function Examined(query: nat -> SupportReply, n: nat): (m: nat)
    ensures m <= n
    ensures !QueryFailed(query, n) ==> m == n
  {
    if QueryFailed(query, n) then PresentQueriesEnd(query, n) + 1 else n
  }

  /**
   * graphics_create_queue_families as written. `familiesBlock` is the
   * registered calloc of the property array (null when it failed) and
   * `families` what the second property query fills it with. Each pass
   * takes the family as the graphics family when none is taken yet and it
   * has the graphics bit, then, while no present family has been seen,
   * queries present support, a failed query ending the function. The present
   * index of the graphics record is never assigned.
   */
  method CreateQueueFamiliesAsWritten(
    g: CubeGraphics, familiesBlock: Handle, families: seq<QueueFamily>, query: nat -> SupportReply)
    returns (result: int, queried: nat)
    modifies g`graphicsFamily
    ensures result == CUBE_SUCCESS || result == CUBE_FAILURE
    ensures familiesBlock == Null ==>
              result == CUBE_FAILURE && queried == 0 && g.graphicsFamily == old(g.graphicsFamily)
    ensures familiesBlock != Null ==>
              var n := |families|;
              var k := PresentQueriesEnd(query, n);
              var first := FirstGraphicsFamily(families);
              queried == (if k < n then k + 1 else n) &&
              g.graphicsFamily == (if first < Examined(query, n) then first else old(g.graphicsFamily)) &&
              (result == CUBE_SUCCESS <==> first < n && PresentFound(query, n))
    ensures g.presentFamily == old(g.presentFamily)
  {
    if familiesBlock == Null {
      return CUBE_FAILURE, 0;
    }
    ghost var n := |families|;
    ghost var k := PresentQueriesEnd(query, n);
    ghost var first := FirstGraphicsFamily(families);
    var foundGraphics := false;
    var foundPresent := false;
    queried := 0;
    var index := 0;
    while index < |families|
      invariant 0 <= index <= n
      invariant k >= index || (k < index && !QueryFailed(query, n))
      invariant foundGraphics <==> first < index
      invariant g.graphicsFamily == (if first < index then first else old(g.graphicsFamily))
      invariant foundPresent <==> k < index
      invariant queried == (if k < index then k + 1 else index)
    {
      if !foundGraphics && families[index].queueFlags & QUEUE_GRAPHICS_BIT != 0 {
        foundGraphics := true;
        g.graphicsFamily := index;
      }
      if !foundPresent {
        var reply := query(index);
        queried := queried + 1;
        if reply.result != VK_SUCCESS {
          return CUBE_FAILURE, queried;
        }
        foundPresent := reply.supported;
      }
      index := index + 1;
    }
    result := if foundGraphics && foundPresent then CUBE_SUCCESS else CUBE_FAILURE;
  }

  /**
   * The scan as evidently intended: the same passes and queries, and the
   * family whose query first reports support becomes the present family.
   */
  method CreateQueueFamilies(
    g: CubeGraphics, familiesBlock: Handle, families: seq<QueueFamily>, query: nat -> SupportReply)
    returns (result: int, queried: nat)
    modifies g`graphicsFamily, g`presentFamily
    ensures result == CUBE_SUCCESS || result == CUBE_FAILURE
    ensures familiesBlock == Null ==>
              result == CUBE_FAILURE && queried == 0 && g.graphicsFamily == old(g.graphicsFamily) &&
              g.presentFamily == old(g.presentFamily)
    ensures familiesBlock != Null ==>
              var n := |families|;
              var k := PresentQueriesEnd(query, n);
              var first := FirstGraphicsFamily(families);
              queried == (if k < n then k + 1 else n) &&
              g.graphicsFamily == (if first < Examined(query, n) then first else old(g.graphicsFamily)) &&
              g.presentFamily == (if PresentFound(query, n) then k else old(g.presentFamily)) &&
              (result == CUBE_SUCCESS <==> first < n && PresentFound(query, n))
    ensures result == CUBE_SUCCESS ==>
              HasGraphicsBit(families[g.graphicsFamily]) && query(g.presentFamily).supported
  {
    if familiesBlock == Null {
      return CUBE_FAILURE, 0;
    }
    ghost var n := |families|;
    ghost var k := PresentQueriesEnd(query, n);
    ghost var first := FirstGraphicsFamily(families);
    var foundGraphics := false;
    var foundPresent := false;
    queried := 0;
    var index := 0;
    while index < |families|
      invariant 0 <= index <= n
      invariant k >= index || (k < index && !QueryFailed(query, n))
      invariant foundGraphics <==> first < index
      invariant g.graphicsFamily == (if first < index then first else old(g.graphicsFamily))
      invariant foundPresent <==> k < index
      invariant g.presentFamily == (if k < index then k else old(g.presentFamily))
      invariant queried == (if k < index then k + 1 else index)
    {
      if !foundGraphics && families[index].queueFlags & QUEUE_GRAPHICS_BIT != 0 {
        foundGraphics := true;
        g.graphicsFamily := index;
      }
      if !foundPresent {
        var reply := query(index);
        queried := queried + 1;
        if reply.result != VK_SUCCESS {
          return CUBE_FAILURE, queried;
        }
        foundPresent := reply.supported;
        if foundPresent {
          g.presentFamily := index;
        }
      }
      index := index + 1;
    }
    result := if foundGraphics && foundPresent then CUBE_SUCCESS else CUBE_FAILURE;
  }

  /** Present support reported by the second family only. */
  function SecondFamilyPresents(family: nat): SupportReply
  {
    SupportReply(VK_SUCCESS, family == 1)
  }

  const TwoGraphicsFamilies: seq<QueueFamily> := [QueueFamily(QUEUE_GRAPHICS_BIT, 1), QueueFamily(QUEUE_GRAPHICS_BIT, 1)]

  /**
   * Two graphics families of which only the second can present: the scan
   * succeeds with family 0 for graphics and family 1 for presentation, yet
   * as written the present index of a fresh record stays 0, so the logical
   * device asks for a single queue, from family 0, which cannot present.
   */
  lemma PresentIndexLost()
    ensures FirstGraphicsFamily(TwoGraphicsFamilies) == 0
    ensures PresentFound(SecondFamilyPresents, 2) && PresentQueriesEnd(SecondFamilyPresents, 2) == 1
    ensures !SecondFamilyPresents(0).supported
    ensures QueueCreateFamilies(0, 0) == [0]
  {
    assert PresentQueriesEnd(SecondFamilyPresents, 1) == 1;
  }

  /**
   * The same loss on a freshly allocated graphics record: the scan over two
   * graphics families, of which only the second can present, reports
   * success, yet the record's present family is still 0 and that family
   * cannot present.
   */
  method PresentIndexLostOnFreshRecord() returns (result: int, presentFamily: nat)
    ensures result == CUBE_SUCCESS
    ensures presentFamily == 0 && !SecondFamilyPresents(presentFamily).supported
  {
    var g := new CubeGraphics();
    PresentIndexLost();
    var queried;
    result, queried := CreateQueueFamiliesAsWritten(g, Live(1), TwoGraphicsFamilies, SecondFamilyPresents);
    presentFamily := g.presentFamily;
  }

  /**
   * graphics_create_logical_device: one queue from each distinct family of
   * the record (unique_queue_count of them, graphics first), and the device
   * handle the create call writes.
   */
  method CreateLogicalDevice(g: CubeGraphics, reply: Reply) returns (result: int, requested: seq<int>)
    modifies g`logicalDevice
    ensures requested == QueueCreateFamilies(g.graphicsFamily, g.presentFamily)
    ensures |requested| == UniqueQueueCount(g.graphicsFamily, g.presentFamily)
    ensures g.logicalDevice == reply.handle
    ensures result == CUBE_SUCCESS <==> Succeeded(reply)
  {
    var uniqueQueueCount := if g.graphicsFamily != g.presentFamily then 2 else 1;
    var queueCreateInfos := [g.graphicsFamily as int, g.presentFamily as int];
    requested := queueCreateInfos[..uniqueQueueCount];
    g.logicalDevice := reply.handle;
    result := if Succeeded(reply) then CUBE_SUCCESS else CUBE_FAILURE;
  }
}
