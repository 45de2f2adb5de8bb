/**
 * How the swapchain images are shared between the graphics and the
 * presentation queue family. Both renderers apply the same rule.
 */
module Queues {
  import opened Vk

  datatype Sharing = Sharing(mode: SharingMode, queueFamilyIndices: seq<int>)

  /**
   * Exclusive ownership when one family does both jobs; otherwise
   * concurrent use by exactly the two families, graphics first.
   */
  function SwapchainSharing(graphicsFamily: int, presentFamily: int): (s: Sharing)
    ensures s.mode == Concurrent <==> graphicsFamily != presentFamily
    ensures s.mode == Exclusive <==> s.queueFamilyIndices == []
    ensures s.mode == Concurrent ==>
              |s.queueFamilyIndices| == 2 && s.queueFamilyIndices[0] == graphicsFamily &&
              (set f | f in s.queueFamilyIndices) == {graphicsFamily, presentFamily}
  {
    if graphicsFamily != presentFamily then Sharing(Concurrent, [graphicsFamily, presentFamily])
    else Sharing(Exclusive, [])
  }

  /** unique_queue_count: how many distinct families the two indices name. */
  function UniqueQueueCount(graphicsFamily: int, presentFamily: int): (n: nat)
    ensures n == |{graphicsFamily, presentFamily}|
    ensures n == 2 <==> graphicsFamily != presentFamily
    ensures n == 1 <==> graphicsFamily == presentFamily
  {
    assert graphicsFamily == presentFamily ==> {graphicsFamily, presentFamily} == {graphicsFamily};
    if graphicsFamily != presentFamily then 2 else 1
  }

  /**
   * The queue families the logical device requests one queue from: the
   * first queueCreateInfoCount entries of [graphics, present], which is the
   * graphics family, then the present family when it differs. Each family
   * is requested exactly once.
   */
  function QueueCreateFamilies(graphicsFamily: int, presentFamily: int): (families: seq<int>)
    ensures |families| == UniqueQueueCount(graphicsFamily, presentFamily)
    ensures families[0] == graphicsFamily
    ensures forall f :: f in families <==> f == graphicsFamily || f == presentFamily
    ensures forall i, j :: 0 <= i < j < |families| ==> families[i] != families[j]
  {
    var families := [graphicsFamily, presentFamily][..UniqueQueueCount(graphicsFamily, presentFamily)];
    assert graphicsFamily == presentFamily ==> families == [graphicsFamily];
    assert graphicsFamily != presentFamily ==> families == [graphicsFamily, presentFamily];
    families
  }
}
