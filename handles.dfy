/**
 * Opaque references. A C pointer or a Vulkan handle is either null
 * (NULL, VK_NULL_HANDLE) or names one live object.
 */
module Handles {
  datatype Handle = Null | Live(id: nat)

  /** One destroy or free call: which kind of object, and the handle passed. */
  datatype Release<K> = Release(kind: K, handle: Handle)

  /**
   * The calls made by a run of `if (h != VK_NULL_HANDLE) destroy(h);`
   * statements over `slots`, in order: every call is on a non-null handle
   * and every non-null slot is released.
   */
  function SkipNull<K>(slots: seq<Release<K>>): (calls: seq<Release<K>>)
    ensures |calls| <= |slots|
    ensures forall c :: c in calls ==> c.handle != Null && c in slots
    ensures forall s :: s in slots && s.handle != Null ==> s in calls
    ensures (forall s :: s in slots ==> s.handle == Null) ==> calls == []
  {
    if slots == [] then []
    else if slots[0].handle == Null then SkipNull(slots[1..])
    else [slots[0]] + SkipNull(slots[1..])
  }

  /** The slots are listed in strictly increasing order of `rank`. */
  ghost predicate Ordered<K>(slots: seq<Release<K>>, rank: K -> int)
  {
    forall i, j :: 0 <= i < j < |slots| ==> rank(slots[i].kind) < rank(slots[j].kind)
  }

  /** Skipping null handles never reorders the remaining calls. */
  lemma {:induction false} SkipNullKeepsOrder<K>(slots: seq<Release<K>>, rank: K -> int)
    requires Ordered(slots, rank)
    ensures Ordered(SkipNull(slots), rank)
  {
    if slots != [] {
      var rest := slots[1..];
      OrderedTail(slots, rank);
      SkipNullKeepsOrder(rest, rank);
      if slots[0].handle != Null {
        RankedBelow(slots, rank);
        HeadBelowOrdered(slots[0], SkipNull(rest), rank);
      }
    }
  }

  lemma OrderedTail<K>(slots: seq<Release<K>>, rank: K -> int)
    requires slots != [] && Ordered(slots, rank)
    ensures Ordered(slots[1..], rank)
  {
    var rest := slots[1..];
    forall i, j | 0 <= i < j < |rest|
      ensures rank(rest[i].kind) < rank(rest[j].kind)
    {
      assert rest[i] == slots[i + 1] && rest[j] == slots[j + 1];
    }
  }

  lemma HeadBelowOrdered<K>(head: Release<K>, tail: seq<Release<K>>, rank: K -> int)
    requires Ordered(tail, rank)
    requires forall s :: s in tail ==> rank(head.kind) < rank(s.kind)
    ensures Ordered([head] + tail, rank)
  {
    var calls := [head] + tail;
    forall i, j | 0 <= i < j < |calls|
      ensures rank(calls[i].kind) < rank(calls[j].kind)
    {
      assert calls[j] == tail[j - 1];
      if i > 0 {
        assert calls[i] == tail[i - 1];
      } else {
        assert tail[j - 1] in tail;
      }
    }
  }

  /** In an ordered list, the head ranks below every later slot. */
  lemma RankedBelow<K>(slots: seq<Release<K>>, rank: K -> int)
    requires slots != [] && Ordered(slots, rank)
    ensures forall s :: s in SkipNull(slots[1..]) ==> rank(slots[0].kind) < rank(s.kind)
  {
    forall s | s in SkipNull(slots[1..])
      ensures rank(slots[0].kind) < rank(s.kind)
    {
      assert s in slots[1..];
      var k :| 0 <= k < |slots[1..]| && slots[1..][k] == s;
      assert slots[k + 1] == s;
    }
  }
}
