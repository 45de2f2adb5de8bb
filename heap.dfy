/**
 * The per-function allocation registry (`cube_heap`). Every block a CUBE
 * function allocates through CUBE_MALLOC, CUBE_CALLOC or CUBE_PUSH is
 * appended to the registry, and CUBE_END_FUNCTION frees them all on the way
 * out, whether the function succeeded or jumped to its error label.
 */
module Heap {
  import opened Handles

  /** One SDL_free call made while cleaning the registry. */
  datatype FreeCall = FreeBlock(block: Handle) | FreeArray

  /** The free calls of a clean: every recorded block in order, then the array itself. */
  function FreeAll(blocks: seq<Handle>): (calls: seq<FreeCall>)
    ensures |calls| == |blocks| + 1 && calls[|blocks|] == FreeArray
    ensures forall i :: 0 <= i < |blocks| ==> calls[i] == FreeBlock(blocks[i])
  {
    seq(|blocks|, i requires 0 <= i < |blocks| => FreeBlock(blocks[i])) + [FreeArray]
  }

  class CubeHeap {
    /** The realloc-grown array of recorded blocks; NULL results are recorded too. */
    var blocks: seq<Handle>
    var blockCount: nat
    /** Set once the registry has been cleaned; a registry is cleaned once. */
    ghost var cleaned: bool

    ghost predicate Valid()
      reads this
    {
      blockCount == |blocks|
    }

    /** The `{NULL, 0}` initialiser of CUBE_BEGIN_FUNCTION. */
    constructor ()
      ensures Valid() && !cleaned
      ensures blocks == [] && blockCount == 0
    {
      blocks := [];
      blockCount := 0;
      cleaned := false;
    }

    /** cube_heap_push: grow the array by one slot and store the block in it. */
    method Push(block: Handle)
      requires Valid() && !cleaned
      modifies this
      ensures Valid() && !cleaned
      ensures blocks == old(blocks) + [block]
      ensures blockCount == old(blockCount) + 1
    {
      blocks := blocks + [block];
      blockCount := blockCount + 1;
    }

    /**
     * cube_heap_malloc: `obtained` is what SDL_malloc(size) returned. It is
     * recorded and returned as is, even when it is NULL.
     */
    method Malloc(size: nat, obtained: Handle) returns (block: Handle)
      requires Valid() && !cleaned
      modifies this
      ensures Valid() && !cleaned
      ensures block == obtained
      ensures blocks == old(blocks) + [obtained]
      ensures blockCount == old(blockCount) + 1
    {
      block := obtained;
      blocks := blocks + [block];
      blockCount := blockCount + 1;
    }

    /** cube_heap_calloc: as Malloc, with SDL_calloc(count, size) as the source of the block. */
    method Calloc(count: nat, size: nat, obtained: Handle) returns (block: Handle)
      requires Valid() && !cleaned
      modifies this
      ensures Valid() && !cleaned
      ensures block == obtained
      ensures blocks == old(blocks) + [obtained]
      ensures blockCount == old(blockCount) + 1
    {
      block := obtained;
      blocks := blocks + [block];
      blockCount := blockCount + 1;
    }

    /**
     * cube_heap_clean: free every recorded block in index order, then the
     * array. The fields are left as they were (not reset), so the registry
     * must not be cleaned or used again.
     */
    method Clean() returns (freed: seq<FreeCall>)
      requires Valid() && !cleaned
      modifies this
      ensures cleaned
      ensures blocks == old(blocks) && blockCount == old(blockCount)
      ensures freed == FreeAll(blocks)
    {
      freed := [];
      var index := 0;
      while index < blockCount
        invariant 0 <= index <= blockCount == |blocks|
        invariant freed == FreeAll(blocks[..index])[..index]
      {
        freed := freed + [FreeBlock(blocks[index])];
        index := index + 1;
      }
      assert blocks[..index] == blocks;
      freed := freed + [FreeArray];
      cleaned := true;
    }
  }
}
