/**
 * The control-flow discipline of a CUBE function. CUBE_BEGIN_FUNCTION
 * sets up an empty registry and a success status; CUBE_ASSERT and
 * VK_CHECK_RESULT jump to the error label when their condition fails;
 * CUBE_END_FUNCTION sets the failure status on the error path and cleans
 * the registry on every path. A function body is modelled as the list of
 * those macro uses, each carrying the value its condition had when it ran.
 */
module Scope {
  import opened Vk
  import opened Common
  import opened Handles
  import opened Heap
  import FailFast

  datatype Op =
    | Assert(holds: bool)     // CUBE_ASSERT(COND, MESSAGE)
    | Check(vkResult: int)    // VK_CHECK_RESULT(FUNC)
    | Record(block: Handle)   // CUBE_MALLOC, CUBE_CALLOC, CUBE_PUSH

  /** The op falls through to the next statement rather than jumping to the error label. */
  predicate Proceeds(op: Op)
  {
    match op
    case Assert(holds) => holds
    case Check(vkResult) => vkResult == VK_SUCCESS
    case Record(_) => true
  }

  /** The blocks the registry receives from the ops, in order. */
  function Recorded(ops: seq<Op>): (blocks: seq<Handle>)
    ensures |blocks| <= |ops|
  {
    if ops == [] then []
    else
      var last := ops[|ops| - 1];
      Recorded(ops[..|ops| - 1]) + (if last.Record? then [last.block] else [])
  }

  /** A body without allocations records nothing. */
  lemma {:induction false} RecordedNone(ops: seq<Op>)
    requires forall i :: 0 <= i < |ops| ==> !ops[i].Record?
    ensures Recorded(ops) == []
  {
    if ops != [] {
      RecordedNone(ops[..|ops| - 1]);
    }
  }

  /** How a CUBE function ends: its status, how many ops ran, and the registry's free calls. */
  datatype Exit = Exit(result: int, executed: nat, freed: seq<FreeCall>)

  /**
   * The effect of a body: the ops run up to and including the first one
   * that jumps; the status is CUBE_FAILURE exactly when some op jumps; the
   * blocks recorded by the ops that ran are freed, once each, in order.
   */
  function Run(body: seq<Op>): (e: Exit)
    ensures e.result == CUBE_SUCCESS || e.result == CUBE_FAILURE
    ensures e.result == CUBE_SUCCESS <==> forall i :: 0 <= i < |body| ==> Proceeds(body[i])
    ensures e.executed <= |body|
    ensures e.result == CUBE_SUCCESS ==> e.executed == |body|
    ensures e.result == CUBE_FAILURE ==> 0 < e.executed && !Proceeds(body[e.executed - 1])
    ensures forall k :: 0 <= k < |body| ==>
              (k < e.executed <==> FailFast.SucceededBefore(body, Proceeds, k))
    ensures e.freed == FreeAll(Recorded(body[..e.executed]))
  {
    var run := FailFast.RunSteps(body, Proceeds);
    var n := |run.attempted|;
    assert body[..n] == run.attempted;
    Exit(if run.ok then CUBE_SUCCESS else CUBE_FAILURE, n, FreeAll(Recorded(body[..n])))
  }

  /**
   * The macros executed statement by statement: a registry object, the two
   * status variables, the jump to the error label and the final clean.
   */
  method Execute(body: seq<Op>) returns (e: Exit)
    ensures e == Run(body)
  {
    var heap := new CubeHeap();
    var cubeResult := CUBE_SUCCESS;
    var vkResult := VK_SUCCESS;
    var index := 0;
    var jumped := false;
    while index < |body| && !jumped
      invariant 0 <= index <= |body|
      invariant heap.Valid() && !heap.cleaned
      invariant heap.blocks == Recorded(body[..index])
      invariant !jumped ==> FailFast.SucceededBefore(body, Proceeds, index)
      invariant jumped ==> 0 < index && !Proceeds(body[index - 1]) &&
                           FailFast.SucceededBefore(body, Proceeds, index - 1)
    {
      assert body[..index + 1][..index] == body[..index];
      match body[index] {
        case Assert(holds) =>
          if !holds {
            jumped := true;
          }
        case Check(result) =>
          vkResult := result;
          if vkResult != VK_SUCCESS {
            jumped := true;
          }
        case Record(block) =>
          heap.Push(block);
      }
      index := index + 1;
    }
    if jumped {
      cubeResult := CUBE_FAILURE;
    }
    var freed := heap.Clean();
    e := Exit(cubeResult, index, freed);
    assert FailFast.EndsAfter(body, Proceeds, index);
    FailFast.RunEndsAfter(body, Proceeds, index);
  }

  /** The body of a function made only of CUBE_ASSERTs, one per step. */
  function Asserts<S>(steps: seq<S>, succeeds: S -> bool): (body: seq<Op>)
    ensures |body| == |steps|
    ensures forall i :: 0 <= i < |steps| ==> body[i] == Assert(succeeds(steps[i]))
  {
    seq(|steps|, i requires 0 <= i < |steps| => Assert(succeeds(steps[i])))
  }

  /**
   * A CUBE function that asserts the success of each step in turn: step k
   * runs exactly when every earlier step succeeded, the status is success
   * exactly when every step succeeds, and only the empty registry is freed.
   */
  function RunAsserts<S>(steps: seq<S>, succeeds: S -> bool): (e: Exit)
    ensures e.result == CUBE_SUCCESS || e.result == CUBE_FAILURE
    ensures e.result == CUBE_SUCCESS <==> forall i :: 0 <= i < |steps| ==> succeeds(steps[i])
    ensures e.executed <= |steps|
    ensures e.result == CUBE_FAILURE ==> 0 < e.executed && !succeeds(steps[e.executed - 1])
    ensures forall k :: 0 <= k < |steps| ==>
              (k < e.executed <==> FailFast.SucceededBefore(steps, succeeds, k))
    ensures e.freed == [FreeArray]
  {
    var body := Asserts(steps, succeeds);
    var e := Run(body);
    RecordedNone(body[..e.executed]);
    assert forall k :: 0 <= k <= |steps| ==>
      (FailFast.SucceededBefore(body, Proceeds, k) <==> FailFast.SucceededBefore(steps, succeeds, k));
    e
  }
}
