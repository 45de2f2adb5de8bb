/**
 * A fail-fast sequence of steps: each step runs only when every earlier
 * step succeeded, and the first failure ends the sequence with a failure
 * status. This is what a chain of `status = step(); if (status != SUCCESS)
 * goto error;` statements does.
 */
module FailFast {
  /** The steps that were started, and whether the whole sequence succeeded. */
  datatype Run<S> = Run(attempted: seq<S>, ok: bool)

  /** Every one of the first k steps succeeds. */
  ghost predicate SucceededBefore<S>(steps: seq<S>, succeeds: S -> bool, k: nat)
    requires k <= |steps|
  {
    forall j :: 0 <= j < k ==> succeeds(steps[j])
  }

  function RunSteps<S>(steps: seq<S>, succeeds: S -> bool): (r: Run<S>)
    ensures r.attempted <= steps
    ensures r.ok <==> forall i :: 0 <= i < |steps| ==> succeeds(steps[i])
    ensures r.ok ==> r.attempted == steps
    ensures !r.ok ==> 0 < |r.attempted| && !succeeds(r.attempted[|r.attempted| - 1])
    ensures forall i :: 0 <= i < |r.attempted| - 1 ==> succeeds(r.attempted[i])
    // step k is started exactly when every step before it succeeded
    ensures forall k :: 0 <= k < |steps| ==>
              (k < |r.attempted| <==> SucceededBefore(steps, succeeds, k))
  {
    if steps == [] then Run([], true)
    else if !succeeds(steps[0]) then Run([steps[0]], false)
    else
      var rest := RunSteps(steps[1..], succeeds);
      assert forall j :: 1 <= j < |steps| ==> steps[j] == steps[1..][j - 1];
      Run([steps[0]] + rest.attempted, rest.ok)
  }

  /**
   * A step-by-step execution that ended after n steps: either all steps
   * succeeded, or step n-1 is the first that failed.
   */
  ghost predicate EndsAfter<S>(steps: seq<S>, succeeds: S -> bool, n: nat)
  {
    (n == |steps| && SucceededBefore(steps, succeeds, n)) ||
    (0 < n <= |steps| && SucceededBefore(steps, succeeds, n - 1) && !succeeds(steps[n - 1]))
  }

  /** RunSteps starts exactly the steps such an execution ran. */
  lemma RunEndsAfter<S>(steps: seq<S>, succeeds: S -> bool, n: nat)
    requires EndsAfter(steps, succeeds, n)
    ensures |RunSteps(steps, succeeds).attempted| == n
    ensures RunSteps(steps, succeeds).ok <==> SucceededBefore(steps, succeeds, n) && n == |steps|
  {
    var m := |RunSteps(steps, succeeds).attempted|;
    if n == |steps| && SucceededBefore(steps, succeeds, n) {
      assert RunSteps(steps, succeeds).ok;
    } else {
      assert n - 1 < m;
      if n < |steps| {
        assert !SucceededBefore(steps, succeeds, n);
      }
    }
  }
}
