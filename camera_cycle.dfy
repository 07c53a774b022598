/**
 * Camera switching of the observation mode as a state machine over the
 * scene's ordered camera list: LEFT and RIGHT move the current camera one
 * place back or forward, wrapping at both ends. The current camera is
 * located by a linear scan on identity, so a current camera missing from
 * the list is handled too (LEFT then picks the last camera, RIGHT the first).
 */
module CameraCycle {
  import opened Seqs

  /** No camera occurs twice: list elements have distinct addresses. */
  predicate Distinct<C(==)>(cams: seq<C>) {
    forall i, j :: 0 <= i < j < |cams| ==> cams[i] != cams[j]
  }

  /** LEFT: scan for `cur`; from the beginning jump past the end; then step back one. */
  function StepLeft<C(==)>(cams: seq<C>, cur: C): (r: C)
    requires |cams| > 0
    ensures r in cams
  {
    var ci := IndexOf(cams, cur);
    var ci' := if ci == 0 then |cams| else ci;
    cams[ci' - 1]
  }

  /** RIGHT: scan for `cur`; step forward one unless at the end; at the end go to the beginning. */
  function StepRight<C(==)>(cams: seq<C>, cur: C): (r: C)
    requires |cams| > 0
    ensures r in cams
  {
    var ci := IndexOf(cams, cur);
    var ci' := if ci != |cams| then ci + 1 else ci;
    var ci'' := if ci' == |cams| then 0 else ci';
    cams[ci'']
  }

  lemma IndexOfDistinct<C>(cams: seq<C>, i: nat)
    requires Distinct(cams) && i < |cams|
    ensures IndexOf(cams, cams[i]) == i
  {
  }

  /** With distinct cameras, LEFT from the camera at index `i` selects the one at index `i - 1`,
    * and from the first camera the last one. */
  lemma StepLeftAt<C>(cams: seq<C>, i: nat)
    requires Distinct(cams) && i < |cams|
    ensures StepLeft(cams, cams[i]) == cams[if i == 0 then |cams| - 1 else i - 1]
  {
    IndexOfDistinct(cams, i);
  }

  /** With distinct cameras, RIGHT from the camera at index `i` selects the one at index `i + 1`,
    * and from the last camera the first one. */
  lemma StepRightAt<C>(cams: seq<C>, i: nat)
    requires Distinct(cams) && i < |cams|
    ensures StepRight(cams, cams[i]) == cams[if i + 1 == |cams| then 0 else i + 1]
  {
    IndexOfDistinct(cams, i);
  }

  /** A current camera that is not in the list: LEFT goes to the last camera, RIGHT to the first. */
  lemma StepUnmatched<C>(cams: seq<C>, cur: C)
    requires |cams| > 0 && cur !in cams
    ensures StepLeft(cams, cur) == cams[|cams| - 1]
    ensures StepRight(cams, cur) == cams[0]
  {
  }

  /** With distinct cameras, RIGHT then LEFT, and LEFT then RIGHT, restore the camera. */
  lemma StepRoundTrip<C>(cams: seq<C>, cur: C)
    requires Distinct(cams) && cur in cams
    ensures StepLeft(cams, StepRight(cams, cur)) == cur
    ensures StepRight(cams, StepLeft(cams, cur)) == cur
  {
    var n := |cams|;
    var i := IndexOf(cams, cur);
    StepRightAt(cams, i);
    StepLeftAt(cams, i);
    var r := if i + 1 == n then 0 else i + 1;
    var l := if i == 0 then n - 1 else i - 1;
    StepLeftAt(cams, r);
    StepRightAt(cams, l);
  }

  /** With one camera, LEFT and RIGHT both select it: from it they change nothing. */
  lemma SingleCamera<C>(cams: seq<C>, cur: C)
    requires |cams| == 1
    ensures StepLeft(cams, cur) == cams[0]
    ensures StepRight(cams, cur) == cams[0]
  {
  }

  /** `n` RIGHT presses in a row. */
  function RightTimes<C(==)>(cams: seq<C>, cur: C, n: nat): (r: C)
    requires |cams| > 0
    ensures n > 0 ==> r in cams
  {
    if n == 0 then cur else StepRight(cams, RightTimes(cams, cur, n - 1))
  }

  /** `n` LEFT presses in a row. */
  function LeftTimes<C(==)>(cams: seq<C>, cur: C, n: nat): (r: C)
    requires |cams| > 0
    ensures n > 0 ==> r in cams
  {
    if n == 0 then cur else LeftTimes(cams, StepLeft(cams, cur), n - 1)
  }

  /** Any number of RIGHT presses followed by as many LEFT presses returns to the start. */
  lemma {:induction false} RightsThenLefts<C>(cams: seq<C>, cur: C, n: nat)
    requires Distinct(cams) && cur in cams
    ensures LeftTimes(cams, RightTimes(cams, cur, n), n) == cur
  {
    if n > 0 {
      var before := RightTimes(cams, cur, n - 1);
      assert before in cams;
      StepRoundTrip(cams, before);
      assert StepLeft(cams, RightTimes(cams, cur, n)) == before;
      RightsThenLefts(cams, cur, n - 1);
    }
  }

  /** With distinct cameras, `n <= |cams|` RIGHT presses from index `i` reach index `i + n`, wrapped once past the end. */
  lemma {:induction false} RightTimesAt<C>(cams: seq<C>, i: nat, n: nat)
    requires Distinct(cams) && i < |cams| && n <= |cams|
    ensures RightTimes(cams, cams[i], n) == cams[if i + n < |cams| then i + n else i + n - |cams|]
  {
    if n > 0 {
      RightTimesAt(cams, i, n - 1);
      var k := if i + n - 1 < |cams| then i + n - 1 else i + n - 1 - |cams|;
      StepRightAt(cams, k);
    }
  }

  /** As many RIGHT presses as there are cameras come back to the starting camera. */
  lemma FullCycle<C>(cams: seq<C>, cur: C)
    requires Distinct(cams) && cur in cams
    ensures RightTimes(cams, cur, |cams|) == cur
  {
    var i := IndexOf(cams, cur);
    RightTimesAt(cams, i, |cams|);
  }
}
