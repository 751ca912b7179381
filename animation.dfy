/** The in-flight animation slot of the canonical client and its timer step. */
module Animation {
  import opened LudoTypes

  /** The `animation` state: which token moves, the cells it traverses, the
      step reached, whether the timer is still running, and the cell drawn now. */
  datatype AnimationTask = AnimationTask(tokenColor: Color, tokenIndex: int, path: seq<Cell>,
                                         currentStep: nat, isRunning: bool, currentGridPos: Cell)

  /** The step index always names a cell of the path. */
  predicate WellFormed(a: AnimationTask) {
    a.currentStep < |a.path|
  }

  /** One firing of the animation effect's timer: advance to the next cell, or
      stop when the path is exhausted. A stopped animation has no timer. */
  function Tick(a: AnimationTask): (b: AnimationTask)
    ensures b.tokenColor == a.tokenColor && b.tokenIndex == a.tokenIndex && b.path == a.path
    ensures !a.isRunning ==> b == a
    ensures WellFormed(a) ==> WellFormed(b)
    ensures b.isRunning ==> b.currentStep == a.currentStep + 1 && b.currentStep < |b.path| && b.currentGridPos == b.path[b.currentStep]
    ensures a.isRunning && !b.isRunning ==>
              a.currentStep + 1 >= |a.path| && b.currentStep == a.currentStep && b.currentGridPos == a.currentGridPos
  {
    if !a.isRunning then a
    else
      var nextStep := a.currentStep + 1;
      if nextStep < |a.path| then a.(currentStep := nextStep, currentGridPos := a.path[nextStep])
      else a.(isRunning := false)
  }

  /** The animation after n timer firings. */
  function TickN(a: AnimationTask, n: nat): AnimationTask {
    if n == 0 then a else Tick(TickN(a, n - 1))
  }

  /** A freshly started animation of a non-empty path runs for exactly |path|
      ticks. Before the last one, tick k shows path[k] (so the cell path[0] is
      never drawn: the token goes from its start cell straight to path[1]); the
      last tick only clears the running flag. */
  lemma {:induction false} TicksToFinish(a: AnimationTask, k: nat)
    requires a.isRunning && a.currentStep == 0 && |a.path| > 0
    ensures TickN(a, k).tokenColor == a.tokenColor && TickN(a, k).tokenIndex == a.tokenIndex
    ensures TickN(a, k).path == a.path
    ensures TickN(a, k).isRunning <==> k < |a.path|
    ensures TickN(a, k).currentStep == if k < |a.path| then k else |a.path| - 1
    ensures 0 < k < |a.path| ==> TickN(a, k).currentGridPos == a.path[k]
    ensures k >= |a.path| ==>
              TickN(a, k).currentGridPos == if |a.path| == 1 then a.currentGridPos else a.path[|a.path| - 1]
  {
    if k > 0 {
      TicksToFinish(a, k - 1);
    }
  }
}
