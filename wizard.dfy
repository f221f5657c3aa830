/**
 * The clamped step counter shared by the multi-step forms: `nextStep` is
 * `Math.min(prev + 1, last)` and `prevStep` is `Math.max(prev - 1, 1)`.
 */
module Wizard {
  /** `nextStep`: one step forward, never past the last step. */
  function Next(step: int, last: int): (r: int)
    ensures r <= last
    ensures step < last ==> r == step + 1
    ensures step >= last ==> r == last
  {
    if step + 1 < last then step + 1 else last
  }

  /** `prevStep`: one step back, never before step 1. */
  function Prev(step: int): (r: int)
    ensures r >= 1
    ensures step > 1 ==> r == step - 1
    ensures step <= 1 ==> r == 1
  {
    if step - 1 > 1 then step - 1 else 1
  }

  /** A click on "Next" or on "Previous". */
  datatype Move = Forward | Back

  function Step(step: int, last: int, m: Move): int {
    match m
    case Forward => Next(step, last)
    case Back => Prev(step)
  }

  /** The step after a sequence of clicks, applied in order. */
  function Run(step: int, last: int, moves: seq<Move>): int
    decreases |moves|
  {
    if moves == [] then step else Run(Step(step, last, moves[0]), last, moves[1..])
  }

  /** Every click keeps a step in `[1, last]` inside it. */
  lemma StepInRange(step: int, last: int, m: Move)
    requires 1 <= step <= last
    ensures 1 <= Step(step, last, m) <= last
  {
  }

  /** Starting anywhere in `[1, last]`, in particular at 1, no sequence of clicks leaves it. */
  lemma {:induction false} RunStaysInRange(step: int, last: int, moves: seq<Move>)
    requires 1 <= step <= last
    ensures 1 <= Run(step, last, moves) <= last
    decreases |moves|
  {
    if moves != [] {
      StepInRange(step, last, moves[0]);
      RunStaysInRange(Step(step, last, moves[0]), last, moves[1..]);
    }
  }

  /** `k` presses of "Next" from step 1 reach step `k + 1`, so every step is reachable. */
  lemma {:induction false} ForwardReaches(last: int, k: nat)
    requires k < last
    ensures Run(1, last, seq(k, _ => Forward)) == k + 1
  {
    RunForwardFrom(1, last, k);
  }

  lemma {:induction false} RunForwardFrom(step: int, last: int, k: nat)
    requires step + k <= last
    ensures Run(step, last, seq(k, _ => Forward)) == step + k
    decreases k
  {
    if k > 0 {
      var moves := seq(k, _ => Forward);
      assert moves[0] == Forward && moves[1..] == seq(k - 1, _ => Forward);
      RunForwardFrom(step + 1, last, k - 1);
    }
  }

  /** The navigation buttons shown at a step: "Previous", "Next" and the submit button. */
  datatype Controls = Controls(previous: bool, next: bool, submit: bool)

  /** "Previous" above step 1; "Next" before the last step, the submit button in its place after. */
  function ControlsAt(step: int, last: int): Controls {
    Controls(step > 1, step < last, !(step < last))
  }

  /**
   * On a reachable step the submit button appears exactly on the last
   * step, "Next" exactly before it, and "Previous" exactly after step 1;
   * "Next" and submit are never shown together.
   */
  lemma ControlsOnReachableSteps(step: int, last: int)
    requires 1 <= step <= last
    ensures ControlsAt(step, last).submit <==> step == last
    ensures ControlsAt(step, last).next <==> step < last
    ensures ControlsAt(step, last).previous <==> step != 1
    ensures ControlsAt(step, last).next != ControlsAt(step, last).submit
  {
  }
}
