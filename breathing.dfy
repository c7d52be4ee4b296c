/** The `BreathingCircle` component's stage, advanced on every interval tick (src/App.tsx:73-85). */
module Breathing {

  datatype Stage = Inhale | Hold | Exhale

  /** The updater passed to `setStage`. */
  function Next(s: Stage): (t: Stage)
    ensures t != s
  {
    match s
    case Inhale => Hold
    case Hold => Exhale
    case Exhale => Inhale
  }

  /** The stage after `n` ticks from `start`. */
  function StageAfter(start: Stage, n: nat): Stage {
    if n == 0 then start else Next(StageAfter(start, n - 1))
  }

  /** Three ticks bring every stage back. */
  lemma ThreeStepsReturn(s: Stage)
    ensures Next(Next(Next(s))) == s
    ensures Next(s) != Next(Next(s))
  {
  }

  /** The cycle has period three. */
  lemma {:induction false} StageAfterIsPeriodic(start: Stage, n: nat)
    ensures StageAfter(start, n) == StageAfter(start, n % 3)
  {
    if n >= 3 {
      assert StageAfter(start, n - 1) == Next(StageAfter(start, n - 2));
      assert StageAfter(start, n - 2) == Next(StageAfter(start, n - 3));
      ThreeStepsReturn(StageAfter(start, n - 3));
      StageAfterIsPeriodic(start, n - 3);
      assert (n - 3) % 3 == n % 3;
    }
  }

  /** The stage shown after `n` ticks of a freshly mounted circle. */
  lemma StageAtTick(n: nat)
    ensures StageAfter(Inhale, n) == [Inhale, Hold, Exhale][n % 3]
  {
    StageAfterIsPeriodic(Inhale, n);
  }

  class BreathingCircle {
    var stage: Stage
    ghost var ticks: nat

    ghost predicate Valid()
      reads this
    {
      stage == StageAfter(Inhale, ticks)
    }

    /** `useState('Inhale')`. */
    constructor ()
      ensures Valid() && stage == Inhale && ticks == 0
    {
      stage := Inhale;
      ticks := 0;
    }

    /** One interval tick. */
    method Tick()
      requires Valid()
      modifies this
      ensures Valid()
      ensures stage == Next(old(stage)) && ticks == old(ticks) + 1
    {
      stage := Next(stage);
      ticks := ticks + 1;
    }
  }
}
