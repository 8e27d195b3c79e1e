// Plant timers (tile/plant/timer.rs): what a timer counts down to and
// whether it restarts when it finishes.
module Timers {
  import Identifiers

  datatype TimerKind = Yield | Craft(recipeIndex: nat) | Rub(effectId: Identifiers.EffectId)

  /** `Lifecycle`: a perennial timer restarts with its duration when it finishes; an annual one runs once. */
  datatype Lifecycle = Perennial(duration: real) | Annual
  {
    /** `Lifecycle::is_perennial`. */
    function IsPerennial(): (b: bool)
      ensures b <==> this.Perennial?
    {
      match this
      case Perennial(_) => true
      case Annual => false
    }

    /** `Lifecycle::is_annual`. */
    function IsAnnual(): (b: bool)
      ensures b <==> this.Annual?
    {
      match this
      case Perennial(_) => false
      case Annual => true
    }
  }

  /** Every lifecycle is exactly one of perennial and annual. */
  lemma ExactlyOneLifecycle(l: Lifecycle)
    ensures l.IsPerennial() != l.IsAnnual()
  {
  }

  /** Whether a lifecycle is perennial does not depend on its duration. */
  lemma PerennialWhateverDuration(d: real, e: real)
    ensures Perennial(d).IsPerennial() && Perennial(e).IsPerennial()
    ensures !Perennial(d).IsAnnual()
  {
  }

  datatype Timer = Timer(untilFinish: real, lifecycle: Lifecycle, tileId: Identifiers.TileId, kind: TimerKind)
}
