/** Vocabulary shared by every component of the model. */
module Base {

  datatype Option<+T> = None | Some(value: T)

  /** How one durable write ends, as its caller can see it: it succeeded, it failed
      and the stored value is the old one, or it failed after the file had already
      been replaced. `Persist.WriteHasThreeOutcomes` derives these from the file steps. */
  datatype Outcome = Saved | FailedBefore | FailedAfter

  /** The stored value once a write of `next` over `old` has ended. */
  function Landed<T>(previous: T, next: T, outcome: Outcome): T {
    if outcome.FailedBefore? then previous else next
  }

  function Indicator(b: bool): nat { if b then 1 else 0 }

  function Min(x: int, y: int): int { if x <= y then x else y }

  lemma {:induction false} CardinalityIsMonotonic<T>(a: set<T>, b: set<T>)
    requires a <= b
    ensures |a| <= |b|
  {
    if a != {} {
      var x :| x in a;
      CardinalityIsMonotonic(a - {x}, b - {x});
    }
  }
}
