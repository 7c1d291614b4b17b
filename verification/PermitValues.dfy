/** Permit counts as the protocol sees them: a count up to `max`, or the absorbing poison.
    `Packing` relates these values to the machine words of src/state.rs. */
module PermitValues {

  datatype Permits = Count(n: nat) | Poison

  /** The permits a caller names: more than `max` is read as poison. */
  function New(max: nat, amount: nat): Permits {
    if amount <= max then Count(amount) else Poison
  }

  /** Saturating addition. */
  function Plus(max: nat, a: Permits, b: Permits): Permits {
    if a.Count? && b.Count? then New(max, a.n + b.n) else Poison
  }

  predicate Canonical(max: nat, p: Permits) {
    p.Count? ==> p.n <= max
  }
}
