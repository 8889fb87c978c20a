/** Small failure-carrying datatypes shared by the rest of the model. */
module Outcomes {

  /** Rust's `Option`: a value that may be absent, as the second half of
      `splitn(2, ':')` is when the token has no colon. */
  datatype Option<+T> = None | Some(value: T)

  /** What a call of a Rust function does: it returns a value, or it panics
      (for instance on an arithmetic underflow or an out-of-bounds slice).
      A panic anywhere inside an iterator chain ends the whole computation. */
  datatype Outcome<+T> = Done(value: T) | Panic

  /** Sum of two counts computed one after the other: a panic in either
      computation is a panic of the whole. */
  function AddCounts(a: Outcome<nat>, b: Outcome<nat>): (r: Outcome<nat>)
    ensures r.Done? <==> a.Done? && b.Done?
    ensures r.Done? ==> r.value == a.value + b.value
  {
    if a.Done? && b.Done? then Done(a.value + b.value) else Panic
  }

  lemma AddCountsCommutes(a: Outcome<nat>, b: Outcome<nat>)
    ensures AddCounts(a, b) == AddCounts(b, a)
  {
  }

  lemma AddCountsAssociates(a: Outcome<nat>, b: Outcome<nat>, c: Outcome<nat>)
    ensures AddCounts(AddCounts(a, b), c) == AddCounts(a, AddCounts(b, c))
  {
  }

  lemma AddCountsZero(a: Outcome<nat>)
    ensures AddCounts(a, Done(0)) == a
  {
  }

  lemma AddCountsDone(m: nat, n: nat)
    ensures AddCounts(Done(m), Done(n)) == Done(m + n)
  {
  }
}
