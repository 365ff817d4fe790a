/**
 General-purpose definitions shared by the note transposer, the strings and the rig:
 an optional value and the repeated application of a function.
 */
module Common {

  datatype Option<+T> = None | Some(value: T)

  /** `f` applied `k` times, first to `x`. */
  function Iterate<T>(f: T -> T, x: T, k: nat): T
    decreases k
  {
    if k == 0 then x else Iterate(f, f(x), k - 1)
  }

  lemma {:induction false} IterateAdds<T>(f: T -> T, x: T, a: nat, b: nat)
    ensures Iterate(f, Iterate(f, x, a), b) == Iterate(f, x, a + b)
    decreases a
  {
    if a > 0 {
      IterateAdds(f, f(x), a - 1, b);
    }
  }
}
