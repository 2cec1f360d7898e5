/** What every module uses: the optional value for the source's `null` and `undefined`, small arithmetic, iteration. */
module Prelude {
  datatype Option<+T> = None | Some(value: T)

  function Max(a: int, b: int): int { if a < b then b else a }

  function Min(a: int, b: int): int { if a < b then a else b }

  function Abs(a: int): int { if a < 0 then -a else a }

  /** A step taken a number of times. */
  function Iterate<T>(step: T -> T, x: T, n: nat): T {
    if n == 0 then x else step(Iterate(step, x, n - 1))
  }

  lemma {:induction false} IterateKeeps<T(!new)>(step: T -> T, holds: T -> bool, x: T, n: nat)
    requires holds(x) && forall y: T :: holds(y) ==> holds(step(y))
    ensures holds(Iterate(step, x, n))
  {
    if n > 0 {
      IterateKeeps(step, holds, x, n - 1);
    }
  }

  lemma {:induction false} IterateAdd<T>(step: T -> T, x: T, a: nat, b: nat)
    ensures Iterate(step, x, a + b) == Iterate(step, Iterate(step, x, a), b)
  {
    if b > 0 {
      IterateAdd(step, x, a, b - 1);
    }
  }
}
