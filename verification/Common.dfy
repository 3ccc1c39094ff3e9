/** Definitions that several modules share. */
module Common {

  datatype Option<+T> = None | Some(value: T)

  function Min(a: int, b: int): int { if a < b then a else b }

  function Pow2(d: nat): (n: nat)
    ensures n >= 1
  {
    if d == 0 then 1 else 2 * Pow2(d - 1)
  }

  /** Multiplication as repeated addition, which keeps proofs linear. */
  ghost function Times(n: nat, m: nat): nat {
    if n == 0 then 0 else Times(n - 1, m) + m
  }

  ghost function Concat<T>(parts: seq<seq<T>>): seq<T> {
    if parts == [] then [] else parts[0] + Concat(parts[1..])
  }

  /** One more of the elements to do is done. */
  lemma {:induction false} DoneStep<T>(all: set<T>, todo: set<T>, done: set<T>, x: T, base: set<T>)
    requires done == all - todo && x in todo
    ensures x in all ==> done + {x} == all - (todo - {x})
    ensures x !in all ==> done == all - (todo - {x})
    ensures (base + done) + {x} == base + (done + {x})
    ensures (base - done) - {x} == base - (done + {x})
  {
  }
}
