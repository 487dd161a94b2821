/** Small value types and set helpers shared by the protocol modules. */
module Wrappers {
  datatype Option<+T> = None | Some(value: T) {
    function Or(other: T): T {
      if Some? then value else other
    }
  }

  datatype Result<+T, +E> = Ok(value: T) | Err(error: E)

  function Min(a: int, b: int): int {
    if a < b then a else b
  }

  function Max(a: int, b: int): int {
    if a < b then b else a
  }

  ghost predicate IsLeast(m: int, s: set<int>) {
    m in s && forall x :: x in s ==> m <= x
  }

  lemma {:induction false} LeastExists(s: set<int>, seed: int)
    requires seed in s
    ensures exists m :: IsLeast(m, s)
    decreases s
  {
    if y :| y in s && y < seed {
      var below := set x | x in s && x < seed;
      assert seed !in below;
      LeastExists(below, y);
      var m :| IsLeast(m, below);
      forall x | x in s ensures m <= x {
        assert x < seed ==> x in below;
      }
      assert IsLeast(m, s);
    } else {
      assert IsLeast(seed, s);
    }
  }

  /** The SQL aggregate MIN; `seed` is any member. */
  ghost function Least(s: set<int>, seed: int): (m: int)
    requires seed in s
    ensures IsLeast(m, s)
  {
    LeastExists(s, seed);
    var m :| IsLeast(m, s);
    m
  }
}
