/** Definitions shared by several modules. */
module Common {
  datatype Option<T> = None | Some(value: T)

  function Min(a: int, b: int): (r: int)
    ensures r <= a && r <= b && (r == a || r == b)
  {
    if a <= b then a else b
  }

  function Max(a: int, b: int): (r: int)
    ensures a <= r && b <= r && (r == a || r == b)
  {
    if a <= b then b else a
  }

  function Bit(b: bool): nat { if b then 1 else 0 }

  /** How one element changes the size of a set. */
  lemma Card<T>(a: set<T>, x: T)
    ensures |a + {x}| == |a| + Bit(x !in a) && |a - {x}| == |a| - Bit(x in a)
  {
    if x in a {
      assert a + {x} == a;
      assert a == (a - {x}) + {x};
    } else {
      assert a - {x} == a;
    }
  }
}
