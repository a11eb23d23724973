/** Types and facts shared by the other modules. */
module Common {
  datatype Option<+T> = None | Some(value: T)

  type byte = x: int | 0 <= x < 256

  lemma Regroup<T>(x: seq<T>, y: seq<T>, z: seq<T>)
    ensures (x + y) + z == x + (y + z)
  {
  }

  /** The remainder is the one number below m that is left after a multiple of m. */
  lemma Remainder(y: int, q: int, r: int, m: int)
    requires 0 <= r < m && y == q * m + r
    ensures y % m == r
  {
    var d := y / m - q;
    assert d * m == (y / m) * m - q * m;
    assert d >= 1 ==> d * m >= m;
    assert d <= -1 ==> d * m <= -m;
  }
}
