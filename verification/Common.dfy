/** The few value types every module of the project shares. */
module Common {

  datatype Option<+T> = None | Some(value: T)

  newtype byte = x: int | 0 <= x < 256

  type Bytes = seq<byte>

  /** An instant, as a whole number of ticks since the unix epoch. Each module says which tick. */
  type Time = int

  function Max(a: int, b: int): int {
    if a < b then b else a
  }

  function Min(a: int, b: int): int {
    if a < b then a else b
  }

  lemma NextMultiple(i: int, p: int)
    ensures (i + 1) * p == i * p + p
  {
  }

  lemma ScaleUp(a: int, b: int, p: int)
    requires a <= b && 0 <= p
    ensures a * p <= b * p
  {
    assert 0 <= (b - a) * p;
  }
}
