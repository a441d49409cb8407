/** Shapes every module of the model shares. */
module Common {
  datatype Option<+T> = None | Some(value: T)

  /** How one store call ends. A reply may be lost after the statement
      committed, so an error says nothing about whether the row changed. */
  datatype Fate =
    | Kept     // committed, and the caller was told so
    | Unheard  // committed, but the caller got an error
    | Lost     // not committed, and the caller got an error
  {
    predicate Applied() { !Lost? }
  }

  /** The remainder of a number written as quotient and remainder. */
  lemma RemainderOf(q: int, m: nat, r: nat)
    requires r < m
    ensures (q * m + r) % m == r
  {
    var d, e := (q * m + r) / m, (q * m + r) % m;
    assert q * m + r == d * m + e;
    assert (q - d) * m == e - r;
    assert q - d >= 1 ==> (q - d) * m >= m;
    assert q - d <= -1 ==> (q - d) * m <= 0 - m;
  }
}
