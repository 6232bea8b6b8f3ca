/** Small shared vocabulary. */
module Common {
  datatype Option<+T> = None | Some(value: T)

  lemma Pick<T>(s: set<T>) returns (x: T)
    requires s != {}
    ensures x in s
  {
    x :| x in s;
  }

  function Max(a: int, b: int): int { if a < b then b else a }
}
