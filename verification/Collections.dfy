/** Small functions on numbers and sequences. */
module Collections {
  function Min(a: int, b: int): int {
    if a < b then a else b
  }

  function Elements<T>(s: seq<T>): set<T> {
    set x | x in s
  }
}
