/** What the modules share: the optional value (Go's nil pointer and zero time), the
    later of two times, and a loop's choice from a set. */
module Basics {
  datatype Option<+T> = None | Some(value: T)

  function Max(a: int, b: int): int {
    if a >= b then a else b
  }

  // What a loop over a set takes next; Go's maps have no order either.
  method Pick<T>(s: set<T>) returns (x: T)
    requires s != {}
    ensures x in s
  {
    x :| x in s;
  }
}
