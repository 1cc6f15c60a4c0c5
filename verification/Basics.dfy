/** Small things every module shares. */
module Basics {

  datatype Option<+T> = None | Some(value: T)

  /** A condition counted. */
  function One(b: bool): nat {
    if b then 1 else 0
  }

  lemma Regroup<T>(a: seq<T>, b: seq<T>, c: seq<T>)
    ensures a + b + c == a + (b + c)
  {
  }

  lemma NothingAdded<T>(a: seq<T>)
    ensures [] + a == a && a + [] == a
  {
  }
}
