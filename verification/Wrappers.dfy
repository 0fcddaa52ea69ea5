/** What every part of the model uses. */
module Wrappers {

  datatype Option<+T> = None | Some(value: T)

  // Concatenation, bracketed one way and another.

  lemma Regroup<T>(a: seq<T>, b: seq<T>, c: seq<T>, d: seq<T>)
    ensures a + (b + c) == a + b + c
    ensures a + b + c + d == a + (b + c + d) == a + (b + (c + d)) == a + b + (c + d)
  {
  }

  lemma RegroupFive<T>(a: seq<T>, b: seq<T>, c: seq<T>, d: seq<T>, e: seq<T>)
    ensures a + b + c + d + e == a + (b + c + d + e) == a + (b + (c + d + e))
  {
  }

  lemma HeadAndTail<T>(s: seq<T>)
    requires s != []
    ensures s == [s[0]] + s[1..] && (|s| == 1 ==> s == [s[0]])
  {
  }
}
