// Facts about sequences that the verifier needs to be told.
module Sequences {
  lemma Regroup<T>(a: seq<T>, b: seq<T>, c: seq<T>)
    ensures a + (b + c) == (a + b) + c
    ensures [] + a == a && a + [] == a
    ensures [] + c == c && c + [] == c
  {
  }
}
