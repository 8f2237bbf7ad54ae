/** Arithmetic and sequence steps that several modules need spelled out. */
module Basics {

  lemma Product(a: int, b: int)
    ensures (a + 1) * b == a * b + b
  {
  }

  lemma AtMost(i: int, n: int, x: int)
    requires i <= n && 0 <= x
    ensures i * x <= n * x
  {
  }

  lemma NotNegative(a: int, b: int)
    requires 0 <= a && 0 <= b
    ensures 0 <= a * b
  {
  }

  lemma Regroup<T>(a: seq<T>, b: seq<T>, c: seq<T>)
    ensures a + (b + c) == a + b + c
  {
  }
}
