/** Small definitions shared by the other modules. */
module Prelude {

  datatype Option<+T> = None | Some(value: T)

  datatype Result<+T, +E> = Ok(value: T) | Err(error: E)

  /** How a remote write fares: it never arrives (or the controller crashed before it), it takes effect
      but the caller sees an error, or it takes effect and is acknowledged. */
  datatype Fate = Refused | Unacked | Acked {
    predicate Lands() { this != Refused }
  }

  datatype Resource = Cpu | Memory

  predicate Distinct<T(==)>(s: seq<T>) {
    forall i, j :: 0 <= i < j < |s| ==> s[i] != s[j]
  }

  /** order walks through s, each element once. */
  ghost predicate Lists<T(!new)>(order: seq<T>, s: set<T>) {
    Distinct(order) && forall x :: x in order <==> x in s
  }

  /** f added up over s. */
  function Sum<T>(s: seq<T>, f: T -> int): int {
    if s == [] then 0 else Sum(s[..|s| - 1], f) + f(s[|s| - 1])
  }

  function RealSum<T>(s: seq<T>, f: T -> real): real {
    if s == [] then 0.0 else RealSum(s[..|s| - 1], f) + f(s[|s| - 1])
  }

  /** v added up k times. */
  function Repeated(k: nat, v: real): real { if k == 0 then 0.0 else Repeated(k - 1, v) + v }

  lemma {:induction false} RepeatedIsProduct(k: nat, v: real)
    ensures Repeated(k, v) == v * k as real
  {
    if k > 0 {
      RepeatedIsProduct(k - 1, v);
      assert k as real == (k - 1) as real + 1.0;
      assert v * ((k - 1) as real + 1.0) == v * (k - 1) as real + v;
    }
  }

  lemma WithoutLast<T>(s: seq<T>)
    requires s != []
    ensures s[|s| - 1] in multiset(s) && multiset(s[..|s| - 1]) == multiset(s) - multiset{s[|s| - 1]}
  {
    assert s == s[..|s| - 1] + [s[|s| - 1]];
  }

  lemma WithoutMiddle<T>(a: seq<T>, x: T, b: seq<T>)
    ensures multiset(a + b) == multiset(a + [x] + b) - multiset{x}
  {
  }

  /** Finds the last element of s in a permutation t of s and takes it out of both. */
  lemma TakeOut<T>(s: seq<T>, t: seq<T>) returns (a: seq<T>, b: seq<T>)
    requires multiset(s) == multiset(t) && s != []
    ensures t == a + [s[|s| - 1]] + b
    ensures multiset(s[..|s| - 1]) == multiset(a + b)
  {
    var x := s[|s| - 1];
    WithoutLast(s);
    assert x in multiset(t);
    var i :| 0 <= i < |t| && t[i] == x;
    a, b := t[..i], t[i + 1..];
    assert t == a + [x] + b;
    WithoutMiddle(a, x, b);
  }
}
