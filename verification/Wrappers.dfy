/** Bytes, options and listings, shared by the modules of this project. */
module Wrappers {
  type Byte = b: int | 0 <= b < 256
  type Bytes = seq<Byte>

  function Min(a: nat, b: nat): nat { if a < b then a else b }

  /** Four bytes, the highest first. */
  function Be32(n: int): (r: Bytes)
    ensures |r| == 4
  {
    [n / 16777216 % 256, n / 65536 % 256, n / 256 % 256, n % 256]
  }

  datatype Option<+T> = None | Some(value: T) {
    predicate IsFailure() { None? }

    function PropagateFailure<U>(): Option<U>
      requires None?
    {
      None
    }

    function Extract(): T
      requires Some?
    {
      value
    }

    function GetOr(default: T): T {
      match this
      case Some(v) => v
      case None => default
    }
  }

  ghost predicate Distinct<T>(s: seq<T>) { forall i, j :: 0 <= i < j < |s| ==> s[i] != s[j] }

  lemma Extend<T>(s: seq<T>, x: T)
    requires Distinct(s) && x !in s
    ensures Distinct(s + [x])
  {
  }

  /** The elements of a hash set, in the order it yields them, which may be any. */
  method ListOf<T(==)>(s: set<T>) returns (l: seq<T>)
    ensures Distinct(l) && forall x :: x in l <==> x in s
  {
    l := [];
    var left := s;
    while left != {}
      invariant left <= s && Distinct(l) && forall x :: x in l <==> x in s - left
      decreases left
    {
      var x :| x in left;
      Extend(l, x);
      l := l + [x];
      left := left - {x};
    }
  }
}
