/** Identifiers and small containers shared by every part of the model. */
module Types {

  datatype Option<+T> = None | Some(value: T)

  type NodeId = nat
  type Term = nat
  type LogIndex = nat

  /** One octet. Strings of the source are modelled by their UTF-8 octets. */
  type Byte = x: int | 0 <= x < 256
  type Bytes = seq<Byte>

  const U64_MAX := 0xffff_ffff_ffff_ffff

  function Max(a: nat, b: nat): nat {
    if a < b then b else a
  }

  function Min(a: nat, b: nat): nat {
    if a < b then a else b
  }

  predicate Least(x: nat, s: set<nat>) {
    x in s && forall y :: y in s ==> x <= y
  }

  /** A non-empty finite set of numbers has a least element. */
  lemma LeastExists(s: set<nat>) returns (least: nat)
    requires s != {}
    ensures Least(least, s)
  {
    var x :| x in s;
    least := x;
    var rest := s - {x};
    if rest != {} {
      var m := LeastExists(rest);
      least := Min(x, m);
    }
    assert forall y :: y in s ==> y == x || y in rest;
  }

  /** The iteration order of an ordered set: ascending, every element once. */
  function Ascending(s: set<nat>): (r: seq<nat>)
    ensures forall x :: x in r <==> x in s
    ensures forall i, j :: 0 <= i < j < |r| ==> r[i] < r[j]
  {
    if s == {} then [] else
    assert exists x :: x in s && Least(x, s) by { var _ := LeastExists(s); }
    var x :| x in s && Least(x, s);
    var rest := Ascending(s - {x});
    [x] + rest
  }

  /** Two subsets of a set that together outnumber it share an element. */
  lemma Pigeonhole<T>(a: set<T>, b: set<T>, whole: set<T>)
    requires a <= whole && b <= whole
    requires |a| + |b| > |whole|
    ensures a * b != {}
  {
    if a * b == {} {
      SubsetSize(a + b, whole);
    }
  }

  lemma SubsetSize<T>(a: set<T>, b: set<T>)
    requires a <= b
    ensures |a| <= |b|
  {
    assert b == a + (b - a);
  }
}
