/** Identifiers, directed edges and the few helpers every other module uses. */
module Rail {

  type Marker = string
  type Id = string

  /** Lengths the protocol declares with a minimum of zero. */
  type Length = r: real | r >= 0.0

  datatype Option<+T> = None | Some(value: T)

  datatype EdgeRef = EdgeRef(from: Marker, to: Marker)

  function Look<K, V>(m: map<K, V>, k: K): Option<V> {
    if k in m then Some(m[k]) else None
  }

  /** Two sections conflict when they share a boundary marker (ADR-011). */
  predicate Touches(a: EdgeRef, b: EdgeRef) {
    a.from == b.from || a.from == b.to || a.to == b.from || a.to == b.to
  }

  ghost predicate Distinct<T>(s: seq<T>) {
    forall i, j :: 0 <= i < j < |s| ==> s[i] != s[j]
  }

  lemma {:induction false} SubsetSize<T>(a: set<T>, b: set<T>)
    requires a <= b
    ensures |a| <= |b|
    decreases a
  {
    if a != {} {
      var x :| x in a;
      SubsetSize(a - {x}, b - {x});
    }
  }

  lemma {:induction false} DistinctSize<T>(s: seq<T>)
    requires Distinct(s)
    ensures |set x | x in s| == |s|
  {
    if s == [] {
    } else {
      DistinctSize(s[1..]);
      assert (set x | x in s) == {s[0]} + (set x | x in s[1..]);
    }
  }

  function Reversed<T(!new)>(s: seq<T>): (r: seq<T>)
    ensures |r| == |s| && forall i :: 0 <= i < |s| ==> r[i] == s[|s| - 1 - i]
    ensures forall x :: x in r <==> x in s
  {
    if s == [] then [] else Reversed(s[1..]) + [s[0]]
  }

  /** A set that grows inside a bound leaves less of the bound uncovered. */
  lemma SmallerComplement<T>(all: set<T>, a: set<T>, b: set<T>)
    requires a <= b <= all
    ensures a == b || |all - b| < |all - a|
  {
    if x :| x in b && x !in a {
      SubsetSize(all - b, all - a - {x});
    } else {
      assert a == b;
    }
  }
}
