/** The total order over trains (ADR-017) and the two sorts the scheduler performs. */
module Ranking {
  import opened Rail
  import opened World

  /** Lexicographic order on identifiers. */
  predicate StrLess(a: string, b: string) {
    if b == [] then false
    else if a == [] then true
    else if a[0] != b[0] then a[0] < b[0]
    else StrLess(a[1..], b[1..])
  }

  lemma {:induction false} StrTotal(a: string, b: string)
    ensures a != b ==> StrLess(a, b) || StrLess(b, a)
    ensures !(StrLess(a, b) && StrLess(b, a)) && !StrLess(a, a)
  {
    if a == [] {
    } else {
      StrTotal(a[1..], a[1..]);
    }
    if a != [] && b != [] {
      StrTotal(a[1..], b[1..]);
      assert a == [a[0]] + a[1..] && b == [b[0]] + b[1..];
    }
  }

  /** The texts begin alike for k characters, and then the first ends and the second does not, or has a smaller one. */
  ghost predicate SmallerAt(a: string, b: string, k: nat) {
    k <= |a| && k < |b| && a[..k] == b[..k] && (k == |a| || a[k] < b[k])
  }

  /** The order on identifiers. */
  lemma {:induction false} StrLessIff(a: string, b: string)
    ensures StrLess(a, b) <==> exists k :: SmallerAt(a, b, k)
  {
    if a == [] || b == [] {
      assert b != [] ==> SmallerAt(a, b, 0);
    } else if a[0] != b[0] {
      assert a[0] < b[0] ==> SmallerAt(a, b, 0);
      assert forall k: nat :: 0 < k <= |a| && k <= |b| ==> a[..k][0] != b[..k][0];
    } else {
      StrLessIff(a[1..], b[1..]);
      if k: nat :| SmallerAt(a[1..], b[1..], k) {
        assert a[..k + 1] == [a[0]] + a[1..][..k] && b[..k + 1] == [b[0]] + b[1..][..k];
        assert SmallerAt(a, b, k + 1);
      }
      if k: nat :| SmallerAt(a, b, k) {
        assert a[1..][..k - 1] == a[..k][1..] && b[1..][..k - 1] == b[..k][1..];
        assert SmallerAt(a[1..], b[1..], k - 1);
      }
    }
  }

  lemma {:induction false} StrTransitive(a: string, b: string, c: string)
    requires StrLess(a, b) && StrLess(b, c)
    ensures StrLess(a, c)
  {
    if a != [] && a[0] == b[0] && b[0] == c[0] {
      StrTransitive(a[1..], b[1..], c[1..]);
    }
  }

  type Trains = map<Id, Train>

  /** a is preferred over b: higher priority, then earlier registration, then smaller id. */
  predicate Before(ts: Trains, a: Id, b: Id)
    requires a in ts && b in ts
  {
    var x, y := ts[a], ts[b];
    if x.priority != y.priority then x.priority > y.priority
    else if x.rank != y.rank then x.rank < y.rank
    else StrLess(a, b)
  }

  /** The train has the higher priority, or the same and no later place in the roster. */
  predicate NotBelow(x: Train, y: Train) {
    x.priority > y.priority || (x.priority == y.priority && x.rank <= y.rank)
  }

  /** A strict total order on distinct trains, in which nobody comes before a train of higher priority. */
  lemma RankTotal(ts: Trains, a: Id, b: Id)
    requires a in ts && b in ts
    ensures a != b ==> (Before(ts, a, b) <==> !Before(ts, b, a))
    ensures !Before(ts, a, a)
    ensures Before(ts, a, b) ==> NotBelow(ts[a], ts[b])
  {
    StrTotal(a, b);
  }

  lemma RankTransitive(ts: Trains, a: Id, b: Id, c: Id)
    requires a in ts && b in ts && c in ts && Before(ts, a, b) && Before(ts, b, c)
    ensures Before(ts, a, c)
  {
    if ts[a].priority == ts[c].priority && ts[a].rank == ts[c].rank {
      StrTransitive(a, b, c);
    }
  }

  // ---------- sorting ----------

  function Insert(ts: Trains, id: Id, s: seq<Id>): (r: seq<Id>)
    requires id in ts && forall i <- s :: i in ts
    ensures multiset(r) == multiset(s) + multiset{id}
    ensures forall i :: i in r <==> i == id || i in s
  {
    if s == [] then [id]
    else if Before(ts, s[0], id) then
      assert s == [s[0]] + s[1..];
      [s[0]] + Insert(ts, id, s[1..])
    else [id] + s
  }

  /** Train ids, preferred first. */
  function SortByRank(ts: Trains, s: seq<Id>): (r: seq<Id>)
    requires forall i <- s :: i in ts
    ensures multiset(r) == multiset(s)
    ensures forall i :: i in r <==> i in s
  {
    if s == [] then []
    else
      assert s == [s[0]] + s[1..];
      Insert(ts, s[0], SortByRank(ts, s[1..]))
  }

  function InsertText(id: Id, s: seq<Id>): (r: seq<Id>)
    ensures multiset(r) == multiset(s) + multiset{id}
  {
    if s == [] then [id]
    else if StrLess(s[0], id) then
      assert s == [s[0]] + s[1..];
      [s[0]] + InsertText(id, s[1..])
    else [id] + s
  }

  /** Default string sort. */
  function SortText(s: seq<Id>): (r: seq<Id>)
    ensures multiset(r) == multiset(s)
  {
    if s == [] then []
    else
      assert s == [s[0]] + s[1..];
      InsertText(s[0], SortText(s[1..]))
  }

  ghost predicate Ascending(s: seq<Id>) {
    forall i, j :: 0 <= i < j < |s| ==> StrLess(s[i], s[j])
  }

  lemma {:induction false} InsertAscends(id: Id, s: seq<Id>)
    requires Ascending(s) && id !in s
    ensures Ascending(InsertText(id, s))
  {
    if s == [] {
    } else {
      StrTotal(id, s[0]);
      var r := InsertText(id, s);
      if StrLess(s[0], id) {
        InsertAscends(id, s[1..]);
        forall j | 0 < j < |r| ensures StrLess(r[0], r[j]) {
          assert r[j] in multiset(s[1..]) + multiset{id};
        }
      } else {
        forall j | 0 < j < |s| ensures StrLess(id, s[j]) {
          StrTransitive(id, s[0], s[j]);
        }
      }
    }
  }

  lemma {:induction false} SortAscends(s: seq<Id>)
    requires Distinct(s)
    ensures Ascending(SortText(s))
  {
    if s == [] {
    } else {
      SortAscends(s[1..]);
      assert s[0] !in multiset(s[1..]);
      InsertAscends(s[0], SortText(s[1..]));
    }
  }

  ghost predicate Ranked(ts: Trains, s: seq<Id>) {
    && (forall i <- s :: i in ts)
    && (forall i, j :: 0 <= i < j < |s| ==> s[i] in ts && s[j] in ts && Before(ts, s[i], s[j]))
  }

  lemma RankedFirst(ts: Trains, id: Id, s: seq<Id>)
    requires id in ts && Ranked(ts, s) && forall x <- s :: x in ts && Before(ts, id, x)
    ensures Ranked(ts, [id] + s)
  {
    hide Before;
  }

  lemma BeforeAll(ts: Trains, id: Id, s: seq<Id>)
    requires id in ts && Ranked(ts, s) && s != [] && id != s[0] && !Before(ts, s[0], id)
    ensures forall x <- s :: x in ts && Before(ts, id, x)
  {
    RankTotal(ts, id, s[0]);
    forall j | 0 <= j < |s| ensures Before(ts, id, s[j]) {
      if j > 0 {
        RankTransitive(ts, id, s[0], s[j]);
      }
    }
  }

  lemma {:induction false} InsertRanked(ts: Trains, id: Id, s: seq<Id>)
    requires id in ts && Ranked(ts, s) && id !in s
    ensures Ranked(ts, Insert(ts, id, s))
  {
    hide Before;
    if s == [] {
    } else if Before(ts, s[0], id) {
      InsertRanked(ts, id, s[1..]);
      var r := Insert(ts, id, s[1..]);
      forall x | x in r ensures x in ts && Before(ts, s[0], x) {
        assert x == id || x in s[1..];
      }
      RankedFirst(ts, s[0], r);
    } else {
      BeforeAll(ts, id, s);
      RankedFirst(ts, id, s);
    }
  }

  /** Distinct trains come out strictly by rank; being a strict total order, this leaves one possible result. */
  lemma {:induction false} SortRanked(ts: Trains, s: seq<Id>)
    requires Distinct(s) && forall i <- s :: i in ts
    ensures Ranked(ts, SortByRank(ts, s))
  {
    if s == [] {
    } else {
      SortRanked(ts, s[1..]);
      InsertRanked(ts, s[0], SortByRank(ts, s[1..]));
    }
  }

  lemma FirstUnique(ts: Trains, s: seq<Id>, t: seq<Id>)
    requires Ranked(ts, s) && Ranked(ts, t) && s != [] && t != [] && s[0] in t && t[0] in s
    ensures s[0] == t[0]
  {
    if s[0] != t[0] {
      RankTotal(ts, s[0], t[0]);
    }
  }

  lemma TailMembers(ts: Trains, s: seq<Id>)
    requires Ranked(ts, s) && s != []
    ensures Ranked(ts, s[1..]) && forall x :: x in s[1..] <==> x in s && x != s[0]
  {
    if s[0] in s[1..] {
      RankTotal(ts, s[0], s[0]);
    }
  }

  lemma {:induction false} RankedUnique(ts: Trains, s: seq<Id>, t: seq<Id>)
    requires Ranked(ts, s) && Ranked(ts, t) && forall x :: x in s <==> x in t
    ensures s == t
  {
    assert t != [] ==> t[0] in s;
    if s == [] {
    } else {
      assert s[0] in t;
      FirstUnique(ts, s, t);
      TailMembers(ts, s);
      TailMembers(ts, t);
      hide Ranked;
      RankedUnique(ts, s[1..], t[1..]);
      assert s == [s[0]] + s[1..];
    }
  }
}
