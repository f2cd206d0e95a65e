/** The depth-first search for a way back to its start node, and why it is exact. */
module Cycles {
  import opened Rail

  type Graph = map<Id, seq<Id>>

  datatype Frame = Frame(node: Id, path: seq<Id>)
  datatype Expansion = Found(path: seq<Id>) | More(stack: seq<Frame>, visited: set<Id>)

  function Successors(g: Graph, n: Id): seq<Id> {
    if n in g then g[n] else []
  }

  function Targets(g: Graph): set<Id> {
    set n, i | n in g && 0 <= i < |g[n]| :: g[n][i]
  }

  /** The inner loop: successors of one popped frame, in order. */
  function Expand(start: Id, f: Frame, succs: seq<Id>, stack: seq<Frame>, visited: set<Id>): (r: Expansion)
    ensures r.More? ==> visited <= r.visited && r.visited <= visited + (set n | n in succs)
    ensures r.More? ==> r.visited == visited ==> r.stack == stack
    ensures r.More? ==> forall n <- succs :: n in r.visited
    decreases |succs|
  {
    if succs == [] then More(stack, visited)
    else
      var n := succs[0];
      if n == start && |f.path| >= 2 then Found(f.path)
      else if n in visited then Expand(start, f, succs[1..], stack, visited)
      else Expand(start, f, succs[1..], stack + [Frame(n, f.path + [n])], visited + {n})
  }

  lemma SuccessorsAreTargets(g: Graph, n: Id)
    ensures (set m | m in Successors(g, n)) <= Targets(g)
  {
    forall m | m in Successors(g, n) ensures m in Targets(g) {
      var i :| 0 <= i < |Successors(g, n)| && Successors(g, n)[i] == m;
      assert g[n][i] == m;
    }
  }

  /** The outer loop: pop the newest frame, expand it, go on. */
  function Dfs(start: Id, g: Graph, stack: seq<Frame>, visited: set<Id>): Option<seq<Id>>
    requires visited <= Targets(g)
    decreases |Targets(g) - visited|, |stack|
  {
    if stack == [] then None
    else
      var f := stack[|stack| - 1];
      SuccessorsAreTargets(g, f.node);
      match Expand(start, f, Successors(g, f.node), stack[..|stack| - 1], visited)
      case Found(path) => Some(path)
      case More(stack', visited') =>
        SmallerComplement(Targets(g), visited, visited');
        Dfs(start, g, stack', visited')
  }

  function CycleThrough(start: Id, g: Graph): Option<seq<Id>> {
    Dfs(start, g, [Frame(start, [start])], {})
  }

  function CycleFromAny(starts: seq<Id>, g: Graph): Option<seq<Id>>
    decreases |starts|
  {
    if starts == [] then None
    else
      var found := CycleThrough(starts[0], g);
      if found.Some? then found else CycleFromAny(starts[1..], g)
  }

  // ---------- what a cycle is ----------

  ghost predicate Edge(g: Graph, a: Id, b: Id) { a in g && b in g[a] }

  ghost predicate NoSelfLoops(g: Graph) { forall n <- g :: n !in g[n] }

  ghost predicate IsTrail(g: Graph, c: seq<Id>) {
    forall i {:trigger c[i]} :: 0 < i < |c| ==> Edge(g, c[i - 1], c[i])
  }

  /** A closed walk: each node waits for the next, the last one for the first. */
  ghost predicate IsClosedWalk(g: Graph, c: seq<Id>) {
    c != [] && IsTrail(g, c) && Edge(g, c[|c| - 1], c[0])
  }

  /** A simple cycle of at least two nodes. */
  ghost predicate IsCycle(g: Graph, c: seq<Id>) {
    |c| >= 2 && Distinct(c) && IsClosedWalk(g, c)
  }

  // ---------- soundness ----------

  /** The path of a frame is a simple trail from the start to the frame's node. */
  ghost predicate FrameOk(start: Id, g: Graph, f: Frame, visited: set<Id>) {
    && f.path != [] && f.path[0] == start && f.path[|f.path| - 1] == f.node
    && Distinct(f.path) && IsTrail(g, f.path)
    && (forall i :: 0 < i < |f.path| ==> f.path[i] in visited)
  }

  ghost predicate StackOk(start: Id, g: Graph, stack: seq<Frame>, visited: set<Id>) {
    start !in visited && forall f <- stack :: FrameOk(start, g, f, visited)
  }

  lemma TrailMore(g: Graph, path: seq<Id>, n: Id)
    requires path != [] && IsTrail(g, path) && Edge(g, path[|path| - 1], n)
    ensures IsTrail(g, path + [n])
  {
    hide Edge;
    var p := path + [n];
    forall i | 0 < i < |p| ensures Edge(g, p[i - 1], p[i]) {
      assert p[i - 1] == path[i - 1] && (i < |path| ==> p[i] == path[i]);
    }
  }

  lemma DistinctMore(path: seq<Id>, n: Id)
    requires Distinct(path) && forall i :: 0 <= i < |path| ==> path[i] != n
    ensures Distinct(path + [n])
  {
  }

  lemma PushOk(start: Id, g: Graph, f: Frame, n: Id, visited: set<Id>)
    requires FrameOk(start, g, f, visited) && start !in visited
    requires Edge(g, f.node, n) && n !in visited && n != start
    ensures FrameOk(start, g, Frame(n, f.path + [n]), visited + {n})
  {
    hide Edge, IsTrail, Distinct;
    TrailMore(g, f.path, n);
    forall i | 0 <= i < |f.path| ensures f.path[i] != n {
      assert i > 0 ==> f.path[i] in visited;
    }
    DistinctMore(f.path, n);
    var p := f.path + [n];
    forall i | 0 < i < |p| ensures p[i] in visited + {n} {
      assert i < |f.path| ==> p[i] == f.path[i];
    }
  }

  lemma GrowOk(start: Id, g: Graph, stack: seq<Frame>, visited: set<Id>, more: set<Id>)
    requires StackOk(start, g, stack, visited) && visited <= more && start !in more
    ensures StackOk(start, g, stack, more)
  {
  }

  lemma {:induction false} ExpandSound(start: Id, g: Graph, f: Frame, succs: seq<Id>, stack: seq<Frame>,
                                       visited: set<Id>)
    requires NoSelfLoops(g) && FrameOk(start, g, f, visited) && StackOk(start, g, stack, visited)
    requires forall n <- succs :: Edge(g, f.node, n)
    ensures match Expand(start, f, succs, stack, visited)
            case Found(path) => IsCycle(g, path) && path[0] == start
            case More(stack', visited') => StackOk(start, g, stack', visited')
    decreases |succs|
  {
    if succs == [] {
    } else {
      var n := succs[0];
      if n == start && |f.path| >= 2 {
      } else if n in visited {
        ExpandSound(start, g, f, succs[1..], stack, visited);
      } else {
        assert Edge(g, f.node, n) && n != f.node;
        PushOk(start, g, f, n, visited);
        GrowOk(start, g, stack + [f], visited, visited + {n});
        ExpandSound(start, g, f, succs[1..], stack + [Frame(n, f.path + [n])], visited + {n});
      }
    }
  }

  lemma {:induction false} DfsSound(start: Id, g: Graph, stack: seq<Frame>, visited: set<Id>)
    requires NoSelfLoops(g) && visited <= Targets(g) && StackOk(start, g, stack, visited)
    ensures var r := Dfs(start, g, stack, visited); r.Some? ==> IsCycle(g, r.value) && r.value[0] == start
    decreases |Targets(g) - visited|, |stack|
  {
    if stack == [] {
    } else {
      var f := stack[|stack| - 1];
      SuccessorsAreTargets(g, f.node);
      ExpandSound(start, g, f, Successors(g, f.node), stack[..|stack| - 1], visited);
      match Expand(start, f, Successors(g, f.node), stack[..|stack| - 1], visited)
      case Found(path) =>
      case More(stack', visited') =>
        SmallerComplement(Targets(g), visited, visited');
        DfsSound(start, g, stack', visited');
    }
  }

  // ---------- completeness ----------

  ghost predicate OnStack(stack: seq<Frame>, n: Id) {
    exists i :: 0 <= i < |stack| && stack[i].node == n
  }

  /** Every reached node is either fully expanded or still on the stack. */
  ghost predicate Covered(start: Id, stack: seq<Frame>, visited: set<Id>, done: set<Id>) {
    forall n :: n in visited || n == start ==> n in done || OnStack(stack, n)
  }

  /** Expanded nodes lead only to reached nodes, and never back to the start. */
  ghost predicate Closed(start: Id, g: Graph, visited: set<Id>, done: set<Id>) {
    forall n, m :: n in done && Edge(g, n, m) ==> m in visited && m != start
  }

  ghost predicate Pushed(stack: seq<Frame>, added: set<Id>) {
    forall n :: n in added ==> OnStack(stack, n)
  }

  lemma StillOnStack(stack: seq<Frame>, stack': seq<Frame>, n: Id)
    requires stack <= stack' && OnStack(stack, n)
    ensures OnStack(stack', n)
  {
    var i :| 0 <= i < |stack| && stack[i].node == n;
    assert stack'[i].node == n;
  }

  lemma {:induction false} ExpandComplete(start: Id, f: Frame, succs: seq<Id>, stack: seq<Frame>, visited: set<Id>)
    requires start !in visited && (|f.path| < 2 ==> start !in succs)
    requires Expand(start, f, succs, stack, visited).More?
    ensures var r := Expand(start, f, succs, stack, visited);
            start !in r.visited && stack <= r.stack && start !in succs && Pushed(r.stack, r.visited - visited)
    decreases |succs|
  {
    if succs == [] {
    } else {
      var n := succs[0];
      if n in visited {
        ExpandComplete(start, f, succs[1..], stack, visited);
      } else {
        var pushed := stack + [Frame(n, f.path + [n])];
        assert pushed[|stack|].node == n;
        ExpandComplete(start, f, succs[1..], pushed, visited + {n});
        var r := Expand(start, f, succs, stack, visited);
        StillOnStack(pushed, r.stack, n);
        assert r.visited - visited == (r.visited - (visited + {n})) + {n};
      }
    }
  }

  /** Once the stack is empty, what was reached is closed: no closed walk through the start exists. */
  lemma {:induction false} TrappedWalk(start: Id, g: Graph, visited: set<Id>, done: set<Id>, c: seq<Id>, i: nat)
    requires Covered(start, [], visited, done) && Closed(start, g, visited, done)
    requires IsTrail(g, c) && i < |c| && c[0] == start
    ensures c[i] in done
    decreases i
  {
    if i == 0 {
    } else {
      TrappedWalk(start, g, visited, done, c, i - 1);
      assert Edge(g, c[i - 1], c[i]);
    }
  }

  lemma CoveredAfter(start: Id, f: Frame, rest: seq<Frame>, stack': seq<Frame>, visited: set<Id>, visited': set<Id>,
                     done: set<Id>)
    requires Covered(start, rest + [f], visited, done) && rest <= stack' && Pushed(stack', visited' - visited)
    ensures Covered(start, stack', visited', done + {f.node})
  {
    forall n | (n in visited' || n == start) && n !in done + {f.node} ensures OnStack(stack', n) {
      if n in visited || n == start {
        assert OnStack(rest + [f], n);
        assert OnStack(rest, n);
        StillOnStack(rest, stack', n);
      }
    }
  }

  lemma ClosedAfter(start: Id, g: Graph, f: Frame, visited: set<Id>, visited': set<Id>, done: set<Id>)
    requires Closed(start, g, visited, done) && visited <= visited'
    requires forall n <- Successors(g, f.node) :: n in visited' && n != start
    ensures Closed(start, g, visited', done + {f.node})
  {
    forall n, m | n in done + {f.node} && Edge(g, n, m) ensures m in visited' && m != start {
      if n == f.node {
        assert m in Successors(g, n);
      }
    }
  }

  lemma {:induction false} DfsComplete(start: Id, g: Graph, stack: seq<Frame>, visited: set<Id>, done: set<Id>,
                                       c: seq<Id>)
    requires NoSelfLoops(g) && visited <= Targets(g) && StackOk(start, g, stack, visited)
    requires Covered(start, stack, visited, done) && Closed(start, g, visited, done)
    requires IsClosedWalk(g, c) && c[0] == start
    ensures Dfs(start, g, stack, visited).Some?
    decreases |Targets(g) - visited|, |stack|
  {
    if stack == [] {
      TrappedWalk(start, g, visited, done, c, |c| - 1);
    } else {
      var f := stack[|stack| - 1];
      var rest := stack[..|stack| - 1];
      assert stack == rest + [f] && FrameOk(start, g, f, visited);
      SuccessorsAreTargets(g, f.node);
      ExpandSound(start, g, f, Successors(g, f.node), rest, visited);
      match Expand(start, f, Successors(g, f.node), rest, visited)
      case Found(path) =>
      case More(stack', visited') =>
        hide Covered, Closed, StackOk, IsClosedWalk, Targets, FrameOk;
        OnlyStartIsShort(start, g, f, visited);
        ExpandComplete(start, f, Successors(g, f.node), rest, visited);
        CoveredAfter(start, f, rest, stack', visited, visited', done);
        ClosedAfter(start, g, f, visited, visited', done);
        SmallerComplement(Targets(g), visited, visited');
        DfsComplete(start, g, stack', visited', done + {f.node}, c);
    }
  }

  lemma OnlyStartIsShort(start: Id, g: Graph, f: Frame, visited: set<Id>)
    requires NoSelfLoops(g) && FrameOk(start, g, f, visited)
    ensures |f.path| < 2 ==> start !in Successors(g, f.node)
  {
  }

  /** The search from one node finds a simple cycle through it exactly when a closed walk through it exists. */
  lemma CycleThroughExact(start: Id, g: Graph)
    requires NoSelfLoops(g)
    ensures var r := CycleThrough(start, g);
            && (r.Some? ==> IsCycle(g, r.value) && r.value[0] == start)
            && (r.None? ==> forall c :: c != [] && c[0] == start ==> !IsClosedWalk(g, c))
  {
    var stack := [Frame(start, [start])];
    assert StackOk(start, g, stack, {});
    DfsSound(start, g, stack, {});
    assert stack[0].node == start;
    forall c | c != [] && c[0] == start && IsClosedWalk(g, c) ensures CycleThrough(start, g).Some? {
      DfsComplete(start, g, stack, {}, {}, c);
    }
  }

  /** Started from every node that waits, the search answers with a simple cycle, or there is none at all. */
  lemma {:induction false} CycleFromAnyExact(starts: seq<Id>, g: Graph)
    requires NoSelfLoops(g)
    ensures var r := CycleFromAny(starts, g);
            && (r.Some? ==> IsCycle(g, r.value))
            && (r.None? ==> forall c :: c != [] && c[0] in starts ==> !IsClosedWalk(g, c))
    decreases |starts|
  {
    if starts == [] {
    } else {
      CycleThroughExact(starts[0], g);
      CycleFromAnyExact(starts[1..], g);
    }
  }
}
