/** What granting leaves alone: it only ever appends to held lists, and moves limits. */
module Frames {
  import opened Rail
  import opened World
  import opened Clearance
  import opened Standoff

  /** The limit a train has once it holds these edges: where the last one granted ends, or as before if none was. */
  function LimitAfter(t: Train, held: seq<Held>): Option<Marker>
    requires t.held <= held
  {
    if |held| == |t.held| then t.limit else Some(held[|held| - 1].edge.to)
  }

  /** The same train, holding what it held and possibly more, cleared up to the end of what it was granted last. */
  ghost predicate Grew(t: Train, t': Train) {
    && t.held <= t'.held
    && t' == t.(held := t'.held, limit := LimitAfter(t, t'.held))
  }

  /** Nothing but grants happened to trains, and none to those told to be left out. */
  ghost predicate GrewAll(w: World, w': World, except: set<Id>) {
    && w'.trains.Keys == w.trains.Keys
    && w' == w.(trains := w'.trains, requested := w'.requested, deadlock := w'.deadlock, clock := w'.clock)
    && (forall o :: o in w.trains && o in w'.trains ==> Grew(w.trains[o], w'.trains[o]))
    && (forall o :: o in except && o in w.trains && o in w'.trains ==> w'.trains[o] == w.trains[o])
  }

  lemma GrewRefl(w: World, except: set<Id>)
    ensures GrewAll(w, w, except)
  {
  }

  lemma GrewTrans(a: World, b: World, c: World, except: set<Id>)
    requires GrewAll(a, b, except) && GrewAll(b, c, except)
    ensures GrewAll(a, c, except)
  {
    hide Grew;
    forall o | o in a.trains && o in c.trains ensures Grew(a.trains[o], c.trains[o]) {
      assert Grew(a.trains[o], b.trains[o]) && Grew(b.trains[o], c.trains[o]);
      GrewTwice(a.trains[o], b.trains[o], c.trains[o]);
    }
  }

  lemma GrewTwice(a: Train, b: Train, c: Train)
    requires Grew(a, b) && Grew(b, c)
    ensures Grew(a, c)
  {
    assert |b.held| == |c.held| ==> b.held == c.held;
  }

  lemma TryGrantGrows(w: World, id: Id, e: EdgeRef, except: set<Id>)
    requires id in w.trains && id !in except
    ensures GrewAll(w, TryGrant(w, id, e).w, except)
  {
    hide Conflicts, SwitchMismatch, Denied, GrewAll, Actuate, Grant;
    GrewRefl(w, except);
    GrantGrows(w, id, e, except);
    ActuateGrows(w, id, e, except);
  }

  lemma GrantGrows(w: World, id: Id, e: EdgeRef, except: set<Id>)
    requires id in w.trains && id !in except
    ensures GrewAll(w, Grant(w, id, e).w, except)
  {
  }

  lemma ActuateGrows(w: World, id: Id, e: EdgeRef, except: set<Id>)
    ensures GrewAll(w, Actuate(w, id, e).w, except)
  {
    hide Required;
  }

  lemma {:induction false} WalkGrows(w: World, id: Id, edges: seq<EdgeRef>, i: nat, granted: nat, ms: real,
                                     except: set<Id>)
    requires id in w.trains && id !in except
    ensures GrewAll(w, Walk(w, id, edges, i, granted, ms).w, except)
    decreases |edges| - i
  {
    hide GrewAll, TryGrant, HasGrant, EdgeMs, HoldsEdge;
    GrewRefl(w, except);
    if i < |edges| && !HorizonSatisfied(granted, ms) {
      var e := edges[i];
      var more := ms + EdgeMs(w.layout, id, e);
      if HoldsEdge(w.trains[id].held, e) {
        WalkGrows(w, id, edges, i + 1, granted + 1, more, except);
      } else {
        var g := TryGrant(w, id, e);
        TryGrantGrows(w, id, e, except);
        if HasGrant(g.fx) {
          WalkGrows(g.w, id, edges, i + 1, granted + 1, more, except);
          GrewTrans(w, g.w, Walk(g.w, id, edges, i + 1, granted + 1, more).w, except);
        }
      }
    }
  }

  lemma ExtendGrows(w: World, id: Id, except: set<Id>)
    requires id in w.trains && id !in except
    ensures GrewAll(w, Extend(w, id).w, except)
  {
    GrewRefl(w, except);
    hide GrewAll, Walk;
    var transit := w.trains[id].transit;
    if transit.Some? {
      WalkGrows(w, id, transit.value.edges, transit.value.progress, 0, 0.0, except);
    }
  }

  lemma {:induction false} RetryEachGrows(w: World, ids: seq<Id>, skip: set<Id>)
    requires forall i <- ids :: i in w.trains
    ensures GrewAll(w, RetryEach(w, ids, skip).w, skip)
    decreases |ids|
  {
    hide GrewAll, Extend;
    GrewRefl(w, skip);
    if ids == [] {
    } else {
      if ids[0] in skip {
        RetryEachGrows(w, ids[1..], skip);
      } else {
        var first := Extend(w, ids[0]);
        ExtendGrows(w, ids[0], skip);
        RetryEachGrows(first.w, ids[1..], skip);
        GrewTrans(w, first.w, RetryEach(first.w, ids[1..], skip).w, skip);
      }
    }
  }

  /** The state a full pass leaves when every train has been served, in which it looks for a standoff. */
  function ServedAll(w: World): World { RetryEach(w, Ordered(w), {}).w }

  lemma EmitGrows(w: World, cycle: Option<seq<Id>>, except: set<Id>)
    ensures GrewAll(w, EmitDeadlock(w, cycle).w, except)
  {
    GrewRefl(w, except);
  }

  lemma ResolveGrows(w: World, skip: set<Id>)
    ensures GrewAll(w, Resolve(w, Some(skip)).w, skip)
  {
    hide GrewAll, EmitDeadlock, Detect;
    EmitGrows(w, Detect(w.order, w.trains), skip);
  }

  /** A pass told to leave some trains out only grants, and to the others. */
  lemma SkippingPassGrows(w: World, skip: set<Id>)
    ensures GrewAll(w, Retry(w, Some(skip)).w, skip)
  {
    hide GrewAll, RetryEach, Resolve;
    var pass := RetryEach(w, Ordered(w), skip);
    RetryEachGrows(w, Ordered(w), skip);
    ResolveGrows(pass.w, skip);
    GrewTrans(w, pass.w, Retry(w, Some(skip)).w, skip);
  }
}
