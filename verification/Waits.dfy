/** What one attempt to grant an edge does, and that nobody is left waiting for an edge that could be granted. */
module Waits {
  import opened Rail
  import opened LayoutModel
  import opened Gates
  import opened World
  import opened Clearance
  import opened Standoff
  import opened Handlers
  import opened Frames
  import opened Deadlock
  import opened Standing
  import opened Silence
  import Retreats

  // ---------- one attempt ----------

  /** Another train holds an edge that shares a marker with this one. */
  ghost predicate Occupied(w: World, id: Id, e: EdgeRef) {
    exists o, h :: o in w.trains && o != id && h in w.trains[o].held
                   && {h.edge.from, h.edge.to} * {e.from, e.to} != {}
  }

  /** The first listed edge between the two markers names a position other than the one recorded for its junction. */
  ghost predicate SwitchAgainst(l: Layout, e: EdgeRef, position: string) {
    && position != ""
    && (exists k :: 0 <= k < |EdgesFrom(l, e.from)| && IsFirstTo(EdgesFrom(l, e.from), e.to, k)
                    && EdgesFrom(l, e.from)[k].needs == Some(position))
    && (e.from in l.switches ==> l.switches[e.from] != position)
  }

  ghost predicate IsFirstTo(edges: seq<LayoutEdge>, to: Marker, k: nat) {
    k < |edges| && edges[k].to == to && forall j :: 0 <= j < k ==> edges[j].to != to
  }

  lemma {:induction false} FindsFirst(edges: seq<LayoutEdge>, to: Marker, k: nat)
    requires IsFirstTo(edges, to, k)
    ensures FindTo(edges, to) == Some(edges[k])
  {
    if k > 0 {
      FindsFirst(edges[1..], to, k - 1);
    }
  }

  lemma {:induction false} FirstFound(edges: seq<LayoutEdge>, to: Marker) returns (k: nat)
    requires FindTo(edges, to).Some?
    ensures IsFirstTo(edges, to, k) && FindTo(edges, to) == Some(edges[k])
  {
    if edges[0].to == to {
      k := 0;
    } else {
      var j := FirstFound(edges[1..], to);
      k := j + 1;
    }
  }

  /** A clearance gate withholds the marker, or the first record a zone gate has of it says it is full. */
  ghost predicate VetoedBy(d: Device, m: Marker) {
    || (GatesClearance in d.caps && exists x <- d.withheld :: x.marker == m)
    || (GatesZone in d.caps
        && exists k :: 0 <= k < |d.zones| && d.zones[k].marker == m && d.zones[k].occupancy >= d.zones[k].capacity
                       && forall j :: 0 <= j < k ==> d.zones[j].marker != m)
  }

  lemma {:induction false} FirstZone(s: seq<Zone>, m: Marker)
    ensures FindZone(s, m).None? ==> forall z <- s :: z.marker != m
    ensures FindZone(s, m).Some?
            ==> exists k :: 0 <= k < |s| && s[k] == FindZone(s, m).value && s[k].marker == m
                            && forall j :: 0 <= j < k ==> s[j].marker != m
  {
    if s == [] {
    } else if s[0].marker == m {
      assert s[0] == FindZone(s, m).value;
    } else {
      FirstZone(s[1..], m);
      if FindZone(s, m).Some? {
        var k :| 0 <= k < |s[1..]| && s[1..][k] == FindZone(s, m).value && s[1..][k].marker == m
          && forall j :: 0 <= j < k ==> s[1..][j].marker != m;
        assert s[k + 1] == FindZone(s, m).value;
        assert forall j :: 0 <= j < k + 1 ==> s[j].marker != m;
      }
    }
  }

  lemma VetoIs(d: Device, m: Marker)
    ensures DeviceDenies(d, m) <==> VetoedBy(d, m)
  {
    FirstZone(d.zones, m);
    hide FindZone;
  }

  lemma OccupiedIs(w: World, id: Id, e: EdgeRef)
    ensures Conflicts(w, id, e) <==> Occupied(w, id, e)
  {
    if o, h :| o in w.trains && o != id && h in w.trains[o].held && {h.edge.from, h.edge.to} * {e.from, e.to} != {} {
      var m :| m in {h.edge.from, h.edge.to} * {e.from, e.to};
      assert Touches(h.edge, e) && TouchesAny(w.trains[o].held, e);
    }
    if Conflicts(w, id, e) {
      var o :| o in w.trains && o != id && TouchesAny(w.trains[o].held, e);
      var h :| h in w.trains[o].held && Touches(h.edge, e);
      assert h.edge.from in {h.edge.from, h.edge.to} * {e.from, e.to}
             || h.edge.to in {h.edge.from, h.edge.to} * {e.from, e.to};
    }
  }

  lemma AgainstIs(l: Layout, e: EdgeRef, p: string)
    ensures SwitchMismatch(l, e) && Required(l, e) == Some(p) <==> SwitchAgainst(l, e, p)
  {
    hide FindTo;
    var edges := EdgesFrom(l, e.from);
    if FindTo(edges, e.to).Some? {
      var k := FirstFound(edges, e.to);
      forall j: nat | IsFirstTo(edges, e.to, j) ensures edges[j] == edges[k] {
        FindsFirst(edges, e.to, j);
      }
    } else {
      forall j: nat | IsFirstTo(edges, e.to, j) ensures false {
        FindsFirst(edges, e.to, j);
      }
    }
  }

  /** An edge is granted exactly when it is free, its switch stands right and nobody vetoes where it leads. */
  ghost predicate Grantable(w: World, id: Id, e: EdgeRef) {
    && !Occupied(w, id, e) && (forall p :: !SwitchAgainst(w.layout, e, p))
    && (forall d <- w.devices :: !VetoedBy(w.devices[d], e.to))
  }

  /** The junction's device, and the position it is to be told, when the switch alone is asked to move. */
  ghost predicate ToBeMoved(w: World, id: Id, e: EdgeRef, device: Id, p: string) {
    && !Occupied(w, id, e) && SwitchAgainst(w.layout, e, p)
    && e.from in w.layout.switchDevice && w.layout.switchDevice[e.from] == device
    && (e.from in w.requested ==> w.requested[e.from] != p)
  }

  /** What the train is told and holds once the edge is granted. */
  ghost predicate IsGranted(w: World, id: Id, e: EdgeRef, o: Out) {
    && id in w.trains && id in o.w.trains && |o.fx| == 2
    && o.w.trains == w.trains[id := o.w.trains[id]] && o.fx[0] == Send(id, GrantClearance(e.to, [e]))
    && |o.w.trains[id].held| == |w.trains[id].held| + 1 && w.trains[id].held <= o.w.trains[id].held
    && o.w.trains[id].held[|w.trains[id].held|].edge == e && o.w.trains[id].limit == Some(e.to)
  }

  /**
   * One attempt: grantable edges are granted, a switch that stands wrong is told once to move whatever the vetoes say,
   * and otherwise nothing happens.
   */
  lemma AttemptIff(w: World, id: Id, e: EdgeRef)
    requires id in w.trains
    ensures var o := TryGrant(w, id, e);
            && (Grantable(w, id, e) <==> IsGranted(w, id, e, o))
            && (!Grantable(w, id, e) ==> o.w.trains == w.trains)
            && (forall device, p :: ToBeMoved(w, id, e, device, p)
                  <==> o.fx == [Send(device, SetSwitch(e.from, p, id, e))])
            && (forall device, p :: ToBeMoved(w, id, e, device, p)
                  ==> o.w == w.(requested := w.requested[e.from := p]))
            && (!Grantable(w, id, e) && (forall device, p :: !ToBeMoved(w, id, e, device, p))
                ==> o == Out(w, []))
  {
    hide Conflicts, SwitchMismatch, DeviceDenies, Occupied, VetoedBy, SwitchAgainst, Required, Edges;
    OccupiedIs(w, id, e);
    forall p ensures SwitchMismatch(w.layout, e) && Required(w.layout, e) == Some(p)
      <==> SwitchAgainst(w.layout, e, p) {
      AgainstIs(w.layout, e, p);
    }
    MismatchRequires(w.layout, e);
    forall d | d in w.devices ensures DeviceDenies(w.devices[d], e.to) <==> VetoedBy(w.devices[d], e.to) {
      VetoIs(w.devices[d], e.to);
    }
  }

  lemma MismatchRequires(l: Layout, e: EdgeRef)
    ensures SwitchMismatch(l, e) ==> Required(l, e).Some?
  {
  }

  // ---------- nobody waits for nothing ----------

  lemma RefusedIs(w: World, id: Id, e: EdgeRef)
    requires id in w.trains
    ensures Refused(w, id, e) <==> !Grantable(w, id, e)
  {
    hide Conflicts, SwitchMismatch, DeviceDenies, Occupied, VetoedBy, SwitchAgainst, Required;
    OccupiedIs(w, id, e);
    forall p ensures SwitchMismatch(w.layout, e) && Required(w.layout, e) == Some(p)
      <==> SwitchAgainst(w.layout, e, p) {
      AgainstIs(w.layout, e, p);
    }
    MismatchRequires(w.layout, e);
    forall d | d in w.devices ensures DeviceDenies(w.devices[d], e.to) <==> VetoedBy(w.devices[d], e.to) {
      VetoIs(w.devices[d], e.to);
    }
  }

  lemma WantsSeeks(t: Train, e: EdgeRef)
    requires Wanted(t) == Some(e)
    ensures Seeks(t, e)
  {
  }

  lemma SoughtBefore(t: Train, t': Train, e: EdgeRef)
    requires Grew(t, t') && Seeks(t', e)
    ensures Seeks(t, e)
  {
    assert forall h <- t.held :: h in t'.held;
  }

  /** A train in its turn gets the next edge of its route unless one of the gates is closed. */
  lemma TurnGrants(w: World, id: Id, e: EdgeRef)
    requires id in w.trains && Seeks(w.trains[id], e) && !Refused(w, id, e)
    ensures id in Extend(w, id).w.trains && HoldsEdge(Extend(w, id).w.trains[id].held, e)
  {
    hide Conflicts, SwitchMismatch, Denied, EdgeMs, GrewAll;
    var tr := w.trains[id].transit.value;
    var g := TryGrant(w, id, e);
    assert g.fx[0] == Send(id, GrantClearance(e.to, [e])) && HasGrant(g.fx);
    assert g.w.trains[id].held[|w.trains[id].held|].edge == e;
    var ms := 0.0 + EdgeMs(w.layout, id, e);
    WalkGrows(g.w, id, tr.edges, tr.progress + 1, 1, ms, {});
    KeepsHeld(g.w, Walk(g.w, id, tr.edges, tr.progress + 1, 1, ms).w, id, e);
  }

  lemma KeepsHeld(w: World, w': World, id: Id, e: EdgeRef)
    requires GrewAll(w, w', {}) && id in w.trains && HoldsEdge(w.trains[id].held, e)
    ensures id in w'.trains && HoldsEdge(w'.trains[id].held, e)
  {
    assert Grew(w.trains[id], w'.trains[id]);
    var h :| h in w.trains[id].held && h.edge == e;
    assert h in w'.trains[id].held;
  }

  /** Whatever the train seeks is refused it. */
  ghost predicate HasReason(w: World, id: Id) {
    id in w.trains ==> forall e :: Seeks(w.trains[id], e) ==> Refused(w, id, e)
  }

  lemma TurnReasons(w: World, id: Id)
    requires id in w.trains
    ensures HasReason(Extend(w, id).w, id)
  {
    hide Extend, Refused, GrewAll, Seeks, HoldsEdge, Grew;
    var w' := Extend(w, id).w;
    ExtendGrows(w, id, {});
    forall e | Seeks(w'.trains[id], e) ensures Refused(w', id, e) {
      GrewOne(w, w', id, {});
      SoughtBefore(w.trains[id], w'.trains[id], e);
      if !Refused(w, id, e) {
        TurnGrants(w, id, e);
        SeeksUnheld(w'.trains[id], e);
      } else {
        StillRefused(w, w', id, e, {});
      }
    }
  }

  lemma SeeksUnheld(t: Train, e: EdgeRef)
    requires Seeks(t, e)
    ensures !HoldsEdge(t.held, e)
  {
  }

  lemma GrewOne(w: World, w': World, id: Id, except: set<Id>)
    requires GrewAll(w, w', except) && id in w.trains
    ensures id in w'.trains && Grew(w.trains[id], w'.trains[id])
  {
  }

  lemma KeepsReason(w: World, w': World, id: Id, except: set<Id>)
    requires HasReason(w, id) && GrewAll(w, w', except)
    ensures HasReason(w', id)
  {
    hide Refused, GrewAll, Seeks, Grew;
    SameTable(w, w', except);
    if id in w'.trains {
      GrewOne(w, w', id, except);
      forall e | Seeks(w'.trains[id], e) ensures Refused(w', id, e) {
        SoughtBefore(w.trains[id], w'.trains[id], e);
        StillRefused(w, w', id, e, except);
      }
    }
  }

  lemma SameTable(w: World, w': World, except: set<Id>)
    requires GrewAll(w, w', except)
    ensures w'.trains.Keys == w.trains.Keys && w'.order == w.order
  {
  }

  lemma {:induction false} PassReasons(w: World, ids: seq<Id>, skip: set<Id>, id: Id)
    requires (forall i <- ids :: i in w.trains) && id in ids && id !in skip
    ensures HasReason(RetryEach(w, ids, skip).w, id)
    decreases |ids|
  {
    hide Extend, HasReason, GrewAll;
    if ids[0] in skip {
      PassReasons(w, ids[1..], skip, id);
    } else {
      var first := Extend(w, ids[0]).w;
      if id in ids[1..] {
        PassReasons(first, ids[1..], skip, id);
      } else {
        TurnReasons(w, id);
        RetryEachGrows(first, ids[1..], skip);
        KeepsReason(first, RetryEach(first, ids[1..], skip).w, id, skip);
      }
    }
  }

  ghost predicate AllBut(w: World, left: Id) {
    forall id :: id != left ==> HasReason(w, id)
  }

  /** Every train but one at most waits only for what it cannot be granted. */
  ghost predicate Reasoned(w: World) {
    exists left :: AllBut(w, left)
  }

  lemma PassReasonsAll(w: World, skip: set<Id>, left: Id)
    requires Rostered(w) && skip <= {left}
    ensures AllBut(RetryEach(w, Ordered(w), skip).w, left)
  {
    hide RetryEach, HasReason, GrewAll, Ordered;
    var w' := RetryEach(w, Ordered(w), skip).w;
    RetryEachGrows(w, Ordered(w), skip);
    SameTable(w, w', skip);
    forall id | id != left ensures HasReason(w', id) {
      if id in w.trains {
        PassReasons(w, Ordered(w), skip, id);
      } else {
        NoTrain(w', id);
      }
    }
  }

  lemma NoTrain(w: World, id: Id)
    requires id !in w.trains
    ensures HasReason(w, id)
  {
  }

  lemma SkippingReasons(w: World, left: Id)
    requires Rostered(w)
    ensures AllBut(Retry(w, Some({left})).w, left)
  {
    hide RetryEach, HasReason, GrewAll, EmitDeadlock, Detect;
    PassReasonsAll(w, {left}, left);
    var pass := RetryEach(w, Ordered(w), {left}).w;
    ResolveGrows(pass, {left});
    forall id | id != left ensures HasReason(Retry(w, Some({left})).w, id) {
      KeepsReason(pass, Resolve(pass, Some({left})).w, id, {left});
    }
  }

  lemma RegrantReasons(w: World, id: Id, gave: Out)
    requires Rostered(w) && AllMoved(w, gave.w)
    ensures Reasoned(Regrant(id, gave).w)
  {
    hide HasReason, Retry;
    assert Rostered(gave.w);
    SkippingReasons(gave.w, id);
  }

  lemma RetryReasons(w: World)
    requires Rostered(w)
    ensures Reasoned(Retry(w, None).w)
  {
    hide RetryEach, HasReason, GrewAll, EmitDeadlock, Detect, YieldStep, ReverseStep, Regrant, AllMoved;
    PassReasonsAll(w, {}, "");
    var pass := RetryEach(w, Ordered(w), {}).w;
    PassRostered(w);
    var cycle := Detect(pass.order, pass.trains);
    EmitGrows(pass, cycle, {});
    if cycle.Some? && YieldStep(pass, cycle.value).Some? {
      YieldMoves(pass, cycle.value);
      RegrantReasons(pass, YieldStep(pass, cycle.value).value.0, YieldStep(pass, cycle.value).value.1);
    } else if cycle.Some? && ReverseStep(pass, cycle.value).Some? {
      ReverseMoves(pass, cycle.value);
      RegrantReasons(pass, ReverseStep(pass, cycle.value).value.0, ReverseStep(pass, cycle.value).value.1);
    } else {
      forall id | id != "" ensures HasReason(EmitDeadlock(pass, cycle).w, id) {
        KeepsReason(pass, EmitDeadlock(pass, cycle).w, id, {});
      }
      assert AllBut(EmitDeadlock(pass, cycle).w, "");
    }
  }

  lemma PassRostered(w: World)
    requires Rostered(w)
    ensures Rostered(RetryEach(w, Ordered(w), {}).w)
  {
    hide RetryEach, Ordered;
    RetryEachGrows(w, Ordered(w), {});
  }

  lemma EndReasons(w: World)
    requires EndsPass(w) && Rostered(w)
    ensures Reasoned(w)
  {
    hide Retry, HasReason, AllMoved;
    var v, skip :| LeavesOneOut(skip) && w == Retry(v, skip).w;
    RetryMoves(v, skip);
    MovedBack(v, w);
    if skip.None? {
      RetryReasons(v);
    } else {
      var id :| skip.value == {id};
      SkippingReasons(v, id);
      assert AllBut(w, id);
    }
  }

  lemma MovedBack(w: World, w': World)
    requires AllMoved(w, w') && Rostered(w')
    ensures Rostered(w)
  {
  }

  /** The train waits for an edge it could be granted at once. */
  ghost predicate WaitsForNothing(w: World, id: Id) {
    id in w.trains && exists e :: Wanted(w.trains[id]) == Some(e) && Grantable(w, id, e)
  }

  /**
   * After every input of every run that ends with a pass, no train waits for an edge that is free, rightly switched
   * and not vetoed, save one at most.
   */
  lemma NobodyWaitsForNothing(l: Layout, stack: nat, inputs: seq<Input>, i: Input, a: Id, b: Id)
    requires Retries(Run(Fresh(l, stack), inputs).w, i)
    requires var w := Step(Run(Fresh(l, stack), inputs).w, i).w; WaitsForNothing(w, a) && WaitsForNothing(w, b)
    ensures a == b
  {
    hide Step, Run, Rostered, EndsPass, Retries, WaitsForNothing, HasReason;
    var w := Run(Fresh(l, stack), inputs).w;
    Retreats.FreshIsSound(l, stack);
    RunRosters(Fresh(l, stack), inputs);
    StepRosters(w, i);
    RetriesEndsPass(w, i);
    EndReasons(Step(w, i).w);
    var left :| AllBut(Step(w, i).w, left);
    ReasonedWaits(Step(w, i).w, a);
    ReasonedWaits(Step(w, i).w, b);
  }

  lemma ReasonedWaits(w: World, id: Id)
    ensures HasReason(w, id) ==> !WaitsForNothing(w, id)
  {
    hide Refused, Grantable, Seeks;
    if id in w.trains && Wanted(w.trains[id]).Some? {
      WantsSeeks(w.trains[id], Wanted(w.trains[id]).value);
      RefusedIs(w, id, Wanted(w.trains[id]).value);
    }
  }
}
