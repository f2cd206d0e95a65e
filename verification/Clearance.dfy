/** Granting clearance: the conflict rule, the switch gate, the device vetoes and the horizon walk. */
module Clearance {
  import opened Rail
  import opened LayoutModel
  import opened Gates
  import opened World

  const HORIZON_EDGES: nat := 3
  const HORIZON_MAX_EDGES: nat := 6
  const LEAD_TIME_MS: real := 6000.0
  const STATION_DWELL_MS: real := 2500.0

  // ---------- held edges ----------

  function Edges(held: seq<Held>): (r: seq<EdgeRef>)
    ensures |r| == |held| && forall i :: 0 <= i < |held| ==> r[i] == held[i].edge
  {
    if held == [] then [] else [held[0].edge] + Edges(held[1..])
  }

  predicate HoldsEdge(held: seq<Held>, e: EdgeRef) {
    exists h <- held :: h.edge == e
  }

  predicate TouchesAny(held: seq<Held>, e: EdgeRef) {
    exists h <- held :: Touches(h.edge, e)
  }

  /** Releases every held copy of the given edges. */
  function Release(held: seq<Held>, gone: set<EdgeRef>): (r: seq<Held>)
    ensures forall h :: h in r <==> h in held && h.edge !in gone
  {
    if held == [] then []
    else (if held[0].edge in gone then [] else [held[0]]) + Release(held[1..], gone)
  }

  /** First held edge that ends at a marker and is not excluded. */
  function FindInto(held: seq<Held>, m: Marker, except: set<EdgeRef>): (r: Option<EdgeRef>)
    ensures r.Some? ==> r.value.to == m && r.value !in except && HoldsEdge(held, r.value)
    ensures r.None? ==> forall h <- held :: h.edge.to == m ==> h.edge in except
  {
    if held == [] then None
    else if held[0].edge.to == m && held[0].edge !in except then Some(held[0].edge)
    else FindInto(held[1..], m, except)
  }

  function Put(w: World, id: Id, t: Train): World {
    w.(trains := w.trains[id := t])
  }

  function ClearanceOf(id: Id, t: Train): Effect {
    Show(Clearance(id, Edges(t.held), t.blocked))
  }

  // ---------- the three gates ----------

  predicate Conflicts(w: World, id: Id, e: EdgeRef) {
    exists o <- w.trains :: o != id && TouchesAny(w.trains[o].held, e)
  }

  /** The position an edge demands of its junction; an empty one demands nothing. */
  function Required(l: Layout, e: EdgeRef): Option<string> {
    var found := FindEdge(l, e.from, e.to);
    if found.Some? && found.value.needs.Some? && found.value.needs.value != "" then found.value.needs else None
  }

  predicate SwitchMismatch(l: Layout, e: EdgeRef) {
    var required := Required(l, e);
    required.Some? && !(e.from in l.switches && l.switches[e.from] == required.value)
  }

  predicate DeviceDenies(d: Device, limit: Marker) {
    (GatesClearance in d.caps && GateDenies(d.withheld, limit)) || (GatesZone in d.caps && ZoneDenies(d.zones, limit))
  }

  predicate Denied(devices: map<Id, Device>, limit: Marker) {
    exists d <- devices :: DeviceDenies(devices[d], limit)
  }

  // ---------- granting ----------

  function Grant(w: World, id: Id, e: EdgeRef): Out
    requires id in w.trains
  {
    var t := w.trains[id].(limit := Some(e.to), held := w.trains[id].held + [Held(e, false, w.clock)]);
    Out(Put(w, id, t).(clock := w.clock + 1), [Send(id, GrantClearance(e.to, [e])), ClearanceOf(id, t)])
  }

  /** Asks the junction's switch device to move, once per position. */
  function Actuate(w: World, id: Id, e: EdgeRef): Out {
    var required := Required(w.layout, e);
    if required.None? || e.from !in w.layout.switchDevice then Out(w, [])
    else if e.from in w.requested && w.requested[e.from] == required.value then Out(w, [])
    else Out(w.(requested := w.requested[e.from := required.value]),
             [Send(w.layout.switchDevice[e.from], SetSwitch(e.from, required.value, id, e))])
  }

  function TryGrant(w: World, id: Id, e: EdgeRef): (r: Out)
    requires id in w.trains
    ensures r.w.trains.Keys == w.trains.Keys
  {
    if Conflicts(w, id, e) then Out(w, [])
    else if SwitchMismatch(w.layout, e) then Actuate(w, id, e)
    else if Denied(w.devices, e.to) then Out(w, [])
    else Grant(w, id, e)
  }

  predicate HasGrant(fx: seq<Effect>) {
    exists x <- fx :: x.Send? && x.command.GrantClearance?
  }

  // ---------- the horizon ----------

  predicate HorizonSatisfied(granted: nat, ms: real) {
    granted >= HORIZON_EDGES && (granted >= HORIZON_MAX_EDGES || ms >= LEAD_TIME_MS)
  }

  /** Traversal time counted for an edge: an unmeasured one covers the whole lead time. */
  function EdgeMs(l: Layout, id: Id, e: EdgeRef): real {
    var learned := LearnedMs(l, e, id);
    if learned.Some? then learned.value else LEAD_TIME_MS
  }

  /** Walks forward from index i, granting until the horizon is satisfied or an edge is refused. */
  function Walk(w: World, id: Id, edges: seq<EdgeRef>, i: nat, granted: nat, ms: real): (r: Out)
    requires id in w.trains
    ensures r.w.trains.Keys == w.trains.Keys
    decreases |edges| - i
  {
    if i >= |edges| || HorizonSatisfied(granted, ms) then Out(w, [])
    else
      var e := edges[i];
      var more := ms + EdgeMs(w.layout, id, e);
      if HoldsEdge(w.trains[id].held, e) then Walk(w, id, edges, i + 1, granted + 1, more)
      else
        var g := TryGrant(w, id, e);
        if !HasGrant(g.fx) then g
        else
          var rest := Walk(g.w, id, edges, i + 1, granted + 1, more);
          Out(rest.w, g.fx + rest.fx)
  }

  function Extend(w: World, id: Id): (r: Out)
    requires id in w.trains
    ensures r.w.trains.Keys == w.trains.Keys
  {
    var transit := w.trains[id].transit;
    if transit.None? then Out(w, [])
    else Walk(w, id, transit.value.edges, transit.value.progress, 0, 0.0)
  }
}
