/** Every event handler and operator call of the scheduler, as a function of the state before it. */
module Handlers {
  import opened Rail
  import opened LayoutModel
  import opened Gates
  import opened World
  import opened Clearance
  import opened Standoff
  import Planner

  function Then(first: Out, second: Out): Out {
    Out(second.w, first.fx + second.fx)
  }

  // ---------- devices ----------

  function UnknownOnes(caps: seq<Capability>): seq<Capability> {
    if caps == [] then [] else (if caps[0].Unknown? then [caps[0]] else []) + UnknownOnes(caps[1..])
  }

  function Enlist(w: World, d: Id, priority: real): World {
    w.(trains := w.trains[d := NewTrain(w.nextRank, priority)], order := w.order + [d], nextRank := w.nextRank + 1)
  }

  function InitTrain(w: World, d: Id, r: Registration): World {
    var w' := if d in w.trains then w else Enlist(w, d, if r.priority.Some? then r.priority.value else 0.0);
    if r.length.Some? && r.length.value > 0.0 then Put(w', d, w'.trains[d].(length := r.length)) else w'
  }

  function OwnMarkers(w: World, d: Id, owned: seq<Marker>): Out
    decreases |owned|
  {
    if owned == [] then Out(w, [])
    else
      var m := owned[0];
      var zoneOwner := if m in w.zoneOwned then Some(w.zoneOwned[m]) else None;
      var switchOwner := if m in w.layout.switchDevice then Some(w.layout.switchDevice[m]) else None;
      if (zoneOwner.Some? && zoneOwner.value != d) || (switchOwner.Some? && switchOwner.value != d) then
        var other := if zoneOwner.Some? then zoneOwner.value else switchOwner.value;
        var rest := OwnMarkers(w, d, owned[1..]);
        Out(rest.w, [Publish(Raised(MarkerOwned(d, m, other)))] + rest.fx)
      else OwnMarkers(w.(zoneOwned := w.zoneOwned[m := d]), d, owned[1..])
  }

  function PairSwitch(w: World, d: Id, controls: Option<Marker>): Out {
    if controls.None? then Out(w, [])
    else
      var m := controls.value;
      if m in w.zoneOwned && w.zoneOwned[m] != d then Out(w, [Publish(Raised(ControlRefused(d, m, w.zoneOwned[m])))])
      else Out(w.(layout := w.layout.(switchDevice := w.layout.switchDevice[m := d])), [])
  }

  function Register(w: World, d: Id, r: Registration): Out {
    var unknown := UnknownOnes(r.caps);
    if unknown != [] then Out(w, [Publish(Raised(UnknownCapabilities(d, unknown)))])
    else
      var w1 := w.(devices := w.devices[d := Device(r.caps, [], [])]);
      var w2 := if ControlsMotion in r.caps then InitTrain(w1, d, r) else w1;
      var zones := if GatesZone in r.caps then OwnMarkers(w2, d, r.owned) else Out(w2, []);
      var switches := if ControlsSwitch in r.caps then PairSwitch(zones.w, d, r.controls) else Out(zones.w, []);
      var length := if r.length.Some? && r.length.value > 0.0 then r.length else None;
      Out(switches.w, zones.fx + switches.fx + [Show(DeviceOf(d, r.caps, length))])
  }

  function DropNotices(d: Id, caps: seq<Capability>): seq<Effect> {
    if caps == [] then []
    else
      (if caps[0].GatesClearance? then [Publish(Raised(GateDropped(d)))]
       else if caps[0].GatesZone? then [Publish(Raised(ZoneDropped(d)))]
       else [])
      + DropNotices(d, caps[1..])
  }

  function RemoveId(order: seq<Id>, id: Id): (r: seq<Id>)
    ensures forall x :: x in r <==> x in order && x != id
  {
    if order == [] then [] else (if order[0] == id then [] else [order[0]]) + RemoveId(order[1..], id)
  }

  function RemoveTrain(w: World, d: Id): World {
    w.(trains := w.trains - {d}, order := RemoveId(w.order, d))
  }

  function ForgetDevice(w: World, d: Id): Out {
    if d !in w.devices then Out(w, [])
    else
      var caps := w.devices[d].caps;
      var w1 := w.(devices := w.devices - {d});
      var gone := Out(w1, DropNotices(d, caps) + [Show(DeviceGone(d))]);
      var left :=
        if ControlsMotion in caps
        then Out(RemoveTrain(w1, d), [Show(Clearance(d, [], false)), Show(ScheduleOf(d, None))])
        else Out(w1, []);
      Then(Then(gone, left), Retry(left.w, None))
  }

  /** Runs the hooks of a device's capabilities, in the order it declared them. */
  function GateHooks(dev: Device, caps: seq<Capability>, m: Marker, withholding: bool, reason: string): Device
    decreases |caps|
  {
    if caps == [] then dev
    else if caps[0].GatesClearance? then
      GateHooks(dev.(withheld := GateOnEvent(dev.withheld, m, withholding, reason)), caps[1..], m, withholding, reason)
    else GateHooks(dev, caps[1..], m, withholding, reason)
  }

  function ZoneHooks(dev: Device, caps: seq<Capability>, z: Zone): Device
    decreases |caps|
  {
    if caps == [] then dev
    else if caps[0].GatesZone? then ZoneHooks(dev.(zones := ZoneOnEvent(dev.zones, z)), caps[1..], z)
    else ZoneHooks(dev, caps[1..], z)
  }

  function DispatchGate(w: World, d: Id, m: Marker, withholding: bool, reason: string): Out {
    if d !in w.devices then Out(w, [])
    else Retry(w.(devices := w.devices[d := GateHooks(w.devices[d], w.devices[d].caps, m, withholding, reason)]), None)
  }

  function DispatchZone(w: World, d: Id, z: Zone): Out {
    var w1 := w.(zoneBounds := w.zoneBounds[z.marker := d]);
    if d !in w1.devices then Out(w1, [])
    else Retry(w1.(devices := w1.devices[d := ZoneHooks(w1.devices[d], w1.devices[d].caps, z)]), None)
  }

  function DispatchOther(w: World, d: Id): Out {
    if d !in w.devices then Out(w, []) else Retry(w, None)
  }

  // ---------- tags and lengths ----------

  function ShowLayout(l: Layout): Effect { Show(LayoutOf(l.markers, l.out)) }

  function AssignTag(w: World, d: Id, tag: string, b: Binding, kind: Kind): Out {
    if !(d in w.devices && AssignsTags in w.devices[d].caps) then Out(w, [Publish(Raised(NotTagAssigner(d)))])
    else
      var discovered := b.ToMarker? && b.target !in w.layout.markers;
      var l := if discovered then UpsertMarker(w.layout, b.target, kind) else w.layout;
      Out(w.(layout := l, tags := w.tags[tag := b]),
          (if discovered then [ShowLayout(l)] else []) + [Show(TagOf(tag, b))])
  }

  function ChangeLength(w: World, d: Id, train: Id, length: Length): Out {
    if !(d in w.devices && ReportsLength in w.devices[d].caps) then Out(w, [Publish(Raised(NotLengthReporter(d)))])
    else if train !in w.trains then Out(w, [])
    else
      var caps := if train in w.devices then w.devices[train].caps else [];
      Out(Put(w, train, w.trains[train].(length := Some(length))), [Show(DeviceOf(train, caps, Some(length)))])
  }

  // ---------- a train at a marker ----------

  predicate Violates(w: World, t: Train, m: Marker) {
    t.last.Some? && t.last.value != m && FindEdge(w.layout, t.last.value, m).None? && t.transit.Some?
  }

  /** Holds the train where it was last certain, keeping the uncertain span occupied. */
  function HoldAt(w: World, id: Id, m: Marker, now: real): Out
    requires id in w.trains && w.trains[id].last.Some?
  {
    var t := w.trains[id];
    var p := t.last.value;
    var span := EdgeRef(p, m);
    var add := !HoldsEdge(t.held, span);
    var t' := t.(held := if add then t.held + [Held(span, true, w.clock)] else t.held, limit := Some(p),
                 blocked := true);
    Out(Put(w, id, t').(clock := if add then w.clock + 1 else w.clock),
        [Send(id, RevokeClearance(UnknownTopology)),
         Publish(TopologyViolated(id, p, m, HasIncidentEdges(w.layout, m), now)),
         ClearanceOf(id, t')])
  }

  predicate EntersZone(w: World, t: Train, m: Marker) {
    && m in w.zoneBounds && t.transit.Some?
    && t.transit.value.progress < |t.transit.value.edges|
    && t.transit.value.edges[t.transit.value.progress].to == m
    && t.transit.value.progress + 1 >= |t.transit.value.edges|
  }

  /** Suspends a train at the throat of a zone: it holds nothing until released. */
  function EnterZone(w: World, id: Id, m: Marker): Out
    requires id in w.trains
  {
    var t := w.trains[id];
    var t' := t.(inZone := Some(m), transit := None, zoneEntry := t.current, current := None, limit := Some(m),
                 held := []);
    var parked := Out(Put(w, id, t'), if |t.held| > 0 then [ClearanceOf(id, t')] else []);
    Then(parked, Retry(parked.w, None))
  }

  /** Moves transit progress on when the marker ends the current edge; the last edge starts the dwell. */
  function AdvanceTransit(t: Train, m: Marker, now: real): Train {
    if t.transit.None? then t
    else
      var tr := t.transit.value;
      if tr.progress >= |tr.edges| || tr.edges[tr.progress].to != m then t
      else
        var next := tr.progress + 1;
        var t' := t.(transit := Some(tr.(progress := next)),
                     current := if next < |tr.edges| then Some(tr.edges[next]) else None);
        if next >= |tr.edges| && t.schedule.Some? && StopOf(t.schedule.value) == m
        then t'.(dwellUntil := Some(now + STATION_DWELL_MS))
        else t'
  }

  predicate IsPoint(t: Train) { t.length.None? || t.length.value == 0.0 }

  function EndingAt(held: seq<Held>, m: Marker): set<EdgeRef> {
    set h | h in held && h.edge.to == m :: h.edge
  }

  /** A point train gives up the edge it has finished. */
  function ReleaseBehind(t: Train, m: Marker): Train {
    if IsPoint(t) then t.(held := Release(t.held, EndingAt(t.held, m))) else t
  }

  /** The edge between two consecutive reports, when there is one. */
  function Completed(prev: Option<Marker>, m: Marker): Option<EdgeRef> {
    if prev.Some? && prev.value != "" && prev.value != m then Some(EdgeRef(prev.value, m)) else None
  }

  function Discover(w: World, e: Option<EdgeRef>, id: Id, now: real): Out {
    if e.None? then Out(w, [])
    else
      var r := RecordTraversal(w.layout, e.value.from, e.value.to, Some(id), now);
      Out(w.(layout := r.layout), if r.added || r.confirmed then [ShowLayout(r.layout)] else [])
  }

  predicate Discovering(l: Layout, e: Option<EdgeRef>) {
    e.Some? && FindEdge(l, e.value.from, e.value.to).Some? && FindEdge(l, e.value.from, e.value.to).value.inferred
  }

  /** The train record after an accepted report, before any grant. */
  function Arrive(t: Train, m: Marker, now: real): Train {
    ReleaseBehind(AdvanceTransit(t.(last := Some(m), zoneEntry := None), m, now), m)
  }

  /** An accepted report that does not enter a zone. */
  function Pass(w: World, id: Id, m: Marker, now: real): Out
    requires id in w.trains
  {
    var t := w.trains[id];
    var t' := Arrive(t, m, now);
    var released := Out(Put(w, id, t'), if |t'.held| != |t.held| then [ClearanceOf(id, t')] else []);
    var e := Completed(t.last, m);
    var learned := Discover(released.w, e, id, now);
    var told := Out(learned.w, [Publish(MarkerTraversed(id, m, Discovering(learned.w.layout, e), e))]);
    var granted := Extend(told.w, id);
    Then(Then(Then(Then(released, learned), told), granted), Retry(granted.w, None))
  }

  function AtMarker(w: World, id: Id, m: Marker, now: real): Out {
    if id !in w.trains || w.trains[id].inZone.Some? then Out(w, [])
    else
      var t := w.trains[id];
      if Violates(w, t, m) then HoldAt(w, id, m, now)
      else
        var t' := t.(last := Some(m), zoneEntry := None);
        if EntersZone(w, t', m) then EnterZone(Put(w, id, t'), id, m)
        else Pass(w, id, m, now)
  }

  function ObserveTag(w: World, d: Id, tag: string, now: real): Out {
    if tag !in w.tags then Out(w, [Publish(Raised(UnknownTag(tag)))])
    else if d !in w.devices then Out(w, [])
    else match w.tags[tag]
      case ToMarker(m) => if ControlsMotion in w.devices[d].caps then AtMarker(w, d, m, now) else Out(w, [])
      case ToVehicle(v) => Out(w, [Publish(VehicleIdentified(v, d))])
  }

  // ---------- requests and switches ----------

  function Missing(l: Layout, ms: seq<Marker>, seen: set<Marker>): seq<Marker>
    decreases |ms|
  {
    if ms == [] then []
    else (if ms[0] !in seen && ms[0] !in l.markers then [ms[0]] else []) + Missing(l, ms[1..], seen + {ms[0]})
  }

  function RequestClearance(w: World, id: Id, e: EdgeRef): Out {
    var missing := Missing(w.layout, [e.from, e.to], {});
    if missing != [] then Out(w, [Publish(Raised(UnknownMarkers(id, missing)))])
    else if id !in w.trains then Out(w, [])
    else TryGrant(w, id, e)
  }

  function Confirm(w: World, j: Marker, position: string): World {
    w.(layout := w.layout.(switches := w.layout.switches[j := position]), requested := w.requested[j := position])
  }

  function ChangeSwitch(w: World, j: Marker, position: string, confirmed: bool): Out {
    if j !in w.layout.markers then Out(w, [Publish(Raised(UnknownJunction(j)))])
    else
      var shown := [Show(SwitchOf(j, position, confirmed))];
      if !confirmed then Out(w, shown)
      else Then(Out(Confirm(w, j, position), shown), Retry(Confirm(w, j, position), None))
  }

  // ---------- planning ----------

  function Next(s: Schedule): Schedule {
    s.(index := (s.index + 1) % |s.stops|)
  }

  /**
   * Replanning nests one call per stop it passes over. Either it returns, or it exhausts the call stack: then the
   * call fails, its effects are lost, and the state stays as the last call left it.
   */
  datatype Attempt = Returned(out: Out) | Threw(left: World)

  /** Effects already gathered, and then an attempt. */
  function Prefixed(fx: seq<Effect>, a: Attempt): Attempt {
    match a
    case Returned(o) => Returned(Out(o.w, fx + o.fx))
    case Threw(w) => Threw(w)
  }

  /** What the caller of a handler sees: nothing but the changed state if it failed. */
  function Settled(a: Attempt): Out {
    match a
    case Returned(o) => o
    case Threw(w) => Out(w, [])
  }

  function HeadingOf(t: Train): Option<EdgeRef> {
    if t.current.Some? then t.current else t.zoneEntry
  }

  /** Plans to the current stop and installs the route, or turns to the next stop when already there. */
  function PlanAndExecute(w: World, id: Id, budget: nat): Attempt
    requires id in w.trains
    decreases budget, 1
  {
    var t := w.trains[id];
    if t.schedule.None? || t.last.None? then Returned(Out(w, []))
    else
      var s := t.schedule.value;
      var target := StopOf(s);
      if t.last.value == target then
        if |s.stops| == 1 then Returned(Out(Put(w, id, t.(transit := None, limit := t.last)), []))
        else AdvanceAndReplan(w, id, budget)
      else Returned(Route(w, id, target))
  }

  function AdvanceAndReplan(w: World, id: Id, budget: nat): Attempt
    requires id in w.trains
    decreases budget, 0
  {
    var t := w.trains[id];
    if t.schedule.None? then Returned(Out(w, []))
    else
      var s := Next(t.schedule.value);
      var moved := Put(w, id, t.(schedule := Some(s)));
      if budget == 0 then Threw(moved)
      else Prefixed([Show(ScheduleOf(id, Some(s)))], PlanAndExecute(moved, id, budget - 1))
  }

  function CanReverseTrain(w: World, id: Id): bool {
    id in w.devices && CanReverse in w.devices[id].caps
  }

  /** One leg: plan, admit, install, command, grant. */
  function Route(w: World, id: Id, target: Marker): Out
    requires id in w.trains && w.trains[id].last.Some? && w.trains[id].schedule.Some?
  {
    var t := w.trains[id];
    var from := t.last.value;
    var plan := Planner.PlanTransit(w.layout, from, target, HeadingOf(t));
    if plan.None? then Out(w, [Publish(Raised(NoPath(id, from, target)))])
    else if plan.value == [] then Out(w, [])
    else if target in w.zoneBounds && !CanReverseTrain(w, id) then Out(w, [Publish(Raised(CannotReverse(id, target)))])
    else Depart(w, id, plan.value)
  }

  function Depart(w: World, id: Id, edges: seq<EdgeRef>): Out
    requires id in w.trains && w.trains[id].schedule.Some? && edges != []
  {
    var t := w.trains[id];
    var placed := Put(w, id, t.(transit := Some(Transit(edges, 0)), limit := Some(edges[0].from)));
    var granted := Extend(placed, id);
    Then(Then(Out(placed, [Send(id, AssignRoute(t.schedule.value.route, edges))]), granted), Retry(granted.w, None))
  }

  // ---------- train status ----------

  function ForwardKeys(t: Train, on: EdgeRef): set<EdgeRef> {
    {on} + if t.transit.None? then {}
           else set i | t.transit.value.progress <= i < |t.transit.value.edges| :: t.transit.value.edges[i]
  }

  /** Walks back over held edges behind the boundary, collecting those the tail has cleared. */
  function TailReleases(l: Layout, held: seq<Held>, forward: set<EdgeRef>, length: Length,
                        boundary: Marker, offset: real, visited: set<Marker>, steps: nat): seq<EdgeRef>
    decreases steps
  {
    if steps == 0 || boundary in visited then []
    else
      var e := FindInto(held, boundary, forward);
      if e.None? then []
      else
        var cleared := if offset >= length then [e.value] else [];
        var known := LengthOf(l, e.value);
        if known.None? then cleared
        else cleared
             + TailReleases(l, held, forward, length, e.value.from, offset + known.value, visited + {boundary},
                            steps - 1)
  }

  function ClearedByTail(l: Layout, t: Train, on: EdgeRef, distance: real): seq<EdgeRef> {
    TailReleases(l, t.held, ForwardKeys(t, on), if t.length.Some? then t.length.value else 0.0, on.from, distance, {},
                 |t.held|)
  }

  /** A train without a heading takes the one it reports. */
  function Seeded(t: Train, on: Option<EdgeRef>): Train {
    if on.Some? && t.current.None? && t.zoneEntry.None? then t.(current := on) else t
  }

  function Status(w: World, id: Id, on: Option<EdgeRef>, distance: Option<real>, now: real): Out {
    if id !in w.trains then Out(w, [])
    else
      var t := Seeded(w.trains[id], on);
      var w1 := Put(w, id, t);
      if t.dwellUntil.Some? && now >= t.dwellUntil.value then
        Settled(AdvanceAndReplan(Put(w1, id, t.(dwellUntil := None)), id, w.stack))
      else if IsPoint(t) || on.None? || distance.None? then Out(w1, [])
      else
        var gone := ClearedByTail(w1.layout, t, on.value, distance.value);
        if gone == [] then Out(w1, [])
        else
          var t' := t.(held := Release(t.held, HeldSet(gone)));
          var freed := Out(Put(w1, id, t'), [ClearanceOf(id, t')]);
          Then(freed, Retry(freed.w, None))
  }

  function ReleaseFromZone(w: World, d: Id, zone: Marker, id: Id): Out {
    if !(zone in w.zoneBounds && w.zoneBounds[zone] == d) then Out(w, [Publish(Raised(NotZoneOwner(d, zone)))])
    else if id !in w.trains || w.trains[id].inZone != Some(zone) then Out(w, [])
    else
      var t := w.trains[id].(inZone := None);
      var w1 := Put(w, id, t);
      if t.schedule.Some? && StopOf(t.schedule.value) == zone then Settled(AdvanceAndReplan(w1, id, w.stack))
      else Retry(w1, None)
  }

  // ---------- operator calls ----------

  function UnknownStopsOf(l: Layout, stops: seq<Marker>): seq<Marker> {
    if stops == [] then [] else (if stops[0] in l.markers then [] else [stops[0]]) + UnknownStopsOf(l, stops[1..])
  }

  function Assigned(t: Train, route: string, stops: seq<Marker>): Train
    requires stops != []
  {
    var start := if t.last.Some? then t.last.value else stops[0];
    var index := if start == stops[0] && |stops| > 1 then 1 else 0;
    t.(last := Some(start), held := [], transit := None, blocked := false,
       schedule := Some(ScheduleRecord(route, stops, index)))
  }

  function Assign(w: World, id: Id, route: string, stops: seq<Marker>): Out {
    if id !in w.trains || stops == [] then Out(w, [])
    else
      var unknown := UnknownStopsOf(w.layout, stops);
      if unknown != [] then Out(w, [Publish(Raised(UnknownStops(id, unknown)))])
      else
        var t := Assigned(w.trains[id], route, stops);
        var w1 := Put(w, id, t);
        Settled(Prefixed([Show(ScheduleOf(id, t.schedule))], PlanAndExecute(w1, id, w.stack)))
  }

  function RevokeTrain(w: World, id: Id): Out {
    if id !in w.trains then Out(w, [])
    else
      var t := w.trains[id];
      var t' := t.(held := [], limit := if t.last.Some? then t.last else t.limit, blocked := false);
      var freed := Out(Put(w, id, t'), [Send(id, RevokeClearance(Admin)), ClearanceOf(id, t')]);
      Then(freed, Retry(freed.w, Some({id})))
  }

  /** Lifts a topology hold: the train holds nothing and stands at a certain marker. */
  function Recovered(t: Train, m: Marker): Train {
    t.(held := [], blocked := false, last := Some(m), limit := Some(m), transit := None)
  }

  function Resume(w: World, id: Id): Attempt
    requires id in w.trains
  {
    if w.trains[id].schedule.None? then Returned(Retry(w, None))
    else
      match PlanAndExecute(w, id, w.stack)
      case Returned(planned) => Returned(Then(planned, Retry(planned.w, None)))
      case Threw(left) => Threw(left)
  }

  function ReanchorAt(w: World, id: Id, m: Marker): Out {
    if id !in w.trains || !w.trains[id].blocked || m !in w.layout.markers then Out(w, [])
    else
      var t := Recovered(w.trains[id], m);
      var w1 := Put(w, id, t);
      Settled(Prefixed([ClearanceOf(id, t)], Resume(w1, id)))
  }

  /** The first held edge the layout does not contain. */
  function Uncertain(l: Layout, held: seq<Held>): (r: Option<EdgeRef>)
    ensures r.Some? ==> HoldsEdge(held, r.value) && FindEdge(l, r.value.from, r.value.to).None?
    ensures r.None? ==> forall h <- held :: FindEdge(l, h.edge.from, h.edge.to).Some?
  {
    if held == [] then None
    else if FindEdge(l, held[0].edge.from, held[0].edge.to).None? then Some(held[0].edge)
    else Uncertain(l, held[1..])
  }

  function ConfirmTrack(w: World, id: Id): Out {
    if id !in w.trains || !w.trains[id].blocked then Out(w, [])
    else
      var e := Uncertain(w.layout, w.trains[id].held);
      if e.None? then Out(w, [])
      else
        var l := AddInferredEdge(w.layout, e.value.from, e.value.to);
        var t := Recovered(w.trains[id], e.value.to);
        var w1 := Put(w.(layout := l), id, t);
        Settled(Prefixed([ShowLayout(l), ClearanceOf(id, t)], Resume(w1, id)))
  }

  /** Forgets everything and reloads the declared layout, which the constructor already loaded once. */
  function ResetAll(w: World): Out {
    var l := Load(w.layout.document, w.layout.threshold);
    Out(Fresh(if l.Some? then l.value else Empty(w.layout.document, w.layout.threshold), w.stack), [])
  }

  // ---------- one input, and a whole run ----------

  function Step(w: World, i: Input): Out {
    match i
    case DeviceRegistered(d, r) => Register(w, d, r)
    case DeviceDisconnected(d) => ForgetDevice(w, d)
    case TagObserved(d, tag, now) => ObserveTag(w, d, tag, now)
    case TagAssigned(d, tag, b, kind) => AssignTag(w, d, tag, b, kind)
    case ClearanceRequested(id, e) => RequestClearance(w, id, e)
    case SwitchChanged(j, p, confirmed) => ChangeSwitch(w, j, p, confirmed)
    case TrainStatus(id, on, distance, now) => Status(w, id, on, distance, now)
    case LengthChanged(d, id, length) => ChangeLength(w, d, id, length)
    case GateChanged(d, m, withholding, reason) => DispatchGate(w, d, m, withholding, reason)
    case ZoneChanged(d, z) => DispatchZone(w, d, z)
    case ZoneReleased(d, zone, id) => ReleaseFromZone(w, d, zone, id)
    case OtherEvent(d) => DispatchOther(w, d)
    case AssignSchedule(id, route, stops) => Assign(w, id, route, stops)
    case Revoke(id) => RevokeTrain(w, id)
    case Reanchor(id, m) => ReanchorAt(w, id, m)
    case ConfirmNewTrack(id) => ConfirmTrack(w, id)
    case Forget(d) => ForgetDevice(w, d)
    case Reset => ResetAll(w)
  }

  /** A run: every input handled in turn, the last one's effects at the end. */
  function Run(w: World, inputs: seq<Input>): Out {
    if inputs == [] then Out(w, [])
    else
      var before := Run(w, inputs[..|inputs| - 1]);
      Then(before, Step(before.w, inputs[|inputs| - 1]))
  }
}
