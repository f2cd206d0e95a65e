/** What the scheduler knows, what it emits and what it is told. */
module World {
  import opened Rail
  import opened LayoutModel
  import opened Gates

  /**
   * A held edge. Besides the edge it records how and when it was acquired: `guard` marks the uncertain
   * span a topology violation retains, `at` numbers acquisitions. No branch of the scheduler reads either.
   */
  datatype Held = Held(edge: EdgeRef, guard: bool, at: nat)

  datatype Transit = Transit(edges: seq<EdgeRef>, progress: nat)

  datatype ScheduleRecord = ScheduleRecord(route: string, stops: seq<Marker>, index: nat)

  type Schedule = s: ScheduleRecord | s.index < |s.stops| witness ScheduleRecord("", ["A"], 0)

  /** The stop a train is heading for. */
  function StopOf(s: Schedule): Marker { s.stops[s.index] }

  datatype Train = Train(
    rank: nat,
    priority: real,
    schedule: Option<Schedule>,
    transit: Option<Transit>,
    limit: Option<Marker>,
    held: seq<Held>,
    blocked: bool,
    last: Option<Marker>,
    current: Option<EdgeRef>,
    zoneEntry: Option<EdgeRef>,
    length: Option<Length>,
    dwellUntil: Option<real>,
    inZone: Option<Marker>)

  function NewTrain(rank: nat, priority: real): Train {
    Train(rank, priority, None, None, None, [], false, None, None, None, None, None, None)
  }

  datatype Capability =
    | ControlsMotion | ControlsSwitch | GatesClearance | GatesZone
    | AssignsTags | ReportsLength | CanReverse
    | Passive(name: string) // registered, without behaviour the scheduler consults
    | Unknown(name: string) // not in the registry

  datatype Device = Device(caps: seq<Capability>, withheld: seq<Withheld>, zones: seq<Zone>)

  datatype Binding = ToMarker(target: Marker) | ToVehicle(vehicle: string)

  datatype World = World(
    trains: map<Id, Train>,
    order: seq<Id>, // registration order of the train table
    devices: map<Id, Device>,
    layout: Layout,
    requested: map<Marker, string>,
    zoneBounds: map<Marker, Id>,
    zoneOwned: map<Marker, Id>,
    tags: map<string, Binding>,
    deadlock: seq<Id>,
    nextRank: nat,
    clock: nat, // number of acquisitions so far
    stack: nat) // how many nested replans the host's call stack admits

  function Fresh(layout: Layout, stack: nat): World {
    World(map[], [], map[], layout, map[], map[], map[], map[], [], 0, 0, stack)
  }

  // ---------- effects ----------

  datatype RevokeReason = UnknownTopology | DeadlockYield | Admin

  /**
   * Besides junction and position a switch command records on which train's behalf, and for which of its edges,
   * it was issued; neither travels to the device.
   */
  datatype Command =
    | AssignRoute(route: string, edges: seq<EdgeRef>)
    | GrantClearance(limit: Marker, edges: seq<EdgeRef>)
    | RevokeClearance(reason: RevokeReason)
    | SetSwitch(junction: Marker, position: string, asker: Id, edge: EdgeRef)
    | GrantReverse(limit: Marker, edges: seq<EdgeRef>)

  datatype Anomaly =
    | UnknownCapabilities(device: Id, caps: seq<Capability>)
    | MarkerOwned(device: Id, marker: Marker, owner: Id)
    | ControlRefused(device: Id, marker: Marker, owner: Id)
    | UnknownTag(tag: string)
    | NotTagAssigner(device: Id)
    | NotLengthReporter(device: Id)
    | NotZoneOwner(device: Id, zone: Marker)
    | UnknownMarkers(train: Id, markers: seq<Marker>)
    | UnknownJunction(marker: Marker)
    | UnknownStops(train: Id, markers: seq<Marker>)
    | NoPath(train: Id, from: Marker, to: Marker)
    | CannotReverse(train: Id, stop: Marker)
    | GateDropped(device: Id)
    | ZoneDropped(device: Id)

  datatype Notice =
    | Raised(anomaly: Anomaly)
    | MarkerTraversed(train: Id, marker: Marker, discovering: bool, completed: Option<EdgeRef>)
    | TopologyViolated(train: Id, last: Marker, reported: Marker, sensorFault: bool, at: real)
    | VehicleIdentified(vehicle: string, device: Id)

  datatype Snapshot =
    | Clearance(train: Id, edges: seq<EdgeRef>, blocked: bool)
    | ScheduleOf(train: Id, schedule: Option<Schedule>)
    | DeviceOf(device: Id, caps: seq<Capability>, length: Option<Length>)
    | DeviceGone(device: Id)
    | SwitchOf(junction: Marker, position: string, confirmed: bool)
    | Deadlock(trains: seq<Id>)
    | LayoutOf(markers: map<Marker, Kind>, out: Index)
    | TagOf(tag: string, binding: Binding)

  datatype Effect = Send(device: Id, command: Command) | Publish(notice: Notice) | Show(snapshot: Snapshot)

  /** A new state and the effects emitted on the way there. */
  datatype Out = Out(w: World, fx: seq<Effect>)

  // ---------- what happens to the scheduler ----------

  datatype Registration = Registration(
    caps: seq<Capability>,
    length: Option<Length>,
    priority: Option<real>,
    owned: seq<Marker>,
    controls: Option<Marker>)

  /** Each input carries the one clock reading its handler takes. */
  datatype Input =
    | DeviceRegistered(device: Id, registration: Registration)
    | DeviceDisconnected(device: Id)
    | TagObserved(device: Id, tag: string, now: real)
    | TagAssigned(device: Id, tag: string, binding: Binding, kind: Kind)
    | ClearanceRequested(train: Id, edge: EdgeRef)
    | SwitchChanged(junction: Marker, position: string, confirmed: bool)
    | TrainStatus(train: Id, on: Option<EdgeRef>, distance: Option<real>, now: real)
    | LengthChanged(device: Id, train: Id, length: Length)
    | GateChanged(device: Id, marker: Marker, withholding: bool, reason: string)
    | ZoneChanged(device: Id, report: Zone)
    | ZoneReleased(device: Id, zone: Marker, train: Id)
    | OtherEvent(device: Id)
    | AssignSchedule(train: Id, route: string, stops: seq<Marker>)
    | Revoke(train: Id)
    | Reanchor(train: Id, marker: Marker)
    | ConfirmNewTrack(train: Id)
    | Forget(device: Id)
    | Reset
}
