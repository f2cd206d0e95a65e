/** The compact identifier tables (ADR-021, section 3). */
module TcfRegistry {
  import opened Rail

  const EPOCH: nat := 5

  /** Event types by name; Unlisted stands for any name the table does not hold. */
  datatype EventType =
    | DeviceRegistered | TagObserved | MarkerTraversed | VehicleIdentified | TrainStatus | ClearanceRequest
    | ClearanceGranted | ClearanceRevoked | GateStateChanged | SwitchStateChanged | AspectChanged | TagAssignment
    | Anomaly | TopologyViolation | ZoneStateChanged | TrainLengthChanged | ZoneTrainReleased
    | Unlisted(name: string)

  const EVENT_TYPE_ORDER: seq<EventType> := [
    DeviceRegistered, TagObserved, MarkerTraversed, VehicleIdentified, TrainStatus, ClearanceRequest,
    ClearanceGranted, ClearanceRevoked, GateStateChanged, SwitchStateChanged, AspectChanged, TagAssignment,
    Anomaly, TopologyViolation, ZoneStateChanged, TrainLengthChanged, ZoneTrainReleased]

  datatype CommandType =
    | AssignRoute | GrantClearance | RevokeClearance | BeginExploration | SetTargetSpeed | EmergencyStop
    | SetSwitchPosition | SetAspect | HoldGate | ReleaseGate | AssignTag | GrantReverse
    | UnlistedCommand(name: string)

  const COMMAND_TYPE_ORDER: seq<CommandType> := [
    AssignRoute, GrantClearance, RevokeClearance, BeginExploration, SetTargetSpeed, EmergencyStop,
    SetSwitchPosition, SetAspect, HoldGate, ReleaseGate, AssignTag, GrantReverse]

  function IndexOf<T(==)>(order: seq<T>, t: T): (r: Option<nat>)
    ensures r.Some? ==> r.value < |order| && order[r.value] == t
    ensures r.None? <==> t !in order
  {
    if order == [] then None
    else if order[0] == t then Some(0)
    else
      var rest := IndexOf(order[1..], t);
      if rest.Some? then Some(rest.value + 1) else None
  }

  function Entry<T>(order: seq<T>, id: nat): Option<T> {
    if id < |order| then Some(order[id]) else None
  }

  function EventTypeToId(t: EventType): Option<nat> { IndexOf(EVENT_TYPE_ORDER, t) }
  function CommandTypeToId(t: CommandType): Option<nat> { IndexOf(COMMAND_TYPE_ORDER, t) }
  function IdToEventType(id: nat): Option<EventType> { Entry(EVENT_TYPE_ORDER, id) }
  function IdToCommandType(id: nat): Option<CommandType> { Entry(COMMAND_TYPE_ORDER, id) }

  lemma {:induction false} IndexOfEntry<T>(order: seq<T>, id: nat)
    requires Distinct(order) && id < |order|
    ensures IndexOf(order, order[id]) == Some(id)
  {
    if id == 0 {
    } else {
      IndexOfEntry(order[1..], id - 1);
    }
  }

  lemma EventsDistinct()
    ensures Distinct(EVENT_TYPE_ORDER)
  {
  }

  lemma CommandsDistinct()
    ensures Distinct(COMMAND_TYPE_ORDER)
  {
  }

  /** Both tables pair names and identifiers one to one, and every identifier fits a byte. */
  lemma EventIds(t: EventType, id: nat)
    ensures EventTypeToId(t) == Some(id) <==> IdToEventType(id) == Some(t)
    ensures IdToEventType(id).Some? ==> id < 0x100
  {
    hide Distinct;
    EventsDistinct();
    if id < |EVENT_TYPE_ORDER| {
      IndexOfEntry(EVENT_TYPE_ORDER, id);
    }
  }

  lemma CommandIds(t: CommandType, id: nat)
    ensures CommandTypeToId(t) == Some(id) <==> IdToCommandType(id) == Some(t)
    ensures IdToCommandType(id).Some? ==> id < 0x100
  {
    hide Distinct;
    CommandsDistinct();
    if id < |COMMAND_TYPE_ORDER| {
      IndexOfEntry(COMMAND_TYPE_ORDER, id);
    }
  }
}
