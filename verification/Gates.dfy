/** The two built-in gating capabilities: pure hooks over the state each device keeps. */
module Gates {
  import opened Rail

  datatype Withheld = Withheld(marker: Marker, reason: string)
  datatype Zone = Zone(marker: Marker, capacity: nat, occupancy: nat)

  /** core.gates_clearance on gate_state_changed. */
  function GateOnEvent(s: seq<Withheld>, marker: Marker, withholding: bool, reason: string): seq<Withheld> {
    if withholding then
      if exists w <- s :: w.marker == marker then s else s + [Withheld(marker, reason)]
    else Lift(s, marker)
  }

  function Lift(s: seq<Withheld>, marker: Marker): seq<Withheld> {
    if s == [] then []
    else (if s[0].marker == marker then [] else [s[0]]) + Lift(s[1..], marker)
  }

  predicate GateDenies(s: seq<Withheld>, limit: Marker) {
    exists w <- s :: w.marker == limit
  }

  /** core.gates_zone on zone_state_changed. */
  function ZoneOnEvent(s: seq<Zone>, z: Zone): seq<Zone> {
    Others(s, z.marker) + [z]
  }

  function Others(s: seq<Zone>, marker: Marker): seq<Zone> {
    if s == [] then []
    else (if s[0].marker == marker then [] else [s[0]]) + Others(s[1..], marker)
  }

  function FindZone(s: seq<Zone>, marker: Marker): Option<Zone> {
    if s == [] then None else if s[0].marker == marker then Some(s[0]) else FindZone(s[1..], marker)
  }

  /** The first zone on record at the limit is full. */
  predicate ZoneDenies(s: seq<Zone>, limit: Marker) {
    var z := FindZone(s, limit);
    z.Some? && z.value.occupancy >= z.value.capacity
  }
}
