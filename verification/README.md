# Verified model of the Trainframe scheduler

A Dafny model of the clearance scheduler of a model railway, of the planner and layout graph it works on, of the
compact frame codec its devices speak, and of track learning. The scheduler takes one event or operator call at a time.
It keeps, per train, the edges the train holds, and decides who may enter which section: two trains may never hold
edges that share a marker.

Specifications are functions from the state before to the state after and the effects emitted. The objects of the
program are classes whose methods are proved equal to those functions. What the program is for is proved about the
functions, mostly over every run:

- `Rail`, `LayoutModel`, `Gates`, `World`, `Ranking` - identifiers, the layout as a value, the two gating capabilities,
  what the scheduler knows, and the order over trains
- `Cycles`, `Clearance`, `Standoff`, `Planner`, `Handlers` - the specification: search, grants, standoffs, planning, and
  one function per handler; `Handlers.Step` is one input, `Handlers.Run` a whole run
- `Plays`, `HandlerPlays` - every handler as a sequence of atomic steps; invariants are then proved one step at a time
- `Exclusivity`, `Published`, `Vetoes`, `Deadlock`, `Frames`, `Yielding`, `GivingWay`, `Chains`, `Reversing`,
  `Retreats`, `Body`, `Occupancy`, `Footprint`, `Horizon`, `Priority`, `Replanning`, `Silence`, `Waits` - what the
  scheduler promises
- `Standing`, `Announced`, `Choosing` - what an input may do to other trains, the roster read off the inputs, and who is
  served first and who gives way by it
- `Reports`, `Records`, `Journeys`, `Learning`, `Enrolment`, `News` - what each input does to its own train, to learned
  times, to the tables and to subscribers, in the system's terms rather than the handlers'
- `MeetingGround`, `MeetingRun`, `Meeting` - two whole runs on loaded layouts, in which giving way uncovers a train's body
- `PlannerProofs`, `PlannerTurnout`, `PlannerSearch` - legality and optimality of routes, where they end, and the loops
- `LayoutGraph`, `LayoutRuns`, `LayoutStates` - the graph invariant, what each input does to the layout, and the object
- `StandoffSearch`, `Scheduling`, `Operation` - the scheduler's loops, the scheduler object, and what holds of it at work
- `TcfText`, `TcfPayloads`, `TcfBytes`, `TcfRegistry`, `TcfFrames`, `TcfBridge`, `TcfLayout` - UTF-8, payloads, byte
  buffers, type tables, frames, the correlation that undoes a decode, and where each field of a frame lies
- `LearnModes`, `LearnTrails` - track learning, and a session read off the trail of its train

Three facts shape the statements. A topology violation retains its uncertain span without a conflict check, so held
edges carry how and when they were acquired, and exclusivity sets such guards apart; likewise a switch command carries
the train and edge it was issued for. No branch of the program reads this history. Reassignment empties a train's list
without a snapshot, so the mirror of published snapshots excepts such trains until their next snapshot. Replanning
recurses once per stop it passes over, so the state carries how deep a call stack the host allows: a replanning that
exhausts it fails its handler, whose effects are lost and whose changes to the state stay.

Each input carries the one clock reading its handler takes. Lengths, times and costs are reals; identifiers are
strings; an edge is a pair of markers.

`dafny verify dfyconfig.toml` checks the project.

## Model

| member | source | states |
|---|---|---|
| `Exclusivity.GrantedEdgesNeverTouch` | packages/core/src/scheduler/scheduler.ts:1130-1140 | over every run of a fresh scheduler, edges granted to different trains share no marker; when two trains' edges do touch, the later acquisition is the retained span of a topology violation |
| `Exclusivity.RunKeepsExclusive` | packages/core/src/scheduler/scheduler.ts:1196-1211 | any sequence of events and operator calls keeps the exclusivity invariant, from any state that has it |
| `Exclusivity.HoldingKeeps` | packages/core/src/scheduler/scheduler.ts:884-915 | retaining an uncertain span without a conflict check still leaves every touching pair with a guard acquired later |
| `HandlerPlays.StepIsPlay` | packages/core/src/scheduler/scheduler.ts:195-224 | every event and operator call but reset is a sequence of atomic steps (grant, switch command, release, guard, join, leave, switch report) with exactly the effects the handler emits, each grant and command judged by the device table, layout and routes the call leaves behind; a train whose list the call empties without a snapshot starts the sequence empty |
| `Plays.RetrySteps` | packages/core/src/scheduler/scheduler.ts:1466-1484 | a retry pass, with the yield or reverse inside it, is such a sequence, judged by its own devices, layout and routes, which it leaves alone |
| `HandlerPlays.PassSteps` | packages/core/src/scheduler/scheduler.ts:771-817 | an accepted marker report - release, discovery, grants, retry - is such a sequence, judged by the layout with the discovery and the route with the progress made |
| `HandlerPlays.PlanFares` | packages/core/src/scheduler/scheduler.ts:2104-2176 | planning a leg, through however many advances, is such a sequence judged by the route it installs; when it exhausts the call stack instead, nobody's clearance has changed |
| `HandlerPlays.AdvanceFares` | packages/core/src/scheduler/scheduler.ts:2183-2190 | likewise for turning to the next stop |
| `Published.RunMirrors` | packages/core/src/scheduler/scheduler.ts:1251-1266 | over every run, resets included, the retained clearance snapshots give each train's held edges and hold; the only exceptions are trains emptied silently since their last snapshot, and those hold nothing |
| `Published.SilenceIff` | packages/core/src/scheduler/scheduler.ts:2054-2061 | after any accepted reassignment, or a recovery whose replanning failed, what is published of that train is right exactly when it held nothing and was not blocked, or a grant of the same call showed it |
| `Silence.SilenceForeseen` | packages/core/src/scheduler/scheduler.ts:2030-2075 | told from the state before the call: after a recovery that fails it is wrong; after an assignment it is right if the train held nothing and was not blocked, or the leg it will leave on begins with an edge no other train, switch or device refuses it, and otherwise wrong unless somebody gives way to a standoff the departure runs into |
| `Silence.DepartShowsIff` | packages/core/src/scheduler/scheduler.ts:2148-2176 | a train that departs holding nothing is shown exactly when the first edge of its leg is not refused, unless somebody gives way at the end of the pass |
| `Published.StepMirrors` | packages/core/src/scheduler/scheduler.ts:1251-1266 | one input makes at most that one train's snapshot wrong, and every snapshot it emits puts its train right |
| `Published.RepeatNeedsNews` | packages/core/src/scheduler/scheduler.ts:1160-1177 | between two equal set-switch commands for one junction there is another command for it or a confirmed report of it |
| `Published.RunAsks` | packages/core/src/scheduler/scheduler.ts:1287-1297 | the position last commanded or confirmed, read off the effects alone, is the scheduler's own record of it, and no command repeats it |
| `Vetoes.StepIsSafe` | packages/core/src/scheduler/scheduler.ts:1130-1140 | every grant among an input's effects is of one edge the train asked for or has on its route from its progress on, up to that edge's end, with no other train shown on a touching edge at that moment, the switch as required and no device vetoing in the state the input leaves; every switch command goes to the junction's device for the position a train's demanded edge requires and does not find, with no other train shown on an edge touching it |
| `Vetoes.GrantsFit` | packages/core/src/scheduler/scheduler.ts:1184-1230 | in the state an input leaves, no device denies a limit it granted and no switch is set against an edge it granted |
| `LayoutRuns.GrantsFollowReports` | packages/core/src/scheduler/scheduler.ts:1184-1189 | in every run an edge that requires a switch position is granted only if the latest confirmed report of its junction gives that position, or the declared one does and there was no report |
| `LayoutRuns.RunSwitches` | packages/core/src/scheduler/scheduler.ts:1270-1299 | in every run each recorded switch position is the latest confirmed report on a known junction since the last reset, or the declared one |
| `Vetoes.VetoesHaveTheLastWord` | packages/core/src/scheduler/scheduler.ts:1213-1230 | in every run no grant to a marker is issued while a registered gate's latest report on it is withholding or a registered zone's latest report has occupancy at or above capacity |
| `Vetoes.RunFaithful` | packages/core/src/scheduler/scheduler.ts:1951-1978 | each registered device's lists hold no marker twice and say exactly what it last reported since it registered |
| `Vetoes.GateEffect` | packages/core/src/builtins/gates-clearance.ts:42-92 | a gate denies a marker exactly by its newest report on it; other markers are untouched and duplicates never appear |
| `Vetoes.ZoneEffect` | packages/core/src/builtins/gates-zone.ts:55-96 | a zone report replaces what was known about its marker and nothing else, without duplicates |
| `Vetoes.StepDevices` | packages/core/src/scheduler/scheduler.ts:228-276 | which inputs change the device table, and how |
| `Deadlock.DetectExact` | packages/core/src/scheduler/scheduler.ts:1883-1941 | detection answers with two or more distinct trains, each waiting for the next round the ring, and answers nothing only when no ring of waiting trains exists |
| `Deadlock.DeadlockIsExact` | packages/core/src/scheduler/scheduler.ts:1526-1564 | after every input of every run that ends with a retry pass, which is told from the state before, the published deadlock is the text-ordered membership of a standoff of the final state, or empty exactly when there is none - after a yield or reverse too |
| `Deadlock.RunRosters` | packages/core/src/scheduler/scheduler.ts:283-298 | in every run the train table's order lists each train once |
| `Cycles.CycleThroughExact` | packages/core/src/scheduler/scheduler.ts:2369-2386 | the depth-first search finds a simple cycle through its start exactly when a closed walk through it exists |
| `Cycles.CycleFromAnyExact` | packages/core/src/scheduler/scheduler.ts:2358-2367 | started from every waiting train, a simple cycle, or none exists through any of them |
| `StandoffSearch.DfsForCycleBackToStart` | packages/core/src/scheduler/scheduler.ts:2369-2386 | the loop over an explicit stack computes the specified search |
| `StandoffSearch.FindCycleStartingFromAny` | packages/core/src/scheduler/scheduler.ts:2358-2367 | the loop over start nodes computes the specified search |
| `StandoffSearch.CollectWaitingTrains` | packages/core/src/scheduler/scheduler.ts:1895-1921 | exactly the trains with a next edge they do not hold, topology-held ones left out, in table order |
| `StandoffSearch.BuildWaitsForGraph` | packages/core/src/scheduler/scheduler.ts:1928-1941 | for each waiting train exactly the other trains whose held edges touch its wanted edge |
| `StandoffSearch.DetectWaitsForCycle` | packages/core/src/scheduler/scheduler.ts:1883-1888 | computes the specified detection, to which DetectExact applies |
| `Yielding.YieldIsHonest` | packages/core/src/scheduler/scheduler.ts:1574-1632 | the victim is the lowest-ranked of the standoff and not topology-held, gives up exactly what touches the peer's wanted edge, keeps every edge ending where it stands, has its limit drawn back to there, gains nothing in the follow-on pass, and no other train loses an edge |
| `Yielding.YieldsIff` | packages/core/src/scheduler/scheduler.ts:1590-1614 | a yield happens exactly when the lowest-ranked train denies a peer and nothing in the peer's way ends where the train stands |
| `Yielding.LowestFound` | packages/core/src/scheduler/scheduler.ts:1635-1643 | the scan finds the member below all others in rank |
| `StandoffSearch.LowestRankedInCycle` | packages/core/src/scheduler/scheduler.ts:1635-1643 | the loop computes the specified choice |
| `StandoffSearch.PeerWantedEdgeBlockedByVictim` | packages/core/src/scheduler/scheduler.ts:1652-1668 | the loop computes the first wanted edge of a cycle member that the victim's held edges touch |
| `Reversing.ReverseTargetIff` | packages/core/src/scheduler/scheduler.ts:1720-1784 | a target is computed exactly when it is the nearest safe retreat: a backward chain of held edges over new markers no other train touches, each shorter retreat still in the peer's way, this one not, with room for the body |
| `Reversing.BodyHeldIff` | packages/core/src/scheduler/scheduler.ts:1803-1830 | the length check accepts exactly when distinct retained edges of known length chain back from the target over at least the train's length |
| `Retreats.LowestRetreats` | packages/core/src/scheduler/scheduler.ts:1685-1703 | the lowest-ranked member with a safe retreat takes it; nobody moves only if none has one |
| `Retreats.ReverseIsSafe` | packages/core/src/scheduler/scheduler.ts:1851-1871 | to the end of the call the reverser holds exactly the rest of its edges, no other train has lost one, and exclusivity holds after the follow-on grants |
| `Retreats.OnlyGuardsBlock` | packages/core/src/scheduler/scheduler.ts:1833-1841 | under exclusivity only the span of a topology violation can make a marker of the train's own block count as taken |
| `Retreats.ResolutionIsHonest` | packages/core/src/scheduler/scheduler.ts:1526-1546 | a standoff ends in an honest yield, a safe reverse, or a truthful report with every train as it was because none can retreat; exclusivity survives |
| `Retreats.PassTakesFromOne` | packages/core/src/scheduler/scheduler.ts:1466-1484 | a whole retry pass takes edges from at most one train |
| `Retreats.InEveryRun` | packages/core/src/scheduler/scheduler.ts:1526-1546 | in the state after any run of a fresh scheduler a retry pass resolves what it finds in one of those ways, exclusivity surviving, and takes edges from at most one train |
| `Chains.FirstInto` | packages/core/src/scheduler/scheduler.ts:1735-1740 | a step back from a marker is over the held edge into it that was acquired first |
| `StandoffSearch.ComputeReverseTarget` | packages/core/src/scheduler/scheduler.ts:1720-1784 | the loop computes the specified walk |
| `StandoffSearch.ReverseBodyCoveredByHeldTail` | packages/core/src/scheduler/scheduler.ts:1803-1830 | the loop computes the specified length check |
| `Body.ReleasedIff` | packages/core/src/scheduler/scheduler.ts:1395-1434 | a status report releases exactly the edges whose end lies at least a train length behind the head, along a measured backward chain of held edges not ahead of the train |
| `GivingWay.RetrySpares` | packages/core/src/scheduler/scheduler.ts:1466-1484 | in a retry pass a train only gains edges unless it is the one the detected standoff makes yield or reverse, and exactly that one is sent the command to |
| `GivingWay.OthersSpare` | packages/core/src/scheduler/scheduler.ts:195-224 | whatever input arrives about anything else, a train's record only gains edges, or the train is among those told to yield or reverse |
| `Occupancy.BodyStaysHeld` | packages/core/src/scheduler/scheduler.ts:1325-1378 | from any state in which a train is on a leg with its body in held edges, over every run of the scheduler whose inputs leave it on that leg - anything about other trains, its own marker reports and true status reports, its head moving only onto held edges, no yield or reverse of its own - every edge the interval from head minus length to head overlaps stays held |
| `Occupancy.StepKeepsBody` | packages/core/src/scheduler/scheduler.ts:1325-1378 | one input of such a run |
| `Footprint.YieldKeepsBodyIff` | packages/core/src/scheduler/scheduler.ts:1590-1632 | a yield keeps the yielding train's body in held edges, to the end of the call, exactly when the peer's wanted edge touches none of the edges the body overlaps |
| `Meeting.YieldUncoversBody` | packages/core/src/scheduler/scheduler.ts:1590-1632 | it need not: on a loaded ring of five edges a run brings a 150 mm train to a station with its tail in the block behind; the pass after its dwell makes it yield, it keeps only the block it stands in, and in the same call the peer is granted an edge touching the block its tail is on |
| `Footprint.RetreatCoversBody` | packages/core/src/scheduler/scheduler.ts:1720-1784 | backing over a safe retreat, with true lengths, every edge the body overlaps is still held or among those the train was sent back over, wherever on the way its head is |
| `Footprint.ReverseUncovers` | packages/core/src/scheduler/scheduler.ts:1851-1871 | every enacted reverse of a train at the end of its leg leaves its body over an edge it no longer holds, from the moment the command is issued, follow-on grants made and the train not yet moved |
| `Footprint.CoveredAgainIff` | packages/core/src/scheduler/scheduler.ts:1851-1871 | on the way back, with true lengths, the body is wholly over held edges again exactly when the head has come to the target marker |
| `Footprint.ReverseCoversBody` | packages/core/src/scheduler/scheduler.ts:1851-1871 | after every enacted reverse, follow-on grants included, each edge the body overlaps on the way back is one the train still holds or one it was told to leave; what it was told to leave it no longer holds, so its body starts out uncovered and others can be granted those edges before it has left them |
| `Meeting.ReverseUncoversBody` | packages/core/src/scheduler/scheduler.ts:1851-1871 | and they are: on another loaded layout a run ends with a train sent back over the block its whole body is on, and in the same call the peer is granted an edge touching that block |
| `Occupancy.StatusIsStated` | packages/core/src/scheduler/scheduler.ts:1355-1377 | a status report before the dwell ends leaves the train with the tail released and possibly more granted, or with a command to yield or reverse, which it gets only if the standoff found after the release chooses it |
| `Occupancy.PassIsReported` | packages/core/src/scheduler/scheduler.ts:761-817 | an accepted marker report leaves the train arrived and possibly more granted, or with a command to yield or reverse, exactly when the standoff its pass finds chooses it |
| `StandoffSearch.CollectTailReleases` | packages/core/src/scheduler/scheduler.ts:1395-1434 | the loop computes the specified walk |
| `Waits.AttemptIff` | packages/core/src/scheduler/scheduler.ts:1130-1177 | one attempt: an edge is granted exactly when no other train holds an edge with a marker of it, its first declaration names no other position than the recorded one, and no device vetoes its end; the switch alone is told to move, once, when only it is in the way, whatever the vetoes; otherwise nothing happens |
| `Waits.NobodyWaitsForNothing` | packages/core/src/scheduler/scheduler.ts:1466-1484 | after every input of every run that ends with a pass no train but one at most waits for an edge it could be granted at once |
| `Horizon.HorizonClosedForm` | packages/core/src/scheduler/scheduler.ts:1015-1054 | an extension nobody refuses reaches max(3, min(6, k)) edges ahead, k being the least count whose learned times sum to 6000 ms, or the end of the route |
| `Horizon.UnlearnedHorizon` | packages/core/src/scheduler/scheduler.ts:1026-1031 | with nothing learned, an extension nobody refuses reaches exactly three edges, or the end of the route |
| `Horizon.NeverPastTheCap` | packages/core/src/scheduler/scheduler.ts:1074-1078 | no extension goes past six edges from the progress index |
| `Horizon.GrantsInOrder` | packages/core/src/scheduler/scheduler.ts:1032-1051 | an edge is granted only when every route edge from the progress index up to it is held by then |
| `Horizon.ExtendReaches` | packages/core/src/scheduler/scheduler.ts:1015-1054 | one extension appends exactly the unheld edges up to where the horizon is satisfied, the route ends, or an edge is refused |
| `LayoutRuns.RecordStays` | packages/core/src/scheduler/layout-state.ts:314-335 | with a clock that does not run backwards, learned times stay non-negative, as the closed form requires |
| `LayoutRuns.RunTimes` | packages/core/src/scheduler/layout-state.ts:314-378 | in every run whose clock readings never decrease no learned time is negative and no timestamp lies ahead of the clock |
| `Learning.RunLearns` | packages/core/src/scheduler/layout-state.ts:288-378 | in every run the shared timestamp and each train's own are those of its latest recorded leg since the last reset, the learned times are the moving averages of the intervals between its legs, and an edge counts as often traversed as it was driven |
| `Learning.EstimateInEveryRun` | packages/core/src/scheduler/layout-state.ts:345-358 | the time counted for an edge is the train's own average when it has one, else that of all trains |
| `Learning.AverageBetween` | packages/core/src/scheduler/layout-state.ts:323-327 | such an average lies between the shortest and the longest interval |
| `Learning.HorizonByLog` | packages/core/src/scheduler/scheduler.ts:1015-1078 | in every run whose clock does not run backwards an extension nobody refuses reaches three edges, or as many as those averages say six seconds take, six for an edge without one, up to six edges, or the end of the route |
| `LayoutRuns.HorizonInEveryRun` | packages/core/src/scheduler/scheduler.ts:1015-1054 | so in the state after every such run an extension nobody refuses reaches exactly as far as the closed form says |
| `Priority.NoPriorityInversion` | packages/core/src/scheduler/scheduler.ts:1466-1484 | when a train has been served, any edge in the way of what it wants was held before the pass, or belongs to a train of higher priority, or of the same priority and no later place in the roster |
| `Choosing.NoInversionInEveryRun` | packages/core/src/scheduler/scheduler.ts:1466-1484 | in every run, wherever an input begins a pass: whatever is in the way of a served train was there before, or is held by a train that announced a higher priority when it joined, or the same and joined earlier |
| `Choosing.ServedByAnnouncement` | packages/core/src/scheduler/scheduler.ts:1500-1502 | a pass serves trains in that order |
| `Choosing.GivingWayInEveryRun` | packages/core/src/scheduler/scheduler.ts:1526-1546 | in every run clearance is taken back only by a topology hold, by the operator, or in a standoff: a yield from the member all others of which announced a higher priority, or the same and joined earlier; a reverse, when that one cannot yield, from a member with a safe retreat when none it outranks has one |
| `Announced.RunAgrees` | packages/core/src/scheduler/scheduler.ts:283-291 | in every run the trains are those whose devices registered as such and have not left since, in the order they first did, each with the priority announced then; what each device can do is what it last registered with |
| `Announced.BeforeIsOutranks` | packages/core/src/scheduler/scheduler.ts:2345-2351 | so the comparison is higher announced priority first, then earlier first registration |
| `Announced.StandingKept` | packages/core/src/scheduler/scheduler.ts:195-224 | nothing but registering, forgetting and resetting changes who is a train, its rank or its priority |
| `Standing.RetryMoves` | packages/core/src/scheduler/scheduler.ts:1466-1484 | a retry pass changes nothing about a train but what it holds, its limit and, for a reverse, its place |
| `Priority.ServedInPass` | packages/core/src/scheduler/scheduler.ts:1478-1482 | serving that train happens exactly there in the pass |
| `Ranking.RankTotal` | packages/core/src/scheduler/scheduler.ts:2345-2351 | the comparison is total and irreflexive on distinct trains, and nobody comes before a train of higher priority, or of the same and an earlier place |
| `Ranking.RankTransitive` | packages/core/src/scheduler/scheduler.ts:2345-2351 | and transitive |
| `Ranking.StrLessIff` | packages/core/src/scheduler/scheduler.ts:1554-1564 | the order of published texts: at the first difference the smaller character, or the shorter text when there is none |
| `Ranking.RankedUnique` | packages/core/src/scheduler/scheduler.ts:1500-1502 | so there is one order a sort can give |
| `Ranking.SortRanked` | packages/core/src/scheduler/scheduler.ts:1500-1502 | the sort used gives it |
| `Replanning.PlanSettles` | packages/core/src/scheduler/scheduler.ts:2104-2118 | planning turns to the cyclically first stop other than the train's marker, publishes each advance and routes there if the call stack has room for the advances; otherwise it fails with the schedule advanced as far as the stack went |
| `Replanning.PlanForeseen` | packages/core/src/scheduler/scheduler.ts:2104-2176 | told from the state before: planning fails exactly when no other stop is within the stack's reach, otherwise sends the train off exactly when a leg to the first other stop is planned, not empty and admitted there, with the departure it is, and else only publishes notices, the train holding what it held |
| `Replanning.PlanReturnsIff` | packages/core/src/scheduler/scheduler.ts:2104-2190 | on a deep enough stack planning returns exactly when there is no schedule, no known place, a single stop, or some stop other than the train's marker |
| `Replanning.AdvanceReturnsIff` | packages/core/src/scheduler/scheduler.ts:2183-2190 | likewise for turning to the next stop |
| `Replanning.RoundTripFails` | packages/core/src/scheduler/scheduler.ts:2030-2075 | the input on which it never returns: a round trip from a marker to itself given to a train there or without a place fails on every stack, and has silently emptied the train |
| `Replanning.TravellingSettles` | packages/core/src/scheduler/scheduler.ts:2183-2190 | a schedule through two different markers settles wherever the train stands, with one call for each stop but one |
| `Journeys.LegRecord` | packages/core/src/scheduler/scheduler.ts:2104-2176 | one leg: the way planned from where the train is, facing along the edge it is on or else the one it came into a zone by, is sent and taken up from its beginning; no way, or a zone it cannot reverse out of, is told and changes nothing |
| `Journeys.DepartGrows` | packages/core/src/scheduler/scheduler.ts:2148-2176 | a departing train is cleared to where it stands and from there to the end of what it is granted last, unless it gives way in the same pass |
| `Journeys.PlanOwn` | packages/core/src/scheduler/scheduler.ts:2104-2190 | planning, however often it turns, leaves the train's place, heading, dwell, zone, hold and length and the schedule's stops as they are, but for a reverse it is told to make |
| `Journeys.AssignRecord` | packages/core/src/scheduler/scheduler.ts:2030-2075 | an assignment to known stops starts the train over: from where it is, or else the first stop, for the first stop or, being there, the second, holding nothing and free of any hold; one to an unknown stop changes nothing |
| `Journeys.RevokeRecord` | packages/core/src/scheduler/scheduler.ts:2205-2226 | a revocation leaves the train holding nothing where it stands, free of any hold, and the pass grants it nothing |
| `Journeys.ReanchorRecord` | packages/core/src/scheduler/scheduler.ts:2237-2251 | a held train confirmed at a known marker is there, holding nothing, its hold lifted and its route forgotten, and then plans; otherwise nothing happens |
| `Journeys.ConfirmRecord` | packages/core/src/scheduler/scheduler.ts:2262-2286 | confirming track learns the first held edge the layout lacks and puts the train at its end likewise |
| `Journeys.ReleaseRecord` | packages/core/src/scheduler/scheduler.ts:644-682 | released by the zone's own reporter a train is in no zone and goes on; from anyone else nothing changes |
| `Journeys.StatusRecord` | packages/core/src/scheduler/scheduler.ts:1325-1378 | a status report gives a train without a heading the one reported, ends a dwell that is over and plans, and otherwise touches the train only if its length and position are known |
| `Journeys.DwellTurns` | packages/core/src/scheduler/scheduler.ts:1350-1362 | the first status report after a dwell ends it and turns the schedule on by at least one stop, as far as the call stack allows |
| `PlannerProofs.PlanIsLegal` | packages/core/src/scheduler/planner.ts:43-122 | on any layout a route is a connected chain without repeated edges, empty exactly when the train is at its target, made of layout edges but for a forced first one, that never takes the U-turn, starts with the current edge when mid-edge and makes no leg-to-leg move |
| `PlannerProofs.PlanIsLeastCost` | packages/core/src/scheduler/planner.ts:130-208 | the route is a walk of least total length, an unmeasured edge counting one, among those that avoid the barred edge, and no answer means there is none, unless some marker with several legs, no dearer to reach than the target, is reached most cheaply over one of them, or the train itself comes in over one |
| `PlannerProofs.DijkstraAnswers` | packages/core/src/scheduler/planner.ts:130-153 | both results for one search, with lazy deletion and predecessors that settle for good; a walk costs its measured length and one for each unmeasured edge |
| `PlannerProofs.TraceCost` | packages/core/src/scheduler/planner.ts:187-208 | every price the search notes is the total length, an unmeasured edge counting one, of a walk it can trace back |
| `PlannerProofs.WalkBound` | packages/core/src/scheduler/planner.ts:130-153 | along any walk either its end is settled at no more than the walk costs, or the walk costs no less than the cheapest open entry |
| `PlannerProofs.ForcedRoute` | packages/core/src/scheduler/planner.ts:130-208 | where each marker on a simple way offers the next edge only and nothing is switched, the planned route is that way |
| `PlannerTurnout.TrunkRouteMissed` | packages/core/src/scheduler/planner.ts:187-196 | elsewhere the search is not complete: on a layout loaded from a document, with the graph invariant, a legal walk leads to a marker the planner reports no route to |
| `PlannerTurnout.TrunkIsLegal` | packages/core/src/scheduler/planner.ts:90-98 | the walk it misses is legal |
| `LayoutRuns.RunRoutesAreLegal` | packages/core/src/scheduler/planner.ts:43-71 | in every run of the scheduler every planned route is legal |
| `PlannerSearch.PopLowestCost` | packages/core/src/scheduler/planner.ts:160-168 | removes the first entry of least cost |
| `PlannerSearch.RelaxNeighbours` | packages/core/src/scheduler/planner.ts:175-208 | the loop computes the specified relaxation, whose prices TraceCost says are total lengths |
| `PlannerSearch.ReconstructTransit` | packages/core/src/scheduler/planner.ts:210-229 | walks the predecessors back; one is never missing |
| `PlannerSearch.RunDijkstra` | packages/core/src/scheduler/planner.ts:130-153 | the loop computes the specified search and ends although stale entries stay in the frontier |
| `PlannerSearch.PlanRoute` | packages/core/src/scheduler/planner.ts:43-122 | the entry point computes the specified plan |
| `LayoutGraph.RunKeepsGraph` | packages/core/src/scheduler/layout-state.ts:94-143 | over every run of layout operations from a document whose later copies of an edge are declared confirmed: one key set, mirror-image lists, known ends, only first copies inferred, and every inferred edge traversed fewer times than the threshold |
| `LayoutGraph.RecordKeeps` | packages/core/src/scheduler/layout-state.ts:288-335 | recording a traversal - inferring, counting, confirming - keeps that invariant |
| `LayoutGraph.PruneKeeps` | packages/core/src/scheduler/layout-state.ts:261-277 | removing orphans leaves every edge with both ends known and mirrored |
| `LayoutGraph.PruneExact` | packages/core/src/scheduler/layout-state.ts:261-277 | pruning takes away known markers no edge touches, with what is known of their switches, and nothing else |
| `LayoutGraph.ConfirmKeeps` | packages/core/src/scheduler/layout-state.ts:381-392 | confirming keeps the two indexes mirror images, parallel edges included |
| `LayoutGraph.LoadLists` | packages/core/src/scheduler/layout-state.ts:94-111 | a document whose edges join declared markers loads, into exactly the declared markers, each with its declared edges in order |
| `LayoutGraph.LoadedIsOk` | packages/core/src/scheduler/layout-state.ts:94-111 | a layout that loads at all has the invariant if its document declares later copies of an edge as confirmed |
| `LayoutGraph.InferredStayBelowIff` | packages/core/src/scheduler/layout-state.ts:381-392 | a loaded document keeps every inferred edge below the threshold in every run of layout operations exactly when no edge declared again, between the same markers, is declared inferred |
| `LayoutGraph.ParallelsStayInferred` | packages/core/src/scheduler/layout-state.ts:381-392 | the shortest failing run: a document with the same inferred edge twice, one traversal at threshold one |
| `LayoutRuns.RunKeepsLayout` | packages/core/src/scheduler/scheduler.ts:594-610 | the scheduler's layout has the invariant in every run |
| `LayoutRuns.StepLayout` | packages/core/src/scheduler/scheduler.ts:195-224 | each input applies at most one layout operation, and which |
| `Reports.DiscoveryInEveryRun` | packages/core/src/scheduler/scheduler.ts:594-610 | in every run, when a train without a route, in no zone, reports a known marker other than its last, the layout joins the two afterwards and no clearance is taken back from it |
| `Reports.FreeReportDiscovers` | packages/core/src/scheduler/scheduler.ts:844-855 | one such report, from any state with a sound layout and an orderly roster; no hold is put on the train either |
| `Reports.ReportHoldsIff` | packages/core/src/scheduler/scheduler.ts:844-915 | a marker report puts a hold on its train exactly when the train is in no zone, follows a route, has a last marker other than the reported one, and the layout has no edge between them |
| `Reports.OnlyReportsHold` | packages/core/src/scheduler/scheduler.ts:884-915 | nothing else ever puts a hold on a train |
| `Records.ReportRecord` | packages/core/src/scheduler/scheduler.ts:735-817 | an accepted report puts the train at the marker, on to the next edge of its route if the marker ends the one it is on, into a dwell of 2500 ms if that was the last and the marker its stop, and makes a train without length give up what ends there; from there it is only granted more, unless told to give way |
| `Records.ReportNotice` | packages/core/src/scheduler/scheduler.ts:771-790 | and publishes the marker, the edge since the last report if there is one, and whether the layout counts it as new |
| `Records.ZoneRecord` | packages/core/src/scheduler/scheduler.ts:619-635 | at the throat of a zone a train gives up everything, keeps in mind the edge it came in by and is suspended there, whatever the pass does |
| `Records.HoldRecord` | packages/core/src/scheduler/scheduler.ts:884-946 | off the map a train is stopped where it was last certain and keeps what it holds and the span it may be on; exactly a revocation, the violation, suspecting the sensor when track touches the marker, and its clearance are emitted |
| `LayoutRuns.EdgesComeFromDiscovery` | packages/core/src/scheduler/scheduler.ts:844-854 | the other way round: an edge is added only by the report of a train with no route, for the pair it crossed, or by the operator confirming new track |
| `LayoutStates.LayoutState.Create` | packages/core/src/scheduler/layout-state.ts:81-87 | gives the layout of a document, or no object when an edge names an undeclared marker; the new value is the one the invariants are proved of |
| `LayoutStates.LayoutState.LoadFromDocument` | packages/core/src/scheduler/layout-state.ts:94-111 | loads the document, or fails on an edge that names an undeclared marker; the new value is the one the invariants are proved of |
| `LayoutStates.LayoutState.Reset` | packages/core/src/scheduler/layout-state.ts:118-131 | back to the declared layout; the new value is the one the invariants are proved of |
| `LayoutStates.LayoutState.AddEdgeInternal` | packages/core/src/scheduler/layout-state.ts:133-143 | appends to both lists or refuses; the new value is the one the invariants are proved of |
| `LayoutStates.LayoutState.FindEdgeBetween` | packages/core/src/scheduler/layout-state.ts:166-168 | the first edge to the given marker; the new value is the one the invariants are proved of |
| `LayoutStates.LayoutState.AddInferred` | packages/core/src/scheduler/layout-state.ts:232-240 | adds an inferred edge between known markers unless there is one; the new value is the one the invariants are proved of |
| `LayoutStates.LayoutState.Upsert` | packages/core/src/scheduler/layout-state.ts:247-253 | adds a marker unless known; the new value is the one the invariants are proved of |
| `LayoutStates.LayoutState.PruneOrphanMarkers` | packages/core/src/scheduler/layout-state.ts:261-277 | removes exactly the markers no edge touches and names each once, in the order of the collation it is given; the new value is the one the invariants are proved of |
| `LayoutStates.LayoutState.Confirm` | packages/core/src/scheduler/layout-state.ts:381-392 | clears the flag on the first copy in each index; the new value is the one the invariants are proved of |
| `LayoutStates.LayoutState.Record` | packages/core/src/scheduler/layout-state.ts:288-335 | one traversal: edge, count, confirmation, shared and per-train times, which RunLearns reads off the legs driven; the new value is the one the invariants are proved of |
| `LayoutStates.LayoutState.UpdatePerTrain` | packages/core/src/scheduler/layout-state.ts:365-378 | the per-train moving average of the intervals between the train's own legs; the new value is the one the invariants are proved of |
| `Scheduling.Scheduler.EdgeConflictsWithAnotherTrain` | packages/core/src/scheduler/scheduler.ts:1196-1211 | true exactly when another train holds an edge touching the given one |
| `Scheduling.Scheduler.EdgeRequiresMismatchedSwitch` | packages/core/src/scheduler/scheduler.ts:1184-1189 | true exactly when the edge needs a position the junction is not confirmed in |
| `Scheduling.Scheduler.AnyCapabilityDeniesClearance` | packages/core/src/scheduler/scheduler.ts:1213-1230 | true exactly when some device denies the limit |
| `Scheduling.Scheduler.MaybeActuateSwitch` | packages/core/src/scheduler/scheduler.ts:1160-1177 | commands the switch once per position |
| `Scheduling.Scheduler.TryGrantClearance` | packages/core/src/scheduler/scheduler.ts:1130-1140 | conflict, switch, veto, grant, in that order |
| `Scheduling.Scheduler.ExtendClearanceHorizon` | packages/core/src/scheduler/scheduler.ts:1015-1054 | the walk the closed form is about |
| `Scheduling.Scheduler.RetryBlockedClearances` | packages/core/src/scheduler/scheduler.ts:1466-1484 | one pass in rank order, then resolution |
| `Scheduling.Scheduler.ResolveDeadlockOrEmitState` | packages/core/src/scheduler/scheduler.ts:1526-1546 | yield, else reverse, else report |
| `Scheduling.Scheduler.EmitDeadlockState` | packages/core/src/scheduler/scheduler.ts:1554-1564 | publishes only changes |
| `Scheduling.Scheduler.TryYieldLowestRanked` | packages/core/src/scheduler/scheduler.ts:1574-1632 | the yield; with none the state is unchanged |
| `Scheduling.Scheduler.TryReverseToBreakStandoff` | packages/core/src/scheduler/scheduler.ts:1685-1703 | the reverse; with none the state is unchanged |
| `Scheduling.Scheduler.EnactReverse` | packages/core/src/scheduler/scheduler.ts:1851-1871 | releases the retreat and re-anchors the head |
| `Scheduling.Scheduler.HandleDeviceRegistered` | packages/core/src/scheduler/scheduler.ts:228-276 | registration, train set-up, zone ownership and switch pairing |
| `Scheduling.Scheduler.RecordZoneOwnership` | packages/core/src/scheduler/scheduler.ts:334-358 | markers owned elsewhere are refused and reported |
| `Scheduling.Scheduler.ForgetKnownDevice` | packages/core/src/scheduler/scheduler.ts:379-417 | a device and its train leave, with their snapshots cleared |
| `Scheduling.Scheduler.HandleTagObserved` | packages/core/src/scheduler/scheduler.ts:421-457 | a tag becomes a marker report or an identification |
| `Scheduling.Scheduler.HandleTagAssignment` | packages/core/src/scheduler/scheduler.ts:465-499 | only tag assigners bind tags; unknown markers are created |
| `Scheduling.Scheduler.HandleTrainLengthChanged` | packages/core/src/scheduler/scheduler.ts:516-544 | only length reporters change a length |
| `Scheduling.Scheduler.HandleZoneStateChanged` | packages/core/src/scheduler/scheduler.ts:553-563 | records the boundary, runs the hooks, retries |
| `Scheduling.Scheduler.HandleGateStateChanged` | packages/core/src/scheduler/scheduler.ts:1951-1978 | runs the hooks of the device's capabilities, retries |
| `Scheduling.Scheduler.HandleZoneTrainReleased` | packages/core/src/scheduler/scheduler.ts:644-682 | only the owner releases; the schedule moves on if the zone was its stop |
| `Scheduling.Scheduler.HandleTrainAtMarker` | packages/core/src/scheduler/scheduler.ts:688-818 | ignores zone trains, holds those ReportHoldsIff says, parks zone entries, accepts the rest |
| `Scheduling.Scheduler.HandleTopologyViolation` | packages/core/src/scheduler/scheduler.ts:884-915 | pins the train and retains the span |
| `Scheduling.Scheduler.EnterZoneAt` | packages/core/src/scheduler/scheduler.ts:619-635 | suspends the train, holding nothing |
| `Scheduling.Scheduler.RecordMarkerTraversal` | packages/core/src/scheduler/scheduler.ts:594-610 | learns or confirms the crossed edge |
| `Scheduling.Scheduler.HandleClearanceRequest` | packages/core/src/scheduler/scheduler.ts:1082-1099 | checks markers, then tries the grant |
| `Scheduling.Scheduler.HandleSwitchStateChanged` | packages/core/src/scheduler/scheduler.ts:1270-1299 | a confirmed report updates position and request, then retries |
| `Scheduling.Scheduler.HandleTrainStatus` | packages/core/src/scheduler/scheduler.ts:1325-1378 | seeds a heading, ends a dwell, or releases the tail |
| `Scheduling.Scheduler.PlanAndExecuteCurrentTransit` | packages/core/src/scheduler/scheduler.ts:2104-2176 | plans the current leg, or fails when the call stack is exhausted |
| `Scheduling.Scheduler.AdvanceScheduleAndReplan` | packages/core/src/scheduler/scheduler.ts:2183-2190 | turns to the next stop and plans, one call deeper |
| `Scheduling.Scheduler.AssignScheduleTo` | packages/core/src/scheduler/scheduler.ts:2030-2075 | reassigns a train, whatever the stops |
| `Scheduling.Scheduler.RevokeClearanceOf` | packages/core/src/scheduler/scheduler.ts:2205-2226 | empties a train's clearance and retries without it |
| `Scheduling.Scheduler.ReanchorTrain` | packages/core/src/scheduler/scheduler.ts:2237-2251 | lifts a hold at a known marker |
| `Scheduling.Scheduler.ConfirmTrackFor` | packages/core/src/scheduler/scheduler.ts:2262-2286 | learns the uncertain edge and lifts the hold |
| `Scheduling.Scheduler.ResumeAfterRecovery` | packages/core/src/scheduler/scheduler.ts:2294-2297 | replans if scheduled, then retries |
| `Scheduling.Scheduler.Clear` | packages/core/src/scheduler/scheduler.ts:181-191 | forgets everything and reloads the layout |
| `Scheduling.Scheduler.HandleEvent` | packages/core/src/scheduler/scheduler.ts:195-224 | state and effects after any event are those the run lemmas speak of |
| `Scheduling.Scheduler.Operate` | packages/core/src/scheduler/scheduler.ts:181-191 | likewise for the operator calls |
| `Operation.Handle` | packages/core/src/scheduler/scheduler.ts:195-224 | one input handled by the object: the specified state and effects, grants that fit it, and after a retry pass the exact account of deadlocks |
| `Operation.HandleAll` | packages/core/src/scheduler/scheduler.ts:195-224 | inputs handled one after another: the state and effects of the specified run, exclusivity, roster and layout graph kept, retained snapshots true, and each device's lists its latest reports |
| `Enrolment.RegisterEnrols` | packages/core/src/scheduler/scheduler.ts:307-358 | an accepted registration gives the device every zone marker it names that no other device owns or switches, and the switch it names unless that marker is another's zone; all else keeps its owner |
| `Enrolment.RunOwners` | packages/core/src/scheduler/scheduler.ts:334-358 | in every run a marker's zone and its switch belong to one device |
| `Enrolment.OwnerStays` | packages/core/src/scheduler/scheduler.ts:334-358 | a zone marker never changes hands short of a reset |
| `Enrolment.RunRecords` | packages/core/src/scheduler/scheduler.ts:465-563 | in every run a zone answers to the device that last reported it, and a tag means what a device registered to assign tags last said |
| `Enrolment.StepMarkers` | packages/core/src/scheduler/scheduler.ts:465-499 | markers come with the document or with a tag bound to a new one, of the kind it says, and never change or go |
| `News.NewsIff` | packages/core/src/scheduler/scheduler.ts:195-224 | besides commands, clearances, deadlocks, schedules and unplannable legs an input tells exactly: refusals and unknowns, devices with their lengths, reports and violations, tags and switches, and the layout when its edges or markers have changed |
| `News.RecordTells` | packages/core/src/scheduler/layout-state.ts:288-335 | a recorded traversal counts as an addition or a confirmation exactly when the lists of edges have changed |
| `TcfPayloads.PackRoundTrip` | packages/protocol/src/tcf/payloads.ts:77-102 | an identifier survives packing exactly when its text is the canonical lower-case form |
| `TcfPayloads.UnpackRoundTrip` | packages/protocol/src/tcf/payloads.ts:91-102 | sixteen bytes survive their text |
| `TcfPayloads.PayloadRoundTrip` | packages/protocol/src/tcf/payloads.ts:212-351 | a payload of the four types comes back from its bytes exactly when it is well-formed: canonical identifiers, a known direction, counts that fit a byte, and a reason that does not open with a byte-order mark |
| `TcfPayloads.DecodeBack` | packages/protocol/src/tcf/payloads.ts:212-351 | printing what decodes restores the bytes exactly when its flag bytes are zero or one and a reason does not open with a byte-order mark, and then it is well-formed |
| `TcfPayloads.AllBytesConsumed` | packages/protocol/src/tcf/payloads.ts:353-357 | a parse takes every byte: no region that parses is a proper prefix of another |
| `TcfPayloads.GrantedFits` | packages/protocol/src/tcf/payloads.ts:276-303 | a grant notice takes 33 + 32 n bytes and fits a frame exactly up to six edges |
| `TcfText.Utf8Iff` | packages/protocol/src/tcf/payloads.ts:324-343 | bytes read strictly as a text exactly when they are what that text is written as |
| `TcfText.TextRoundTrip` | packages/protocol/src/tcf/payloads.ts:324-343 | a reason survives its bytes exactly when it does not open with a byte-order mark, which the decoder drops |
| `TcfText.TextBack` | packages/protocol/src/tcf/payloads.ts:343 | valid bytes survive the text they decode to exactly when they do not open with that mark |
| `TcfBytes.UuidToBytes` | packages/protocol/src/tcf/payloads.ts:77-88 | the byte-filling loop computes the packing |
| `TcfBytes.BytesToUuid` | packages/protocol/src/tcf/payloads.ts:91-102 | the loop computes the text |
| `TcfBytes.ByteWriter.Finish` | packages/protocol/src/tcf/payloads.ts:138-148 | the buffer holds the chunks in order |
| `TcfBytes.ByteReader.Uuid` | packages/protocol/src/tcf/payloads.ts:166-173 | reads sixteen bytes and moves on, or reports running out |
| `TcfBytes.EncodePayload` | packages/protocol/src/tcf/payloads.ts:212-351 | the writer produces the specified bytes, or fails where nothing is specified |
| `TcfBytes.DecodePayload` | packages/protocol/src/tcf/payloads.ts:212-351 | the reader accepts and returns exactly what the specification does, refusing a reason that is not valid UTF-8 |
| `TcfRegistry.EventIds` | packages/protocol/src/tcf/registry.ts:36-54 | event names and identifiers correspond one to one |
| `TcfRegistry.CommandIds` | packages/protocol/src/tcf/registry.ts:60-73 | command names and identifiers correspond one to one |
| `TcfFrames.FrameRoundTrip` | packages/protocol/src/tcf/codec.ts:155-183 | a frame written from a sendable body reads back as written, given a lossless JSON carrier |
| `TcfFrames.HeaderRoundTrip` | packages/protocol/src/tcf/codec.ts:461-489 | the thirteen header bytes carry every field in range |
| `TcfBridge.RebuiltIff` | packages/protocol/src/tcf/codec.ts:371-411 | of all frames that read, exactly the canonical ones of a known type are rebuilt by re-encoding their envelope |
| `TcfBridge.UnknownEncoded` | packages/protocol/src/tcf/codec.ts:277-293 | the notice of an unknown type is written as an anomaly frame of the current epoch with the notice as JSON |
| `TcfBridge.PackedCanonicalIff` | packages/protocol/src/tcf/codec.ts:155-183 | for the four packed types canonical means the current epoch, no stray flags, at most one frame, a region that parses, flag bytes that are bits and no byte-order mark before a reason |
| `TcfBridge.SentIsCanonical` | packages/protocol/src/tcf/codec.ts:461-489 | current-epoch frames of conforming devices are canonical |
| `TcfBridge.AnyEarlierFrameIsRebuilt` | packages/protocol/src/tcf/codec.ts:228-237 | after any run of decodes under distinct fresh identifiers every earlier frame that read is rebuilt byte for byte exactly when canonical and of a known type, and the device maps are mutually inverse |
| `TcfBridge.ResolveKeepsInverse` | packages/protocol/src/tcf/codec.ts:239-251 | a new reference keeps the device maps inverse exactly when its synthetic identifier is not taken |
| `TcfBridge.SyntheticInjective` | packages/protocol/src/tcf/codec.ts:254-257 | different references get different synthetic identifiers |
| `TcfBridge.BridgeContext.Expand` | packages/protocol/src/tcf/codec.ts:228-353 | a decode's envelope and the maps it leaves; an unreadable frame leaves no trace |
| `TcfBridge.BridgeContext.Compact` | packages/protocol/src/tcf/codec.ts:371-447 | the correlation looked up, the frame written; WrittenAddressed says what that frame carries |
| `TcfLayout.WrittenAddressed` | packages/protocol/src/tcf/codec.ts:371-489 | every frame written, at most 250 bytes: epoch, type number and command flag in one byte each, then big-endian device reference, sequence number and uptime, each what the caller overrides it with, else what the envelope's decode left, else the device's own reference or zero |
| `TcfLayout.NewEnvelopeAddressed` | packages/protocol/src/tcf/codec.ts:432-447 | an envelope under a new identifier for a known device goes to that device's reference, with number and uptime zero |
| `TcfLayout.AnswersReachTheSender` | packages/protocol/src/tcf/codec.ts:228-251 | after any run of decodes such an envelope for the device an earlier frame came from carries that frame's reference |
| `TcfLayout.NoFrameIff` | packages/protocol/src/tcf/codec.ts:461-489 | an envelope has a frame exactly when its type is listed, every header field fits its width, and the region prints within 250 bytes in all |
| `TcfLayout.DecodeReads` | packages/protocol/src/tcf/codec.ts:228-353 | a decode labels the envelope with the new identifier, time and version and the device's identifier, gives it the listed type of its number with its body, or an anomaly naming direction, number and epoch, and remembers reference, number and uptime under the identifier |
| `TcfLayout.SyntheticIs` | packages/protocol/src/tcf/codec.ts:253-257 | a device unheard of gets the version-4 identifier that is all zeros before its reference |
| `TcfLayout.PayloadLaidOut` | packages/protocol/src/tcf/payloads.ts:212-351 | every packed payload field by field: identifiers digit for digit, edges beginning first, flags, counts and texts at their places |
| `TcfLayout.PayloadReadOff` | packages/protocol/src/tcf/payloads.ts:212-351 | and every payload that parses is read off the same places, a flag being set by one and nothing else |
| `TcfBridge.FillFrame` | packages/protocol/src/tcf/codec.ts:461-489 | the buffer filled field by field is the specified frame |
| `LearnModes.CompletionCovers` | packages/server/src/learn-mode.ts:219-256 | over every run, when a step makes the session complete, every marker reachable from its start in the layout of that moment has been visited and every edge out of one traversed |
| `LearnModes.CompletesIff` | packages/server/src/learn-mode.ts:238-292 | a report completes a driving or paused session exactly when the train is back at its start, off a terminus, after moving, and every edge out of anything reachable from anywhere it has been is traversed |
| `LearnModes.RunJoins` | packages/server/src/learn-mode.ts:225-232 | in every run visited edges join visited markers |
| `LearnTrails.RunTraces` | packages/server/src/learn-mode.ts:219-232 | in every run a session has visited exactly the markers of its trail and traversed exactly the pairs of different markers in succession on it, from its first to its last |
| `LearnTrails.RunObeys` | packages/server/src/learn-mode.ts:258-275 | in every run a session counts its train as exploring exactly when the last command it sent was to begin, commands that train only, none while waiting, and never to begin twice without a release |
| `LearnTrails.TagJudged` | packages/server/src/learn-mode.ts:138-256 | a tag seen: a waiting session takes the device, or the first registered train; if the train it follows is the one and has been seen, it is released and paused at a terminus, released and complete when back at the first marker with every edge out of the trail traversed, or else exploring, told so once; each is published |
| `LearnTrails.StartJudged` | packages/server/src/learn-mode.ts:158-195 | a start is for the train asked for or the first registered, judged at once if it has been seen and otherwise waiting |
| `LearnTrails.StopReleases` | packages/server/src/learn-mode.ts:197-209 | a stop releases the train exactly when the commands sent have left it exploring, and publishes that nothing is learned |
| `LearnModes.LearnMode.ReachableGraphFullyTraversed` | packages/server/src/learn-mode.ts:280-292 | true exactly when back at the start, moved, and every edge out of every visited marker traversed |
| `LearnModes.LearnMode.ReviewProgress` | packages/server/src/learn-mode.ts:219-256 | the session and effects of one review |
| `LearnModes.LearnMode.OnTagObserved` | packages/server/src/learn-mode.ts:138-154 | a waiting session latches onto a train, then reviews |
| `LearnModes.LearnMode.StartLearning` | packages/server/src/learn-mode.ts:158-195 | a new session, driving at once if the train has been seen |
| `LearnModes.LearnMode.StopLearning` | packages/server/src/learn-mode.ts:197-209 | releases an exploring train and goes idle |

## Left out

- PlannerProofs.PlanIsLeastCost: one direction. The search remembers one predecessor per marker; where the cheapest way into a marker with several legs is over one of them it can miss a route (`PlannerTurnout.TrunkRouteMissed`) and need not, and no condition short of running it is given for which.
- Occupancy.BodyStaysHeld: speaks of one leg, with true positive lengths and only the leg's own held edges ending along it behind the train; what a yield or a reverse of the train itself does to its body is stated in `Footprint` and `Meeting`, and reassignment, revocation and zone entry drop occupancy outright.
- Waits.NobodyWaitsForNothing: leaves out one train and does not say which; it is the one that gave way last, or was told to stop.
- Reports.DiscoveryInEveryRun: not for a train whose last marker has the empty identifier, which the code takes for no marker.
- Published.RepeatNeedsNews: runs without a reset, which forgets what was asked.
- LearnModes.CompletionCovers: covers the step that completes a session; a finished session keeps reporting completion although the layout may grow afterwards.
- Horizon.HorizonClosedForm: takes learned times as non-negative, which holds in runs whose clock does not run backwards (`LayoutRuns.RunTimes`).
- Silence.SilenceForeseen: when the departure is refused its first edge and somebody then gives way, whether the follow-on grants show the train is told only by the call itself (`Published.SilenceIff`).
- Texts with unpaired surrogates: a text is a sequence of Unicode scalar values; the program's encoder would replace an unpaired surrogate.
- The host's collation: the order in which pruned markers are named is a parameter, any total preorder.
- Rounding: lengths, costs and the moving average of learned times are exact reals.
- Edge keys: the text `from->to` is modelled as a pair; it identifies an edge only for identifiers without `->`.
- Text order: identifiers are compared by code points, where the program compares UTF-16 units.
- Replan effects returned to the marker handler: the function that could return them always returns none, so that branch is not modelled.
- Anomaly descriptions: structured values, not sentences; severities and the `immediate` flag of a revocation are left out.
- Layout snapshots: the junction list and the layout's name are not in the published value.
- Capabilities other than the two gates: registered names without hooks; the registry's freeze, schemas and satellite capabilities have no behaviour here.
- JSON text: the carrier is a parameter, assumed lossless where that is needed.
- Shape checks on untyped payload objects: payloads arrive typed.
- Malformed fields of registration payloads (non-string markers) count as absent.
- MQTT, HTTP, WebSocket, command line, user interface and demo adapters.
