/** The SUMO environment wrapper of the learning setup (utils/sumo_env_new.py): each light's
    13-feature observation built from the simulator's readings, the team reward, and the
    episode counter with its 1800-step horizon. The simulator is outside the model: what it
    reports (lanes and their vehicles, phases, durations, departures) is passed in, and the
    light commands the actions send are returned. */
module SumoEnv {
  import opened Common
  import TrafficActions
  import FixedTimeController

  /** One vehicle as the simulator reports it. */
  datatype Vehicle = Vehicle(speed: real, waitingTime: real)

  /** A controlled lane and the vehicles on it in the last step. */
  datatype Lane = Lane(id: string, vehicles: seq<Vehicle>)

  /** What get_state reads for one light: its controlled lanes, its phase and the phase's
      duration. */
  datatype Reading = Reading(lanes: seq<Lane>, phase: int, phaseDuration: real)

  /** str.lower on the ASCII letters. */
  function LowerChar(c: char): char {
    if 'A' <= c <= 'Z' then (c as int + 32) as char else c
  }

  function Lower(s: string): (r: string)
    ensures |r| == |s| && forall i :: 0 <= i < |s| ==> r[i] == LowerChar(s[i])
  {
    seq(|s|, i requires 0 <= i < |s| => LowerChar(s[i]))
  }

  /** sub occurs in s at position i. */
  predicate OccursAt(s: string, sub: string, i: nat) {
    i + |sub| <= |s| && s[i..i + |sub|] == sub
  }

  /** Python's `sub in s` on strings. */
  predicate Contains(s: string, sub: string) {
    exists i: nat :: i <= |s| && OccursAt(s, sub, i)
  }

  const DirectionNames: seq<string> := ["west", "north", "east", "south"]

  /** The direction of a lane: the first of west, north, east, south whose name occurs in the
      lower-cased lane id, as 0..3; None for a lane the loop skips. */
  function LaneDirection(laneId: string): Option<nat> {
    var name := Lower(laneId);
    if Contains(name, "west") then Some(0)
    else if Contains(name, "north") then Some(1)
    else if Contains(name, "east") then Some(2)
    else if Contains(name, "south") then Some(3)
    else None
  }

  /** A lane belongs to direction d exactly when d's name occurs in its lower-cased id and no
      earlier name does; it is skipped exactly when none occurs. */
  lemma LaneDirectionIsFirstMatch(laneId: string)
    ensures forall d :: 0 <= d < 4 ==>
              (LaneDirection(laneId) == Some(d) <==>
                 Contains(Lower(laneId), DirectionNames[d]) && forall e :: 0 <= e < d ==> !Contains(Lower(laneId), DirectionNames[e]))
    ensures LaneDirection(laneId).None? <==> forall e :: 0 <= e < 4 ==> !Contains(Lower(laneId), DirectionNames[e])
  {
  }

  /** A string missing the first letter of sub does not contain sub. */
  lemma MissingLetterNotContained(s: string, sub: string)
    requires |sub| > 0 && sub[0] !in s
    ensures !Contains(s, sub)
  {
  }

  /** The match ignores case, and a lane whose id names two directions goes to the earlier one
      in the order west, north, east, south, wherever the names stand in the id. */
  lemma LaneDirectionExamples()
    ensures LaneDirection("J1_WEST_in") == Some(0)
    ensures LaneDirection("east_north") == Some(1)
  {
    assert OccursAt(Lower("J1_WEST_in"), "west", 3);
    var s := Lower("east_north");
    assert s == "east_north";
    assert OccursAt(s, "north", 5);
    MissingLetterNotContained(s, "west");
  }

  /** The direction whose green the phase shows: 2d and 2d + 1 give d, anything else North. */
  function PhaseDirection(phase: int): (d: nat)
    ensures d < 4
  {
    if phase == 0 || phase == 1 then 0
    else if phase == 2 || phase == 3 then 1
    else if phase == 4 || phase == 5 then 2
    else if phase == 6 || phase == 7 then 3
    else 1
  }

  /** The environment and the fixed-time controller read the cycle's phases the same way, but
      an unknown phase counts as North here and as West in the controller. */
  lemma PhaseDirectionAgainstController(phase: int)
    ensures 0 <= phase < 8 ==> PhaseDirection(phase) == FixedTimeController.PhaseToDirectionIndex(phase) == phase / 2
    ensures !(0 <= phase < 8) ==> PhaseDirection(phase) == 1 && FixedTimeController.PhaseToDirectionIndex(phase) == 0
  {
    FixedTimeController.PhaseDirectionsAgree(phase);
  }

  /** The number of stopped vehicles (speed below 0.1). */
  function Stopped(vehicles: seq<Vehicle>): nat {
    if vehicles == [] then 0
    else Stopped(vehicles[..|vehicles| - 1]) + if vehicles[|vehicles| - 1].speed < 0.1 then 1 else 0
  }

  /** The waiting time of the stopped vehicles. */
  function StoppedWaiting(vehicles: seq<Vehicle>): real {
    if vehicles == [] then 0.0
    else
      StoppedWaiting(vehicles[..|vehicles| - 1])
      + if vehicles[|vehicles| - 1].speed < 0.1 then vehicles[|vehicles| - 1].waitingTime else 0.0
  }

  /** No more vehicles are stopped than are present. */
  lemma {:induction false} StoppedAtMostPresent(vehicles: seq<Vehicle>)
    ensures Stopped(vehicles) <= |vehicles|
  {
    if vehicles != [] {
      StoppedAtMostPresent(vehicles[..|vehicles| - 1]);
    }
  }

  /** The per-direction queue, waiting and vehicle totals of get_state, west, north, east,
      south. */
  datatype Totals = Totals(queues: seq<real>, waits: seq<real>, counts: seq<real>)

  predicate FourEach(t: Totals) {
    |t.queues| == 4 && |t.waits| == 4 && |t.counts| == 4
  }

  /** The totals after taking a lane: a classified lane adds its stopped vehicles, their waiting
      time and its vehicle count to its direction; any other lane changes nothing. */
  function AddLane(t: Totals, lane: Lane): (r: Totals)
    requires FourEach(t)
    ensures FourEach(r)
  {
    match LaneDirection(lane.id)
    case None => t
    case Some(d) =>
      Totals(t.queues[d := t.queues[d] + Stopped(lane.vehicles) as real],
             t.waits[d := t.waits[d] + StoppedWaiting(lane.vehicles)],
             t.counts[d := t.counts[d] + |lane.vehicles| as real])
  }

  /** The totals over the controlled lanes, in order, from zero. */
  function Tally(lanes: seq<Lane>): (t: Totals)
    ensures FourEach(t)
  {
    if lanes == [] then Totals(Zeros(4), Zeros(4), Zeros(4))
    else AddLane(Tally(lanes[..|lanes| - 1]), lanes[|lanes| - 1])
  }

  /** In every direction the queue is at most the vehicle count, and neither is negative. */
  lemma {:induction false} QueueAtMostCount(lanes: seq<Lane>)
    ensures forall d :: 0 <= d < 4 ==> 0.0 <= Tally(lanes).queues[d] <= Tally(lanes).counts[d]
  {
    if lanes != [] {
      var lane := lanes[|lanes| - 1];
      QueueAtMostCount(lanes[..|lanes| - 1]);
      StoppedAtMostPresent(lane.vehicles);
    }
  }

  /** 1.0 for the direction shown, 0.0 for the others. */
  function OneHot(d: nat, k: nat): real {
    if d == k then 1.0 else 0.0
  }

  function Min(a: real, b: real): real {
    if a <= b then a else b
  }

  /** One light's observation: the four queues over 10, the four waiting times over 60 capped
      at 1, the one-hot green direction, and the phase duration over 60 capped at 1. */
  function StateVector(t: Totals, phase: int, phaseDuration: real): seq<real>
    requires FourEach(t)
  {
    var d := PhaseDirection(phase);
    [t.queues[0] / 10.0, t.queues[1] / 10.0, t.queues[2] / 10.0, t.queues[3] / 10.0,
     Min(t.waits[0] / 60.0, 1.0), Min(t.waits[1] / 60.0, 1.0), Min(t.waits[2] / 60.0, 1.0), Min(t.waits[3] / 60.0, 1.0),
     OneHot(d, 0), OneHot(d, 1), OneHot(d, 2), OneHot(d, 3),
     Min(phaseDuration / 60.0, 1.0)]
  }

  /** The observation has 13 entries; entries 8..11 hold 1.0 at the shown direction and 0.0
      elsewhere; the waiting and duration features are at most 1.0; each queue feature is at
      least 0 and at most a tenth of the direction's vehicle count, given totals whose queues
      lie between 0 and the counts, as every tally of lanes does (QueueAtMostCount). */
  lemma StateVectorLayout(t: Totals, phase: int, phaseDuration: real)
    requires FourEach(t) && forall d :: 0 <= d < 4 ==> 0.0 <= t.queues[d] <= t.counts[d]
    ensures var v := StateVector(t, phase, phaseDuration);
            && |v| == 13
            && v[8 + PhaseDirection(phase)] == 1.0
            && (forall k :: 8 <= k < 12 && k != 8 + PhaseDirection(phase) ==> v[k] == 0.0)
            && (forall k :: 4 <= k < 8 ==> v[k] <= 1.0)
            && v[12] <= 1.0
            && (forall k :: 0 <= k < 4 ==> 0.0 <= v[k] <= t.counts[k] / 10.0)
  {
  }

  /** The inner loop of get_state over one lane's vehicles. */
  method CountStopped(vehicles: seq<Vehicle>) returns (queue: nat, waiting: real)
    ensures queue == Stopped(vehicles) && waiting == StoppedWaiting(vehicles)
  {
    queue, waiting := 0, 0.0;
    var i := 0;
    while i < |vehicles|
      invariant 0 <= i <= |vehicles|
      invariant queue == Stopped(vehicles[..i]) && waiting == StoppedWaiting(vehicles[..i])
    {
      assert vehicles[..i + 1][..i] == vehicles[..i];
      if vehicles[i].speed < 0.1 {
        queue := queue + 1;
        waiting := waiting + vehicles[i].waitingTime;
      }
      i := i + 1;
    }
    assert vehicles[..i] == vehicles;
  }

  /** The lane loop of get_state: the per-direction totals over the controlled lanes. */
  method TallyLanes(lanes: seq<Lane>) returns (totals: Totals)
    ensures totals == Tally(lanes)
  {
    var queues, waits, counts := Zeros(4), Zeros(4), Zeros(4);
    var i := 0;
    while i < |lanes|
      invariant 0 <= i <= |lanes|
      invariant Totals(queues, waits, counts) == Tally(lanes[..i])
    {
      assert lanes[..i + 1][..i] == lanes[..i];
      var lane := lanes[i];
      var direction := LaneDirection(lane.id);
      if direction.Some? {
        var d := direction.value;
        counts := counts[d := counts[d] + |lane.vehicles| as real];
        var queue, waiting := CountStopped(lane.vehicles);
        queues := queues[d := queues[d] + queue as real];
        waits := waits[d := waits[d] + waiting];
      }
      i := i + 1;
    }
    assert lanes[..i] == lanes;
    totals := Totals(queues, waits, counts);
  }

  /** One light's part of get_state. */
  method ObserveLight(reading: Reading) returns (vector: seq<real>)
    ensures vector == StateVector(Tally(reading.lanes), reading.phase, reading.phaseDuration)
  {
    var totals := TallyLanes(reading.lanes);
    vector := StateVector(totals, reading.phase, reading.phaseDuration);
  }

  /** The total waiting time of the vehicles. */
  function TotalWaiting(vehicles: seq<Vehicle>): real {
    if vehicles == [] then 0.0 else TotalWaiting(vehicles[..|vehicles| - 1]) + vehicles[|vehicles| - 1].waitingTime
  }

  /** The stopped vehicles on the controlled lanes of the given lights, every lane counted
      whatever its name. */
  function StoppedOnLanes(lanes: seq<Lane>): nat {
    if lanes == [] then 0 else StoppedOnLanes(lanes[..|lanes| - 1]) + Stopped(lanes[|lanes| - 1].vehicles)
  }

  /** get_reward: 0.0 without vehicles; otherwise minus a tenth of the average waiting time,
      minus 0.05 per stopped vehicle on the controlled lanes, plus 0.01 per departed vehicle. */
  function Reward(vehicles: seq<Vehicle>, totalQueue: nat, departed: int): real {
    if vehicles == [] then 0.0
    else -(TotalWaiting(vehicles) / |vehicles| as real) * 0.1 - totalQueue as real * 0.05 + departed as real * 0.01
  }

  lemma {:induction false} TotalWaitingNonNegative(vehicles: seq<Vehicle>)
    requires forall k :: 0 <= k < |vehicles| ==> vehicles[k].waitingTime >= 0.0
    ensures TotalWaiting(vehicles) >= 0.0
  {
    if vehicles != [] {
      TotalWaitingNonNegative(vehicles[..|vehicles| - 1]);
    }
  }

  /** The reward is 0.0 without vehicles; with vehicles whose waiting times are not negative it
      never exceeds the throughput bonus, and it equals that bonus only when no one waits and
      no one is queued. */
  lemma RewardBound(vehicles: seq<Vehicle>, totalQueue: nat, departed: int)
    requires forall k :: 0 <= k < |vehicles| ==> vehicles[k].waitingTime >= 0.0
    ensures vehicles == [] ==> Reward(vehicles, totalQueue, departed) == 0.0
    ensures vehicles != [] ==> Reward(vehicles, totalQueue, departed) <= departed as real * 0.01
    ensures vehicles != [] && Reward(vehicles, totalQueue, departed) == departed as real * 0.01 ==>
              totalQueue == 0 && TotalWaiting(vehicles) == 0.0
  {
    TotalWaitingNonNegative(vehicles);
  }

  /** The info dictionary of step. */
  datatype Info = Info(step: int, vehicleCount: nat, avgSpeed: real)

  function TotalSpeed(vehicles: seq<Vehicle>): real {
    if vehicles == [] then 0.0 else TotalSpeed(vehicles[..|vehicles| - 1]) + vehicles[|vehicles| - 1].speed
  }

  class SumoEnv {
    const tlIds: seq<string>
    var episodeStep: int
    var previousPhase: map<string, int>

    /** Only the two lights J1_center and J2_center; the counter at 0 and every previous phase 0. */
    constructor ()
      ensures tlIds == ["J1_center", "J2_center"]
      ensures episodeStep == 0 && previousPhase == map["J1_center" := 0, "J2_center" := 0]
    {
      tlIds := ["J1_center", "J2_center"];
      episodeStep := 0;
      previousPhase := map["J1_center" := 0, "J2_center" := 0];
    }

    /** get_state: one observation per light from its reading. */
    method GetState(readings: map<string, Reading>) returns (state: map<string, seq<real>>)
      requires forall k :: 0 <= k < |tlIds| ==> tlIds[k] in readings
      ensures forall tl :: tl in state <==> tl in tlIds
      ensures forall k :: 0 <= k < |tlIds| ==>
                state[tlIds[k]] == StateVector(Tally(readings[tlIds[k]].lanes), readings[tlIds[k]].phase, readings[tlIds[k]].phaseDuration)
    {
      state := map[];
      var i := 0;
      while i < |tlIds|
        invariant 0 <= i <= |tlIds|
        invariant forall tl :: tl in state <==> tl in tlIds[..i]
        invariant forall tl :: tl in state ==>
                    tl in readings && state[tl] == StateVector(Tally(readings[tl].lanes), readings[tl].phase, readings[tl].phaseDuration)
      {
        var tl := tlIds[i];
        var vector := ObserveLight(readings[tl]);
        state := state[tl := vector];
        assert tlIds[..i + 1] == tlIds[..i] + [tl];
        i := i + 1;
      }
      assert tlIds[..i] == tlIds;
    }

    /** reset: the simulation reloads (outside the model), the counter and the previous phases
        go back to 0, and the first observation is returned. */
    method Reset(readings: map<string, Reading>) returns (state: map<string, seq<real>>)
      requires forall k :: 0 <= k < |tlIds| ==> tlIds[k] in readings
      modifies this
      ensures episodeStep == 0 && previousPhase == map tl | tl in tlIds :: 0
      ensures forall tl :: tl in state <==> tl in tlIds
      ensures forall k :: 0 <= k < |tlIds| ==>
                state[tlIds[k]] == StateVector(Tally(readings[tlIds[k]].lanes), readings[tlIds[k]].phase, readings[tlIds[k]].phaseDuration)
    {
      episodeStep := 0;
      previousPhase := map tl | tl in tlIds :: 0;
      state := GetState(readings);
    }

    /** step: every light with an action runs execute_action on the phase the simulator reports
        for it, the simulation advances (outside the model), the counter goes up by one, and the
        new observations, the reward, done and the info come from the new readings. The episode
        is done from the 1800th step on. The commands issued are those of the corrected
        execute_action (TrafficActions.ExecuteAction); the one in utils/traffic_actions.py fails
        on every command it would issue, so as written the call fails exactly for the lights
        whose issued list is non-empty. */
    method Step(actions: map<string, int>, phases: map<string, int>, readings: map<string, Reading>,
                vehicles: seq<Vehicle>, departed: int)
      returns (nextState: map<string, seq<real>>, reward: real, done: bool, info: Info,
               issued: map<string, seq<LightCommand>>)
      requires forall tl :: tl in actions ==> tl in phases
      requires forall k :: 0 <= k < |tlIds| ==> tlIds[k] in readings
      modifies this`episodeStep
      ensures episodeStep == old(episodeStep) + 1
      ensures done <==> episodeStep >= 1800
      ensures issued.Keys == actions.Keys
      ensures forall tl :: tl in actions ==> issued[tl] == TrafficActions.ExecuteAction(tl, actions[tl], phases[tl]).commands
      ensures forall tl :: tl in actions ==>
                (TrafficActions.ExecuteActionAsWritten(tl, actions[tl], phases[tl]).None? <==> issued[tl] != [])
      ensures forall tl :: tl in nextState <==> tl in tlIds
      ensures forall k :: 0 <= k < |tlIds| ==>
                nextState[tlIds[k]] == StateVector(Tally(readings[tlIds[k]].lanes), readings[tlIds[k]].phase, readings[tlIds[k]].phaseDuration)
      ensures reward == Reward(vehicles, QueuedOnLights(readings), departed)
      ensures info == Info(episodeStep, |vehicles|, if vehicles == [] then 0.0 else TotalSpeed(vehicles) / |vehicles| as real)
    {
      issued := map tl | tl in actions :: TrafficActions.ExecuteAction(tl, actions[tl], phases[tl]).commands;
      episodeStep := episodeStep + 1;
      nextState := GetState(readings);
      reward := Reward(vehicles, QueuedOnLights(readings), departed);
      done := episodeStep >= 1800;
      info := Info(episodeStep, |vehicles|, if vehicles == [] then 0.0 else TotalSpeed(vehicles) / |vehicles| as real);
    }

    /** The stopped vehicles on every controlled lane of every light. */
    function QueuedOnLights(readings: map<string, Reading>): nat
      requires forall k :: 0 <= k < |tlIds| ==> tlIds[k] in readings
    {
      QueuedFrom(tlIds, readings)
    }
  }

  function QueuedFrom(ids: seq<string>, readings: map<string, Reading>): nat
    requires forall k :: 0 <= k < |ids| ==> ids[k] in readings
  {
    if ids == [] then 0 else QueuedFrom(ids[..|ids| - 1], readings) + StoppedOnLanes(readings[ids[|ids| - 1]].lanes)
  }
}
