/** The fixed-time signal controller (normal_traffic/fixed_time_controller.py): every light
    runs the eight-phase cycle green/yellow west, north, east, south, switching a green phase
    to its yellow once the direction's green time has elapsed and a yellow phase to the next
    green after the yellow time, and counting its place in the cycle modulo 4. The simulator
    clock is a parameter and the light commands are returned. */
module FixedTimeController {
  import opened Common

  /** The timing schedule, in seconds. */
  datatype Cycle = Cycle(west: real, north: real, east: real, south: real, yellow: real)

  const DefaultCycle: Cycle := Cycle(30.0, 30.0, 30.0, 30.0, 3.0)

  predicate IsGreen(phase: int) {
    phase == 0 || phase == 2 || phase == 4 || phase == 6
  }

  predicate IsYellow(phase: int) {
    phase == 1 || phase == 3 || phase == 5 || phase == 7
  }

  /** _get_green_time_for_phase: the schedule entry of a green phase, 30 for anything else. */
  function GreenTime(cycle: Cycle, phase: int): real {
    if phase == 0 then cycle.west
    else if phase == 2 then cycle.north
    else if phase == 4 then cycle.east
    else if phase == 6 then cycle.south
    else 30.0
  }

  /** _phase_to_direction */
  function PhaseToDirection(phase: int): string {
    if phase == 0 || phase == 1 then "WEST"
    else if phase == 2 || phase == 3 then "NORTH"
    else if phase == 4 || phase == 5 then "EAST"
    else if phase == 6 || phase == 7 then "SOUTH"
    else "UNKNOWN"
  }

  /** _phase_to_direction_index: 0 for an unknown phase. */
  function PhaseToDirectionIndex(phase: int): nat {
    if phase == 0 || phase == 1 then 0
    else if phase == 2 || phase == 3 then 1
    else if phase == 4 || phase == 5 then 2
    else if phase == 6 || phase == 7 then 3
    else 0
  }

  /** _direction_to_name */
  function DirectionToName(direction: int): string {
    var directions := ["WEST", "NORTH", "EAST", "SOUTH"];
    if 0 <= direction < 4 then directions[direction] else "UNKNOWN"
  }

  /** Phases 2d and 2d + 1 belong to direction d; the index and the name agree on every phase of
      the cycle, and any other phase is index 0 but named "UNKNOWN". */
  lemma PhaseDirectionsAgree(phase: int)
    ensures PhaseToDirectionIndex(phase) == if 0 <= phase < 8 then phase / 2 else 0
    ensures PhaseToDirection(phase) == if 0 <= phase < 8 then DirectionToName(phase / 2) else "UNKNOWN"
  {
  }

  /** The four names are distinct and none of them is "UNKNOWN", which every other index gets. */
  lemma DirectionNamesDistinct(d: int, e: int)
    ensures DirectionToName(d) == "UNKNOWN" <==> !(0 <= d < 4)
    ensures 0 <= d < 4 && 0 <= e < 4 && d != e ==> DirectionToName(d) != DirectionToName(e)
  {
    var names := ["WEST", "NORTH", "EAST", "SOUTH"];
    assert forall k :: 0 <= k < 4 ==> names[k][0] != "UNKNOWN"[0] || names[k][1] != "UNKNOWN"[1];
    assert forall k, l :: 0 <= k < l < 4 ==> names[k][0] != names[l][0];
  }

  /** The green time of a green phase is the schedule entry of its direction, in the order
      west, north, east, south; every other phase gets the 30-second default. */
  lemma GreenTimeOfDirection(cycle: Cycle, phase: int)
    ensures IsGreen(phase) ==>
              GreenTime(cycle, phase) == [cycle.west, cycle.north, cycle.east, cycle.south][PhaseToDirectionIndex(phase)]
    ensures !IsGreen(phase) ==> GreenTime(cycle, phase) == 30.0
  {
  }

  /** How long a phase of the cycle lasts: its green time, or the yellow time. */
  function PhaseTime(cycle: Cycle, phase: int): real {
    if IsYellow(phase) then cycle.yellow else GreenTime(cycle, phase)
  }

  /** What the controller keeps per light: the phase, when it started, the place in the cycle. */
  datatype Light = Light(phase: int, start: real, position: int)

  /** The place in the cycle matches the phase: green 2p or yellow 2p + 1 at position p. */
  predicate InStep(light: Light) {
    0 <= light.phase < 8 && 0 <= light.position < 4 && light.phase / 2 == light.position
  }

  /** One light's part of update_lights at time now. A green phase whose green time has
      elapsed moves to its yellow; a yellow phase whose yellow time has elapsed moves to the
      next green (modulo 8) and the cycle position advances modulo 4; the new phase starts now.
      Anything else is left as it is. (Python's % and Dafny's agree for a positive divisor.) */
  function NextLight(cycle: Cycle, light: Light, now: real): Light {
    var elapsed := now - light.start;
    if IsGreen(light.phase) then
      if elapsed >= GreenTime(cycle, light.phase) then Light(light.phase + 1, now, light.position) else light
    else if IsYellow(light.phase) then
      if elapsed >= cycle.yellow then Light((light.phase + 1) % 8, now, (light.position + 1) % 4) else light
    else light
  }

  /** A light in step advances to the next phase of the cycle exactly when its phase time has
      elapsed, and then its position is that phase's direction; otherwise nothing changes. */
  lemma NextLightAdvances(cycle: Cycle, light: Light, now: real)
    requires InStep(light)
    ensures var next := NextLight(cycle, light, now);
            if now - light.start >= PhaseTime(cycle, light.phase)
            then next == Light((light.phase + 1) % 8, now, ((light.phase + 1) % 8) / 2)
            else next == light
  {
  }

  /** A light in step stays in step. */
  lemma NextLightInStep(cycle: Cycle, light: Light, now: real)
    requires InStep(light)
    ensures InStep(NextLight(cycle, light, now))
  {
    NextLightAdvances(cycle, light, now);
  }

  /** A light after update_lights at each of the given times in turn. */
  function Run(cycle: Cycle, light: Light, times: seq<real>): Light
    decreases |times|
  {
    if times == [] then light else Run(cycle, NextLight(cycle, light, times[0]), times[1..])
  }

  /** From the initial light (phase 0, position 0) and whatever the clock reads, the phase stays
      within 0..7, the position within 0..3, and a green phase is 2 * position, a yellow one
      2 * position + 1. */
  lemma {:induction false} RunStaysInStep(cycle: Cycle, light: Light, times: seq<real>)
    requires InStep(light)
    ensures InStep(Run(cycle, light, times))
    ensures var l := Run(cycle, light, times);
            (IsGreen(l.phase) ==> l.phase == 2 * l.position) && (IsYellow(l.phase) ==> l.phase == 2 * l.position + 1)
    decreases |times|
  {
    if times != [] {
      NextLightInStep(cycle, light, times[0]);
      RunStaysInStep(cycle, NextLight(cycle, light, times[0]), times[1..]);
    }
  }

  /** The commands a switching light sends: the new phase, then its duration. */
  function SwitchCommands(cycle: Cycle, tl: string, phase: int): seq<LightCommand> {
    [SetPhase(tl, phase), SetPhaseDuration(tl, PhaseTime(cycle, phase))]
  }

  /** The commands start sends: phase 0 for the west green time, light by light. */
  function StartCommands(cycle: Cycle, ids: seq<string>): seq<LightCommand> {
    if ids == [] then []
    else StartCommands(cycle, ids[..|ids| - 1]) + [SetPhase(ids[|ids| - 1], 0), SetPhaseDuration(ids[|ids| - 1], cycle.west)]
  }

  /** update_lights' transition of every light, light by light. */
  function AdvanceAll(cycle: Cycle, lights: seq<Light>, now: real): (next: seq<Light>)
    ensures |next| == |lights| && forall k :: 0 <= k < |lights| ==> next[k] == NextLight(cycle, lights[k], now)
  {
    seq(|lights|, k requires 0 <= k < |lights| => NextLight(cycle, lights[k], now))
  }

  /** The commands of one update_lights, in light order: each light whose transition changes
      its phase is sent the new phase and that phase's duration. */
  function UpdateCommands(cycle: Cycle, ids: seq<string>, lights: seq<Light>, now: real): seq<LightCommand>
    requires |ids| == |lights|
  {
    if ids == [] then []
    else
      var k := |ids| - 1;
      var next := NextLight(cycle, lights[k], now);
      UpdateCommands(cycle, ids[..k], lights[..k], now)
      + if next.phase != lights[k].phase then SwitchCommands(cycle, ids[k], next.phase) else []
  }

  /** A light whose transition changes its phase. */
  predicate Switches(cycle: Cycle, light: Light, now: real) {
    NextLight(cycle, light, now).phase != light.phase
  }

  /** Every command of an update addresses a light that switches, and a phase command carries
      that light's new phase. */
  lemma {:induction false} CommandsOnlyForSwitches(cycle: Cycle, ids: seq<string>, lights: seq<Light>, now: real)
    requires |ids| == |lights|
    ensures forall c :: c in UpdateCommands(cycle, ids, lights, now) ==>
              exists j :: 0 <= j < |ids| && c.tl == ids[j] && Switches(cycle, lights[j], now)
                          && (c.SetPhase? ==> c.phase == NextLight(cycle, lights[j], now).phase)
  {
    if ids != [] {
      var k := |ids| - 1;
      var front, last := ids[..k], lights[..k];
      CommandsOnlyForSwitches(cycle, front, last, now);
      var head := UpdateCommands(cycle, front, last, now);
      var next := NextLight(cycle, lights[k], now);
      var tail := if next.phase != lights[k].phase then SwitchCommands(cycle, ids[k], next.phase) else [];
      assert UpdateCommands(cycle, ids, lights, now) == head + tail;
      forall c: LightCommand | c in head
        ensures exists j :: 0 <= j < |ids| && c.tl == ids[j] && Switches(cycle, lights[j], now)
                            && (c.SetPhase? ==> c.phase == NextLight(cycle, lights[j], now).phase)
      {
        var j :| 0 <= j < |front| && c.tl == front[j] && Switches(cycle, last[j], now)
                 && (c.SetPhase? ==> c.phase == NextLight(cycle, last[j], now).phase);
        assert front[j] == ids[j] && last[j] == lights[j];
      }
      forall c: LightCommand | c in tail
        ensures c.tl == ids[k] && Switches(cycle, lights[k], now) && (c.SetPhase? ==> c.phase == next.phase)
      {
      }
    }
  }

  /** Every light that switches is sent its new phase. */
  lemma {:induction false} SwitchesAreCommanded(cycle: Cycle, ids: seq<string>, lights: seq<Light>, now: real)
    requires |ids| == |lights|
    ensures forall k :: 0 <= k < |ids| && Switches(cycle, lights[k], now) ==>
              SetPhase(ids[k], NextLight(cycle, lights[k], now).phase) in UpdateCommands(cycle, ids, lights, now)
  {
    if ids != [] {
      var k := |ids| - 1;
      var front, last := ids[..k], lights[..k];
      SwitchesAreCommanded(cycle, front, last, now);
      var head := UpdateCommands(cycle, front, last, now);
      var next := NextLight(cycle, lights[k], now);
      var tail := if next.phase != lights[k].phase then SwitchCommands(cycle, ids[k], next.phase) else [];
      assert UpdateCommands(cycle, ids, lights, now) == head + tail;
      forall j | 0 <= j < k && Switches(cycle, lights[j], now)
        ensures SetPhase(ids[j], NextLight(cycle, lights[j], now).phase) in head
      {
        assert front[j] == ids[j] && last[j] == lights[j];
      }
    }
  }

  /** The controller's per-step record: metrics['step'] and the five history lists. */
  datatype Metrics = Metrics(totalQueue: int, avgWaiting: real, vehicleCount: int, avgSpeed: real, reward: real)

  /** The controller. Its three per-light dictionaries always hold exactly the two lights, so
      they are sequences parallel to tlIds here. */
  class FixedTimeController {
    const tlIds: seq<string>
    const cycle: Cycle
    var currentPhase: seq<int>
    var phaseStartTime: seq<real>
    var cyclePosition: seq<int>
    var step: int
    var queueHistory: seq<int>
    var waitingHistory: seq<real>
    var vehicleHistory: seq<int>
    var speedHistory: seq<real>
    var rewardHistory: seq<real>

    /** One entry per light in each dictionary, and every light in step. */
    ghost predicate Valid()
      reads this`currentPhase, this`phaseStartTime, this`cyclePosition
    {
      && |currentPhase| == |phaseStartTime| == |cyclePosition| == |tlIds|
      && forall k :: 0 <= k < |tlIds| ==> InStep(Lights()[k])
    }

    /** Each light's entries of the three dictionaries, in light order. */
    function Lights(): (lights: seq<Light>)
      reads this`currentPhase, this`phaseStartTime, this`cyclePosition
      requires |currentPhase| == |phaseStartTime| == |cyclePosition| == |tlIds|
      ensures |lights| == |tlIds|
    {
      var phases, starts, positions := currentPhase, phaseStartTime, cyclePosition;
      seq(|tlIds|, k requires 0 <= k < |tlIds| => Light(phases[k], starts[k], positions[k]))
    }

    /** The two lights J1_center and J2_center on the default schedule, each at phase 0 and
        position 0 since time 0; the step counter at 0 and every history empty. */
    constructor ()
      ensures Valid()
      ensures tlIds == ["J1_center", "J2_center"] && cycle == DefaultCycle
      ensures Lights() == [Light(0, 0.0, 0), Light(0, 0.0, 0)]
      ensures step == 0
      ensures queueHistory == [] && waitingHistory == [] && vehicleHistory == [] && speedHistory == []
      ensures rewardHistory == []
    {
      tlIds := ["J1_center", "J2_center"];
      cycle := DefaultCycle;
      currentPhase := [0, 0];
      phaseStartTime := [0.0, 0.0];
      cyclePosition := [0, 0];
      step := 0;
      queueHistory, waitingHistory, vehicleHistory, speedHistory, rewardHistory := [], [], [], [], [];
    }

    /** start: every light is set to phase 0 for the west green time and its phase starts now.
        The controller's phase and position entries are left as they are. */
    method Start(now: real) returns (commands: seq<LightCommand>)
      requires Valid()
      modifies this`phaseStartTime
      ensures Valid()
      ensures phaseStartTime == seq(|tlIds|, _ => now)
      ensures commands == StartCommands(cycle, tlIds)
    {
      var starts := phaseStartTime;
      commands := [];
      var i := 0;
      while i < |tlIds|
        invariant 0 <= i <= |tlIds| && |starts| == |tlIds|
        invariant forall k :: 0 <= k < i ==> starts[k] == now
        invariant commands == StartCommands(cycle, tlIds[..i])
      {
        var tl := tlIds[i];
        assert tlIds[..i + 1][..i] == tlIds[..i];
        commands := commands + [SetPhase(tl, 0), SetPhaseDuration(tl, cycle.west)];
        starts := starts[i := now];
        i := i + 1;
      }
      assert tlIds[..i] == tlIds;
      ghost var before := Lights();
      phaseStartTime := starts;
      forall k | 0 <= k < |tlIds|
        ensures InStep(Lights()[k])
      {
        assert Lights()[k] == before[k].(start := now);
      }
    }

    /** reset: start again and set the step counter to 0; the histories are kept, and so are
        the phase and position entries. */
    method Reset(now: real) returns (commands: seq<LightCommand>)
      requires Valid()
      modifies this`phaseStartTime, this`step
      ensures Valid()
      ensures phaseStartTime == seq(|tlIds|, _ => now)
      ensures step == 0 && currentPhase == old(currentPhase) && cyclePosition == old(cyclePosition)
      ensures commands == StartCommands(cycle, tlIds)
    {
      commands := Start(now);
      step := 0;
    }

    /** update_lights at time now: every light takes its own transition and nothing else
        changes; a light that switches is sent its new phase and that phase's duration. */
    method UpdateLights(now: real) returns (commands: seq<LightCommand>)
      requires Valid()
      modifies this`currentPhase, this`phaseStartTime, this`cyclePosition
      ensures Valid()
      ensures Lights() == AdvanceAll(cycle, old(Lights()), now)
      ensures commands == UpdateCommands(cycle, tlIds, old(Lights()), now)
    {
      var before := Lights();
      var phases, starts, positions := currentPhase, phaseStartTime, cyclePosition;
      commands := [];
      var i := 0;
      while i < |tlIds|
        invariant 0 <= i <= |tlIds|
        invariant |phases| == |starts| == |positions| == |tlIds|
        invariant forall k :: 0 <= k < i ==> Light(phases[k], starts[k], positions[k]) == NextLight(cycle, before[k], now)
        invariant forall k :: i <= k < |tlIds| ==> Light(phases[k], starts[k], positions[k]) == before[k]
        invariant commands == UpdateCommands(cycle, tlIds[..i], before[..i], now)
      {
        var light := Light(phases[i], starts[i], positions[i]);
        var next := NextLight(cycle, light, now);
        assert tlIds[..i + 1][..i] == tlIds[..i] && before[..i + 1][..i] == before[..i];
        if next.phase != light.phase {
          commands := commands + SwitchCommands(cycle, tlIds[i], next.phase);
        }
        phases, starts, positions := phases[i := next.phase], starts[i := next.start], positions[i := next.position];
        i := i + 1;
      }
      assert tlIds[..i] == tlIds && before[..i] == before;
      currentPhase, phaseStartTime, cyclePosition := phases, starts, positions;
      forall k | 0 <= k < |tlIds|
        ensures InStep(Lights()[k])
      {
        NextLightInStep(cycle, before[k], now);
      }
    }

    /** step: update the lights, count the step and record one entry in each history. The
        simulator step and the readings are outside the model; their metrics are the input. */
    method Step(now: real, metrics: Metrics) returns (commands: seq<LightCommand>)
      requires Valid()
      modifies this
      ensures Valid()
      ensures Lights() == AdvanceAll(cycle, old(Lights()), now)
      ensures commands == UpdateCommands(cycle, tlIds, old(Lights()), now)
      ensures step == old(step) + 1
      ensures queueHistory == old(queueHistory) + [metrics.totalQueue]
      ensures waitingHistory == old(waitingHistory) + [metrics.avgWaiting]
      ensures vehicleHistory == old(vehicleHistory) + [metrics.vehicleCount]
      ensures speedHistory == old(speedHistory) + [metrics.avgSpeed]
      ensures rewardHistory == old(rewardHistory) + [metrics.reward]
    {
      commands := UpdateLights(now);
      step := step + 1;
      queueHistory := queueHistory + [metrics.totalQueue];
      waitingHistory := waitingHistory + [metrics.avgWaiting];
      vehicleHistory := vehicleHistory + [metrics.vehicleCount];
      speedHistory := speedHistory + [metrics.avgSpeed];
      rewardHistory := rewardHistory + [metrics.reward];
    }
  }
}
