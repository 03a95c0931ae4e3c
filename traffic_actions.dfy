/** The action-to-phase mapping of a four-way intersection (utils/traffic_actions.py):
    an action either keeps the current phase, switches to phase 0 or 2, or forces phase 0 for
    an emergency, and the light commands it sends are recorded with the returned phase. */
module TrafficActions {
  import opened Common

  /** What execute_action does: the phase it returns and the commands it sends, in order. */
  datatype Outcome = Outcome(phase: int, commands: seq<LightCommand>)

  /** execute_action with its light commands performed.
      0 extends the current phase by 10 seconds; 1 and 2 switch to phase 0 and 2 unless the
      light is already there, in which case they fall through to the final return; 3 forces
      phase 0 for 20 seconds; any other action returns the current phase and sends nothing. */
  function ExecuteAction(tl: string, action: int, currentPhase: int): Outcome {
    if action == 0 then Outcome(currentPhase, [SetPhaseDuration(tl, 10.0)])
    else if action == 1 && currentPhase != 0 then Outcome(0, [SetPhase(tl, 0)])
    else if action == 2 && currentPhase != 2 then Outcome(2, [SetPhase(tl, 2)])
    else if action == 3 then Outcome(0, [SetPhase(tl, 0), SetPhaseDuration(tl, 20.0)])
    else Outcome(currentPhase, [])
  }

  /** The phase a light shows after the commands: the last phase it was set to, or the phase
      it started in when none was set. */
  function PhaseAfter(commands: seq<LightCommand>, start: int): int {
    if commands == [] then start
    else
      var last := commands[|commands| - 1];
      if last.SetPhase? then last.phase else PhaseAfter(commands[..|commands| - 1], start)
  }

  /** The returned phase is the phase the light was set to, every command addresses the given
      light, and the result is always the current phase, 0 or 2. */
  lemma ReturnedPhaseIsShown(tl: string, action: int, currentPhase: int)
    ensures var o := ExecuteAction(tl, action, currentPhase);
            && o.phase == PhaseAfter(o.commands, currentPhase)
            && (forall c :: c in o.commands ==> c.tl == tl)
            && o.phase in {currentPhase, 0, 2}
  {
    var o := ExecuteAction(tl, action, currentPhase);
    if |o.commands| == 2 {
      assert o.commands[..1] == [SetPhase(tl, 0)];
    }
  }

  /** The action table: 0 keeps the phase, 1 and 3 end on phase 0, 2 on phase 2, and any other
      action (4 included) keeps the phase without a command. */
  lemma ActionTable(tl: string, action: int, currentPhase: int)
    ensures action == 0 ==> ExecuteAction(tl, action, currentPhase).phase == currentPhase
    ensures action == 1 || action == 3 ==> ExecuteAction(tl, action, currentPhase).phase == 0
    ensures action == 2 ==> ExecuteAction(tl, action, currentPhase).phase == 2
    ensures !(0 <= action <= 3) ==> ExecuteAction(tl, action, currentPhase) == Outcome(currentPhase, [])
  {
  }

  /** A switch to the phase the light already shows sends nothing: only actions 1 and 2 on
      their own phase, and the unknown actions, are silent. */
  lemma SilentExactly(tl: string, action: int, currentPhase: int)
    ensures ExecuteAction(tl, action, currentPhase).commands == [] <==>
              (action == 1 && currentPhase == 0) || (action == 2 && currentPhase == 2) || !(0 <= action <= 3)
  {
  }

  /** execute_action as the file stands: it refers to traci without importing it, so every
      call that would send a light command raises NameError (None here); a call that sends
      nothing returns its phase. */
  function ExecuteActionAsWritten(tl: string, action: int, currentPhase: int): Option<int> {
    var o := ExecuteAction(tl, action, currentPhase);
    if o.commands != [] then None else Some(o.phase)
  }

  /** As written, the call fails exactly when a command is due, and otherwise agrees with the
      corrected mapping; extending the phase, action 0, always fails. */
  lemma AsWrittenFailsOnEveryCommand(tl: string, action: int, currentPhase: int)
    ensures ExecuteActionAsWritten(tl, action, currentPhase).None? <==>
              !((action == 1 && currentPhase == 0) || (action == 2 && currentPhase == 2) || !(0 <= action <= 3))
    ensures ExecuteActionAsWritten(tl, action, currentPhase).Some? ==>
              ExecuteActionAsWritten(tl, action, currentPhase).value == ExecuteAction(tl, action, currentPhase).phase
    ensures ExecuteActionAsWritten(tl, 0, currentPhase) == None
  {
    SilentExactly(tl, action, currentPhase);
  }
}
