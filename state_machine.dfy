/**
 * The state machine that wraps a feature state. Its guard differs from the
 * feature's own: it refuses to advance whenever the history is empty, and it
 * does not rule out terminal phases, which then fail with an error because they
 * have no successor.
 */
module StateMachines {
  import opened Wrappers
  import opened Clock
  import opened Phases
  import opened FeatureStates
  import opened Collections

  datatype MachineError =
    | CannotAdvanceFromFinal(phase: WorkflowPhase)
    | CannotApproveNonGate(phase: WorkflowPhase)

  /** `StateMachine.can_advance` on a state value. */
  predicate MachineCanAdvance(f: Feature) {
    match f.CurrentPhaseState()
    case None => false
    case Some(ps) => if f.currentPhase.IsGate() then ps.humanApproved else f.AllAgentsComplete()
  }

  /** `advance`: the outcome and the new state, or the error it raises. */
  function MachineAdvance(f: Feature, now: Time): Result<(bool, Feature), MachineError> {
    if !MachineCanAdvance(f) then Ok((false, f))
    else if f.currentPhase.NextPhase().None? then Err(CannotAdvanceFromFinal(f.currentPhase))
    else Ok(f.Advance(now))
  }

  /** `handle_agent_complete`: the agent must be assigned to the current phase. */
  function MachineAgentComplete(f: Feature, handle: string, now: Time): (bool, Feature) {
    if handle !in f.currentPhase.ActiveAgents() then (false, f)
    else (true, f.MarkAgentComplete(handle, None, None, now))
  }

  /** `handle_human_approval`: raises outside gates, reports false without history. */
  function MachineApproval(f: Feature, now: Time): Result<(bool, Feature), MachineError> {
    if !f.currentPhase.IsGate() then Err(CannotApproveNonGate(f.currentPhase))
    else if f.phaseHistory == [] then Ok((false, f))
    else Ok((true, f.ApproveGate(now)))
  }

  datatype AgentStatus = AgentStatus(handle: string, complete: bool)

  /** The summary dictionary: a short form when there is no history. */
  datatype StatusSummary =
    | NoHistory(phase: string)
    | Summary(phase: string, isGate: bool, canAdvance: bool, agents: seq<AgentStatus>, approved: Option<bool>)
  {
    function AdvanceFlag(): bool {
      if NoHistory? then false else canAdvance
    }

    function AgentList(): seq<AgentStatus> {
      if NoHistory? then [] else agents
    }
  }

  /** Whether the table records `handle` as completed; absent entries count as not. */
  predicate RecordedComplete(agents: seq<AgentCompletion>, handle: string) {
    match FindAgent(agents, handle)
    case Some(i) => agents[i].completed
    case None => false
  }

  /** The agents' status list for a work phase: one entry per assigned handle. */
  function AgentStatuses(handles: seq<string>, agents: seq<AgentCompletion>): (r: seq<AgentStatus>)
    ensures |r| == |handles|
    ensures forall i :: 0 <= i < |handles| ==> r[i] == AgentStatus(handles[i], RecordedComplete(agents, handles[i]))
  {
    seq(|handles|, i requires 0 <= i < |handles| => AgentStatus(handles[i], RecordedComplete(agents, handles[i])))
  }

  function Summarize(f: Feature): StatusSummary {
    match f.CurrentPhaseState()
    case None => NoHistory(f.currentPhase.Name())
    case Some(ps) =>
      var gate := f.currentPhase.IsGate();
      Summary(f.currentPhase.Name(), gate, MachineCanAdvance(f),
              if gate then [] else AgentStatuses(f.currentPhase.ActiveAgents(), ps.activeAgents),
              if gate then Some(ps.humanApproved) else None)
  }

  // ---------------------------------------------------------------- the two guards

  /** The machine's guard and the feature's guard disagree in exactly two
      situations: an empty history at a work phase (the feature says yes, the
      machine no), and a terminal phase with history and nothing pending (the
      feature says no, the machine yes). */
  lemma GuardsDiverge(f: Feature)
    ensures MachineCanAdvance(f) != f.CanAdvance() <==>
      (f.phaseHistory == [] && !f.currentPhase.IsGate() && !f.currentPhase.IsTerminal()) ||
      (f.phaseHistory != [] && f.currentPhase.IsTerminal() && f.AllAgentsComplete())
  {
    IsGateExactly(f.currentPhase);
  }

  /** A concrete case: a fresh feature at the agent-less setup phase. */
  lemma GuardsDivergeOnFreshSetup(f: Feature)
    requires f.currentPhase == Phase1Setup && f.phaseHistory == []
    ensures f.CanAdvance() && !MachineCanAdvance(f)
  {
    IsGateExactly(Phase1Setup);
  }

  /** At a gate with history, the guard is the approval flag, and approving sets it. */
  lemma GateNeedsApproval(f: Feature, now: Time)
    requires f.currentPhase.IsGate() && f.phaseHistory != []
    ensures MachineCanAdvance(f) == f.phaseHistory[|f.phaseHistory| - 1].humanApproved
    ensures MachineApproval(f, now).Ok? && MachineApproval(f, now).value.0
    ensures MachineCanAdvance(MachineApproval(f, now).value.1)
  {
  }

  // ---------------------------------------------------------------- advance

  /** `advance` raises exactly when its guard holds at a phase without successor,
      which is a terminal phase with history and no pending agent; otherwise it
      agrees with the feature's own `advance`, and succeeds whenever it may. */
  lemma MachineAdvanceOutcome(f: Feature, now: Time)
    ensures MachineAdvance(f, now).Err? <==>
      f.phaseHistory != [] && f.currentPhase.IsTerminal() && f.AllAgentsComplete()
    ensures MachineCanAdvance(f) && MachineAdvance(f, now).Ok? ==>
      MachineAdvance(f, now) == Ok((true, f.StartPhase(f.currentPhase.NextPhase().value, now)))
    ensures !MachineCanAdvance(f) ==> MachineAdvance(f, now) == Ok((false, f))
  {
    IsGateExactly(f.currentPhase);
    NoSuccessorExactlyWhenTerminal(f.currentPhase);
    if MachineCanAdvance(f) && !f.currentPhase.IsTerminal() {
      GuardsDiverge(f);
      AdvanceEffect(f, now);
    }
  }

  /** DONE with history is the typical failing case. */
  lemma AdvanceFromDoneFails(f: Feature, now: Time)
    requires WellFormed(f) && f.currentPhase == Done && f.phaseHistory != []
    ensures MachineAdvance(f, now) == Err(CannotAdvanceFromFinal(Done))
  {
    MachineAdvanceOutcome(f, now);
    assert Handles(f.phaseHistory[|f.phaseHistory| - 1].activeAgents) == [];
  }

  // ---------------------------------------------------------------- completions

  /** An agent not assigned to the current phase is refused and nothing changes;
      an assigned one is accepted, and with history its entry becomes completed. */
  lemma MachineAgentCompleteOutcome(f: Feature, handle: string, now: Time)
    requires WellFormed(f)
    ensures handle !in f.currentPhase.ActiveAgents() ==> MachineAgentComplete(f, handle, now) == (false, f)
    ensures handle in f.currentPhase.ActiveAgents() ==> MachineAgentComplete(f, handle, now).0
    ensures handle in f.currentPhase.ActiveAgents() && f.phaseHistory == [] ==>
      MachineAgentComplete(f, handle, now).1 == f
    ensures handle in f.currentPhase.ActiveAgents() && f.phaseHistory != [] ==>
      RecordedComplete(MachineAgentComplete(f, handle, now).1.phaseHistory[|f.phaseHistory| - 1].activeAgents, handle)
  {
    if handle in f.currentPhase.ActiveAgents() && f.phaseHistory != [] {
      var r := MachineAgentComplete(f, handle, now).1;
      var n := |f.phaseHistory|;
      var agents := f.phaseHistory[n - 1].activeAgents;
      var i := FindAgent(agents, handle).value;
      var updated := r.phaseHistory[n - 1].activeAgents;
      assert updated == agents[i := updated[i]];
      assert FindAgent(updated, handle).Some?;
      assert Distinct(Handles(updated)) by {
        AgentsDistinct(f.currentPhase);
        assert Handles(updated) == Handles(agents);
      }
      assert FindAgent(updated, handle).value == i;
    }
  }

  /** From the specification phase just started, completing "duc" and advancing
      lands in the first gate. */
  lemma SpecsThenGate(g: Feature, t0: Time, t1: Time, t2: Time)
    ensures var f := g.StartPhase(Phase2Specs, t0);
            var (accepted, f1) := MachineAgentComplete(f, "duc", t1);
            accepted && MachineAdvance(f1, t2).Ok? && MachineAdvance(f1, t2).value.0 &&
            MachineAdvance(f1, t2).value.1.currentPhase == Gate1Specs
  {
    var f := g.StartPhase(Phase2Specs, t0);
    var n := |f.phaseHistory|;
    NewPhaseTable(Phase2Specs);
    var table := f.phaseHistory[n - 1].activeAgents;
    assert Handles(table) == ["duc"];
    assert FindAgent(table, "duc") == Some(0);
    var f1 := MachineAgentComplete(f, "duc", t1).1;
    assert f1.phaseHistory[n - 1].activeAgents[0].completed;
    assert f1.AllAgentsComplete();
    IsGateExactly(Phase2Specs);
    MachineAdvanceOutcome(f1, t2);
  }

  // ---------------------------------------------------------------- approvals

  /** `handle_human_approval` fails outside gates, reports false without history,
      and otherwise records the approval and reports true. */
  lemma MachineApprovalOutcome(f: Feature, now: Time)
    ensures MachineApproval(f, now).Err? <==> !f.currentPhase.IsGate()
    ensures MachineApproval(f, now).Ok? && f.phaseHistory == [] ==> MachineApproval(f, now).value == (false, f)
    ensures MachineApproval(f, now).Ok? && f.phaseHistory != [] ==>
      MachineApproval(f, now).value.0 &&
      MachineApproval(f, now).value.1.phaseHistory[|f.phaseHistory| - 1].humanApproved
  {
  }

  // ---------------------------------------------------------------- summary

  /** What the summary promises: no agents at gates, no approval flag outside gates,
      the machine's own guard as `can_advance`, and without history neither. */
  lemma SummaryShape(f: Feature)
    ensures f.currentPhase.IsGate() ==> Summarize(f).AgentList() == []
    ensures Summarize(f).Summary? && !f.currentPhase.IsGate() ==> Summarize(f).approved.None?
    ensures Summarize(f).Summary? && f.currentPhase.IsGate() ==> Summarize(f).approved.Some?
    ensures Summarize(f).AdvanceFlag() == MachineCanAdvance(f)
    ensures f.phaseHistory == [] ==> !Summarize(f).AdvanceFlag() && Summarize(f).AgentList() == []
    ensures Summarize(f).phase == f.currentPhase.Name()
    ensures Summarize(f).Summary? && !f.currentPhase.IsGate() ==>
      |Summarize(f).agents| == |f.currentPhase.ActiveAgents()|
  {
  }

  class StateMachine {
    const state: FeatureState

    constructor(state: FeatureState)
      ensures this.state == state
    {
      this.state := state;
    }

    method Advance(now: Time) returns (r: Result<bool, MachineError>)
      modifies state
      ensures var m := MachineAdvance(old(state.Value()), now);
              (m.Err? ==> r == Err(m.error) && state.Value() == old(state.Value())) &&
              (m.Ok? ==> r == Ok(m.value.0) && state.Value() == m.value.1)
    {
      if !MachineCanAdvance(state.Value()) {
        return Ok(false);
      }
      var next := state.currentPhase.NextPhase();
      if next.None? {
        return Err(CannotAdvanceFromFinal(state.currentPhase));
      }
      var advanced := state.Advance(now);
      return Ok(advanced);
    }

    method HandleAgentComplete(handle: string, now: Time) returns (accepted: bool)
      modifies state
      ensures (accepted, state.Value()) == MachineAgentComplete(old(state.Value()), handle, now)
    {
      if handle !in state.currentPhase.ActiveAgents() {
        return false;
      }
      state.MarkAgentComplete(handle, None, None, now);
      return true;
    }

    method HandleHumanApproval(now: Time) returns (r: Result<bool, MachineError>)
      modifies state
      ensures var m := MachineApproval(old(state.Value()), now);
              (m.Err? ==> r == Err(m.error) && state.Value() == old(state.Value())) &&
              (m.Ok? ==> r == Ok(m.value.0) && state.Value() == m.value.1)
    {
      if !state.currentPhase.IsGate() {
        return Err(CannotApproveNonGate(state.currentPhase));
      }
      if state.phaseHistory == [] {
        return Ok(false);
      }
      state.ApproveGate(now);
      return Ok(true);
    }

    /** Builds the summary; the agents' list is collected in a loop. */
    method GetStatusSummary() returns (s: StatusSummary)
      ensures s == Summarize(state.Value())
    {
      var f := state.Value();
      if f.phaseHistory == [] {
        return NoHistory(f.currentPhase.Name());
      }
      var ps := f.phaseHistory[|f.phaseHistory| - 1];
      var gate := f.currentPhase.IsGate();
      var statuses: seq<AgentStatus> := [];
      if !gate {
        var handles := f.currentPhase.ActiveAgents();
        for i := 0 to |handles|
          invariant statuses == AgentStatuses(handles[..i], ps.activeAgents)
        {
          var complete := match FindAgent(ps.activeAgents, handles[i])
            case Some(k) => ps.activeAgents[k].completed
            case None => false;
          statuses := statuses + [AgentStatus(handles[i], complete)];
        }
        TakeAll(handles);
      }
      var approved := if gate then Some(ps.humanApproved) else None;
      return Summary(f.currentPhase.Name(), gate, MachineCanAdvance(f), statuses, approved);
    }
  }
}
