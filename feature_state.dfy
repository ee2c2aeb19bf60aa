/**
 * The state of one feature going through the workflow: its issue and git data,
 * the current phase and an append-only history with one `PhaseState` per phase
 * started. `Feature` is the state as a value (what the state store keeps);
 * `FeatureState` is the mutable object whose methods update it in place.
 */
module FeatureStates {
  import opened Wrappers
  import opened Clock
  import opened Phases
  import opened Collections

  /** Completion record of one agent in one phase. */
  datatype AgentCompletion = AgentCompletion(
    agentHandle: string,
    completed: bool,
    completedAt: Option<Time>,
    artifactPath: Option<string>,
    commentId: Option<string>)

  function Pending(handle: string): AgentCompletion {
    AgentCompletion(handle, false, None, None, None)
  }

  /** One started phase. `activeAgents` is the handle-keyed table in insertion order. */
  datatype PhaseState = PhaseState(
    phase: WorkflowPhase,
    startedAt: Option<Time>,
    completedAt: Option<Time>,
    activeAgents: seq<AgentCompletion>,
    humanApproved: bool,
    humanApprovedAt: Option<Time>)

  /** The keys of an agent table, in order. */
  function Handles(agents: seq<AgentCompletion>): (hs: seq<string>)
    ensures |hs| == |agents|
    ensures forall i :: 0 <= i < |agents| ==> hs[i] == agents[i].agentHandle
  {
    seq(|agents|, i requires 0 <= i < |agents| => agents[i].agentHandle)
  }

  /** The position of the entry for `handle`, if the table has one. */
  function FindAgent(agents: seq<AgentCompletion>, handle: string): (r: Option<nat>)
    ensures r.Some? ==> r.value < |agents| && agents[r.value].agentHandle == handle
    ensures r.None? <==> handle !in Handles(agents)
  {
    if agents == [] then None
    else if agents[0].agentHandle == handle then Some(0)
    else match FindAgent(agents[1..], handle)
      case Some(i) => Some(i + 1)
      case None =>
        assert Handles(agents) == [agents[0].agentHandle] + Handles(agents[1..]);
        None
  }

  /** `table[c.agentHandle] = c`: replaces the entry in place, or appends a new one. */
  function PutAgent(agents: seq<AgentCompletion>, c: AgentCompletion): (r: seq<AgentCompletion>)
    ensures c.agentHandle in Handles(agents) ==> |r| == |agents|
    ensures c.agentHandle in Handles(agents) ==>
              Handles(r) == Handles(agents) &&
              exists i :: 0 <= i < |agents| && agents[i].agentHandle == c.agentHandle && r == agents[i := c]
    ensures c.agentHandle !in Handles(agents) ==> r == agents + [c]
  {
    match FindAgent(agents, c.agentHandle)
    case Some(i) =>
      assert Handles(agents[i := c]) == Handles(agents);
      agents[i := c]
    case None => agents + [c]
  }

  /** The table built by inserting a pending entry for each handle in turn. */
  function PendingTable(handles: seq<string>): seq<AgentCompletion> {
    if handles == [] then []
    else PutAgent(PendingTable(handles[..|handles| - 1]), Pending(handles[|handles| - 1]))
  }

  /** The loop of `start_phase` that files a pending entry for each active agent. */
  method BuildPendingTable(handles: seq<string>) returns (table: seq<AgentCompletion>)
    ensures table == PendingTable(handles)
  {
    table := [];
    for i := 0 to |handles|
      invariant table == PendingTable(handles[..i])
    {
      TakeOfTake(handles, i);
      table := PutAgent(table, Pending(handles[i]));
    }
    TakeAll(handles);
  }

  /** Replaces the last element of a non-empty history. */
  function WithLast(history: seq<PhaseState>, e: PhaseState): (r: seq<PhaseState>)
    requires history != []
    ensures |r| == |history| && r[..|r| - 1] == history[..|history| - 1] && r[|r| - 1] == e
  {
    history[..|history| - 1] + [e]
  }

  datatype Feature = Feature(
    issueNumber: int,
    title: string,
    description: string,
    branchName: string,
    worktreePath: string,
    prNumber: Option<int>,
    currentPhase: WorkflowPhase,
    phaseHistory: seq<PhaseState>,
    createdAt: Time,
    updatedAt: Time)
  {
    function CurrentPhaseState(): (r: Option<PhaseState>)
      ensures r.None? <==> phaseHistory == []
      ensures r.Some? ==> r.value == phaseHistory[|phaseHistory| - 1]
    {
      if phaseHistory == [] then None else Some(phaseHistory[|phaseHistory| - 1])
    }

    /** No history or no agents counts as complete; otherwise every agent must be. */
    predicate AllAgentsComplete() {
      match CurrentPhaseState()
      case None => true
      case Some(ps) =>
        ps.activeAgents == [] ||
        forall i :: 0 <= i < |ps.activeAgents| ==> ps.activeAgents[i].completed
    }

    predicate CanAdvance() {
      if currentPhase.IsTerminal() then false
      else if currentPhase.IsGate() then
        match CurrentPhaseState()
        case Some(ps) => ps.humanApproved
        case None => false
      else AllAgentsComplete()
    }

    /** Handles of the current phase's agents that have not completed, in table order. */
    function PendingAgents(): seq<string> {
      match CurrentPhaseState()
      case None => []
      case Some(ps) => HandlesWhere(ps.activeAgents, false)
    }

    /** Handles of the current phase's agents that have completed, in table order. */
    function CompletedAgents(): seq<string> {
      match CurrentPhaseState()
      case None => []
      case Some(ps) => HandlesWhere(ps.activeAgents, true)
    }

    /** `start_phase`: closes the previous entry, opens one for `p` with a pending
        entry per assigned agent, and makes `p` current. */
    function StartPhase(p: WorkflowPhase, now: Time): (r: Feature)
      ensures |r.phaseHistory| == |phaseHistory| + 1
      ensures r.currentPhase == p
      ensures r.phaseHistory[..|phaseHistory|] ==
              (if phaseHistory == [] then [] else WithLast(phaseHistory,
                 phaseHistory[|phaseHistory| - 1].(completedAt := Some(now))))
      ensures r.phaseHistory[|phaseHistory|] ==
              PhaseState(p, Some(now), None, PendingTable(p.ActiveAgents()), false, None)
      ensures r == this.(currentPhase := p, phaseHistory := r.phaseHistory, updatedAt := now)
    {
      var closed := if phaseHistory == [] then [] else WithLast(phaseHistory,
        phaseHistory[|phaseHistory| - 1].(completedAt := Some(now)));
      var entry := PhaseState(p, Some(now), None, PendingTable(p.ActiveAgents()), false, None);
      assert (closed + [entry])[..|phaseHistory|] == closed;
      this.(currentPhase := p, phaseHistory := closed + [entry], updatedAt := now)
    }

    /** `mark_agent_complete`: records the completion in the current phase's entry
        for `handle`; nothing happens without history or without such an entry. */
    function MarkAgentComplete(handle: string, artifact: Option<string>, commentId: Option<string>, now: Time): Feature {
      match CurrentPhaseState()
      case None => this
      case Some(ps) =>
        match FindAgent(ps.activeAgents, handle)
        case None => this
        case Some(i) =>
          var c := ps.activeAgents[i].(completed := true, completedAt := Some(now),
                                       artifactPath := artifact, commentId := commentId);
          this.(phaseHistory := WithLast(phaseHistory, ps.(activeAgents := ps.activeAgents[i := c])),
                updatedAt := now)
    }

    /** `approve_gate`: marks the last entry approved, whatever its phase. */
    function ApproveGate(now: Time): Feature {
      match CurrentPhaseState()
      case None => this
      case Some(ps) =>
        this.(phaseHistory := WithLast(phaseHistory, ps.(humanApproved := true, humanApprovedAt := Some(now))),
              updatedAt := now)
    }

    /** `advance`: starts the next phase when the guard allows; reports whether it did. */
    function Advance(now: Time): (bool, Feature) {
      if !CanAdvance() then (false, this)
      else match currentPhase.NextPhase()
        case None => (false, this)
        case Some(q) => (true, StartPhase(q, now))
    }
  }

  /** Handles of the entries whose `completed` flag equals `done`, in order. */
  function HandlesWhere(agents: seq<AgentCompletion>, done: bool): (hs: seq<string>)
    ensures forall h :: h in hs ==> exists i :: 0 <= i < |agents| && agents[i].agentHandle == h && agents[i].completed == done
  {
    if agents == [] then []
    else (if agents[0].completed == done then [agents[0].agentHandle] else []) + HandlesWhere(agents[1..], done)
  }

  /** The phases of a history, in order. */
  function PhasesOf(history: seq<PhaseState>): (ps: seq<WorkflowPhase>)
    ensures |ps| == |history|
    ensures forall i :: 0 <= i < |history| ==> ps[i] == history[i].phase
  {
    seq(|history|, i requires 0 <= i < |history| => history[i].phase)
  }

  /**
   * What every state built by these operations satisfies: the last history entry
   * is the current phase, and each entry's agent table has exactly the handles the
   * phase assigns, in the same order.
   */
  predicate WellFormed(f: Feature) {
    (f.phaseHistory != [] ==> f.phaseHistory[|f.phaseHistory| - 1].phase == f.currentPhase) &&
    forall i :: 0 <= i < |f.phaseHistory| ==>
      Handles(f.phaseHistory[i].activeAgents) == f.phaseHistory[i].phase.ActiveAgents()
  }

  /** Consecutive history entries are successors in the phase order. */
  predicate Chained(history: seq<PhaseState>) {
    forall i :: 0 <= i < |history| - 1 ==> history[i].phase.NextPhase() == Some(history[i + 1].phase)
  }

  // ---------------------------------------------------------------- the agent table

  /** Inserting pending entries for distinct handles gives one pending entry per
      handle, in the handles' order, and no others. */
  lemma {:induction false} PendingTableOfDistinct(handles: seq<string>)
    requires Distinct(handles)
    ensures |PendingTable(handles)| == |handles|
    ensures forall i :: 0 <= i < |handles| ==> PendingTable(handles)[i] == Pending(handles[i])
    ensures Handles(PendingTable(handles)) == handles
  {
    if handles != [] {
      var init := handles[..|handles| - 1];
      var last := handles[|handles| - 1];
      assert Distinct(init);
      PendingTableOfDistinct(init);
      assert last !in init;
      assert Handles(PendingTable(init)) == init;
    }
  }

  /** A new phase's table holds exactly the phase's agents, all pending. */
  lemma NewPhaseTable(p: WorkflowPhase)
    ensures Handles(PendingTable(p.ActiveAgents())) == p.ActiveAgents()
    ensures forall i :: 0 <= i < |PendingTable(p.ActiveAgents())| ==> !PendingTable(p.ActiveAgents())[i].completed
  {
    AgentsDistinct(p);
    PendingTableOfDistinct(p.ActiveAgents());
  }

  // ---------------------------------------------------------------- start_phase

  /** Entry `i` of the old history after `start_phase`: the same phase, and the
      same entry unless it is the one that was closed. */
  lemma StartPhaseEntry(f: Feature, p: WorkflowPhase, now: Time, i: nat)
    requires i < |f.phaseHistory|
    ensures f.StartPhase(p, now).phaseHistory[i].phase == f.phaseHistory[i].phase
    ensures i < |f.phaseHistory| - 1 ==> f.StartPhase(p, now).phaseHistory[i] == f.phaseHistory[i]
  {
    var r := f.StartPhase(p, now);
    var n := |f.phaseHistory|;
    assert r.phaseHistory[i] == r.phaseHistory[..n][i];
  }

  /** Starting a phase extends the history's phase list by exactly that phase. */
  lemma StartPhaseExtendsHistory(f: Feature, p: WorkflowPhase, now: Time)
    ensures PhasesOf(f.StartPhase(p, now).phaseHistory) == PhasesOf(f.phaseHistory) + [p]
    ensures forall i :: 0 <= i < |f.phaseHistory| - 1 ==> f.StartPhase(p, now).phaseHistory[i] == f.phaseHistory[i]
  {
    forall i | 0 <= i < |f.phaseHistory|
      ensures f.StartPhase(p, now).phaseHistory[i].phase == f.phaseHistory[i].phase
      ensures i < |f.phaseHistory| - 1 ==> f.StartPhase(p, now).phaseHistory[i] == f.phaseHistory[i]
    {
      StartPhaseEntry(f, p, now, i);
    }
  }

  lemma StartPhaseWellFormed(f: Feature, p: WorkflowPhase, now: Time)
    requires WellFormed(f)
    ensures WellFormed(f.StartPhase(p, now))
  {
    var r := f.StartPhase(p, now);
    var n := |f.phaseHistory|;
    NewPhaseTable(p);
    forall i | 0 <= i < |r.phaseHistory|
      ensures Handles(r.phaseHistory[i].activeAgents) == r.phaseHistory[i].phase.ActiveAgents()
    {
      if i < n {
        StartPhaseEntry(f, p, now, i);
        if i == n - 1 {
          assert r.phaseHistory[i] == r.phaseHistory[..n][i];
        }
      }
    }
  }

  // ---------------------------------------------------------------- mark_agent_complete

  /** Marking changes at most the current phase's entry for `handle`: it is a no-op
      without history or when `handle` has no entry, and otherwise that entry alone
      becomes completed with the given artifact and comment. */
  lemma MarkAgentCompleteEffect(f: Feature, handle: string, artifact: Option<string>, commentId: Option<string>, now: Time)
    ensures (f.phaseHistory == [] || handle !in Handles(f.phaseHistory[|f.phaseHistory| - 1].activeAgents))
            ==> f.MarkAgentComplete(handle, artifact, commentId, now) == f
    ensures f.phaseHistory != [] && handle in Handles(f.phaseHistory[|f.phaseHistory| - 1].activeAgents) ==>
      var r := f.MarkAgentComplete(handle, artifact, commentId, now);
      var n := |f.phaseHistory|;
      var old_ := f.phaseHistory[n - 1].activeAgents;
      var new_ := r.phaseHistory[n - 1].activeAgents;
      |r.phaseHistory| == n &&
      r.phaseHistory[..n - 1] == f.phaseHistory[..n - 1] &&
      r.phaseHistory[n - 1] == f.phaseHistory[n - 1].(activeAgents := new_) &&
      |new_| == |old_| &&
      (forall i :: 0 <= i < |old_| && old_[i].agentHandle != handle ==> new_[i] == old_[i]) &&
      (forall i :: 0 <= i < |old_| && i == FindAgent(old_, handle).value ==>
         new_[i] == AgentCompletion(handle, true, Some(now), artifact, commentId)) &&
      r == f.(phaseHistory := r.phaseHistory, updatedAt := now)
  {
    if f.phaseHistory != [] {
      var old_ := f.phaseHistory[|f.phaseHistory| - 1].activeAgents;
      var k := FindAgent(old_, handle);
      if k.Some? {
        forall i | 0 <= i < |old_| && old_[i].agentHandle != handle
          ensures i != k.value
        {
        }
      }
    }
  }

  /** Marking leaves every entry before the current phase's alone. */
  lemma MarkAgentCompleteEarlier(f: Feature, handle: string, artifact: Option<string>, commentId: Option<string>,
                                 now: Time, j: nat)
    requires j < |f.phaseHistory| - 1
    ensures |f.MarkAgentComplete(handle, artifact, commentId, now).phaseHistory| == |f.phaseHistory|
    ensures f.MarkAgentComplete(handle, artifact, commentId, now).phaseHistory[j] == f.phaseHistory[j]
  {
    var r := f.MarkAgentComplete(handle, artifact, commentId, now);
    if r != f {
      assert r.phaseHistory[j] == r.phaseHistory[..|f.phaseHistory| - 1][j];
    }
  }

  /** Marking keeps the current entry's phase and handles. */
  lemma MarkAgentCompleteLast(f: Feature, handle: string, artifact: Option<string>, commentId: Option<string>, now: Time)
    requires f.phaseHistory != []
    ensures var r := f.MarkAgentComplete(handle, artifact, commentId, now);
      var n := |f.phaseHistory|;
      |r.phaseHistory| == n && r.phaseHistory[n - 1].phase == f.phaseHistory[n - 1].phase &&
      Handles(r.phaseHistory[n - 1].activeAgents) == Handles(f.phaseHistory[n - 1].activeAgents)
  {
    var r := f.MarkAgentComplete(handle, artifact, commentId, now);
    var n := |f.phaseHistory|;
    if r != f {
      var old_ := f.phaseHistory[n - 1].activeAgents;
      var i := FindAgent(old_, handle).value;
      assert Handles(r.phaseHistory[n - 1].activeAgents) == Handles(old_);
    }
  }

  /** Marking keeps the phase list, the current phase and the table keys. */
  lemma MarkAgentCompleteWellFormed(f: Feature, handle: string, artifact: Option<string>, commentId: Option<string>, now: Time)
    requires WellFormed(f)
    ensures WellFormed(f.MarkAgentComplete(handle, artifact, commentId, now))
    ensures PhasesOf(f.MarkAgentComplete(handle, artifact, commentId, now).phaseHistory) == PhasesOf(f.phaseHistory)
    ensures f.MarkAgentComplete(handle, artifact, commentId, now).currentPhase == f.currentPhase
  {
    var r := f.MarkAgentComplete(handle, artifact, commentId, now);
    if f.phaseHistory != [] {
      var n := |f.phaseHistory|;
      MarkAgentCompleteLast(f, handle, artifact, commentId, now);
      forall j | 0 <= j < n - 1
        ensures r.phaseHistory[j] == f.phaseHistory[j]
      {
        MarkAgentCompleteEarlier(f, handle, artifact, commentId, now, j);
      }
    }
  }

  // ---------------------------------------------------------------- queries

  lemma HandlesCons(agents: seq<AgentCompletion>)
    requires agents != []
    ensures Handles(agents) == [agents[0].agentHandle] + Handles(agents[1..])
  {
  }

  /** Every handle of a table is pending or completed, once each. */
  lemma {:induction false} HandlesWhereSplit(agents: seq<AgentCompletion>)
    ensures multiset(HandlesWhere(agents, false)) + multiset(HandlesWhere(agents, true)) == multiset(Handles(agents))
  {
    if agents != [] {
      var rest := agents[1..];
      HandlesWhereSplit(rest);
      var h := agents[0].agentHandle;
      HandlesCons(agents);
      if agents[0].completed {
        assert HandlesWhere(agents, false) == HandlesWhere(rest, false);
        assert HandlesWhere(agents, true) == [h] + HandlesWhere(rest, true);
      } else {
        assert HandlesWhere(agents, false) == [h] + HandlesWhere(rest, false);
        assert HandlesWhere(agents, true) == HandlesWhere(rest, true);
      }
    }
  }

  lemma {:induction false} NonePendingWhenAllCompleted(agents: seq<AgentCompletion>)
    ensures HandlesWhere(agents, false) == [] <==> forall i :: 0 <= i < |agents| ==> agents[i].completed
  {
    if agents != [] {
      var rest := agents[1..];
      NonePendingWhenAllCompleted(rest);
      if agents[0].completed {
        assert HandlesWhere(agents, false) == HandlesWhere(rest, false);
        assert forall i :: 1 <= i < |agents| ==> agents[i] == rest[i - 1];
      } else {
        assert HandlesWhere(agents, false) != [];
      }
    }
  }

  /** The pending and completed lists split the current phase's agents between them,
      and nothing is pending exactly when all agents are complete. */
  lemma PendingCompletedPartition(f: Feature)
    ensures f.phaseHistory != [] ==>
      multiset(f.PendingAgents()) + multiset(f.CompletedAgents()) ==
      multiset(Handles(f.phaseHistory[|f.phaseHistory| - 1].activeAgents))
    ensures f.PendingAgents() == [] <==> f.AllAgentsComplete()
  {
    if f.phaseHistory != [] {
      HandlesWhereSplit(f.phaseHistory[|f.phaseHistory| - 1].activeAgents);
      NonePendingWhenAllCompleted(f.phaseHistory[|f.phaseHistory| - 1].activeAgents);
    }
  }

  /** With distinct handles, no agent is both pending and completed. */
  lemma PendingCompletedDisjoint(agents: seq<AgentCompletion>, h: string)
    requires Distinct(Handles(agents))
    ensures !(h in HandlesWhere(agents, false) && h in HandlesWhere(agents, true))
  {
  }

  // ---------------------------------------------------------------- approve_gate

  /** Approval marks the last entry whenever one exists, at a gate or not, and
      then a gate can be left. */
  lemma ApproveGateEffect(f: Feature, now: Time)
    ensures f.phaseHistory == [] ==> f.ApproveGate(now) == f
    ensures f.phaseHistory != [] ==>
      var r := f.ApproveGate(now);
      var n := |f.phaseHistory|;
      r.phaseHistory == WithLast(f.phaseHistory, f.phaseHistory[n - 1].(humanApproved := true, humanApprovedAt := Some(now))) &&
      r == f.(phaseHistory := r.phaseHistory, updatedAt := now)
    ensures f.phaseHistory != [] && f.currentPhase.IsGate() ==> f.ApproveGate(now).CanAdvance()
  {
    IsGateExactly(f.currentPhase);
  }

  lemma ApproveGateWellFormed(f: Feature, now: Time)
    requires WellFormed(f)
    ensures WellFormed(f.ApproveGate(now))
    ensures PhasesOf(f.ApproveGate(now).phaseHistory) == PhasesOf(f.phaseHistory)
  {
    var r := f.ApproveGate(now);
    var n := |f.phaseHistory|;
    if n > 0 {
      forall j | 0 <= j < n
        ensures Handles(r.phaseHistory[j].activeAgents) == r.phaseHistory[j].phase.ActiveAgents()
      {
        if j < n - 1 {
          assert r.phaseHistory[j] == r.phaseHistory[..n - 1][j];
        }
      }
    }
  }

  // ---------------------------------------------------------------- advance

  /** `advance` changes nothing and reports false when the guard fails; whenever the
      guard holds it starts the next phase and reports true. */
  lemma AdvanceEffect(f: Feature, now: Time)
    ensures !f.CanAdvance() ==> f.Advance(now) == (false, f)
    ensures f.CanAdvance() ==>
      f.currentPhase.NextPhase().Some? &&
      f.Advance(now) == (true, f.StartPhase(f.currentPhase.NextPhase().value, now))
  {
    NoSuccessorExactlyWhenTerminal(f.currentPhase);
  }

  /** Advancing keeps the history a chain of successors ending at the current phase. */
  lemma AdvanceKeepsChain(f: Feature, now: Time)
    requires WellFormed(f) && Chained(f.phaseHistory)
    ensures WellFormed(f.Advance(now).1) && Chained(f.Advance(now).1.phaseHistory)
  {
    var (ok, r) := f.Advance(now);
    if ok {
      var q := f.currentPhase.NextPhase().value;
      StartPhaseWellFormed(f, q, now);
      StartPhaseExtendsHistory(f, q, now);
      var ps := PhasesOf(r.phaseHistory);
      assert ps == PhasesOf(f.phaseHistory) + [q];
      forall i | 0 <= i < |r.phaseHistory| - 1
        ensures r.phaseHistory[i].phase.NextPhase() == Some(r.phaseHistory[i + 1].phase)
      {
        assert ps[i] == r.phaseHistory[i].phase && ps[i + 1] == r.phaseHistory[i + 1].phase;
        if i + 1 < |f.phaseHistory| {
          assert ps[i] == f.phaseHistory[i].phase && ps[i + 1] == f.phaseHistory[i + 1].phase;
        } else {
          assert ps[i + 1] == q;
          if f.phaseHistory != [] {
            assert ps[i] == f.phaseHistory[i].phase;
          }
        }
      }
    }
  }

  /** A work phase whose agents have all completed can be left; one with a pending
      agent cannot. */
  lemma WorkPhaseGate(f: Feature)
    requires !f.currentPhase.IsGate() && !f.currentPhase.IsTerminal()
    ensures f.CanAdvance() <==> f.PendingAgents() == []
  {
    PendingCompletedPartition(f);
  }

  /** The mutable feature state: the same fields as `Feature`, updated in place. */
  class FeatureState {
    var issueNumber: int
    var title: string
    var description: string
    var branchName: string
    var worktreePath: string
    var prNumber: Option<int>
    var currentPhase: WorkflowPhase
    var phaseHistory: seq<PhaseState>
    var createdAt: Time
    var updatedAt: Time

    function Value(): Feature
      reads this
    {
      Feature(issueNumber, title, description, branchName, worktreePath, prNumber,
              currentPhase, phaseHistory, createdAt, updatedAt)
    }

    constructor FromValue(f: Feature)
      ensures Value() == f
    {
      issueNumber := f.issueNumber;
      title := f.title;
      description := f.description;
      branchName := f.branchName;
      worktreePath := f.worktreePath;
      prNumber := f.prNumber;
      currentPhase := f.currentPhase;
      phaseHistory := f.phaseHistory;
      createdAt := f.createdAt;
      updatedAt := f.updatedAt;
    }

    method StartPhase(p: WorkflowPhase, now: Time)
      modifies this
      ensures Value() == old(Value()).StartPhase(p, now)
    {
      if phaseHistory != [] {
        var last := phaseHistory[|phaseHistory| - 1];
        phaseHistory := WithLast(phaseHistory, last.(completedAt := Some(now)));
      }
      var table := BuildPendingTable(p.ActiveAgents());
      phaseHistory := phaseHistory + [PhaseState(p, Some(now), None, table, false, None)];
      currentPhase := p;
      updatedAt := now;
    }

    method MarkAgentComplete(handle: string, artifact: Option<string>, commentId: Option<string>, now: Time)
      modifies this
      ensures Value() == old(Value()).MarkAgentComplete(handle, artifact, commentId, now)
    {
      if phaseHistory == [] {
        return;
      }
      var ps := phaseHistory[|phaseHistory| - 1];
      var k := FindAgent(ps.activeAgents, handle);
      if k.Some? {
        var c := ps.activeAgents[k.value].(completed := true, completedAt := Some(now),
                                           artifactPath := artifact, commentId := commentId);
        phaseHistory := WithLast(phaseHistory, ps.(activeAgents := ps.activeAgents[k.value := c]));
        updatedAt := now;
      }
    }

    method ApproveGate(now: Time)
      modifies this
      ensures Value() == old(Value()).ApproveGate(now)
    {
      if phaseHistory != [] {
        var ps := phaseHistory[|phaseHistory| - 1];
        phaseHistory := WithLast(phaseHistory, ps.(humanApproved := true, humanApprovedAt := Some(now)));
        updatedAt := now;
      }
    }

    method Advance(now: Time) returns (advanced: bool)
      modifies this
      ensures (advanced, Value()) == old(Value()).Advance(now)
    {
      if !Value().CanAdvance() {
        return false;
      }
      var next := currentPhase.NextPhase();
      if next.None? {
        return false;
      }
      StartPhase(next.value, now);
      return true;
    }
  }
}
