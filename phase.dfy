/**
 * The closed set of workflow phases of the feature lifecycle: which phases are
 * human-approval gates, which are terminal, the successor order, and the label
 * and agent tables attached to each phase.
 */
module Phases {
  import opened Wrappers
  import opened Text

  datatype WorkflowPhase =
    | Phase1Setup
    | Phase2Specs
    | Gate1Specs
    | Phase3Plans
    | Gate2Plans
    | Phase4Tests
    | Gate3Tests
    | Phase5Implementation
    | Phase6CreatePr
    | Phase7Review
    | Gate4Merge
    | Phase8Cleanup
    | Done
    | Cancelled
  {
    /** The enum member's name, which is also its value. */
    function Name(): string {
      match this
      case Phase1Setup => "PHASE_1_SETUP"
      case Phase2Specs => "PHASE_2_SPECS"
      case Gate1Specs => "GATE_1_SPECS"
      case Phase3Plans => "PHASE_3_PLANS"
      case Gate2Plans => "GATE_2_PLANS"
      case Phase4Tests => "PHASE_4_TESTS"
      case Gate3Tests => "GATE_3_TESTS"
      case Phase5Implementation => "PHASE_5_IMPLEMENTATION"
      case Phase6CreatePr => "PHASE_6_CREATE_PR"
      case Phase7Review => "PHASE_7_REVIEW"
      case Gate4Merge => "GATE_4_MERGE"
      case Phase8Cleanup => "PHASE_8_CLEANUP"
      case Done => "DONE"
      case Cancelled => "CANCELLED"
    }

    /** A human-approval gate: the name starts with "GATE_". */
    predicate IsGate() {
      StartsWith(Name(), "GATE_")
    }

    predicate IsTerminal() {
      this == Done || this == Cancelled
    }

    /** The successor in the phase sequence; none for its last element, DONE, and for
        CANCELLED, which is not in it. The list lookup is written as a table here;
        `NextFollowsSequence` ties it to `PhaseSequence`. */
    function NextPhase(): Option<WorkflowPhase> {
      match this
      case Phase1Setup => Some(Phase2Specs)
      case Phase2Specs => Some(Gate1Specs)
      case Gate1Specs => Some(Phase3Plans)
      case Phase3Plans => Some(Gate2Plans)
      case Gate2Plans => Some(Phase4Tests)
      case Phase4Tests => Some(Gate3Tests)
      case Gate3Tests => Some(Phase5Implementation)
      case Phase5Implementation => Some(Phase6CreatePr)
      case Phase6CreatePr => Some(Phase7Review)
      case Phase7Review => Some(Gate4Merge)
      case Gate4Merge => Some(Phase8Cleanup)
      case Phase8Cleanup => Some(Done)
      case Done => None
      case Cancelled => None
    }

    function GitHubLabel(): string {
      match this
      case Phase1Setup => "status:new"
      case Phase2Specs => "status:new"
      case Gate1Specs => "status:specs-ready"
      case Phase3Plans => "status:specs-ready"
      case Gate2Plans => "status:plans-ready"
      case Phase4Tests => "status:plans-ready"
      case Gate3Tests => "status:tests-designed"
      case Phase5Implementation => "status:implementing"
      case Phase6CreatePr => "status:implementing"
      case Phase7Review => "status:in-review"
      case Gate4Merge => "status:approved"
      case Phase8Cleanup => "status:approved"
      case Done => "status:done"
      case Cancelled => "status:cancelled"
    }

    /** The agent handles assigned to the phase; phases missing from the table get none. */
    function ActiveAgents(): seq<string> {
      match this
      case Phase2Specs => ["duc"]
      case Phase3Plans => ["dede", "dali", "gus"]
      case Phase4Tests => ["marie"]
      case Phase5Implementation => ["dede", "dali", "gus"]
      case Phase7Review => ["dede", "dali", "gus", "marie"]
      case _ => []
    }
  }

  const PhaseSequence: seq<WorkflowPhase> := [
    Phase1Setup, Phase2Specs, Gate1Specs, Phase3Plans, Gate2Plans, Phase4Tests,
    Gate3Tests, Phase5Implementation, Phase6CreatePr, Phase7Review, Gate4Merge,
    Phase8Cleanup, Done
  ]

  predicate Distinct<T(==)>(xs: seq<T>) {
    forall i, j :: 0 <= i < j < |xs| ==> xs[i] != xs[j]
  }

  /** `is_gate` holds exactly for the four gate phases. */
  lemma IsGateExactly(p: WorkflowPhase)
    ensures p.IsGate() <==> p in {Gate1Specs, Gate2Plans, Gate3Tests, Gate4Merge}
  {
    match p
    case Gate1Specs => assert p.Name()[..5] == "GATE_";
    case Gate2Plans => assert p.Name()[..5] == "GATE_";
    case Gate3Tests => assert p.Name()[..5] == "GATE_";
    case Gate4Merge => assert p.Name()[..5] == "GATE_";
    case Done =>
    case _ => assert p.Name()[0] != 'G';
  }

  /** Exactly the terminal phases have no successor. */
  lemma NoSuccessorExactlyWhenTerminal(p: WorkflowPhase)
    ensures p.NextPhase().None? <==> p.IsTerminal()
  {
  }

  lemma SequenceShape()
    ensures Distinct(PhaseSequence)
    ensures |PhaseSequence| == 13 && PhaseSequence[0] == Phase1Setup && PhaseSequence[12] == Done
    ensures Cancelled !in PhaseSequence
  {
  }

  /** `next_phase` is the successor in the fixed 13-element list, and only phases
      in the list other than its last element have one. */
  lemma NextFollowsSequence(p: WorkflowPhase)
    ensures forall i :: 0 <= i < 12 && PhaseSequence[i] == p ==> p.NextPhase() == Some(PhaseSequence[i + 1])
    ensures p.NextPhase().Some? <==> p in PhaseSequence[..12]
  {
    var prefix := PhaseSequence[..12];
    match p
    case Phase1Setup => assert prefix[0] == p;
    case Phase2Specs => assert prefix[1] == p;
    case Gate1Specs => assert prefix[2] == p;
    case Phase3Plans => assert prefix[3] == p;
    case Gate2Plans => assert prefix[4] == p;
    case Phase4Tests => assert prefix[5] == p;
    case Gate3Tests => assert prefix[6] == p;
    case Phase5Implementation => assert prefix[7] == p;
    case Phase6CreatePr => assert prefix[8] == p;
    case Phase7Review => assert prefix[9] == p;
    case Gate4Merge => assert prefix[10] == p;
    case Phase8Cleanup => assert prefix[11] == p;
    case Done =>
    case Cancelled =>
  }

  /** `n` successive calls of `next_phase`, stopping at the first `None`. */
  function Successor(p: WorkflowPhase, n: nat): Option<WorkflowPhase>
    decreases n
  {
    if n == 0 then Some(p)
    else match p.NextPhase()
      case Some(q) => Successor(q, n - 1)
      case None => None
  }

  lemma {:induction false} SuccessorAlongSequence(i: nat, n: nat)
    requires i + n < |PhaseSequence|
    ensures Successor(PhaseSequence[i], n) == Some(PhaseSequence[i + n])
    decreases n
  {
    if n > 0 {
      NextFollowsSequence(PhaseSequence[i]);
      SuccessorAlongSequence(i + 1, n - 1);
    }
  }

  /** From the setup phase, 12 successors reach DONE through 13 distinct phases,
      and one more step yields no phase. */
  lemma WalkFromSetup()
    ensures forall n :: 0 <= n <= 12 ==> Successor(Phase1Setup, n) == Some(PhaseSequence[n])
    ensures Successor(Phase1Setup, 12) == Some(Done)
    ensures forall m, n :: 0 <= m < n <= 12 ==> Successor(Phase1Setup, m) != Successor(Phase1Setup, n)
    ensures Successor(Phase1Setup, 13) == None
  {
    SequenceShape();
    forall n | 0 <= n <= 12
      ensures Successor(Phase1Setup, n) == Some(PhaseSequence[n])
    {
      SuccessorAlongSequence(0, n);
    }
    SuccessorAlongSequence(0, 12);
    NoSuccessorExactlyWhenTerminal(Done);
    SuccessorLast(Phase1Setup, 12);
  }

  lemma {:induction false} SuccessorLast(p: WorkflowPhase, n: nat)
    requires Successor(p, n) == Some(Done)
    ensures Successor(p, n + 1) == None
    decreases n
  {
    NoSuccessorExactlyWhenTerminal(Done);
    if n > 0 {
      SuccessorLast(p.NextPhase().value, n - 1);
    }
  }

  /** Every phase has a label, and each begins with "status:". */
  lemma LabelsHaveStatusPrefix(p: WorkflowPhase)
    ensures StartsWith(p.GitHubLabel(), "status:")
  {
    assert p.GitHubLabel()[..7] == "status:";
  }

  /** Agent-less phases are exactly the gates, setup, PR creation, cleanup and the
      terminal phases; the specification phase is run by "duc" alone. */
  lemma AgentlessPhases(p: WorkflowPhase)
    ensures p.ActiveAgents() == [] <==>
      p.IsGate() || p.IsTerminal() || p in {Phase1Setup, Phase6CreatePr, Phase8Cleanup}
    ensures Phase2Specs.ActiveAgents() == ["duc"]
  {
    IsGateExactly(p);
  }

  /** No phase lists an agent twice. */
  lemma AgentsDistinct(p: WorkflowPhase)
    ensures Distinct(p.ActiveAgents())
  {
  }
  /** Distinct phases have distinct names. */
  lemma NameInjective(p: WorkflowPhase, q: WorkflowPhase)
    requires p.Name() == q.Name()
    ensures p == q
  {
  }
}
