/**
 * The data model of the orchestrator package: its enumerations and its records,
 * each with the field constraints and defaults the validating constructor of the
 * record enforces. A record whose constraints a construction would break is
 * refused with the names of the offending fields, in declaration order; a
 * field that is left out takes its default. Times are whole seconds of an
 * abstract clock, paths are strings.
 */
module OrchestratorModels {
  import opened Wrappers

  // ---------------------------------------------------------------- enumerations

  /** Workflow states, documented as visited in this order and only forwards. */
  datatype WorkflowState = Idle | Phase1 | Phase2 | Gate1 | Done {
    /** The enumeration's string value. */
    function Value(): string {
      match this
      case Idle => "idle"
      case Phase1 => "phase_1"
      case Phase2 => "phase_2"
      case Gate1 => "gate_1"
      case Done => "done"
    }

    /** The position of the state in the documented linear order. */
    function Rank(): nat {
      match this
      case Idle => 0
      case Phase1 => 1
      case Phase2 => 2
      case Gate1 => 3
      case Done => 4
    }
  }

  /** Every workflow state, in declaration order. */
  const AllWorkflowStates: seq<WorkflowState> := [Idle, Phase1, Phase2, Gate1, Done]

  /** There are exactly five states, each listed once at its rank; string values
      and ranks both tell states apart; the order starts at `IDLE` and ends at
      `DONE`. */
  lemma WorkflowStatesEnumerated(s: WorkflowState, t: WorkflowState)
    ensures |AllWorkflowStates| == 5 && s in AllWorkflowStates
    ensures AllWorkflowStates[s.Rank()] == s
    ensures s.Value() == t.Value() <==> s == t
    ensures s.Rank() == t.Rank() <==> s == t
    ensures Idle.Rank() <= s.Rank() <= Done.Rank()
  {
  }

  /** A transition that the documented order allows: strictly forwards. */
  predicate IsForward(from: WorkflowState, to: WorkflowState) {
    from.Rank() < to.Rank()
  }

  /** No state is left forwards from `DONE`, and a forward step never returns. */
  lemma ForwardIsStrictOrder(a: WorkflowState, b: WorkflowState, c: WorkflowState)
    ensures !IsForward(Done, a) && !IsForward(a, Idle) && !IsForward(a, a)
    ensures IsForward(a, b) ==> !IsForward(b, a)
    ensures IsForward(a, b) && IsForward(b, c) ==> IsForward(a, c)
  {
  }

  datatype AgentProvider = Claude | Gemini | Codex {
    function Value(): string {
      match this
      case Claude => "claude"
      case Gemini => "gemini"
      case Codex => "codex"
    }
  }

  datatype ExecutionMode = Cli | Sdk {
    function Value(): string {
      match this
      case Cli => "cli"
      case Sdk => "sdk"
    }
  }

  datatype SignalType = AgentComplete | HumanApproval {
    function Value(): string {
      match this
      case AgentComplete => "agent_complete"
      case HumanApproval => "human_approval"
    }
  }

  datatype OperationStatus = Success | Failure | Partial {
    function Value(): string {
      match this
      case Success => "success"
      case Failure => "failure"
      case Partial => "partial"
    }
  }

  /** The values of every enumeration tell its members apart. */
  lemma EnumValuesDistinct(p: AgentProvider, q: AgentProvider, m: ExecutionMode, n: ExecutionMode,
                           s: SignalType, t: SignalType, a: OperationStatus, b: OperationStatus)
    ensures p.Value() == q.Value() <==> p == q
    ensures m.Value() == n.Value() <==> m == n
    ensures s.Value() == t.Value() <==> s == t
    ensures a.Value() == b.Value() <==> a == b
  {
  }

  // ---------------------------------------------------------------- validation

  /** A refused construction: the fields whose constraints fail. */
  datatype ValidationError = ValidationError(fields: seq<string>)

  // ---------------------------------------------------------------- state records

  /** One state change; a value, and so never changed once made. */
  datatype StateTransition = StateTransition(from: WorkflowState, to: WorkflowState, trigger: string, timestamp: int)

  /** The complete workflow state of one issue. */
  datatype OrchestratorState = OrchestratorState(
    issueNumber: int,
    currentState: WorkflowState,
    featureName: string,
    branchName: Option<string>,
    worktreePath: Option<string>,
    phase1Steps: seq<string>,
    phase2AgentComplete: bool,
    phase2HumanApproved: bool,
    history: seq<StateTransition>,
    createdAt: int,
    updatedAt: int)

  /** `issue_number` must be greater than zero. */
  predicate ValidState(s: OrchestratorState) {
    s.issueNumber > 0
  }

  /** `OrchestratorState(issue_number=…, feature_name=…, created_at=…, updated_at=…)`
      with every other field at its default. */
  function NewState(issue: int, featureName: string, createdAt: int, updatedAt: int): (r: Result<OrchestratorState, ValidationError>)
    ensures r.Ok? <==> issue > 0
    ensures r.Err? ==> r.error == ValidationError(["issue_number"])
    ensures r.Ok? ==> ValidState(r.value)
    ensures r.Ok? ==> var s := r.value;
      && s.issueNumber == issue && s.featureName == featureName
      && s.createdAt == createdAt && s.updatedAt == updatedAt
      && s.currentState == Idle && s.branchName.None? && s.worktreePath.None?
      && s.phase1Steps == [] && s.history == []
      && !s.phase2AgentComplete && !s.phase2HumanApproved
  {
    if issue > 0 then Ok(OrchestratorState(issue, Idle, featureName, None, None, [], false, false, [], createdAt, updatedAt))
    else Err(ValidationError(["issue_number"]))
  }

  // ---------------------------------------------------------------- agent configuration

  const DefaultAgentTimeout: int := 3600

  datatype AgentConfig = AgentConfig(
    provider: AgentProvider,
    mode: ExecutionMode,
    model: string,
    role: string,
    prompt: Option<string>,
    skills: seq<string>,
    plugins: seq<string>,
    mcpServers: seq<string>,
    timeoutSeconds: int,
    workDir: Option<string>)

  /** `AgentConfig(provider, model, role, mode=…, timeout_seconds=…)`: mode CLI,
      no prompt, no skills, plugins or servers and no working directory unless
      given; the timeout defaults to an hour and must be positive. */
  function NewAgentConfig(provider: AgentProvider, model: string, role: string,
                          mode: Option<ExecutionMode>, timeout: Option<int>): (r: Result<AgentConfig, ValidationError>)
    ensures r.Ok? <==> timeout.None? || timeout.value > 0
    ensures r.Err? ==> r.error == ValidationError(["timeout_seconds"])
    ensures r.Ok? ==> var c := r.value;
      && c.provider == provider && c.model == model && c.role == role
      && c.mode == mode.GetOr(Cli) && c.timeoutSeconds > 0
      && (timeout.None? ==> c.timeoutSeconds == DefaultAgentTimeout)
      && (timeout.Some? ==> c.timeoutSeconds == timeout.value)
      && c.prompt.None? && c.skills == [] && c.plugins == [] && c.mcpServers == [] && c.workDir.None?
  {
    var t := timeout.GetOr(DefaultAgentTimeout);
    if t > 0 then Ok(AgentConfig(provider, mode.GetOr(Cli), model, role, None, [], [], [], t, None))
    else Err(ValidationError(["timeout_seconds"]))
  }

  /** What running an agent produced. The duration is not modelled. */
  datatype AgentResult = AgentResult(success: bool, exitCode: Option<int>, stdout: string, stderr: string, errorMessage: Option<string>)

  // ---------------------------------------------------------------- phase records

  datatype Phase1Request = Phase1Request(featureDescription: string, featureName: Option<string>, labels: seq<string>)

  /** `Phase1Request(feature_description=…, feature_name=…, labels=…)`: the
      description must hold at least one character. */
  function NewPhase1Request(description: string, featureName: Option<string>, labels: Option<seq<string>>): (r: Result<Phase1Request, ValidationError>)
    ensures r.Ok? <==> |description| >= 1
    ensures r.Err? ==> r.error == ValidationError(["feature_description"])
    ensures r.Ok? ==> r.value == Phase1Request(description, featureName, labels.GetOr([]))
  {
    if |description| >= 1 then Ok(Phase1Request(description, featureName, labels.GetOr([])))
    else Err(ValidationError(["feature_description"]))
  }

  const DefaultPollInterval: int := 30
  const DefaultPollTimeout: int := 3600

  datatype Phase2Config = Phase2Config(agentConfig: AgentConfig, pollIntervalSeconds: int, pollTimeoutSeconds: int)

  /** `Phase2Config(agent_config, poll_interval_seconds=…, poll_timeout_seconds=…)`:
      thirty seconds between polls and an hour in all unless given, both positive. */
  function NewPhase2Config(agent: AgentConfig, interval: Option<int>, timeout: Option<int>): (r: Result<Phase2Config, ValidationError>)
    ensures var i, t := interval.GetOr(DefaultPollInterval), timeout.GetOr(DefaultPollTimeout);
      && (r.Ok? <==> i > 0 && t > 0)
      && (r.Err? ==> (("poll_interval_seconds" in r.error.fields <==> i <= 0) && ("poll_timeout_seconds" in r.error.fields <==> t <= 0)))
      && (r.Ok? ==> r.value == Phase2Config(agent, i, t) && r.value.pollIntervalSeconds > 0 && r.value.pollTimeoutSeconds > 0)
  {
    var i, t := interval.GetOr(DefaultPollInterval), timeout.GetOr(DefaultPollTimeout);
    if i > 0 && t > 0 then Ok(Phase2Config(agent, i, t))
    else Err(ValidationError((if i > 0 then [] else ["poll_interval_seconds"]) + (if t > 0 then [] else ["poll_timeout_seconds"])))
  }

  /** The outcome of a phase. The duration is not modelled. */
  datatype PhaseResult = PhaseResult(success: bool, phase: string, artifactsCreated: seq<string>, stepsCompleted: seq<string>, error: Option<string>)

  // ---------------------------------------------------------------- polling and operations

  datatype PollResult = PollResult(
    detected: bool,
    signalType: SignalType,
    commentId: Option<int>,
    commentBody: Option<string>,
    commentAuthor: Option<string>,
    pollCount: int)

  /** `PollResult(detected=…, signal_type=…)`: no comment and no poll made. */
  function NewPollResult(detected: bool, signalType: SignalType): (r: PollResult)
    ensures r.detected == detected && r.signalType == signalType
    ensures r.commentId.None? && r.commentBody.None? && r.commentAuthor.None?
    ensures r.pollCount == 0
  {
    PollResult(detected, signalType, None, None, None, 0)
  }

  /** A value of the `details` dictionary of an operation result. */
  datatype Detail = Text(text: string) | Texts(items: seq<string>)

  datatype OperationResult = OperationResult(status: OperationStatus, message: Option<string>, details: map<string, Detail>)
}
