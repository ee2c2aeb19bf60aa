/**
 * The orchestrator's exception hierarchy. Every error is an `OrchestratorError`
 * with a message and an error code; each class fixes its own default code, and
 * an instance may be given a code of its own instead. The class of an error is
 * its `Kind`; `Parent` is the class it inherits from.
 */
module OrchestratorErrors {
  import opened Wrappers
  import opened Text

  datatype Kind =
    | OrchestratorBase
    | WorkflowNotFound | WorkflowAlreadyExists | InvalidStateTransition | InvalidState | StateFileCorrupted
    | Agent | AgentDispatch | AgentExecution | AgentTimeout | AgentNotAvailable
    | Phase1 | IssueCreation | BranchCreation | WorktreeCreation | PlansInitialization
    | PollTimeout | Poll
    | LabelSync

  /** The class each error class is declared as a subclass of. */
  function Parent(k: Kind): Option<Kind> {
    match k
    case OrchestratorBase => None
    case AgentDispatch | AgentExecution | AgentTimeout | AgentNotAvailable => Some(Agent)
    case IssueCreation | BranchCreation | WorktreeCreation | PlansInitialization => Some(Phase1)
    case _ => Some(OrchestratorBase)
  }

  /** The number of classes between `k` and the base class. */
  function Depth(k: Kind): nat {
    match Parent(k)
    case None => 0
    case Some(p) => if p == OrchestratorBase then 1 else 2
  }

  /** `isinstance`: `k` is `ancestor` or inherits from it. */
  predicate IsA(k: Kind, ancestor: Kind)
    decreases Depth(k)
  {
    k == ancestor || (Parent(k).Some? && Depth(Parent(k).value) < Depth(k) && IsA(Parent(k).value, ancestor))
  }

  /** The class-level `error_code` of each class. */
  function DefaultCode(k: Kind): string {
    match k
    case OrchestratorBase => "UNKNOWN_ERROR"
    case WorkflowNotFound => "WORKFLOW_NOT_FOUND"
    case WorkflowAlreadyExists => "WORKFLOW_EXISTS"
    case InvalidStateTransition => "INVALID_TRANSITION"
    case InvalidState => "INVALID_STATE"
    case StateFileCorrupted => "STATE_CORRUPTED"
    case Agent => "AGENT_ERROR"
    case AgentDispatch => "AGENT_DISPATCH_ERROR"
    case AgentExecution => "AGENT_EXECUTION_ERROR"
    case AgentTimeout => "AGENT_TIMEOUT"
    case AgentNotAvailable => "AGENT_NOT_AVAILABLE"
    case Phase1 => "PHASE_1_ERROR"
    case IssueCreation => "ISSUE_CREATION_ERROR"
    case BranchCreation => "BRANCH_CREATION_ERROR"
    case WorktreeCreation => "WORKTREE_CREATION_ERROR"
    case PlansInitialization => "PLANS_INIT_ERROR"
    case PollTimeout => "POLL_TIMEOUT"
    case Poll => "POLL_ERROR"
    case LabelSync => "LABEL_SYNC_ERROR"
  }

  /** The default codes are pairwise distinct: two classes share a code only when
      they are the same class. No two codes agree in both their length and their
      first letter. */
  lemma DefaultCodesDistinct(k: Kind, j: Kind)
    ensures DefaultCode(k) == DefaultCode(j) <==> k == j
  {
    var a, b := DefaultCode(k), DefaultCode(j);
    if a == b {
      assert |a| == |b| && a[0] == b[0];
    }
  }

  /** The four Phase 1 step errors, and only they and `Phase1Error` itself, are
      `Phase1Error`s; the four agent errors and `AgentError` are the `AgentError`s;
      every class is an `OrchestratorError`. */
  lemma Hierarchy(k: Kind)
    ensures IsA(k, OrchestratorBase)
    ensures IsA(k, Phase1) <==> k in {Phase1, IssueCreation, BranchCreation, WorktreeCreation, PlansInitialization}
    ensures IsA(k, Agent) <==> k in {Agent, AgentDispatch, AgentExecution, AgentTimeout, AgentNotAvailable}
    ensures IsA(OrchestratorBase, k) <==> k == OrchestratorBase
  {
    ReachesBase(k);
    Phase1Family(k);
    AgentFamily(k);
  }

  lemma ReachesBase(k: Kind)
    ensures IsA(k, OrchestratorBase)
    ensures IsA(OrchestratorBase, k) <==> k == OrchestratorBase
  {
  }

  lemma Phase1Family(k: Kind)
    ensures IsA(k, Phase1) <==> k in {Phase1, IssueCreation, BranchCreation, WorktreeCreation, PlansInitialization}
  {
  }

  lemma AgentFamily(k: Kind)
    ensures IsA(k, Agent) <==> k in {Agent, AgentDispatch, AgentExecution, AgentTimeout, AgentNotAvailable}
  {
  }

  /** An error instance. */
  datatype OrchestratorError = OrchestratorError(kind: Kind, message: string, errorCode: string)

  /** `Cls(message, error_code=…)`: the message as given, and the supplied code or
      else the class default. The class's own default stays what it was, so the
      next instance made without a code gets the default again. */
  function NewError(k: Kind, message: string, code: Option<string>): (e: OrchestratorError)
    ensures e.kind == k && e.message == message
    ensures code.Some? ==> e.errorCode == code.value
    ensures code.None? ==> e.errorCode == DefaultCode(k)
  {
    OrchestratorError(k, message, if code.Some? then code.value else DefaultCode(k))
  }

  /** `str(e)`: the code in brackets, a space, the message. */
  function Render(e: OrchestratorError): string {
    "[" + e.errorCode + "] " + e.message
  }

  /** Reading a rendered error back: the text between the opening bracket and the
      first `]`, and what follows the space after it. */
  function ParseRendered(s: string): Option<(string, string)> {
    if |s| == 0 || s[0] != '[' then None
    else match IndexOf(s[1..], "] ")
      case None => None
      case Some(i) => Some((s[1..][..i], s[1..][i + 2..]))
  }

  /** A rendered error gives back its code and its message whenever the code has
      no `]`. */
  lemma {:induction false} RenderRoundTrip(e: OrchestratorError)
    requires forall i :: 0 <= i < |e.errorCode| ==> e.errorCode[i] != ']'
    ensures ParseRendered(Render(e)) == Some((e.errorCode, e.message))
  {
    var c, m := e.errorCode, e.message;
    var s := Render(e);
    var t := c + "] " + m;
    assert s[1..] == t;
    assert OccursAt(t, "] ", |c|) by {
      assert t[|c|..|c| + 2] == "] ";
    }
    forall j | 0 <= j < |c|
      ensures !OccursAt(t, "] ", j)
    {
      assert t[j] == c[j];
    }
    assert IndexOf(t, "] ") == Some(|c|);
    assert t[..|c|] == c;
    assert t[|c| + 2..] == m;
  }
}
