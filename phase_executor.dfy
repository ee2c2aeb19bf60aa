/**
 * The Phase 1 executor of the orchestrator package: create the issue, its branch,
 * its worktree and its `.plans` directory, recording each step in the workflow
 * state so that an interrupted run can resume. The GitHub and worktree services
 * are inputs (what each call returns or the text of its error) and every call
 * made to them or to the state machine is recorded in order. The state machine
 * is its table of states: `create_state` stores a fresh state and `_save_state`
 * writes one back; its transitions are recorded, their effect on the current
 * state is not part of this model.
 */
module PhaseExecutors {
  import opened Wrappers
  import opened Text
  import opened Slugs
  import opened OrchestratorModels
  import opened OrchestratorErrors
  import GitHubAdapters
  import Collections

  const IssueStep: string := "issue"
  const BranchStep: string := "branch"
  const WorktreeStep: string := "worktree"
  const PlansStep: string := "plans"

  /** The four steps in the order they run. */
  const StepOrder: seq<string> := [IssueStep, BranchStep, WorktreeStep, PlansStep]

  const MaxTitleLength: nat := 80

  // ---------------------------------------------------------------- names

  /** The feature name: the one requested when it is not empty, else the
      50-character slug of the description. */
  function FeatureName(req: Phase1Request): string {
    if req.featureName.Some? && req.featureName.value != "" then req.featureName.value
    else ShortSlug(req.featureDescription)
  }

  /** A derived feature name is a slug of at most 50 characters: `a-z0-9-`, no
      `--`, no leading hyphen. */
  lemma FeatureNameRule(req: Phase1Request)
    ensures req.featureName.Some? && req.featureName.value != "" ==> FeatureName(req) == req.featureName.value
    ensures req.featureName.None? || req.featureName.value == "" ==>
      var f := FeatureName(req);
      && f == ShortSlug(req.featureDescription)
      && |f| <= MaxSlugLength && AllSlugChars(f) && NoDoubleHyphen(f) && (f == [] || f[0] != '-')
  {
    ShortSlugShape(req.featureDescription);
  }

  /** `_create_issue`'s title: the first line of the stripped description, cut to
      80 characters. */
  function IssueTitle(description: string): string {
    Take(Lines(Strip(description))[0], MaxTitleLength)
  }

  /** The first piece of a split on newlines is the text up to the first newline. */
  lemma FirstLine(s: string)
    ensures var l := Lines(s)[0];
      && StartsWith(s, l) && (forall i :: 0 <= i < |l| ==> l[i] != '\n')
      && (l == s || s[|l|] == '\n')
  {
    match IndexOf(s, "\n")
    case None =>
      forall i | 0 <= i < |s|
        ensures s[i] != '\n'
      {
        assert !OccursAt(s, "\n", i);
      }
    case Some(k) =>
      assert Lines(s)[0] == s[..k];
      forall i | 0 <= i < k
        ensures s[i] != '\n'
      {
        assert !OccursAt(s, "\n", i);
      }
  }

  /** The title has at most 80 characters and no newline, begins the stripped
      description, and is its whole first line whenever it is shorter than 80. */
  lemma IssueTitleShape(description: string)
    ensures var t, d := IssueTitle(description), Strip(description);
      && |t| <= MaxTitleLength
      && (forall i :: 0 <= i < |t| ==> t[i] != '\n')
      && StartsWith(d, t)
      && (|t| < MaxTitleLength ==> t == d || d[|t|] == '\n')
  {
    var d := Strip(description);
    FirstLine(d);
    var l := Lines(d)[0];
    var t := IssueTitle(description);
    assert t == l[..|t|];
    assert d[..|t|] == l[..|t|];
  }

  /** `_create_branch`'s name: `f"{issue_number}-{feature_name}"`. */
  function BranchNameFor(issue: int, feature: string): string {
    IntToString(issue) + "-" + feature
  }

  /** The issue number and the feature name can be read back from a branch name:
      no two pairs share one. */
  lemma BranchNameForInjective(n1: int, f1: string, n2: int, f2: string)
    requires BranchNameFor(n1, f1) == BranchNameFor(n2, f2)
    ensures n1 == n2 && f1 == f2
  {
    BranchNameSign(n1, f1);
    BranchNameSign(n2, f2);
    var a1, a2 := if n1 < 0 then -n1 else n1, if n2 < 0 then -n2 else n2;
    BranchNameDigits(n1, f1);
    BranchNameDigits(n2, f2);
    SplitAtFirstChar(NatToString(a1), f1, NatToString(a2), f2, '-');
    NatToStringRoundTrip(a1);
    NatToStringRoundTrip(a2);
  }

  /** A branch name starts with `-` exactly when its issue number is negative. */
  lemma BranchNameSign(n: int, f: string)
    ensures (BranchNameFor(n, f)[0] == '-') == (n < 0)
  {
    if n >= 0 {
      NatToStringHead(n);
    }
  }

  /** After the sign, a branch name is the digits of the issue number, which hold
      no `-`, then `-` and the feature name. */
  lemma BranchNameDigits(n: int, f: string)
    ensures var k, d := if n < 0 then 1 else 0, NatToString(if n < 0 then -n else n);
      && '-' !in d && k <= |BranchNameFor(n, f)| && BranchNameFor(n, f)[k..] == d + ['-'] + f
  {
    var d := NatToString(if n < 0 then -n else n);
    assert forall i :: 0 <= i < |d| ==> d[i] != '-' by {
      assert forall i :: 0 <= i < |d| ==> IsDigit(d[i]);
    }
    if n < 0 {
      assert BranchNameFor(n, f) == ['-'] + (d + ['-'] + f);
    }
  }

  /** With a derived feature name the executor's branch is the name the GitHub
      adapter derives for the issue's worktree from the same text. */
  lemma DerivedBranchIsAdapterName(issue: int, req: Phase1Request)
    requires req.featureName.None? || req.featureName.value == ""
    ensures BranchNameFor(issue, FeatureName(req)) == GitHubAdapters.AdapterBranchName(issue, req.featureDescription)
  {
  }

  // ---------------------------------------------------------------- step errors

  /** The error text of `None / ".plans"`, raised for a worktree path that was never set. */
  const NonePathError: string := "unsupported operand type(s) for /: 'NoneType' and 'str'"

  function IssueError(e: string): OrchestratorError {
    NewError(IssueCreation, "Failed to create issue: " + e, None)
  }

  function BranchError(e: string): OrchestratorError {
    NewError(BranchCreation, "Failed to create branch: " + e, None)
  }

  function WorktreeError(e: string): OrchestratorError {
    NewError(WorktreeCreation, "Failed to create worktree: " + e, None)
  }

  function PlansError(e: string): OrchestratorError {
    NewError(PlansInitialization, "Failed to initialize .plans: " + e, None)
  }

  /** Each step re-raises its collaborator's failure as its own `Phase1Error`, and
      the four carry four different codes. */
  lemma StepErrorsDistinct(a: string, b: string, c: string, d: string)
    ensures var es := [IssueError(a), BranchError(b), WorktreeError(c), PlansError(d)];
      && (forall i :: 0 <= i < 4 ==> IsA(es[i].kind, Kind.Phase1) && es[i].kind != Kind.Phase1 && es[i].errorCode == DefaultCode(es[i].kind))
      && (forall i, j :: 0 <= i < j < 4 ==> es[i].errorCode != es[j].errorCode)
  {
    var es := [IssueError(a), BranchError(b), WorktreeError(c), PlansError(d)];
    forall i, j | 0 <= i < j < 4
      ensures es[i].errorCode != es[j].errorCode
    {
      DefaultCodesDistinct(es[i].kind, es[j].kind);
    }
  }

  // ---------------------------------------------------------------- the services

  /** What each service call returns: the number of the created issue, the name of
      the created branch, the path of the created worktree, or the text of the
      error raised; and the error, if any, of writing the `.plans` directory. */
  datatype Services = Services(
    issue: Result<int, string>,
    branch: Result<string, string>,
    worktree: Result<string, string>,
    plans: Option<string>)

  datatype Call =
    | CreateIssueCall(title: string, body: string, labels: seq<string>)
    | CreateStateCall(issueNumber: int, featureName: string)
    | TransitionCall(issueNumber: int, trigger: string)
    | CreateBranchCall(name: string)
    | CreateWorktreeCall(issueNumber: int, branchName: Option<string>)
    | InitPlansCall(issueNumber: int, worktreePath: Option<string>)

  /** Why a Phase 1 run stopped. */
  datatype Phase1Failure =
    | StepFailed(error: OrchestratorError)
      /** The state machine refused the fresh state of the new issue. */
    | StateRefused(reason: ValidationError)
      /** The state machine holds no state for the issue (an attribute read on `None`). */
    | NoStateFor(issueNumber: int)
      /** `assert state.branch_name is not None` failed. */
    | BranchNameUnset
      /** `assert state.worktree_path is not None` failed. */
    | WorktreePathUnset

  /** The artifact each step reports, given the state after the run. */
  function Artifact(step: string, n: int, s: OrchestratorState): string {
    if step == IssueStep then "issue#" + IntToString(n)
    else if step == BranchStep then "branch:" + s.branchName.GetOr("")
    else if step == WorktreeStep then "worktree:" + s.worktreePath.GetOr("")
    else ".plans/" + IntToString(n) + "/"
  }

  function Artifacts(steps: seq<string>, n: int, s: OrchestratorState): (r: seq<string>)
    ensures |r| == |steps| && forall i :: 0 <= i < |steps| ==> r[i] == Artifact(steps[i], n, s)
  {
    seq(|steps|, i requires 0 <= i < |steps| => Artifact(steps[i], n, s))
  }

  /** The later steps `execute_phase_1` runs on a state that records `base`: each
      one that is not recorded, in order. */
  function LaterSteps(base: seq<string>): seq<string> {
    StepIf(BranchStep !in base, BranchStep) + StepIf(WorktreeStep !in base, WorktreeStep) + StepIf(PlansStep !in base, PlansStep)
  }

  /** The steps `_execute_phase_1_steps` runs on a state that records `done`:
      each one that is not recorded and whose predecessor is recorded or has just
      run. */
  function ResumedSteps(done: seq<string>): seq<string> {
    var b := BranchStep !in done && IssueStep in done;
    var w := WorktreeStep !in done && (BranchStep in done || b);
    var p := PlansStep !in done && (WorktreeStep in done || w);
    StepIf(b, BranchStep) + StepIf(w, WorktreeStep) + StepIf(p, PlansStep)
  }

  /** On a state that records a prefix of the step order that includes the issue,
      both completions record every step exactly once, in order. */
  lemma StepsCompleteOrder(k: nat)
    requires 1 <= k <= 4
    ensures StepOrder[..k] + LaterSteps(StepOrder[..k]) == StepOrder
    ensures StepOrder[..k] + ResumedSteps(StepOrder[..k]) == StepOrder
  {
    if k == 1 {
      assert StepOrder[..1] == [IssueStep];
    } else if k == 2 {
      assert StepOrder[..2] == [IssueStep, BranchStep];
    } else if k == 3 {
      assert StepOrder[..3] == [IssueStep, BranchStep, WorktreeStep];
    } else {
      assert StepOrder[..4] == StepOrder;
    }
  }

  /** Whatever a state records, `execute_phase_1` adds every step it lacks and no
      step it has, so afterwards each of the four steps is recorded. */
  lemma LaterStepsFillGaps(base: seq<string>)
    requires IssueStep in base
    ensures forall s :: s in StepOrder ==> s in base + LaterSteps(base)
    ensures forall s :: s in LaterSteps(base) ==> s !in base
    ensures forall i, j :: 0 <= i < j < |LaterSteps(base)| ==> LaterSteps(base)[i] != LaterSteps(base)[j]
  {
  }

  /** Resuming runs a step exactly when it is not recorded and its predecessor is
      recorded or has just run: the issue is never created again, and nothing runs
      on a state that records none of the issue, the branch and the worktree. */
  lemma ResumeNeedsPredecessor(done: seq<string>)
    ensures var r := ResumedSteps(done);
      && (BranchStep in r <==> BranchStep !in done && IssueStep in done)
      && (WorktreeStep in r <==> WorktreeStep !in done && (BranchStep in done || BranchStep in r))
      && (PlansStep in r <==> PlansStep !in done && (WorktreeStep in done || WorktreeStep in r))
      && IssueStep !in r
      && (IssueStep !in done && BranchStep !in done && WorktreeStep !in done ==> r == [])
  {
  }

  /** A state that records the branch but not the issue is resumed from the
      worktree on: resuming checks each step's predecessor, not the issue. */
  lemma ResumeWithoutIssue()
    ensures ResumedSteps([BranchStep]) == [WorktreeStep, PlansStep]
  {
  }

  /** The stored state of a newly created issue once its issue step is recorded. */
  function StartedState(n: int, feature: string, now: int): (s: OrchestratorState)
    requires n > 0
    ensures ValidState(s) && s.issueNumber == n && s.featureName == feature && s.phase1Steps == [IssueStep]
    ensures s.branchName.None? && s.worktreePath.None? && s.currentState == Idle && s.history == []
  {
    NewState(n, feature, now, now).value.(phase1Steps := [IssueStep])
  }

  /** The calls of the issue step of `execute_phase_1` for issue `n`. */
  function IssueCalls(placeholder: Option<OrchestratorState>, req: Phase1Request, n: int, feature: string): seq<Call> {
    if RunsIssueStep(placeholder) then
      [CreateIssueCall(IssueTitle(req.featureDescription), req.featureDescription, req.labels),
       CreateStateCall(n, feature), TransitionCall(n, "phase_1_start")]
    else []
  }

  /** `execute_phase_1` creates the issue unless the placeholder state records it. */
  predicate RunsIssueStep(placeholder: Option<OrchestratorState>) {
    placeholder.None? || IssueStep !in placeholder.value.phase1Steps
  }

  /** The four step names are pairwise different. */
  lemma StepNamesDistinct()
    ensures IssueStep != BranchStep && IssueStep != WorktreeStep && IssueStep != PlansStep
    ensures BranchStep != WorktreeStep && BranchStep != PlansStep && WorktreeStep != PlansStep
  {
    assert IssueStep[0] != PlansStep[0];
  }

  /** The later steps are those the state does not record. */
  lemma LaterStepsMembers(base: seq<string>)
    ensures BranchStep in LaterSteps(base) <==> BranchStep !in base
    ensures WorktreeStep in LaterSteps(base) <==> WorktreeStep !in base
    ensures PlansStep in LaterSteps(base) <==> PlansStep !in base
  {
    StepNamesDistinct();
  }

  lemma ArtifactsAppend(a: seq<string>, b: seq<string>, n: int, s: OrchestratorState)
    ensures Artifacts(a + b, n, s) == Artifacts(a, n, s) + Artifacts(b, n, s)
  {
  }

  // ---------------------------------------------------------------- runs

  /** What a run of steps leaves behind: the last state it saved (or the state it
      started from, when it saved none), the steps it completed, the calls it
      made, and why it stopped early, if it did. */
  datatype StepRun = StepRun(state: OrchestratorState, steps: seq<string>, calls: seq<Call>, failure: Option<Phase1Failure>)

  /** A step that is skipped. */
  function Skipped(s: OrchestratorState): StepRun {
    StepRun(s, [], [], None)
  }

  /** `a`, then `b` from the state `a` left. */
  function Then(a: StepRun, b: StepRun): StepRun {
    StepRun(b.state, a.steps + b.steps, a.calls + b.calls, b.failure)
  }

  /** Creating the branch of the issue of `s`, and recording it on success. */
  function DoBranch(s: OrchestratorState, feature: string, outcome: Result<string, string>): StepRun {
    var c := [CreateBranchCall(BranchNameFor(s.issueNumber, feature))];
    if outcome.Err? then StepRun(s, [], c, Some(StepFailed(BranchError(outcome.error))))
    else StepRun(s.(branchName := Some(outcome.value), phase1Steps := s.phase1Steps + [BranchStep]), [BranchStep], c, None)
  }

  /** Creating the worktree of `branch`, and recording its path on success. */
  function DoWorktree(s: OrchestratorState, branch: Option<string>, outcome: Result<string, string>): StepRun {
    var c := [CreateWorktreeCall(s.issueNumber, branch)];
    if outcome.Err? then StepRun(s, [], c, Some(StepFailed(WorktreeError(outcome.error))))
    else StepRun(s.(worktreePath := Some(outcome.value), phase1Steps := s.phase1Steps + [WorktreeStep]), [WorktreeStep], c, None)
  }

  /** Writing `.plans/{issue}/` under `path`, and recording it on success. */
  function DoPlans(s: OrchestratorState, path: Option<string>, outcome: Option<string>): StepRun {
    var c := [InitPlansCall(s.issueNumber, path)];
    if path.None? then StepRun(s, [], c, Some(StepFailed(PlansError(NonePathError))))
    else if outcome.Some? then StepRun(s, [], c, Some(StepFailed(PlansError(outcome.value))))
    else StepRun(s.(phase1Steps := s.phase1Steps + [PlansStep]), [PlansStep], c, None)
  }

  /** The branch step of `execute_phase_1`, skipped when `s` records it. */
  function BranchPart(s: OrchestratorState, feature: string, out: Services): StepRun {
    if BranchStep in s.phase1Steps then Skipped(s) else DoBranch(s, feature, out.branch)
  }

  /** The worktree step of `execute_phase_1`, for the branch `s` names. */
  function WorktreePart(s: OrchestratorState, out: Services): StepRun {
    if WorktreeStep in s.phase1Steps then Skipped(s) else DoWorktree(s, s.branchName, out.worktree)
  }

  /** The plans step of `execute_phase_1`, under the worktree `s` names. */
  function PlansPart(s: OrchestratorState, out: Services): StepRun {
    if PlansStep in s.phase1Steps then Skipped(s) else DoPlans(s, s.worktreePath, out.plans)
  }

  /** Three steps in turn, each from the state the one before left, until one
      fails. */
  function Chain(b: StepRun, w: StepRun, p: StepRun): StepRun {
    if b.failure.Some? then b
    else if w.failure.Some? then Then(b, w)
    else Then(Then(b, w), p)
  }

  /** The branch, worktree and plans steps of `execute_phase_1` from the stored
      state `s`: each runs unless `s` records it, until one fails. */
  function RunLater(s: OrchestratorState, feature: string, out: Services): StepRun {
    var b := BranchPart(s, feature, out);
    var w := WorktreePart(b.state, out);
    Chain(b, w, PlansPart(w.state, out))
  }

  /** The branch step of `_execute_phase_1_steps`: run when `s` lacks it and
      records the issue. */
  function ResumeBranch(s: OrchestratorState, out: Services): StepRun {
    if BranchStep !in s.phase1Steps && IssueStep in s.phase1Steps then DoBranch(s, s.featureName, out.branch)
    else Skipped(s)
  }

  /** The worktree step of `_execute_phase_1_steps` on `s`, given the steps `done`
      recorded on entry: run when `done` lacks it and `s` records the branch. */
  function ResumeWorktree(done: seq<string>, s: OrchestratorState, out: Services): StepRun {
    if WorktreeStep !in done && BranchStep in s.phase1Steps then
      (if s.branchName.None? then StepRun(s, [], [], Some(BranchNameUnset))
       else DoWorktree(s, s.branchName, out.worktree))
    else Skipped(s)
  }

  /** The plans step of `_execute_phase_1_steps` on `s`, given the steps `done`
      recorded on entry: run when `done` lacks it and `s` records the worktree. */
  function ResumePlans(done: seq<string>, s: OrchestratorState, out: Services): StepRun {
    if PlansStep !in done && WorktreeStep in s.phase1Steps then
      (if s.worktreePath.None? then StepRun(s, [], [], Some(WorktreePathUnset))
       else DoPlans(s, s.worktreePath, out.plans))
    else Skipped(s)
  }

  /** `_execute_phase_1_steps` on `s`: nothing when four or more steps are
      recorded; otherwise the branch, worktree and plans steps in turn, until one
      fails. */
  function ResumeRun(s: OrchestratorState, out: Services): StepRun {
    if |s.phase1Steps| >= 4 then Skipped(s)
    else
      var b := ResumeBranch(s, out);
      var w := ResumeWorktree(s.phase1Steps, b.state, out);
      Chain(b, w, ResumePlans(s.phase1Steps, w.state, out))
  }

  /** A run keeps the issue and the feature of `s` and records, after the steps `s`
      records, exactly the steps it completes. */
  predicate Extends(s: OrchestratorState, run: StepRun) {
    && run.state.issueNumber == s.issueNumber && run.state.featureName == s.featureName
    && run.state.phase1Steps == s.phase1Steps + run.steps
  }

  /** A step run on `s` completes the step `x` or none, and fails exactly when it
      completes none. */
  predicate OneStep(s: OrchestratorState, run: StepRun, x: string) {
    && Extends(s, run)
    && (run.failure.None? ==> run.steps == [x])
    && (run.failure.Some? ==> run.steps == [])
  }

  lemma DoStepsExtend(s: OrchestratorState, feature: string, b: Option<string>, p: Option<string>, out: Services)
    ensures OneStep(s, DoBranch(s, feature, out.branch), BranchStep)
    ensures OneStep(s, DoWorktree(s, b, out.worktree), WorktreeStep)
    ensures OneStep(s, DoPlans(s, p, out.plans), PlansStep)
  {
  }

  lemma ThenExtends(s: OrchestratorState, a: StepRun, b: StepRun)
    requires Extends(s, a) && Extends(a.state, b)
    ensures Extends(s, Then(a, b))
  {
    assert s.phase1Steps + a.steps + b.steps == s.phase1Steps + (a.steps + b.steps);
  }

  /** The step `x` as a list when `c` holds. */
  function StepIf(c: bool, x: string): seq<string> {
    if c then [x] else []
  }

  /** A part run on `s` whose step `x` is due when `c` holds: it completes `x`
      exactly then, unless it fails, and it fails only when `x` is due. */
  predicate GatedShape(s: OrchestratorState, run: StepRun, x: string, c: bool) {
    && Extends(s, run)
    && (run.failure.None? ==> run.steps == StepIf(c, x))
    && (run.failure.Some? ==> run.steps == [] && c)
  }

  /** Each part of `execute_phase_1` is due when `s` lacks its step. */
  lemma PartsShape(s: OrchestratorState, feature: string, out: Services)
    ensures GatedShape(s, BranchPart(s, feature, out), BranchStep, BranchStep !in s.phase1Steps)
    ensures GatedShape(s, WorktreePart(s, out), WorktreeStep, WorktreeStep !in s.phase1Steps)
    ensures GatedShape(s, PlansPart(s, out), PlansStep, PlansStep !in s.phase1Steps)
  {
  }

  /** Each part of `_execute_phase_1_steps` is due when the steps `done` recorded on
      entry lack its step and `s` records its predecessor. */
  lemma ResumePartsShape(done: seq<string>, s: OrchestratorState, out: Services)
    ensures GatedShape(s, ResumeBranch(s, out), BranchStep, BranchStep !in s.phase1Steps && IssueStep in s.phase1Steps)
    ensures GatedShape(s, ResumeWorktree(done, s, out), WorktreeStep, WorktreeStep !in done && BranchStep in s.phase1Steps)
    ensures GatedShape(s, ResumePlans(done, s, out), PlansStep, PlansStep !in done && WorktreeStep in s.phase1Steps)
  {
  }

  /** After `y` is recorded or not, another step `x` is recorded as before, and `y`
      is recorded exactly when it was or has just been. */
  lemma RecordedAfter(x: string, base: seq<string>, y: string, c: bool)
    ensures x != y ==> (x in base + StepIf(c, y)) == (x in base)
    ensures (y in base + StepIf(c, y)) == (y in base || c)
  {
  }

  /** Three gated parts chained together complete every due step in order, or stop
      at the first failure having completed the due steps before it. */
  lemma {:induction false} ChainShape(s: OrchestratorState, b: StepRun, w: StepRun, p: StepRun,
                                      x: string, y: string, z: string, bc: bool, wc: bool, pc: bool)
    requires GatedShape(s, b, x, bc)
    requires b.failure.None? ==> GatedShape(b.state, w, y, wc)
    requires b.failure.None? && w.failure.None? ==> GatedShape(w.state, p, z, pc)
    ensures var run, all := Chain(b, w, p), StepIf(bc, x) + StepIf(wc, y) + StepIf(pc, z);
      && Extends(s, run)
      && (run.failure.None? ==> run.steps == all)
      && (run.failure.Some? ==> run.steps < all)
  {
    var all := StepIf(bc, x) + StepIf(wc, y) + StepIf(pc, z);
    if b.failure.Some? {
      assert all[..0] == [];
      return;
    }
    ThenExtends(s, b, w);
    if w.failure.Some? {
      assert all[..|b.steps|] == b.steps;
      return;
    }
    ThenExtends(s, Then(b, w), p);
    if p.failure.Some? {
      assert all[..|b.steps + w.steps|] == b.steps + w.steps;
    }
  }

  /** A run of the later steps keeps the issue and the feature, records exactly
      the steps it completes, and completes every step `s` lacks, in order, unless
      one fails, in which case it has completed the ones before it. */
  lemma {:induction false} RunLaterSteps(s: OrchestratorState, feature: string, out: Services)
    ensures var run, base := RunLater(s, feature, out), s.phase1Steps;
      && Extends(s, run)
      && (run.failure.None? ==> run.steps == LaterSteps(base))
      && (run.failure.Some? ==> run.steps < LaterSteps(base))
  {
    var base := s.phase1Steps;
    var bc, wc, pc := BranchStep !in base, WorktreeStep !in base, PlansStep !in base;
    StepNamesDistinct();
    var b := BranchPart(s, feature, out);
    PartsShape(s, feature, out);
    var w := WorktreePart(b.state, out);
    PartsShape(b.state, feature, out);
    var p := PlansPart(w.state, out);
    PartsShape(w.state, feature, out);
    if b.failure.None? {
      RecordedAfter(WorktreeStep, base, BranchStep, bc);
      RecordedAfter(PlansStep, base, BranchStep, bc);
      if w.failure.None? {
        RecordedAfter(PlansStep, base + b.steps, WorktreeStep, wc);
        assert w.state.phase1Steps == base + b.steps + w.steps;
      }
    }
    ChainShape(s, b, w, p, BranchStep, WorktreeStep, PlansStep, bc, wc, pc);
  }

  /** A run stops early only on one of the step errors of the branch, worktree and
      plans steps. */
  lemma RunLaterFailure(s: OrchestratorState, feature: string, out: Services)
    ensures var f := RunLater(s, feature, out).failure;
      f.Some? ==> (f.value.StepFailed? && f.value.error.kind in {BranchCreation, WorktreeCreation, PlansInitialization}
        && IsA(f.value.error.kind, Kind.Phase1))
  {
    Hierarchy(BranchCreation);
    Hierarchy(WorktreeCreation);
    Hierarchy(PlansInitialization);
  }

  /** A completed branch step named the branch `{issue}-{feature}` and stores the
      name the service returned; a completed worktree step stores its path. */
  lemma {:induction false} RunLaterNames(s: OrchestratorState, feature: string, out: Services)
    ensures var run := RunLater(s, feature, out);
      && (BranchStep in run.steps ==> (out.branch.Ok? && run.state.branchName == Some(out.branch.value)
            && CreateBranchCall(BranchNameFor(s.issueNumber, feature)) in run.calls))
      && (WorktreeStep in run.steps ==> out.worktree.Ok? && run.state.worktreePath == Some(out.worktree.value))
  {
    var b := BranchPart(s, feature, out);
    var w := WorktreePart(b.state, out);
    var p := PlansPart(w.state, out);
    PartsRecord(s, feature, out);
    PartsRecord(b.state, feature, out);
    PartsRecord(w.state, feature, out);
    assert RunLater(s, feature, out) == Chain(b, w, p);
    if b.failure.None? && w.failure.None? {
      assert b.calls <= b.calls + w.calls + p.calls;
    }
  }

  /** What each part of `execute_phase_1` records: the branch part the branch name
      the service returned, the worktree part the path; neither touches what the
      other records, and the plans part touches neither. */
  lemma PartsRecord(s: OrchestratorState, feature: string, out: Services)
    ensures var b := BranchPart(s, feature, out);
      && b.state.worktreePath == s.worktreePath && WorktreeStep !in b.steps
      && (BranchStep in b.steps ==> (out.branch.Ok? && b.state.branchName == Some(out.branch.value)
            && b.calls == [CreateBranchCall(BranchNameFor(s.issueNumber, feature))]))
    ensures var w := WorktreePart(s, out);
      && w.state.branchName == s.branchName && BranchStep !in w.steps
      && (WorktreeStep in w.steps ==> out.worktree.Ok? && w.state.worktreePath == Some(out.worktree.value))
    ensures var p := PlansPart(s, out);
      p.state.branchName == s.branchName && p.state.worktreePath == s.worktreePath
      && BranchStep !in p.steps && WorktreeStep !in p.steps
  {
    StepNamesDistinct();
    BranchPartRecords(s, feature, out);
    WorktreePartRecords(s, out);
  }

  lemma BranchPartRecords(s: OrchestratorState, feature: string, out: Services)
    requires WorktreeStep != BranchStep
    ensures var b := BranchPart(s, feature, out);
      && b.state.worktreePath == s.worktreePath && WorktreeStep !in b.steps
      && (BranchStep in b.steps ==> (out.branch.Ok? && b.state.branchName == Some(out.branch.value)
            && b.calls == [CreateBranchCall(BranchNameFor(s.issueNumber, feature))]))
  {
  }

  lemma WorktreePartRecords(s: OrchestratorState, out: Services)
    requires WorktreeStep != BranchStep
    ensures var w := WorktreePart(s, out);
      && w.state.branchName == s.branchName && BranchStep !in w.steps
      && (WorktreeStep in w.steps ==> out.worktree.Ok? && w.state.worktreePath == Some(out.worktree.value))
  {
  }

  /** On a new issue the run creates the branch, then the worktree for it, then
      the plans under it, and completes exactly when every service succeeds; the
      four steps are then recorded in order. */
  lemma RunLaterOnNewIssue(n: int, feature: string, now: int, out: Services)
    requires n > 0
    ensures var run := RunLater(StartedState(n, feature, now), feature, out);
      && (run.failure.None? <==> out.branch.Ok? && out.worktree.Ok? && out.plans.None?)
      && (run.failure.None? ==> [IssueStep] + run.steps == StepOrder && run.state.phase1Steps == StepOrder)
      && (out.branch.Ok? ==> run.calls[..2] == [CreateBranchCall(BranchNameFor(n, feature)),
                                                CreateWorktreeCall(n, Some(out.branch.value))])
  {
    StepNamesDistinct();
    RunLaterSteps(StartedState(n, feature, now), feature, out);
    StepsCompleteOrder(1);
  }

  /** A state that records every later step is left as it is, without a call. */
  lemma RunLaterNothingToDo(s: OrchestratorState, feature: string, out: Services)
    requires BranchStep in s.phase1Steps && WorktreeStep in s.phase1Steps && PlansStep in s.phase1Steps
    ensures RunLater(s, feature, out) == Skipped(s)
  {
  }

  /** Resuming keeps the issue and the feature, records exactly the steps it
      completes, does nothing on four or more recorded steps, and otherwise
      completes the steps it should, unless one fails, in which case it has
      completed the ones before it. */
  lemma {:induction false} ResumeRunSteps(s: OrchestratorState, out: Services)
    ensures var run, done := ResumeRun(s, out), s.phase1Steps;
      && Extends(s, run)
      && (|done| >= 4 ==> run == Skipped(s))
      && (|done| < 4 && run.failure.None? ==> run.steps == ResumedSteps(done))
      && (|done| < 4 && run.failure.Some? ==> run.steps < ResumedSteps(done))
  {
    var done := s.phase1Steps;
    if |done| >= 4 {
      assert done + [] == done;
      return;
    }
    StepNamesDistinct();
    var bc := BranchStep !in done && IssueStep in done;
    var wc := WorktreeStep !in done && (BranchStep in done || bc);
    var pc := PlansStep !in done && (WorktreeStep in done || wc);
    var b := ResumeBranch(s, out);
    ResumePartsShape(done, s, out);
    var w := ResumeWorktree(done, b.state, out);
    ResumePartsShape(done, b.state, out);
    var p := ResumePlans(done, w.state, out);
    ResumePartsShape(done, w.state, out);
    if b.failure.None? {
      RecordedAfter(WorktreeStep, done, BranchStep, bc);
      if w.failure.None? {
        RecordedAfter(PlansStep, done + b.steps, WorktreeStep, wc);
        assert w.state.phase1Steps == done + b.steps + w.steps;
      }
    }
    ChainShape(s, b, w, p, BranchStep, WorktreeStep, PlansStep, bc, wc, pc);
    assert ResumeRun(s, out) == Chain(b, w, p);
    assert ResumedSteps(done) == StepIf(bc, BranchStep) + StepIf(wc, WorktreeStep) + StepIf(pc, PlansStep);
  }

  /** Resuming stops on a step error only with one of the Phase 1 errors. */
  lemma ResumeRunFailure(s: OrchestratorState, out: Services)
    ensures var f := ResumeRun(s, out).failure;
      f.Some? && f.value.StepFailed? ==> (f.value.error.kind in {BranchCreation, WorktreeCreation, PlansInitialization}
        && IsA(f.value.error.kind, Kind.Phase1))
  {
    Hierarchy(BranchCreation);
    Hierarchy(WorktreeCreation);
    Hierarchy(PlansInitialization);
  }

  /** A state that records the branch step without a branch name stops the resume
      at the worktree step: the assertion the source relies on can fail. */
  lemma ResumeAssertionCanFail(out: Services)
    ensures var s := OrchestratorState(1, WorkflowState.Phase1, "f", None, None, [IssueStep, BranchStep], false, false, [], 0, 0);
      ResumeRun(s, out) == StepRun(s, [], [], Some(BranchNameUnset))
  {
    StepNamesDistinct();
  }

  /** Four recorded steps end the resume even when they are four copies of the
      issue step and nothing else has been done. */
  lemma ResumeCountsSteps(s: OrchestratorState, out: Services)
    requires s.phase1Steps == [IssueStep, IssueStep, IssueStep, IssueStep]
    ensures ResumeRun(s, out) == Skipped(s) && ResumedSteps(s.phase1Steps) == [BranchStep, WorktreeStep, PlansStep]
  {
    StepNamesDistinct();
  }

  /** The stored states after a run on the state of issue `i`: the state it saved
      last, if it completed a step. */
  function Saved(states: map<int, OrchestratorState>, i: int, run: StepRun): map<int, OrchestratorState> {
    if run.steps == [] then states else states[i := run.state]
  }

  lemma SavedThen(states: map<int, OrchestratorState>, i: int, a: StepRun, b: StepRun)
    requires b.steps == [] ==> b.state == a.state
    ensures Saved(Saved(states, i, a), i, b) == Saved(states, i, Then(a, b))
  {
    if a.steps != [] && b.steps != [] {
      assert states[i := a.state][i := b.state] == states[i := b.state];
    }
  }

  // ---------------------------------------------------------------- execute_phase_1

  /** What `execute_phase_1`, or its first part, returns, leaves stored, and calls. */
  datatype Outcome<T> = Outcome(result: Result<T, Phase1Failure>, states: map<int, OrchestratorState>, calls: seq<Call>)

  /** The issue step, unless the placeholder records it, and the lookup of the
      issue's stored state. */
  function StartSpec(req: Phase1Request, placeholder: Option<OrchestratorState>, out: Services, now: int,
                     states: map<int, OrchestratorState>): Outcome<int> {
    var feature := FeatureName(req);
    var c := CreateIssueCall(IssueTitle(req.featureDescription), req.featureDescription, req.labels);
    if RunsIssueStep(placeholder) then
      if out.issue.Err? then Outcome(Err(StepFailed(IssueError(out.issue.error))), states, [c])
      else if out.issue.value <= 0 then
        Outcome(Err(StateRefused(ValidationError(["issue_number"]))), states, [c, CreateStateCall(out.issue.value, feature)])
      else
        var n := out.issue.value;
        Outcome(Ok(n), states[n := StartedState(n, feature, now)], IssueCalls(placeholder, req, n, feature))
    else if placeholder.value.issueNumber !in states then Outcome(Err(NoStateFor(placeholder.value.issueNumber)), states, [])
    else Outcome(Ok(placeholder.value.issueNumber), states, [])
  }

  /** `execute_phase_1`: the start, then the later steps on the issue's stored
      state, then the move on to Phase 2; the result lists the steps completed
      in this call, each with its artifact. */
  function Phase1Spec(req: Phase1Request, placeholder: Option<OrchestratorState>, out: Services, now: int,
                      states: map<int, OrchestratorState>): Outcome<PhaseResult> {
    var start := StartSpec(req, placeholder, out, now, states);
    if start.result.Err? then Outcome(Err(start.result.error), start.states, start.calls)
    else
      var n, feature := start.result.value, FeatureName(req);
      var run := if n in start.states then RunLater(start.states[n], feature, out) else Skipped(StartedState(1, feature, now));
      var done := (if RunsIssueStep(placeholder) then [IssueStep] else []) + run.steps;
      var after := start.states[n := run.state];
      if run.failure.Some? then Outcome(Err(run.failure.value), after, start.calls + run.calls)
      else Outcome(Ok(PhaseResult(true, "phase_1", Artifacts(done, n, run.state), done, None)), after,
                   start.calls + run.calls + [TransitionCall(n, "phase_1_complete")])
  }

  /** A new request whose services all succeed creates the issue, its branch, its
      worktree and its plans, in that order, reports the four steps with their
      artifacts, and leaves the issue's state recording them. */
  lemma {:induction false} Phase1OnNewRequest(req: Phase1Request, out: Services, now: int, states: map<int, OrchestratorState>)
    requires out.issue.Ok? && out.issue.value > 0 && out.branch.Ok? && out.worktree.Ok? && out.plans.None?
    ensures var o, n, feature := Phase1Spec(req, None, out, now, states), out.issue.value, FeatureName(req);
      && o.result.Ok? && o.result.value.success && o.result.value.stepsCompleted == StepOrder
      && o.result.value.artifactsCreated == ["issue#" + IntToString(n), "branch:" + out.branch.value,
                                            "worktree:" + out.worktree.value, ".plans/" + IntToString(n) + "/"]
      && n in o.states && o.states[n].phase1Steps == StepOrder
      && o.states[n].branchName == Some(out.branch.value) && o.states[n].worktreePath == Some(out.worktree.value)
      && o.calls == [CreateIssueCall(IssueTitle(req.featureDescription), req.featureDescription, req.labels),
                     CreateStateCall(n, feature), TransitionCall(n, "phase_1_start"),
                     CreateBranchCall(BranchNameFor(n, feature)), CreateWorktreeCall(n, Some(out.branch.value)),
                     InitPlansCall(n, Some(out.worktree.value)), TransitionCall(n, "phase_1_complete")]
  {
    var n, feature := out.issue.value, FeatureName(req);
    StartOnNewRequest(req, out, now, states);
    RunLaterAllSucceed(n, feature, now, out);
    var steps := [IssueStep] + [BranchStep, WorktreeStep, PlansStep];
    assert steps == StepOrder;
    StepNamesDistinct();
  }

  /** The start of `execute_phase_1` on a new request whose issue is created. */
  lemma StartOnNewRequest(req: Phase1Request, out: Services, now: int, states: map<int, OrchestratorState>)
    requires out.issue.Ok? && out.issue.value > 0
    ensures var n, feature := out.issue.value, FeatureName(req);
      StartSpec(req, None, out, now, states) ==
        Outcome(Ok(n), states[n := StartedState(n, feature, now)],
                [CreateIssueCall(IssueTitle(req.featureDescription), req.featureDescription, req.labels),
                 CreateStateCall(n, feature), TransitionCall(n, "phase_1_start")])
  {
  }

  /** The later steps on a new issue whose services all succeed. */
  lemma RunLaterAllSucceed(n: int, feature: string, now: int, out: Services)
    requires n > 0 && out.branch.Ok? && out.worktree.Ok? && out.plans.None?
    ensures var s := StartedState(n, feature, now);
      RunLater(s, feature, out) ==
        StepRun(s.(branchName := Some(out.branch.value), worktreePath := Some(out.worktree.value), phase1Steps := StepOrder),
                [BranchStep, WorktreeStep, PlansStep],
                [CreateBranchCall(BranchNameFor(n, feature)), CreateWorktreeCall(n, Some(out.branch.value)),
                 InitPlansCall(n, Some(out.worktree.value))],
                None)
  {
    var s := StartedState(n, feature, now);
    StepNamesDistinct();
    var b := BranchPart(s, feature, out);
    var w := WorktreePart(b.state, out);
    var p := PlansPart(w.state, out);
    assert RunLater(s, feature, out) == Then(Then(b, w), p);
  }

  /** `execute_phase_1` stops only with one of the four step errors, with the
      refusal of a new issue's number when that is not positive, or when the issue
      the placeholder names has no stored state. */
  lemma Phase1Failures(req: Phase1Request, placeholder: Option<OrchestratorState>, out: Services, now: int,
                       states: map<int, OrchestratorState>)
    ensures var r := Phase1Spec(req, placeholder, out, now, states).result;
      && (r.Err? && r.error.StepFailed? ==> IsA(r.error.error.kind, Kind.Phase1) && r.error.error.kind != Kind.Phase1)
      && (r.Err? && r.error.StateRefused? <==> RunsIssueStep(placeholder) && out.issue.Ok? && out.issue.value <= 0)
      && (r.Err? && r.error.NoStateFor? <==> !RunsIssueStep(placeholder) && placeholder.value.issueNumber !in states)
      && (r.Err? ==> !r.error.BranchNameUnset? && !r.error.WorktreePathUnset?)
  {
    Hierarchy(IssueCreation);
    var start := StartSpec(req, placeholder, out, now, states);
    if start.result.Ok? {
      var n := start.result.value;
      assert n in start.states;
      RunLaterFailure(start.states[n], FeatureName(req), out);
    }
  }

  // ---------------------------------------------------------------- the executor

  class PhaseExecutor {
    /** The states the state machine holds, by issue number. */
    var states: map<int, OrchestratorState>
    /** The calls made to the services and the state machine, in order. */
    var calls: seq<Call>

    /** Every state is filed under its own issue number. */
    predicate Valid()
      reads this
    {
      forall n :: n in states ==> states[n].issueNumber == n
    }

    constructor(states0: map<int, OrchestratorState>)
      requires forall n :: n in states0 ==> states0[n].issueNumber == n
      ensures Valid() && states == states0 && calls == []
    {
      states := states0;
      calls := [];
    }

    /** `_save_state`. */
    method Save(s: OrchestratorState)
      requires Valid()
      modifies this
      ensures Valid() && states == old(states)[s.issueNumber := s] && calls == old(calls)
    {
      states := states[s.issueNumber := s];
    }

    /** `_create_issue`: asks GitHub for an issue titled by the description's first
        line, with the description as body. */
    method CreateIssue(description: string, labels: seq<string>, outcome: Result<int, string>)
      returns (r: Result<int, OrchestratorError>)
      modifies this
      ensures states == old(states) && calls == old(calls) + [CreateIssueCall(IssueTitle(description), description, labels)]
      ensures outcome.Ok? ==> r == Ok(outcome.value)
      ensures outcome.Err? ==> r == Err(IssueError(outcome.error))
    {
      var title := Take(Lines(Strip(description))[0], MaxTitleLength);
      calls := calls + [CreateIssueCall(title, description, labels)];
      if outcome.Err? {
        return Err(IssueError(outcome.error));
      }
      return Ok(outcome.value);
    }

    /** `_create_branch`: asks GitHub for the branch `{issue}-{feature}`. */
    method CreateBranch(issue: int, feature: string, outcome: Result<string, string>)
      returns (r: Result<string, OrchestratorError>)
      modifies this
      ensures states == old(states) && calls == old(calls) + [CreateBranchCall(BranchNameFor(issue, feature))]
      ensures outcome.Ok? ==> r == Ok(outcome.value)
      ensures outcome.Err? ==> r == Err(BranchError(outcome.error))
    {
      calls := calls + [CreateBranchCall(IntToString(issue) + "-" + feature)];
      if outcome.Err? {
        return Err(BranchError(outcome.error));
      }
      return Ok(outcome.value);
    }

    /** `_create_worktree`: asks the worktree service for a worktree of the branch. */
    method CreateWorktree(issue: int, branch: Option<string>, outcome: Result<string, string>)
      returns (r: Result<string, OrchestratorError>)
      modifies this
      ensures states == old(states) && calls == old(calls) + [CreateWorktreeCall(issue, branch)]
      ensures outcome.Ok? ==> r == Ok(outcome.value)
      ensures outcome.Err? ==> r == Err(WorktreeError(outcome.error))
    {
      calls := calls + [CreateWorktreeCall(issue, branch)];
      if outcome.Err? {
        return Err(WorktreeError(outcome.error));
      }
      return Ok(outcome.value);
    }

    /** `_initialize_plans`: writes `.plans/{issue}/` under the worktree; a path
        that was never set fails like a write that fails. */
    method InitializePlans(issue: int, path: Option<string>, outcome: Option<string>)
      returns (r: Result<(), OrchestratorError>)
      modifies this
      ensures states == old(states) && calls == old(calls) + [InitPlansCall(issue, path)]
      ensures path.None? ==> r == Err(PlansError(NonePathError))
      ensures path.Some? && outcome.Some? ==> r == Err(PlansError(outcome.value))
      ensures path.Some? && outcome.None? ==> r == Ok(())
    {
      calls := calls + [InitPlansCall(issue, path)];
      if path.None? {
        return Err(PlansError(NonePathError));
      }
      if outcome.Some? {
        return Err(PlansError(outcome.value));
      }
      return Ok(());
    }

    /** The issue step of `execute_phase_1`: create the issue, then its fresh state,
        move it to Phase 1 and record the step. Returns the new issue's number. */
    method IssueStage(req: Phase1Request, feature: string, outcome: Result<int, string>, now: int)
      returns (r: Result<int, Phase1Failure>)
      requires Valid()
      modifies this
      ensures Valid()
      ensures var c := CreateIssueCall(IssueTitle(req.featureDescription), req.featureDescription, req.labels);
        && (outcome.Err? ==> r == Err(StepFailed(IssueError(outcome.error))) && states == old(states) && calls == old(calls) + [c])
        && (outcome.Ok? && outcome.value <= 0 ==> (r == Err(StateRefused(ValidationError(["issue_number"]))) && states == old(states)
              && calls == old(calls) + [c, CreateStateCall(outcome.value, feature)]))
        && (outcome.Ok? && outcome.value > 0 ==> (r == Ok(outcome.value)
              && states == old(states)[outcome.value := StartedState(outcome.value, feature, now)]
              && calls == old(calls) + [c, CreateStateCall(outcome.value, feature), TransitionCall(outcome.value, "phase_1_start")]))
    {
      var created := CreateIssue(req.featureDescription, req.labels, outcome);
      if created.Err? {
        return Err(StepFailed(created.error));
      }
      var n := created.value;
      calls := calls + [CreateStateCall(n, feature)];
      var made := NewState(n, feature, now, now);
      if made.Err? {
        return Err(StateRefused(made.error));
      }
      states := states[n := made.value];
      calls := calls + [TransitionCall(n, "phase_1_start")];
      var state := states[n];
      state := state.(phase1Steps := state.phase1Steps + [IssueStep]);
      assert state == StartedState(n, feature, now);
      Save(state);
      return Ok(n);
    }

    /** The branch step on `state`: create the branch, record it in the state and
        save the state. */
    method BranchStage(state: OrchestratorState, feature: string, outcome: Result<string, string>)
      returns (r: Result<OrchestratorState, OrchestratorError>)
      requires Valid()
      modifies this
      ensures Valid()
      ensures var run := DoBranch(state, feature, outcome);
        && calls == old(calls) + run.calls
        && (run.failure.None? ==> r == Ok(run.state) && states == old(states)[state.issueNumber := run.state])
        && (run.failure.Some? ==> r.Err? && run.failure == Some(StepFailed(r.error)) && states == old(states))
    {
      var b := CreateBranch(state.issueNumber, feature, outcome);
      if b.Err? {
        return Err(b.error);
      }
      var after := state.(branchName := Some(b.value), phase1Steps := state.phase1Steps + [BranchStep]);
      Save(after);
      return Ok(after);
    }

    /** The worktree step on `state`, for the branch `branch`. */
    method WorktreeStage(state: OrchestratorState, branch: Option<string>, outcome: Result<string, string>)
      returns (r: Result<OrchestratorState, OrchestratorError>)
      requires Valid()
      modifies this
      ensures Valid()
      ensures var run := DoWorktree(state, branch, outcome);
        && calls == old(calls) + run.calls
        && (run.failure.None? ==> r == Ok(run.state) && states == old(states)[state.issueNumber := run.state])
        && (run.failure.Some? ==> r.Err? && run.failure == Some(StepFailed(r.error)) && states == old(states))
    {
      var w := CreateWorktree(state.issueNumber, branch, outcome);
      if w.Err? {
        return Err(w.error);
      }
      var after := state.(worktreePath := Some(w.value), phase1Steps := state.phase1Steps + [WorktreeStep]);
      Save(after);
      return Ok(after);
    }

    /** The plans step on `state`, under the worktree `path`. */
    method PlansStage(state: OrchestratorState, path: Option<string>, outcome: Option<string>)
      returns (r: Result<OrchestratorState, OrchestratorError>)
      requires Valid()
      modifies this
      ensures Valid()
      ensures var run := DoPlans(state, path, outcome);
        && calls == old(calls) + run.calls
        && (run.failure.None? ==> r == Ok(run.state) && states == old(states)[state.issueNumber := run.state])
        && (run.failure.Some? ==> r.Err? && run.failure == Some(StepFailed(r.error)) && states == old(states))
    {
      var p := InitializePlans(state.issueNumber, path, outcome);
      if p.Err? {
        return Err(p.error);
      }
      var after := state.(phase1Steps := state.phase1Steps + [PlansStep]);
      Save(after);
      return Ok(after);
    }

    /** A step of `execute_phase_1` on `state`, skipped when `state` records it:
        the run the part function describes, with the state saved when it
        completes. */
    method BranchPartStage(state: OrchestratorState, feature: string, out: Services) returns (run: StepRun)
      requires Valid() && state.issueNumber in states && states[state.issueNumber] == state
      modifies this
      ensures Valid() && run == BranchPart(state, feature, out) && calls == old(calls) + run.calls
      ensures states == old(states)[state.issueNumber := run.state]
    {
      if BranchStep in state.phase1Steps {
        assert states == states[state.issueNumber := state];
        return Skipped(state);
      }
      var b := BranchStage(state, feature, out.branch);
      if b.Err? {
        return StepRun(state, [], [CreateBranchCall(BranchNameFor(state.issueNumber, feature))], Some(StepFailed(b.error)));
      }
      return StepRun(b.value, [BranchStep], [CreateBranchCall(BranchNameFor(state.issueNumber, feature))], None);
    }

    method WorktreePartStage(state: OrchestratorState, out: Services) returns (run: StepRun)
      requires Valid() && state.issueNumber in states && states[state.issueNumber] == state
      modifies this
      ensures Valid() && run == WorktreePart(state, out) && calls == old(calls) + run.calls
      ensures states == old(states)[state.issueNumber := run.state]
    {
      if WorktreeStep in state.phase1Steps {
        assert states == states[state.issueNumber := state];
        return Skipped(state);
      }
      var w := WorktreeStage(state, state.branchName, out.worktree);
      if w.Err? {
        return StepRun(state, [], [CreateWorktreeCall(state.issueNumber, state.branchName)], Some(StepFailed(w.error)));
      }
      return StepRun(w.value, [WorktreeStep], [CreateWorktreeCall(state.issueNumber, state.branchName)], None);
    }

    method PlansPartStage(state: OrchestratorState, out: Services) returns (run: StepRun)
      requires Valid() && state.issueNumber in states && states[state.issueNumber] == state
      modifies this
      ensures Valid() && run == PlansPart(state, out) && calls == old(calls) + run.calls
      ensures states == old(states)[state.issueNumber := run.state]
    {
      if PlansStep in state.phase1Steps {
        assert states == states[state.issueNumber := state];
        return Skipped(state);
      }
      var p := PlansStage(state, state.worktreePath, out.plans);
      if p.Err? {
        return StepRun(state, [], [InitPlansCall(state.issueNumber, state.worktreePath)], Some(StepFailed(p.error)));
      }
      return StepRun(p.value, [PlansStep], [InitPlansCall(state.issueNumber, state.worktreePath)], None);
    }

    /** The branch, worktree and plans steps of `execute_phase_1` on the stored
        state of issue `n`, as `RunLater` describes them: the calls made, the
        state saved last, the steps completed, the failure that stopped them. */
    method LaterStages(n: int, feature: string, out: Services) returns (run: StepRun)
      requires Valid() && n in states
      modifies this
      ensures Valid() && run == RunLater(old(states)[n], feature, out)
      ensures calls == old(calls) + run.calls && states == old(states)[n := run.state]
    {
      var state := states[n];
      var b := BranchPartStage(state, feature, out);
      if b.failure.Some? {
        return b;
      }
      var w := WorktreePartStage(b.state, out);
      Collections.AppendAssoc(old(calls), b.calls, w.calls);
      if w.failure.Some? {
        return Then(b, w);
      }
      var p := PlansPartStage(w.state, out);
      Collections.AppendAssoc(old(calls), b.calls + w.calls, p.calls);
      return Then(Then(b, w), p);
    }

    /** The first part of `execute_phase_1`: the issue step unless the placeholder
        records it, then finding the issue's stored state. */
    method StartPhase1(req: Phase1Request, placeholder: Option<OrchestratorState>, out: Services, now: int)
      returns (r: Result<int, Phase1Failure>)
      requires Valid()
      modifies this
      ensures Valid()
      ensures var o := StartSpec(req, placeholder, out, now, old(states));
        r == o.result && states == o.states && calls == old(calls) + o.calls
      ensures r.Ok? ==> r.value in states
    {
      var feature := FeatureName(req);
      var n: int;
      if placeholder.None? || IssueStep !in placeholder.value.phase1Steps {
        var created := IssueStage(req, feature, out.issue, now);
        if created.Err? {
          return Err(created.error);
        }
        n := created.value;
      } else {
        n := placeholder.value.issueNumber;
      }
      if n !in states {
        return Err(NoStateFor(n));
      }
      return Ok(n);
    }

    /** `execute_phase_1`, as `Phase1Spec` describes it: its result, the states it
        leaves stored and the calls it makes. */
    method ExecutePhase1(req: Phase1Request, placeholder: Option<OrchestratorState>, out: Services, now: int)
      returns (r: Result<PhaseResult, Phase1Failure>)
      requires Valid()
      modifies this
      ensures Valid()
      ensures var o := Phase1Spec(req, placeholder, out, now, old(states));
        r == o.result && states == o.states && calls == old(calls) + o.calls
    {
      ghost var o := Phase1Spec(req, placeholder, out, now, states);
      ghost var c0, sc := calls, StartSpec(req, placeholder, out, now, states).calls;
      var artifacts: seq<string> := [];
      var stepsCompleted: seq<string> := [];
      var feature := FeatureName(req);
      var start := StartPhase1(req, placeholder, out, now);
      if start.Err? {
        return Err(start.error);
      }
      var n := start.value;
      if placeholder.None? || IssueStep !in placeholder.value.phase1Steps {
        artifacts := ["issue#" + IntToString(n)];
        stepsCompleted := [IssueStep];
      }
      ghost var mid := states;
      var later := LaterStages(n, feature, out);
      assert later == RunLater(mid[n], feature, out);
      Collections.AppendAssoc(c0, sc, later.calls);
      if later.failure.Some? {
        return Err(later.failure.value);
      }
      assert artifacts == Artifacts(stepsCompleted, n, later.state);
      ArtifactsAppend(stepsCompleted, later.steps, n, later.state);
      stepsCompleted := stepsCompleted + later.steps;
      artifacts := artifacts + Artifacts(later.steps, n, later.state);
      Collections.AppendAssoc(c0, sc + later.calls, [TransitionCall(n, "phase_1_complete")]);
      calls := calls + [TransitionCall(n, "phase_1_complete")];
      return Ok(PhaseResult(true, "phase_1", artifacts, stepsCompleted, None));
    }

    /** A step of `_execute_phase_1_steps` on `state`: the run the resume part
        function describes, with the state saved when it completes. */
    method ResumeBranchStage(state: OrchestratorState, out: Services) returns (run: StepRun)
      requires Valid()
      modifies this
      ensures Valid() && run == ResumeBranch(state, out) && calls == old(calls) + run.calls
      ensures run.state.issueNumber == state.issueNumber && states == Saved(old(states), state.issueNumber, run)
    {
      if BranchStep in state.phase1Steps || IssueStep !in state.phase1Steps {
        return Skipped(state);
      }
      var b := BranchStage(state, state.featureName, out.branch);
      if b.Err? {
        return StepRun(state, [], [CreateBranchCall(BranchNameFor(state.issueNumber, state.featureName))], Some(StepFailed(b.error)));
      }
      return StepRun(b.value, [BranchStep], [CreateBranchCall(BranchNameFor(state.issueNumber, state.featureName))], None);
    }

    method ResumeWorktreeStage(done: seq<string>, state: OrchestratorState, out: Services) returns (run: StepRun)
      requires Valid()
      modifies this
      ensures Valid() && run == ResumeWorktree(done, state, out) && calls == old(calls) + run.calls
      ensures run.state.issueNumber == state.issueNumber && states == Saved(old(states), state.issueNumber, run)
    {
      if WorktreeStep in done || BranchStep !in state.phase1Steps {
        return Skipped(state);
      }
      if state.branchName.None? {
        return StepRun(state, [], [], Some(BranchNameUnset));
      }
      var w := WorktreeStage(state, state.branchName, out.worktree);
      if w.Err? {
        return StepRun(state, [], [CreateWorktreeCall(state.issueNumber, state.branchName)], Some(StepFailed(w.error)));
      }
      return StepRun(w.value, [WorktreeStep], [CreateWorktreeCall(state.issueNumber, state.branchName)], None);
    }

    method ResumePlansStage(done: seq<string>, state: OrchestratorState, out: Services) returns (run: StepRun)
      requires Valid()
      modifies this
      ensures Valid() && run == ResumePlans(done, state, out) && calls == old(calls) + run.calls
      ensures run.state.issueNumber == state.issueNumber && states == Saved(old(states), state.issueNumber, run)
    {
      if PlansStep in done || WorktreeStep !in state.phase1Steps {
        return Skipped(state);
      }
      if state.worktreePath.None? {
        return StepRun(state, [], [], Some(WorktreePathUnset));
      }
      var p := PlansStage(state, state.worktreePath, out.plans);
      if p.Err? {
        return StepRun(state, [], [InitPlansCall(state.issueNumber, state.worktreePath)], Some(StepFailed(p.error)));
      }
      return StepRun(p.value, [PlansStep], [InitPlansCall(state.issueNumber, state.worktreePath)], None);
    }

    /** `_execute_phase_1_steps` on `state`, as `ResumeRun` describes it: the
        calls made, the state saved last, the steps completed, the failure that
        stopped them. The source changes the state passed in; here the changed
        state is returned, also when a step fails. */
    method ResumePhase1(state: OrchestratorState, out: Services)
      returns (r: Result<PhaseResult, Phase1Failure>, after: OrchestratorState)
      requires Valid()
      modifies this
      ensures Valid()
      ensures var run := ResumeRun(state, out);
        && after == run.state
        && calls == old(calls) + run.calls
        && states == Saved(old(states), state.issueNumber, run)
        && (r.Ok? <==> run.failure.None?)
        && (r.Ok? ==> r.value == PhaseResult(true, "phase_1", [], run.steps, None))
        && (r.Err? ==> run.failure == Some(r.error))
    {
      var completed := state.phase1Steps;
      if |completed| >= 4 {
        return Ok(PhaseResult(true, "phase_1", [], [], None)), state;
      }
      var b := ResumeBranchStage(state, out);
      if b.failure.Some? {
        return Err(b.failure.value), b.state;
      }
      var w := ResumeWorktreeStage(completed, b.state, out);
      Collections.AppendAssoc(old(calls), b.calls, w.calls);
      SavedThen(old(states), state.issueNumber, b, w);
      if w.failure.Some? {
        return Err(w.failure.value), w.state;
      }
      var p := ResumePlansStage(completed, w.state, out);
      Collections.AppendAssoc(old(calls), b.calls + w.calls, p.calls);
      SavedThen(old(states), state.issueNumber, Then(b, w), p);
      if p.failure.Some? {
        return Err(p.failure.value), p.state;
      }
      return Ok(PhaseResult(true, "phase_1", [], b.steps + w.steps + p.steps, None)), p.state;
    }
  }
}
