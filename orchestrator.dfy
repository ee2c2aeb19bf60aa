/**
 * The orchestrator: it creates features, advances them through the state
 * machine, runs what a newly entered phase asks for, and turns one poll of the
 * issues' comments into completion, approval and advance events. The phase
 * manager's comment posts are recorded as effects; the comments of each issue,
 * the handles the poller recognises, the clock, and the agent configuration
 * together with the outcome of launching an agent process are inputs.
 */
module Orchestrators {
  import opened Wrappers
  import opened Clock
  import opened Phases
  import opened FeatureStates
  import opened StateMachines
  import opened GitHubPollers
  import opened AgentDispatchers
  import opened StateStores
  import opened Collections
  import Text
  import opened PhaseManagers

  /** A comment the phase manager posts when a phase is entered. */
  datatype Effect =
    | SpecsRequested(issueNumber: int, branch: string, worktree: string)
    | ApprovalRequested(issueNumber: int)

  /** The body of each post. */
  function EffectBody(e: Effect): string {
    match e
    case SpecsRequested(n, branch, worktree) => KickoffBody(n, branch, worktree)
    case ApprovalRequested(n) => ApprovalRequestBody(n)
  }

  /** The update dictionaries `poll_for_updates` returns. */
  datatype Update =
    | PhaseAdvanced(issueNumber: int, phase: string)
    | AgentComplete(issueNumber: int, agentHandle: string, summary: string)
    | HumanApproval(issueNumber: int, approver: string)

  /** The exceptions that escape the orchestrator's operations. */
  datatype OrchestratorError =
    | MachineFailed(machineError: MachineError)
    | DispatchFailed(dispatchError: DispatchError)
    | LoadFailed(loadError: LoadError)

  /** Everything the orchestrator's operations change. */
  datatype Orch = Orch(files: map<int, StoredFile>, sessions: seq<Entry>, effects: seq<Effect>, lastPoll: map<int, Time>)

  /** What one poll sees of the outside world. */
  datatype Inputs = Inputs(comments: map<int, seq<Comment>>, handles: seq<string>, now: Time, launch: Launch,
                          account: string)

  /** The state an operation leaves behind, and its result or the exception it
      raised; what was done before an exception stays done. */
  datatype Run<T> = Run(o: Orch, out: Result<T, OrchestratorError>)

  function CommentsOf(input: Inputs, issue: int): seq<Comment> {
    if issue in input.comments then input.comments[issue] else []
  }

  function LastCheck(o: Orch, issue: int): Option<Time> {
    if issue in o.lastPoll then Some(o.lastPoll[issue]) else None
  }

  function SaveState(o: Orch, f: Feature): Orch {
    o.(files := o.files[f.issueNumber := Stored(f)])
  }

  /** `_execute_current_phase`: the specification phase posts its kickoff comment
      and dispatches the architect; the first gate posts an approval request. */
  function Execute(o: Orch, f: Feature, launch: Launch): Run<()> {
    if f.currentPhase == Phase2Specs then
      var posted := o.(effects := o.effects + [SpecsRequested(f.issueNumber, f.branchName, f.worktreePath)]);
      match Dispatched(posted.sessions, "duc", f.issueNumber, f.currentPhase, f.worktreePath, launch)
      case Err(e) => Run(posted, Err(DispatchFailed(e)))
      case Ok(sessions) => Run(posted.(sessions := sessions), Ok(()))
    else if f.currentPhase == Gate1Specs then
      Run(o.(effects := o.effects + [ApprovalRequested(f.issueNumber)]), Ok(()))
    else
      Run(o, Ok(()))
  }

  /** `_advance_to_next_phase`: whether it advanced, and the feature afterwards. */
  function AdvanceToNext(o: Orch, f: Feature, now: Time, launch: Launch): Run<(bool, Feature)> {
    if !MachineCanAdvance(f) then Run(o, Ok((false, f)))
    else match MachineAdvance(f, now)
      case Err(e) => Run(o, Err(MachineFailed(e)))
      case Ok((advanced, g)) =>
        if !advanced then Run(o, Ok((false, g)))
        else
          var e := Execute(SaveState(o, g), g, launch);
          Run(e.o, if e.out.Err? then Err(e.out.error) else Ok((true, g)))
  }

  /** `create_feature` given the state phase 1 produced. */
  function Creation(o: Orch, f: Feature, now: Time, launch: Launch): Run<Feature> {
    var a := AdvanceToNext(SaveState(o, f), f, now, launch);
    Run(a.o, if a.out.Err? then Err(a.out.error) else Ok(a.out.value.1))
  }

  /** The updates that follow a state change: the advance, if there was one, first. */
  function Announced(advanced: bool, issue: int, f: Feature, event: Update): seq<Update> {
    (if advanced then [PhaseAdvanced(issue, f.currentPhase.Name())] else []) + [event]
  }

  /** One completion of `poll_for_updates`. */
  function OnCompletion(o: Orch, f: Feature, c: Completion, issue: int, now: Time, launch: Launch): Run<(Feature, seq<Update>)> {
    var (accepted, g) := MachineAgentComplete(f, c.agentHandle, now);
    if !accepted then Run(o, Ok((f, [])))
    else
      var removed := o.(sessions := Without(o.sessions, SessionKey(c.agentHandle, issue)));
      var a := AdvanceToNext(SaveState(removed, g), g, now, launch);
      match a.out
      case Err(e) => Run(a.o, Err(e))
      case Ok((advanced, h)) =>
        Run(a.o, Ok((h, Announced(advanced, issue, h, AgentComplete(issue, c.agentHandle, c.summary)))))
  }

  /** One more completion handled after what came before, unless that raised. */
  function CompletionNext(r: Run<(Feature, seq<Update>)>, c: Completion, issue: int, now: Time, launch: Launch): Run<(Feature, seq<Update>)> {
    match r.out
    case Err(_) => r
    case Ok((g, ups)) =>
      var s := OnCompletion(r.o, g, c, issue, now, launch);
      match s.out
      case Err(e) => Run(s.o, Err(e))
      case Ok((h, more)) => Run(s.o, Ok((h, ups + more)))
  }

  /** The completions of one feature, handled in order on the evolving state. */
  function OnCompletions(o: Orch, f: Feature, cs: seq<Completion>, issue: int, now: Time, launch: Launch): Run<(Feature, seq<Update>)>
    decreases |cs|
  {
    if cs == [] then Run(o, Ok((f, [])))
    else CompletionNext(OnCompletions(o, f, cs[..|cs| - 1], issue, now, launch), cs[|cs| - 1], issue, now, launch)
  }

  /** The approval part of `poll_for_updates`: only features at a gate look for one. */
  function OnApproval(o: Orch, f: Feature, comments: seq<Comment>, issue: int, lastCheck: Option<Time>,
                      now: Time, launch: Launch): Run<(Feature, seq<Update>)>
  {
    if !f.currentPhase.IsGate() then Run(o, Ok((f, [])))
    else match LatestApproval(comments, issue, lastCheck)
      case None => Run(o, Ok((f, [])))
      case Some(approval) =>
        var g := MachineApproval(f, now).value.1;
        var a := AdvanceToNext(SaveState(o, g), g, now, launch);
        match a.out
        case Err(e) => Run(a.o, Err(e))
        case Ok((advanced, h)) =>
          Run(a.o, Ok((h, Announced(advanced, issue, h, HumanApproval(issue, approval.approver)))))
  }

  /** One feature's turn in `poll_for_updates`, ending with its poll time. */
  function FeatureTurn(o: Orch, f: Feature, input: Inputs): Run<seq<Update>> {
    var issue := f.issueNumber;
    var lastCheck := LastCheck(o, issue);
    var comments := CommentsOf(input, issue);
    var c := OnCompletions(o, f, Completions(comments, issue, lastCheck, input.handles), issue, input.now, input.launch);
    match c.out
    case Err(e) => Run(c.o, Err(e))
    case Ok((g, ups)) =>
      var a := OnApproval(c.o, g, comments, issue, lastCheck, input.now, input.launch);
      match a.out
      case Err(e) => Run(a.o, Err(e))
      case Ok((h, more)) => Run(a.o.(lastPoll := a.o.lastPoll[issue := input.now]), Ok(ups + more))
  }

  /** One more feature's turn after the earlier ones, unless one of them raised. */
  function PollNext(r: Run<seq<Update>>, f: Feature, input: Inputs): Run<seq<Update>> {
    match r.out
    case Err(_) => r
    case Ok(ups) =>
      var s := FeatureTurn(r.o, f, input);
      match s.out
      case Err(e) => Run(s.o, Err(e))
      case Ok(more) => Run(s.o, Ok(ups + more))
  }

  /** `poll_for_updates` over the listed features, in order; an exception ends it. */
  function PollAll(o: Orch, fs: seq<Feature>, input: Inputs): Run<seq<Update>>
    decreases |fs|
  {
    if fs == [] then Run(o, Ok([]))
    else PollNext(PollAll(o, fs[..|fs| - 1], input), fs[|fs| - 1], input)
  }

  /** `approve_gate`: whether the stored feature was at a gate, approved and advanced. */
  function GateApproval(o: Orch, n: int, now: Time, launch: Launch): Run<bool> {
    match LoadFrom(o.files, n)
    case Err(e) => Run(o, Err(LoadFailed(e)))
    case Ok(None) => Run(o, Ok(false))
    case Ok(Some(f)) =>
      if !f.currentPhase.IsGate() then Run(o, Ok(false))
      else
        var g := MachineApproval(f, now).value.1;
        var a := AdvanceToNext(SaveState(o, g), g, now, launch);
        Run(a.o, if a.out.Err? then Err(a.out.error) else Ok(a.out.value.0))
  }

  lemma OnCompletionsSnoc(o: Orch, f: Feature, cs: seq<Completion>, c: Completion, issue: int, now: Time, launch: Launch)
    ensures OnCompletions(o, f, cs + [c], issue, now, launch) ==
      CompletionNext(OnCompletions(o, f, cs, issue, now, launch), c, issue, now, launch)
  {
    TakeOfSnoc(cs, c);
  }

  lemma PollAllSnoc(o: Orch, fs: seq<Feature>, f: Feature, input: Inputs)
    ensures PollAll(o, fs + [f], input) == PollNext(PollAll(o, fs, input), f, input)
  {
    TakeOfSnoc(fs, f);
  }

  /** An exception ends the completions of a feature: later ones are not handled. */
  lemma {:induction false} OnCompletionsStopsAtError(o: Orch, f: Feature, cs: seq<Completion>, k: nat, issue: int, now: Time, launch: Launch)
    requires k <= |cs|
    requires OnCompletions(o, f, cs[..k], issue, now, launch).out.Err?
    ensures OnCompletions(o, f, cs, issue, now, launch) == OnCompletions(o, f, cs[..k], issue, now, launch)
    decreases |cs| - k
  {
    if k < |cs| {
      TakeSnoc(cs, k);
      OnCompletionsSnoc(o, f, cs[..k], cs[k], issue, now, launch);
      OnCompletionsStopsAtError(o, f, cs, k + 1, issue, now, launch);
    } else {
      TakeAll(cs);
    }
  }

  /** An exception ends the poll: later features are not polled. */
  lemma {:induction false} PollAllStopsAtError(o: Orch, fs: seq<Feature>, k: nat, input: Inputs)
    requires k <= |fs|
    requires PollAll(o, fs[..k], input).out.Err?
    ensures PollAll(o, fs, input) == PollAll(o, fs[..k], input)
    decreases |fs| - k
  {
    if k < |fs| {
      TakeSnoc(fs, k);
      PollAllSnoc(o, fs[..k], fs[k], input);
      PollAllStopsAtError(o, fs, k + 1, input);
    } else {
      TakeAll(fs);
    }
  }

  /** The loop step of `poll_for_updates`: one more feature's turn. */
  lemma PollStep(o: Orch, fs: seq<Feature>, i: nat, input: Inputs, before: Orch, ups: seq<Update>,
                 after: Orch, turn: Result<seq<Update>, OrchestratorError>)
    requires i < |fs|
    requires PollAll(o, fs[..i], input) == Run(before, Ok(ups))
    requires FeatureTurn(before, fs[i], input) == Run(after, turn)
    ensures PollAll(o, fs[..i + 1], input) ==
      if turn.Err? then Run(after, Err(turn.error)) else Run(after, Ok(ups + turn.value))
  {
    TakeSnoc(fs, i);
    PollAllSnoc(o, fs[..i], fs[i], input);
    PollNextOk(before, ups, fs[i], input, after, turn);
  }

  lemma PollNextOk(before: Orch, ups: seq<Update>, f: Feature, input: Inputs,
                   after: Orch, turn: Result<seq<Update>, OrchestratorError>)
    requires FeatureTurn(before, f, input) == Run(after, turn)
    ensures PollNext(Run(before, Ok(ups)), f, input) ==
      if turn.Err? then Run(after, Err(turn.error)) else Run(after, Ok(ups + turn.value))
  {
  }

  /** The loop step over a feature's completions. */
  lemma CompletionStep(o: Orch, f: Feature, cs: seq<Completion>, j: nat, issue: int, now: Time, launch: Launch,
                       before: Orch, g: Feature, ups: seq<Update>,
                       after: Orch, h: Feature, more: Result<seq<Update>, OrchestratorError>)
    requires j < |cs|
    requires OnCompletions(o, f, cs[..j], issue, now, launch) == Run(before, Ok((g, ups)))
    requires var run := OnCompletion(before, g, cs[j], issue, now, launch);
      after == run.o &&
      (run.out.Err? ==> more == Err(run.out.error)) &&
      (run.out.Ok? ==> more == Ok(run.out.value.1) && h == run.out.value.0)
    ensures more.Err? ==> OnCompletions(o, f, cs, issue, now, launch) == Run(after, Err(more.error))
    ensures more.Ok? ==> OnCompletions(o, f, cs[..j + 1], issue, now, launch) == Run(after, Ok((h, ups + more.value)))
  {
    TakeSnoc(cs, j);
    OnCompletionsSnoc(o, f, cs[..j], cs[j], issue, now, launch);
    if more.Err? {
      OnCompletionsStopsAtError(o, f, cs, j + 1, issue, now, launch);
    }
  }

  /** A feature's turn put together from its completions and its approval check. */
  lemma TurnParts(o: Orch, f: Feature, input: Inputs, mid: Orch, g: Feature, ups: seq<Update>,
                  after: Orch, h: Feature, more: Result<seq<Update>, OrchestratorError>)
    requires var issue := f.issueNumber;
      OnCompletions(o, f, Completions(CommentsOf(input, issue), issue, LastCheck(o, issue), input.handles),
                    issue, input.now, input.launch) == Run(mid, Ok((g, ups)))
    requires var run := OnApproval(mid, g, CommentsOf(input, f.issueNumber), f.issueNumber, LastCheck(o, f.issueNumber),
                                   input.now, input.launch);
      after == run.o &&
      (run.out.Err? ==> more == Err(run.out.error)) &&
      (run.out.Ok? ==> more == Ok(run.out.value.1) && h == run.out.value.0)
    ensures more.Err? ==> FeatureTurn(o, f, input) == Run(after, Err(more.error))
    ensures more.Ok? ==>
      FeatureTurn(o, f, input) == Run(after.(lastPoll := after.lastPoll[f.issueNumber := input.now]), Ok(ups + more.value))
  {
  }

  /** A feature's turn that ends within its completions. */
  lemma TurnFailsEarly(o: Orch, f: Feature, input: Inputs, after: Orch, e: OrchestratorError)
    requires var issue := f.issueNumber;
      OnCompletions(o, f, Completions(CommentsOf(input, issue), issue, LastCheck(o, issue), input.handles),
                    issue, input.now, input.launch) == Run(after, Err(e))
    ensures FeatureTurn(o, f, input) == Run(after, Err(e))
  {
  }

  // ---------------------------------------------------------------- properties

  /** Entering the specification phase dispatches the architect and nobody else,
      entering the first gate only posts, and every other phase does nothing. */
  lemma ExecuteOutcome(o: Orch, f: Feature, launch: Launch)
    ensures var r := Execute(o, f, launch);
      r.o.files == o.files && r.o.lastPoll == o.lastPoll &&
      (f.currentPhase == Phase2Specs ==>
        var key := SessionKey("duc", f.issueNumber);
        r.o.effects == o.effects + [SpecsRequested(f.issueNumber, f.branchName, f.worktreePath)] &&
        (Tracked(o.sessions, key) ==>
          r.out == Err(DispatchFailed(AlreadyDispatched("duc", f.issueNumber))) && r.o.sessions == o.sessions) &&
        (!Tracked(o.sessions, key) && "duc" !in launch.configured ==>
          r.out == Err(DispatchFailed(NotConfigured("duc"))) && r.o.sessions == o.sessions) &&
        (!Tracked(o.sessions, key) && "duc" in launch.configured && launch.process.Err? ==>
          r.out == Err(DispatchFailed(LaunchFailed(launch.process.error))) && r.o.sessions == o.sessions) &&
        (!Tracked(o.sessions, key) && "duc" in launch.configured && launch.process.Ok? ==>
          r.out.Ok? && |r.o.sessions| == |o.sessions| + 1 &&
          Lookup(r.o.sessions, key) == Some(AgentSession("duc", f.issueNumber, Phase2Specs, launch.process.value, f.worktreePath)) &&
          forall h, n :: (h, n) != ("duc", f.issueNumber) ==>
            Lookup(r.o.sessions, SessionKey(h, n)) == Lookup(o.sessions, SessionKey(h, n)))) &&
      (f.currentPhase == Gate1Specs ==>
        r == Run(o.(effects := o.effects + [ApprovalRequested(f.issueNumber)]), Ok(()))) &&
      (f.currentPhase != Phase2Specs && f.currentPhase != Gate1Specs ==> r == Run(o, Ok(())))
  {
    var key := SessionKey("duc", f.issueNumber);
    DucIsLower();
    if f.currentPhase == Phase2Specs && !Tracked(o.sessions, key) && "duc" in launch.configured && launch.process.Ok? {
      var e := Entry(key, AgentSession("duc", f.issueNumber, f.currentPhase, launch.process.value, f.worktreePath));
      LookupAppend(o.sessions, e, key);
      forall h, n | (h, n) != ("duc", f.issueNumber)
        ensures Lookup(o.sessions + [e], SessionKey(h, n)) == Lookup(o.sessions, SessionKey(h, n))
      {
        if SessionKey(h, n) == key {
          SessionKeyInjective(h, n, "duc", f.issueNumber);
        }
        LookupAppend(o.sessions, e, SessionKey(h, n));
      }
    }
  }

  /** The architect's handle is already lower case, so the configuration lookup
      asks for it as written. */
  lemma DucIsLower()
    ensures Text.Lower("duc") == "duc"
  {
    Text.LowerOfNoUpper("duc");
  }

  /** `_advance_to_next_phase` saves and executes nothing when the machine refuses;
      a final phase it is allowed to leave raises; otherwise the feature enters the
      next phase, is saved, and the new phase runs. */
  lemma AdvanceOutcome(o: Orch, f: Feature, now: Time, launch: Launch)
    ensures var r := AdvanceToNext(o, f, now, launch);
      (!MachineCanAdvance(f) ==> r == Run(o, Ok((false, f)))) &&
      (MachineCanAdvance(f) && f.currentPhase.NextPhase().None? ==>
        r == Run(o, Err(MachineFailed(CannotAdvanceFromFinal(f.currentPhase))))) &&
      (MachineCanAdvance(f) && f.currentPhase.NextPhase().Some? ==>
        var g := f.StartPhase(f.currentPhase.NextPhase().value, now);
        var e := Execute(SaveState(o, g), g, launch);
        r.o == e.o && (e.out.Ok? <==> r.out == Ok((true, g))))
  {
    if MachineCanAdvance(f) && f.currentPhase.NextPhase().Some? {
      assert f.CanAdvance();
    }
  }

  /** Whatever the outcome, a refusal reports false only when nothing changed. */
  lemma AdvanceFalseChangesNothing(o: Orch, f: Feature, now: Time, launch: Launch)
    ensures var r := AdvanceToNext(o, f, now, launch);
      r.out.Ok? && !r.out.value.0 ==> r.o == o && r.out.value.1 == f
  {
    AdvanceOutcome(o, f, now, launch);
  }

  /** The state phase 1 hands over: at setup, opened in the history with its (empty)
      agent table. */
  predicate FreshSetup(f: Feature) {
    WellFormed(f) && f.phaseHistory != [] && f.currentPhase == Phase1Setup
  }

  /** `create_feature` saves the new feature, moves it on to the specification phase,
      posts the kickoff and dispatches the architect. */
  lemma CreateFeatureAdvancesToSpecs(o: Orch, f: Feature, now: Time, launch: Launch)
    requires FreshSetup(f)
    ensures var r := Creation(o, f, now, launch);
      var g := f.StartPhase(Phase2Specs, now);
      var key := SessionKey("duc", f.issueNumber);
      r.o.files == o.files[f.issueNumber := Stored(g)] &&
      r.o.effects == o.effects + [SpecsRequested(f.issueNumber, f.branchName, f.worktreePath)] &&
      r.o.lastPoll == o.lastPoll &&
      (Tracked(o.sessions, key) ==> r.out == Err(DispatchFailed(AlreadyDispatched("duc", f.issueNumber)))) &&
      (!Tracked(o.sessions, key) && "duc" !in launch.configured ==>
        r.out == Err(DispatchFailed(NotConfigured("duc"))) && r.o.sessions == o.sessions) &&
      (!Tracked(o.sessions, key) && "duc" in launch.configured && launch.process.Err? ==>
        r.out == Err(DispatchFailed(LaunchFailed(launch.process.error))) && r.o.sessions == o.sessions) &&
      (!Tracked(o.sessions, key) && "duc" in launch.configured && launch.process.Ok? ==>
        r.out == Ok(g) && g.currentPhase == Phase2Specs &&
        Lookup(r.o.sessions, key) == Some(AgentSession("duc", f.issueNumber, Phase2Specs, launch.process.value, f.worktreePath)))
  {
    FreshSetupCanAdvance(f);
    CreationStores(o, f, now, launch);
    CreationDispatches(o, f, now, launch);
  }

  /** A feature fresh from setup has no agents left to wait for. */
  lemma FreshSetupCanAdvance(f: Feature)
    requires FreshSetup(f)
    ensures MachineCanAdvance(f)
  {
    var ps := f.phaseHistory[|f.phaseHistory| - 1];
    IsGateExactly(Phase1Setup);
    assert Handles(ps.activeAgents) == [];
    assert ps.activeAgents == [];
  }

  lemma CreationStores(o: Orch, f: Feature, now: Time, launch: Launch)
    requires MachineCanAdvance(f) && f.currentPhase == Phase1Setup
    ensures var r := Creation(o, f, now, launch);
      r.o.files == o.files[f.issueNumber := Stored(f.StartPhase(Phase2Specs, now))] &&
      r.o.effects == o.effects + [SpecsRequested(f.issueNumber, f.branchName, f.worktreePath)] &&
      r.o.lastPoll == o.lastPoll
  {
    var g := f.StartPhase(Phase2Specs, now);
    var saved := SaveState(o, f);
    AdvanceOutcome(saved, f, now, launch);
    ExecuteStores(SaveState(saved, g), g, launch);
    assert o.files[f.issueNumber := Stored(f)][f.issueNumber := Stored(g)] == o.files[f.issueNumber := Stored(g)];
  }

  lemma ExecuteStores(o: Orch, f: Feature, launch: Launch)
    ensures var r := Execute(o, f, launch);
      r.o.files == o.files && r.o.lastPoll == o.lastPoll &&
      (f.currentPhase == Phase2Specs ==> r.o.effects == o.effects + [SpecsRequested(f.issueNumber, f.branchName, f.worktreePath)])
  {
  }

  lemma CreationDispatches(o: Orch, f: Feature, now: Time, launch: Launch)
    requires MachineCanAdvance(f) && f.currentPhase == Phase1Setup
    ensures var r := Creation(o, f, now, launch);
      var g := f.StartPhase(Phase2Specs, now);
      var key := SessionKey("duc", f.issueNumber);
      (Tracked(o.sessions, key) ==> r.out == Err(DispatchFailed(AlreadyDispatched("duc", f.issueNumber)))) &&
      (!Tracked(o.sessions, key) && "duc" !in launch.configured ==>
        r.out == Err(DispatchFailed(NotConfigured("duc"))) && r.o.sessions == o.sessions) &&
      (!Tracked(o.sessions, key) && "duc" in launch.configured && launch.process.Err? ==>
        r.out == Err(DispatchFailed(LaunchFailed(launch.process.error))) && r.o.sessions == o.sessions) &&
      (!Tracked(o.sessions, key) && "duc" in launch.configured && launch.process.Ok? ==>
        r.out == Ok(g) && g.currentPhase == Phase2Specs &&
        Lookup(r.o.sessions, key) == Some(AgentSession("duc", f.issueNumber, Phase2Specs, launch.process.value, f.worktreePath)))
  {
    var g := f.StartPhase(Phase2Specs, now);
    var saved := SaveState(o, f);
    AdvanceOutcome(saved, f, now, launch);
    ExecuteOutcome(SaveState(saved, g), g, launch);
  }

  /** A completion by an agent the current phase does not assign changes nothing
      and reports nothing; an accepted one is reported after the advance it caused. */
  lemma CompletionOutcome(o: Orch, f: Feature, c: Completion, issue: int, now: Time, launch: Launch)
    ensures var r := OnCompletion(o, f, c, issue, now, launch);
      (c.agentHandle !in f.currentPhase.ActiveAgents() ==> r == Run(o, Ok((f, [])))) &&
      (c.agentHandle in f.currentPhase.ActiveAgents() && r.out.Ok? ==>
        var (h, ups) := r.out.value;
        var event := AgentComplete(issue, c.agentHandle, c.summary);
        (ups == [event] && h == f.MarkAgentComplete(c.agentHandle, None, None, now)) ||
        (ups == [PhaseAdvanced(issue, h.currentPhase.Name()), event] &&
         Some(h.currentPhase) == f.currentPhase.NextPhase()))
  {
    if c.agentHandle in f.currentPhase.ActiveAgents() {
      var g := f.MarkAgentComplete(c.agentHandle, None, None, now);
      assert g.currentPhase == f.currentPhase;
      var removed := o.(sessions := Without(o.sessions, SessionKey(c.agentHandle, issue)));
      var a := AdvanceToNext(SaveState(removed, g), g, now, launch);
      AdvanceOutcome(SaveState(removed, g), g, now, launch);
      if a.out.Ok? {
        if a.out.value.0 {
          assert a.out.value.1 == g.StartPhase(g.currentPhase.NextPhase().value, now);
        } else {
          assert a.out.value.1 == g;
        }
      }
    }
  }

  /** Outside gates no approval is looked for, and without an approving comment
      nothing happens either. */
  lemma ApprovalOnlyAtGates(o: Orch, f: Feature, comments: seq<Comment>, issue: int, lastCheck: Option<Time>,
                            now: Time, launch: Launch)
    ensures var r := OnApproval(o, f, comments, issue, lastCheck, now, launch);
      (!f.currentPhase.IsGate() || LatestApproval(comments, issue, lastCheck).None?) ==> r == Run(o, Ok((f, [])))
  {
  }

  /** Every reported advance is immediately followed by the event that caused it,
      for the same issue. */
  predicate AdvancesExplained(ups: seq<Update>) {
    forall i :: 0 <= i < |ups| && ups[i].PhaseAdvanced? ==>
      i + 1 < |ups| && !ups[i + 1].PhaseAdvanced? && ups[i + 1].issueNumber == ups[i].issueNumber
  }

  lemma AdvancesExplainedAppend(a: seq<Update>, b: seq<Update>)
    requires AdvancesExplained(a) && AdvancesExplained(b)
    ensures AdvancesExplained(a + b)
  {
    forall i | 0 <= i < |a + b| && (a + b)[i].PhaseAdvanced?
      ensures i + 1 < |a + b| && !(a + b)[i + 1].PhaseAdvanced? && (a + b)[i + 1].issueNumber == (a + b)[i].issueNumber
    {
      if i < |a| {
        assert a[i].PhaseAdvanced?;
      } else {
        assert b[i - |a|].PhaseAdvanced?;
      }
    }
  }

  lemma CompletionExplained(o: Orch, f: Feature, c: Completion, issue: int, now: Time, launch: Launch)
    ensures var r := OnCompletion(o, f, c, issue, now, launch);
      r.out.Ok? ==> AdvancesExplained(r.out.value.1)
  {
  }

  lemma {:induction false} CompletionsExplained(o: Orch, f: Feature, cs: seq<Completion>, issue: int, now: Time, launch: Launch)
    ensures var r := OnCompletions(o, f, cs, issue, now, launch);
      r.out.Ok? ==> AdvancesExplained(r.out.value.1)
    decreases |cs|
  {
    if cs != [] {
      var r := OnCompletions(o, f, cs[..|cs| - 1], issue, now, launch);
      CompletionsExplained(o, f, cs[..|cs| - 1], issue, now, launch);
      if r.out.Ok? {
        CompletionExplained(r.o, r.out.value.0, cs[|cs| - 1], issue, now, launch);
        var s := OnCompletion(r.o, r.out.value.0, cs[|cs| - 1], issue, now, launch);
        if s.out.Ok? {
          AdvancesExplainedAppend(r.out.value.1, s.out.value.1);
        }
      }
    }
  }

  lemma FeatureExplained(o: Orch, f: Feature, input: Inputs)
    ensures var r := FeatureTurn(o, f, input);
      r.out.Ok? ==> AdvancesExplained(r.out.value)
  {
    var issue := f.issueNumber;
    var lastCheck := LastCheck(o, issue);
    var comments := CommentsOf(input, issue);
    var cs := Completions(comments, issue, lastCheck, input.handles);
    CompletionsExplained(o, f, cs, issue, input.now, input.launch);
    var c := OnCompletions(o, f, cs, issue, input.now, input.launch);
    if c.out.Ok? {
      var a := OnApproval(c.o, c.out.value.0, comments, issue, lastCheck, input.now, input.launch);
      ApprovalExplained(c.o, c.out.value.0, comments, issue, lastCheck, input.now, input.launch);
      if a.out.Ok? {
        AdvancesExplainedAppend(c.out.value.1, a.out.value.1);
      }
    }
  }

  lemma ApprovalExplained(o: Orch, f: Feature, comments: seq<Comment>, issue: int, lastCheck: Option<Time>,
                          now: Time, launch: Launch)
    ensures var r := OnApproval(o, f, comments, issue, lastCheck, now, launch);
      r.out.Ok? ==> AdvancesExplained(r.out.value.1)
  {
  }

  /** In a poll's updates, every `phase_advanced` comes right before the
      `agent_complete` or `human_approval` of the same issue that caused it. */
  lemma {:induction false} PollUpdatesExplained(o: Orch, fs: seq<Feature>, input: Inputs)
    ensures var r := PollAll(o, fs, input);
      r.out.Ok? ==> AdvancesExplained(r.out.value)
    decreases |fs|
  {
    if fs != [] {
      var r := PollAll(o, fs[..|fs| - 1], input);
      PollUpdatesExplained(o, fs[..|fs| - 1], input);
      if r.out.Ok? {
        FeatureExplained(r.o, fs[|fs| - 1], input);
        var s := FeatureTurn(r.o, fs[|fs| - 1], input);
        if s.out.Ok? {
          AdvancesExplainedAppend(r.out.value, s.out.value);
        }
      }
    }
  }

  // Poll times are only written at the end of a feature's turn.

  lemma ExecuteKeepsLastPoll(o: Orch, f: Feature, launch: Launch)
    ensures Execute(o, f, launch).o.lastPoll == o.lastPoll
  {
  }

  lemma AdvanceKeepsLastPoll(o: Orch, f: Feature, now: Time, launch: Launch)
    ensures AdvanceToNext(o, f, now, launch).o.lastPoll == o.lastPoll
  {
    if MachineCanAdvance(f) {
      match MachineAdvance(f, now)
      case Err(_) =>
      case Ok((advanced, g)) =>
        if advanced {
          ExecuteKeepsLastPoll(SaveState(o, g), g, launch);
        }
    }
  }

  lemma {:induction false} CompletionsKeepLastPoll(o: Orch, f: Feature, cs: seq<Completion>, issue: int, now: Time, launch: Launch)
    ensures OnCompletions(o, f, cs, issue, now, launch).o.lastPoll == o.lastPoll
    decreases |cs|
  {
    if cs != [] {
      var r := OnCompletions(o, f, cs[..|cs| - 1], issue, now, launch);
      CompletionsKeepLastPoll(o, f, cs[..|cs| - 1], issue, now, launch);
      if r.out.Ok? {
        var g := r.out.value.0;
        var c := cs[|cs| - 1];
        var (accepted, g1) := MachineAgentComplete(g, c.agentHandle, now);
        if accepted {
          var removed := r.o.(sessions := Without(r.o.sessions, SessionKey(c.agentHandle, issue)));
          AdvanceKeepsLastPoll(SaveState(removed, g1), g1, now, launch);
        }
      }
    }
  }

  lemma ApprovalKeepsLastPoll(o: Orch, f: Feature, comments: seq<Comment>, issue: int, lastCheck: Option<Time>,
                              now: Time, launch: Launch)
    ensures OnApproval(o, f, comments, issue, lastCheck, now, launch).o.lastPoll == o.lastPoll
  {
    if f.currentPhase.IsGate() && LatestApproval(comments, issue, lastCheck).Some? {
      var g := MachineApproval(f, now).value.1;
      AdvanceKeepsLastPoll(SaveState(o, g), g, now, launch);
    }
  }

  /** A feature's turn that completes sets its poll time to the clock and no other. */
  lemma PollFeatureSetsLastPoll(o: Orch, f: Feature, input: Inputs)
    ensures var r := FeatureTurn(o, f, input);
      r.out.Ok? ==> r.o.lastPoll == o.lastPoll[f.issueNumber := input.now]
  {
    var issue := f.issueNumber;
    var lastCheck := LastCheck(o, issue);
    var comments := CommentsOf(input, issue);
    var cs := Completions(comments, issue, lastCheck, input.handles);
    CompletionsKeepLastPoll(o, f, cs, issue, input.now, input.launch);
    var c := OnCompletions(o, f, cs, issue, input.now, input.launch);
    if c.out.Ok? {
      ApprovalKeepsLastPoll(c.o, c.out.value.0, comments, issue, lastCheck, input.now, input.launch);
    }
  }

  /** The poll times after polling `fs`: each polled issue's is `now`, and every
      issue not polled keeps the one it had. */
  predicate PollTimesAfter(before: map<int, Time>, after: map<int, Time>, fs: seq<Feature>, now: Time) {
    (forall k :: 0 <= k < |fs| ==> fs[k].issueNumber in after && after[fs[k].issueNumber] == now) &&
    (forall n :: n in before && (forall k :: 0 <= k < |fs| ==> fs[k].issueNumber != n) ==>
      n in after && after[n] == before[n])
  }

  lemma PollTimesSnoc(m0: map<int, Time>, m1: map<int, Time>, front: seq<Feature>, f: Feature, now: Time)
    requires PollTimesAfter(m0, m1, front, now)
    ensures PollTimesAfter(m0, m1[f.issueNumber := now], front + [f], now)
  {
    var fs := front + [f];
    var m2 := m1[f.issueNumber := now];
    forall n | n in m0 && (forall k :: 0 <= k < |fs| ==> fs[k].issueNumber != n)
      ensures n in m2 && m2[n] == m0[n]
    {
      forall k | 0 <= k < |front|
        ensures front[k].issueNumber != n
      {
        assert front[k] == fs[k];
      }
      assert fs[|front|] == f;
      assert n != f.issueNumber;
    }
    forall k | 0 <= k < |fs|
      ensures fs[k].issueNumber in m2 && m2[fs[k].issueNumber] == now
    {
      if k < |front| {
        assert fs[k] == front[k];
      }
    }
  }

  /** One more turn that completes sets the turn's issue's poll time. */
  lemma PollNextLastPoll(r: Run<seq<Update>>, f: Feature, input: Inputs)
    ensures var s := PollNext(r, f, input);
      s.out.Ok? ==> r.out.Ok? && s.o.lastPoll == r.o.lastPoll[f.issueNumber := input.now]
  {
    if r.out.Ok? {
      PollFeatureSetsLastPoll(r.o, f, input);
    }
  }

  /** After a poll that completes, each polled feature's poll time is the clock, and
      the poll times of issues that were not polled are as before. */
  lemma {:induction false} PollSetsLastPoll(o: Orch, fs: seq<Feature>, input: Inputs)
    ensures var r := PollAll(o, fs, input);
      r.out.Ok? ==> PollTimesAfter(o.lastPoll, r.o.lastPoll, fs, input.now)
    decreases |fs|
  {
    if fs != [] {
      var front, f := fs[..|fs| - 1], fs[|fs| - 1];
      var r := PollAll(o, front, input);
      PollSetsLastPoll(o, front, input);
      SplitLast(fs);
      PollAllSnoc(o, front, f, input);
      PollNextLastPoll(r, f, input);
      if PollAll(o, fs, input).out.Ok? {
        PollTimesSnoc(o.lastPoll, r.o.lastPoll, front, f, input.now);
      }
    }
  }

  lemma QuietTurn(o: Orch, f: Feature, input: Inputs)
    requires CommentsOf(input, f.issueNumber) == []
    ensures FeatureTurn(o, f, input) == Run(o.(lastPoll := o.lastPoll[f.issueNumber := input.now]), Ok([]))
  {
    var lastCheck := LastCheck(o, f.issueNumber);
    assert Completions([], f.issueNumber, lastCheck, input.handles) == [];
    assert OnCompletions(o, f, [], f.issueNumber, input.now, input.launch) == Run(o, Ok((f, [])));
    assert LatestApproval([], f.issueNumber, lastCheck).None?;
    assert OnApproval(o, f, [], f.issueNumber, lastCheck, input.now, input.launch) == Run(o, Ok((f, [])));
    var e: seq<Update> := [];
    assert e + e == [];
  }

  /** Without comments a poll reports nothing and changes nothing but poll times. */
  lemma {:induction false} NoCommentsNoUpdates(o: Orch, fs: seq<Feature>, input: Inputs)
    requires forall n :: n in input.comments ==> input.comments[n] == []
    ensures var r := PollAll(o, fs, input);
      r.out == Ok([]) && r.o.files == o.files && r.o.sessions == o.sessions && r.o.effects == o.effects
    decreases |fs|
  {
    if fs != [] {
      var front, f := fs[..|fs| - 1], fs[|fs| - 1];
      SplitLast(fs);
      PollAllSnoc(o, front, f, input);
      NoCommentsNoUpdates(o, front, input);
      var r := PollAll(o, front, input);
      assert CommentsOf(input, f.issueNumber) == [];
      QuietTurn(r.o, f, input);
    }
  }

  /** `approve_gate` reports false for a missing state and outside gates, and the
      error of a state file that does not parse. */
  lemma ApproveGateRefusals(o: Orch, n: int, now: Time, launch: Launch)
    ensures n !in o.files ==> GateApproval(o, n, now, launch) == Run(o, Ok(false))
    ensures n in o.files && o.files[n].Corrupt? ==> GateApproval(o, n, now, launch) == Run(o, Err(LoadFailed(InvalidStateFile(n))))
    ensures n in o.files && o.files[n].Stored? && !o.files[n].state.currentPhase.IsGate() ==>
      GateApproval(o, n, now, launch) == Run(o, Ok(false))
  {
  }

  /** Approving the specification gate records the approval and moves the feature to
      the planning phase, which posts nothing. */
  lemma ApproveSpecsGate(o: Orch, n: int, now: Time, launch: Launch)
    requires FilesNamedByIssue(o.files)
    requires n in o.files && o.files[n].Stored?
    requires o.files[n].state.currentPhase == Gate1Specs && o.files[n].state.phaseHistory != []
    ensures var r := GateApproval(o, n, now, launch);
      var f := o.files[n].state;
      var m := |f.phaseHistory|;
      r.out == Ok(true) && n in r.o.files && r.o.files[n].Stored? &&
      r.o.files[n].state.currentPhase == Phase3Plans &&
      |r.o.files[n].state.phaseHistory| == m + 1 &&
      r.o.files[n].state.phaseHistory[m - 1].phase == f.phaseHistory[m - 1].phase &&
      r.o.files[n].state.phaseHistory[m - 1].humanApproved &&
      r.o.sessions == o.sessions && r.o.effects == o.effects
  {
    var f := o.files[n].state;
    var m := |f.phaseHistory|;
    var g := f.ApproveGate(now);
    IsGateExactly(Gate1Specs);
    ApproveGateEffect(f, now);
    assert MachineCanAdvance(g);
    var h := g.StartPhase(Phase3Plans, now);
    AdvanceOutcome(SaveState(o, g), g, now, launch);
    ExecuteOutcome(SaveState(SaveState(o, g), h), h, launch);
    assert h.phaseHistory[..m][m - 1] == h.phaseHistory[m - 1];
  }

  // ---------------------------------------------------------------- the second fetch

  /** The comments a turn's posts add to one issue, in the order they were posted,
      each written by the orchestrator's account at the poll's clock reading;
      `render` gives each post's body (its id is not modelled). */
  function PostedOn(effects: seq<Effect>, issue: int, account: string, now: Time, render: Effect -> string)
    : (r: seq<Comment>)
    ensures |r| <= |effects|
    ensures forall j :: 0 <= j < |r| ==> r[j].author == account && r[j].createdAt == now
    decreases |effects|
  {
    if effects == [] then []
    else
      var e := effects[|effects| - 1];
      PostedOn(effects[..|effects| - 1], issue, account, now, render) +
      (if e.issueNumber == issue then [Comment("", account, now, render(e))] else [])
  }

  /** A post on the issue that comes last is the newest comment added. */
  lemma PostedOnLast(effects: seq<Effect>, issue: int, account: string, now: Time, render: Effect -> string)
    requires effects != [] && effects[|effects| - 1].issueNumber == issue
    ensures var r := PostedOn(effects, issue, account, now, render);
      r != [] && r[|r| - 1] == Comment("", account, now, render(effects[|effects| - 1]))
  {
  }

  /** A run only ever adds posts to the ones already made. */
  lemma ExecuteExtendsEffects(o: Orch, f: Feature, launch: Launch)
    ensures o.effects <= Execute(o, f, launch).o.effects
  {
  }

  lemma AdvanceExtendsEffects(o: Orch, f: Feature, now: Time, launch: Launch)
    ensures o.effects <= AdvanceToNext(o, f, now, launch).o.effects
  {
    if MachineCanAdvance(f) {
      match MachineAdvance(f, now)
      case Err(_) =>
      case Ok((advanced, g)) =>
        if advanced {
          ExecuteExtendsEffects(SaveState(o, g), g, launch);
        }
    }
  }

  lemma {:induction false} CompletionsExtendEffects(o: Orch, f: Feature, cs: seq<Completion>, issue: int, now: Time,
                                                    launch: Launch)
    ensures o.effects <= OnCompletions(o, f, cs, issue, now, launch).o.effects
    decreases |cs|
  {
    if cs != [] {
      var r := OnCompletions(o, f, cs[..|cs| - 1], issue, now, launch);
      CompletionsExtendEffects(o, f, cs[..|cs| - 1], issue, now, launch);
      if r.out.Ok? {
        var g := r.out.value.0;
        var c := cs[|cs| - 1];
        var (accepted, g1) := MachineAgentComplete(g, c.agentHandle, now);
        if accepted {
          var removed := r.o.(sessions := Without(r.o.sessions, SessionKey(c.agentHandle, issue)));
          AdvanceExtendsEffects(SaveState(removed, g1), g1, now, launch);
        }
      }
    }
  }

  /** One feature's turn as `poll_for_updates` runs it: `poll_for_approval` fetches
      the issue's comments a second time, after the completions were handled, so
      it also sees the comments those completions made the phase manager post. */
  function FeatureTurnAsWritten(o: Orch, f: Feature, input: Inputs): Run<seq<Update>> {
    var issue := f.issueNumber;
    var lastCheck := LastCheck(o, issue);
    var comments := CommentsOf(input, issue);
    var cs := Completions(comments, issue, lastCheck, input.handles);
    var c := OnCompletions(o, f, cs, issue, input.now, input.launch);
    match c.out
    case Err(e) => Run(c.o, Err(e))
    case Ok((g, ups)) =>
      CompletionsExtendEffects(o, f, cs, issue, input.now, input.launch);
      var refetched := comments + PostedOn(c.o.effects[|o.effects|..], issue, input.account, input.now, EffectBody);
      var a := OnApproval(c.o, g, refetched, issue, lastCheck, input.now, input.launch);
      match a.out
      case Err(e) => Run(a.o, Err(e))
      case Ok((h, more)) => Run(a.o.(lastPoll := a.o.lastPoll[issue := input.now]), Ok(ups + more))
  }

  /** The Gate 1 request names the words that approve, so it holds one itself. */
  lemma RequestApproves(n: int)
    ensures IsApproval(EffectBody(ApprovalRequested(n)))
  {
    ApprovalRequestSaysApprove(n);
  }

  /** The phase the first gate leads to. */
  lemma GateOneLeadsToPlans(g: Feature, now: Time)
    requires g.currentPhase == Gate1Specs && g.phaseHistory != []
    ensures var h := MachineApproval(g, now).value.1;
      MachineCanAdvance(h) && MachineAdvance(h, now) == Ok((true, h.StartPhase(Phase3Plans, now))) &&
      h.issueNumber == g.issueNumber
  {
    var h := g.ApproveGate(now);
    IsGateExactly(Gate1Specs);
    ApproveGateEffect(g, now);
    assert MachineCanAdvance(h);
  }

  /** The second fetch ends with the request just posted, so when its body
      approves it is the approval `poll_for_approval` reports. */
  lemma RefetchFindsRequest(comments: seq<Comment>, posted: seq<Effect>, issue: int, account: string, now: Time,
                            lastCheck: Option<Time>, render: Effect -> string)
    requires posted != [] && posted[|posted| - 1] == ApprovalRequested(issue)
    requires IsApproval(render(ApprovalRequested(issue)))
    requires lastCheck.None? || lastCheck.value < now
    ensures LatestApproval(comments + PostedOn(posted, issue, account, now, render), issue, lastCheck) ==
      Some(Approval(issue, now, account))
  {
    var added := PostedOn(posted, issue, account, now, render);
    var refetched := comments + added;
    var last := |refetched| - 1;
    PostedOnLast(posted, issue, account, now, render);
    assert refetched[last] == added[|added| - 1];
    assert Approves(refetched[last], lastCheck);
    assert LatestApprovalBelow(refetched, lastCheck, |refetched|) == Some(last);
  }

  /** An approval found at the first gate opens it and enters the planning phase,
      which posts nothing. */
  lemma ApprovalOpensGateOne(o: Orch, g: Feature, comments: seq<Comment>, issue: int, lastCheck: Option<Time>,
                             now: Time, launch: Launch, approval: Approval)
    requires g.currentPhase == Gate1Specs && g.phaseHistory != []
    requires LatestApproval(comments, issue, lastCheck) == Some(approval)
    ensures var r := OnApproval(o, g, comments, issue, lastCheck, now, launch);
      r.out.Ok? && r.out.value.1 == [PhaseAdvanced(issue, Phase3Plans.Name()), HumanApproval(issue, approval.approver)] &&
      g.issueNumber in r.o.files && r.o.files[g.issueNumber] == Stored(r.out.value.0) &&
      r.out.value.0.currentPhase == Phase3Plans
  {
    GateOneLeadsToPlans(g, now);
    var h := MachineApproval(g, now).value.1;
    AdvanceIntoPlans(SaveState(o, h), h, now, launch);
  }

  /** Advancing into the planning phase saves the feature and posts nothing. */
  lemma AdvanceIntoPlans(o: Orch, h: Feature, now: Time, launch: Launch)
    requires MachineCanAdvance(h) && MachineAdvance(h, now) == Ok((true, h.StartPhase(Phase3Plans, now)))
    ensures var k := h.StartPhase(Phase3Plans, now);
      AdvanceToNext(o, h, now, launch) == Run(SaveState(o, k), Ok((true, k)))
  {
    var k := h.StartPhase(Phase3Plans, now);
    assert Execute(SaveState(o, k), k, launch) == Run(SaveState(o, k), Ok(()));
  }

  /** Handling completions never changes which issue the feature belongs to. */
  lemma {:induction false} CompletionsKeepIssue(o: Orch, f: Feature, cs: seq<Completion>, issue: int, now: Time,
                                                launch: Launch)
    ensures var r := OnCompletions(o, f, cs, issue, now, launch);
      r.out.Ok? ==> r.out.value.0.issueNumber == f.issueNumber
    decreases |cs|
  {
    if cs != [] {
      var r := OnCompletions(o, f, cs[..|cs| - 1], issue, now, launch);
      CompletionsKeepIssue(o, f, cs[..|cs| - 1], issue, now, launch);
      if r.out.Ok? {
        var g := r.out.value.0;
        var c := cs[|cs| - 1];
        var (accepted, g1) := MachineAgentComplete(g, c.agentHandle, now);
        if accepted {
          var removed := r.o.(sessions := Without(r.o.sessions, SessionKey(c.agentHandle, issue)));
          AdvanceOutcome(SaveState(removed, g1), g1, now, launch);
        }
      }
    }
  }

  /** The as-written turn from its two parts, when both complete. */
  lemma AsWrittenParts(o: Orch, f: Feature, input: Inputs, mid: Orch, g: Feature, ups: seq<Update>,
                       after: Orch, h: Feature, more: seq<Update>)
    requires var issue := f.issueNumber;
      OnCompletions(o, f, Completions(CommentsOf(input, issue), issue, LastCheck(o, issue), input.handles),
                    issue, input.now, input.launch) == Run(mid, Ok((g, ups)))
    requires |o.effects| <= |mid.effects|
    requires var refetched := CommentsOf(input, f.issueNumber) +
                              PostedOn(mid.effects[|o.effects|..], f.issueNumber, input.account, input.now, EffectBody);
      OnApproval(mid, g, refetched, f.issueNumber, LastCheck(o, f.issueNumber), input.now, input.launch) ==
      Run(after, Ok((h, more)))
    ensures FeatureTurnAsWritten(o, f, input) ==
      Run(after.(lastPoll := after.lastPoll[f.issueNumber := input.now]), Ok(ups + more))
  {
  }

  /** As written, a turn whose completions carry a feature onto the first gate
      approves it at once: the request just posted is the newest comment of the
      second fetch, and it holds an approval word. The feature moves on to the
      planning phase and the orchestrator's own account is reported as approver. */
  lemma GateEntrySelfApprovesAsWritten(o: Orch, f: Feature, input: Inputs, mid: Orch, g: Feature, ups: seq<Update>)
    requires var issue := f.issueNumber;
      OnCompletions(o, f, Completions(CommentsOf(input, issue), issue, LastCheck(o, issue), input.handles),
                    issue, input.now, input.launch) == Run(mid, Ok((g, ups)))
    requires g.currentPhase == Gate1Specs && g.phaseHistory != []
    requires |o.effects| < |mid.effects| && mid.effects[|mid.effects| - 1] == ApprovalRequested(f.issueNumber)
    requires LastCheck(o, f.issueNumber).None? || LastCheck(o, f.issueNumber).value < input.now
    ensures var r := FeatureTurnAsWritten(o, f, input);
      r.out == Ok(ups + [PhaseAdvanced(f.issueNumber, Phase3Plans.Name()), HumanApproval(f.issueNumber, input.account)]) &&
      f.issueNumber in r.o.files && r.o.files[f.issueNumber].Stored? &&
      r.o.files[f.issueNumber].state.currentPhase == Phase3Plans
  {
    var issue := f.issueNumber;
    var lastCheck := LastCheck(o, issue);
    var comments := CommentsOf(input, issue);
    var cs := Completions(comments, issue, lastCheck, input.handles);
    var posted := mid.effects[|o.effects|..];
    var refetched := comments + PostedOn(posted, issue, input.account, input.now, EffectBody);
    RequestApproves(issue);
    RefetchFindsRequest(comments, posted, issue, input.account, input.now, lastCheck, EffectBody);
    ApprovalOpensGateOne(mid, g, refetched, issue, lastCheck, input.now, input.launch, Approval(issue, input.now, input.account));
    var run := OnApproval(mid, g, refetched, issue, lastCheck, input.now, input.launch);
    AsWrittenParts(o, f, input, mid, g, ups, run.o, run.out.value.0, run.out.value.1);
    CompletionsKeepIssue(o, f, cs, issue, input.now, input.launch);
  }

  /** With the comments fetched once, as the rest of this model polls, entering the
      first gate waits for a human: when no new comment of the snapshot approves,
      the turn ends where its completions left it, with the poll time set. */
  lemma GateEntryWaitsForApproval(o: Orch, f: Feature, input: Inputs, mid: Orch, g: Feature, ups: seq<Update>)
    requires var issue := f.issueNumber;
      OnCompletions(o, f, Completions(CommentsOf(input, issue), issue, LastCheck(o, issue), input.handles),
                    issue, input.now, input.launch) == Run(mid, Ok((g, ups)))
    requires g.currentPhase == Gate1Specs
    requires forall j :: 0 <= j < |CommentsOf(input, f.issueNumber)| ==>
      !Approves(CommentsOf(input, f.issueNumber)[j], LastCheck(o, f.issueNumber))
    ensures FeatureTurn(o, f, input) == Run(mid.(lastPoll := mid.lastPoll[f.issueNumber := input.now]), Ok(ups))
  {
    var issue := f.issueNumber;
    var comments := CommentsOf(input, issue);
    LatestApprovalIsNewest(comments, issue, LastCheck(o, issue));
    assert OnApproval(mid, g, comments, issue, LastCheck(o, issue), input.now, input.launch) == Run(mid, Ok((g, [])));
    TurnParts(o, f, input, mid, g, ups, mid, g, Ok([]));
    assert ups + [] == ups;
  }

  /** The architect's completion in the specification phase moves the feature onto
      the first gate, which posts its approval request. */
  lemma SpecsCompletionRequestsApproval(o: Orch, g0: Feature, t0: Time, c: Completion, issue: int, now: Time,
                                        launch: Launch)
    requires c.agentHandle == "duc"
    ensures var f := g0.StartPhase(Phase2Specs, t0);
      var r := OnCompletion(o, f, c, issue, now, launch);
      r.out.Ok? && r.out.value.0.currentPhase == Gate1Specs && r.out.value.0.phaseHistory != [] &&
      r.out.value.0.issueNumber == f.issueNumber &&
      r.out.value.1 == [PhaseAdvanced(issue, Gate1Specs.Name()), AgentComplete(issue, "duc", c.summary)] &&
      r.o.effects == o.effects + [ApprovalRequested(f.issueNumber)] &&
      f.issueNumber in r.o.files && r.o.files[f.issueNumber] == Stored(r.out.value.0)
  {
    var f := g0.StartPhase(Phase2Specs, t0);
    SpecsThenGate(g0, t0, now, now);
    var f1 := MachineAgentComplete(f, "duc", now).1;
    MachineAdvanceOutcome(f1, now);
    var f2 := MachineAdvance(f1, now).value.1;
    var removed := o.(sessions := Without(o.sessions, SessionKey("duc", issue)));
    var saved := SaveState(SaveState(removed, f1), f2);
    assert Execute(saved, f2, launch) == Run(saved.(effects := saved.effects + [ApprovalRequested(f2.issueNumber)]), Ok(()));
  }

  /** As written, the first poll that sees the architect's completion of a feature
      in the specification phase leaves it in the planning phase: the turn enters
      the first gate, posts the request, and the second fetch takes the request for
      the approval, reported as given by the orchestrator's own account. */
  lemma SpecsFeatureSelfApprovesAsWritten(o: Orch, g0: Feature, t0: Time, input: Inputs)
    requires var f := g0.StartPhase(Phase2Specs, t0);
      var cs := Completions(CommentsOf(input, f.issueNumber), f.issueNumber, LastCheck(o, f.issueNumber), input.handles);
      |cs| == 1 && cs[0].agentHandle == "duc"
    requires var f := g0.StartPhase(Phase2Specs, t0);
      LastCheck(o, f.issueNumber).None? || LastCheck(o, f.issueNumber).value < input.now
    ensures var f := g0.StartPhase(Phase2Specs, t0);
      var r := FeatureTurnAsWritten(o, f, input);
      r.out.Ok? && HumanApproval(f.issueNumber, input.account) in r.out.value &&
      f.issueNumber in r.o.files && r.o.files[f.issueNumber].Stored? &&
      r.o.files[f.issueNumber].state.currentPhase == Phase3Plans
  {
    var f := g0.StartPhase(Phase2Specs, t0);
    var issue := f.issueNumber;
    var cs := Completions(CommentsOf(input, issue), issue, LastCheck(o, issue), input.handles);
    SpecsCompletionRequestsApproval(o, g0, t0, cs[0], issue, input.now, input.launch);
    var one := OnCompletion(o, f, cs[0], issue, input.now, input.launch);
    assert cs[..0] == [];
    assert OnCompletions(o, f, cs, issue, input.now, input.launch) == Run(one.o, Ok((one.out.value.0, [] + one.out.value.1)));
    GateEntrySelfApprovesAsWritten(o, f, input, one.o, one.out.value.0, [] + one.out.value.1);
  }

  /** With one fetch, the same poll leaves the feature waiting at the first gate
      unless a new comment of the snapshot approves. */
  lemma SpecsFeatureWaitsAtGate(o: Orch, g0: Feature, t0: Time, input: Inputs)
    requires var f := g0.StartPhase(Phase2Specs, t0);
      var cs := Completions(CommentsOf(input, f.issueNumber), f.issueNumber, LastCheck(o, f.issueNumber), input.handles);
      |cs| == 1 && cs[0].agentHandle == "duc"
    requires var f := g0.StartPhase(Phase2Specs, t0);
      forall j :: 0 <= j < |CommentsOf(input, f.issueNumber)| ==>
        !Approves(CommentsOf(input, f.issueNumber)[j], LastCheck(o, f.issueNumber))
    ensures var f := g0.StartPhase(Phase2Specs, t0);
      var r := FeatureTurn(o, f, input);
      r.out.Ok? && HumanApproval(f.issueNumber, input.account) !in r.out.value &&
      f.issueNumber in r.o.files && r.o.files[f.issueNumber].Stored? &&
      r.o.files[f.issueNumber].state.currentPhase == Gate1Specs
  {
    var f := g0.StartPhase(Phase2Specs, t0);
    var issue := f.issueNumber;
    var cs := Completions(CommentsOf(input, issue), issue, LastCheck(o, issue), input.handles);
    SpecsCompletionRequestsApproval(o, g0, t0, cs[0], issue, input.now, input.launch);
    var one := OnCompletion(o, f, cs[0], issue, input.now, input.launch);
    assert cs[..0] == [];
    assert OnCompletions(o, f, cs, issue, input.now, input.launch) == Run(one.o, Ok((one.out.value.0, [] + one.out.value.1)));
    GateEntryWaitsForApproval(o, f, input, one.o, one.out.value.0, [] + one.out.value.1);
  }

  // ---------------------------------------------------------------- the orchestrator

  class Orchestrator {
    const store: StateStore
    const dispatcher: AgentDispatcher
    /** `last_poll`: when each issue was last polled. */
    var lastPoll: map<int, Time>
    /** The comments the phase manager was asked to post, in order. */
    var effects: seq<Effect>

    predicate Valid()
      reads this, store, dispatcher
    {
      store.Valid() && dispatcher.Valid()
    }

    function Snapshot(): Orch
      reads this, store, dispatcher
    {
      Orch(store.files, dispatcher.entries, effects, lastPoll)
    }

    constructor(store: StateStore, dispatcher: AgentDispatcher)
      requires store.Valid() && dispatcher.Valid()
      ensures this.store == store && this.dispatcher == dispatcher
      ensures Valid() && lastPoll == map[] && effects == []
    {
      this.store := store;
      this.dispatcher := dispatcher;
      lastPoll := map[];
      effects := [];
    }

    method ExecuteCurrentPhase(st: FeatureState, launch: Launch) returns (r: Result<(), OrchestratorError>)
      requires Valid()
      modifies this, dispatcher
      ensures Valid()
      ensures Run(Snapshot(), r) == Execute(old(Snapshot()), st.Value(), launch)
    {
      if st.currentPhase == Phase2Specs {
        effects := effects + [SpecsRequested(st.issueNumber, st.branchName, st.worktreePath)];
        var d := dispatcher.Dispatch("duc", st.issueNumber, st.worktreePath, st.currentPhase, launch);
        if d.Err? {
          return Err(DispatchFailed(d.error));
        }
      } else if st.currentPhase == Gate1Specs {
        effects := effects + [ApprovalRequested(st.issueNumber)];
      }
      return Ok(());
    }

    method AdvanceToNextPhase(st: FeatureState, now: Time, launch: Launch) returns (r: Result<bool, OrchestratorError>)
      requires Valid()
      modifies this, store, dispatcher, st
      ensures Valid()
      ensures var run := AdvanceToNext(old(Snapshot()), old(st.Value()), now, launch);
        Snapshot() == run.o &&
        (run.out.Err? ==> r == Err(run.out.error)) &&
        (run.out.Ok? ==> r == Ok(run.out.value.0) && st.Value() == run.out.value.1)
    {
      var machine := new StateMachine(st);
      if !MachineCanAdvance(st.Value()) {
        return Ok(false);
      }
      var a := machine.Advance(now);
      if a.Err? {
        return Err(MachineFailed(a.error));
      }
      if !a.value {
        return Ok(false);
      }
      store.Save(st.Value());
      var e := ExecuteCurrentPhase(st, launch);
      if e.Err? {
        return Err(e.error);
      }
      return Ok(true);
    }

    /** `create_feature`, given the state phase 1 produced. */
    method CreateFeature(setup: Feature, now: Time, launch: Launch) returns (r: Result<Feature, OrchestratorError>)
      requires Valid()
      modifies this, store, dispatcher
      ensures Valid()
      ensures Run(Snapshot(), r) == Creation(old(Snapshot()), setup, now, launch)
    {
      var st := new FeatureState.FromValue(setup);
      store.Save(st.Value());
      var a := AdvanceToNextPhase(st, now, launch);
      if a.Err? {
        return Err(a.error);
      }
      return Ok(st.Value());
    }

    /** One completion: accepted only from an agent of the current phase, whose
        session is then dropped before the state is saved and advanced. */
    method HandleCompletion(st: FeatureState, c: Completion, issue: int, now: Time, launch: Launch)
      returns (r: Result<seq<Update>, OrchestratorError>)
      requires Valid()
      modifies this, store, dispatcher, st
      ensures Valid()
      ensures var run := OnCompletion(old(Snapshot()), old(st.Value()), c, issue, now, launch);
        Snapshot() == run.o &&
        (run.out.Err? ==> r == Err(run.out.error)) &&
        (run.out.Ok? ==> r == Ok(run.out.value.1) && st.Value() == run.out.value.0)
    {
      var machine := new StateMachine(st);
      var accepted := machine.HandleAgentComplete(c.agentHandle, now);
      if !accepted {
        return Ok([]);
      }
      dispatcher.RemoveSession(c.agentHandle, issue);
      store.Save(st.Value());
      var a := AdvanceToNextPhase(st, now, launch);
      if a.Err? {
        return Err(a.error);
      }
      var updates: seq<Update> := [];
      if a.value {
        updates := [PhaseAdvanced(issue, st.currentPhase.Name())];
      }
      return Ok(updates + [AgentComplete(issue, c.agentHandle, c.summary)]);
    }

    /** The approval check of a feature's turn. */
    method HandleApproval(st: FeatureState, comments: seq<Comment>, issue: int, lastCheck: Option<Time>,
                          now: Time, launch: Launch)
      returns (r: Result<seq<Update>, OrchestratorError>)
      requires Valid()
      modifies this, store, dispatcher, st
      ensures Valid()
      ensures var run := OnApproval(old(Snapshot()), old(st.Value()), comments, issue, lastCheck, now, launch);
        Snapshot() == run.o &&
        (run.out.Err? ==> r == Err(run.out.error)) &&
        (run.out.Ok? ==> r == Ok(run.out.value.1) && st.Value() == run.out.value.0)
    {
      if !st.currentPhase.IsGate() {
        return Ok([]);
      }
      var approval := PollForApproval(comments, issue, lastCheck);
      if approval.None? {
        return Ok([]);
      }
      var machine := new StateMachine(st);
      var _ := machine.HandleHumanApproval(now);
      store.Save(st.Value());
      var a := AdvanceToNextPhase(st, now, launch);
      if a.Err? {
        return Err(a.error);
      }
      var updates: seq<Update> := [];
      if a.value {
        updates := [PhaseAdvanced(issue, st.currentPhase.Name())];
      }
      return Ok(updates + [HumanApproval(issue, approval.value.approver)]);
    }

    /** One feature's turn of `poll_for_updates`. */
    method PollFeature(st: FeatureState, input: Inputs) returns (r: Result<seq<Update>, OrchestratorError>)
      requires Valid()
      modifies this, store, dispatcher, st
      ensures Valid()
      ensures Run(Snapshot(), r) == FeatureTurn(old(Snapshot()), old(st.Value()), input)
    {
      ghost var o0 := Snapshot();
      ghost var f0 := st.Value();
      var issue := st.issueNumber;
      var lastCheck := if issue in lastPoll then Some(lastPoll[issue]) else None;
      var comments := CommentsOf(input, issue);
      var completions := PollForCompletions(comments, issue, lastCheck, input.handles);
      var updates: seq<Update> := [];
      for j := 0 to |completions|
        invariant Valid()
        invariant OnCompletions(o0, f0, completions[..j], issue, input.now, input.launch) ==
          Run(Snapshot(), Ok((st.Value(), updates)))
      {
        ghost var before, g := Snapshot(), st.Value();
        var more := HandleCompletion(st, completions[j], issue, input.now, input.launch);
        CompletionStep(o0, f0, completions, j, issue, input.now, input.launch, before, g, updates,
                       Snapshot(), st.Value(), more);
        if more.Err? {
          TurnFailsEarly(o0, f0, input, Snapshot(), more.error);
          return Err(more.error);
        }
        updates := updates + more.value;
      }
      TakeAll(completions);
      ghost var mid, g := Snapshot(), st.Value();
      var more := HandleApproval(st, comments, issue, lastCheck, input.now, input.launch);
      TurnParts(o0, f0, input, mid, g, updates, Snapshot(), st.Value(), more);
      if more.Err? {
        return Err(more.error);
      }
      lastPoll := lastPoll[issue := input.now];
      return Ok(updates + more.value);
    }

    /** `poll_for_updates`: one pass over the stored features in issue order;
        `polled` names the features the listing returned. */
    method PollForUpdates(input: Inputs) returns (r: Result<seq<Update>, OrchestratorError>, ghost polled: seq<Feature>)
      requires Valid()
      modifies this, store, dispatcher
      ensures Valid()
      ensures SortedByIssue(polled)
      ensures forall f :: f in polled <==> exists n :: n in old(store.files) && old(store.files)[n] == Stored(f)
      ensures Run(Snapshot(), r) == PollAll(old(Snapshot()), polled, input)
    {
      ghost var o0 := Snapshot();
      var active := store.ListAll();
      polled := active;
      var updates: seq<Update> := [];
      for i := 0 to |active|
        invariant Valid()
        invariant PollAll(o0, active[..i], input) == Run(Snapshot(), Ok(updates))
      {
        ghost var before := Snapshot();
        var st := new FeatureState.FromValue(active[i]);
        var u := PollFeature(st, input);
        PollStep(o0, active, i, input, before, updates, Snapshot(), u);
        if u.Err? {
          PollAllStopsAtError(o0, active, i + 1, input);
          return Err(u.error), polled;
        }
        updates := updates + u.value;
      }
      TakeAll(active);
      return Ok(updates), polled;
    }

    /** `approve_gate`. */
    method ApproveGate(n: int, now: Time, launch: Launch) returns (r: Result<bool, OrchestratorError>)
      requires Valid()
      modifies this, store, dispatcher
      ensures Valid()
      ensures Run(Snapshot(), r) == GateApproval(old(Snapshot()), n, now, launch)
    {
      var loaded := store.Load(n);
      if loaded.Err? {
        return Err(LoadFailed(loaded.error));
      }
      if loaded.value.None? {
        return Ok(false);
      }
      var st := new FeatureState.FromValue(loaded.value.value);
      if !st.currentPhase.IsGate() {
        return Ok(false);
      }
      var machine := new StateMachine(st);
      var _ := machine.HandleHumanApproval(now);
      store.Save(st.Value());
      r := AdvanceToNextPhase(st, now, launch);
    }

    /** `get_feature_state`. */
    method GetFeatureState(n: int) returns (r: Result<Option<Feature>, LoadError>)
      ensures r == LoadFrom(store.files, n)
    {
      r := store.Load(n);
    }

    /** `list_all_features`. */
    method ListAllFeatures() returns (states: seq<Feature>)
      requires Valid()
      ensures SortedByIssue(states)
      ensures forall f :: f in states <==> exists n :: n in store.files && store.files[n] == Stored(f)
    {
      states := store.ListAll();
    }
  }
}
