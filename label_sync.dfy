/**
 * Status labels of the orchestrator package. Each workflow state has one
 * `status:` label with a colour; syncing an issue removes its other status
 * labels and adds the state's label. The GitHub calls are inputs: whether
 * listing the labels fails, which removals fail and with what message, whether
 * adding fails, and which label creations fail. The issue's labels are the one
 * piece of remote state the sync changes.
 */
module LabelSyncs {
  import opened Wrappers
  import opened Text
  import opened Collections
  import opened OrchestratorModels

  const StatusLabelPrefix: string := "status:"

  /** `STATE_LABEL_MAP`. */
  function StateLabel(s: WorkflowState): string {
    StatusLabelPrefix + match s
      case Idle => "new"
      case Phase1 => "phase-1"
      case Phase2 => "phase-2"
      case Gate1 => "awaiting-approval"
      case Done => "done"
  }

  /** `LABEL_COLORS`, in its insertion order. */
  const LabelColors: seq<(string, string)> := [
    (StateLabel(Idle), "0052cc"),
    (StateLabel(Phase1), "fbca04"),
    (StateLabel(Phase2), "f9a825"),
    (StateLabel(Gate1), "7057ff"),
    (StateLabel(Done), "0e8a16")
  ]

  /** The colour `entries` gives `name` first, if any. */
  function ColorIn(entries: seq<(string, string)>, name: string): (r: Option<string>)
    ensures r.Some? <==> exists i :: 0 <= i < |entries| && entries[i].0 == name
  {
    if entries == [] then None
    else if entries[0].0 == name then Some(entries[0].1)
    else
      var r := ColorIn(entries[1..], name);
      assert forall i :: 1 <= i < |entries| ==> entries[i] == entries[1..][i - 1];
      r
  }

  function ColorOf(name: string): Option<string> {
    ColorIn(LabelColors, name)
  }

  predicate IsStatusLabel(l: string) {
    StartsWith(l, StatusLabelPrefix)
  }

  /** The map is total and one-to-one, every label carries the prefix and has a
      colour, and the colour table lists exactly the five labels in state order. */
  lemma StateLabelMap(s: WorkflowState, t: WorkflowState)
    ensures IsStatusLabel(StateLabel(s))
    ensures StateLabel(s) == StateLabel(t) <==> s == t
    ensures ColorOf(StateLabel(s)).Some?
    ensures |LabelColors| == |AllWorkflowStates|
    ensures forall i :: 0 <= i < |LabelColors| ==> LabelColors[i].0 == StateLabel(AllWorkflowStates[i])
  {
    assert StateLabel(s)[..|StatusLabelPrefix|] == StatusLabelPrefix;
    if StateLabel(s) == StateLabel(t) {
      assert StateLabel(s)[|StatusLabelPrefix|..] == StateLabel(t)[|StatusLabelPrefix|..];
    }
    assert LabelColors[s.Rank()].0 == StateLabel(s);
  }

  /** A status label other than the target: one the sync removes. */
  predicate Stale(l: string, target: string) {
    IsStatusLabel(l) && l != target
  }

  /** The issue's labels without `name`. */
  function RemoveLabel(labels: seq<string>, name: string): (r: seq<string>)
    ensures forall l :: l in r <==> l in labels && l != name
  {
    if labels == [] then []
    else (if labels[0] == name then [] else [labels[0]]) + RemoveLabel(labels[1..], name)
  }

  /** The errors recorded for the removals of the listed labels. */
  function RemovalErrors(listed: seq<string>, target: string, removeErrors: map<string, string>): (errs: seq<string>)
    ensures errs == [] <==> forall l :: l in listed && Stale(l, target) ==> l !in removeErrors
  {
    if listed == [] then []
    else
      var l := listed[|listed| - 1];
      SplitLast(listed);
      RemovalErrors(listed[..|listed| - 1], target, removeErrors)
        + (if Stale(l, target) && l in removeErrors then ["Failed to remove " + l + ": " + removeErrors[l]] else [])
  }

  /** A listed stale label whose removal succeeded. */
  predicate Removed(l: string, listed: seq<string>, target: string, removeErrors: map<string, string>) {
    l in listed && Stale(l, target) && l !in removeErrors
  }

  /** A label the issue carries after the sync: one it had and that was not
      removed, or the target once adding it succeeded. */
  predicate AfterSync(l: string, before: seq<string>, listed: seq<string>, target: string,
                      removeErrors: map<string, string>, addError: Option<string>) {
    (l in before && !Removed(l, listed, target, removeErrors)) || (addError.None? && l == target)
  }

  /** What `sync_labels` returns, given the removal errors and whether adding failed. */
  function SyncResult(target: string, errs: seq<string>, addError: Option<string>): OperationResult {
    if addError.Some? then
      OperationResult(Failure, Some("Failed to add label: " + addError.value),
                      map["errors" := Texts(errs + ["Failed to add " + target + ": " + addError.value])])
    else if errs != [] then
      OperationResult(Partial, Some("Labels synced with some errors"), map["errors" := Texts(errs)])
    else
      OperationResult(Success, Some("Synced label to " + target), map["label" := Text(target)])
  }

  /** The issue in GitHub, as far as its labels go. */
  class Issue {
    var labels: seq<string>

    constructor(labels0: seq<string>)
      ensures labels == labels0
    {
      labels := labels0;
    }
  }

  /** `sync_labels`: every listed stale label is removed unless its removal fails,
      which is recorded; the target is added whether or not the listing worked; a
      listing that fails removes nothing and is not recorded. */
  method SyncLabels(issue: Issue, state: WorkflowState, listError: Option<string>,
                    removeErrors: map<string, string>, addError: Option<string>) returns (r: OperationResult)
    modifies issue
    ensures var target := StateLabel(state);
            var listed := if listError.None? then old(issue.labels) else [];
            && (forall l :: l in issue.labels <==> AfterSync(l, old(issue.labels), listed, target, removeErrors, addError))
            && r == SyncResult(target, RemovalErrors(listed, target, removeErrors), addError)
  {
    var target := StateLabel(state);
    var errors: seq<string> := [];
    var existing: seq<string> := [];
    if listError.None? {
      existing := issue.labels;
      for i := 0 to |existing|
        invariant errors == RemovalErrors(existing[..i], target, removeErrors)
        invariant forall l :: l in issue.labels <==> l in existing && !Removed(l, existing[..i], target, removeErrors)
      {
        var name := existing[i];
        TakeSnoc(existing, i);
        assert existing[..i + 1][..i] == existing[..i];
        if IsStatusLabel(name) && name != target {
          if name in removeErrors {
            errors := errors + ["Failed to remove " + name + ": " + removeErrors[name]];
          } else {
            issue.labels := RemoveLabel(issue.labels, name);
          }
        }
      }
      TakeAll(existing);
    }
    if addError.Some? {
      errors := errors + ["Failed to add " + target + ": " + addError.value];
      return OperationResult(Failure, Some("Failed to add label: " + addError.value), map["errors" := Texts(errors)]);
    }
    if target !in issue.labels {
      issue.labels := issue.labels + [target];
    }
    if errors != [] {
      return OperationResult(Partial, Some("Labels synced with some errors"), map["errors" := Texts(errors)]);
    }
    return OperationResult(Success, Some("Synced label to " + target), map["label" := Text(target)]);
  }

  /** The status is FAILURE exactly when adding failed, PARTIAL exactly when adding
      worked and a removal failed, and SUCCESS otherwise, naming the target. */
  lemma SyncStatus(target: string, listed: seq<string>, removeErrors: map<string, string>, addError: Option<string>)
    ensures var r := SyncResult(target, RemovalErrors(listed, target, removeErrors), addError);
      && (r.status == Failure <==> addError.Some?)
      && (r.status == Partial <==> addError.None? && exists l :: l in listed && Stale(l, target) && l in removeErrors)
      && (r.status == Success <==> addError.None? && forall l :: l in listed && Stale(l, target) ==> l !in removeErrors)
      && (r.status == Success ==> r.details == map["label" := Text(target)])
  {
  }

  /** Labels that are not status labels, and the target, are never removed. */
  lemma SyncKeepsOtherLabels(l: string, before: seq<string>, listed: seq<string>, target: string,
                             removeErrors: map<string, string>, addError: Option<string>)
    requires l in before && (!IsStatusLabel(l) || l == target)
    ensures AfterSync(l, before, listed, target, removeErrors, addError)
  {
  }

  /** After a sync in which listing, every removal and adding worked, the target is
      the issue's one status label. */
  lemma SuccessLeavesOneStatusLabel(l: string, before: seq<string>, state: WorkflowState, removeErrors: map<string, string>)
    requires SyncResult(StateLabel(state), RemovalErrors(before, StateLabel(state), removeErrors), None).status == Success
    ensures AfterSync(l, before, before, StateLabel(state), removeErrors, None) && IsStatusLabel(l) <==> l == StateLabel(state)
  {
    StateLabelMap(state, state);
    SyncStatus(StateLabel(state), before, removeErrors, None);
  }

  /** A listing that fails is not recorded: adding the target alone makes the sync
      a SUCCESS, and every stale label stays. */
  lemma ListingFailureStillSucceeds(l: string, before: seq<string>, state: WorkflowState, removeErrors: map<string, string>)
    ensures SyncResult(StateLabel(state), RemovalErrors([], StateLabel(state), removeErrors), None).status == Success
    ensures l in before ==> AfterSync(l, before, [], StateLabel(state), removeErrors, None)
  {
  }

  // ---------------------------------------------------------------- creating the labels

  /** A creation error the sync tolerates: the label is already there. */
  predicate AlreadyExists(message: string) {
    Contains(Lower(message), "already exists")
  }

  /** The label names of a colour table, in order. */
  function LabelNames(entries: seq<(string, string)>): (names: seq<string>)
    ensures |names| == |entries| && forall i :: 0 <= i < |entries| ==> names[i] == entries[i].0
  {
    seq(|entries|, i requires 0 <= i < |entries| => entries[i].0)
  }

  /** The labels among `entries` whose creation worked, in order. */
  function CreatedLabels(entries: seq<(string, string)>, createErrors: map<string, string>): (r: seq<string>)
    ensures forall l :: l in r <==> l in LabelNames(entries) && l !in createErrors
  {
    if entries == [] then []
    else
      var e := entries[|entries| - 1];
      SplitLast(entries);
      var front := CreatedLabels(entries[..|entries| - 1], createErrors);
      assert LabelNames(entries) == LabelNames(entries[..|entries| - 1]) + [e.0];
      front + (if e.0 in createErrors then [] else [e.0])
  }

  /** The errors recorded for the creations among `entries` that failed for another
      reason than the label existing. */
  function CreationErrors(entries: seq<(string, string)>, createErrors: map<string, string>): (errs: seq<string>)
    ensures errs == [] <==> forall i :: 0 <= i < |entries| && entries[i].0 in createErrors ==> AlreadyExists(createErrors[entries[i].0])
  {
    if entries == [] then []
    else
      var e := entries[|entries| - 1];
      SplitLast(entries);
      var front := CreationErrors(entries[..|entries| - 1], createErrors);
      assert forall i :: 0 <= i < |entries| - 1 ==> entries[..|entries| - 1][i] == entries[i];
      front + (if e.0 in createErrors && !AlreadyExists(createErrors[e.0]) then [e.0 + ": " + createErrors[e.0]] else [])
  }

  /** One more entry adds its name to the created labels when its creation
      worked, and its error when it failed for another reason than existing. */
  lemma EnsureStep(entries: seq<(string, string)>, i: nat, createErrors: map<string, string>)
    requires i < |entries|
    ensures var name := entries[i].0;
      && CreatedLabels(entries[..i + 1], createErrors)
        == CreatedLabels(entries[..i], createErrors) + (if name in createErrors then [] else [name])
      && CreationErrors(entries[..i + 1], createErrors)
        == CreationErrors(entries[..i], createErrors)
          + (if name in createErrors && !AlreadyExists(createErrors[name]) then [name + ": " + createErrors[name]] else [])
  {
    TakeSnoc(entries, i);
    assert entries[..i + 1][..i] == entries[..i];
  }

  function EnsureResult(createErrors: map<string, string>): OperationResult {
    var errs := CreationErrors(LabelColors, createErrors);
    if errs != [] then
      OperationResult(Partial, Some("Some labels could not be created"),
                      map["created" := Texts(CreatedLabels(LabelColors, createErrors)), "errors" := Texts(errs)])
    else
      OperationResult(Success, Some("All labels ensured"), map["labels" := Texts(LabelNames(LabelColors))])
  }

  /** `ensure_labels_exist`: tries to create every label of the colour table. */
  method EnsureLabelsExist(createErrors: map<string, string>) returns (r: OperationResult)
    ensures r == EnsureResult(createErrors)
  {
    var created: seq<string> := [];
    var errors: seq<string> := [];
    for i := 0 to |LabelColors|
      invariant created == CreatedLabels(LabelColors[..i], createErrors)
      invariant errors == CreationErrors(LabelColors[..i], createErrors)
    {
      var (name, color) := LabelColors[i];
      EnsureStep(LabelColors, i, createErrors);
      if name in createErrors {
        if !Contains(Lower(createErrors[name]), "already exists") {
          errors := errors + [name + ": " + createErrors[name]];
        }
      } else {
        created := created + [name];
      }
    }
    TakeAll(LabelColors);
    if errors != [] {
      return OperationResult(Partial, Some("Some labels could not be created"),
                             map["created" := Texts(created), "errors" := Texts(errors)]);
    }
    return OperationResult(Success, Some("All labels ensured"), map["labels" := Texts(LabelNames(LabelColors))]);
  }

  /** The result is PARTIAL exactly when some creation failed for another reason
      than the label existing; "already exists" in any letter case is tolerated. */
  lemma EnsureStatus(createErrors: map<string, string>)
    ensures var r := EnsureResult(createErrors);
      && (r.status == Partial <==> exists s :: StateLabel(s) in createErrors && !AlreadyExists(createErrors[StateLabel(s)]))
      && (r.status == Success || r.status == Partial)
  {
    forall s: WorkflowState
      ensures LabelColors[s.Rank()].0 == StateLabel(s)
    {
      StateLabelMap(s, s);
    }
    forall i | 0 <= i < |LabelColors|
      ensures LabelColors[i].0 == StateLabel(AllWorkflowStates[i])
    {
      StateLabelMap(Idle, Idle);
    }
  }

  /** A partial result lists as created exactly the labels whose creation worked;
      a successful one lists every label of the colour table. */
  lemma EnsureDetails(createErrors: map<string, string>)
    ensures var r := EnsureResult(createErrors);
      && (r.status == Partial ==> forall l :: l in r.details["created"].items <==>
            l in LabelNames(LabelColors) && l !in createErrors)
      && (r.status == Success ==> r.details["labels"].items == LabelNames(LabelColors))
  {
    var created := CreatedLabels(LabelColors, createErrors);
    assert forall l :: l in created <==> l in LabelNames(LabelColors) && l !in createErrors;
  }
}
