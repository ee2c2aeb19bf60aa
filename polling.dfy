/**
 * The signal poller of the orchestrator package. A check fetches the issue's
 * comments and takes the first one, in list order, whose body carries the
 * signal; there is no timestamp filter. Polling repeats the check until a signal
 * is found or the timeout has elapsed. The clock is a sequence of readings of the
 * elapsed whole seconds, one per round, each round paired with what fetching the
 * comments returned in that round.
 */
module SignalPolling {
  import opened Wrappers
  import opened Text
  import opened OrchestratorModels
  import opened OrchestratorErrors

  const AgentCompletePattern: string := "\U{2705}"
  const HumanApprovalPattern: string := "approved"

  /** A comment as the GitHub client returns it: the body may be missing, and so
      may the `login` of its user. */
  datatype SignalComment = SignalComment(id: int, body: Option<string>, login: Option<string>)

  /** `comment.body or ""`. */
  function BodyOf(c: SignalComment): string {
    c.body.GetOr("")
  }

  /** `getattr(comment.user, "login", "unknown")`. */
  function AuthorOf(c: SignalComment): string {
    c.login.GetOr("unknown")
  }

  /** `_matches_signal`: a completion carries the check mark, an approval the word
      "approved" in any letter case. */
  predicate MatchesSignal(body: string, t: SignalType) {
    match t
    case AgentComplete => Contains(body, AgentCompletePattern)
    case HumanApproval => Contains(Lower(body), HumanApprovalPattern)
  }

  /** Approval ignores letter case, and "lgtm", which the feature poller takes for an
      approval, is none here; neither is a body without the check mark a completion. */
  lemma ApprovalMatching(body: string)
    ensures MatchesSignal(Lower(body), HumanApproval) == MatchesSignal(body, HumanApproval)
    ensures !MatchesSignal("lgtm", HumanApproval)
    ensures (forall i :: 0 <= i < |body| ==> body[i] != '\U{2705}') ==> !MatchesSignal(body, AgentComplete)
  {
    assert Lower(Lower(body)) == Lower(body);
    MissingCharNotContained(Lower("lgtm"), HumanApprovalPattern, 0);
    if forall i :: 0 <= i < |body| ==> body[i] != '\U{2705}' {
      MissingCharNotContained(body, AgentCompletePattern, 0);
    }
  }

  predicate Signals(c: SignalComment, t: SignalType) {
    MatchesSignal(BodyOf(c), t)
  }

  /** The first comment at or after `k` that carries the signal. */
  function FirstSignalFrom(comments: seq<SignalComment>, t: SignalType, k: nat): (r: Option<nat>)
    requires k <= |comments|
    ensures r.Some? ==> k <= r.value < |comments| && Signals(comments[r.value], t)
    ensures r.Some? ==> forall j :: k <= j < r.value ==> !Signals(comments[j], t)
    ensures r.None? ==> forall j :: k <= j < |comments| ==> !Signals(comments[j], t)
    decreases |comments| - k
  {
    if k == |comments| then None
    else if Signals(comments[k], t) then Some(k)
    else FirstSignalFrom(comments, t, k + 1)
  }

  /** What a check reports for the given outcome of fetching the comments: the
      first signalling comment with its id, body and author, or nothing; a fetch
      that failed is reported as nothing found. No poll is counted here. */
  function Detection(fetched: Result<seq<SignalComment>, string>, t: SignalType): (r: PollResult)
    ensures r.signalType == t && r.pollCount == 0
    ensures r.detected <==> fetched.Ok? && exists i :: 0 <= i < |fetched.value| && Signals(fetched.value[i], t)
    ensures !r.detected ==> r == NewPollResult(false, t)
    ensures r.detected ==> exists i :: (0 <= i < |fetched.value| && Signals(fetched.value[i], t)
      && (forall j :: 0 <= j < i ==> !Signals(fetched.value[j], t))
      && r.commentId == Some(fetched.value[i].id)
      && r.commentBody == Some(BodyOf(fetched.value[i]))
      && r.commentAuthor == Some(AuthorOf(fetched.value[i])))
  {
    if fetched.Err? then NewPollResult(false, t)
    else match FirstSignalFrom(fetched.value, t, 0)
      case None => NewPollResult(false, t)
      case Some(i) =>
        var c := fetched.value[i];
        PollResult(true, t, Some(c.id), Some(BodyOf(c)), Some(AuthorOf(c)), 0)
  }

  /** `_check_for_signal`: the scan over the fetched comments, returning at the
      first match. */
  method CheckForSignal(fetched: Result<seq<SignalComment>, string>, t: SignalType) returns (r: PollResult)
    ensures r == Detection(fetched, t)
  {
    if fetched.Err? {
      return NewPollResult(false, t);
    }
    var comments := fetched.value;
    for i := 0 to |comments|
      invariant FirstSignalFrom(comments, t, 0) == FirstSignalFrom(comments, t, i)
    {
      var c := comments[i];
      var body := BodyOf(c);
      var author := AuthorOf(c);
      if MatchesSignal(body, t) {
        return PollResult(true, t, Some(c.id), Some(body), Some(author), 0);
      }
    }
    return NewPollResult(false, t);
  }

  /** One round of polling: the elapsed seconds read at its start and what fetching
      the comments would return in it. */
  datatype Round = Round(elapsed: int, fetched: Result<seq<SignalComment>, string>)

  /** A round ends the polling: the timeout has elapsed, or its check finds the signal. */
  predicate Stops(round: Round, t: SignalType, timeout: int) {
    round.elapsed >= timeout || Detection(round.fetched, t).detected
  }

  /** The timeout error `poll_for_signal` raises. */
  function TimeoutError(t: SignalType, timeout: int): OrchestratorError {
    NewError(PollTimeout, "Signal " + t.Value() + " not detected after " + IntToString(timeout) + "s", None)
  }

  /** What the polling returns when it stops in `round`, its `count`-th round: the
      timeout is looked at before the comments. */
  function Outcome(round: Round, count: int, t: SignalType, timeout: int, raiseOnTimeout: bool): (r: Result<PollResult, OrchestratorError>)
    ensures round.elapsed >= timeout && raiseOnTimeout ==> r == Err(TimeoutError(t, timeout))
    ensures round.elapsed >= timeout && !raiseOnTimeout ==> r == Ok(NewPollResult(false, t).(pollCount := count))
    ensures round.elapsed < timeout ==> r == Ok(Detection(round.fetched, t).(pollCount := count))
  {
    if round.elapsed >= timeout then
      if raiseOnTimeout then Err(TimeoutError(t, timeout))
      else Ok(NewPollResult(false, t).(pollCount := count))
    else Ok(Detection(round.fetched, t).(pollCount := count))
  }

  /** The clock reaches the timeout in some round. */
  predicate ReachesTimeout(rounds: seq<Round>, timeout: int) {
    exists j :: 0 <= j < |rounds| && rounds[j].elapsed >= timeout
  }

  /** `poll_for_signal`: round after round, counting each, until one stops the
      polling. The result is that of the first stopping round; it counts every
      round made, at least one, and carries the requested signal type. */
  method PollForSignal(rounds: seq<Round>, t: SignalType, timeout: int, raiseOnTimeout: bool)
    returns (r: Result<PollResult, OrchestratorError>)
    requires ReachesTimeout(rounds, timeout)
    ensures exists k :: (0 <= k < |rounds| && Stops(rounds[k], t, timeout)
      && (forall j :: 0 <= j < k ==> !Stops(rounds[j], t, timeout))
      && r == Outcome(rounds[k], k + 1, t, timeout, raiseOnTimeout))
    ensures r.Ok? ==> r.value.signalType == t && r.value.pollCount >= 1
    ensures r.Ok? && r.value.detected ==> exists k :: (0 <= k < |rounds| && rounds[k].elapsed < timeout
      && r.value.pollCount == k + 1)
    ensures r.Err? ==> raiseOnTimeout && r.error.kind == PollTimeout
  {
    var pollCount := 0;
    while true
      invariant 0 <= pollCount < |rounds|
      invariant exists j :: pollCount <= j < |rounds| && rounds[j].elapsed >= timeout
      invariant forall j :: 0 <= j < pollCount ==> !Stops(rounds[j], t, timeout)
      decreases |rounds| - pollCount
    {
      var round := rounds[pollCount];
      pollCount := pollCount + 1;
      if round.elapsed >= timeout {
        if raiseOnTimeout {
          return Err(TimeoutError(t, timeout));
        }
        return Ok(NewPollResult(false, t).(pollCount := pollCount));
      }
      var result := CheckForSignal(round.fetched, t);
      if result.detected {
        return Ok(PollResult(true, t, result.commentId, result.commentBody, result.commentAuthor, pollCount));
      }
      assert !Stops(rounds[pollCount - 1], t, timeout);
    }
  }
}
