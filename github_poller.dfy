/**
 * Signal detection over an issue's time-ordered comment list: completion
 * markers from known agents, approval keywords from anyone, the mapping from
 * a comment author to an agent handle, and the summary taken from a
 * completion comment. The comment list and the configured handles are inputs.
 */
module GitHubPollers {
  import opened Wrappers
  import opened Text
  import opened Clock
  import opened Collections

  datatype Comment = Comment(id: string, author: string, createdAt: Time, body: string)

  datatype Completion = Completion(agentHandle: string, issueNumber: int, timestamp: Time, summary: string)

  datatype Approval = Approval(issueNumber: int, timestamp: Time, approver: string)

  const CompletionMarker: string := "\U{2705}"

  /** The strict filter: with a last check, only comments created after it count. */
  predicate IsNew(c: Comment, lastCheck: Option<Time>) {
    lastCheck.None? || lastCheck.value < c.createdAt
  }

  /** The filter as the source evaluates it on Python datetimes, which fails when
      one side carries a UTC offset and the other does not. */
  function IsNewAsWritten(createdAt: Stamp, lastCheck: Option<Stamp>): (r: Result<bool, CompareError>)
    ensures lastCheck.None? ==> r == Ok(true)
    ensures lastCheck.Some? ==> (r.Err? <==> createdAt.Aware? != lastCheck.value.Aware?)
  {
    match lastCheck
    case None => Ok(true)
    case Some(t) =>
      match AtOrBefore(createdAt, t)
      case Err(e) => Err(e)
      case Ok(before) => Ok(!before)
  }

  /** Comment timestamps carry a UTC offset; a last check taken from the local
      clock has none, so the first comparison raises. */
  lemma NaiveLastCheckRaises(created: Time, now: Time)
    ensures IsNewAsWritten(Aware(created), Some(Naive(now))) == Err(NaiveAwareMismatch)
  {
  }

  /** With both sides offset-aware the source's filter is the strict filter. */
  lemma AwareFilterIsStrict(c: Comment, lastCheck: Option<Time>)
    ensures var stamp := if lastCheck.None? then None else Some(Aware(lastCheck.value));
            IsNewAsWritten(Aware(c.createdAt), stamp) == Ok(IsNew(c, lastCheck))
  {
  }

  // ---------------------------------------------------------------- author to handle

  /** The author lower-cased, every "[bot]" removed, whitespace stripped. */
  function NormalizedAuthor(author: string): string {
    Strip(Join(SplitOn(Lower(author), "[bot]"), ""))
  }

  predicate HandleMatches(authorLower: string, handle: string) {
    Contains(authorLower, handle) || Contains(handle, authorLower)
  }

  /** The first index from `k` on whose handle matches. */
  function FirstMatchFrom(authorLower: string, handles: seq<string>, k: nat): (r: Option<nat>)
    requires k <= |handles|
    ensures r.Some? ==> k <= r.value < |handles| && HandleMatches(authorLower, handles[r.value])
    ensures r.Some? ==> forall j :: k <= j < r.value ==> !HandleMatches(authorLower, handles[j])
    ensures r.None? ==> forall j :: k <= j < |handles| ==> !HandleMatches(authorLower, handles[j])
    decreases |handles| - k
  {
    if k == |handles| then None
    else if HandleMatches(authorLower, handles[k]) then Some(k)
    else FirstMatchFrom(authorLower, handles, k + 1)
  }

  function AgentHandleFor(author: string, handles: seq<string>): Option<string> {
    match FirstMatchFrom(NormalizedAuthor(author), handles, 0)
    case Some(i) => Some(handles[i])
    case None => None
  }

  /** `_extract_agent_handle`: the first configured handle that occurs in the
      normalised author or contains it. */
  method ExtractAgentHandle(author: string, handles: seq<string>) returns (h: Option<string>)
    ensures h == AgentHandleFor(author, handles)
  {
    var authorLower := Strip(Join(SplitOn(Lower(author), "[bot]"), ""));
    for i := 0 to |handles|
      invariant FirstMatchFrom(authorLower, handles, 0) == FirstMatchFrom(authorLower, handles, i)
    {
      if Contains(authorLower, handles[i]) || Contains(handles[i], authorLower) {
        return Some(handles[i]);
      }
    }
    return None;
  }

  lemma AgentOfFirstMatch(author: string, handles: seq<string>, i: nat)
    requires FirstMatchFrom(NormalizedAuthor(author), handles, 0) == Some(i)
    ensures i < |handles| && AgentHandleFor(author, handles) == Some(handles[i])
  {
  }

  /** A "[bot]" suffix after a name without brackets disappears, and the rest is
      lower-cased and stripped. */
  lemma BotSuffixRemoved(name: string)
    requires forall i :: 0 <= i < |name| ==> name[i] != '['
    ensures NormalizedAuthor(name + "[bot]") == Strip(Lower(name))
  {
    var low := Lower(name);
    var s := low + "[bot]";
    assert Lower(name + "[bot]") == s by {
      LowerAppend(name, "[bot]");
      assert Lower("[bot]") == "[bot]";
    }
    assert SplitOn(s, "[bot]") == [low, ""] by {
      forall j: nat | j < |low|
        ensures !OccursAt(s, "[bot]", j)
      {
        assert s[j] == LowerChar(name[j]);
      }
      SplitOnTrailingSep(low, "[bot]");
    }
    assert Join([low, ""], "") == low;
  }

  /** An empty normalised author is contained in every handle, so it maps to the
      first configured handle. */
  lemma EmptyAuthorTakesFirstHandle(author: string, handles: seq<string>)
    requires NormalizedAuthor(author) == "" && |handles| > 0
    ensures AgentHandleFor(author, handles) == Some(handles[0])
  {
    ContainsEmpty(handles[0]);
  }

  /** A bot author whose name is already lower case and trimmed normalises to that name. */
  lemma BotAuthor(name: string)
    requires forall i :: 0 <= i < |name| ==> name[i] != '[' && !('A' <= name[i] <= 'Z')
    requires name == [] || (!IsSpace(name[0]) && !IsSpace(name[|name| - 1]))
    ensures NormalizedAuthor(name + "[bot]") == name
  {
    BotSuffixRemoved(name);
    LowerOfNoUpper(name);
    StripOfTrimmed(name);
  }

  /** A bot whose name ends in the first configured handle, such as
      "viollet-le-duc[bot]" with the handles "duc" and "baron", is that agent. */
  lemma BotNamedAfterHandle(prefix: string, handle: string, handles: seq<string>)
    requires forall i :: 0 <= i < |prefix + handle| ==>
      (prefix + handle)[i] != '[' && !('A' <= (prefix + handle)[i] <= 'Z')
    requires prefix + handle == [] || (!IsSpace((prefix + handle)[0]) && !IsSpace((prefix + handle)[|prefix + handle| - 1]))
    requires |handles| > 0 && handles[0] == handle
    ensures AgentHandleFor(prefix + handle + "[bot]", handles) == Some(handle)
  {
    var a := prefix + handle;
    assert NormalizedAuthor(a + "[bot]") == a by {
      BotAuthor(a);
    }
    assert HandleMatches(a, handle) by {
      ContainsSuffix(prefix, handle);
    }
    assert FirstMatchFrom(a, handles, 0) == Some(0);
    AgentOfFirstMatch(a + "[bot]", handles, 0);
  }

  // ---------------------------------------------------------------- summary

  /** A line holding the completion marker. */
  predicate IsMarkerLine(line: string) {
    Contains(line, CompletionMarker)
  }

  /** What a marker line contributes: its stripped text after the marker, if any. */
  function MarkerText(line: string): (r: seq<string>)
    requires IsMarkerLine(line)
    ensures forall k :: 0 <= k < |r| ==> r[k] != ""
  {
    var after := Strip(AfterFirst(line, CompletionMarker));
    if after != "" then [after] else []
  }

  /** A section heading such as "**Artifacts:**", which ends the summary. */
  predicate StartsSection(line: string) {
    StartsWith(Strip(line), "**")
  }

  /** What another line contributes: itself, stripped, while capturing and not blank. */
  function PlainText(line: string, capture: bool): (r: seq<string>)
    ensures forall k :: 0 <= k < |r| ==> r[k] != ""
  {
    if capture && Strip(line) != "" then [Strip(line)] else []
  }

  /** The lines kept for the summary, scanning from the start with the capture
      flag: a marker line switches capture on and contributes its text after the
      marker; once capturing, a line starting with "**" ends the scan; other
      non-blank lines are kept stripped while capturing. */
  function Captured(lines: seq<string>, capture: bool): (r: seq<string>)
    ensures forall k :: 0 <= k < |r| ==> r[k] != ""
    decreases |lines|
  {
    if lines == [] then []
    else if IsMarkerLine(lines[0]) then MarkerText(lines[0]) + Captured(lines[1..], true)
    else if capture && StartsSection(lines[0]) then []
    else PlainText(lines[0], capture) + Captured(lines[1..], capture)
  }

  /** A line that is not blank once stripped and does not start with "#". */
  predicate IsPlainLine(line: string) {
    Strip(line) != "" && !StartsWith(Strip(line), "#")
  }

  /** The index of the first plain line from `k` on. */
  function FirstPlainFrom(lines: seq<string>, k: nat): (r: Option<nat>)
    requires k <= |lines|
    ensures r.Some? ==> k <= r.value < |lines| && IsPlainLine(lines[r.value])
    ensures r.Some? ==> forall j :: k <= j < r.value ==> !IsPlainLine(lines[j])
    ensures r.None? ==> forall j :: k <= j < |lines| ==> !IsPlainLine(lines[j])
    decreases |lines| - k
  {
    if k == |lines| then None
    else if IsPlainLine(lines[k]) then Some(k)
    else FirstPlainFrom(lines, k + 1)
  }

  function Summary(body: string): string {
    var lines := Lines(body);
    var kept := Captured(lines, false);
    if kept != [] then Join(kept, " ")
    else match FirstPlainFrom(lines, 0)
      case Some(i) => Strip(lines[i])
      case None => "Task completed"
  }

  /** One line of the capturing scan, taken from the front of the rest. */
  lemma CapturedStep(lines: seq<string>, i: nat, capture: bool)
    requires i < |lines|
    ensures Captured(lines[i..], capture) ==
      if IsMarkerLine(lines[i]) then MarkerText(lines[i]) + Captured(lines[i + 1..], true)
      else if capture && StartsSection(lines[i]) then []
      else PlainText(lines[i], capture) + Captured(lines[i + 1..], capture)
  {
    assert lines[i..][0] == lines[i] && lines[i..][1..] == lines[i + 1..];
  }

  /** The capturing loop of `_extract_summary`. */
  method CaptureLines(lines: seq<string>) returns (kept: seq<string>)
    ensures kept == Captured(lines, false)
  {
    kept := [];
    var capture := false;
    var i := 0;
    assert lines[0..] == lines;
    while i < |lines|
      invariant 0 <= i <= |lines|
      invariant kept + Captured(lines[i..], capture) == Captured(lines, false)
    {
      var line := lines[i];
      CapturedStep(lines, i, capture);
      if IsMarkerLine(line) {
        AppendAssoc(kept, MarkerText(line), Captured(lines[i + 1..], true));
        kept := kept + MarkerText(line);
        capture := true;
        i := i + 1;
        continue;
      }
      if capture && StartsSection(line) {
        assert kept + [] == kept;
        break;
      }
      AppendAssoc(kept, PlainText(line, capture), Captured(lines[i + 1..], capture));
      kept := kept + PlainText(line, capture);
      i := i + 1;
    }
    if i == |lines| {
      assert lines[i..] == [];
      assert kept + [] == kept;
    }
  }

  /** The fallback loop of `_extract_summary`: the first plain line. */
  method FirstPlainLine(lines: seq<string>) returns (r: Option<nat>)
    ensures r == FirstPlainFrom(lines, 0)
  {
    for j := 0 to |lines|
      invariant FirstPlainFrom(lines, 0) == FirstPlainFrom(lines, j)
    {
      if IsPlainLine(lines[j]) {
        return Some(j);
      }
    }
    return None;
  }

  /** `_extract_summary`: the captured lines joined with spaces, else the fallback. */
  method ExtractSummary(body: string) returns (summary: string)
    ensures summary == Summary(body)
  {
    var lines := Lines(body);
    var kept := CaptureLines(lines);
    if kept != [] {
      return Join(kept, " ");
    }
    var first := FirstPlainLine(lines);
    match first {
      case Some(i) => return Strip(lines[i]);
      case None => return "Task completed";
    }
  }

  /** The summary is never empty. */
  lemma SummaryNonEmpty(body: string)
    ensures Summary(body) != ""
  {
    var kept := Captured(Lines(body), false);
    if kept != [] {
      JoinNonEmpty(kept, " ");
    }
  }

  /** Without capture and without a marker line nothing is captured. */
  lemma {:induction false} NothingCapturedWithoutMarker(lines: seq<string>)
    requires forall k :: 0 <= k < |lines| ==> !Contains(lines[k], CompletionMarker)
    ensures Captured(lines, false) == []
    decreases |lines|
  {
    if lines != [] {
      NothingCapturedWithoutMarker(lines[1..]);
    }
  }

  /** Without a marker line the summary is the first plain line, else "Task completed". */
  lemma SummaryFallback(body: string)
    requires forall k :: 0 <= k < |Lines(body)| ==> !Contains(Lines(body)[k], CompletionMarker)
    ensures var lines := Lines(body);
            match FirstPlainFrom(lines, 0)
            case Some(i) => Summary(body) == Strip(lines[i])
            case None => Summary(body) == "Task completed"
  {
    NothingCapturedWithoutMarker(Lines(body));
  }

  /** A one-line completion comment is summarised by its text after the marker. */
  lemma MarkerLineSummary(text: string)
    requires forall i :: 0 <= i < |text| ==> text[i] != '\n'
    requires Strip(text) != ""
    ensures Summary(CompletionMarker + text) == Strip(text)
  {
    var body := CompletionMarker + text;
    MissingCharNotContained(body, "\n", 0);
    SplitOnAbsent(body, "\n");
    assert Lines(body) == [body];
    assert OccursAt(body, CompletionMarker, 0);
    assert IndexOf(body, CompletionMarker) == Some(0);
    assert AfterFirst(body, CompletionMarker) == text;
    assert Captured([body], false) == [Strip(text)] + Captured([], true);
  }

  // ---------------------------------------------------------------- completions

  /** A comment that yields a completion: new, carrying the marker, by a known agent
      whose handle is not empty (an empty handle is falsy and is dropped). */
  predicate Reported(c: Comment, lastCheck: Option<Time>, handles: seq<string>) {
    IsNew(c, lastCheck) && Contains(c.body, CompletionMarker) &&
    AgentHandleFor(c.author, handles).Some? && AgentHandleFor(c.author, handles).value != ""
  }

  function CompletionOf(c: Comment, issue: int, handles: seq<string>): Completion
    requires AgentHandleFor(c.author, handles).Some?
  {
    Completion(AgentHandleFor(c.author, handles).value, issue, c.createdAt, Summary(c.body))
  }

  /** The completions of a comment list, in comment order. */
  function Completions(comments: seq<Comment>, issue: int, lastCheck: Option<Time>, handles: seq<string>): seq<Completion>
    decreases |comments|
  {
    if comments == [] then []
    else
      var c := comments[|comments| - 1];
      Completions(comments[..|comments| - 1], issue, lastCheck, handles) +
        (if Reported(c, lastCheck, handles) then [CompletionOf(c, issue, handles)] else [])
  }

  /** `poll_for_completions` over the issue's comments. */
  method PollForCompletions(comments: seq<Comment>, issue: int, lastCheck: Option<Time>, handles: seq<string>)
    returns (completions: seq<Completion>)
    ensures completions == Completions(comments, issue, lastCheck, handles)
  {
    completions := [];
    for i := 0 to |comments|
      invariant completions == Completions(comments[..i], issue, lastCheck, handles)
    {
      var c := comments[i];
      CompletionsTakeStep(comments, i, issue, lastCheck, handles);
      if lastCheck.Some? && c.createdAt <= lastCheck.value {
        assert !Reported(c, lastCheck, handles);
        continue;
      }
      if Contains(c.body, CompletionMarker) {
        var handle := ExtractAgentHandle(c.author, handles);
        if handle.Some? && handle.value != "" {
          var summary := ExtractSummary(c.body);
          assert Reported(c, lastCheck, handles);
          completions := completions + [Completion(handle.value, issue, c.createdAt, summary)];
        } else {
          assert !Reported(c, lastCheck, handles);
        }
      } else {
        assert !Reported(c, lastCheck, handles);
      }
    }
    TakeAll(comments);
  }

  /** An empty configured handle matches every author, since "" occurs in any
      text, but it is falsy: listed first, it silences every completion. */
  lemma {:induction false} EmptyFirstHandleReportsNothing(comments: seq<Comment>, issue: int, lastCheck: Option<Time>, handles: seq<string>)
    requires |handles| > 0 && handles[0] == ""
    ensures Completions(comments, issue, lastCheck, handles) == []
    decreases |comments|
  {
    if comments != [] {
      var c := comments[|comments| - 1];
      ContainsEmpty(NormalizedAuthor(c.author));
      assert FirstMatchFrom(NormalizedAuthor(c.author), handles, 0) == Some(0);
      assert !Reported(c, lastCheck, handles);
      EmptyFirstHandleReportsNothing(comments[..|comments| - 1], issue, lastCheck, handles);
    }
  }

  /** One more comment of the list considered. */
  lemma CompletionsTakeStep(comments: seq<Comment>, i: nat, issue: int, lastCheck: Option<Time>, handles: seq<string>)
    requires i < |comments|
    ensures Completions(comments[..i + 1], issue, lastCheck, handles) ==
      Completions(comments[..i], issue, lastCheck, handles) +
        (if Reported(comments[i], lastCheck, handles) then [CompletionOf(comments[i], issue, handles)] else [])
  {
    TakeOfTake(comments, i);
  }

  /** Completions distribute over concatenation: each comment contributes on its
      own, and the order of the list is kept. */
  lemma {:induction false} CompletionsAppend(a: seq<Comment>, b: seq<Comment>, issue: int, lastCheck: Option<Time>, handles: seq<string>)
    ensures Completions(a + b, issue, lastCheck, handles) ==
            Completions(a, issue, lastCheck, handles) + Completions(b, issue, lastCheck, handles)
    decreases |b|
  {
    if b != [] {
      var b' := b[..|b| - 1];
      assert (a + b)[..|a + b| - 1] == a + b';
      assert (a + b)[|a + b| - 1] == b[|b| - 1];
      CompletionsAppend(a, b', issue, lastCheck, handles);
      assert b[..|b| - 1] == b';
    } else {
      assert a + b == a;
    }
  }

  /** The indices at which a flag is set, in increasing order. */
  function SetIndices(flags: seq<bool>): (r: seq<nat>)
    ensures forall k :: 0 <= k < |r| ==> r[k] < |flags|
    decreases |flags|
  {
    if flags == [] then []
    else
      var n := |flags| - 1;
      SetIndices(flags[..n]) + (if flags[n] then [n] else [])
  }

  predicate StrictlyIncreasing(xs: seq<nat>) {
    forall k, l :: 0 <= k < l < |xs| ==> xs[k] < xs[l]
  }

  lemma {:induction false} SetIndicesIncrease(flags: seq<bool>)
    ensures StrictlyIncreasing(SetIndices(flags))
    decreases |flags|
  {
    if flags != [] {
      var n := |flags| - 1;
      SetIndicesIncrease(flags[..n]);
      var r0 := SetIndices(flags[..n]);
      var r := SetIndices(flags);
      assert r == r0 + (if flags[n] then [n] else []);
      forall k, l | 0 <= k < l < |r|
        ensures r[k] < r[l]
      {
        if l >= |r0| {
          assert r[l] == n && r[k] == r0[k];
        } else {
          assert r[l] == r0[l] && r[k] == r0[k];
        }
      }
    }
  }

  lemma {:induction false} SetIndicesExactly(flags: seq<bool>)
    ensures forall i :: 0 <= i < |flags| ==> (i in SetIndices(flags) <==> flags[i])
    decreases |flags|
  {
    if flags != [] {
      var n := |flags| - 1;
      var init := flags[..n];
      SetIndicesExactly(init);
      var r0 := SetIndices(init);
      var tail := if flags[n] then [n] else [];
      assert SetIndices(flags) == r0 + tail;
      forall i | 0 <= i < |flags|
        ensures i in r0 + tail <==> flags[i]
      {
        if i < n {
          assert flags[i] == init[i];
          assert i !in tail;
        } else {
          assert n !in r0;
        }
      }
    }
  }

  /** Which comments yield a completion. */
  function ReportedFlags(comments: seq<Comment>, lastCheck: Option<Time>, handles: seq<string>): (flags: seq<bool>)
    ensures |flags| == |comments|
    ensures forall j :: 0 <= j < |comments| ==> flags[j] == Reported(comments[j], lastCheck, handles)
  {
    seq(|comments|, j requires 0 <= j < |comments| => Reported(comments[j], lastCheck, handles))
  }

  /** The indices of the reported comments, in increasing order. */
  function ReportedIndices(comments: seq<Comment>, lastCheck: Option<Time>, handles: seq<string>): (r: seq<nat>)
    ensures forall k :: 0 <= k < |r| ==> r[k] < |comments|
  {
    SetIndices(ReportedFlags(comments, lastCheck, handles))
  }

  /** The reported comments' indices increase. */
  lemma ReportedIndicesIncrease(comments: seq<Comment>, lastCheck: Option<Time>, handles: seq<string>)
    ensures StrictlyIncreasing(ReportedIndices(comments, lastCheck, handles))
  {
    SetIndicesIncrease(ReportedFlags(comments, lastCheck, handles));
  }

  /** The reported indices are exactly those of comments that are new, carry the
      marker and come from a known agent. */
  lemma ReportedIndicesExactly(comments: seq<Comment>, lastCheck: Option<Time>, handles: seq<string>)
    ensures forall i :: 0 <= i < |comments| ==>
      (i in ReportedIndices(comments, lastCheck, handles) <==> Reported(comments[i], lastCheck, handles))
  {
    var flags := ReportedFlags(comments, lastCheck, handles);
    SetIndicesExactly(flags);
    forall i | 0 <= i < |comments|
      ensures i in ReportedIndices(comments, lastCheck, handles) <==> Reported(comments[i], lastCheck, handles)
    {
      assert flags[i] == Reported(comments[i], lastCheck, handles);
    }
  }

  /** The flags of a prefix are the prefix of the flags. */
  lemma ReportedFlagsPrefix(comments: seq<Comment>, n: nat, lastCheck: Option<Time>, handles: seq<string>)
    requires n <= |comments|
    ensures ReportedFlags(comments[..n], lastCheck, handles) == ReportedFlags(comments, lastCheck, handles)[..n]
  {
    var a, b := ReportedFlags(comments[..n], lastCheck, handles), ReportedFlags(comments, lastCheck, handles)[..n];
    forall j | 0 <= j < n
      ensures a[j] == b[j]
    {
      assert comments[..n][j] == comments[j];
    }
  }

  /** Each completion is that of the comment at the matching reported index. */
  predicate FollowsIndices(comments: seq<Comment>, issue: int, lastCheck: Option<Time>, handles: seq<string>) {
    var r := Completions(comments, issue, lastCheck, handles);
    var idx := ReportedIndices(comments, lastCheck, handles);
    |r| == |idx| &&
    forall k :: 0 <= k < |r| ==> (Reported(comments[idx[k]], lastCheck, handles) &&
      r[k] == CompletionOf(comments[idx[k]], issue, handles))
  }

  lemma FollowsIndicesStep(comments: seq<Comment>, issue: int, lastCheck: Option<Time>, handles: seq<string>)
    requires comments != []
    requires FollowsIndices(comments[..|comments| - 1], issue, lastCheck, handles)
    ensures FollowsIndices(comments, issue, lastCheck, handles)
  {
    var n := |comments| - 1;
    var init := comments[..n];
    var c := comments[n];
    var reported := Reported(c, lastCheck, handles);
    var flags := ReportedFlags(comments, lastCheck, handles);
    ReportedFlagsPrefix(comments, n, lastCheck, handles);
    var r0, idx0 := Completions(init, issue, lastCheck, handles), ReportedIndices(init, lastCheck, handles);
    var r, idx := Completions(comments, issue, lastCheck, handles), ReportedIndices(comments, lastCheck, handles);
    assert flags[n] == reported;
    assert idx == idx0 + (if reported then [n] else []);
    assert r == r0 + (if reported then [CompletionOf(c, issue, handles)] else []);
    forall k | 0 <= k < |r|
      ensures Reported(comments[idx[k]], lastCheck, handles) && r[k] == CompletionOf(comments[idx[k]], issue, handles)
    {
      if k < |r0| {
        assert r[k] == r0[k] && idx[k] == idx0[k];
        assert comments[idx0[k]] == init[idx0[k]];
      } else {
        assert idx[k] == n && r[k] == CompletionOf(c, issue, handles);
      }
    }
  }

  /** Each completion is the completion of the comment at the matching reported index. */
  lemma {:induction false} CompletionsFollowIndices(comments: seq<Comment>, issue: int, lastCheck: Option<Time>, handles: seq<string>)
    ensures var r := Completions(comments, issue, lastCheck, handles);
            var idx := ReportedIndices(comments, lastCheck, handles);
            |r| == |idx| &&
            forall k :: 0 <= k < |r| ==> (Reported(comments[idx[k]], lastCheck, handles) &&
              r[k] == CompletionOf(comments[idx[k]], issue, handles))
    decreases |comments|
  {
    if comments != [] {
      CompletionsFollowIndices(comments[..|comments| - 1], issue, lastCheck, handles);
      FollowsIndicesStep(comments, issue, lastCheck, handles);
    }
  }

  /** A comment created exactly at the last check is skipped. */
  lemma AtLastCheckSkipped(comments: seq<Comment>, issue: int, handles: seq<string>, c: Comment)
    ensures Completions(comments + [c], issue, Some(c.createdAt), handles) ==
            Completions(comments, issue, Some(c.createdAt), handles)
  {
    TakeOfSnoc(comments, c);
  }

  // ---------------------------------------------------------------- approvals

  /** `any(k in body.lower() for k in ["approved", "lgtm", "approve"])`. */
  predicate IsApproval(body: string) {
    var lower := Lower(body);
    Contains(lower, "approved") || Contains(lower, "lgtm") || Contains(lower, "approve")
  }

  /** "approved" is redundant: it contains "approve". So every word that contains
      "approve", "disapprove" among them, counts as approval. */
  lemma ApprovalKeywordsReduce(body: string)
    ensures IsApproval(body) <==> Contains(Lower(body), "lgtm") || Contains(Lower(body), "approve")
    ensures IsApproval("disapprove")
  {
    if Contains(Lower(body), "approved") {
      ContainsPrefix(Lower(body), "approved", 7);
      assert "approved"[..7] == "approve";
    }
    LowerOfNoUpper("disapprove");
    assert OccursAt("disapprove", "approve", 3);
    ContainsAt("disapprove", "approve", 3);
  }

  /** A body without the letters "a" and "g", in either case, holds no approval
      keyword. */
  lemma NoApprovalWithoutKeyLetters(body: string)
    requires forall i :: 0 <= i < |body| ==> body[i] !in {'a', 'A', 'g', 'G'}
    ensures !IsApproval(body)
  {
    var lower := Lower(body);
    assert forall i :: 0 <= i < |lower| ==> lower[i] != 'a' && lower[i] != 'g';
    MissingCharNotContained(lower, "approved", 0);
    MissingCharNotContained(lower, "lgtm", 1);
    MissingCharNotContained(lower, "approve", 0);
  }

  /** "Needs more work" is not an approval. */
  lemma NeedsMoreWorkIsNoApproval()
    ensures !IsApproval("Needs more work")
  {
    var body := "Needs more work";
    assert forall i :: 0 <= i < |body| ==> body[i] !in {'a', 'A', 'g', 'G'};
    NoApprovalWithoutKeyLetters(body);
  }

  predicate Approves(c: Comment, lastCheck: Option<Time>) {
    IsNew(c, lastCheck) && IsApproval(c.body)
  }

  /** The last index below `n` at which a flag is set. */
  function LatestSetBelow(flags: seq<bool>, n: nat): (r: Option<nat>)
    requires n <= |flags|
    ensures r.Some? ==> r.value < n && flags[r.value]
    ensures r.Some? ==> forall j :: r.value < j < n ==> !flags[j]
    ensures r.None? ==> forall j :: 0 <= j < n ==> !flags[j]
  {
    if n == 0 then None
    else if flags[n - 1] then Some(n - 1)
    else LatestSetBelow(flags, n - 1)
  }

  /** Which comments are new and approve. */
  function ApprovalFlags(comments: seq<Comment>, lastCheck: Option<Time>): (flags: seq<bool>)
    ensures |flags| == |comments|
    ensures forall j :: 0 <= j < |comments| ==> flags[j] == Approves(comments[j], lastCheck)
  {
    seq(|comments|, j requires 0 <= j < |comments| => Approves(comments[j], lastCheck))
  }

  /** The last index below `n` of a new approving comment. */
  function LatestApprovalBelow(comments: seq<Comment>, lastCheck: Option<Time>, n: nat): (r: Option<nat>)
    requires n <= |comments|
    ensures r.Some? ==> r.value < n
  {
    LatestSetBelow(ApprovalFlags(comments, lastCheck), n)
  }

  function LatestApproval(comments: seq<Comment>, issue: int, lastCheck: Option<Time>): Option<Approval> {
    match LatestApprovalBelow(comments, lastCheck, |comments|)
    case Some(i) => Some(Approval(issue, comments[i].createdAt, comments[i].author))
    case None => None
  }

  /** One more comment of the newest-first scan. */
  lemma ApprovalStep(comments: seq<Comment>, lastCheck: Option<Time>, i: nat)
    requires i < |comments|
    ensures LatestApprovalBelow(comments, lastCheck, i + 1) ==
      if lastCheck.Some? && comments[i].createdAt <= lastCheck.value then LatestApprovalBelow(comments, lastCheck, i)
      else if IsApproval(comments[i].body) then Some(i) else LatestApprovalBelow(comments, lastCheck, i)
  {
    assert ApprovalFlags(comments, lastCheck)[i] == Approves(comments[i], lastCheck);
  }

  /** The scan's answer once the newest approving comment is known. */
  lemma ScanAnswer(comments: seq<Comment>, issue: int, lastCheck: Option<Time>, found: Option<nat>)
    requires LatestApprovalBelow(comments, lastCheck, |comments|) == found
    ensures found.Some? ==>
              (found.value < |comments| &&
               LatestApproval(comments, issue, lastCheck) ==
                 Some(Approval(issue, comments[found.value].createdAt, comments[found.value].author)))
    ensures found.None? ==> LatestApproval(comments, issue, lastCheck).None?
  {
  }

  /** `poll_for_approval`: scans the comments newest first. */
  method PollForApproval(comments: seq<Comment>, issue: int, lastCheck: Option<Time>) returns (r: Option<Approval>)
    ensures r == LatestApproval(comments, issue, lastCheck)
  {
    var i := |comments|;
    while i > 0
      invariant 0 <= i <= |comments|
      invariant LatestApprovalBelow(comments, lastCheck, |comments|) == LatestApprovalBelow(comments, lastCheck, i)
    {
      i := i - 1;
      var c := comments[i];
      ApprovalStep(comments, lastCheck, i);
      if lastCheck.Some? && c.createdAt <= lastCheck.value {
        continue;
      }
      if IsApproval(c.body) {
        ScanAnswer(comments, issue, lastCheck, Some(i));
        return Some(Approval(issue, c.createdAt, c.author));
      }
    }
    ScanAnswer(comments, issue, lastCheck, None);
    return None;
  }

  /** The scan below `n` finds the newest approving comment below `n`, and finds
      none exactly when none below `n` approves. */
  lemma LatestApprovalBelowSpec(comments: seq<Comment>, lastCheck: Option<Time>, n: nat)
    requires n <= |comments|
    ensures var r := LatestApprovalBelow(comments, lastCheck, n);
      && (r.Some? ==> Approves(comments[r.value], lastCheck))
      && (r.Some? ==> forall j :: r.value < j < n ==> !Approves(comments[j], lastCheck))
      && (r.None? ==> forall j :: 0 <= j < n ==> !Approves(comments[j], lastCheck))
  {
    var flags := ApprovalFlags(comments, lastCheck);
    var r := LatestSetBelow(flags, n);
    if r.Some? {
      assert flags[r.value];
      forall j | r.value < j < n
        ensures !Approves(comments[j], lastCheck)
      {
        assert !flags[j];
      }
    } else {
      forall j | 0 <= j < n
        ensures !Approves(comments[j], lastCheck)
      {
        assert !flags[j];
      }
    }
  }

  /** The reported approval is the newest new approving comment, and there is none
      exactly when no new comment approves. */
  lemma LatestApprovalIsNewest(comments: seq<Comment>, issue: int, lastCheck: Option<Time>)
    ensures LatestApproval(comments, issue, lastCheck).None? <==>
      forall j :: 0 <= j < |comments| ==> !Approves(comments[j], lastCheck)
    ensures LatestApproval(comments, issue, lastCheck).Some? ==>
      exists i :: 0 <= i < |comments| && Approves(comments[i], lastCheck) &&
        LatestApproval(comments, issue, lastCheck).value == Approval(issue, comments[i].createdAt, comments[i].author) &&
        forall j :: i < j < |comments| ==> !Approves(comments[j], lastCheck)
  {
    LatestApprovalBelowSpec(comments, lastCheck, |comments|);
  }
}
