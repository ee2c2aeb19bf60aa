/**
 * The GitHub adapter's own logic, with the `gh` command line as the boundary:
 * the worktree it reads specs and plans from, the identifiers it reads back
 * from the URLs `gh` prints, the argument lists it builds, the filters of
 * `get_comments` and the phase it reads from an issue's labels.
 *
 * Python's truthiness decides the optional arguments: `None` and the empty
 * string both mean "not given".
 */
module GitHubAdapters {
  import opened Wrappers
  import opened Text
  import opened Clock
  import opened Slugs
  import opened Worktrees
  import opened GitHubPollers

  // ---------------------------------------------------------------- worktree

  /** The branch name `_get_worktree_path` derives: the issue number, a hyphen and
      the slug cut to 50 characters. */
  function AdapterBranchName(issue: int, title: string): string {
    IntToString(issue) + "-" + ShortSlug(title)
  }

  /** `_get_worktree_path` as written: the derived path when it exists on disk. */
  function WorktreeLookupAsWritten(base: string, paths: set<string>, issue: int, title: string): (r: Option<string>)
    ensures r.Some? ==> r.value in paths
  {
    var p := WorktreePath(base, AdapterBranchName(issue, title));
    if p in paths then Some(p) else None
  }

  /** The adapter's name is the worktree manager's exactly when the slug fits. */
  lemma AdapterBranchNameAgreement(issue: int, title: string)
    ensures AdapterBranchName(issue, title) == BranchName(issue, title) <==> |Slugify(title)| <= MaxSlugLength
  {
    ShortSlugShape(title);
    var d := IntToString(issue);
    if AdapterBranchName(issue, title) == BranchName(issue, title) {
      assert |d + "-" + ShortSlug(title)| == |d + "-" + Slugify(title)|;
    }
  }

  /** A title of sixty letters has a slug longer than the cut. */
  lemma LongTitle()
    ensures |Slugify(seq(60, _ => 'a'))| > MaxSlugLength
  {
    var w := seq(60, _ => 'a');
    assert Join([w], " ") == w && Join([w], "-") == w;
    SlugOfWords([w]);
  }

  /** Once the worktree manager has created the worktree of an issue whose title
      slugifies to more than 50 characters, the adapter still finds no worktree. */
  lemma LookupAsWrittenMissesLongTitles(base: string, paths: set<string>, issue: int, title: string)
    requires |Slugify(title)| > MaxSlugLength
    requires WorktreePath(base, AdapterBranchName(issue, title)) !in paths
    ensures WorktreeLookupAsWritten(base, paths + {WorktreePath(base, BranchName(issue, title))}, issue, title) == None
  {
    ShortSlugShape(title);
    var short := WorktreePath(base, AdapterBranchName(issue, title));
    var full := WorktreePath(base, BranchName(issue, title));
    assert |short| < |full|;
  }

  /** The lookup with the worktree manager's branch name. */
  function WorktreeLookup(base: string, paths: set<string>, issue: int, title: string): (r: Option<string>)
    ensures r.Some? ==> r.value in paths
  {
    var p := WorktreePath(base, BranchName(issue, title));
    if p in paths then Some(p) else None
  }

  /** Whatever else is on disk, the lookup finds the worktree the manager created,
      and it agrees with the lookup as written for every title that fits. */
  lemma LookupFindsCreatedWorktree(base: string, paths: set<string>, issue: int, title: string)
    ensures WorktreeLookup(base, paths + {WorktreePath(base, BranchName(issue, title))}, issue, title)
         == Some(WorktreePath(base, BranchName(issue, title)))
    ensures |Slugify(title)| <= MaxSlugLength ==>
      WorktreeLookup(base, paths, issue, title) == WorktreeLookupAsWritten(base, paths, issue, title)
  {
    AdapterBranchNameAgreement(issue, title);
  }

  /** `create_worktree` followed by the adapter's lookup on the same disk. */
  method CreateThenLookup(m: WorktreeManager, issue: int, title: string) returns (found: Option<string>)
    modifies m
    ensures found.Some? <==> WorktreePath(m.worktreeBase, BranchName(issue, title)) in m.paths
    ensures found.Some? ==> found.value == WorktreePath(m.worktreeBase, BranchName(issue, title))
  {
    var created := m.CreateWorktree(issue, title);
    if created.Ok? {
      LookupFindsCreatedWorktree(m.worktreeBase, old(m.paths), issue, title);
    }
    found := WorktreeLookup(m.worktreeBase, m.paths, issue, title);
  }

  // ---------------------------------------------------------------- URLs printed by gh

  const CommentMarker: string := "#issuecomment-"
  const IssueMarker: string := "/issues/"

  /** The trimmed text after the last occurrence of the marker in the trimmed
      output, or `"unknown"` when the marker is absent. */
  function Suffix(stdout: string, marker: string): (r: string)
    requires |marker| > 0
    ensures !Contains(Strip(stdout), marker) ==> r == "unknown"
  {
    var out := Strip(stdout);
    if Contains(out, marker) then Strip(LastPiece(out, marker)) else "unknown"
  }

  /** `post_comment`: the comment id from the printed comment URL. */
  function CommentIdFrom(stdout: string): string {
    Suffix(stdout, CommentMarker)
  }

  /** `create_issue`: the issue number from the printed issue URL. */
  function IssueNumberFrom(stdout: string): string {
    Suffix(stdout, IssueMarker)
  }

  /** Digits are their own strip. */
  lemma StripDigits(n: nat)
    ensures Strip(NatToString(n)) == NatToString(n)
  {
    var d := NatToString(n);
    assert IsDigit(d[0]) && IsDigit(d[|d| - 1]);
    StripOfTrimmed(d);
  }

  /** When the marker first occurs right after `u` and is followed by digits, the
      last piece of the split is the digits. */
  lemma LastPieceOfUrl(u: string, marker: string, n: nat)
    requires |marker| > 0 && !IsDigit(marker[0])
    requires forall j: nat :: j < |u| ==> !OccursAt(u + marker + NatToString(n), marker, j)
    ensures LastPiece(u + marker + NatToString(n), marker) == NatToString(n)
  {
    var d := NatToString(n);
    SplitOnFirstOccurrence(u, marker, d);
    MissingCharNotContained(d, marker, 0);
    SplitOnAbsent(d, marker);
  }

  /** Shared step of the URL round trips: when the marker first occurs right after
      `u` and is followed by digits, the digits come back. */
  lemma SuffixOfUrl(u: string, marker: string, n: nat)
    requires |marker| > 0 && !IsDigit(marker[0]) && !IsSpace(marker[0])
    requires u == [] || !IsSpace(u[0])
    requires forall j: nat :: j < |u| ==> !OccursAt(u + marker + NatToString(n), marker, j)
    ensures Suffix(u + marker + NatToString(n), marker) == NatToString(n)
  {
    var d := NatToString(n);
    var s := u + marker + d;
    assert !IsSpace(s[0]) by {
      assert s[0] == (if u == [] then marker[0] else u[0]);
    }
    assert !IsSpace(s[|s| - 1]) by {
      assert s[|s| - 1] == d[|d| - 1] && IsDigit(d[|d| - 1]);
    }
    StripOfTrimmed(s);
    assert s[|u|..|u| + |marker|] == marker;
    ContainsAt(s, marker, |u|);
    LastPieceOfUrl(u, marker, n);
    StripDigits(n);
  }

  /** The comment id of a comment URL whose address part holds no `#`
      ("https://github.com/owner/repo/issues/123#issuecomment-456789"). */
  lemma CommentIdOfUrl(u: string, n: nat)
    requires '#' !in u
    requires u == [] || !IsSpace(u[0])
    ensures CommentIdFrom(u + CommentMarker + NatToString(n)) == NatToString(n)
  {
    var s := u + CommentMarker + NatToString(n);
    forall j: nat | j < |u|
      ensures !OccursAt(s, CommentMarker, j)
    {
      assert s[j] == u[j];
    }
    SuffixOfUrl(u, CommentMarker, n);
  }

  /** The issue number of an issue URL whose first `/issues/` is the one before the
      number ("https://github.com/owner/repo/issues/123"). */
  lemma IssueNumberOfUrl(u: string, n: nat)
    requires u == [] || !IsSpace(u[0])
    requires forall j: nat :: j < |u| ==> !OccursAt(u + IssueMarker + NatToString(n), IssueMarker, j)
    ensures IssueNumberFrom(u + IssueMarker + NatToString(n)) == NatToString(n)
  {
    SuffixOfUrl(u, IssueMarker, n);
  }

  // ---------------------------------------------------------------- argument lists

  /** A text argument Python treats as given: present and non-empty. */
  predicate Given(o: Option<string>) {
    o.Some? && o.value != ""
  }

  /** `create_issue`'s arguments: the labels go comma-joined after `--label`, and
      only when there are some. */
  function CreateIssueArgs(repo: string, title: string, body: string, labels: seq<string>): seq<string> {
    ["issue", "create", "--repo", repo, "--title", title, "--body", body]
      + (if labels != [] then ["--label", Join(labels, ",")] else [])
  }

  /** The label argument is there exactly when labels are, and when no label holds
      a comma, splitting it at commas gives the labels back. */
  lemma CreateIssueLabels(repo: string, title: string, body: string, labels: seq<string>)
    requires forall k :: 0 <= k < |labels| ==> ',' !in labels[k]
    ensures var args := CreateIssueArgs(repo, title, body, labels);
            && args[..8] == ["issue", "create", "--repo", repo, "--title", title, "--body", body]
            && (|args| > 8 <==> labels != [])
            && (labels != [] ==> |args| == 10 && args[8] == "--label" && SplitOn(args[9], ",") == labels)
  {
    if labels != [] {
      SplitJoin(labels, ',');
    }
  }

  /** `update_issue`'s arguments: `--title` and `--body` only for given values. */
  function UpdateIssueArgs(issue: string, repo: string, title: Option<string>, body: Option<string>): seq<string> {
    ["issue", "edit", issue, "--repo", repo]
      + (if Given(title) then ["--title", title.value] else [])
      + (if Given(body) then ["--body", body.value] else [])
  }

  /** Reading the arguments back: the title flag follows the fixed part exactly when
      a title is given, the body flag is next to last exactly when a body is, and
      each is followed by its value. */
  lemma UpdateIssueFlags(issue: string, repo: string, title: Option<string>, body: Option<string>)
    ensures var args := UpdateIssueArgs(issue, repo, title, body);
            && args[..5] == ["issue", "edit", issue, "--repo", repo]
            && (|args| > 5 && args[5] == "--title" <==> Given(title))
            && (Given(title) ==> args[6] == title.value)
            && (|args| > 5 && args[|args| - 2] == "--body" <==> Given(body))
            && (Given(body) ==> args[|args| - 1] == body.value)
  {
  }

  // ---------------------------------------------------------------- comments

  /** What `get_comments` keeps: created at or after `since` when given, and by
      `from_author` when given. */
  predicate KeptBy(c: Comment, since: Option<Time>, fromAuthor: Option<string>) {
    (since.None? || since.value <= c.createdAt) && (!Given(fromAuthor) || c.author == fromAuthor.value)
  }

  /** `get_comments` after decoding: both filters, in comment order. */
  function FilterComments(cs: seq<Comment>, since: Option<Time>, fromAuthor: Option<string>): (r: seq<Comment>)
    ensures |r| <= |cs|
  {
    if cs == [] then []
    else
      var rest := FilterComments(cs[1..], since, fromAuthor);
      if KeptBy(cs[0], since, fromAuthor) then [cs[0]] + rest else rest
  }

  /** A comment is returned exactly when it is in the list and passes the filters. */
  lemma {:induction false} FilterCommentsMembers(cs: seq<Comment>, since: Option<Time>, fromAuthor: Option<string>, c: Comment)
    ensures c in FilterComments(cs, since, fromAuthor) <==> c in cs && KeptBy(c, since, fromAuthor)
  {
    if cs != [] {
      FilterCommentsMembers(cs[1..], since, fromAuthor, c);
      assert cs == [cs[0]] + cs[1..];
    }
  }

  /** Filtering a concatenation filters each part in place: the order of the
      comments is kept. */
  lemma {:induction false} FilterCommentsAppend(a: seq<Comment>, b: seq<Comment>, since: Option<Time>, fromAuthor: Option<string>)
    ensures FilterComments(a + b, since, fromAuthor) == FilterComments(a, since, fromAuthor) + FilterComments(b, since, fromAuthor)
  {
    if a != [] {
      FilterCommentsAppend(a[1..], b, since, fromAuthor);
      assert (a + b)[1..] == a[1..] + b;
    } else {
      assert a + b == b;
    }
  }

  /** With no filter given every comment comes back. */
  lemma {:induction false} NoFilterKeepsAll(cs: seq<Comment>, fromAuthor: Option<string>)
    requires !Given(fromAuthor)
    ensures FilterComments(cs, None, fromAuthor) == cs
  {
    if cs != [] {
      NoFilterKeepsAll(cs[1..], fromAuthor);
      assert cs == [cs[0]] + cs[1..];
    }
  }

  /** The adapter's time filter is inclusive where the poller's is strict: a
      comment created exactly at the cut-off is kept here and skipped there. */
  lemma CutOffDivergence(c: Comment)
    ensures KeptBy(c, Some(c.createdAt), None)
    ensures !IsNew(c, Some(c.createdAt))
  {
  }

  // ---------------------------------------------------------------- phase label

  const StatusPrefix: string := "status:"

  /** The phase in `get_issue_context`: the first label, in order, that starts with
      `status:`, or none. */
  method PhaseFromLabels(labels: seq<string>) returns (phase: Option<string>)
    ensures phase.None? <==> forall i :: 0 <= i < |labels| ==> !StartsWith(labels[i], StatusPrefix)
    ensures phase.Some? ==>
      exists i :: 0 <= i < |labels| && labels[i] == phase.value && StartsWith(labels[i], StatusPrefix) && forall j :: 0 <= j < i ==> !StartsWith(labels[j], StatusPrefix)
  {
    phase := None;
    var i := 0;
    while i < |labels|
      invariant 0 <= i <= |labels|
      invariant forall j :: 0 <= j < i ==> !StartsWith(labels[j], StatusPrefix)
    {
      if StartsWith(labels[i], StatusPrefix) {
        phase := Some(labels[i]);
        return;
      }
      i := i + 1;
    }
  }
}
