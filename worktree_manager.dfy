/**
 * Git worktrees, one per feature. The branch of a feature is its issue number,
 * a hyphen and the untruncated slug of its title; its worktree lives at that
 * name under the worktree base directory. The repository's reference names and
 * the paths present on disk are sets the manager changes.
 */
module Worktrees {
  import opened Wrappers
  import opened Text
  import opened Slugs
  import opened Collections

  /** `f"{issue_number}-{slug}"` with the worktree manager's slug. */
  function BranchName(issue: int, title: string): string {
    IntToString(issue) + "-" + Slugify(title)
  }

  /** `worktree_base / branch_name`. */
  function WorktreePath(base: string, branch: string): string {
    base + "/" + branch
  }

  /** Digits, a hyphen and a slug-shaped tail keep the slug alphabet and have no
      `--`. */
  lemma DigitsHyphenTail(d: string, s: string)
    requires forall i :: 0 <= i < |d| ==> IsDigit(d[i])
    requires AllSlugChars(s) && NoDoubleHyphen(s) && (s == [] || s[0] != '-')
    ensures AllSlugChars(d + "-" + s) && NoDoubleHyphen(d + "-" + s)
  {
    var b := d + "-" + s;
    forall i | 0 <= i < |b|
      ensures IsSlugChar(b[i])
    {
      if i < |d| {
        assert b[i] == d[i];
      } else if i > |d| {
        assert b[i] == s[i - |d| - 1];
      }
    }
    forall i | 0 <= i < |b| - 1
      ensures !(b[i] == '-' && b[i + 1] == '-')
    {
      if i < |d| {
        assert b[i] == d[i];
      } else if i == |d| {
        assert b[i + 1] == s[0];
      } else {
        assert b[i] == s[i - |d| - 1] && b[i + 1] == s[i - |d|];
      }
    }
  }

  /** For an issue number the branch name keeps the slug alphabet, has no `--` and
      does not start with `-`; the slug is what follows the first hyphen. */
  lemma BranchNameShape(issue: nat, title: string)
    ensures AllSlugChars(BranchName(issue, title))
    ensures NoDoubleHyphen(BranchName(issue, title))
    ensures BranchName(issue, title)[0] != '-'
    ensures BranchName(issue, title)[|IntToString(issue)| + 1..] == Slugify(title)
  {
    var d, s := NatToString(issue), Slugify(title);
    assert IntToString(issue) == d;
    var b := d + "-" + s;
    assert BranchName(issue, title) == b;
    SlugifyIsSlug(title);
    NatToStringHead(issue);
    assert b[0] == d[0];
    DigitsHyphenTail(d, s);
    assert b[|d| + 1..] == s;
  }

  /** Two features with different issue numbers never share a branch, and one issue
      gets the same branch for two titles only when their slugs agree. */
  lemma BranchNameInjective(n1: nat, t1: string, n2: nat, t2: string)
    requires BranchName(n1, t1) == BranchName(n2, t2)
    ensures n1 == n2 && Slugify(t1) == Slugify(t2)
  {
    var d1, d2 := IntToString(n1), IntToString(n2);
    assert forall i :: 0 <= i < |d1| ==> d1[i] != '-';
    assert forall i :: 0 <= i < |d2| ==> d2[i] != '-';
    assert d1 + ['-'] + Slugify(t1) == d2 + ['-'] + Slugify(t2);
    SplitAtFirstChar(d1, Slugify(t1), d2, Slugify(t2), '-');
    IntToStringInjective(n1, n2);
  }

  datatype WorktreeInfo = WorktreeInfo(issueNumber: int, branchName: string, worktreePath: string)

  /** The `ValueError`s the manager raises. */
  datatype WorktreeError =
    | BranchExists(branch: string)
    | PathExists(path: string)
    | WorktreeMissing(path: string)

  class WorktreeManager {
    const worktreeBase: string
    /** The names of the repository's references. */
    var refs: set<string>
    /** The paths that exist on disk. */
    var paths: set<string>

    constructor(base: string, refs0: set<string>, paths0: set<string>)
      ensures worktreeBase == base && refs == refs0 && paths == paths0
    {
      worktreeBase := base;
      refs := refs0;
      paths := paths0;
    }

    /** `create_worktree`: refuses a branch name that is already a reference, then a
        worktree path that already exists; otherwise creates both. */
    method CreateWorktree(issue: int, title: string) returns (r: Result<WorktreeInfo, WorktreeError>)
      modifies this
      ensures var b := BranchName(issue, title);
              var p := WorktreePath(worktreeBase, b);
              && (r == Err(BranchExists(b)) <==> b in old(refs))
              && (r == Err(PathExists(p)) <==> b !in old(refs) && p in old(paths))
              && (r.Ok? <==> b !in old(refs) && p !in old(paths))
              && (r.Ok? ==> r.value == WorktreeInfo(issue, b, p))
      ensures r.Err? ==> refs == old(refs) && paths == old(paths)
      ensures r.Ok? ==> refs == old(refs) + {r.value.branchName} && paths == old(paths) + {r.value.worktreePath}
    {
      var b := BranchName(issue, title);
      if b in refs {
        return Err(BranchExists(b));
      }
      var p := WorktreePath(worktreeBase, b);
      if p in paths {
        return Err(PathExists(p));
      }
      refs := refs + {b};
      paths := paths + {p};
      return Ok(WorktreeInfo(issue, b, p));
    }

    /** `delete_worktree`: refuses a missing worktree path; otherwise removes the
        worktree and the local branch. */
    method DeleteWorktree(branch: string) returns (r: Result<(), WorktreeError>)
      modifies this
      ensures var p := WorktreePath(worktreeBase, branch);
              && (r.Err? <==> p !in old(paths))
              && (r.Err? ==> r.error == WorktreeMissing(p) && refs == old(refs) && paths == old(paths))
              && (r.Ok? ==> refs == old(refs) - {branch} && paths == old(paths) - {p})
    {
      var p := WorktreePath(worktreeBase, branch);
      if p !in paths {
        return Err(WorktreeMissing(p));
      }
      paths := paths - {p};
      refs := refs - {branch};
      return Ok(());
    }

    /** `worktree_exists`: the worktree path of the branch is present. */
    method WorktreeExists(branch: string) returns (b: bool)
      ensures b <==> WorktreePath(worktreeBase, branch) in paths
    {
      return WorktreePath(worktreeBase, branch) in paths;
    }
  }

  /** A created worktree exists, and creating it a second time fails on the branch
      and changes nothing. */
  method CreateTwice(m: WorktreeManager, issue: int, title: string)
    requires BranchName(issue, title) !in m.refs
    requires WorktreePath(m.worktreeBase, BranchName(issue, title)) !in m.paths
    modifies m
    ensures m.refs == old(m.refs) + {BranchName(issue, title)}
    ensures m.paths == old(m.paths) + {WorktreePath(m.worktreeBase, BranchName(issue, title))}
  {
    var b := BranchName(issue, title);
    var first := m.CreateWorktree(issue, title);
    assert first.Ok?;
    var present := m.WorktreeExists(b);
    assert present;
    var second := m.CreateWorktree(issue, title);
    assert second == Err(BranchExists(b));
  }

  /** After deleting a created worktree it no longer exists, and it can be created
      again. */
  method DeleteAndRecreate(m: WorktreeManager, issue: int, title: string)
    requires BranchName(issue, title) in m.refs
    requires WorktreePath(m.worktreeBase, BranchName(issue, title)) in m.paths
    modifies m
    ensures m.refs == old(m.refs)
    ensures m.paths == old(m.paths)
  {
    var b := BranchName(issue, title);
    var p := WorktreePath(m.worktreeBase, b);
    var deleted := m.DeleteWorktree(b);
    assert deleted.Ok?;
    var present := m.WorktreeExists(b);
    assert !present;
    var again := m.CreateWorktree(issue, title);
    assert again.Ok?;
    RemoveAdd(old(m.refs), b);
    RemoveAdd(old(m.paths), p);
  }
}
