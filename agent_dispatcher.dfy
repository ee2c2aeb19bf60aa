/**
 * The dispatcher's session table: at most one running agent per
 * "{handle}_{issue}" key. The agent configuration and launching the agent
 * process are outside the model: the handles the configuration lists and what
 * spawning the process returns are inputs.
 */
module AgentDispatchers {
  import opened Wrappers
  import opened Text
  import opened Phases

  datatype AgentSession = AgentSession(
    agentHandle: string,
    issueNumber: int,
    phase: WorkflowPhase,
    processId: int,
    worktreePath: string)

  /** The exceptions `dispatch` raises: the key is already tracked, the agent is
      not in the agent configuration, or spawning the process failed. */
  datatype DispatchError =
    | AlreadyDispatched(agentHandle: string, issueNumber: int)
    | NotConfigured(agentHandle: string)
    | LaunchFailed(message: string)

  /** What a dispatch depends on besides the table: the handles the agent
      configuration lists, as the configuration keys them (the lookup lower-cases
      the handle it is given), and what spawning the process returns, its id or
      the error it raised. */
  datatype Launch = Launch(configured: set<string>, process: Result<int, string>)

  /** `dispatch` on the table `entries`: the error raised before anything is
      recorded, or the table with the new session. The tracked key is refused
      first, then an agent the configuration does not list, then a failed spawn. */
  function Dispatched(entries: seq<Entry>, handle: string, issue: int, phase: WorkflowPhase, worktree: string,
                      launch: Launch): Result<seq<Entry>, DispatchError>
  {
    var key := SessionKey(handle, issue);
    if Tracked(entries, key) then Err(AlreadyDispatched(handle, issue))
    else if Lower(handle) !in launch.configured then Err(NotConfigured(handle))
    else match launch.process
      case Err(message) => Err(LaunchFailed(message))
      case Ok(pid) => Ok(entries + [Entry(key, AgentSession(handle, issue, phase, pid, worktree))])
  }

  /** `f"{agent_handle}_{issue_number}"`. */
  function SessionKey(handle: string, issue: int): string {
    handle + "_" + IntToString(issue)
  }

  /** The key a session is filed under. */
  function Key(s: AgentSession): string {
    SessionKey(s.agentHandle, s.issueNumber)
  }

  /** The key determines both the handle and the issue: the issue's digits hold no
      underscore, so the last underscore separates the two. */
  lemma SessionKeyInjective(h1: string, n1: int, h2: string, n2: int)
    requires SessionKey(h1, n1) == SessionKey(h2, n2)
    ensures h1 == h2 && n1 == n2
  {
    var d1, d2 := IntToString(n1), IntToString(n2);
    assert '_' !in d1 && '_' !in d2;
    SplitAtLastChar(h1, d1, h2, d2, '_');
    IntToStringInjective(n1, n2);
  }

  /** One entry of `active_sessions`. */
  datatype Entry = Entry(key: string, session: AgentSession)

  /** No key appears twice. */
  predicate KeysDistinct(entries: seq<Entry>) {
    forall i, j :: 0 <= i < j < |entries| ==> entries[i].key != entries[j].key
  }

  /** Each session is filed under its own key. */
  predicate KeysMatch(entries: seq<Entry>) {
    forall i :: 0 <= i < |entries| ==> entries[i].key == Key(entries[i].session)
  }

  predicate Tracked(entries: seq<Entry>, key: string) {
    exists i :: 0 <= i < |entries| && entries[i].key == key
  }

  /** `active_sessions.get(key)`. */
  function Lookup(entries: seq<Entry>, key: string): (r: Option<AgentSession>)
    ensures r.Some? ==> Entry(key, r.value) in entries
    ensures r.None? <==> !Tracked(entries, key)
  {
    if entries == [] then None
    else if entries[0].key == key then Some(entries[0].session)
    else
      var r := Lookup(entries[1..], key);
      assert Tracked(entries, key) ==> Tracked(entries[1..], key) by {
        if Tracked(entries, key) {
          var i :| 0 <= i < |entries| && entries[i].key == key;
          assert entries[1..][i - 1] == entries[i];
        }
      }
      r
  }

  /** `active_sessions.pop(key, None)`: the entries with the key's entry taken out. */
  function Without(entries: seq<Entry>, key: string): seq<Entry> {
    if entries == [] then []
    else (if entries[0].key == key then [] else [entries[0]]) + Without(entries[1..], key)
  }

  /** The entries kept by a removal are exactly those under other keys. */
  lemma {:induction false} WithoutMembers(entries: seq<Entry>, key: string)
    ensures forall e :: e in Without(entries, key) <==> e in entries && e.key != key
    decreases |entries|
  {
    if entries != [] {
      WithoutMembers(entries[1..], key);
      forall e | e in entries
        ensures e == entries[0] || e in entries[1..]
      {
      }
    }
  }

  /** `list(active_sessions.values())`. */
  function Values(entries: seq<Entry>): (r: seq<AgentSession>)
    ensures |r| == |entries| && forall i :: 0 <= i < |entries| ==> r[i] == entries[i].session
  {
    seq(|entries|, i requires 0 <= i < |entries| => entries[i].session)
  }

  /** The prompt for phases other than the specification phase. */
  function DefaultPrompt(issue: int, phase: WorkflowPhase): string {
    "Work on issue #" + IntToString(issue) + " for " + phase.Name()
  }

  datatype Prompt = ArchitectureBrief(agentHandle: string, issueNumber: int) | Generic(text: string)

  /** `_build_agent_prompt`: the specification phase has its own brief, whose text
      is not modelled; every other phase falls back to the generic prompt. */
  function PromptFor(handle: string, issue: int, phase: WorkflowPhase): (r: Prompt)
    ensures r.ArchitectureBrief? <==> phase == Phase2Specs
    ensures r.Generic? ==> r.text == DefaultPrompt(issue, phase)
  {
    if phase == Phase2Specs then ArchitectureBrief(handle, issue) else Generic(DefaultPrompt(issue, phase))
  }

  /** The generic prompt names its issue and phase unambiguously. */
  lemma DefaultPromptInjective(n1: int, p1: WorkflowPhase, n2: int, p2: WorkflowPhase)
    requires DefaultPrompt(n1, p1) == DefaultPrompt(n2, p2)
    ensures n1 == n2 && p1 == p2
  {
    var d1, d2 := IntToString(n1), IntToString(n2);
    var t1, t2 := "for " + p1.Name(), "for " + p2.Name();
    PromptShape(n1, p1);
    PromptShape(n2, p2);
    assert ' ' !in d1 && ' ' !in d2;
    SplitAtFirstChar(d1, t1, d2, t2, ' ');
    IntToStringInjective(n1, n2);
    assert p1.Name() == t1[4..] && p2.Name() == t2[4..];
    NameInjective(p1, p2);
  }

  /** The generic prompt is a fixed prefix, the issue's digits, a space and the rest. */
  lemma PromptShape(n: int, p: WorkflowPhase)
    ensures DefaultPrompt(n, p)[15..] == IntToString(n) + [' '] + ("for " + p.Name())
  {
    var prefix := "Work on issue #";
    assert |prefix| == 15;
    assert DefaultPrompt(n, p) == prefix + (IntToString(n) + [' '] + ("for " + p.Name()));
  }

  // ---------------------------------------------------------------- table lemmas

  /** An entry appended under a new key is found under that key, and no other
      lookup changes. */
  lemma {:induction false} LookupAppend(entries: seq<Entry>, e: Entry, key: string)
    requires !Tracked(entries, e.key)
    ensures Lookup(entries + [e], key) == if key == e.key then Some(e.session) else Lookup(entries, key)
    decreases |entries|
  {
    if entries != [] {
      assert (entries + [e])[0] == entries[0];
      assert (entries + [e])[1..] == entries[1..] + [e];
      LookupAppend(entries[1..], e, key);
    }
  }

  /** Removing a key leaves it untracked. */
  lemma LookupWithoutKey(entries: seq<Entry>, key: string)
    ensures Lookup(Without(entries, key), key).None?
  {
    WithoutMembers(entries, key);
  }

  /** Removing a key leaves every other lookup as it was. */
  lemma {:induction false} LookupWithoutOther(entries: seq<Entry>, key: string, other: string)
    requires other != key
    ensures Lookup(Without(entries, key), other) == Lookup(entries, other)
    decreases |entries|
  {
    if entries != [] {
      var rest := Without(entries[1..], key);
      LookupWithoutOther(entries[1..], key, other);
      if entries[0].key != key {
        var w := [entries[0]] + rest;
        assert Without(entries, key) == w;
        assert w[0] == entries[0] && w[1..] == rest;
      } else {
        assert Without(entries, key) == rest;
      }
    }
  }

  /** Removing twice is removing once. */
  lemma WithoutIdempotent(entries: seq<Entry>, key: string)
    ensures Without(Without(entries, key), key) == Without(entries, key)
  {
    var w := Without(entries, key);
    WithoutMembers(entries, key);
    assert !Tracked(w, key) by {
      forall i | 0 <= i < |w|
        ensures w[i].key != key
      {
        assert w[i] in w;
      }
    }
    WithoutUntracked(w, key);
  }

  /** The tail of a table keeps its invariant and lacks the head's key. */
  lemma TailKeepsInvariant(entries: seq<Entry>)
    requires entries != [] && KeysDistinct(entries) && KeysMatch(entries)
    ensures KeysDistinct(entries[1..]) && KeysMatch(entries[1..])
    ensures forall x :: x in entries[1..] ==> x.key != entries[0].key
  {
    var tail := entries[1..];
    forall i | 0 <= i < |tail|
      ensures tail[i] == entries[i + 1]
    {
    }
  }

  /** An entry filed under its own key, new to a table, can be put in front of it. */
  lemma ConsKeepsInvariant(e: Entry, rest: seq<Entry>)
    requires KeysDistinct(rest) && KeysMatch(rest) && e.key == Key(e.session)
    requires forall x :: x in rest ==> x.key != e.key
    ensures KeysDistinct([e] + rest) && KeysMatch([e] + rest)
  {
    var w := [e] + rest;
    forall i, j | 0 <= i < j < |w|
      ensures w[i].key != w[j].key
    {
      assert w[j] == rest[j - 1];
      if i > 0 {
        assert w[i] == rest[i - 1];
      }
    }
    forall i | 0 <= i < |w|
      ensures w[i].key == Key(w[i].session)
    {
      if i > 0 {
        assert w[i] == rest[i - 1];
      }
    }
  }

  /** Removal keeps the remaining entries in order, with their keys distinct and their own. */
  lemma {:induction false} WithoutKeepsInvariant(entries: seq<Entry>, key: string)
    requires KeysDistinct(entries) && KeysMatch(entries)
    ensures KeysDistinct(Without(entries, key)) && KeysMatch(Without(entries, key))
    decreases |entries|
  {
    if entries != [] {
      var tail := entries[1..];
      TailKeepsInvariant(entries);
      WithoutKeepsInvariant(tail, key);
      WithoutMembers(tail, key);
      if entries[0].key != key {
        assert entries[0].key == Key(entries[0].session);
        ConsKeepsInvariant(entries[0], Without(tail, key));
      } else {
        assert Without(entries, key) == Without(tail, key);
      }
    }
  }

  /** With distinct keys filed under their own sessions, two entries for the same
      handle and issue are one entry. */
  lemma AtMostOneSessionPerAgentAndIssue(entries: seq<Entry>, i: nat, j: nat)
    requires KeysDistinct(entries) && KeysMatch(entries) && i < |entries| && j < |entries|
    requires entries[i].session.agentHandle == entries[j].session.agentHandle
    requires entries[i].session.issueNumber == entries[j].session.issueNumber
    ensures i == j
  {
  }

  // ---------------------------------------------------------------- the dispatcher

  class AgentDispatcher {
    /** `active_sessions`, in insertion order. */
    var entries: seq<Entry>

    predicate Valid()
      reads this
    {
      KeysDistinct(entries) && KeysMatch(entries)
    }

    constructor()
      ensures Valid() && entries == []
    {
      entries := [];
    }

    /** `dispatch`: refuses a tracked key before anything is launched, then an
        agent missing from the configuration, then a spawn that failed; otherwise
        records the session of the launched process and returns its id. Nothing
        is recorded when it raises. */
    method Dispatch(handle: string, issue: int, worktree: string, phase: WorkflowPhase, launch: Launch)
      returns (r: Result<int, DispatchError>)
      requires Valid()
      modifies this
      ensures Valid()
      ensures old(Tracked(entries, SessionKey(handle, issue))) ==>
        r == Err(AlreadyDispatched(handle, issue)) && entries == old(entries)
      ensures !old(Tracked(entries, SessionKey(handle, issue))) && Lower(handle) !in launch.configured
        ==> r == Err(NotConfigured(handle)) && entries == old(entries)
      ensures !old(Tracked(entries, SessionKey(handle, issue))) && Lower(handle) in launch.configured && launch.process.Err?
        ==> r == Err(LaunchFailed(launch.process.error)) && entries == old(entries)
      ensures !old(Tracked(entries, SessionKey(handle, issue))) && Lower(handle) in launch.configured && launch.process.Ok?
        ==> r == Ok(launch.process.value) &&
            entries == old(entries) + [Entry(SessionKey(handle, issue), AgentSession(handle, issue, phase, launch.process.value, worktree))]
      ensures r.Err? <==> Dispatched(old(entries), handle, issue, phase, worktree, launch).Err?
      ensures r.Err? ==> Dispatched(old(entries), handle, issue, phase, worktree, launch) == Err(r.error)
      ensures r.Ok? ==> Dispatched(old(entries), handle, issue, phase, worktree, launch) == Ok(entries)
    {
      var key := SessionKey(handle, issue);
      var existing := GetSession(handle, issue);
      if existing.Some? {
        return Err(AlreadyDispatched(handle, issue));
      }
      if Lower(handle) !in launch.configured {
        return Err(NotConfigured(handle));
      }
      if launch.process.Err? {
        return Err(LaunchFailed(launch.process.error));
      }
      var pid := launch.process.value;
      entries := entries + [Entry(key, AgentSession(handle, issue, phase, pid, worktree))];
      return Ok(pid);
    }

    /** `get_session`: the session filed under the key, if any. */
    method GetSession(handle: string, issue: int) returns (r: Option<AgentSession>)
      ensures r == Lookup(entries, SessionKey(handle, issue))
    {
      return Lookup(entries, SessionKey(handle, issue));
    }

    /** `remove_session`: drops the key's entry if there is one. */
    method RemoveSession(handle: string, issue: int)
      requires Valid()
      modifies this
      ensures Valid()
      ensures entries == Without(old(entries), SessionKey(handle, issue))
    {
      WithoutKeepsInvariant(entries, SessionKey(handle, issue));
      entries := Without(entries, SessionKey(handle, issue));
    }

    /** `get_all_sessions`. */
    method GetAllSessions() returns (all: seq<AgentSession>)
      ensures all == Values(entries)
    {
      return Values(entries);
    }
  }

  /** Dispatching on a free key, removing the session and dispatching again: the
      session of a first dispatch that succeeded is found under its key, and once
      it is removed the table is as before, so the second dispatch is decided by
      its own configuration and spawn alone. Whatever the first attempt did, the
      table ends with the second session if that one launched, and as it began
      otherwise. */
  method DispatchRemoveRedispatch(d: AgentDispatcher, handle: string, issue: int, worktree: string,
                                  phase: WorkflowPhase, first: Launch, second: Launch)
    returns (r1: Result<int, DispatchError>, r2: Result<int, DispatchError>)
    requires d.Valid() && !Tracked(d.entries, SessionKey(handle, issue))
    modifies d
    ensures d.Valid()
    ensures r1.Ok? <==> Lower(handle) in first.configured && first.process.Ok?
    ensures r2.Ok? <==> Lower(handle) in second.configured && second.process.Ok?
    ensures r2.Ok?
      ==> r2.value == second.process.value &&
          d.entries == old(d.entries) + [Entry(SessionKey(handle, issue), AgentSession(handle, issue, phase, second.process.value, worktree))]
    ensures r2.Err? ==> d.entries == old(d.entries)
  {
    var key := SessionKey(handle, issue);
    r1 := d.Dispatch(handle, issue, worktree, phase, first);
    if r1.Ok? {
      var e := Entry(key, AgentSession(handle, issue, phase, r1.value, worktree));
      LookupAppend(old(d.entries), e, key);
      var found := d.GetSession(handle, issue);
      assert found == Some(e.session);
      d.RemoveSession(handle, issue);
      WithoutAppended(old(d.entries), e);
    } else {
      d.RemoveSession(handle, issue);
      WithoutUntracked(old(d.entries), key);
    }
    assert d.entries == old(d.entries);
    r2 := d.Dispatch(handle, issue, worktree, phase, second);
  }

  /** Removing a key that is not tracked changes nothing. */
  lemma {:induction false} WithoutUntracked(entries: seq<Entry>, key: string)
    requires !Tracked(entries, key)
    ensures Without(entries, key) == entries
    decreases |entries|
  {
    if entries != [] {
      assert entries[0].key != key;
      assert !Tracked(entries[1..], key) by {
        forall i | 0 <= i < |entries[1..]|
          ensures entries[1..][i].key != key
        {
          assert entries[1..][i] == entries[i + 1];
        }
      }
      WithoutUntracked(entries[1..], key);
      assert [entries[0]] + entries[1..] == entries;
    }
  }

  /** Removing the key of the last entry appended under a fresh key gives back the table before. */
  lemma {:induction false} WithoutAppended(entries: seq<Entry>, e: Entry)
    requires !Tracked(entries, e.key)
    ensures Without(entries + [e], e.key) == entries
    decreases |entries|
  {
    if entries == [] {
      assert Without([e], e.key) == [] + Without([], e.key);
    } else {
      assert (entries + [e])[0] == entries[0];
      assert (entries + [e])[1..] == entries[1..] + [e];
      WithoutAppended(entries[1..], e);
      assert entries[0].key != e.key;
    }
  }
}
