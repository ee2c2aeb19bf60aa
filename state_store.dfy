/**
 * The store of feature states: one slot per issue number. The JSON files of the
 * storage directory become a map from issue number to what the file holds,
 * either a state that parses or content that does not.
 */
module StateStores {
  import opened Wrappers
  import opened FeatureStates

  datatype StoredFile = Stored(state: Feature) | Corrupt

  /** The validation error `load` lets escape for a file that does not parse. */
  datatype LoadError = InvalidStateFile(issueNumber: int)

  /** Every parseable file holds the state of the issue it is named after. */
  predicate FilesNamedByIssue(files: map<int, StoredFile>) {
    forall n :: n in files && files[n].Stored? ==> files[n].state.issueNumber == n
  }

  /** `load` on a given directory content. */
  function LoadFrom(files: map<int, StoredFile>, n: int): Result<Option<Feature>, LoadError> {
    if n !in files then Ok(None)
    else match files[n]
      case Stored(f) => Ok(Some(f))
      case Corrupt => Err(InvalidStateFile(n))
  }

  predicate SortedByIssue(xs: seq<Feature>) {
    forall i, j :: 0 <= i < j < |xs| ==> xs[i].issueNumber < xs[j].issueNumber
  }

  /** A state ahead of every state of an ordered list can be put in front of it. */
  lemma SortedCons(x: Feature, rest: seq<Feature>)
    requires SortedByIssue(rest)
    requires forall g :: g in rest ==> x.issueNumber < g.issueNumber
    ensures SortedByIssue([x] + rest)
  {
    var w := [x] + rest;
    forall i, j | 0 <= i < j < |w|
      ensures w[i].issueNumber < w[j].issueNumber
    {
      assert w[j] == rest[j - 1];
      if i > 0 {
        assert w[i] == rest[i - 1];
      }
    }
  }

  /** The states of an ordered list come after its first, and its tail is ordered. */
  lemma SortedTail(xs: seq<Feature>)
    requires xs != [] && SortedByIssue(xs)
    ensures SortedByIssue(xs[1..])
    ensures forall g :: g in xs[1..] ==> xs[0].issueNumber < g.issueNumber
    ensures xs == [xs[0]] + xs[1..]
  {
    forall g | g in xs[1..]
      ensures xs[0].issueNumber < g.issueNumber
    {
      var i :| 0 <= i < |xs[1..]| && xs[1..][i] == g;
      assert xs[i + 1] == g;
    }
  }

  /** The states of an ordered list come after a state ahead of its first. */
  lemma SortedAbove(xs: seq<Feature>, f: Feature)
    requires xs != [] && SortedByIssue(xs) && f.issueNumber < xs[0].issueNumber
    ensures forall g :: g in xs ==> f.issueNumber < g.issueNumber
  {
    forall g | g in xs
      ensures f.issueNumber < g.issueNumber
    {
      var i :| 0 <= i < |xs| && xs[i] == g;
    }
  }

  /** Inserting into an issue-ordered list a state whose issue is not yet in it. */
  function InsertSorted(xs: seq<Feature>, f: Feature): (r: seq<Feature>)
    requires SortedByIssue(xs)
    requires forall i :: 0 <= i < |xs| ==> xs[i].issueNumber != f.issueNumber
    ensures SortedByIssue(r)
    ensures multiset(r) == multiset(xs) + multiset{f}
    ensures forall g :: g in r <==> g in xs || g == f
  {
    if xs == [] then [f]
    else if f.issueNumber < xs[0].issueNumber then
      SortedAbove(xs, f);
      SortedCons(f, xs);
      [f] + xs
    else
      SortedTail(xs);
      assert f.issueNumber > xs[0].issueNumber;
      var rest := InsertSorted(xs[1..], f);
      SortedCons(xs[0], rest);
      [xs[0]] + rest
  }

  // ---------------------------------------------------------------- slot lemmas

  /** Loading what was saved gives it back, history and agent flags included. */
  lemma LoadAfterSave(files: map<int, StoredFile>, s: Feature)
    ensures LoadFrom(files[s.issueNumber := Stored(s)], s.issueNumber) == Ok(Some(s))
    ensures FilesNamedByIssue(files) ==> FilesNamedByIssue(files[s.issueNumber := Stored(s)])
  {
  }

  /** A second save of the same issue replaces the first; other issues are untouched. */
  lemma SaveOverwrites(files: map<int, StoredFile>, s1: Feature, s2: Feature, n: int)
    requires s1.issueNumber == s2.issueNumber
    ensures files[s1.issueNumber := Stored(s1)][s2.issueNumber := Stored(s2)] == files[s2.issueNumber := Stored(s2)]
    ensures n != s2.issueNumber ==> LoadFrom(files[s2.issueNumber := Stored(s2)], n) == LoadFrom(files, n)
  {
  }

  /** After a delete the slot is empty; nothing else changes. */
  lemma LoadAfterDelete(files: map<int, StoredFile>, n: int, m: int)
    ensures LoadFrom(files - {n}, n) == Ok(None)
    ensures m != n ==> LoadFrom(files - {n}, m) == LoadFrom(files, m)
  {
  }

  // ---------------------------------------------------------------- the store

  class StateStore {
    /** The states directory, by file name. */
    var files: map<int, StoredFile>

    predicate Valid()
      reads this
    {
      FilesNamedByIssue(files)
    }

    constructor()
      ensures Valid() && files == map[]
    {
      files := map[];
    }

    /** `save`: writes the state into its issue's slot, replacing what was there. */
    method Save(state: Feature)
      requires Valid()
      modifies this
      ensures Valid()
      ensures files == old(files)[state.issueNumber := Stored(state)]
    {
      files := files[state.issueNumber := Stored(state)];
    }

    /** `load`: nothing for a missing file, the state for a parseable one, and the
        validation error for one that does not parse. */
    method Load(n: int) returns (r: Result<Option<Feature>, LoadError>)
      ensures r == LoadFrom(files, n)
      ensures r.Ok? && r.value.Some? ==> n in files && files[n] == Stored(r.value.value)
      ensures r == Ok(None) <==> n !in files
    {
      if n !in files {
        return Ok(None);
      }
      match files[n]
      case Stored(f) => return Ok(Some(f));
      case Corrupt => return Err(InvalidStateFile(n));
    }

    /** `delete`: true when there was a file, which is then gone. */
    method Delete(n: int) returns (deleted: bool)
      requires Valid()
      modifies this
      ensures Valid()
      ensures deleted <==> n in old(files)
      ensures files == old(files) - {n}
    {
      if n in files {
        files := files - {n};
        return true;
      }
      return false;
    }

    /** `exists`: there is a file for the issue. */
    method Exists(n: int) returns (b: bool)
      ensures b <==> n in files
    {
      return n in files;
    }

    /** `list_all`: every parseable state, in increasing issue order. The files are
        visited in no particular order and each state is placed where the final
        sort puts it. */
    method ListAll() returns (states: seq<Feature>)
      requires Valid()
      ensures SortedByIssue(states)
      ensures forall f :: f in states <==> exists n :: n in files && files[n] == Stored(f)
    {
      states := [];
      var remaining := files.Keys;
      while remaining != {}
        invariant remaining <= files.Keys
        invariant SortedByIssue(states)
        invariant forall f :: f in states ==> f.issueNumber in files && f.issueNumber !in remaining
        invariant forall f :: f in states <==>
          exists n :: n in files && n !in remaining && files[n] == Stored(f)
        decreases remaining
      {
        assert exists k :: k in remaining by {
          if forall k :: k !in remaining {
            assert false;
          }
        }
        var n :| n in remaining;
        match files[n] {
          case Stored(f) =>
            assert f.issueNumber == n;
            assert forall i :: 0 <= i < |states| ==> states[i].issueNumber != f.issueNumber by {
              forall i | 0 <= i < |states|
                ensures states[i].issueNumber != f.issueNumber
              {
                assert states[i] in states;
              }
            }
            states := InsertSorted(states, f);
          case Corrupt =>
        }
        remaining := remaining - {n};
      }
    }
  }

  /** Saving then loading the same store gives the saved state back, and the issue
      then exists until it is deleted. */
  method SaveLoadDelete(store: StateStore, s: Feature)
    requires store.Valid()
    modifies store
    ensures store.Valid()
    ensures store.files == old(store.files) - {s.issueNumber}
  {
    store.Save(s);
    var loaded := store.Load(s.issueNumber);
    assert loaded == Ok(Some(s));
    var present := store.Exists(s.issueNumber);
    assert present;
    var deleted := store.Delete(s.issueNumber);
    assert deleted;
    present := store.Exists(s.issueNumber);
    assert !present;
    loaded := store.Load(s.issueNumber);
    assert loaded == Ok(None);
    assert store.files == old(store.files) - {s.issueNumber};
  }
}
