/** Which registered repositories get a turn in a hub sweep (`hub_daemon.py`). */
module HubSweep {

  /** A registry entry: its path and the daemon flag. */
  datatype Entry = Entry(path: string, daemon: bool)

  datatype Turn = Excluded | SkippedAs(original: nat) | Ticked

  predicate SharesKey(keys: seq<set<string>>, i: nat, j: nat)
    requires i < |keys| && j < |keys|
  {
    keys[i] * keys[j] != {}
  }

  /** The entry is opted out, or reaches the directory or a queue of one that is. */
  predicate OptedOut(entries: seq<Entry>, keys: seq<set<string>>, same: (string, string) -> bool, i: nat)
    requires |keys| == |entries| && i < |entries|
  {
    || !entries[i].daemon
    || exists j :: 0 <= j < |entries| && !entries[j].daemon
                   && (SharesKey(keys, i, j) || same(entries[j].path, entries[i].path))
  }

  /** The first entry that reaches a queue under this key. */
  ghost predicate FirstWith(keys: seq<set<string>>, key: string, i: nat) {
    i < |keys| && key in keys[i] && forall j :: 0 <= j < i ==> key !in keys[j]
  }

  /** The index each key was first seen at. */
  ghost predicate FirstEntries(keys: seq<set<string>>, n: nat, first: map<string, nat>)
    requires n <= |keys|
  {
    && (forall key <- first :: first[key] < n && FirstWith(keys, key, first[key]))
    && forall i, key :: 0 <= i < n && key in keys[i] ==> key in first
  }

  /** An entry is a duplicate exactly when an earlier one shares a key with it. */
  predicate Duplicate(keys: seq<set<string>>, i: nat)
    requires i < |keys|
  {
    exists j :: 0 <= j < i && SharesKey(keys, j, i)
  }

  /** The first of the entries that share a key with entry `j`. */
  ghost predicate EarliestSharing(keys: seq<set<string>>, original: nat, j: nat) {
    && original < j < |keys| && SharesKey(keys, original, j)
    && forall e :: 0 <= e < original ==> !SharesKey(keys, e, j)
  }

  method EarliestWith(keys: set<string>, first: map<string, nat>) returns (found: bool, earliest: nat)
    ensures found <==> exists key <- keys :: key in first
    ensures found ==> exists key <- keys :: key in first && first[key] == earliest
    ensures found ==> forall key <- keys :: key in first ==> earliest <= first[key]
  {
    found, earliest := false, 0;
    var rest := keys;
    while rest != {}
      invariant rest <= keys
      invariant found <==> exists key <- keys - rest :: key in first
      invariant found ==> exists key <- keys - rest :: key in first && first[key] == earliest
      invariant found ==> forall key <- keys - rest :: key in first ==> earliest <= first[key]
      decreases |rest|
    {
      var key :| key in rest;
      ghost var before := keys - rest;
      rest := rest - {key};
      assert keys - rest == before + {key};
      if key in first && (!found || first[key] < earliest) {
        found, earliest := true, first[key];
      }
    }
    assert keys - rest == keys;
  }

  /** `first_entry.setdefault` for every key of entry `i`. */
  method Remember(keys: seq<set<string>>, i: nat, first0: map<string, nat>) returns (first: map<string, nat>)
    requires i < |keys| && FirstEntries(keys, i, first0)
    ensures FirstEntries(keys, i + 1, first)
  {
    first := first0;
    var rest := keys[i];
    while rest != {}
      invariant rest <= keys[i]
      invariant forall key :: key in first <==> key in first0 || key in keys[i] - rest
      invariant forall key <- first :: first[key] == if key in first0 then first0[key] else i
      decreases |rest|
    {
      var key :| key in rest;
      rest := rest - {key};
      if key !in first { first := first[key := i]; }
    }
    forall key <- first ensures first[key] < i + 1 && FirstWith(keys, key, first[key]) {
      if key !in first0 { assert forall j :: 0 <= j < i ==> key !in keys[j]; }
    }
  }

  /** The entries that reach a queue an earlier entry reaches, with the earliest such entry. */
  method FindDuplicates(keys: seq<set<string>>) returns (duplicateOf: map<nat, nat>)
    ensures forall j :: j in duplicateOf <==> 0 <= j < |keys| && Duplicate(keys, j)
    ensures forall j <- duplicateOf :: EarliestSharing(keys, duplicateOf[j], j)
  {
    var first: map<string, nat> := map[];
    duplicateOf := map[];
    for i := 0 to |keys|
      invariant FirstEntries(keys, i, first)
      invariant forall j :: j in duplicateOf <==> 0 <= j < i && Duplicate(keys, j)
      invariant forall j <- duplicateOf :: EarliestSharing(keys, duplicateOf[j], j)
    {
      var found, earliest := EarliestWith(keys[i], first);
      EarlierShares(keys, i, first);
      if found {
        var key :| key in keys[i] && key in first && first[key] == earliest;
        assert key in keys[earliest] * keys[i];
        forall j | 0 <= j < earliest ensures !SharesKey(keys, j, i) {
          assert forall other <- keys[i] :: other !in keys[j];
        }
        duplicateOf := duplicateOf[i := earliest];
      }
      first := Remember(keys, i, first);
    }
  }

  /** `hub_sweep`, up to the tick of each entry; `same` says whether two paths name one
      directory. An entry gets a turn exactly when no opted-out entry reaches its directory or
      queue and no earlier entry shares a key with it. */
  method Turns(entries: seq<Entry>, keys: seq<set<string>>, same: (string, string) -> bool) returns (turns: seq<Turn>)
    requires |keys| == |entries|
    ensures TurnsOf(entries, keys, same, turns)
    ensures forall i :: 0 <= i < |turns| ==> (turns[i] == Excluded <==> OptedOut(entries, keys, same, i))
    ensures forall i :: 0 <= i < |turns| && turns[i].SkippedAs? ==> EarliestSharing(keys, turns[i].original, i)
  {
    var duplicateOf := FindDuplicates(keys);
    turns := [];
    for i := 0 to |entries|
      invariant |turns| == i
      invariant forall j :: 0 <= j < i ==> turns[j] == TurnOf(entries, keys, same, duplicateOf, j)
    {
      turns := turns + [TurnOf(entries, keys, same, duplicateOf, i)];
    }
  }

  /** `tick_one`, up to the tick. */
  function TurnOf(entries: seq<Entry>, keys: seq<set<string>>, same: (string, string) -> bool,
                  duplicateOf: map<nat, nat>, i: nat): Turn
    requires |keys| == |entries| && i < |entries|
  {
    if OptedOut(entries, keys, same, i) then Excluded
    else if i in duplicateOf then SkippedAs(duplicateOf[i])
    else Ticked
  }

  lemma EarlierShares(keys: seq<set<string>>, i: nat, first: map<string, nat>)
    requires i < |keys| && FirstEntries(keys, i, first)
    ensures (exists key <- keys[i] :: key in first) <==> Duplicate(keys, i)
  {
    if key :| key in keys[i] && key in first {
      assert key in keys[first[key]] * keys[i];
      assert SharesKey(keys, first[key], i);
    }
    if Duplicate(keys, i) {
      var j :| 0 <= j < i && SharesKey(keys, j, i);
      var key :| key in keys[j] * keys[i];
      assert key in first;
    }
  }

  ghost predicate TurnsOf(entries: seq<Entry>, keys: seq<set<string>>, same: (string, string) -> bool,
                          turns: seq<Turn>) {
    && |turns| == |entries| == |keys|
    && forall i :: 0 <= i < |turns| ==>
      (turns[i] == Ticked <==> !OptedOut(entries, keys, same, i) && !Duplicate(keys, i))
  }

  /** Under every key at most one entry gets a turn, and none that shares a key with an
      opted-out entry does. */
  lemma OneTurnPerQueue(entries: seq<Entry>, keys: seq<set<string>>, same: (string, string) -> bool, turns: seq<Turn>,
                        i: nat, j: nat, key: string)
    requires TurnsOf(entries, keys, same, turns) && i < |turns| && j < |turns|
    requires turns[i] == Ticked && key in keys[i] && key in keys[j]
    ensures turns[j] == Ticked ==> i == j
    ensures entries[j].daemon
  {
    assert key in keys[i] * keys[j] && key in keys[j] * keys[i];
    assert SharesKey(keys, i, j) && SharesKey(keys, j, i);
  }

  /** A queue gets a turn under a key exactly when the first entry with that key does. */
  lemma QueueGetsATurnExactlyWhenItsFirstEntryDoes(entries: seq<Entry>, keys: seq<set<string>>,
                                                   same: (string, string) -> bool,
                                                   turns: seq<Turn>, key: string, first: nat)
    requires TurnsOf(entries, keys, same, turns) && FirstWith(keys, key, first)
    ensures (exists i :: 0 <= i < |turns| && key in keys[i] && turns[i] == Ticked) <==>
            !OptedOut(entries, keys, same, first) && !Duplicate(keys, first)
  {
    forall i | 0 <= i < |turns| && key in keys[i] && turns[i] == Ticked ensures i == first {
      if first < i {
        assert key in keys[first] * keys[i];
        assert SharesKey(keys, first, i);
      }
    }
  }

  /** So a queue can be left without a turn: its first entry is itself skipped, as a duplicate
      of an entry under another key. Here two worktrees share a state root and differ in the
      configured database, which the third entry configures too. */
  lemma ChainLosesATurn(same: (string, string) -> bool)
    ensures
      var entries := [Entry("a", true), Entry("b", true), Entry("c", true)];
      var keys := [{"root1", "db1"}, {"root1", "db2"}, {"root3", "db2"}];
      forall turns :: TurnsOf(entries, keys, same, turns) ==>
        turns[0] == Ticked && turns[1] != Ticked && turns[2] != Ticked
  {
    var entries := [Entry("a", true), Entry("b", true), Entry("c", true)];
    var keys := [{"root1", "db1"}, {"root1", "db2"}, {"root3", "db2"}];
    assert "root1" in keys[0] * keys[1] && "db2" in keys[1] * keys[2];
    assert SharesKey(keys, 0, 1) && SharesKey(keys, 1, 2);
    assert Duplicate(keys, 1) && Duplicate(keys, 2) && !Duplicate(keys, 0);
    assert !OptedOut(entries, keys, same, 0);
  }
}
