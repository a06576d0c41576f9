/**
 What a thread has read and changed: taking it over from the workspace
 (src/app/thread-sessions.ts), storing it as a delta
 (src/threads/checkpoint-delta.ts) and restoring it into a workspace that is
 opened again (src/workspace/manager.ts).
 */
module ThreadRecords {

  /** A version of a file that was read. */
  datatype Version = Version(path: string, hash: string, readAt: string)

  /** What a thread tells two changes of its workspace apart by. */
  datatype ChangeKey = ChangeKey(timestamp: string, path: string, operation: string, afterHash: string)

  /** A change; `detail` is its source and its status. */
  datatype Change = Change(key: ChangeKey, beforeHash: string, detail: string)

  /** What the store tells two changes apart by. */
  datatype FileKey = FileKey(key: ChangeKey, beforeHash: string)

  /** The versions that were read, one a path, and the changes; both in the order they came. */
  datatype Record = Record(versions: seq<Version>, changes: seq<Change>)

  const NOTHING := Record([], [])

  // ---- Versions by path ----

  function Reads(versions: seq<Version>): map<string, Version> {
    if |versions| == 0 then map[]
    else
      var last := versions[|versions| - 1];
      Reads(versions[..|versions| - 1])[last.path := last]
  }

  predicate DistinctPaths(versions: seq<Version>) {
    forall i, j :: 0 <= i < j < |versions| ==> versions[i].path != versions[j].path
  }

  /** A version takes the place of an older one of its path, or comes last. */
  function Put(versions: seq<Version>, v: Version): seq<Version> {
    if forall i :: 0 <= i < |versions| ==> versions[i].path != v.path then versions + [v]
    else seq(|versions|, i requires 0 <= i < |versions| => if versions[i].path == v.path then v else versions[i])
  }

  function PutAll(versions: seq<Version>, more: seq<Version>): seq<Version>
    decreases |more|
  {
    if |more| == 0 then versions
    else Put(PutAll(versions, more[..|more| - 1]), more[|more| - 1])
  }

  /** Versions that are taken over stand there once for each path. */
  lemma {:induction false} TakenOverOnce(versions: seq<Version>, more: seq<Version>)
    requires DistinctPaths(versions)
    ensures DistinctPaths(PutAll(versions, more))
    decreases |more|
  {
    if |more| > 0 {
      TakenOverOnce(versions, more[..|more| - 1]);
      hide PutAll;
      var before, v := PutAll(versions, more[..|more| - 1]), more[|more| - 1];
      assert DistinctPaths(Put(before, v)) by { PutOnce(before, v); }
      assert PutAll(versions, more) == Put(before, v) by { PutAllIs(versions, more); }
    }
  }

  lemma PutAllIs(versions: seq<Version>, more: seq<Version>)
    requires |more| > 0
    ensures PutAll(versions, more) == Put(PutAll(versions, more[..|more| - 1]), more[|more| - 1])
  {}

  lemma PutOnce(versions: seq<Version>, v: Version)
    requires DistinctPaths(versions)
    ensures DistinctPaths(Put(versions, v))
  {}

  /** A path has the last version recorded for it. */
  lemma {:induction false} ReadsAre(versions: seq<Version>)
    ensures forall v :: v in versions ==> v.path in Reads(versions)
    ensures forall p :: p in Reads(versions) ==> Reads(versions)[p].path == p && Reads(versions)[p] in versions
    ensures DistinctPaths(versions) ==> forall v :: v in versions ==> Reads(versions)[v.path] == v
    decreases |versions|
  {
    if |versions| > 0 {
      var n := |versions| - 1;
      ReadsAre(versions[..n]);
      assert forall v :: v in versions <==> v in versions[..n] || v == versions[n];
      if DistinctPaths(versions) {
        forall v | v in versions[..n] ensures v.path != versions[n].path {
          var i :| 0 <= i < n && versions[..n][i] == v;
        }
      }
    }
  }

  lemma ReadsOfPut(versions: seq<Version>, v: Version)
    ensures Reads(Put(versions, v)) == Reads(versions)[v.path := v]
  {
    if forall i :: 0 <= i < |versions| ==> versions[i].path != v.path {
      assert (versions + [v])[..|versions|] == versions;
    } else {
      ReadsOfReplaced(versions, v);
      ReadsAre(versions);
      var i :| 0 <= i < |versions| && versions[i].path == v.path;
      assert versions[i] in versions;
    }
  }

  lemma {:induction false} ReadsOfReplaced(versions: seq<Version>, v: Version)
    ensures var s := seq(|versions|, i requires 0 <= i < |versions| => if versions[i].path == v.path then v
            else versions[i]);
            Reads(s) == if v.path in Reads(versions) then Reads(versions)[v.path := v] else Reads(versions)
    decreases |versions|
  {
    var s := seq(|versions|, i requires 0 <= i < |versions| => if versions[i].path == v.path then v else versions[i]);
    if |versions| > 0 {
      var n := |versions| - 1;
      ReadsOfReplaced(versions[..n], v);
      assert s[..n] == seq(n, i requires 0 <= i < n =>
                             if versions[..n][i].path == v.path then v else versions[..n][i]);
    }
  }

  lemma {:induction false} ReadsOfPutAll(versions: seq<Version>, more: seq<Version>)
    ensures Reads(PutAll(versions, more)) == Reads(versions) + Reads(more)
    decreases |more|
  {
    if |more| > 0 {
      ReadsOfPutAll(versions, more[..|more| - 1]);
      ReadsOfPut(PutAll(versions, more[..|more| - 1]), more[|more| - 1]);
    }
  }

  // ---- Taking over what the workspace has recorded ----

  predicate Known(changes: seq<Change>, key: ChangeKey) {
    exists i :: 0 <= i < |changes| && changes[i].key == key
  }

  /** The changes followed by those of the workspace that are not among them yet. */
  function Merge(changes: seq<Change>, found: seq<Change>): seq<Change>
    decreases |found|
  {
    if |found| == 0 then changes
    else Merge(if Known(changes, found[0].key) then changes else changes + [found[0]], found[1..])
  }

  predicate DistinctKeys(changes: seq<Change>) {
    forall i, j :: 0 <= i < j < |changes| ==> changes[i].key != changes[j].key
  }

  /** The merged changes extend the old ones by the unknown ones, once each. */
  lemma {:induction false} MergeIsUnion(changes: seq<Change>, found: seq<Change>)
    ensures var merged := Merge(changes, found);
            && changes <= merged
            && (forall i :: 0 <= i < |found| ==> Known(merged, found[i].key))
            && (forall i :: |changes| <= i < |merged| ==> merged[i] in found && !Known(changes, merged[i].key))
            && (DistinctKeys(changes) ==> DistinctKeys(merged))
    decreases |found|
  {
    if |found| > 0 {
      var grown := if Known(changes, found[0].key) then changes else changes + [found[0]];
      MergeIsUnion(grown, found[1..]);
      var merged := Merge(grown, found[1..]);
      if Known(changes, found[0].key) {
        KnownLonger(changes, merged, found[0].key);
      } else {
        assert grown[|changes|].key == found[0].key;
        KnownLonger(grown, merged, found[0].key);
      }
      forall i | |changes| <= i < |merged| ensures merged[i] in found && !Known(changes, merged[i].key) {
        if i == |changes| && !Known(changes, found[0].key) {
          assert merged[i] == grown[i] == found[0];
        } else {
          KnownLonger(changes, grown, merged[i].key);
        }
      }
    }
  }

  lemma KnownLonger(a: seq<Change>, b: seq<Change>, key: ChangeKey)
    requires a <= b
    ensures Known(a, key) ==> Known(b, key)
  {
    assert forall i :: 0 <= i < |a| ==> b[i] == a[i];
  }

  /** Nothing new is found a second time. */
  lemma {:induction false} MergeKnown(changes: seq<Change>, found: seq<Change>)
    requires forall i :: 0 <= i < |found| ==> Known(changes, found[i].key)
    ensures Merge(changes, found) == changes
    decreases |found|
  {
    if |found| > 0 {
      assert Known(changes, found[0].key);
      MergeKnown(changes, found[1..]);
    }
  }

  /** Merging keeps what the store knows the changes by, and adds to it exactly with an unknown change. */
  lemma MergeGrows(changes: seq<Change>, found: seq<Change>)
    ensures Keys(changes) <= Keys(Merge(changes, found))
    ensures Keys(Merge(changes, found)) == Keys(changes) <==> forall c :: c in found ==> Known(changes, c.key)
  {
    MergeIsUnion(changes, found);
    KeysOfPrefix(changes, Merge(changes, found));
    hide Merge;
    if forall c :: c in found ==> Known(changes, c.key) {
      assert forall i :: 0 <= i < |found| ==> found[i] in found;
      MergeKnown(changes, found);
    }
    if Keys(Merge(changes, found)) == Keys(changes) {
      forall c | c in found ensures Known(changes, c.key) {
        var i :| 0 <= i < |found| && found[i] == c;
        KnownByKeys(changes, Merge(changes, found), c.key);
      }
    }
  }

  lemma KnownByKeys(changes: seq<Change>, merged: seq<Change>, key: ChangeKey)
    requires Keys(merged) == Keys(changes) && Known(merged, key)
    ensures Known(changes, key)
  {
    var j :| 0 <= j < |merged| && merged[j].key == key;
    assert FileKeyOf(merged[j]) in Keys(merged);
    var d :| d in changes && FileKeyOf(d) == FileKeyOf(merged[j]);
  }

  // ---- Storing versions ----

  /** The stored versions of the paths that are still read. */
  function StillRead(stored: seq<Version>, versions: seq<Version>): seq<Version>
    decreases |stored|
  {
    if |stored| == 0 then []
    else
      var n := |stored| - 1;
      StillRead(stored[..n], versions) + if stored[n].path in Reads(versions) then [stored[n]] else []
  }

  /** The store forgets the paths that are not read any more and takes the versions of the others. */
  function StoredVersions(stored: seq<Version>, versions: seq<Version>): seq<Version> {
    PutAll(StillRead(stored, versions), versions)
  }

  /** So it has exactly the versions of the thread, each under its path. */
  lemma StoredVersionsAre(stored: seq<Version>, versions: seq<Version>)
    ensures Reads(StoredVersions(stored, versions)) == Reads(versions)
  {
    StillReadAre(stored, versions);
    ReadsOfPutAll(StillRead(stored, versions), versions);
  }

  lemma {:induction false} StillReadAre(stored: seq<Version>, versions: seq<Version>)
    ensures Reads(StillRead(stored, versions)) ==
              map p | p in Reads(stored) && p in Reads(versions) :: Reads(stored)[p]
    decreases |stored|
  {
    if |stored| > 0 {
      var n := |stored| - 1;
      var before := StillRead(stored[..n], versions);
      StillReadAre(stored[..n], versions);
      if stored[n].path in Reads(versions) {
        assert (before + [stored[n]])[..|before|] == before;
      } else {
        assert StillRead(stored, versions) == before;
      }
    }
  }

  // ---- Storing changes ----

  function FileKeyOf(c: Change): FileKey {
    FileKey(c.key, c.beforeHash)
  }

  function Keys(changes: seq<Change>): set<FileKey> {
    set c | c in changes :: FileKeyOf(c)
  }

  predicate DistinctFiles(changes: seq<Change>) {
    forall i, j :: 0 <= i < j < |changes| ==> FileKeyOf(changes[i]) != FileKeyOf(changes[j])
  }

  lemma KeysOfPrefix(a: seq<Change>, b: seq<Change>)
    requires a <= b
    ensures Keys(a) <= Keys(b)
  {
    forall k | k in Keys(a) ensures k in Keys(b) {
      var c :| c in a && FileKeyOf(c) == k;
      var i :| 0 <= i < |a| && a[i] == c;
      assert b[i] == c;
    }
  }

  lemma KeysOfSum(a: seq<Change>, b: seq<Change>)
    ensures Keys(a + b) == Keys(a) + Keys(b)
  {
    assert forall c :: c in a + b <==> c in a || c in b;
  }

  /** The changes that a delta appends to the stored ones. */
  function Missing(stored: seq<Change>, changes: seq<Change>): seq<Change>
    decreases |changes|
  {
    if |changes| == 0 then []
    else (if FileKeyOf(changes[0]) in Keys(stored) then [] else [changes[0]]) + Missing(stored, changes[1..])
  }

  /** The delta appends exactly the changes that are not stored, in order, and so stores them all. */
  lemma {:induction false} MissingIsUnknown(stored: seq<Change>, changes: seq<Change>)
    ensures var missing := Missing(stored, changes);
            && (forall c :: c in missing <==> c in changes && FileKeyOf(c) !in Keys(stored))
            && Keys(stored + missing) == Keys(stored) + Keys(changes)
            && (missing == [] <==> Keys(changes) <= Keys(stored))
  {
    var missing := Missing(stored, changes);
    KeysOfSum(stored, missing);
    MissingAre(stored, changes);
    hide Missing;
    if missing != [] {
      assert missing[0] in missing;
    }
    if !(Keys(changes) <= Keys(stored)) {
      var k :| k in Keys(changes) && k !in Keys(stored);
      var c :| c in changes && FileKeyOf(c) == k;
      assert c in missing;
    }
    assert Keys(missing) + Keys(stored) == Keys(stored) + Keys(changes);
  }

  lemma {:induction false} MissingAre(stored: seq<Change>, changes: seq<Change>)
    ensures forall c :: c in Missing(stored, changes) <==> c in changes && FileKeyOf(c) !in Keys(stored)
    decreases |changes|
  {
    hide Keys;
    if |changes| > 0 {
      MissingAre(stored, changes[1..]);
      assert forall c :: c in changes <==> c == changes[0] || c in changes[1..];
    }
  }

  lemma {:induction false} MissingDistinct(stored: seq<Change>, changes: seq<Change>)
    requires DistinctFiles(changes)
    ensures DistinctFiles(Missing(stored, changes))
    decreases |changes|
  {
    hide Keys;
    if |changes| > 0 {
      var rest := Missing(stored, changes[1..]);
      MissingDistinct(stored, changes[1..]);
      MissingAre(stored, changes[1..]);
      forall i | 0 <= i < |rest| ensures FileKeyOf(rest[i]) != FileKeyOf(changes[0]) {
        assert rest[i] in rest;
      }
    }
  }

  /** The loop that collects them. */
  method AppendedChanges(stored: seq<Change>, changes: seq<Change>) returns (appended: seq<Change>)
    ensures appended == Missing(stored, changes)
  {
    var durable := Keys(stored);
    appended := [];
    for i := 0 to |changes|
      invariant appended + Missing(stored, changes[i..]) == Missing(stored, changes)
    {
      assert changes[i..][1..] == changes[i + 1..];
      if FileKeyOf(changes[i]) !in durable {
        appended := appended + [changes[i]];
      }
    }
    assert changes[|changes|..] == [];
  }

  /** The changes followed by those handed over that are not among them yet, as the store tells them apart. */
  function Added(changes: seq<Change>, found: seq<Change>): seq<Change>
    decreases |found|
  {
    if |found| == 0 then changes
    else Added(if FileKeyOf(found[0]) in Keys(changes) then changes else changes + [found[0]], found[1..])
  }

  lemma {:induction false} AddedIsUnion(changes: seq<Change>, found: seq<Change>)
    ensures changes <= Added(changes, found) && Keys(Added(changes, found)) == Keys(changes) + Keys(found)
    decreases |found|
  {
    if |found| > 0 {
      var first := found[0];
      var grown := if FileKeyOf(first) in Keys(changes) then changes else changes + [first];
      AddedIsUnion(grown, found[1..]);
      KeysOfSum(changes, [first]);
      KeysOfSum([first], found[1..]);
      KeyOfOne(first);
      hide Keys;
      assert found == [first] + found[1..];
    }
  }

  lemma KeyOfOne(c: Change)
    ensures Keys([c]) == {FileKeyOf(c)}
  {}

  method MergeFileChanges(target: seq<Change>, additions: seq<Change>) returns (merged: seq<Change>)
    ensures merged == Added(target, additions)
  {
    merged := target;
    var known := Keys(target);
    for i := 0 to |additions|
      invariant known == Keys(merged)
      invariant Added(merged, additions[i..]) == Added(target, additions)
    {
      assert additions[i..][1..] == additions[i + 1..];
      KeysOfSum(merged, [additions[i]]);
      KeyOfOne(additions[i]);
      if FileKeyOf(additions[i]) !in known {
        merged := merged + [additions[i]];
        known := known + {FileKeyOf(additions[i])};
      }
    }
    assert additions[|additions|..] == [];
  }

  // ---- Restoring ----

  /**
   What opening a project's folders finds: what the path guard makes of each path
   it accepts, the paths that lie in a folder that cannot be found, and the hash
   of each file that is there.
   */
  datatype Folders = Folders(id: nat, root: string, normal: map<string, string>, missing: set<string>,
                             files: map<string, string>)

  /** The file still has the hash that was read. */
  predicate Current(v: Version, folders: Folders) {
    && v.path !in folders.missing && v.path in folders.normal
    && folders.normal[v.path] in folders.files && folders.files[folders.normal[v.path]] == v.hash
  }

  function RestoredReads(versions: seq<Version>, folders: Folders): seq<Version> {
    if |versions| == 0 then []
    else
      var last := versions[|versions| - 1];
      var restored := RestoredReads(versions[..|versions| - 1], folders);
      if Current(last, folders) then Put(restored, last.(path := folders.normal[last.path])) else restored
  }

  /** Some saved version is not restored. */
  predicate Stale(versions: seq<Version>, folders: Folders) {
    exists v :: v in versions && !Current(v, folders)
  }

  method RestoreReads(versions: seq<Version>, folders: Folders) returns (restored: seq<Version>, stale: nat)
    ensures restored == RestoredReads(versions, folders)
    ensures stale > 0 <==> Stale(versions, folders)
  {
    restored, stale := [], 0;
    for i := 0 to |versions|
      invariant restored == RestoredReads(versions[..i], folders)
      invariant stale > 0 <==> Stale(versions[..i], folders)
    {
      assert versions[..i + 1][..i] == versions[..i];
      assert forall v :: v in versions[..i + 1] <==> v in versions[..i] || v == versions[i];
      if Current(versions[i], folders) {
        restored := Put(restored, versions[i].(path := folders.normal[versions[i].path]));
      } else {
        stale := stale + 1;
      }
    }
    assert versions[..|versions|] == versions;
  }

  /**
   A version is restored only for a file that still has the hash that was read,
   and every saved version of such a file is restored under its path of today.
   */
  lemma {:induction false} RestoredReadsAreCurrent(versions: seq<Version>, folders: Folders)
    ensures var restored := Reads(RestoredReads(versions, folders));
            && (forall p :: p in restored ==>
                  && p in folders.files && folders.files[p] == restored[p].hash
                  && exists v :: v in versions && Current(v, folders) && restored[p] == v.(path := p) &&
                                 folders.normal[v.path] == p)
            && (forall v :: v in versions && Current(v, folders) ==> folders.normal[v.path] in restored)
    decreases |versions|
  {
    if |versions| > 0 {
      var n := |versions| - 1;
      var last := versions[n];
      RestoredReadsAreCurrent(versions[..n], folders);
      assert forall v :: v in versions <==> v in versions[..n] || v == last;
      if Current(last, folders) {
        ReadsOfPut(RestoredReads(versions[..n], folders), last.(path := folders.normal[last.path]));
      }
      hide Current, Reads;
    }
  }

  /** What was read comes back as it was saved if and only if every file is current and no path changes. */
  lemma ReadsKeptIff(versions: seq<Version>, folders: Folders)
    requires Stable(folders) && DistinctPaths(versions)
    ensures Reads(RestoredReads(versions, folders)) == Reads(versions) <==>
              forall v :: v in versions ==> Current(v, folders) && folders.normal[v.path] == v.path
  {
    ReadsAre(versions);
    RestoredReadsAreCurrent(versions, folders);
    if Reads(RestoredReads(versions, folders)) == Reads(versions) {
      forall v | v in versions ensures Current(v, folders) && folders.normal[v.path] == v.path {
        var d :| d in versions && Current(d, folders) && folders.normal[d.path] == v.path;
      }
    }
    if forall v :: v in versions ==> Current(v, folders) && folders.normal[v.path] == v.path {
      KeptReads(versions, folders);
    }
  }

  lemma {:induction false} KeptReads(versions: seq<Version>, folders: Folders)
    requires forall v :: v in versions ==> Current(v, folders) && folders.normal[v.path] == v.path
    ensures Reads(RestoredReads(versions, folders)) == Reads(versions)
    decreases |versions|
  {
    if |versions| > 0 {
      var n := |versions| - 1;
      assert forall v :: v in versions[..n] ==> v in versions;
      assert versions[n] in versions;
      KeptReads(versions[..n], folders);
      ReadsOfPut(RestoredReads(versions[..n], folders), versions[n]);
    }
  }

  function Moved(c: Change, path: string): Change {
    c.(key := c.key.(path := path))
  }

  /** A saved change in the folders of today; none when the guard refuses its path. */
  function Restored(c: Change, folders: Folders): seq<Change> {
    if c.key.path in folders.missing then [c]
    else if c.key.path in folders.normal then [Moved(c, folders.normal[c.key.path])]
    else []
  }

  /** The restored changes, each once. */
  function RestoredChanges(changes: seq<Change>, folders: Folders, restored: seq<Change>): seq<Change>
    decreases |changes|
  {
    if |changes| == 0 then restored
    else
      var now := Restored(changes[0], folders);
      RestoredChanges(changes[1..], folders, if now == [] || now[0] in restored then restored else restored + now)
  }

  method RestoreChanges(changes: seq<Change>, folders: Folders) returns (restored: seq<Change>)
    ensures restored == RestoredChanges(changes, folders, [])
  {
    restored := [];
    for i := 0 to |changes|
      invariant RestoredChanges(changes[i..], folders, restored) == RestoredChanges(changes, folders, [])
    {
      assert changes[i..][1..] == changes[i + 1..];
      var path := changes[i].key.path;
      if path in folders.missing {
        if changes[i] !in restored {
          restored := restored + [changes[i]];
        }
      } else if path in folders.normal {
        var moved := Moved(changes[i], folders.normal[path]);
        if moved !in restored {
          restored := restored + [moved];
        }
      }
    }
    assert changes[|changes|..] == [];
  }

  /** A change is restored if and only if a saved one is what it is now; none is restored twice. */
  lemma {:induction false} RestoredAre(changes: seq<Change>, folders: Folders, restored: seq<Change>)
    ensures var all := RestoredChanges(changes, folders, restored);
            && restored <= all && |all| <= |restored| + |changes|
            && (forall c :: c in all <==> c in restored || exists d :: d in changes && Restored(d, folders) == [c])
    decreases |changes|
  {
    if |changes| > 0 {
      var now := Restored(changes[0], folders);
      var grown := if now == [] || now[0] in restored then restored else restored + now;
      RestoredAre(changes[1..], folders, grown);
      assert forall d :: d in changes <==> d == changes[0] || d in changes[1..];
      assert now != [] ==> now == [now[0]];
      assert forall c :: c in grown <==> c in restored || now == [c];
    }
  }

  predicate PathKept(path: string, folders: Folders) {
    path in folders.missing || (path in folders.normal && folders.normal[path] == path)
  }

  predicate NoDuplicates(changes: seq<Change>) {
    forall i, j :: 0 <= i < j < |changes| ==> changes[i] != changes[j]
  }

  /** Every path is kept, and nothing is there twice or among the others already. */
  predicate Fresh(changes: seq<Change>, folders: Folders, others: seq<Change>) {
    && NoDuplicates(changes)
    && forall i :: 0 <= i < |changes| ==> PathKept(changes[i].key.path, folders) && changes[i] !in others
  }

  /** Restoring gives back the saved list if and only if every path is kept and no change was saved twice. */
  lemma RestoredAsSavedIff(changes: seq<Change>, folders: Folders)
    ensures RestoredChanges(changes, folders, []) == changes <==>
              NoDuplicates(changes) && forall c :: c in changes ==> PathKept(c.key.path, folders)
  {
    RestoredBehind(changes, folders, []);
    hide RestoredChanges, PathKept, NoDuplicates;
    assert [] + changes == changes;
    assert (forall i :: 0 <= i < |changes| ==> PathKept(changes[i].key.path, folders)) <==>
           (forall c :: c in changes ==> PathKept(c.key.path, folders));
  }

  lemma {:induction false} RestoredBehind(changes: seq<Change>, folders: Folders, restored: seq<Change>)
    ensures RestoredChanges(changes, folders, restored) == restored + changes <==> Fresh(changes, folders, restored)
    decreases |changes|
  {
    hide Fresh, Restored;
    if |changes| == 0 {
      assert Fresh(changes, folders, restored) by { EmptyIsFresh(folders, restored); }
      assert restored + changes == restored;
    } else {
      var first, rest := changes[0], changes[1..];
      var now := Restored(first, folders);
      var grown := if now == [] || now[0] in restored then restored else restored + now;
      RestoredBehind(rest, folders, grown);
      RestoredAre(rest, folders, grown);
      FreshStep(first, rest, folders, restored);
      assert [first] + rest == changes;
      assert |now| <= 1 by { AtMostOne(first, folders); }
      GrownByFirst(first, rest, restored, now, RestoredChanges(rest, folders, grown));
    }
  }

  lemma EmptyIsFresh(folders: Folders, restored: seq<Change>)
    ensures Fresh([], folders, restored)
  {}

  lemma AtMostOne(c: Change, folders: Folders)
    ensures |Restored(c, folders)| <= 1
  {}

  lemma GrownByFirst(first: Change, rest: seq<Change>, restored: seq<Change>, now: seq<Change>, all: seq<Change>)
    requires |now| <= 1
    requires var grown := if now == [] || now[0] in restored then restored else restored + now;
             grown <= all && |all| <= |grown| + |rest|
    ensures var grown := if now == [] || now[0] in restored then restored else restored + now;
            all == restored + ([first] + rest) <==>
              now == [first] && first !in restored && all == grown + rest
  {
    var grown := if now == [] || now[0] in restored then restored else restored + now;
    if all == restored + ([first] + rest) {
      assert |grown| == |restored| + 1;
      assert grown[|restored|] == all[|restored|] == first;
      assert now == [first];
    }
    assert restored + [first] + rest == restored + ([first] + rest);
  }

  lemma FreshStep(first: Change, rest: seq<Change>, folders: Folders, restored: seq<Change>)
    ensures Fresh([first] + rest, folders, restored) <==>
              Restored(first, folders) == [first] && first !in restored && Fresh(rest, folders, restored + [first])
  {
    var changes := [first] + rest;
    assert changes[0] == first;
    assert forall i :: 0 <= i < |rest| ==> changes[i + 1] == rest[i];
    assert forall c :: c in restored + [first] <==> c in restored || c == first;
  }

  /** The guard leaves alone what it has normalised, as that of a project with several folders does. */
  predicate Stable(folders: Folders) {
    forall p :: p in folders.normal && p !in folders.missing ==> PathKept(folders.normal[p], folders)
  }

  /** With such a guard, no stored change goes missing if and only if every path is kept. */
  lemma KeysKeptIff(changes: seq<Change>, folders: Folders)
    requires Stable(folders)
    ensures Keys(changes) <= Keys(RestoredChanges(changes, folders, [])) <==>
              forall c :: c in changes ==> PathKept(c.key.path, folders)
  {
    var all := RestoredChanges(changes, folders, []);
    RestoredAre(changes, folders, []);
    if Keys(changes) <= Keys(all) {
      forall c | c in changes ensures PathKept(c.key.path, folders) {
        assert FileKeyOf(c) in Keys(changes);
        var r :| r in all && FileKeyOf(r) == FileKeyOf(c);
        var d :| d in changes && Restored(d, folders) == [r];
        assert [r][0] == r;
      }
    }
    if forall c :: c in changes ==> PathKept(c.key.path, folders) {
      forall c | c in changes ensures FileKeyOf(c) in Keys(all) {
        assert Restored(c, folders) == [c] && c in all;
      }
    }
  }
}
