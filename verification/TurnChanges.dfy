/**
 The files one request left changed, with their diffs under a shared line budget
 (src/app/turn-changes.ts).
 */
module TurnChanges {
  import opened Common

  // ---- Diffs ----

  datatype Hunk = Hunk(oldStart: int, newStart: int, lines: seq<string>)

  datatype Diff = Diff(hunks: seq<Hunk>, truncated: bool)

  datatype Trimmed = Trimmed(diff: Diff, used: nat)

  const MAX_FILE_DIFF_LINES := 2000
  const MAX_TURN_DIFF_LINES := 50000
  const MAX_DIFF_LINE_CHARS := 400

  /** The characters that lie whole within the first `units` UTF-16 units. */
  function FirstUnits(line: string, units: nat): string {
    if line == "" || Units([line[0]]) > units then ""
    else [line[0]] + FirstUnits(line[1..], units - Units([line[0]]))
  }

  function Cut(line: string): string {
    if Units(line) > MAX_DIFF_LINE_CHARS then FirstUnits(line, MAX_DIFF_LINE_CHARS) + "\U{2026}" else line
  }

  function CutAll(lines: seq<string>): (cut: seq<string>)
    ensures |cut| == |lines| && forall i :: 0 <= i < |lines| ==> cut[i] == Cut(lines[i])
  {
    seq(|lines|, i requires 0 <= i < |lines| => Cut(lines[i]))
  }

  /** Keep hunks while there is room for at least one more line. */
  function Trim(hunks: seq<Hunk>, room: nat): Trimmed {
    if |hunks| == 0 then Trimmed(Diff([], false), 0)
    else if room == 0 then Trimmed(Diff([], true), 0)
    else
      var h := hunks[0];
      var taken := Min(room, |h.lines|);
      var rest := Trim(hunks[1..], room - taken);
      Trimmed(Diff([Hunk(h.oldStart, h.newStart, CutAll(h.lines[..taken]))] + rest.diff.hunks,
                   taken < |h.lines| || rest.diff.truncated),
              taken + rest.used)
  }

  function TrimDiff(hunks: seq<Hunk>, budget: nat): Trimmed {
    Trim(hunks, Min(budget, MAX_FILE_DIFF_LINES))
  }

  function Lines(hunks: seq<Hunk>): seq<string> {
    if |hunks| == 0 then [] else hunks[0].lines + Lines(hunks[1..])
  }

  predicate NonEmpty(hunks: seq<Hunk>) {
    forall h :: h in hunks ==> |h.lines| > 0
  }

  lemma CutAllConcat(a: seq<string>, b: seq<string>)
    ensures CutAll(a + b) == CutAll(a) + CutAll(b)
  {}

  lemma TakeConcat(a: seq<string>, b: seq<string>, n: nat)
    requires n <= |a| + |b|
    ensures (a + b)[..n] == if n <= |a| then a[..n] else a + b[..n - |a|]
  {}

  lemma LinesConcat(first: Hunk, hunks: seq<Hunk>)
    ensures Lines([first] + hunks) == first.lines + Lines(hunks)
  {
    assert ([first] + hunks)[1..] == hunks;
  }

  lemma CutAllNothing()
    ensures CutAll([]) == []
  {}

  /** The kept lines are a prefix of the lines, each cut. */
  lemma {:induction false} TrimText(hunks: seq<Hunk>, room: nat)
    ensures var t := Trim(hunks, room);
            && t.used == Min(room, |Lines(hunks)|)
            && Lines(t.diff.hunks) == CutAll(Lines(hunks)[..t.used])
  {
    hide Cut, CutAll;
    if |hunks| == 0 || room == 0 {
      CutAllNothing();
    } else {
      var h := hunks[0];
      var taken := Min(room, |h.lines|);
      var rest := Trim(hunks[1..], room - taken);
      TrimText(hunks[1..], room - taken);
      LinesConcat(Hunk(h.oldStart, h.newStart, CutAll(h.lines[..taken])), rest.diff.hunks);
      CutAllConcat(h.lines[..taken], Lines(hunks[1..])[..rest.used]);
      TakeConcat(h.lines, Lines(hunks[1..]), taken + rest.used);
      if taken == |h.lines| {
        assert h.lines[..taken] == h.lines;
      } else {
        assert h.lines[..taken] + Lines(hunks[1..])[..rest.used] == h.lines[..taken];
      }
    }
  }

  lemma LinesLength(hunks: seq<Hunk>)
    requires |hunks| > 0
    ensures |Lines(hunks)| == |hunks[0].lines| + |Lines(hunks[1..])|
  {}

  /** What a truncated diff says. */
  lemma {:induction false} TrimFlag(hunks: seq<Hunk>, room: nat)
    ensures var t := Trim(hunks, room);
            && |t.diff.hunks| <= |hunks| && t.used == Min(room, |Lines(hunks)|)
            && (t.diff.truncated <==> t.used < |Lines(hunks)| || |t.diff.hunks| < |hunks|)
            && (NonEmpty(hunks) && |t.diff.hunks| < |hunks| ==> t.used < |Lines(hunks)|)
  {
    if |hunks| > 0 {
      LinesLength(hunks);
      hide CutAll, Lines;
      if room == 0 {
        assert NonEmpty(hunks) ==> |hunks[0].lines| > 0;
      } else {
        TrimFlag(hunks[1..], room - Min(room, |hunks[0].lines|));
        assert NonEmpty(hunks) ==> NonEmpty(hunks[1..]);
      }
    }
  }

  /** The kept hunks keep their positions in the file. */
  lemma {:induction false} TrimPositions(hunks: seq<Hunk>, room: nat, i: nat)
    requires i < |Trim(hunks, room).diff.hunks|
    ensures i < |hunks|
    ensures Trim(hunks, room).diff.hunks[i].oldStart == hunks[i].oldStart
    ensures Trim(hunks, room).diff.hunks[i].newStart == hunks[i].newStart
  {
    hide CutAll;
    if i > 0 {
      TrimPositions(hunks[1..], room - Min(room, |hunks[0].lines|), i - 1);
    }
  }

  /**
   A trimmed diff keeps a prefix of the lines, as long as the budget allows, and
   is flagged when lines were dropped; for hunks that all have lines, only then.
   */
  lemma TrimKeepsAPrefix(hunks: seq<Hunk>, budget: nat)
    ensures var t := TrimDiff(hunks, budget);
            && t.used == |Lines(t.diff.hunks)| && t.used <= budget && t.used <= MAX_FILE_DIFF_LINES
            && t.used <= |Lines(hunks)|
            && (t.used == |Lines(hunks)| || t.used == budget || t.used == MAX_FILE_DIFF_LINES)
            && Lines(t.diff.hunks) == CutAll(Lines(hunks)[..t.used])
            && (t.used < |Lines(hunks)| ==> t.diff.truncated)
            && (NonEmpty(hunks) ==> (t.diff.truncated <==> t.used < |Lines(hunks)|))
  {
    hide Trim, CutAll;
    TrimText(hunks, Min(budget, MAX_FILE_DIFF_LINES));
    TrimFlag(hunks, Min(budget, MAX_FILE_DIFF_LINES));
  }

  lemma TrimEnd(hunks: seq<Hunk>, room: nat)
    requires |hunks| == 0 || room == 0
    ensures Trim(hunks, room) == Trimmed(Diff([], |hunks| > 0), 0)
  {}

  lemma TrimStep(hunks: seq<Hunk>, room: nat)
    requires |hunks| > 0 && room > 0
    ensures var h := hunks[0];
            var taken := Min(room, |h.lines|);
            var rest := Trim(hunks[1..], room - taken);
            Trim(hunks, room) ==
            Trimmed(Diff([Hunk(h.oldStart, h.newStart, CutAll(h.lines[..taken]))] + rest.diff.hunks,
                         taken < |h.lines| || rest.diff.truncated), taken + rest.used)
  {
    hide CutAll;
  }

  /** Trimming as written. */
  method TrimHunks(hunks: seq<Hunk>, budget: nat) returns (t: Trimmed)
    ensures t == TrimDiff(hunks, budget)
  {
    hide CutAll, Trim;
    var limit := Min(budget, MAX_FILE_DIFF_LINES);
    var kept: seq<Hunk>, used: nat, truncated, rest := [], 0, false, hunks;
    ghost var whole := Trim(hunks, limit);
    while |rest| > 0
      invariant used <= limit
      invariant Extended(kept, used, truncated, Trim(rest, limit - used)) == whole
      decreases |rest|
    {
      if used >= limit {
        TrimEnd(rest, 0);
        assert kept + [] == kept;
        return Trimmed(Diff(kept, true), used);
      }
      var h := rest[0];
      var taken := Min(limit - used, |h.lines|);
      var lines := CutAll(h.lines[..taken]);
      TrimStep(rest, limit - used);
      ExtendOne(kept, used, truncated, Hunk(h.oldStart, h.newStart, lines), taken, taken < |h.lines|,
                Trim(rest[1..], limit - used - taken));
      if |lines| < |h.lines| {
        truncated := true;
      }
      kept := kept + [Hunk(h.oldStart, h.newStart, lines)];
      used := used + |lines|;
      rest := rest[1..];
    }
    TrimEnd([], limit - used);
    assert kept + [] == kept;
    return Trimmed(Diff(kept, truncated), used);
  }

  /** What was kept so far, then the rest. */
  function Extended(kept: seq<Hunk>, used: nat, truncated: bool, rest: Trimmed): Trimmed {
    Trimmed(Diff(kept + rest.diff.hunks, truncated || rest.diff.truncated), used + rest.used)
  }

  lemma ExtendOne(kept: seq<Hunk>, used: nat, truncated: bool, h: Hunk, taken: nat, dropped: bool, rest: Trimmed)
    ensures Extended(kept, used, truncated,
                     Trimmed(Diff([h] + rest.diff.hunks, dropped || rest.diff.truncated), taken + rest.used)) ==
            Extended(kept + [h], used + taken, truncated || dropped, rest)
  {
    assert kept + ([h] + rest.diff.hunks) == kept + [h] + rest.diff.hunks;
  }

  // ---- Changes ----

  datatype Operation = Create | Update | Delete | Generated | DeletedByCommand

  datatype Status = Applied | Verified | Conflict | Failed | PolicyViolation

  /** A recorded change; `known` says that the file had content before. */
  datatype Change = Change(path: string, operation: Operation, known: bool, status: Status, byCommand: bool)

  predicate TookEffect(c: Change) {
    c.status == Applied || c.status == Verified
  }

  predicate CreatesFile(c: Change) {
    c.operation == Create || (c.operation == Generated && !c.known)
  }

  predicate DeletesFile(c: Change) {
    c.operation == Delete || c.operation == DeletedByCommand
  }

  datatype Counts = Counts(added: nat, removed: nat)

  /** The net change of a file's text. */
  datatype Net = Net(lines: Counts, hunks: seq<Hunk>)

  datatype Verdict = Created | Deleted | Modified

  datatype File = File(path: string, absolute: string, verdict: Verdict, lines: Option<Counts>, diff: Option<Diff>)

  /** The paths left out, the resolution of the others, and the net change of each text. */
  datatype Host = Host(hidden: string -> bool, resolve: string -> Option<string>, net: string -> Option<Net>)

  /** The first and last change of each path, in first-touched order. */
  datatype Tally = Tally(order: seq<string>, first: map<string, Change>, last: map<string, Change>,
                         byCommand: set<string>)

  predicate Counted(host: Host, c: Change) {
    TookEffect(c) && !host.hidden(c.path)
  }

  function Touch(t: Tally, c: Change): Tally {
    Tally(if c.path in t.first then t.order else t.order + [c.path],
          if c.path in t.first then t.first else t.first[c.path := c],
          t.last[c.path := c],
          if c.byCommand then t.byCommand + {c.path} else t.byCommand)
  }

  function TallyOf(host: Host, changes: seq<Change>): Tally {
    if |changes| == 0 then Tally([], map[], map[], {})
    else
      var t := TallyOf(host, changes[..|changes| - 1]);
      var c := changes[|changes| - 1];
      if Counted(host, c) then Touch(t, c) else t
  }

  ghost predicate TallyOk(t: Tally) {
    && (forall p :: p in t.first <==> p in t.order)
    && (forall i, j :: 0 <= i < j < |t.order| ==> t.order[i] != t.order[j])
    && t.first.Keys == t.last.Keys
  }

  /** The verdict on a path, or nothing when it was both created and removed. */
  function VerdictOf(t: Tally, path: string): Option<Verdict>
    requires path in t.first && path in t.last
  {
    var created, deleted := CreatesFile(t.first[path]), DeletesFile(t.last[path]);
    if created && deleted then None else Some(if deleted then Deleted else if created then Created else Modified)
  }

  /** What the file tools did to a path, which says nothing once a command wrote to it. */
  function NetOf(host: Host, t: Tally, path: string): Option<Net> {
    if path in t.byCommand then None else host.net(path)
  }

  /** The diff lines a path takes from the budget. */
  function Taken(host: Host, t: Tally, path: string, budget: nat): (used: nat)
    ensures used <= budget
  {
    if NetOf(host, t, path).None? || budget == 0 then 0
    else
      TrimKeepsAPrefix(NetOf(host, t, path).value.hunks, budget);
      TrimDiff(NetOf(host, t, path).value.hunks, budget).used
  }

  /** Listed: not both created and removed, and inside the workspace. */
  predicate Listed(host: Host, t: Tally, path: string)
    requires path in t.first && path in t.last
  {
    VerdictOf(t, path).Some? && host.resolve(path).Some?
  }

  function FileOf(host: Host, t: Tally, path: string, budget: nat): File
    requires path in t.first && path in t.last && Listed(host, t, path)
  {
    var net := NetOf(host, t, path);
    File(path, host.resolve(path).value, VerdictOf(t, path).value,
         if net.Some? then Some(net.value.lines) else None,
         if net.Some? && budget > 0 then Some(TrimDiff(net.value.hunks, budget).diff) else None)
  }

  /** The files of the paths left, with the budget left. */
  function FilesFrom(host: Host, t: Tally, paths: seq<string>, budget: nat): seq<File>
    requires TallyOk(t) && forall p :: p in paths ==> p in t.first
    decreases |paths|
  {
    if |paths| == 0 then []
    else if !Listed(host, t, paths[0]) then FilesFrom(host, t, paths[1..], budget)
    else [FileOf(host, t, paths[0], budget)] + FilesFrom(host, t, paths[1..], budget - Taken(host, t, paths[0], budget))
  }

  lemma TouchOk(t: Tally, c: Change)
    requires TallyOk(t)
    ensures TallyOk(Touch(t, c))
  {
    assert forall p :: p in t.order + [c.path] <==> p in t.order || p == c.path;
  }

  lemma {:induction false} TallyIsOk(host: Host, changes: seq<Change>)
    ensures TallyOk(TallyOf(host, changes))
  {
    hide TallyOk, Touch;
    if |changes| == 0 {
      NothingTouched();
    } else {
      TallyIsOk(host, changes[..|changes| - 1]);
      TouchOk(TallyOf(host, changes[..|changes| - 1]), changes[|changes| - 1]);
    }
  }

  lemma NothingTouched()
    ensures TallyOk(Tally([], map[], map[], {}))
  {}

  /** The summary of a request. */
  function TurnChangedFiles(host: Host, changes: seq<Change>): seq<File> {
    TallyIsOk(host, changes);
    FilesFrom(host, TallyOf(host, changes), TallyOf(host, changes).order, MAX_TURN_DIFF_LINES)
  }

  // ---- The summary against the files themselves ----

  /** The files there are after one change, by what it did to the disk. */
  function Done(now: set<string>, c: Change): set<string> {
    match c.status
    case Conflict | Failed | PolicyViolation => now
    case Applied | Verified =>
      match c.operation
      case Create | Update | Generated => now + {c.path}
      case Delete | DeletedByCommand => now - {c.path}
  }

  /** The files that exist after the changes. */
  function Exist(before: set<string>, changes: seq<Change>): set<string> {
    if |changes| == 0 then before else Done(Exist(before, changes[..|changes| - 1]), changes[|changes| - 1])
  }

  /** The change says of a missing file that it is new, and of no other. */
  predicate Honest(now: set<string>, c: Change) {
    match c.status
    case Conflict | Failed | PolicyViolation => true
    case Applied | Verified =>
      match c.operation
      case Create => c.path !in now
      case Generated => !c.known <==> c.path !in now
      case Update | Delete | DeletedByCommand => c.path in now
  }

  /** Only missing files are created, and only existing ones updated or deleted. */
  predicate WellFormed(before: set<string>, changes: seq<Change>) {
    |changes| > 0 ==>
      var history := changes[..|changes| - 1];
      WellFormed(before, history) && Honest(Exist(before, history), changes[|changes| - 1])
  }

  /** The first change of a path knows whether it existed before, and the last whether it exists now. */
  ghost predicate Knows(host: Host, before: set<string>, now: set<string>, t: Tally) {
    && (forall p :: p in t.first ==> (CreatesFile(t.first[p]) <==> p !in before))
    && t.first.Keys == t.last.Keys && (forall p :: p in t.first ==> !host.hidden(p))
    && (forall p :: p in t.last ==> (DeletesFile(t.last[p]) <==> p !in now))
    && (forall p :: p !in t.first && !host.hidden(p) ==> (p in before <==> p in now))
  }

  lemma KnowsStep(host: Host, before: set<string>, now: set<string>, t: Tally, c: Change)
    requires Knows(host, before, now, t) && Honest(now, c)
    ensures Knows(host, before, Done(now, c), if Counted(host, c) then Touch(t, c) else t)
  {}

  lemma {:induction false} TallyKnowsExistence(host: Host, before: set<string>, changes: seq<Change>)
    requires WellFormed(before, changes)
    ensures Knows(host, before, Exist(before, changes), TallyOf(host, changes))
  {
    hide Knows, Touch, Counted, Done, Honest;
    if |changes| == 0 {
      NothingKnown(host, before);
    } else {
      var history := changes[..|changes| - 1];
      TallyKnowsExistence(host, before, history);
      KnowsStep(host, before, Exist(before, history), TallyOf(host, history), changes[|changes| - 1]);
    }
  }

  lemma NothingKnown(host: Host, before: set<string>)
    ensures Knows(host, before, before, Tally([], map[], map[], {}))
  {}

  // ---- The main results ----

  /** The position of the first change that touches the path, or the length. */
  function FirstTouch(host: Host, changes: seq<Change>, path: string): (k: nat)
    ensures k <= |changes|
  {
    if |changes| == 0 then 0
    else
      var n := |changes| - 1;
      var k := FirstTouch(host, changes[..n], path);
      if k < n || (Counted(host, changes[n]) && changes[n].path == path) then k else n + 1
  }

  lemma {:induction false} FirstTouchIsFirst(host: Host, changes: seq<Change>, path: string)
    ensures var k := FirstTouch(host, changes, path);
            && (k < |changes| ==> Counted(host, changes[k]) && changes[k].path == path)
            && forall i :: 0 <= i < k ==> !(Counted(host, changes[i]) && changes[i].path == path)
  {
    hide Counted;
    if |changes| > 0 {
      FirstTouchIsFirst(host, changes[..|changes| - 1], path);
    }
  }

  lemma FirstTouchSnoc(host: Host, changes: seq<Change>, c: Change, path: string)
    ensures var k := FirstTouch(host, changes, path);
            FirstTouch(host, changes + [c], path) ==
            if k < |changes| || (Counted(host, c) && c.path == path) then k else |changes| + 1
  {
    assert (changes + [c])[..|changes|] == changes;
    hide Counted;
  }

  /** Paths in the order of their first change. */
  predicate Increasing(host: Host, changes: seq<Change>, paths: seq<string>) {
    forall i, j :: 0 <= i < j < |paths| ==> FirstTouch(host, changes, paths[i]) < FirstTouch(host, changes, paths[j])
  }

  /** The tally holds the first change of every touched path, in the order of those changes. */
  ghost predicate InOrder(host: Host, changes: seq<Change>, t: Tally) {
    && (forall p :: p in t.first <==> FirstTouch(host, changes, p) < |changes|)
    && (forall p :: p in t.first ==> t.first[p] == changes[FirstTouch(host, changes, p)])
    && Increasing(host, changes, t.order)
  }

  /** A later change leaves the first change of touched paths as it is. */
  lemma IncreasingLonger(host: Host, changes: seq<Change>, c: Change, paths: seq<string>)
    requires Increasing(host, changes, paths) && forall p :: p in paths ==> FirstTouch(host, changes, p) < |changes|
    ensures Increasing(host, changes + [c], paths)
    ensures forall p :: p in paths ==> FirstTouch(host, changes + [c], p) < |changes|
  {
    hide FirstTouch, Counted;
    forall p | p in paths ensures FirstTouch(host, changes + [c], p) == FirstTouch(host, changes, p) {
      FirstTouchSnoc(host, changes, c, p);
    }
  }

  lemma IncreasingSnoc(host: Host, changes: seq<Change>, paths: seq<string>, path: string)
    requires Increasing(host, changes, paths)
    requires forall p :: p in paths ==> FirstTouch(host, changes, p) < FirstTouch(host, changes, path)
    ensures Increasing(host, changes, paths + [path])
  {
    hide FirstTouch;
  }

  lemma SameInOrder(host: Host, changes: seq<Change>, c: Change, t: Tally, after: Tally)
    requires InOrder(host, changes, t) && TallyOk(t) && (!Counted(host, c) || c.path in t.first)
    requires after.order == t.order && after.first == t.first
    ensures InOrder(host, changes + [c], after)
  {
    OrderIsTouched(t);
    IncreasingLonger(host, changes, c, t.order);
    hide Counted, FirstTouch, TallyOk, Increasing;
    forall p { FirstTouchSnoc(host, changes, c, p); }
  }

  lemma NewInOrder(host: Host, changes: seq<Change>, c: Change, t: Tally)
    requires InOrder(host, changes, t) && TallyOk(t) && Counted(host, c) && c.path !in t.first
    ensures InOrder(host, changes + [c], Touch(t, c))
  {
    OrderIsTouched(t);
    IncreasingLonger(host, changes, c, t.order);
    FirstTouchSnoc(host, changes, c, c.path);
    hide Counted, FirstTouch, TallyOk, Increasing;
    IncreasingSnoc(host, changes + [c], t.order, c.path);
    var after := Touch(t, c);
    forall p
      ensures p in after.first <==> FirstTouch(host, changes + [c], p) < |changes + [c]|
      ensures p in after.first ==> after.first[p] == (changes + [c])[FirstTouch(host, changes + [c], p)]
    {
      NewFirst(host, changes, c, t, p);
    }
  }

  lemma NewFirst(host: Host, changes: seq<Change>, c: Change, t: Tally, p: string)
    requires InOrder(host, changes, t) && Counted(host, c) && c.path !in t.first
    ensures var after, all := Touch(t, c), changes + [c];
            && (p in after.first <==> FirstTouch(host, all, p) < |all|)
            && (p in after.first ==> after.first[p] == all[FirstTouch(host, all, p)])
  {
    FirstTouchSnoc(host, changes, c, p);
    FirstTouchSnoc(host, changes, c, c.path);
    hide FirstTouch, Increasing;
  }

  lemma TouchInOrder(host: Host, changes: seq<Change>, c: Change, t: Tally)
    requires InOrder(host, changes, t) && TallyOk(t)
    ensures InOrder(host, changes + [c], if Counted(host, c) then Touch(t, c) else t)
  {
    if Counted(host, c) && c.path !in t.first {
      NewInOrder(host, changes, c, t);
    } else {
      SameInOrder(host, changes, c, t, if Counted(host, c) then Touch(t, c) else t);
    }
  }

  lemma OrderIsTouched(t: Tally)
    requires TallyOk(t)
    ensures forall p :: p in t.order ==> p in t.first
  {}

  lemma {:induction false} OrderIsFirstTouch(host: Host, changes: seq<Change>)
    ensures InOrder(host, changes, TallyOf(host, changes))
  {
    if |changes| > 0 {
      hide InOrder, Touch;
      var n := |changes| - 1;
      OrderIsFirstTouch(host, changes[..n]);
      TallyIsOk(host, changes[..n]);
      TouchInOrder(host, changes[..n], changes[n], TallyOf(host, changes[..n]));
      assert changes[..n] + [changes[n]] == changes;
    }
  }

  /** The paths that are listed. */
  function Chosen(host: Host, t: Tally, paths: seq<string>): seq<string>
    requires TallyOk(t) && forall p :: p in paths ==> p in t.first
  {
    if |paths| == 0 then []
    else if Listed(host, t, paths[0]) then [paths[0]] + Chosen(host, t, paths[1..])
    else Chosen(host, t, paths[1..])
  }

  function DiffLines(f: File): nat {
    if f.diff.Some? then |Lines(f.diff.value.hunks)| else 0
  }

  function Kept(files: seq<File>): nat {
    if |files| == 0 then 0 else DiffLines(files[0]) + Kept(files[1..])
  }

  /** The diff of a file is a prefix of its lines, each cut, and says so when it is not all of them. */
  ghost predicate DiffRight(host: Host, t: Tally, f: File) {
    var net := NetOf(host, t, f.path);
    && f.lines == (if net.Some? then Some(net.value.lines) else None)
    && (f.diff.Some? ==>
          && net.Some?
          && var kept, lines := Lines(f.diff.value.hunks), Lines(net.value.hunks);
             && |kept| <= |lines| && |kept| <= MAX_FILE_DIFF_LINES
             && kept == CutAll(lines[..|kept|])
             && (|kept| < |lines| ==> f.diff.value.truncated)
             && (NonEmpty(net.value.hunks) && f.diff.value.truncated ==> |kept| < |lines|))
  }

  /** The file of a listed path. */
  ghost predicate FileRight(host: Host, t: Tally, path: string, f: File)
    requires path in t.first && path in t.last
  {
    && f.path == path && Some(f.absolute) == host.resolve(path) && Some(f.verdict) == VerdictOf(t, path)
    && DiffRight(host, t, f)
  }

  lemma FileOfRight(host: Host, t: Tally, path: string, budget: nat)
    requires path in t.first && path in t.last && Listed(host, t, path)
    ensures var f := FileOf(host, t, path, budget);
            && FileRight(host, t, path, f)
            && DiffLines(f) == Taken(host, t, path, budget)
            && (f.lines.Some? && f.diff.None? ==> budget == 0)
  {
    hide TrimDiff, CutAll, Lines, VerdictOf;
    if NetOf(host, t, path).Some? {
      TrimKeepsAPrefix(NetOf(host, t, path).value.hunks, budget);
    }
  }

  /** The files are those chosen, in order, each right, and together within the budget. */
  lemma {:induction false} FilesAreRight(host: Host, t: Tally, paths: seq<string>, budget: nat)
    requires TallyOk(t) && forall p :: p in paths ==> p in t.first
    ensures var files, chosen := FilesFrom(host, t, paths, budget), Chosen(host, t, paths);
            && |files| == |chosen|
            && (forall i :: 0 <= i < |files| ==> chosen[i] in paths && FileRight(host, t, chosen[i], files[i]))
            && Kept(files) <= budget
            && (forall i :: 0 <= i < |files| && files[i].lines.Some? && files[i].diff.None? ==> Kept(files) == budget)
    decreases |paths|
  {
    hide FileRight, FileOf, DiffLines, Taken, NetOf, Listed;
    if |paths| > 0 {
      var path := paths[0];
      if Listed(host, t, path) {
        FileOfRight(host, t, path, budget);
        FilesAreRight(host, t, paths[1..], budget - Taken(host, t, path, budget));
        var rest := FilesFrom(host, t, paths[1..], budget - Taken(host, t, path, budget));
        assert ([FileOf(host, t, path, budget)] + rest)[1..] == rest;
      } else {
        FilesAreRight(host, t, paths[1..], budget);
      }
    }
  }

  /** The verdict that the files before and after call for. */
  function VerdictByExistence(before: set<string>, after: set<string>, path: string): Option<Verdict> {
    match (path in before, path in after)
    case (true, true) => Some(Modified)
    case (true, false) => Some(Deleted)
    case (false, true) => Some(Created)
    case (false, false) => None
  }

  lemma VerdictsAgree(host: Host, before: set<string>, changes: seq<Change>, path: string)
    requires WellFormed(before, changes) && path in TallyOf(host, changes).first && path in TallyOf(host, changes).last
    ensures VerdictOf(TallyOf(host, changes), path) == VerdictByExistence(before, Exist(before, changes), path)
  {
    TallyKnowsExistence(host, before, changes);
    hide TallyOf, Exist, WellFormed, CreatesFile, DeletesFile;
  }

  lemma SummaryIs(host: Host, changes: seq<Change>)
    ensures TallyOk(TallyOf(host, changes))
    ensures forall p :: p in TallyOf(host, changes).order <==> p in TallyOf(host, changes).first
    ensures TallyOf(host, changes).first.Keys == TallyOf(host, changes).last.Keys
    ensures TurnChangedFiles(host, changes) ==
            FilesFrom(host, TallyOf(host, changes), TallyOf(host, changes).order, MAX_TURN_DIFF_LINES)
  {
    TallyIsOk(host, changes);
    hide TallyOf;
  }

  lemma {:induction false} ChosenExactly(host: Host, t: Tally, paths: seq<string>)
    requires TallyOk(t) && forall p :: p in paths ==> p in t.first
    ensures forall p :: p in Chosen(host, t, paths) <==> p in paths && Listed(host, t, p)
  {
    hide Listed;
    if |paths| > 0 {
      ChosenExactly(host, t, paths[1..]);
      assert forall p :: p in paths <==> p == paths[0] || p in paths[1..];
    }
  }

  lemma {:induction false} ChosenInOrder(host: Host, changes: seq<Change>, t: Tally, paths: seq<string>)
    requires TallyOk(t) && forall p :: p in paths ==> p in t.first
    requires Increasing(host, changes, paths)
    ensures Increasing(host, changes, Chosen(host, t, paths))
  {
    if |paths| > 0 {
      hide Listed, FirstTouch;
      var rest := paths[1..];
      assert forall i :: 0 <= i < |rest| ==> rest[i] == paths[i + 1];
      ChosenInOrder(host, changes, t, rest);
      ChosenExactly(host, t, rest);
      var chosen := Chosen(host, t, rest);
      forall p | p in chosen ensures FirstTouch(host, changes, paths[0]) < FirstTouch(host, changes, p) {
        var k :| 0 <= k < |rest| && rest[k] == p;
        assert paths[k + 1] == p;
      }
      ConsIncreasing(host, changes, paths[0], chosen);
    }
  }

  lemma ConsIncreasing(host: Host, changes: seq<Change>, path: string, paths: seq<string>)
    requires Increasing(host, changes, paths)
    requires forall p :: p in paths ==> FirstTouch(host, changes, path) < FirstTouch(host, changes, p)
    ensures Increasing(host, changes, [path] + paths)
  {
    hide FirstTouch;
  }

  function Paths(files: seq<File>): (paths: seq<string>)
    ensures |paths| == |files| && forall i :: 0 <= i < |files| ==> paths[i] == files[i].path
  {
    seq(|files|, i requires 0 <= i < |files| => files[i].path)
  }

  /**
   For a well-formed history the summary lists exactly the touched paths that exist
   before or after, each once, in first-touched order, with the verdict that
   comparing the files before and after gives; the diffs share one budget.
   */
  lemma SummaryMatchesTheFiles(host: Host, before: set<string>, changes: seq<Change>)
    requires WellFormed(before, changes)
    ensures var files, after := TurnChangedFiles(host, changes), Exist(before, changes);
            && Increasing(host, changes, Paths(files))
            && (forall p :: p in Paths(files) <==>
                  (FirstTouch(host, changes, p) < |changes| && VerdictByExistence(before, after, p).Some? &&
                   host.resolve(p).Some?))
            && (forall f :: f in files ==>
                  Some(f.verdict) == VerdictByExistence(before, after, f.path) &&
                  Some(f.absolute) == host.resolve(f.path))
            && Kept(files) <= MAX_TURN_DIFF_LINES
  {
    var t, files := TallyOf(host, changes), TurnChangedFiles(host, changes);
    SummaryIs(host, changes);
    OrderIsFirstTouch(host, changes);
    FilesAreRight(host, t, t.order, MAX_TURN_DIFF_LINES);
    ChosenExactly(host, t, t.order);
    ChosenInOrder(host, changes, t, t.order);
    assert Paths(files) == Chosen(host, t, t.order);
    forall p | p in t.first ensures VerdictOf(t, p) == VerdictByExistence(before, Exist(before, changes), p) {
      VerdictsAgree(host, before, changes, p);
    }
    hide TurnChangedFiles, TallyOf, FirstTouch, FilesFrom, Exist, WellFormed, Chosen, Kept, FileRight, TallyOk,
      VerdictOf, VerdictByExistence, Increasing;
    FilesSay(host, t, files, Chosen(host, t, t.order));
  }

  lemma FilesSay(host: Host, t: Tally, files: seq<File>, chosen: seq<string>)
    requires |files| == |chosen| && forall i :: 0 <= i < |files| ==> chosen[i] in t.first && chosen[i] in t.last
    requires forall i :: 0 <= i < |files| ==> FileRight(host, t, chosen[i], files[i])
    ensures forall f :: f in files ==>
              f.path in t.first && f.path in t.last && Some(f.verdict) == VerdictOf(t, f.path) &&
              Some(f.absolute) == host.resolve(f.path)
  {
    hide DiffRight, VerdictOf;
  }

  lemma {:induction false} DiffsFrom(host: Host, t: Tally, paths: seq<string>, budget: nat, i: nat)
    requires TallyOk(t) && forall p :: p in paths ==> p in t.first
    requires i < |FilesFrom(host, t, paths, budget)|
    ensures var files := FilesFrom(host, t, paths, budget);
            files[i].diff.Some? <==> files[i].lines.Some? && Kept(files[..i]) < budget
    decreases |paths|
  {
    var files, path := FilesFrom(host, t, paths, budget), paths[0];
    if !Listed(host, t, path) {
      hide FileOf, Kept, Listed, Taken;
      DiffsFrom(host, t, paths[1..], budget, i);
    } else {
      FileOfRight(host, t, path, budget);
      hide TrimDiff, Lines, Listed, Taken, DiffLines, VerdictOf, NetOf;
      var left := budget - Taken(host, t, path, budget);
      if i > 0 {
        hide FileOf, FileRight;
        DiffsFrom(host, t, paths[1..], left, i - 1);
        assert files[..i][1..] == FilesFrom(host, t, paths[1..], left)[..i - 1];
      }
    }
  }

  /** A file whose changes are counted has a diff exactly when the diffs before it leave some of the budget. */
  lemma DiffWhileRoomIsLeft(host: Host, changes: seq<Change>, i: nat)
    requires i < |TurnChangedFiles(host, changes)|
    ensures var files := TurnChangedFiles(host, changes);
            files[i].diff.Some? <==> files[i].lines.Some? && Kept(files[..i]) < MAX_TURN_DIFF_LINES
  {
    SummaryIs(host, changes);
    hide TurnChangedFiles, TallyOf, FilesFrom, Kept, TallyOk;
    DiffsFrom(host, TallyOf(host, changes), TallyOf(host, changes).order, MAX_TURN_DIFF_LINES, i);
  }

  /** A command wrote to the path, and that took effect and is not hidden. */
  ghost predicate CommandWrote(host: Host, changes: seq<Change>, path: string) {
    exists c :: c in changes && Counted(host, c) && c.path == path && c.byCommand
  }

  lemma {:induction false} CommandsAreTallied(host: Host, changes: seq<Change>, path: string)
    ensures path in TallyOf(host, changes).byCommand <==> CommandWrote(host, changes, path)
    decreases |changes|
  {
    hide Counted;
    if |changes| > 0 {
      var n := |changes| - 1;
      CommandsAreTallied(host, changes[..n], path);
      assert changes == changes[..n] + [changes[n]];
      assert forall c :: c in changes <==> c in changes[..n] || c == changes[n];
    }
  }

  /**
   A file of the summary has line counts, those of its net change, exactly when that is known and no command wrote to
   the file; it then has a diff too, unless the diffs of the summary use up the whole budget.
   */
  lemma CountsUnlessACommandWrote(host: Host, changes: seq<Change>, f: File)
    requires f in TurnChangedFiles(host, changes)
    ensures f.lines == (if host.net(f.path).Some? && !CommandWrote(host, changes, f.path)
                        then Some(host.net(f.path).value.lines) else None)
    ensures f.diff.Some? ==> f.lines.Some?
    ensures f.lines.Some? && f.diff.None? ==> Kept(TurnChangedFiles(host, changes)) == MAX_TURN_DIFF_LINES
  {
    var t, files := TallyOf(host, changes), TurnChangedFiles(host, changes);
    SummaryIs(host, changes);
    FilesAreRight(host, t, t.order, MAX_TURN_DIFF_LINES);
    CommandsAreTallied(host, changes, f.path);
    hide TurnChangedFiles, TallyOf, FilesFrom, Chosen, Kept, CommandWrote, VerdictOf, TallyOk;
    var i :| 0 <= i < |files| && files[i] == f;
    assert FileRight(host, t, Chosen(host, t, t.order)[i], f);
  }

  lemma {:induction false} FirstUnitsIs(line: string, units: nat)
    ensures var kept := FirstUnits(line, units);
            && kept <= line && Units(kept) <= units
            && (|kept| < |line| ==> Units(kept) + Units([line[|kept|]]) > units)
    decreases |line|
  {
    if line != "" {
      assert [line[0]][1..] == "" && Units([line[0]]) == if line[0] as int >= 0x10000 then 2 else 1;
      if Units([line[0]]) <= units {
        FirstUnitsIs(line[1..], units - Units([line[0]]));
        var rest := FirstUnits(line[1..], units - Units([line[0]]));
        assert ([line[0]] + rest)[1..] == rest;
      }
    }
  }

  /** A line of up to 400 units is kept; a longer one is cut to the characters that fit into 400, and marked. */
  lemma CutIs(line: string) returns (kept: string)
    ensures Units(line) <= 400 ==> Cut(line) == line
    ensures Units(line) > 400 ==>
              && Cut(line) == kept + "\U{2026}" && kept < line && Units(kept) <= 400
              && Units(kept) + Units([line[|kept|]]) > 400
  {
    kept := FirstUnits(line, MAX_DIFF_LINE_CHARS);
    FirstUnitsIs(line, MAX_DIFF_LINE_CHARS);
    if |kept| == |line| {
      assert kept == line;
    }
  }

  // ---- The summary as written ----

  lemma FilesStep(host: Host, t: Tally, paths: seq<string>, budget: nat)
    requires TallyOk(t) && |paths| > 0 && forall p :: p in paths ==> p in t.first
    ensures FilesFrom(host, t, paths, budget) ==
            if !Listed(host, t, paths[0]) then FilesFrom(host, t, paths[1..], budget)
            else [FileOf(host, t, paths[0], budget)] +
                 FilesFrom(host, t, paths[1..], budget - Taken(host, t, paths[0], budget))
  {}

  method TurnFiles(host: Host, changes: seq<Change>) returns (files: seq<File>)
    ensures files == TurnChangedFiles(host, changes)
    ensures Kept(files) <= MAX_TURN_DIFF_LINES
  {
    var tally := Tally([], map[], map[], {});
    var n := 0;
    while n < |changes|
      invariant 0 <= n <= |changes|
      invariant tally == TallyOf(host, changes[..n])
    {
      assert changes[..n + 1][..n] == changes[..n];
      var c := changes[n];
      if TookEffect(c) && !host.hidden(c.path) {
        if c.path !in tally.first {
          tally := tally.(order := tally.order + [c.path], first := tally.first[c.path := c]);
        }
        tally := tally.(last := tally.last[c.path := c]);
        if c.byCommand {
          tally := tally.(byCommand := tally.byCommand + {c.path});
        }
      }
      n := n + 1;
    }
    assert changes[..n] == changes;
    SummaryIs(host, changes);
    FilesAreRight(host, tally, tally.order, MAX_TURN_DIFF_LINES);
    files := ListFiles(host, tally, tally.order);
  }

  lemma ConcatFiles(a: seq<File>, b: seq<File>, c: seq<File>)
    ensures a + (b + c) == a + b + c
  {}

  lemma KeysAgree(t: Tally)
    requires TallyOk(t)
    ensures forall p :: p in t.first <==> p in t.last
  {}

  lemma ListedIs(host: Host, t: Tally, path: string)
    requires path in t.first && path in t.last
    ensures Listed(host, t, path) <==> VerdictOf(t, path).Some? && host.resolve(path).Some?
  {}

  /** The file of one path, and the budget it leaves. */
  method DescribeFile(host: Host, tally: Tally, path: string, budget: nat) returns (file: File, left: nat)
    requires path in tally.first && path in tally.last && Listed(host, tally, path)
    ensures file == FileOf(host, tally, path, budget) && left == budget - Taken(host, tally, path, budget)
  {
    hide TrimDiff;
    var net := if path in tally.byCommand then None else host.net(path);
    var diff := None;
    left := budget;
    if net.Some? && budget > 0 {
      var trimmed := TrimHunks(net.value.hunks, budget);
      TrimKeepsAPrefix(net.value.hunks, budget);
      diff, left := Some(trimmed.diff), budget - trimmed.used;
    }
    file := File(path, host.resolve(path).value, VerdictOf(tally, path).value,
                 if net.Some? then Some(net.value.lines) else None, diff);
  }

  /** The files listed so far and the paths that are left make up the summary. */
  ghost predicate ListedSoFar(
    host: Host, t: Tally, order: seq<string>, files: seq<File>, rest: seq<string>, budget: nat)
    requires TallyOk(t) && (forall p :: p in order ==> p in t.first) && forall p :: p in rest ==> p in t.first
  {
    files + FilesFrom(host, t, rest, budget) == FilesFrom(host, t, order, MAX_TURN_DIFF_LINES)
  }

  lemma ListNext(host: Host, t: Tally, order: seq<string>, files: seq<File>, rest: seq<string>, budget: nat)
    requires TallyOk(t) && (forall p :: p in order ==> p in t.first) && forall p :: p in rest ==> p in t.first
    requires |rest| > 0 && ListedSoFar(host, t, order, files, rest, budget)
    ensures rest[0] in t.last && forall p :: p in rest[1..] ==> p in t.first
    ensures if !Listed(host, t, rest[0]) then ListedSoFar(host, t, order, files, rest[1..], budget)
            else ListedSoFar(host, t, order, files + [FileOf(host, t, rest[0], budget)], rest[1..],
                             budget - Taken(host, t, rest[0], budget))
  {
    KeysAgree(t);
    FilesStep(host, t, rest, budget);
    hide TallyOk, FilesFrom, Taken, Listed, FileOf;
    if Listed(host, t, rest[0]) {
      ConcatFiles(files, [FileOf(host, t, rest[0], budget)],
                  FilesFrom(host, t, rest[1..], budget - Taken(host, t, rest[0], budget)));
    }
  }

  method ListFiles(host: Host, tally: Tally, order: seq<string>) returns (files: seq<File>)
    requires TallyOk(tally) && forall p :: p in order ==> p in tally.first
    ensures files == FilesFrom(host, tally, order, MAX_TURN_DIFF_LINES)
  {
    hide TallyOk, VerdictOf, FilesFrom, FileOf, Taken, Listed, ListedSoFar;
    files := [];
    var budget: nat := MAX_TURN_DIFF_LINES;
    var rest := order;
    ListingStarts(host, tally, order);
    while |rest| > 0
      invariant forall p :: p in rest ==> p in tally.first
      invariant ListedSoFar(host, tally, order, files, rest, budget)
      decreases |rest|
    {
      var path := rest[0];
      ListNext(host, tally, order, files, rest, budget);
      ListedIs(host, tally, path);
      rest := rest[1..];
      if VerdictOf(tally, path).None? || host.resolve(path).None? {
        continue;
      }
      var file, left := DescribeFile(host, tally, path, budget);
      files := files + [file];
      budget := left;
    }
    ListingEnds(host, tally, order, files, budget);
  }

  lemma ListingStarts(host: Host, t: Tally, order: seq<string>)
    requires TallyOk(t) && forall p :: p in order ==> p in t.first
    ensures ListedSoFar(host, t, order, [], order, MAX_TURN_DIFF_LINES)
  {
    hide FilesFrom;
    var files := FilesFrom(host, t, order, MAX_TURN_DIFF_LINES);
    assert [] + files == files;
  }

  lemma ListingEnds(host: Host, t: Tally, order: seq<string>, files: seq<File>, budget: nat)
    requires TallyOk(t) && (forall p :: p in order ==> p in t.first) && ListedSoFar(host, t, order, files, [], budget)
    ensures files == FilesFrom(host, t, order, MAX_TURN_DIFF_LINES)
  {
    FilesDone(host, t, budget);
    assert files + [] == files;
  }

  lemma FilesDone(host: Host, t: Tally, budget: nat)
    requires TallyOk(t)
    ensures FilesFrom(host, t, [], budget) == []
  {}

  // ---- The texts behind the diffs ----

  /** What one file-tool call shows of a file. */
  datatype Presentation = Presentation(path: string, before: string, after: string)

  datatype Text = Text(before: string, after: string)

  function Record(files: map<string, Text>, p: Presentation): map<string, Text> {
    files[p.path := Text(if p.path in files then files[p.path].before else p.before, p.after)]
  }

  function Recorded(ps: seq<Presentation>): map<string, Text> {
    if |ps| == 0 then map[] else Record(Recorded(ps[..|ps| - 1]), ps[|ps| - 1])
  }

  function FirstEdit(ps: seq<Presentation>, path: string): Option<Presentation> {
    if |ps| == 0 then None else if ps[0].path == path then Some(ps[0]) else FirstEdit(ps[1..], path)
  }

  function LastEdit(ps: seq<Presentation>, path: string): Option<Presentation> {
    if |ps| == 0 then None
    else if ps[|ps| - 1].path == path then Some(ps[|ps| - 1]) else LastEdit(ps[..|ps| - 1], path)
  }

  lemma {:induction false} FirstEditSnoc(ps: seq<Presentation>, p: Presentation, path: string)
    ensures FirstEdit(ps + [p], path) ==
            if FirstEdit(ps, path).Some? then FirstEdit(ps, path) else if p.path == path then Some(p) else None
  {
    if |ps| == 0 {
      assert FirstEdit([p][1..], path) == None;
    } else {
      FirstEditSnoc(ps[1..], p, path);
      assert (ps + [p])[1..] == ps[1..] + [p];
    }
  }

  /** The texts recorded for a path are the oldest and the newest that its edits presented. */
  lemma {:induction false} TextsSpanTheRequest(ps: seq<Presentation>, path: string)
    ensures path in Recorded(ps) <==> FirstEdit(ps, path).Some?
    ensures path in Recorded(ps) <==> LastEdit(ps, path).Some?
    ensures path in Recorded(ps) ==>
              Recorded(ps)[path] == Text(FirstEdit(ps, path).value.before, LastEdit(ps, path).value.after)
  {
    if |ps| > 0 {
      var n := |ps| - 1;
      TextsSpanTheRequest(ps[..n], path);
      FirstEditSnoc(ps[..n], ps[n], path);
      assert ps[..n] + [ps[n]] == ps;
    }
  }

  class TurnFileText {
    var files: map<string, Text>

    constructor ()
      ensures files == map[]
    {
      files := map[];
    }

    method Clear()
      modifies this
      ensures files == map[]
    {
      files := map[];
    }

    method RecordEdit(p: Presentation)
      modifies this
      ensures files == Record(old(files), p)
    {
      if p.path in files {
        files := files[p.path := files[p.path].(after := p.after)];
      } else {
        files := files[p.path := Text(p.before, p.after)];
      }
    }
  }
}
