/**
 The filter between a worker's workspace archive and the checkout it is exported
 to (benchmarks/swebench_verified/split_environment.py). Archives are sequences
 of members.
 */
module WorkspaceExport {
  import opened Common

  datatype Kind = Regular | Directory | Symlink | Special

  datatype Member = Member(name: string, kind: Kind, link: string, size: nat, data: string, owner: nat, mode: nat)

  datatype Refusal = UnsafePath | OverBudget

  const MAX_MEMBERS := 100000
  const MAX_BYTES := 512 * 1024 * 1024

  // ---- Paths ----

  /** Drop what a pure path does not keep. */
  function Named(parts: seq<string>): (named: seq<string>)
    ensures forall p :: p in named <==> p in parts && p != "" && p != "."
  {
    if |parts| == 0 then []
    else if parts[0] == "" || parts[0] == "." then Named(parts[1..])
    else [parts[0]] + Named(parts[1..])
  }

  /** The parts of a pure path; a rooted one begins with its root. */
  function Parts(name: string): seq<string> {
    (if name != "" && name[0] == '/' then ["/"] else []) + Named(Split(name, '/'))
  }

  predicate Unsafe(name: string) {
    (name != "" && name[0] == '/') || ".." in Parts(name) || '\\' in name
  }

  /** Owned by the Runtime or by Git. */
  predicate Private(name: string) {
    ".git" in Parts(name) || ".easycode" in Parts(name) || ".easy-code-runtime" in Parts(name)
  }

  predicate Dependency(name: string) {
    exists p :: p in ["node_modules", ".venv", "venv", "dist", "build"] && p in Parts(name)
  }

  // ---- What the filter is for ----

  /** The links of the trusted baseline; a later member of the same name wins. */
  function Links(baseline: seq<Member>): map<string, string> {
    if |baseline| == 0 then map[]
    else
      var last := baseline[|baseline| - 1];
      var links := Links(baseline[..|baseline| - 1]);
      if last.kind == Symlink then links[last.name := last.link] else links
  }

  /** A member that reaches the export. */
  predicate Wanted(links: map<string, string>, excludeDependencies: bool, m: Member) {
    && Parts(m.name) != [] && !Private(m.name)
    && !(excludeDependencies && Dependency(m.name))
    && match m.kind
       case Symlink => m.name in links && links[m.name] == m.link
       case Special => false
       case _ => true
  }

  /** Owned by root, with permission bits only. */
  function Reset(m: Member): Member {
    m.(owner := 0, mode := m.mode % 512)
  }

  /** The wanted members, in order. */
  function Selected(links: map<string, string>, excludeDependencies: bool, members: seq<Member>): seq<Member> {
    if |members| == 0 then []
    else
      var rest := Selected(links, excludeDependencies, members[1..]);
      if Wanted(links, excludeDependencies, members[0]) then [Reset(members[0])] + rest else rest
  }

  function TotalSize(members: seq<Member>): nat {
    if |members| == 0 then 0 else members[0].size + TotalSize(members[1..])
  }

  /** The paths are safe; a member without a path is never looked at. */
  predicate AllSafe(members: seq<Member>) {
    forall m :: m in members && Parts(m.name) != [] ==> !Unsafe(m.name)
  }

  predicate WithinBudget(members: seq<Member>) {
    |members| <= MAX_MEMBERS && TotalSize(members) <= MAX_BYTES
  }

  // ---- The filter ----

  function Prepend(kept: seq<Member>, filtered: Result<seq<Member>, Refusal>): Result<seq<Member>, Refusal> {
    match filtered
    case Ok(more) => Ok(kept + more)
    case Err(refusal) => Err(refusal)
  }

  /** What the filter does with the members left, after `count` of `size` bytes. */
  function FilterFrom(links: map<string, string>, excludeDependencies: bool, members: seq<Member>, count: nat,
      size: nat)
    : Result<seq<Member>, Refusal>
  {
    if |members| == 0 then Ok([])
    else
      var m := members[0];
      if Parts(m.name) == [] then FilterFrom(links, excludeDependencies, members[1..], count, size)
      else if Unsafe(m.name) then Err(UnsafePath)
      else if !Wanted(links, excludeDependencies, m) then
        FilterFrom(links, excludeDependencies, members[1..], count, size)
      else if count + 1 > MAX_MEMBERS || size + m.size > MAX_BYTES then Err(OverBudget)
      else Prepend([Reset(m)], FilterFrom(links, excludeDependencies, members[1..], count + 1, size + m.size))
  }

  function Filter(baseline: seq<Member>, candidate: seq<Member>, excludeDependencies: bool): Result<seq<Member>,
      Refusal> {
    FilterFrom(Links(baseline), excludeDependencies, candidate, 0, 0)
  }

  lemma {:induction false} FilterFromIs(links: map<string, string>, excludeDependencies: bool,
      members: seq<Member>, count: nat, size: nat)
    requires count <= MAX_MEMBERS && size <= MAX_BYTES
    ensures var selected := Selected(links, excludeDependencies, members);
            var filtered := FilterFrom(links, excludeDependencies, members, count, size);
            && (filtered.Ok? <==>
                  AllSafe(members) && count + |selected| <= MAX_MEMBERS && size + TotalSize(selected) <= MAX_BYTES)
            && (filtered.Ok? ==> filtered.value == selected)
    decreases |members|
  {
    hide Parts, Unsafe, Wanted, Reset;
    if |members| > 0 {
      var m := members[0];
      var wanted := Parts(m.name) != [] && !Unsafe(m.name) && Wanted(links, excludeDependencies, m);
      SizeOfReset(m);
      if wanted && count + 1 <= MAX_MEMBERS && size + m.size <= MAX_BYTES {
        FilterFromIs(links, excludeDependencies, members[1..], count + 1, size + m.size);
      } else if !wanted {
        FilterFromIs(links, excludeDependencies, members[1..], count, size);
        UnnamedIsUnwanted(links, excludeDependencies, m);
      }
      assert forall x :: x in members <==> x == m || x in members[1..];
    }
  }

  lemma SizeOfReset(m: Member)
    ensures Reset(m).size == m.size
  {}

  lemma UnnamedIsUnwanted(links: map<string, string>, excludeDependencies: bool, m: Member)
    ensures Parts(m.name) == [] ==> !Wanted(links, excludeDependencies, m)
  {}

  /**
   The filter accepts exactly the archives with safe paths inside the budget, and then keeps exactly
   what is wanted.
   */
  lemma FilterIsExact(baseline: seq<Member>, candidate: seq<Member>, excludeDependencies: bool)
    ensures var selected := Selected(Links(baseline), excludeDependencies, candidate);
            && (Filter(baseline, candidate, excludeDependencies).Ok? <==> AllSafe(candidate) && WithinBudget(selected))
            && (Filter(baseline, candidate, excludeDependencies).Ok? ==>
                  Filter(baseline, candidate, excludeDependencies) == Ok(selected))
  {
    hide Parts, Unsafe, Wanted, Links;
    FilterFromIs(Links(baseline), excludeDependencies, candidate, 0, 0);
  }

  /** Filtering an exported archive again changes nothing. */
  lemma ExportIsStable(baseline: seq<Member>, candidate: seq<Member>, excludeDependencies: bool)
    requires Filter(baseline, candidate, excludeDependencies).Ok?
    ensures var out := Filter(baseline, candidate, excludeDependencies).value;
            Filter(baseline, out, excludeDependencies) == Ok(out)
  {
    FilterIsExact(baseline, candidate, excludeDependencies);
    var links := Links(baseline);
    SelectedTwice(links, excludeDependencies, candidate);
    FilterIsExact(baseline, Selected(links, excludeDependencies, candidate), excludeDependencies);
  }

  lemma {:induction false} SelectedTwice(links: map<string, string>, excludeDependencies: bool, members: seq<Member>)
    requires AllSafe(members)
    ensures var once := Selected(links, excludeDependencies, members);
            Selected(links, excludeDependencies, once) == once && AllSafe(once)
  {
    hide Unsafe, Parts, Private, Dependency;
    if |members| > 0 {
      SelectedTwice(links, excludeDependencies, members[1..]);
      var rest := Selected(links, excludeDependencies, members[1..]);
      assert ([Reset(members[0])] + rest)[1..] == rest;
    }
  }

  /** Every member of an export is a plain file, a directory or a link of the baseline, on a safe and public path. */
  lemma {:induction false} ExportedMembers(links: map<string, string>, excludeDependencies: bool,
      members: seq<Member>, m: Member)
    requires AllSafe(members) && m in Selected(links, excludeDependencies, members)
    ensures !Unsafe(m.name) && !Private(m.name) && m.owner == 0 && m.mode < 512
    ensures m.kind == Regular || m.kind == Directory ||
            (m.kind == Symlink && m.name in links && links[m.name] == m.link)
    ensures exists original :: original in members && Reset(original) == m
  {
    hide Unsafe, Parts, Private, Dependency;
    if |members| > 0 {
      if m in Selected(links, excludeDependencies, members[1..]) {
        ExportedMembers(links, excludeDependencies, members[1..], m);
      } else {
        assert Reset(members[0]) == m;
      }
    }
  }

  // ---- What the filter keeps, said of the segments of a path ----

  lemma PartsAre(name: string, segments: seq<string>, p: string)
    requires |segments| > 0 && AllLack(segments, '/') && name == Joined(segments, "/")
    ensures p in Parts(name) <==>
              (p == "/" && name != "" && name[0] == '/') || (p in segments && p != "" && p != ".")
  {
    SplitJoined(segments, '/');
  }

  /** A path is refused if and only if it begins at the root, has a segment `..` or a backslash. */
  lemma UnsafeIff(name: string, segments: seq<string>)
    requires |segments| > 0 && AllLack(segments, '/') && name == Joined(segments, "/")
    ensures Unsafe(name) <==> (name != "" && name[0] == '/') || ".." in segments || '\\' in name
  {
    hide Parts, Joined, AllLack;
    PartsAre(name, segments, "..");
  }

  /** A path names nothing if and only if it does not begin at the root and its segments are empty or a dot. */
  lemma NamesNothingIff(name: string, segments: seq<string>)
    requires |segments| > 0 && AllLack(segments, '/') && name == Joined(segments, "/")
    ensures Parts(name) == [] <==>
              !(name != "" && name[0] == '/') && forall k :: 0 <= k < |segments| ==>
                segments[k] == "" || segments[k] == "."
  {
    SplitJoined(segments, '/');
    hide Split, Joined, AllLack;
    assert Parts(name) == (if name != "" && name[0] == '/' then ["/"] else []) + Named(segments);
    if Named(segments) != [] {
      assert Named(segments)[0] in Named(segments);
    } else {
      forall k | 0 <= k < |segments| ensures segments[k] == "" || segments[k] == "." {
        assert segments[k] in segments;
      }
    }
  }

  /** The links of the baseline are those of its last symbolic link of each name. */
  lemma {:induction false} LinksAre(baseline: seq<Member>, name: string) returns (last: nat)
    ensures name in Links(baseline) <==> exists m :: m in baseline && m.kind == Symlink && m.name == name
    ensures name in Links(baseline) ==>
              && last < |baseline| && baseline[last].kind == Symlink && baseline[last].name == name
              && Links(baseline)[name] == baseline[last].link
              && forall k :: last < k < |baseline| ==> !(baseline[k].kind == Symlink && baseline[k].name == name)
    decreases |baseline|
  {
    last := 0;
    if |baseline| > 0 {
      var n := |baseline| - 1;
      last := LinksAre(baseline[..n], name);
      assert baseline == baseline[..n] + [baseline[n]];
      assert forall m :: m in baseline <==> m in baseline[..n] || m == baseline[n];
      if baseline[n].kind == Symlink && baseline[n].name == name {
        last := n;
      }
    }
  }

  /**
   A member on a safe path reaches the export if and only if its path names something, no segment of it is private or,
   where they are excluded, a dependency, and it is a file, a directory or a link the baseline has too.
   */
  lemma WantedIff(baseline: seq<Member>, excludeDependencies: bool, m: Member, segments: seq<string>)
    requires |segments| > 0 && AllLack(segments, '/') && m.name == Joined(segments, "/") && !Unsafe(m.name)
    ensures Wanted(Links(baseline), excludeDependencies, m) <==>
              && (exists k :: 0 <= k < |segments| && segments[k] != "" && segments[k] != ".")
              && ".git" !in segments && ".easycode" !in segments && ".easy-code-runtime" !in segments
              && (excludeDependencies ==>
                    "node_modules" !in segments && ".venv" !in segments && "venv" !in segments
                    && "dist" !in segments && "build" !in segments)
              && (m.kind == Regular || m.kind == Directory ||
                  (m.kind == Symlink && m.name in Links(baseline) && Links(baseline)[m.name] == m.link))
  {
    UnsafeIff(m.name, segments);
    NamesNothingIff(m.name, segments);
    PrivateIff(m.name, segments);
    DependencyIff(m.name, segments);
    hide Parts, Unsafe, Private, Dependency, Links;
  }

  lemma PrivateIff(name: string, segments: seq<string>)
    requires |segments| > 0 && AllLack(segments, '/') && name == Joined(segments, "/")
    ensures Private(name) <==> ".git" in segments || ".easycode" in segments || ".easy-code-runtime" in segments
  {
    PartsAre(name, segments, ".git");
    PartsAre(name, segments, ".easycode");
    PartsAre(name, segments, ".easy-code-runtime");
    hide Parts;
  }

  lemma DependencyIff(name: string, segments: seq<string>)
    requires |segments| > 0 && AllLack(segments, '/') && name == Joined(segments, "/")
    ensures Dependency(name) <==>
              || "node_modules" in segments || ".venv" in segments || "venv" in segments
              || "dist" in segments || "build" in segments
  {
    hide Parts, Joined, AllLack;
    PartsAre(name, segments, "node_modules");
    PartsAre(name, segments, ".venv");
    PartsAre(name, segments, "venv");
    PartsAre(name, segments, "dist");
    PartsAre(name, segments, "build");
    var names := ["node_modules", ".venv", "venv", "dist", "build"];
    assert names[0] in names && names[1] in names && names[2] in names && names[3] in names && names[4] in names;
  }

  // ---- The filter as written ----

  lemma PrependOne(kept: seq<Member>, m: Member, filtered: Result<seq<Member>, Refusal>)
    ensures Prepend(kept, Prepend([m], filtered)) == Prepend(kept + [m], filtered)
  {
    if filtered.Ok? {
      assert kept + ([m] + filtered.value) == kept + [m] + filtered.value;
    }
  }

  method FilterArchive(baseline: seq<Member>, candidate: seq<Member>, excludeDependencies: bool)
    returns (out: Result<seq<Member>, Refusal>)
    ensures out == Filter(baseline, candidate, excludeDependencies)
    ensures out.Ok? <==> AllSafe(candidate) && WithinBudget(Selected(Links(baseline), excludeDependencies, candidate))
  {
    FilterIsExact(baseline, candidate, excludeDependencies);
    hide Parts, Unsafe, Private, Dependency, AllSafe, WithinBudget, Selected;
    var links := Links(baseline);
    var kept: seq<Member>, count: nat, size: nat := [], 0, 0;
    var rest := candidate;
    assert Filter(baseline, candidate, excludeDependencies).Ok? ==>
             [] + Filter(baseline, candidate, excludeDependencies).value ==
               Filter(baseline, candidate, excludeDependencies).value;
    while |rest| > 0
      invariant Filter(baseline, candidate, excludeDependencies) ==
                Prepend(kept, FilterFrom(links, excludeDependencies, rest, count, size))
      decreases |rest|
    {
      var m := rest[0];
      rest := rest[1..];
      if Parts(m.name) == [] {
        continue;
      }
      if Unsafe(m.name) {
        return Err(UnsafePath);
      }
      if !Wanted(links, excludeDependencies, m) {
        continue;
      }
      count, size := count + 1, size + m.size;
      if count > MAX_MEMBERS || size > MAX_BYTES {
        return Err(OverBudget);
      }
      PrependOne(kept, Reset(m), FilterFrom(links, excludeDependencies, rest, count, size));
      kept := kept + [Reset(m)];
    }
    assert kept + [] == kept;
    return Ok(kept);
  }
}
