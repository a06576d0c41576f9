/**
 The crash-safe checkpoint store of the benchmark adapter
 (benchmarks/swebench_verified/easy_code_agent.py).

 A persist is a list of file-system steps; a crash may come between any two.
 Directories are maps from relative paths to contents, hashing is injective and
 a rename is one atomic step.
 */
module CheckpointStore {
  import opened Common

  const SCHEMA_VERSION := 1
  const MAX_GENERATIONS := 3

  type Path = seq<string>
  type Generation = string

  datatype Binding = Binding(trialKey: string, identity: string)

  datatype Content =
    | Bytes(data: seq<int>)
    | Database(leases: nat, rows: seq<int>)
    | BindingDocument(binding: Binding)

  datatype Digest = Sha256(of: Content)

  datatype Manifest = Manifest(
    schemaVersion: int, generation: Generation, trialKey: string, files: map<Path, Digest>)

  /** A generation directory; the manifest lists every other file in it. */
  datatype Directory = Directory(files: map<Path, Content>, manifest: Option<Manifest>)

  /** One checkpoint directory: published generations and the stagings beside them. */
  datatype Disk = Disk(
    binding: Option<Binding>,
    latest: Option<Generation>,
    generations: map<Generation, Directory>,
    stagings: map<Generation, Directory>)

  // ---- Which files are captured ----

  const LOCK := "easy-code.db.lock"
  const ADVISORY := "easy-code.db.easy-code-advisory-lock"

  /** `_checkpoint_path_ignored`: stale worktrees and lock files. */
  predicate PathIgnored(relative: Path) {
    && |relative| > 0
    && (relative[0] == "worktrees" || relative[|relative| - 1] == LOCK || ADVISORY <= relative[|relative| - 1])
  }

  /** Copying a tree skips an ignored directory with all it contains. */
  predicate Captured(relative: Path) {
    relative != [] && forall n :: 0 < n <= |relative| ==> !PathIgnored(relative[..n])
  }

  function CapturedFiles(data: map<Path, Content>): map<Path, Content> {
    map p | p in data && Captured(p) :: data[p]
  }

  // ---- Manifests ----

  function FileManifest(files: map<Path, Content>): map<Path, Digest> {
    map p | p in files :: Sha256(files[p])
  }

  predicate Verifies(name: Generation, d: Directory, binding: Binding) {
    && ["binding.json"] in d.files && d.files[["binding.json"]] == BindingDocument(binding)
    && d.manifest.Some?
    && d.manifest.value.schemaVersion == SCHEMA_VERSION
    && d.manifest.value.generation == name
    && d.manifest.value.trialKey == binding.trialKey
    && d.manifest.value.files == FileManifest(d.files)
  }

  /** A directory that verifies keeps verifying under its manifest exactly when no file was added, lost or changed. */
  lemma VerificationIsIntegrity(name: Generation, d: Directory, files: map<Path, Content>, binding: Binding)
    requires Verifies(name, d, binding)
    ensures Verifies(name, Directory(files, d.manifest), binding) <==> files == d.files
  {
    if FileManifest(files) == FileManifest(d.files) {
      assert files.Keys == FileManifest(files).Keys == d.files.Keys;
      forall p | p in files ensures files[p] == d.files[p] {
        assert FileManifest(files)[p] == FileManifest(d.files)[p];
      }
    }
  }

  // ---- File-system steps ----

  datatype Step =
    | MakeStore
    | WriteTemporary
    | ReplaceBinding(binding: Binding)
    | MakeStaging(generation: Generation)
    | CopyFile(generation: Generation, path: Path, content: Content)
    | WriteManifestTemporary(generation: Generation, temporary: string)
    | ReplaceManifest(generation: Generation, temporary: string, manifest: Manifest)
    | Publish(generation: Generation)
    | ReplaceLatest(generation: Generation)
    | RemoveSome(generation: Generation, keep: set<Path>)
    | RemoveDirectory(generation: Generation)
    | CleanStaging(generation: Generation, left: Option<set<Path>>)

  function WithFile(d: Directory, path: Path, content: Content): Directory {
    d.(files := d.files[path := content])
  }

  function WithoutFile(d: Directory, path: Path): Directory {
    d.(files := d.files - {path})
  }

  function Kept(d: Directory, keep: set<Path>): Directory {
    Directory(map p | p in d.files && p in keep :: d.files[p], if ["manifest.json"] in keep then d.manifest else None)
  }

  function Execute(disk: Disk, step: Step): Disk {
    match step
    case MakeStore => disk
    case WriteTemporary => disk
    case ReplaceBinding(binding) => disk.(binding := Some(binding))
    case MakeStaging(g) => disk.(stagings := disk.stagings[g := Directory(map[], None)])
    case CopyFile(g, path, content) =>
      if g in disk.stagings then disk.(stagings := disk.stagings[g := WithFile(disk.stagings[g], path, content)])
      else disk
    case WriteManifestTemporary(g, name) =>
      if g in disk.stagings then disk.(stagings := disk.stagings[g := WithFile(disk.stagings[g], [name], Bytes([]))])
      else disk
    case ReplaceManifest(g, name, manifest) =>
      if g in disk.stagings
      then disk.(stagings := disk.stagings[g := WithoutFile(disk.stagings[g], [name]).(manifest := Some(manifest))])
      else disk
    case Publish(g) =>
      if g in disk.stagings
      then disk.(stagings := disk.stagings - {g}, generations := disk.generations[g := disk.stagings[g]])
      else disk
    case ReplaceLatest(g) => disk.(latest := Some(g))
    case RemoveSome(g, keep) =>
      if g in disk.generations then disk.(generations := disk.generations[g := Kept(disk.generations[g], keep)])
      else disk
    case RemoveDirectory(g) => disk.(generations := disk.generations - {g})
    case CleanStaging(g, left) =>
      if g !in disk.stagings then disk
      else if left.None? then disk.(stagings := disk.stagings - {g})
      else disk.(stagings := disk.stagings[g := Kept(disk.stagings[g], left.value)])
  }

  function ExecuteAll(disk: Disk, steps: seq<Step>): Disk
    decreases |steps|
  {
    if |steps| == 0 then disk
    else Execute(ExecuteAll(disk, steps[..|steps| - 1]), steps[|steps| - 1])
  }

  lemma {:induction false} ExecuteConcat(disk: Disk, a: seq<Step>, b: seq<Step>)
    ensures ExecuteAll(disk, a + b) == ExecuteAll(ExecuteAll(disk, a), b)
    decreases |b|
  {
    if |b| == 0 {
      assert a + b == a;
    } else {
      var c := b[..|b| - 1];
      assert (a + b)[..|a + b| - 1] == a + c;
      ExecuteConcat(disk, a, c);
    }
  }

  lemma ExecuteTwo(disk: Disk, a: Step, b: Step)
    ensures ExecuteAll(disk, [a]) == Execute(disk, a)
    ensures ExecuteAll(disk, [a, b]) == Execute(Execute(disk, a), b)
  {
    var two := [a, b];
    assert two[..1] == [a] && [a][..0] == [];
    assert ExecuteAll(disk, [a]) == Execute(ExecuteAll(disk, [a][..0]), a);
  }

  // ---- One persist ----

  /** A file to copy; the interrupted copy may leave any partial content. */
  datatype Item = Item(path: Path, partial: Content, content: Content)

  /**
   What one persist works on: the data directory, the stage files, the fresh
   generation name, the order in which the tree is walked, and the generations
   in the order of their modification times.
   */
  datatype Job = Job(
    binding: Binding,
    data: map<Path, Content>,
    stage: map<string, Content>,
    generation: Generation,
    temporary: string,
    order: seq<Path>,
    partial: Content,
    newestFirst: seq<Generation>,
    keep: set<Path>)

  function StageNames(): seq<string> {
    ["binding.json", "workspace.base", "workspace.json", "workspace.patch",
     "untracked.tar.gz", "easy-code-refs.tsv", "easy-code-refs.bundle"]
  }

  /** Every path of the walk is a file. */
  predicate Listed(job: Job) {
    forall p :: p in job.order ==> p in job.data
  }

  /** The walk visits each captured file once. */
  ghost predicate Walks(job: Job)
    ensures Walks(job) ==> Listed(job)
  {
    && (forall i, j :: 0 <= i < j < |job.order| ==> job.order[i] != job.order[j])
    && (forall p :: p in job.order <==> p in job.data && Captured(p))
  }

  function DataItems(order: seq<Path>, data: map<Path, Content>, partial: Content): seq<Item>
    requires forall p :: p in order ==> p in data
  {
    if order == [] then []
    else [Item(["d"] + order[0], partial, data[order[0]])] + DataItems(order[1..], data, partial)
  }

  function StageItems(names: seq<string>, stage: map<string, Content>, partial: Content): seq<Item> {
    if names == [] then []
    else (if names[0] in stage then [Item([names[0]], partial, stage[names[0]])] else [])
         + StageItems(names[1..], stage, partial)
  }

  function Items(job: Job): seq<Item>
    requires Listed(job)
  {
    DataItems(job.order, job.data, job.partial) + StageItems(StageNames(), job.stage, job.partial)
  }

  function CopySteps(g: Generation, items: seq<Item>): seq<Step> {
    if items == [] then []
    else [CopyFile(g, items[0].path, items[0].partial), CopyFile(g, items[0].path, items[0].content)]
         + CopySteps(g, items[1..])
  }

  /** The files of the staging directory once `items` are copied over `files`. */
  function Filled(files: map<Path, Content>, items: seq<Item>): map<Path, Content>
    decreases |items|
  {
    if items == [] then files else Filled(files[items[0].path := items[0].content], items[1..])
  }

  function Snapshot(job: Job): map<Path, Content>
    requires Listed(job)
  {
    Filled(map[], Items(job))
  }

  function ManifestOf(job: Job): Manifest
    requires Listed(job)
  {
    Manifest(SCHEMA_VERSION, job.generation, job.binding.trialKey, FileManifest(Snapshot(job)))
  }

  function RemoveSteps(stale: seq<Generation>, current: Generation, keep: set<Path>): seq<Step> {
    if stale == [] then []
    else (if stale[0] == current then [] else [RemoveSome(stale[0], keep), RemoveDirectory(stale[0])])
         + RemoveSteps(stale[1..], current, keep)
  }

  function PruneSteps(newestFirst: seq<Generation>, current: Generation, keep: set<Path>): seq<Step> {
    if |newestFirst| <= MAX_GENERATIONS then [] else RemoveSteps(newestFirst[MAX_GENERATIONS..], current, keep)
  }

  function BindingSteps(disk: Disk, binding: Binding): seq<Step> {
    [MakeStore] + if disk.binding.None? then [WriteTemporary, ReplaceBinding(binding)] else []
  }

  function StageSteps(job: Job): seq<Step>
    requires Listed(job)
  {
    [MakeStaging(job.generation)] + CopySteps(job.generation, Items(job))
    + [WriteManifestTemporary(job.generation, job.temporary),
       ReplaceManifest(job.generation, job.temporary, ManifestOf(job))]
  }

  /** Everything a persist does before it moves the pointer. */
  function PublishSteps(disk: Disk, job: Job): seq<Step>
    requires Listed(job)
  {
    BindingSteps(disk, job.binding) + StageSteps(job) + [Publish(job.generation), WriteTemporary]
  }

  function PersistPlan(disk: Disk, job: Job): seq<Step>
    requires Listed(job)
  {
    PublishSteps(disk, job) + [ReplaceLatest(job.generation)]
    + PruneSteps(job.newestFirst, job.generation, job.keep)
  }

  // ---- The invariant of every crash point ----

  /** The stage holds this binding, and no file bears the name of the manifest's temporary. */
  ghost predicate WellStaged(job: Job)
    ensures WellStaged(job) ==> Listed(job)
  {
    && Walks(job)
    && "binding.json" in job.stage && job.stage["binding.json"] == BindingDocument(job.binding)
    && [job.temporary] !in Snapshot(job)
  }

  function Image(job: Job): Directory
    requires Listed(job)
  {
    Directory(Snapshot(job), Some(ManifestOf(job)))
  }

  /** The pointer is absent, or names the complete generation of the persist that moved it last. */
  ghost predicate Holds(disk: Disk, published: Option<Job>) {
    if disk.latest.None? then published.None?
    else
      && published.Some?
      && var job := published.value;
         && WellStaged(job)
         && disk.latest == Some(job.generation)
         && disk.binding == Some(job.binding)
         && job.generation in disk.generations
         && disk.generations[job.generation] == Image(job)
  }

  /** The store accepts the job: same binding, fresh generation name. */
  ghost predicate Accepts(disk: Disk, job: Job) {
    && WellStaged(job)
    && (disk.binding.Some? ==> disk.binding.value == job.binding)
    && job.generation !in disk.generations && job.generation !in disk.stagings
  }

  /** A step that neither moves the pointer nor touches what it names. */
  predicate Harmless(step: Step, published: Option<Job>) {
    match step
    case ReplaceLatest(_) => false
    case ReplaceBinding(_) => published.None?
    case Publish(g) => published.Some? ==> g != published.value.generation
    case RemoveSome(g, _) => published.Some? ==> g != published.value.generation
    case RemoveDirectory(g) => published.Some? ==> g != published.value.generation
    case _ => true
  }

  predicate AllHarmless(steps: seq<Step>, published: Option<Job>) {
    forall i :: 0 <= i < |steps| ==> Harmless(steps[i], published)
  }

  lemma HarmlessKeeps(disk: Disk, published: Option<Job>, step: Step)
    requires Holds(disk, published) && Harmless(step, published)
    ensures Holds(Execute(disk, step), published)
  {
    hide WellStaged;
  }

  lemma {:induction false} HarmlessStepsKeep(disk: Disk, published: Option<Job>, steps: seq<Step>)
    requires Holds(disk, published) && AllHarmless(steps, published)
    ensures Holds(ExecuteAll(disk, steps), published)
    decreases |steps|
  {
    hide Holds, Harmless;
    if |steps| > 0 {
      var n := |steps| - 1;
      HarmlessStepsKeep(disk, published, steps[..n]);
      HarmlessKeeps(ExecuteAll(disk, steps[..n]), published, steps[n]);
    }
  }

  lemma {:induction false} CopyStepsHarmless(g: Generation, items: seq<Item>, published: Option<Job>)
    ensures AllHarmless(CopySteps(g, items), published)
    decreases |items|
  {
    if items != [] { CopyStepsHarmless(g, items[1..], published); }
  }

  lemma {:induction false} RemoveStepsHarmless(stale: seq<Generation>, job: Job, keep: set<Path>)
    ensures AllHarmless(RemoveSteps(stale, job.generation, keep), Some(job))
    decreases |stale|
  {
    if stale != [] { RemoveStepsHarmless(stale[1..], job, keep); }
  }

  lemma PublishStepsHarmless(disk: Disk, published: Option<Job>, job: Job)
    requires Holds(disk, published) && Accepts(disk, job)
    ensures AllHarmless(PublishSteps(disk, job), published)
  {
    CopyStepsHarmless(job.generation, Items(job), published);
    hide Items, CopySteps, ManifestOf, WellStaged;
  }

  // ---- What the staging directory holds when it is published ----

  lemma {:induction false} CopyFills(disk: Disk, g: Generation, items: seq<Item>)
    requires g in disk.stagings
    ensures ExecuteAll(disk, CopySteps(g, items)) ==
            disk.(stagings := disk.stagings[g := disk.stagings[g].(files := Filled(disk.stagings[g].files, items))])
    decreases |items|
  {
    var d := disk.stagings[g];
    if items == [] {
      assert d.(files := Filled(d.files, items)) == d;
      assert disk.stagings[g := d] == disk.stagings;
    } else {
      var i := items[0];
      var two := [CopyFile(g, i.path, i.partial), CopyFile(g, i.path, i.content)];
      ExecuteConcat(disk, two, CopySteps(g, items[1..]));
      ExecuteTwo(disk, two[0], two[1]);
      CopyTwice(disk, g, i);
      var next := disk.(stagings := disk.stagings[g := WithFile(d, i.path, i.content)]);
      CopyFills(next, g, items[1..]);
      assert next.stagings[g := next.stagings[g].(files := Filled(d.files, items))]
          == disk.stagings[g := d.(files := Filled(d.files, items))];
    }
  }

  lemma CopyTwice(disk: Disk, g: Generation, i: Item)
    requires g in disk.stagings
    ensures Execute(Execute(disk, CopyFile(g, i.path, i.partial)), CopyFile(g, i.path, i.content)) ==
            disk.(stagings := disk.stagings[g := WithFile(disk.stagings[g], i.path, i.content)])
  {
    var f := disk.stagings[g].files;
    assert f[i.path := i.partial][i.path := i.content] == f[i.path := i.content];
    assert disk.stagings[g := WithFile(disk.stagings[g], i.path, i.partial)]
             [g := WithFile(disk.stagings[g], i.path, i.content)]
        == disk.stagings[g := WithFile(disk.stagings[g], i.path, i.content)];
  }

  lemma StagingIsFilled(disk: Disk, job: Job)
    requires WellStaged(job)
    ensures ExecuteAll(disk, StageSteps(job)) == disk.(stagings := disk.stagings[job.generation := Image(job)])
  {
    var g, items := job.generation, Items(job);
    var first, copies := [MakeStaging(g)], CopySteps(g, items);
    var last := [WriteManifestTemporary(g, job.temporary), ReplaceManifest(g, job.temporary, ManifestOf(job))];
    ExecuteConcat(disk, first + copies, last);
    ExecuteConcat(disk, first, copies);
    ExecuteTwo(disk, first[0], first[0]);
    var made := Execute(disk, first[0]);
    CopyFills(made, g, items);
    var full := ExecuteAll(made, copies);
    ExecuteTwo(full, last[0], last[1]);
    assert made.stagings[g := Directory(Snapshot(job), None)] == disk.stagings[g := Directory(Snapshot(job), None)];
    ManifestTwice(full, job);
    assert full.stagings[g := Image(job)] == disk.stagings[g := Image(job)];
  }

  /** The manifest's temporary comes and goes. */
  lemma ManifestTwice(disk: Disk, job: Job)
    requires WellStaged(job)
    requires job.generation in disk.stagings && disk.stagings[job.generation] == Directory(Snapshot(job), None)
    ensures var g := job.generation;
            Execute(Execute(disk, WriteManifestTemporary(g, job.temporary)),
                    ReplaceManifest(g, job.temporary, ManifestOf(job)))
            == disk.(stagings := disk.stagings[g := Image(job)])
  {
    hide Snapshot, ManifestOf, Walks;
    var g, d := job.generation, disk.stagings[job.generation];
    var t := WithFile(d, [job.temporary], Bytes([]));
    assert t.files - {[job.temporary]} == d.files;
    assert disk.stagings[g := t][g := Image(job)] == disk.stagings[g := Image(job)];
  }

  /** Just before the pointer moves, the new generation is complete and the old ones are as they were. */
  lemma PublishedImage(disk: Disk, job: Job)
    requires Accepts(disk, job)
    ensures ExecuteAll(disk, PublishSteps(disk, job)) ==
            disk.(binding := Some(job.binding), generations := disk.generations[job.generation := Image(job)])
  {
    hide Image, StageSteps, WellStaged;
    var g := job.generation;
    var bind, stage, last := BindingSteps(disk, job.binding), StageSteps(job), [Publish(g), WriteTemporary];
    var bound := disk.(binding := Some(job.binding));
    assert ExecuteAll(disk, bind) == bound by { BindingIsBound(disk, job.binding); }
    ExecuteConcat(disk, bind + stage, last);
    ExecuteConcat(disk, bind, stage);
    assert WellStaged(job);
    StagingIsFilled(bound, job);
    var staged := ExecuteAll(bound, stage);
    ExecuteTwo(staged, last[0], last[1]);
    assert staged.stagings - {g} == disk.stagings;
  }

  lemma BindingIsBound(disk: Disk, binding: Binding)
    requires disk.binding.Some? ==> disk.binding.value == binding
    ensures ExecuteAll(disk, BindingSteps(disk, binding)) == disk.(binding := Some(binding))
  {
    if disk.binding.None? {
      var two := [WriteTemporary, ReplaceBinding(binding)];
      ExecuteConcat(disk, [MakeStore], two);
      ExecuteTwo(disk, MakeStore, MakeStore);
      ExecuteTwo(disk, two[0], two[1]);
    } else {
      assert [MakeStore] + [] == [MakeStore];
      ExecuteTwo(disk, MakeStore, MakeStore);
    }
  }

  // ---- Crash safety of one persist ----

  /** Which persist the pointer belongs to after the first `k` steps. */
  function PublishedAfter(disk: Disk, published: Option<Job>, job: Job, k: nat): Option<Job>
    requires Listed(job)
  {
    if k > |PublishSteps(disk, job)| then Some(job) else published
  }

  lemma PointerMoves(disk: Disk, job: Job)
    requires Accepts(disk, job)
    ensures Holds(ExecuteAll(disk, PublishSteps(disk, job) + [ReplaceLatest(job.generation)]), Some(job))
  {
    hide WellStaged, Image, PublishSteps;
    ExecuteConcat(disk, PublishSteps(disk, job), [ReplaceLatest(job.generation)]);
    ExecuteTwo(ExecuteAll(disk, PublishSteps(disk, job)), ReplaceLatest(job.generation), MakeStore);
    PublishedImage(disk, job);
  }

  /**
   A persist stopped after any number of its steps leaves a store whose pointer, if any, names a
   complete generation.
   */
  lemma PersistIsCrashSafe(disk: Disk, published: Option<Job>, job: Job, k: nat)
    requires Holds(disk, published) && Accepts(disk, job)
    requires k <= |PersistPlan(disk, job)|
    ensures Holds(ExecuteAll(disk, PersistPlan(disk, job)[..k]), PublishedAfter(disk, published, job, k))
  {
    hide Holds, WellStaged, PublishSteps;
    var before := PublishSteps(disk, job);
    var moved, prune := before + [ReplaceLatest(job.generation)], PruneSteps(job.newestFirst, job.generation, job.keep);
    assert PersistPlan(disk, job) == moved + prune;
    if k <= |before| {
      assert PersistPlan(disk, job)[..k] == before[..k];
      PublishStepsHarmless(disk, published, job);
      HarmlessStepsKeep(disk, published, before[..k]);
    } else {
      var j := k - |moved|;
      assert PersistPlan(disk, job)[..k] == moved + prune[..j];
      ExecuteConcat(disk, moved, prune[..j]);
      PointerMoves(disk, job);
      if |job.newestFirst| > MAX_GENERATIONS {
        RemoveStepsHarmless(job.newestFirst[MAX_GENERATIONS..], job, job.keep);
      }
      HarmlessStepsKeep(ExecuteAll(disk, moved), Some(job), prune[..j]);
    }
  }

  // ---- Runs of persists, each stopped anywhere ----

  datatype Verdict = Skip | Refuse | Proceed

  /** The checks before anything is written. */
  function Check(disk: Disk, job: Job): Verdict {
    if "workspace.json" !in job.stage then Skip
    else if "binding.json" !in job.stage || job.stage["binding.json"] != BindingDocument(job.binding) then Refuse
    else if disk.binding.Some? && disk.binding.value != job.binding then Refuse
    else Proceed
  }

  /** A crash stops after some steps; an exception also removes what it can of the staging. */
  datatype Attempt = Attempt(job: Job, steps: nat, cleanup: Option<Option<set<Path>>>)

  /** The walk is honest and the random names are new. */
  ghost predicate Plausible(disk: Disk, job: Job)
    ensures Plausible(disk, job) ==> Listed(job)
  {
    && Walks(job) && [job.temporary] !in Snapshot(job)
    && job.generation !in disk.generations && job.generation !in disk.stagings
  }

  function Length(disk: Disk, a: Attempt): nat
    requires Listed(a.job)
  {
    if a.steps < |PersistPlan(disk, a.job)| then a.steps else |PersistPlan(disk, a.job)|
  }

  function AfterAttempt(disk: Disk, a: Attempt): Disk
    requires Listed(a.job)
  {
    if !Check(disk, a.job).Proceed? then disk
    else
      var stopped := ExecuteAll(disk, PersistPlan(disk, a.job)[..Length(disk, a)]);
      if a.cleanup.Some? then Execute(stopped, CleanStaging(a.job.generation, a.cleanup.value)) else stopped
  }

  function PublishedBy(disk: Disk, published: Option<Job>, a: Attempt): Option<Job>
    requires Listed(a.job)
  {
    if !Check(disk, a.job).Proceed? then published
    else PublishedAfter(disk, published, a.job, Length(disk, a))
  }

  datatype World = World(disk: Disk, published: Option<Job>)

  const EMPTY := World(Disk(None, None, map[], map[]), None)

  ghost predicate PlausibleRun(w: World, attempts: seq<Attempt>)
    decreases |attempts|
  {
    |attempts| == 0 ||
    (Plausible(w.disk, attempts[0].job) && PlausibleRun(Attempted(w, attempts[0]), attempts[1..]))
  }

  function Attempted(w: World, a: Attempt): World
    requires Listed(a.job)
  {
    World(AfterAttempt(w.disk, a), PublishedBy(w.disk, w.published, a))
  }

  ghost function RunAll(w: World, attempts: seq<Attempt>): World
    requires PlausibleRun(w, attempts)
    decreases |attempts|
  {
    if |attempts| == 0 then w else RunAll(Attempted(w, attempts[0]), attempts[1..])
  }

  lemma AttemptIsCrashSafe(w: World, a: Attempt)
    requires Holds(w.disk, w.published) && Plausible(w.disk, a.job)
    ensures var n := Attempted(w, a); Holds(n.disk, n.published)
  {
    hide Holds, Snapshot, Walks, PersistPlan;
    if Check(w.disk, a.job).Proceed? {
      var k := Length(w.disk, a);
      PersistIsCrashSafe(w.disk, w.published, a.job, k);
      var stopped := ExecuteAll(w.disk, PersistPlan(w.disk, a.job)[..k]);
      if a.cleanup.Some? {
        HarmlessKeeps(stopped, PublishedBy(w.disk, w.published, a), CleanStaging(a.job.generation, a.cleanup.value));
      }
    }
  }

  /**
   After every run of persists, each crashed or failed anywhere, the pointer is absent or names a
   complete generation.
   */
  lemma {:induction false} RunIsCrashSafe(w: World, attempts: seq<Attempt>)
    requires Holds(w.disk, w.published) && PlausibleRun(w, attempts)
    ensures var n := RunAll(w, attempts); Holds(n.disk, n.published)
    decreases |attempts|
  {
    hide Holds, Plausible, Attempted;
    if |attempts| > 0 {
      AttemptIsCrashSafe(w, attempts[0]);
      RunIsCrashSafe(Attempted(w, attempts[0]), attempts[1..]);
    }
  }

  // ---- Restoring ----

  datatype Failure = BindingMismatch | MissingGeneration | FailedIntegrity | UnusableData

  const DATABASE: Path := ["easy-code.db"]

  predicate UnderWorktrees(p: Path) { |p| > 0 && p[0] == "worktrees" }

  /** Drop stale worktrees and the thread leases of the terminated container. */
  function PrepareRestoredData(data: map<Path, Content>): Result<map<Path, Content>, Failure> {
    if ["worktrees"] in data then Err(UnusableData)
    else
      var kept := map p | p in data && !UnderWorktrees(p) :: data[p];
      if DATABASE in kept && kept[DATABASE].Database?
      then Ok(kept[DATABASE := Database(0, kept[DATABASE].rows)])
      else Err(UnusableData)
  }

  /** The files below `d` of a generation. */
  function DataOf(files: map<Path, Content>): map<Path, Content> {
    var paths := set q | q in files && |q| > 1 && q[0] == "d" :: q[1..];
    map p | p in paths && ["d"] + p in files :: files[["d"] + p]
  }

  /** Start a trial without local data: afresh, or from the generation bound to it. */
  function PrepareTrial(
    disk: Disk, local: Option<Binding>, binding: Binding): Result<Option<map<Path, Content>>, Failure>
  {
    if local.Some? && local.value != binding then Err(BindingMismatch)
    else if disk.latest.None? then
      if disk.binding.Some? && disk.binding.value != binding then Err(BindingMismatch) else Ok(None)
    else if disk.binding != Some(binding) then Err(BindingMismatch)
    else if disk.latest.value !in disk.generations then Err(MissingGeneration)
    else if !Verifies(disk.latest.value, disk.generations[disk.latest.value], binding) then Err(FailedIntegrity)
    else match PrepareRestoredData(DataOf(disk.generations[disk.latest.value].files))
      case Err(e) => Err(e)
      case Ok(data) => Ok(Some(data))
  }

  /** A file no item writes stays as it was. */
  lemma {:induction false} UnwrittenFile(files: map<Path, Content>, items: seq<Item>, p: Path)
    requires forall i :: 0 <= i < |items| ==> items[i].path != p
    ensures p in Filled(files, items) <==> p in files
    ensures p in files ==> Filled(files, items)[p] == files[p]
    decreases |items|
  {
    if items != [] { UnwrittenFile(files[items[0].path := items[0].content], items[1..], p); }
  }

  lemma {:induction false} FilledConcat(files: map<Path, Content>, a: seq<Item>, b: seq<Item>)
    ensures Filled(files, a + b) == Filled(Filled(files, a), b)
    decreases |a|
  {
    if a == [] {
      assert a + b == b;
    } else {
      assert (a + b)[1..] == a[1..] + b;
      FilledConcat(files[a[0].path := a[0].content], a[1..], b);
    }
  }

  lemma {:induction false} DataItemPaths(order: seq<Path>, data: map<Path, Content>, partial: Content)
    requires forall p :: p in order ==> p in data
    ensures var items := DataItems(order, data, partial);
            |items| == |order| && forall i :: 0 <= i < |order| ==>
              items[i] == Item(["d"] + order[i], partial, data[order[i]])
    decreases |order|
  {
    if order != [] { DataItemPaths(order[1..], data, partial); }
  }

  lemma {:induction false} StageItemPaths(names: seq<string>, stage: map<string, Content>, partial: Content)
    ensures forall i :: 0 <= i < |StageItems(names, stage, partial)| ==>
              |StageItems(names, stage, partial)[i].path| == 1
              && StageItems(names, stage, partial)[i].path[0] in names
    decreases |names|
  {
    if names != [] { StageItemPaths(names[1..], stage, partial); }
  }

  /** A copied data file is in the snapshot with its content; nothing else is below `d`. */
  lemma {:induction false} CopiedFile(files: map<Path, Content>, order: seq<Path>, data: map<Path, Content>,
      partial: Content, p: Path)
    requires forall q :: q in order ==> q in data
    requires forall i, j :: 0 <= i < j < |order| ==> order[i] != order[j]
    ensures var filled := Filled(files, DataItems(order, data, partial));
            if p in order then ["d"] + p in filled && filled[["d"] + p] == data[p]
            else (["d"] + p in filled <==> ["d"] + p in files)
    decreases |order|
  {
    DataItemPaths(order, data, partial);
    if p !in order {
      forall i | 0 <= i < |order| ensures ["d"] + order[i] != ["d"] + p {
        SamePrefix(["d"], order[i], p);
      }
      UnwrittenFile(files, DataItems(order, data, partial), ["d"] + p);
    } else {
      var next := files[["d"] + order[0] := data[order[0]]];
      if p == order[0] {
        DataItemPaths(order[1..], data, partial);
        forall i | 0 <= i < |order| - 1 ensures ["d"] + order[1..][i] != ["d"] + p {
          assert order[1..][i] == order[i + 1];
          SamePrefix(["d"], order[1..][i], p);
        }
        UnwrittenFile(next, DataItems(order[1..], data, partial), ["d"] + p);
      } else {
        assert p in order[1..];
        CopiedFile(next, order[1..], data, partial, p);
      }
    }
  }

  /** The data below a published generation is what the persist captured. */
  lemma SnapshotData(job: Job)
    requires WellStaged(job)
    ensures DataOf(Snapshot(job)) == CapturedFiles(job.data)
  {
    var items := DataItems(job.order, job.data, job.partial);
    var stage := StageItems(StageNames(), job.stage, job.partial);
    var s := Snapshot(job);
    StageItemPaths(StageNames(), job.stage, job.partial);
    FilledConcat(map[], items, stage);
    forall p: Path | p != []
      ensures ["d"] + p in s <==> p in CapturedFiles(job.data)
      ensures p in CapturedFiles(job.data) ==> s[["d"] + p] == job.data[p]
    {
      CopiedFile(map[], job.order, job.data, job.partial, p);
      UnwrittenFile(Filled(map[], items), stage, ["d"] + p);
    }
    DataOfByPath(s, CapturedFiles(job.data));
  }

  lemma DataOfByPath(files: map<Path, Content>, data: map<Path, Content>)
    requires [] !in data
    requires forall p: Path :: p != [] ==> (["d"] + p in files <==> p in data)
    requires forall p: Path :: p in data ==> ["d"] + p in files && files[["d"] + p] == data[p]
    ensures DataOf(files) == data
  {
    forall p: Path ensures p in DataOf(files) <==> p in data {
      if p in data { assert (["d"] + p)[1..] == p; }
      if p in DataOf(files) { assert p != []; }
    }
  }

  /** What is restored of a captured data directory: every file as captured, the database without its leases. */
  lemma RestoredData(data: map<Path, Content>)
    ensures var captured := CapturedFiles(data);
            var r := PrepareRestoredData(captured);
            && (r.Ok? <==> DATABASE in data && data[DATABASE].Database?)
            && (r.Ok? ==>
                  && r.value.Keys == captured.Keys
                  && r.value[DATABASE] == Database(0, data[DATABASE].rows)
                  && forall p :: p in captured && p != DATABASE ==> r.value[p] == data[p])
  {
    var captured := CapturedFiles(data);
    assert Captured(DATABASE) by {
      assert forall n :: 0 < n <= |DATABASE| ==> DATABASE[..n] == DATABASE;
      assert LOCK != "easy-code.db" && |ADVISORY| > |DATABASE[0]|;
    }
    forall p | p in captured ensures !UnderWorktrees(p) {
      assert !PathIgnored(p[..1]);
    }
  }

  /**
   After any run from an empty store, a restore under the publishing binding
   yields exactly the files that persist captured, with the leases cleared; any
   other binding is refused.
   */
  lemma RestoreAfterAnyRun(attempts: seq<Attempt>, binding: Binding)
    requires PlausibleRun(EMPTY, attempts)
    ensures var w := RunAll(EMPTY, attempts);
            var r := PrepareTrial(w.disk, None, binding);
            match w.published
            case None => r == Ok(None) ||
                         (r == Err(BindingMismatch) && w.disk.binding.Some? && w.disk.binding.value != binding)
            case Some(job) =>
              if binding != job.binding then r == Err(BindingMismatch)
              else match PrepareRestoredData(CapturedFiles(job.data))
                case Ok(data) => r == Ok(Some(data))
                case Err(e) => r == Err(e)
  {
    RunIsCrashSafe(EMPTY, attempts);
    var w := RunAll(EMPTY, attempts);
    if w.published.Some? && binding == w.published.value.binding {
      var job := w.published.value;
      SnapshotData(job);
      ImageVerifies(job);
    }
  }

  lemma ImageVerifies(job: Job)
    requires WellStaged(job)
    ensures Verifies(job.generation, Image(job), job.binding)
  {
    var items := DataItems(job.order, job.data, job.partial);
    var stage := StageItems(StageNames(), job.stage, job.partial);
    var rest := StageItems(StageNames()[1..], job.stage, job.partial);
    FilledConcat(map[], items, stage);
    var first := Item(["binding.json"], job.partial, job.stage["binding.json"]);
    assert stage == [first] + rest;
    StageItemPaths(StageNames()[1..], job.stage, job.partial);
    assert "binding.json" !in StageNames()[1..];
    FilledConcat(Filled(map[], items), [first], rest);
    var files := Filled(Filled(map[], items), [first]);
    assert [first][1..] == [];
    UnwrittenFile(files, rest, ["binding.json"]);
  }

  /** After any run, a pointer that is there names an existing generation that passes verification. */
  lemma PointerVerifiesAfterAnyRun(attempts: seq<Attempt>)
    requires PlausibleRun(EMPTY, attempts)
    ensures var d := RunAll(EMPTY, attempts).disk;
            d.latest.Some? ==>
              && d.binding.Some? && d.latest.value in d.generations
              && Verifies(d.latest.value, d.generations[d.latest.value], d.binding.value)
  {
    RunIsCrashSafe(EMPTY, attempts);
    var w := RunAll(EMPTY, attempts);
    if w.disk.latest.Some? { ImageVerifies(w.published.value); }
  }

  // ---- Pruning ----

  function Names(gs: seq<Generation>): set<Generation> {
    set g | g in gs
  }

  lemma {:induction false} RemovesStale(disk: Disk, stale: seq<Generation>, current: Generation, keep: set<Path>)
    ensures ExecuteAll(disk, RemoveSteps(stale, current, keep)).generations.Keys
            == disk.generations.Keys - (Names(stale) - {current})
    decreases |stale|
  {
    if stale != [] {
      var rest := RemoveSteps(stale[1..], current, keep);
      var head := if stale[0] == current then [] else [RemoveSome(stale[0], keep), RemoveDirectory(stale[0])];
      ExecuteConcat(disk, head, rest);
      if stale[0] != current { ExecuteTwo(disk, head[0], head[1]); }
      var next := ExecuteAll(disk, head);
      assert next.generations.Keys == disk.generations.Keys - (if stale[0] == current then {} else {stale[0]});
      RemovesStale(next, stale[1..], current, keep);
      assert Names(stale) == {stale[0]} + Names(stale[1..]);
    }
  }

  /** A persist that runs to its end keeps the three newest generations and the one it published. */
  lemma PruneKeepsTheNewest(disk: Disk, job: Job)
    requires Accepts(disk, job)
    requires forall g :: g in job.newestFirst <==> g in disk.generations || g == job.generation
    requires forall i, j :: 0 <= i < j < |job.newestFirst| ==> job.newestFirst[i] != job.newestFirst[j]
    ensures var newest := if |job.newestFirst| < 3 then job.newestFirst else job.newestFirst[..3];
            ExecuteAll(disk, PersistPlan(disk, job)).generations.Keys == Names(newest) + {job.generation}
  {
    PlanMovesThenPrunes(disk, job);
    var moved := ExecuteAll(disk, PublishSteps(disk, job) + [ReplaceLatest(job.generation)]);
    hide *;
    assert moved.generations.Keys == disk.generations.Keys + {job.generation};
    PruneLeaves(moved, job);
  }

  lemma PlanMovesThenPrunes(disk: Disk, job: Job)
    requires Accepts(disk, job)
    ensures var moved := ExecuteAll(disk, PublishSteps(disk, job) + [ReplaceLatest(job.generation)]);
            && moved.generations == disk.generations[job.generation := Image(job)]
            && ExecuteAll(disk, PersistPlan(disk, job)) ==
               ExecuteAll(moved, PruneSteps(job.newestFirst, job.generation, job.keep))
  {
    hide PublishSteps, WellStaged, Image, PruneSteps;
    ExecuteConcat(disk, PublishSteps(disk, job) + [ReplaceLatest(job.generation)],
                  PruneSteps(job.newestFirst, job.generation, job.keep));
    ExecuteConcat(disk, PublishSteps(disk, job), [ReplaceLatest(job.generation)]);
    PublishedImage(disk, job);
    ExecuteTwo(ExecuteAll(disk, PublishSteps(disk, job)), ReplaceLatest(job.generation), MakeStore);
  }

  lemma PruneLeaves(disk: Disk, job: Job)
    requires forall g :: g in job.newestFirst <==> g in disk.generations
    requires forall i, j :: 0 <= i < j < |job.newestFirst| ==> job.newestFirst[i] != job.newestFirst[j]
    requires job.generation in disk.generations
    ensures var newest := if |job.newestFirst| < 3 then job.newestFirst else job.newestFirst[..3];
            ExecuteAll(disk, PruneSteps(job.newestFirst, job.generation, job.keep)).generations.Keys ==
            Names(newest) + {job.generation}
  {
    hide ExecuteAll, RemoveSteps;
    NothingDone(disk);
    if |job.newestFirst| > MAX_GENERATIONS {
      var newest, stale := job.newestFirst[..3], job.newestFirst[3..];
      RemovesStale(disk, stale, job.generation, job.keep);
      assert job.newestFirst == newest + stale;
      assert forall g :: g in newest ==> g !in stale;
    }
  }

  // ---- What is captured, and when a restore is refused ----

  /** A file is captured unless it is below the worktrees or a part of its path is a lock of the database. */
  lemma CapturedIff(relative: Path)
    ensures Captured(relative) <==>
              && relative != [] && relative[0] != "worktrees"
              && forall k :: 0 <= k < |relative| ==> relative[k] != LOCK && !(ADVISORY <= relative[k])
  {
    forall k | 0 <= k < |relative|
      ensures !PathIgnored(relative[..k + 1]) <==>
                relative[0] != "worktrees" && relative[k] != LOCK && !(ADVISORY <= relative[k])
    {}
    if Captured(relative) {
      assert !PathIgnored(relative[..1]);
      forall k | 0 <= k < |relative| ensures relative[k] != LOCK && !(ADVISORY <= relative[k]) {
        assert !PathIgnored(relative[..k + 1]);
      }
    }
  }


  /** The binding and the manifest are those of the generation and the trial, and the manifest lists every file. */
  ghost predicate Intact(name: Generation, d: Directory, binding: Binding) {
    && ["binding.json"] in d.files && d.files[["binding.json"]] == BindingDocument(binding)
    && d.manifest.Some?
    && var m := d.manifest.value;
       && m.schemaVersion == 1 && m.generation == name && m.trialKey == binding.trialKey
       && (forall p :: p in m.files <==> p in d.files)
       && forall p :: p in d.files && p in m.files ==> m.files[p] == Sha256(d.files[p])
  }

  lemma IntactIff(name: Generation, d: Directory, binding: Binding)
    ensures Verifies(name, d, binding) <==> Intact(name, d, binding)
  {
    if Intact(name, d, binding) {
      assert d.manifest.value.files == FileManifest(d.files);
    }
  }

  /** Every outcome of starting a trial, without local data of another one, has its exact reason. */
  lemma RestoreRefusedIff(disk: Disk, local: Option<Binding>, binding: Binding)
    ensures var r := PrepareTrial(disk, local, binding);
            var bound := disk.binding == Some(binding) || (disk.latest.None? && disk.binding.None?);
            var ours := (local.Some? ==> local.value == binding) && bound;
            var here := ours && disk.latest.Some? && disk.latest.value in disk.generations;
            && (r == Err(BindingMismatch) <==> !ours)
            && (r == Ok(None) <==> ours && disk.latest.None?)
            && (r == Err(MissingGeneration) <==> ours && disk.latest.Some? && !here)
            && (r == Err(FailedIntegrity) <==>
                  here && !Intact(disk.latest.value, disk.generations[disk.latest.value], binding))
            && (r == Err(UnusableData) <==>
                  && here && Intact(disk.latest.value, disk.generations[disk.latest.value], binding)
                  && PrepareRestoredData(DataOf(disk.generations[disk.latest.value].files)).Err?)
  {
    if disk.latest.Some? && disk.latest.value in disk.generations {
      IntactIff(disk.latest.value, disk.generations[disk.latest.value], binding);
      RefusedData(DataOf(disk.generations[disk.latest.value].files));
    }
    hide Verifies, Intact, DataOf, PrepareRestoredData;
  }

  /** What is restored of any data: all but the worktrees, the database without its leases. */
  lemma RestoredIff(data: map<Path, Content>)
    ensures var r := PrepareRestoredData(data);
            && (r.Ok? <==> ["worktrees"] !in data && DATABASE in data && data[DATABASE].Database?)
            && (r.Ok? ==>
                  && (forall p :: p in r.value <==> p in data && !(|p| > 0 && p[0] == "worktrees"))
                  && (forall p :: p in r.value && p != DATABASE ==> r.value[p] == data[p])
                  && r.value[DATABASE] == Database(0, data[DATABASE].rows))
  {
    assert !UnderWorktrees(DATABASE);
  }

  /** An attempt that fails with an exception leaves no staging directory, if that can be removed. */
  lemma FailureIsCleanedUp(w: World, a: Attempt)
    requires Plausible(w.disk, a.job) && a.cleanup == Some(None)
    ensures a.job.generation !in Attempted(w, a).disk.stagings
  {
    hide Snapshot, Walks, PersistPlan, ExecuteAll;
  }

  /** A removal that is cut short may leave any part of a directory. */
  lemma RemovalLeavesAnyPart(disk: Disk, g: Generation, part: Directory) returns (keep: set<Path>)
    requires g in disk.generations && part.files.Keys <= disk.generations[g].files.Keys
    requires forall p :: p in part.files ==> part.files[p] == disk.generations[g].files[p]
    requires part.manifest.None? || part.manifest == disk.generations[g].manifest
    requires ["manifest.json"] !in disk.generations[g].files
    ensures Execute(disk, RemoveSome(g, keep)) == disk.(generations := disk.generations[g := part])
  {
    keep := part.files.Keys + if part.manifest.Some? then {["manifest.json"]} else {};
    assert Kept(disk.generations[g], keep).files == part.files;
  }

  /** So may a cleanup of a staging directory. */
  lemma CleanupLeavesAnyPart(disk: Disk, g: Generation, part: Directory) returns (keep: set<Path>)
    requires g in disk.stagings && part.files.Keys <= disk.stagings[g].files.Keys
    requires forall p :: p in part.files ==> part.files[p] == disk.stagings[g].files[p]
    requires part.manifest.None? || part.manifest == disk.stagings[g].manifest
    requires ["manifest.json"] !in disk.stagings[g].files
    ensures Execute(disk, CleanStaging(g, Some(keep))) == disk.(stagings := disk.stagings[g := part])
    ensures Execute(disk, CleanStaging(g, None)) == disk.(stagings := disk.stagings - {g})
  {
    keep := part.files.Keys + if part.manifest.Some? then {["manifest.json"]} else {};
    assert Kept(disk.stagings[g], keep).files == part.files;
  }

  // ---- When a persist publishes, and what is restored then ----

  /** The stage is for the job's trial, and the store is new or bound to that trial. */
  predicate Belongs(disk: Disk, job: Job) {
    && "binding.json" in job.stage && job.stage["binding.json"] == BindingDocument(job.binding)
    && (disk.binding.None? || disk.binding == Some(job.binding))
  }

  /** A restore gives back every captured file, the database without its leases; without a database it is refused. */
  ghost predicate GivesBack(r: Result<Option<map<Path, Content>>, Failure>, data: map<Path, Content>) {
    if DATABASE in data && data[DATABASE].Database? then
      && r.Ok? && r.value.Some?
      && (forall p :: p in r.value.value <==> p in data && Captured(p))
      && (forall p :: p in r.value.value && p != DATABASE ==> r.value.value[p] == data[p])
      && r.value.value[DATABASE] == Database(0, data[DATABASE].rows)
    else r == Err(UnusableData)
  }

  lemma HeldIsGivenBack(disk: Disk, job: Job)
    requires Holds(disk, Some(job))
    ensures disk.latest == Some(job.generation) && disk.binding == Some(job.binding)
    ensures GivesBack(PrepareTrial(disk, None, job.binding), job.data)
  {
    SnapshotData(job);
    ImageVerifies(job);
    RestoredData(job.data);
    RefusedData(CapturedFiles(job.data));
    hide Snapshot, ManifestOf, Walks, Captured, FileManifest;
  }

  lemma RefusedData(data: map<Path, Content>)
    ensures PrepareRestoredData(data).Err? ==> PrepareRestoredData(data) == Err(UnusableData)
  {}

  /** From the step that moves the pointer on, the store holds the job. */
  lemma PublishedIsHeld(disk: Disk, job: Job, k: nat)
    requires Accepts(disk, job) && |PublishSteps(disk, job)| < k <= |PersistPlan(disk, job)|
    ensures Holds(ExecuteAll(disk, PersistPlan(disk, job)[..k]), Some(job))
  {
    hide Holds, WellStaged, PublishSteps;
    var moved := PublishSteps(disk, job) + [ReplaceLatest(job.generation)];
    var prune := PruneSteps(job.newestFirst, job.generation, job.keep);
    assert PersistPlan(disk, job)[..k] == moved + prune[..k - |moved|];
    ExecuteConcat(disk, moved, prune[..k - |moved|]);
    PointerMoves(disk, job);
    if |job.newestFirst| > MAX_GENERATIONS {
      RemoveStepsHarmless(job.newestFirst[MAX_GENERATIONS..], job, job.keep);
    }
    HarmlessStepsKeep(ExecuteAll(disk, moved), Some(job), prune[..k - |moved|]);
  }

  lemma CompletedIsGivenBack(disk: Disk, job: Job)
    requires Accepts(disk, job)
    ensures var after := ExecuteAll(disk, PersistPlan(disk, job));
            && after.latest == Some(job.generation) && after.binding == Some(job.binding)
            && GivesBack(PrepareTrial(after, None, job.binding), job.data)
  {
    hide ExecuteAll, Holds, WellStaged, PublishSteps, GivesBack, PrepareTrial;
    var plan := PersistPlan(disk, job);
    assert plan[..|plan|] == plan;
    PublishedIsHeld(disk, job, |plan|);
    HeldIsGivenBack(ExecuteAll(disk, plan), job);
  }

  /**
   An attempt is the one the pointer belongs to afterwards if and only if its stage is complete and belongs
   to the trial of the store, and it lives to the step that moves the pointer; a restore gives its data back then.
   */
  lemma PublishesIff(w: World, a: Attempt)
    requires Holds(w.disk, w.published) && Plausible(w.disk, a.job)
    ensures var n := Attempted(w, a);
            && (n.disk.latest == Some(a.job.generation) <==>
                  && "workspace.json" in a.job.stage && Belongs(w.disk, a.job)
                  && a.steps > |PublishSteps(w.disk, a.job)|)
            && (n.disk.latest == Some(a.job.generation) ==>
                  GivesBack(PrepareTrial(n.disk, None, a.job.binding), a.job.data))
            && (n.disk.latest != Some(a.job.generation) ==> n.disk.latest == w.disk.latest)
  {
    AttemptIsCrashSafe(w, a);
    var n := Attempted(w, a);
    if n.published == Some(a.job) {
      HeldIsGivenBack(n.disk, a.job);
    }
    PublishedByIff(w.disk, w.published, a);
    hide Attempted, GivesBack, PrepareTrial, PublishSteps, PublishedBy;
    assert n.published == PublishedBy(w.disk, w.published, a) by { AttemptedIs(w, a); }
  }

  lemma AttemptedIs(w: World, a: Attempt)
    requires Listed(a.job)
    ensures Attempted(w, a).published == PublishedBy(w.disk, w.published, a)
  {}

  lemma PublishedByIff(disk: Disk, published: Option<Job>, a: Attempt)
    requires Plausible(disk, a.job)
    ensures PublishedBy(disk, published, a) ==
            (if "workspace.json" in a.job.stage && Belongs(disk, a.job) && a.steps > |PublishSteps(disk, a.job)|
             then Some(a.job) else published)
  {
    hide PublishSteps, PruneSteps;
  }

  // ---- The store class: one step at a time, until the process dies ----

  lemma ExecuteOneMore(disk: Disk, steps: seq<Step>, step: Step)
    ensures ExecuteAll(disk, steps + [step]) == Execute(ExecuteAll(disk, steps), step)
  {
    assert (steps + [step])[..|steps|] == steps;
  }

  /** Hash every file of a directory. */
  method HashFiles(files: map<Path, Content>) returns (manifest: map<Path, Digest>)
    ensures manifest == FileManifest(files)
  {
    manifest := map[];
    var rest := files.Keys;
    while rest != {}
      invariant rest <= files.Keys
      invariant manifest == map p | p in files && p !in rest :: Sha256(files[p])
      decreases rest
    {
      var p :| p in rest;
      manifest := manifest[p := Sha256(files[p])];
      rest := rest - {p};
    }
  }

  datatype Outcome = Skipped | Refused | Crashed | Completed

  class Store {
    var binding: Option<Binding>
    var latest: Option<Generation>
    var generations: map<Generation, Directory>
    var stagings: map<Generation, Directory>
    /** How many steps the process still lives. */
    var life: nat
    /** The steps performed since `origin`. */
    ghost var origin: Disk
    ghost var log: seq<Step>

    function Current(): Disk
      reads this
    {
      Disk(binding, latest, generations, stagings)
    }

    ghost predicate Valid()
      reads this
    {
      Current() == ExecuteAll(origin, log)
    }

    constructor ()
      ensures Valid() && Current() == EMPTY.disk
    {
      binding, latest, generations, stagings, life := None, None, map[], map[], 0;
      origin, log := EMPTY.disk, [];
    }

    method Perform(step: Step) returns (alive: bool)
      requires Valid()
      modifies this
      ensures Valid() && origin == old(origin) && |log| + life == |old(log)| + old(life)
      ensures log == if alive then old(log) + [step] else old(log)
      ensures alive ==> Current() == Execute(old(Current()), step)
      ensures !alive ==> life == 0
    {
      alive := life > 0;
      if alive {
        ExecuteOneMore(origin, log, step);
        var disk := Execute(Current(), step);
        binding, latest, generations, stagings := disk.binding, disk.latest, disk.generations, disk.stagings;
        life := life - 1;
        log := log + [step];
      }
    }

    /** Copy files into a staging directory; each copy is opened, then filled. */
    method CopyItems(g: Generation, items: seq<Item>) returns (alive: bool)
      requires Valid()
      modifies this
      ensures Valid() && origin == old(origin) && |log| + life == |old(log)| + old(life)
      ensures if alive then log == old(log) + CopySteps(g, items) else life == 0 && log < old(log) + CopySteps(g, items)
    {
      hide ExecuteAll, Execute;
      ghost var whole := log + CopySteps(g, items);
      alive := true;
      var rest := items;
      while rest != []
        invariant Valid() && origin == old(origin) && |log| + life == |old(log)| + old(life)
        invariant log + CopySteps(g, rest) == whole
        decreases |rest|
      {
        var i := rest[0];
        ghost var later := CopySteps(g, rest[1..]);
        assert log + [CopyFile(g, i.path, i.partial)] + [CopyFile(g, i.path, i.content)] + later == whole;
        alive := Perform(CopyFile(g, i.path, i.partial));
        if !alive { return; }
        alive := Perform(CopyFile(g, i.path, i.content));
        if !alive { return; }
        rest := rest[1..];
      }
      assert CopySteps(g, rest) == [];
    }

    /** Remove the stale generations one after the other, never the current one. */
    method RemoveGenerations(stale: seq<Generation>, current: Generation, keep: set<Path>) returns (alive: bool)
      requires Valid()
      modifies this
      ensures Valid() && origin == old(origin) && |log| + life == |old(log)| + old(life)
      ensures if alive then log == old(log) + RemoveSteps(stale, current, keep)
              else life == 0 && log < old(log) + RemoveSteps(stale, current, keep)
    {
      hide ExecuteAll, Execute;
      ghost var whole := log + RemoveSteps(stale, current, keep);
      alive := true;
      var rest := stale;
      while rest != []
        invariant Valid() && origin == old(origin) && |log| + life == |old(log)| + old(life)
        invariant log + RemoveSteps(rest, current, keep) == whole
        decreases |rest|
      {
        if rest[0] != current {
          ghost var later := RemoveSteps(rest[1..], current, keep);
          assert log + [RemoveSome(rest[0], keep)] + [RemoveDirectory(rest[0])] + later == whole;
          alive := Perform(RemoveSome(rest[0], keep));
          if !alive { return; }
          alive := Perform(RemoveDirectory(rest[0]));
          if !alive { return; }
        }
        rest := rest[1..];
      }
      assert RemoveSteps(rest, current, keep) == [];
    }

    /** Bind a new store to the trial. */
    method BindStore(job: Job) returns (alive: bool)
      requires Valid()
      modifies this
      ensures Valid() && origin == old(origin) && |log| + life == |old(log)| + old(life)
      ensures if alive then log == old(log) + BindingSteps(old(Current()), job.binding)
              else life == 0 && log < old(log) + BindingSteps(old(Current()), job.binding)
    {
      hide ExecuteAll;
      alive := Perform(MakeStore);
      if alive && binding.None? {
        alive := Perform(WriteTemporary);
        if alive {
          alive := Perform(ReplaceBinding(job.binding));
        }
      }
    }

    /** Copy the checkpoint into a new staging directory. */
    method CopyStage(job: Job) returns (alive: bool)
      requires Valid() && WellStaged(job)
      modifies this
      ensures Valid() && origin == old(origin) && |log| + life == |old(log)| + old(life)
      ensures var steps := [MakeStaging(job.generation)] + CopySteps(job.generation, Items(job));
              if alive then log == old(log) + steps else life == 0 && log < old(log) + steps
      ensures alive ==> job.generation in stagings && stagings[job.generation].files == Snapshot(job)
    {
      hide ExecuteAll, Execute, Items, Snapshot, CopySteps;
      var g := job.generation;
      ghost var before, start := log, Current();
      ghost var copies := CopySteps(g, Items(job));
      assert before + ([MakeStaging(g)] + copies) == before + [MakeStaging(g)] + copies;
      alive := Perform(MakeStaging(g));
      if alive {
        alive := CopyItems(g, Items(job));
        CopiedIsSnapshot(origin, before, start, job);
      }
    }

    /** Fill the staging directory and list its files in the manifest. */
    method FillStaging(job: Job) returns (alive: bool)
      requires Valid() && WellStaged(job)
      modifies this
      ensures Valid() && origin == old(origin) && |log| + life == |old(log)| + old(life)
      ensures if alive then log == old(log) + StageSteps(job) else life == 0 && log < old(log) + StageSteps(job)
    {
      hide ExecuteAll, Execute, Items, Snapshot, CopySteps;
      var g := job.generation;
      alive := CopyStage(job);
      if !alive { return; }
      var files := HashFiles(stagings[g].files);
      var manifest := Manifest(SCHEMA_VERSION, g, job.binding.trialKey, files);
      alive := Perform(WriteManifestTemporary(g, job.temporary));
      if !alive { return; }
      alive := Perform(ReplaceManifest(g, job.temporary, manifest));
    }

    /**
     Persist one checkpoint, the process dying after `crashAfter` steps if it
     does not finish before. A refusal writes nothing.
     */
    method PersistCheckpoint(job: Job, crashAfter: nat) returns (outcome: Outcome)
      requires Plausible(Current(), job)
      modifies this
      ensures outcome.Skipped? <==> "workspace.json" !in job.stage
      ensures outcome.Refused? <==> "workspace.json" in job.stage && !Belongs(old(Current()), job)
      ensures outcome.Skipped? || outcome.Refused? ==> Current() == old(Current())
      ensures outcome.Completed? <==>
              && "workspace.json" in job.stage && Belongs(old(Current()), job)
              && crashAfter >= |PersistPlan(old(Current()), job)|
      ensures outcome.Completed? ==>
                && latest == Some(job.generation) && binding == Some(job.binding)
                && GivesBack(PrepareTrial(Current(), None, job.binding), job.data)
      ensures Current() == AfterAttempt(old(Current()), Attempt(job, crashAfter, None))
    {
      hide ExecuteAll, Execute, PersistPlan, Snapshot, Items;
      if "workspace.json" !in job.stage {
        return Skipped;
      }
      if "binding.json" !in job.stage || job.stage["binding.json"] != BindingDocument(job.binding) {
        return Refused;
      }
      if binding.Some? && binding.value != job.binding {
        return Refused;
      }
      life := crashAfter;
      origin, log := Current(), [];
      NothingDone(Current());
      ghost var plan := PersistPlan(Current(), job);
      var alive := CarryOut(job);
      assert plan[..|log|] == log;
      if alive {
        CompletedIsGivenBack(origin, job);
      }
      return if alive then Completed else Crashed;
    }

    /** Publish the generation, move the pointer and remove stale generations. */
    method CarryOut(job: Job) returns (alive: bool)
      requires Valid() && log == [] && origin == Current() && WellStaged(job)
      modifies this
      ensures Valid() && origin == old(origin) && |log| + life == old(life)
      ensures if alive then log == PersistPlan(origin, job) else life == 0 && log < PersistPlan(origin, job)
    {
      hide ExecuteAll, Execute, PublishSteps, WellStaged;
      ghost var plan := PersistPlan(origin, job);
      alive := PublishGeneration(job);
      if alive {
        alive := Perform(ReplaceLatest(job.generation));
        if alive && |job.newestFirst| > MAX_GENERATIONS {
          alive := RemoveGenerations(job.newestFirst[MAX_GENERATIONS..], job.generation, job.keep);
        }
      }
      PlanPrefix(origin, job, plan, log, alive);
    }

    /** Bind the store, if it is new, and fill the staging directory. */
    method StageGeneration(job: Job) returns (alive: bool)
      requires Valid() && log == [] && origin == Current() && WellStaged(job)
      modifies this
      ensures Valid() && origin == old(origin) && |log| + life == old(life)
      ensures var steps := BindingSteps(origin, job.binding) + StageSteps(job);
              if alive then log == steps else life == 0 && log < steps
    {
      hide ExecuteAll, Execute, StageSteps, BindingSteps, WellStaged;
      alive := BindStore(job);
      if alive {
        alive := FillStaging(job);
      }
    }

    method PublishGeneration(job: Job) returns (alive: bool)
      requires Valid() && log == [] && origin == Current() && WellStaged(job)
      modifies this
      ensures Valid() && origin == old(origin) && |log| + life == old(life)
      ensures if alive then log == PublishSteps(origin, job) else life == 0 && log < PublishSteps(origin, job)
    {
      hide ExecuteAll, Execute, StageSteps, BindingSteps, WellStaged;
      alive := StageGeneration(job);
      if !alive { return; }
      alive := Perform(Publish(job.generation));
      if !alive { return; }
      alive := Perform(WriteTemporary);
    }
  }

  lemma NothingDone(disk: Disk)
    ensures ExecuteAll(disk, []) == disk
  {
  }

  lemma PlanPrefix(disk: Disk, job: Job, plan: seq<Step>, log: seq<Step>, alive: bool)
    requires Listed(job) && plan == PersistPlan(disk, job)
    requires var moved := PublishSteps(disk, job) + [ReplaceLatest(job.generation)];
             var stale := if |job.newestFirst| > MAX_GENERATIONS then job.newestFirst[MAX_GENERATIONS..] else [];
             if alive then log == moved + RemoveSteps(stale, job.generation, job.keep)
             else log < moved + RemoveSteps(stale, job.generation, job.keep)
    ensures if alive then log == plan else log < plan
  {
  }

  /** What the copies leave in the staging directory. */
  lemma CopiedIsSnapshot(origin: Disk, before: seq<Step>, start: Disk, job: Job)
    requires Listed(job) && start == ExecuteAll(origin, before)
    ensures var g := job.generation;
            var d := ExecuteAll(origin, before + [MakeStaging(g)] + CopySteps(g, Items(job)));
            g in d.stagings && d.stagings[g].files == Snapshot(job)
  {
    var g := job.generation;
    ExecuteConcat(origin, before + [MakeStaging(g)], CopySteps(g, Items(job)));
    ExecuteOneMore(origin, before, MakeStaging(g));
    CopyFills(Execute(start, MakeStaging(g)), g, Items(job));
  }
}
