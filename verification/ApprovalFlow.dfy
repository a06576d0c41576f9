/**
 Approvals of commands and catalog tools, with the grants that are kept in memory
 and in the journal (src/app/approval-flow.ts, src/app/info-commands.ts,
 src/command/approval.ts, src/threads/event-replay.ts). An approval is cut at each
 await; between two cuts the mode or the thread may change, a grant may be
 revoked, and a signal may be aborted.
 */
module ApprovalFlow {
  import opened Common

  type ThreadId = string
  type Prefix = string

  datatype Mode = Manual | AutoApprove | Unrestricted

  datatype Decision = Reject | AllowOnce | AllowAlways

  /** What is known of command prefixes: their canonical form, which may be kept, and what a kept one covers. */
  datatype Policy = Policy(
    normal: Prefix -> Option<Prefix>,
    reusable: Prefix -> bool,
    grantable: Prefix -> bool,
    covers: (Prefix, Prefix) -> bool)

  ghost predicate PolicyOk(policy: Policy) {
    forall p :: policy.normal(p).Some? ==> policy.normal(policy.normal(p).value) == policy.normal(p)
  }

  const MAX_PREFIXES := 128

  // ---- Lists of prefixes ----

  predicate NoDuplicates<T(==)>(list: seq<T>) {
    forall i, j :: 0 <= i < j < |list| ==> list[i] != list[j]
  }

  predicate Clean(policy: Policy, list: seq<Prefix>) {
    && |list| <= MAX_PREFIXES && NoDuplicates(list)
    && forall p :: p in list ==> policy.normal(p) == Some(p)
  }

  /** Canonical forms in order, without repetition; nothing if one has no canonical form. */
  function Canonical(policy: Policy, list: seq<Prefix>, kept: seq<Prefix>): Option<seq<Prefix>>
    decreases |list|
  {
    if |list| == 0 then Some(kept)
    else match policy.normal(list[0])
      case None => None
      case Some(p) => Canonical(policy, list[1..], if p in kept then kept else kept + [p])
  }

  function Validate(policy: Policy, list: seq<Prefix>): Option<seq<Prefix>> {
    if |list| > MAX_PREFIXES then None else Canonical(policy, list, [])
  }

  lemma {:induction false} CanonicalOfClean(policy: Policy, list: seq<Prefix>, kept: seq<Prefix>)
    requires NoDuplicates(kept + list) && forall p :: p in list ==> policy.normal(p) == Some(p)
    ensures Canonical(policy, list, kept) == Some(kept + list)
    decreases |list|
  {
    if |list| == 0 {
      assert kept + list == kept;
    } else {
      var whole := kept + list;
      assert whole[|kept|] == list[0];
      assert forall i :: 0 <= i < |kept| ==> whole[i] == kept[i];
      assert kept + [list[0]] + list[1..] == whole;
      CanonicalOfClean(policy, list[1..], kept + [list[0]]);
    }
  }

  lemma ValidateClean(policy: Policy, list: seq<Prefix>)
    requires Clean(policy, list)
    ensures Validate(policy, list) == Some(list)
  {
    assert [] + list == list;
    CanonicalOfClean(policy, list, []);
  }

  function Without(list: seq<Prefix>, x: Prefix): (rest: seq<Prefix>)
    ensures forall y :: y in rest <==> y in list && y != x
    ensures |rest| <= |list| && (x in list ==> |rest| < |list|)
    decreases |list|
  {
    if |list| == 0 then []
    else if list[0] == x then Without(list[1..], x)
    else [list[0]] + Without(list[1..], x)
  }

  lemma {:induction false} WithoutKeepsDistinct(list: seq<Prefix>, x: Prefix)
    requires NoDuplicates(list)
    ensures NoDuplicates(Without(list, x))
    decreases |list|
  {
    if |list| > 0 {
      var rest := list[1..];
      assert forall i :: 0 <= i < |rest| ==> rest[i] == list[i + 1];
      WithoutKeepsDistinct(rest, x);
      assert list[0] !in rest;
    }
  }

  lemma SnocDistinct<T>(list: seq<T>, x: T)
    requires NoDuplicates(list) && x !in list
    ensures NoDuplicates(list + [x])
  {}

  /** Drop the entries with a canonical form. */
  function WithoutNormal(policy: Policy, list: seq<Prefix>, p: Prefix): seq<Prefix> {
    if |list| == 0 then []
    else if policy.normal(list[0]) == Some(p) then WithoutNormal(policy, list[1..], p)
    else [list[0]] + WithoutNormal(policy, list[1..], p)
  }

  lemma {:induction false} WithoutNormalOfClean(policy: Policy, list: seq<Prefix>, p: Prefix)
    requires forall q :: q in list ==> policy.normal(q) == Some(q)
    ensures WithoutNormal(policy, list, p) == Without(list, p)
  {
    if |list| > 0 {
      assert list[0] in list;
      WithoutNormalOfClean(policy, list[1..], p);
    }
  }

  /** The list with a grant added, or nothing when it may not be. */
  function Grant(policy: Policy, prefixes: seq<Prefix>, prefix: Prefix): Option<seq<Prefix>> {
    match (Validate(policy, prefixes), policy.normal(prefix))
    case (Some(approved), Some(candidate)) =>
      if !policy.reusable(candidate) then None
      else if candidate in approved then Some(approved)
      else if |approved| >= MAX_PREFIXES then None
      else Some(approved + [candidate])
    case _ => None
  }

  /** Whether a kept prefix covers the command; nothing when the question itself fails. */
  function IsGranted(policy: Policy, prefixes: seq<Prefix>, prefix: Prefix): Option<bool> {
    match (Validate(policy, prefixes), policy.normal(prefix))
    case (Some(approved), Some(candidate)) => Some(exists g :: g in approved && policy.covers(g, candidate))
    case _ => None
  }

  // ---- The journal ----

  datatype Entry =
    | PrefixGranted(prefix: Prefix)
    | PrefixRevoked(prefix: Prefix)
    | ToolGranted(key: string)
    | Reviewed(decision: Decision)
    | Decided(decision: Decision)
    | UserRequired

  /** Folding one entry into the grants of a thread; nothing when recovery would fail. */
  function Fold(policy: Policy, list: seq<Prefix>, e: Entry): Option<seq<Prefix>> {
    match e
    case PrefixGranted(p) => Validate(policy, Without(list, p) + [p])
    case PrefixRevoked(p) =>
      (match policy.normal(p)
       case Some(q) => Some(WithoutNormal(policy, list, q))
       case None => None)
    case _ => Some(list)
  }

  function Recover(policy: Policy, entries: seq<Entry>): Option<seq<Prefix>> {
    if |entries| == 0 then Some([])
    else match Recover(policy, entries[..|entries| - 1])
      case Some(list) => Fold(policy, list, entries[|entries| - 1])
      case None => None
  }

  function AddKey(keys: seq<string>, key: string): seq<string> {
    if key in keys then keys else keys + [key]
  }

  function RecoverTools(entries: seq<Entry>): seq<string> {
    if |entries| == 0 then []
    else
      var keys := RecoverTools(entries[..|entries| - 1]);
      var last := entries[|entries| - 1];
      if last.ToolGranted? then AddKey(keys, last.key) else keys
  }

  /** The store checks a grant against the thread's recovered grants before it accepts it. */
  predicate Acceptable(policy: Policy, entries: seq<Entry>, e: Entry) {
    match e
    case PrefixGranted(p) =>
      var recovered := Recover(policy, entries);
      recovered.Some? && Grant(policy, recovered.value, p).Some?
    case PrefixRevoked(p) => policy.normal(p).Some?
    case _ => true
  }

  // ---- Approvals ----

  datatype Job =
    | CommandJob(thread: ThreadId, signal: nat, prefix: Prefix, networkPrefix: Option<Prefix>,
                 userOnly: bool, mayPrompt: bool)
    | ToolJob(thread: ThreadId, signal: nat, mode: Mode, toolThread: ThreadId, key: string)

  /** Where an approval waits; `mode` is the one it began with. */
  datatype Waiting = Waiting(job: Job, mode: Mode, forUser: bool)

  datatype Outcome = Allowed | Denied | Threw

  /** How an approval ended: whether it had asked, and the app at that moment. */
  datatype Verdict = Verdict(job: Job, outcome: Outcome, asked: bool, mode: Mode,
                             endThread: ThreadId, endMode: Mode, aborted: bool)

  datatype App = App(
    thread: ThreadId, mode: Mode, prefixes: seq<Prefix>, tools: seq<string>, dirty: bool,
    journal: map<ThreadId, seq<Entry>>, aborted: set<nat>,
    queue: seq<Job>, waiting: Option<Waiting>, verdicts: seq<Verdict>)

  function Entries(app: App, thread: ThreadId): seq<Entry> {
    if thread in app.journal then app.journal[thread] else []
  }

  /** Append to the journal; nothing when the store refuses or fails. */
  function Append(policy: Policy, app: App, thread: ThreadId, e: Entry, stored: bool): Option<App> {
    if stored && Acceptable(policy, Entries(app, thread), e)
    then Some(app.(journal := app.journal[thread := Entries(app, thread) + [e]]))
    else None
  }

  function End(app: App, w: Waiting, asked: bool, outcome: Outcome): App {
    app.(waiting := None,
         verdicts := app.verdicts +
           [Verdict(w.job, outcome, asked, w.mode, app.thread, app.mode, w.job.signal in app.aborted)])
  }

  /** The thread or the mode changed, or the signal was aborted. */
  predicate Stale(app: App, w: Waiting) {
    w.job.signal in app.aborted || w.job.thread != app.thread || w.mode != app.mode
  }

  // ---- Commands ----

  function AskUser(policy: Policy, app: App, w: Waiting, asked: bool, stored: bool): App
    requires w.job.CommandJob?
  {
    if w.job.mayPrompt then app.(waiting := Some(w.(forUser := true)))
    else match Append(policy, app, app.thread, UserRequired, stored)
      case Some(noted) => End(noted, w, asked, Threw)
      case None => End(app, w, asked, Threw)
  }

  function BeginCommand(policy: Policy, app: App, job: Job, stored: bool): App
    requires job.CommandJob?
  {
    var w := Waiting(job, app.mode, false);
    if job.signal in app.aborted || job.thread != app.thread then End(app, w, false, Denied)
    else if !job.userOnly && app.mode == Unrestricted then End(app, w, false, Allowed)
    else match IsGranted(policy, app.prefixes, job.prefix)
      case None => End(app, w, false, Threw)
      case Some(granted) =>
        var network := if granted || job.networkPrefix.None? then Some(granted)
                       else IsGranted(policy, app.prefixes, job.networkPrefix.value);
        if network.None? then End(app, w, false, Threw)
        else if network.value then End(app, w, false, Allowed)
        else if app.mode == AutoApprove && !job.userOnly then app.(waiting := Some(w))
        else AskUser(policy, app, w, false, stored)
  }

  function DecideCommand(policy: Policy, app: App, w: Waiting, decision: Decision, stored: bool, granted: bool): App
    requires w.job.CommandJob?
  {
    if Stale(app, w) then End(app, w, true, Denied)
    else match Append(policy, app, w.job.thread, Decided(decision), stored)
      case None => End(app, w, true, Threw)
      case Some(noted) =>
        if decision == Reject then End(noted, w, true, Denied)
        else if decision == AllowOnce then End(noted, w, true, Allowed)
        else match (Grant(policy, noted.prefixes, w.job.prefix), policy.normal(w.job.prefix))
          case (Some(prefixes), Some(p)) =>
            (match Append(policy, noted, noted.thread, PrefixGranted(p), granted)
             case None => End(noted, w, true, Threw)
             case Some(kept) => End(kept.(prefixes := prefixes, dirty := true), w, true, Allowed))
          case _ => End(noted, w, true, Threw)
  }

  function ReviewCommand(policy: Policy, app: App, w: Waiting, decision: Decision, store: Store): App
    requires w.job.CommandJob?
  {
    match Append(policy, app, w.job.thread, Reviewed(decision), store.reviewed)
    case None => End(app, w, true, Threw)
    case Some(noted) =>
      if Stale(noted, w) then End(noted, w, true, Denied)
      else if decision != Reject && (decision != AllowAlways || policy.grantable(w.job.prefix))
      then DecideCommand(policy, noted, w, decision, store.decided, store.granted)
      else AskUser(policy, noted, w, true, store.decided)
  }

  /** Which of the appends of one continuation the store completes. */
  datatype Store = Store(reviewed: bool, decided: bool, granted: bool)

  // ---- Catalog tools ----

  function BeginTool(policy: Policy, app: App, job: Job): App
    requires job.ToolJob?
  {
    var w := Waiting(job, job.mode, false);
    if job.signal in app.aborted || job.thread != app.thread then End(app, w, false, Denied)
    else if job.toolThread !in app.journal || Recover(policy, app.journal[job.toolThread]).None? then
      End(app, w, false, Threw)
    else if job.key in RecoverTools(app.journal[job.toolThread]) || job.mode == Unrestricted then
      End(app, w, false, Allowed)
    else if job.mode == AutoApprove then app.(waiting := Some(w))
    else if Stale(app, w) then End(app, w, false, Denied)
    else app.(waiting := Some(w.(forUser := true)))
  }

  function DecideTool(policy: Policy, app: App, w: Waiting, decision: Decision, store: Store): App
    requires w.job.ToolJob?
  {
    if Stale(app, w) then End(app, w, true, Denied)
    else match Append(policy, app, w.job.toolThread, Decided(decision), store.decided)
      case None => End(app, w, true, Threw)
      case Some(noted) =>
        if decision == Reject then End(noted, w, true, Denied)
        else if decision == AllowOnce then End(noted, w, true, Allowed)
        else match Append(policy, noted, w.job.toolThread, ToolGranted(w.job.key), store.granted)
          case None => End(noted, w, true, Threw)
          case Some(kept) =>
            var here := w.job.toolThread == kept.thread;
            End(kept.(tools := if here then AddKey(kept.tools, w.job.key) else kept.tools,
                      dirty := kept.dirty || here), w, true, Allowed)
  }

  function ReviewTool(policy: Policy, app: App, w: Waiting, decision: Decision, store: Store): App
    requires w.job.ToolJob?
  {
    match Append(policy, app, w.job.toolThread, Reviewed(decision), store.reviewed)
    case None => End(app, w, true, Threw)
    case Some(noted) =>
      if Stale(noted, w) then End(noted, w, true, Denied)
      else if decision == Reject then noted.(waiting := Some(w.(forUser := true)))
      else DecideTool(policy, noted, w, decision, store)
  }

  /** The tool menu was left without a choice. */
  function LeaveTool(policy: Policy, app: App, w: Waiting, store: Store): App
    requires w.job.ToolJob?
  {
    match Append(policy, app, w.job.toolThread, UserRequired, store.decided)
    case None => End(app, w, true, Threw)
    case Some(noted) => End(noted, w, true, Denied)
  }

  // ---- Everything that can happen ----

  datatype Step =
    | Request(job: Job)
    | Begin(stored: bool)
    | ReviewEnds(decision: Decision, store: Store)
    | UserAnswers(answer: Option<Decision>, store: Store)
    | Fails
    | ChangeMode(mode: Mode)
    | SwitchThread(thread: ThreadId)
    | Revoke(index: nat, stored: bool)
    | Abort(signal: nat)

  function SwitchTo(policy: Policy, app: App, thread: ThreadId): App {
    match Recover(policy, Entries(app, thread))
    case None => app
    case Some(list) =>
      app.(thread := thread, prefixes := list, tools := RecoverTools(Entries(app, thread)),
           journal := app.journal[thread := Entries(app, thread)])
  }

  function RevokeAt(policy: Policy, app: App, index: nat, stored: bool): App {
    if index >= |app.prefixes| then app
    else
      var prefix := app.prefixes[index];
      match policy.normal(prefix)
      case None => app
      case Some(p) =>
        match Append(policy, app, app.thread, PrefixRevoked(p), stored)
        case None => app
        case Some(noted) => noted.(prefixes := Without(app.prefixes, prefix), dirty := true)
  }

  function Next(policy: Policy, app: App, step: Step): App {
    match step
    case Request(job) => app.(queue := app.queue + [job])
    case Begin(stored) =>
      if app.waiting.Some? || |app.queue| == 0 then app
      else
        var job := app.queue[0];
        var started := app.(queue := app.queue[1..]);
        if job.CommandJob? then BeginCommand(policy, started, job, stored) else BeginTool(policy, started, job)
    case ReviewEnds(decision, store) =>
      if app.waiting.None? || app.waiting.value.forUser then app
      else
        var w := app.waiting.value;
        if w.job.CommandJob? then ReviewCommand(policy, app, w, decision, store)
        else ReviewTool(policy, app, w, decision, store)
    case UserAnswers(answer, store) =>
      if app.waiting.None? || !app.waiting.value.forUser then app
      else
        var w := app.waiting.value;
        if w.job.CommandJob? then
          (match answer
           case Some(d) => DecideCommand(policy, app, w, d, store.decided, store.granted)
           case None => End(app, w, true, Threw))
        else
          (match answer
           case Some(d) => DecideTool(policy, app, w, d, store)
           case None => LeaveTool(policy, app, w, store))
    case Fails => if app.waiting.None? then app else End(app, app.waiting.value, true, Threw)
    case ChangeMode(mode) => app.(mode := mode)
    case SwitchThread(thread) => SwitchTo(policy, app, thread)
    case Revoke(index, stored) => RevokeAt(policy, app, index, stored)
    case Abort(signal) => app.(aborted := app.aborted + {signal})
  }

  function Run(policy: Policy, app: App, steps: seq<Step>): App {
    if |steps| == 0 then app else Next(policy, Run(policy, app, steps[..|steps| - 1]), steps[|steps| - 1])
  }

  function NewApp(thread: ThreadId, mode: Mode): App {
    App(thread, mode, [], [], false, map[thread := []], {}, [], None, [])
  }

  // ---- What holds at every await ----

  ghost predicate SameSet(a: seq<Prefix>, b: seq<Prefix>) {
    forall p :: p in a <==> p in b
  }

  /** Recovery of a thread succeeds, with a clean list. */
  predicate Recovers(policy: Policy, entries: seq<Entry>) {
    Recover(policy, entries).Some? && Clean(policy, Recover(policy, entries).value)
  }

  /** The grants in memory are those of the thread's journal. */
  ghost predicate GrantsMatch(policy: Policy, app: App) {
    && app.thread in app.journal
    && (forall t :: t in app.journal ==> Recovers(policy, app.journal[t]))
    && Clean(policy, app.prefixes)
    && SameSet(app.prefixes, Recover(policy, app.journal[app.thread]).value)
    && app.tools == RecoverTools(app.journal[app.thread])
  }

  /** An approval that had to ask only succeeds where it began, and not after an abort. */
  predicate Sound(v: Verdict) {
    v.outcome == Allowed && v.asked ==> v.endThread == v.job.thread && v.endMode == v.mode && !v.aborted
  }

  ghost predicate Inv(policy: Policy, app: App) {
    GrantsMatch(policy, app) && forall v :: v in app.verdicts ==> Sound(v)
  }

  lemma GrantAdds(policy: Policy, list: seq<Prefix>, prefix: Prefix)
    requires PolicyOk(policy) && Clean(policy, list) && Grant(policy, list, prefix).Some?
    ensures policy.normal(prefix).Some?
    ensures var p := policy.normal(prefix).value;
            var granted := Grant(policy, list, prefix).value;
            && Clean(policy, granted) && SameSet(granted, list + [p])
            && policy.normal(p) == Some(p)
  {
    ValidateClean(policy, list);
    var p := policy.normal(prefix).value;
    if p !in list {
      SnocDistinct(list, p);
    }
  }

  /** Folding an accepted grant: the same set as granting it, perhaps in another order. */
  lemma FoldGranted(policy: Policy, list: seq<Prefix>, p: Prefix)
    requires Clean(policy, list) && policy.normal(p) == Some(p) && Grant(policy, list, p).Some?
    ensures var folded := Fold(policy, list, PrefixGranted(p));
            folded.Some? && Clean(policy, folded.value) && SameSet(folded.value, list + [p])
  {
    ValidateClean(policy, list);
    var rest := Without(list, p);
    WithoutKeepsDistinct(list, p);
    SnocDistinct(rest, p);
    assert |rest + [p]| <= MAX_PREFIXES;
    ValidateClean(policy, rest + [p]);
  }

  lemma FoldRevoked(policy: Policy, list: seq<Prefix>, p: Prefix)
    requires Clean(policy, list) && policy.normal(p) == Some(p)
    ensures var folded := Fold(policy, list, PrefixRevoked(p));
            folded == Some(Without(list, p)) && Clean(policy, folded.value)
  {
    WithoutNormalOfClean(policy, list, p);
    WithoutKeepsDistinct(list, p);
  }

  lemma RecoverSnoc(policy: Policy, entries: seq<Entry>, e: Entry)
    requires Recover(policy, entries).Some?
    ensures Recover(policy, entries + [e]) == Fold(policy, Recover(policy, entries).value, e)
    ensures RecoverTools(entries + [e]) ==
            if e.ToolGranted? then AddKey(RecoverTools(entries), e.key) else RecoverTools(entries)
  {
    assert (entries + [e])[..|entries|] == entries;
  }

  /** An entry that says nothing about grants. */
  predicate Neutral(e: Entry) {
    e.Reviewed? || e.Decided? || e.UserRequired?
  }

  lemma AppendNeutral(policy: Policy, app: App, thread: ThreadId, e: Entry, stored: bool)
    requires GrantsMatch(policy, app) && Neutral(e)
    ensures match Append(policy, app, thread, e, stored)
            case Some(noted) => GrantsMatch(policy, noted) && noted == app.(journal := noted.journal)
            case None => true
  {
    hide Grant, Validate;
    RecoverSnoc(policy, Entries(app, thread), e);
  }

  lemma AppendGrant(policy: Policy, app: App, prefix: Prefix, stored: bool)
    requires PolicyOk(policy) && GrantsMatch(policy, app) && Grant(policy, app.prefixes, prefix).Some?
    ensures policy.normal(prefix).Some?
    ensures match Append(policy, app, app.thread, PrefixGranted(policy.normal(prefix).value), stored)
            case Some(kept) =>
              && kept == app.(journal := kept.journal)
              && GrantsMatch(policy, kept.(prefixes := Grant(policy, app.prefixes, prefix).value, dirty := true))
            case None => true
  {
    hide Grant, Validate, Clean, Fold;
    GrantAdds(policy, app.prefixes, prefix);
    var p := policy.normal(prefix).value;
    var entries := app.journal[app.thread];
    var e := PrefixGranted(p);
    if stored && Acceptable(policy, entries, e) {
      var list := Recover(policy, entries).value;
      FoldGranted(policy, list, p);
      RecoverSnoc(policy, entries, e);
    }
  }

  lemma AppendTool(policy: Policy, app: App, thread: ThreadId, key: string, stored: bool)
    requires GrantsMatch(policy, app)
    ensures match Append(policy, app, thread, ToolGranted(key), stored)
            case Some(kept) =>
              && kept == app.(journal := kept.journal)
              && GrantsMatch(policy, kept.(tools := if thread == app.thread then AddKey(app.tools, key) else app.tools,
                                           dirty := kept.dirty || thread == app.thread))
            case None => true
  {
    hide Grant, Validate;
    RecoverSnoc(policy, Entries(app, thread), ToolGranted(key));
  }

  lemma RevokeKeeps(policy: Policy, app: App, index: nat, stored: bool)
    requires GrantsMatch(policy, app)
    ensures GrantsMatch(policy, RevokeAt(policy, app, index, stored))
    ensures RevokeAt(policy, app, index, stored).verdicts == app.verdicts
  {
    hide Grant, Validate, Fold;
    if index < |app.prefixes| {
      var p := app.prefixes[index];
      var entries := app.journal[app.thread];
      assert p in app.prefixes && policy.normal(p) == Some(p);
      RecoverSnoc(policy, entries, PrefixRevoked(p));
      FoldRevoked(policy, Recover(policy, entries).value, p);
      WithoutKeepsDistinct(app.prefixes, p);
    }
  }

  lemma SwitchKeeps(policy: Policy, app: App, thread: ThreadId)
    requires GrantsMatch(policy, app)
    ensures GrantsMatch(policy, SwitchTo(policy, app, thread))
    ensures SwitchTo(policy, app, thread).verdicts == app.verdicts
  {}

  lemma EndKeeps(policy: Policy, app: App, w: Waiting, asked: bool, outcome: Outcome)
    requires Inv(policy, app) && (outcome == Allowed && asked ==> !Stale(app, w))
    ensures Inv(policy, End(app, w, asked, outcome))
  {
    hide Clean, Recovers;
  }

  lemma AskUserKeeps(policy: Policy, app: App, w: Waiting, asked: bool, stored: bool)
    requires Inv(policy, app) && w.job.CommandJob?
    ensures Inv(policy, AskUser(policy, app, w, asked, stored))
  {
    hide Clean, Recovers, Append;
    AppendNeutral(policy, app, app.thread, UserRequired, stored);
    if !w.job.mayPrompt {
      match Append(policy, app, app.thread, UserRequired, stored)
      case Some(noted) => EndKeeps(policy, noted, w, asked, Threw);
      case None => EndKeeps(policy, app, w, asked, Threw);
    }
  }

  lemma BeginCommandKeeps(policy: Policy, app: App, job: Job, stored: bool)
    requires Inv(policy, app) && job.CommandJob?
    ensures Inv(policy, BeginCommand(policy, app, job, stored))
  {
    hide Clean, Recovers, Append, IsGranted, End, AskUser;
    var w := Waiting(job, app.mode, false);
    EndKeeps(policy, app, w, false, Allowed);
    EndKeeps(policy, app, w, false, Denied);
    EndKeeps(policy, app, w, false, Threw);
    AskUserKeeps(policy, app, w, false, stored);
  }

  lemma DecideCommandKeeps(policy: Policy, app: App, w: Waiting, decision: Decision, stored: bool, granted: bool)
    requires PolicyOk(policy) && Inv(policy, app) && w.job.CommandJob?
    ensures Inv(policy, DecideCommand(policy, app, w, decision, stored, granted))
  {
    hide PolicyOk, GrantsMatch, Append, Grant, End;
    EndKeeps(policy, app, w, true, Denied);
    EndKeeps(policy, app, w, true, Threw);
    AppendNeutral(policy, app, w.job.thread, Decided(decision), stored);
    if !Stale(app, w) {
      match Append(policy, app, w.job.thread, Decided(decision), stored)
      case None =>
      case Some(noted) =>
        EndKeeps(policy, noted, w, true, Denied);
        EndKeeps(policy, noted, w, true, Threw);
        EndKeeps(policy, noted, w, true, Allowed);
        if Grant(policy, noted.prefixes, w.job.prefix).Some? {
          AppendGrant(policy, noted, w.job.prefix, granted);
          match Append(policy, noted, noted.thread, PrefixGranted(policy.normal(w.job.prefix).value), granted)
          case None =>
          case Some(kept) =>
            EndKeeps(policy, kept.(prefixes := Grant(policy, noted.prefixes, w.job.prefix).value, dirty := true), w,
                     true, Allowed);
        }
    }
  }

  lemma ReviewCommandKeeps(policy: Policy, app: App, w: Waiting, decision: Decision, store: Store)
    requires PolicyOk(policy) && Inv(policy, app) && w.job.CommandJob?
    ensures Inv(policy, ReviewCommand(policy, app, w, decision, store))
  {
    hide PolicyOk, GrantsMatch, Append, End, DecideCommand, AskUser;
    EndKeeps(policy, app, w, true, Threw);
    AppendNeutral(policy, app, w.job.thread, Reviewed(decision), store.reviewed);
    match Append(policy, app, w.job.thread, Reviewed(decision), store.reviewed)
    case None =>
    case Some(noted) =>
      EndKeeps(policy, noted, w, true, Denied);
      DecideCommandKeeps(policy, noted, w, decision, store.decided, store.granted);
      AskUserKeeps(policy, noted, w, true, store.decided);
  }

  lemma BeginToolKeeps(policy: Policy, app: App, job: Job)
    requires Inv(policy, app) && job.ToolJob?
    ensures Inv(policy, BeginTool(policy, app, job))
  {
    hide GrantsMatch, Recover, RecoverTools;
    var w := Waiting(job, job.mode, false);
    EndKeeps(policy, app, w, false, Allowed);
    EndKeeps(policy, app, w, false, Denied);
    EndKeeps(policy, app, w, false, Threw);
    assert GrantsMatch(policy, app.(waiting := Some(w))) by { WaitingIsNoGrant(policy, app, w); }
    var prompted := w.(forUser := true);
    assert GrantsMatch(policy, app.(waiting := Some(prompted))) by { WaitingIsNoGrant(policy, app, prompted); }
  }

  lemma WaitingIsNoGrant(policy: Policy, app: App, w: Waiting)
    requires GrantsMatch(policy, app)
    ensures GrantsMatch(policy, app.(waiting := Some(w)))
  {
    hide Clean, Recovers;
  }

  lemma DecideToolKeeps(policy: Policy, app: App, w: Waiting, decision: Decision, store: Store)
    requires Inv(policy, app) && w.job.ToolJob?
    ensures Inv(policy, DecideTool(policy, app, w, decision, store))
  {
    hide GrantsMatch, Append, End;
    EndKeeps(policy, app, w, true, Denied);
    EndKeeps(policy, app, w, true, Threw);
    AppendNeutral(policy, app, w.job.toolThread, Decided(decision), store.decided);
    if !Stale(app, w) {
      match Append(policy, app, w.job.toolThread, Decided(decision), store.decided)
      case None =>
      case Some(noted) =>
        EndKeeps(policy, noted, w, true, Denied);
        EndKeeps(policy, noted, w, true, Threw);
        EndKeeps(policy, noted, w, true, Allowed);
        AppendTool(policy, noted, w.job.toolThread, w.job.key, store.granted);
        match Append(policy, noted, w.job.toolThread, ToolGranted(w.job.key), store.granted)
        case None =>
        case Some(kept) =>
          var here := w.job.toolThread == kept.thread;
          EndKeeps(policy, kept.(tools := if here then AddKey(kept.tools, w.job.key) else kept.tools,
                                 dirty := kept.dirty || here), w, true, Allowed);
    }
  }

  lemma ReviewToolKeeps(policy: Policy, app: App, w: Waiting, decision: Decision, store: Store)
    requires Inv(policy, app) && w.job.ToolJob?
    ensures Inv(policy, ReviewTool(policy, app, w, decision, store))
  {
    hide GrantsMatch, Append, End, DecideTool;
    EndKeeps(policy, app, w, true, Threw);
    AppendNeutral(policy, app, w.job.toolThread, Reviewed(decision), store.reviewed);
    match Append(policy, app, w.job.toolThread, Reviewed(decision), store.reviewed)
    case None =>
    case Some(noted) =>
      EndKeeps(policy, noted, w, true, Denied);
      WaitingIsNoGrant(policy, noted, w.(forUser := true));
      DecideToolKeeps(policy, noted, w, decision, store);
  }

  lemma LeaveToolKeeps(policy: Policy, app: App, w: Waiting, store: Store)
    requires Inv(policy, app) && w.job.ToolJob?
    ensures Inv(policy, LeaveTool(policy, app, w, store))
  {
    hide GrantsMatch, Append, End;
    EndKeeps(policy, app, w, true, Threw);
    AppendNeutral(policy, app, w.job.toolThread, UserRequired, store.decided);
    match Append(policy, app, w.job.toolThread, UserRequired, store.decided)
    case None =>
    case Some(noted) => EndKeeps(policy, noted, w, true, Denied);
  }

  /** Fields that have nothing to do with grants. */
  lemma OtherFields(policy: Policy, app: App, other: App)
    requires GrantsMatch(policy, app)
    requires other == app.(mode := other.mode, aborted := other.aborted, queue := other.queue)
    ensures GrantsMatch(policy, other)
  {
    hide Clean, Recovers;
  }

  lemma NextKeeps(policy: Policy, app: App, step: Step)
    requires PolicyOk(policy) && Inv(policy, app)
    ensures Inv(policy, Next(policy, app, step))
  {
    hide PolicyOk, GrantsMatch, BeginCommand, BeginTool, ReviewCommand, ReviewTool, DecideCommand, DecideTool,
      LeaveTool, SwitchTo, RevokeAt, End;
    match step
    case Request(job) => OtherFields(policy, app, app.(queue := app.queue + [job]));
    case Begin(stored) =>
      if app.waiting.None? && |app.queue| > 0 {
        var started := app.(queue := app.queue[1..]);
        OtherFields(policy, app, started);
        var job := app.queue[0];
        if job.CommandJob? {
          BeginCommandKeeps(policy, started, job, stored);
        } else {
          BeginToolKeeps(policy, started, job);
        }
      }
    case ReviewEnds(decision, store) =>
      if app.waiting.Some? && !app.waiting.value.forUser {
        if app.waiting.value.job.CommandJob? {
          ReviewCommandKeeps(policy, app, app.waiting.value, decision, store);
        } else {
          ReviewToolKeeps(policy, app, app.waiting.value, decision, store);
        }
      }
    case UserAnswers(answer, store) =>
      if app.waiting.Some? && app.waiting.value.forUser {
        var w := app.waiting.value;
        EndKeeps(policy, app, w, true, Threw);
        if w.job.CommandJob? {
          if answer.Some? {
            DecideCommandKeeps(policy, app, w, answer.value, store.decided, store.granted);
          }
        } else if answer.Some? {
          DecideToolKeeps(policy, app, w, answer.value, store);
        } else {
          LeaveToolKeeps(policy, app, w, store);
        }
      }
    case Fails =>
      if app.waiting.Some? {
        EndKeeps(policy, app, app.waiting.value, true, Threw);
      }
    case ChangeMode(mode) => OtherFields(policy, app, app.(mode := mode));
    case SwitchThread(thread) => SwitchKeeps(policy, app, thread);
    case Revoke(index, stored) => RevokeKeeps(policy, app, index, stored);
    case Abort(signal) => OtherFields(policy, app, app.(aborted := app.aborted + {signal}));
  }

  // ---- The main results ----

  lemma {:induction false} RunKeeps(policy: Policy, app: App, steps: seq<Step>)
    requires PolicyOk(policy) && Inv(policy, app)
    ensures Inv(policy, Run(policy, app, steps))
  {
    hide PolicyOk, Inv, Next;
    if |steps| > 0 {
      RunKeeps(policy, app, steps[..|steps| - 1]);
      NextKeeps(policy, Run(policy, app, steps[..|steps| - 1]), steps[|steps| - 1]);
    }
  }

  lemma NewAppOk(policy: Policy, thread: ThreadId, mode: Mode)
    ensures Inv(policy, NewApp(thread, mode))
  {
    assert Recover(policy, []) == Some([]);
  }

  /** At every await of every run the thread recovers to exactly the grants in memory. */
  lemma MemoryIsTheJournal(policy: Policy, thread: ThreadId, mode: Mode, steps: seq<Step>)
    requires PolicyOk(policy)
    ensures var app := Run(policy, NewApp(thread, mode), steps);
            && app.thread in app.journal && Recover(policy, app.journal[app.thread]).Some?
            && (forall p :: p in app.prefixes <==> p in Recover(policy, app.journal[app.thread]).value)
            && NoDuplicates(app.prefixes) && |app.prefixes| <= MAX_PREFIXES
            && app.tools == RecoverTools(app.journal[app.thread])
  {
    hide PolicyOk, Run;
    NewAppOk(policy, thread, mode);
    RunKeeps(policy, NewApp(thread, mode), steps);
  }

  /**
   An approval that needed a review or an answer succeeds only in the thread and mode it began in,
   without an abort.
   */
  lemma ApprovalsDoNotOutliveTheirContext(policy: Policy, thread: ThreadId, mode: Mode, steps: seq<Step>, v: Verdict)
    requires PolicyOk(policy) && v in Run(policy, NewApp(thread, mode), steps).verdicts
    requires v.outcome == Allowed && v.asked
    ensures v.endThread == v.job.thread && v.endMode == v.mode && !v.aborted
  {
    hide PolicyOk, Run;
    NewAppOk(policy, thread, mode);
    RunKeeps(policy, NewApp(thread, mode), steps);
  }

  // ---- The same, read off the run alone ----

  /** The approval that waits began at step `b`: it was the head of the queue, in its own thread, and not aborted. */
  ghost predicate BeganAt(policy: Policy, start: App, steps: seq<Step>, b: int, w: Waiting) {
    && 0 <= b < |steps| && steps[b].Begin?
    && var atStart := Run(policy, start, steps[..b]);
       && atStart.waiting.None? && |atStart.queue| > 0 && atStart.queue[0] == w.job
       && atStart.thread == w.job.thread && w.job.signal !in atStart.aborted
       && w.mode == (if w.job.CommandJob? then atStart.mode else w.job.mode)
  }

  lemma BeginWaits(policy: Policy, app: App, stored: bool)
    requires app.waiting.None? && Next(policy, app, Begin(stored)).waiting.Some?
    ensures var w := Next(policy, app, Begin(stored)).waiting.value;
            && |app.queue| > 0 && app.queue[0] == w.job && app.thread == w.job.thread && w.job.signal !in app.aborted
            && w.mode == (if w.job.CommandJob? then app.mode else w.job.mode)
  {
    hide IsGranted, Recover, RecoverTools;
  }

  /** The job and the mode of a waiting approval stay those it began with. */
  predicate StillWaits(w: Waiting, after: App) {
    after.waiting.Some? ==> after.waiting.value.job == w.job && after.waiting.value.mode == w.mode
  }

  lemma ReviewsKeepTheJob(policy: Policy, app: App, w: Waiting, decision: Decision, store: Store)
    ensures w.job.CommandJob? ==> StillWaits(w, ReviewCommand(policy, app, w, decision, store))
    ensures w.job.ToolJob? ==> StillWaits(w, ReviewTool(policy, app, w, decision, store))
  {
    hide Acceptable, Grant, AddKey;
  }

  lemma DecisionsKeepTheJob(policy: Policy, app: App, w: Waiting, decision: Decision, store: Store)
    ensures StillWaits(w, Decide(policy, app, w, decision, store))
    ensures w.job.ToolJob? ==> StillWaits(w, LeaveTool(policy, app, w, store))
  {
    hide Acceptable, Grant, AddKey;
  }

  lemma OnlyBeginStarts(policy: Policy, app: App, step: Step)
    requires Next(policy, app, step).waiting.Some?
    ensures app.waiting.None? ==> step.Begin?
    ensures app.waiting.Some? ==> StillWaits(app.waiting.value, Next(policy, app, step))
  {
    hide Acceptable, Recover, RecoverTools, ReviewCommand, ReviewTool, DecideCommand, DecideTool, LeaveTool,
      BeginCommand, BeginTool;
    if app.waiting.Some? {
      match step
      case ReviewEnds(decision, store) => ReviewsKeepTheJob(policy, app, app.waiting.value, decision, store);
      case UserAnswers(answer, store) =>
        DecisionsKeepTheJob(policy, app, app.waiting.value, if answer.Some? then answer.value else Reject, store);
      case _ =>
    }
  }

  lemma {:induction false} WaitingBegan(policy: Policy, start: App, steps: seq<Step>)
    requires start.waiting.None? && Run(policy, start, steps).waiting.Some?
    ensures exists b :: BeganAt(policy, start, steps, b, Run(policy, start, steps).waiting.value)
  {
    hide Next;
    if |steps| > 0 {
      var n := |steps| - 1;
      var before := steps[..n];
      var app := Run(policy, start, before);
      OnlyBeginStarts(policy, app, steps[n]);
      var w := Run(policy, start, steps).waiting.value;
      if app.waiting.Some? {
        WaitingBegan(policy, start, before);
        var b :| BeganAt(policy, start, before, b, app.waiting.value);
        assert steps[..b] == before[..b];
        assert BeganAt(policy, start, steps, b, w);
      } else {
        BeginWaits(policy, app, steps[n].stored);
        assert BeganAt(policy, start, steps, n, w);
      }
    }
  }

  function JournalOf(job: Job): ThreadId {
    if job.CommandJob? then job.thread else job.toolThread
  }

  /** The approval that waits has just been allowed. */
  predicate AllowedNow(app: App, after: App) {
    && app.waiting.Some? && |after.verdicts| > |app.verdicts|
    && after.verdicts[|after.verdicts| - 1].outcome == Allowed
  }

  /** A decision that allows it stands at or after position `n` of the journal. */
  ghost predicate DecidedSince(entries: seq<Entry>, n: int) {
    exists i :: n <= i < |entries| && i >= 0 && entries[i].Decided? && entries[i].decision != Reject
  }

  lemma AppendGrows(policy: Policy, app: App, thread: ThreadId, e: Entry, stored: bool)
    ensures match Append(policy, app, thread, e, stored)
            case Some(noted) =>
              && Entries(noted, thread) == Entries(app, thread) + [e]
              && noted == app.(journal := noted.journal)
            case None => true
  {}

  lemma CommandDecisionIsRecorded(policy: Policy, app: App, w: Waiting, decision: Decision, store: Store)
    requires app.waiting == Some(w) && w.job.CommandJob?
    requires AllowedNow(app, DecideCommand(policy, app, w, decision, store.decided, store.granted))
    ensures !Stale(app, w)
    ensures var after := DecideCommand(policy, app, w, decision, store.decided, store.granted);
            DecidedSince(Entries(after, w.job.thread), |Entries(app, w.job.thread)|)
  {
    hide Grant, Acceptable;
    var n := |Entries(app, w.job.thread)|;
    var after := DecideCommand(policy, app, w, decision, store.decided, store.granted);
    assert n < |Entries(after, w.job.thread)| && Entries(after, w.job.thread)[n] == Decided(decision);
  }

  lemma ToolDecisionIsRecorded(policy: Policy, app: App, w: Waiting, decision: Decision, store: Store)
    requires app.waiting == Some(w) && w.job.ToolJob?
    requires AllowedNow(app, DecideTool(policy, app, w, decision, store))
    ensures !Stale(app, w)
    ensures DecidedSince(Entries(DecideTool(policy, app, w, decision, store), w.job.toolThread),
                         |Entries(app, w.job.toolThread)|)
  {
    hide Acceptable, AddKey;
    var n := |Entries(app, w.job.toolThread)|;
    var after := DecideTool(policy, app, w, decision, store);
    assert n < |Entries(after, w.job.toolThread)| && Entries(after, w.job.toolThread)[n] == Decided(decision);
  }

  lemma DecisionIsRecorded(policy: Policy, app: App, w: Waiting, decision: Decision, store: Store)
    requires app.waiting == Some(w)
    requires AllowedNow(app, Decide(policy, app, w, decision, store))
    ensures !Stale(app, w)
    ensures DecidedSince(Entries(Decide(policy, app, w, decision, store), JournalOf(w.job)),
                         |Entries(app, JournalOf(w.job))|)
  {
    hide DecideCommand, DecideTool, AllowedNow, DecidedSince;
    if w.job.CommandJob? {
      CommandDecisionIsRecorded(policy, app, w, decision, store);
    } else {
      ToolDecisionIsRecorded(policy, app, w, decision, store);
    }
  }

  function Decide(policy: Policy, app: App, w: Waiting, decision: Decision, store: Store): App {
    if w.job.CommandJob? then DecideCommand(policy, app, w, decision, store.decided, store.granted)
    else DecideTool(policy, app, w, decision, store)
  }

  lemma AllowedIsFresh(policy: Policy, app: App, step: Step)
    requires AllowedNow(app, Next(policy, app, step))
    ensures !Stale(app, app.waiting.value)
    ensures DecidedSince(Entries(Next(policy, app, step), JournalOf(app.waiting.value.job)),
                         |Entries(app, JournalOf(app.waiting.value.job))|)
  {
    hide DecideCommand, DecideTool, Grant, Recover, Acceptable, DecidedSince;
    var w := app.waiting.value;
    match step
    case ReviewEnds(decision, store) =>
      var thread := JournalOf(w.job);
      AppendGrows(policy, app, thread, Reviewed(decision), store.reviewed);
      match Append(policy, app, thread, Reviewed(decision), store.reviewed) {
        case None =>
        case Some(noted) =>
          if !Stale(noted, w) {
            DecisionIsRecorded(policy, noted, w, decision, store);
          }
          DecidedLater(Entries(Next(policy, app, step), thread), |Entries(noted, thread)|, |Entries(app, thread)|);
      }
    case UserAnswers(answer, store) =>
      if answer.Some? {
        DecisionIsRecorded(policy, app, w, answer.value, store);
      }
    case _ =>
  }

  lemma DecidedLater(entries: seq<Entry>, m: int, n: int)
    requires n <= m
    ensures DecidedSince(entries, m) ==> DecidedSince(entries, n)
  {}

  /**
   When an approval that asked is allowed, the app is in the thread and mode the
   approval began in, the signal is not aborted, and the decision is in the journal.
   */
  lemma AllowedWhereItBegan(policy: Policy, thread: ThreadId, mode: Mode, steps: seq<Step>, step: Step)
    requires var start := NewApp(thread, mode);
             AllowedNow(Run(policy, start, steps), Run(policy, start, steps + [step]))
    ensures var start := NewApp(thread, mode);
            var now := Run(policy, start, steps);
            var w := now.waiting.value;
            && (exists b :: && BeganAt(policy, start, steps, b, w)
                            && now.thread == Run(policy, start, steps[..b]).thread
                            && (w.job.CommandJob? ==> now.mode == Run(policy, start, steps[..b]).mode))
            && (w.job.ToolJob? ==> now.mode == w.job.mode)
            && w.job.signal !in now.aborted
            && DecidedSince(Entries(Run(policy, start, steps + [step]), JournalOf(w.job)),
                            |Entries(now, JournalOf(w.job))|)
  {
    hide Next;
    var start := NewApp(thread, mode);
    var now := Run(policy, start, steps);
    assert (steps + [step])[..|steps|] == steps;
    WaitingBegan(policy, start, steps);
    AllowedIsFresh(policy, now, step);
    var b :| BeganAt(policy, start, steps, b, now.waiting.value);
    assert now.thread == Run(policy, start, steps[..b]).thread;
  }

  /** A grant is in the journal before the command may run. */
  lemma GrantIsDurableFirst(policy: Policy, app: App, w: Waiting, store: Store)
    requires app.waiting == Some(w) && w.job.CommandJob?
    requires AllowedNow(app, DecideCommand(policy, app, w, AllowAlways, store.decided, store.granted))
    ensures store.decided && store.granted && policy.normal(w.job.prefix).Some?
    ensures var after := DecideCommand(policy, app, w, AllowAlways, store.decided, store.granted);
            && Entries(after, app.thread) == Entries(app, app.thread) +
                 [Decided(AllowAlways), PrefixGranted(policy.normal(w.job.prefix).value)]
            && Some(after.prefixes) == Grant(policy, app.prefixes, w.job.prefix)
  {
    hide Grant, Acceptable;
  }

  /** Unless the command is allowed, no grant reaches memory. */
  lemma FailedGrantChangesNothing(policy: Policy, app: App, w: Waiting, store: Store)
    requires app.waiting == Some(w) && w.job.CommandJob?
    requires !AllowedNow(app, DecideCommand(policy, app, w, AllowAlways, store.decided, store.granted))
    ensures var after := DecideCommand(policy, app, w, AllowAlways, store.decided, store.granted);
            after.prefixes == app.prefixes && after.tools == app.tools && after.dirty == app.dirty
  {
    hide Grant, Acceptable;
  }

  /** The command that waited is allowed, and the journal has gained its decision and this grant, in this order. */
  ghost predicate GrantedBy(policy: Policy, app: App, after: App, prefix: Prefix) {
    && AllowedNow(app, after) && app.waiting.value.job.CommandJob?
    && policy.normal(app.waiting.value.job.prefix) == Some(prefix)
    && var earlier, later := Entries(app, app.thread), Entries(after, app.thread);
       && earlier <= later && |later| >= |earlier| + 2
       && later[|later| - 2..] == [Decided(AllowAlways), PrefixGranted(prefix)]
  }

  lemma DecisionGrants(policy: Policy, app: App, w: Waiting, decision: Decision, store: Store, prefix: Prefix)
    requires PolicyOk(policy) && Clean(policy, app.prefixes)
    requires app.waiting == Some(w) && w.job.CommandJob? && prefix !in app.prefixes
    requires prefix in DecideCommand(policy, app, w, decision, store.decided, store.granted).prefixes
    ensures GrantedBy(policy, app, DecideCommand(policy, app, w, decision, store.decided, store.granted), prefix)
  {
    var after := DecideCommand(policy, app, w, decision, store.decided, store.granted);
    if decision == AllowAlways {
      if AllowedNow(app, after) {
        GrantIsDurableFirst(policy, app, w, store);
        GrantAdds(policy, app.prefixes, w.job.prefix);
      } else {
        FailedGrantChangesNothing(policy, app, w, store);
      }
      hide DecideCommand, AllowedNow, PolicyOk, Clean, Grant;
    } else {
      hide Grant, Acceptable;
    }
  }

  lemma ReviewGrants(policy: Policy, app: App, w: Waiting, decision: Decision, store: Store, prefix: Prefix)
    requires PolicyOk(policy) && Clean(policy, app.prefixes)
    requires app.waiting == Some(w) && w.job.CommandJob? && prefix !in app.prefixes
    requires prefix in ReviewCommand(policy, app, w, decision, store).prefixes
    ensures GrantedBy(policy, app, ReviewCommand(policy, app, w, decision, store), prefix)
  {
    hide DecideCommand, Acceptable, PolicyOk, Clean;
    AppendGrows(policy, app, w.job.thread, Reviewed(decision), store.reviewed);
    AppendGrows(policy, app, app.thread, UserRequired, store.decided);
    match Append(policy, app, w.job.thread, Reviewed(decision), store.reviewed)
    case None =>
    case Some(noted) =>
      AppendGrows(policy, noted, noted.thread, UserRequired, store.decided);
      hide Append;
      assert !Stale(noted, w);
      DecisionGrants(policy, noted, w, decision, store, prefix);
  }

  lemma ToolsGrantNoPrefix(policy: Policy, app: App, w: Waiting, decision: Decision, store: Store)
    requires w.job.ToolJob?
    ensures DecideTool(policy, app, w, decision, store).prefixes == app.prefixes
    ensures ReviewTool(policy, app, w, decision, store).prefixes == app.prefixes
    ensures LeaveTool(policy, app, w, store).prefixes == app.prefixes
  {
    hide Acceptable, AddKey;
  }

  lemma BeginGrantsNoPrefix(policy: Policy, app: App, job: Job, stored: bool)
    ensures job.CommandJob? ==> BeginCommand(policy, app, job, stored).prefixes == app.prefixes
    ensures job.ToolJob? ==> BeginTool(policy, app, job).prefixes == app.prefixes
  {
    hide Acceptable, IsGranted, Recover, RecoverTools;
  }

  lemma StepGrants(policy: Policy, app: App, step: Step, prefix: Prefix)
    requires PolicyOk(policy) && Inv(policy, app) && Next(policy, app, step).thread == app.thread
    requires prefix !in app.prefixes && prefix in Next(policy, app, step).prefixes
    ensures GrantedBy(policy, app, Next(policy, app, step), prefix)
  {
    hide DecideCommand, ReviewCommand, DecideTool, ReviewTool, LeaveTool, BeginCommand, BeginTool, GrantedBy, Recover,
      RecoverTools, Clean, Recovers, Acceptable, PolicyOk;
    match step
    case Begin(stored) =>
      if app.waiting.None? && |app.queue| > 0 {
        BeginGrantsNoPrefix(policy, app.(queue := app.queue[1..]), app.queue[0], stored);
      }
    case ReviewEnds(decision, store) =>
      if app.waiting.value.job.CommandJob? {
        ReviewGrants(policy, app, app.waiting.value, decision, store, prefix);
      } else {
        ToolsGrantNoPrefix(policy, app, app.waiting.value, decision, store);
      }
    case UserAnswers(answer, store) =>
      var w := app.waiting.value;
      if w.job.CommandJob? {
        DecisionGrants(policy, app, w, answer.value, store, prefix);
      } else {
        ToolsGrantNoPrefix(policy, app, w, if answer.Some? then answer.value else Reject, store);
      }
    case _ =>
  }

  /**
   In every run, memory gains a grant within a thread only in a step that allows
   the command asking for it, and in that step the thread's journal has gained
   the decision and then the grant: a grant that cannot be stored changes nothing.
   */
  lemma EveryGrantIsDurable(policy: Policy, thread: ThreadId, mode: Mode, steps: seq<Step>, step: Step, prefix: Prefix)
    requires PolicyOk(policy)
    requires var now := Run(policy, NewApp(thread, mode), steps);
             var after := Run(policy, NewApp(thread, mode), steps + [step]);
             now.thread == after.thread && prefix !in now.prefixes && prefix in after.prefixes
    ensures GrantedBy(policy, Run(policy, NewApp(thread, mode), steps),
                      Run(policy, NewApp(thread, mode), steps + [step]), prefix)
  {
    hide PolicyOk, Next, Inv, GrantedBy;
    NewAppOk(policy, thread, mode);
    RunKeeps(policy, NewApp(thread, mode), steps);
    assert (steps + [step])[..|steps|] == steps;
    StepGrants(policy, Run(policy, NewApp(thread, mode), steps), step, prefix);
  }

  /** A grant in the list covers the command. */
  ghost predicate Covered(policy: Policy, list: seq<Prefix>, prefix: Prefix) {
    policy.normal(prefix).Some? && exists g :: g in list && policy.covers(g, policy.normal(prefix).value)
  }

  lemma GrantedMeansCovered(policy: Policy, prefixes: seq<Prefix>, list: seq<Prefix>, prefix: Prefix)
    requires Clean(policy, prefixes) && SameSet(prefixes, list)
    ensures IsGranted(policy, prefixes, prefix) == Some(true) <==> Covered(policy, list, prefix)
  {
    ValidateClean(policy, prefixes);
    hide Validate, Clean;
  }

  /** An approval granted without asking rests on the mode or on a grant in the thread's journal. */
  lemma SilentApprovalsAreGranted(policy: Policy, app: App, job: Job, stored: bool)
    requires Inv(policy, app) && job.CommandJob? && app.waiting.None?
    requires var after := BeginCommand(policy, app, job, stored);
             |after.verdicts| > |app.verdicts| && after.verdicts[|app.verdicts|].outcome == Allowed
    ensures var list := Recover(policy, app.journal[app.thread]).value;
            || (app.mode == Unrestricted && !job.userOnly)
            || Covered(policy, list, job.prefix)
            || (job.networkPrefix.Some? && Covered(policy, list, job.networkPrefix.value))
  {
    hide IsGranted, Clean, Acceptable, Covered;
    var list := Recover(policy, app.journal[app.thread]).value;
    GrantedMeansCovered(policy, app.prefixes, list, job.prefix);
    if job.networkPrefix.Some? {
      GrantedMeansCovered(policy, app.prefixes, list, job.networkPrefix.value);
    }
  }

  // ---- The flow as written ----

  method ValidatePrefixes(policy: Policy, list: seq<Prefix>) returns (valid: Option<seq<Prefix>>)
    ensures valid == Validate(policy, list)
    ensures Clean(policy, list) ==> valid == Some(list)
  {
    if Clean(policy, list) {
      ValidateClean(policy, list);
    }
    if |list| > MAX_PREFIXES {
      return None;
    }
    var prefixes, rest := [], list;
    while |rest| > 0
      invariant Canonical(policy, rest, prefixes) == Canonical(policy, list, [])
      decreases |rest|
    {
      var normalized := policy.normal(rest[0]);
      if normalized.None? {
        return None;
      }
      if normalized.value !in prefixes {
        prefixes := prefixes + [normalized.value];
      }
      rest := rest[1..];
    }
    return Some(prefixes);
  }

  class Approvals {
    const policy: Policy
    var thread: ThreadId
    var mode: Mode
    var prefixes: seq<Prefix>
    var tools: seq<string>
    var dirty: bool
    var journal: map<ThreadId, seq<Entry>>
    var aborted: set<nat>
    var queue: seq<Job>
    var waiting: Option<Waiting>
    var verdicts: seq<Verdict>

    constructor (policy: Policy, thread: ThreadId, mode: Mode)
      ensures this.policy == policy && State() == NewApp(thread, mode)
      ensures PolicyOk(policy) ==> Inv(policy, State())
    {
      this.policy, this.thread, this.mode := policy, thread, mode;
      prefixes, tools, dirty, journal, aborted := [], [], false, map[thread := []], {};
      queue, waiting, verdicts := [], None, [];
      new;
      NewAppOk(policy, thread, mode);
    }

    ghost function State(): App
      reads this
    {
      App(thread, mode, prefixes, tools, dirty, journal, aborted, queue, waiting, verdicts)
    }

    method AppendEvent(target: ThreadId, e: Entry, stored: bool) returns (appended: bool)
      modifies this`journal
      ensures var noted := Append(policy, old(State()), target, e, stored);
              appended == noted.Some? && State() == if noted.Some? then noted.value else old(State())
    {
      var entries := if target in journal then journal[target] else [];
      appended := stored && Acceptable(policy, entries, e);
      if appended {
        journal := journal[target := entries + [e]];
      }
    }

    method Settle(w: Waiting, asked: bool, outcome: Outcome)
      modifies this`waiting, this`verdicts
      ensures State() == End(old(State()), w, asked, outcome)
    {
      waiting := None;
      verdicts := verdicts + [Verdict(w.job, outcome, asked, w.mode, thread, mode, w.job.signal in aborted)];
    }

    method PromptUser(w: Waiting, asked: bool, stored: bool)
      requires w.job.CommandJob?
      modifies this
      ensures State() == AskUser(policy, old(State()), w, asked, stored)
    {
      if w.job.mayPrompt {
        waiting := Some(w.(forUser := true));
        return;
      }
      var appended := AppendEvent(thread, UserRequired, stored);
      Settle(w, asked, Threw);
    }

    method ResolveToolApproval(job: Job, stored: bool)
      requires job.CommandJob?
      modifies this
      ensures State() == BeginCommand(policy, old(State()), job, stored)
    {
      hide IsGranted;
      var w := Waiting(job, mode, false);
      if job.signal in aborted || job.thread != thread {
        Settle(w, false, Denied);
        return;
      }
      if !job.userOnly && mode == Unrestricted {
        Settle(w, false, Allowed);
        return;
      }
      var granted := IsGranted(policy, prefixes, job.prefix);
      if granted == Some(false) && job.networkPrefix.Some? {
        granted := IsGranted(policy, prefixes, job.networkPrefix.value);
      }
      if granted.None? {
        Settle(w, false, Threw);
      } else if granted.value {
        Settle(w, false, Allowed);
      } else if mode == AutoApprove && !job.userOnly {
        waiting := Some(w);
      } else {
        PromptUser(w, false, stored);
      }
    }

    method DecideToolApproval(w: Waiting, decision: Decision, stored: bool, granted: bool)
      requires w.job.CommandJob?
      modifies this
      ensures State() == DecideCommand(policy, old(State()), w, decision, stored, granted)
    {
      hide Grant, Acceptable;
      if w.job.signal in aborted || w.job.thread != thread || w.mode != mode {
        Settle(w, true, Denied);
        return;
      }
      var appended := AppendEvent(w.job.thread, Decided(decision), stored);
      if !appended {
        Settle(w, true, Threw);
        return;
      }
      if decision == Reject {
        Settle(w, true, Denied);
        return;
      }
      if decision == AllowAlways {
        // The next list is derived before the durable append: a failed append leaves memory as it was.
        var next := Grant(policy, prefixes, w.job.prefix);
        var normal := policy.normal(w.job.prefix);
        if next.None? || normal.None? {
          Settle(w, true, Threw);
          return;
        }
        appended := AppendEvent(thread, PrefixGranted(normal.value), granted);
        if !appended {
          Settle(w, true, Threw);
          return;
        }
        prefixes, dirty := next.value, true;
      }
      Settle(w, true, Allowed);
    }

    method ToolApprovalReviewed(w: Waiting, decision: Decision, store: Store)
      requires w.job.CommandJob?
      modifies this
      ensures State() == ReviewCommand(policy, old(State()), w, decision, store)
    {
      hide Acceptable, DecideCommand;
      var appended := AppendEvent(w.job.thread, Reviewed(decision), store.reviewed);
      if !appended {
        Settle(w, true, Threw);
      } else if w.job.signal in aborted || w.job.thread != thread || w.mode != mode {
        Settle(w, true, Denied);
      } else if decision != Reject && (decision != AllowAlways || policy.grantable(w.job.prefix)) {
        DecideToolApproval(w, decision, store.decided, store.granted);
      } else {
        PromptUser(w, true, store.decided);
      }
    }

    method AuthorizeCatalogToolCall(job: Job)
      requires job.ToolJob?
      modifies this
      ensures State() == BeginTool(policy, old(State()), job)
    {
      var w := Waiting(job, job.mode, false);
      if job.signal in aborted || job.thread != thread {
        Settle(w, false, Denied);
        return;
      }
      if job.toolThread !in journal || Recover(policy, journal[job.toolThread]).None? {
        Settle(w, false, Threw);
        return;
      }
      if job.key in RecoverTools(journal[job.toolThread]) || job.mode == Unrestricted {
        Settle(w, false, Allowed);
      } else if job.mode == AutoApprove {
        waiting := Some(w);
      } else if w.mode != mode {
        Settle(w, false, Denied);
      } else {
        waiting := Some(w.(forUser := true));
      }
    }

    method DecideCatalogToolCall(w: Waiting, decision: Decision, store: Store)
      requires w.job.ToolJob?
      modifies this
      ensures State() == DecideTool(policy, old(State()), w, decision, store)
    {
      hide Acceptable;
      if w.job.signal in aborted || w.job.thread != thread || w.mode != mode {
        Settle(w, true, Denied);
        return;
      }
      var appended := AppendEvent(w.job.toolThread, Decided(decision), store.decided);
      if !appended {
        Settle(w, true, Threw);
        return;
      }
      if decision == Reject {
        Settle(w, true, Denied);
        return;
      }
      if decision == AllowAlways {
        appended := AppendEvent(w.job.toolThread, ToolGranted(w.job.key), store.granted);
        if !appended {
          Settle(w, true, Threw);
          return;
        }
        if w.job.toolThread == thread {
          tools, dirty := AddKey(tools, w.job.key), true;
        }
      }
      Settle(w, true, Allowed);
    }

    method CatalogToolCallReviewed(w: Waiting, decision: Decision, store: Store)
      requires w.job.ToolJob?
      modifies this
      ensures State() == ReviewTool(policy, old(State()), w, decision, store)
    {
      hide Acceptable, DecideTool;
      var appended := AppendEvent(w.job.toolThread, Reviewed(decision), store.reviewed);
      if !appended {
        Settle(w, true, Threw);
      } else if w.job.signal in aborted || w.job.thread != thread || w.mode != mode {
        Settle(w, true, Denied);
      } else if decision == Reject {
        waiting := Some(w.(forUser := true));
      } else {
        DecideCatalogToolCall(w, decision, store);
      }
    }

    /** Revoke a prefix by its index; in the source every early return here throws. */
    method UpdatePermissions(index: nat, stored: bool)
      modifies this
      ensures State() == RevokeAt(policy, old(State()), index, stored)
    {
      hide Acceptable;
      if index >= |prefixes| {
        return;
      }
      var prefix := prefixes[index];
      var normal := policy.normal(prefix);
      if normal.None? {
        return;
      }
      var appended := AppendEvent(thread, PrefixRevoked(normal.value), stored);
      if appended {
        prefixes, dirty := Without(prefixes, prefix), true;
      }
    }
  }
}
