/**
 What approvals answer (src/app/approval-flow.ts): when one is allowed, denied or
 fails, and whom it waits for, said of the request, the mode and the journal.
 */
module ApprovalAnswers {
  import opened Common
  import opened ApprovalFlow

  /** The approval has ended; nothing but its verdict is new. */
  predicate Ends(app: App, after: App, job: Job, outcome: Outcome, asked: bool) {
    && after.waiting.None? && |after.verdicts| == |app.verdicts| + 1
    && after.verdicts[..|app.verdicts|] == app.verdicts
    && var v := after.verdicts[|app.verdicts|];
       v.job == job && v.outcome == outcome && v.asked == asked
  }

  /** The approval waits for the user, or for the reviewer. */
  predicate Waits(app: App, after: App, job: Job, mode: Mode, forUser: bool) {
    after.waiting == Some(Waiting(job, mode, forUser)) && after.verdicts == app.verdicts
  }

  /** The request comes from the current thread and has not been aborted. */
  predicate Here(app: App, job: Job) {
    job.thread == app.thread && job.signal !in app.aborted
  }

  lemma EndIs(app: App, x: App, w: Waiting, asked: bool, outcome: Outcome)
    requires x.verdicts == app.verdicts
    ensures forall o, b :: Ends(app, End(x, w, asked, outcome), w.job, o, b) <==> o == outcome && b == asked
    ensures forall mode, user :: !Waits(app, End(x, w, asked, outcome), w.job, mode, user)
  {}

  lemma WaitIs(app: App, x: App, w: Waiting)
    requires x.verdicts == app.verdicts && x.waiting == Some(w)
    ensures forall o, b :: !Ends(app, x, w.job, o, b)
    ensures forall mode, user :: Waits(app, x, w.job, mode, user) <==> w.mode == mode && w.forUser == user
  {}

  // ---- Lists of prefixes ----

  /** `kept` are the canonical forms of the first `n` prefixes, each where it occurs first. */
  predicate FirstForms(policy: Policy, list: seq<Prefix>, n: nat, kept: seq<Prefix>, at: seq<nat>)
    requires n <= |list|
  {
    && |at| == |kept| && (forall j, k :: 0 <= j < k < |at| ==> at[j] < at[k])
    && (forall k :: 0 <= k < |at| ==> at[k] < n && policy.normal(list[at[k]]) == Some(kept[k]))
    && (forall k, m :: 0 <= k < |at| && 0 <= m < at[k] ==> policy.normal(list[m]) != Some(kept[k]))
    && (forall m :: 0 <= m < n ==> policy.normal(list[m]).Some? && policy.normal(list[m]).value in kept)
  }

  lemma OneFormMore(policy: Policy, list: seq<Prefix>, n: nat, kept: seq<Prefix>, at: seq<nat>, p: Prefix)
    requires n < |list| && FirstForms(policy, list, n, kept, at) && policy.normal(list[n]) == Some(p)
    ensures if p in kept then FirstForms(policy, list, n + 1, kept, at)
            else FirstForms(policy, list, n + 1, kept + [p], at + [n])
  {
    if p !in kept {
      var more, places := kept + [p], at + [n];
      forall m | 0 <= m < n ensures policy.normal(list[m]) != Some(p) && policy.normal(list[m]).value in more {
        assert policy.normal(list[m]).value in kept;
      }
      assert more[|kept|] == p && places[|at|] == n;
    }
  }

  lemma {:induction false} CanonicalIs(policy: Policy, list: seq<Prefix>, n: nat, kept: seq<Prefix>, at: seq<nat>)
    returns (all: seq<nat>)
    requires n <= |list| && FirstForms(policy, list, n, kept, at)
    ensures var r := Canonical(policy, list[n..], kept);
            && (r.Some? <==> forall m :: n <= m < |list| ==> policy.normal(list[m]).Some?)
            && (r.Some? ==> FirstForms(policy, list, |list|, r.value, all))
    decreases |list| - n
  {
    hide FirstForms;
    all := at;
    if n < |list| && policy.normal(list[n]).Some? {
      var p := policy.normal(list[n]).value;
      OneFormMore(policy, list, n, kept, at, p);
      assert list[n..][1..] == list[n + 1..] && list[n..][0] == list[n];
      if p in kept {
        all := CanonicalIs(policy, list, n + 1, kept, at);
      } else {
        all := CanonicalIs(policy, list, n + 1, kept + [p], at + [n]);
      }
    }
  }

  /**
   A list of prefixes is valid if and only if it has at most 128 and each has a canonical form; what is kept are these
   forms, each once, in the order in which they occur first.
   */
  lemma ValidIff(policy: Policy, list: seq<Prefix>) returns (at: seq<nat>)
    ensures Validate(policy, list).Some? <==>
              |list| <= 128 && forall m :: 0 <= m < |list| ==> policy.normal(list[m]).Some?
    ensures Validate(policy, list).Some? ==> FirstForms(policy, list, |list|, Validate(policy, list).value, at)
  {
    at := CanonicalIs(policy, list, 0, [], []);
    assert list[0..] == list;
  }

  // ---- Catalog tools ----

  /** A key is recovered if and only if the journal has a grant of it. */
  lemma {:induction false} KeysAreTheGrants(entries: seq<Entry>, key: string)
    ensures key in RecoverTools(entries) <==> ToolGranted(key) in entries
  {
    if |entries| > 0 {
      var n := |entries| - 1;
      KeysAreTheGrants(entries[..n], key);
      assert entries == entries[..n] + [entries[n]];
    }
  }

  /** The journal of the tool's thread can be read. */
  predicate Readable(policy: Policy, app: App, job: Job)
    requires job.ToolJob?
  {
    job.toolThread in app.journal && Recover(policy, app.journal[job.toolThread]).Some?
  }

  /** The tool needs no answer: commands are unrestricted, or it was granted in its thread. */
  predicate ToolKept(app: App, job: Job)
    requires job.ToolJob?
  {
    || job.mode == Unrestricted
    || (job.toolThread in app.journal && ToolGranted(job.key) in app.journal[job.toolThread])
  }

  /** How a catalog call begins, in every case. */
  lemma CatalogCallBegins(policy: Policy, app: App, job: Job)
    requires job.ToolJob? && app.waiting.None?
    ensures var after := BeginTool(policy, app, job);
            var known := Here(app, job) && Readable(policy, app, job);
            && (Ends(app, after, job, Allowed, false) <==> known && ToolKept(app, job))
            && (Waits(app, after, job, job.mode, false) <==>
                  known && !ToolKept(app, job) && job.mode == AutoApprove)
            && (Waits(app, after, job, job.mode, true) <==>
                  known && !ToolKept(app, job) && job.mode == Manual == app.mode)
            && (Ends(app, after, job, Threw, false) <==> Here(app, job) && !Readable(policy, app, job))
            && (Ends(app, after, job, Denied, false) <==>
                  !Here(app, job) || (known && !ToolKept(app, job) && job.mode == Manual != app.mode))
            && after == app.(waiting := after.waiting, verdicts := after.verdicts)
  {
    if job.toolThread in app.journal {
      KeysAreTheGrants(app.journal[job.toolThread], job.key);
    }
    hide RecoverTools, Recover;
  }

  // ---- Commands ----

  predicate Unreadable(policy: Policy, list: seq<Prefix>, job: Job)
    requires job.CommandJob?
  {
    || policy.normal(job.prefix).None?
    || (!CoveredBy(policy, list, job.prefix) && job.networkPrefix.Some? &&
        policy.normal(job.networkPrefix.value).None?)
  }

  predicate CoveredBy(policy: Policy, list: seq<Prefix>, prefix: Prefix) {
    policy.normal(prefix).Some? && exists g :: g in list && policy.covers(g, policy.normal(prefix).value)
  }

  /** A grant covers the command, or the one its network access was granted for. */
  predicate CommandKept(policy: Policy, list: seq<Prefix>, job: Job)
    requires job.CommandJob?
  {
    CoveredBy(policy, list, job.prefix) || (job.networkPrefix.Some? && CoveredBy(policy, list, job.networkPrefix.value))
  }

  /** How a command approval begins, in every case; `list` are the grants that the thread's journal gives back. */
  lemma CommandBegins(policy: Policy, app: App, job: Job, stored: bool)
    requires Inv(policy, app) && job.CommandJob? && app.waiting.None?
    ensures var after := BeginCommand(policy, app, job, stored);
            var list := Recover(policy, app.journal[app.thread]).value;
            var free := !job.userOnly && app.mode == Unrestricted;
            var open := Here(app, job) && !free && !Unreadable(policy, list, job) && !CommandKept(policy, list, job);
            var reviewed := app.mode == AutoApprove && !job.userOnly;
            && (Ends(app, after, job, Allowed, false) <==>
                  Here(app, job) && (free || (!Unreadable(policy, list, job) && CommandKept(policy, list, job))))
            && (Waits(app, after, job, app.mode, false) <==> open && reviewed)
            && (Waits(app, after, job, app.mode, true) <==> open && !reviewed && job.mayPrompt)
            && (Ends(app, after, job, Threw, false) <==>
                  || (Here(app, job) && !free && Unreadable(policy, list, job))
                  || (open && !reviewed && !job.mayPrompt))
            && (Ends(app, after, job, Denied, false) <==> !Here(app, job))
            && after.prefixes == app.prefixes && after.tools == app.tools
            && Entries(after, app.thread) == Entries(app, app.thread) +
                 if open && !reviewed && !job.mayPrompt && stored then [UserRequired] else []
  {
    BegunApp(policy, app, job, stored);
    var w := Waiting(job, app.mode, false);
    EndIs(app, app, w, false, Allowed);
    EndIs(app, app, w, false, Denied);
    EndIs(app, app, w, false, Threw);
    WaitIs(app, app.(waiting := Some(w)), w);
    UserIsAsked(policy, app, w, stored);
    hide BeginCommand, CommandKept, Unreadable, Recover, Inv, AskUser, Ends, Waits;
    assert Entries(app, app.thread) + [] == Entries(app, app.thread);
  }

  lemma BegunApp(policy: Policy, app: App, job: Job, stored: bool)
    requires Inv(policy, app) && job.CommandJob?
    ensures var list := Recover(policy, app.journal[app.thread]).value;
            var w := Waiting(job, app.mode, false);
            BeginCommand(policy, app, job, stored) ==
              if !Here(app, job) then End(app, w, false, Denied)
              else if !job.userOnly && app.mode == Unrestricted then End(app, w, false, Allowed)
              else if Unreadable(policy, list, job) then End(app, w, false, Threw)
              else if CommandKept(policy, list, job) then End(app, w, false, Allowed)
              else if app.mode == AutoApprove && !job.userOnly then app.(waiting := Some(w))
              else AskUser(policy, app, w, false, stored)
  {
    var list := Recover(policy, app.journal[app.thread]).value;
    ListsCoverAlike(policy, app.prefixes, list, job.prefix);
    if job.networkPrefix.Some? {
      ListsCoverAlike(policy, app.prefixes, list, job.networkPrefix.value);
    }
    hide IsGranted, CoveredBy, Recover, GrantsMatch, AskUser, End;
  }

  lemma UserIsAsked(policy: Policy, app: App, w: Waiting, stored: bool)
    requires w.job.CommandJob? && app.waiting.None?
    ensures var after := AskUser(policy, app, w, false, stored);
            && (forall o, b :: Ends(app, after, w.job, o, b) <==> !w.job.mayPrompt && o == Threw && !b)
            && (forall mode, user :: Waits(app, after, w.job, mode, user) <==>
                  w.job.mayPrompt && mode == w.mode && user)
            && after.prefixes == app.prefixes && after.tools == app.tools
            && Entries(after, app.thread) ==
                 Entries(app, app.thread) + if !w.job.mayPrompt && stored then [UserRequired] else []
  {
    var after := AskUser(policy, app, w, false, stored);
    if w.job.mayPrompt {
      WaitIs(app, after, w.(forUser := true));
    } else {
      AppendGrows(policy, app, app.thread, UserRequired, stored);
      var x := match Append(policy, app, app.thread, UserRequired, stored) case Some(noted) => noted case None => app;
      EndIs(app, x, w, false, Threw);
    }
    hide Ends, Waits;
  }

  lemma ListsCoverAlike(policy: Policy, prefixes: seq<Prefix>, list: seq<Prefix>, prefix: Prefix)
    requires Clean(policy, prefixes) && SameSet(prefixes, list)
    ensures IsGranted(policy, prefixes, prefix).None? <==> policy.normal(prefix).None?
    ensures IsGranted(policy, prefixes, prefix) == Some(true) <==> CoveredBy(policy, list, prefix)
  {
    ValidateClean(policy, prefixes);
    hide Validate, Clean;
  }

  // ---- Decisions ----

  /** The prefix can be kept beside those of the list. */
  predicate Keepable(policy: Policy, list: seq<Prefix>, prefix: Prefix) {
    && policy.normal(prefix).Some? && policy.reusable(policy.normal(prefix).value)
    && (policy.normal(prefix).value in list || |list| < MAX_PREFIXES)
  }

  lemma KeepableIsGrant(policy: Policy, list: seq<Prefix>, prefix: Prefix)
    requires Clean(policy, list)
    ensures Grant(policy, list, prefix).Some? <==> Keepable(policy, list, prefix)
    ensures Keepable(policy, list, prefix) ==>
              var p := policy.normal(prefix).value;
              Grant(policy, list, prefix).value == if p in list then list else list + [p]
  {
    ValidateClean(policy, list);
    hide Validate, Clean;
  }

  lemma SameSize(a: seq<Prefix>, b: seq<Prefix>)
    requires NoDuplicates(a) && NoDuplicates(b) && SameSet(a, b)
    ensures |a| == |b|
  {
    SizeOfSet(a);
    SizeOfSet(b);
    assert (set p | p in a) == (set p | p in b);
  }

  lemma {:induction false} SizeOfSet(a: seq<Prefix>)
    requires NoDuplicates(a)
    ensures |set p | p in a| == |a|
    decreases |a|
  {
    if |a| > 0 {
      var n := |a| - 1;
      SizeOfSet(a[..n]);
      assert a == a[..n] + [a[n]];
      assert (set p | p in a) == (set p | p in a[..n]) + {a[n]};
    } else {
      assert (set p | p in a) == {};
    }
  }

  /** The store accepts a grant if and only if memory does. */
  lemma StoreAgrees(policy: Policy, app: App, prefix: Prefix)
    requires PolicyOk(policy) && GrantsMatch(policy, app) && policy.normal(prefix) == Some(prefix)
    ensures Acceptable(policy, Entries(app, app.thread), PrefixGranted(prefix)) <==>
              Keepable(policy, app.prefixes, prefix)
  {
    var list := Recover(policy, app.journal[app.thread]).value;
    KeepableIsGrant(policy, list, prefix);
    SameSize(app.prefixes, list);
    hide Grant;
  }

  /** What a decision on a command comes to, in every case. */
  lemma CommandIsDecided(policy: Policy, app: App, w: Waiting, decision: Decision, stored: bool, granted: bool)
    requires PolicyOk(policy) && Inv(policy, app) && w.job.CommandJob?
    ensures var after := DecideCommand(policy, app, w, decision, stored, granted);
            var job := w.job;
            var timely := Here(app, job) && w.mode == app.mode;
            var keeps := timely && stored && decision == AllowAlways && granted &&
                         Keepable(policy, app.prefixes, job.prefix);
            && (Ends(app, after, job, Allowed, true) <==> (timely && stored && decision == AllowOnce) || keeps)
            && (Ends(app, after, job, Denied, true) <==> !timely || (stored && decision == Reject))
            && (Ends(app, after, job, Threw, true) <==>
                  timely && (!stored || (decision == AllowAlways && !keeps)))
            && Entries(after, app.thread) == Entries(app, app.thread) +
                 (if timely && stored then [Decided(decision)] else []) +
                 (if keeps then [PrefixGranted(policy.normal(job.prefix).value)] else [])
            && (!keeps ==> after.prefixes == app.prefixes && after.dirty == app.dirty)
            && (keeps ==>
                  var p := policy.normal(job.prefix).value;
                  after.dirty && after.prefixes == if p in app.prefixes then app.prefixes else app.prefixes + [p])
            && after.tools == app.tools && after.thread == app.thread && after.mode == app.mode
  {
    DecidedApp(policy, app, w, decision, stored, granted);
    var timely := Here(app, w.job) && w.mode == app.mode;
    var noted := Noted(app, app.thread, [Decided(decision)]);
    EndIs(app, app, w, true, Denied);
    EndIs(app, app, w, true, Threw);
    EndIs(app, noted, w, true, Denied);
    EndIs(app, noted, w, true, Allowed);
    EndIs(app, noted, w, true, Threw);
    if Keepable(policy, app.prefixes, w.job.prefix) {
      EndIs(app, KeptApp(policy, app, w.job.prefix, decision), w, true, Allowed);
    }
    hide DecideCommand, Inv, PolicyOk, Keepable, Ends;
    assert Entries(app, app.thread) + [] + [] == Entries(app, app.thread);
  }

  /** The journal of a thread has gained some entries. */
  function Noted(app: App, thread: ThreadId, entries: seq<Entry>): App {
    app.(journal := app.journal[thread := Entries(app, thread) + entries])
  }

  function KeptApp(policy: Policy, app: App, prefix: Prefix, decision: Decision): App
    requires Keepable(policy, app.prefixes, prefix)
  {
    var p := policy.normal(prefix).value;
    Noted(app, app.thread, [Decided(decision), PrefixGranted(p)])
    .(prefixes := if p in app.prefixes then app.prefixes else app.prefixes + [p], dirty := true)
  }

  lemma DecidedApp(policy: Policy, app: App, w: Waiting, decision: Decision, stored: bool, granted: bool)
    requires PolicyOk(policy) && Inv(policy, app) && w.job.CommandJob?
    ensures var timely := Here(app, w.job) && w.mode == app.mode;
            var noted := Noted(app, app.thread, [Decided(decision)]);
            DecideCommand(policy, app, w, decision, stored, granted) ==
              if !timely then End(app, w, true, Denied)
              else if !stored then End(app, w, true, Threw)
              else if decision == Reject then End(noted, w, true, Denied)
              else if decision == AllowOnce then End(noted, w, true, Allowed)
              else if granted && Keepable(policy, app.prefixes, w.job.prefix)
              then End(KeptApp(policy, app, w.job.prefix, decision), w, true, Allowed)
              else End(noted, w, true, Threw)
  {
    var noted := Noted(app, app.thread, [Decided(decision)]);
    NotesNeutral(policy, app, app.thread, Decided(decision), stored);
    AppendNeutral(policy, app, app.thread, Decided(decision), stored);
    KeepableIsGrant(policy, app.prefixes, w.job.prefix);
    if stored && Keepable(policy, app.prefixes, w.job.prefix) {
      KeepsGrant(policy, noted, w.job.prefix, granted);
      var p := policy.normal(w.job.prefix).value;
      assert Entries(app, app.thread) + [Decided(decision)] + [PrefixGranted(p)] ==
             Entries(app, app.thread) + [Decided(decision), PrefixGranted(p)];
      assert noted.journal[app.thread := Entries(app, app.thread) + [Decided(decision), PrefixGranted(p)]] ==
             app.journal[app.thread := Entries(app, app.thread) + [Decided(decision), PrefixGranted(p)]];
    }
    hide Grant, GrantsMatch, PolicyOk, Keepable, End, Append;
  }

  lemma NotesNeutral(policy: Policy, app: App, thread: ThreadId, e: Entry, stored: bool)
    requires Neutral(e)
    ensures Append(policy, app, thread, e, stored) == if stored then Some(Noted(app, thread, [e])) else None
  {}

  lemma KeepsGrant(policy: Policy, app: App, prefix: Prefix, granted: bool)
    requires PolicyOk(policy) && GrantsMatch(policy, app) && Keepable(policy, app.prefixes, prefix)
    ensures var p := policy.normal(prefix).value;
            Append(policy, app, app.thread, PrefixGranted(p), granted) ==
              if granted then Some(Noted(app, app.thread, [PrefixGranted(p)])) else None
  {
    var p := policy.normal(prefix).value;
    KeepableIsGrant(policy, app.prefixes, p);
    StoreAgrees(policy, app, p);
    hide Acceptable, Recover, Clean;
  }

  /** What a review of a command comes to. */
  lemma CommandIsReviewed(policy: Policy, app: App, w: Waiting, decision: Decision, store: Store)
    requires PolicyOk(policy) && Inv(policy, app) && w.job.CommandJob?
    ensures var after := ReviewCommand(policy, app, w, decision, store);
            var noted := Noted(app, w.job.thread, [Reviewed(decision)]);
            && (!store.reviewed ==> after == End(app, w, true, Threw))
            && (store.reviewed ==>
                  if !(Here(app, w.job) && w.mode == app.mode) then after == End(noted, w, true, Denied)
                  else if decision == AllowOnce || (decision == AllowAlways && policy.grantable(w.job.prefix))
                  then after == DecideCommand(policy, noted, w, decision, store.decided, store.granted)
                  else if w.job.mayPrompt then after == noted.(waiting := Some(w.(forUser := true)))
                  else after == End(if store.decided then Noted(noted, app.thread, [UserRequired])
                                    else noted, w, true, Threw))
  {
    NotesNeutral(policy, app, w.job.thread, Reviewed(decision), store.reviewed);
    var noted := Noted(app, w.job.thread, [Reviewed(decision)]);
    NotesNeutral(policy, noted, noted.thread, UserRequired, store.decided);
    hide Append, DecideCommand, End;
  }

  /** What a decision on a catalog call comes to, in every case. */
  lemma ToolIsDecided(policy: Policy, app: App, w: Waiting, decision: Decision, store: Store)
    requires w.job.ToolJob?
    ensures var after := DecideTool(policy, app, w, decision, store);
            var job := w.job;
            var timely := Here(app, job) && w.mode == app.mode;
            var keeps := timely && store.decided && decision == AllowAlways && store.granted;
            var here := job.toolThread == app.thread;
            && (Ends(app, after, job, Allowed, true) <==>
                  (timely && store.decided && decision == AllowOnce) || keeps)
            && (Ends(app, after, job, Denied, true) <==> !timely || (store.decided && decision == Reject))
            && (Ends(app, after, job, Threw, true) <==>
                  timely && (!store.decided || (decision == AllowAlways && !keeps)))
            && Entries(after, job.toolThread) == Entries(app, job.toolThread) +
                 (if timely && store.decided then [Decided(decision)] else []) +
                 (if keeps then [ToolGranted(job.key)] else [])
            && after.tools == (if keeps && here && job.key !in app.tools then app.tools + [job.key] else app.tools)
            && after.dirty == (app.dirty || (keeps && here))
            && after.prefixes == app.prefixes && after.thread == app.thread && after.mode == app.mode
  {
    var noted := Noted(app, w.job.toolThread, [Decided(decision)]);
    var kept := Noted(noted, w.job.toolThread, [ToolGranted(w.job.key)]);
    NotesNeutral(policy, app, w.job.toolThread, Decided(decision), store.decided);
    assert Append(policy, noted, w.job.toolThread, ToolGranted(w.job.key), store.granted) ==
           if store.granted then Some(kept) else None;
    EndIs(app, app, w, true, Denied);
    EndIs(app, app, w, true, Threw);
    EndIs(app, noted, w, true, Denied);
    EndIs(app, noted, w, true, Threw);
    EndIs(app, noted, w, true, Allowed);
    var here := w.job.toolThread == app.thread;
    EndIs(app, kept.(tools := if here then AddKey(app.tools, w.job.key) else app.tools, dirty := app.dirty || here), w,
          true, Allowed);
    hide Append, Ends, AddKey;
    assert Entries(app, w.job.toolThread) + [] + [] == Entries(app, w.job.toolThread);
  }

  /** What a review of a catalog call comes to, and what leaving its menu does. */
  lemma ToolIsReviewed(policy: Policy, app: App, w: Waiting, decision: Decision, store: Store)
    requires w.job.ToolJob?
    ensures var noted := Noted(app, w.job.toolThread, [Reviewed(decision)]);
            ReviewTool(policy, app, w, decision, store) ==
              if !store.reviewed then End(app, w, true, Threw)
              else if !(Here(app, w.job) && w.mode == app.mode) then End(noted, w, true, Denied)
              else if decision == Reject then noted.(waiting := Some(w.(forUser := true)))
              else DecideTool(policy, noted, w, decision, store)
    ensures LeaveTool(policy, app, w, store) ==
              if store.decided then End(Noted(app, w.job.toolThread, [UserRequired]), w, true, Denied)
              else End(app, w, true, Threw)
  {
    NotesNeutral(policy, app, w.job.toolThread, Reviewed(decision), store.reviewed);
    NotesNeutral(policy, app, w.job.toolThread, UserRequired, store.decided);
    hide Append, DecideTool, End;
  }

  // ---- Every run ----

  /** A request that is allowed without asking may be. */
  predicate MayPass(policy: Policy, app: App, job: Job) {
    && Here(app, job)
    && (job.ToolJob? ==> Readable(policy, app, job) && ToolKept(app, job))
    && (job.CommandJob? ==>
          app.thread in app.journal && Recover(policy, app.journal[app.thread]).Some? &&
          var list := Recover(policy, app.journal[app.thread]).value;
          (!job.userOnly && app.mode == Unrestricted) ||
          (!Unreadable(policy, list, job) && CommandKept(policy, list, job)))
  }

  /** The next request of the queue begins. */
  predicate Begins(app: App, step: Step) {
    step.Begin? && app.waiting.None? && |app.queue| > 0
  }

  /** At its beginning a request is allowed without asking if and only if it may be. */
  lemma BeginPassesIff(policy: Policy, app: App, step: Step)
    requires Inv(policy, app) && Begins(app, step)
    ensures Ends(app, Next(policy, app, step), app.queue[0], Allowed, false) <==> MayPass(policy, app, app.queue[0])
  {
    var job, started := app.queue[0], app.(queue := app.queue[1..]);
    OtherFields(policy, app, started);
    if job.CommandJob? {
      CommandBegins(policy, started, job, step.stored);
    } else {
      CatalogCallBegins(policy, started, job);
    }
    hide BeginCommand, BeginTool, GrantsMatch, Recover, Unreadable, CommandKept, Readable, ToolKept, Sound;
  }

  /** There is at most one new verdict, and it had asked. */
  predicate Gives(app: App, after: App) {
    && app.verdicts <= after.verdicts && |after.verdicts| <= |app.verdicts| + 1
    && (|after.verdicts| > |app.verdicts| ==> after.verdicts[|app.verdicts|].asked)
  }

  lemma DecisionGives(policy: Policy, app: App, w: Waiting, decision: Decision, store: Store)
    ensures w.job.CommandJob? ==> Gives(app, DecideCommand(policy, app, w, decision, store.decided, store.granted))
    ensures w.job.ToolJob? ==> Gives(app, DecideTool(policy, app, w, decision, store))
    ensures w.job.ToolJob? ==> Gives(app, LeaveTool(policy, app, w, store))
  {
    hide Grant, Acceptable, AddKey;
  }

  lemma ReviewGives(policy: Policy, app: App, w: Waiting, decision: Decision, store: Store)
    ensures w.job.CommandJob? ==> Gives(app, ReviewCommand(policy, app, w, decision, store))
    ensures w.job.ToolJob? ==> Gives(app, ReviewTool(policy, app, w, decision, store))
  {
    hide Acceptable, DecideCommand, DecideTool;
    match Append(policy, app, if w.job.CommandJob? then w.job.thread else w.job.toolThread, Reviewed(decision),
                 store.reviewed)
    case None =>
    case Some(noted) => DecisionGives(policy, noted, w, decision, store);
  }

  /** One step gives at most one verdict, and one without asking only to a request that begins. */
  lemma StepGives(policy: Policy, app: App, step: Step)
    ensures var after := Next(policy, app, step);
            && app.verdicts <= after.verdicts && |after.verdicts| <= |app.verdicts| + 1
            && (|after.verdicts| > |app.verdicts| && !after.verdicts[|app.verdicts|].asked ==>
                  Begins(app, step) && after.waiting.None? && after.verdicts[|app.verdicts|].job == app.queue[0])
  {
    hide Acceptable, Recover, RecoverTools, ReviewCommand, ReviewTool, DecideCommand, DecideTool, LeaveTool,
      BeginCommand, BeginTool;
    if app.waiting.Some? {
      var w := app.waiting.value;
      match step
      case ReviewEnds(decision, store) => ReviewGives(policy, app, w, decision, store);
      case UserAnswers(answer, store) =>
        DecisionGives(policy, app, w, if answer.Some? then answer.value else Reject, store);
      case _ =>
    } else if Begins(app, step) {
      BeginGives(policy, app.(queue := app.queue[1..]), app.queue[0], step.stored);
    }
  }

  lemma BeginGives(policy: Policy, app: App, job: Job, stored: bool)
    requires app.waiting.None?
    ensures var after := if job.CommandJob? then BeginCommand(policy, app, job, stored)
                         else BeginTool(policy, app, job);
            && app.verdicts <= after.verdicts && |after.verdicts| <= |app.verdicts| + 1
            && (|after.verdicts| > |app.verdicts| ==> after.waiting.None? && after.verdicts[|app.verdicts|].job == job)
  {
    hide Acceptable, IsGranted, Recover, RecoverTools;
  }

  /**
   In every run, an approval that was allowed without asking began at a moment at
   which it might pass: in its own thread, not aborted, and covered by the mode or
   by a grant in the journal.
   */
  lemma {:induction false} SilentVerdictsMayPass(
    policy: Policy, thread: ThreadId, mode: Mode, steps: seq<Step>, k: nat) returns (n: nat)
    requires PolicyOk(policy)
    requires k < |Run(policy, NewApp(thread, mode), steps).verdicts|
    requires var v := Run(policy, NewApp(thread, mode), steps).verdicts[k]; v.outcome == Allowed && !v.asked
    ensures n < |steps|
    ensures var before := Run(policy, NewApp(thread, mode), steps[..n]);
            && Begins(before, steps[n]) && |before.verdicts| == k
            && before.queue[0] == Run(policy, NewApp(thread, mode), steps).verdicts[k].job
            && MayPass(policy, before, before.queue[0])
  {
    hide PolicyOk, Next, Inv, MayPass;
    var start, m := NewApp(thread, mode), |steps| - 1;
    if |steps| > 0 {
      var before := Run(policy, start, steps[..m]);
      StepGives(policy, before, steps[m]);
      if k < |before.verdicts| {
        n := SilentVerdictsMayPass(policy, thread, mode, steps[..m], k);
        assert steps[..m][..n] == steps[..n];
      } else {
        n := m;
        NewAppOk(policy, thread, mode);
        RunKeeps(policy, start, steps[..m]);
        BeginPassesIff(policy, before, steps[m]);
      }
    }
  }
}
