/**
 The queue of approvals and what comes from outside (src/app/approval-flow.ts,
 src/app/info-commands.ts): every request is served in its turn, an answer settles the
 approval that waits for it, and mode, thread, aborts and revocations are those of the steps.
 */
module ApprovalOrder {
  import opened Common
  import opened ApprovalFlow
  import opened ApprovalAnswers

  // ---- Requests are served in order ----

  function JobsOf(verdicts: seq<Verdict>): seq<Job> {
    if |verdicts| == 0 then [] else JobsOf(verdicts[..|verdicts| - 1]) + [verdicts[|verdicts| - 1].job]
  }

  function WaitingJob(app: App): seq<Job> {
    if app.waiting.Some? then [app.waiting.value.job] else []
  }

  /** Every request the app knows: settled, waiting and queued. */
  function Known(app: App): seq<Job> {
    JobsOf(app.verdicts) + WaitingJob(app) + app.queue
  }

  /** What a step from outside changes, whatever else the step does. */
  predicate Outside(app: App, after: App, step: Step) {
    && after.mode == (if step.ChangeMode? then step.mode else app.mode)
    && after.aborted == (if step.Abort? then app.aborted + {step.signal} else app.aborted)
    && (!step.SwitchThread? ==> after.thread == app.thread)
  }

  /** The approval of the job has moved on: it is settled, with one more verdict, or it waits. */
  predicate MovedOn(app: App, after: App, job: Job) {
    && after.queue == app.queue && after.mode == app.mode && after.aborted == app.aborted && after.thread == app.thread
    && if after.waiting.Some? then after.waiting.value.job == job && after.verdicts == app.verdicts
       else |after.verdicts| == |app.verdicts| + 1 && after.verdicts[..|app.verdicts|] == app.verdicts
            && after.verdicts[|app.verdicts|].job == job
  }

  lemma EndMovesOn(app: App, x: App, w: Waiting, asked: bool, outcome: Outcome)
    requires x.verdicts == app.verdicts && x.queue == app.queue && x.mode == app.mode && x.aborted == app.aborted
    requires x.thread == app.thread
    ensures MovedOn(app, End(x, w, asked, outcome), w.job)
  {}

  lemma WaitMovesOn(app: App, w: Waiting)
    ensures MovedOn(app, app.(waiting := Some(w)), w.job)
  {}

  lemma MovedAlong(a: App, b: App, c: App, job: Job)
    requires b == a.(journal := b.journal) && MovedOn(b, c, job)
    ensures MovedOn(a, c, job)
  {}

  lemma AskMovesOn(policy: Policy, app: App, w: Waiting, asked: bool, stored: bool)
    requires w.job.CommandJob?
    ensures MovedOn(app, AskUser(policy, app, w, asked, stored), w.job)
  {
    AppendMoves(policy, app, app.thread, UserRequired, stored);
    hide Append;
  }

  lemma BeginMovesOn(policy: Policy, app: App, job: Job, stored: bool)
    requires app.waiting.None?
    ensures MovedOn(app, if job.CommandJob? then BeginCommand(policy, app, job, stored)
                         else BeginTool(policy, app, job),
                    job)
  {
    var w := Waiting(job, if job.CommandJob? then app.mode else job.mode, false);
    EndMovesOn(app, app, w, false, Allowed);
    EndMovesOn(app, app, w, false, Denied);
    EndMovesOn(app, app, w, false, Threw);
    WaitMovesOn(app, w);
    WaitMovesOn(app, w.(forUser := true));
    if job.CommandJob? {
      AskMovesOn(policy, app, w, false, stored);
    }
    hide MovedOn, End, AskUser, IsGranted, Recover, RecoverTools, Stale;
  }

  /** An append changes nothing but the journal. */
  lemma AppendMoves(policy: Policy, app: App, thread: ThreadId, e: Entry, stored: bool)
    ensures var r := Append(policy, app, thread, e, stored); r.Some? ==> r.value == app.(journal := r.value.journal)
  {
    hide Acceptable;
  }

  lemma DecideCommandMovesOn(policy: Policy, app: App, w: Waiting, decision: Decision, stored: bool, granted: bool)
    requires w.job.CommandJob?
    ensures var after := DecideCommand(policy, app, w, decision, stored, granted);
            MovedOn(app, after, w.job) && after.waiting.None?
  {
    AppendMoves(policy, app, w.job.thread, Decided(decision), stored);
    hide Append, Grant, Stale;
    match Append(policy, app, w.job.thread, Decided(decision), stored)
    case None =>
    case Some(noted) =>
      if policy.normal(w.job.prefix).Some? {
        AppendMoves(policy, noted, noted.thread, PrefixGranted(policy.normal(w.job.prefix).value), granted);
      }
  }

  lemma DecideToolMovesOn(policy: Policy, app: App, w: Waiting, decision: Decision, store: Store)
    requires w.job.ToolJob?
    ensures var after := DecideTool(policy, app, w, decision, store);
            MovedOn(app, after, w.job) && after.waiting.None?
    ensures var after := LeaveTool(policy, app, w, store); MovedOn(app, after, w.job) && after.waiting.None?
  {
    AppendMoves(policy, app, w.job.toolThread, UserRequired, store.decided);
    AppendMoves(policy, app, w.job.toolThread, Decided(decision), store.decided);
    hide Append, AddKey, Stale;
    match Append(policy, app, w.job.toolThread, Decided(decision), store.decided)
    case None =>
    case Some(noted) => AppendMoves(policy, noted, w.job.toolThread, ToolGranted(w.job.key), store.granted);
  }

  lemma DecisionMovesOn(policy: Policy, app: App, w: Waiting, decision: Decision, store: Store)
    ensures w.job.CommandJob? ==>
              var after := DecideCommand(policy, app, w, decision, store.decided, store.granted);
              MovedOn(app, after, w.job) && after.waiting.None?
    ensures w.job.ToolJob? ==>
              var after := DecideTool(policy, app, w, decision, store);
              MovedOn(app, after, w.job) && after.waiting.None?
    ensures w.job.ToolJob? ==>
              var after := LeaveTool(policy, app, w, store); MovedOn(app, after, w.job) && after.waiting.None?
  {
    hide DecideCommand, DecideTool, LeaveTool, MovedOn;
    if w.job.CommandJob? {
      DecideCommandMovesOn(policy, app, w, decision, store.decided, store.granted);
    } else {
      DecideToolMovesOn(policy, app, w, decision, store);
    }
  }

  lemma ReviewMovesOn(policy: Policy, app: App, w: Waiting, decision: Decision, store: Store)
    ensures w.job.CommandJob? ==> MovedOn(app, ReviewCommand(policy, app, w, decision, store), w.job)
    ensures w.job.ToolJob? ==> MovedOn(app, ReviewTool(policy, app, w, decision, store), w.job)
  {
    var thread := if w.job.CommandJob? then w.job.thread else w.job.toolThread;
    AppendMoves(policy, app, thread, Reviewed(decision), store.reviewed);
    EndMovesOn(app, app, w, true, Threw);
    hide Append, DecideCommand, DecideTool, Stale, AskUser, MovedOn, End;
    match Append(policy, app, thread, Reviewed(decision), store.reviewed)
    case None =>
    case Some(noted) =>
      DecisionMovesOn(policy, noted, w, decision, store);
      EndMovesOn(noted, noted, w, true, Denied);
      WaitMovesOn(noted, w.(forUser := true));
      if w.job.CommandJob? {
        AskMovesOn(policy, noted, w, true, store.decided);
        MovedAlong(app, noted, ReviewCommand(policy, app, w, decision, store), w.job);
      } else {
        MovedAlong(app, noted, ReviewTool(policy, app, w, decision, store), w.job);
      }
  }

  lemma KnownMovesOn(app: App, after: App, job: Job, rest: seq<Job>)
    requires MovedOn(app, after, job) && after.queue == rest
    ensures Known(after) == JobsOf(app.verdicts) + [job] + rest
  {
    if after.waiting.None? {
      assert JobsOf(after.verdicts) == JobsOf(app.verdicts) + [job];
    }
  }

  lemma NothingKnown(app: App)
    requires app.waiting.None?
    ensures Known(app) == JobsOf(app.verdicts) + app.queue
  {}

  lemma BeginKeepsOrder(policy: Policy, app: App, stored: bool)
    requires app.waiting.None? && |app.queue| > 0
    ensures var after := Next(policy, app, Begin(stored));
            Known(after) == Known(app) && Outside(app, after, Begin(stored))
  {
    hide BeginCommand, BeginTool, JobsOf;
    var started := app.(queue := app.queue[1..]);
    BeginMovesOn(policy, started, app.queue[0], stored);
    KnownMovesOn(started, Next(policy, app, Begin(stored)), app.queue[0], app.queue[1..]);
    NothingKnown(app);
    assert app.queue == [app.queue[0]] + app.queue[1..];
  }

  lemma RequestKeepsOrder(app: App, job: Job)
    ensures Known(app.(queue := app.queue + [job])) == Known(app) + [job]
  {
    hide JobsOf;
  }

  /** One step: nothing is lost, a request goes to the end, and the outside is what the step says. */
  lemma StepKeepsOrder(policy: Policy, app: App, step: Step)
    ensures var after := Next(policy, app, step);
            && Known(after) == Known(app) + (if step.Request? then [step.job] else []) && Outside(app, after, step)
  {
    assert Known(app) + [] == Known(app);
    if app.waiting.Some? && (step.ReviewEnds? || step.UserAnswers? || step.Fails?) {
      AnswerKeepsOrder(policy, app, step);
    } else if step.Begin? && app.waiting.None? && |app.queue| > 0 {
      BeginKeepsOrder(policy, app, step.stored);
    } else if step.Request? {
      RequestKeepsOrder(app, step.job);
    } else {
      hide JobsOf, Recover, RecoverTools, Acceptable, ReviewCommand, ReviewTool, DecideCommand, DecideTool, LeaveTool,
        BeginCommand, BeginTool;
    }
  }

  lemma AnswerKeepsOrder(policy: Policy, app: App, step: Step)
    requires app.waiting.Some? && (step.ReviewEnds? || step.UserAnswers? || step.Fails?)
    ensures var after := Next(policy, app, step); Known(after) == Known(app) && Outside(app, after, step)
  {
    hide ReviewCommand, ReviewTool, DecideCommand, DecideTool, LeaveTool, JobsOf;
    var w := app.waiting.value;
    match step {
      case ReviewEnds(decision, store) => ReviewMovesOn(policy, app, w, decision, store);
      case UserAnswers(answer, store) =>
        DecisionMovesOn(policy, app, w, if answer.Some? then answer.value else Reject, store);
        EndMovesOn(app, app, w, true, Threw);
      case _ => EndMovesOn(app, app, w, true, Threw);
    }
    var after := Next(policy, app, step);
    if after != app {
      KnownMovesOn(app, after, w.job, app.queue);
    }
  }

  /** What was asked for, in order. */
  function Requested(steps: seq<Step>): seq<Job> {
    if |steps| == 0 then []
    else
      var last := steps[|steps| - 1];
      Requested(steps[..|steps| - 1]) + if last.Request? then [last.job] else []
  }

  function LastMode(steps: seq<Step>, mode: Mode): Mode {
    if |steps| == 0 then mode
    else
      var last := steps[|steps| - 1];
      if last.ChangeMode? then last.mode else LastMode(steps[..|steps| - 1], mode)
  }

  /** In every run the verdicts, the approval that waits and the queue are the requests, each once and in order. */
  lemma {:induction false} ServedInOrder(policy: Policy, thread: ThreadId, mode: Mode, steps: seq<Step>)
    ensures Known(Run(policy, NewApp(thread, mode), steps)) == Requested(steps)
    decreases |steps|
  {
    hide Next, Known;
    if |steps| == 0 {
      NothingKnown(NewApp(thread, mode));
    } else {
      var before := steps[..|steps| - 1];
      ServedInOrder(policy, thread, mode, before);
      StepKeepsOrder(policy, Run(policy, NewApp(thread, mode), before), steps[|steps| - 1]);
    }
  }

  /** In every run the mode is the one chosen last, and the aborted signals are those that were aborted. */
  lemma {:induction false} OutsideIsAsGiven(policy: Policy, thread: ThreadId, mode: Mode, steps: seq<Step>, signal: nat)
    ensures var app := Run(policy, NewApp(thread, mode), steps);
            app.mode == LastMode(steps, mode) && (signal in app.aborted <==> Abort(signal) in steps)
    decreases |steps|
  {
    hide Next, Known;
    if |steps| > 0 {
      var before, last := steps[..|steps| - 1], steps[|steps| - 1];
      OutsideIsAsGiven(policy, thread, mode, before, signal);
      StepKeepsOrder(policy, Run(policy, NewApp(thread, mode), before), last);
      assert steps == before + [last];
    }
  }

  // ---- An answer settles what waits for it ----

  /** The user's answer settles the approval that waits for the user: when it is allowed, and when it is denied. */
  lemma UserAnswerSettles(policy: Policy, app: App, w: Waiting, answer: Option<Decision>, store: Store)
    requires PolicyOk(policy) && Inv(policy, app) && app.waiting == Some(w) && w.forUser
    ensures var after := Next(policy, app, UserAnswers(answer, store));
            var timely := Here(app, w.job) && w.mode == app.mode;
            var keeps := store.granted && (w.job.CommandJob? ==> Keepable(policy, app.prefixes, w.job.prefix));
            && after.waiting.None? && |after.verdicts| == |app.verdicts| + 1
            && (Ends(app, after, w.job, Allowed, true) <==>
                  timely && store.decided && (answer == Some(AllowOnce) || (answer == Some(AllowAlways) && keeps)))
            && (Ends(app, after, w.job, Denied, true) <==>
                  if answer.None? then w.job.ToolJob? && store.decided
                  else !timely || (store.decided && answer == Some(Reject)))
  {
    DecisionMovesOn(policy, app, w, if answer.Some? then answer.value else Reject, store);
    EndMovesOn(app, app, w, true, Threw);
    EndIs(app, app, w, true, Threw);
    if w.job.CommandJob? {
      if answer.Some? {
        CommandIsDecided(policy, app, w, answer.value, store.decided, store.granted);
      }
    } else {
      ToolIsReviewed(policy, app, w, Reject, store);
      EndIs(app, Noted(app, w.job.toolThread, [UserRequired]), w, true, Denied);
      if answer.Some? {
        ToolIsDecided(policy, app, w, answer.value, store);
      }
    }
    hide DecideCommand, DecideTool, LeaveTool, Inv, PolicyOk, Keepable, Ends, Entries, MovedOn;
    assert MovedOn(app, Next(policy, app, UserAnswers(answer, store)), w.job);
  }

  /** A review that ends settles the approval that waits for it, or hands it to the user. */
  lemma ReviewSettles(policy: Policy, app: App, w: Waiting, decision: Decision, store: Store)
    requires app.waiting == Some(w) && !w.forUser
    ensures var after := Next(policy, app, ReviewEnds(decision, store));
            && after.waiting != app.waiting
            && (after.waiting.Some? ==>
                  after.waiting == Some(w.(forUser := true)) && after.verdicts == app.verdicts &&
                  store.reviewed && Here(app, w.job) && w.mode == app.mode)
            && (after.waiting.None? ==> |after.verdicts| == |app.verdicts| + 1)
  {
    hide Acceptable, DecideCommand, DecideTool;
    match Append(policy, app, if w.job.CommandJob? then w.job.thread else w.job.toolThread, Reviewed(decision),
                 store.reviewed)
    case None =>
    case Some(noted) => DecisionMovesOn(policy, noted, w, decision, store);
  }

  /** A verdict tells the mode its approval began with, and the thread, the mode and the signal at its end. */
  lemma VerdictTells(app: App, w: Waiting, asked: bool, outcome: Outcome)
    ensures var after := End(app, w, asked, outcome);
            |after.verdicts| == |app.verdicts| + 1 &&
            var v := after.verdicts[|app.verdicts|];
            && v.job == w.job && v.outcome == outcome && v.asked == asked && v.mode == w.mode
            && v.endThread == app.thread && v.endMode == app.mode && (v.aborted <==> w.job.signal in app.aborted)
  {}

  /** A wait that fails ends its approval with an exception. */
  lemma FailureSettles(policy: Policy, app: App, w: Waiting)
    requires app.waiting == Some(w)
    ensures Ends(app, Next(policy, app, Fails), w.job, Threw, true)
    ensures Next(policy, app, Fails).prefixes == app.prefixes && Next(policy, app, Fails).journal == app.journal
  {}

  // ---- Threads and revocations ----

  /** A thread is entered with the grants its journal gives back. */
  lemma SwitchIs(policy: Policy, app: App, thread: ThreadId, key: string)
    requires Inv(policy, app)
    ensures var after := Next(policy, app, SwitchThread(thread));
            && after.thread == thread
            && (forall p :: p in after.prefixes <==> p in Recover(policy, Entries(app, thread)).value)
            && (key in after.tools <==> ToolGranted(key) in Entries(app, thread))
            && Entries(after, thread) == Entries(app, thread)
            && after.verdicts == app.verdicts && after.waiting == app.waiting && after.queue == app.queue
  {
    KeysAreTheGrants(Entries(app, thread), key);
    hide Fold, RecoverTools;
  }

  lemma {:induction false} WithoutOne(list: seq<Prefix>, index: nat)
    requires NoDuplicates(list) && index < |list|
    ensures Without(list, list[index]) == list[..index] + list[index + 1..]
    decreases |list|
  {
    if index == 0 {
      WithoutNone(list[1..], list[0]);
    } else {
      assert list[0] != list[index];
      assert forall i :: 0 <= i < |list[1..]| ==> list[1..][i] == list[i + 1];
      WithoutOne(list[1..], index - 1);
      assert list[..index] == [list[0]] + list[1..][..index - 1];
    }
  }

  lemma {:induction false} WithoutNone(list: seq<Prefix>, x: Prefix)
    requires x !in list
    ensures Without(list, x) == list
    decreases |list|
  {
    if |list| > 0 { WithoutNone(list[1..], x); }
  }

  /** A revocation takes exactly the grant with that index, once it is in the journal; otherwise nothing changes. */
  lemma RevokeIs(policy: Policy, app: App, index: nat, stored: bool)
    requires Inv(policy, app)
    ensures var after := Next(policy, app, Revoke(index, stored));
            if index < |app.prefixes| && stored then
              && after.prefixes == app.prefixes[..index] + app.prefixes[index + 1..] && after.dirty
              && Entries(after, app.thread) == Entries(app, app.thread) + [PrefixRevoked(app.prefixes[index])]
              && after == app.(prefixes := after.prefixes, dirty := true, journal := after.journal)
            else after == app
  {
    if index < |app.prefixes| {
      assert app.prefixes[index] in app.prefixes;
      WithoutOne(app.prefixes, index);
    }
    hide Recovers;
  }
}
