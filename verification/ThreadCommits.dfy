/**
 When a thread is opened or resumed (src/app/thread-sessions.ts): the steps that must not
 fail and what the store must have, and nothing else.
 */
module ThreadCommits {
  import opened ThreadRecords
  import opened ThreadSessions

  /** A save is refused exactly when there is something to save and a step fails or the store refuses the delta. */
  predicate Saves(app: App, fails: bool) {
    var state := Synced(app.state, app.workspace);
    app.dirty || state != app.state ==>
      && !fails && app.thread in app.store.threads && app.store.threads[app.thread].root == state.root
      && DistinctFiles(Missing(app.store.threads[app.thread].recorded.changes, state.recorded.changes))
  }

  lemma SavesIff(app: App, fails: bool)
    ensures Saves(app, fails) <==> !Save(app, fails).thrown
  {
    hide Synced, DistinctFiles, Missing, Stored;
  }

  /** The work of the thread stops: no step fails, and what the child agents leave is saved. */
  predicate Stops(app: App, w: World) {
    Pausing !in w.failing && Canceling !in w.failing && Saves(Paused(app, w), SavingPaused in w.failing)
  }

  lemma StopsIff(app: App, w: World)
    ensures Stops(app, w) <==> !StopWork(app, w).thrown
  {
    SavesIff(Paused(app, w), SavingPaused in w.failing);
    hide Saves, Save, Paused;
  }

  /** The thread's name is new, and no process has its lease. */
  predicate NewName(app: App, thread: ThreadId) {
    thread != app.thread && thread !in app.store.threads && thread !in app.store.foreign
  }

  /** The app with its thread saved and the lease of another one taken. */
  function Taking(app: App, lease: Lease, w: World): App {
    WithLease(Save(app, Saving in w.failing).app, lease)
  }

  /** The same with a new thread in the store. */
  function TakingNew(app: App, w: World): App {
    WithNew(Save(app, Saving in w.failing).app, w)
  }

  lemma OpenNewCommitsIff(app: App, w: World)
    requires HoldsOne(app)
    ensures OpenNew(app, w).committed <==>
              && NewName(app, w.newThread)
              && OpeningWorkspace !in w.failing && Creating !in w.failing && Acquiring !in w.failing
              && Stops(WithNew(app, w), w) && ReleasingPrevious !in w.failing
    ensures OpenNew(app, w).thrown <==> !OpenNew(app, w).committed
  {
    var leased := WithNew(app, w);
    StopsIff(leased, w);
    StopWorkKeeps(leased, w);
    RollBackKeeps(StopWork(leased, w).app, Lease(w.newThread, w.token), true, w);
    hide StopWork, Stops, RollBack;
    assert app.lease.value in leased.store.held;
  }

  /** A new thread is entered if and only if the old one is saved and stops, no step fails and the name is new. */
  lemma NewThreadCommitsIff(app: App, w: World)
    requires HoldsOne(app)
    ensures NewThread(app, w).committed <==>
              && Saves(app, Saving in w.failing) && NewName(app, w.newThread)
              && OpeningWorkspace !in w.failing && Creating !in w.failing && Acquiring !in w.failing
              && Stops(TakingNew(app, w), w) && ReleasingPrevious !in w.failing
    ensures NewThread(app, w).thrown <==> !NewThread(app, w).committed
  {
    SaveSettles(app, Saving in w.failing);
    SavesIff(app, Saving in w.failing);
    OpenNewCommitsIff(Save(app, Saving in w.failing).app, w);
    hide Save, OpenNew, Stops, Saves, WithNew;
  }

  /** A thread that another process may have, or that is not one of this project. */
  predicate Available(app: App, thread: ThreadId) {
    && thread != app.thread && thread !in app.store.children && thread !in app.store.foreign
    && thread in app.store.threads && app.store.threads[thread].project == app.state.project
  }

  lemma OpenTargetCommitsIff(app: App, thread: ThreadId, w: World)
    requires HoldsOne(app)
    ensures var taking := WithLease(app, Lease(thread, w.token));
            thread != app.thread ==>
              (OpenTarget(app, thread, w).committed <==>
                 && Available(app, thread)
                 && Acquiring !in w.failing && Recovering !in w.failing && OpeningWorkspace !in w.failing
                 && Restoring !in w.failing && Stops(taking, w)
                 && Saves(StopWork(taking, w).app, SavingAgain in w.failing)
                 && Reconciling !in w.failing && ReleasingPrevious !in w.failing)
  {
    var lease := Lease(thread, w.token);
    var taking := WithLease(app, lease);
    StopsIff(taking, w);
    SavesIff(StopWork(taking, w).app, SavingAgain in w.failing);
    LeaveKeeps(taking, w);
    if thread in taking.store.threads {
      HandOverCommitsIff(taking, taking.store.threads[thread], lease, w);
    }
    hide Save, StopWork, Stops, Saves, HandOver;
    assert app.lease.value in taking.store.held;
  }

  /**
   A thread is resumed if and only if it is available, the old one is saved, stops and is saved again, and no
   step up to the release of the old lease fails.
   */
  lemma ResumeCommitsIff(app: App, thread: ThreadId, w: World)
    requires HoldsOne(app)
    ensures var taking := Taking(app, Lease(thread, w.token), w);
            ResumeThread(app, thread, w).committed <==>
              && Saves(app, Saving in w.failing) && Available(app, thread)
              && Acquiring !in w.failing && Recovering !in w.failing && OpeningWorkspace !in w.failing
              && Restoring !in w.failing && Stops(taking, w)
              && Saves(StopWork(taking, w).app, SavingAgain in w.failing)
              && Reconciling !in w.failing && ReleasingPrevious !in w.failing
    ensures thread == app.thread ==> (ResumeThread(app, thread, w).thrown <==> !Saves(app, Saving in w.failing))
  {
    SaveSettles(app, Saving in w.failing);
    SavesIff(app, Saving in w.failing);
    var saved := Save(app, Saving in w.failing).app;
    OpenTargetCommitsIff(saved, thread, w);
    assert Available(saved, thread) <==> Available(app, thread) by { SameAvailable(app, saved, thread); }
    hide Save, StopWork, Stops, Saves, OpenTarget, WithLease, Available;
  }

  lemma SameAvailable(app: App, saved: App, thread: ThreadId)
    requires saved.thread == app.thread && saved.store.threads - {app.thread} == app.store.threads - {app.thread}
    requires saved.store.children == app.store.children && saved.store.foreign == app.store.foreign
    requires saved.state.project == app.state.project && saved.store.threads.Keys == app.store.threads.Keys
    ensures Available(saved, thread) <==> Available(app, thread)
  {
    if thread != app.thread && thread in app.store.threads {
      assert thread in app.store.threads - {app.thread};
      assert (app.store.threads - {app.thread})[thread] == (saved.store.threads - {app.thread})[thread];
    }
  }

  lemma HandOverCommitsIff(app: App, stored: Session, lease: Lease, w: World)
    ensures HandOver(app, stored, lease, w).committed <==>
              && !Leave(app, w).thrown && Reconciling !in w.failing
              && !CannotRelease(Leave(app, w).app, w)
  {
    hide Leave, Entered, Save, RollBack, Released;
    RollBackKeeps(Leave(app, w).app, lease, false, w);
    RollBackKeeps(Leave(app, w).app.(store := Reconciled(Leave(app, w).app.store, lease.thread, w)), lease, false, w);
  }

  // ---- What a call leaves ----

  /** Without a lease nothing is opened. */
  lemma WithoutLeaseNothingOpens(app: App, thread: ThreadId, w: World)
    requires app.lease.None?
    ensures NewThread(app, w).thrown && !NewThread(app, w).committed && !ResumeThread(app, thread, w).committed
    ensures NewThread(app, w).app == Save(app, Saving in w.failing).app == ResumeThread(app, thread, w).app
    ensures thread != app.thread ==> ResumeThread(app, thread, w).thrown
  {}

  /** A call that fails leaves the child agents stopped exactly when it had stopped them and re-arming fails. */
  lemma NewThreadLeavesPausedIff(app: App, w: World)
    requires HoldsOne(app) && !app.paused
    ensures NewThread(app, w).app.paused <==>
              !NewThread(app, w).committed && TakesNew(app, w) && Rearming in w.failing
  {
    SaveSettles(app, Saving in w.failing);
    var leased := TakingNew(app, w);
    StopWorkKeeps(leased, w);
    RollBackKeeps(StopWork(leased, w).app, Lease(w.newThread, w.token), true, w);
    StillPaused(StopWork(leased, w).app, Lease(w.newThread, w.token), true, w);
    hide Save, StopWork, RollBack, Untouched;
  }

  lemma StillPaused(app: App, next: Lease, created: bool, w: World)
    ensures RollBack(app, next, created, w).app.paused <==> app.paused && Rearming in w.failing
  {}

  lemma OpenTargetLeavesPausedIff(app: App, thread: ThreadId, w: World)
    requires !app.paused
    ensures var r := OpenTarget(app, thread, w);
            r.app.paused <==>
              && !r.committed && thread !in app.store.children && Acquiring !in w.failing && !Leased(app.store, thread)
              && !Unusable(WithLease(app, Lease(thread, w.token)), thread, w) && Rearming in w.failing
  {
    hide HandOver;
    var lease := Lease(thread, w.token);
    var taking := WithLease(app, lease);
    if thread in taking.store.threads {
      HandOverLeavesPausedIff(taking, taking.store.threads[thread], lease, w);
    }
  }

  /** The same for a resume. */
  lemma ResumeLeavesPausedIff(app: App, thread: ThreadId, w: World)
    requires HoldsOne(app) && !app.paused
    ensures var r := ResumeThread(app, thread, w);
            r.app.paused <==>
              && !r.committed && TakesTarget(app, thread, w)
              && !Unusable(Taking(app, Lease(thread, w.token), w), thread, w) && Rearming in w.failing
  {
    SaveSettles(app, Saving in w.failing);
    OpenTargetLeavesPausedIff(Save(app, Saving in w.failing).app, thread, w);
    hide Save, OpenTarget, Unusable;
  }

  lemma HandOverLeavesPausedIff(app: App, stored: Session, lease: Lease, w: World)
    ensures var r := HandOver(app, stored, lease, w);
            r.app.paused <==> !r.committed && Rearming in w.failing
  {
    LeaveKeeps(app, w);
    var left := Leave(app, w).app;
    var reconciled := left.(store := Reconciled(left.store, lease.thread, w));
    RollBackKeeps(left, lease, false, w);
    RollBackKeeps(reconciled, lease, false, w);
    StillPaused(left, lease, false, w);
    StillPaused(reconciled, lease, false, w);
    if reconciled.lease.Some? {
      EnterLeaves(Released(reconciled.store, reconciled.lease.value), stored, lease, w);
    }
    hide Leave, Enter, RollBack, Reconciled, Untouched;
  }

  lemma EnterLeaves(store: Store, stored: Session, lease: Lease, w: World)
    ensures var r := Enter(store, stored, lease, w);
            && r.committed && !r.app.paused
            && (AfterCommit in w.failing ==> r.thrown && r.app == Entered(store, stored, lease, w))
            && (AfterCommit !in w.failing ==>
                  && (r.thrown <==> !Saves(Entered(store, stored, lease, w), SavingResumed in w.failing))
                  && (!r.thrown ==> !r.app.dirty))
  {
    SavesIff(Entered(store, stored, lease, w), SavingResumed in w.failing);
    SaveSettles(Entered(store, stored, lease, w), SavingResumed in w.failing);
    hide Save, Saves, Synced;
  }

  lemma HandOverSaves(app: App, stored: Session, lease: Lease, w: World)
    requires HandOver(app, stored, lease, w).committed
    ensures var r := HandOver(app, stored, lease, w);
            (AfterCommit in w.failing ==> r.thrown) && (!r.thrown ==> !r.app.dirty)
  {
    LeaveKeeps(app, w);
    var left := Leave(app, w).app;
    var reconciled := left.(store := Reconciled(left.store, lease.thread, w));
    RollBackKeeps(left, lease, false, w);
    RollBackKeeps(reconciled, lease, false, w);
    if reconciled.lease.Some? {
      EnterLeaves(Released(reconciled.store, reconciled.lease.value), stored, lease, w);
    }
    hide Leave, Enter, RollBack, Reconciled, Untouched;
  }

  lemma OpenTargetSaves(app: App, thread: ThreadId, w: World)
    requires OpenTarget(app, thread, w).committed
    ensures var r := OpenTarget(app, thread, w);
            (AfterCommit in w.failing ==> r.thrown) && (!r.thrown ==> !r.app.dirty)
  {
    hide HandOver;
    var lease := Lease(thread, w.token);
    var taking := WithLease(app, lease);
    assert thread in taking.store.threads;
    HandOverSaves(taking, taking.store.threads[thread], lease, w);
  }

  /** A resume that entered its thread and then failed has not saved it; one that did not fail has nothing to save. */
  lemma ResumeSavesUnlessItThrows(app: App, thread: ThreadId, w: World)
    requires ResumeThread(app, thread, w).committed
    ensures var r := ResumeThread(app, thread, w);
            (AfterCommit in w.failing ==> r.thrown) && (!r.thrown ==> !r.app.dirty)
  {
    SaveSettles(app, Saving in w.failing);
    hide Save, OpenTarget;
    OpenTargetSaves(Save(app, Saving in w.failing).app, thread, w);
  }

  /** What child agents hand over while they are stopped is known to the thread and to the store, whatever fails. */
  lemma HandedChangesAreKept(app: App, w: World)
    requires app.thread in app.store.threads
    ensures var after := StopWork(app, w).app;
            && app.thread in after.store.threads
            && Keys(w.handed) <= Keys(after.state.recorded.changes)
            && Keys(w.handed) <= Keys(after.store.threads[app.thread].recorded.changes)
    ensures w.handed != [] ==> Paused(app, w).dirty
  {
    var paused := Paused(app, w);
    CollectedKeeps(app, w.handed);
    AddedIsUnion(app.state.recorded.changes, w.handed);
    AddedIsUnion(app.store.threads[app.thread].recorded.changes, w.handed);
    SaveSettles(paused, SavingPaused in w.failing);
    var saved := Save(paused, SavingPaused in w.failing).app;
    KeysOfPrefix(paused.state.recorded.changes, saved.state.recorded.changes);
    StoredIs(paused.store.threads[app.thread], saved.state);
    hide Save, Added, Stored;
  }

  /** Other folders: the workspace is opened there, and the thread's record is restored into it and into its state. */
  lemma FoldersAreChanged(app: App, w: World)
    ensures var r := ChangeFolders(app, w);
            if OpeningWorkspace in w.failing then r == Outcome(app, true, false)
            else
              && r.app.workspace.id == w.folders.id && r.app.workspace.root == r.app.state.root == w.folders.root
              && r.app.workspace.recorded == RestoredRecord(app.state, w)
              && (r.thrown <==> !Saves(Reopened(app, w), Saving in w.failing))
              && r.app.thread == app.thread && r.app.state.rest == app.state.rest &&
                 r.app.state.model == app.state.model
              && r.app.lease == app.lease
  {
    SaveSettles(Reopened(app, w), Saving in w.failing);
    SavesIff(Reopened(app, w), Saving in w.failing);
    hide Save, Saves, RestoredRecord, Synced;
  }

  /** A turn leaves what it says: the model, the history and the record of the workspace, and something to save. */
  lemma TurnLeaves(app: App, handed: seq<Change>, found: Record, model: string, rest: string)
    ensures var after := Do(app, Turn(handed, found, model, rest));
            && after.state.model == model && after.state.rest == rest && after.workspace.recorded == found &&
               after.dirty
            && after.thread == app.thread && after.lease == app.lease
            && (app.thread in app.store.threads ==> Keys(handed) <= Keys(after.state.recorded.changes))
  {
    CollectedKeeps(app, handed);
    AddedIsUnion(app.state.recorded.changes, handed);
    hide Added;
  }
}
