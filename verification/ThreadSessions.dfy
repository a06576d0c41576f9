/**
 Moving the app from one thread to another (src/app/thread-sessions.ts): saving,
 opening a new thread, resuming a saved one and changing the project's folders,
 with the exclusive lease handed over. Any set of steps may fail; a step that
 fails has no effect.
 */
module ThreadSessions {
  import opened Common
  import opened ThreadRecords

  type ThreadId = string

  /** What a workspace was opened on, and what it has recorded. */
  datatype Workspace = Workspace(id: nat, root: string, recorded: Record)

  /** A thread in memory or in the store: `rest` is its history, its mode and its task graph. */
  datatype Session = Session(project: string, root: string, model: string, recorded: Record, rest: string)

  datatype Lease = Lease(thread: ThreadId, token: nat)

  /** The saved threads, the leases held here and the threads leased elsewhere. */
  datatype Store = Store(threads: map<ThreadId, Session>, children: set<ThreadId>, held: set<Lease>,
                         foreign: set<ThreadId>)

  /** `paused` says that the child agents of the current thread are stopped. */
  datatype App = App(thread: ThreadId, state: Session, workspace: Workspace, lease: Option<Lease>, dirty: bool,
                     paused: bool, store: Store)

  /** The steps that can fail. */
  datatype Point =
    | Saving | OpeningWorkspace | Creating | Acquiring | Recovering | Restoring
    | Pausing | SavingPaused | Canceling | SavingAgain | Reconciling | ReleasingPrevious
    | ReleasingNext | Deleting | Rearming | AfterCommit | SavingResumed

  /**
   What one call meets: the failing steps, and what the steps find. `handed` are
   the changes that child agents hand over while they are stopped; `stopped` and
   `settled` are what the workspace has recorded once they are stopped and once
   the commands are; `fallback` is the model used when the saved one is gone, and
   `mended` what the repairs make of the history of a thread that needs some.
   */
  datatype World = World(
    failing: set<Point>, newThread: ThreadId, token: nat, folders: Folders,
    handed: seq<Change>, stopped: Record, settled: Record, fallback: Option<string>, mended: Option<string>)

  // ---- Saving ----

  /** The state as the workspace has it. */
  function Synced(state: Session, workspace: Workspace): Session {
    var versions := workspace.recorded.versions;
    state.(recorded := Record(
             if Reads(versions) == Reads(state.recorded.versions) then state.recorded.versions
             else PutAll([], versions),
             Merge(state.recorded.changes, workspace.recorded.changes)))
  }

  function Sync(app: App): App {
    var state := Synced(app.state, app.workspace);
    app.(state := state, dirty := app.dirty || state != app.state)
  }

  /** The store knows no such thread, or with another primary folder, or the delta has a change twice. */
  predicate Refused(store: Store, thread: ThreadId, state: Session) {
    || thread !in store.threads || store.threads[thread].root != state.root
    || !DistinctFiles(Missing(store.threads[thread].recorded.changes, state.recorded.changes))
  }

  /** What the store makes of the delta: versions are replaced, and unknown changes appended. */
  function Stored(stored: Session, state: Session): Session {
    var durable, now := stored.recorded, state.recorded;
    Session(stored.project, stored.root, state.model,
            Record(StoredVersions(durable.versions, now.versions),
                   durable.changes + Missing(durable.changes, now.changes)),
            state.rest)
  }

  datatype Outcome = Outcome(app: App, thrown: bool, committed: bool)

  function Save(app: App, fails: bool): Outcome {
    var synced := Sync(app);
    if !synced.dirty then Outcome(synced, false, false)
    else if fails || Refused(synced.store, synced.thread, synced.state) then Outcome(synced, true, false)
    else
      var stored := Stored(synced.store.threads[synced.thread], synced.state);
      var threads := synced.store.threads[synced.thread := stored];
      Outcome(synced.(dirty := false, store := synced.store.(threads := threads)), false, false)
  }

  function HandedTo(state: Session, handed: seq<Change>): Session {
    state.(recorded := state.recorded.(changes := Added(state.recorded.changes, handed)))
  }

  /** Child agents hand over their changes: an event stores them before the thread takes them. */
  function Collected(app: App, handed: seq<Change>): App {
    if |handed| == 0 || app.thread !in app.store.threads then app
    else
      var threads := app.store.threads[app.thread := HandedTo(app.store.threads[app.thread], handed)];
      app.(state := HandedTo(app.state, handed), dirty := true, store := app.store.(threads := threads))
  }

  // ---- Leases ----

  predicate Leased(store: Store, thread: ThreadId) {
    thread in store.foreign || exists l :: l in store.held && l.thread == thread
  }

  function Released(store: Store, lease: Lease): Store {
    store.(held := store.held - {lease})
  }

  /** The child agents of the thread are told to stop. */
  function Paused(app: App, w: World): App {
    Collected(app, w.handed).(paused := true, workspace := app.workspace.(recorded := w.stopped))
  }

  /** Stop the child agents, save, and stop the commands. */
  function StopWork(app: App, w: World): Outcome {
    if Pausing in w.failing then Outcome(Paused(app, w), true, false)
    else
      var saved := Save(Paused(app, w), SavingPaused in w.failing);
      if saved.thrown then saved
      else Outcome(saved.app.(workspace := saved.app.workspace.(recorded := w.settled)), Canceling in w.failing, false)
  }

  /** The previous lease is given back last; that fails when it is not held. */
  predicate CannotRelease(app: App, w: World) {
    app.lease.None? || ReleasingPrevious in w.failing || app.lease.value !in app.store.held
  }

  /** Give the next lease back and re-arm the paused child agents; each step is tried even if another fails. */
  function RollBack(app: App, next: Lease, created: bool, w: World): Outcome {
    var freed := if ReleasingNext in w.failing then app else app.(store := Released(app.store, next));
    var removed := if created && ReleasingNext !in w.failing && Deleting !in w.failing
                   then freed.(store := freed.store.(threads := freed.store.threads - {next.thread})) else freed;
    Outcome(if Rearming in w.failing then removed else removed.(paused := false), true, false)
  }

  // ---- A new thread ----

  /** A thread without a history. */
  function NewSession(app: App, w: World): Session {
    Session(app.state.project, w.folders.root, app.state.model, NOTHING, "")
  }

  /** The new thread is in the store and its lease is held too. */
  function WithNew(app: App, w: World): App {
    app.(store := app.store.(threads := app.store.threads[w.newThread := NewSession(app, w)],
                             held := app.store.held + {Lease(w.newThread, w.token)}))
  }

  function OpenNew(app: App, w: World): Outcome {
    if OpeningWorkspace in w.failing || Creating in w.failing || w.newThread in app.store.threads then
      Outcome(app, true, false)
    else
      var next := NewSession(app, w);
      var created := app.(store := app.store.(threads := app.store.threads[w.newThread := next]));
      if Acquiring in w.failing || Leased(created.store, w.newThread) then Outcome(created, true, false)
      else
        var lease := Lease(w.newThread, w.token);
        var stopped := StopWork(WithNew(app, w), w);
        if stopped.thrown || CannotRelease(stopped.app, w) then RollBack(stopped.app, lease, true, w)
        else Outcome(App(w.newThread, next, Workspace(w.folders.id, w.folders.root, NOTHING), Some(lease), false, false,
                         Released(stopped.app.store, stopped.app.lease.value)), false, true)
  }

  function NewThread(app: App, w: World): Outcome {
    var saved := Save(app, Saving in w.failing);
    if saved.thrown || app.lease.None? then Outcome(saved.app, true, false) else OpenNew(saved.app, w)
  }

  // ---- Resuming a thread ----

  /** The target has its lease but cannot be used. */
  predicate Unusable(app: App, thread: ThreadId, w: World) {
    || Recovering in w.failing || thread !in app.store.threads
    || app.store.threads[thread].project != app.state.project
    || OpeningWorkspace in w.failing || Restoring in w.failing
  }

  /** What restoring the saved record into the workspace of today gives. */
  function RestoredRecord(stored: Session, w: World): Record {
    Record(RestoredReads(stored.recorded.versions, w.folders), RestoredChanges(stored.recorded.changes, w.folders, []))
  }

  /** The stored thread with the folders of today and a model that is available. */
  function Recovered(stored: Session, w: World): Session {
    stored.(root := w.folders.root, model := if w.fallback.Some? then w.fallback.value else stored.model,
            recorded := RestoredRecord(stored, w))
  }

  function Mended(session: Session, w: World): Session {
    if w.mended.Some? then session.(rest := w.mended.value) else session
  }

  /** The events of the repairs are in the store. */
  function Reconciled(store: Store, thread: ThreadId, w: World): Store {
    if thread !in store.threads then store
    else store.(threads := store.threads[thread := Mended(store.threads[thread], w)])
  }

  /** The resumed thread has something to save. */
  predicate Unsaved(stored: Session, w: World) {
    || Stale(stored.recorded.versions, w.folders)
    || RestoredChanges(stored.recorded.changes, w.folders, []) != stored.recorded.changes
    || w.fallback.Some? || w.mended.Some?
  }

  /** The app once it has entered the thread. */
  function Entered(store: Store, stored: Session, lease: Lease, w: World): App {
    App(lease.thread, Mended(Recovered(stored, w), w),
        Workspace(w.folders.id, w.folders.root, RestoredRecord(stored, w)), Some(lease), Unsaved(stored, w), false,
        store)
  }

  /** Enter the thread and save what there is to save. */
  function Enter(store: Store, stored: Session, lease: Lease, w: World): Outcome {
    var entered := Entered(store, stored, lease, w);
    if AfterCommit in w.failing then Outcome(entered, true, true)
    else
      var last := Save(entered, SavingResumed in w.failing);
      Outcome(last.app, last.thrown, true)
  }

  /** Stop the current thread's work and save it once more. */
  function Leave(app: App, w: World): Outcome {
    var stopped := StopWork(app, w);
    if stopped.thrown then stopped else Save(stopped.app, SavingAgain in w.failing)
  }

  /** Leave the current thread, repair the target and hand the lease over. */
  function HandOver(app: App, stored: Session, lease: Lease, w: World): Outcome {
    var left := Leave(app, w);
    if left.thrown then RollBack(left.app, lease, false, w)
    else
      var reconciled := left.app.(store := Reconciled(left.app.store, lease.thread, w));
      if Reconciling in w.failing || CannotRelease(reconciled, w) then RollBack(reconciled, lease, false, w)
      else Enter(Released(reconciled.store, reconciled.lease.value), stored, lease, w)
  }

  function WithLease(app: App, lease: Lease): App {
    app.(store := app.store.(held := app.store.held + {lease}))
  }

  function OpenTarget(app: App, thread: ThreadId, w: World): Outcome {
    if thread in app.store.children || Acquiring in w.failing ||
       Leased(app.store, thread) then Outcome(app, true, false)
    else
      var lease := Lease(thread, w.token);
      var leased := WithLease(app, lease);
      if Unusable(leased, thread, w) then
        Outcome(if ReleasingNext in w.failing then leased
                else leased.(store := Released(leased.store, lease)), true, false)
      else HandOver(leased, leased.store.threads[thread], lease, w)
  }

  function ResumeThread(app: App, thread: ThreadId, w: World): Outcome {
    var saved := Save(app, Saving in w.failing);
    if saved.thrown then Outcome(saved.app, true, false)
    else if thread == app.thread then Outcome(saved.app, false, false)
    else if app.lease.None? then Outcome(saved.app, true, false)
    else OpenTarget(saved.app, thread, w)
  }

  // ---- Other folders ----

  /** The project's folders change under the current thread. */
  function Reopened(app: App, w: World): App {
    app.(workspace := Workspace(w.folders.id, w.folders.root, RestoredRecord(app.state, w)),
         state := app.state.(root := w.folders.root), dirty := true)
  }

  function ChangeFolders(app: App, w: World): Outcome {
    if OpeningWorkspace in w.failing then Outcome(app, true, false)
    else Save(Reopened(app, w), Saving in w.failing)
  }

  // ---- A save settles ----

  lemma SyncTwice(app: App)
    ensures Sync(Sync(app)) == Sync(app)
  {
    MergeIsUnion(app.state.recorded.changes, app.workspace.recorded.changes);
    MergeKnown(Sync(app).state.recorded.changes, app.workspace.recorded.changes);
    ReadsOfPutAll([], app.workspace.recorded.versions);
  }

  /** What is stored of a thread, its changes apart, is what it is; they are the same to the store. */
  predicate Agrees(stored: Session, state: Session) {
    && stored.(recorded := state.recorded) == state
    && Reads(stored.recorded.versions) == Reads(state.recorded.versions)
    && Keys(stored.recorded.changes) == Keys(state.recorded.changes)
  }

  /** A delta replaces the versions and only ever adds changes. */
  lemma StoredIs(stored: Session, state: Session)
    ensures var now := Stored(stored, state);
            && stored.recorded.changes <= now.recorded.changes
            && Keys(now.recorded.changes) == Keys(stored.recorded.changes) + Keys(state.recorded.changes)
            && Reads(now.recorded.versions) == Reads(state.recorded.versions)
            && (Agrees(now, state) <==>
                  && Keys(stored.recorded.changes) <= Keys(state.recorded.changes)
                  && stored.project == state.project && stored.root == state.root)
  {
    MissingIsUnknown(stored.recorded.changes, state.recorded.changes);
    StoredVersionsAre(stored.recorded.versions, state.recorded.versions);
  }

  /**
   A save that succeeds leaves nothing to save. It is refused when a step fails,
   or when the store does not know the thread with this primary folder.
   */
  lemma SaveSettles(app: App, fails: bool)
    ensures var after := Save(app, fails);
            && after.app.state == Synced(app.state, app.workspace)
            && after.app == app.(state := after.app.state, dirty := after.app.dirty,
                                 store := app.store.(threads := after.app.store.threads))
            && after.app.state == app.state.(recorded := after.app.state.recorded) && !after.committed
            && after.app.store.threads.Keys == app.store.threads.Keys
            && after.app.store.threads - {app.thread} == app.store.threads - {app.thread}
            && app.state.recorded.changes <= after.app.state.recorded.changes
            && (!after.thrown ==> !after.app.dirty && !Sync(after.app).dirty)
            && (after.thrown ==> after.app.store == app.store && after.app.dirty)
            && (after.thrown <==> (app.dirty || after.app.state != app.state) &&
                                  (fails || Refused(app.store, app.thread, after.app.state)))
            && (!after.thrown ==>
                  after.app.store ==
                    if !app.dirty && after.app.state == app.state then app.store
                    else app.store.(threads := app.store.threads[app.thread :=
                                      Stored(app.store.threads[app.thread], after.app.state)]))
  {
    SyncTwice(app);
    MergeIsUnion(app.state.recorded.changes, app.workspace.recorded.changes);
    var after := Save(app, fails);
    assert Sync(after.app).state == after.app.state;
  }

  // ---- One lease, whatever fails ----

  /** The app holds exactly one lease, that of its thread. */
  predicate HoldsOne(app: App) {
    app.lease.Some? && app.lease.value.thread == app.thread && app.store.held == {app.lease.value}
  }

  /** The app is where it was: only the record of what its thread read and changed may have grown. */
  predicate Untouched(before: App, after: App) {
    && after.thread == before.thread
    && after.state == before.state.(recorded := after.state.recorded) && after.lease == before.lease
    && before.state.recorded.changes <= after.state.recorded.changes
    && after.workspace == before.workspace.(recorded := after.workspace.recorded)
    && after.store.children == before.store.children && after.store.foreign == before.store.foreign
  }

  lemma CollectedKeeps(app: App, handed: seq<Change>)
    ensures var after := Collected(app, handed);
            && Untouched(app, after) && after.store.held == app.store.held && after.workspace == app.workspace
            && after.paused == app.paused && after.store.threads.Keys == app.store.threads.Keys
            && after.store.threads - {app.thread} == app.store.threads - {app.thread}
            && (app.thread in app.store.threads ==>
                  && after.state == HandedTo(app.state, handed)
                  && after.store.threads[app.thread] == HandedTo(app.store.threads[app.thread], handed))
  {
    AddedIsUnion(app.state.recorded.changes, handed);
  }

  lemma StopWorkKeeps(app: App, w: World)
    ensures var stopped := StopWork(app, w).app;
            && Untouched(app, stopped) && stopped.store.held == app.store.held && stopped.paused
            && !StopWork(app, w).committed
            && stopped.store.threads.Keys == app.store.threads.Keys
            && stopped.store.threads - {app.thread} == app.store.threads - {app.thread}
  {
    CollectedKeeps(app, w.handed);
    SaveSettles(Paused(app, w), SavingPaused in w.failing);
    hide Save, Collected;
  }

  lemma LeaveKeeps(app: App, w: World)
    ensures var left := Leave(app, w);
            && Untouched(app, left.app) && left.app.store.held == app.store.held && left.app.paused && !left.committed
            && left.app.store.threads.Keys == app.store.threads.Keys
            && left.app.store.threads - {app.thread} == app.store.threads - {app.thread}
  {
    StopWorkKeeps(app, w);
    SaveSettles(StopWork(app, w).app, SavingAgain in w.failing);
    hide Save, StopWork;
  }

  lemma RollBackKeeps(app: App, next: Lease, created: bool, w: World)
    ensures var back := RollBack(app, next, created, w).app;
            && RollBack(app, next, created, w).thrown && !RollBack(app, next, created, w).committed
            && Untouched(app, back) && back.state == app.state && back.workspace == app.workspace
            && back.store.held == (if ReleasingNext in w.failing then app.store.held else app.store.held - {next})
            && (Rearming !in w.failing ==> !back.paused)
  {}

  /** The call gets as far as holding two leases. */
  predicate TakesNew(app: App, w: World) {
    var now := Save(app, Saving in w.failing);
    && !now.thrown && OpeningWorkspace !in w.failing && Creating !in w.failing && Acquiring !in w.failing
    && w.newThread !in now.app.store.threads && !Leased(now.app.store, w.newThread)
  }

  predicate TakesTarget(app: App, thread: ThreadId, w: World) {
    && !Save(app, Saving in w.failing).thrown && thread != app.thread
    && thread !in app.store.children && Acquiring !in w.failing && !Leased(app.store, thread)
  }

  /**
   A new thread is entered with its own lease, or the app stays; it holds one lease unless the new one
   was taken and could not be given back.
   */
  lemma NewThreadHandsOver(app: App, w: World)
    requires HoldsOne(app)
    ensures var r := NewThread(app, w);
            && (r.committed ==>
                  && HoldsOne(r.app) && !r.app.dirty && !r.app.paused && r.app.thread == w.newThread != app.thread
                  && r.app.workspace == Workspace(w.folders.id, w.folders.root, NOTHING)
                  && r.app.thread in r.app.store.threads && r.app.store.threads[r.app.thread] == r.app.state)
            && (!r.committed ==> r.thrown && Untouched(app, r.app))
            && (!r.committed ==> (HoldsOne(r.app) <==> !(ReleasingNext in w.failing && TakesNew(app, w))))
            && (!r.committed && Rearming !in w.failing && !app.paused ==> !r.app.paused)
  {
    SaveSettles(app, Saving in w.failing);
    var saved := Save(app, Saving in w.failing).app;
    hide Save, OpenNew, Leased;
    OpenNewHandsOver(saved, w);
  }

  lemma OpenNewHandsOver(app: App, w: World)
    requires HoldsOne(app)
    ensures var r := OpenNew(app, w);
            && (r.committed ==>
                  && HoldsOne(r.app) && !r.app.dirty && !r.app.paused && r.app.thread == w.newThread != app.thread
                  && r.app.workspace == Workspace(w.folders.id, w.folders.root, NOTHING)
                  && r.app.thread in r.app.store.threads && r.app.store.threads[r.app.thread] == r.app.state)
            && (!r.committed ==> r.thrown && Untouched(app, r.app))
            && (!r.committed ==>
                  (HoldsOne(r.app) <==>
                     !(ReleasingNext in w.failing && OpeningWorkspace !in w.failing && Creating !in w.failing &&
                       Acquiring !in w.failing && w.newThread !in app.store.threads &&
                       !Leased(app.store, w.newThread))))
            && (!r.committed && Rearming !in w.failing && !app.paused ==> !r.app.paused)
  {
    hide StopWork, RollBack;
    var lease, leased := Lease(w.newThread, w.token), WithNew(app, w);
    assert app.lease.value in leased.store.held && Leased(leased.store, app.thread);
    StopWorkKeeps(leased, w);
    var stopped := StopWork(leased, w);
    RollBackKeeps(stopped.app, lease, true, w);
    assert lease != app.lease.value ==> {app.lease.value} + {lease} - {lease} == {app.lease.value};
    assert lease != app.lease.value ==> {app.lease.value} + {lease} - {app.lease.value} == {lease};
    if w.newThread != app.thread {
      StillThere(leased, stopped.app, stopped.app, w.newThread);
    }
  }

  /**
   A new thread that is entered is empty, in memory, in its workspace and in the
   store: it has no history and has read and changed nothing. Its project and
   model are those of the thread that is left, its folder the primary one of today.
   */
  lemma NewThreadIsEmpty(app: App, w: World)
    requires HoldsOne(app) && NewThread(app, w).committed
    ensures var end := NewThread(app, w).app;
            && end.thread == w.newThread && end.thread in end.store.threads
            && end.state.rest == "" && end.state.recorded.versions == [] && end.state.recorded.changes == []
            && end.state.project == app.state.project && end.state.model == app.state.model
            && end.state.root == end.workspace.root == w.folders.root
            && end.workspace.recorded.versions == [] && end.workspace.recorded.changes == []
            && end.store.threads[end.thread] == end.state
  {
    NewThreadHandsOver(app, w);
    SaveSettles(app, Saving in w.failing);
    var saved := Save(app, Saving in w.failing).app;
    hide Save, Sync, Synced, StopWork, RollBack;
    RollBackKeeps(StopWork(WithNew(saved, w), w).app, Lease(w.newThread, w.token), true, w);
  }

  /** Nothing of what the thread that is left has said, read or changed gets into the new one. */
  lemma NewThreadForgets(a: App, b: App, w: World)
    requires HoldsOne(a) && b == a.(state := a.state.(recorded := b.state.recorded, rest := b.state.rest))
    requires NewThread(a, w).committed && NewThread(b, w).committed
    ensures var x, y := NewThread(a, w).app, NewThread(b, w).app;
            && x.thread == y.thread && x.state == y.state && x.workspace == y.workspace && x.lease == y.lease
            && x.thread in x.store.threads && y.thread in y.store.threads
            && x.store.threads[x.thread] == y.store.threads[y.thread]
  {
    NewThreadIsEmpty(a, w);
    NewThreadIsEmpty(b, w);
    LeaseOfNew(a, w);
    LeaseOfNew(b, w);
    hide NewThread;
  }

  lemma LeaseOfNew(app: App, w: World)
    requires NewThread(app, w).committed
    ensures NewThread(app, w).app.lease == Some(Lease(w.newThread, w.token))
    ensures NewThread(app, w).app.workspace.id == w.folders.id
  {
    hide Save, StopWork, RollBack;
    var saved := Save(app, Saving in w.failing).app;
    RollBackKeeps(StopWork(WithNew(saved, w), w).app, Lease(w.newThread, w.token), true, w);
  }

  /** The thread is created but its lease cannot be taken. */
  predicate LeaseRefused(app: App, w: World) {
    Acquiring in w.failing || Leased(Save(app, Saving in w.failing).app.store, w.newThread)
  }

  /**
   A new thread that is not entered stays in the store exactly when it was
   created and its lease was refused, or the clean-up failed: a refused lease is
   not cleaned up after.
   */
  lemma EmptyThreadIsLeftIff(app: App, w: World)
    requires HoldsOne(app) && w.newThread !in app.store.threads && w.newThread != app.thread
    requires !NewThread(app, w).committed
    ensures var now := Save(app, Saving in w.failing);
            w.newThread in NewThread(app, w).app.store.threads <==>
              && !now.thrown && OpeningWorkspace !in w.failing && Creating !in w.failing
              && (LeaseRefused(app, w) || ReleasingNext in w.failing || Deleting in w.failing)
  {
    SaveSettles(app, Saving in w.failing);
    var saved := Save(app, Saving in w.failing).app;
    hide Save, Sync, Synced, StopWork, Leased;
    var next := NewSession(saved, w);
    var created := saved.store.(threads := saved.store.threads[w.newThread := next]);
    LeasedAlike(created, saved.store, w.newThread);
    var leased := WithNew(saved, w);
    StopWorkKeeps(leased, w);
    assert w.newThread in leased.store.threads.Keys;
    assert w.newThread in StopWork(leased, w).app.store.threads.Keys;
  }

  /** Nothing but the lease of the new thread fails: the app stays, and the thread is in the store. */
  lemma RefusedLeaseLeavesTheThread(app: App, w: World)
    requires HoldsOne(app) && w.newThread !in app.store.threads && w.newThread != app.thread
    requires w.failing == {Acquiring} && !Save(app, false).thrown
    ensures var r := NewThread(app, w); r.thrown && !r.committed && w.newThread in r.app.store.threads
  {
    SaveSettles(app, false);
    hide Save, Synced, Refused;
    assert w.newThread !in Save(app, false).app.store.threads.Keys;
  }

  lemma LeasedAlike(a: Store, b: Store, thread: ThreadId)
    requires a.held == b.held && a.foreign == b.foreign
    ensures Leased(a, thread) == Leased(b, thread)
  {}

  /** Resuming enters the target with its lease, or the app stays; the same holds of its leases. */
  lemma ResumeHandsOver(app: App, thread: ThreadId, w: World)
    requires HoldsOne(app)
    ensures var r := ResumeThread(app, thread, w);
            && (r.committed ==>
                  && HoldsOne(r.app) && r.app.thread == thread != app.thread
                  && r.app.workspace.id == w.folders.id && !r.app.paused)
            && (!r.committed ==> Untouched(app, r.app) && (r.thrown || thread == app.thread))
            && (!r.committed ==> (HoldsOne(r.app) <==> !(ReleasingNext in w.failing && TakesTarget(app, thread, w))))
            && (!r.committed && Rearming !in w.failing && !app.paused ==> !r.app.paused)
  {
    SaveSettles(app, Saving in w.failing);
    var saved := Save(app, Saving in w.failing).app;
    hide Save, Sync, Synced, HandOver;
    var lease := Lease(thread, w.token);
    assert app.lease.value in saved.store.held && Leased(saved.store, app.thread);
    LeasedAlike(saved.store, app.store, thread);
    var leased := WithLease(saved, lease);
    assert lease != app.lease.value ==> {app.lease.value} + {lease} - {lease} == {app.lease.value};
    if thread != app.thread && thread in leased.store.threads {
      HandOverKeeps(leased, leased.store.threads[thread], lease, w);
    }
  }

  lemma EnterKeeps(store: Store, stored: Session, lease: Lease, w: World)
    ensures var r := Enter(store, stored, lease, w);
            && r.committed && r.app.thread == lease.thread && r.app.lease == Some(lease) && !r.app.paused
            && r.app.workspace.id == w.folders.id && r.app.store.held == store.held
            && r.app.store.threads.Keys == store.threads.Keys
            && r.app.store.threads - {lease.thread} == store.threads - {lease.thread}
  {
    SaveSettles(Entered(store, stored, lease, w), SavingResumed in w.failing);
    hide Save, Recovered, Unsaved, RestoredRecord, Mended;
  }

  lemma HandOverKeeps(app: App, stored: Session, lease: Lease, w: World)
    requires app.lease.Some? && app.lease.value.thread == app.thread != lease.thread
    requires app.store.held == {app.lease.value} + {lease}
    ensures var r := HandOver(app, stored, lease, w);
            && (r.committed ==>
                  && HoldsOne(r.app) && r.app.thread == lease.thread && r.app.workspace.id == w.folders.id &&
                     !r.app.paused)
            && (!r.committed ==>
                  && r.thrown && Untouched(app, r.app)
                  && r.app.store.held == (if ReleasingNext in w.failing then app.store.held else {app.lease.value})
                  && (Rearming !in w.failing ==> !r.app.paused))
  {
    hide Leave, RollBack, Enter, Mended;
    LeaveKeeps(app, w);
    var left := Leave(app, w).app;
    RollBackKeeps(left, lease, false, w);
    var reconciled := left.(store := Reconciled(left.store, lease.thread, w));
    RollBackKeeps(reconciled, lease, false, w);
    EnterKeeps(Released(reconciled.store, app.lease.value), stored, lease, w);
    assert app.store.held - {lease} == {app.lease.value};
    assert app.store.held - {app.lease.value} == {lease};
  }

  // ---- What is stored of the thread that is left ----

  /** The stored copy of a thread. */
  predicate StoredAs(app: App, thread: ThreadId, state: Session) {
    thread in app.store.threads && Agrees(app.store.threads[thread], state)
  }

  /** A thread without unsaved work is stored as it is. */
  predicate Filed(app: App) {
    !app.dirty ==> StoredAs(app, app.thread, app.state)
  }

  /** The store has no change of the thread that the thread lacks. */
  predicate Covered(app: App) {
    app.thread in app.store.threads ==>
      && app.store.threads[app.thread].project == app.state.project
      && Keys(app.store.threads[app.thread].recorded.changes) <= Keys(app.state.recorded.changes)
  }

  predicate Tracked(app: App) {
    Filed(app) && Covered(app)
  }

  /** The thread with what it had once the child agents were stopped. */
  function StoppedFrom(state: Session, workspace: Workspace, w: World): Session {
    Synced(HandedTo(state, w.handed), workspace.(recorded := w.stopped))
  }

  function StoppedState(app: App, w: World): Session {
    StoppedFrom(Synced(app.state, app.workspace), app.workspace, w)
  }

  /** The same with what the workspace had recorded when the commands were stopped too. */
  function SettledState(app: App, w: World): Session {
    Synced(StoppedState(app, w), app.workspace.(recorded := w.settled))
  }

  lemma SaveTracks(app: App, fails: bool)
    requires Tracked(app)
    ensures var after := Save(app, fails);
            Tracked(after.app) && (!after.thrown ==> StoredAs(after.app, app.thread, after.app.state))
  {
    SaveSettles(app, fails);
    MergeGrows(app.state.recorded.changes, app.workspace.recorded.changes);
    if app.thread in app.store.threads {
      StoredIs(app.store.threads[app.thread], Synced(app.state, app.workspace));
    }
    hide Save, Stored, Merge, Reads, Keys;
  }

  lemma CollectedTracks(app: App, handed: seq<Change>)
    requires Tracked(app)
    ensures Tracked(Collected(app, handed))
  {
    if app.thread in app.store.threads {
      AddedIsUnion(app.state.recorded.changes, handed);
      AddedIsUnion(app.store.threads[app.thread].recorded.changes, handed);
    }
    hide Added, Keys, Reads;
  }

  lemma StopWorkTracks(app: App, w: World)
    requires Tracked(app)
    ensures var r := StopWork(app, w);
            && Tracked(r.app)
            && (!r.thrown && app.thread in app.store.threads ==>
                  && r.app.state == StoppedFrom(app.state, app.workspace, w)
                  && r.app.workspace == app.workspace.(recorded := w.settled)
                  && StoredAs(r.app, app.thread, r.app.state))
  {
    CollectedTracks(app, w.handed);
    CollectedKeeps(app, w.handed);
    var paused := Paused(app, w);
    assert Tracked(paused);
    SaveTracks(paused, SavingPaused in w.failing);
    SaveSettles(paused, SavingPaused in w.failing);
    hide Save, Collected, Agrees, Synced, HandedTo;
  }

  lemma LeaveTracks(app: App, w: World)
    requires Tracked(app) && app.thread in app.store.threads
    ensures var left := Leave(app, w);
            && Tracked(left.app)
            && (!left.thrown ==>
                  StoredAs(left.app, app.thread, Synced(StoppedFrom(app.state, app.workspace, w),
                                                        app.workspace.(recorded := w.settled))))
  {
    StopWorkTracks(app, w);
    StopWorkKeeps(app, w);
    var stopped := StopWork(app, w).app;
    SaveTracks(stopped, SavingAgain in w.failing);
    SaveSettles(stopped, SavingAgain in w.failing);
    hide Save, StopWork, Synced, StoppedFrom, Tracked, Agrees;
  }

  lemma RollBackTracks(app: App, next: Lease, created: bool, w: World)
    requires Tracked(app) && (created ==> next.thread != app.thread)
    ensures Tracked(RollBack(app, next, created, w).app)
  {
    hide Keys, Agrees;
  }

  /**
   A new thread stores the one that is left as it was when its child agents were
   stopped. What its commands record while they are stopped is lost.
   */
  lemma NewThreadFilesTheOldOne(app: App, w: World)
    requires Tracked(app)
    ensures var r := NewThread(app, w).app;
            && Tracked(r)
            && (NewThread(app, w).committed ==>
                  && StoredAs(r, app.thread, StoppedState(app, w))
                  && (StoredAs(r, app.thread, SettledState(app, w)) <==>
                        && Reads(w.settled.versions) == Reads(w.stopped.versions)
                        && forall c :: c in w.settled.changes ==> Known(StoppedState(app, w).recorded.changes, c.key)))
  {
    SaveTracks(app, Saving in w.failing);
    SaveSettles(app, Saving in w.failing);
    SettledIsStoppedIff(app, w, NewThread(app, w).app);
    var saved := Save(app, Saving in w.failing);
    hide Save, OpenNew, Synced, SettledState, Known, Agrees, Keys, Reads, StoppedFrom;
    if !saved.thrown {
      OpenNewTracks(saved.app, w);
    }
  }

  lemma OpenNewTracks(app: App, w: World)
    requires Tracked(app) && app.thread in app.store.threads
    ensures var r := OpenNew(app, w);
            && Tracked(r.app)
            && (r.committed ==> StoredAs(r.app, app.thread, StoppedFrom(app.state, app.workspace, w)))
  {
    hide StopWork, Synced, RollBack, Agrees, Keys, StoppedFrom;
    if w.newThread !in app.store.threads {
      var leased := WithNew(app, w);
      assert Tracked(leased);
      StopWorkTracks(leased, w);
      StopWorkKeeps(leased, w);
      var stopped := StopWork(leased, w).app;
      RollBackTracks(stopped, Lease(w.newThread, w.token), true, w);
      RollBackKeeps(stopped, Lease(w.newThread, w.token), true, w);
      StillThere(leased, stopped, stopped, w.newThread);
      AgreesWithItself(NewSession(app, w));
    }
  }

  lemma AgreesWithItself(state: Session)
    ensures Agrees(state, state)
  {}

  /** What two steps do to the current thread leaves the others as they are stored. */
  lemma StillThere(app: App, a: App, b: App, thread: ThreadId)
    requires a.thread == app.thread && thread != app.thread && thread in app.store.threads
    requires a.store.threads - {app.thread} == app.store.threads - {app.thread}
    requires b.store.threads - {app.thread} == a.store.threads - {app.thread}
    ensures thread in b.store.threads && b.store.threads[thread] == app.store.threads[thread]
  {
    assert thread in app.store.threads - {app.thread};
    assert thread in b.store.threads - {app.thread};
    assert b.store.threads[thread] == (b.store.threads - {app.thread})[thread];
  }

  lemma SettledIsStoppedIff(app: App, w: World, end: App)
    ensures StoredAs(end, app.thread, StoppedState(app, w)) ==>
              (StoredAs(end, app.thread, SettledState(app, w)) <==>
                 && Reads(w.settled.versions) == Reads(w.stopped.versions)
                 && forall c :: c in w.settled.changes ==> Known(StoppedState(app, w).recorded.changes, c.key))
  {
    SyncedReads(HandedTo(Synced(app.state, app.workspace), w.handed), app.workspace.(recorded := w.stopped));
    hide Synced, HandedTo, Agrees, Reads, Known;
    if StoredAs(end, app.thread, StoppedState(app, w)) {
      SyncedAgreesIff(end.store.threads[app.thread], StoppedState(app, w), app.workspace.(recorded := w.settled));
    }
  }

  lemma SyncedReads(state: Session, workspace: Workspace)
    ensures Reads(Synced(state, workspace).recorded.versions) == Reads(workspace.recorded.versions)
  {
    ReadsOfPutAll([], workspace.recorded.versions);
  }

  lemma SyncedAgreesIff(stored: Session, state: Session, workspace: Workspace)
    requires Agrees(stored, state)
    ensures Agrees(stored, Synced(state, workspace)) <==>
              && Reads(workspace.recorded.versions) == Reads(state.recorded.versions)
              && forall c :: c in workspace.recorded.changes ==> Known(state.recorded.changes, c.key)
  {
    SyncedReads(state, workspace);
    MergeGrows(state.recorded.changes, workspace.recorded.changes);
    hide Reads, Keys, Merge, Known, PutAll;
  }

  /** The delta of the thread as it is stopped is one that the store takes. */
  predicate Storable(app: App, w: World) {
    && app.thread in app.store.threads && app.store.threads[app.thread].root == app.state.root
    && DistinctFiles(StoppedState(app, w).recorded.changes)
  }

  /** Nothing fails, and yet a change recorded while the commands were stopped is not stored. */
  lemma LateChangeIsLost(app: App, w: World, late: Change)
    requires HoldsOne(app) && Tracked(app) && w.failing == {} && Storable(app, w)
    requires w.newThread !in app.store.threads && w.newThread !in app.store.foreign
    requires late in w.settled.changes && !Known(StoppedState(app, w).recorded.changes, late.key)
    ensures NewThread(app, w).committed && !StoredAs(NewThread(app, w).app, app.thread, SettledState(app, w))
  {
    NewThreadFilesTheOldOne(app, w);
    NewThreadHandsOver(app, w);
    NothingRefuses(app, w);
    var saved := Save(app, false).app;
    SaveSettles(app, false);
    var leased := WithNew(saved, w);
    StopWorkKeeps(leased, w);
    hide Save, StopWork, Synced, SettledState, StoppedState, Known, RollBack;
    assert w.newThread !in saved.store.threads.Keys;
    assert !Leased(saved.store, w.newThread);
    assert app.lease.value in leased.store.held;
  }

  lemma NothingRefuses(app: App, w: World)
    requires w.failing == {} && Storable(app, w) && w.newThread != app.thread
    ensures !Save(app, false).thrown && !StopWork(WithNew(Save(app, false).app, w), w).thrown
  {
    var synced, stopped := Synced(app.state, app.workspace), StoppedState(app, w);
    var handed := HandedTo(synced, w.handed);
    AddedIsUnion(synced.recorded.changes, w.handed);
    MergeIsUnion(handed.recorded.changes, w.stopped.changes);
    MergeIsUnion(app.state.recorded.changes, app.workspace.recorded.changes);
    PrefixDistinct(synced.recorded.changes, stopped.recorded.changes);
    MissingDistinct(app.store.threads[app.thread].recorded.changes, synced.recorded.changes);
    SaveSettles(app, false);
    hide Merge, Missing, DistinctFiles;
    var leased := WithNew(Save(app, false).app, w);
    CollectedKeeps(leased, w.handed);
    var paused := Paused(leased, w);
    SaveSettles(paused, false);
    assert Synced(paused.state, paused.workspace) == stopped;
    MissingDistinct(paused.store.threads[app.thread].recorded.changes, stopped.recorded.changes);
    hide Save, Collected, Synced;
  }

  lemma PrefixDistinct(a: seq<Change>, b: seq<Change>)
    requires a <= b && DistinctFiles(b)
    ensures DistinctFiles(a)
  {
    assert forall i :: 0 <= i < |a| ==> a[i] == b[i];
  }

  // ---- What is stored of the thread that is entered ----

  /**
   Restoring loses no change that is stored; and unless there is something to
   save, the primary folder and what was read are as they were stored.
   */
  predicate Kept(stored: Session, w: World) {
    && Keys(stored.recorded.changes) <= Keys(RestoredRecord(stored, w).changes)
    && (Unsaved(stored, w) ||
        (stored.root == w.folders.root &&
         Reads(RestoredRecord(stored, w).versions) == Reads(stored.recorded.versions)))
  }

  /** Said of the folders: no path of a change moves, and where nothing is saved, none of a file that was read. */
  lemma KeptIff(stored: Session, w: World)
    requires Stable(w.folders) && DistinctPaths(stored.recorded.versions)
    ensures Kept(stored, w) <==>
              && (forall c :: c in stored.recorded.changes ==> PathKept(c.key.path, w.folders))
              && (Unsaved(stored, w) ||
                  (stored.root == w.folders.root && forall v :: v in stored.recorded.versions ==>
                     w.folders.normal[v.path] == v.path))
  {
    KeysKeptIff(stored.recorded.changes, w.folders);
    ReadsKeptIff(stored.recorded.versions, w.folders);
    hide RestoredReads, RestoredChanges, Keys, Reads, PathKept;
  }

  /** Entering the thread syncs nothing: the workspace has what the thread has. */
  lemma EnteredIsSynced(store: Store, stored: Session, lease: Lease, w: World)
    ensures var e := Entered(store, stored, lease, w); Synced(e.state, e.workspace) == e.state
  {
    var changes := RestoredRecord(stored, w).changes;
    hide RestoredReads, RestoredChanges;
    forall i | 0 <= i < |changes| ensures Known(changes, changes[i].key) {}
    MergeKnown(changes, changes);
  }

  lemma EnteredTracksIff(store: Store, stored: Session, lease: Lease, w: World, fails: bool)
    requires lease.thread in store.threads && store.threads[lease.thread] == Mended(stored, w)
    ensures var e := Entered(store, stored, lease, w);
            var last := Save(e, fails).app;
            && (Tracked(e) <==> Kept(stored, w)) && (Filed(e) <==> e.dirty || Kept(stored, w))
            && (Tracked(last) <==> Kept(stored, w)) && (Filed(last) <==> last.dirty || Kept(stored, w))
            && last.state == e.state
  {
    var e := Entered(store, stored, lease, w);
    EnteredIsSynced(store, stored, lease, w);
    SaveSettles(e, fails);
    StoredIs(Mended(stored, w), e.state);
    hide Save, Synced, Keys, Reads, RestoredReads, RestoredChanges, Stored, Stale;
  }

  /** The stored copy of a thread that was entered and saved. */
  predicate SettledCopy(app: App, stored: Session, w: World) {
    && !app.dirty && app.thread in app.store.threads
    && app.store.threads[app.thread] ==
         if Unsaved(stored, w) then Stored(Mended(stored, w), app.state) else Mended(stored, w)
  }

  lemma EnterSettles(store: Store, stored: Session, lease: Lease, w: World)
    requires lease.thread in store.threads && store.threads[lease.thread] == Mended(stored, w)
    ensures var r := Enter(store, stored, lease, w); !r.thrown ==> SettledCopy(r.app, stored, w)
  {
    EnteredIsSynced(store, stored, lease, w);
    SaveSettles(Entered(store, stored, lease, w), SavingResumed in w.failing);
    hide Save, Synced, Recovered, Mended, Unsaved, RestoredRecord, Stored;
  }

  lemma EnterTracks(store: Store, stored: Session, lease: Lease, w: World)
    requires lease.thread in store.threads && store.threads[lease.thread] == Mended(stored, w)
    ensures var r := Enter(store, stored, lease, w);
            && (Tracked(r.app) <==> Kept(stored, w)) && (Filed(r.app) <==> r.app.dirty || Kept(stored, w))
            && r.app.state == Mended(Recovered(stored, w), w)
            && (!r.thrown ==> SettledCopy(r.app, stored, w))
  {
    EnterSettles(store, stored, lease, w);
    EnteredTracksIff(store, stored, lease, w, SavingResumed in w.failing);
    hide Save, Kept, Tracked, Filed, Recovered, Mended, Unsaved, RestoredRecord, SettledCopy;
  }

  lemma HandOverTracks(app: App, stored: Session, lease: Lease, w: World)
    requires Tracked(app) && lease.thread != app.thread && app.thread in app.store.threads
    requires lease.thread in app.store.threads && stored == app.store.threads[lease.thread]
    ensures var r := HandOver(app, stored, lease, w);
            && (!r.committed ==> Tracked(r.app))
            && (r.committed ==>
                  && (Tracked(r.app) <==> Kept(stored, w)) && (Filed(r.app) <==> r.app.dirty || Kept(stored, w))
                  && r.app.state == Mended(Recovered(stored, w), w)
                  && (!r.thrown ==> SettledCopy(r.app, stored, w))
                  && StoredAs(r.app, app.thread, Synced(StoppedFrom(app.state, app.workspace, w),
                                                        app.workspace.(recorded := w.settled))))
  {
    LeaveTracks(app, w);
    LeaveKeeps(app, w);
    var left := Leave(app, w).app;
    hide Leave, RollBack, Synced, Kept, Agrees, Keys, Recovered, StoppedFrom, Mended, Enter, SettledCopy;
    StillThere(app, left, left, lease.thread);
    var reconciled := left.(store := Reconciled(left.store, lease.thread, w));
    assert Tracked(left) && Tracked(reconciled);
    hide Tracked, Filed;
    RollBackTracks(left, lease, false, w);
    RollBackTracks(reconciled, lease, false, w);
    if reconciled.lease.Some? {
      var store := Released(reconciled.store, reconciled.lease.value);
      EnterTracks(store, stored, lease, w);
      EnterKeeps(store, stored, lease, w);
      var last := Enter(store, stored, lease, w).app;
      assert app.thread in store.threads - {lease.thread};
      assert last.store.threads[app.thread] == (last.store.threads - {lease.thread})[app.thread];
    }
  }

  /**
   The thread that is left is stored with all it has recorded until its commands
   were stopped, whatever else fails, or it is still the current one and tracked.
   */
  lemma ResumeFilesTheOldOne(app: App, thread: ThreadId, w: World)
    requires Tracked(app)
    ensures var r := ResumeThread(app, thread, w);
            && (!r.committed ==> Tracked(r.app))
            && (r.committed ==> StoredAs(r.app, app.thread, SettledState(app, w)))
  {
    ResumeTracks(app, thread, w);
  }

  /**
   A resumed thread that has nothing to save equals its stored copy if and only
   if restoring kept what is stored; and only then has the store no change that
   the thread lacks.
   */
  lemma ResumedIsFiledIff(app: App, thread: ThreadId, w: World)
    requires Tracked(app) && ResumeThread(app, thread, w).committed
    ensures var r := ResumeThread(app, thread, w);
            && thread in app.store.threads
            && var stored := app.store.threads[thread];
               && (Filed(r.app) <==> r.app.dirty || Kept(stored, w))
               && (Tracked(r.app) <==> Kept(stored, w))
               && r.app.state.recorded == RestoredRecord(stored, w)
  {
    ResumeTracks(app, thread, w);
  }

  /** A resumed thread is its stored copy in the folders of today, with a model that is available. */
  lemma ResumedThreadIs(app: App, thread: ThreadId, w: World)
    requires Tracked(app) && ResumeThread(app, thread, w).committed
    ensures var r := ResumeThread(app, thread, w);
            && thread in app.store.threads
            && var stored := app.store.threads[thread];
               && r.app.thread == thread && r.app.state.project == stored.project
               && r.app.state.root == r.app.workspace.root == w.folders.root
               && r.app.state.model == (if w.fallback.Some? then w.fallback.value else stored.model)
               && r.app.state.rest == (if w.mended.Some? then w.mended.value else stored.rest)
               && r.app.workspace.recorded == r.app.state.recorded
               && (!r.thrown ==>
                     && r.app.thread in r.app.store.threads
                     && r.app.store.threads[thread].model == r.app.state.model
                     && r.app.store.threads[thread].rest == r.app.state.rest)
  {
    ResumeTracks(app, thread, w);
    ResumeEnters(app, thread, w);
    hide ResumeThread, Kept, Filed, Tracked, StoredAs, RestoredRecord, StoredVersions;
  }

  lemma ResumeEnters(app: App, thread: ThreadId, w: World)
    requires ResumeThread(app, thread, w).committed
    ensures var r := ResumeThread(app, thread, w).app;
            && r.thread == thread && r.workspace.id == w.folders.id && r.workspace.root == w.folders.root
            && r.workspace.recorded == r.state.recorded
  {
    hide Leave, RollBack, Enter;
    var saved := Save(app, Saving in w.failing).app;
    var lease := Lease(thread, w.token);
    var leased := WithLease(saved, lease);
    hide Save;
    if thread in leased.store.threads {
      var left := Leave(leased, w).app;
      RollBackKeeps(left, lease, false, w);
      var reconciled := left.(store := Reconciled(left.store, thread, w));
      RollBackKeeps(reconciled, lease, false, w);
      if reconciled.lease.Some? {
        EnterIsWhole(Released(reconciled.store, reconciled.lease.value), leased.store.threads[thread], lease, w);
      }
    } else {
      UnknownIsUnusable(leased, thread, w);
    }
  }

  lemma EnterIsWhole(store: Store, stored: Session, lease: Lease, w: World)
    ensures var r := Enter(store, stored, lease, w).app;
            && r.thread == lease.thread && r.workspace.id == w.folders.id && r.workspace.root == w.folders.root
            && r.workspace.recorded == r.state.recorded
  {
    EnteredIsSynced(store, stored, lease, w);
    SaveSettles(Entered(store, stored, lease, w), SavingResumed in w.failing);
    hide Save, Synced, RestoredRecord, Unsaved;
  }

  lemma ResumeTracks(app: App, thread: ThreadId, w: World)
    requires Tracked(app)
    ensures var r := ResumeThread(app, thread, w);
            && (!r.committed ==> Tracked(r.app))
            && (r.committed ==>
                  && thread in app.store.threads
                  && (Tracked(r.app) <==> Kept(app.store.threads[thread], w))
                  && (Filed(r.app) <==> r.app.dirty || Kept(app.store.threads[thread], w))
                  && r.app.state == Mended(Recovered(app.store.threads[thread], w), w)
                  && (!r.thrown ==> SettledCopy(r.app, app.store.threads[thread], w))
                  && StoredAs(r.app, app.thread, SettledState(app, w)))
  {
    SaveTracks(app, Saving in w.failing);
    SaveSettles(app, Saving in w.failing);
    var saved := Save(app, Saving in w.failing);
    hide Save, OpenTarget, Synced, Kept, Agrees, Keys, Recovered, Mended, StoppedFrom, SettledCopy;
    if thread != app.thread && !saved.thrown {
      OpenTargetTracks(saved.app, thread, w);
      if thread in saved.app.store.threads {
        assert thread in app.store.threads.Keys;
        StillThere(app, saved.app, saved.app, thread);
      }
    }
  }

  lemma OpenTargetTracks(app: App, thread: ThreadId, w: World)
    requires Tracked(app) && thread != app.thread && app.thread in app.store.threads
    ensures var r := OpenTarget(app, thread, w);
            && (!r.committed ==> Tracked(r.app))
            && (r.committed ==>
                  && thread in app.store.threads
                  && (Tracked(r.app) <==> Kept(app.store.threads[thread], w))
                  && (Filed(r.app) <==> r.app.dirty || Kept(app.store.threads[thread], w))
                  && r.app.state == Mended(Recovered(app.store.threads[thread], w), w)
                  && (!r.thrown ==> SettledCopy(r.app, app.store.threads[thread], w))
                  && StoredAs(r.app, app.thread, Synced(StoppedFrom(app.state, app.workspace, w),
                                                        app.workspace.(recorded := w.settled))))
  {
    hide HandOver, Synced, Kept, Agrees, Keys, Recovered, Mended, StoppedFrom, SettledCopy;
    var lease := Lease(thread, w.token);
    LeasedTracks(app, lease);
    hide Tracked, Filed, Covered, Leased;
    if thread in app.store.threads {
      HandOverTracks(WithLease(app, lease), app.store.threads[thread], lease, w);
    } else {
      UnknownIsUnusable(WithLease(app, lease), thread, w);
    }
  }

  lemma UnknownIsUnusable(app: App, thread: ThreadId, w: World)
    requires thread !in app.store.threads
    ensures Unusable(app, thread, w)
  {}

  lemma LeasedTracks(app: App, lease: Lease)
    requires Tracked(app)
    ensures Tracked(WithLease(app, lease)) &&
            Tracked(WithLease(app, lease).(store := Released(WithLease(app, lease).store, lease)))
  {
    hide Agrees, Keys;
  }

  // ---- A change that moves ----

  /** Nothing is left to save, and stopping the work records nothing more. */
  predicate Idle(app: App, w: World) {
    && !app.dirty && Synced(app.state, app.workspace) == app.state
    && w.handed == [] && w.stopped == app.workspace.recorded == w.settled
  }

  /** The target can be taken and used. */
  predicate Usable(app: App, thread: ThreadId, w: World) {
    && thread !in app.store.children && thread !in app.store.foreign && thread != app.thread
    && thread in app.store.threads && app.store.threads[thread].project == app.state.project
    && app.store.threads[thread].root == w.folders.root
  }

  lemma IdleLeaves(app: App, w: World)
    requires Idle(app, w) && w.failing == {}
    ensures Save(app, false) == Outcome(app, false, false)
    ensures Leave(app, w) == Outcome(app.(paused := true), false, false)
  {
    hide Synced;
    assert Sync(app) == app;
    assert Paused(app, w) == app.(paused := true);
    assert Sync(Paused(app, w)) == Paused(app, w);
  }

  /**
   A stored change whose path the folders of today give another name, as a second
   folder does to all paths of the first: the resumed thread has the change under
   its new name alone, the store has both, and nothing is left to save.
   */
  lemma MovedChangeIsStoredTwice(app: App, thread: ThreadId, w: World, c: Change, path: string)
    requires HoldsOne(app) && Tracked(app) && Idle(app, w) && Usable(app, thread, w) && w.failing == {}
    requires app.store.threads[thread].recorded.changes == [c]
    requires c.key.path !in w.folders.missing && c.key.path in w.folders.normal
    requires w.folders.normal[c.key.path] == path != c.key.path
    ensures var r := ResumeThread(app, thread, w);
            && r.committed && !r.thrown && !r.app.dirty && !Filed(r.app)
            && r.app.state.recorded.changes == [Moved(c, path)]
            && r.app.store.threads[thread].recorded.changes == [c, Moved(c, path)]
  {
    var stored, lease := app.store.threads[thread], Lease(thread, w.token);
    ResumeIsEnter(app, thread, w);
    ResumeTracks(app, thread, w);
    OneMoves(stored, w, c, path);
    var store := Released(Reconciled(WithLease(app, lease).store, thread, w), app.lease.value);
    EnterIsTaken(store, stored, lease, w);
    hide ResumeThread, Enter, Kept, RestoredRecord, Missing, Unsaved, Filed, Tracked;
  }

  /** With nothing to save and nothing that fails, resuming comes down to entering the thread. */
  lemma ResumeIsEnter(app: App, thread: ThreadId, w: World)
    requires HoldsOne(app) && Idle(app, w) && Usable(app, thread, w) && w.failing == {}
    ensures var lease := Lease(thread, w.token);
            var store := Released(Reconciled(WithLease(app, lease).store, thread, w), app.lease.value);
            ResumeThread(app, thread, w) == Enter(store, app.store.threads[thread], lease, w)
  {
    var leased := WithLease(app, Lease(thread, w.token));
    assert Reconciled(leased.store, thread, w).held == leased.store.held;
    assert app.lease.value in leased.store.held;
    assert !Leased(app.store, thread);
    hide Enter, Reconciled, Save, Leave, Leased;
    IdleLeaves(app, w);
    IdleLeaves(leased, w);
  }

  lemma OneMoves(stored: Session, w: World, c: Change, path: string)
    requires stored.recorded.changes == [c] && c.key.path !in w.folders.missing
    requires c.key.path in w.folders.normal && w.folders.normal[c.key.path] == path != c.key.path
    ensures RestoredRecord(stored, w).changes == [Moved(c, path)] && Unsaved(stored, w) && !Kept(stored, w)
    ensures Missing([c], [Moved(c, path)]) == [Moved(c, path)]
  {
    KeyOfOne(c);
    KeyOfOne(Moved(c, path));
    var none: seq<Change> := [];
    assert [c][1..] == none && [Moved(c, path)][1..] == none;
    assert Restored(c, w.folders) == [Moved(c, path)];
    assert none + [Moved(c, path)] == [Moved(c, path)];
    assert RestoredChanges([c], w.folders, none) == RestoredChanges(none, w.folders, [Moved(c, path)]);
    assert [Moved(c, path)][0] != [c][0];
    assert FileKeyOf(c) in Keys([c]) && FileKeyOf(c) !in Keys([Moved(c, path)]);
  }

  lemma EnterIsTaken(store: Store, stored: Session, lease: Lease, w: World)
    requires w.failing == {} && lease.thread in store.threads && store.threads[lease.thread] == Mended(stored, w)
    requires stored.root == w.folders.root
    requires DistinctFiles(Missing(stored.recorded.changes, RestoredRecord(stored, w).changes))
    ensures !Enter(store, stored, lease, w).thrown
  {
    EnteredIsSynced(store, stored, lease, w);
    SaveSettles(Entered(store, stored, lease, w), false);
    hide Save, Synced, RestoredRecord, Missing, DistinctFiles, Unsaved;
  }

  // ---- Every run ----

  /** Threads and folders are changed, and between the changes turns work on the current thread. */
  datatype Call =
    | New(world: World)
    | Resume(thread: ThreadId, world: World)
    | Reopen(world: World)
    | Keep(fails: bool)
    | Turn(handed: seq<Change>, found: Record, model: string, rest: string)

  function Do(app: App, call: Call): App {
    match call
    case New(w) => NewThread(app, w).app
    case Resume(thread, w) => ResumeThread(app, thread, w).app
    case Reopen(w) => ChangeFolders(app, w).app
    case Keep(fails) => Save(app, fails).app
    case Turn(handed, found, model, rest) =>
      var now := Collected(app, handed);
      now.(state := now.state.(model := model, rest := rest), workspace := now.workspace.(recorded := found),
           dirty := true)
  }

  function Run(app: App, calls: seq<Call>): App {
    if |calls| == 0 then app else Do(Run(app, calls[..|calls| - 1]), calls[|calls| - 1])
  }

  /** Giving back the next lease never fails; anything else may. */
  predicate LeasesReturn(calls: seq<Call>) {
    forall c :: c in calls && (c.New? || c.Resume?) ==> ReleasingNext !in c.world.failing
  }

  /** Whatever else fails, at the end of every call the app holds exactly the lease of the thread it shows. */
  lemma {:induction false} OneLeaseAlways(app: App, calls: seq<Call>)
    requires HoldsOne(app) && LeasesReturn(calls)
    ensures HoldsOne(Run(app, calls))
  {
    hide Do, HoldsOne;
    if |calls| > 0 {
      var n := |calls| - 1;
      assert forall c :: c in calls[..n] ==> c in calls;
      assert calls[n] in calls;
      OneLeaseAlways(app, calls[..n]);
      DoHoldsOne(Run(app, calls[..n]), calls[n]);
    }
  }

  lemma DoHoldsOne(app: App, call: Call)
    requires HoldsOne(app) && (call.New? || call.Resume? ==> ReleasingNext !in call.world.failing)
    ensures HoldsOne(Do(app, call))
  {
    hide NewThread, ResumeThread, Save, Collected;
    match call
    case New(w) => NewThreadHandsOver(app, w);
    case Resume(thread, w) => ResumeHandsOver(app, thread, w);
    case Reopen(w) => SaveSettles(Reopened(app, w), Saving in w.failing);
    case Keep(fails) => SaveSettles(app, fails);
    case Turn(handed, _, _, _) => CollectedKeeps(app, handed);
  }

  lemma ReopenedTracks(app: App, w: World)
    requires Tracked(app)
    ensures Tracked(ChangeFolders(app, w).app)
  {
    hide Save, Keys, Agrees, RestoredRecord;
    if OpeningWorkspace !in w.failing {
      assert Tracked(Reopened(app, w));
      SaveTracks(Reopened(app, w), Saving in w.failing);
    }
  }

  /** The call enters no thread whose stored copy is not kept. */
  predicate KeepsEntered(app: App, call: Call) {
    call.Resume? && ResumeThread(app, call.thread, call.world).committed ==>
      call.thread in app.store.threads && Kept(app.store.threads[call.thread], call.world)
  }

  lemma DoTracks(app: App, call: Call)
    requires Tracked(app)
    ensures Tracked(Do(app, call)) <==> KeepsEntered(app, call)
  {
    hide NewThread, ResumeThread, ChangeFolders, Save, Collected, Kept, Keys, Agrees;
    match call
    case New(w) => NewThreadFilesTheOldOne(app, w);
    case Resume(thread, w) => ResumeTracks(app, thread, w);
    case Reopen(w) => ReopenedTracks(app, w);
    case Keep(fails) => SaveTracks(app, fails);
    case Turn(handed, _, _, _) => CollectedTracks(app, handed);
  }

  /** No call of the run enters one. */
  predicate AllKept(app: App, calls: seq<Call>) {
    |calls| > 0 ==>
      var n := |calls| - 1;
      AllKept(app, calls[..n]) && KeepsEntered(Run(app, calls[..n]), calls[n])
  }

  /** The thread is tracked at the end of every call. */
  predicate TrackedThroughout(app: App, calls: seq<Call>) {
    Tracked(Run(app, calls)) && (|calls| > 0 ==> TrackedThroughout(app, calls[..|calls| - 1]))
  }

  /**
   Whatever fails, at the end of every call a thread without unsaved work is
   stored as it is and the store has no change of it that it lacks, if and only
   if each resumed thread's stored copy was kept.
   */
  lemma {:induction false} FiledAlwaysIff(app: App, calls: seq<Call>)
    requires Tracked(app)
    ensures TrackedThroughout(app, calls) <==> AllKept(app, calls)
    decreases |calls|
  {
    hide Do, Tracked, KeepsEntered;
    if |calls| > 0 {
      var n := |calls| - 1;
      FiledAlwaysIff(app, calls[..n]);
      if Tracked(Run(app, calls[..n])) {
        DoTracks(Run(app, calls[..n]), calls[n]);
      }
    }
  }

  // ---- What is stored stays stored ----

  type Threads = map<ThreadId, Session>

  /** No thread is lost, and of each the stored changes are still there, in order, with what was fixed for it. */
  predicate Grows(a: Threads, b: Threads) {
    forall t :: t in a ==>
      && t in b && a[t].recorded.changes <= b[t].recorded.changes && a[t].project == b[t].project &&
         a[t].root == b[t].root
  }

  lemma GrowsOn(a: Threads, b: Threads, c: Threads)
    requires Grows(a, b) && Grows(b, c)
    ensures Grows(a, c)
  {}

  lemma SaveGrows(app: App, fails: bool)
    ensures Grows(app.store.threads, Save(app, fails).app.store.threads)
  {
    SaveSettles(app, fails);
    if app.thread in app.store.threads {
      StoredIs(app.store.threads[app.thread], Save(app, fails).app.state);
    }
    hide Save, Stored;
  }

  lemma CollectedGrows(app: App, handed: seq<Change>)
    ensures Grows(app.store.threads, Collected(app, handed).store.threads)
  {
    if app.thread in app.store.threads {
      AddedIsUnion(app.store.threads[app.thread].recorded.changes, handed);
    }
  }

  lemma StopWorkGrows(app: App, w: World)
    ensures Grows(app.store.threads, StopWork(app, w).app.store.threads)
  {
    hide Save, Collected, Grows;
    var paused := Paused(app, w);
    CollectedGrows(app, w.handed);
    SaveGrows(paused, SavingPaused in w.failing);
    GrowsOn(app.store.threads, paused.store.threads, Save(paused, SavingPaused in w.failing).app.store.threads);
  }

  lemma LeaveGrows(app: App, w: World)
    ensures Grows(app.store.threads, Leave(app, w).app.store.threads)
  {
    hide Save, StopWork, Grows;
    var stopped := StopWork(app, w).app;
    StopWorkGrows(app, w);
    SaveGrows(stopped, SavingAgain in w.failing);
    GrowsOn(app.store.threads, stopped.store.threads, Save(stopped, SavingAgain in w.failing).app.store.threads);
  }

  lemma NewThreadGrows(app: App, w: World)
    ensures Grows(app.store.threads, NewThread(app, w).app.store.threads)
  {
    hide Save, OpenNew, Grows;
    var saved := Save(app, Saving in w.failing).app;
    SaveGrows(app, Saving in w.failing);
    OpenNewGrows(saved, w);
    GrowsOn(app.store.threads, saved.store.threads, OpenNew(saved, w).app.store.threads);
  }

  lemma OpenNewGrows(app: App, w: World)
    ensures Grows(app.store.threads, OpenNew(app, w).app.store.threads)
  {
    hide StopWork, Leased, RollBack, CannotRelease;
    var threads := app.store.threads;
    assert Grows(threads, threads);
    hide Grows;
    if w.newThread !in threads {
      var leased := WithNew(app, w);
      StopWorkGrows(leased, w);
      var stopped := StopWork(leased, w).app;
      WithoutOne(threads, w.newThread, NewSession(app, w), stopped.store.threads);
      RollBackThreads(stopped, Lease(w.newThread, w.token), true, w);
    }
  }

  lemma WithoutOne(threads: Threads, t: ThreadId, session: Session, after: Threads)
    requires t !in threads && Grows(threads[t := session], after)
    ensures Grows(threads, threads[t := session]) && Grows(threads, after) && Grows(threads, after - {t})
  {
    assert Grows(threads, threads[t := session]);
  }

  lemma ReconciledGrows(store: Store, thread: ThreadId, w: World)
    ensures Grows(store.threads, Reconciled(store, thread, w).threads)
  {}

  lemma EnterGrows(store: Store, stored: Session, lease: Lease, w: World)
    ensures Grows(store.threads, Enter(store, stored, lease, w).app.store.threads)
  {
    SaveGrows(Entered(store, stored, lease, w), SavingResumed in w.failing);
    assert Grows(store.threads, store.threads);
    hide Save, Recovered, Unsaved, RestoredRecord, Mended, Grows;
  }

  lemma RollBackThreads(app: App, next: Lease, created: bool, w: World)
    ensures RollBack(app, next, created, w).app.store.threads ==
              if created && ReleasingNext !in w.failing && Deleting !in w.failing then app.store.threads - {next.thread}
              else app.store.threads
  {}

  lemma HandOverGrows(app: App, stored: Session, lease: Lease, w: World)
    ensures Grows(app.store.threads, HandOver(app, stored, lease, w).app.store.threads)
  {
    hide Leave, Reconciled, Enter, Grows, RollBack;
    var threads, left := app.store.threads, Leave(app, w).app;
    LeaveGrows(app, w);
    var reconciled := Reconciled(left.store, lease.thread, w);
    ReconciledGrows(left.store, lease.thread, w);
    GrowsOn(threads, left.store.threads, reconciled.threads);
    RollBackThreads(left, lease, false, w);
    RollBackThreads(left.(store := reconciled), lease, false, w);
    if left.lease.Some? {
      var store := Released(reconciled, left.lease.value);
      EnterGrows(store, stored, lease, w);
      GrowsOn(threads, store.threads, Enter(store, stored, lease, w).app.store.threads);
    }
  }

  lemma ResumeThreadGrows(app: App, thread: ThreadId, w: World)
    ensures Grows(app.store.threads, ResumeThread(app, thread, w).app.store.threads)
  {
    hide Save, OpenTarget, Grows;
    var saved := Save(app, Saving in w.failing).app;
    SaveGrows(app, Saving in w.failing);
    OpenTargetGrows(saved, thread, w);
    GrowsOn(app.store.threads, saved.store.threads, OpenTarget(saved, thread, w).app.store.threads);
  }

  lemma OpenTargetGrows(app: App, thread: ThreadId, w: World)
    ensures Grows(app.store.threads, OpenTarget(app, thread, w).app.store.threads)
  {
    var leased := WithLease(app, Lease(thread, w.token));
    assert Grows(app.store.threads, app.store.threads);
    hide HandOver, Leased, Grows, Unusable;
    if thread in leased.store.threads {
      HandOverGrows(leased, leased.store.threads[thread], Lease(thread, w.token), w);
    } else {
      UnknownIsUnusable(leased, thread, w);
    }
  }

  /** In every run, whatever fails, no stored thread and none of its stored changes is ever lost. */
  lemma {:induction false} StoredChangesStay(app: App, calls: seq<Call>)
    ensures Grows(app.store.threads, Run(app, calls).store.threads)
  {
    hide NewThread, ResumeThread, Save, Collected;
    if |calls| > 0 {
      var n := |calls| - 1;
      StoredChangesStay(app, calls[..n]);
      var before := Run(app, calls[..n]);
      match calls[n] {
        case New(w) => NewThreadGrows(before, w);
        case Resume(thread, w) => ResumeThreadGrows(before, thread, w);
        case Reopen(w) => SaveGrows(Reopened(before, w), Saving in w.failing);
        case Keep(fails) => SaveGrows(before, fails);
        case Turn(handed, _, _, _) => CollectedGrows(before, handed);
      }
      GrowsOn(app.store.threads, before.store.threads, Run(app, calls).store.threads);
    }
  }

  // ---- Another primary folder ----

  /** The thread has unsaved work and another primary folder than its stored copy. */
  predicate Trapped(app: App) {
    app.dirty && app.thread in app.store.threads && app.store.threads[app.thread].root != app.state.root
  }

  lemma SaveIsRefused(app: App, fails: bool)
    requires Trapped(app)
    ensures Save(app, fails).thrown && Save(app, fails).app.store == app.store && Trapped(Save(app, fails).app)
  {
    SaveSettles(app, fails);
  }

  /**
   Once the primary folder of the project is another one, the current thread
   cannot be saved and cannot be left: no call enters a thread, and its stored
   copy takes no version and no word of its history, until the folders change again.
   */
  lemma {:induction false} PrimaryFolderTraps(app: App, calls: seq<Call>)
    requires Trapped(app) && forall c :: c in calls ==> !c.Reopen?
    ensures var end := Run(app, calls);
            && Trapped(end) && end.thread == app.thread && end.lease == app.lease
            && end.store.threads[app.thread] == app.store.threads[app.thread].(
                 recorded := app.store.threads[app.thread].recorded.(
                   changes := end.store.threads[app.thread].recorded.changes))
  {
    if |calls| > 0 {
      var n := |calls| - 1;
      assert forall c :: c in calls[..n] ==> c in calls;
      assert calls[n] in calls;
      PrimaryFolderTraps(app, calls[..n]);
      StaysTrapped(Run(app, calls[..n]), calls[n]);
      hide Do, Trapped;
    }
  }

  lemma StaysTrapped(app: App, call: Call)
    requires Trapped(app) && !call.Reopen?
    ensures var end := Do(app, call);
            && Trapped(end) && end.thread == app.thread && end.lease == app.lease
            && end.store.threads[app.thread] == app.store.threads[app.thread].(
                 recorded := app.store.threads[app.thread].recorded.(
                   changes := end.store.threads[app.thread].recorded.changes))
  {
    if call.Turn? {
      CollectedKeeps(app, call.handed);
    } else {
      var fails := if call.Keep? then call.fails else Saving in call.world.failing;
      SaveIsRefused(app, fails);
      SaveSettles(app, fails);
    }
    hide Save, OpenNew, OpenTarget, Collected;
  }

  /** Changing the primary folder is what traps the thread: its own save is refused. */
  lemma AnotherPrimaryTraps(app: App, w: World)
    requires app.thread in app.store.threads && w.folders.root != app.store.threads[app.thread].root
    requires OpeningWorkspace !in w.failing
    ensures ChangeFolders(app, w).thrown && Trapped(ChangeFolders(app, w).app)
  {
    SaveIsRefused(Reopened(app, w), Saving in w.failing);
    hide Save;
  }

  // ---- The sessions as written ----

  class AppThreadSessions {
    var thread: ThreadId
    var state: Session
    var workspace: Workspace
    var threadLease: Option<Lease>
    var dirty: bool
    var paused: bool
    var store: Store

    constructor (app: App)
      ensures State() == app
    {
      thread, state, workspace, threadLease := app.thread, app.state, app.workspace, app.lease;
      dirty, paused, store := app.dirty, app.paused, app.store;
    }

    function State(): App
      reads this
    {
      App(thread, state, workspace, threadLease, dirty, paused, store)
    }

    /** Take over what the workspace has recorded. */
    method SyncWorkspaceState()
      modifies this`state, this`dirty
      ensures State() == Sync(old(State()))
    {
      var recorded := workspace.recorded;
      ReadsOfPutAll([], recorded.versions);
      if Reads(recorded.versions) != Reads(state.recorded.versions) {
        state := state.(recorded := state.recorded.(versions := PutAll([], recorded.versions)));
        dirty := true;
      }
      ghost var versions := state.recorded.versions;
      ghost var before := old(state).recorded.changes;
      MergeIsUnion(before, recorded.changes);
      var rest := recorded.changes;
      while |rest| > 0
        invariant state == old(state).(recorded := Record(versions, state.recorded.changes))
        invariant before <= state.recorded.changes
        invariant Merge(state.recorded.changes, rest) == Merge(before, recorded.changes)
        invariant dirty == (old(dirty) || state != old(state))
        decreases |rest|
      {
        if !Known(state.recorded.changes, rest[0].key) {
          state := state.(recorded := state.recorded.(changes := state.recorded.changes + [rest[0]]));
          dirty := true;
        }
        rest := rest[1..];
      }
    }

    /** Write the thread as a delta; `thrown` says that the store refused it. */
    method StoreDelta() returns (thrown: bool)
      modifies this`store
      ensures thrown <==> Refused(old(store), thread, state)
      ensures store == if thrown then old(store)
                       else old(store).(threads := old(store).threads[thread := Stored(old(store).threads[thread],
                            state)])
    {
      if thread !in store.threads || store.threads[thread].root != state.root {
        return true;
      }
      var durable := store.threads[thread];
      var appended := AppendedChanges(durable.recorded.changes, state.recorded.changes);
      if !DistinctFiles(appended) {
        return true;
      }
      var versions := StoredVersions(durable.recorded.versions, state.recorded.versions);
      durable := durable.(model := state.model, rest := state.rest,
                          recorded := Record(versions, durable.recorded.changes + appended));
      store := store.(threads := store.threads[thread := durable]);
      return false;
    }

    method SaveThread(fails: bool) returns (thrown: bool)
      modifies this`state, this`dirty, this`store
      ensures Outcome(State(), thrown, false) == Save(old(State()), fails)
    {
      hide Stored, Refused;
      SyncWorkspaceState();
      if !dirty {
        return false;
      }
      if fails {
        return true;
      }
      thrown := StoreDelta();
      if !thrown {
        dirty := false;
      }
    }

    /** A child agent hands over its changes. */
    method CollectChanges(handed: seq<Change>)
      modifies this`state, this`dirty, this`store
      ensures State() == Collected(old(State()), handed)
    {
      if |handed| == 0 || thread !in store.threads {
        return;
      }
      var durable := store.threads[thread];
      var merged := MergeFileChanges(durable.recorded.changes, handed);
      durable := durable.(recorded := durable.recorded.(changes := merged));
      store := store.(threads := store.threads[thread := durable]);
      merged := MergeFileChanges(state.recorded.changes, handed);
      state := state.(recorded := state.recorded.(changes := merged));
      dirty := true;
    }

    /** Stop the child agents and the commands of the current thread. */
    method PauseAndCancel(w: World) returns (thrown: bool)
      modifies this`state, this`dirty, this`store, this`workspace, this`paused
      ensures Outcome(State(), thrown, false) == StopWork(old(State()), w)
    {
      hide Save, Collected;
      CollectChanges(w.handed);
      paused := true;
      workspace := workspace.(recorded := w.stopped);
      CollectedKeeps(old(State()), w.handed);
      assert State() == Paused(old(State()), w);
      if Pausing in w.failing {
        return true;
      }
      SaveSettles(State(), SavingPaused in w.failing);
      thrown := SaveThread(SavingPaused in w.failing);
      if !thrown {
        workspace := workspace.(recorded := w.settled);
        thrown := Canceling in w.failing;
      }
    }

    method AbandonNext(next: Lease, created: bool, w: World)
      modifies this`store, this`paused
      ensures Outcome(State(), true, false) == RollBack(old(State()), next, created, w)
    {
      if ReleasingNext !in w.failing {
        store := Released(store, next);
        if created && Deleting !in w.failing {
          store := store.(threads := store.threads - {next.thread});
        }
      }
      if Rearming !in w.failing {
        paused := false;
      }
    }

    method ReleaseLease(lease: Lease)
      modifies this`store
      ensures store == Released(old(store), lease)
    {
      store := store.(held := store.held - {lease});
    }

    /** Open a new thread; `thrown` says that an error reached the caller. */
    method OpenThread(w: World) returns (thrown: bool, ghost committed: bool)
      modifies this
      ensures Outcome(State(), thrown, committed) == NewThread(old(State()), w)
    {
      hide Save, StopWork, RollBack, Leased, Released, CannotRelease;
      committed := false;
      SaveSettles(State(), Saving in w.failing);
      thrown := SaveThread(Saving in w.failing);
      if thrown || threadLease.None? {
        return true, false;
      }
      if OpeningWorkspace in w.failing || Creating in w.failing || w.newThread in store.threads {
        return true, false;
      }
      var next := Session(state.project, w.folders.root, state.model, NOTHING, "");
      store := store.(threads := store.threads[w.newThread := next]);
      if Acquiring in w.failing || Leased(store, w.newThread) {
        return true, false;
      }
      var lease := Lease(w.newThread, w.token);
      store := store.(held := store.held + {lease});
      assert State() == WithNew(Save(old(State()), Saving in w.failing).app, w);
      thrown := PauseAndCancel(w);
      if thrown || CannotRelease(State(), w) {
        AbandonNext(lease, true, w);
        return true, false;
      }
      ReleaseLease(threadLease.value);
      thread, workspace, state := w.newThread, Workspace(w.folders.id, w.folders.root, NOTHING), next;
      threadLease, dirty, paused := Some(lease), false, false;
      return false, true;
    }

    /** The stored thread as the folders of today give it back, and whether it has something to save. */
    method RecoverThread(durable: Session, w: World) returns (recovered: Session, changed: bool)
      ensures recovered == Recovered(durable, w)
      ensures changed || w.mended.Some? <==> Unsaved(durable, w)
    {
      var versions, stale := RestoreReads(durable.recorded.versions, w.folders);
      var changes := RestoreChanges(durable.recorded.changes, w.folders);
      changed := stale > 0 || changes != durable.recorded.changes;
      recovered := durable;
      if w.fallback.Some? {
        recovered := recovered.(model := w.fallback.value);
        changed := true;
      }
      recovered := recovered.(root := w.folders.root, recorded := Record(versions, changes));
    }

    /** Repair the target: each repair is an event of the target, and changes it in memory too. */
    method Reconcile(target: ThreadId, recovered: Session, w: World) returns (mended: Session)
      modifies this`store
      ensures mended == Mended(recovered, w) && store == Reconciled(old(store), target, w)
    {
      mended := recovered;
      if w.mended.Some? {
        if target in store.threads {
          var durable := store.threads[target].(rest := w.mended.value);
          store := store.(threads := store.threads[target := durable]);
        }
        mended := mended.(rest := w.mended.value);
      } else if target in store.threads {
        assert store.threads[target := store.threads[target]] == store.threads;
      }
    }

    /** Leave the current thread, repair the target and hand the lease over. */
    method HandLeaseOver(recovered: Session, changed: bool, lease: Lease, w: World, ghost durable: Session)
      returns (thrown: bool, ghost committed: bool)
      requires recovered == Recovered(durable, w) && (changed || w.mended.Some? <==> Unsaved(durable, w))
      modifies this
      ensures Outcome(State(), thrown, committed) == HandOver(old(State()), durable, lease, w)
    {
      hide Save, StopWork, RollBack, Released, Recovered, Unsaved, Mended, Reconciled, RestoredRecord;
      thrown := PauseAndCancel(w);
      if !thrown {
        StopWorkKeeps(old(State()), w);
        SaveSettles(State(), SavingAgain in w.failing);
        thrown := SaveThread(SavingAgain in w.failing);
      }
      if thrown {
        AbandonNext(lease, false, w);
        return true, false;
      }
      var next := Reconcile(lease.thread, recovered, w);
      if Reconciling in w.failing || CannotRelease(State(), w) {
        AbandonNext(lease, false, w);
        return true, false;
      }
      ReleaseLease(threadLease.value);
      thrown := EnterThread(next, changed, lease, w, durable);
      return thrown, true;
    }

    method EnterThread(next: Session, changed: bool, lease: Lease, w: World, ghost durable: Session)
      returns (thrown: bool)
      requires next == Mended(Recovered(durable, w), w) && (changed || w.mended.Some? <==> Unsaved(durable, w))
      modifies this
      ensures Outcome(State(), thrown, true) == Enter(old(store), durable, lease, w)
    {
      hide Save, Unsaved;
      thread, threadLease, state := lease.thread, Some(lease), next;
      workspace := Workspace(w.folders.id, w.folders.root, next.recorded);
      dirty, paused := changed || w.mended.Some?, false;
      assert State() == Entered(old(store), durable, lease, w);
      if AfterCommit in w.failing {
        return true;
      }
      thrown := SaveThread(SavingResumed in w.failing);
    }

    /** Resume a saved thread; `thrown` says that an error reached the caller. */
    method OpenSaved(target: ThreadId, w: World) returns (thrown: bool, ghost committed: bool)
      modifies this
      ensures Outcome(State(), thrown, committed) == ResumeThread(old(State()), target, w)
    {
      hide Save, HandOver, Leased, Released, Unusable, Recovered, Unsaved;
      SaveSettles(State(), Saving in w.failing);
      thrown := SaveThread(Saving in w.failing);
      committed := false;
      if thrown || target == thread {
        return;
      }
      if threadLease.None? || target in store.children || Acquiring in w.failing || Leased(store, target) {
        return true, false;
      }
      var lease := Lease(target, w.token);
      store := store.(held := store.held + {lease});
      if target !in store.threads || Unusable(State(), target, w) {
        if target !in store.threads {
          UnknownIsUnusable(State(), target, w);
        }
        if ReleasingNext !in w.failing {
          ReleaseLease(lease);
        }
        return true, false;
      }
      var recovered, changed := RecoverThread(store.threads[target], w);
      thrown, committed := HandLeaseOver(recovered, changed, lease, w, store.threads[target]);
    }

    /** The project's folders change under the current thread. */
    method ReplaceProjectWorkspace(w: World) returns (thrown: bool)
      modifies this
      ensures Outcome(State(), thrown, false) == ChangeFolders(old(State()), w)
    {
      hide Save;
      if OpeningWorkspace in w.failing {
        return true;
      }
      var versions, _ := RestoreReads(state.recorded.versions, w.folders);
      var changes := RestoreChanges(state.recorded.changes, w.folders);
      workspace := Workspace(w.folders.id, w.folders.root, Record(versions, changes));
      state := state.(root := w.folders.root);
      dirty := true;
      thrown := SaveThread(Saving in w.failing);
    }
  }
}
