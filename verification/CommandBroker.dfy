/**
 The serial broker that runs controller commands in a worker container
 (benchmarks/swebench_verified/split_environment.py). Every failure the control
 operations can have, and whatever the coroutine that stops the environment does
 meanwhile, is a field of `World`.
 */
module CommandBroker {
  import opened Common

  // ---- Requests, results and the world around one execution ----

  /** What a request says about review copies. */
  datatype Review = NoReview | BadReview | ReviewOf(key: string)

  datatype Request = Malformed | Command(review: Review, environmentOk: bool)

  datatype Outcome = Unknown | Exited | Canceled | TimedOut | OutputLimit | SpawnFailed

  datatype Cleanup = Unclear | Confirmed | Failed

  datatype Reply = Reply(exitCode: int, outcome: Outcome, cleanup: Cleanup, workerRestored: bool)

  const FIRST_REPLY := Reply(125, Unknown, Unclear, false)

  datatype Target = MainWorker | ReviewWorker(key: string)

  /** What is done to containers. */
  datatype Action = Spawn(target: Target) | Stop(target: Target) | Restart(target: Target)

  /**
   What another coroutine does to the flags during an await: nothing, the order to
   stop, or `stop_worker` running to its end, the order included.
   */
  datatype Arrival = Nothing | Told | Halted

  /** One look at a process that still runs. */
  datatype Poll = Poll(arrival: Arrival, oversized: bool, canceled: bool, late: bool)

  datatype World = World(
    binds: bool, inSetup: Arrival,
    spawns: bool, marks: bool, polls: seq<Poll>,
    stops: bool, inStop: Arrival,
    exits: bool, exitCode: int, inWait: Arrival, oversizedAtEnd: bool, records: bool,
    restarts: bool, confirmed: bool, syncs: bool, inRestore: Arrival,
    handlerStops: bool, inHandler: Arrival, present: bool, writes: bool)

  const REVIEW_BUDGET := 20

  /** A registered review copy: its set-up never finished, its worker can be used, or its worker failed. */
  datatype Copy = Unready | Ready | Broken

  /** The flags of the environment; `halted` says that a call of `stop_worker` has stopped the worker. */
  datatype Control = Control(stopping: bool, stopped: bool, halted: bool, reviews: map<string, Copy>)

  /**
   An execution in progress on `worker`; `review` is the copy it got hold of, and
   `raised` says that an exception left the try block.
   */
  datatype Attempt = Attempt(
    control: Control, isReview: bool, review: Option<string>, worker: Target, spawned: bool,
    reply: Reply, actions: seq<Action>, raised: bool)

  function TargetOf(review: Option<string>): Target {
    if review.Some? then ReviewWorker(review.value) else MainWorker
  }

  function Arrive(c: Control, arrival: Arrival): Control {
    match arrival
    case Nothing => c
    case Told => c.(stopping := true)
    case Halted => c.(stopping := true, stopped := true, halted := true)
  }

  // ---- The try block ----

  function Raise(a: Attempt): Attempt {
    a.(raised := true)
  }

  /**
   Validation and the choice of the worker. A copy is registered before it is set
   up, and one whose set-up failed has no worker of its own to choose.
   */
  function Admit(c: Control, request: Request, w: World): Attempt {
    var a := Attempt(c, false, None, MainWorker, false, FIRST_REPLY, [], false);
    if request.Malformed? || c.stopped || c.stopping then Raise(a)
    else if request.review.NoReview? then a
    else AdmitReview(a.(isReview := true, control := Arrive(c, w.inSetup)), request.review, w)
  }

  function AdmitReview(a: Attempt, review: Review, w: World): Attempt {
    if !review.ReviewOf? then Raise(a)
    else
      var key := review.key;
      var reviews := a.control.reviews;
      if key in reviews then
        if reviews[key].Broken? then Raise(a)
        else if reviews[key].Unready? then Raise(a.(review := Some(key)))
        else a.(review := Some(key), worker := ReviewWorker(key))
      else if |reviews| >= REVIEW_BUDGET then Raise(a)
      else if !w.binds then Raise(a.(control := a.control.(reviews := reviews[key := Unready])))
      else a.(review := Some(key), worker := ReviewWorker(key), control := a.control.(reviews := reviews[key := Ready]))
  }

  function Launch(a: Attempt, request: Request, w: World): Attempt {
    if request.Malformed? || !request.environmentOk || !w.spawns then Raise(a)
    else
      var spawned := a.(spawned := true, actions := a.actions + [Spawn(a.worker)]);
      if !w.marks then Raise(spawned) else spawned
  }

  /** Watch the process until it ends or has to be stopped. */
  function Watch(a: Attempt, polls: seq<Poll>, w: World): Attempt
    decreases |polls|
  {
    if |polls| == 0 then a
    else
      var p := polls[0];
      var seen := a.(control := Arrive(a.control, p.arrival));
      if p.oversized || seen.control.stopping || p.canceled || p.late then
        var stopped := seen.(actions := a.actions + [Stop(a.worker)],
                             control := Arrive(seen.control, w.inStop));
        if !w.stops then Raise(stopped)
        else stopped.(reply := a.reply.(outcome :=
               if p.oversized then OutputLimit
               else if stopped.control.stopping || p.canceled then Canceled else TimedOut))
      else Watch(seen, polls[1..], w)
  }

  function Collect(a: Attempt, w: World): Attempt {
    var waited := a.(control := Arrive(a.control, w.inWait));
    if !w.exits then Raise(waited)
    else
      var outcome := if w.oversizedAtEnd then OutputLimit
                     else if a.reply.outcome == Unknown then Exited else a.reply.outcome;
      var collected := waited.(reply := a.reply.(exitCode := w.exitCode, outcome := outcome));
      if !w.records then Raise(collected) else collected
  }

  function Restore(a: Attempt, w: World): Attempt {
    if a.control.stopping then a
    else
      var restarted := a.(actions := a.actions + [Restart(a.worker)],
                          control := Arrive(a.control, w.inRestore));
      if !w.restarts || !w.confirmed || (a.review.Some? && !w.syncs) then Raise(restarted)
      else restarted.(reply := a.reply.(cleanup := Confirmed, workerRestored := true))
  }

  function Try(c: Control, request: Request, w: World): Attempt {
    var admitted := Admit(c, request, w);
    if admitted.raised then admitted else
    var launched := Launch(admitted, request, w);
    if launched.raised then launched else
    var watched := Watch(launched, w.polls, w);
    if watched.raised then watched else
    var collected := Collect(watched, w);
    if collected.raised then collected else Restore(collected, w)
  }

  // ---- The whole execution ----

  /**
   One executed request, the flags before it and the world it met; `reply` is missing
   when none could be written.
   */
  datatype Execution = Execution(
    directory: string, request: Request, before: Control, met: World, isReview: bool, review: Option<string>,
    worker: Target,
    raised: bool, spawned: bool, reply: Option<Reply>, actions: seq<Action>)

  function FailedReply(a: Attempt): Reply {
    a.reply.(cleanup := Failed, outcome := if a.spawned then a.reply.outcome else SpawnFailed)
  }

  /** The latch that the exception handler sets. */
  function FailedControl(a: Attempt): Control {
    if !a.isReview then a.control.(stopped := true)
    else if a.review.Some? then a.control.(reviews := a.control.reviews[a.review.value := Broken])
    else a.control
  }

  /** The flags when the execution is over. */
  function FinalControl(a: Attempt, w: World): Control {
    if Stops(a) then Arrive(FailedControl(a), w.inHandler) else a.control
  }

  function Stops(a: Attempt): bool {
    a.raised && (!a.isReview || a.review.Some?)
  }

  /** The handler cannot stop the worker, or the reply cannot be written: that ends the broker. */
  function Dies(a: Attempt, w: World): bool {
    (Stops(a) && !w.handlerStops) || (w.present && !w.writes)
  }

  function Executed(c: Control, directory: string, request: Request, w: World, a: Attempt): Execution {
    var reply := if a.raised then FailedReply(a) else a.reply;
    Execution(directory, request, c, w, a.isReview, a.review, a.worker, a.raised, a.spawned,
              if Dies(a, w) || !w.present then None else Some(reply),
              if Stops(a) then a.actions + [Stop(a.worker)] else a.actions)
  }

  /** The handler does nothing when no exception left the try block. */
  lemma NothingFailed(a: Attempt, w: World)
    ensures !a.raised ==> !Stops(a) && FinalControl(a, w) == a.control
  {}

  /** The line of the history, field by field. */
  lemma RecordIs(c: Control, directory: string, request: Request, w: World, a: Attempt)
    ensures Dies(a, w) == ((Stops(a) && !w.handlerStops) || (w.present && !w.writes))
    ensures FailedReply(a) == a.reply.(cleanup := Failed, outcome := if a.spawned then a.reply.outcome else SpawnFailed)
    ensures Executed(c, directory, request, w, a) ==
            Execution(directory, request, c, w, a.isReview, a.review, a.worker, a.raised, a.spawned,
                      if Dies(a, w) || !w.present then None else Some(if a.raised then FailedReply(a) else a.reply),
                      if Stops(a) then a.actions + [Stop(a.worker)] else a.actions)
  {}

  datatype Broker = Broker(control: Control, dead: bool, handled: set<string>, history: seq<Execution>)

  function Execute(b: Broker, directory: string, request: Request, w: World): Broker {
    var a := Try(b.control, request, w);
    Broker(FinalControl(a, w), Dies(a, w), b.handled,
           b.history + [Executed(b.control, directory, request, w, a)])
  }

  // ---- The serving loop ----

  datatype Listing = Listing(directory: string, hasRequest: bool, request: Request, world: World)

  /** A pass over the command directories, and what happens to the flags before it. */
  datatype Pass = Pass(arrival: Arrival, listings: seq<Listing>)

  function ServePass(b: Broker, listings: seq<Listing>): Broker
    decreases |listings|
  {
    if |listings| == 0 || b.dead then b
    else
      var l := listings[0];
      var next := if l.directory in b.handled || !l.hasRequest then b
                  else Execute(b.(handled := b.handled + {l.directory}), l.directory, l.request, l.world);
      ServePass(next, listings[1..])
  }

  function Serve(b: Broker, passes: seq<Pass>): Broker
    decreases |passes|
  {
    if |passes| == 0 || b.dead then b
    else
      var now := b.(control := Arrive(b.control, passes[0].arrival));
      if now.control.stopping then now else Serve(ServePass(now, passes[0].listings), passes[1..])
  }

  const NEW_BROKER := Broker(Control(false, false, false, map[]), false, {}, [])

  // ---- One execution ----

  /** Flags only ever rise, and a copy that cannot be used never can be again. */
  predicate Grows(c: Control, d: Control) {
    && (c.stopping ==> d.stopping) && (c.stopped ==> d.stopped) && (c.halted ==> d.halted)
    && (forall k :: k in c.reviews ==>
          && k in d.reviews
          && (c.reviews[k].Broken? ==> d.reviews[k].Broken?) && (d.reviews[k].Ready? ==> c.reviews[k].Ready?))
    && (|c.reviews| >= REVIEW_BUDGET ==> d.reviews.Keys == c.reviews.Keys)
  }

  /** Nothing but the end of `stop_worker` has set the latch since. */
  predicate LatchedByHalt(c: Control, d: Control) {
    (c.halted ==> c.stopped && c.stopping) ==>
      (d.halted ==> d.stopped && d.stopping) && (d.stopped <==> c.stopped || d.halted)
  }

  /** The worker of a review copy has failed. */
  predicate Retired(c: Control, key: string) {
    key in c.reviews && c.reviews[key].Broken?
  }

  /** The set-up of a review copy has failed, and no request has used it since. */
  predicate Unfinished(c: Control, key: string) {
    key in c.reviews && c.reviews[key].Unready?
  }

  /** No request can start anything on this review copy. */
  predicate Blocked(c: Control, key: string) {
    if key in c.reviews then !c.reviews[key].Ready? else |c.reviews| >= REVIEW_BUDGET
  }

  /** The request names a review copy. */
  predicate Names(request: Request, key: string) {
    request.Command? && request.review == ReviewOf(key)
  }

  /** How an attempt came by its worker. */
  predicate AdmittedAs(c: Control, request: Request, a: Attempt) {
    && (a.isReview <==> request.Command? && !request.review.NoReview? && !c.stopped && !c.stopping)
    && (!a.isReview ==> a.review.None?)
    && (a.isReview && a.review.None? ==> a.raised)
    && (a.review.Some? ==>
          && Names(request, a.review.value) && a.review.value in a.control.reviews && !Retired(c, a.review.value)
          && (a.worker == MainWorker <==> Unfinished(c, a.review.value))
          && (Blocked(c, a.review.value) <==> Unfinished(c, a.review.value)))
    && (a.worker != TargetOf(a.review) ==> a.worker == MainWorker && a.raised && !a.spawned)
  }

  /** A copy that a request did not get hold of is blocked from then on, and unfinished copies come from there. */
  ghost predicate CopiesOk(c: Control, request: Request, a: Attempt) {
    && (forall key :: a.isReview && a.review.None? && Names(request, key) ==> Blocked(a.control, key))
    && (forall key :: Unfinished(a.control, key) && !Unfinished(c, key) ==>
          a.isReview && a.review.None? && a.raised && Names(request, key))
  }

  /** What holds of the flags and of the worker of an attempt. */
  ghost predicate FlagsOk(c: Control, request: Request, a: Attempt) {
    Grows(c, a.control) && LatchedByHalt(c, a.control) && AdmittedAs(c, request, a) && CopiesOk(c, request, a)
  }

  /** What holds of an attempt inside the try block. */
  ghost predicate AttemptOk(c: Control, request: Request, a: Attempt) {
    && FlagsOk(c, request, a)
    && (a.spawned ==> !c.stopped && !c.stopping && request.Command?)
    && (a.spawned && a.isReview ==> a.review.Some?)
    && (a.spawned ==> a.actions != [] && a.actions[0] == Spawn(a.worker))
    && (!a.spawned ==> a.actions == [] && a.reply == FIRST_REPLY)
    && (forall k :: 0 <= k < |a.actions| ==> a.actions[k].target == a.worker && (k > 0 ==> !a.actions[k].Spawn?))
    && a.reply.outcome != SpawnFailed
    && (a.reply.workerRestored <==> a.reply.cleanup == Confirmed)
    && a.reply.cleanup != Failed
  }

  predicate Running(a: Attempt) {
    a.spawned && a.reply.cleanup == Unclear && !a.reply.workerRestored
  }

  /** Whatever arrives during an await keeps what holds of the flags. */
  lemma AwaitOk(c: Control, request: Request, a: Attempt, arrival: Arrival)
    requires FlagsOk(c, request, a)
    ensures FlagsOk(c, request, a.(control := Arrive(a.control, arrival)))
  {}

  /** What holds of a review request before its copy is looked up. */
  predicate Asked(c: Control, request: Request, a: Attempt) {
    && Grows(c, a.control) && LatchedByHalt(c, a.control) && a.control.reviews == c.reviews
    && request.Command? && !request.review.NoReview? && !c.stopped && !c.stopping
    && a.isReview && a.review.None? && a.worker.MainWorker? && !a.spawned
  }

  lemma AskedOk(c: Control, request: Request, w: World)
    requires request.Command? && !request.review.NoReview? && !c.stopped && !c.stopping
    ensures Asked(c, request, Attempt(Arrive(c, w.inSetup), true, None, MainWorker, false, FIRST_REPLY, [], false))
  {}

  lemma CopyBlocked(c: Control, request: Request, a: Attempt, w: World, key: string)
    requires Asked(c, request, a) && Names(request, key) && AdmitReview(a, request.review, w).review.None?
    ensures Blocked(AdmitReview(a, request.review, w).control, key)
  {}

  lemma ReviewAdmittedAs(c: Control, request: Request, a: Attempt, w: World)
    requires Asked(c, request, a)
    ensures AdmittedAs(c, request, AdmitReview(a, request.review, w))
  {
    hide Grows, LatchedByHalt;
  }

  lemma AdmitReviewOk(c: Control, request: Request, a: Attempt, w: World)
    requires Asked(c, request, a)
    ensures FlagsOk(c, request, AdmitReview(a, request.review, w))
  {
    ReviewAdmittedAs(c, request, a, w);
    ReviewCopies(c, request, a, w);
    ReviewGrows(c, request, a, w);
    hide AdmittedAs, CopiesOk, Grows, LatchedByHalt, AdmitReview;
  }

  lemma ReviewCopies(c: Control, request: Request, a: Attempt, w: World)
    requires Asked(c, request, a)
    ensures CopiesOk(c, request, AdmitReview(a, request.review, w))
  {
    var r := AdmitReview(a, request.review, w);
    hide Grows, LatchedByHalt;
    forall key | r.review.None? && Names(request, key) ensures Blocked(r.control, key) {
      CopyBlocked(c, request, a, w, key);
    }
  }

  lemma ReviewGrows(c: Control, request: Request, a: Attempt, w: World)
    requires Asked(c, request, a)
    ensures var r := AdmitReview(a, request.review, w); Grows(c, r.control) && LatchedByHalt(c, r.control)
  {}

  lemma AdmitOk(c: Control, request: Request, w: World)
    ensures var a := Admit(c, request, w);
            AttemptOk(c, request, a) && !a.spawned && a.reply == FIRST_REPLY
    ensures var a := Admit(c, request, w);
            && (c.stopped || c.stopping ==> a.raised)
            && (!a.raised && a.isReview ==> a.review.Some?)
            && (!a.raised ==> request.Command? && a.worker == TargetOf(a.review))
  {
    if request.Command? && !c.stopped && !c.stopping && !request.review.NoReview? {
      var asked := Attempt(Arrive(c, w.inSetup), true, None, MainWorker, false, FIRST_REPLY, [], false);
      AskedOk(c, request, w);
      AdmitReviewOk(c, request, asked, w);
      hide FlagsOk, Asked;
    }
  }

  /** The flags say nothing about the reply and the actions. */
  lemma FlagsKeep(c: Control, request: Request, a: Attempt, b: Attempt)
    requires FlagsOk(c, request, a)
    requires b == a.(reply := b.reply, actions := b.actions, raised := b.raised) && (a.raised ==> b.raised)
    ensures FlagsOk(c, request, b)
  {
    hide Grows, LatchedByHalt, Blocked;
  }

  lemma {:induction false} WatchOk(c: Control, request: Request, a: Attempt, polls: seq<Poll>, w: World)
    requires AttemptOk(c, request, a) && Running(a)
    ensures AttemptOk(c, request, Watch(a, polls, w)) && Running(Watch(a, polls, w))
    decreases |polls|
  {
    if |polls| > 0 {
      var p := polls[0];
      var seen := a.(control := Arrive(a.control, p.arrival));
      AwaitOk(c, request, a, p.arrival);
      AwaitOk(c, request, seen, w.inStop);
      if p.oversized || seen.control.stopping || p.canceled || p.late {
        FlagsKeep(c, request, seen.(control := Arrive(seen.control, w.inStop)), Watch(a, polls, w));
        hide FlagsOk;
      } else {
        hide FlagsOk;
        WatchOk(c, request, seen, polls[1..], w);
      }
    }
  }

  lemma LaunchOk(c: Control, request: Request, w: World)
    requires !Admit(c, request, w).raised
    ensures var a := Launch(Admit(c, request, w), request, w);
            AttemptOk(c, request, a) && (a.raised || a.spawned) && a.reply == FIRST_REPLY
  {
    AdmitOk(c, request, w);
    hide Admit, Grows;
  }

  lemma CollectOk(c: Control, request: Request, a: Attempt, w: World)
    requires AttemptOk(c, request, a) && Running(a)
    ensures AttemptOk(c, request, Collect(a, w)) && Running(Collect(a, w))
  {
    AwaitOk(c, request, a, w.inWait);
    FlagsKeep(c, request, a.(control := Arrive(a.control, w.inWait)), Collect(a, w));
    hide FlagsOk;
  }

  /** Only a confirmed restart makes a reply say that the worker is restored. */
  lemma RestoreOk(c: Control, request: Request, a: Attempt, w: World)
    requires AttemptOk(c, request, a) && Running(a) && !a.raised
    ensures var r := Restore(a, w);
            && AttemptOk(c, request, r) && r.spawned
            && (!r.raised && r.reply.cleanup == Unclear ==> r.control.stopping)
            && (r.raised ==> r.reply.cleanup == Unclear)
            && (r.reply.workerRestored ==> RestoredBy(r, w))
  {
    AwaitOk(c, request, a, w.inRestore);
    if !a.control.stopping {
      FlagsKeep(c, request, a.(control := Arrive(a.control, w.inRestore)), Restore(a, w));
    }
    hide FlagsOk;
  }

  predicate RestoredBy(a: Attempt, w: World) {
    && |a.actions| > 1 && a.actions[|a.actions| - 1] == Restart(a.worker)
    && w.restarts && w.confirmed && (a.isReview ==> w.syncs)
  }

  lemma TryOk(c: Control, request: Request, w: World)
    ensures var a := Try(c, request, w);
            && AttemptOk(c, request, a)
            && (!a.raised ==> a.spawned)
            && (!a.raised && a.reply.cleanup == Unclear ==> a.control.stopping)
            && (a.raised ==> a.reply.cleanup == Unclear)
            && (a.reply.workerRestored ==> RestoredBy(a, w))
  {
    hide Admit, Launch, Watch, Collect, Restore, AttemptOk, RestoredBy;
    AdmitOk(c, request, w);
    var admitted := Admit(c, request, w);
    if !admitted.raised {
      LaunchOk(c, request, w);
      var launched := Launch(admitted, request, w);
      if !launched.raised {
        WatchOk(c, request, launched, w.polls, w);
        var watched := Watch(launched, w.polls, w);
        if !watched.raised {
          CollectOk(c, request, watched, w);
          var collected := Collect(watched, w);
          if !collected.raised {
            RestoreOk(c, request, collected, w);
          }
        }
      }
    }
  }

  // ---- Every run ----

  /** A review request that did not get hold of its copy. */
  predicate Missed(e: Execution, key: string) {
    e.isReview && e.raised && e.review.None? && Names(e.request, key)
  }

  predicate MainFailure(e: Execution) {
    e.raised && !e.isReview
  }

  /** A reply agrees with what was done. */
  predicate ReplyOk(e: Execution, reply: Reply, control: Control) {
    && (reply.workerRestored <==> reply.cleanup == Confirmed)
    && (reply.outcome == SpawnFailed <==> !e.spawned)
    && (reply.cleanup == Failed <==> e.raised)
    && (reply.cleanup == Unclear ==> control.stopping)
    && (!e.spawned ==> reply == Reply(125, SpawnFailed, Failed, false))
    && (reply.workerRestored ==> |e.actions| > 1 && e.actions[|e.actions| - 1] == Restart(e.worker))
  }

  /** What was done is done to one worker, and only a process that started was spawned. */
  ghost predicate ActionsOk(e: Execution) {
    && (forall k :: 0 <= k < |e.actions| ==>
          e.actions[k].target == e.worker && (e.actions[k].Spawn? ==> k == 0 && e.spawned))
    && (e.spawned ==> |e.actions| > 0 && e.actions[0] == Spawn(e.worker) && e.worker == TargetOf(e.review))
    && (!e.spawned ==> e.raised && forall k :: 0 <= k < |e.actions| ==> e.actions[k].Stop?)
    && (e.raised && (e.review.Some? || !e.isReview) ==> Stop(e.worker) in e.actions)
    && (e.isReview && e.review.None? ==> e.raised && e.actions == [])
    && (!e.spawned ==> |e.actions| <= 1)
    && (e.worker != TargetOf(e.review) ==> e.worker == MainWorker && e.raised && !e.spawned)
  }

  /** One line of the history, and the flags after it. */
  ghost predicate ExecutionOk(e: Execution, control: Control) {
    && ActionsOk(e)
    && (e.reply.Some? ==> ReplyOk(e, e.reply.value, control))
    && (MainFailure(e) ==> control.stopped)
    && (e.review.Some? ==> e.isReview && Names(e.request, e.review.value))
    && (e.raised && e.review.Some? ==> Retired(control, e.review.value))
    && (forall key :: e.isReview && e.raised && Names(e.request, key) ==> Blocked(control, key))
  }

  /** What one execution does, given the flags before it. */
  ghost predicate StepOk(c: Control, e: Execution, d: Control) {
    && Grows(c, d)
    && (c.stopped || c.stopping ==> MainFailure(e) && !e.spawned)
    && (forall key :: Names(e.request, key) && Blocked(c, key) ==> !e.spawned)
    && (e.review.Some? ==>
          && !Retired(c, e.review.value)
          && (e.worker == MainWorker <==> Unfinished(c, e.review.value))
          && (Blocked(c, e.review.value) <==> Unfinished(c, e.review.value)))
    && (forall key :: Unfinished(d, key) && !Unfinished(c, key) ==> Missed(e, key))
  }

  /** The latch is set by a main failure or by the end of `stop_worker`, and by nothing else. */
  predicate LatchOk(c: Control, e: Execution, d: Control) {
    (c.halted ==> c.stopped && c.stopping) ==>
      (d.halted ==> d.stopped && d.stopping) && (d.stopped <==> c.stopped || d.halted || MainFailure(e))
  }

  lemma FinalOk(c: Control, request: Request, a: Attempt, w: World)
    requires AttemptOk(c, request, a)
    ensures Grows(c, FinalControl(a, w)) && Grows(a.control, FinalControl(a, w))
    ensures forall key :: a.isReview && a.raised && Names(request, key) ==> Blocked(FinalControl(a, w), key)
    ensures forall key :: Unfinished(FinalControl(a, w), key) ==> Unfinished(a.control, key)
  {}

  /** What the try block leaves to the handler. */
  ghost predicate Tried(c: Control, request: Request, a: Attempt, w: World) {
    && AttemptOk(c, request, a)
    && (!a.raised ==> a.spawned)
    && (!a.raised && a.reply.cleanup == Unclear ==> a.control.stopping)
    && (a.raised ==> a.reply.cleanup == Unclear)
    && (a.reply.workerRestored ==> RestoredBy(a, w))
  }

  lemma ExecutedActions(c: Control, directory: string, request: Request, w: World, a: Attempt)
    requires Tried(c, request, a, w)
    ensures var e := Executed(c, directory, request, w, a);
            ActionsOk(e) && (e.reply.Some? ==> ReplyOk(e, e.reply.value, FinalControl(a, w)))
  {
    hide Grows, LatchedByHalt, CopiesOk, Arrive;
    assert a.control.stopping ==> FinalControl(a, w).stopping by { StoppingStays(a, w); }
    hide FinalControl;
  }

  lemma StoppingStays(a: Attempt, w: World)
    ensures a.control.stopping ==> FinalControl(a, w).stopping
  {}

  lemma ExecutedFlags(c: Control, directory: string, request: Request, w: World, a: Attempt)
    requires Tried(c, request, a, w)
    ensures var e, d := Executed(c, directory, request, w, a), FinalControl(a, w);
            && StepOk(c, e, d) && LatchOk(c, e, d)
            && (MainFailure(e) ==> d.stopped)
            && (e.review.Some? ==> e.isReview && Names(e.request, e.review.value))
            && (e.raised && e.review.Some? ==> Retired(d, e.review.value))
            && (forall key :: e.isReview && e.raised && Names(e.request, key) ==> Blocked(d, key))
  {
    FinalOk(c, request, a, w);
    hide Grows, Blocked, RestoredBy;
  }

  lemma ExecutedOk(b: Broker, directory: string, request: Request, w: World)
    ensures var after := Execute(b, directory, request, w);
            var e := after.history[|b.history|];
            && |after.history| == |b.history| + 1 && after.history[..|b.history|] == b.history
            && after.handled == b.handled && e.directory == directory && e.request == request
            && e.before == b.control && e.met == w
            && ExecutionOk(e, after.control) && StepOk(b.control, e, after.control)
            && LatchOk(b.control, e, after.control)
  {
    hide Try, Executed, FinalControl, Tried, StepOk, LatchOk, ActionsOk, ReplyOk, Blocked, Retired;
    TryOk(b.control, request, w);
    var a := Try(b.control, request, w);
    TriedIs(b.control, request, a, w);
    ExecutedActions(b.control, directory, request, w, a);
    ExecutedFlags(b.control, directory, request, w, a);
    ExecutedNames(b.control, directory, request, w, a);
  }

  lemma TriedIs(c: Control, request: Request, a: Attempt, w: World)
    requires AttemptOk(c, request, a) && (!a.raised ==> a.spawned)
    requires !a.raised && a.reply.cleanup == Unclear ==> a.control.stopping
    requires (a.raised ==> a.reply.cleanup == Unclear) && (a.reply.workerRestored ==> RestoredBy(a, w))
    ensures Tried(c, request, a, w)
  {}

  lemma ExecutedNames(c: Control, directory: string, request: Request, w: World, a: Attempt)
    ensures var e := Executed(c, directory, request, w, a);
            e.directory == directory && e.request == request && e.before == c && e.met == w
  {}

  /** What an execution leaves to every later one. */
  ghost predicate Follows(e: Execution, later: Execution) {
    && e.directory != later.directory
    && (MainFailure(e) ==> MainFailure(later) && !later.spawned)
    && (forall key :: e.isReview && e.raised && Names(e.request, key) && Names(later.request, key) ==> !later.spawned)
    && (later.review.Some? && Missed(e, later.review.value) ==> later.worker == MainWorker)
    && (e.review.Some? && e.raised ==> later.review != e.review)
  }

  /** A review request works on the main worker only after one that missed its copy. */
  ghost predicate Accounted(h: seq<Execution>, j: int)
    requires 0 <= j < |h|
  {
    h[j].review.Some? && h[j].worker == MainWorker ==> exists i :: 0 <= i < j && Missed(h[i], h[j].review.value)
  }

  ghost predicate HistoryOk(h: seq<Execution>) {
    && (forall i, j :: 0 <= i < j < |h| ==> Follows(h[i], h[j]))
    && (forall j :: 0 <= j < |h| ==> Accounted(h, j))
  }

  /** What holds of every reachable broker. */
  ghost predicate BrokerOk(b: Broker) {
    && HistoryOk(b.history)
    && (forall i :: 0 <= i < |b.history| ==> ExecutionOk(b.history[i], b.control))
    && (forall d :: d in b.handled <==> exists i :: 0 <= i < |b.history| && b.history[i].directory == d)
    && (forall key :: Unfinished(b.control, key) ==> exists i :: 0 <= i < |b.history| && Missed(b.history[i], key))
    && (b.control.halted ==> b.control.stopped && b.control.stopping)
    && (b.control.stopped ==> b.control.halted || exists i :: 0 <= i < |b.history| && MainFailure(b.history[i]))
  }

  lemma ExecutionStays(e: Execution, c: Control, d: Control)
    requires ExecutionOk(e, c) && Grows(c, d)
    ensures ExecutionOk(e, d)
  {}

  lemma ArrivalStays(b: Broker, arrival: Arrival)
    requires BrokerOk(b)
    ensures BrokerOk(b.(control := Arrive(b.control, arrival)))
  {
    var c := Arrive(b.control, arrival);
    assert Grows(b.control, c);
    assert c.reviews == b.control.reviews;
    hide ExecutionOk, Grows, HistoryOk;
    forall i | 0 <= i < |b.history| ensures ExecutionOk(b.history[i], c) {
      ExecutionStays(b.history[i], b.control, c);
    }
    forall key | Unfinished(c, key) ensures exists i :: 0 <= i < |b.history| && Missed(b.history[i], key) {
      assert Unfinished(b.control, key);
    }
    assert c.halted ==> c.stopped && c.stopping;
    assert c.stopped ==> c.halted || exists i :: 0 <= i < |b.history| && MainFailure(b.history[i]);
  }

  /** What an earlier line of the history has left in the flags binds the next one. */
  lemma NextFollows(e: Execution, c: Control, next: Execution, d: Control)
    requires ExecutionOk(e, c) && StepOk(c, next, d) && ExecutionOk(next, d) && e.directory != next.directory
    ensures Follows(e, next)
  {
    hide Blocked, Retired, Unfinished, Grows, ReplyOk, ActionsOk;
    if next.review.Some? && Missed(e, next.review.value) {
      assert Blocked(c, next.review.value);
    }
  }

  lemma NextAccounted(b: Broker, e: Execution, d: Control)
    requires BrokerOk(b) && StepOk(b.control, e, d)
    ensures Accounted(b.history + [e], |b.history|)
  {
    hide HistoryOk, ExecutionOk, Blocked, Unfinished, Grows;
    if e.review.Some? && e.worker == MainWorker {
      var i :| 0 <= i < |b.history| && Missed(b.history[i], e.review.value);
      assert Missed((b.history + [e])[i], e.review.value);
    }
  }

  lemma HistoryGrows(b: Broker, e: Execution, d: Control)
    requires BrokerOk(b) && StepOk(b.control, e, d) && e.directory !in b.handled
    requires ExecutionOk(e, d)
    ensures HistoryOk(b.history + [e])
  {
    var h := b.history + [e];
    var n := |b.history|;
    NextAccounted(b, e, d);
    forall i | 0 <= i < n ensures Follows(h[i], e) {
      NextFollows(b.history[i], b.control, e, d);
    }
    hide ExecutionOk, StepOk, Follows;
    forall j | 0 <= j < n ensures Accounted(h, j) {
      assert Accounted(b.history, j);
      AccountedStays(b.history, e, j);
    }
  }

  lemma AccountedStays(h: seq<Execution>, e: Execution, j: int)
    requires 0 <= j < |h| && Accounted(h, j)
    ensures Accounted(h + [e], j)
  {
    if h[j].review.Some? && h[j].worker == MainWorker {
      var i :| 0 <= i < j && Missed(h[i], h[j].review.value);
      assert Missed((h + [e])[i], h[j].review.value);
    }
  }

  lemma ExecuteKeeps(b: Broker, directory: string, request: Request, w: World)
    requires BrokerOk(b) && directory !in b.handled
    ensures BrokerOk(Execute(b.(handled := b.handled + {directory}), directory, request, w))
  {
    hide Execute, ExecutionOk, HistoryOk, StepOk, LatchOk, Unfinished, Missed, MainFailure;
    var now := b.(handled := b.handled + {directory});
    ExecutedOk(now, directory, request, w);
    var after := Execute(now, directory, request, w);
    var e := after.history[|b.history|];
    assert after.history == after.history[..|b.history|] + [e];
    StepGrows(b.control, e, after.control);
    HistoryGrows(b, e, after.control);
    LatchStays(b, e, after.control);
    LinesStay(b, e, after.control);
    HandledGrow(b, e);
    UnfinishedMissed(b, e, after.control);
  }

  lemma StepGrows(c: Control, e: Execution, d: Control)
    requires StepOk(c, e, d)
    ensures Grows(c, d) && (c.halted ==> d.halted)
  {}

  lemma LinesStay(b: Broker, e: Execution, d: Control)
    requires BrokerOk(b) && Grows(b.control, d) && ExecutionOk(e, d)
    ensures forall i :: 0 <= i <= |b.history| ==> ExecutionOk((b.history + [e])[i], d)
  {
    hide ExecutionOk, Grows, HistoryOk, Unfinished, Missed, MainFailure;
    forall i | 0 <= i < |b.history| ensures ExecutionOk((b.history + [e])[i], d) {
      ExecutionStays(b.history[i], b.control, d);
    }
  }

  lemma HandledGrow(b: Broker, e: Execution)
    requires BrokerOk(b)
    ensures forall d :: d in b.handled + {e.directory} <==>
              exists i :: 0 <= i <= |b.history| && (b.history + [e])[i].directory == d
  {
    hide ExecutionOk, HistoryOk, Unfinished, Missed, MainFailure;
    var h := b.history + [e];
    assert h[|b.history|].directory == e.directory;
    forall d | d in b.handled ensures exists i :: 0 <= i <= |b.history| && h[i].directory == d {
      var i :| 0 <= i < |b.history| && b.history[i].directory == d;
      assert h[i].directory == d;
    }
  }

  lemma UnfinishedMissed(b: Broker, e: Execution, d: Control)
    requires BrokerOk(b) && StepOk(b.control, e, d)
    ensures forall key :: Unfinished(d, key) ==> exists i :: 0 <= i <= |b.history| && Missed((b.history + [e])[i], key)
  {
    hide ExecutionOk, HistoryOk, Unfinished, Missed, MainFailure, Grows, Blocked, Retired;
    var h := b.history + [e];
    forall key | Unfinished(d, key) ensures exists i :: 0 <= i <= |b.history| && Missed(h[i], key) {
      if Unfinished(b.control, key) {
        var i :| 0 <= i < |b.history| && Missed(b.history[i], key);
        assert Missed(h[i], key);
      } else {
        assert Missed(h[|b.history|], key);
      }
    }
  }

  lemma LatchStays(b: Broker, e: Execution, d: Control)
    requires BrokerOk(b) && LatchOk(b.control, e, d) && (b.control.halted ==> d.halted)
    ensures d.halted ==> d.stopped && d.stopping
    ensures d.stopped ==> d.halted || exists i :: 0 <= i <= |b.history| && MainFailure((b.history + [e])[i])
  {
    hide ExecutionOk, HistoryOk, Unfinished, Missed, MainFailure;
    var h := b.history + [e];
    assert MainFailure(e) ==> MainFailure(h[|b.history|]);
    if b.control.stopped && !b.control.halted {
      var i :| 0 <= i < |b.history| && MainFailure(b.history[i]);
      assert MainFailure(h[i]);
    }
  }

  lemma {:induction false} PassKeeps(b: Broker, listings: seq<Listing>)
    requires BrokerOk(b)
    ensures var after := ServePass(b, listings);
            && BrokerOk(after) && b.handled <= after.handled
            && (!after.dead ==> forall l :: l in listings && l.hasRequest ==> l.directory in after.handled)
    decreases |listings|
  {
    hide BrokerOk, Execute;
    if |listings| > 0 && !b.dead {
      var l := listings[0];
      if l.directory !in b.handled && l.hasRequest {
        ExecuteKeeps(b, l.directory, l.request, l.world);
        var now := b.(handled := b.handled + {l.directory});
        var next := Execute(now, l.directory, l.request, l.world);
        assert next.handled == now.handled by { ExecutedOk(now, l.directory, l.request, l.world); }
        PassKeeps(next, listings[1..]);
      } else {
        PassKeeps(b, listings[1..]);
      }
      assert forall x :: x in listings <==> x == l || x in listings[1..];
    }
  }

  lemma {:induction false} ServeKeeps(b: Broker, passes: seq<Pass>)
    requires BrokerOk(b)
    ensures BrokerOk(Serve(b, passes))
    decreases |passes|
  {
    if |passes| > 0 && !b.dead {
      ArrivalStays(b, passes[0].arrival);
      var now := b.(control := Arrive(b.control, passes[0].arrival));
      if !now.control.stopping {
        PassKeeps(now, passes[0].listings);
        hide BrokerOk, ServePass;
        ServeKeeps(ServePass(now, passes[0].listings), passes[1..]);
      }
    }
  }

  // ---- The main results ----

  /** Every request directory is executed at most once, in every run. */
  lemma EachRequestRunsOnce(passes: seq<Pass>, i: nat, j: nat)
    requires i < j < |Serve(NEW_BROKER, passes).history|
    ensures Serve(NEW_BROKER, passes).history[i].directory != Serve(NEW_BROKER, passes).history[j].directory
  {
    hide Serve;
    ServeKeeps(NEW_BROKER, passes);
  }

  /** What a reply promises, in every run. */
  lemma RepliesAreTruthful(passes: seq<Pass>, i: nat)
    requires i < |Serve(NEW_BROKER, passes).history|
    requires Serve(NEW_BROKER, passes).history[i].reply.Some?
    ensures var e := Serve(NEW_BROKER, passes).history[i];
            var reply := e.reply.value;
            && (reply.workerRestored <==> reply.cleanup == Confirmed)
            && (reply.outcome == SpawnFailed <==> forall k :: 0 <= k < |e.actions| ==> !e.actions[k].Spawn?)
            && (reply.cleanup == Unclear ==> Serve(NEW_BROKER, passes).control.stopping)
            && (reply.workerRestored ==>
                  && |e.actions| > 1 && e.actions[0] == Spawn(TargetOf(e.review))
                  && e.actions[|e.actions| - 1] == Restart(TargetOf(e.review)))
  {
    hide Serve;
    ServeKeeps(NEW_BROKER, passes);
    var e := Serve(NEW_BROKER, passes).history[i];
    assert ExecutionOk(e, Serve(NEW_BROKER, passes).control);
  }

  /** Once a request that is not a review fails, nothing is ever started again. */
  lemma MainFailureIsFinal(passes: seq<Pass>, i: nat, j: nat)
    requires i < j < |Serve(NEW_BROKER, passes).history|
    requires MainFailure(Serve(NEW_BROKER, passes).history[i])
    ensures var later := Serve(NEW_BROKER, passes).history[j];
            && (forall k :: 0 <= k < |later.actions| ==> !later.actions[k].Spawn? && !later.actions[k].Restart?)
            && (later.reply.Some? ==> later.reply.value == Reply(125, SpawnFailed, Failed, false))
  {
    hide Serve;
    ServeKeeps(NEW_BROKER, passes);
    assert ExecutionOk(Serve(NEW_BROKER, passes).history[j], Serve(NEW_BROKER, passes).control);
  }

  /**
   The broker is stopped for good by a request that is not a review and fails, and
   by a call of `stop_worker` that ran to its end; by nothing else.
   */
  lemma StoppedIffMainFailureOrHalt(passes: seq<Pass>)
    ensures var b := Serve(NEW_BROKER, passes);
            b.control.stopped <==> b.control.halted || exists i :: 0 <= i < |b.history| && MainFailure(b.history[i])
    ensures var b := Serve(NEW_BROKER, passes); b.control.halted ==> b.control.stopping
  {
    hide Serve;
    ServeKeeps(NEW_BROKER, passes);
    var b := Serve(NEW_BROKER, passes);
    assert forall i :: 0 <= i < |b.history| ==> ExecutionOk(b.history[i], b.control);
  }

  /** From the order to stop on, or once stopped, no pass starts anything more. */
  lemma {:induction false} NothingStartsOnceStopping(b: Broker, listings: seq<Listing>, i: nat)
    requires b.control.stopping || b.control.stopped
    requires |b.history| <= i < |ServePass(b, listings).history|
    ensures var e := ServePass(b, listings).history[i];
            && MainFailure(e) && (forall k :: 0 <= k < |e.actions| ==> e.actions[k] == Stop(MainWorker))
    decreases |listings|
  {
    var l := listings[0];
    if l.directory in b.handled || !l.hasRequest {
      NothingStartsOnceStopping(b, listings[1..], i);
    } else {
      var now := b.(handled := b.handled + {l.directory});
      var next := Execute(now, l.directory, l.request, l.world);
      ExecutedOk(now, l.directory, l.request, l.world);
      hide Execute;
      PassExtends(next, listings[1..]);
      if i > |b.history| {
        NothingStartsOnceStopping(next, listings[1..], i);
      }
    }
  }

  /** A pass only adds to the history. */
  lemma {:induction false} PassExtends(b: Broker, listings: seq<Listing>)
    ensures b.history <= ServePass(b, listings).history
    decreases |listings|
  {
    if |listings| > 0 && !b.dead {
      var l := listings[0];
      var next := if l.directory in b.handled || !l.hasRequest then b
                  else Execute(b.(handled := b.handled + {l.directory}), l.directory, l.request, l.world);
      PassExtends(next, listings[1..]);
    }
  }

  /** Once a request on a review copy fails, whatever the reason, nothing is ever started on that copy again. */
  lemma FailedReviewIsRetired(passes: seq<Pass>, i: nat, j: nat, key: string)
    requires i < j < |Serve(NEW_BROKER, passes).history|
    requires var e := Serve(NEW_BROKER, passes).history[i]; e.isReview && e.raised && Names(e.request, key)
    requires Names(Serve(NEW_BROKER, passes).history[j].request, key)
    ensures forall k :: 0 <= k < |Serve(NEW_BROKER, passes).history[j].actions| ==>
              !Serve(NEW_BROKER, passes).history[j].actions[k].Spawn?
  {
    hide Serve;
    ServeKeeps(NEW_BROKER, passes);
    assert ExecutionOk(Serve(NEW_BROKER, passes).history[j], Serve(NEW_BROKER, passes).control);
  }

  /** The main worker is stopped, runs a process or is restarted. */
  predicate TouchesMain(e: Execution) {
    exists k :: 0 <= k < |e.actions| && e.actions[k].target == MainWorker
  }

  lemma TouchOk(e: Execution, c: Control)
    requires ExecutionOk(e, c) && e.isReview
    ensures TouchesMain(e) <==> e.review.Some? && e.worker == MainWorker
    ensures TouchesMain(e) ==> e.raised && e.actions == [Stop(MainWorker)]
  {
    hide ReplyOk, Blocked, Retired;
    if e.review.Some? && e.worker == MainWorker {
      var k :| 0 <= k < |e.actions| && e.actions[k] == Stop(MainWorker);
    }
  }

  /**
   A review request stops, uses or restarts the main worker if and only if it gets
   hold of a copy that an earlier request tried to set up in vain: it stops the main
   worker then, without a latch, and no later request on that copy does so again.
   */
  lemma ReviewStopsMainIff(passes: seq<Pass>, j: nat)
    requires j < |Serve(NEW_BROKER, passes).history| && Serve(NEW_BROKER, passes).history[j].isReview
    ensures var h := Serve(NEW_BROKER, passes).history;
            && (TouchesMain(h[j]) <==> h[j].review.Some? && exists i :: 0 <= i < j && Missed(h[i], h[j].review.value))
            && (TouchesMain(h[j]) ==> h[j].actions == [Stop(MainWorker)])
            && (TouchesMain(h[j]) ==>
                  forall i :: 0 <= i < |h| && i != j && h[i].isReview && h[i].review == h[j].review ==>
                           !TouchesMain(h[i]))
  {
    hide Serve;
    ServeKeeps(NEW_BROKER, passes);
    var h := Serve(NEW_BROKER, passes).history;
    forall i | 0 <= i < |h| && h[i].isReview
      ensures TouchesMain(h[i]) <==> h[i].review.Some? && h[i].worker == MainWorker
      ensures TouchesMain(h[i]) ==> h[i].raised && h[i].actions == [Stop(MainWorker)]
    {
      assert ExecutionOk(h[i], Serve(NEW_BROKER, passes).control);
      TouchOk(h[i], Serve(NEW_BROKER, passes).control);
    }
    hide ExecutionOk, TouchesMain;
    assert Accounted(h, j);
  }

  lemma SetUpInVain(b: Broker, directory: string, key: string, environmentOk: bool, w: World)
    requires !w.binds && w.inSetup.Nothing? && !b.control.stopped && !b.control.stopping && b.control.reviews == map[]
    requires w.present ==> w.writes
    ensures var after := Execute(b, directory, Command(ReviewOf(key), environmentOk), w);
            && after.control == b.control.(reviews := map[key := Unready]) && !after.dead
            && |after.history| == |b.history| + 1
  {
    hide Launch, Watch, Collect, Restore;
  }

  lemma UnfinishedStops(b: Broker, directory: string, key: string, environmentOk: bool, w: World)
    requires w.inSetup.Nothing? && w.inHandler.Nothing? && w.handlerStops && (w.present ==> w.writes)
    requires !b.control.stopped && !b.control.stopping && Unfinished(b.control, key)
    ensures var after := Execute(b, directory, Command(ReviewOf(key), environmentOk), w);
            && !after.control.stopped && !after.control.stopping && !after.dead
            && |after.history| == |b.history| + 1
            && after.history[|b.history|].isReview && after.history[|b.history|].actions == [Stop(MainWorker)]
  {
    hide Launch, Watch, Collect, Restore;
  }

  /** A set-up that fails, then any request on that copy: the main worker stops, and no flag tells. */
  lemma VainSetUpStopsMain(key: string, environmentOk: bool, w: World)
    requires !w.binds && w.inSetup.Nothing? && w.inHandler.Nothing? && w.handlerStops && (w.present ==> w.writes)
    ensures var request := Command(ReviewOf(key), environmentOk);
            var b := Serve(NEW_BROKER,
                           [Pass(Nothing, [Listing("1", true, request, w), Listing("2", true, request, w)])]);
            && |b.history| == 2 && b.history[1].isReview && b.history[1].actions == [Stop(MainWorker)]
            && !b.control.stopped && !b.control.stopping
  {
    var request := Command(ReviewOf(key), environmentOk);
    var first := Execute(NEW_BROKER.(handled := {"1"}), "1", request, w);
    var second := Execute(first.(handled := {"1", "2"}), "2", request, w);
    SetUpInVain(NEW_BROKER.(handled := {"1"}), "1", key, environmentOk, w);
    UnfinishedStops(first.(handled := {"1", "2"}), "2", key, environmentOk, w);
    assert second.history[1].actions == [Stop(MainWorker)] && |second.history| == 2;
    var listings := [Listing("1", true, request, w), Listing("2", true, request, w)];
    assert ServePass(NEW_BROKER, listings) == second by {
      hide Execute;
      assert {} + {"1"} == {"1"} && {"1"} + {"2"} == {"1", "2"} && listings[1..][1..] == [];
      assert ServePass(second, []) == second;
      assert first.handled == {"1"} by { ExecutedOk(NEW_BROKER.(handled := {"1"}), "1", request, w); }
      assert ServePass(first, listings[1..]) == second;
    }
    hide ServePass, Execute;
    var passes := [Pass(Nothing, listings)];
    assert passes[1..] == [];
    assert Serve(second, []) == second;
  }

  // ---- What the outcome tells ----

  /** Nothing at this poll asks for the process to be stopped. */
  predicate Quiet(p: Poll) {
    p.arrival.Nothing? && !p.oversized && !p.canceled && !p.late
  }

  /** Why a watched process has this outcome. */
  ghost predicate Explains(outcome: Outcome, polls: seq<Poll>, control: Control) {
    match outcome
    case OutputLimit => exists i :: 0 <= i < |polls| && polls[i].oversized
    case Canceled => control.stopping || exists i :: 0 <= i < |polls| && polls[i].canceled
    case TimedOut => exists i :: 0 <= i < |polls| && polls[i].late
    case _ => outcome == Unknown
  }

  lemma {:induction false} WatchExplains(a: Attempt, polls: seq<Poll>, w: World)
    requires a.reply.outcome == Unknown && !a.raised
    ensures var r := Watch(a, polls, w);
            && Explains(r.reply.outcome, polls, r.control)
            && (!r.raised && r.reply.outcome == Unknown ==>
                  r.control == a.control && forall p :: p in polls ==> Quiet(p))
    decreases |polls|
  {
    if |polls| > 0 {
      var p := polls[0];
      var seen := a.(control := Arrive(a.control, p.arrival));
      if !(p.oversized || seen.control.stopping || p.canceled || p.late) {
        WatchExplains(seen, polls[1..], w);
        assert forall i :: 0 <= i < |polls[1..]| ==> polls[1..][i] == polls[i + 1];
        assert forall x :: x in polls <==> x == p || x in polls[1..];
      }
    }
  }

  /**
   An execution that ends without an exception exited by itself, unheeded by every poll, or was stopped
   for the reason it gives.
   */
  lemma OutcomeTellsWhy(c: Control, request: Request, w: World)
    requires !Try(c, request, w).raised
    ensures var a := Try(c, request, w);
            && a.reply.exitCode == w.exitCode
            && (w.oversizedAtEnd ==> a.reply.outcome == OutputLimit)
            && (a.reply.outcome == Exited ==> forall p :: p in w.polls ==> Quiet(p))
            && (!w.oversizedAtEnd && a.reply.outcome != Exited ==>
                  a.reply.outcome != Unknown && Explains(a.reply.outcome, w.polls, a.control))
  {
    AdmitOk(c, request, w);
    hide Admit, Watch, AttemptOk, Explains;
    LaunchOk(c, request, w);
    var launched := Launch(Admit(c, request, w), request, w);
    WatchExplains(launched, w.polls, w);
    var watched := Watch(launched, w.polls, w);
    ExplainsLater(watched.reply.outcome, w.polls, watched.control, Try(c, request, w).control);
  }

  lemma ExplainsLater(outcome: Outcome, polls: seq<Poll>, now: Control, later: Control)
    requires Explains(outcome, polls, now) && (now.stopping ==> later.stopping)
    ensures Explains(outcome, polls, later)
  {}

  // ---- The broker as written ----

  class SplitEnvironment {
    var stopping: bool
    var stopped: bool
    var halted: bool
    var reviews: map<string, Copy>
    var dead: bool
    var handled: set<string>
    var history: seq<Execution>

    constructor ()
      ensures State() == NEW_BROKER
    {
      stopping, stopped, halted, dead := false, false, false, false;
      reviews, handled, history := map[], {}, [];
    }

    ghost function Flags(): Control
      reads this
    {
      Control(stopping, stopped, halted, reviews)
    }

    ghost function State(): Broker
      reads this
    {
      Broker(Flags(), dead, handled, history)
    }

    /** Stop the worker; the latch is set only when that did not fail. */
    method StopWorker(stops: bool) returns (raised: bool)
      modifies this`stopping, this`stopped, this`halted
      ensures raised == !stops && Flags() == Arrive(old(Flags()), if stops then Halted else Told)
    {
      stopping := true;
      if !stops {
        return true;
      }
      stopped, halted, raised := true, true, false;
    }

    /** An await, in which `close` or `stop_worker` may run. */
    method Await(arrival: Arrival)
      modifies this`stopping, this`stopped, this`halted
      ensures Flags() == Arrive(old(Flags()), arrival)
    {
      if arrival.Told? {
        stopping := true;
      } else if arrival.Halted? {
        var raised := StopWorker(true);
      }
    }

    /** The registered copy a request asks for, set up when it is new. */
    method ReviewWorkerFor(key: string, w: World, ghost a: Attempt)
      returns (review: Option<string>, worker: Target, raised: bool)
      requires a.control == Flags() && a.review.None? && a.worker.MainWorker? && !a.raised
      modifies this`reviews
      ensures a.(control := Flags(), review := review, worker := worker, raised := raised) ==
              AdmitReview(a, ReviewOf(key), w)
    {
      review, worker, raised := None, MainWorker, true;
      if key in reviews {
        if reviews[key].Broken? {
          return;
        }
        review := Some(key);
        if reviews[key].Unready? {
          return;
        }
      } else {
        if |reviews| >= REVIEW_BUDGET {
          return;
        }
        reviews := reviews[key := Unready];
        if !w.binds {
          return;
        }
        reviews := reviews[key := Ready];
        review := Some(key);
      }
      worker, raised := ReviewWorker(key), false;
    }

    /** Validate a request and choose its worker. */
    method ChooseWorker(request: Request, w: World)
      returns (isReview: bool, review: Option<string>, worker: Target, raised: bool)
      modifies this`stopping, this`stopped, this`halted, this`reviews
      ensures Attempt(Flags(), isReview, review, worker, false, FIRST_REPLY, [], raised) ==
              Admit(old(Flags()), request, w)
    {
      isReview, review, worker, raised := false, None, MainWorker, false;
      if request.Malformed? || stopped || stopping {
        raised := true;
      } else if !request.review.NoReview? {
        isReview := true;
        Await(w.inSetup);
        if request.review.BadReview? {
          raised := true;
        } else {
          ghost var asked := Attempt(Flags(), true, None, MainWorker, false, FIRST_REPLY, [], false);
          review, worker, raised := ReviewWorkerFor(request.review.key, w, asked);
        }
      }
    }

    /** Poll the process until it ends or has to be stopped. */
    method WatchProcess(target: Target, w: World, ghost a: Attempt)
      returns (outcome: Outcome, stops: seq<Action>, raised: bool)
      requires a.control == Flags() && a.worker == target && a.reply == FIRST_REPLY && !a.raised
      modifies this`stopping, this`stopped, this`halted
      ensures Watch(a, w.polls, w) ==
              a.(control := Flags(), reply := a.reply.(outcome := outcome), actions := a.actions + stops,
                 raised := raised)
    {
      outcome, stops, raised := Unknown, [], false;
      var polls := w.polls;
      while |polls| > 0
        invariant Watch(a, w.polls, w) == Watch(a.(control := Flags()), polls, w)
        invariant outcome == Unknown && stops == [] && !raised
        decreases |polls|
      {
        var p := polls[0];
        Await(p.arrival);
        if p.oversized || stopping || p.canceled || p.late {
          stops := [Stop(target)];
          Await(w.inStop);
          raised := !w.stops;
          if w.stops {
            outcome := if p.oversized then OutputLimit else if stopping || p.canceled then Canceled else TimedOut;
          }
          return;
        }
        polls := polls[1..];
      }
      assert a.actions + stops == a.actions;
    }

    /** Collect the exit code and record the execution. */
    method CollectExit(w: World, watched: Reply, ghost a: Attempt) returns (reply: Reply, raised: bool)
      requires a.control == Flags() && a.reply == watched && !a.raised
      modifies this`stopping, this`stopped, this`halted
      ensures Collect(a, w) == a.(control := Flags(), reply := reply, raised := raised)
    {
      reply, raised := watched, true;
      Await(w.inWait);
      if !w.exits {
        return;
      }
      reply := reply.(exitCode := w.exitCode);
      if w.oversizedAtEnd {
        reply := reply.(outcome := OutputLimit);
      } else if reply.outcome == Unknown {
        reply := reply.(outcome := Exited);
      }
      raised := !w.records;
    }

    /** Restart the worker and confirm it, unless told to stop. */
    method RestoreWorker(w: World, review: Option<string>, target: Target, collected: Reply, ghost a: Attempt)
      returns (reply: Reply, restarts: seq<Action>, raised: bool)
      requires a.control == Flags() && a.review == review && a.worker == target && a.reply == collected && !a.raised
      modifies this`stopping, this`stopped, this`halted
      ensures Restore(a, w) == a.(control := Flags(), reply := reply, actions := a.actions + restarts, raised := raised)
    {
      reply, restarts, raised := collected, [], false;
      assert a.actions + [] == a.actions;
      if !stopping {
        restarts := [Restart(target)];
        Await(w.inRestore);
        raised := !w.restarts || !w.confirmed || (review.Some? && !w.syncs);
        if !raised {
          reply := reply.(cleanup := Confirmed, workerRestored := true);
        }
      }
    }

    /** The try block: `raised` says that an exception left it. */
    method TryExecute(request: Request, w: World)
      returns (isReview: bool, review: Option<string>, target: Target, spawned: bool,
               reply: Reply, actions: seq<Action>, raised: bool)
      modifies this`stopping, this`stopped, this`halted, this`reviews
      ensures Attempt(Flags(), isReview, review, target, spawned, reply, actions, raised) ==
                Try(old(Flags()), request, w)
    {
      hide Admit, Watch, Collect, Restore;
      ghost var before := Flags();
      reply, spawned, actions := FIRST_REPLY, false, [];
      isReview, review, target, raised := ChooseWorker(request, w);
      ghost var admitted := Admit(before, request, w);
      if raised {
        return;
      }
      raised := true;
      if request.Malformed? || !request.environmentOk || !w.spawns {
        return;
      }
      spawned, actions := true, [Spawn(target)];
      if !w.marks {
        return;
      }
      ghost var launched := Launch(admitted, request, w);
      var outcome, stops, failed := WatchProcess(target, w, launched);
      reply, actions := reply.(outcome := outcome), actions + stops;
      if failed {
        return;
      }
      ghost var watched := Watch(launched, w.polls, w);
      reply, failed := CollectExit(w, reply, watched);
      if failed {
        return;
      }
      reply, stops, raised := RestoreWorker(w, review, target, reply, Collect(watched, w));
      actions := actions + stops;
    }

    /** The exception handler: retire the review copy or latch the broker, and stop the worker. */
    method HandleFailure(isReview: bool, review: Option<string>, worker: Target, w: World, ghost a: Attempt)
      returns (stops: seq<Action>, dies: bool)
      requires a.control == Flags() && a.isReview == isReview && a.review == review && a.worker == worker && a.raised
      modifies this`stopping, this`stopped, this`halted, this`reviews
      ensures Flags() == FinalControl(a, w)
      ensures a.actions + stops == (if Stops(a) then a.actions + [Stop(worker)] else a.actions)
      ensures dies == (Stops(a) && !w.handlerStops)
    {
      stops, dies := [], false;
      if isReview {
        if review.Some? {
          reviews := reviews[review.value := Broken];
        }
      } else {
        stopped := true;
      }
      if !isReview || review.Some? {
        stops := [Stop(worker)];
        Await(w.inHandler);
        dies := !w.handlerStops;
      }
    }

    method Record(e: Execution, dies: bool)
      modifies this`dead, this`history
      ensures dead == dies && history == old(history) + [e]
    {
      dead, history := dies, history + [e];
    }

    method ExecuteWorker(directory: string, request: Request, w: World)
      modifies this
      ensures State() == Execute(old(State()), directory, request, w)
    {
      hide Try, FinalControl, Stops, Dies, Executed, FailedReply, Arrive;
      var before := Control(stopping, stopped, halted, reviews);
      var isReview, review, worker, spawned, reply, actions, raised := TryExecute(request, w);
      ghost var a := Try(before, request, w);
      NothingFailed(a, w);
      RecordIs(before, directory, request, w, a);
      var stops, dies := [], false;
      if raised {
        reply := reply.(cleanup := Failed, outcome := if spawned then reply.outcome else SpawnFailed);
        stops, dies := HandleFailure(isReview, review, worker, w, a);
        actions := actions + stops;
      }
      dies := dies || (w.present && !w.writes);
      var e := Execution(directory, request, before, w, isReview, review, worker, raised, spawned,
                         if dies || !w.present then None else Some(reply), actions);
      assert e == Executed(before, directory, request, w, a) && dies == Dies(a, w);
      Record(e, dies);
    }

    method ServeListings(listings: seq<Listing>)
      modifies this
      ensures State() == ServePass(old(State()), listings)
    {
      hide Execute;
      var rest := listings;
      while |rest| > 0 && !dead
        invariant ServePass(State(), rest) == ServePass(old(State()), listings)
        decreases |rest|
      {
        var l := rest[0];
        if l.directory !in handled && l.hasRequest {
          handled := handled + {l.directory};
          ExecuteWorker(l.directory, l.request, l.world);
        }
        rest := rest[1..];
      }
    }

    /** Serve pass after pass until told to stop. */
    method Run(passes: seq<Pass>)
      modifies this
      ensures State() == Serve(old(State()), passes)
    {
      hide ServePass;
      var rest := passes;
      while |rest| > 0 && !dead
        invariant Serve(State(), rest) == Serve(old(State()), passes)
        decreases |rest|
      {
        Await(rest[0].arrival);
        if stopping {
          return;
        }
        ServeListings(rest[0].listings);
        rest := rest[1..];
      }
    }
  }
}
