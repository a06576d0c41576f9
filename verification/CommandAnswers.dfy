/**
 What the broker answers (benchmarks/swebench_verified/split_environment.py), read off the
 request, the flags before it and the world it meets: when a process is started, when an
 execution fails, and what its reply, its actions and its flags are otherwise.
 */
module CommandAnswers {
  import opened Common
  import opened CommandBroker

  // ---- What a request asks for ----

  /** A review copy that can be used now, or a new one within the budget whose set-up succeeds. */
  predicate CopyToHand(reviews: map<string, Copy>, key: string, w: World) {
    if key in reviews then reviews[key].Ready? else |reviews| < REVIEW_BUDGET && w.binds
  }

  predicate WorkerToHand(before: Control, review: Review, w: World) {
    match review
    case NoReview => true
    case BadReview => false
    case ReviewOf(key) => CopyToHand(before.reviews, key, w)
  }

  /** A good command for a worker that can be had, before any flag is set, which the system can start. */
  predicate Starts(before: Control, request: Request, w: World) {
    && request.Command? && request.environmentOk && w.spawns
    && !before.stopped && !before.stopping && WorkerToHand(before, request.review, w)
  }

  /** The worker a request is for. */
  function Place(review: Review): Target {
    if review.ReviewOf? then ReviewWorker(review.key) else MainWorker
  }

  /** The order to stop came while the review copy was set up. */
  predicate OrderedInSetup(review: Review, w: World) {
    review.ReviewOf? && !w.inSetup.Nothing?
  }

  // ---- How the process ends ----

  /** The poll that has the process stopped, if there is one; the first one does once the order is given. */
  ghost predicate StoppedAt(ordered: bool, polls: seq<Poll>, stop: Option<nat>) {
    match stop
    case None => polls == [] || (!ordered && forall j :: 0 <= j < |polls| ==> Quiet(polls[j]))
    case Some(i) =>
      i < |polls| && if ordered then i == 0 else !Quiet(polls[i]) && forall j :: 0 <= j < i ==> Quiet(polls[j])
  }

  /** Every process ends in one of these ways. */
  lemma {:induction false} EveryProcessEnds(ordered: bool, polls: seq<Poll>) returns (stop: Option<nat>)
    ensures StoppedAt(ordered, polls, stop)
    decreases |polls|
  {
    if polls == [] {
      stop := None;
    } else if ordered || !Quiet(polls[0]) {
      stop := Some(0);
    } else {
      var later := EveryProcessEnds(ordered, polls[1..]);
      assert forall j :: 0 < j < |polls| ==> polls[j] == polls[1..][j - 1];
      stop := if later.Some? then Some(later.value + 1) else None;
    }
  }

  /** The order to stop was given by the time the process was stopped. */
  predicate OrderedByStop(review: Review, w: World, i: nat)
    requires i < |w.polls|
  {
    OrderedInSetup(review, w) || !w.polls[i].arrival.Nothing? || !w.inStop.Nothing?
  }

  /** The order to stop was given by the time the process had ended. */
  predicate OrderedByEnd(review: Review, w: World, stop: Option<nat>)
    requires stop.Some? ==> stop.value < |w.polls|
  {
    || !w.inWait.Nothing?
    || if stop.Some? then OrderedByStop(review, w, stop.value) else OrderedInSetup(review, w)
  }

  function OutcomeOf(review: Review, w: World, stop: Option<nat>): Outcome
    requires stop.Some? ==> stop.value < |w.polls|
  {
    if w.oversizedAtEnd then OutputLimit
    else if stop.None? then Exited
    else
      var p := w.polls[stop.value];
      if p.oversized then OutputLimit
      else if OrderedByStop(review, w, stop.value) || p.canceled then Canceled
      else TimedOut
  }

  /** Every operation on the way from the start of the process to the restored worker succeeds. */
  predicate Works(review: Review, w: World, stop: Option<nat>)
    requires stop.Some? ==> stop.value < |w.polls|
  {
    && w.marks && (stop.Some? ==> w.stops) && w.exits && w.records
    && (!OrderedByEnd(review, w, stop) ==> w.restarts && w.confirmed && (review.ReviewOf? ==> w.syncs))
  }

  function ActionsOf(review: Review, w: World, stop: Option<nat>): seq<Action>
    requires stop.Some? ==> stop.value < |w.polls|
  {
    [Spawn(Place(review))]
    + (if stop.Some? then [Stop(Place(review))] else [])
    + (if OrderedByEnd(review, w, stop) then [] else [Restart(Place(review))])
  }

  function ReplyOf(review: Review, w: World, stop: Option<nat>): Reply
    requires stop.Some? ==> stop.value < |w.polls|
  {
    var ordered := OrderedByEnd(review, w, stop);
    Reply(w.exitCode, OutcomeOf(review, w, stop), if ordered then Unclear else Confirmed, !ordered)
  }

  // ---- One attempt ----

  /** A worker is had exactly then. */
  lemma AdmittedIff(c: Control, request: Request, w: World)
    ensures var a := Admit(c, request, w);
            && (!a.raised <==>
                  request.Command? && !c.stopped && !c.stopping && WorkerToHand(c, request.review, w))
            && (!a.raised ==>
                  && a.worker == Place(request.review) && !a.spawned && a.actions == [] && a.reply == FIRST_REPLY
                  && a.review.Some? == request.review.ReviewOf? && a.isReview == request.review.ReviewOf?
                  && a.control.stopping == OrderedInSetup(request.review, w))
  {}

  lemma {:induction false} WatchStops(a: Attempt, polls: seq<Poll>, w: World, stop: Option<nat>)
    requires !a.raised && StoppedAt(a.control.stopping, polls, stop)
    ensures var r := Watch(a, polls, w);
            match stop
            case None => r == a
            case Some(i) =>
              var control := Arrive(Arrive(a.control, polls[i].arrival), w.inStop);
              && r.control == control && r.actions == a.actions + [Stop(a.worker)] && r.raised == !w.stops
              && r == a.(control := r.control, actions := r.actions, raised := r.raised, reply := r.reply)
              && (w.stops ==>
                    r.reply == a.reply.(outcome :=
                      if polls[i].oversized then OutputLimit
                      else if control.stopping || polls[i].canceled then Canceled else TimedOut))
    decreases |polls|
  {
    if |polls| > 0 && !a.control.stopping && Quiet(polls[0]) {
      assert forall j :: 0 < j < |polls| ==> polls[j] == polls[1..][j - 1];
      WatchStops(a, polls[1..], w, if stop.Some? then Some(stop.value - 1) else None);
    }
  }

  function OrderedSoFar(review: Review, w: World, stop: Option<nat>): bool
    requires stop.Some? ==> stop.value < |w.polls|
  {
    if stop.Some? then OrderedByStop(review, w, stop.value) else OrderedInSetup(review, w)
  }

  /** The outcome before the output is measured for the last time. */
  function WatchedOutcome(review: Review, w: World, stop: Option<nat>): Outcome
    requires stop.Some? ==> stop.value < |w.polls|
  {
    if stop.None? then Unknown
    else if w.polls[stop.value].oversized then OutputLimit
    else if OrderedByStop(review, w, stop.value) || w.polls[stop.value].canceled then Canceled
    else TimedOut
  }

  /** What is done until the process has ended. */
  function WatchedActions(review: Review, stop: Option<nat>): seq<Action> {
    [Spawn(Place(review))] + (if stop.Some? then [Stop(Place(review))] else [])
  }

  /** A process that has been watched to its end. */
  predicate WatchedAs(v: Attempt, review: Review, w: World, stop: Option<nat>)
    requires stop.Some? ==> stop.value < |w.polls|
  {
    && !v.raised && v.spawned && v.worker == Place(review) && v.review.Some? == review.ReviewOf?
    && v.control.stopping == OrderedSoFar(review, w, stop) && v.actions == WatchedActions(review, stop)
    && v.reply == FIRST_REPLY.(outcome := WatchedOutcome(review, w, stop))
  }

  lemma WatchComesTo(a: Attempt, review: Review, w: World, stop: Option<nat>)
    requires WatchedAs(a, review, w, None)
    requires a.control.stopping == OrderedInSetup(review, w) && StoppedAt(a.control.stopping, w.polls, stop)
    ensures var v := Watch(a, w.polls, w);
            (v.raised <==> stop.Some? && !w.stops) && (!v.raised ==> WatchedAs(v, review, w, stop))
            && v.spawned && v.worker == a.worker
  {
    WatchStops(a, w.polls, w, stop);
    hide Watch;
  }

  lemma EndComesTo(v: Attempt, review: Review, w: World, stop: Option<nat>)
    requires (stop.Some? ==> stop.value < |w.polls|) && WatchedAs(v, review, w, stop)
    ensures var collected := Collect(v, w);
            var r := if collected.raised then collected else Restore(collected, w);
            && r.spawned && r.worker == v.worker
            && (!r.raised <==>
                  && w.exits && w.records
                  && (!OrderedByEnd(review, w, stop) ==> w.restarts && w.confirmed && (review.ReviewOf? ==> w.syncs)))
            && (!r.raised ==> r.reply == ReplyOf(review, w, stop) && r.actions == ActionsOf(review, w, stop))
  {
    hide OrderedInSetup, OrderedByStop;
  }

  lemma TryAnswers(c: Control, request: Request, w: World, stop: Option<nat>)
    requires Starts(c, request, w) && StoppedAt(OrderedInSetup(request.review, w), w.polls, stop)
    ensures var a := Try(c, request, w);
            && a.spawned && a.worker == Place(request.review)
            && (!a.raised <==> Works(request.review, w, stop))
            && (!a.raised ==>
                  a.reply == ReplyOf(request.review, w, stop) && a.actions == ActionsOf(request.review, w, stop))
  {
    AdmittedIff(c, request, w);
    var launched := Launch(Admit(c, request, w), request, w);
    assert stop.Some? ==> stop.value < |w.polls|;
    hide Admit, Watch, Collect, Restore, StoppedAt, ReplyOf, ActionsOf, WorkerToHand;
    if w.marks {
      WatchComesTo(launched, request.review, w, stop);
      var watched := Watch(launched, w.polls, w);
      if !watched.raised {
        EndComesTo(watched, request.review, w, stop);
      }
    }
  }

  /** The request is taken for one on a review copy. */
  predicate TakenAsReview(before: Control, request: Request) {
    request.Command? && !request.review.NoReview? && !before.stopped && !before.stopping
  }

  /**
   What is stopped when no process was started: the main worker for a request that is not taken for a review one or
   gets hold of a copy without a worker, the copy's own worker when it has one, and nothing otherwise.
   */
  function StoppedInstead(before: Control, request: Request, w: World): seq<Action> {
    if !TakenAsReview(before, request) then [Stop(MainWorker)]
    else if request.review.BadReview? then []
    else
      var key, reviews := request.review.key, before.reviews;
      if key in reviews && reviews[key].Unready? then [Stop(MainWorker)]
      else if CopyToHand(reviews, key, w) then [Stop(ReviewWorker(key))]
      else []
  }

  lemma AdmissionFails(c: Control, request: Request, w: World)
    ensures var a := Admit(c, request, w);
            && (a.isReview <==> TakenAsReview(c, request))
            && !a.spawned && a.actions == [] && a.reply == FIRST_REPLY
            && (a.raised ==>
                  (if Stops(a) then [Stop(a.worker)] else []) == StoppedInstead(c, request, w))
  {}

  lemma TryRefuses(c: Control, request: Request, w: World)
    requires !Starts(c, request, w)
    ensures var a := Try(c, request, w);
            && a.raised && !a.spawned && a.reply == FIRST_REPLY && a.actions == []
            && (if Stops(a) then [Stop(a.worker)] else []) == StoppedInstead(c, request, w)
  {
    AdmittedIff(c, request, w);
    AdmissionFails(c, request, w);
    hide Admit, Watch, Collect, Restore;
  }

  lemma TryKeepsKind(c: Control, request: Request, w: World)
    ensures Try(c, request, w).isReview <==> TakenAsReview(c, request)
  {
    TryOk(c, request, w);
    hide Try, Grows, LatchedByHalt, CopiesOk;
  }

  // ---- One execution ----

  /** An execution is what its request, the flags before it and the world make of it. */
  ghost predicate Answered(e: Execution) {
    && (e.spawned <==> Starts(e.before, e.request, e.met))
    && (e.isReview <==> TakenAsReview(e.before, e.request))
    && (!e.spawned ==>
          && e.raised && e.actions == StoppedInstead(e.before, e.request, e.met)
          && (e.reply.Some? ==> e.reply.value == Reply(125, SpawnFailed, Failed, false)))
    && (e.spawned ==> AnsweredInFull(e))
    && (e.reply.Some? <==>
          e.met.present && e.met.writes && (e.raised && (!e.isReview || e.review.Some?) ==> e.met.handlerStops))
  }

  ghost predicate AnsweredInFull(e: Execution)
    requires e.request.Command?
  {
    forall stop :: StoppedAt(OrderedInSetup(e.request.review, e.met), e.met.polls, stop) ==>
                     && (!e.raised <==> Works(e.request.review, e.met, stop))
                     && (!e.raised ==> e.actions == ActionsOf(e.request.review, e.met, stop))
                     && (!e.raised && e.reply.Some? ==> e.reply.value == ReplyOf(e.request.review, e.met, stop))
  }

  lemma ExecuteAnswers(b: Broker, directory: string, request: Request, w: World)
    ensures var after := Execute(b, directory, request, w);
            && |after.history| == |b.history| + 1 && after.history[..|b.history|] == b.history
            && var e := after.history[|b.history|];
               e.request == request && e.before == b.control && e.met == w && Answered(e)
  {
    ExecutedOk(b, directory, request, w);
    var e := Execute(b, directory, request, w).history[|b.history|];
    TryKeepsKind(b.control, request, w);
    hide ExecutionOk, StepOk, LatchOk, Starts, StoppedAt, Works, ReplyOf, ActionsOf, Try, FinalControl, StoppedInstead;
    hide TakenAsReview;
    if Starts(b.control, request, w) {
      var some := EveryProcessEnds(OrderedInSetup(request.review, w), w.polls);
      TryAnswers(b.control, request, w, some);
      forall stop | StoppedAt(OrderedInSetup(request.review, w), w.polls, stop)
        ensures !e.raised <==> Works(request.review, w, stop)
        ensures !e.raised ==> e.actions == ActionsOf(request.review, w, stop)
        ensures !e.raised && e.reply.Some? ==> e.reply.value == ReplyOf(request.review, w, stop)
      {
        TryAnswers(b.control, request, w, stop);
      }
    } else {
      TryRefuses(b.control, request, w);
    }
  }

  // ---- Every run ----

  lemma {:induction false} PassAnswers(b: Broker, listings: seq<Listing>)
    requires forall e :: e in b.history ==> Answered(e)
    ensures forall e :: e in ServePass(b, listings).history ==> Answered(e)
    decreases |listings|
  {
    hide Execute, Answered;
    if |listings| > 0 && !b.dead {
      var l := listings[0];
      if l.directory in b.handled || !l.hasRequest {
        PassAnswers(b, listings[1..]);
      } else {
        var now := b.(handled := b.handled + {l.directory});
        var next := Execute(now, l.directory, l.request, l.world);
        ExecuteAnswers(now, l.directory, l.request, l.world);
        assert next.history == b.history + [next.history[|b.history|]];
        PassAnswers(next, listings[1..]);
      }
    }
  }

  lemma {:induction false} ServeAnswers(b: Broker, passes: seq<Pass>)
    requires forall e :: e in b.history ==> Answered(e)
    ensures forall e :: e in Serve(b, passes).history ==> Answered(e)
    decreases |passes|
  {
    hide Answered, ServePass;
    if |passes| > 0 && !b.dead {
      var now := b.(control := Arrive(b.control, passes[0].arrival));
      if !now.control.stopping {
        PassAnswers(now, passes[0].listings);
        ServeAnswers(ServePass(now, passes[0].listings), passes[1..]);
      }
    }
  }

  // ---- The main results ----

  /** In every run a process is started exactly for a good command that comes before any flag and gets its worker. */
  lemma StartedIff(passes: seq<Pass>, i: nat)
    requires i < |Serve(NEW_BROKER, passes).history|
    ensures var e := Serve(NEW_BROKER, passes).history[i];
            e.spawned <==>
              && e.request.Command? && e.request.environmentOk && e.met.spawns
              && !e.before.stopped && !e.before.stopping
              && match e.request.review
                 case NoReview => true
                 case BadReview => false
                 case ReviewOf(key) =>
                   if key in e.before.reviews then e.before.reviews[key].Ready?
                   else |e.before.reviews| < REVIEW_BUDGET && e.met.binds
  {
    hide Serve, AnsweredInFull;
    ServeAnswers(NEW_BROKER, passes);
    assert Answered(Serve(NEW_BROKER, passes).history[i]);
  }

  /**
   In every run an execution that started its process fails exactly when an operation it comes to fails, and
   otherwise has the reply and the actions that the polls and the orders to stop make of it.
   */
  lemma StartedIsAnswered(passes: seq<Pass>, i: nat, stop: Option<nat>)
    requires i < |Serve(NEW_BROKER, passes).history| && Serve(NEW_BROKER, passes).history[i].spawned
    requires var e := Serve(NEW_BROKER, passes).history[i];
             e.request.Command? && StoppedAt(OrderedInSetup(e.request.review, e.met), e.met.polls, stop)
    ensures var e := Serve(NEW_BROKER, passes).history[i];
            && (e.raised <==> !Works(e.request.review, e.met, stop))
            && (!e.raised ==>
                  && e.actions == ActionsOf(e.request.review, e.met, stop)
                  && e.reply == (if e.met.present && e.met.writes then Some(ReplyOf(e.request.review, e.met, stop))
                                 else None))
  {
    hide Serve, StoppedAt, Works, ActionsOf, ReplyOf;
    ServeAnswers(NEW_BROKER, passes);
    var e := Serve(NEW_BROKER, passes).history[i];
    assert Answered(e);
    assert AnsweredInFull(e);
  }

  /** In every run a request that starts no process gets this reply, and this is stopped. */
  lemma NotStartedIsAnswered(passes: seq<Pass>, i: nat)
    requires i < |Serve(NEW_BROKER, passes).history| && !Serve(NEW_BROKER, passes).history[i].spawned
    ensures var e := Serve(NEW_BROKER, passes).history[i];
            && e.raised && (e.isReview <==> TakenAsReview(e.before, e.request))
            && e.actions == StoppedInstead(e.before, e.request, e.met)
            && e.reply == (if e.met.present && e.met.writes && (e.actions != [] ==> e.met.handlerStops)
                           then Some(Reply(125, SpawnFailed, Failed, false)) else None)
  {
    hide Serve, AnsweredInFull;
    ServeAnswers(NEW_BROKER, passes);
    ServeKeeps(NEW_BROKER, passes);
    var e := Serve(NEW_BROKER, passes).history[i];
    assert Answered(e);
    assert ExecutionOk(e, Serve(NEW_BROKER, passes).control);
    hide Starts, StoppedInstead, TakenAsReview;
  }

  /** Nothing arrives, no poll calls for a stop, and every operation works. */
  predicate Ordinary(w: World) {
    && w.inSetup.Nothing? && (forall p :: p in w.polls ==> Quiet(p)) && w.inWait.Nothing? && w.inRestore.Nothing?
    && w.marks && w.exits && !w.oversizedAtEnd && w.records
    && w.restarts && w.confirmed && w.syncs && w.present && w.writes
  }

  /** The registered copies after an ordinary command: a new one has been added. */
  function WithCopy(reviews: map<string, Copy>, review: Review): map<string, Copy> {
    if review.ReviewOf? then reviews[review.key := Ready] else reviews
  }

  /** An ordinary command is run, its worker restarted, its exit code told, and no flag changes. */
  lemma OrdinaryCommand(b: Broker, directory: string, request: Request, w: World)
    requires Starts(b.control, request, w) && Ordinary(w)
    ensures var after := Execute(b, directory, request, w);
            && after.control == b.control.(reviews := WithCopy(b.control.reviews, request.review))
            && !after.dead && |after.history| == |b.history| + 1
            && var e := after.history[|b.history|];
               && e.actions == [Spawn(Place(request.review)), Restart(Place(request.review))]
               && e.reply == Some(Reply(w.exitCode, Exited, Confirmed, true))
  {
    var admitted := Admit(b.control, request, w);
    AdmittedIff(b.control, request, w);
    AdmittedFlags(b.control, request, w);
    var launched := Launch(admitted, request, w);
    assert StoppedAt(false, w.polls, None);
    WatchStops(launched, w.polls, w, None);
    hide Admit, Watch, StoppedAt, WorkerToHand;
    assert Try(b.control, request, w) == Restore(Collect(launched, w), w);
  }

  lemma AdmittedFlags(c: Control, request: Request, w: World)
    requires Starts(c, request, w) && w.inSetup.Nothing?
    ensures Admit(c, request, w).control == c.(reviews := WithCopy(c.reviews, request.review))
  {
    if request.review.ReviewOf? && request.review.key in c.reviews {
      assert c.reviews[request.review.key := Ready] == c.reviews;
    }
  }

  // ---- The flags before an execution, and a run in which nothing goes wrong ----

  /** The latch was set before an execution by a halt or by an earlier failure on the main worker, by nothing else. */
  ghost predicate LatchedBefore(h: seq<Execution>, j: nat)
    requires j < |h|
  {
    && (h[j].before.stopped <==> h[j].before.halted || exists i :: 0 <= i < j && MainFailure(h[i]))
    && (h[j].before.halted ==> h[j].before.stopping)
  }

  ghost predicate AllLatchedBefore(h: seq<Execution>) {
    forall j :: 0 <= j < |h| ==> LatchedBefore(h, j)
  }

  lemma LatchedBeforeNext(b: Broker, e: Execution)
    requires BrokerOk(b) && AllLatchedBefore(b.history) && e.before == b.control
    ensures AllLatchedBefore(b.history + [e])
  {
    var h, n := b.history + [e], |b.history|;
    hide HistoryOk, MainFailure, ActionsOk, ReplyOk, Unfinished, Missed, Blocked, Retired;
    forall j | 0 <= j < |h| ensures LatchedBefore(h, j) {
      assert forall i :: 0 <= i < j ==> h[i] == b.history[i];
      if j < n {
        assert LatchedBefore(b.history, j) && h[j] == b.history[j];
      } else {
        assert forall i :: 0 <= i < n ==> ExecutionOk(b.history[i], b.control);
      }
    }
  }

  lemma {:induction false} PassLatches(b: Broker, listings: seq<Listing>)
    requires BrokerOk(b) && AllLatchedBefore(b.history)
    ensures AllLatchedBefore(ServePass(b, listings).history)
    decreases |listings|
  {
    hide Execute, BrokerOk, AllLatchedBefore;
    if |listings| > 0 && !b.dead {
      var l := listings[0];
      if l.directory in b.handled || !l.hasRequest {
        PassLatches(b, listings[1..]);
      } else {
        var now := b.(handled := b.handled + {l.directory});
        var next := Execute(now, l.directory, l.request, l.world);
        ExecuteAnswers(now, l.directory, l.request, l.world);
        ExecuteKeeps(b, l.directory, l.request, l.world);
        LatchedBeforeNext(b, next.history[|b.history|]);
        assert next.history == b.history + [next.history[|b.history|]];
        PassLatches(next, listings[1..]);
      }
    }
  }

  lemma {:induction false} ServeLatches(b: Broker, passes: seq<Pass>)
    requires BrokerOk(b) && AllLatchedBefore(b.history)
    ensures AllLatchedBefore(Serve(b, passes).history)
    decreases |passes|
  {
    hide ServePass, BrokerOk, AllLatchedBefore;
    if |passes| > 0 && !b.dead {
      ArrivalStays(b, passes[0].arrival);
      var now := b.(control := Arrive(b.control, passes[0].arrival));
      if !now.control.stopping {
        PassKeeps(now, passes[0].listings);
        PassLatches(now, passes[0].listings);
        ServeLatches(ServePass(now, passes[0].listings), passes[1..]);
      }
    }
  }

  /** In every run: what the latch tells an execution that comes later. */
  lemma LatchBeforeIff(passes: seq<Pass>, j: nat)
    requires j < |Serve(NEW_BROKER, passes).history|
    ensures var h := Serve(NEW_BROKER, passes).history;
            h[j].before.stopped <==> h[j].before.halted || exists i :: 0 <= i < j && h[i].raised && !h[i].isReview
  {
    hide Serve;
    ServeLatches(NEW_BROKER, passes);
    var h := Serve(NEW_BROKER, passes).history;
    assert LatchedBefore(h, j);
    assert forall i :: 0 <= i < |h| ==> (MainFailure(h[i]) <==> h[i].raised && !h[i].isReview);
  }

  /** Good commands for the main worker, each met by an ordinary world. */
  ghost predicate OrdinaryListings(listings: seq<Listing>) {
    forall l :: l in listings && l.hasRequest ==>
      l.request == Command(NoReview, true) && l.world.spawns && Ordinary(l.world)
  }

  /** An execution that went as it should. */
  predicate WentWell(e: Execution) {
    && e.actions == [Spawn(MainWorker), Restart(MainWorker)]
    && e.reply == Some(Reply(e.met.exitCode, Exited, Confirmed, true))
  }

  ghost predicate AllWell(b: Broker) {
    b.control == NEW_BROKER.control && !b.dead && forall e :: e in b.history ==> WentWell(e)
  }

  lemma {:induction false} OrdinaryPass(b: Broker, listings: seq<Listing>)
    requires AllWell(b) && OrdinaryListings(listings)
    ensures AllWell(ServePass(b, listings))
    decreases |listings|
  {
    hide Execute, WentWell;
    if |listings| > 0 {
      var l := listings[0];
      if l.directory in b.handled || !l.hasRequest {
        OrdinaryPass(b, listings[1..]);
      } else {
        var now := b.(handled := b.handled + {l.directory});
        var next := Execute(now, l.directory, l.request, l.world);
        ExecuteAnswers(now, l.directory, l.request, l.world);
        OrdinaryCommand(now, l.directory, l.request, l.world);
        assert next.history == b.history + [next.history[|b.history|]];
        assert WentWell(next.history[|b.history|]) by { hide Answered; OrdinaryIsWell(now, l); }
        OrdinaryPass(next, listings[1..]);
      }
    }
  }

  lemma OrdinaryIsWell(b: Broker, l: Listing)
    requires b.control == NEW_BROKER.control && l.request == Command(NoReview, true) && l.world.spawns &&
             Ordinary(l.world)
    ensures var after := Execute(b, l.directory, l.request, l.world);
            |after.history| > |b.history| && WentWell(after.history[|b.history|])
  {
    OrdinaryCommand(b, l.directory, l.request, l.world);
    ExecuteAnswers(b, l.directory, l.request, l.world);
    hide Execute, Answered;
  }

  /**
   When nothing arrives and every operation works, every command of every pass is run exactly once on the main
   worker, its exit code told and the worker restored, and the broker is as it was.
   */
  lemma {:induction false} UndisturbedRun(passes: seq<Pass>)
    requires forall p :: p in passes ==> p.arrival.Nothing? && OrdinaryListings(p.listings)
    ensures var b := Serve(NEW_BROKER, passes);
            && b.control == NEW_BROKER.control && !b.dead && (forall e :: e in b.history ==> WentWell(e))
            && (forall p, l :: p in passes && l in p.listings && l.hasRequest ==>
                  exists e :: e in b.history && e.directory == l.directory)
  {
    UndisturbedFrom(NEW_BROKER, passes);
    hide Serve, WentWell;
    ServeKeeps(NEW_BROKER, passes);
    var b := Serve(NEW_BROKER, passes);
    forall p, l | p in passes && l in p.listings && l.hasRequest
      ensures exists e :: e in b.history && e.directory == l.directory
    {
      assert l.directory in b.handled;
      var i :| 0 <= i < |b.history| && b.history[i].directory == l.directory;
      assert b.history[i] in b.history;
    }
  }

  lemma {:induction false} UndisturbedFrom(b: Broker, passes: seq<Pass>)
    requires BrokerOk(b) && AllWell(b) && forall p :: p in passes ==> p.arrival.Nothing? && OrdinaryListings(p.listings)
    ensures AllWell(Serve(b, passes)) && b.handled <= Serve(b, passes).handled
    ensures forall p, l :: p in passes && l in p.listings && l.hasRequest ==> l.directory in Serve(b, passes).handled
    decreases |passes|
  {
    hide ServePass, BrokerOk, OrdinaryListings, WentWell;
    if |passes| > 0 {
      assert b.(control := Arrive(b.control, passes[0].arrival)) == b;
      PassKeeps(b, passes[0].listings);
      OrdinaryPass(b, passes[0].listings);
      var next := ServePass(b, passes[0].listings);
      UndisturbedFrom(next, passes[1..]);
      assert forall p :: p in passes <==> p == passes[0] || p in passes[1..];
    }
  }

  /** The pass before which the order to stop arrives is not served, and no later one. */
  lemma {:induction false} OrderEndsTheRun(b: Broker, passes: seq<Pass>, i: nat)
    requires i < |passes| && !passes[i].arrival.Nothing?
    ensures Serve(b, passes).history == Serve(b, passes[..i]).history
    decreases |passes|
  {
    hide ServePass;
    var now := b.(control := Arrive(b.control, passes[0].arrival));
    if i > 0 && !b.dead && !now.control.stopping {
      OrderEndsTheRun(ServePass(now, passes[0].listings), passes[1..], i - 1);
      assert passes[1..][..i - 1] == passes[..i][1..];
    }
  }

  // ---- An order to stop is not a stop ----

  /** In this world the worker is never stopped from outside; the order to stop may come at any time. */
  predicate NoHalt(w: World) {
    && !w.inSetup.Halted? && (forall p :: p in w.polls ==> !p.arrival.Halted?) && !w.inStop.Halted?
    && !w.inWait.Halted? && !w.inRestore.Halted? && !w.inHandler.Halted?
  }

  lemma {:induction false} WatchNoHalt(a: Attempt, polls: seq<Poll>, w: World)
    requires !a.control.halted && !w.inStop.Halted? && forall p :: p in polls ==> !p.arrival.Halted?
    ensures !Watch(a, polls, w).control.halted
    decreases |polls|
  {
    if |polls| > 0 {
      WatchNoHalt(a.(control := Arrive(a.control, polls[0].arrival)), polls[1..], w);
    }
  }

  lemma TryNoHalt(c: Control, request: Request, w: World)
    requires !c.halted && NoHalt(w)
    ensures !FinalControl(Try(c, request, w), w).halted
  {
    var launched := Launch(Admit(c, request, w), request, w);
    assert !launched.control.halted;
    WatchNoHalt(launched, w.polls, w);
    hide Admit, Launch, Watch;
  }

  lemma {:induction false} PassNoHalt(b: Broker, listings: seq<Listing>)
    requires !b.control.halted && forall l :: l in listings ==> NoHalt(l.world)
    ensures !ServePass(b, listings).control.halted
    decreases |listings|
  {
    hide NoHalt, Try, FinalControl, Dies, Executed;
    if |listings| > 0 && !b.dead {
      var l := listings[0];
      if l.directory in b.handled || !l.hasRequest {
        PassNoHalt(b, listings[1..]);
      } else {
        TryNoHalt(b.control, l.request, l.world);
        PassNoHalt(Execute(b.(handled := b.handled + {l.directory}), l.directory, l.request, l.world), listings[1..]);
      }
    }
  }

  lemma {:induction false} ServeNoHalt(b: Broker, passes: seq<Pass>)
    requires !b.control.halted
    requires forall p :: p in passes ==> !p.arrival.Halted? && forall l :: l in p.listings ==> NoHalt(l.world)
    ensures !Serve(b, passes).control.halted
    decreases |passes|
  {
    hide ServePass, NoHalt;
    if |passes| > 0 && !b.dead {
      var now := b.(control := Arrive(b.control, passes[0].arrival));
      if !now.control.stopping {
        PassNoHalt(now, passes[0].listings);
        ServeNoHalt(ServePass(now, passes[0].listings), passes[1..]);
      }
    }
  }

  /** When nothing but the order to stop comes from outside, only a failure on the main worker sets the latch. */
  lemma OrderSetsNoLatch(passes: seq<Pass>)
    requires forall p :: p in passes ==> !p.arrival.Halted? && forall l :: l in p.listings ==> NoHalt(l.world)
    ensures var b := Serve(NEW_BROKER, passes);
            b.control.stopped <==> exists i :: 0 <= i < |b.history| && b.history[i].raised && !b.history[i].isReview
  {
    ServeNoHalt(NEW_BROKER, passes);
    StoppedIffMainFailureOrHalt(passes);
    var b := Serve(NEW_BROKER, passes);
    hide Serve;
    assert forall i :: 0 <= i < |b.history| ==>
             (MainFailure(b.history[i]) <==> b.history[i].raised && !b.history[i].isReview);
  }
}
