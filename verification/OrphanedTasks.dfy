/**
 Settling tasks whose child agent is gone (src/app/thread-recovery.ts, with the
 child-agent transitions of src/tasks/task-graph.ts).
 */
module OrphanedTasks {
  import opened Common

  datatype Owner = MainAgent | Subagent

  datatype Status = Pending | InProgress | Completed | Blocked

  datatype Evidence = Evidence(check: string, text: string)

  /** A delivered result; `ready` says that it may enter the task lineage. */
  datatype Artifact = Artifact(agent: string, task: string, ready: bool)

  datatype Task = Task(
    id: string, owner: Owner, agent: Option<string>, status: Status, checks: seq<string>,
    evidence: seq<Evidence>, artifact: Option<Artifact>, definition: string)

  datatype Operation =
    | Complete(task: string, agent: string, evidence: seq<string>, artifact: Option<Artifact>)
    | Release(task: string, agent: string)

  /** The checks on a whole graph and its text, and the label of evidence beyond the checks, which are not modelled. */
  datatype Rules = Rules(accepts: seq<Task> -> bool, additional: nat -> string)

  const MAX_EVIDENCE_CHARS := 4000

  // ---- One transition of a child agent ----

  /** The position of the first task with this id, or the length. */
  function IndexById(tasks: seq<Task>, id: string): (i: nat)
    ensures i <= |tasks| && (i < |tasks| ==> tasks[i].id == id)
    ensures forall k :: 0 <= k < i ==> tasks[k].id != id
  {
    if |tasks| == 0 then 0 else if tasks[0].id == id then 0 else 1 + IndexById(tasks[1..], id)
  }

  function TotalLength(texts: seq<string>): nat {
    if |texts| == 0 then 0 else |texts[0]| + TotalLength(texts[1..])
  }

  /** Each text with its check; more texts than checks are numbered. */
  function Labelled(rules: Rules, checks: seq<string>, texts: seq<string>): (evidence: seq<Evidence>)
    ensures |evidence| == |texts|
    ensures forall k :: 0 <= k < |texts| ==>
              evidence[k].text == texts[k] && (k < |checks| ==> evidence[k].check == checks[k])
  {
    seq(|texts|, k requires 0 <= k < |texts| =>
      Evidence(if k < |checks| then checks[k] else rules.additional(k + 1), texts[k]))
  }

  /** The held task after its child agent's operation, or nothing when it is refused. */
  function Transition(rules: Rules, t: Task, op: Operation): Option<Task> {
    if t.owner != Subagent || t.agent != Some(op.agent) || t.status != InProgress then None
    else match op
      case Release(_, _) => Some(t.(owner := MainAgent, agent := None, status := Pending, artifact := None))
      case Complete(task, agent, evidence, artifact) =>
        if |evidence| == 0 || TotalLength(evidence) > MAX_EVIDENCE_CHARS then None
        else if artifact.Some? &&
                (artifact.value.agent != agent || artifact.value.task != task || !artifact.value.ready) then None
        else Some(t.(status := Completed, evidence := Labelled(rules, t.checks, evidence),
                     artifact := if artifact.Some? then artifact else t.artifact))
  }

  function Apply(rules: Rules, tasks: seq<Task>, op: Operation): Option<seq<Task>> {
    var i := IndexById(tasks, op.task);
    if i == |tasks| then None
    else match Transition(rules, tasks[i], op)
      case None => None
      case Some(t) => if rules.accepts(tasks[i := t]) then Some(tasks[i := t]) else None
  }

  // ---- Orphans ----

  datatype Assignment = Assignment(agent: string, bound: bool)

  datatype Report = Report(completed: bool, task: string, evidence: seq<Evidence>)

  datatype Delivery = Delivery(completed: bool, report: Option<Report>, artifact: Option<Artifact>)

  /** What the journal knows of child agents. */
  datatype Records = Records(unobserved: seq<Assignment>, stopped: set<string>,
                             delivered: map<(string, string), Delivery>)

  /** Bound to a session and an environment that can be resumed, and not told to stop. */
  predicate Resumable(records: Records, agent: string) {
    && agent !in records.stopped
    && exists i :: 0 <= i < |records.unobserved| && records.unobserved[i] == Assignment(agent, true)
  }

  /** Held by a child agent that is gone. */
  predicate Orphan(records: Records, t: Task) {
    t.owner == Subagent && t.status == InProgress && t.agent.Some? && t.agent.value != "" &&
    !Resumable(records, t.agent.value)
  }

  /** A durable report answers every completion check of the task, in order, and no stop was committed. */
  predicate Verified(records: Records, t: Task)
    requires t.agent.Some?
  {
    && t.agent.value !in records.stopped
    && (t.agent.value, t.id) in records.delivered
    && var d := records.delivered[(t.agent.value, t.id)];
       d.completed && d.report.Some? && Answers(t, d.report.value)
  }

  predicate Answers(t: Task, report: Report) {
    && report.completed && report.task == t.id && |report.evidence| == |t.checks|
    && forall k :: 0 <= k < |t.checks| ==> report.evidence[k].check == t.checks[k]
  }

  function Texts(evidence: seq<Evidence>): (texts: seq<string>)
    ensures |texts| == |evidence| && forall k :: 0 <= k < |texts| ==> texts[k] == evidence[k].text
  {
    seq(|evidence|, k requires 0 <= k < |evidence| => evidence[k].text)
  }

  function OperationFor(records: Records, t: Task): Operation
    requires t.agent.Some?
  {
    if Verified(records, t) then
      var d := records.delivered[(t.agent.value, t.id)];
      Complete(t.id, t.agent.value, Texts(d.report.value.evidence), d.artifact)
    else Release(t.id, t.agent.value)
  }

  /** What becomes of an orphan. */
  function Settled(records: Records, t: Task): Task
    requires Orphan(records, t)
  {
    if Verified(records, t) then
      var d := records.delivered[(t.agent.value, t.id)];
      t.(status := Completed, evidence := d.report.value.evidence,
         artifact := if d.artifact.Some? then d.artifact else t.artifact)
    else t.(owner := MainAgent, agent := None, status := Pending, artifact := None)
  }

  function FirstOrphan(records: Records, tasks: seq<Task>): (i: nat)
    ensures i <= |tasks| && (i < |tasks| ==> Orphan(records, tasks[i]))
    ensures forall k :: 0 <= k < i ==> !Orphan(records, tasks[k])
  {
    if |tasks| == 0 then 0 else if Orphan(records, tasks[0]) then 0 else 1 + FirstOrphan(records, tasks[1..])
  }

  function Orphans(records: Records, tasks: seq<Task>): nat {
    if |tasks| == 0 then 0 else (if Orphan(records, tasks[0]) then 1 else 0) + Orphans(records, tasks[1..])
  }

  /** The orphan found is the task its operation changes, and it is settled. */
  lemma AppliesToTheOrphan(rules: Rules, records: Records, tasks: seq<Task>)
    requires FirstOrphan(records, tasks) < |tasks|
    ensures var i := FirstOrphan(records, tasks);
            var next := Apply(rules, tasks, OperationFor(records, tasks[i]));
            next.Some? ==> next.value == tasks[i := Settled(records, tasks[i])]
  {
    var i := FirstOrphan(records, tasks);
    var t := tasks[i];
    var op := OperationFor(records, t);
    var j := IndexById(tasks, t.id);
    assert j <= i;
    if Transition(rules, tasks[j], op).Some? {
      assert Orphan(records, tasks[j]);
      assert j == i;
      if Verified(records, t) {
        var d := records.delivered[(t.agent.value, t.id)];
        assert Labelled(rules, t.checks, Texts(d.report.value.evidence)) == d.report.value.evidence;
      }
    }
  }

  lemma {:induction false} OneOrphanFewer(records: Records, tasks: seq<Task>, i: nat, t: Task)
    requires i < |tasks| && Orphan(records, tasks[i]) && !Orphan(records, t)
    ensures Orphans(records, tasks[i := t]) == Orphans(records, tasks) - 1
  {
    hide Orphan;
    if i > 0 {
      OneOrphanFewer(records, tasks[1..], i - 1, t);
      assert tasks[i := t][1..] == tasks[1..][i - 1 := t];
    } else {
      assert tasks[0 := t][1..] == tasks[1..];
    }
  }

  // ---- The loop ----

  /** The journal event of one settlement carries the graph it leads to. */
  datatype Event = Event(operation: Operation, tasks: seq<Task>)

  datatype Outcome = Outcome(tasks: seq<Task>, journal: seq<Event>, released: nat, thrown: bool)

  /** The operation on the first orphan is refused, by the graph or by the store. */
  predicate Refused(rules: Rules, records: Records, tasks: seq<Task>, stores: nat)
    requires FirstOrphan(records, tasks) < |tasks|
  {
    Apply(rules, tasks, OperationFor(records, tasks[FirstOrphan(records, tasks)])).None? || stores == 0
  }

  /** The first orphan is settled, and the event stored. */
  function Advanced(rules: Rules, records: Records, o: Outcome, stores: nat): Outcome
    requires FirstOrphan(records, o.tasks) < |o.tasks| && !Refused(rules, records, o.tasks, stores)
  {
    var op := OperationFor(records, o.tasks[FirstOrphan(records, o.tasks)]);
    var next := Apply(rules, o.tasks, op).value;
    Outcome(next, o.journal + [Event(op, next)], o.released + 1, false)
  }

  lemma AdvancedSettles(rules: Rules, records: Records, o: Outcome, stores: nat)
    requires FirstOrphan(records, o.tasks) < |o.tasks| && !Refused(rules, records, o.tasks, stores)
    ensures var i := FirstOrphan(records, o.tasks);
            var next := Advanced(rules, records, o, stores);
            && next.tasks == o.tasks[i := Settled(records, o.tasks[i])]
            && Orphans(records, next.tasks) == Orphans(records, o.tasks) - 1
            && next.released == o.released + 1 && |next.journal| == |o.journal| + 1 && !next.thrown
            && next.journal[|o.journal|].tasks == next.tasks
  {
    var i := FirstOrphan(records, o.tasks);
    AppliesToTheOrphan(rules, records, o.tasks);
    SettledIsNoOrphan(records, o.tasks[i]);
    OneOrphanFewer(records, o.tasks, i, Settled(records, o.tasks[i]));
  }

  /** Settle orphan after orphan; the journal stores at most `stores` more events. */
  function Reconcile(rules: Rules, records: Records, o: Outcome, stores: nat): Outcome
    decreases Orphans(records, o.tasks)
  {
    if FirstOrphan(records, o.tasks) == |o.tasks| then o
    else if Refused(rules, records, o.tasks, stores) then o.(thrown := true)
    else
      AdvancedSettles(rules, records, o, stores);
      Reconcile(rules, records, Advanced(rules, records, o, stores), stores - 1)
  }

  function ReleaseOrphans(rules: Rules, records: Records, tasks: seq<Task>, stores: nat): Outcome {
    Reconcile(rules, records, Outcome(tasks, [], 0, false), stores)
  }

  /** Every orphan settled, everything else as it was. */
  ghost predicate AllSettled(records: Records, before: seq<Task>, after: seq<Task>) {
    && |after| == |before|
    && forall k :: 0 <= k < |before| ==>
         after[k] == if Orphan(records, before[k]) then Settled(records, before[k]) else before[k]
  }

  /** Each task is as it was or settled. */
  ghost predicate SomeSettled(records: Records, before: seq<Task>, after: seq<Task>) {
    && |after| == |before|
    && forall k :: 0 <= k < |before| ==>
         after[k] == before[k] || (Orphan(records, before[k]) && after[k] == Settled(records, before[k]))
  }

  lemma {:induction false} NoOrphansLeft(records: Records, tasks: seq<Task>)
    requires FirstOrphan(records, tasks) == |tasks|
    ensures Orphans(records, tasks) == 0
  {
    hide Orphan;
    if |tasks| > 0 {
      assert forall k :: 0 <= k < |tasks[1..]| ==> !Orphan(records, tasks[1..][k]) by {
        forall k | 0 <= k < |tasks[1..]| ensures !Orphan(records, tasks[1..][k]) {
          assert !Orphan(records, tasks[k + 1]);
        }
      }
      NoOrphansLeft(records, tasks[1..]);
    }
  }

  lemma {:induction false} ReconcileOk(rules: Rules, records: Records, before: seq<Task>, o: Outcome, stores: nat)
    requires SomeSettled(records, before, o.tasks) && !o.thrown
    requires o.journal == [] || o.journal[|o.journal| - 1].tasks == o.tasks
    requires o.journal == [] ==> o.tasks == before
    requires o.released == |o.journal|
    ensures var r := Reconcile(rules, records, o, stores);
            && SomeSettled(records, before, r.tasks)
            && (if r.journal == [] then r.tasks == before else r.journal[|r.journal| - 1].tasks == r.tasks)
            && r.released == |r.journal|
            && r.released + Orphans(records, r.tasks) == o.released + Orphans(records, o.tasks)
            && (!r.thrown ==> FirstOrphan(records, r.tasks) == |r.tasks|)
    decreases Orphans(records, o.tasks)
  {
    hide Orphan, Verified, Refused, Advanced, Settled, SomeSettled, Orphans;
    var i := FirstOrphan(records, o.tasks);
    if i < |o.tasks| && !Refused(rules, records, o.tasks, stores) {
      AdvancedSettles(rules, records, o, stores);
      StillSomeSettled(records, before, o.tasks, i);
      ReconcileOk(rules, records, before, Advanced(rules, records, o, stores), StoresLeft(rules, records, o, stores));
    }
  }

  /** A store that did not refuse had room. */
  function StoresLeft(rules: Rules, records: Records, o: Outcome, stores: nat): (left: nat)
    requires FirstOrphan(records, o.tasks) < |o.tasks| && !Refused(rules, records, o.tasks, stores)
    ensures left == stores - 1
  {
    stores - 1
  }

  lemma SettledIsNoOrphan(records: Records, t: Task)
    requires Orphan(records, t)
    ensures !Orphan(records, Settled(records, t))
  {}

  lemma StillSomeSettled(records: Records, before: seq<Task>, tasks: seq<Task>, i: nat)
    requires SomeSettled(records, before, tasks) && i < |tasks| && Orphan(records, tasks[i])
    ensures SomeSettled(records, before, tasks[i := Settled(records, tasks[i])])
  {
    if tasks[i] != before[i] {
      SettledIsNoOrphan(records, before[i]);
    }
  }

  /**
   When nothing fails, exactly the orphans are settled: the number reported is
   that of the orphans at the start, none is left, tasks held by resumable agents
   are untouched, and the last event carries the graph in memory.
   */
  lemma ReleaseSettlesExactlyTheOrphans(rules: Rules, records: Records, tasks: seq<Task>, stores: nat)
    requires !ReleaseOrphans(rules, records, tasks, stores).thrown
    ensures var r := ReleaseOrphans(rules, records, tasks, stores);
            && AllSettled(records, tasks, r.tasks)
            && r.released == Orphans(records, tasks) && Orphans(records, r.tasks) == 0
            && |r.journal| == r.released
            && (if r.journal == [] then r.tasks == tasks else r.journal[|r.journal| - 1].tasks == r.tasks)
  {
    ReconcileOk(rules, records, tasks, Outcome(tasks, [], 0, false), stores);
    var r := ReleaseOrphans(rules, records, tasks, stores);
    NoOrphansLeft(records, r.tasks);
    hide Orphan, Verified;
  }

  /** When it fails part way, memory and journal still agree and no task is half settled. */
  lemma FailureKeepsMemoryAndJournalTogether(rules: Rules, records: Records, tasks: seq<Task>, stores: nat)
    ensures var r := ReleaseOrphans(rules, records, tasks, stores);
            && SomeSettled(records, tasks, r.tasks)
            && r.released == |r.journal| <= stores
            && r.released + Orphans(records, r.tasks) == Orphans(records, tasks)
            && (if r.journal == [] then r.tasks == tasks else r.journal[|r.journal| - 1].tasks == r.tasks)
  {
    ReconcileOk(rules, records, tasks, Outcome(tasks, [], 0, false), stores);
    ReleasedWithin(rules, records, Outcome(tasks, [], 0, false), stores);
  }

  lemma {:induction false} ReleasedWithin(rules: Rules, records: Records, o: Outcome, stores: nat)
    ensures Reconcile(rules, records, o, stores).released <= o.released + stores
    decreases Orphans(records, o.tasks)
  {
    hide Orphan, Verified, Refused, Advanced, Settled, Orphans;
    if FirstOrphan(records, o.tasks) < |o.tasks| && !Refused(rules, records, o.tasks, stores) {
      AdvancedSettles(rules, records, o, stores);
      ReleasedWithin(rules, records, Advanced(rules, records, o, stores), StoresLeft(rules, records, o, stores));
    }
  }

  /** A task is completed only by a verified report, and then carries that report's evidence. */
  lemma CompletedOnlyByReport(rules: Rules, records: Records, tasks: seq<Task>, stores: nat, k: nat)
    requires k < |tasks| && tasks[k].status != Completed
    requires var r := ReleaseOrphans(rules, records, tasks, stores); k < |r.tasks| && r.tasks[k].status == Completed
    ensures var r := ReleaseOrphans(rules, records, tasks, stores);
            var t := tasks[k];
            && Orphan(records, t) && t.agent.value !in records.stopped
            && (t.agent.value, t.id) in records.delivered
            && records.delivered[(t.agent.value, t.id)].completed &&
               records.delivered[(t.agent.value, t.id)].report.Some?
            && records.delivered[(t.agent.value, t.id)].report.value.completed
            && records.delivered[(t.agent.value, t.id)].report.value.task == t.id
            && r.tasks[k].evidence == records.delivered[(t.agent.value, t.id)].report.value.evidence
            && |r.tasks[k].evidence| == |t.checks|
            && forall n :: 0 <= n < |t.checks| ==> r.tasks[k].evidence[n].check == t.checks[n]
  {
    ReconcileOk(rules, records, tasks, Outcome(tasks, [], 0, false), stores);
  }

  // ---- Exactly when a task is settled, and when the loop fails ----

  lemma {:induction false} TotalLengthIsAll(texts: seq<string>)
    ensures TotalLength(texts) == |Flatten(texts)|
    decreases |texts|
  {
    if |texts| > 0 { TotalLengthIsAll(texts[1..]); }
  }

  /**
   What a verified report must bring besides to be accepted: some evidence, not too much of it, and no artifact but
   one that is ready and of this agent and task.
   */
  predicate Deliverable(records: Records, t: Task)
    requires Orphan(records, t)
  {
    Verified(records, t) ==>
      var d := records.delivered[(t.agent.value, t.id)];
      && |t.checks| > 0 && |Flatten(Texts(d.report.value.evidence))| <= 4000
      && (d.artifact.Some? ==> d.artifact.value == Artifact(t.agent.value, t.id, true))
  }

  /** The first orphan is settled if and only if no earlier task has its id, it can be, and the graph accepts it. */
  lemma OrphanIsSettledIff(rules: Rules, records: Records, tasks: seq<Task>)
    requires FirstOrphan(records, tasks) < |tasks|
    ensures var i := FirstOrphan(records, tasks);
            Apply(rules, tasks, OperationFor(records, tasks[i])).Some? <==>
              && (forall k :: 0 <= k < i ==> tasks[k].id != tasks[i].id)
              && Deliverable(records, tasks[i]) && rules.accepts(tasks[i := Settled(records, tasks[i])])
  {
    var i := FirstOrphan(records, tasks);
    var t := tasks[i];
    var op := OperationFor(records, t);
    var j := IndexById(tasks, t.id);
    if Verified(records, t) {
      var evidence := records.delivered[(t.agent.value, t.id)].report.value.evidence;
      TotalLengthIsAll(Texts(evidence));
      assert Labelled(rules, t.checks, Texts(evidence)) == evidence;
    }
    if j < i {
      assert !Orphan(records, tasks[j]);
      assert Transition(rules, tasks[j], op).None?;
    } else {
      assert j == i;
    }
  }

  /** The graph once the first `n` orphans are settled. */
  function SettledFirst(records: Records, tasks: seq<Task>, n: nat): seq<Task>
    requires n <= Orphans(records, tasks)
    decreases n
  {
    if n == 0 then tasks
    else
      SomeOrphan(records, tasks);
      var i := FirstOrphan(records, tasks);
      SettledIsNoOrphan(records, tasks[i]);
      OneOrphanFewer(records, tasks, i, Settled(records, tasks[i]));
      SettledFirst(records, tasks[i := Settled(records, tasks[i])], n - 1)
  }

  lemma {:induction false} SomeOrphan(records: Records, tasks: seq<Task>)
    requires Orphans(records, tasks) > 0
    ensures FirstOrphan(records, tasks) < |tasks|
  {
    if FirstOrphan(records, tasks) == |tasks| {
      NoOrphansLeft(records, tasks);
    }
  }

  /** The next orphan of the graph cannot be settled. */
  predicate Blocks(rules: Rules, records: Records, tasks: seq<Task>) {
    var i := FirstOrphan(records, tasks);
    i < |tasks| &&
    !(&& (forall k :: 0 <= k < i ==> tasks[k].id != tasks[i].id)
      && Deliverable(records, tasks[i]) && rules.accepts(tasks[i := Settled(records, tasks[i])]))
  }

  lemma OneMoreSettled(records: Records, tasks: seq<Task>, n: nat)
    requires 0 < n <= Orphans(records, tasks)
    ensures var i := FirstOrphan(records, tasks);
            i < |tasks| && var next := tasks[i := Settled(records, tasks[i])];
            n - 1 <= Orphans(records, next) == Orphans(records, tasks) - 1
            && SettledFirst(records, tasks, n) == SettledFirst(records, next, n - 1)
  {
    SomeOrphan(records, tasks);
    var i := FirstOrphan(records, tasks);
    SettledIsNoOrphan(records, tasks[i]);
    OneOrphanFewer(records, tasks, i, Settled(records, tasks[i]));
    hide Orphan, Settled, Orphans;
  }

  /** None of the first `n` orphans is one at which the loop fails. */
  ghost predicate Passes(rules: Rules, records: Records, tasks: seq<Task>, stores: nat, n: nat)
    requires n <= Orphans(records, tasks)
  {
    n <= stores && forall m :: 0 <= m < n ==> !Blocks(rules, records, SettledFirst(records, tasks, m))
  }

  lemma PassesOn(rules: Rules, records: Records, tasks: seq<Task>, stores: nat, n: nat)
    requires 0 < n <= Orphans(records, tasks) && stores > 0 && !Blocks(rules, records, tasks)
    requires var i := FirstOrphan(records, tasks);
             i < |tasks| && var next := tasks[i := Settled(records, tasks[i])];
             n - 1 <= Orphans(records, next) && Passes(rules, records, next, stores - 1, n - 1)
    ensures Passes(rules, records, tasks, stores, n)
  {
    hide Orphan, Settled, Orphans, Blocks, SettledFirst;
    var next := tasks[FirstOrphan(records, tasks) := Settled(records, tasks[FirstOrphan(records, tasks)])];
    forall m | 0 <= m < n ensures !Blocks(rules, records, SettledFirst(records, tasks, m)) {
      if m == 0 {
        NoneSettled(records, tasks);
      } else {
        OneMoreSettled(records, tasks, m);
        assert !Blocks(rules, records, SettledFirst(records, next, m - 1));
      }
    }
  }

  lemma NoneSettled(records: Records, tasks: seq<Task>)
    ensures SettledFirst(records, tasks, 0) == tasks
  {}

  lemma {:induction false} ReconcileStops(rules: Rules, records: Records, o: Outcome, stores: nat) returns (n: nat)
    requires !o.thrown
    ensures var r := Reconcile(rules, records, o, stores);
            && n <= Orphans(records, o.tasks) && r.released == o.released + n
            && r.tasks == SettledFirst(records, o.tasks, n) && Passes(rules, records, o.tasks, stores, n)
            && (if r.thrown then
                  n < Orphans(records, o.tasks) && (n == stores || Blocks(rules, records, r.tasks))
                else n == Orphans(records, o.tasks))
    decreases Orphans(records, o.tasks)
  {
    hide Orphan, Verified, Refused, Advanced, Settled, Orphans, Blocks, SettledFirst;
    n := 0;
    NoneSettled(records, o.tasks);
    var i := FirstOrphan(records, o.tasks);
    if i == |o.tasks| {
      NoOrphansLeft(records, o.tasks);
    } else {
      RefusedIff(rules, records, o.tasks, stores);
      if Refused(rules, records, o.tasks, stores) {
        OrphanCounts(records, o.tasks);
      } else {
        AdvancedSettles(rules, records, o, stores);
        var m := ReconcileStops(rules, records, Advanced(rules, records, o, stores),
                                StoresLeft(rules, records, o, stores));
        n := m + 1;
        OneMoreSettled(records, o.tasks, n);
        PassesOn(rules, records, o.tasks, stores, n);
      }
    }
  }

  lemma RefusedIff(rules: Rules, records: Records, tasks: seq<Task>, stores: nat)
    requires FirstOrphan(records, tasks) < |tasks|
    ensures Refused(rules, records, tasks, stores) <==> stores == 0 || Blocks(rules, records, tasks)
  {
    OrphanIsSettledIff(rules, records, tasks);
    hide Apply, Deliverable, Orphan, Settled;
  }

  lemma {:induction false} OrphanCounts(records: Records, tasks: seq<Task>)
    requires FirstOrphan(records, tasks) < |tasks|
    ensures Orphans(records, tasks) > 0
  {
    hide Orphan;
    if !Orphan(records, tasks[0]) { OrphanCounts(records, tasks[1..]); }
  }

  /**
   The loop fails if and only if some orphan, those before it in the graph settled, cannot be settled or comes when
   the journal stores no more; the first such one stops it, and the ones before are settled and counted.
   */
  lemma ReleaseFailsIff(rules: Rules, records: Records, tasks: seq<Task>, stores: nat)
    ensures var r := ReleaseOrphans(rules, records, tasks, stores);
            && r.released <= Orphans(records, tasks) && r.tasks == SettledFirst(records, tasks, r.released)
            && (r.thrown <==>
                  exists n: nat :: n < Orphans(records, tasks) &&
                    (n >= stores || Blocks(rules, records, SettledFirst(records, tasks, n))))
            && (r.thrown ==>
                  r.released < Orphans(records, tasks) && (r.released == stores || Blocks(rules, records, r.tasks)))
  {
    var n := ReconcileStops(rules, records, Outcome(tasks, [], 0, false), stores);
    hide Orphan, Blocks, SettledFirst, Orphans, Reconcile;
    var r := ReleaseOrphans(rules, records, tasks, stores);
    if r.thrown {
      assert n >= stores || Blocks(rules, records, SettledFirst(records, tasks, n));
    }
  }

  /** When nothing fails, a task changes exactly when its child agent holds it, in progress, and is gone. */
  lemma TaskIsReleasedIff(rules: Rules, records: Records, tasks: seq<Task>, stores: nat, k: nat)
    requires !ReleaseOrphans(rules, records, tasks, stores).thrown && k < |tasks|
    ensures var r := ReleaseOrphans(rules, records, tasks, stores);
            var t := tasks[k];
            |r.tasks| == |tasks| &&
            (r.tasks[k] != t <==>
               && t.owner == Subagent && t.status == InProgress && t.agent.Some? && t.agent.value != ""
               && (t.agent.value in records.stopped || Assignment(t.agent.value, true) !in records.unobserved))
  {
    ReleaseSettlesExactlyTheOrphans(rules, records, tasks, stores);
    hide ReleaseOrphans, Verified;
    var t := tasks[k];
    if Orphan(records, t) {
      SettledIsNoOrphan(records, t);
    }
  }

  lemma StartOf(rules: Rules, records: Records, tasks: seq<Task>, stores: nat)
    ensures ReleaseOrphans(rules, records, tasks, stores) ==
              Reconcile(rules, records, Outcome(tasks, [], 0, false), stores)
  {}

  /** The loop as written. */
  method ReleaseOrphanedSubagentTasks(rules: Rules, records: Records, tasks: seq<Task>, stores: nat)
    returns (r: Outcome)
    ensures r == ReleaseOrphans(rules, records, tasks, stores)
    ensures !r.thrown ==> r.released == Orphans(records, tasks) && AllSettled(records, tasks, r.tasks)
  {
    hide Resumable, Verified, AllSettled, Settled, Orphans, Apply, OperationFor, ReleaseOrphans;
    StartOf(rules, records, tasks, stores);
    var graph, journal, released: nat := tasks, [], 0;
    var left := stores;
    while true
      invariant Reconcile(rules, records, Outcome(graph, journal, released, false), left) ==
                ReleaseOrphans(rules, records, tasks, stores)
      decreases Orphans(records, graph)
    {
      var i := FirstOrphan(records, graph);
      if i == |graph| {
        ReleaseSettlesExactlyTheOrphans(rules, records, tasks, stores);
        return Outcome(graph, journal, released, false);
      }
      var op := OperationFor(records, graph[i]);
      var next := Apply(rules, graph, op);
      if next.None? || left == 0 {
        return Outcome(graph, journal, released, true);
      }
      AdvancedSettles(rules, records, Outcome(graph, journal, released, false), left);
      left := left - 1;
      journal := journal + [Event(op, next.value)];
      graph := next.value;
      released := released + 1;
    }
  }
}
