/**
 Repairs when a thread is opened again (src/app/thread-recovery.ts): the turn that
 was interrupted is closed, and tasks claimed by child agents that are gone are
 settled (src/tasks/task-graph.ts, src/threads/event-replay.ts).
 */
module ThreadRecovery {
  import opened Common

  // ---- Interrupted turns ----

  datatype Call = Call(id: string, name: string)

  datatype Message =
    | User(content: string)
    | Assistant(content: string, calls: seq<Call>)
    | ToolResult(callId: string, name: string, content: string)

  const INTERRUPTED_RESULT :=
    "{\"ok\":false,\"summary\":\"Tool execution was interrupted before a result was recorded.\",\"error\":\"interrupted\"}"

  /** The recovery event of a turn. */
  datatype Recovered = Recovered(turn: string, messages: seq<Message>, planReview: Option<string>)

  datatype Session = Session(messages: seq<Message>, activeTurn: Option<string>, planReview: Option<string>,
                             journal: seq<Recovered>)

  /** The text that closes an interrupted turn. */
  datatype Prompts = Prompts(interrupted: string)

  predicate Calling(m: Message) {
    m.Assistant? && |m.calls| > 0
  }

  /** The position after the last message with tool calls, or 0. */
  function AfterLastCalling(messages: seq<Message>): (n: nat)
    ensures n <= |messages|
    ensures n > 0 ==> messages[n - 1].Assistant? && Calling(messages[n - 1])
    ensures forall i :: n <= i < |messages| ==> !Calling(messages[i])
  {
    if |messages| == 0 then 0
    else if Calling(messages[|messages| - 1]) then |messages|
    else AfterLastCalling(messages[..|messages| - 1])
  }

  predicate AnsweredIn(messages: seq<Message>, id: string) {
    exists i :: 0 <= i < |messages| && messages[i].ToolResult? && messages[i].callId == id
  }

  function Unanswered(calls: seq<Call>, after: seq<Message>): seq<Call> {
    if |calls| == 0 then []
    else if AnsweredIn(after, calls[0].id) then Unanswered(calls[1..], after)
    else [calls[0]] + Unanswered(calls[1..], after)
  }

  /** The calls of the last message with calls that have no answer after it. */
  function Missing(messages: seq<Message>): seq<Call> {
    var n := AfterLastCalling(messages);
    if n == 0 then [] else Unanswered(messages[n - 1].calls, messages[n..])
  }

  function Answers(calls: seq<Call>): seq<Message> {
    if |calls| == 0 then [] else [ToolResult(calls[0].id, calls[0].name, INTERRUPTED_RESULT)] + Answers(calls[1..])
  }

  function Repairs(prompts: Prompts, messages: seq<Message>, finalIsDurable: bool): seq<Message> {
    Answers(Missing(messages)) + if finalIsDurable then [] else [Assistant(prompts.interrupted, [])]
  }

  // ---- What the store accepts and replays ----

  predicate Blank(s: string) {
    forall i :: 0 <= i < |s| ==> IsSpace(s[i])
  }

  /** An answer that closes a turn. */
  predicate Final(m: Message) {
    m.Assistant? && !Blank(m.content) && |m.calls| == 0
  }

  /** The last message already closes the turn. */
  predicate EndsWithFinal(messages: seq<Message>) {
    |messages| > 0 && Final(messages[|messages| - 1])
  }

  function ToolMessages(messages: seq<Message>): seq<Message> {
    if |messages| == 0 then []
    else if messages[0].ToolResult? then [messages[0]] + ToolMessages(messages[1..])
    else ToolMessages(messages[1..])
  }

  function AssistantMessages(messages: seq<Message>): seq<Message> {
    if |messages| == 0 then []
    else if messages[0].Assistant? then [messages[0]] + AssistantMessages(messages[1..])
    else AssistantMessages(messages[1..])
  }

  /** The answers are those of the calls, in order. */
  predicate Covers(missing: seq<Call>, tools: seq<Message>) {
    && |tools| == |missing|
    && forall i :: 0 <= i < |missing| ==> tools[i] == ToolResult(missing[i].id, missing[i].name, INTERRUPTED_RESULT)
  }

  /** The recovery covers exactly the missing calls, and closes the turn exactly when it is open. */
  predicate Accepts(prompts: Prompts, s: Session, e: Recovered) {
    && s.activeTurn == Some(e.turn)
    && Covers(Missing(s.messages), ToolMessages(e.messages))
    && AssistantMessages(e.messages) == if EndsWithFinal(s.messages) then [] else [Assistant(prompts.interrupted, [])]
  }

  /** Replay drops a message equal to the one before it. */
  function Replay(messages: seq<Message>, added: seq<Message>): seq<Message>
    decreases |added|
  {
    if |added| == 0 then messages
    else if |messages| > 0 && messages[|messages| - 1] == added[0] then Replay(messages, added[1..])
    else Replay(messages + [added[0]], added[1..])
  }

  function ReplayRecovery(s: Session, e: Recovered): Session {
    s.(messages := Replay(s.messages, e.messages),
       planReview := if e.planReview.Some? then e.planReview else s.planReview,
       activeTurn := None, journal := s.journal + [e])
  }

  // ---- The repair ----

  datatype Repair = Repair(session: Session, repaired: bool, thrown: bool)

  function RepairTurn(prompts: Prompts, s: Session, finalIsDurable: bool, planReview: Option<string>): Repair {
    if s.activeTurn.None? then Repair(s, false, false)
    else
      var messages := Repairs(prompts, s.messages, finalIsDurable);
      var e := Recovered(s.activeTurn.value, messages, planReview);
      if !Accepts(prompts, s, e) then Repair(s, false, true)
      else
        Repair(s.(messages := s.messages + messages,
                  planReview := if planReview.Some? then planReview else s.planReview,
                  activeTurn := None, journal := s.journal + [e]), true, false)
  }

  lemma {:induction false} UnansweredExactly(calls: seq<Call>, after: seq<Message>)
    ensures forall c :: c in Unanswered(calls, after) <==> c in calls && !AnsweredIn(after, c.id)
  {
    hide AnsweredIn;
    if |calls| > 0 {
      UnansweredExactly(calls[1..], after);
      assert forall c :: c in calls <==> c == calls[0] || c in calls[1..];
    }
  }

  lemma {:induction false} AnswersCover(calls: seq<Call>)
    ensures |Answers(calls)| == |calls|
    ensures forall i :: 0 <= i < |calls| ==>
              Answers(calls)[i] == ToolResult(calls[i].id, calls[i].name, INTERRUPTED_RESULT)
    ensures ToolMessages(Answers(calls)) == Answers(calls) && AssistantMessages(Answers(calls)) == []
  {
    if |calls| > 0 {
      AnswersCover(calls[1..]);
      assert Answers(calls)[1..] == Answers(calls[1..]);
    }
  }

  lemma {:induction false} MessagesOfConcat(a: seq<Message>, b: seq<Message>)
    ensures ToolMessages(a + b) == ToolMessages(a) + ToolMessages(b)
    ensures AssistantMessages(a + b) == AssistantMessages(a) + AssistantMessages(b)
  {
    if |a| == 0 {
      assert a + b == b;
    } else {
      MessagesOfConcat(a[1..], b);
      assert (a + b)[1..] == a[1..] + b;
      hide *;
      FirstOfMessages(a);
      FirstOfMessages(a + b);
      ConcatThree([a[0]], ToolMessages(a[1..]), ToolMessages(b));
      ConcatThree([a[0]], AssistantMessages(a[1..]), AssistantMessages(b));
    }
  }

  lemma FirstOfMessages(a: seq<Message>)
    requires |a| > 0
    ensures ToolMessages(a) == if a[0].ToolResult? then [a[0]] + ToolMessages(a[1..]) else ToolMessages(a[1..])
    ensures AssistantMessages(a) == if a[0].Assistant? then [a[0]] + AssistantMessages(a[1..])
                                    else AssistantMessages(a[1..])
  {}

  lemma ConcatThree(a: seq<Message>, b: seq<Message>, c: seq<Message>)
    ensures (a + b) + c == a + (b + c)
  {}

  /**
   The store accepts the repair exactly when it agrees about the final answer: the repair never
   contradicts itself.
   */
  lemma RepairAcceptedIff(prompts: Prompts, s: Session, finalIsDurable: bool, planReview: Option<string>)
    requires s.activeTurn.Some?
    ensures RepairTurn(prompts, s, finalIsDurable, planReview).thrown <==> finalIsDurable != EndsWithFinal(s.messages)
  {
    var missing := Missing(s.messages);
    var closing := if finalIsDurable then [] else [Assistant(prompts.interrupted, [])];
    AnswersCover(missing);
    MessagesOfConcat(Answers(missing), closing);
    hide Missing, Answers;
    if !finalIsDurable {
      assert closing[1..] == [] && AssistantMessages(closing) == closing && ToolMessages(closing) == [];
    }
    assert AssistantMessages(Repairs(prompts, s.messages, finalIsDurable)) == [] + closing == closing;
    assert ToolMessages(Repairs(prompts, s.messages, finalIsDurable)) == Answers(missing);
  }

  /** The store accepts exactly the events of the active turn whose answers and closing message are the repair's. */
  lemma AcceptedAreTheRepairs(prompts: Prompts, s: Session, e: Recovered)
    ensures var repairs := Repairs(prompts, s.messages, EndsWithFinal(s.messages));
            Accepts(prompts, s, e) <==>
              && s.activeTurn == Some(e.turn)
              && ToolMessages(e.messages) == ToolMessages(repairs)
              && AssistantMessages(e.messages) == AssistantMessages(repairs)
  {
    var missing := Missing(s.messages);
    var closing := if EndsWithFinal(s.messages) then [] else [Assistant(prompts.interrupted, [])];
    AnswersCover(missing);
    MessagesOfConcat(Answers(missing), closing);
    if closing != [] {
      assert closing[1..] == [] && AssistantMessages(closing) == closing && ToolMessages(closing) == [];
    }
    hide Missing, EndsWithFinal;
    assert ToolMessages(Answers(missing)) + ToolMessages(closing) == Answers(missing);
    if Covers(missing, ToolMessages(e.messages)) {
      assert ToolMessages(e.messages) == Answers(missing);
    }
  }

  lemma {:induction false} AppendedNoCalls(messages: seq<Message>, added: seq<Message>)
    requires forall m :: m in added ==> !Calling(m)
    ensures AfterLastCalling(messages + added) == AfterLastCalling(messages)
    decreases |added|
  {
    if |added| == 0 {
      assert messages + added == messages;
    } else {
      var n := |added| - 1;
      assert messages + added == (messages + added[..n]) + [added[n]];
      assert (messages + added)[..|messages + added| - 1] == messages + added[..n];
      assert added[n] in added;
      AppendedNoCalls(messages, added[..n]);
    }
  }

  lemma RepairsHaveNoCalls(prompts: Prompts, messages: seq<Message>, finalIsDurable: bool)
    ensures forall m :: m in Repairs(prompts, messages, finalIsDurable) ==> !Calling(m)
  {
    AnswersCover(Missing(messages));
  }

  lemma AnsweredInConcat(a: seq<Message>, b: seq<Message>, id: string)
    ensures AnsweredIn(a + b, id) <==> AnsweredIn(a, id) || AnsweredIn(b, id)
  {
    var both := a + b;
    assert forall i :: 0 <= i < |a| ==> both[i] == a[i];
    assert forall i :: 0 <= i < |b| ==> both[|a| + i] == b[i];
    if AnsweredIn(both, id) {
      var i :| 0 <= i < |both| && both[i].ToolResult? && both[i].callId == id;
      assert i >= |a| ==> b[i - |a|] == both[i];
    }
  }

  lemma AnswersAnswer(calls: seq<Call>, id: string)
    ensures AnsweredIn(Answers(calls), id) <==> exists c :: c in calls && c.id == id
  {
    AnswersCover(calls);
    var answers := Answers(calls);
    assert forall i :: 0 <= i < |calls| ==> calls[i] in calls && answers[i].callId == calls[i].id;
  }

  /** What the repairs answer are the missing calls. */
  lemma RepairsAnswer(prompts: Prompts, messages: seq<Message>, finalIsDurable: bool, id: string)
    ensures AnsweredIn(Repairs(prompts, messages, finalIsDurable), id) <==>
              exists c :: c in Missing(messages) && c.id == id
  {
    AnswersAnswer(Missing(messages), id);
    hide Missing, Answers;
    var closing := if finalIsDurable then [] else [Assistant(prompts.interrupted, [])];
    AnsweredInConcat(Answers(Missing(messages)), closing, id);
  }

  lemma MissingExactly(messages: seq<Message>, c: Call)
    requires AfterLastCalling(messages) > 0
    ensures var n := AfterLastCalling(messages);
            c in Missing(messages) <==> c in messages[n - 1].calls && !AnsweredIn(messages[n..], c.id)
  {
    var n := AfterLastCalling(messages);
    UnansweredExactly(messages[n - 1].calls, messages[n..]);
    hide AnsweredIn;
  }

  lemma CallsAnswered(prompts: Prompts, messages: seq<Message>, finalIsDurable: bool, c: Call)
    requires AfterLastCalling(messages) > 0 && c in messages[AfterLastCalling(messages) - 1].calls
    ensures AnsweredIn((messages + Repairs(prompts, messages, finalIsDurable))[AfterLastCalling(messages)..], c.id)
  {
    hide *;
    var n := AfterLastCalling(messages);
    var added := Repairs(prompts, messages, finalIsDurable);
    MissingExactly(messages, c);
    RepairsAnswer(prompts, messages, finalIsDurable, c.id);
    AnsweredInConcat(messages[n..], added, c.id);
    assert (messages + added)[n..] == messages[n..] + added;
  }

  lemma {:induction false} NoneUnanswered(calls: seq<Call>, after: seq<Message>)
    requires forall c :: c in calls ==> AnsweredIn(after, c.id)
    ensures Unanswered(calls, after) == []
  {
    UnansweredExactly(calls, after);
    if |Unanswered(calls, after)| > 0 {
      assert Unanswered(calls, after)[0] in Unanswered(calls, after);
    }
  }

  lemma NoSecondAnswer(prompts: Prompts, messages: seq<Message>, finalIsDurable: bool, id: string)
    requires AfterLastCalling(messages) > 0 && AnsweredIn(messages[AfterLastCalling(messages)..], id)
    ensures !AnsweredIn(Repairs(prompts, messages, finalIsDurable), id)
  {
    hide *;
    RepairsAnswer(prompts, messages, finalIsDurable, id);
    forall c | c in Missing(messages) ensures c.id != id {
      MissingExactly(messages, c);
    }
  }

  /**
   After a repair every call of the last message with calls is answered after it,
   no call that was answered before is answered again, and a second repair
   changes nothing.
   */
  lemma RepairAnswersEveryCallOnce(prompts: Prompts, s: Session, finalIsDurable: bool, planReview: Option<string>)
    requires RepairTurn(prompts, s, finalIsDurable, planReview).repaired
    ensures var r := RepairTurn(prompts, s, finalIsDurable, planReview).session;
            var n := AfterLastCalling(s.messages);
            && s.messages <= r.messages && AfterLastCalling(r.messages) == n && Missing(r.messages) == []
            && (n > 0 ==> forall c :: c in s.messages[n - 1].calls ==> AnsweredIn(r.messages[n..], c.id))
            && (n > 0 ==> forall id :: AnsweredIn(s.messages[n..], id) ==> !AnsweredIn(r.messages[|s.messages|..], id))
            && (finalIsDurable || r.messages[|r.messages| - 1] == Assistant(prompts.interrupted, []))
            && RepairTurn(prompts, r, finalIsDurable, planReview) == Repair(r, false, false)
  {
    var added := Repairs(prompts, s.messages, finalIsDurable);
    var r := RepairTurn(prompts, s, finalIsDurable, planReview).session;
    var n := AfterLastCalling(s.messages);
    hide *;
    RepairedParts(prompts, s, finalIsDurable, planReview);
    RepairsHaveNoCalls(prompts, s.messages, finalIsDurable);
    AppendedNoCalls(s.messages, added);
    assert r.messages[|s.messages|..] == added;
    RepairsEnd(prompts, s.messages, finalIsDurable);
    if n > 0 {
      forall c | c in s.messages[n - 1].calls ensures AnsweredIn(r.messages[n..], c.id) {
        CallsAnswered(prompts, s.messages, finalIsDurable, c);
      }
      forall id | AnsweredIn(s.messages[n..], id) ensures !AnsweredIn(added, id) {
        NoSecondAnswer(prompts, s.messages, finalIsDurable, id);
      }
      assert r.messages[n - 1] == s.messages[n - 1];
    }
    NothingMissing(r.messages);
  }

  lemma RepairedParts(prompts: Prompts, s: Session, finalIsDurable: bool, planReview: Option<string>)
    requires RepairTurn(prompts, s, finalIsDurable, planReview).repaired
    ensures var r := RepairTurn(prompts, s, finalIsDurable, planReview).session;
            && r.messages == s.messages + Repairs(prompts, s.messages, finalIsDurable)
            && RepairTurn(prompts, r, finalIsDurable, planReview) == Repair(r, false, false)
  {
    hide Repairs, Accepts;
  }

  lemma NothingMissing(messages: seq<Message>)
    requires var n := AfterLastCalling(messages);
             n > 0 ==> forall c :: c in messages[n - 1].calls ==> AnsweredIn(messages[n..], c.id)
    ensures Missing(messages) == []
  {
    var n := AfterLastCalling(messages);
    if n > 0 {
      NoneUnanswered(messages[n - 1].calls, messages[n..]);
    }
  }

  lemma RepairsEnd(prompts: Prompts, messages: seq<Message>, finalIsDurable: bool)
    ensures var added := Repairs(prompts, messages, finalIsDurable);
            finalIsDurable || (|added| > 0 && added[|added| - 1] == Assistant(prompts.interrupted, []))
  {}

  // ---- The final answer in the journal ----

  /**
   What the search for the final answer sees of an event: an answer, whose phase
   is absent or completed when it is `settled`; a kind it passes over; or any other.
   */
  datatype Kind = Answer(settled: bool) | PassedOver | Other

  /** An event of the journal with the messages that its replay appends. */
  datatype Event = Event(turn: Option<string>, kind: Kind, added: seq<Message>)

  predicate Decisive(e: Event, turn: string) {
    e.turn == Some(turn) && !e.kind.PassedOver?
  }

  predicate SettledFinal(e: Event) {
    e.kind.Answer? && e.kind.settled && |e.added| == 1 && Final(e.added[0])
  }

  /** The newest decisive event of the turn is its final answer. */
  function DurableFinal(events: seq<Event>, turn: string): bool {
    if |events| == 0 then false
    else
      var n := |events| - 1;
      if Decisive(events[n], turn) then SettledFinal(events[n]) else DurableFinal(events[..n], turn)
  }

  /** The messages after the replay of the events. */
  function Rebuilt(messages: seq<Message>, events: seq<Event>): seq<Message> {
    if |events| == 0 then messages
    else Replay(Rebuilt(messages, events[..|events| - 1]), events[|events| - 1].added)
  }

  /** The newest decisive event, or -1. */
  function LastDecisive(events: seq<Event>, turn: string): (d: int)
    ensures -1 <= d < |events| && (d >= 0 ==> Decisive(events[d], turn))
    ensures forall i :: d < i < |events| ==> !Decisive(events[i], turn)
  {
    if |events| == 0 then -1
    else if Decisive(events[|events| - 1], turn) then |events| - 1
    else LastDecisive(events[..|events| - 1], turn)
  }

  /** The newest event that carries messages, or -1. */
  function LastWriter(events: seq<Event>): (w: int)
    ensures -1 <= w < |events| && (w >= 0 ==> events[w].added != [])
    ensures forall i :: w < i < |events| ==> events[i].added == []
  {
    if |events| == 0 then -1
    else if events[|events| - 1].added != [] then |events| - 1
    else LastWriter(events[..|events| - 1])
  }

  predicate WritesFinal(e: Event) {
    e.added != [] && Final(e.added[|e.added| - 1])
  }

  lemma {:induction false} ReplayEnds(messages: seq<Message>, added: seq<Message>)
    requires added != []
    ensures var r := Replay(messages, added); r != [] && r[|r| - 1] == added[|added| - 1]
    decreases |added|
  {
    var next := if |messages| > 0 && messages[|messages| - 1] == added[0] then messages else messages + [added[0]];
    assert Replay(messages, added) == Replay(next, added[1..]);
    if |added| == 1 {
      assert Replay(next, added[1..]) == next;
    } else {
      ReplayEnds(next, added[1..]);
    }
  }

  lemma {:induction false} RebuiltEnds(messages: seq<Message>, events: seq<Event>)
    ensures EndsWithFinal(Rebuilt(messages, events)) <==>
            if LastWriter(events) >= 0 then WritesFinal(events[LastWriter(events)]) else EndsWithFinal(messages)
  {
    if |events| > 0 {
      var n := |events| - 1;
      if events[n].added != [] {
        ReplayEnds(Rebuilt(messages, events[..n]), events[n].added);
      } else {
        RebuiltEnds(messages, events[..n]);
      }
    }
  }

  lemma {:induction false} DurableIsTheLast(events: seq<Event>, turn: string)
    ensures DurableFinal(events, turn) <==>
              LastDecisive(events, turn) >= 0 && SettledFinal(events[LastDecisive(events, turn)])
  {
    if |events| > 0 && !Decisive(events[|events| - 1], turn) {
      DurableIsTheLast(events[..|events| - 1], turn);
    }
  }

  /** The event at `d` closes the turn, and what the turn recorded later is passed over. */
  ghost predicate ClosesTheTurn(events: seq<Event>, turn: string, d: int)
    requires 0 <= d < |events|
  {
    && events[d].turn == Some(turn) && events[d].kind == Answer(true)
    && |events[d].added| == 1 && Final(events[d].added[0])
    && forall i :: d < i < |events| && events[i].turn == Some(turn) ==> events[i].kind == PassedOver
  }

  /**
   The final answer of a turn is durable exactly when the journal holds a settled event with just that answer and,
   behind it, nothing of the turn but what the search passes over.
   */
  lemma DurableFinalIff(events: seq<Event>, turn: string)
    ensures DurableFinal(events, turn) <==> exists d :: 0 <= d < |events| && ClosesTheTurn(events, turn, d)
  {
    DurableIsTheLast(events, turn);
    var last := LastDecisive(events, turn);
    hide DurableFinal, Final, LastDecisive;
    assert last >= 0 ==> Decisive(events[last], turn);
    if last >= 0 && SettledFinal(events[last]) {
      assert forall i :: last < i < |events| ==> !Decisive(events[i], turn);
      assert ClosesTheTurn(events, turn, last);
    }
    if d :| 0 <= d < |events| && ClosesTheTurn(events, turn, d) {
      assert Decisive(events[d], turn);
    }
  }

  /**
   The repair of a replayed session is refused exactly when a message that closes
   nothing follows the final answer of the turn, or when the last message closes
   the turn although the turn goes on after it or never settled it.
   */
  lemma RepairRefusedIff(prompts: Prompts, s: Session, planReview: Option<string>, base: seq<Message>,
                         events: seq<Event>)
    requires s.activeTurn.Some? && s.messages == Rebuilt(base, events)
    ensures var turn := s.activeTurn.value;
            var d, w := LastDecisive(events, turn), LastWriter(events);
            RepairTurn(prompts, s, DurableFinal(events, turn), planReview).thrown <==>
              if d >= 0 && SettledFinal(events[d]) then w > d && !WritesFinal(events[w])
              else if w >= 0 then WritesFinal(events[w]) else EndsWithFinal(base)
  {
    var turn := s.activeTurn.value;
    RepairAcceptedIff(prompts, s, DurableFinal(events, turn), planReview);
    DurableIsTheLast(events, turn);
    RebuiltEnds(base, events);
    hide RepairTurn, DurableFinal, Rebuilt, EndsWithFinal, Final;
  }

  /** A final answer, one more event of the turn, and the process ends: the repair is refused. */
  lemma EventAfterTheAnswerIsRefused(prompts: Prompts, s: Session, turn: string, answer: Message, later: Event)
    requires Final(answer) && s.activeTurn == Some(turn)
    requires later.turn == Some(turn) && later.kind.Other? && later.added == []
    requires s.messages == Rebuilt([], [Event(Some(turn), Answer(true), [answer]), later])
    ensures RepairTurn(prompts, s, DurableFinal([Event(Some(turn), Answer(true), [answer]), later], turn), None).thrown
  {
    var events := [Event(Some(turn), Answer(true), [answer]), later];
    RepairRefusedIff(prompts, s, None, [], events);
    assert Decisive(events[1], turn);
    assert events[0].added != [];
  }

  // ---- Memory and replay ----

  /** The message before the added message `i`. */
  predicate Repeats(messages: seq<Message>, added: seq<Message>, i: nat)
    requires i < |added|
  {
    if i == 0 then |messages| > 0 && messages[|messages| - 1] == added[0] else added[i - 1] == added[i]
  }

  lemma {:induction false} ReplayIsAppendIff(messages: seq<Message>, added: seq<Message>)
    ensures |Replay(messages, added)| <= |messages| + |added|
    ensures Replay(messages, added) == messages + added <==>
              forall i :: 0 <= i < |added| ==> !Repeats(messages, added, i)
    decreases |added|
  {
    if |added| == 0 {
      assert messages + added == messages;
    } else if Repeats(messages, added, 0) {
      ReplayIsAppendIff(messages, added[1..]);
    } else {
      var next := messages + [added[0]];
      ReplayIsAppendIff(next, added[1..]);
      assert next + added[1..] == messages + added;
      forall j: nat | j < |added| - 1 ensures Repeats(messages, added, j + 1) == Repeats(next, added[1..], j) {
        assert j > 0 ==> added[1..][j - 1] == added[j];
      }
      forall i | 0 < i < |added| ensures Repeats(messages, added, i) == Repeats(next, added[1..], i - 1) {
        assert Repeats(messages, added, (i - 1) + 1) == Repeats(next, added[1..], i - 1);
      }
    }
  }

  predicate NoEqualNeighbours(calls: seq<Call>) {
    forall i :: 0 < i < |calls| ==> calls[i - 1] != calls[i]
  }

  /**
   Replaying the recovery event gives the repaired session exactly when no two
   unanswered calls in a row are equal.
   */
  lemma ReplayAgreesIff(prompts: Prompts, s: Session, finalIsDurable: bool, planReview: Option<string>)
    requires !Blank(prompts.interrupted)
    requires RepairTurn(prompts, s, finalIsDurable, planReview).repaired
    ensures var r := RepairTurn(prompts, s, finalIsDurable, planReview).session;
            && |r.journal| == |s.journal| + 1
            && r.messages == s.messages + r.journal[|s.journal|].messages
            && (ReplayRecovery(s, r.journal[|s.journal|]) == r <==> NoEqualNeighbours(Missing(s.messages)))
  {
    RepairAcceptedIff(prompts, s, finalIsDurable, planReview);
    FirstRepairIsNew(prompts, s.messages, finalIsDurable);
    ReplayIsAppendIff(s.messages, Repairs(prompts, s.messages, finalIsDurable));
    NeighboursOfRepairs(prompts, s.messages, finalIsDurable);
    hide Missing, Repairs, Blank, Accepts, Replay, EndsWithFinal, Repeats, NoEqualNeighbours;
  }

  lemma TwoMissing(prompts: Prompts, call: Call)
    ensures var answer := ToolResult(call.id, call.name, INTERRUPTED_RESULT);
            Repairs(prompts, [Assistant("", [call, call])], false) ==
              [answer, answer, Assistant(prompts.interrupted, [])]
  {
    var calls, messages := [call, call], [Assistant("", [call, call])];
    var answer := ToolResult(call.id, call.name, INTERRUPTED_RESULT);
    assert calls[1..] == [call] && [call][1..] == [];
    assert AfterLastCalling(messages) == 1 && messages[1..] == [] && !AnsweredIn([], call.id);
    assert Unanswered([], []) == [] && Unanswered([call], []) == [call] + [];
    assert Unanswered(calls, []) == [call] + [call];
    assert Missing(messages) == calls;
    assert Answers([]) == [] && Answers([call]) == [answer] + [];
    assert Answers(calls) == [answer] + [answer];
  }

  /** Two equal calls without an answer: the repaired session has both answers, its replay has one. */
  lemma EqualCallsLoseAnAnswer(prompts: Prompts, call: Call, turn: string)
    requires !Blank(prompts.interrupted)
    ensures var s := Session([Assistant("", [call, call])], Some(turn), None, []);
            var r := RepairTurn(prompts, s, false, None);
            var answer := ToolResult(call.id, call.name, INTERRUPTED_RESULT);
            && r.repaired && |r.session.journal| == 1
            && r.session.messages == s.messages + [answer, answer, Assistant(prompts.interrupted, [])]
            && ReplayRecovery(s, r.session.journal[0]).messages ==
                 s.messages + [answer, Assistant(prompts.interrupted, [])]
  {
    var calls := [call, call];
    var s := Session([Assistant("", calls)], Some(turn), None, []);
    var answer := ToolResult(call.id, call.name, INTERRUPTED_RESULT);
    var added := [answer, answer, Assistant(prompts.interrupted, [])];
    assert calls[1..] == [call] && calls[1..][1..] == [];
    TwoMissing(prompts, call);
    RepairAcceptedIff(prompts, s, false, None);
    hide Missing, Repairs;
    assert added[1..] == [answer, Assistant(prompts.interrupted, [])] &&
           added[1..][1..] == [Assistant(prompts.interrupted, [])];
    assert added[1..][1..][1..] == [];
    var once := s.messages + [answer];
    assert Replay(once, added[1..]) == Replay(once, added[1..][1..]) == once + [Assistant(prompts.interrupted, [])];
    assert Replay(s.messages, added) == Replay(once, added[1..]);
    assert once + [Assistant(prompts.interrupted, [])] == s.messages + [answer, Assistant(prompts.interrupted, [])];
  }

  lemma NeighboursOfRepairs(prompts: Prompts, messages: seq<Message>, finalIsDurable: bool)
    ensures var added := Repairs(prompts, messages, finalIsDurable);
            (forall i :: 0 < i < |added| ==> !Repeats(messages, added, i)) <==> NoEqualNeighbours(Missing(messages))
  {
    var missing := Missing(messages);
    var added := Repairs(prompts, messages, finalIsDurable);
    AnswersCover(missing);
    hide Missing, Answers;
    assert forall i :: 0 <= i < |missing| ==> added[i] == Answers(missing)[i];
    forall i | 0 < i < |added| ensures Repeats(messages, added, i) <==> i < |missing| && missing[i - 1] == missing[i] {
      assert added[i - 1] == Answers(missing)[i - 1];
    }
    assert forall i :: 0 < i < |missing| ==> (missing[i - 1] == missing[i] <==> Repeats(messages, added, i));
  }

  /** The first repair is not the message before it. */
  lemma FirstRepairIsNew(prompts: Prompts, messages: seq<Message>, finalIsDurable: bool)
    requires !Blank(prompts.interrupted) && finalIsDurable == EndsWithFinal(messages)
    ensures var added := Repairs(prompts, messages, finalIsDurable); |added| > 0 ==> !Repeats(messages, added, 0)
  {
    var missing := Missing(messages);
    AnswersCover(missing);
    if |missing| > 0 && |messages| > 0 {
      var n := AfterLastCalling(messages);
      UnansweredExactly(messages[n - 1].calls, messages[n..]);
      assert missing[0] in missing;
      var last := messages[|messages| - 1];
      assert n < |messages| ==> messages[n..][|messages| - 1 - n] == last;
    }
  }

  /** Search the journal, newest event first. */
  method HasDurableFinalAssistant(events: seq<Event>, turn: string) returns (durable: bool)
    ensures durable == DurableFinal(events, turn)
  {
    var index := |events|;
    assert events[..index] == events;
    while index > 0
      invariant 0 <= index <= |events|
      invariant DurableFinal(events, turn) == DurableFinal(events[..index], turn)
    {
      index := index - 1;
      var event := events[index];
      assert events[..index + 1][..index] == events[..index];
      if event.turn == Some(turn) && !event.kind.PassedOver? {
        return event.kind.Answer? && event.kind.settled && |event.added| == 1 && Final(event.added[0]);
      }
    }
    return false;
  }

  /** The repair as written: from the newest message back to the last one with calls. */
  method RepairInterruptedTurn(prompts: Prompts, s: Session, events: seq<Event>, planReview: Option<string>)
    returns (r: Repair)
    ensures r == RepairTurn(prompts, s, s.activeTurn.Some? && DurableFinal(events, s.activeTurn.value), planReview)
    ensures s.activeTurn.Some? ==> (r.thrown <==> DurableFinal(events, s.activeTurn.value) != EndsWithFinal(s.messages))
  {
    if s.activeTurn.None? {
      return Repair(s, false, false);
    }
    var finalIsDurable := HasDurableFinalAssistant(events, s.activeTurn.value);
    hide DurableFinal;
    RepairAcceptedIff(prompts, s, finalIsDurable, planReview);
    var repaired := [];
    var index := |s.messages|;
    assert s.messages[..index] == s.messages;
    while index > 0 && !Calling(s.messages[index - 1])
      invariant 0 <= index <= |s.messages|
      invariant AfterLastCalling(s.messages) == AfterLastCalling(s.messages[..index])
    {
      assert s.messages[..index][..index - 1] == s.messages[..index - 1];
      index := index - 1;
    }
    assert AfterLastCalling(s.messages) == index;
    if index > 0 {
      repaired := AnswerCalls(s.messages[index - 1].calls, s.messages[index..]);
    }
    assert repaired == Answers(Missing(s.messages));
    if !finalIsDurable {
      repaired := repaired + [Assistant(prompts.interrupted, [])];
    }
    hide Repairs, Missing;
    assert repaired == Repairs(prompts, s.messages, finalIsDurable);
    var e := Recovered(s.activeTurn.value, repaired, planReview);
    if !Accepts(prompts, s, e) {
      return Repair(s, false, true);
    }
    return Repair(s.(messages := s.messages + repaired, activeTurn := None, journal := s.journal + [e],
                     planReview := if planReview.Some? then planReview else s.planReview), true, false);
  }

  method AnswerCalls(calls: seq<Call>, after: seq<Message>) returns (answers: seq<Message>)
    ensures answers == Answers(Unanswered(calls, after))
  {
    hide AnsweredIn;
    answers := [];
    var rest := calls;
    while |rest| > 0
      invariant answers + Answers(Unanswered(rest, after)) == Answers(Unanswered(calls, after))
      decreases |rest|
    {
      ghost var left := Unanswered(rest, after);
      if !AnsweredIn(after, rest[0].id) {
        assert left[1..] == Unanswered(rest[1..], after);
        ConcatThree(answers, [ToolResult(rest[0].id, rest[0].name, INTERRUPTED_RESULT)], Answers(left[1..]));
        answers := answers + [ToolResult(rest[0].id, rest[0].name, INTERRUPTED_RESULT)];
      }
      rest := rest[1..];
    }
  }
}
