/**
 How the renderer of streamed answers uses the transcript (src/cli/model-stream-renderer.ts): an
 entry is committed once, before anything else is done to it, streams are flushed in the order in
 which they started, and events of a stream that starts too early count for nothing.
 */
module StreamEntries {
  import opened Common
  import opened StreamRenderer
  import opened StreamAnswers

  /** A text is marked as a continuation exactly when settled parts of its answer come before it. */
  predicate Marked(w: Write) {
    w.Settle? || w.continuation == (w.entry.Answer? && w.entry.part > 0)
  }

  /** The first write to an entry commits it, and no other does; continuations are marked. */
  ghost predicate CommittedOnce(log: seq<Write>) {
    forall i :: 0 <= i < |log| ==> (log[i].Commit? <==> !Written(log[..i], log[i].entry)) && Marked(log[i])
  }

  ghost predicate Written(log: seq<Write>, entry: EntryId) {
    exists w :: w in log && w.entry == entry
  }

  lemma WrittenAfter(log: seq<Write>, w: Write, entry: EntryId)
    ensures Written(log + [w], entry) <==> Written(log, entry) || w.entry == entry
  {
    if Written(log, entry) {
      var x :| x in log && x.entry == entry;
      assert x in log + [w];
    }
    if w.entry == entry { assert w in log + [w]; }
  }

  lemma OnceAfter(log: seq<Write>, w: Write)
    requires CommittedOnce(log) && (w.Commit? <==> !Written(log, w.entry)) && Marked(w)
    ensures CommittedOnce(log + [w])
  {
    var next := log + [w];
    forall i | 0 <= i < |next|
      ensures (next[i].Commit? <==> !Written(next[..i], next[i].entry)) && Marked(next[i])
    {
      assert next[..i] == if i < |log| then log[..i] else log;
    }
  }

  /** Of the answer's entries those that are settled and the open one are written, and nothing else of the stream. */
  ghost predicate EntriesOf(log: seq<Write>, id: StreamId, s: Stream) {
    && (forall k: nat :: k >= s.parts ==> (Written(log, Answer(id, k)) <==> k == s.parts && s.entry.Some?))
    && !Written(log, Notice(id))
    && (s.entry.Some? ==> s.entry.value == Answer(id, s.parts))
  }

  lemma WriteIsOnce(log: seq<Write>, id: StreamId, s: Stream, text: string)
    requires CommittedOnce(log) && EntriesOf(log, id, s)
    ensures var e := WriteAnswer(s, id, text);
            && |e.writes| == 1 && e.writes[0].entry == Answer(id, s.parts)
            && e.stream == s.(entry := Some(Answer(id, s.parts)))
            && CommittedOnce(log + e.writes) && EntriesOf(log + e.writes, id, e.stream)
  {
    var e := WriteAnswer(s, id, text);
    OnceAfter(log, e.writes[0]);
    forall entry: EntryId { WrittenAfter(log, e.writes[0], entry); }
  }

  lemma SettleIsOnce(host: Host, log: seq<Write>, id: StreamId, s: Stream, length: nat)
    requires CommittedOnce(log) && EntriesOf(log, id, s)
    ensures var e := SettleBlock(host, s, id, length);
            CommittedOnce(log + e.writes) && EntriesOf(log + e.writes, id, e.stream)
  {
    hide BlockText, Tail, Prefix, Written, CommittedOnce, WriteAnswer;
    var text := BlockText(host, Prefix(Tail(s), length));
    WriteIsOnce(log, id, s, text);
    var w := WriteAnswer(s, id, text);
    var e, settle := SettleBlock(host, s, id, length), Settle(Answer(id, s.parts));
    assert log + e.writes == log + w.writes + [settle];
    OnceAfter(log + w.writes, settle);
    forall entry: EntryId { WrittenAfter(log + w.writes, settle, entry); }
  }

  lemma TailIsOnce(host: Host, log: seq<Write>, id: StreamId, s: Stream, final: bool)
    requires CommittedOnce(log) && EntriesOf(log, id, s)
    ensures var e := ShowTail(host, s, id, final);
            CommittedOnce(log + e.writes) && EntriesOf(log + e.writes, id, e.stream)
  {
    hide LiveText, Tail, CommittedOnce;
    var safe := LiveText(host, Tail(s), final);
    if safe == "" || s.rendered == Some(safe) {
      assert log + [] == log;
    } else {
      WriteIsOnce(log, id, s.(rendered := Some(safe)), "\n" + host.format(safe));
    }
  }

  lemma FlushIsOnce(host: Host, log: seq<Write>, id: StreamId, s: Stream, final: bool)
    requires CommittedOnce(log) && EntriesOf(log, id, s)
    ensures var e := FlushStream(host, s, id, final);
            CommittedOnce(log + e.writes) && EntriesOf(log + e.writes, id, e.stream)
  {
    hide CommittedOnce, Written, SettleBlock, ShowTail, SettlesNow, Tail;
    assert log + [] == log;
    var grown := s.(pending := [], answerText := s.answerText + Flatten(s.pending));
    assert EntriesOf(log, id, grown) && EntriesOf(log, id, s.(pending := []));
    var length := SettlesNow(host, grown, final);
    if length > 0 {
      SettleIsOnce(host, log, id, grown, length);
      var settled := SettleBlock(host, grown, id, length);
      TailIsOnce(host, log + settled.writes, id, settled.stream, final);
      assert log + (settled.writes + ShowTail(host, settled.stream, id, final).writes)
          == log + settled.writes + ShowTail(host, settled.stream, id, final).writes;
    } else {
      TailIsOnce(host, log, id, grown, final);
    }
  }

  lemma {:induction false} OthersWritten(log: seq<Write>, writes: seq<Write>, id: StreamId, other: StreamId, s: Stream)
    requires OwnWrites(writes, id) && other != id && EntriesOf(log, other, s)
    ensures EntriesOf(log + writes, other, s)
    decreases |writes|
  {
    forall entry: EntryId | entry.stream == other ensures Written(log + writes, entry) <==> Written(log, entry) {
      if Written(log, entry) {
        var x :| x in log && x.entry == entry;
        assert x in log + writes;
      }
    }
  }

  // ---- The renderer ----

  ghost predicate EntriesOk(r: Renderer) {
    CommittedOnce(r.log) && forall id :: id in r.streams ==> EntriesOf(r.log, id, r.streams[id])
  }

  lemma SetIsOnce(r: Renderer, id: StreamId, e: Effect)
    requires EntriesOk(r) && id in r.streams && OwnWrites(e.writes, id)
    requires CommittedOnce(r.log + e.writes) && EntriesOf(r.log + e.writes, id, e.stream)
    ensures EntriesOk(SetStream(r, id, e))
  {
    hide CommittedOnce, EntriesOf, OwnWrites;
    forall other | other in r.streams && other != id ensures EntriesOf(r.log + e.writes, other, r.streams[other]) {
      OthersWritten(r.log, e.writes, id, other, r.streams[other]);
    }
  }

  lemma {:induction false} FlushAllIsOnce(host: Host, r: Renderer, ids: seq<StreamId>, final: Option<StreamId>,
      heard: Heard)
    requires HostOk(host) && RendererOk(host, r, heard) && EntriesOk(r)
    ensures EntriesOk(FlushAll(host, r, ids, final))
    decreases |ids|
  {
    hide HostOk, RendererOk, EntriesOk, FlushStream;
    if |ids| > 0 {
      if ids[0] in r.streams {
        var last := final == Some(ids[0]);
        var e := FlushStream(host, r.streams[ids[0]], ids[0], last);
        FlushOneOk(host, r, ids[0], last, heard);
        OneIsOnce(host, r, ids[0], last, heard);
        FlushAllIsOnce(host, SetStream(r, ids[0], e), ids[1..], final, heard);
      } else {
        FlushAllIsOnce(host, r, ids[1..], final, heard);
      }
    }
  }

  lemma OneIsOnce(host: Host, r: Renderer, id: StreamId, final: bool, heard: Heard)
    requires HostOk(host) && RendererOk(host, r, heard) && EntriesOk(r) && id in r.streams
    ensures EntriesOk(SetStream(r, id, FlushStream(host, r.streams[id], id, final)))
  {
    hide HostOk, FlushStream, CommittedOnce, EntriesOf, SetStream, StreamOk, Permanent, TailShown;
    FlushStreamOk(host, r.log, id, r.streams[id], final, heard(id).text);
    FlushIsOnce(host, r.log, id, r.streams[id], final);
    SetIsOnce(r, id, FlushStream(host, r.streams[id], id, final));
  }

  /** A stream moves on without a write, or leaves with at most one. */
  lemma SameEntries(log: seq<Write>, id: StreamId, s: Stream, t: Stream)
    requires EntriesOf(log, id, s) && t.parts == s.parts && t.entry == s.entry
    ensures EntriesOf(log, id, t)
  {}

  lemma LeavesOnce(r: Renderer, id: StreamId, w: Write)
    requires EntriesOk(r) && id in r.streams && w.entry.stream == id && !w.Settle?
    requires (w.Commit? <==> !Written(r.log, w.entry)) && Marked(w)
    ensures EntriesOk(RemoveStream(r, id).(log := r.log + [w]))
  {
    hide CommittedOnce, EntriesOf;
    OnceAfter(r.log, w);
    forall other | other in r.streams && other != id ensures EntriesOf(r.log + [w], other, r.streams[other]) {
      OthersWritten(r.log, [w], id, other, r.streams[other]);
    }
  }

  lemma InterruptIsOnce(host: Host, r: Renderer, id: StreamId)
    requires EntriesOk(r) && id in r.streams
    ensures EntriesOk(Interrupt(host, r, id))
  {
    var s := r.streams[id];
    var w := InterruptionWrite(host, s, id);
    assert EntriesOf(r.log, id, s);
    LeavesOnce(r, id, w);
    hide CommittedOnce, EntriesOf;
  }

  lemma FinalizeIsOnce(host: Host, r: Renderer, text: string)
    requires EntriesOk(r) && CandidateOk(r)
    ensures EntriesOk(Finalize(host, r, text))
  {
    if r.candidate.Some? {
      var c := r.candidate.value;
      assert EntriesOf(r.log, c.stream, r.streams[c.stream]);
      hide CommittedOnce, EntriesOf;
      if c.settledPrefix <= text {
        LeavesOnce(r, c.stream, Replace(c.entry,
                     "\n" + host.format(host.trim(host.safe(text[|c.settledPrefix|..]))) + "\n\n", c.continuation));
      }
    }
  }

  lemma StartIsOnce(host: Host, r: Renderer, id: StreamId, sequence: int, heard: Heard)
    requires EntriesOk(r) && LogOk(r.log, heard) && !heard(id).started
    ensures EntriesOk(Start(r, id, sequence))
  {
    hide CommittedOnce, Permanent, Unfinished;
    forall entry: EntryId | entry.stream == id ensures !Written(r.log, entry) {}
    assert EntriesOf(r.log, id, NEW_STREAM.(sequence := sequence));
    hide EntriesOf, Written;
  }

  lemma FlushedIsOnce(host: Host, r: Renderer, final: Option<StreamId>, heard: Heard)
    requires HostOk(host) && RendererOk(host, r, heard) && EntriesOk(r)
    ensures var after := Flushed(host, r, final);
            EntriesOk(after) && RendererOk(host, after, heard) && after.streams.Keys == r.streams.Keys
  {
    FlushAllIsOnce(host, r, r.order, final, heard);
    FlushKeeps(host, r, final, heard);
    hide EntriesOk, RendererOk, FlushAll;
  }

  lemma ChangeIsOnce(r: Renderer, id: StreamId, t: Stream)
    requires EntriesOk(r) && id in r.streams && t.parts == r.streams[id].parts && t.entry == r.streams[id].entry
    ensures EntriesOk(r.(streams := r.streams[id := t]))
  {
    SameEntries(r.log, id, r.streams[id], t);
    hide EntriesOf, CommittedOnce;
  }

  lemma CandidateDoesNotMatter(r: Renderer, other: Renderer)
    requires EntriesOk(r) && other.streams == r.streams && other.log == r.log
    ensures EntriesOk(other)
  {}

  lemma DeltaIsOnce(host: Host, r: Renderer, id: StreamId, sequence: int, delta: Delta, heard: Heard)
    requires HostOk(host) && RendererOk(host, r, heard) && EntriesOk(r) && id in r.streams
    ensures EntriesOk(AfterDelta(host, r, id, sequence, delta))
  {
    hide HostOk, RendererOk, EntriesOk, Flushed, Interrupt, Complete;
    var s := r.streams[id];
    match delta
    case Phase =>
    case Text(text) => ChangeIsOnce(r, id, s.(pending := s.pending + [text]));
    case ToolCall => ChangeIsOnce(r, id, s.(toolCallSeen := true));
    case Usage => FlushedIsOnce(host, r, None, heard);
    case Completed(stopped) =>
      FlushedIsOnce(host, r, Some(id), heard);
      CompleteIsOnce(Flushed(host, r, Some(id)), id, stopped);
    case Interrupted =>
      FlushedIsOnce(host, r, None, heard);
      InterruptIsOnce(host, Flushed(host, r, None), id);
  }

  lemma CompleteIsOnce(r: Renderer, id: StreamId, stopped: bool)
    requires EntriesOk(r) && id in r.streams
    ensures EntriesOk(Complete(r, id, stopped))
  {
    var done := r.(streams := r.streams[id := r.streams[id].(completed := true)]);
    ChangeIsOnce(r, id, r.streams[id].(completed := true));
    CandidateDoesNotMatter(done, Complete(r, id, stopped));
    hide EntriesOk;
  }

  lemma EventIsOnce(host: Host, r: Renderer, e: Event, heard: Heard)
    requires HostOk(host) && RendererOk(host, r, heard) && EntriesOk(r)
    requires e.Started? ==> !heard(e.stream).started
    ensures EntriesOk(AfterEvent(host, r, e))
  {
    hide HostOk, EntriesOk, Flushed, Start, Finalize, AfterDelta, StreamsOk, Ordered;
    match e
    case Started(id, sequence) =>
      FlushedIsOnce(host, r, None, heard);
      StartIsOnce(host, Flushed(host, r, None), id, sequence, heard);
    case FlushTimer => FlushedIsOnce(host, r, None, heard);
    case Assembled(text) => FinalizeIsOnce(host, r, text);
    case Streamed(id, sequence, delta) =>
      if Accepts(r, id, sequence) {
        HeardLive(host, r, id, heard);
        var seen: Heard := j => if j == id then heard(j).(sequence := sequence) else heard(j);
        SequencedOk(host, r, id, sequence, heard, seen);
        ChangeIsOnce(r, id, r.streams[id].(sequence := sequence));
        DeltaIsOnce(host, Sequenced(r, id, sequence), id, sequence, delta, seen);
      }
  }

  lemma {:induction false} RunIsOnce(host: Host, events: seq<Event>)
    requires HostOk(host) && ProviderRun(events)
    ensures EntriesOk(Run(host, events))
    decreases |events|
  {
    hide EntriesOk, RendererOk, AfterEvent;
    if |events| > 0 {
      var before := events[..|events| - 1];
      RunIsOnce(host, before);
      RunOk(host, before);
      EventIsOnce(host, Run(host, before), events[|events| - 1], k => Read(before, k));
    } else {
      assert EntriesOk(Run(host, [])) by { NothingWritten(host); }
    }
  }

  lemma NothingWritten(host: Host)
    ensures EntriesOk(Run(host, []))
  {}

  lemma CommittedFirst(log: seq<Write>, i: nat)
    requires CommittedOnce(log) && i < |log|
    ensures log[i].Commit? <==> forall j :: 0 <= j < i ==> log[j].entry != log[i].entry
    ensures Marked(log[i])
  {
    assert log[i].Commit? <==> !Written(log[..i], log[i].entry);
    assert forall j :: 0 <= j < i ==> log[..i][j] == log[j] && log[j] in log[..i];
  }

  /**
   In every run each entry is committed before anything else is done to it, and once only; its text is marked as a
   continuation exactly when settled parts of its answer come before it.
   */
  lemma EntriesAreCommittedOnce(host: Host, events: seq<Event>, i: nat)
    requires HostOk(host) && ProviderRun(events) && i < |Run(host, events).log|
    ensures var log := Run(host, events).log;
            && (log[i].Commit? <==> forall j :: 0 <= j < i ==> log[j].entry != log[i].entry)
            && (log[i].Settle? || (log[i].continuation <==> log[i].entry.Answer? && log[i].entry.part > 0))
  {
    RunIsOnce(host, events);
    hide Run, ProviderRun, CommittedOnce, EntriesOf, HostOk;
    CommittedFirst(Run(host, events).log, i);
  }

  // ---- Order, and events that come too early ----

  ghost predicate NoDuplicates(ids: seq<StreamId>) {
    forall i, j :: 0 <= i < j < |ids| ==> ids[i] != ids[j]
  }

  lemma {:induction false} UnfinishedDistinct(ids: seq<StreamId>, streams: map<StreamId, Stream>)
    requires NoDuplicates(ids)
    ensures NoDuplicates(Unfinished(ids, streams))
    decreases |ids|
  {
    if |ids| > 0 {
      assert forall i :: 0 <= i < |ids[1..]| ==> ids[1..][i] == ids[i + 1];
      UnfinishedDistinct(ids[1..], streams);
    }
  }

  lemma {:induction false} WithoutDistinct(ids: seq<StreamId>, id: StreamId)
    requires NoDuplicates(ids)
    ensures NoDuplicates(Without(ids, id))
    decreases |ids|
  {
    if |ids| > 0 {
      assert forall i :: 0 <= i < |ids[1..]| ==> ids[1..][i] == ids[i + 1];
      WithoutDistinct(ids[1..], id);
      assert ids[0] !in Without(ids[1..], id);
    }
  }

  lemma {:induction false} FlushKeepsOrder(host: Host, r: Renderer, ids: seq<StreamId>, final: Option<StreamId>)
    ensures FlushAll(host, r, ids, final).order == r.order
    decreases |ids|
  {
    hide FlushStream;
    if |ids| > 0 {
      FlushKeepsOrder(host, if ids[0] in r.streams then
                        SetStream(r, ids[0], FlushStream(host, r.streams[ids[0]], ids[0], final == Some(ids[0])))
                      else r, ids[1..], final);
    }
  }

  lemma OrderAfter(host: Host, r: Renderer, e: Event)
    requires NoDuplicates(r.order) && (forall id :: id in r.order <==> id in r.streams)
    ensures NoDuplicates(AfterEvent(host, r, e).order)
  {
    hide FlushStream, FlushAll, Unfinished, Without, InterruptionWrite;
    FlushKeepsOrder(host, r, r.order, None);
    FlushKeys(host, r, r.order, None);
    UnfinishedDistinct(r.order, Flushed(host, r, None).streams);
    if r.candidate.Some? {
      WithoutDistinct(r.order, r.candidate.value.stream);
    }
    if e.Streamed? {
      WithoutDistinct(r.order, e.stream);
      if e.stream in r.streams {
        FlushKeepsOrder(host, Sequenced(r, e.stream, e.sequence), r.order, None);
        FlushKeepsOrder(host, Sequenced(r, e.stream, e.sequence), r.order, Some(e.stream));
      }
    }
  }

  /** In every run each stream that is held is flushed once, in one place of the order. */
  lemma {:induction false} OrderIsDistinct(host: Host, events: seq<Event>)
    requires HostOk(host) && ProviderRun(events)
    ensures var r := Run(host, events);
            NoDuplicates(r.order) && forall id :: id in r.order <==> id in r.streams
    decreases |events|
  {
    RunOk(host, events);
    if |events| > 0 {
      OrderIsDistinct(host, events[..|events| - 1]);
      OrderAfter(host, Run(host, events[..|events| - 1]), events[|events| - 1]);
    }
  }

  /** An event with a sequence up to 1 neither marks a tool call nor ends its stream, and makes no candidate. */
  lemma EarlyEventsCountForNothing(host: Host, r: Renderer, id: StreamId, sequence: int, delta: Delta)
    requires Accepts(r, id, sequence) && sequence <= 1
    requires delta.ToolCall? || delta.Completed? || delta.Interrupted?
    ensures var after := AfterEvent(host, r, Streamed(id, sequence, delta));
            && id in after.streams && after.candidate == r.candidate && !after.streams[id].completed
            && (delta.ToolCall? ==> after.streams[id].toolCallSeen == r.streams[id].toolCallSeen && after.log == r.log)
  {
    FlushKeys(host, Sequenced(r, id, sequence), r.order, None);
    FlushKeys(host, Sequenced(r, id, sequence), r.order, Some(id));
    hide FlushAll;
  }
}
