/**
 What the renderer of streamed answers does at the events that matter, read off the events
 heard so far (src/cli/model-stream-renderer.ts): which completion leaves a candidate, what
 an interruption writes, and what a flush shows of an answer that still grows.
 */
module StreamAnswers {
  import opened Common
  import opened StreamRenderer

  // ---- What was heard ----

  /** The event belongs to a stream that has started and not ended, and comes after all it said so far. */
  predicate IsHeard(before: seq<Event>, e: Event)
    requires e.Streamed?
  {
    var r := Read(before, e.stream);
    r.started && !r.ended && e.sequence > r.sequence
  }

  /** A tool call of the stream was heard since its start. */
  function CallHeard(events: seq<Event>, id: StreamId): bool {
    if |events| == 0 then false
    else
      var before, e := events[..|events| - 1], events[|events| - 1];
      if e.Started? && e.stream == id then false
      else if e.Streamed? && e.stream == id && e.delta.ToolCall? && IsHeard(before, e) then true
      else CallHeard(before, id)
  }

  lemma OneMore(events: seq<Event>, e: Event)
    ensures var all := events + [e]; all[..|all| - 1] == events && all[|all| - 1] == e
  {}

  /** A flush changes no stream's standing, and a flushed live stream has nothing buffered. */
  lemma FlushKeeps(host: Host, r: Renderer, final: Option<StreamId>, heard: Heard)
    requires HostOk(host) && RendererOk(host, r, heard)
    ensures var after := Flushed(host, r, final);
            && RendererOk(host, after, heard) && after.streams.Keys == r.streams.Keys && after.candidate == r.candidate
            && forall id :: id in r.streams ==>
                 && after.streams[id].toolCallSeen == r.streams[id].toolCallSeen
                 && after.streams[id].completed == r.streams[id].completed
                 && after.streams[id].sequence == r.streams[id].sequence
                 && (final == Some(id) && !r.streams[id].completed ==> TailShown(host, after.streams[id]))
  {
    FlushAllOk(host, r, r.order, final, heard);
    hide FlushAll, TailShown, LogOk, StreamsOk;
  }

  lemma FlagAfterDelta(host: Host, r: Renderer, e: Event, k: StreamId, heard: Heard)
    requires HostOk(host) && RendererOk(host, r, heard) && k in AfterEvent(host, r, e).streams
    requires e.Streamed? && Accepts(r, e.stream, e.sequence)
    ensures k in r.streams
    ensures AfterEvent(host, r, e).streams[k].toolCallSeen ==
            (r.streams[k].toolCallSeen || (e.stream == k && e.delta.ToolCall?))
  {
    hide HostOk, RendererOk, Flushed, InterruptionWrite, SettledText, Without, TailShown;
    HeardLive(host, r, e.stream, heard);
    var seen: Heard := j => if j == e.stream then heard(j).(sequence := e.sequence) else heard(j);
    SequencedOk(host, r, e.stream, e.sequence, heard, seen);
    var now := Sequenced(r, e.stream, e.sequence);
    FlushKeeps(host, now, None, seen);
    FlushKeeps(host, now, Some(e.stream), seen);
  }

  lemma FlagAfter(host: Host, r: Renderer, e: Event, k: StreamId, heard: Heard)
    requires HostOk(host) && RendererOk(host, r, heard) && k in AfterEvent(host, r, e).streams
    ensures var flag := AfterEvent(host, r, e).streams[k].toolCallSeen;
            if e.Started? && e.stream == k then !flag
            else
              && k in r.streams
              && flag == (r.streams[k].toolCallSeen
                          || (e.Streamed? && e.stream == k && e.delta.ToolCall? && Accepts(r, k, e.sequence)))
  {
    hide HostOk, RendererOk, Flushed, AfterDelta, Unfinished, Without, TailShown;
    FlushKeeps(host, r, None, heard);
    if e.Streamed? && Accepts(r, e.stream, e.sequence) {
      FlagAfterDelta(host, r, e, k, heard);
    }
  }

  /** The renderer accepts exactly the events that are heard. */
  lemma AcceptsIff(host: Host, events: seq<Event>, id: StreamId, sequence: int, delta: Delta)
    requires HostOk(host) && ProviderRun(events)
    ensures Accepts(Run(host, events), id, sequence) <==> IsHeard(events, Streamed(id, sequence, delta))
  {
    RunOk(host, events);
    hide HostOk, Run, Read, ProviderRun;
    var r, heard: Heard := Run(host, events), k => Read(events, k);
    if id in r.streams {
      assert heard(id) == Read(events, id);
      HeardLive(host, r, id, heard);
    } else {
      assert !heard(id).started || heard(id).ended;
    }
  }

  /** In every run the renderer remembers the tool calls that were heard. */
  lemma {:induction false} FlagsAreHeard(host: Host, events: seq<Event>, k: StreamId)
    requires HostOk(host) && ProviderRun(events) && k in Run(host, events).streams
    ensures Run(host, events).streams[k].toolCallSeen == CallHeard(events, k)
    decreases |events|
  {
    if |events| > 0 {
      var before, e := events[..|events| - 1], events[|events| - 1];
      RunOk(host, before);
      FlagAfter(host, Run(host, before), e, k, j => Read(before, j));
      if !(e.Started? && e.stream == k) {
        FlagsAreHeard(host, before, k);
        if e.Streamed? {
          AcceptsIff(host, before, e.stream, e.sequence, e.delta);
        }
      }
    }
  }

  // ---- Completion ----

  lemma RunOneMore(host: Host, events: seq<Event>, e: Event)
    ensures Run(host, events + [e]) == AfterEvent(host, Run(host, events), e)
    ensures !e.Started? ==> (ProviderRun(events + [e]) <==> ProviderRun(events))
    ensures forall id :: Read(events + [e], id) == ReadEvent(Read(events, id), e, id)
  {
    OneMore(events, e);
    hide AfterEvent, ReadEvent;
  }

  /** The completion of a live stream, in the renderer's terms. */
  lemma CompletionIs(host: Host, r: Renderer, id: StreamId, sequence: int, stopped: bool, heard: Heard)
    requires HostOk(host) && RendererOk(host, r, heard) && Accepts(r, id, sequence)
    ensures var after := AfterEvent(host, r, Streamed(id, sequence, Completed(stopped)));
            && id in after.streams && TailShown(host, after.streams[id])
            && var s := after.streams[id];
               after.candidate ==
                 (if stopped && !r.streams[id].toolCallSeen && s.entry.Some?
                  then Some(Candidate(id, s.entry.value, SettledText(s), s.parts > 0)) else r.candidate)
  {
    hide HostOk, RendererOk, Flushed, InterruptionWrite, SettledText, TailShown;
    HeardLive(host, r, id, heard);
    var seen: Heard := j => if j == id then heard(j).(sequence := sequence) else heard(j);
    SequencedOk(host, r, id, sequence, heard, seen);
    FlushKeeps(host, Sequenced(r, id, sequence), Some(id), seen);
    TailSame(host, Flushed(host, Sequenced(r, id, sequence), Some(id)).streams[id]);
  }

  lemma TailSame(host: Host, s: Stream)
    requires TailShown(host, s)
    ensures TailShown(host, s.(completed := true)) && SettledText(s.(completed := true)) == SettledText(s)
  {}

  /**
   The completion of a live stream leaves its open entry as the candidate if and only if the response stopped, no
   tool call was heard and an entry is open; an entry is open whenever there is text to show behind the settled part.
   */
  lemma CompletionLeavesCandidateIff(host: Host, events: seq<Event>, id: StreamId, sequence: int, stopped: bool)
    requires HostOk(host) && ProviderRun(events) && IsHeard(events, Streamed(id, sequence, Completed(stopped)))
    ensures var r := Run(host, events + [Streamed(id, sequence, Completed(stopped))]);
            && id in r.streams
            && var s := r.streams[id];
               && (stopped && !CallHeard(events, id) && s.entry.Some? ==>
                     r.candidate == Some(Candidate(id, Answer(id, s.parts), Flatten(s.slices), s.parts > 0)))
               && (!stopped || CallHeard(events, id) || s.entry.None? ==> r.candidate == Run(host, events).candidate)
               && Flatten(s.slices) + Tail(s) == Read(events, id).text
               && (Read(events, id).text != "" && host.safe(Tail(s)) != "" ==> s.entry.Some?)
  {
    var e := Streamed(id, sequence, Completed(stopped));
    hide HostOk, RendererOk, AfterEvent, Run, ProviderRun, TailShown;
    RunOneMore(host, events, e);
    RunOk(host, events);
    AcceptsIff(host, events, id, sequence, e.delta);
    FlagsAreHeard(host, events, id);
    CompletionIs(host, Run(host, events), id, sequence, stopped, k => Read(events, k));
    RunOk(host, events + [e]);
    CompletedAnswerIsShown(host, events + [e], id);
    var heard: Heard := k => Read(events + [e], k);
    assert heard(id) == Read(events + [e], id);
    CompletedEntry(host, Run(host, events + [e]), id, heard);
  }

  lemma CompletedEntry(host: Host, r: Renderer, id: StreamId, heard: Heard)
    requires RendererOk(host, r, heard) && id in r.streams && heard(id).ended
    ensures var s := r.streams[id];
            && (s.entry.Some? ==> s.entry.value == Answer(id, s.parts)) && SettledText(s) == Flatten(s.slices)
            && (heard(id).text != "" && host.safe(Tail(s)) != "" ==> s.entry.Some?)
  {
    hide LogOk, Visible, CandidateOk;
    assert Faithful(host, r.log, id, r.streams[id], heard(id));
    assert Flatten<char>([]) == "" && r.streams[id].answerText + "" == r.streams[id].answerText;
  }

  /** A candidate is dropped when a stream starts or an answer is assembled; deltas, usage and the timer leave it. */
  lemma CandidateStaysIff(host: Host, r: Renderer, e: Event, heard: Heard)
    requires HostOk(host) && RendererOk(host, r, heard)
    requires e.Streamed? ==> !e.delta.Completed? && !e.delta.Interrupted?
    ensures AfterEvent(host, r, e).candidate == (if e.Started? || e.Assembled? then None else r.candidate)
  {
    hide HostOk, RendererOk, Flushed, Unfinished, Without, TailShown;
    FlushKeeps(host, r, None, heard);
    if e.Streamed? && Accepts(r, e.stream, e.sequence) {
      HeardLive(host, r, e.stream, heard);
      var seen: Heard := j => if j == e.stream then heard(j).(sequence := e.sequence) else heard(j);
      SequencedOk(host, r, e.stream, e.sequence, heard, seen);
      FlushKeeps(host, Sequenced(r, e.stream, e.sequence), None, seen);
    }
  }

  // ---- Interruption ----

  function Message(events: seq<Event>, id: StreamId): string {
    if CallHeard(events, id) then
      "[Interrupted model response; streamed tool arguments were incomplete and were not executed.]"
    else "[Interrupted model response; not a completed answer.]"
  }

  /** The interruption of a live stream, in the renderer's terms: `s` is the stream once its buffer is shown. */
  lemma InterruptionIs(host: Host, r: Renderer, id: StreamId, sequence: int, heard: Heard) returns (log: seq<Write>,
        s: Stream)
    requires HostOk(host) && RendererOk(host, r, heard) && Accepts(r, id, sequence)
    ensures s.toolCallSeen == r.streams[id].toolCallSeen && ShownRight(host, log, id, s)
    ensures var after := AfterEvent(host, r, Streamed(id, sequence, Interrupted));
            && after.streams.Keys == r.streams.Keys - {id} && after.log == log + [InterruptionWrite(host, s, id)]
            && after.candidate == (if r.candidate.Some? && r.candidate.value.stream == id then None else r.candidate)
  {
    hide HostOk, Flushed, InterruptionWrite, TailShown, ShownRight, LogOk, CandidateOk, TextKept;
    HeardLive(host, r, id, heard);
    var seen: Heard := j => if j == id then heard(j).(sequence := sequence) else heard(j);
    SequencedOk(host, r, id, sequence, heard, seen);
    var now := Sequenced(r, id, sequence);
    FlushKeeps(host, now, None, seen);
    var flushed := Flushed(host, now, None);
    log, s := flushed.log, flushed.streams[id];
    assert Faithful(host, log, id, s, seen(id));
  }

  /**
   The interruption of a live stream writes one line more: it ends the open entry with the message, behind the text
   the entry showed, or stands alone when there is none. The stream and a candidate of it are gone.
   */
  lemma InterruptionIsTold(host: Host, events: seq<Event>, id: StreamId, sequence: int)
    returns (log: seq<Write>, s: Stream)
    requires HostOk(host) && ProviderRun(events) && IsHeard(events, Streamed(id, sequence, Interrupted))
    ensures var after := Run(host, events + [Streamed(id, sequence, Interrupted)]);
            && after.streams.Keys == Run(host, events).streams.Keys - {id}
            && (after.candidate.Some? ==>
                  after.candidate == Run(host, events).candidate && after.candidate.value.stream != id)
            && after.log == log +
               [if s.entry.Some? && s.rendered.Some? then
                  Replace(Answer(id, s.parts), "\n" + host.format(s.rendered.value + "\n" + Message(events, id)) + "\n",
                          s.parts > 0)
                else Commit(Notice(id), Message(events, id) + "\n", false)]
    ensures s.entry.Some? == s.rendered.Some?
    ensures s.entry.Some? ==> Visible(log, Answer(id, s.parts)) == Some("\n" + host.format(s.rendered.value))
  {
    var e := Streamed(id, sequence, Interrupted);
    hide HostOk, RendererOk, AfterEvent, Run, ProviderRun, Visible;
    RunOneMore(host, events, e);
    RunOk(host, events);
    AcceptsIff(host, events, id, sequence, e.delta);
    FlagsAreHeard(host, events, id);
    log, s := InterruptionIs(host, Run(host, events), id, sequence, k => Read(events, k));
  }

  // ---- An answer that still grows ----

  /** Whether a flush makes a block of this tail permanent, and how long it is. */
  function BlockLength(host: Host, tail: string): nat
    requires HostOk(host)
  {
    var n := host.settledLength(tail);
    assert n <= |tail|;
    if host.settlesEntries && n > 0 && host.trim(host.safe(tail[..n])) != "" then n else 0
  }

  /** `n` characters of the tail became a block, and the preview of the rest is shown unless a full one stands. */
  predicate GrownAs(host: Host, s: Stream, tail: string, n: nat, t: Stream)
    requires n <= |tail|
  {
    var preview := LiveText(host, tail[n..], false);
    && t.slices == (if n > 0 then s.slices + [tail[..n]] else s.slices) && Tail(t) == tail[n..] && t.pending == []
    && t.rendered == (if n == 0 && |Tail(s)| > host.previewMax && s.rendered.Some? then s.rendered
                      else if preview != "" then Some(preview)
                      else if n > 0 then None else s.rendered)
  }

  /** What a flush makes of a stream whose answer ends in `more`. */
  ghost predicate GrownBy(host: Host, s: Stream, more: string, t: Stream)
    requires HostOk(host)
  {
    var tail := Tail(s) + more;
    BlockLength(host, tail) <= |tail| && GrownAs(host, s, tail, BlockLength(host, tail), t)
  }

  lemma ShowTailIs(host: Host, s: Stream, id: StreamId)
    ensures var t, preview := ShowTail(host, s, id, false).stream, LiveText(host, Tail(s), false);
            && t.slices == s.slices && Tail(t) == Tail(s) && t.pending == s.pending
            && t.rendered == (if preview != "" then Some(preview) else s.rendered)
  {
    hide LiveText;
  }

  lemma SettleBlockIs(host: Host, s: Stream, id: StreamId, n: nat)
    requires s.settledChars <= |s.answerText| && n <= |Tail(s)|
    ensures var t := SettleBlock(host, s, id, n).stream;
            && t.slices == s.slices + [Tail(s)[..n]] && Tail(t) == Tail(s)[n..] && t.pending == s.pending
            && t.rendered == None
  {
    hide BlockText;
    assert s.answerText[s.settledChars + n..] == Tail(s)[n..];
  }

  lemma BlockIs(host: Host, s: Stream)
    requires HostOk(host)
    ensures SettlesNow(host, s, false) == BlockLength(host, Tail(s)) <= |Tail(s)|
  {}

  lemma FlushIs(host: Host, s: Stream, id: StreamId)
    requires !s.completed && s.pending != [] && s.sequence > 1 && s.settledChars <= |s.answerText|
    ensures var grown := Grown(s);
            var n := SettlesNow(host, grown, false);
            && Tail(grown) == Tail(s) + Flatten(s.pending) && grown.settledChars <= |grown.answerText|
            && FlushStream(host, s, id, false).stream ==
               if n > 0 then ShowTail(host, SettleBlock(host, grown, id, n).stream, id, false).stream
               else if |Tail(s)| > host.previewMax && s.rendered.Some? then grown
               else ShowTail(host, grown, id, false).stream
  {
    hide SettlesNow, SettleBlock, ShowTail, Flatten;
  }

  lemma BlockGrows(host: Host, s: Stream, grown: Stream, id: StreamId, n: nat)
    requires 0 < n <= |Tail(grown)| && grown.settledChars <= |grown.answerText|
    requires grown.slices == s.slices && grown.pending == []
    ensures GrownAs(host, s, Tail(grown), n, ShowTail(host, SettleBlock(host, grown, id, n).stream, id, false).stream)
  {
    SettleBlockIs(host, grown, id, n);
    ShowTailIs(host, SettleBlock(host, grown, id, n).stream, id);
    hide LiveText, ShowTail, SettleBlock, Tail;
  }

  lemma PreviewGrows(host: Host, s: Stream, grown: Stream, id: StreamId, full: bool)
    requires grown.slices == s.slices && grown.pending == [] && grown.rendered == s.rendered
    requires full == (|Tail(s)| > host.previewMax && s.rendered.Some?)
    ensures GrownAs(host, s, Tail(grown), 0, if full then grown else ShowTail(host, grown, id, false).stream)
  {
    ShowTailIs(host, grown, id);
    hide LiveText, ShowTail, Tail;
    assert Tail(grown)[0..] == Tail(grown);
  }

  lemma FlushGrows(host: Host, s: Stream, id: StreamId)
    requires HostOk(host) && !s.completed && s.pending != [] && s.sequence > 1 && s.settledChars <= |s.answerText|
    ensures GrownBy(host, s, Flatten(s.pending), FlushStream(host, s, id, false).stream)
  {
    var grown := Grown(s);
    assert grown.slices == s.slices && grown.rendered == s.rendered && grown.pending == [];
    FlushIs(host, s, id);
    BlockIs(host, grown);
    hide Grown, HostOk, GrownAs, LiveText, FlushStream, ShowTail, SettleBlock, SettlesNow, BlockLength, Tail, Flatten;
    var n := SettlesNow(host, grown, false);
    if n > 0 {
      BlockGrows(host, s, grown, id, n);
    } else {
      PreviewGrows(host, s, grown, id, |Tail(s)| > host.previewMax && s.rendered.Some?);
    }
  }

  lemma {:induction false} FlushedAlone(host: Host, r: Renderer, ids: seq<StreamId>, id: StreamId)
    requires id in r.streams && !r.streams[id].completed
    ensures var after := FlushAll(host, r, ids, None);
            && id in after.streams
            && after.streams[id] ==
               (if id in ids then FlushStream(host, r.streams[id], id, false).stream else r.streams[id])
    decreases |ids|
  {
    if |ids| > 0 {
      var e := if ids[0] in r.streams then FlushStream(host, r.streams[ids[0]], ids[0], false)
               else Effect(NEW_STREAM, []);
      var next := if ids[0] in r.streams then SetStream(r, ids[0], e) else r;
      FlushedOnce(host, r.streams[id], id);
      hide FlushStream;
      FlushedAlone(host, next, ids[1..], id);
    }
  }

  /** A stream that was flushed has nothing more to show. */
  lemma FlushedOnce(host: Host, s: Stream, id: StreamId)
    requires !s.completed
    ensures var t := FlushStream(host, s, id, false).stream;
            !t.completed && FlushStream(host, t, id, false).stream == t
  {
    hide SettlesNow, LiveText, BlockText, Tail;
  }

  /**
   When the flush timer fires, an answer that has grown shows its finished blocks, each in an entry of its own, and
   behind them its preview; a preview that was full already is left as it is until a block is finished.
   */
  lemma GrowingAnswerIsShown(host: Host, events: seq<Event>, id: StreamId)
    requires HostOk(host) && ProviderRun(events)
    requires id in Run(host, events).streams && !Read(events, id).ended && Run(host, events).streams[id].pending != []
    ensures var s, after := Run(host, events).streams[id], Run(host, events + [FlushTimer]);
            && Flatten(s.slices) + Tail(s) + Flatten(s.pending) == Read(events, id).text
            && id in after.streams && GrownBy(host, s, Flatten(s.pending), after.streams[id])
            && ShownRight(host, after.log, id, after.streams[id])
  {
    hide HostOk, RendererOk, AfterEvent, Run, ProviderRun, GrownBy, ShownRight, Visible, Permanent, TailShown;
    var r := Run(host, events);
    NoTextLostOrRewritten(host, events, id);
    RunOneMore(host, events, FlushTimer);
    RunOk(host, events);
    RunOk(host, events + [FlushTimer]);
    LiveStream(host, r, id, k => Read(events, k));
    FlushedAlone(host, r, r.order, id);
    assert AfterEvent(host, r, FlushTimer) == FlushAll(host, r, r.order, None) by { TimerFlushes(host, r); }
    FlushGrows(host, r.streams[id], id);
    ShownInRun(host, Run(host, events + [FlushTimer]), id, k => Read(events + [FlushTimer], k));
  }

  lemma TimerFlushes(host: Host, r: Renderer)
    ensures AfterEvent(host, r, FlushTimer) == FlushAll(host, r, r.order, None)
  {}

  lemma ShownInRun(host: Host, r: Renderer, id: StreamId, heard: Heard)
    requires RendererOk(host, r, heard) && id in r.streams
    ensures ShownRight(host, r.log, id, r.streams[id])
  {
    hide ShownRight, TextKept, LogOk, CandidateOk, TailShown;
    assert Faithful(host, r.log, id, r.streams[id], heard(id));
  }

  lemma LiveStream(host: Host, r: Renderer, id: StreamId, heard: Heard)
    requires RendererOk(host, r, heard) && id in r.streams && !heard(id).ended
    ensures id in r.order && !r.streams[id].completed && r.streams[id].settledChars <= |r.streams[id].answerText|
    ensures r.streams[id].pending != [] ==> r.streams[id].sequence > 1
  {
    hide ShownRight, LogOk, CandidateOk, TailShown;
    assert Faithful(host, r.log, id, r.streams[id], heard(id));
  }
}
