/**
 The renderer of streamed answers: deltas are buffered, finished blocks become
 permanent entries, and the assembled answer is reconciled with the rest
 (src/cli/model-stream-renderer.ts). Streaming into the document is on.
 */
module StreamRenderer {
  import opened Common

  type StreamId = string

  /** An answer part of a stream, or its interruption notice. */
  datatype EntryId = Answer(stream: StreamId, part: nat) | Notice(stream: StreamId)

  /** What the renderer does to the transcript, oldest first. */
  datatype Write =
    | Commit(entry: EntryId, text: string, continuation: bool)
    | Replace(entry: EntryId, text: string, continuation: bool)
    | Settle(entry: EntryId)

  /** The host's text functions, and whether it can make entries permanent. */
  datatype Host = Host(
    safe: string -> string,
    trim: string -> string,
    format: string -> string,
    settledLength: string -> nat,
    settlesEntries: bool,
    previewMax: nat)

  /** All that is known of the Markdown lexer: the settled length is that of a prefix. */
  ghost predicate HostOk(host: Host) {
    forall s :: host.settledLength(s) <= |s|
  }

  /** One streamed answer. `slices` records which slices were settled so far. */
  datatype Stream = Stream(
    sequence: int,
    answerText: string,
    settledChars: nat,
    parts: nat,
    entry: Option<EntryId>,
    rendered: Option<string>,
    pending: seq<string>,
    toolCallSeen: bool,
    completed: bool,
    slices: seq<string>)

  /** What a provider says about a started stream. */
  datatype Delta =
    | Text(text: string)
    | Phase
    | ToolCall
    | Usage
    | Completed(stopped: bool)
    | Interrupted

  /** What reaches the renderer: stream events, the flush timer and the Runtime's assembled answer. */
  datatype Event =
    | Started(stream: StreamId, sequence: int)
    | Streamed(stream: StreamId, sequence: int, delta: Delta)
    | FlushTimer
    | Assembled(text: string)

  datatype Candidate = Candidate(stream: StreamId, entry: EntryId, settledPrefix: string, continuation: bool)

  datatype Renderer = Renderer(
    streams: map<StreamId, Stream>,
    order: seq<StreamId>,
    candidate: Option<Candidate>,
    log: seq<Write>)

  // ---- Text shown while an answer grows ----

  predicate IsSeparator(c: char) {
    c in " \n\t\U{3002}\U{FF0C}\U{FF01}\U{FF1F}\U{FF1B}"
  }

  /** The length up to and with the last separator. */
  function Boundary(s: string): (n: nat)
    ensures n <= |s|
  {
    if s == "" then 0
    else if IsSeparator(s[|s| - 1]) then |s|
    else Boundary(s[..|s| - 1])
  }

  const LIMIT_NOTICE := "\n[Live preview limited; complete output will appear when the response finishes.]"

  function LiveText(host: Host, value: string, final: bool): string {
    if final then host.safe(value)
    else
      var prefix := if |value| > host.previewMax then value[..host.previewMax] else value;
      var shown := host.safe(prefix[..Boundary(prefix)]);
      if |value| > host.previewMax then shown + LIMIT_NOTICE else shown
  }

  lemma {:induction false} BoundaryIsLast(s: string)
    ensures var n := Boundary(s);
            (n > 0 ==> IsSeparator(s[n - 1])) && forall k :: n <= k < |s| ==> !IsSeparator(s[k])
  {
    if s != "" && !IsSeparator(s[|s| - 1]) {
      var before := s[..|s| - 1];
      BoundaryIsLast(before);
      assert Boundary(s) == Boundary(before);
      hide IsSeparator;
      assert forall k :: 0 <= k < |before| ==> s[k] == before[k];
    }
  }

  /**
   A live preview shows the text up to its last separator within the limit: a token still being written
   is held back.
   */
  lemma PreviewHoldsTheLastToken(host: Host, value: string)
    ensures exists n ::
              && 0 <= n <= |value| && n <= host.previewMax
              && (n > 0 ==> IsSeparator(value[n - 1]))
              && (forall k :: n <= k < |value| && k < host.previewMax ==> !IsSeparator(value[k]))
              && LiveText(host, value, false) ==
                 host.safe(value[..n]) + (if |value| > host.previewMax then LIMIT_NOTICE else "")
  {
    var prefix := if |value| > host.previewMax then value[..host.previewMax] else value;
    var n := Boundary(prefix);
    BoundaryIsLast(prefix);
    assert prefix[..n] == value[..n];
    assert host.safe(value[..n]) + "" == host.safe(value[..n]);
    assert n > 0 ==> IsSeparator(value[n - 1]);
    forall k | n <= k < |value| && k < host.previewMax ensures !IsSeparator(value[k]) {
      assert value[k] == prefix[k];
    }
  }

  // ---- One delta on one stream ----

  datatype Effect = Effect(stream: Stream, writes: seq<Write>)

  /** Show the part of the answer that is not settled yet: in its entry, or in a new one. */
  function WriteAnswer(s: Stream, id: StreamId, text: string): Effect {
    if s.entry.Some? then Effect(s, [Replace(s.entry.value, text, s.parts > 0)])
    else
      var entry := Answer(id, s.parts);
      Effect(s.(entry := Some(entry)), [Commit(entry, text, s.parts > 0)])
  }

  /** The answer after its settled prefix. */
  function Tail(s: Stream): string {
    if s.settledChars <= |s.answerText| then s.answerText[s.settledChars..] else ""
  }

  /** At most the first `n` characters. */
  function Prefix(s: string, n: nat): string {
    if n <= |s| then s[..n] else s
  }

  /** The settled prefix of the answer. */
  function SettledText(s: Stream): string {
    Prefix(s.answerText, s.settledChars)
  }

  /** How much of the tail becomes permanent now. */
  function SettlesNow(host: Host, s: Stream, final: bool): nat {
    if !host.settlesEntries || final then 0
    else
      var tail := Tail(s);
      var length := host.settledLength(tail);
      if length == 0 || host.trim(host.safe(Prefix(tail, length))) == "" then 0 else length
  }

  /** The text of a settled block. */
  function BlockText(host: Host, slice: string): string {
    "\n" + host.format(host.trim(host.safe(slice)))
  }

  function SettleBlock(host: Host, s: Stream, id: StreamId, length: nat): Effect {
    var slice := Prefix(Tail(s), length);
    var e := WriteAnswer(s, id, BlockText(host, slice));
    var entry := e.stream.entry.value;
    Effect(e.stream.(settledChars := s.settledChars + length, parts := s.parts + 1, entry := None, rendered := None,
                     slices := s.slices + [slice]),
           e.writes + [Settle(entry)])
  }

  function ShowTail(host: Host, s: Stream, id: StreamId, final: bool): Effect {
    var safe := LiveText(host, Tail(s), final);
    if safe == "" || s.rendered == Some(safe) then Effect(s, [])
    else WriteAnswer(s.(rendered := Some(safe)), id, "\n" + host.format(safe))
  }

  /** A text delta; with a sequence up to 1 it is dropped. */
  function ApplyText(host: Host, s: Stream, id: StreamId, text: string, final: bool): Effect {
    if s.sequence <= 1 then Effect(s, [])
    else
      var previewWasFull := |s.answerText| - s.settledChars > host.previewMax;
      var grown := s.(answerText := s.answerText + text);
      var length := SettlesNow(host, grown, final);
      if length > 0 then
        var settled := SettleBlock(host, grown, id, length);
        var shown := ShowTail(host, settled.stream, id, final);
        Effect(shown.stream, settled.writes + shown.writes)
      else if previewWasFull && s.rendered.Some? && !final then Effect(grown, [])
      else ShowTail(host, grown, id, final)
  }

  /** Deliver what a stream has buffered. */
  function FlushStream(host: Host, s: Stream, id: StreamId, final: bool): Effect {
    if s.completed || (s.pending == [] && !(final && s.answerText != "")) then Effect(s, [])
    else ApplyText(host, s.(pending := []), id, Flatten(s.pending), final)
  }

  // ---- The transcript ----

  /** The text an entry shows, if it was written. */
  function Visible(log: seq<Write>, entry: EntryId): Option<string> {
    if |log| == 0 then None
    else
      var last := log[|log| - 1];
      if last.entry == entry && !last.Settle? then Some(last.text) else Visible(log[..|log| - 1], entry)
  }

  /** Nothing is written to an entry after it was settled. */
  predicate Permanent(log: seq<Write>) {
    forall i, j :: 0 <= i < j < |log| && log[i].Settle? ==> log[j].entry != log[i].entry
  }

  lemma VisibleAfter(log: seq<Write>, w: Write, entry: EntryId)
    ensures Visible(log + [w], entry) ==
            if w.entry == entry && !w.Settle? then Some(w.text) else Visible(log, entry)
  {
    assert (log + [w])[..|log|] == log;
  }

  lemma PermanentAfter(log: seq<Write>, w: Write)
    requires Permanent(log) && Settle(w.entry) !in log
    ensures Permanent(log + [w])
  {
    var next := log + [w];
    forall i, j | 0 <= i < j < |next| && next[i].Settle? ensures next[j].entry != next[i].entry {
      if j == |log| { assert log[i] in log; }
    }
  }

  // ---- The renderer's steps ----

  function SetStream(r: Renderer, id: StreamId, e: Effect): Renderer {
    r.(streams := r.streams[id := e.stream], log := r.log + e.writes)
  }

  /** Flush the streams named, in order; `final` names the one that completed. */
  function FlushAll(host: Host, r: Renderer, ids: seq<StreamId>, final: Option<StreamId>): Renderer
    decreases |ids|
  {
    if |ids| == 0 then r
    else
      var next :=
        if ids[0] in r.streams then
          SetStream(r, ids[0], FlushStream(host, r.streams[ids[0]], ids[0], final == Some(ids[0])))
        else r;
      FlushAll(host, next, ids[1..], final)
  }

  function Flushed(host: Host, r: Renderer, final: Option<StreamId>): Renderer {
    FlushAll(host, r, r.order, final)
  }

  const NEW_STREAM := Stream(0, "", 0, 0, None, None, [], false, false, [])

  /** The ids whose streams have not completed. */
  function Unfinished(ids: seq<StreamId>, streams: map<StreamId, Stream>): (kept: seq<StreamId>)
    ensures forall id :: id in kept <==> id in ids && id in streams && !streams[id].completed
  {
    if |ids| == 0 then []
    else if ids[0] in streams && !streams[ids[0]].completed then [ids[0]] + Unfinished(ids[1..], streams)
    else Unfinished(ids[1..], streams)
  }

  function Start(r: Renderer, id: StreamId, sequence: int): Renderer {
    var kept := map k | k in r.streams && !r.streams[k].completed :: r.streams[k];
    var order := Unfinished(r.order, r.streams);
    r.(streams := kept[id := NEW_STREAM.(sequence := sequence)],
       order := if id in order then order else order + [id],
       candidate := None)
  }

  function Complete(r: Renderer, id: StreamId, stopped: bool): Renderer
    requires id in r.streams
  {
    var s := r.streams[id];
    r.(streams := r.streams[id := s.(completed := true)],
       candidate := if !s.toolCallSeen && s.entry.Some? && stopped
                    then Some(Candidate(id, s.entry.value, SettledText(s), s.parts > 0)) else r.candidate)
  }

  const INTERRUPTED_CALLS :=
    "[Interrupted model response; streamed tool arguments were incomplete and were not executed.]"
  const INTERRUPTED_ANSWER := "[Interrupted model response; not a completed answer.]"

  function InterruptionWrite(host: Host, s: Stream, id: StreamId): Write {
    var message := if s.toolCallSeen then INTERRUPTED_CALLS else INTERRUPTED_ANSWER;
    if s.entry.Some? then
      var shown := if s.rendered.Some? then s.rendered.value else "";
      Replace(s.entry.value, "\n" + host.format(shown + "\n" + message) + "\n", s.parts > 0)
    else Commit(Notice(id), message + "\n", false)
  }

  function RemoveStream(r: Renderer, id: StreamId): Renderer {
    r.(streams := r.streams - {id}, order := Without(r.order, id))
  }

  function Without(ids: seq<StreamId>, id: StreamId): (kept: seq<StreamId>)
    ensures forall k :: k in kept <==> k in ids && k != id
  {
    if |ids| == 0 then []
    else if ids[0] == id then Without(ids[1..], id)
    else [ids[0]] + Without(ids[1..], id)
  }

  function Interrupt(host: Host, r: Renderer, id: StreamId): Renderer
    requires id in r.streams
  {
    var removed := RemoveStream(r, id);
    removed.(log := r.log + [InterruptionWrite(host, r.streams[id], id)],
             candidate := if r.candidate.Some? && r.candidate.value.stream == id then None else r.candidate)
  }

  /** Reconcile the streamed node with the assembled answer. */
  function Finalize(host: Host, r: Renderer, text: string): Renderer {
    if r.candidate.None? then r
    else
      var c := r.candidate.value;
      var cleared := r.(candidate := None);
      if !(c.settledPrefix <= text) then RemoveStream(cleared, c.stream)
      else
        var complete := host.trim(host.safe(text[|c.settledPrefix|..]));
        if complete == "" then cleared
        else
          RemoveStream(cleared, c.stream).(
            log := r.log + [Replace(c.entry, "\n" + host.format(complete) + "\n\n", c.continuation)])
  }

  /** Whether the streamed node already stands for the assembled answer. */
  predicate Reconciled(host: Host, r: Renderer, text: string) {
    && r.candidate.Some?
    && (r.candidate.value.settledPrefix <= text ==>
          host.trim(host.safe(text[|r.candidate.value.settledPrefix|..])) != "")
  }

  predicate Accepts(r: Renderer, id: StreamId, sequence: int) {
    id in r.streams && !r.streams[id].completed && sequence > r.streams[id].sequence
  }

  function Sequenced(r: Renderer, id: StreamId, sequence: int): Renderer
    requires id in r.streams
  {
    r.(streams := r.streams[id := r.streams[id].(sequence := sequence)])
  }

  /** An accepted event of a live stream; `r` already holds its sequence. */
  function AfterDelta(host: Host, r: Renderer, id: StreamId, sequence: int, delta: Delta): Renderer
    requires id in r.streams
  {
    match delta
    case Phase => r
    case Text(text) =>
      r.(streams := r.streams[id := r.streams[id].(pending := r.streams[id].pending + [text])])
    case ToolCall =>
      if sequence <= 1 then r else r.(streams := r.streams[id := r.streams[id].(toolCallSeen := true)])
    case Usage => Flushed(host, r, None)
    case Completed(stopped) =>
      var flushed := Flushed(host, r, Some(id));
      if sequence <= 1 || id !in flushed.streams then flushed else Complete(flushed, id, stopped)
    case Interrupted =>
      var flushed := Flushed(host, r, None);
      if sequence <= 1 || id !in flushed.streams then flushed else Interrupt(host, flushed, id)
  }

  function AfterEvent(host: Host, r: Renderer, e: Event): Renderer {
    match e
    case Started(id, sequence) => Start(Flushed(host, r, None), id, sequence)
    case FlushTimer => Flushed(host, r, None)
    case Assembled(text) => Finalize(host, r, text)
    case Streamed(id, sequence, delta) =>
      if !Accepts(r, id, sequence) then r else AfterDelta(host, Sequenced(r, id, sequence), id, sequence, delta)
  }

  function Run(host: Host, events: seq<Event>): Renderer {
    if |events| == 0 then Renderer(map[], [], None, [])
    else AfterEvent(host, Run(host, events[..|events| - 1]), events[|events| - 1])
  }

  // ---- What a stream said, read off the events alone ----

  datatype Reading = Reading(started: bool, ended: bool, sequence: int, text: string)

  /** The text deltas of one stream whose sequence numbers increase, from its start to its end. */
  function Read(events: seq<Event>, id: StreamId): Reading {
    if |events| == 0 then Reading(false, false, 0, "")
    else ReadEvent(Read(events[..|events| - 1], id), events[|events| - 1], id)
  }

  function ReadEvent(r: Reading, e: Event, id: StreamId): Reading {
    match e
    case Started(stream, sequence) => if stream == id then Reading(true, false, sequence, "") else r
    case Streamed(stream, sequence, delta) =>
      if stream != id || !r.started || r.ended || sequence <= r.sequence then r
      else Reading(true, delta.Completed? || delta.Interrupted?, sequence,
                   if delta.Text? then r.text + delta.text else r.text)
    case _ => r
  }

  /** Every stream starts once, with a sequence of at least 1. */
  predicate ProviderRun(events: seq<Event>) {
    if |events| == 0 then true
    else
      var last := events[|events| - 1];
      && ProviderRun(events[..|events| - 1])
      && (last.Started? ==> last.sequence >= 1 && !Read(events[..|events| - 1], last.stream).started)
  }

  // ---- What holds of every stream ----

  /** The accepted text is the settled slices, then the tail, then the buffer. */
  ghost predicate TextKept(s: Stream, accepted: string) {
    && s.settledChars <= |s.answerText|
    && Flatten(s.slices) == SettledText(s)
    && s.answerText + Flatten(s.pending) == accepted
  }

  /** The transcript shows the settled slices, each in its permanent entry, and the rendered tail. */
  ghost predicate ShownRight(host: Host, log: seq<Write>, id: StreamId, s: Stream) {
    && |s.slices| == s.parts
    && (s.entry.Some? ==> s.entry.value == Answer(id, s.parts))
    && (s.entry.Some? <==> s.rendered.Some?)
    && (forall k: nat :: k >= s.parts ==> Settle(Answer(id, k)) !in log)
    && (forall k: nat :: k < s.parts ==>
          Settle(Answer(id, k)) in log && Visible(log, Answer(id, k)) == Some(BlockText(host, s.slices[k])))
    && (s.entry.Some? ==> Visible(log, s.entry.value) == Some("\n" + host.format(s.rendered.value)))
  }

  /** Sequences above 1 wherever there is text. */
  ghost predicate Sequential(s: Stream) {
    s.sequence >= 1 && (|s.pending| > 0 || s.answerText != "" ==> s.sequence > 1)
  }

  ghost predicate StreamOk(host: Host, log: seq<Write>, id: StreamId, s: Stream, accepted: string) {
    TextKept(s, accepted) && ShownRight(host, log, id, s) && Sequential(s)
  }

  predicate OwnWrites(writes: seq<Write>, id: StreamId) {
    forall w :: w in writes ==> w.entry.stream == id && (w.Settle? ==> w.entry.Answer?)
  }

  /** Writing the open entry of a stream. */
  lemma WriteOk(host: Host, log: seq<Write>, id: StreamId, s: Stream, text: string)
    requires Permanent(log) && ShownRight(host, log, id, s.(rendered := None, entry := None))
    requires s.entry.Some? ==> s.entry.value == Answer(id, s.parts)
    ensures var e := WriteAnswer(s, id, text);
            && |e.writes| == 1 && e.writes[0].entry == Answer(id, s.parts) && !e.writes[0].Settle?
            && e.stream == s.(entry := Some(Answer(id, s.parts)))
            && Permanent(log + e.writes)
            && Visible(log + e.writes, Answer(id, s.parts)) == Some(text)
            && ShownRight(host, log + e.writes, id, s.(rendered := None, entry := None))
  {
    var e := WriteAnswer(s, id, text);
    PermanentAfter(log, e.writes[0]);
    forall k: nat { VisibleAfter(log, e.writes[0], Answer(id, k)); }
  }

  /** A settled block moves from the tail to the slices. */
  lemma SettleKeepsText(host: Host, id: StreamId, s: Stream, length: nat, accepted: string)
    requires TextKept(s, accepted) && length <= |Tail(s)|
    ensures TextKept(SettleBlock(host, s, id, length).stream, accepted)
  {
    hide LiveText, BlockText;
    var slice := Tail(s)[..length];
    FlattenSnoc(s.slices, slice);
    assert s.answerText[..s.settledChars] + slice == s.answerText[..s.settledChars + length];
  }

  /** A settled block stands in its own entry, for good. */
  lemma SettleShows(host: Host, log: seq<Write>, id: StreamId, s: Stream, length: nat)
    requires Permanent(log) && ShownRight(host, log, id, s)
    ensures var e := SettleBlock(host, s, id, length);
            && ShownRight(host, log + e.writes, id, e.stream)
            && Permanent(log + e.writes) && OwnWrites(e.writes, id)
            && e.stream.entry.None?
  {
    hide Tail, BlockText, Visible, Permanent, Prefix;
    var slice := Prefix(Tail(s), length);
    var text := BlockText(host, slice);
    WriteOk(host, log, id, s, text);
    var w := WriteAnswer(s, id, text);
    var e := SettleBlock(host, s, id, length);
    var settle := Settle(Answer(id, s.parts));
    var before := log + w.writes;
    assert e.writes == w.writes + [settle];
    assert log + e.writes == before + [settle];
    PermanentAfter(before, settle);
    forall k: nat ensures Visible(before + [settle], Answer(id, k)) == Visible(before, Answer(id, k)) {
      VisibleAfter(before, settle, Answer(id, k));
    }
  }

  /** What a final flush leaves of a stream's tail. */
  predicate TailShown(host: Host, s: Stream) {
    s.answerText == "" || host.safe(Tail(s)) == "" || s.rendered == Some(host.safe(Tail(s)))
  }

  /** Showing the tail. */
  lemma ShowTailOk(host: Host, log: seq<Write>, id: StreamId, s: Stream, final: bool, accepted: string)
    requires Permanent(log) && TextKept(s, accepted) && ShownRight(host, log, id, s)
    ensures var e := ShowTail(host, s, id, final);
            && TextKept(e.stream, accepted) && ShownRight(host, log + e.writes, id, e.stream)
            && Permanent(log + e.writes) && OwnWrites(e.writes, id)
            && (final ==> TailShown(host, e.stream))
            && e.stream == s.(entry := e.stream.entry, rendered := e.stream.rendered)
  {
    var safe := LiveText(host, Tail(s), final);
    if safe == "" || s.rendered == Some(safe) {
      assert log + [] == log;
    } else {
      WriteOk(host, log, id, s.(rendered := Some(safe)), "\n" + host.format(safe));
    }
  }

  lemma OwnWritesAppend(a: seq<Write>, b: seq<Write>, id: StreamId)
    requires OwnWrites(a, id) && OwnWrites(b, id)
    ensures OwnWrites(a + b, id)
  {}

  lemma SettlesWithin(host: Host, s: Stream, final: bool)
    requires HostOk(host)
    ensures SettlesNow(host, s, final) <= |Tail(s)|
  {}

  lemma NothingToShow(host: Host, s: Stream)
    ensures s.answerText == "" ==> TailShown(host, s)
  {}

  /** The buffer joins the answer. */
  function Grown(s: Stream): Stream {
    s.(pending := [], answerText := s.answerText + Flatten(s.pending))
  }

  lemma GrownKeeps(host: Host, log: seq<Write>, id: StreamId, s: Stream, accepted: string)
    requires StreamOk(host, log, id, s, accepted)
    ensures TextKept(Grown(s), accepted) && ShownRight(host, log, id, Grown(s))
  {
    hide BlockText, Visible;
    var grown := Grown(s);
    assert s.answerText[..s.settledChars] == grown.answerText[..s.settledChars];
    assert Flatten<char>([]) == "" && grown.answerText + "" == grown.answerText;
  }

  /** A flush that has something to show is growth, perhaps a settled block, and the tail. */
  lemma FlushSteps(host: Host, s: Stream, id: StreamId, final: bool)
    requires !s.completed && (|s.pending| > 0 || (final && s.answerText != "")) && s.sequence > 1
    ensures var e := FlushStream(host, s, id, final);
            var length := SettlesNow(host, Grown(s), final);
            if length > 0 then
              var settled := SettleBlock(host, Grown(s), id, length);
              var shown := ShowTail(host, settled.stream, id, final);
              e == Effect(shown.stream, settled.writes + shown.writes)
            else e == ShowTail(host, Grown(s), id, final) || (!final && e == Effect(Grown(s), []))
  {
    hide Tail, LiveText, BlockText, SettlesNow, SettleBlock, ShowTail;
  }

  lemma FlushStreamOk(host: Host, log: seq<Write>, id: StreamId, s: Stream, final: bool, accepted: string)
    requires HostOk(host) && Permanent(log) && StreamOk(host, log, id, s, accepted)
    ensures var e := FlushStream(host, s, id, final);
            && StreamOk(host, log + e.writes, id, e.stream, accepted)
            && Permanent(log + e.writes) && OwnWrites(e.writes, id)
            && e.stream.sequence == s.sequence && e.stream.completed == s.completed
            && e.stream.toolCallSeen == s.toolCallSeen
            && (!s.completed ==> e.stream.pending == [] && (final ==> TailShown(host, e.stream)))
  {
    hide HostOk, Tail, LiveText, TailShown, BlockText, SettlesNow, ShowTail, ShownRight, TextKept, Permanent, Visible;
    assert log + [] == log;
    if s.completed || (s.pending == [] && !(final && s.answerText != "")) {
      NothingToShow(host, s);
    } else {
      hide FlushStream, ApplyText;
      GrownKeeps(host, log, id, s, accepted);
      FlushSteps(host, s, id, final);
      var grown := Grown(s);
      var length := SettlesNow(host, grown, final);
      if length > 0 {
        SettlesWithin(host, grown, final);
        SettleKeepsText(host, id, grown, length, accepted);
        SettleShows(host, log, id, grown, length);
        var settled := SettleBlock(host, grown, id, length);
        ShowTailOk(host, log + settled.writes, id, settled.stream, final, accepted);
        var shown := ShowTail(host, settled.stream, id, final);
        OwnWritesAppend(settled.writes, shown.writes, id);
        assert log + (settled.writes + shown.writes) == log + settled.writes + shown.writes;
      } else {
        ShowTailOk(host, log, id, grown, final, accepted);
      }
    }
  }

  /** Writes to one stream's entries leave every other stream as it is shown. */
  lemma {:induction false} OthersUntouched(host: Host, log: seq<Write>, writes: seq<Write>, id: StreamId,
                                           other: StreamId, s: Stream)
    requires OwnWrites(writes, id) && other != id && ShownRight(host, log, other, s)
    ensures ShownRight(host, log + writes, other, s)
    decreases |writes|
  {
    if |writes| == 0 {
      assert log + writes == log;
    } else {
      var n := |writes| - 1;
      OthersUntouched(host, log, writes[..n], id, other, s);
      assert writes == writes[..n] + [writes[n]];
      assert log + writes == (log + writes[..n]) + [writes[n]];
      assert writes[n] in writes;
      forall k: nat { VisibleAfter(log + writes[..n], writes[n], Answer(other, k)); }
    }
  }

  // ---- What holds of the renderer ----

  type Heard = StreamId -> Reading

  /** A stream of the renderer, against what was heard of it. */
  ghost predicate Faithful(host: Host, log: seq<Write>, id: StreamId, s: Stream, reading: Reading) {
    && reading.started && s.sequence == reading.sequence && s.completed == reading.ended
    && StreamOk(host, log, id, s, reading.text)
    && (s.completed ==> s.pending == [] && TailShown(host, s))
  }

  ghost predicate StreamsOk(host: Host, r: Renderer, heard: Heard) {
    forall id :: id in r.streams ==> Faithful(host, r.log, id, r.streams[id], heard(id))
  }

  ghost predicate LogOk(log: seq<Write>, heard: Heard) {
    && Permanent(log)
    && forall w :: w in log ==> heard(w.entry.stream).started && (w.Settle? ==> w.entry.Answer?)
  }

  /** The candidate is the open entry of a completed stream. */
  predicate CandidateOk(r: Renderer) {
    r.candidate.Some? ==>
      var c := r.candidate.value;
      && c.stream in r.streams && r.streams[c.stream].completed
      && r.streams[c.stream].entry == Some(c.entry)
      && c.settledPrefix == SettledText(r.streams[c.stream])
      && c.continuation == (r.streams[c.stream].parts > 0)
  }

  ghost predicate Ordered(r: Renderer) {
    forall id :: id in r.order <==> id in r.streams
  }

  ghost predicate RendererOk(host: Host, r: Renderer, heard: Heard) {
    StreamsOk(host, r, heard) && LogOk(r.log, heard) && CandidateOk(r) && Ordered(r)
  }

  lemma OwnWritesKeepLog(log: seq<Write>, writes: seq<Write>, id: StreamId, heard: Heard)
    requires LogOk(log, heard) && OwnWrites(writes, id) && Permanent(log + writes) && heard(id).started
    ensures LogOk(log + writes, heard)
  {}

  /** One stream moves on and writes only its own entries. */
  lemma SetStreamOk(host: Host, r: Renderer, id: StreamId, e: Effect, heard: Heard)
    requires RendererOk(host, r, heard) && id in r.streams
    requires OwnWrites(e.writes, id) && Permanent(r.log + e.writes)
    requires Faithful(host, r.log + e.writes, id, e.stream, heard(id))
    requires r.streams[id].completed ==> e.stream == r.streams[id]
    requires !r.streams[id].completed ==> !e.stream.completed
    ensures RendererOk(host, SetStream(r, id, e), heard)
  {
    hide ShownRight, TextKept, TailShown, Permanent, SettledText;
    OwnWritesKeepLog(r.log, e.writes, id, heard);
    forall other | other in r.streams && other != id
      ensures Faithful(host, r.log + e.writes, other, r.streams[other], heard(other))
    {
      OthersUntouched(host, r.log, e.writes, id, other, r.streams[other]);
    }
  }

  /** The streams before and after a flush. */
  ghost predicate FlushedFrom(host: Host, before: Renderer, after: Renderer, ids: seq<StreamId>,
      final: Option<StreamId>) {
    && after.streams.Keys == before.streams.Keys && after.order == before.order
    && after.candidate == before.candidate
    && forall id :: id in before.streams ==>
         && after.streams[id].completed == before.streams[id].completed
         && after.streams[id].sequence == before.streams[id].sequence
         && after.streams[id].toolCallSeen == before.streams[id].toolCallSeen
         && (id !in ids ==> after.streams[id] == before.streams[id])
         && (id in ids && !before.streams[id].completed ==>
               after.streams[id].pending == [] && (final == Some(id) ==> TailShown(host, after.streams[id])))
  }

  lemma FlushOneOk(host: Host, r: Renderer, id: StreamId, final: bool, heard: Heard)
    requires HostOk(host) && RendererOk(host, r, heard) && id in r.streams
    ensures var e := FlushStream(host, r.streams[id], id, final);
            && RendererOk(host, SetStream(r, id, e), heard)
            && e.stream.sequence == r.streams[id].sequence && e.stream.completed == r.streams[id].completed
            && e.stream.toolCallSeen == r.streams[id].toolCallSeen
            && (r.streams[id].completed ==> e.stream == r.streams[id])
            && (!r.streams[id].completed ==> e.stream.pending == [] && (final ==> TailShown(host, e.stream)))
  {
    hide HostOk, ShownRight, TextKept, TailShown, Permanent, SettledText, ApplyText;
    var s := r.streams[id];
    FlushStreamOk(host, r.log, id, s, final, heard(id).text);
    var e := FlushStream(host, s, id, final);
    assert s.completed ==> e.stream == s;
    hide FlushStream;
    SetStreamOk(host, r, id, e, heard);
  }

  lemma FlushedThen(host: Host, a: Renderer, b: Renderer, c: Renderer, ids: seq<StreamId>, final: Option<StreamId>)
    requires |ids| > 0 && FlushedFrom(host, a, b, [ids[0]], final) && FlushedFrom(host, b, c, ids[1..], final)
    ensures FlushedFrom(host, a, c, ids, final)
  {
    hide TailShown;
    assert forall k :: k in ids <==> k == ids[0] || k in ids[1..];
  }

  lemma {:induction false} FlushAllOk(host: Host, r: Renderer, ids: seq<StreamId>, final: Option<StreamId>,
      heard: Heard)
    requires HostOk(host) && RendererOk(host, r, heard)
    ensures RendererOk(host, FlushAll(host, r, ids, final), heard)
    ensures FlushedFrom(host, r, FlushAll(host, r, ids, final), ids, final)
    decreases |ids|
  {
    hide HostOk, RendererOk, FlushStream, TailShown, SetStream, FlushedFrom;
    if |ids| == 0 {
      FlushedNothing(host, r, r, [], final);
    } else if ids[0] in r.streams {
      var id := ids[0];
      var e := FlushStream(host, r.streams[id], id, final == Some(id));
      var next := SetStream(r, id, e);
      FlushOneOk(host, r, id, final == Some(id), heard);
      FlushedOne(host, r, id, e, final);
      FlushAllOk(host, next, ids[1..], final, heard);
      FlushedThen(host, r, next, FlushAll(host, next, ids[1..], final), ids, final);
    } else {
      FlushAllOk(host, r, ids[1..], final, heard);
      FlushedNothing(host, r, r, [ids[0]], final);
      FlushedThen(host, r, r, FlushAll(host, r, ids[1..], final), ids, final);
    }
  }

  lemma FlushedNothing(host: Host, before: Renderer, after: Renderer, ids: seq<StreamId>, final: Option<StreamId>)
    requires before == after && forall id :: id in ids ==> id !in before.streams
    ensures FlushedFrom(host, before, after, ids, final)
  {}

  lemma FlushedOne(host: Host, r: Renderer, id: StreamId, e: Effect, final: Option<StreamId>)
    requires id in r.streams && e.stream.sequence == r.streams[id].sequence
    requires e.stream.completed == r.streams[id].completed && e.stream.toolCallSeen == r.streams[id].toolCallSeen
    requires !r.streams[id].completed ==> e.stream.pending == [] && (final == Some(id) ==> TailShown(host, e.stream))
    ensures FlushedFrom(host, r, SetStream(r, id, e), [id], final)
  {
    hide TailShown;
  }

  /** The heard text only changes for one stream. */
  ghost predicate HeardElsewhere(a: Heard, b: Heard, id: StreamId) {
    forall k :: k != id ==> b(k) == a(k)
  }

  /** One stream changes without a write. */
  lemma UpdateOk(host: Host, r: Renderer, id: StreamId, s: Stream, heard: Heard, next: Heard)
    requires RendererOk(host, r, heard) && id in r.streams && HeardElsewhere(heard, next, id)
    requires Faithful(host, r.log, id, s, next(id))
    ensures var after := r.(streams := r.streams[id := s]);
            StreamsOk(host, after, next) && LogOk(after.log, next) && Ordered(after)
  {
    hide StreamOk, Permanent, TailShown, CandidateOk;
  }

  /** What is shown does not depend on the sequence, the buffer or the flags. */
  lemma ShownSame(host: Host, log: seq<Write>, id: StreamId, s: Stream, t: Stream)
    requires ShownRight(host, log, id, s)
    requires t.slices == s.slices && t.parts == s.parts && t.entry == s.entry && t.rendered == s.rendered
    ensures ShownRight(host, log, id, t)
  {
    hide Visible, BlockText;
  }

  lemma TextSame(s: Stream, t: Stream, a: string, b: string)
    requires TextKept(s, a)
    requires t.answerText == s.answerText && t.settledChars == s.settledChars && t.slices == s.slices
    requires t.answerText + Flatten(t.pending) == b
    ensures TextKept(t, b)
  {
    hide Flatten;
  }

  lemma SequencedOk(host: Host, r: Renderer, id: StreamId, sequence: int, heard: Heard, next: Heard)
    requires RendererOk(host, r, heard) && Accepts(r, id, sequence) && HeardElsewhere(heard, next, id)
    requires next(id) == heard(id).(sequence := sequence)
    ensures RendererOk(host, Sequenced(r, id, sequence), next)
  {
    hide Visible, Permanent, TailShown, ShownRight, Flatten;
    var s := r.streams[id];
    ShownSame(host, r.log, id, s, s.(sequence := sequence));
    UpdateOk(host, r, id, s.(sequence := sequence), heard, next);
  }

  lemma TextOk(host: Host, r: Renderer, id: StreamId, sequence: int, text: string, heard: Heard, next: Heard)
    requires RendererOk(host, r, heard) && id in r.streams && !r.streams[id].completed && r.streams[id].sequence > 1
    requires HeardElsewhere(heard, next, id) && next(id) == heard(id).(text := heard(id).text + text)
    ensures RendererOk(host, AfterDelta(host, r, id, sequence, Text(text)), next)
  {
    hide Visible, Permanent, TailShown, Flatten, SettledText, ShownRight;
    var s := r.streams[id];
    var more := s.(pending := s.pending + [text]);
    FlattenSnoc(s.pending, text);
    assert s.answerText + (Flatten(s.pending) + text) == (s.answerText + Flatten(s.pending)) + text;
    TextSame(s, more, heard(id).text, next(id).text);
    ShownSame(host, r.log, id, s, more);
    UpdateOk(host, r, id, more, heard, next);
  }

  lemma ToolCallOk(host: Host, r: Renderer, id: StreamId, heard: Heard)
    requires RendererOk(host, r, heard) && id in r.streams && !r.streams[id].completed
    ensures RendererOk(host, r.(streams := r.streams[id := r.streams[id].(toolCallSeen := true)]), heard)
  {
    hide Visible, Permanent, TailShown, ShownRight, Flatten;
    var s := r.streams[id];
    ShownSame(host, r.log, id, s, s.(toolCallSeen := true));
    UpdateOk(host, r, id, s.(toolCallSeen := true), heard, heard);
  }

  lemma CompleteOk(host: Host, r: Renderer, id: StreamId, stopped: bool, heard: Heard, next: Heard)
    requires RendererOk(host, r, heard) && id in r.streams && !r.streams[id].completed
    requires r.streams[id].pending == [] && TailShown(host, r.streams[id])
    requires HeardElsewhere(heard, next, id) && next(id) == heard(id).(ended := true)
    ensures RendererOk(host, Complete(r, id, stopped), next)
  {
    hide Visible, Permanent, ShownRight, Flatten;
    var s := r.streams[id];
    ShownSame(host, r.log, id, s, s.(completed := true));
    UpdateOk(host, r, id, s.(completed := true), heard, next);
  }

  lemma NewStreamOk(host: Host, log: seq<Write>, id: StreamId, sequence: int, heard: Heard)
    requires LogOk(log, heard) && !heard(id).started && sequence >= 1
    ensures Faithful(host, log, id, NEW_STREAM.(sequence := sequence), Reading(true, false, sequence, ""))
  {
    hide Visible, Permanent, TailShown;
    forall k: nat ensures Settle(Answer(id, k)) !in log {}
  }

  lemma StartOk(host: Host, r: Renderer, id: StreamId, sequence: int, heard: Heard, next: Heard)
    requires RendererOk(host, r, heard) && !heard(id).started && sequence >= 1
    requires HeardElsewhere(heard, next, id) && next(id) == Reading(true, false, sequence, "")
    ensures RendererOk(host, Start(r, id, sequence), next)
  {
    hide StreamOk, Permanent, TailShown;
    NewStreamOk(host, r.log, id, sequence, heard);
  }

  /** A stream leaves the renderer with at most one last write to an entry that is not settled. */
  lemma LeaveOk(host: Host, r: Renderer, id: StreamId, writes: seq<Write>, candidate: Option<Candidate>,
      heard: Heard, next: Heard)
    requires RendererOk(host, r, heard) && id in r.streams
    requires |writes| <= 1 && OwnWrites(writes, id)
    requires |writes| == 1 ==> !writes[0].Settle? && Settle(writes[0].entry) !in r.log
    requires candidate.None? || (candidate == r.candidate && candidate.value.stream != id)
    requires HeardElsewhere(heard, next, id) && next(id).started
    ensures RendererOk(host, RemoveStream(r, id).(log := r.log + writes, candidate := candidate), next)
  {
    hide Visible, Permanent, TailShown, TextKept, ShownRight;
    if |writes| == 1 {
      PermanentAfter(r.log, writes[0]);
      assert writes == [writes[0]];
    } else {
      assert r.log + writes == r.log;
    }
    OwnWritesKeepLog(r.log, writes, id, heard);
    forall other | other in r.streams && other != id
      ensures Faithful(host, r.log + writes, other, r.streams[other], next(other))
    {
      OthersUntouched(host, r.log, writes, id, other, r.streams[other]);
    }
  }

  lemma InterruptOk(host: Host, r: Renderer, id: StreamId, heard: Heard, next: Heard)
    requires RendererOk(host, r, heard) && id in r.streams
    requires HeardElsewhere(heard, next, id) && next(id).started
    ensures RendererOk(host, Interrupt(host, r, id), next)
  {
    hide Visible, Permanent, TailShown, TextKept;
    var candidate := if r.candidate.Some? && r.candidate.value.stream == id then None else r.candidate;
    LeaveOk(host, r, id, [InterruptionWrite(host, r.streams[id], id)], candidate, heard, next);
  }

  lemma FinalizeOk(host: Host, r: Renderer, text: string, heard: Heard)
    requires RendererOk(host, r, heard)
    ensures RendererOk(host, Finalize(host, r, text), heard)
  {
    hide Visible, Permanent, TailShown, TextKept;
    if r.candidate.Some? {
      var c := r.candidate.value;
      LeaveOk(host, r, c.stream, [], None, heard, heard);
      assert r.log + [] == r.log;
      if c.settledPrefix <= text {
        var complete := host.trim(host.safe(text[|c.settledPrefix|..]));
        LeaveOk(host, r, c.stream, [Replace(c.entry, "\n" + host.format(complete) + "\n\n", c.continuation)], None,
                heard, heard);
      }
    }
  }

  lemma HeardSame(host: Host, r: Renderer, a: Heard, b: Heard)
    requires RendererOk(host, r, a) && forall k :: a(k) == b(k)
    ensures RendererOk(host, r, b)
  {
    hide Faithful, Permanent, CandidateOk;
  }

  /** An accepted delta; `heard` already knows its sequence. */
  lemma DeltaOk(host: Host, r: Renderer, id: StreamId, sequence: int, delta: Delta, heard: Heard, next: Heard)
    requires HostOk(host) && RendererOk(host, r, heard) && id in r.streams && !r.streams[id].completed
    requires r.streams[id].sequence == sequence > 1
    requires HeardElsewhere(heard, next, id)
    requires next(id) == heard(id).(ended := delta.Completed? || delta.Interrupted?,
                                    text := heard(id).text + if delta.Text? then delta.text else "")
    ensures RendererOk(host, AfterDelta(host, r, id, sequence, delta), next)
  {
    hide HostOk, Faithful, LogOk, CandidateOk, FlushAll, Complete, Interrupt, TailShown;
    assert heard(id).started && !heard(id).ended by { HeardLive(host, r, id, heard); }
    assert heard(id).text + "" == heard(id).text;
    match delta
    case Phase => HeardSame(host, r, heard, next);
    case Text(text) => TextOk(host, r, id, sequence, text, heard, next);
    case ToolCall =>
      ToolCallOk(host, r, id, heard);
      HeardSame(host, AfterDelta(host, r, id, sequence, delta), heard, next);
    case Usage =>
      FlushAllOk(host, r, r.order, None, heard);
      HeardSame(host, Flushed(host, r, None), heard, next);
    case Completed(stopped) =>
      FlushAllOk(host, r, r.order, Some(id), heard);
      CompleteOk(host, Flushed(host, r, Some(id)), id, stopped, heard, next);
    case Interrupted =>
      FlushAllOk(host, r, r.order, None, heard);
      InterruptOk(host, Flushed(host, r, None), id, heard, next);
  }

  lemma HeardLive(host: Host, r: Renderer, id: StreamId, heard: Heard)
    requires RendererOk(host, r, heard) && id in r.streams
    ensures heard(id).started && heard(id).ended == r.streams[id].completed
    ensures heard(id).sequence == r.streams[id].sequence >= 1
  {
    hide ShownRight, TextKept, TailShown, LogOk;
  }

  /** A stream the renderer does not hold has ended or never started. */
  ghost predicate GoneIsOver(r: Renderer, heard: Heard) {
    forall id :: id !in r.streams ==> !heard(id).started || heard(id).ended
  }

  lemma EventOk(host: Host, r: Renderer, e: Event, heard: Heard, next: Heard)
    requires HostOk(host) && RendererOk(host, r, heard) && GoneIsOver(r, heard)
    requires e.Started? ==> !heard(e.stream).started && e.sequence >= 1
    requires forall k :: next(k) == ReadEvent(heard(k), e, k)
    ensures RendererOk(host, AfterEvent(host, r, e), next)
  {
    hide HostOk, RendererOk, FlushAll, Start, Finalize, AfterDelta;
    match e
    case Started(id, sequence) =>
      FlushAllOk(host, r, r.order, None, heard);
      StartOk(host, Flushed(host, r, None), id, sequence, heard, next);
    case FlushTimer =>
      FlushAllOk(host, r, r.order, None, heard);
      HeardSame(host, Flushed(host, r, None), heard, next);
    case Assembled(text) =>
      FinalizeOk(host, r, text, heard);
      HeardSame(host, Finalize(host, r, text), heard, next);
    case Streamed(id, sequence, delta) =>
      if id in r.streams {
        HeardLive(host, r, id, heard);
      }
      if Accepts(r, id, sequence) {
        var seen: Heard := k => if k == id then heard(k).(sequence := sequence) else heard(k);
        SequencedOk(host, r, id, sequence, heard, seen);
        DeltaOk(host, Sequenced(r, id, sequence), id, sequence, delta, seen, next);
      } else {
        HeardSame(host, r, heard, next);
      }
  }

  lemma {:induction false} FlushKeys(host: Host, r: Renderer, ids: seq<StreamId>, final: Option<StreamId>)
    ensures var after := FlushAll(host, r, ids, final);
            && after.streams.Keys == r.streams.Keys && after.candidate == r.candidate
            && forall id :: id in r.streams ==> after.streams[id].completed == r.streams[id].completed
    decreases |ids|
  {
    hide SettlesNow, LiveText, BlockText, Tail;
    if |ids| > 0 {
      var next := if ids[0] in r.streams
                  then SetStream(r, ids[0], FlushStream(host, r.streams[ids[0]], ids[0], final == Some(ids[0]))) else r;
      FlushKeys(host, next, ids[1..], final);
    }
  }

  /** Only an interruption takes its stream away; a new stream or an assembled answer takes completed ones. */
  lemma WhoLeaves(host: Host, r: Renderer, e: Event, k: StreamId)
    requires k in r.streams && k !in AfterEvent(host, r, e).streams && CandidateOk(r)
    ensures r.streams[k].completed ||
            (e.Streamed? && Accepts(r, k, e.sequence) && e.stream == k && e.delta.Interrupted?)
  {
    hide FlushAll, InterruptionWrite, SettledText, Unfinished, Without;
    FlushKeys(host, r, r.order, None);
    if e.Streamed? && Accepts(r, e.stream, e.sequence) {
      var seen := Sequenced(r, e.stream, e.sequence);
      FlushKeys(host, seen, r.order, None);
      FlushKeys(host, seen, r.order, Some(e.stream));
    }
  }

  lemma NewStreamIsHeld(host: Host, r: Renderer, e: Event)
    requires e.Started?
    ensures e.stream in AfterEvent(host, r, e).streams
  {
    hide FlushAll;
  }

  lemma GoneOk(host: Host, r: Renderer, e: Event, heard: Heard, next: Heard)
    requires RendererOk(host, r, heard) && GoneIsOver(r, heard)
    requires forall k :: next(k) == ReadEvent(heard(k), e, k)
    ensures GoneIsOver(AfterEvent(host, r, e), next)
  {
    hide StreamsOk, LogOk, AfterEvent, CandidateOk;
    if e.Started? {
      NewStreamIsHeld(host, r, e);
    }
    forall id | id !in AfterEvent(host, r, e).streams ensures !next(id).started || next(id).ended {
      if id in r.streams {
        HeardLive(host, r, id, heard);
        WhoLeaves(host, r, e, id);
      }
    }
  }

  // ---- The main results ----

  /** Every run keeps the renderer faithful to what was heard. */
  lemma {:induction false} RunOk(host: Host, events: seq<Event>)
    requires HostOk(host) && ProviderRun(events)
    ensures RendererOk(host, Run(host, events), id => Read(events, id))
    ensures GoneIsOver(Run(host, events), id => Read(events, id))
  {
    if |events| == 0 {
    } else {
      hide HostOk, RendererOk, GoneIsOver, AfterEvent, ReadEvent;
      var before := events[..|events| - 1];
      RunOk(host, before);
      EventOk(host, Run(host, before), events[|events| - 1], id => Read(before, id), id => Read(events, id));
      GoneOk(host, Run(host, before), events[|events| - 1], id => Read(before, id), id => Read(events, id));
    }
  }

  /**
   In every run the accepted deltas are the settled slices, the tail and the
   buffer; each settled slice stands in its own entry, and nothing is written to
   an entry after it was settled.
   */
  lemma NoTextLostOrRewritten(host: Host, events: seq<Event>, id: StreamId)
    requires HostOk(host) && ProviderRun(events)
    ensures Permanent(Run(host, events).log)
    ensures var r := Run(host, events);
            if id in r.streams then
              var s := r.streams[id];
              && Flatten(s.slices) + Tail(s) + Flatten(s.pending) == Read(events, id).text
              && |s.slices| == s.parts
              && forall k: nat :: k < s.parts ==>
                   && Settle(Answer(id, k)) in r.log
                   && Visible(r.log, Answer(id, k)) == Some(BlockText(host, s.slices[k]))
            else !Read(events, id).started || Read(events, id).ended
  {
    hide HostOk, Visible, Permanent, TailShown, Run;
    RunOk(host, events);
    var r := Run(host, events);
    if id in r.streams {
      var s := r.streams[id];
      assert Faithful(host, r.log, id, s, Read(events, id));
      assert SettledText(s) + Tail(s) == s.answerText;
    }
  }

  /** A completed stream shows its whole text: the settled slices and the rest of the answer. */
  lemma CompletedAnswerIsShown(host: Host, events: seq<Event>, id: StreamId)
    requires HostOk(host) && ProviderRun(events)
    requires id in Run(host, events).streams && Read(events, id).ended
    ensures var r := Run(host, events);
            var s := r.streams[id];
            && Flatten(s.slices) + Tail(s) == Read(events, id).text
            && (Read(events, id).text == "" || host.safe(Tail(s)) == "" ||
                Visible(r.log, Answer(id, s.parts)) == Some("\n" + host.format(host.safe(Tail(s)))))
  {
    hide HostOk, Visible, Permanent, Run;
    RunOk(host, events);
    var r := Run(host, events);
    var s := r.streams[id];
    assert Faithful(host, r.log, id, s, Read(events, id));
    assert SettledText(s) + Tail(s) == s.answerText;
    assert Flatten(s.pending) == "" && s.answerText + "" == s.answerText;
  }

  /** The answer candidate is a completed stream's open entry, after its settled slices. */
  lemma CandidateIsTheOpenEntry(host: Host, events: seq<Event>)
    requires HostOk(host) && ProviderRun(events) && Run(host, events).candidate.Some?
    ensures var r := Run(host, events);
            var c := r.candidate.value;
            && c.stream in r.streams && Read(events, c.stream).ended
            && c.entry == Answer(c.stream, r.streams[c.stream].parts) && Settle(c.entry) !in r.log
            && c.settledPrefix == Flatten(r.streams[c.stream].slices)
            && c.continuation == (r.streams[c.stream].parts > 0)
  {
    hide HostOk, Visible, Permanent, Run, TailShown;
    RunOk(host, events);
    var r := Run(host, events);
    var c := r.candidate.value;
    assert Faithful(host, r.log, c.stream, r.streams[c.stream], Read(events, c.stream));
  }

  /** An assembled answer that extends the settled slices by a rest that is not blank: exactly the rest is written. */
  lemma FinalizeWritesTheRest(host: Host, events: seq<Event>, c: Candidate, s: Stream, rest: string)
    requires HostOk(host) && ProviderRun(events)
    requires Run(host, events).candidate == Some(c) && c.stream in Run(host, events).streams
    requires s == Run(host, events).streams[c.stream]
    ensures var r := Run(host, events);
            var text := Flatten(s.slices) + rest;
            var complete := host.trim(host.safe(rest));
            var after := Finalize(host, r, text);
            && after.candidate.None? && Permanent(after.log)
            && Reconciled(host, r, text) == (complete != "")
            && (complete == "" ==> after.log == r.log && after.streams == r.streams)
            && (complete != "" ==>
                  && after.log == r.log +
                     [Replace(Answer(c.stream, s.parts), "\n" + host.format(complete) + "\n\n", s.parts > 0)]
                  && after.streams == r.streams - {c.stream})
            && (forall k: nat :: k < |s.slices| ==>
                  Visible(after.log, Answer(c.stream, k)) == Some(BlockText(host, s.slices[k])))
  {
    hide HostOk, Visible, Permanent, Run, TailShown, BlockText;
    CandidateIsTheOpenEntry(host, events);
    RunOk(host, events);
    var heard: Heard := id => Read(events, id);
    var r := Run(host, events);
    var text := Flatten(s.slices) + rest;
    assert text[|c.settledPrefix|..] == rest;
    FinalizeOk(host, r, text, heard);
    var after := Finalize(host, r, text);
    assert Faithful(host, r.log, c.stream, s, heard(c.stream));
    hide TextKept;
    forall k: nat | k < s.parts
      ensures Visible(after.log, Answer(c.stream, k)) == Some(BlockText(host, s.slices[k]))
    {
      VisibleAfter(r.log, Replace(c.entry, "\n" + host.format(host.trim(host.safe(rest))) + "\n\n", c.continuation),
                   Answer(c.stream, k));
    }
  }

  /** An assembled answer that does not extend the settled slices: the streamed text stands. */
  lemma FinalizeNeverRewrites(host: Host, events: seq<Event>, text: string)
    requires HostOk(host) && ProviderRun(events) && Run(host, events).candidate.Some?
    requires var r := Run(host, events);
             r.candidate.value.stream in r.streams && !(Flatten(r.streams[r.candidate.value.stream].slices) <= text)
    ensures var r := Run(host, events);
            && Finalize(host, r, text).log == r.log && Reconciled(host, r, text)
            && Finalize(host, r, text).streams == r.streams - {r.candidate.value.stream}
  {
    hide HostOk, Run;
    CandidateIsTheOpenEntry(host, events);
  }

  /** A flush keeps the text exactly when the stream is past sequence 1 or nothing is buffered. */
  lemma FlushKeepsTextIff(host: Host, s: Stream, id: StreamId, final: bool, accepted: string)
    requires HostOk(host) && TextKept(s, accepted) && !s.completed
    ensures TextKept(FlushStream(host, s, id, final).stream, accepted) <==> s.sequence > 1 || Flatten(s.pending) == ""
  {
    hide HostOk, SettlesNow, ShowTail;
    if s.sequence > 1 && (|s.pending| > 0 || (final && s.answerText != "")) {
      hide TextKept, SettleBlock, FlushStream, ApplyText;
      FlushSteps(host, s, id, final);
      FlushTextKept(host, s, id, final, accepted);
    } else if |s.pending| > 0 {
      assert Flatten<char>([]) == "";
      assert |s.answerText + Flatten(s.pending)| == |s.answerText| + |Flatten(s.pending)|;
    }
  }

  lemma FlushTextKept(host: Host, s: Stream, id: StreamId, final: bool, accepted: string)
    requires HostOk(host) && TextKept(s, accepted) && !s.completed && s.sequence > 1
    requires |s.pending| > 0 || (final && s.answerText != "")
    ensures TextKept(FlushStream(host, s, id, final).stream, accepted)
  {
    hide HostOk, SettlesNow, LiveText, SettleBlock, FlushStream, ApplyText, Flatten, SettledText;
    FlushSteps(host, s, id, final);
    var grown := Grown(s);
    assert TextKept(grown, accepted) by { GrownText(s, accepted); }
    var length := SettlesNow(host, grown, final);
    if length > 0 {
      SettlesWithin(host, grown, final);
      SettleKeepsText(host, id, grown, length, accepted);
      ShowTailText(host, SettleBlock(host, grown, id, length).stream, id, final, accepted);
    } else {
      ShowTailText(host, grown, id, final, accepted);
    }
  }

  lemma ShowTailText(host: Host, s: Stream, id: StreamId, final: bool, accepted: string)
    requires TextKept(s, accepted)
    ensures TextKept(ShowTail(host, s, id, final).stream, accepted)
  {
    hide LiveText, Flatten, TextKept;
    var t := ShowTail(host, s, id, final).stream;
    assert t.answerText + Flatten(t.pending) == accepted by { TextKeptParts(s, accepted); }
    TextSame(s, t, accepted, accepted);
  }

  lemma TextKeptParts(s: Stream, accepted: string)
    requires TextKept(s, accepted)
    ensures s.answerText + Flatten(s.pending) == accepted
  {}

  lemma GrownText(s: Stream, accepted: string)
    requires TextKept(s, accepted)
    ensures TextKept(Grown(s), accepted)
  {
    var grown := Grown(s);
    assert s.answerText[..s.settledChars] == grown.answerText[..s.settledChars];
    assert Flatten<char>([]) == "" && grown.answerText + "" == grown.answerText;
  }

  /** A stream started at sequence 0 loses its first delta. */
  lemma StartingAtZeroLosesText(host: Host, id: StreamId, text: string)
    requires text != ""
    ensures var events := [Started(id, 0), Streamed(id, 1, Text(text)), FlushTimer];
            var r := Run(host, events);
            && id in r.streams && Read(events, id).text == text
            && r.streams[id].slices == [] && Tail(r.streams[id]) == "" && r.streams[id].pending == []
  {
    var start := Started(id, 0);
    var delta := Streamed(id, 1, Text(text));
    var events := [start, delta, FlushTimer];
    assert events[..2] == [start, delta] && [start, delta][..1] == [start] && [start][..0] == [];
    var r0 := AfterEvent(host, Run(host, []), start);
    assert Run(host, [start]) == r0 && r0.streams == map[id := NEW_STREAM] && r0.order == [id];
    var r1 := AfterEvent(host, r0, delta);
    assert Run(host, [start, delta]) == r1;
    assert Flatten([text]) == text + Flatten<char>([]) == text;
    assert FlushAll(host, r1, [id], None) ==
             FlushAll(host, SetStream(r1, id, FlushStream(host, r1.streams[id], id, false)), [], None);
    assert Read([start], id) == Reading(true, false, 0, "") && Read([start, delta], id).text == "" + text;
  }

  // ---- The renderer as written ----

  lemma SetTwice(r: Renderer, id: StreamId, s: Stream, e: Effect)
    requires id in r.streams
    ensures SetStream(r.(streams := r.streams[id := s]), id, e) == SetStream(r, id, e)
  {
    assert r.streams[id := s][id := e.stream] == r.streams[id := e.stream];
  }

  lemma SetAgain(r: Renderer, id: StreamId, a: Effect, b: Effect)
    requires id in r.streams
    ensures SetStream(SetStream(r, id, a), id, b) == SetStream(r, id, Effect(b.stream, a.writes + b.writes))
  {
    assert r.streams[id := a.stream][id := b.stream] == r.streams[id := b.stream];
    assert r.log + a.writes + b.writes == r.log + (a.writes + b.writes);
  }

  lemma SetNothing(r: Renderer, id: StreamId)
    requires id in r.streams
    ensures SetStream(r, id, Effect(r.streams[id], [])) == r
  {
    assert r.streams[id := r.streams[id]] == r.streams && r.log + [] == r.log;
  }

  class ModelStreamRenderer {
    const host: Host
    var streams: map<StreamId, Stream>
    var order: seq<StreamId>
    var candidate: Option<Candidate>
    /** The calls made on the transcript. */
    var log: seq<Write>

    constructor (host: Host)
      ensures this.host == host && State() == Renderer(map[], [], None, [])
    {
      this.host := host;
      streams, order, candidate, log := map[], [], None, [];
    }

    ghost function State(): Renderer
      reads this
    {
      Renderer(streams, order, candidate, log)
    }

    method WriteAnswerEntry(id: StreamId, text: string)
      requires id in streams
      modifies this`streams, this`log
      ensures State() == SetStream(old(State()), id, WriteAnswer(old(streams[id]), id, text))
    {
      var s := streams[id];
      var entry := if s.entry.Some? then s.entry.value else Answer(id, s.parts);
      if s.entry.Some? {
        log := log + [Replace(entry, text, s.parts > 0)];
        assert streams == streams[id := s];
      } else {
        streams := streams[id := s.(entry := Some(entry))];
        log := log + [Commit(entry, text, s.parts > 0)];
      }
    }

    method SettleFinishedBlocks(id: StreamId, final: bool) returns (settled: bool)
      requires id in streams
      modifies this`streams, this`log
      ensures var s := old(streams[id]);
              var length := SettlesNow(host, s, final);
              && settled == (length > 0)
              && State() == if length > 0 then SetStream(old(State()), id, SettleBlock(host, s, id, length))
                            else old(State())
    {
      var s := streams[id];
      if !host.settlesEntries || final {
        return false;
      }
      var pending := Tail(s);
      var length := host.settledLength(pending);
      if length == 0 {
        return false;
      }
      var slice := Prefix(pending, length);
      var finished := host.trim(host.safe(slice));
      if finished == "" {
        return false;
      }
      WriteAnswerEntry(id, "\n" + host.format(finished));
      var written := streams[id];
      log := log + [Settle(written.entry.value)];
      streams := streams[id := written.(settledChars := written.settledChars + length, parts := written.parts + 1,
                                        entry := None, rendered := None, slices := written.slices + [slice])];
      return true;
    }

    /** Show what is not settled yet. */
    method ShowUnsettled(id: StreamId, final: bool)
      requires id in streams
      modifies this`streams, this`log
      ensures State() == SetStream(old(State()), id, ShowTail(host, old(streams[id]), id, final))
    {
      hide LiveText, Tail;
      var s := streams[id];
      var safe := LiveText(host, Tail(s), final);
      if safe == "" || Some(safe) == s.rendered {
        SetNothing(State(), id);
        return;
      }
      streams := streams[id := s.(rendered := Some(safe))];
      SetTwice(old(State()), id, s.(rendered := Some(safe)),
               WriteAnswer(s.(rendered := Some(safe)), id, "\n" + host.format(safe)));
      WriteAnswerEntry(id, "\n" + host.format(safe));
    }

    method ApplyTextDelta(id: StreamId, text: string, final: bool)
      requires id in streams
      modifies this`streams, this`log
      ensures State() == SetStream(old(State()), id, ApplyText(host, old(streams[id]), id, text, final))
    {
      hide SettlesNow, SettleBlock, ShowTail, LiveText, Tail;
      ghost var before := State();
      var s := streams[id];
      if s.sequence <= 1 {
        SetNothing(before, id);
        return;
      }
      var previewWasFull := |s.answerText| - s.settledChars > host.previewMax;
      var grown := s.(answerText := s.answerText + text);
      streams := streams[id := grown];
      SetNothing(State(), id);
      var settled := SettleFinishedBlocks(id, final);
      ghost var block := if settled then SettleBlock(host, grown, id, SettlesNow(host, grown, final))
                         else Effect(grown, []);
      SetTwice(before, id, grown, block);
      if !settled && previewWasFull && streams[id].rendered.Some? && !final {
        return;
      }
      SetAgain(before, id, block, ShowTail(host, block.stream, id, final));
      ShowUnsettled(id, final);
    }

    method Flush(final: Option<StreamId>)
      modifies this`streams, this`log
      ensures State() == Flushed(host, old(State()), final)
    {
      hide ApplyText, SetStream;
      var rest := order;
      while |rest| > 0
        invariant FlushAll(host, State(), rest, final) == Flushed(host, old(State()), final)
        invariant order == old(order) && candidate == old(candidate)
        decreases |rest|
      {
        var id := rest[0];
        ghost var before := State();
        if id in streams {
          var s := streams[id];
          if !s.completed && (s.pending != [] || (final == Some(id) && s.answerText != "")) {
            streams := streams[id := s.(pending := [])];
            ApplyTextDelta(id, Flatten(s.pending), final == Some(id));
            SetTwice(before, id, s.(pending := []), FlushStream(host, s, id, final == Some(id)));
          } else {
            SetNothing(before, id);
          }
        }
        rest := rest[1..];
      }
    }

    method ApplyInterrupted(id: StreamId)
      requires id in streams
      modifies this
      ensures State() == Interrupt(host, old(State()), id)
    {
      var s := streams[id];
      var message := if s.toolCallSeen then INTERRUPTED_CALLS else INTERRUPTED_ANSWER;
      if s.entry.Some? {
        var shown := if s.rendered.Some? then s.rendered.value else "";
        log := log + [Replace(s.entry.value, "\n" + host.format(shown + "\n" + message) + "\n", s.parts > 0)];
      } else {
        log := log + [Commit(Notice(id), message + "\n", false)];
      }
      streams, order := streams - {id}, Without(order, id);
      if candidate.Some? && candidate.value.stream == id {
        candidate := None;
      }
    }

    method OnEvent(e: Event)
      requires !e.Assembled?
      modifies this
      ensures State() == AfterEvent(host, old(State()), e)
    {
      match e
      case FlushTimer => Flush(None);
      case Assembled(_) =>
      case Started(id, sequence) =>
        Flush(None);
        var kept := map k | k in streams && !streams[k].completed :: streams[k];
        var ids := Unfinished(order, streams);
        candidate := None;
        streams := kept[id := NEW_STREAM.(sequence := sequence)];
        order := if id in ids then ids else ids + [id];
      case Streamed(id, sequence, delta) =>
        if id !in streams || streams[id].completed || sequence <= streams[id].sequence {
          return;
        }
        streams := streams[id := streams[id].(sequence := sequence)];
        match delta {
          case Phase =>
          case Text(text) =>
            streams := streams[id := streams[id].(pending := streams[id].pending + [text])];
          case ToolCall =>
            if sequence > 1 {
              streams := streams[id := streams[id].(toolCallSeen := true)];
            }
          case Usage => Flush(None);
          case Completed(stopped) =>
            Flush(Some(id));
            if id in streams && sequence > 1 {
              var s := streams[id];
              streams := streams[id := s.(completed := true)];
              if !s.toolCallSeen && s.entry.Some? && stopped {
                candidate := Some(Candidate(id, s.entry.value, SettledText(s), s.parts > 0));
              }
            }
          case Interrupted =>
            Flush(None);
            if id in streams && sequence > 1 {
              ApplyInterrupted(id);
            }
        }
    }

    method FinalizeAnswer(text: string) returns (reconciled: bool)
      modifies this
      ensures State() == Finalize(host, old(State()), text)
      ensures reconciled == Reconciled(host, old(State()), text)
    {
      var found := candidate;
      candidate := None;
      if found.None? {
        return false;
      }
      var c := found.value;
      if !(c.settledPrefix <= text) {
        streams, order := streams - {c.stream}, Without(order, c.stream);
        return true;
      }
      var complete := host.trim(host.safe(text[|c.settledPrefix|..]));
      if complete == "" {
        return false;
      }
      log := log + [Replace(c.entry, "\n" + host.format(complete) + "\n\n", c.continuation)];
      streams, order := streams - {c.stream}, Without(order, c.stream);
      return true;
    }
  }
}
