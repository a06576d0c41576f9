/**
 The private input frames sent by the bundled editor extension, and the filter
 that swallows them while a modal owns stdin (src/cli/prompt-input.ts).
 */
module PrivateOsc {
  import opened Common

  type Byte = bv8

  const ESCAPE: Byte := 0x1b
  const CTRL_C: Byte := 0x03
  const OSC_BEL: Byte := 0x07
  const MAX_PRIVATE_OSC_BYTES := 160

  /** ESC ] 6973;easy-code; */
  function PrivateOscPrefix(): (prefix: seq<Byte>)
    ensures |prefix| == 17 && prefix[0] == ESCAPE && prefix[1] == 0x5d
  {
    [0x1b, 0x5d, 0x36, 0x39, 0x37, 0x33, 0x3b, 0x65, 0x61, 0x73, 0x79, 0x2d, 0x63, 0x6f, 0x64, 0x65, 0x3b]
  }

  /** paste-image */
  function PasteImagePayload(): seq<Byte> {
    [0x70, 0x61, 0x73, 0x74, 0x65, 0x2d, 0x69, 0x6d, 0x61, 0x67, 0x65]
  }

  datatype Action = PasteImage | Ignore

  datatype Parse = NoFrame | Partial | Complete(length: nat, action: Action)

  function FindByte(s: seq<Byte>, x: Byte, from: nat): (r: int)
    ensures r == -1 || (from <= r < |s| && s[r] == x)
    ensures forall i :: from <= i < |s| && (r == -1 || i < r) ==> s[i] != x
    decreases |s| - from
  {
    if from >= |s| then -1 else if s[from] == x then from else FindByte(s, x, from + 1)
  }

  /** Where the first BEL after the prefix is, or -1. */
  function Terminator(tail: seq<Byte>): (r: int)
    ensures r == -1 || (17 <= r < |tail| && tail[r] == OSC_BEL)
    ensures forall i :: 17 <= i < |tail| && (r == -1 || i < r) ==> tail[i] != OSC_BEL
  {
    FindByte(tail, OSC_BEL, 17)
  }

  /** Read a private frame at the start of `tail`. */
  function ParsePrivateOsc(tail: seq<Byte>): (r: Parse)
    ensures r.Complete? ==> 17 < r.length <= |tail|
    ensures r.Partial? ==> |tail| <= MAX_PRIVATE_OSC_BYTES
  {
    var compared := Min(|tail|, |PrivateOscPrefix()|);
    if tail[..compared] != PrivateOscPrefix()[..compared] then NoFrame
    else if |tail| < |PrivateOscPrefix()| then Partial
    else
      var terminator := Terminator(tail);
      if terminator == -1 then
        if |tail| <= MAX_PRIVATE_OSC_BYTES then Partial else Complete(|tail|, Ignore)
      else
        var length := terminator + 1;
        if length > MAX_PRIVATE_OSC_BYTES then Complete(length, Ignore)
        else if tail[|PrivateOscPrefix()|..terminator] == PasteImagePayload() then Complete(length, PasteImage)
        else Complete(length, Ignore)
  }

  /** ESC ] */
  predicate IsOscStart(tail: seq<Byte>) {
    |tail| >= 2 && tail[0] == ESCAPE && tail[1] == 0x5d
  }

  /** `tail` begins with the whole prefix, or is cut off inside it. */
  predicate LooksLikeFrame(tail: seq<Byte>) {
    Compatible(tail, PrivateOscPrefix())
  }

  lemma ParseIsNoFrame(tail: seq<Byte>)
    ensures ParsePrivateOsc(tail).NoFrame? <==> !LooksLikeFrame(tail)
  {
    var compared := Min(|tail|, |PrivateOscPrefix()|);
    if |tail| < |PrivateOscPrefix()| {
      assert tail[..compared] == tail;
    } else {
      assert PrivateOscPrefix()[..compared] == PrivateOscPrefix();
    }
  }

  /** A frame that any cutting of the stream treats alike: closed soon, or too short to have been given up. */
  predicate FrameCloses(tail: seq<Byte>) {
    var t := Terminator(tail);
    (t != -1 && t <= MAX_PRIVATE_OSC_BYTES) || |tail| <= MAX_PRIVATE_OSC_BYTES + 1
  }

  /** A longer tail has the same terminator once there is one. */
  lemma TerminatorStable(a: seq<Byte>, b: seq<Byte>)
    ensures Terminator(a) != -1 ==> Terminator(a + b) == Terminator(a)
    ensures Terminator(a) == -1 && Terminator(a + b) != -1 ==> |a| <= Terminator(a + b)
  {
    var t, u := Terminator(a), Terminator(a + b);
    assert forall i :: 0 <= i < |a| ==> (a + b)[i] == a[i];
  }

  lemma LooksLikeFrameStable(a: seq<Byte>, b: seq<Byte>)
    ensures !LooksLikeFrame(a) ==> !LooksLikeFrame(a + b)
    ensures |PrivateOscPrefix()| <= |a| ==> LooksLikeFrame(a) == LooksLikeFrame(a + b)
  {
    CompatibleStable(a, b, PrivateOscPrefix());
  }

  /** A decided parse does not change when more bytes arrive, unless an open frame was given up. */
  lemma ParseStable(a: seq<Byte>, b: seq<Byte>)
    requires !ParsePrivateOsc(a).Partial?
    requires ParsePrivateOsc(a).Complete? ==> Terminator(a) != -1
    ensures ParsePrivateOsc(a + b) == ParsePrivateOsc(a)
  {
    ParseIsNoFrame(a);
    ParseIsNoFrame(a + b);
    LooksLikeFrameStable(a, b);
    if ParsePrivateOsc(a).Complete? {
      TerminatorStable(a, b);
      var t := Terminator(a);
      assert (a + b)[17..t] == a[17..t];
    }
  }

  // ---- The filter on one uncut stream ----

  datatype Filtered = Filtered(output: seq<Byte>, held: seq<Byte>)

  /** What the filter does at a byte: drop a frame, hold an unfinished one, or pass the byte on. */
  datatype Step = Drop(length: nat) | Hold | Pass

  function NextStep(input: seq<Byte>): (r: Step)
    requires input != []
    ensures r.Drop? ==> 0 < r.length <= |input|
  {
    if input[0] != ESCAPE then Pass
    else match ParsePrivateOsc(input)
      case Complete(n, _) => Drop(n)
      case Partial => Hold
      case NoFrame => Pass
  }

  /** The bytes passed on, and the unfinished frame kept back. */
  function Filter(input: seq<Byte>): Filtered {
    if input == [] then Filtered([], [])
    else match NextStep(input)
      case Drop(n) => Filter(input[n..])
      case Hold => Filtered([], input)
      case Pass =>
        var rest := Filter(input[1..]);
        Filtered([input[0]] + rest.output, rest.held)
  }

  /** Reading `b` after `f` was produced. */
  function Then(f: Filtered, b: seq<Byte>): Filtered {
    var next := Filter(f.held + b);
    Filtered(f.output + next.output, next.held)
  }

  /** Cut streams: each chunk is read behind the bytes held before it. */
  function FilterChunks(held: seq<Byte>, chunks: seq<seq<Byte>>): Filtered
    decreases |chunks|
  {
    if |chunks| == 0 then Filtered([], held)
    else
      var first := Filter(held + chunks[0]);
      var rest := FilterChunks(first.held, chunks[1..]);
      Filtered(first.output + rest.output, rest.held)
  }

  /** Every frame the filter meets in `input` closes in time. */
  predicate FramesClose(input: seq<Byte>) {
    if input == [] then true
    else match NextStep(input)
      case Drop(n) => FrameCloses(input) && FramesClose(input[n..])
      case Hold => true
      case Pass => FramesClose(input[1..])
  }

  /** A frame dropped without a BEL: the filter gave up waiting. */
  predicate GivenUp(input: seq<Byte>)
    requires input != []
  {
    NextStep(input).Drop? && Terminator(input) == -1
  }

  lemma StepStable(a: seq<Byte>, b: seq<Byte>)
    requires a != [] && !NextStep(a).Hold? && !GivenUp(a)
    ensures NextStep(a + b) == NextStep(a)
    ensures NextStep(a).Drop? ==> (FrameCloses(a + b) <==> Terminator(a) <= MAX_PRIVATE_OSC_BYTES)
  {
    if a[0] == ESCAPE {
      ParseStable(a, b);
      TerminatorStable(a, b);
    }
  }

  /** Once a frame was given up, every longer stream is dropped at least as far. */
  lemma GivenUpStable(a: seq<Byte>, b: seq<Byte>)
    requires a != [] && GivenUp(a)
    ensures |a| > MAX_PRIVATE_OSC_BYTES && NextStep(a) == Drop(|a|)
    ensures NextStep(a + b) == Drop(if Terminator(a + b) == -1 then |a + b| else Terminator(a + b) + 1)
    ensures FrameCloses(a + b) ==> b == [] && |a| == MAX_PRIVATE_OSC_BYTES + 1
  {
    TerminatorStable(a, b);
    ParseIsNoFrame(a);
    ParseIsNoFrame(a + b);
    LooksLikeFrameStable(a, b);
  }

  function StepLength(input: seq<Byte>): (n: nat)
    requires input != [] && !NextStep(input).Hold?
    ensures 0 < n <= |input|
  {
    match NextStep(input) case Drop(n) => n case Pass => 1
  }

  lemma {:induction false} TwoChunks(a: seq<Byte>, b: seq<Byte>)
    requires FramesClose(a + b)
    ensures Filter(a + b) == Then(Filter(a), b)
    ensures FramesClose(Filter(a).held + b)
    decreases |a|
  {
    hide NextStep, FrameCloses, GivenUp;
    if a == [] {
      assert a + b == b && [] + b == b;
    } else if NextStep(a).Hold? {
    } else if GivenUp(a) {
      GivenUpStable(a, b);
      assert a + b == a && a[|a|..] == [];
    } else {
      StepStable(a, b);
      var n := StepLength(a);
      assert (a + b)[n..] == a[n..] + b;
      TwoChunks(a[n..], b);
    }
  }

  /** What the filter keeps back it would keep back again. */
  lemma {:induction false} HeldIsStable(input: seq<Byte>)
    ensures Filter(Filter(input).held) == Filtered([], Filter(input).held)
    ensures Filter(input).held != [] ==> NextStep(Filter(input).held).Hold?
    decreases |input|
  {
    hide NextStep;
    if input != [] && !NextStep(input).Hold? {
      HeldIsStable(input[StepLength(input)..]);
    }
  }

  lemma {:induction false} ChunksFromHeld(held: seq<Byte>, chunks: seq<seq<Byte>>)
    requires FramesClose(held + Flatten(chunks))
    requires Filter(held) == Filtered([], held)
    ensures FilterChunks(held, chunks) == Filter(held + Flatten(chunks))
    decreases |chunks|
  {
    if chunks == [] {
      assert held + [] == held;
    } else {
      var a, b := held + chunks[0], Flatten(chunks[1..]);
      assert a + b == held + Flatten(chunks);
      TwoChunks(a, b);
      HeldIsStable(a);
      ChunksFromHeld(Filter(a).held, chunks[1..]);
    }
  }

  // ---- The exact condition for chunk independence ----

  ghost predicate ChunkIndependent(input: seq<Byte>) {
    forall chunks: seq<seq<Byte>> :: Flatten(chunks) == input ==> FilterChunks([], chunks) == Filter(input)
  }

  /** Where an overlong frame shows: cut just before its last byte. */
  lemma {:induction false} RevealingCut(input: seq<Byte>) returns (a: seq<Byte>, b: seq<Byte>)
    requires !FramesClose(input)
    ensures input == a + b && |a| > MAX_PRIVATE_OSC_BYTES
    ensures Filter(input) != Then(Filter(a), b)
    decreases |input|
  {
    hide NextStep, FrameCloses, GivenUp;
    var n := StepLength(input);
    if NextStep(input).Drop? && !FrameCloses(input) {
      a, b := input[..n - 1], input[n - 1..];
      assert input == a + b;
      CutInsideFrame(a, b);
    } else {
      var a', b' := RevealingCut(input[n..]);
      a, b := input[..n] + a', b';
      assert input == a + b;
      assert a[n..] == a' && input[n..] == a' + b';
      HeadDecided(a, b);
      hide Filter, FramesClose;
      FirstStep(input);
      FirstStep(a);
      var passed := if NextStep(input).Pass? then [input[0]] else [];
      assert Then(Filter(a), b).output == passed + Then(Filter(a'), b').output;
      SamePrefix(passed, Filter(input[n..]).output, Then(Filter(a'), b').output);
    }
  }

  /** The filter is its first step and the filter on the rest. */
  lemma FirstStep(input: seq<Byte>)
    requires input != [] && !NextStep(input).Hold?
    ensures var rest := Filter(input[StepLength(input)..]);
            Filter(input) == Filtered((if NextStep(input).Pass? then [input[0]] else []) + rest.output, rest.held)
  {
    hide NextStep;
  }

  /** A long first chunk takes its first step as the whole stream does. */
  lemma HeadDecided(a: seq<Byte>, b: seq<Byte>)
    requires |a| > MAX_PRIVATE_OSC_BYTES
    requires NextStep(a + b).Drop? ==> NextStep(a + b).length < |a|
    ensures NextStep(a) == NextStep(a + b)
  {
    if GivenUp(a) {
      GivenUpStable(a, b);
      TerminatorStable(a, b);
    } else {
      StepStable(a, b);
    }
  }

  /** All but the last byte of an overlong frame is given up. */
  lemma GivenUpBeforeItsEnd(a: seq<Byte>, b: seq<Byte>)
    requires a + b != [] && b != [] && NextStep(a + b) == Drop(|a| + 1) && !FrameCloses(a + b)
    ensures |a| > MAX_PRIVATE_OSC_BYTES && NextStep(a) == Drop(|a|)
    ensures if Terminator(a + b) == -1 then |b| == 1 else b[0] == OSC_BEL
  {
    var s := a + b;
    var t := Terminator(s);
    assert t == -1 || t == |a|;
    TerminatorStable(a, b);
    hide Terminator, LooksLikeFrame;
    ParseIsNoFrame(s);
    ParseIsNoFrame(a);
    LooksLikeFrameStable(a, b);
    assert s[|a|] == b[0];
  }

  lemma AllDropped(input: seq<Byte>)
    requires input != [] && NextStep(input) == Drop(|input|)
    ensures Filter(input) == Filtered([], [])
  {
    hide NextStep;
    assert input[|input|..] == [];
  }

  lemma DroppedInto(a: seq<Byte>, b: seq<Byte>)
    requires a + b != [] && b != [] && NextStep(a + b) == Drop(|a| + 1)
    ensures Filter(a + b) == Filter(b[1..])
  {
    hide NextStep;
    assert (a + b)[|a| + 1..] == b[1..];
  }

  lemma FromNothing(b: seq<Byte>)
    ensures Then(Filtered([], []), b) == Filter(b)
  {
    hide Filter;
    assert [] + b == b;
  }

  /** A last byte counts, and so does a control byte that opens no frame. */
  lemma FirstByteCounts(b: seq<Byte>)
    requires b != [] && (|b| == 1 || b[0] == OSC_BEL)
    ensures Filter(b) != Filter(b[1..])
  {
    if |b| == 1 {
      ParseIsNoFrame(b);
      assert b[1..] == [];
    } else {
      assert |Filter(b).output| == 1 + |Filter(b[1..]).output|;
    }
  }

  lemma CutInsideFrame(a: seq<Byte>, b: seq<Byte>)
    requires a + b != [] && b != [] && NextStep(a + b) == Drop(|a| + 1) && !FrameCloses(a + b)
    ensures |a| > MAX_PRIVATE_OSC_BYTES
    ensures Filter(a + b) != Then(Filter(a), b)
  {
    GivenUpBeforeItsEnd(a, b);
    hide *;
    AllDropped(a);
    DroppedInto(a, b);
    FirstByteCounts(b);
    FromNothing(b);
  }

  /**
   Cutting the stream never matters exactly when every frame met has its BEL
   among its first 161 bytes, or the stream ends within those bytes.
   */
  lemma {:induction false} ChunkIndependenceIsExact(input: seq<Byte>)
    ensures ChunkIndependent(input) <==> FramesClose(input)
  {
    if FramesClose(input) {
      forall chunks: seq<seq<Byte>> | Flatten(chunks) == input
        ensures FilterChunks([], chunks) == Filter(input)
      {
        assert [] + Flatten(chunks) == input;
        ChunksFromHeld([], chunks);
      }
    } else {
      var a, b := RevealingCut(input);
      TwoChunkRun(a, b);
      assert Flatten([a, b]) == input;
    }
  }

  lemma TwoChunkRun(a: seq<Byte>, b: seq<Byte>)
    ensures Flatten([a, b]) == a + b
    ensures FilterChunks([], [a, b]) == Then(Filter(a), b)
  {
    var chunks := [a, b];
    assert chunks[1..] == [b] && chunks[1..][1..] == [];
    assert Flatten(chunks[1..]) == b;
    assert [] + a == a;
    assert FilterChunks(Filter(a).held, chunks[1..]).output == Filter(Filter(a).held + b).output;
  }

  /** The 162nd byte of a frame without a BEL before it shows where the stream was cut. */
  lemma LongFrameShowsTheCut(body: seq<Byte>, next: Byte)
    requires |body| == 144 && OSC_BEL !in body
    ensures !ChunkIndependent(PrivateOscPrefix() + body + [next])
  {
    var input := PrivateOscPrefix() + body + [next];
    hide PrivateOscPrefix;
    assert input[..17] == PrivateOscPrefix();
    ParseIsNoFrame(input);
    forall i | 17 <= i < 161 ensures input[i] != OSC_BEL { assert input[i] == body[i - 17]; }
    assert !FrameCloses(input);
    ChunkIndependenceIsExact(input);
  }

  // ---- The output is the input with exactly the private frames removed ----

  datatype Item = Plain(byte: Byte) | Frame(bytes: seq<Byte>)

  function Render(items: seq<Item>): seq<Byte> {
    if |items| == 0 then []
    else (match items[0] case Plain(b) => [b] case Frame(f) => f) + Render(items[1..])
  }

  function PlainBytes(items: seq<Item>): seq<Byte> {
    if |items| == 0 then []
    else (match items[0] case Plain(b) => [b] case Frame(f) => []) + PlainBytes(items[1..])
  }

  /** The prefix, a body without BEL, and the closing BEL. */
  predicate IsFrame(f: seq<Byte>) {
    PrivateOscPrefix() <= f && Terminator(f) == |f| - 1
  }

  /** The start of a frame whose end is still to come. */
  predicate Unfinished(f: seq<Byte>) {
    LooksLikeFrame(f) && Terminator(f) == -1
  }

  /**
   `items` followed by `held` is a reading of a stream: every plain byte stands
   where no frame starts, frames run to their BEL, and `held` is an unfinished
   frame. An unfinished frame over the limit at the very end counts as a frame.
   */
  predicate Lexed(items: seq<Item>, held: seq<Byte>) {
    if |items| == 0 then held == [] || (Unfinished(held) && |held| <= MAX_PRIVATE_OSC_BYTES)
    else match items[0]
      case Plain(b) => !LooksLikeFrame(Render(items) + held) && Lexed(items[1..], held)
      case Frame(f) =>
        || (IsFrame(f) && Lexed(items[1..], held))
        || (Unfinished(f) && |f| > MAX_PRIVATE_OSC_BYTES && |items| == 1 && held == [])
  }

  lemma FrameStep(f: seq<Byte>, rest: seq<Byte>)
    requires IsFrame(f)
    ensures f + rest != [] && NextStep(f + rest) == Drop(|f|)
  {
    ParseIsNoFrame(f);
    TerminatorStable(f, rest);
    LooksLikeFrameStable(f, rest);
    ParseIsNoFrame(f + rest);
  }

  lemma UnfinishedStep(f: seq<Byte>)
    requires Unfinished(f) && f != []
    ensures NextStep(f) == if |f| <= MAX_PRIVATE_OSC_BYTES then Hold else Drop(|f|)
  {
    ParseIsNoFrame(f);
  }

  lemma PlainStep(s: seq<Byte>)
    requires s != []
    ensures !LooksLikeFrame(s) ==> NextStep(s) == Pass
    ensures NextStep(s) == Pass ==> !LooksLikeFrame(s)
  {
    ParseIsNoFrame(s);
  }

  lemma StepOfReading(items: seq<Item>, held: seq<Byte>)
    requires Lexed(items, held) && Render(items) + held != []
    ensures var s := Render(items) + held;
            NextStep(s) == if |items| == 0 then Hold
                           else match items[0] case Plain(_) => Pass case Frame(f) => Drop(|f|)
  {
    hide LooksLikeFrame, Terminator, NextStep;
    var s := Render(items) + held;
    if |items| == 0 {
      assert s == held;
      UnfinishedStep(held);
    } else if items[0].Plain? {
      PlainStep(s);
    } else {
      var f := items[0].bytes;
      assert s == f + (Render(items[1..]) + held);
      if IsFrame(f) {
        FrameStep(f, Render(items[1..]) + held);
      } else {
        assert s == f;
        UnfinishedStep(f);
      }
    }
  }

  /** Whatever the reading of the stream, the filter passes on its plain bytes and holds its end. */
  lemma {:induction false} FilterRemovesExactlyTheFrames(items: seq<Item>, held: seq<Byte>)
    requires Lexed(items, held)
    ensures Filter(Render(items) + held) == Filtered(PlainBytes(items), held)
    decreases |items|
  {
    hide NextStep, LooksLikeFrame, Terminator;
    var s := Render(items) + held;
    if |items| == 0 {
      assert s == held;
      if held != [] { StepOfReading(items, held); }
    } else {
      StepOfReading(items, held) by { assert s != [] by { ReadingNotEmpty(items, held); } }
      var item := match items[0] case Plain(b) => [b] case Frame(f) => f;
      assert s == item + (Render(items[1..]) + held);
      assert s[|item|..] == Render(items[1..]) + held;
      if items[0].Frame? && !IsFrame(items[0].bytes) {
        assert s[|item|..] == [] && items[1..] == [];
      } else {
        FilterRemovesExactlyTheFrames(items[1..], held);
      }
    }
  }

  lemma ReadingNotEmpty(items: seq<Item>, held: seq<Byte>)
    requires Lexed(items, held) && |items| > 0
    ensures Render(items) + held != []
  {
  }

  lemma EmptyReading(items: seq<Item>, held: seq<Byte>)
    requires Lexed(items, held) && Render(items) + held == []
    ensures |items| == 0
  {
  }

  /** Every stream has such a reading, ending in what the filter holds. */
  lemma {:induction false} EveryStreamHasAReading(input: seq<Byte>) returns (items: seq<Item>)
    ensures Lexed(items, Filter(input).held)
    ensures Render(items) + Filter(input).held == input
    decreases |input|
  {
    hide LooksLikeFrame, Terminator, NextStep;
    items := [];
    if input != [] {
      if NextStep(input).Hold? {
        HeldIsUnfinished(input);
        assert Render(items) + input == input;
      } else {
        var n := StepLength(input);
        var tail := EveryStreamHasAReading(input[n..]);
        var first := if NextStep(input).Pass? then Plain(input[0]) else Frame(input[..n]);
        items := [first] + tail;
        assert items[1..] == tail;
        var held := Filter(input).held;
        assert Render(items) + held == input[..n] + (Render(tail) + held) == input;
        if first.Plain? {
          PlainStep(input);
        } else {
          FirstFrame(input, n);
          if !IsFrame(first.bytes) {
            assert input[n..] == [];
            EmptyReading(tail, held);
          }
        }
      }
    }
  }

  lemma HeldIsUnfinished(input: seq<Byte>)
    requires input != [] && NextStep(input).Hold?
    ensures Unfinished(input) && |input| <= MAX_PRIVATE_OSC_BYTES
  {
    ParseIsNoFrame(input);
  }

  lemma FirstFrame(input: seq<Byte>, n: nat)
    requires input != [] && NextStep(input) == Drop(n)
    ensures IsFrame(input[..n]) || (Unfinished(input[..n]) && n > MAX_PRIVATE_OSC_BYTES && n == |input|)
  {
    ParseIsNoFrame(input);
    var f := input[..n];
    assert f + input[n..] == input;
    LooksLikeFrameStable(f, input[n..]);
    TerminatorStable(f, input[n..]);
  }

  // ---- The stream class ----

  function Interrupts(output: seq<Byte>): nat {
    if |output| == 0 then 0
    else Interrupts(output[..|output| - 1]) + (if output[|output| - 1] == CTRL_C then 1 else 0)
  }

  /** `output` is what the filter makes of the first `offset` bytes. */
  ghost predicate ReadUpTo(input: seq<Byte>, output: seq<Byte>, offset: nat)
    requires offset <= |input|
  {
    var rest := Filter(input[offset..]);
    Filter(input) == Filtered(output + rest.output, rest.held)
  }

  lemma ReadDrop(input: seq<Byte>, output: seq<Byte>, offset: nat, n: nat)
    requires offset < |input| && ReadUpTo(input, output, offset)
    requires NextStep(input[offset..]) == Drop(n)
    ensures ReadUpTo(input, output, offset + n)
  {
    hide NextStep;
    assert input[offset..][n..] == input[offset + n..];
  }

  lemma ReadHold(input: seq<Byte>, output: seq<Byte>, offset: nat)
    requires offset < |input| && ReadUpTo(input, output, offset)
    requires NextStep(input[offset..]) == Hold
    ensures Filter(input) == Filtered(output, input[offset..])
    ensures Filter(input[offset..]) == Filtered([], input[offset..])
  {
    hide NextStep;
    assert output + [] == output;
  }

  lemma ReadPass(input: seq<Byte>, output: seq<Byte>, offset: nat)
    requires offset < |input| && ReadUpTo(input, output, offset)
    requires NextStep(input[offset..]) == Pass
    ensures ReadUpTo(input, output + [input[offset]], offset + 1)
  {
    hide NextStep;
    assert input[offset..][1..] == input[offset + 1..];
    var rest := Filter(input[offset + 1..]).output;
    assert output + ([input[offset]] + rest) == (output + [input[offset]]) + rest;
  }

  lemma ReadAll(input: seq<Byte>, output: seq<Byte>)
    requires ReadUpTo(input, output, |input|)
    ensures Filter(input) == Filtered(output, [])
  {
    assert input[|input|..] == [] && output + [] == output;
  }

  lemma InterruptsOfOneMore(output: seq<Byte>, byte: Byte)
    ensures Interrupts(output + [byte]) == Interrupts(output) + (if byte == CTRL_C then 1 else 0)
  {
    assert (output + [byte])[..|output|] == output;
  }

  /** The byte loop of the filter: what goes out, what is kept back, and how often Ctrl+C passed. */
  method ReadInput(input: seq<Byte>) returns (output: seq<Byte>, held: seq<Byte>, calls: nat)
    ensures Filter(input) == Filtered(output, held)
    ensures calls == Interrupts(output)
  {
    output, held, calls := [], [], 0;
    var offset := 0;
    assert Interrupts([]) == 0;
    assert ReadUpTo(input, [], 0) by { assert input[0..] == input; }
    hide ReadUpTo, ParsePrivateOsc, Filter, Interrupts;
    while offset < |input|
      invariant offset <= |input|
      invariant held == [] && calls == Interrupts(output)
      invariant ReadUpTo(input, output, offset)
      decreases |input| - offset
    {
      var byte := input[offset];
      if byte == ESCAPE {
        var privateOsc := ParsePrivateOsc(input[offset..]);
        if privateOsc.Complete? {
          // A modal owner never sees a private frame, whatever it asks for.
          ReadDrop(input, output, offset, privateOsc.length);
          offset := offset + privateOsc.length;
          continue;
        }
        if privateOsc.Partial? {
          ReadHold(input, output, offset);
          held := input[offset..];
          return;
        }
      }
      if byte == CTRL_C { calls := calls + 1; }
      ReadPass(input, output, offset);
      InterruptsOfOneMore(output, byte);
      output := output + [byte];
      offset := offset + 1;
    }
    ReadAll(input, output);
  }

  /** Swallows private frames while another input UI owns stdin. */
  class PrivateOscInputFilter {
    var pendingSequence: seq<Byte>
    var pendingPrivateOsc: bool
    /** How often the owner's interrupt callback was called. */
    var interrupts: nat

    ghost predicate Valid()
      reads this
    {
      && Filter(pendingSequence) == Filtered([], pendingSequence)
      && (pendingPrivateOsc <==> |pendingSequence| >= 2)
    }

    constructor ()
      ensures Valid() && pendingSequence == [] && interrupts == 0
    {
      pendingSequence, pendingPrivateOsc, interrupts := [], false, 0;
    }

    /** Drop incomplete input from a previous owner. */
    method ResetPendingInput()
      modifies this
      ensures Valid() && pendingSequence == [] && interrupts == old(interrupts)
    {
      pendingSequence, pendingPrivateOsc := [], false;
    }

    method Transform(chunk: seq<Byte>) returns (output: seq<Byte>)
      requires Valid()
      modifies this
      ensures Valid()
      ensures Filtered(output, pendingSequence) == Filter(old(pendingSequence) + chunk)
      ensures interrupts == old(interrupts) + Interrupts(output)
    {
      var input := pendingSequence + chunk;
      var held, calls;
      output, held, calls := ReadInput(input);
      HeldIsStable(input);
      if |held| > 0 { HeldIsFramed(held); }
      pendingSequence := held;
      pendingPrivateOsc := IsOscStart(held);
      interrupts := interrupts + calls;
    }

    /** At the end of the stream a lone ESC is a key; a started frame is dropped. */
    method Flush() returns (output: seq<Byte>)
      requires Valid()
      modifies this
      ensures Valid() && pendingSequence == [] && interrupts == old(interrupts)
      ensures output == if |old(pendingSequence)| == 1 then old(pendingSequence) else []
    {
      output := if pendingPrivateOsc then [] else pendingSequence;
      pendingSequence, pendingPrivateOsc := [], false;
    }
  }

  lemma HeldIsFramed(held: seq<Byte>)
    requires held != [] && NextStep(held).Hold?
    ensures IsOscStart(held) <==> |held| >= 2
  {
    ParseIsNoFrame(held);
  }
}
