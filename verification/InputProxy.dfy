/**
 The stream that recognises bracketed pastes, paste hotkeys and private frames
 in terminal input arriving in arbitrary chunks (src/cli/prompt-input.ts).

 What the stream hands to the editor is a sequence of events; the asynchronous
 clipboard work behind a capture marker settles in separate steps.
 */
module InputProxy {
  import opened Common
  import opened PrivateOsc

  const CTRL_T: Byte := 0x14
  const CTRL_V: Byte := 0x16
  const MAX_BRACKETED_PASTE_BYTES := MAX_CLIPBOARD_TEXT_CHARS * 4 + 64

  /** ESC [ 2 0 0 ~ */
  function PasteStart(): (w: seq<Byte>)
    ensures |w| == 6 && w[0] == ESCAPE && w[1] == 0x5b && w[2] == 0x32
  {
    [0x1b, 0x5b, 0x32, 0x30, 0x30, 0x7e]
  }

  /** ESC [ 2 0 1 ~ */
  function PasteEnd(): (w: seq<Byte>)
    ensures |w| == 6 && w[0] == ESCAPE && forall i :: 0 < i < 6 ==> w[i] != ESCAPE
  {
    [0x1b, 0x5b, 0x32, 0x30, 0x31, 0x7e]
  }

  /** CSI 118 ; modifier u, for Ctrl, Ctrl+Shift and Super with V. */
  function Hotkey(modifier: Byte): (w: seq<Byte>)
    ensures |w| == 8 && w[0] == ESCAPE && w[1] == 0x5b && w[2] == 0x31
  {
    [0x1b, 0x5b, 0x31, 0x31, 0x38, 0x3b, modifier, 0x75]
  }

  predicate IsHotkey(s: seq<Byte>) {
    Hotkey(0x35) <= s || Hotkey(0x36) <= s || Hotkey(0x39) <= s
  }

  predicate CutHotkey(s: seq<Byte>) {
    s < Hotkey(0x35) || s < Hotkey(0x36) || s < Hotkey(0x39)
  }

  /**
   What input makes happen, in the order of the scan. The last three come from a
   paste that times out and from clipboard reads that end; `EndCapture` says
   whether the marker is replaced in the draft.
   */
  datatype Event =
    | Emit(byte: Byte)
    | BeginCapture
    | ShowThinking
    | AskBackspace(byte: Byte)
    | PasteText(body: seq<Byte>)
    | PasteTooLong
    | HoldEnter
    | PasteIncomplete
    | EndCapture(replaced: bool)
    | ReleaseEnter

  datatype Proxy = Proxy(
    pending: seq<Byte>,
    active: bool,
    rejected: bool,
    buffer: seq<Byte>,
    captures: nat,
    submit: bool)

  const IDLE := Proxy([], false, false, [], 0, false)

  // ---- One token of ordinary input ----

  datatype Token = Take(length: nat, event: Option<Event>) | OpenPaste | EnterKey(byte: Byte) | Wait

  /** A byte that leaves no trace: Ctrl+C where the owner observes it on the source instead. */
  predicate Inert(swallow: bool, b: Byte) {
    swallow && b == CTRL_C
  }

  function EscapeToken(s: seq<Byte>): (r: Token)
    requires s != []
    ensures r.Take? ==> 0 < r.length <= |s|
    ensures r.OpenPaste? ==> |s| >= 6
  {
    if PasteStart() <= s then OpenPaste
    else match ParsePrivateOsc(s)
      case Complete(n, action) => Take(n, if action.PasteImage? then Some(BeginCapture) else None)
      case _ =>
        if IsHotkey(s) then Take(8, Some(BeginCapture))
        else if ParsePrivateOsc(s).Partial? || s < PasteStart() || |s| == 1 || CutHotkey(s) then Wait
        else Take(1, Some(Emit(s[0])))
  }

  function TokenAt(swallow: bool, s: seq<Byte>): (r: Token)
    requires s != []
    ensures r.Take? ==> 0 < r.length <= |s|
    ensures r.OpenPaste? ==> |s| >= 6
  {
    var b := s[0];
    if Inert(swallow, b) then Take(1, None)
    else if b == 0x08 || b == 0x7f then Take(1, Some(AskBackspace(b)))
    else if b == CTRL_V then Take(1, Some(BeginCapture))
    else if b == CTRL_T then Take(1, Some(ShowThinking))
    else if b == ESCAPE then EscapeToken(s)
    else if b == 0x0d || b == 0x0a then EnterKey(b)
    else Take(1, Some(Emit(b)))
  }

  // ---- One turn of the byte loop ----

  datatype Move =
    | Stop(events: seq<Event>, proxy: Proxy)
    | Go(events: seq<Event>, proxy: Proxy, length: nat)

  function LastFive(s: seq<Byte>): seq<Byte> {
    if |s| <= 5 then s else s[|s| - 5..]
  }

  function Combined(p: Proxy, s: seq<Byte>): seq<Byte> { p.buffer + s }

  function EndAt(c: seq<Byte>): (t: int)
    ensures t == -1 || 0 <= t <= |c| - 6
  {
    IndexOf(c, PasteEnd(), 0)
  }

  /** While a paste is open: wait for its end, or deliver it. */
  function PasteMove(p: Proxy, s: seq<Byte>): (r: Move)
    requires p.active
    ensures r.Go? ==> r.length <= |s| && !r.proxy.active
    ensures r.Go? <==> EndAt(Combined(p, s)) != -1
  {
    var combined := Combined(p, s);
    var terminator := EndAt(combined);
    if terminator == -1 then
      var tooLong := !p.rejected && |combined| > MAX_BRACKETED_PASTE_BYTES;
      var rejected := p.rejected || tooLong;
      Stop(if tooLong then [PasteTooLong] else [],
           p.(rejected := rejected, buffer := if rejected then LastFive(combined) else combined))
    else
      var consumed := terminator + 6 - |p.buffer|;
      Go(if p.rejected then []
         else if terminator > MAX_BRACKETED_PASTE_BYTES then [PasteTooLong]
         else [PasteText(combined[..terminator])],
         p.(active := false, rejected := false, buffer := []),
         if consumed < 0 then 0 else consumed)
  }

  function Captures(event: Option<Event>): nat {
    if event == Some(BeginCapture) then 1 else 0
  }

  function TokenMove(p: Proxy, s: seq<Byte>, token: Token): (r: Move)
    requires token.Take? ==> 0 < token.length <= |s|
    requires token.OpenPaste? ==> |s| >= 6
    requires s != []
    ensures r.Go? ==> 0 < r.length <= |s|
  {
    match token
    case Take(n, None) => Go([], p, n)
    case Take(n, Some(event)) => Go([event], p.(captures := p.captures + Captures(token.event)), n)
    case OpenPaste => Go([], p.(active := true, rejected := false, buffer := []), 6)
    case EnterKey(b) => if p.captures > 0 then Go([HoldEnter], p.(submit := true), 1) else Go([Emit(b)], p, 1)
    case Wait => Stop([], p.(pending := s))
  }

  function MoveAt(swallow: bool, p: Proxy, s: seq<Byte>): (r: Move)
    requires s != []
    ensures r.Go? ==> r.length <= |s| && (r.length == 0 ==> p.active && !r.proxy.active)
  {
    if p.submit then Stop([], p)
    else if p.active then PasteMove(p, s)
    else TokenMove(p, s, TokenAt(swallow, s))
  }

  // ---- The whole loop ----

  datatype Outcome = Outcome(events: seq<Event>, proxy: Proxy)

  function Scan(swallow: bool, p: Proxy, s: seq<Byte>): Outcome
    decreases |s|, if p.active then 1 else 0
  {
    if s == [] then Outcome([], p)
    else match MoveAt(swallow, p, s)
      case Stop(events, q) => Outcome(events, q)
      case Go(events, q, n) =>
        var rest := Scan(swallow, q, s[n..]);
        Outcome(events + rest.events, rest.proxy)
  }

  /** One chunk: it is read behind the bytes held before it. */
  function ReadChunk(swallow: bool, p: Proxy, data: seq<Byte>): Outcome {
    Scan(swallow, p.(pending := []), p.pending + data)
  }

  function Then(swallow: bool, o: Outcome, data: seq<Byte>): Outcome {
    var next := ReadChunk(swallow, o.proxy, data);
    Outcome(o.events + next.events, next.proxy)
  }

  function ProcessChunks(swallow: bool, p: Proxy, chunks: seq<seq<Byte>>): Outcome
    decreases |chunks|
  {
    if |chunks| == 0 then Outcome([], p)
    else
      var first := ReadChunk(swallow, p, chunks[0]);
      var rest := ProcessChunks(swallow, first.proxy, chunks[1..]);
      Outcome(first.events + rest.events, rest.proxy)
  }

  // ---- Streams that no cutting disturbs ----

  /** A private frame closed in time, or followed only by bytes that leave no trace. */
  predicate FrameSettles(swallow: bool, s: seq<Byte>) {
    || !(PrivateOscPrefix() <= s)
    || 17 <= Terminator(s) <= MAX_PRIVATE_OSC_BYTES
    || forall j :: MAX_PRIVATE_OSC_BYTES < j < |s| ==> Inert(swallow, s[j])
  }

  /** The bodies whose acceptance does not depend on where a chunk ends. */
  predicate LengthSettles(p: Proxy, t: int) {
    t == -1 || p.rejected || t <= MAX_BRACKETED_PASTE_BYTES - 5 || t > MAX_BRACKETED_PASTE_BYTES
  }

  predicate MoveSettles(swallow: bool, p: Proxy, s: seq<Byte>) {
    if p.submit then true
    else if p.active then LengthSettles(p, EndAt(Combined(p, s)))
    else FrameSettles(swallow, s)
  }

  /** Every frame and every paste met on the way settles. */
  predicate Settles(swallow: bool, p: Proxy, s: seq<Byte>)
    decreases |s|, if p.active then 1 else 0
  {
    if s == [] then true
    else
      && MoveSettles(swallow, p, s)
      && match MoveAt(swallow, p, s)
         case Stop(_, _) => true
         case Go(_, q, n) => Settles(swallow, q, s[n..])
  }

  /** What holds of the stream between two chunks, apart from the held bytes. */
  predicate Coherent(p: Proxy) {
    if p.active then
      && EndAt(p.buffer) == -1
      && (if p.rejected then |p.buffer| == 5 else |p.buffer| <= MAX_BRACKETED_PASTE_BYTES)
    else !p.rejected && p.buffer == []
  }

  // ---- Tokens do not change when more bytes arrive ----

  /** A private frame dropped although its BEL has not arrived. */
  predicate Abandoned(s: seq<Byte>) {
    PrivateOscPrefix() <= s && Terminator(s) == -1 && |s| > MAX_PRIVATE_OSC_BYTES
  }

  lemma EscapeTokenStable(a: seq<Byte>, b: seq<Byte>)
    requires a != [] && a[0] == ESCAPE && !EscapeToken(a).Wait? && !Abandoned(a)
    ensures EscapeToken(a + b) == EscapeToken(a)
  {
    CompatibleStable(a, b, PasteStart());
    CompatibleStable(a, b, Hotkey(0x35));
    CompatibleStable(a, b, Hotkey(0x36));
    CompatibleStable(a, b, Hotkey(0x39));
    ParseIsNoFrame(a);
    hide PasteStart, Hotkey, PrivateOscPrefix, PasteImagePayload, Terminator;
    ParseStable(a, b);
  }

  lemma TokenStable(swallow: bool, a: seq<Byte>, b: seq<Byte>)
    requires a != [] && !TokenAt(swallow, a).Wait? && !Abandoned(a)
    ensures TokenAt(swallow, a + b) == TokenAt(swallow, a)
  {
    if a[0] == ESCAPE { EscapeTokenStable(a, b); }
  }

  /** An abandoned frame swallows everything up to its BEL, or all there is. */
  lemma AbandonedToken(swallow: bool, s: seq<Byte>)
    requires PrivateOscPrefix() <= s && |s| > MAX_PRIVATE_OSC_BYTES
    requires Terminator(s) == -1 || Terminator(s) >= MAX_PRIVATE_OSC_BYTES
    ensures TokenAt(swallow, s) == Take(if Terminator(s) == -1 then |s| else Terminator(s) + 1, None)
  {
    ParseIsNoFrame(s);
  }

  lemma {:induction false} OnlyInert(swallow: bool, p: Proxy, s: seq<Byte>)
    requires !p.active && forall j :: 0 <= j < |s| ==> Inert(swallow, s[j])
    ensures Scan(swallow, p, s) == Outcome([], p)
    decreases |s|
  {
    if s != [] && !p.submit {
      OnlyInert(swallow, p, s[1..]);
    }
  }

  lemma AbandonedChunks(swallow: bool, p: Proxy, a: seq<Byte>, b: seq<Byte>)
    requires a != [] && Abandoned(a) && !p.active && !p.submit && p.pending == []
    requires FrameSettles(swallow, a + b)
    ensures Scan(swallow, p, a) == Outcome([], p)
    ensures Scan(swallow, p, a + b) == Outcome([], p)
    ensures ReadChunk(swallow, p, b) == Outcome([], p)
    ensures Settles(swallow, p, b)
  {
    var s := a + b;
    CompatibleStable(a, b, PrivateOscPrefix());
    TerminatorStable(a, b);
    AbandonedToken(swallow, a);
    hide PrivateOscPrefix, Terminator, TokenAt;
    assert a[|a|..] == [];
    assert Terminator(s) == -1;
    AbandonedToken(swallow, s);
    assert s[|s|..] == [];
    assert p.(pending := []) == p && [] + b == b;
    forall j | 0 <= j < |b| ensures Inert(swallow, b[j]) { assert b[j] == s[|a| + j]; }
    OnlyInert(swallow, p, b);
    InertSettles(swallow, p, b);
  }

  lemma {:induction false} InertSettles(swallow: bool, p: Proxy, s: seq<Byte>)
    requires !p.active && forall j :: 0 <= j < |s| ==> Inert(swallow, s[j])
    ensures Settles(swallow, p, s)
    decreases |s|
  {
    if s != [] && !p.submit {
      InertSettles(swallow, p, s[1..]);
    }
  }

  // ---- Two chunks inside an open paste ----

  /** A found end stays the first end; an end cut by the chunk boundary starts at most five bytes before it. */
  lemma EndStable(c: seq<Byte>, b: seq<Byte>)
    ensures EndAt(c) != -1 ==> EndAt(c + b) == EndAt(c)
    ensures EndAt(c) == -1 && EndAt(c + b) != -1 ==> EndAt(c + b) > |c| - 6
  {
    var w := PasteEnd();
    hide PasteEnd;
    forall i | 0 <= i && i + 6 <= |c| ensures OccursAt(c + b, w, i) == OccursAt(c, w, i) {
      assert (c + b)[i..i + 6] == c[i..i + 6];
    }
  }

  /** Keeping only the last five bytes of a body without an end loses nothing of the search. */
  lemma EndAfterTrim(c: seq<Byte>, b: seq<Byte>)
    requires EndAt(c) == -1 && |c| >= 5
    ensures EndAt(LastFive(c)) == -1
    ensures EndAt(LastFive(c) + b) == if EndAt(c + b) == -1 then -1 else EndAt(c + b) - (|c| - 5)
    ensures LastFive(LastFive(c) + b) == LastFive(c + b)
  {
    EndStable(c, b);
    var d := |c| - 5;
    EndShift(c, d);
    EndShift(c + b, d);
    assert (c + b)[d..] == LastFive(c) + b;
  }

  lemma EndShift(x: seq<Byte>, d: nat)
    requires d <= |x| && (EndAt(x) == -1 || EndAt(x) >= d)
    ensures EndAt(x[d..]) == if EndAt(x) == -1 then -1 else EndAt(x) - d
  {
    var w, y := PasteEnd(), x[d..];
    hide PasteEnd;
    forall i | 0 <= i ensures OccursAt(y, w, i) == OccursAt(x, w, i + d) {
      if i + 6 <= |y| { assert y[i..i + 6] == x[i + d..i + d + 6]; }
    }
    var t, u := EndAt(x), EndAt(y);
    assert u != -1 ==> OccursAt(x, w, u + d);
    assert t != -1 ==> OccursAt(y, w, t - d);
  }

  lemma PasteStop(swallow: bool, p: Proxy, s: seq<Byte>)
    requires p.active && !p.submit && EndAt(Combined(p, s)) == -1
    ensures Scan(swallow, p, s).events ==
            if s != [] && !p.rejected && |Combined(p, s)| > MAX_BRACKETED_PASTE_BYTES then [PasteTooLong] else []
    ensures s != [] ==> Scan(swallow, p, s) == Outcome(PasteMove(p, s).events, PasteMove(p, s).proxy)
  {
  }

  lemma PasteFound(swallow: bool, p: Proxy, s: seq<Byte>)
    requires p.active && !p.submit && EndAt(Combined(p, s)) != -1 && s != []
    ensures var m := PasteMove(p, s);
            && m.Go?
            && Scan(swallow, p, s) == Outcome(m.events + Scan(swallow, m.proxy, s[m.length..]).events,
                                              Scan(swallow, m.proxy, s[m.length..]).proxy)
            && (Settles(swallow, p, s) <==>
                  LengthSettles(p, EndAt(Combined(p, s))) && Settles(swallow, m.proxy, s[m.length..]))
  {
  }

  /** The first chunk leaves the paste open: what is remembered serves the search as well as the whole body. */
  lemma OpenPasteFirst(swallow: bool, p: Proxy, a: seq<Byte>, b: seq<Byte>) returns (q: Proxy)
    requires p.active && !p.submit && p.pending == [] && Coherent(p) && a != []
    requires EndAt(Combined(p, a)) == -1
    ensures q == Scan(swallow, p, a).proxy && Coherent(q) && q.pending == []
    ensures q == p.(rejected := q.rejected, buffer := q.buffer)
    ensures var c := Combined(p, a);
            && q.rejected == (p.rejected || |c| > MAX_BRACKETED_PASTE_BYTES)
            && q.buffer == (if q.rejected then LastFive(c) else c)
            && EndAt(Combined(q, b)) == (if EndAt(c + b) == -1 then -1 else EndAt(c + b) - (|c| - |q.buffer|))
            && LastFive(Combined(q, b)) == LastFive(c + b)
            && (EndAt(c + b) != -1 ==> EndAt(c + b) > |c| - 6)
  {
    hide EndAt, Scan;
    var c := Combined(p, a);
    PasteStop(swallow, p, a);
    q := Scan(swallow, p, a).proxy;
    EndStable(c, b);
    if |c| >= 5 { EndAfterTrim(c, b); }
  }

  lemma OpenPasteStays(swallow: bool, p: Proxy, a: seq<Byte>, b: seq<Byte>)
    requires p.active && !p.submit && p.pending == [] && Coherent(p) && a != [] && b != []
    requires EndAt(Combined(p, a)) == -1 && EndAt(Combined(p, a) + b) == -1
    ensures Scan(swallow, p, a + b) == Then(swallow, Scan(swallow, p, a), b)
    ensures Settles(swallow, Scan(swallow, p, a).proxy, b)
  {
    hide EndAt, Scan, Settles, LastFive;
    var q := OpenPasteFirst(swallow, p, a, b);
    assert Combined(p, a + b) == Combined(p, a) + b;
    PasteStop(swallow, p, a);
    PasteStop(swallow, p, a + b);
    PasteStop(swallow, q, b);
    PasteOpenSettles(swallow, q, b);
    assert q.(pending := []) == q && [] + b == b;
  }

  lemma ReadNothingHeld(swallow: bool, q: Proxy, b: seq<Byte>)
    requires q.pending == []
    ensures ReadChunk(swallow, q, b) == Scan(swallow, q, b)
  {
    assert q.(pending := []) == q && [] + b == b;
  }

  /** The events of an open paste that grows to `c`. */
  function Refusal(p: Proxy, c: seq<Byte>): seq<Event> {
    if !p.rejected && |c| > MAX_BRACKETED_PASTE_BYTES then [PasteTooLong] else []
  }

  /** The paste ends alike, whether it is remembered whole or only its last bytes are. */
  lemma PasteEndsAlike(p: Proxy, q: Proxy, a: seq<Byte>, b: seq<Byte>)
    requires p.active && q == p.(rejected := q.rejected, buffer := q.buffer)
    requires var c := Combined(p, a);
             && EndAt(c + b) > |c| - 6 && EndAt(c + b) >= 0 && LengthSettles(p, EndAt(c + b))
             && q.rejected == (p.rejected || |c| > MAX_BRACKETED_PASTE_BYTES)
             && q.buffer == (if q.rejected then LastFive(c) else c)
             && EndAt(Combined(q, b)) == EndAt(c + b) - (|c| - |q.buffer|)
    ensures var m, k := PasteMove(p, a + b), PasteMove(q, b);
            && m.Go? && k.Go? && m.length == |a| + k.length && m.proxy == k.proxy
            && m.events == Refusal(p, Combined(p, a)) + k.events
            && LengthSettles(q, EndAt(Combined(q, b)))
  {
    hide EndAt;
    var c := Combined(p, a);
    assert Combined(p, a + b) == c + b;
    if !q.rejected {
      assert Combined(q, b) == c + b;
    }
  }

  lemma OpenPasteEnds(swallow: bool, p: Proxy, a: seq<Byte>, b: seq<Byte>)
    requires p.active && !p.submit && p.pending == [] && Coherent(p) && a != [] && b != []
    requires EndAt(Combined(p, a)) == -1 && EndAt(Combined(p, a) + b) != -1
    requires LengthSettles(p, EndAt(Combined(p, a + b)))
    ensures Scan(swallow, p, a + b) == Then(swallow, Scan(swallow, p, a), b)
    ensures Settles(swallow, p, a + b) ==> Settles(swallow, Scan(swallow, p, a).proxy, b)
    ensures var q := Scan(swallow, p, a).proxy;
            var m, k := PasteMove(p, a + b), PasteMove(q, b);
            && q.active && !q.submit && LengthSettles(q, EndAt(Combined(q, b)))
            && m.Go? && k.Go? && m.proxy == k.proxy && (a + b)[m.length..] == b[k.length..]
  {
    hide EndAt, Scan, Settles, LastFive, PasteMove, LengthSettles, ReadChunk;
    var s, c := a + b, Combined(p, a);
    var q := OpenPasteFirst(swallow, p, a, b);
    assert Combined(p, s) == c + b;
    PasteStop(swallow, p, a);
    assert Scan(swallow, p, a).events == Refusal(p, c);
    hide Combined, Refusal, Coherent;
    PasteFound(swallow, p, s);
    PasteEndsAlike(p, q, a, b);
    PasteFound(swallow, q, b);
    var m, k := PasteMove(p, s), PasteMove(q, b);
    assert s[m.length..] == b[k.length..];
    ReadNothingHeld(swallow, q, b);
    hide Then;
    JoinOutcomes(swallow, Scan(swallow, p, a), b, k.events, Scan(swallow, m.proxy, b[k.length..]));
  }

  lemma JoinOutcomes(swallow: bool, o: Outcome, b: seq<Byte>, middle: seq<Event>, rest: Outcome)
    requires ReadChunk(swallow, o.proxy, b) == Outcome(middle + rest.events, rest.proxy)
    ensures Then(swallow, o, b) == Outcome((o.events + middle) + rest.events, rest.proxy)
  {
    hide ReadChunk;
    assert o.events + (middle + rest.events) == (o.events + middle) + rest.events;
  }

  /** A paste left open by the first chunk. */
  lemma OpenPasteChunks(swallow: bool, p: Proxy, a: seq<Byte>, b: seq<Byte>)
    requires p.active && !p.submit && p.pending == [] && Coherent(p) && a != []
    requires EndAt(Combined(p, a)) == -1 && LengthSettles(p, EndAt(Combined(p, a + b)))
    ensures Scan(swallow, p, a + b) == Then(swallow, Scan(swallow, p, a), b)
    ensures var q := Scan(swallow, p, a).proxy;
            Coherent(q) && q.pending == [] && (Settles(swallow, p, a + b) ==> Settles(swallow, q, b))
  {
    hide EndAt, Scan, Settles;
    var q := OpenPasteFirst(swallow, p, a, b);
    if b == [] {
      assert a + b == a && q.(pending := []) == q && [] + b == b;
      NothingToScan(swallow, q);
    } else if EndAt(Combined(p, a) + b) == -1 {
      OpenPasteStays(swallow, p, a, b);
    } else {
      OpenPasteEnds(swallow, p, a, b);
    }
  }

  lemma NothingToScan(swallow: bool, p: Proxy)
    ensures Scan(swallow, p, []) == Outcome([], p) && Settles(swallow, p, [])
  {
  }

  lemma PasteOpenSettles(swallow: bool, p: Proxy, s: seq<Byte>)
    requires p.active && !p.submit && EndAt(Combined(p, s)) == -1
    ensures Settles(swallow, p, s)
  {
  }

  // ---- Cutting a settled stream does not matter ----

  /** The first move of `a` is also the first move of `a + b`. */
  lemma MoveStable(swallow: bool, p: Proxy, a: seq<Byte>, b: seq<Byte>)
    requires a != [] && MoveAt(swallow, p, a).Go?
    requires !p.active && !p.submit ==> !Abandoned(a)
    ensures MoveAt(swallow, p, a + b) == MoveAt(swallow, p, a)
    ensures MoveSettles(swallow, p, a + b) && p.active ==> MoveSettles(swallow, p, a)
  {
    if p.active {
      EndStable(Combined(p, a), b);
      assert Combined(p, a + b) == Combined(p, a) + b;
      var t := EndAt(Combined(p, a));
      assert (Combined(p, a) + b)[..t] == Combined(p, a)[..t];
    } else {
      TokenStable(swallow, a, b);
    }
  }

  /** After a move the stream is coherent again. */
  lemma MoveCoherent(swallow: bool, p: Proxy, s: seq<Byte>)
    requires s != [] && Coherent(p) && p.pending == []
    ensures var m := MoveAt(swallow, p, s);
            m.Go? ==> Coherent(m.proxy) && m.proxy.pending == [] && m.proxy.buffer == []
  {
    assert EndAt([]) == -1;
  }

  lemma GoScan(swallow: bool, p: Proxy, s: seq<Byte>)
    requires s != [] && MoveAt(swallow, p, s).Go?
    ensures var m := MoveAt(swallow, p, s);
            var rest := Scan(swallow, m.proxy, s[m.length..]);
            && Scan(swallow, p, s) == Outcome(m.events + rest.events, rest.proxy)
            && (Settles(swallow, p, s) <==> MoveSettles(swallow, p, s) && Settles(swallow, m.proxy, s[m.length..]))
  {
  }

  lemma {:induction false} TwoChunks(swallow: bool, p: Proxy, a: seq<Byte>, b: seq<Byte>)
    requires Coherent(p) && p.pending == [] && Settles(swallow, p, a + b)
    ensures Scan(swallow, p, a + b) == Then(swallow, Scan(swallow, p, a), b)
    ensures var q := Scan(swallow, p, a).proxy;
            && Coherent(q.(pending := [])) && Settles(swallow, q.(pending := []), q.pending + b)
    decreases |a|, if p.active then 1 else 0
  {
    hide TokenAt, PasteMove, TokenMove, FrameSettles, Abandoned, EndAt;
    if a == [] {
      assert a + b == b && [] + b == b && p.(pending := []) == p;
      NothingToScan(swallow, p);
    } else if p.submit {
      NothingAfterSubmit(swallow, p, a, b);
    } else if p.active && EndAt(Combined(p, a)) == -1 {
      OpenPasteChunks(swallow, p, a, b);
      var q := Scan(swallow, p, a).proxy;
      assert q.(pending := []) == q && [] + b == b;
    } else if !p.active && Abandoned(a) {
      AbandonedChunks(swallow, p, a, b);
      assert p.(pending := []) == p && [] + b == b;
    } else if MoveAt(swallow, p, a).Go? {
      TwoChunksGo(swallow, p, a, b);
      var m := MoveAt(swallow, p, a);
      TwoChunks(swallow, m.proxy, a[m.length..], b);
      TwoChunksJoin(swallow, p, a, b);
    } else {
      TwoChunksWait(swallow, p, a, b);
    }
  }

  /** A beginning of a stream that settles does. */
  lemma {:induction false} SettlesPrefix(swallow: bool, p: Proxy, a: seq<Byte>, b: seq<Byte>)
    requires Coherent(p) && p.pending == [] && Settles(swallow, p, a + b)
    ensures Settles(swallow, p, a)
    decreases |a|, if p.active then 1 else 0
  {
    hide TokenAt, PasteMove, TokenMove, FrameSettles, Abandoned, EndAt;
    if a != [] && !p.submit {
      if p.active && EndAt(Combined(p, a)) == -1 {
        PasteOpenSettles(swallow, p, a);
      } else {
        MovePrefixSettles(swallow, p, a, b);
        if !p.active && Abandoned(a) {
          FrameTaken(swallow, p, a);
          NothingToScan(swallow, p);
          GoScan(swallow, p, a);
        } else if MoveAt(swallow, p, a).Go? {
          TwoChunksGo(swallow, p, a, b);
          var m := MoveAt(swallow, p, a);
          SettlesPrefix(swallow, m.proxy, a[m.length..], b);
          GoScan(swallow, p, a);
        }
      }
    }
  }

  lemma FrameTaken(swallow: bool, p: Proxy, a: seq<Byte>)
    requires a != [] && !p.active && !p.submit && Abandoned(a)
    ensures MoveAt(swallow, p, a) == Go([], p, |a|) && a[|a|..] == []
  {
    AbandonedToken(swallow, a);
    hide TokenAt;
  }

  lemma MovePrefixSettles(swallow: bool, p: Proxy, a: seq<Byte>, b: seq<Byte>)
    requires a != [] && !p.submit && MoveSettles(swallow, p, a + b)
    requires p.active ==> EndAt(Combined(p, a)) != -1
    ensures MoveSettles(swallow, p, a)
  {
    if p.active {
      EndStable(Combined(p, a), b);
      assert Combined(p, a + b) == Combined(p, a) + b;
    } else {
      FramePrefixSettles(swallow, a, b);
    }
  }

  lemma FramePrefixSettles(swallow: bool, a: seq<Byte>, b: seq<Byte>)
    requires a != [] && FrameSettles(swallow, a + b)
    ensures FrameSettles(swallow, a)
  {
    CompatibleStable(a, b, PrivateOscPrefix());
    TerminatorStable(a, b);
    assert forall j :: 0 <= j < |a| ==> a[j] == (a + b)[j];
  }

  /** More input takes back nothing that was asked. */
  lemma {:induction false} NowsGrow(swallow: bool, p: Proxy, a: seq<Byte>, b: seq<Byte>)
    ensures Nows(Scan(swallow, p, a).events) <= Nows(Scan(swallow, p, a + b).events)
    decreases |a|, if p.active then 1 else 0
  {
    hide TokenAt, PasteMove, TokenMove, Abandoned, EndAt, MoveSettles, Settles;
    if a == [] || p.submit {
    } else if p.active && EndAt(Combined(p, a)) == -1 {
      PasteStop(swallow, p, a);
    } else if !p.active && Abandoned(a) {
      FrameTaken(swallow, p, a);
      GoScan(swallow, p, a);
    } else if MoveAt(swallow, p, a).Go? {
      MoveStable(swallow, p, a, b);
      var m := MoveAt(swallow, p, a);
      NowsGrow(swallow, m.proxy, a[m.length..], b);
      assert (a + b)[m.length..] == a[m.length..] + b;
      GoScan(swallow, p, a);
      GoScan(swallow, p, a + b);
      NowsParts(m.events, Scan(swallow, m.proxy, a[m.length..]).events);
      NowsParts(m.events, Scan(swallow, m.proxy, a[m.length..] + b).events);
    } else {
      assert MoveAt(swallow, p, a).events == [] by { WaitIsSilent(swallow, p, a); }
    }
  }

  lemma WaitIsSilent(swallow: bool, p: Proxy, a: seq<Byte>)
    requires a != [] && !p.active && MoveAt(swallow, p, a).Stop?
    ensures MoveAt(swallow, p, a).events == []
  {
    hide TokenAt;
  }

  lemma TwoChunksGo(swallow: bool, p: Proxy, a: seq<Byte>, b: seq<Byte>)
    requires Coherent(p) && p.pending == [] && Settles(swallow, p, a + b)
    requires a != [] && MoveAt(swallow, p, a).Go? && (!p.active ==> !Abandoned(a)) && !p.submit
    ensures var m := MoveAt(swallow, p, a);
            && Coherent(m.proxy) && m.proxy.pending == []
            && MoveAt(swallow, p, a + b) == m
            && (a + b)[m.length..] == a[m.length..] + b
            && Settles(swallow, m.proxy, a[m.length..] + b)
  {
    hide Settles, MoveSettles, TokenAt, PasteMove, TokenMove;
    MoveCoherent(swallow, p, a);
    MoveStable(swallow, p, a, b);
    GoScan(swallow, p, a + b);
    var n := MoveAt(swallow, p, a).length;
    assert (a + b)[n..] == a[n..] + b;
  }

  lemma TwoChunksJoin(swallow: bool, p: Proxy, a: seq<Byte>, b: seq<Byte>)
    requires a != [] && MoveAt(swallow, p, a).Go? && MoveAt(swallow, p, a + b) == MoveAt(swallow, p, a)
    requires var m := MoveAt(swallow, p, a);
             && (a + b)[m.length..] == a[m.length..] + b
             && Scan(swallow, m.proxy, a[m.length..] + b) == Then(swallow, Scan(swallow, m.proxy, a[m.length..]), b)
    ensures Scan(swallow, p, a + b) == Then(swallow, Scan(swallow, p, a), b)
    ensures Scan(swallow, p, a).proxy ==
              Scan(swallow, MoveAt(swallow, p, a).proxy, a[MoveAt(swallow, p, a).length..]).proxy
  {
    hide Scan, MoveAt, Settles;
    GoScan(swallow, p, a);
    GoScan(swallow, p, a + b);
  }

  lemma TwoChunksWait(swallow: bool, p: Proxy, a: seq<Byte>, b: seq<Byte>)
    requires Coherent(p) && p.pending == []
    requires a != [] && !p.active && !p.submit && MoveAt(swallow, p, a).Stop?
    ensures Scan(swallow, p, a + b) == Then(swallow, Scan(swallow, p, a), b)
    ensures Scan(swallow, p, a).proxy == p.(pending := a) && p.(pending := a).(pending := []) == p
  {
    hide TokenAt, Settles;
    assert Scan(swallow, p, a) == Outcome([], p.(pending := a));
    assert p.(pending := a).(pending := []) == p;
  }

  lemma NothingAfterSubmit(swallow: bool, p: Proxy, a: seq<Byte>, b: seq<Byte>)
    requires p.submit && p.pending == [] && Coherent(p)
    ensures Scan(swallow, p, a + b) == Then(swallow, Scan(swallow, p, a), b)
    ensures var q := Scan(swallow, p, a).proxy;
            && Coherent(q.(pending := [])) && Settles(swallow, q.(pending := []), q.pending + b)
  {
    assert p.(pending := []) == p && [] + b == b;
  }

  lemma {:induction false} ChunksFrom(swallow: bool, p: Proxy, chunks: seq<seq<Byte>>)
    requires Coherent(p.(pending := []))
    requires Settles(swallow, p.(pending := []), p.pending + Flatten(chunks))
    requires Scan(swallow, p.(pending := []), p.pending) == Outcome([], p)
    ensures ProcessChunks(swallow, p, chunks) == ReadChunk(swallow, p, Flatten(chunks))
    decreases |chunks|
  {
    hide Scan, Settles, Coherent;
    if |chunks| == 0 {
      assert p.pending + [] == p.pending;
    } else {
      var p0, a, b := p.(pending := []), p.pending + chunks[0], Flatten(chunks[1..]);
      assert a + b == p.pending + Flatten(chunks);
      TwoChunks(swallow, p0, a, b);
      var q := Scan(swallow, p0, a).proxy;
      WaitingIsStable(swallow, p0, a);
      ChunksFrom(swallow, q, chunks[1..]);
    }
  }

  /** What is kept pending would be kept pending again. */
  lemma {:induction false} WaitingIsStable(swallow: bool, p: Proxy, s: seq<Byte>)
    requires Coherent(p) && p.pending == []
    ensures var q := Scan(swallow, p, s).proxy;
            Scan(swallow, q.(pending := []), q.pending) == Outcome([], q)
    decreases |s|, if p.active then 1 else 0
  {
    hide TokenAt, EndAt;
    if s != [] {
      var m := MoveAt(swallow, p, s);
      if m.Go? {
        MoveCoherent(swallow, p, s);
        WaitingIsStable(swallow, m.proxy, s[m.length..]);
      } else if !p.active && !p.submit {
        assert p.(pending := s).(pending := []) == p;
      } else {
        assert m.proxy.(pending := []) == m.proxy;
      }
    }
  }

  // ---- What happens during a scan, and what its end delivers ----

  /** The editor is asked, and the Thinking view opened, while a chunk is scanned; all else it gets at the end. */
  predicate DuringScan(e: Event) {
    e.AskBackspace? || e.ShowThinking?
  }

  function Nows(events: seq<Event>): seq<Event> {
    if |events| == 0 then []
    else (if DuringScan(events[0]) then [events[0]] else []) + Nows(events[1..])
  }

  /** What the end of the chunk brings; a byte that was asked about is brought if the editor refused it. */
  function Laters(events: seq<Event>): seq<Event> {
    if |events| == 0 then []
    else (if events[0].ShowThinking? then [] else [events[0]]) + Laters(events[1..])
  }

  lemma NowsParts(u: seq<Event>, v: seq<Event>)
    ensures Nows(u + v) == Nows(u) + Nows(v)
    ensures Laters(u + v) == Laters(u) + Laters(v)
  {
    NowsOfSum(u, v);
    LatersOfSum(u, v);
  }

  lemma {:induction false} NowsOfSum(u: seq<Event>, v: seq<Event>)
    ensures Nows(u + v) == Nows(u) + Nows(v)
    decreases |u|
  {
    if u == [] {
      assert u + v == v;
    } else {
      var first := if DuringScan(u[0]) then [u[0]] else [];
      assert (u + v)[1..] == u[1..] + v;
      NowsOfSum(u[1..], v);
      assert first + (Nows(u[1..]) + Nows(v)) == (first + Nows(u[1..])) + Nows(v);
    }
  }

  lemma {:induction false} LatersOfSum(u: seq<Event>, v: seq<Event>)
    ensures Laters(u + v) == Laters(u) + Laters(v)
    decreases |u|
  {
    if u == [] {
      assert u + v == v;
    } else {
      var first := if u[0].ShowThinking? then [] else [u[0]];
      assert (u + v)[1..] == u[1..] + v;
      LatersOfSum(u[1..], v);
      assert first + (Laters(u[1..]) + Laters(v)) == (first + Laters(u[1..])) + Laters(v);
    }
  }

  /** Every event is one of the two. */
  lemma NothingHappens(events: seq<Event>)
    ensures events != [] ==> Nows(events) != [] || Laters(events) != []
  {}

  predicate Alike(x: Outcome, y: Outcome) {
    Nows(x.events) == Nows(y.events) && Laters(x.events) == Laters(y.events) && x.proxy == y.proxy
  }

  lemma AlikeBehind(u: seq<Event>, x: Outcome, y: Outcome)
    requires !Alike(x, y)
    ensures !Alike(Outcome(u + x.events, x.proxy), Outcome(u + y.events, y.proxy))
  {
    NowsParts(u, x.events);
    NowsParts(u, y.events);
    var n, l := |Nows(u)|, |Laters(u)|;
    if Nows(u) + Nows(x.events) == Nows(u) + Nows(y.events) &&
       Laters(u) + Laters(x.events) == Laters(u) + Laters(y.events) {
      assert (Nows(u) + Nows(x.events))[n..] == Nows(x.events) && (Nows(u) + Nows(y.events))[n..] == Nows(y.events);
      assert (Laters(u) + Laters(x.events))[l..] == Laters(x.events) &&
             (Laters(u) + Laters(y.events))[l..] == Laters(y.events);
    }
  }

  // ---- The exact condition for chunk independence ----

  ghost predicate ChunkIndependent(swallow: bool, s: seq<Byte>) {
    forall chunks: seq<seq<Byte>> :: Flatten(chunks) == s ==>
      ProcessChunks(swallow, IDLE, chunks) == ReadChunk(swallow, IDLE, s)
  }

  /** A byte that is not inert leaves a trace. */
  lemma TraceOfByte(swallow: bool, p: Proxy, s: seq<Byte>)
    requires s != [] && !p.active && !p.submit && p.pending == [] && !Inert(swallow, s[0])
    requires forall j :: 0 < j < |s| ==> Inert(swallow, s[j])
    ensures Scan(swallow, p, s) != Outcome([], p)
  {
    if s[0] == ESCAPE {
      LoneEscape(s);
    } else if (s[0] == 0x0d || s[0] == 0x0a) && p.captures > 0 {
      SubmitStays(swallow, p.(submit := true), s[1..]);
    }
  }

  lemma LoneEscape(s: seq<Byte>)
    requires s != [] && s[0] == ESCAPE && (|s| > 1 ==> s[1] == CTRL_C)
    ensures EscapeToken(s) == if |s| == 1 then Wait else Take(1, Some(Emit(ESCAPE)))
  {
    ParseIsNoFrame(s);
    if |s| == 1 {
      assert ParsePrivateOsc(s).Partial?;
    } else {
      assert !LooksLikeFrame(s);
    }
  }

  lemma SubmitStays(swallow: bool, p: Proxy, s: seq<Byte>)
    requires p.submit
    ensures Scan(swallow, p, s) == Outcome([], p)
  {
  }

  lemma {:induction false} LastTrace(swallow: bool, s: seq<Byte>, from: nat) returns (j: nat)
    requires from <= |s| && exists i :: from <= i < |s| && !Inert(swallow, s[i])
    ensures from <= j < |s| && !Inert(swallow, s[j])
    ensures forall i :: j < i < |s| ==> Inert(swallow, s[i])
    decreases |s|
  {
    var n := |s| - 1;
    if !Inert(swallow, s[n]) {
      j := n;
    } else {
      j := LastTrace(swallow, s[..n], from);
    }
  }

  /** The BEL of an overlong private frame, or the last byte of it that leaves a trace. */
  lemma FrameCutPoint(swallow: bool, s: seq<Byte>) returns (j: nat)
    requires s != [] && !FrameSettles(swallow, s)
    ensures PrivateOscPrefix() <= s && MAX_PRIVATE_OSC_BYTES < j < |s| && !Inert(swallow, s[j])
    ensures if Terminator(s) == -1 then forall i :: j < i < |s| ==> Inert(swallow, s[i]) else j == Terminator(s)
  {
    hide PrivateOscPrefix, Terminator;
    j := if Terminator(s) == -1 then 0 else Terminator(s);
    if Terminator(s) == -1 {
      j := LastTrace(swallow, s, 161);
    }
  }

  /** An overlong private frame: cut where the swallowed rest would leave a trace. */
  lemma FrameCut(swallow: bool, p: Proxy, s: seq<Byte>) returns (a: seq<Byte>, b: seq<Byte>)
    requires !p.active && !p.submit && p.pending == [] && s != [] && !FrameSettles(swallow, s)
    ensures s == a + b && |a| > MAX_PRIVATE_OSC_BYTES
    ensures Scan(swallow, p, a) == Outcome([], p)
    ensures || (Scan(swallow, p, s) == Outcome([], p) && Scan(swallow, p, b) != Outcome([], p))
            || Scan(swallow, p, b).events == [Emit(OSC_BEL)] + Scan(swallow, p, s).events
    ensures !Alike(Scan(swallow, p, s), Then(swallow, Scan(swallow, p, a), b))
  {
    var j := FrameCutPoint(swallow, s);
    a, b := s[..j], s[j..];
    hide *;
    assert s == a + b;
    OpenFramePrefix(a, b);
    FrameSkipped(swallow, p, a);
    FrameSkipped(swallow, p, s);
    ThenFromIdle(swallow, p, b);
    if Terminator(s) == -1 {
      InertBehind(swallow, s, j);
      TraceOfByte(swallow, p, b);
      TraceShows(p, Scan(swallow, p, b));
    } else {
      BellCut(swallow, p, s);
      BellShows(Scan(swallow, p, s), Scan(swallow, p, b));
    }
  }

  lemma TraceShows(p: Proxy, o: Outcome)
    requires o != Outcome([], p)
    ensures !Alike(Outcome([], p), o)
  {
    NothingHappens(o.events);
  }

  lemma BellShows(u: Outcome, v: Outcome)
    requires v.events == [Emit(OSC_BEL)] + u.events
    ensures !Alike(u, v) && Laters(v.events) == [Emit(OSC_BEL)] + Laters(u.events)
  {
    assert v.events[1..] == u.events;
    assert |Laters(v.events)| == 1 + |Laters(u.events)|;
  }

  lemma InertBehind(swallow: bool, s: seq<Byte>, j: nat)
    requires j < |s| && forall i :: j < i < |s| ==> Inert(swallow, s[i])
    ensures forall i :: 0 < i < |s[j..]| ==> Inert(swallow, s[j..][i])
  {}

  lemma BellCut(swallow: bool, p: Proxy, s: seq<Byte>)
    requires !p.active && !p.submit && PrivateOscPrefix() <= s && Terminator(s) > MAX_PRIVATE_OSC_BYTES
    ensures Scan(swallow, p, s[Terminator(s)..]).events == [Emit(OSC_BEL)] + Scan(swallow, p, s).events
  {
    hide Scan, PrivateOscPrefix, Terminator;
    var t := Terminator(s);
    FrameSkipped(swallow, p, s);
    BellIsEmitted(swallow, p, s[t..]);
    assert s[t..][1..] == s[t + 1..];
  }

  /** An overlong frame cut before its BEL has no BEL in front of the cut. */
  lemma OpenFramePrefix(a: seq<Byte>, b: seq<Byte>)
    requires PrivateOscPrefix() <= a + b && |a| > MAX_PRIVATE_OSC_BYTES
    requires Terminator(a + b) == -1 || Terminator(a + b) >= |a|
    ensures PrivateOscPrefix() <= a && Terminator(a) == -1
  {
    CompatibleStable(a, b, PrivateOscPrefix());
    TerminatorStable(a, b);
  }

  /** An overlong frame leaves nothing up to its BEL. */
  lemma FrameSkipped(swallow: bool, p: Proxy, s: seq<Byte>)
    requires !p.active && !p.submit && PrivateOscPrefix() <= s && |s| > MAX_PRIVATE_OSC_BYTES
    requires Terminator(s) == -1 || Terminator(s) >= MAX_PRIVATE_OSC_BYTES
    ensures Scan(swallow, p, s) == Scan(swallow, p, if Terminator(s) == -1 then [] else s[Terminator(s) + 1..])
    ensures Terminator(s) == -1 ==> Scan(swallow, p, s) == Outcome([], p)
  {
    var n := if Terminator(s) == -1 then |s| else Terminator(s) + 1;
    assert s != [] && s[|s|..] == [];
    AbandonedToken(swallow, s);
    hide PrivateOscPrefix, Terminator, TokenAt, Scan, Settles;
    assert MoveAt(swallow, p, s) == Go([], p, n);
    hide MoveAt;
    GoScan(swallow, p, s);
    NothingToScan(swallow, p);
    assert [] + Scan(swallow, p, s[n..]).events == Scan(swallow, p, s[n..]).events;
  }

  lemma ThenFromIdle(swallow: bool, p: Proxy, b: seq<Byte>)
    requires p.pending == []
    ensures Then(swallow, Outcome([], p), b) == Scan(swallow, p, b)
  {
    assert p.(pending := []) == p && [] + b == b;
    assert [] + Scan(swallow, p, b).events == Scan(swallow, p, b).events;
  }

  lemma BellIsEmitted(swallow: bool, p: Proxy, b: seq<Byte>)
    requires !p.active && !p.submit && b != [] && b[0] == OSC_BEL
    ensures Scan(swallow, p, b).events == [Emit(OSC_BEL)] + Scan(swallow, p, b[1..]).events
  {
  }

  /** A body within five bytes of the limit: cut before the last byte of its closing marker. */
  lemma PasteCut(swallow: bool, p: Proxy, s: seq<Byte>) returns (a: seq<Byte>, b: seq<Byte>)
    requires p.active && !p.submit && p.pending == [] && Coherent(p) && s != []
    requires !LengthSettles(p, EndAt(Combined(p, s)))
    ensures s == a + b && |a| + |p.buffer| > MAX_BRACKETED_PASTE_BYTES
    ensures Scan(swallow, p, a).events == [PasteTooLong]
    ensures Scan(swallow, p, s).events != [] && Scan(swallow, p, s).events[0].PasteText?
    ensures !Alike(Scan(swallow, p, s), Then(swallow, Scan(swallow, p, a), b))
  {
    hide EndAt, Scan, LastFive;
    var t := EndAt(Combined(p, s));
    var n := t + 5 - |p.buffer|;
    a, b := s[..n], s[n..];
    assert s == a + b;
    var c := Combined(p, a);
    assert c + b == Combined(p, s);
    assert EndAt(c) == -1 by { EndStable(c, b); }
    var q := OpenPasteFirst(swallow, p, a, b);
    PasteStop(swallow, p, a);
    PasteFound(swallow, p, s);
    assert Scan(swallow, p, a).events == [PasteTooLong];
    assert Scan(swallow, p, s).events[0].PasteText?;
    assert Then(swallow, Scan(swallow, p, a), b).events[0] == PasteTooLong;
    FirstShows(Scan(swallow, p, s), Then(swallow, Scan(swallow, p, a), b));
  }

  lemma FirstShows(x: Outcome, y: Outcome)
    requires x.events != [] && y.events != [] && x.events[0].PasteText? && y.events[0] == PasteTooLong
    ensures !Alike(x, y)
  {
    assert Laters(x.events)[0] == x.events[0] && Laters(y.events)[0] == y.events[0];
  }

  /** Where a stream that does not settle can be cut so that it shows. */
  lemma {:induction false} RevealingCut(swallow: bool, p: Proxy, s: seq<Byte>) returns (a: seq<Byte>, b: seq<Byte>)
    requires Coherent(p) && p.pending == [] && !Settles(swallow, p, s)
    ensures s == a + b && |a| + |p.buffer| > MAX_PRIVATE_OSC_BYTES
    ensures !Alike(Scan(swallow, p, s), Then(swallow, Scan(swallow, p, a), b))
    decreases |s|, if p.active then 1 else 0
  {
    hide FrameSettles, LengthSettles, TokenAt, EndAt, PasteMove, TokenMove, Alike;
    if !MoveSettles(swallow, p, s) {
      if p.active {
        a, b := PasteCut(swallow, p, s);
      } else {
        a, b := FrameCut(swallow, p, s);
      }
    } else {
      var m := MoveAt(swallow, p, s);
      MoveCoherent(swallow, p, s);
      var a', b' := RevealingCut(swallow, m.proxy, s[m.length..]);
      a, b := s[..m.length] + a', b';
      assert s == a + b && a[m.length..] == a' && s[m.length..] == a' + b';
      SameFirstMove(swallow, p, a, b);
      GoScan(swallow, p, s);
      GoScan(swallow, p, a);
      var x, y := Scan(swallow, m.proxy, a' + b'), Then(swallow, Scan(swallow, m.proxy, a'), b');
      assert Then(swallow, Scan(swallow, p, a), b) == Outcome(m.events + y.events, y.proxy);
      AlikeBehind(m.events, x, y);
    }
  }

  /** A first chunk reaching well past the first move decides that move. */
  lemma SameFirstMove(swallow: bool, p: Proxy, a: seq<Byte>, b: seq<Byte>)
    requires Coherent(p) && a + b != [] && MoveAt(swallow, p, a + b).Go?
    requires MAX_PRIVATE_OSC_BYTES < |a| && MoveAt(swallow, p, a + b).length < |a|
    ensures MoveAt(swallow, p, a) == MoveAt(swallow, p, a + b)
  {
    if p.active {
      var c := Combined(p, a);
      assert Combined(p, a + b) == c + b;
      EndStable(c, b);
      MoveStable(swallow, p, a, b);
    } else {
      TerminatorStable(a, b);
      CompatibleStable(a, b, PrivateOscPrefix());
      if Abandoned(a) {
        AbandonedToken(swallow, a + b);
      } else {
        LongNeverWaits(swallow, a);
        MoveStable(swallow, p, a, b);
      }
    }
  }

  lemma LongNeverWaits(swallow: bool, s: seq<Byte>)
    requires |s| > MAX_PRIVATE_OSC_BYTES
    ensures !TokenAt(swallow, s).Wait?
  {
  }

  /**
   From an idle stream, no cutting into chunks matters to what is done, in the
   order of scanning, exactly when every private frame and every bracketed paste
   met settles.
   */
  lemma {:induction false} ScanIgnoresCutsIff(swallow: bool, s: seq<Byte>)
    ensures ChunkIndependent(swallow, s) <==> Settles(swallow, IDLE, s)
  {
    hide Scan, Settles;
    assert [] + s == s;
    if Settles(swallow, IDLE, s) {
      forall chunks: seq<seq<Byte>> | Flatten(chunks) == s
        ensures ProcessChunks(swallow, IDLE, chunks) == ReadChunk(swallow, IDLE, s)
      {
        ChunksFromIdle(swallow, chunks);
      }
    } else {
      var a, b := RevealingCut(swallow, IDLE, s);
      TwoChunkRun(swallow, a, b);
    }
  }

  lemma TwoChunkRun(swallow: bool, a: seq<Byte>, b: seq<Byte>)
    ensures Flatten([a, b]) == a + b
    ensures ProcessChunks(swallow, IDLE, [a, b]) == Then(swallow, Scan(swallow, IDLE, a), b)
  {
    hide Scan;
    var chunks := [a, b];
    assert chunks[1..] == [b] && chunks[1..][1..] == [];
    assert Flatten(chunks[1..]) == b && [] + a == a;
    var q := ReadChunk(swallow, IDLE, a).proxy;
    assert ProcessChunks(swallow, q, chunks[1..]) == ReadChunk(swallow, q, b);
  }

  // ---- What the editor gets ----

  lemma NoOverlap(body: seq<Byte>, w: seq<Byte>, i: nat)
    requires |w| == 6 && forall k :: 0 < k < 6 ==> w[k] != w[0]
    requires |body| - 6 < i < |body|
    ensures !OccursAt(body + w, w, i)
  {
    assert (body + w)[i..i + 6][|body| - i] == (body + w)[|body|] == w[0];
  }

  /** The closing marker overlaps no part of itself, so it is found where it was put. */
  lemma EndFoundWherePut(body: seq<Byte>)
    requires EndAt(body) == -1
    ensures EndAt(body + PasteEnd()) == |body|
  {
    var w := PasteEnd();
    var c := body + w;
    hide PasteEnd;
    forall i: nat | i < |body| ensures !OccursAt(c, w, i) {
      if i + 6 <= |body| {
        assert c[i..i + 6] == body[i..i + 6];
        assert !OccursAt(body, w, i);
      } else {
        NoOverlap(body, w, i);
      }
    }
    assert OccursAt(c, w, |body|);
  }

  /** After the opening marker, body and closing marker make one event. */
  lemma PasteBodyScan(swallow: bool, open: Proxy, body: seq<Byte>)
    requires open == IDLE.(active := true) && EndAt(body) == -1
    ensures Scan(swallow, open, body + PasteEnd()) ==
            Outcome([if |body| > MAX_BRACKETED_PASTE_BYTES then PasteTooLong else PasteText(body)], IDLE)
    ensures Settles(swallow, open, body + PasteEnd()) <==>
              |body| <= MAX_BRACKETED_PASTE_BYTES - 5 || |body| > MAX_BRACKETED_PASTE_BYTES
  {
    var rest := body + PasteEnd();
    PasteDelivered(open, body);
    hide PasteEnd, EndAt, Scan, Settles, PasteMove, Combined;
    PasteFound(swallow, open, rest);
    assert rest[|rest|..] == [];
    NothingToScan(swallow, IDLE);
  }

  lemma PasteDelivered(open: Proxy, body: seq<Byte>)
    requires open == IDLE.(active := true) && EndAt(body) == -1
    ensures var rest := body + PasteEnd();
            && EndAt(Combined(open, rest)) == |body|
            && PasteMove(open, rest) ==
                 Go([if |body| > MAX_BRACKETED_PASTE_BYTES then PasteTooLong else PasteText(body)], IDLE, |rest|)
  {
    EndFoundWherePut(body);
    var rest := body + PasteEnd();
    assert |rest| == |body| + 6;
    hide PasteEnd, EndAt;
    assert Combined(open, rest) == rest && rest[..|body|] == body;
  }

  /**
   A bracketed paste cut anywhere: a body of up to MAX - 5 bytes arrives whole
   and once; one over MAX is refused once, and nothing of it arrives.
   */
  lemma BracketedPasteArrives(swallow: bool, body: seq<Byte>, chunks: seq<seq<Byte>>)
    requires EndAt(body) == -1
    requires |body| <= MAX_BRACKETED_PASTE_BYTES - 5 || |body| > MAX_BRACKETED_PASTE_BYTES
    requires Flatten(chunks) == PasteStart() + body + PasteEnd()
    ensures ProcessChunks(swallow, IDLE, chunks) ==
            Outcome([if |body| > MAX_BRACKETED_PASTE_BYTES then PasteTooLong else PasteText(body)], IDLE)
  {
    hide *;
    var rest := body + PasteEnd();
    assert PasteStart() + body + PasteEnd() == PasteStart() + rest;
    PasteBodyScan(swallow, IDLE.(active := true), body);
    OpeningScan(swallow, rest);
    ChunksFromIdle(swallow, chunks);
  }

  lemma ChunksFromIdle(swallow: bool, chunks: seq<seq<Byte>>)
    requires Settles(swallow, IDLE, Flatten(chunks))
    ensures ProcessChunks(swallow, IDLE, chunks) == Scan(swallow, IDLE, Flatten(chunks))
  {
    hide Scan, Settles;
    assert [] + Flatten(chunks) == Flatten(chunks);
    NothingToScan(swallow, IDLE);
    ChunksFrom(swallow, IDLE, chunks);
  }

  lemma OpeningScan(swallow: bool, rest: seq<Byte>)
    ensures var open := IDLE.(active := true);
            && Scan(swallow, IDLE, PasteStart() + rest) == Scan(swallow, open, rest)
            && (Settles(swallow, open, rest) <==> Settles(swallow, IDLE, PasteStart() + rest))
  {
    var s := PasteStart() + rest;
    StartOpensPaste(swallow, rest);
    hide PasteStart, TokenAt, FrameSettles;
    assert s[6..] == rest;
    GoScan(swallow, IDLE, s);
  }

  lemma PlainBodyHasNoEnd(body: seq<Byte>)
    requires ESCAPE !in body
    ensures EndAt(body) == -1
  {
    forall i: nat | i + 6 <= |body| ensures !OccursAt(body, PasteEnd(), i) {
      assert body[i..i + 6][0] == body[i] != ESCAPE;
    }
  }

  lemma StartOpensPaste(swallow: bool, rest: seq<Byte>)
    ensures TokenAt(swallow, PasteStart() + rest) == OpenPaste
    ensures FrameSettles(swallow, PasteStart() + rest)
  {
    var s := PasteStart() + rest;
    assert s[..6] == PasteStart() && s[1] == PasteStart()[1];
    assert PrivateOscPrefix()[1] != s[1];
  }

  // ---- Between the chunks ----

  /**
   A clipboard read ends: its marker is replaced unless the prompt is gone by
   then, and the last read releases a held Enter unless it is gone now.
   */
  function EndRead(p: Proxy, replaced: bool, gone: bool): Outcome {
    var captures := if p.captures > 0 then p.captures - 1 else 0;
    var releases := captures == 0 && p.submit && !gone;
    Outcome([EndCapture(replaced)] + if releases then [ReleaseEnter] else [],
            p.(captures := captures, submit := p.submit && !releases))
  }

  /** The held bytes that begin a private frame or a paste are dropped when nothing follows them in time. */
  predicate Droppable(pending: seq<Byte>) {
    IsOscStart(pending) || pending < PasteStart()
  }

  function Emits(bytes: seq<Byte>): (events: seq<Event>)
    ensures |events| == |bytes| && forall i :: 0 <= i < |bytes| ==> events[i] == Emit(bytes[i])
  {
    seq(|bytes|, i requires 0 <= i < |bytes| => Emit(bytes[i]))
  }

  function TimeOutEscape(p: Proxy): Outcome {
    Outcome(if Droppable(p.pending) then [] else Emits(p.pending), p.(pending := []))
  }

  function TimeOutPaste(p: Proxy): Outcome {
    if p.active then Outcome([PasteIncomplete], p.(active := false, rejected := false, buffer := []))
    else Outcome([], p)
  }

  /** The editor takes a line: the draft's reads are no longer counted, and a held Enter is forgotten. */
  function AfterLine(p: Proxy): Proxy {
    p.(captures := 0, submit := false)
  }

  // ---- The stream class ----

  /** `events` and `q` are what the loop has made of the input before `tail`. */
  ghost predicate LoopedTo(swallow: bool, p: Proxy, input: seq<Byte>, events: seq<Event>, q: Proxy, tail: seq<Byte>) {
    var rest := Scan(swallow, q, tail);
    Scan(swallow, p, input) == Outcome(events + rest.events, rest.proxy)
  }

  lemma LoopGo(swallow: bool, p: Proxy, input: seq<Byte>, events: seq<Event>, q: Proxy, tail: seq<Byte>, m: Move)
    requires tail != [] && LoopedTo(swallow, p, input, events, q, tail)
    requires m == MoveAt(swallow, q, tail) && m.Go?
    ensures LoopedTo(swallow, p, input, events + m.events, m.proxy, tail[m.length..])
  {
    hide MoveAt;
    GoScan(swallow, q, tail);
    var rest := Scan(swallow, m.proxy, tail[m.length..]).events;
    assert events + (m.events + rest) == (events + m.events) + rest;
  }

  lemma LoopStop(swallow: bool, p: Proxy, input: seq<Byte>, events: seq<Event>, q: Proxy, tail: seq<Byte>, m: Move)
    requires tail != [] && LoopedTo(swallow, p, input, events, q, tail)
    requires m == MoveAt(swallow, q, tail) && m.Stop?
    ensures Scan(swallow, p, input) == Outcome(events + m.events, m.proxy)
  {
    hide MoveAt;
  }

  lemma LoopStartAndEnd(swallow: bool, p: Proxy, input: seq<Byte>)
    ensures LoopedTo(swallow, p, input, [], p, input)
    ensures forall events, q :: LoopedTo(swallow, p, input, events, q, []) ==>
              Scan(swallow, p, input) == Outcome(events, q)
  {
    assert [] + Scan(swallow, p, input).events == Scan(swallow, p, input).events;
    forall events, q | LoopedTo(swallow, p, input, events, q, [])
      ensures Scan(swallow, p, input) == Outcome(events, q)
    {
      assert events + [] == events;
    }
  }

  /** A TTY proxy that turns pastes and paste hotkeys into editor events. */
  class ImagePasteInputProxy {
    const swallowInterrupt: bool
    var pendingSequence: seq<Byte>
    var bracketedPasteActive: bool
    var bracketedPasteRejected: bool
    var bracketedPasteBuffer: seq<Byte>
    var pendingCaptureCount: nat
    var submitRequested: bool

    ghost function State(): Proxy
      reads this
    {
      Proxy(pendingSequence, bracketedPasteActive, bracketedPasteRejected, bracketedPasteBuffer,
            pendingCaptureCount, submitRequested)
    }

    constructor (swallowInterrupt: bool)
      ensures State() == IDLE && this.swallowInterrupt == swallowInterrupt
    {
      this.swallowInterrupt := swallowInterrupt;
      pendingSequence, bracketedPasteBuffer := [], [];
      bracketedPasteActive, bracketedPasteRejected, submitRequested := false, false, false;
      pendingCaptureCount := 0;
    }

    /** Handle one chunk of terminal input. */
    method Process(data: seq<Byte>) returns (events: seq<Event>)
      modifies this
      ensures Outcome(events, State()) == ReadChunk(swallowInterrupt, old(State()), data)
    {
      var input := pendingSequence + data;
      var start := Proxy([], bracketedPasteActive, bracketedPasteRejected, bracketedPasteBuffer,
                         pendingCaptureCount, submitRequested);
      var p;
      events, p := ProcessInput(swallowInterrupt, start, input);
      pendingSequence := p.pending;
      bracketedPasteActive := p.active;
      bracketedPasteRejected := p.rejected;
      bracketedPasteBuffer := p.buffer;
      pendingCaptureCount := p.captures;
      submitRequested := p.submit;
    }

    /** One clipboard read has ended; the prompt may go between the two looks at it. */
    method SettleCapture(goneBefore: bool, gone: bool) returns (replaced: bool, pushed: seq<Byte>)
      modifies this`pendingCaptureCount, this`submitRequested
      ensures Outcome([EndCapture(replaced)] + (if pushed == [] then [] else [ReleaseEnter]), State()) ==
                EndRead(old(State()), !goneBefore, gone)
      ensures pushed == [] || pushed == [0x0d]
    {
      replaced := !goneBefore;
      pendingCaptureCount := if pendingCaptureCount > 0 then pendingCaptureCount - 1 else 0;
      pushed := [];
      if pendingCaptureCount == 0 && submitRequested && !gone {
        submitRequested := false;
        pushed := [0x0d];
      }
    }

    /** Nothing has followed the held bytes in time. */
    method OnEscapeTimer() returns (pushed: seq<Byte>)
      modifies this`pendingSequence
      ensures Outcome(Emits(pushed), State()) == TimeOutEscape(old(State()))
    {
      pushed := if Droppable(pendingSequence) then [] else pendingSequence;
      pendingSequence := [];
    }

    /** The closing marker of a paste has not come in time. */
    method OnPasteTimer() returns (failed: bool)
      modifies this`bracketedPasteActive, this`bracketedPasteRejected, this`bracketedPasteBuffer
      ensures Outcome(if failed then [PasteIncomplete] else [], State()) == TimeOutPaste(old(State()))
    {
      failed := bracketedPasteActive;
      if failed {
        bracketedPasteActive, bracketedPasteRejected, bracketedPasteBuffer := false, false, [];
      }
    }

    /** A line is taken: the state of the draft is reset. */
    method ConsumeSubmission()
      modifies this`pendingCaptureCount, this`submitRequested
      ensures State() == AfterLine(old(State()))
    {
      pendingCaptureCount, submitRequested := 0, false;
    }
  }

  /** The byte loop of one chunk; `tail` is the input from the current offset on. */
  method ProcessInput(swallow: bool, start: Proxy, input: seq<Byte>) returns (events: seq<Event>, p: Proxy)
    ensures Scan(swallow, start, input) == Outcome(events, p)
  {
    hide *;
    events, p := [], start;
    var tail := input;
    LoopStartAndEnd(swallow, start, input);
    while tail != []
      invariant LoopedTo(swallow, start, input, events, p, tail)
      decreases |tail|, if p.active then 1 else 0
    {
      var move := MoveAt(swallow, p, tail);
      if move.Stop? {
        LoopStop(swallow, start, input, events, p, tail, move);
        events, p := events + move.events, move.proxy;
        return;
      }
      LoopGo(swallow, start, input, events, p, tail, move);
      events, p := events + move.events, move.proxy;
      tail := tail[move.length..];
    }
  }
}
