/**
 The prompt's byte proxy together with the editor that takes lines from it
 (src/cli/prompt-input.ts). A line resets what the proxy counts for the draft: a
 prompt that is kept open goes on from there, any other prompt is over.
 */
module PromptLines {
  import opened Common
  import opened InputProxy
  import Osc = PrivateOsc

  type Byte = Osc.Byte

  // ---- Enters ----

  predicate IsEnter(e: Event) {
    e == Emit(0x0d) || e == Emit(0x0a) || e == ReleaseEnter
  }

  predicate HasEnter(events: seq<Event>) {
    exists i :: 0 <= i < |events| && IsEnter(events[i])
  }

  /** What one scan from `p` to `q` makes happen, in the order of its counts. */
  ghost predicate ScanSays(p: Proxy, events: seq<Event>, q: Proxy) {
    && q.captures == p.captures + multiset(events)[BeginCapture]
    && (q.submit <==> p.submit || HoldEnter in events)
    && (p.submit ==> events == [])
    && (forall i :: 0 <= i < |events| && IsEnter(events[i]) ==> p.captures == 0 && BeginCapture !in events[..i])
    && (forall i :: 0 <= i < |events| && events[i] == HoldEnter ==> i == |events| - 1)
    && (HoldEnter in events ==> q.captures > 0)
    && (forall e :: e in events ==> !e.EndCapture? && !e.ReleaseEnter?)
  }

  lemma MoveSays(swallow: bool, p: Proxy, s: seq<Byte>)
    requires s != []
    ensures var m := MoveAt(swallow, p, s);
            && ScanSays(p, m.events, m.proxy) && |m.events| <= 1
            && (m.Stop? ==> !HasEnter(m.events) && BeginCapture !in m.events && HoldEnter !in m.events)
            && (p.submit ==> m.Stop?)
            && (m.Go? ==> m.proxy.pending == p.pending)
            && (HasEnter(m.events) ==>
                  !p.active && !p.submit && m == Go([Emit(s[0])], p, 1) && (s[0] == 0x0d || s[0] == 0x0a))
  {
    hide EscapeToken, EndAt, LastFive, ScanSays, HasEnter, TokenAt;
    if p.submit {
      NothingSays(p, p);
    } else if p.active {
      PasteSays(p, s);
    } else {
      TokenEvents(swallow, s);
      TokenSays(p, s, TokenAt(swallow, s));
    }
  }

  lemma NothingSays(p: Proxy, q: Proxy)
    requires q.captures == p.captures && q.submit == p.submit
    ensures ScanSays(p, [], q) && !HasEnter([])
  {}

  lemma OneSays(p: Proxy, e: Event, q: Proxy)
    requires !p.submit && q.captures == p.captures + (if e == BeginCapture then 1 else 0) &&
             (q.submit <==> e == HoldEnter)
    requires (IsEnter(e) ==> p.captures == 0) && (e == HoldEnter ==> q.captures > 0) && !e.EndCapture? &&
             !e.ReleaseEnter?
    ensures ScanSays(p, [e], q) && (HasEnter([e]) <==> IsEnter(e))
  {
    var events := [e];
    assert multiset(events) == multiset{e};
    assert forall x :: x in events <==> x == e;
    assert HasEnter(events) ==> IsEnter(events[0]);
    assert IsEnter(events[0]) ==> HasEnter(events);
    assert events[..0] == [];
  }

  lemma PasteSays(p: Proxy, s: seq<Byte>)
    requires p.active && !p.submit
    ensures var m := PasteMove(p, s);
            && ScanSays(p, m.events, m.proxy) && |m.events| <= 1 && !HasEnter(m.events)
            && BeginCapture !in m.events && HoldEnter !in m.events
            && (m.Go? ==> m.proxy.pending == p.pending)
  {
    hide EndAt, LastFive, ScanSays, HasEnter;
    var m := PasteMove(p, s);
    if m.events == [] {
      NothingSays(p, m.proxy);
    } else {
      OneSays(p, m.events[0], m.proxy);
      assert m.events == [m.events[0]];
    }
  }

  lemma TokenSays(p: Proxy, s: seq<Byte>, token: Token)
    requires s != [] && !p.active && !p.submit
    requires token.Take? ==> 0 < token.length <= |s|
    requires token.OpenPaste? ==> |s| >= 6
    requires token.Take? && token.event.Some? ==> Ordinary(token.event.value)
    requires token.EnterKey? ==> token.byte == s[0] && (s[0] == 0x0d || s[0] == 0x0a)
    ensures var m := TokenMove(p, s, token);
            && ScanSays(p, m.events, m.proxy) && |m.events| <= 1
            && (m.Stop? ==> m.events == [])
            && (m.Stop? ==> !HasEnter(m.events))
            && (m.Go? ==> m.proxy.pending == p.pending)
            && (HasEnter(m.events) ==> m == Go([Emit(s[0])], p, 1) && (s[0] == 0x0d || s[0] == 0x0a))
  {
    hide ScanSays, HasEnter;
    var m := TokenMove(p, s, token);
    if m.events == [] {
      NothingSays(p, m.proxy);
    } else {
      OneSays(p, m.events[0], m.proxy);
      assert m.events == [m.events[0]];
    }
  }

  predicate Ordinary(e: Event) {
    !IsEnter(e) && !e.HoldEnter? && !e.EndCapture? && !e.ReleaseEnter?
  }

  /** No token emits an Enter as an ordinary byte. */
  lemma TokenEvents(swallow: bool, s: seq<Byte>)
    requires s != []
    ensures var token := TokenAt(swallow, s);
            && (token.Take? && token.event.Some? ==> Ordinary(token.event.value))
            && (token.EnterKey? ==> token.byte == s[0] && (s[0] == 0x0d || s[0] == 0x0a))
  {}

  lemma SaysOn(p: Proxy, first: seq<Event>, r: Proxy, rest: seq<Event>, q: Proxy)
    requires ScanSays(p, first, r) && ScanSays(r, rest, q) && |first| <= 1
    ensures ScanSays(p, first + rest, q)
  {
    var both := first + rest;
    assert multiset(both) == multiset(first) + multiset(rest);
    if first == [] {
      assert both == rest;
    } else {
      assert both[0] == first[0];
      forall i | 0 <= i < |rest| ensures both[i + 1] == rest[i] && both[..i + 1] == first + rest[..i] {}
      forall i | 0 <= i < |both| && IsEnter(both[i]) ensures p.captures == 0 && BeginCapture !in both[..i] {
        if i > 0 { assert both[i] == rest[i - 1] && both[..i] == first + rest[..i - 1]; }
      }
      forall i | 0 <= i < |both| && both[i] == HoldEnter ensures i == |both| - 1 {
        if i > 0 { assert both[i] == rest[i - 1]; }
      }
    }
  }

  lemma {:induction false} ScanIsSaid(swallow: bool, p: Proxy, s: seq<Byte>)
    ensures var o := Scan(swallow, p, s); ScanSays(p, o.events, o.proxy)
    decreases |s|, if p.active then 1 else 0
  {
    if s != [] {
      hide MoveAt, ScanSays;
      var m := MoveAt(swallow, p, s);
      MoveSays(swallow, p, s);
      if m.Go? {
        ScanIsSaid(swallow, m.proxy, s[m.length..]);
        SaysOn(p, m.events, m.proxy, Scan(swallow, m.proxy, s[m.length..]).events, Scan(swallow, p, s).proxy);
      }
    } else {
      assert ScanSays(p, [], p);
    }
  }

  // ---- What is held between two chunks ----

  /** The held bytes wait for more, and only where nothing else is going on. */
  predicate Resting(swallow: bool, p: Proxy) {
    && Coherent(p)
    && (p.pending != [] ==> !p.active && !p.submit && TokenAt(swallow, p.pending).Wait?)
    && (p.submit ==> !p.active)
  }

  lemma {:induction false} ScanRests(swallow: bool, p: Proxy, s: seq<Byte>)
    requires Coherent(p) && p.pending == [] && (p.submit ==> !p.active)
    ensures Resting(swallow, Scan(swallow, p, s).proxy)
    decreases |s|, if p.active then 1 else 0
  {
    if s != [] {
      hide TokenAt, EndAt;
      var m := MoveAt(swallow, p, s);
      if m.Go? {
        MoveCoherent(swallow, p, s);
        ScanRests(swallow, m.proxy, s[m.length..]);
      } else if p.active && !p.submit {
        var q := OpenPasteFirst(swallow, p, s, []);
      }
    }
  }

  // ---- Runs of the prompt ----

  /** `reading` counts the clipboard reads that have begun and not ended, whatever the proxy counts. */
  datatype Prompt = Prompt(proxy: Proxy, reading: nat, over: bool)

  /**
   `line` says that the editor takes a line from the Enters of a step; `replaced`
   that the prompt was still there when the outcome of a read arrived, `gone`
   that it no longer is.
   */
  datatype Step =
    | Chunk(data: seq<Byte>, line: bool)
    | ReadEnds(replaced: bool, gone: bool, line: bool)
    | EscapeTimeout
    | PasteTimeout

  const START := Prompt(IDLE, 0, false)

  function Happens(swallow: bool, p: Proxy, step: Step): Outcome {
    match step
    case Chunk(data, _) => ReadChunk(swallow, p, data)
    case ReadEnds(replaced, gone, _) => EndRead(p, replaced, gone)
    case EscapeTimeout => TimeOutEscape(p)
    case PasteTimeout => TimeOutPaste(p)
  }

  predicate Line(step: Step) {
    (step.Chunk? || step.ReadEnds?) && step.line
  }

  /** A line needs an Enter, an end needs a read, and a prompt that is over only waits for its reads. */
  predicate Enabled(swallow: bool, w: Prompt, step: Step) {
    && (Line(step) ==> HasEnter(Happens(swallow, w.proxy, step).events))
    && (step.ReadEnds? ==> w.reading > 0 && (!step.replaced ==> step.gone))
    && (w.over ==> step.ReadEnds? && step.gone)
  }

  function Next(kept: bool, swallow: bool, w: Prompt, step: Step): Prompt {
    var o := Happens(swallow, w.proxy, step);
    Prompt(if Line(step) then AfterLine(o.proxy) else o.proxy,
           if !step.ReadEnds? then w.reading + multiset(o.events)[BeginCapture]
           else if w.reading > 0 then w.reading - 1
           else 0,
           w.over || (Line(step) && !kept))
  }

  /** The prompt before each step, and after the last one. */
  function After(kept: bool, swallow: bool, steps: seq<Step>, n: nat): Prompt
    requires n <= |steps|
  {
    if n == 0 then START else Next(kept, swallow, After(kept, swallow, steps, n - 1), steps[n - 1])
  }

  function Events(kept: bool, swallow: bool, steps: seq<Step>, n: nat): seq<Event>
    requires n < |steps|
  {
    Happens(swallow, After(kept, swallow, steps, n).proxy, steps[n]).events
  }

  ghost predicate Possible(kept: bool, swallow: bool, steps: seq<Step>) {
    forall n :: 0 <= n < |steps| ==> Enabled(swallow, After(kept, swallow, steps, n), steps[n])
  }

  /** Every Enter among the events comes when each read begun before it has ended. */
  ghost predicate Waits(reading: nat, events: seq<Event>) {
    forall i :: 0 <= i < |events| && IsEnter(events[i]) ==>
      reading + multiset(events[..i])[BeginCapture] ==
        multiset(events[..i])[EndCapture(true)] + multiset(events[..i])[EndCapture(false)]
  }

  /** A clipboard read begins behind an Enter of the same chunk. */
  predicate ReadBehindEnter(events: seq<Event>) {
    exists i, j :: 0 <= i < j < |events| && IsEnter(events[i]) && events[j] == BeginCapture
  }

  /** An Enter is held behind another one of the same chunk. */
  predicate HoldBehindEnter(events: seq<Event>) {
    exists i, j :: 0 <= i < j < |events| && IsEnter(events[i]) && events[j] == HoldEnter
  }

  ghost predicate PromptOk(swallow: bool, w: Prompt) {
    Resting(swallow, w.proxy) && w.proxy.captures <= w.reading
  }

  lemma StepRests(kept: bool, swallow: bool, w: Prompt, step: Step)
    requires PromptOk(swallow, w) && Enabled(swallow, w, step)
    ensures PromptOk(swallow, Next(kept, swallow, w, step))
  {
    var p := w.proxy;
    if step.Chunk? {
      ScanIsSaid(swallow, p.(pending := []), p.pending + step.data);
      ScanRests(swallow, p.(pending := []), p.pending + step.data);
    }
    hide Scan, TokenAt, HasEnter, Droppable, EndAt;
    assert EndAt([]) == -1 by { EndOfNothing(); }
  }

  lemma EndOfNothing()
    ensures EndAt([]) == -1
  {}

  lemma AfterStep(kept: bool, swallow: bool, steps: seq<Step>, n: nat)
    requires n < |steps|
    ensures After(kept, swallow, steps, n + 1) == Next(kept, swallow, After(kept, swallow, steps, n), steps[n])
    ensures Possible(kept, swallow, steps) ==> Enabled(swallow, After(kept, swallow, steps, n), steps[n])
  {
    hide Next, Enabled;
  }

  lemma StartRests(kept: bool, swallow: bool, steps: seq<Step>)
    ensures After(kept, swallow, steps, 0) == START && PromptOk(swallow, START)
  {
    EndOfNothing();
    hide EndAt;
  }

  lemma {:induction false} RunRests(kept: bool, swallow: bool, steps: seq<Step>, n: nat)
    requires Possible(kept, swallow, steps) && n <= |steps|
    ensures PromptOk(swallow, After(kept, swallow, steps, n))
    decreases n
  {
    hide *;
    if n == 0 {
      StartRests(kept, swallow, steps);
    } else {
      RunRests(kept, swallow, steps, n - 1);
      AfterStep(kept, swallow, steps, n - 1);
      StepRests(kept, swallow, After(kept, swallow, steps, n - 1), steps[n - 1]);
    }
  }

  // ---- When an Enter waits for the clipboard ----

  /** The proxy counts every read that is going on. */
  predicate Synced(w: Prompt) {
    !w.over ==> w.proxy.captures == w.reading
  }

  /** A step that takes a line from a kept-open prompt while a read behind the Enter goes on. */
  predicate LosesCount(kept: bool, events: seq<Event>, step: Step) {
    kept && Line(step) && ReadBehindEnter(events)
  }

  lemma ScanWaits(swallow: bool, p: Proxy, data: seq<Byte>)
    ensures Waits(p.captures, ReadChunk(swallow, p, data).events)
  {
    var start := p.(pending := []);
    ScanIsSaid(swallow, start, p.pending + data);
    hide Scan;
    var events := ReadChunk(swallow, p, data).events;
    forall i | 0 <= i < |events| && IsEnter(events[i])
      ensures p.captures == 0 && multiset(events[..i])[BeginCapture] == 0
      ensures multiset(events[..i])[EndCapture(true)] == 0 && multiset(events[..i])[EndCapture(false)] == 0
    {
      assert forall e :: e in events[..i] ==> e in events;
      assert EndCapture(true) !in events[..i] && EndCapture(false) !in events[..i] && BeginCapture !in events[..i];
    }
  }

  lemma NoEnterWaits(reading: nat, events: seq<Event>)
    requires forall e :: e in events ==> !IsEnter(e)
    ensures Waits(reading, events)
  {}

  /** The last counted read is the last one, so the Enter it releases waits for no other. */
  lemma EndWaits(w: Prompt, replaced: bool, gone: bool)
    requires w.reading > 0 && (gone || w.proxy.captures == w.reading)
    ensures Waits(w.reading, EndRead(w.proxy, replaced, gone).events)
  {
    var events := EndRead(w.proxy, replaced, gone).events;
    assert events[..1] == [EndCapture(replaced)];
    assert multiset(events[..1]) == multiset{EndCapture(replaced)};
  }

  /** Held bytes that are not dropped begin a hotkey. */
  lemma PushedIsHotkey(swallow: bool, held: seq<Byte>)
    requires held != [] && TokenAt(swallow, held).Wait? && !Droppable(held)
    ensures CutHotkey(held)
  {
    Osc.ParseIsNoFrame(held);
    assert EscapeToken(held).Wait?;
    assert |held| == 1 ==> held < PasteStart();
    if |held| > 1 { FrameStart(held); }
    hide Hotkey, Osc.PrivateOscPrefix, Osc.LooksLikeFrame;
  }

  lemma FrameStart(held: seq<Byte>)
    requires |held| > 1
    ensures Osc.LooksLikeFrame(held) ==> held[1] == 0x5d
  {}

  lemma PrefixOf(held: seq<Byte>, word: seq<Byte>)
    requires held < word
    ensures forall i :: 0 <= i < |held| ==> held[i] == word[i]
  {}

  lemma CutHasNoEnter(held: seq<Byte>)
    requires CutHotkey(held)
    ensures forall i :: 0 <= i < |held| ==> held[i] != 0x0d && held[i] != 0x0a
  {
    if held < Hotkey(0x35) {
      PrefixOf(held, Hotkey(0x35));
    } else if held < Hotkey(0x36) {
      PrefixOf(held, Hotkey(0x36));
    } else {
      PrefixOf(held, Hotkey(0x39));
    }
  }

  /** Bytes that time out hold no Enter. */
  lemma TimeOutHasNoEnter(swallow: bool, p: Proxy)
    requires Resting(swallow, p)
    ensures forall e :: e in TimeOutEscape(p).events ==> !IsEnter(e) && e != BeginCapture && e != HoldEnter
  {
    var events := TimeOutEscape(p).events;
    if p.pending != [] && !Droppable(p.pending) {
      PushedIsHotkey(swallow, p.pending);
      CutHasNoEnter(p.pending);
      hide TokenAt, CutHotkey, Droppable;
      forall e | e in events ensures !IsEnter(e) && e != BeginCapture && e != HoldEnter {
        var i :| 0 <= i < |events| && events[i] == e;
      }
    }
  }

  lemma ChunkSyncs(kept: bool, swallow: bool, w: Prompt, data: seq<Byte>, line: bool)
    requires Enabled(swallow, w, Chunk(data, line)) && Synced(w)
    requires !LosesCount(kept, ReadChunk(swallow, w.proxy, data).events, Chunk(data, line))
    ensures Synced(Next(kept, swallow, w, Chunk(data, line)))
    ensures Waits(w.reading, ReadChunk(swallow, w.proxy, data).events)
  {
    var events := ReadChunk(swallow, w.proxy, data).events;
    ScanWaits(swallow, w.proxy, data);
    ScanIsSaid(swallow, w.proxy.(pending := []), w.proxy.pending + data);
    hide Scan, Waits;
    if line && kept {
      var i :| 0 <= i < |events| && IsEnter(events[i]);
      forall j | 0 <= j < |events| ensures events[j] != BeginCapture {
        if j > i { assert !(IsEnter(events[i]) && events[j] == BeginCapture); }
        if j < i { assert events[j] in events[..i]; }
      }
      assert BeginCapture !in events;
    }
  }

  lemma EscapeSyncs(kept: bool, swallow: bool, w: Prompt)
    requires Resting(swallow, w.proxy) && Synced(w)
    ensures Synced(Next(kept, swallow, w, EscapeTimeout))
    ensures Waits(w.reading, TimeOutEscape(w.proxy).events)
  {
    TimeOutHasNoEnter(swallow, w.proxy);
    TimeOutKeepsCounts(w.proxy);
    hide TimeOutEscape, Waits, Resting;
    NoEnterWaits(w.reading, TimeOutEscape(w.proxy).events);
    assert BeginCapture !in TimeOutEscape(w.proxy).events;
  }

  lemma PasteSyncs(kept: bool, swallow: bool, w: Prompt)
    requires Synced(w)
    ensures Synced(Next(kept, swallow, w, PasteTimeout))
    ensures Waits(w.reading, TimeOutPaste(w.proxy).events)
  {
    hide Waits;
    NoEnterWaits(w.reading, TimeOutPaste(w.proxy).events);
  }

  lemma StepSyncs(kept: bool, swallow: bool, w: Prompt, step: Step)
    requires PromptOk(swallow, w) && Enabled(swallow, w, step) && Synced(w)
    requires !LosesCount(kept, Happens(swallow, w.proxy, step).events, step)
    ensures Synced(Next(kept, swallow, w, step))
    ensures Waits(w.reading, Happens(swallow, w.proxy, step).events)
  {
    match step
    case Chunk(data, line) =>
      hide Synced, Waits, LosesCount, Next, ReadChunk;
      ChunkSyncs(kept, swallow, w, data, line);
    case ReadEnds(replaced, gone, line) =>
      EndWaits(w, replaced, gone);
      hide PromptOk, Waits, LosesCount, HasEnter;
    case EscapeTimeout =>
      hide Synced, Waits, Next, TimeOutEscape, Resting;
      EscapeSyncs(kept, swallow, w);
    case PasteTimeout =>
      hide Synced, Waits, Next, TimeOutPaste;
      PasteSyncs(kept, swallow, w);
  }

  lemma TimeOutKeepsCounts(p: Proxy)
    ensures var q := TimeOutEscape(p).proxy; q.captures == p.captures && q.submit == p.submit && q.pending == []
  {}

  lemma {:induction false} RunSyncs(kept: bool, swallow: bool, steps: seq<Step>, n: nat)
    requires Possible(kept, swallow, steps) && n <= |steps|
    requires forall i :: 0 <= i < n ==> !LosesCount(kept, Events(kept, swallow, steps, i), steps[i])
    ensures Synced(After(kept, swallow, steps, n))
    decreases n
  {
    hide After, Next, Possible, LosesCount, Synced, Enabled, PromptOk, Happens;
    if n == 0 {
      StartRests(kept, swallow, steps);
      assert Synced(START) by { StartSynced(); }
    } else {
      RunSyncs(kept, swallow, steps, n - 1);
      RunRests(kept, swallow, steps, n - 1);
      AfterStep(kept, swallow, steps, n - 1);
      assert !LosesCount(kept, Events(kept, swallow, steps, n - 1), steps[n - 1]);
      StepSyncs(kept, swallow, After(kept, swallow, steps, n - 1), steps[n - 1]);
    }
  }

  lemma StartSynced()
    ensures Synced(START)
  {}

  /** While every read is counted, no Enter of any step comes before a read that is going on has ended. */
  lemma EnterWaitsForCaptures(kept: bool, swallow: bool, steps: seq<Step>)
    requires Possible(kept, swallow, steps)
    requires forall n :: 0 <= n < |steps| ==> !LosesCount(kept, Events(kept, swallow, steps, n), steps[n])
    ensures forall n :: 0 <= n < |steps| ==>
              Waits(After(kept, swallow, steps, n).reading, Events(kept, swallow, steps, n))
  {
    forall n | 0 <= n < |steps|
      ensures Waits(After(kept, swallow, steps, n).reading, Events(kept, swallow, steps, n))
    {
      hide After, Next, Possible, LosesCount, Synced, Enabled, PromptOk, Happens, Waits;
      RunSyncs(kept, swallow, steps, n);
      RunRests(kept, swallow, steps, n);
      AfterStep(kept, swallow, steps, n);
      StepSyncs(kept, swallow, After(kept, swallow, steps, n), steps[n]);
    }
  }

  // ---- An Enter that does not wait ----

  /** Bytes that are passed on one by one. */
  predicate Plain(b: Byte) {
    b != 0x03 && b != 0x08 && b != 0x7f && b != 0x16 && b != 0x14 && b != 0x1b && b != 0x0d && b != 0x0a
  }

  lemma {:induction false} PlainThenEnter(swallow: bool, p: Proxy, u: seq<Byte>)
    requires !p.active && !p.submit && p.captures == 0 && forall b :: b in u ==> Plain(b)
    ensures Emit(0x0d) in Scan(swallow, p, u + [0x0d]).events
    decreases |u|
  {
    var s := u + [0x0d];
    if u == [] {
      assert s == [0x0d] && s[1..] == [];
    } else {
      assert u[0] in u && forall b :: b in u[1..] ==> b in u;
      assert s[0] == u[0] && s[1..] == u[1..] + [0x0d];
      PlainThenEnter(swallow, p, u[1..]);
      assert TokenAt(swallow, s) == Take(1, Some(Emit(u[0])));
      hide TokenAt;
      GoScan(swallow, p, s);
    }
  }

  /** Whatever is held, some chunk gets an Enter through as long as no read is counted. */
  lemma EnterGetsThrough(swallow: bool, p: Proxy) returns (data: seq<Byte>)
    requires Resting(swallow, p) && !p.submit && p.captures == 0
    ensures Emit(0x0d) in ReadChunk(swallow, p, data).events
  {
    var start := p.(pending := []);
    if p.active {
      data := PasteEnd() + [0x0d];
      EnterAfterPaste(swallow, start);
      assert p.pending + data == data;
    } else if p.pending == [] {
      data := [0x0d];
      assert p.pending + data == [] + [0x0d];
      PlainThenEnter(swallow, start, []);
    } else {
      data := [0x78, 0x07, 0x0d];
      EnterAfterHeld(swallow, start, p.pending);
    }
  }

  lemma EnterAfterPaste(swallow: bool, p: Proxy)
    requires p.active && !p.submit && p.captures == 0 && Coherent(p)
    ensures Emit(0x0d) in Scan(swallow, p, PasteEnd() + [0x0d]).events
  {
    var s := PasteEnd() + [0x0d];
    EndFoundWherePut(p.buffer);
    EndStable(p.buffer + PasteEnd(), [0x0d]);
    assert p.buffer + s == (p.buffer + PasteEnd()) + [0x0d];
    hide EndAt, PasteEnd;
    PasteFound(swallow, p, s);
    var m := PasteMove(p, s);
    assert s[m.length..] == [] + [0x0d];
    PlainThenEnter(swallow, m.proxy, []);
  }

  /** A held sequence followed by x, BEL and Enter: a private frame ends there, and anything else is passed on. */
  lemma EnterAfterHeld(swallow: bool, p: Proxy, held: seq<Byte>)
    requires !p.active && !p.submit && p.captures == 0 && held != [] && TokenAt(swallow, held).Wait?
    ensures Emit(0x0d) in Scan(swallow, p, held + [0x78, 0x07, 0x0d]).events
  {
    var s := held + [0x78, 0x07, 0x0d];
    if Osc.PrivateOscPrefix() <= held {
      HeldFrame(swallow, held);
      assert s[|held| + 2..] == [] + [0x0d];
      PlainThenEnter(swallow, p, []);
      hide TokenAt;
      GoScan(swallow, p, s);
    } else {
      HeldWord(swallow, held);
      var u := held[1..] + [0x78, 0x07];
      assert s[1..] == u + [0x0d];
      PlainThenEnter(swallow, p, u);
      hide TokenAt;
      GoScan(swallow, p, s);
    }
  }

  lemma HeldFrame(swallow: bool, held: seq<Byte>)
    requires held != [] && TokenAt(swallow, held).Wait? && Osc.PrivateOscPrefix() <= held
    ensures TokenAt(swallow, held + [0x78, 0x07, 0x0d]) == Take(|held| + 2, None)
  {
    var s := held + [0x78, 0x07, 0x0d];
    Osc.ParseIsNoFrame(held);
    assert Osc.ParsePrivateOsc(held).Partial? && Osc.Terminator(held) == -1;
    var t := |held| + 1;
    Osc.TerminatorStable(held, [0x78, 0x07, 0x0d]);
    assert s[t] == 0x07 && s[t - 1] == 0x78;
    assert Osc.Terminator(s) == t;
    assert s[17..t][t - 18] == 0x78;
    assert s[17..t] != Osc.PasteImagePayload();
    assert s[..17] == Osc.PrivateOscPrefix();
    assert s[1] == 0x5d;
  }

  /** A word without x that is not held whole cannot begin with the held bytes and x. */
  lemma NotContinued(word: seq<Byte>, held: seq<Byte>, s: seq<Byte>)
    requires 0x78 !in word && !(word <= held) && s == held + [0x78, 0x07, 0x0d]
    ensures !(word <= s) && !(s <= word)
  {
    if |held| < |word| {
      assert s[|held|] == 0x78 && word[|held|] in word;
    }
    assert |word| <= |held| ==> held[..|word|] == s[..|word|];
  }

  /** What a held sequence other than a private frame begins. */
  lemma HeldBegins(swallow: bool, held: seq<Byte>)
    requires held != [] && TokenAt(swallow, held).Wait? && !(Osc.PrivateOscPrefix() <= held)
    ensures held[0] == 0x1b && !(PasteStart() <= held) && !IsHotkey(held)
    ensures || held < PasteStart() || held < Hotkey(0x35) || held < Hotkey(0x36) || held < Hotkey(0x39)
            || held < Osc.PrivateOscPrefix()
  {
    Osc.ParseIsNoFrame(held);
    assert EscapeToken(held).Wait?;
    if |held| == 1 { assert held == [0x1b] && held == PasteStart()[..1]; }
  }

  lemma WordsArePlain(word: seq<Byte>, held: seq<Byte>)
    requires held < word && held != [] && PlainWord(word)
    ensures forall b :: b in held[1..] + [0x78, 0x07] ==> Plain(b)
  {
    var u := held[1..] + [0x78, 0x07];
    forall b | b in u ensures Plain(b) {
      var i :| 0 <= i < |u| && u[i] == b;
      if i < |held| - 1 { assert u[i] == held[i + 1] == word[i + 1]; }
    }
  }

  /** Behind its ESC every word of the proxy is plain. */
  predicate PlainWord(word: seq<Byte>) {
    forall i :: 0 < i < |word| ==> Plain(word[i])
  }

  lemma PlainWords()
    ensures PlainWord(PasteStart()) && PlainWord(Osc.PrivateOscPrefix())
    ensures PlainWord(Hotkey(0x35)) && PlainWord(Hotkey(0x36)) && PlainWord(Hotkey(0x39))
  {}

  lemma HeldIsPlain(swallow: bool, held: seq<Byte>)
    requires held != [] && TokenAt(swallow, held).Wait? && !(Osc.PrivateOscPrefix() <= held)
    ensures forall b :: b in held[1..] + [0x78, 0x07] ==> Plain(b)
  {
    hide TokenAt, PlainWord, Plain, PasteStart, Hotkey, Osc.PrivateOscPrefix;
    HeldBegins(swallow, held);
    PlainWords();
    if held < PasteStart() {
      WordsArePlain(PasteStart(), held);
    } else if held < Hotkey(0x35) {
      WordsArePlain(Hotkey(0x35), held);
    } else if held < Hotkey(0x36) {
      WordsArePlain(Hotkey(0x36), held);
    } else if held < Hotkey(0x39) {
      WordsArePlain(Hotkey(0x39), held);
    } else {
      WordsArePlain(Osc.PrivateOscPrefix(), held);
    }
  }

  lemma NoWordGoesOn(held: seq<Byte>, s: seq<Byte>)
    requires s == held + [0x78, 0x07, 0x0d] && !(PasteStart() <= held) && !IsHotkey(held)
    requires !(Osc.PrivateOscPrefix() <= held)
    ensures !(PasteStart() <= s) && !(s < PasteStart()) && !IsHotkey(s) && !CutHotkey(s) && !Osc.LooksLikeFrame(s)
  {
    NotContinued(PasteStart(), held, s);
    NotContinued(Hotkey(0x35), held, s);
    NotContinued(Hotkey(0x36), held, s);
    NotContinued(Hotkey(0x39), held, s);
    NotContinued(Osc.PrivateOscPrefix(), held, s);
    hide PasteStart, Hotkey, Osc.PrivateOscPrefix;
  }

  lemma LoneEscapeToken(swallow: bool, s: seq<Byte>)
    requires |s| > 1 && s[0] == 0x1b
    requires !(PasteStart() <= s) && !(s < PasteStart()) && !IsHotkey(s) && !CutHotkey(s) && !Osc.LooksLikeFrame(s)
    ensures TokenAt(swallow, s) == Take(1, Some(Emit(0x1b)))
  {
    Osc.ParseIsNoFrame(s);
    hide PasteStart, IsHotkey, CutHotkey, Osc.LooksLikeFrame, Osc.ParsePrivateOsc;
  }

  /** Other held sequences begin a word of plain bytes that x does not continue. */
  lemma HeldWord(swallow: bool, held: seq<Byte>)
    requires held != [] && TokenAt(swallow, held).Wait? && !(Osc.PrivateOscPrefix() <= held)
    ensures TokenAt(swallow, held + [0x78, 0x07, 0x0d]) == Take(1, Some(Emit(0x1b)))
    ensures forall b :: b in held[1..] + [0x78, 0x07] ==> Plain(b)
  {
    hide *;
    HeldBegins(swallow, held);
    HeldIsPlain(swallow, held);
    NoWordGoesOn(held, held + [0x78, 0x07, 0x0d]);
    LoneEscapeToken(swallow, held + [0x78, 0x07, 0x0d]);
  }

  /** At no moment of the run can a next chunk get an Enter through before a read that is going on has ended. */
  ghost predicate NeverEarly(kept: bool, swallow: bool, steps: seq<Step>) {
    forall n, data :: 0 <= n <= |steps| && !After(kept, swallow, steps, n).over ==>
      Waits(After(kept, swallow, steps, n).reading,
            ReadChunk(swallow, After(kept, swallow, steps, n).proxy, data).events)
  }

  /** A line taken with a read behind its Enter leaves the read uncounted. */
  lemma LostCountShows(kept: bool, swallow: bool, w: Prompt, step: Step) returns (data: seq<Byte>)
    requires PromptOk(swallow, w) && Enabled(swallow, w, step)
    requires LosesCount(kept, Happens(swallow, w.proxy, step).events, step)
    ensures var next := Next(kept, swallow, w, step);
            && !next.over && !Waits(next.reading, ReadChunk(swallow, next.proxy, data).events)
  {
    var next := Next(kept, swallow, w, step);
    var events := Happens(swallow, w.proxy, step).events;
    StepRests(kept, swallow, w, step);
    assert step.Chunk?;
    assert BeginCapture in events;
    assert next.reading > 0 && next.proxy.captures == 0 && !next.proxy.submit;
    hide Scan, Happens, LosesCount, Next, PromptOk;
    assert Resting(swallow, next.proxy) by { PromptRests(swallow, next); }
    data := EnterGetsThrough(swallow, next.proxy);
    var later := ReadChunk(swallow, next.proxy, data).events;
    ScanIsSaid(swallow, next.proxy.(pending := []), next.proxy.pending + data);
    var i :| 0 <= i < |later| && later[i] == Emit(0x0d);
    assert IsEnter(later[i]);
    assert forall e :: e in later[..i] ==> e in later;
    assert EndCapture(true) !in later[..i] && EndCapture(false) !in later[..i];
  }

  lemma PromptRests(swallow: bool, w: Prompt)
    requires PromptOk(swallow, w)
    ensures Resting(swallow, w.proxy)
  {}

  /**
   In a possible run, Enters wait for the clipboard whatever comes next, if and
   only if no line is taken from a kept-open prompt while a read goes on that
   began behind an Enter of the same chunk.
   */
  lemma EnterWaitsIff(kept: bool, swallow: bool, steps: seq<Step>)
    requires Possible(kept, swallow, steps)
    ensures NeverEarly(kept, swallow, steps) <==>
              forall n :: 0 <= n < |steps| ==> !LosesCount(kept, Events(kept, swallow, steps, n), steps[n])
  {
    if n :| 0 <= n < |steps| && LosesCount(kept, Events(kept, swallow, steps, n), steps[n]) {
      hide After, Next, Possible, LosesCount, Enabled, PromptOk, Happens, Waits;
      RunRests(kept, swallow, steps, n);
      AfterStep(kept, swallow, steps, n);
      var data := LostCountShows(kept, swallow, After(kept, swallow, steps, n), steps[n]);
      assert !After(kept, swallow, steps, n + 1).over;
    } else {
      forall n, data | 0 <= n <= |steps| && !After(kept, swallow, steps, n).over
        ensures Waits(After(kept, swallow, steps, n).reading,
                      ReadChunk(swallow, After(kept, swallow, steps, n).proxy, data).events)
      {
        hide After, Next, Possible, LosesCount, Enabled, PromptOk, Happens, Waits;
        RunSyncs(kept, swallow, steps, n);
        ScanWaits(swallow, After(kept, swallow, steps, n).proxy, data);
      }
    }
  }

  // ---- What becomes of a held Enter ----

  /** A step that takes a line while an Enter is held behind another one of its chunk. */
  predicate LosesEnter(events: seq<Event>, step: Step) {
    Line(step) && HoldBehindEnter(events)
  }

  /** Everything that has happened before step `n`. */
  function Trace(kept: bool, swallow: bool, steps: seq<Step>, n: nat): seq<Event>
    requires n <= |steps|
  {
    if n == 0 then [] else Trace(kept, swallow, steps, n - 1) + Events(kept, swallow, steps, n - 1)
  }

  function One(b: bool): nat {
    if b then 1 else 0
  }

  /** The Enters lost before step `n`. */
  function Lost(kept: bool, swallow: bool, steps: seq<Step>, n: nat): nat
    requires n <= |steps|
  {
    if n == 0 then 0
    else Lost(kept, swallow, steps, n - 1) + One(LosesEnter(Events(kept, swallow, steps, n - 1), steps[n - 1]))
  }

  lemma {:induction false} CountOfLast(events: seq<Event>)
    requires forall i :: 0 <= i < |events| && events[i] == HoldEnter ==> i == |events| - 1
    ensures multiset(events)[HoldEnter] == One(HoldEnter in events)
  {
    if |events| > 0 {
      var n := |events| - 1;
      assert events == events[..n] + [events[n]];
      assert multiset(events) == multiset(events[..n]) + multiset{events[n]};
      assert HoldEnter !in events[..n];
    }
  }

  lemma ChunkHolds(kept: bool, swallow: bool, w: Prompt, data: seq<Byte>, line: bool)
    requires Enabled(swallow, w, Chunk(data, line))
    ensures var events, step := ReadChunk(swallow, w.proxy, data).events, Chunk(data, line);
            && multiset(events)[ReleaseEnter] == 0
            && One(w.proxy.submit) + multiset(events)[HoldEnter] ==
                 One(LosesEnter(events, step)) + One(Next(kept, swallow, w, step).proxy.submit)
  {
    var o := ReadChunk(swallow, w.proxy, data);
    var events := o.events;
    ScanIsSaid(swallow, w.proxy.(pending := []), w.proxy.pending + data);
    hide Scan;
    CountOfLast(events);
    assert ReleaseEnter !in events;
    if line {
      var i :| 0 <= i < |events| && IsEnter(events[i]);
      if HoldEnter in events {
        assert events[|events| - 1] == HoldEnter && i < |events| - 1;
      }
    }
  }

  lemma EndHolds(kept: bool, swallow: bool, w: Prompt, replaced: bool, gone: bool, line: bool)
    requires Enabled(swallow, w, ReadEnds(replaced, gone, line))
    ensures var events, step := EndRead(w.proxy, replaced, gone).events, ReadEnds(replaced, gone, line);
            One(w.proxy.submit) + multiset(events)[HoldEnter] ==
              multiset(events)[ReleaseEnter] + One(LosesEnter(events, step)) +
              One(Next(kept, swallow, w, step).proxy.submit)
  {
    var events := EndRead(w.proxy, replaced, gone).events;
    if |events| == 1 {
      assert events == [EndCapture(replaced)] && !HasEnter(events);
      assert multiset(events) == multiset{EndCapture(replaced)};
    } else {
      assert events == [EndCapture(replaced)] + [ReleaseEnter];
      assert multiset(events) == multiset{EndCapture(replaced)} + multiset{ReleaseEnter};
    }
  }

  lemma TimeOutsHold(swallow: bool, p: Proxy)
    requires Resting(swallow, p)
    ensures var o := TimeOutEscape(p);
            && multiset(o.events)[HoldEnter] == multiset(o.events)[ReleaseEnter] == 0
            && o.proxy.submit == p.submit && (p.submit ==> o.events == [])
    ensures var o := TimeOutPaste(p);
            && multiset(o.events)[HoldEnter] == multiset(o.events)[ReleaseEnter] == 0
            && o.proxy.submit == p.submit && (p.submit ==> o.events == [])
  {
    TimeOutHasNoEnter(swallow, p);
    TimeOutKeepsCounts(p);
    var events := TimeOutEscape(p).events;
    assert p.submit ==> events == [] by { assert [] < PasteStart(); }
    hide TimeOutEscape, Resting;
    assert IsEnter(ReleaseEnter) && ReleaseEnter !in events && HoldEnter !in events;
  }

  lemma TimeOutStepHolds(kept: bool, swallow: bool, w: Prompt, step: Step)
    requires Resting(swallow, w.proxy) && (step.EscapeTimeout? || step.PasteTimeout?)
    ensures var events := Happens(swallow, w.proxy, step).events;
            && multiset(events)[HoldEnter] == multiset(events)[ReleaseEnter] == 0
            && !LosesEnter(events, step) && Next(kept, swallow, w, step).proxy.submit == w.proxy.submit
  {
    TimeOutsHold(swallow, w.proxy);
    hide TimeOutEscape, TimeOutPaste, Resting;
  }

  lemma StepHolds(kept: bool, swallow: bool, w: Prompt, step: Step)
    requires PromptOk(swallow, w) && Enabled(swallow, w, step)
    ensures var events := Happens(swallow, w.proxy, step).events;
            One(w.proxy.submit) + multiset(events)[HoldEnter] ==
              multiset(events)[ReleaseEnter] + One(LosesEnter(events, step)) +
              One(Next(kept, swallow, w, step).proxy.submit)
  {
    hide ReadChunk, EndRead, Next, LosesEnter, HasEnter, One, Resting, TimeOutEscape, TimeOutPaste;
    match step
    case Chunk(data, line) => ChunkHolds(kept, swallow, w, data, line);
    case ReadEnds(replaced, gone, line) => EndHolds(kept, swallow, w, replaced, gone, line);
    case _ =>
      TimeOutStepHolds(kept, swallow, w, step);
      OneIs(false);
  }

  lemma HeldBlocks(swallow: bool, w: Prompt, step: Step)
    requires PromptOk(swallow, w) && w.proxy.submit && !step.ReadEnds?
    ensures Happens(swallow, w.proxy, step).events == []
  {
    if step.Chunk? {
      ScanIsSaid(swallow, w.proxy.(pending := []), w.proxy.pending + step.data);
      hide Scan;
    } else {
      TimeOutsHold(swallow, w.proxy);
      hide TimeOutEscape, TimeOutPaste;
    }
  }

  lemma TraceStep(kept: bool, swallow: bool, steps: seq<Step>, n: nat)
    requires n < |steps|
    ensures var events := Events(kept, swallow, steps, n);
            && multiset(Trace(kept, swallow, steps, n + 1)) ==
                 multiset(Trace(kept, swallow, steps, n)) + multiset(events)
            && Lost(kept, swallow, steps, n + 1) == Lost(kept, swallow, steps, n) + One(LosesEnter(events, steps[n]))
  {
    hide Events, LosesEnter, One;
  }

  lemma {:induction false} HeldBalance(kept: bool, swallow: bool, steps: seq<Step>, n: nat)
    requires Possible(kept, swallow, steps) && n <= |steps|
    ensures var trace := multiset(Trace(kept, swallow, steps, n));
            trace[HoldEnter] == trace[ReleaseEnter] + Lost(kept, swallow, steps, n) +
                                One(After(kept, swallow, steps, n).proxy.submit)
    decreases n
  {
    hide After, Next, Possible, LosesEnter, Enabled, PromptOk, Happens, One;
    if n == 0 {
      StartRests(kept, swallow, steps);
      assert One(false) == 0 by { OneIs(false); }
    } else {
      hide Trace, Lost;
      HeldBalance(kept, swallow, steps, n - 1);
      RunRests(kept, swallow, steps, n - 1);
      AfterStep(kept, swallow, steps, n - 1);
      StepHolds(kept, swallow, After(kept, swallow, steps, n - 1), steps[n - 1]);
      TraceStep(kept, swallow, steps, n - 1);
    }
  }

  lemma OneIs(b: bool)
    ensures One(b) == if b then 1 else 0
  {}

  lemma {:induction false} LostIff(kept: bool, swallow: bool, steps: seq<Step>, n: nat)
    requires n <= |steps|
    ensures Lost(kept, swallow, steps, n) == 0 <==>
              forall i :: 0 <= i < n ==> !LosesEnter(Events(kept, swallow, steps, i), steps[i])
    decreases n
  {
    hide LosesEnter, Events;
    if n > 0 {
      LostIff(kept, swallow, steps, n - 1);
    }
  }

  lemma StepHeldReads(kept: bool, swallow: bool, w: Prompt, step: Step)
    requires Enabled(swallow, w, step) && (w.proxy.submit ==> w.proxy.captures > 0)
    requires step.ReadEnds? ==> !step.gone
    ensures var p := Next(kept, swallow, w, step).proxy; p.submit ==> p.captures > 0
  {
    if step.Chunk? {
      ScanIsSaid(swallow, w.proxy.(pending := []), w.proxy.pending + step.data);
      hide Scan, HasEnter;
    }
  }

  lemma {:induction false} HeldWhileReading(kept: bool, swallow: bool, steps: seq<Step>, n: nat)
    requires Possible(kept, swallow, steps) && n <= |steps|
    requires forall i :: 0 <= i < n && steps[i].ReadEnds? ==> !steps[i].gone
    ensures var p := After(kept, swallow, steps, n).proxy; p.submit ==> p.captures > 0
    decreases n
  {
    hide After, Next, Possible, Enabled;
    if n == 0 {
      StartRests(kept, swallow, steps);
    } else {
      HeldWhileReading(kept, swallow, steps, n - 1);
      AfterStep(kept, swallow, steps, n - 1);
      StepHeldReads(kept, swallow, After(kept, swallow, steps, n - 1), steps[n - 1]);
    }
  }

  /**
   Every release is that of an Enter held before it. As long as none is lost, at
   most one is held at a time; and nothing but the end of a read happens while
   one is.
   */
  lemma HeldEnterIsReleasedOnce(kept: bool, swallow: bool, steps: seq<Step>, n: nat)
    requires Possible(kept, swallow, steps) && n <= |steps|
    ensures var trace, held := multiset(Trace(kept, swallow, steps, n)), After(kept, swallow, steps, n).proxy.submit;
            && trace[ReleaseEnter] <= trace[HoldEnter]
            && ((forall i :: 0 <= i < n ==> !LosesEnter(Events(kept, swallow, steps, i), steps[i])) ==>
                  trace[HoldEnter] == trace[ReleaseEnter] + if held then 1 else 0)
            && (held && n < |steps| && !steps[n].ReadEnds? ==> Events(kept, swallow, steps, n) == [])
  {
    hide After, Next, Possible, LosesEnter, Enabled, PromptOk, Happens, Trace, Lost;
    HeldBalance(kept, swallow, steps, n);
    LostIff(kept, swallow, steps, n);
    if n < |steps| {
      RunRests(kept, swallow, steps, n);
      if After(kept, swallow, steps, n).proxy.submit && !steps[n].ReadEnds? {
        HeldBlocks(swallow, After(kept, swallow, steps, n), steps[n]);
      }
    }
  }

  /**
   When all reads have ended in a prompt that stays, every held Enter has been
   released if and only if no line was taken while an Enter was held behind
   another one of the same chunk.
   */
  lemma HeldEnterIsReleasedIff(kept: bool, swallow: bool, steps: seq<Step>)
    requires Possible(kept, swallow, steps) && After(kept, swallow, steps, |steps|).reading == 0
    requires forall i :: 0 <= i < |steps| && steps[i].ReadEnds? ==> !steps[i].gone
    ensures var trace := multiset(Trace(kept, swallow, steps, |steps|));
            trace[HoldEnter] == trace[ReleaseEnter] <==>
              forall i :: 0 <= i < |steps| ==> !LosesEnter(Events(kept, swallow, steps, i), steps[i])
  {
    RunRests(kept, swallow, steps, |steps|);
    assert After(kept, swallow, steps, |steps|).proxy.captures == 0 by { hide After, Resting; }
    hide After, Next, Possible, LosesEnter, Enabled, PromptOk, Happens, Trace, Lost;
    HeldBalance(kept, swallow, steps, |steps|);
    LostIff(kept, swallow, steps, |steps|);
    HeldWhileReading(kept, swallow, steps, |steps|);
  }

  // ---- The failing runs ----

  /** The first move of a key at an ordinary prompt. */
  lemma KeyMoves(swallow: bool, p: Proxy, s: seq<Byte>)
    requires s != [] && !p.active && !p.submit
    ensures s[0] == 0x0d ==> MoveAt(swallow, p, s) == if p.captures > 0 then Go([HoldEnter], p.(submit := true), 1)
                                                      else Go([Emit(0x0d)], p, 1)
    ensures s[0] == 0x16 ==> MoveAt(swallow, p, s) == Go([BeginCapture], p.(captures := p.captures + 1), 1)
    ensures s[0] == 0x61 ==> MoveAt(swallow, p, s) == Go([Emit(0x61)], p, 1)
  {}

  lemma EnterPasses(swallow: bool, p: Proxy, rest: seq<Byte>)
    requires !p.active && !p.submit && p.captures == 0
    ensures var next := Scan(swallow, p, rest);
            Scan(swallow, p, [0x0d] + rest) == Outcome([Emit(0x0d)] + next.events, next.proxy)
  {
    hide Scan, MoveAt, Settles, MoveSettles;
    var s := [0x0d] + rest;
    assert s[1..] == rest;
    KeyMoves(swallow, p, s);
    GoScan(swallow, p, s);
  }

  lemma EnterIsHeld(swallow: bool, p: Proxy, rest: seq<Byte>)
    requires !p.active && !p.submit && p.captures > 0
    ensures Scan(swallow, p, [0x0d] + rest) == Outcome([HoldEnter], p.(submit := true))
  {
    hide Scan, MoveAt, Settles, MoveSettles;
    var s := [0x0d] + rest;
    assert s[1..] == rest;
    KeyMoves(swallow, p, s);
    GoScan(swallow, p, s);
    SubmitStays(swallow, p.(submit := true), rest);
  }

  lemma HotkeyBegins(swallow: bool, p: Proxy, rest: seq<Byte>)
    requires !p.active && !p.submit
    ensures var next := Scan(swallow, p.(captures := p.captures + 1), rest);
            Scan(swallow, p, [0x16] + rest) == Outcome([BeginCapture] + next.events, next.proxy)
  {
    hide Scan, MoveAt, Settles, MoveSettles;
    var s := [0x16] + rest;
    assert s[1..] == rest;
    KeyMoves(swallow, p, s);
    GoScan(swallow, p, s);
  }

  /** What a few keys make of an idle proxy. */
  lemma FewKeys(swallow: bool)
    ensures Scan(swallow, IDLE, [0x0d]) == Outcome([Emit(0x0d)], IDLE)
    ensures Scan(swallow, IDLE, [0x0d, 0x16]) == Outcome([Emit(0x0d), BeginCapture], IDLE.(captures := 1))
    ensures forall rest :: Scan(swallow, IDLE, [0x0d, 0x16, 0x0d] + rest) ==
                             Outcome([Emit(0x0d), BeginCapture, HoldEnter], IDLE.(captures := 1, submit := true))
  {
    hide Scan;
    var one := IDLE.(captures := 1);
    NothingToScan(swallow, IDLE);
    NothingToScan(swallow, one);
    EnterPasses(swallow, IDLE, []);
    HotkeyBegins(swallow, IDLE, []);
    EnterPasses(swallow, IDLE, [0x16]);
    var none: seq<Byte> := [];
    assert [0x0d] + none == [0x0d] && [0x16] + none == [0x16];
    assert [0x0d] + ([0x16] + none) == [0x0d, 0x16];
    forall rest
      ensures Scan(swallow, IDLE, [0x0d, 0x16, 0x0d] + rest) ==
                Outcome([Emit(0x0d), BeginCapture, HoldEnter], IDLE.(captures := 1, submit := true))
    {
      EnterIsHeld(swallow, one, rest);
      HotkeyBegins(swallow, IDLE, [0x0d] + rest);
      EnterPasses(swallow, IDLE, [0x16] + ([0x0d] + rest));
      var key: seq<Byte> := [0x0d];
      assert key + ([0x16] + (key + rest)) == [0x0d, 0x16, 0x0d] + rest;
    }
  }

  /** A run of two steps. */
  lemma TwoSteps(kept: bool, swallow: bool, a: Step, b: Step)
    ensures var steps := [a, b];
            && After(kept, swallow, steps, 1) == Next(kept, swallow, START, a)
            && After(kept, swallow, steps, 2) == Next(kept, swallow, Next(kept, swallow, START, a), b)
            && Events(kept, swallow, steps, 0) == Happens(swallow, IDLE, a).events
            && Events(kept, swallow, steps, 1) == Happens(swallow, Next(kept, swallow, START, a).proxy, b).events
            && Trace(kept, swallow, steps, 2) == Events(kept, swallow, steps, 0) + Events(kept, swallow, steps, 1)
            && (Enabled(swallow, START, a) && Enabled(swallow, Next(kept, swallow, START, a), b) ==>
                  Possible(kept, swallow, steps))
  {
    hide Next, Enabled, Happens;
    var steps := [a, b];
    assert After(kept, swallow, steps, 0) == START;
    assert After(kept, swallow, steps, 1) == Next(kept, swallow, START, a);
    assert Trace(kept, swallow, steps, 1) == [] + Events(kept, swallow, steps, 0);
  }

  /** Enter and a paste hotkey in one chunk, then Enter: the second Enter passes while the read goes on. */
  lemma SecondEnterDoesNotWait(swallow: bool)
    ensures var steps := [Chunk([0x0d, 0x16], true), Chunk([0x0d], true)];
            && Possible(true, swallow, steps)
            && After(true, swallow, steps, 1).reading == 1
            && Events(true, swallow, steps, 1) == [Emit(0x0d)]
  {
    var a, b := Chunk([0x0d, 0x16], true), Chunk([0x0d], true);
    FewKeys(swallow);
    TwoSteps(true, swallow, a, b);
    hide Scan, After, Events, Trace, Possible;
    assert IDLE.(pending := []) == IDLE && [] + a.data == a.data && [] + b.data == b.data;
    var e0, e1 := Happens(swallow, IDLE, a).events, Happens(swallow, IDLE, b).events;
    assert IsEnter(e0[0]) && IsEnter(e1[0]);
    assert multiset(e0) == multiset{Emit(0x0d), BeginCapture};
    assert Next(true, swallow, START, a) == Prompt(IDLE, 1, false);
  }

  /** With one more Enter in the chunk, that Enter is held, forgotten, and never released. */
  lemma HeldEnterIsForgotten(swallow: bool)
    ensures var steps := [Chunk([0x0d, 0x16, 0x0d], true), ReadEnds(true, false, false)];
            && Possible(true, swallow, steps) && After(true, swallow, steps, 2).reading == 0
            && HoldEnter in Trace(true, swallow, steps, 2) && ReleaseEnter !in Trace(true, swallow, steps, 2)
  {
    var a, b := Chunk([0x0d, 0x16, 0x0d], true), ReadEnds(true, false, false);
    FewKeys(swallow);
    TwoSteps(true, swallow, a, b);
    hide Scan, After, Events, Trace, Possible;
    assert IDLE.(pending := []) == IDLE && [] + a.data == a.data + [];
    var e0, e1 := Happens(swallow, IDLE, a).events, Happens(swallow, IDLE, b).events;
    assert IsEnter(e0[0]);
    assert multiset(e0) == multiset{Emit(0x0d), BeginCapture, HoldEnter};
    assert Next(true, swallow, START, a) == Prompt(IDLE, 1, false);
    assert e1 == [EndCapture(true)];
  }
}
