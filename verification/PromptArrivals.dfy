/**
 When the editor is given what a stream of terminal input brings
 (src/cli/prompt-input.ts). The editor is asked about a Backspace, and the
 Thinking view is opened, while a chunk is scanned; everything else arrives when
 the scan of the chunk has ended. So a question overtakes what its own chunk has
 brought before it.
 */
module PromptArrivals {
  import opened Common
  import opened InputProxy
  import opened PromptLines
  import opened PromptChunks
  import PasteMarkers

  /** `Later(AskBackspace(b))` is the byte itself, which arrives if the editor refused it. */
  datatype Step = Now(event: Event) | Later(event: Event)

  function AllNow(events: seq<Event>): (steps: seq<Step>)
    ensures |steps| == |events| && forall i :: 0 <= i < |steps| ==> steps[i] == Now(events[i])
  {
    seq(|events|, i requires 0 <= i < |events| => Now(events[i]))
  }

  function AllLater(events: seq<Event>): (steps: seq<Step>)
    ensures |steps| == |events| && forall i :: 0 <= i < |steps| ==> steps[i] == Later(events[i])
  {
    seq(|events|, i requires 0 <= i < |events| => Later(events[i]))
  }

  /** One chunk: first what is asked during its scan, then what its end brings. */
  function Arrives(nows: seq<Event>, laters: seq<Event>): seq<Step> {
    AllNow(nows) + AllLater(laters)
  }

  datatype Arrival = Arrival(steps: seq<Step>, left: Option<Proxy>)

  /** The chunks of a stream to a proxy from which no line is taken. */
  function ArriveChunks(swallow: bool, p: Proxy, chunks: seq<seq<Byte>>): Arrival
    decreases |chunks|
  {
    if |chunks| == 0 then Arrival([], Some(p))
    else
      var o := ReadChunk(swallow, p, chunks[0]);
      var rest := ArriveChunks(swallow, o.proxy, chunks[1..]);
      Arrival(Arrives(Nows(o.events), Laters(o.events)) + rest.steps, rest.left)
  }

  /** The same with every Enter taken as a line; a prompt that is not kept open gets nothing behind its first one. */
  function Arrive(kept: bool, swallow: bool, p: Proxy, chunks: seq<seq<Byte>>): Arrival
    decreases |chunks|
  {
    if |chunks| == 0 then Arrival([], Some(p))
    else
      var o := ReadChunk(swallow, p, chunks[0]);
      if HasEnter(o.events) && !kept then Arrival(Arrives(Nows(o.events), Laters(UpToEnter(o.events))), None)
      else
        var rest := Arrive(kept, swallow, if HasEnter(o.events) then AfterLine(o.proxy) else o.proxy, chunks[1..]);
        Arrival(Arrives(Nows(o.events), Laters(o.events)) + rest.steps, rest.left)
  }

  ghost predicate ProxyCutsUnseen(swallow: bool, s: seq<Byte>) {
    forall chunks: seq<seq<Byte>> :: Flatten(chunks) == s ==>
      ArriveChunks(swallow, IDLE, chunks) == ArriveChunks(swallow, IDLE, [s])
  }

  ghost predicate CutsUnseen(kept: bool, swallow: bool, s: seq<Byte>) {
    forall chunks: seq<seq<Byte>> :: Flatten(chunks) == s ==>
      Arrive(kept, swallow, IDLE, chunks) == Arrive(kept, swallow, IDLE, [s])
  }

  /** A beginning of the input brings something, and all of the input asks more than that beginning. */
  predicate OvertakesAt(swallow: bool, p: Proxy, data: seq<Byte>, n: nat)
    requires n <= |data|
  {
    var begun := ReadChunk(swallow, p, data[..n]).events;
    Laters(begun) != [] && |Nows(begun)| < |Nows(ReadChunk(swallow, p, data).events)|
  }

  /** Some Backspace or Ctrl+T stands behind bytes that bring something on their own. */
  predicate Overtakes(swallow: bool, p: Proxy, data: seq<Byte>) {
    exists n :: 0 <= n <= |data| && OvertakesAt(swallow, p, data, n)
  }

  // ---- Telling steps apart ----

  function NowOf(steps: seq<Step>): seq<Event> {
    if |steps| == 0 then [] else (if steps[0].Now? then [steps[0].event] else []) + NowOf(steps[1..])
  }

  function LaterOf(steps: seq<Step>): seq<Event> {
    if |steps| == 0 then [] else (if steps[0].Later? then [steps[0].event] else []) + LaterOf(steps[1..])
  }

  lemma {:induction false} OfSum(u: seq<Step>, v: seq<Step>)
    ensures NowOf(u + v) == NowOf(u) + NowOf(v) && LaterOf(u + v) == LaterOf(u) + LaterOf(v)
    decreases |u|
  {
    if u == [] {
      assert u + v == v;
    } else {
      assert (u + v)[1..] == u[1..] + v;
      OfSum(u[1..], v);
      var now := if u[0].Now? then [u[0].event] else [];
      var later := if u[0].Later? then [u[0].event] else [];
      assert now + (NowOf(u[1..]) + NowOf(v)) == (now + NowOf(u[1..])) + NowOf(v);
      assert later + (LaterOf(u[1..]) + LaterOf(v)) == (later + LaterOf(u[1..])) + LaterOf(v);
    }
  }

  lemma {:induction false} OfAll(events: seq<Event>)
    ensures NowOf(AllNow(events)) == events && LaterOf(AllNow(events)) == []
    ensures NowOf(AllLater(events)) == [] && LaterOf(AllLater(events)) == events
    decreases |events|
  {
    if events != [] {
      OfAll(events[1..]);
      assert AllNow(events)[1..] == AllNow(events[1..]) && AllLater(events)[1..] == AllLater(events[1..]);
      assert [events[0]] + events[1..] == events;
    }
  }

  lemma OfArrives(nows: seq<Event>, laters: seq<Event>)
    ensures NowOf(Arrives(nows, laters)) == nows && LaterOf(Arrives(nows, laters)) == laters
  {
    OfSum(AllNow(nows), AllLater(laters));
    OfAll(nows);
    OfAll(laters);
    hide NowOf, LaterOf, AllNow, AllLater;
    assert nows + [] == nows && [] + laters == laters;
  }

  /** The steps, whatever their order, are those of the scans. */
  lemma {:induction false} ArriveIsDelivered(kept: bool, swallow: bool, p: Proxy, chunks: seq<seq<Byte>>)
    ensures var x, d := Arrive(kept, swallow, p, chunks), Deliver(kept, swallow, p, chunks);
            && LaterOf(x.steps) == Laters(d.events) && x.left == d.left
            && (x.left.Some? ==> NowOf(x.steps) == Nows(d.events))
    decreases |chunks|
  {
    if |chunks| > 0 {
      var o := ReadChunk(swallow, p, chunks[0]);
      hide ReadChunk, HasEnter, UpToEnter, Nows, Laters, NowOf, LaterOf, Arrives;
      if HasEnter(o.events) && !kept {
        OfArrives(Nows(o.events), Laters(UpToEnter(o.events)));
      } else {
        var q := if HasEnter(o.events) then AfterLine(o.proxy) else o.proxy;
        ArriveIsDelivered(kept, swallow, q, chunks[1..]);
        var rest, more := Arrive(kept, swallow, q, chunks[1..]), Deliver(kept, swallow, q, chunks[1..]);
        OfArrives(Nows(o.events), Laters(o.events));
        OfSum(Arrives(Nows(o.events), Laters(o.events)), rest.steps);
        NowsParts(o.events, more.events);
      }
    } else {
      assert Nows([]) == [] && Laters([]) == [];
    }
  }

  lemma {:induction false} ArriveChunksAreProcessed(swallow: bool, p: Proxy, chunks: seq<seq<Byte>>)
    ensures var x, o := ArriveChunks(swallow, p, chunks), ProcessChunks(swallow, p, chunks);
            LaterOf(x.steps) == Laters(o.events) && x.left == Some(o.proxy) && NowOf(x.steps) == Nows(o.events)
    decreases |chunks|
  {
    if |chunks| > 0 {
      var o := ReadChunk(swallow, p, chunks[0]);
      hide ReadChunk, Nows, Laters, NowOf, LaterOf, Arrives;
      ArriveChunksAreProcessed(swallow, o.proxy, chunks[1..]);
      OfArrives(Nows(o.events), Laters(o.events));
      OfSum(Arrives(Nows(o.events), Laters(o.events)), ArriveChunks(swallow, o.proxy, chunks[1..]).steps);
      NowsParts(o.events, ProcessChunks(swallow, o.proxy, chunks[1..]).events);
    } else {
      assert Nows([]) == [] && Laters([]) == [];
    }
  }

  // ---- Nothing overtakes: the chunks can be joined ----

  /** Two chunks arrive like one when the first brings nothing or the second asks nothing. */
  lemma ArrivesJoin(nows: seq<Event>, laters: seq<Event>, nows': seq<Event>, laters': seq<Event>)
    requires laters == [] || nows' == []
    ensures Arrives(nows, laters) + Arrives(nows', laters') == Arrives(nows + nows', laters + laters')
  {}

  /** Where the first chunk is read as in one, and nothing overtakes, nothing overtakes behind it. */
  lemma NotOvertakenBehind(swallow: bool, p: Proxy, c: seq<Byte>, b: seq<Byte>)
    requires !Overtakes(swallow, p, c + b)
    requires forall k :: 0 <= k <= |b| ==>
               ReadChunk(swallow, p, c + b[..k]) == Then(swallow, ReadChunk(swallow, p, c), b[..k])
    ensures var o := ReadChunk(swallow, p, c);
            var next := ReadChunk(swallow, o.proxy, b);
            && !Overtakes(swallow, o.proxy, b)
            && ReadChunk(swallow, p, c + b) == Outcome(o.events + next.events, next.proxy)
            && (Laters(o.events) == [] || Nows(next.events) == [])
  {
    hide ReadChunk, Nows, Laters;
    var o := ReadChunk(swallow, p, c);
    var next := ReadChunk(swallow, o.proxy, b);
    assert b[..|b|] == b && (c + b)[..|c|] == c;
    NowsParts(o.events, next.events);
    assert !OvertakesAt(swallow, p, c + b, |c|);
    forall k | 0 <= k <= |b| ensures !OvertakesAt(swallow, o.proxy, b, k) {
      assert (c + b)[..|c| + k] == c + b[..k];
      assert !OvertakesAt(swallow, p, c + b, |c| + k);
      NowsParts(o.events, ReadChunk(swallow, o.proxy, b[..k]).events);
    }
  }

  /** Settled input is read in two chunks as in one, at every beginning of the second. */
  lemma SettledBeginnings(swallow: bool, p: Proxy, c: seq<Byte>, b: seq<Byte>)
    requires Coherent(p.(pending := [])) && Settles(swallow, p.(pending := []), p.pending + (c + b))
    ensures forall k :: 0 <= k <= |b| ==>
              ReadChunk(swallow, p, c + b[..k]) == Then(swallow, ReadChunk(swallow, p, c), b[..k])
    ensures var q := ReadChunk(swallow, p, c).proxy;
            Coherent(q.(pending := [])) && Settles(swallow, q.(pending := []), q.pending + b)
  {
    hide Scan, Settles, Coherent, Then;
    var p0, a := p.(pending := []), p.pending + c;
    assert a + b == p.pending + (c + b);
    TwoChunks(swallow, p0, a, b);
    forall k | 0 <= k <= |b|
      ensures ReadChunk(swallow, p, c + b[..k]) == Then(swallow, ReadChunk(swallow, p, c), b[..k])
    {
      assert p.pending + (c + b[..k]) == a + b[..k];
      assert (a + b[..k]) + b[k..] == a + b;
      SettlesPrefix(swallow, p0, a + b[..k], b[k..]);
      TwoChunks(swallow, p0, a, b[..k]);
    }
  }

  lemma {:induction false} ArriveSettled(swallow: bool, p: Proxy, chunks: seq<seq<Byte>>)
    requires Coherent(p.(pending := []))
    requires Settles(swallow, p.(pending := []), p.pending + Flatten(chunks))
    requires !Overtakes(swallow, p, Flatten(chunks)) && ReadChunk(swallow, p, []) == Outcome([], p)
    ensures var o := ReadChunk(swallow, p, Flatten(chunks));
            ArriveChunks(swallow, p, chunks) == Arrival(Arrives(Nows(o.events), Laters(o.events)), Some(o.proxy))
    decreases |chunks|
  {
    hide Settles, Coherent, Overtakes, Scan;
    if |chunks| == 0 {
      assert Arrives(Nows([]), Laters([])) == [];
    } else {
      var c, b := chunks[0], Flatten(chunks[1..]);
      SettledBeginnings(swallow, p, c, b);
      NotOvertakenBehind(swallow, p, c, b);
      var o := ReadChunk(swallow, p, c);
      var next := ReadChunk(swallow, o.proxy, b);
      StaysWaiting(swallow, p, c);
      hide ReadChunk, Arrives, Nows, Laters;
      ArriveSettled(swallow, o.proxy, chunks[1..]);
      ArrivesJoin(Nows(o.events), Laters(o.events), Nows(next.events), Laters(next.events));
      NowsParts(o.events, next.events);
    }
  }

  lemma StaysWaiting(swallow: bool, p: Proxy, c: seq<Byte>)
    requires Coherent(p.(pending := []))
    ensures var q := ReadChunk(swallow, p, c).proxy; ReadChunk(swallow, q, []) == Outcome([], q)
  {
    WaitingIsStable(swallow, p.(pending := []), p.pending + c);
    var q := ReadChunk(swallow, p, c).proxy;
    assert q.pending + [] == q.pending;
  }

  // ---- Up to the first Enter ----

  lemma {:induction false} SettlesIsToEnter(swallow: bool, p: Proxy, s: seq<Byte>)
    requires Settles(swallow, p, s)
    ensures SettlesToEnter(swallow, p, s)
    decreases |s|, if p.active then 1 else 0
  {
    if s != [] && MoveAt(swallow, p, s).Go? {
      var m := MoveAt(swallow, p, s);
      hide MoveSettles, MoveAt, HasEnter;
      SettlesIsToEnter(swallow, m.proxy, s[m.length..]);
    }
  }

  lemma SettlesByMove(swallow: bool, p: Proxy, s: seq<Byte>)
    requires s != []
    ensures var m := MoveAt(swallow, p, s);
            SettlesToEnter(swallow, p, s) <==>
              && MoveSettles(swallow, p, s)
              && (m.Go? && !HasEnter(m.events) ==> SettlesToEnter(swallow, m.proxy, s[m.length..]))
  {
    hide MoveAt, MoveSettles, HasEnter;
  }

  lemma {:induction false} SettlesToEnterPrefix(swallow: bool, p: Proxy, a: seq<Byte>, b: seq<Byte>)
    requires Coherent(p) && p.pending == [] && SettlesToEnter(swallow, p, a + b)
    ensures SettlesToEnter(swallow, p, a)
    decreases |a|, if p.active then 1 else 0
  {
    hide TokenAt, PasteMove, TokenMove, FrameSettles, Abandoned, EndAt, HasEnter, SettlesToEnter, Coherent;
    if a == [] {
      NothingSettles(swallow, p);
    } else {
      SettlesByMove(swallow, p, a + b);
      SettlesByMove(swallow, p, a);
      if p.submit {
      } else if p.active && EndAt(Combined(p, a)) == -1 {
        PasteOpenSettles(swallow, p, a);
        SettlesIsToEnter(swallow, p, a);
      } else {
        MovePrefixSettles(swallow, p, a, b);
        if !p.active && Abandoned(a) {
          FrameTaken(swallow, p, a);
          NothingSettles(swallow, p);
        } else if MoveAt(swallow, p, a).Go? {
          MoveCoherent(swallow, p, a);
          MoveStable(swallow, p, a, b);
          var m := MoveAt(swallow, p, a);
          assert (a + b)[m.length..] == a[m.length..] + b;
          if !HasEnter(m.events) {
            SettlesToEnterPrefix(swallow, m.proxy, a[m.length..], b);
          }
        }
      }
    }
  }

  lemma NothingSettles(swallow: bool, p: Proxy)
    ensures SettlesToEnter(swallow, p, [])
  {}

  /** A cut in front of the first Enter does not matter to input that settles up to it. */
  lemma {:induction false} TwoChunksToEnter(swallow: bool, p: Proxy, a: seq<Byte>, b: seq<Byte>)
    requires Coherent(p) && p.pending == [] && SettlesToEnter(swallow, p, a + b)
    requires !HasEnter(Scan(swallow, p, a).events)
    ensures Scan(swallow, p, a + b) == Then(swallow, Scan(swallow, p, a), b)
    ensures var q := Scan(swallow, p, a).proxy;
            && Coherent(q.(pending := [])) && SettlesToEnter(swallow, q.(pending := []), q.pending + b)
    decreases |a|, if p.active then 1 else 0
  {
    hide TokenAt, PasteMove, TokenMove, FrameSettles, Abandoned, EndAt, HasEnter, SettlesToEnter, Scan, Coherent;
    if a == [] {
      assert a + b == b && p.(pending := []) == p;
      NothingToScan(swallow, p);
      ThenFromIdle(swallow, p, b);
      assert p.pending + b == b;
    } else if p.submit {
      NothingAfterSubmit(swallow, p, a, b);
      var q := Scan(swallow, p, a).proxy;
      SettlesIsToEnter(swallow, q.(pending := []), q.pending + b);
    } else if p.active && EndAt(Combined(p, a)) == -1 {
      OpenPasteToEnter(swallow, p, a, b);
    } else if !p.active && Abandoned(a) {
      SettlesByMove(swallow, p, a + b);
      AbandonedChunks(swallow, p, a, b);
      SettlesIsToEnter(swallow, p, b);
      assert p.(pending := []) == p && [] + b == b;
    } else if MoveAt(swallow, p, a).Go? {
      MoveCoherent(swallow, p, a);
      MoveStable(swallow, p, a, b);
      var m := MoveAt(swallow, p, a);
      assert (a + b)[m.length..] == a[m.length..] + b;
      SettlesByMove(swallow, p, a + b);
      GoScan(swallow, p, a);
      EnterOfParts(m.events, Scan(swallow, m.proxy, a[m.length..]).events);
      TwoChunksToEnter(swallow, m.proxy, a[m.length..], b);
      TwoChunksJoin(swallow, p, a, b);
    } else {
      TwoChunksWait(swallow, p, a, b);
    }
  }

  lemma OpenPasteToEnter(swallow: bool, p: Proxy, a: seq<Byte>, b: seq<Byte>)
    requires p.active && !p.submit && p.pending == [] && Coherent(p) && a != []
    requires EndAt(Combined(p, a)) == -1 && SettlesToEnter(swallow, p, a + b)
    ensures Scan(swallow, p, a + b) == Then(swallow, Scan(swallow, p, a), b)
    ensures var q := Scan(swallow, p, a).proxy;
            && Coherent(q.(pending := [])) && SettlesToEnter(swallow, q.(pending := []), q.pending + b)
  {
    hide EndAt, Scan, Settles, SettlesToEnter, PasteMove, Coherent, HasEnter, LengthSettles;
    SettlesByMove(swallow, p, a + b);
    OpenPasteChunks(swallow, p, a, b);
    var q := Scan(swallow, p, a).proxy;
    assert q.(pending := []) == q && q.pending + b == b;
    assert Combined(p, a + b) == Combined(p, a) + b;
    if b == [] {
      NothingSettles(swallow, q);
    } else if EndAt(Combined(p, a) + b) == -1 {
      OpenPasteStays(swallow, p, a, b);
      SettlesIsToEnter(swallow, q, b);
    } else {
      OpenPasteEnds(swallow, p, a, b);
      SettlesByMove(swallow, q, b);
      assert !HasEnter(PasteMove(p, a + b).events) by { PasteHasNoEnter(p, a + b); }
    }
  }

  lemma PasteHasNoEnter(p: Proxy, s: seq<Byte>)
    requires p.active
    ensures !HasEnter(PasteMove(p, s).events)
  {
    hide EndAt;
  }

  // ---- A prompt that ends with its first line ----

  /** What a prompt is given by one scan. */
  function Given(kept: bool, o: Outcome): Arrival {
    if HasEnter(o.events) && !kept then Arrival(Arrives(Nows(o.events), Laters(UpToEnter(o.events))), None)
    else Arrival(Arrives(Nows(o.events), Laters(o.events)),
                 Some(if HasEnter(o.events) then AfterLine(o.proxy) else o.proxy))
  }

  lemma ArriveOne(kept: bool, swallow: bool, p: Proxy, s: seq<Byte>)
    ensures Arrive(kept, swallow, p, [s]) == Given(kept, ReadChunk(swallow, p, s))
  {
    hide ReadChunk, HasEnter, UpToEnter, Nows, Laters, Arrives;
    assert [s][1..] == [];
    var o := ReadChunk(swallow, p, s);
    assert Arrives(Nows(o.events), Laters(o.events)) + [] == Arrives(Nows(o.events), Laters(o.events));
  }

  lemma ToEnterBeginnings(swallow: bool, p: Proxy, c: seq<Byte>, b: seq<Byte>)
    requires Coherent(p.(pending := [])) && SettlesToEnter(swallow, p.(pending := []), p.pending + (c + b))
    requires !HasEnter(ReadChunk(swallow, p, c).events)
    ensures forall k :: 0 <= k <= |b| ==>
              ReadChunk(swallow, p, c + b[..k]) == Then(swallow, ReadChunk(swallow, p, c), b[..k])
    ensures var q := ReadChunk(swallow, p, c).proxy;
            Coherent(q.(pending := [])) && SettlesToEnter(swallow, q.(pending := []), q.pending + b)
  {
    hide Scan, SettlesToEnter, Coherent, Then, HasEnter;
    var p0, a := p.(pending := []), p.pending + c;
    assert a + b == p.pending + (c + b);
    TwoChunksToEnter(swallow, p0, a, b);
    forall k | 0 <= k <= |b|
      ensures ReadChunk(swallow, p, c + b[..k]) == Then(swallow, ReadChunk(swallow, p, c), b[..k])
    {
      assert p.pending + (c + b[..k]) == a + b[..k];
      assert (a + b[..k]) + b[k..] == a + b;
      SettlesToEnterPrefix(swallow, p0, a + b[..k], b[k..]);
      TwoChunksToEnter(swallow, p0, a, b[..k]);
    }
  }

  /** A chunk with the first Enter in it: what follows asks nothing more, since nothing overtakes the Enter. */
  lemma EnterArrives(swallow: bool, p: Proxy, c: seq<Byte>, b: seq<Byte>)
    requires HasEnter(ReadChunk(swallow, p, c).events) && !Overtakes(swallow, p, c + b)
    ensures Given(false, ReadChunk(swallow, p, c + b)) == Given(false, ReadChunk(swallow, p, c))
  {
    hide Scan, HasEnter, UpToEnter, Nows, Laters, Arrives;
    var p0, a := p.(pending := []), p.pending + c;
    assert p.pending + (c + b) == a + b && (c + b)[..|c|] == c;
    NowsGrow(swallow, p0, a, b);
    EnterThenMore(swallow, p0, a, b);
    EnterIsBrought(ReadChunk(swallow, p, c).events);
    assert !OvertakesAt(swallow, p, c + b, |c|);
    var begun, all := Nows(ReadChunk(swallow, p, c).events), Nows(ReadChunk(swallow, p, c + b).events);
    assert begun <= all && |begun| == |all|;
    assert begun == all;
    assert HasEnter(ReadChunk(swallow, p, c + b).events);
    assert UpToEnter(ReadChunk(swallow, p, c + b).events) == UpToEnter(ReadChunk(swallow, p, c).events);
  }

  lemma EnterIsBrought(events: seq<Event>)
    requires HasEnter(events)
    ensures Laters(events) != [] && Laters(UpToEnter(events)) != []
  {
    LatersKeep(events);
    UpToHasEnter(events);
    LatersKeep(UpToEnter(events));
    NoEnterInNothing();
    hide HasEnter, Laters, UpToEnter;
  }

  lemma {:induction false} UpToHasEnter(events: seq<Event>)
    requires HasEnter(events)
    ensures HasEnter(UpToEnter(events))
  {
    var first, rest := [events[0]], events[1..];
    assert events == first + rest;
    EnterOfParts(first, rest);
    EnterOfOne(events[0]);
    if !IsEnter(events[0]) {
      UpToHasEnter(rest);
      EnterOfParts(first, UpToEnter(rest));
    }
    hide HasEnter;
  }

  lemma GivenBehind(o: Outcome, next: Outcome)
    requires !HasEnter(o.events) && (Laters(o.events) == [] || Nows(next.events) == [])
    ensures var rest := Given(false, next);
            Given(false, Outcome(o.events + next.events, next.proxy)) ==
              Arrival(Arrives(Nows(o.events), Laters(o.events)) + rest.steps, rest.left)
  {
    EnterOfParts(o.events, next.events);
    UpToParts(o.events, next.events);
    NowsParts(o.events, next.events);
    NowsParts(o.events, UpToEnter(next.events));
    ArrivesJoin(Nows(o.events), Laters(o.events), Nows(next.events), Laters(next.events));
    ArrivesJoin(Nows(o.events), Laters(o.events), Nows(next.events), Laters(UpToEnter(next.events)));
    hide HasEnter, UpToEnter, Nows, Laters, Arrives;
  }

  lemma {:induction false} ArriveToEnter(swallow: bool, p: Proxy, chunks: seq<seq<Byte>>)
    requires Coherent(p.(pending := []))
    requires SettlesToEnter(swallow, p.(pending := []), p.pending + Flatten(chunks))
    requires !Overtakes(swallow, p, Flatten(chunks)) && ReadChunk(swallow, p, []) == Outcome([], p)
    ensures Arrive(false, swallow, p, chunks) == Given(false, ReadChunk(swallow, p, Flatten(chunks)))
    decreases |chunks|
  {
    hide SettlesToEnter, Coherent, Overtakes, Scan, HasEnter, UpToEnter;
    if |chunks| == 0 {
      NoEnterInNothing();
      assert Arrives(Nows([]), Laters([])) == [];
    } else {
      var c, b := chunks[0], Flatten(chunks[1..]);
      var o := ReadChunk(swallow, p, c);
      if HasEnter(o.events) {
        EnterArrives(swallow, p, c, b);
      } else {
        ToEnterBeginnings(swallow, p, c, b);
        NotOvertakenBehind(swallow, p, c, b);
        StaysWaiting(swallow, p, c);
        hide ReadChunk, Arrives, Nows, Laters;
        ArriveToEnter(swallow, o.proxy, chunks[1..]);
        GivenBehind(o, ReadChunk(swallow, o.proxy, b));
      }
    }
  }

  // ---- A question that overtakes shows its cut ----

  lemma WholeArrives(kept: bool, swallow: bool, s: seq<Byte>)
    ensures Flatten([s]) == s && ReadChunk(swallow, IDLE, s) == Scan(swallow, IDLE, s)
    ensures Arrive(kept, swallow, IDLE, [s]) == Given(kept, Scan(swallow, IDLE, s))
    ensures ReadChunk(swallow, IDLE, []) == Outcome([], IDLE)
  {
    WholeStream(kept, swallow, s);
    ArriveOne(kept, swallow, IDLE, s);
    assert IDLE.(pending := []) == IDLE && [] + s == s;
    assert IDLE.pending + [] == [];
    hide Given;
  }

  /** The first chunk brings something where the whole stream still asks. */
  lemma OvertakingCut(kept: bool, swallow: bool, s: seq<Byte>, n: nat)
    requires n <= |s| && OvertakesAt(swallow, IDLE, s, n)
    ensures Flatten([s[..n], s[n..]]) == s
    ensures Arrive(kept, swallow, IDLE, [s[..n], s[n..]]).steps != Given(kept, ReadChunk(swallow, IDLE, s)).steps
    ensures ArriveChunks(swallow, IDLE, [s[..n], s[n..]]).steps != Given(true, ReadChunk(swallow, IDLE, s)).steps
  {
    var a, b := s[..n], s[n..];
    var chunks := [a, b];
    assert chunks[1..] == [b] && Flatten([b]) == b by { assert [b][1..] == []; }
    assert a + b == s;
    var o, whole := ReadChunk(swallow, IDLE, a), ReadChunk(swallow, IDLE, s);
    if HasEnter(o.events) { EnterIsBrought(o.events); }
    hide ReadChunk, HasEnter, UpToEnter, Nows, Laters, Arrives;
    AskedFirst(Nows(whole.events), Laters(whole.events), [], |Nows(o.events)|);
    AskedFirst(Nows(whole.events), Laters(UpToEnter(whole.events)), [], |Nows(o.events)|);
    assert forall x: seq<Step> :: x + [] == x;
    var q := if HasEnter(o.events) then AfterLine(o.proxy) else o.proxy;
    BroughtNext(Nows(o.events), Laters(o.events), Arrive(kept, swallow, q, chunks[1..]).steps);
    BroughtNext(Nows(o.events), Laters(o.events), ArriveChunks(swallow, o.proxy, chunks[1..]).steps);
    if HasEnter(o.events) { BroughtNext(Nows(o.events), Laters(UpToEnter(o.events)), []); }
  }

  lemma AskedFirst(nows: seq<Event>, laters: seq<Event>, more: seq<Step>, k: nat)
    requires k < |nows|
    ensures |(Arrives(nows, laters) + more)| > k && (Arrives(nows, laters) + more)[k].Now?
  {}

  lemma BroughtNext(nows: seq<Event>, laters: seq<Event>, more: seq<Step>)
    requires laters != []
    ensures |Arrives(nows, laters) + more| > |nows| && (Arrives(nows, laters) + more)[|nows|].Later?
  {}

  // ---- The exact conditions ----

  /**
   The proxy by itself: where a stream is cut does not matter if and only if every
   frame and paste settles and no question stands behind something that is brought.
   */
  lemma ChunkIndependenceIsExact(swallow: bool, s: seq<Byte>)
    ensures ProxyCutsUnseen(swallow, s) <==> Settles(swallow, IDLE, s) && !Overtakes(swallow, IDLE, s)
  {
    WholeArrives(true, swallow, s);
    ProxyWhole(swallow, s);
    CoherentIdle();
    hide Scan, Settles, ArriveChunks, Arrive, ReadChunk, Coherent, Given, OvertakesAt;
    if Overtakes(swallow, IDLE, s) {
      var n :| 0 <= n <= |s| && OvertakesAt(swallow, IDLE, s, n);
      OvertakingCut(true, swallow, s, n);
    } else if !Settles(swallow, IDLE, s) {
      var a, b := RevealingCut(swallow, IDLE, s);
      TwoChunkRun(swallow, a, b);
      ArriveChunksAreProcessed(swallow, IDLE, [a, b]);
      ArriveChunksAreProcessed(swallow, IDLE, [s]);
      assert ProcessChunks(swallow, IDLE, [s]) == Scan(swallow, IDLE, s) by { ProcessOne(swallow, s); }
      hide ProcessChunks;
    } else {
      forall chunks: seq<seq<Byte>> | Flatten(chunks) == s
        ensures ArriveChunks(swallow, IDLE, chunks) == ArriveChunks(swallow, IDLE, [s])
      {
        SettledFromIdle(swallow, chunks);
        SettledFromIdle(swallow, [s]);
      }
    }
  }

  lemma CoherentIdle()
    ensures Coherent(IDLE) && IDLE.(pending := []) == IDLE && forall s: seq<Byte> :: IDLE.pending + s == s
  {
    EndOfNothing();
    assert IDLE.pending == [];
    hide EndAt;
  }

  lemma SettledFromIdle(swallow: bool, chunks: seq<seq<Byte>>)
    requires Settles(swallow, IDLE, Flatten(chunks)) && !Overtakes(swallow, IDLE, Flatten(chunks))
    ensures var o := ReadChunk(swallow, IDLE, Flatten(chunks));
            ArriveChunks(swallow, IDLE, chunks) == Arrival(Arrives(Nows(o.events), Laters(o.events)), Some(o.proxy))
  {
    CoherentIdle();
    WholeArrives(true, swallow, []);
    hide Settles, Overtakes, ReadChunk, Coherent, Arrives;
    ArriveSettled(swallow, IDLE, chunks);
  }

  lemma ProcessOne(swallow: bool, s: seq<Byte>)
    ensures ProcessChunks(swallow, IDLE, [s]) == ReadChunk(swallow, IDLE, s)
  {
    assert [s][1..] == [];
    var o := ReadChunk(swallow, IDLE, s);
    assert o.events + [] == o.events;
  }

  lemma ProxyWhole(swallow: bool, s: seq<Byte>)
    ensures var o := ReadChunk(swallow, IDLE, s);
            && ArriveChunks(swallow, IDLE, [s]) == Arrival(Arrives(Nows(o.events), Laters(o.events)), Some(o.proxy))
            && ArriveChunks(swallow, IDLE, [s]).steps == Given(true, o).steps
  {
    hide ReadChunk, Nows, Laters, Arrives;
    assert [s][1..] == [];
    var o := ReadChunk(swallow, IDLE, s);
    assert Arrives(Nows(o.events), Laters(o.events)) + [] == Arrives(Nows(o.events), Laters(o.events));
  }

  /** Lines change nothing when there are none, or when no read begins. */
  lemma {:induction false} NoResetsArrive(kept: bool, swallow: bool, p: Proxy, chunks: seq<seq<Byte>>)
    requires var events := ProcessChunks(swallow, p, chunks).events;
             !HasEnter(events) || (kept && BeginCapture !in events && p.captures == 0 && !p.submit)
    ensures Arrive(kept, swallow, p, chunks) == ArriveChunks(swallow, p, chunks)
    decreases |chunks|
  {
    if |chunks| > 0 {
      var first := ReadChunk(swallow, p, chunks[0]);
      var rest := ProcessChunks(swallow, first.proxy, chunks[1..]);
      ReadIsSaid(swallow, p, chunks[0]);
      EnterOfParts(first.events, rest.events);
      hide ReadChunk, HasEnter, UpToEnter, Nows, Laters, Arrives;
      if HasEnter(first.events) {
        assert multiset(first.events)[BeginCapture] == 0 by { assert BeginCapture !in first.events; }
        assert AfterLine(first.proxy) == first.proxy;
      }
      assert HasEnter(rest.events) ==> multiset(first.events)[BeginCapture] == 0 && !first.proxy.submit by {
        assert HasEnter(rest.events) ==> BeginCapture !in first.events;
      }
      NoResetsArrive(kept, swallow, first.proxy, chunks[1..]);
    }
  }

  lemma KeptArrives(swallow: bool, s: seq<Byte>, chunks: seq<seq<Byte>>)
    requires Settles(swallow, IDLE, s) && Tidy(Scan(swallow, IDLE, s).events) && !Overtakes(swallow, IDLE, s)
    requires Flatten(chunks) == s
    ensures Arrive(true, swallow, IDLE, chunks) ==
              Given(true, Scan(swallow, IDLE, s)).(left := Some(Scan(swallow, IDLE, s).proxy))
  {
    ChunksFromIdle(swallow, chunks);
    SettledFromIdle(swallow, chunks);
    WholeArrives(true, swallow, s);
    hide Scan, Settles, HasEnter, Overtakes, ReadChunk, Arrives, Nows, Laters;
    NoResetsArrive(true, swallow, IDLE, chunks);
  }

  lemma DifferentDelivery(kept: bool, swallow: bool, x: seq<seq<Byte>>, y: seq<seq<Byte>>)
    requires !SameDelivery(Deliver(kept, swallow, IDLE, x), Deliver(kept, swallow, IDLE, y))
    ensures Arrive(kept, swallow, IDLE, x) != Arrive(kept, swallow, IDLE, y)
  {
    ArriveIsDelivered(kept, swallow, IDLE, x);
    ArriveIsDelivered(kept, swallow, IDLE, y);
    hide Deliver, Arrive;
  }

  /**
   Where a stream is cut does not matter to a prompt that is kept open if and only
   if every frame and paste settles, no clipboard read begins behind an Enter and
   no question stands behind something that is brought; and to any other prompt if
   and only if they settle up to the first Enter and no question stands behind
   something that is brought.
   */
  lemma PromptChunkIndependenceIsExact(kept: bool, swallow: bool, s: seq<Byte>)
    ensures CutsUnseen(kept, swallow, s) <==>
              && !Overtakes(swallow, IDLE, s)
              && (if kept then Settles(swallow, IDLE, s) && Tidy(Scan(swallow, IDLE, s).events)
                  else SettlesToEnter(swallow, IDLE, s))
  {
    WholeArrives(kept, swallow, s);
    hide Scan, Settles, SettlesToEnter, Tidy, Arrive, ReadChunk, Given, OvertakesAt;
    if Overtakes(swallow, IDLE, s) {
      var n :| 0 <= n <= |s| && OvertakesAt(swallow, IDLE, s, n);
      OvertakingCut(kept, swallow, s, n);
    } else if kept {
      KeptIsExact(swallow, s);
    } else {
      OnceIsExact(swallow, s);
    }
  }

  lemma KeptIsExact(swallow: bool, s: seq<Byte>)
    requires !Overtakes(swallow, IDLE, s)
    ensures CutsUnseen(true, swallow, s) <==> Settles(swallow, IDLE, s) && Tidy(Scan(swallow, IDLE, s).events)
  {
    WholeStream(true, swallow, s);
    hide Scan, Settles, Tidy, Deliver, Seen, Arrive, Given, Overtakes, SameDelivery;
    if !Tidy(Scan(swallow, IDLE, s).events) {
      var a, b := UntidyCut(swallow, s);
      DifferentDelivery(true, swallow, [a, b], [s]);
    } else if !Settles(swallow, IDLE, s) {
      var a, b := UnsettledCut(swallow, s);
      DifferentDelivery(true, swallow, [a, b], [s]);
    } else {
      KeptArrives(swallow, s, [s]);
      forall chunks: seq<seq<Byte>> | Flatten(chunks) == s
        ensures Arrive(true, swallow, IDLE, chunks) == Arrive(true, swallow, IDLE, [s])
      {
        KeptArrives(swallow, s, chunks);
      }
    }
  }

  lemma OnceIsExact(swallow: bool, s: seq<Byte>)
    requires !Overtakes(swallow, IDLE, s)
    ensures CutsUnseen(false, swallow, s) <==> SettlesToEnter(swallow, IDLE, s)
  {
    WholeStream(false, swallow, s);
    WholeArrives(false, swallow, s);
    CoherentIdle();
    hide Scan, SettlesToEnter, Deliver, Seen, Arrive, Given, Overtakes, SameDelivery, ReadChunk, Coherent;
    if !SettlesToEnter(swallow, IDLE, s) {
      var a, b := RevealingCutSeen(swallow, IDLE, s);
      DeliverTwo(false, swallow, a, b);
      DeliverTwoOnce(swallow, a, b);
      DifferentDelivery(false, swallow, [s], [a, b]);
    } else {
      forall chunks: seq<seq<Byte>> | Flatten(chunks) == s
        ensures Arrive(false, swallow, IDLE, chunks) == Arrive(false, swallow, IDLE, [s])
      {
        ArriveToEnter(swallow, IDLE, chunks);
      }
    }
  }

  // ---- Where cuts matter ----

  /** A body of MAX - 4 to MAX bytes arrives whole or is refused, as the cutting has it. */
  lemma PasteInTheBandShowsTheCut(kept: bool, swallow: bool, body: seq<Byte>)
    requires MAX_BRACKETED_PASTE_BYTES - 4 <= |body| <= MAX_BRACKETED_PASTE_BYTES && 0x1b !in body
    ensures !CutsUnseen(kept, swallow, PasteStart() + body + PasteEnd())
  {
    var open, rest := IDLE.(active := true), body + PasteEnd();
    var s := PasteStart() + body + PasteEnd();
    assert s == PasteStart() + rest;
    PlainBodyHasNoEnd(body);
    PasteBodyScan(swallow, open, body);
    OpeningScan(swallow, rest);
    PromptChunkIndependenceIsExact(kept, swallow, s);
    hide Scan, Settles, SettlesToEnter, CutsUnseen, HasEnter, Overtakes;
    EnterOfOne(PasteText(body));
    if SettlesToEnter(swallow, IDLE, s) {
      SettlesWithoutEnter(swallow, IDLE, s);
      assert false;
    }
  }

  /** A paste and what follows it in the same chunk. */
  lemma PasteThen(swallow: bool, body: seq<Byte>, b: seq<Byte>)
    requires EndAt(body) == -1 && |body| <= MAX_BRACKETED_PASTE_BYTES - 5
    ensures var next := Scan(swallow, IDLE, b);
            Scan(swallow, IDLE, PasteStart() + body + PasteEnd() + b) ==
              Outcome([PasteText(body)] + next.events, next.proxy)
    ensures Settles(swallow, IDLE, b) ==> Settles(swallow, IDLE, PasteStart() + body + PasteEnd() + b)
  {
    var open, rest := IDLE.(active := true), body + PasteEnd() + b;
    DeliveredInFront(open, body, b);
    hide PasteStart, PasteEnd, EndAt, Scan, Settles, PasteMove, Combined;
    assert PasteStart() + body + PasteEnd() + b == PasteStart() + rest;
    OpeningScan(swallow, rest);
    PasteFound(swallow, open, rest);
  }

  lemma DeliveredInFront(open: Proxy, body: seq<Byte>, b: seq<Byte>)
    requires open == IDLE.(active := true) && EndAt(body) == -1 && |body| <= MAX_BRACKETED_PASTE_BYTES - 5
    ensures var rest := body + PasteEnd() + b;
            && EndAt(Combined(open, rest)) == |body| && rest[|body| + 6..] == b
            && PasteMove(open, rest) == Go([PasteText(body)], IDLE, |body| + 6)
  {
    var c := body + PasteEnd();
    EndFoundWherePut(body);
    EndStable(c, b);
    assert |c| == |body| + 6;
    hide PasteEnd, EndAt;
    assert Combined(open, c + b) == c + b && (c + b)[..|body|] == body;
  }

  // ---- A Backspace behind a paste ----

  /** The draft up to its cursor, and what the editor has answered about bytes that have not arrived yet. */
  datatype Draft = Draft(line: string, answers: seq<bool>)

  /** The editor with one marker: it takes the marker out when asked, and a refused byte deletes a character. */
  function Edited(marker: string, d: Draft, step: Step): Draft {
    var n := |d.line|;
    match step
    case Now(AskBackspace(_)) =>
      if PasteMarkers.EndsAt(d.line, n, marker) then Draft(d.line[..n - |marker|], d.answers + [true])
      else Draft(d.line, d.answers + [false])
    case Later(AskBackspace(_)) =>
      if d.answers == [] then d
      else Draft(if d.answers[0] || n == 0 then d.line else d.line[..n - 1], d.answers[1..])
    case Later(PasteText(_)) => d.(line := d.line + marker)
    case _ => d
  }

  function EditedAll(marker: string, d: Draft, steps: seq<Step>): Draft
    decreases |steps|
  {
    if |steps| == 0 then d else EditedAll(marker, Edited(marker, d, steps[0]), steps[1..])
  }

  /**
   A paste that becomes a marker and a Backspace behind it, to either kind of
   prompt. In one chunk the editor is asked before the marker is there, and the
   byte then takes the last character off it; cut in front of the Backspace the
   whole marker goes. The stream settles and has no Enter.
   */
  lemma BackspaceOvertakesThePaste(kept: bool, swallow: bool, body: seq<Byte>, b: Byte, marker: string)
    requires EndAt(body) == -1 && |body| <= MAX_BRACKETED_PASTE_BYTES - 5 && (b == 0x08 || b == 0x7f) && marker != ""
    ensures var paste := PasteStart() + body + PasteEnd();
            var joined := Arrive(kept, swallow, IDLE, [paste + [b]]).steps;
            var apart := Arrive(kept, swallow, IDLE, [paste, [b]]).steps;
            && joined == [Now(AskBackspace(b)), Later(PasteText(body)), Later(AskBackspace(b))]
            && apart == [Later(PasteText(body)), Now(AskBackspace(b)), Later(AskBackspace(b))]
            && EditedAll(marker, Draft("", []), joined).line == marker[..|marker| - 1]
            && EditedAll(marker, Draft("", []), apart).line == ""
            && Settles(swallow, IDLE, paste + [b])
  {
    var paste := PasteStart() + body + PasteEnd();
    BackspaceIsAsked(swallow, b);
    PasteThen(swallow, body, [b]);
    PasteThen(swallow, body, []);
    NothingToScan(swallow, IDLE);
    assert paste + [] == paste && [PasteText(body)] + [] == [PasteText(body)];
    hide Scan, PasteStart, PasteEnd, EndAt, Settles;
    JoinedSteps(kept, swallow, paste + [b], [PasteText(body), AskBackspace(b)]);
    ApartSteps(kept, swallow, paste, [b], PasteText(body), AskBackspace(b));
    DraftOfJoined(marker, body, b);
    DraftOfApart(marker, body, b);
  }

  lemma BackspaceIsAsked(swallow: bool, b: Byte)
    requires b == 0x08 || b == 0x7f
    ensures Scan(swallow, IDLE, [b]) == Outcome([AskBackspace(b)], IDLE) && Settles(swallow, IDLE, [b])
  {
    assert [b][1..] == [];
  }

  lemma JoinedSteps(kept: bool, swallow: bool, s: seq<Byte>, events: seq<Event>)
    requires Scan(swallow, IDLE, s) == Outcome(events, IDLE)
    requires |events| == 2 && events[0].PasteText? && events[1].AskBackspace?
    ensures Arrive(kept, swallow, IDLE, [s]).steps == [Now(events[1]), Later(events[0]), Later(events[1])]
  {
    WholeArrives(kept, swallow, s);
    hide Scan, Arrive;
    assert events == [events[0]] + [events[1]];
    NowsParts([events[0]], [events[1]]);
    assert [events[0]][1..] == [] && [events[1]][1..] == [];
    assert Nows([events[0]]) == [] && Nows([events[1]]) == [events[1]];
    assert Laters([events[0]]) == [events[0]] && Laters([events[1]]) == [events[1]];
    hide Nows, Laters;
    assert Arrives(Nows(events), Laters(events)) == [Now(events[1]), Later(events[0]), Later(events[1])];
  }

  lemma ApartSteps(kept: bool, swallow: bool, a: seq<Byte>, b: seq<Byte>, x: Event, y: Event)
    requires Scan(swallow, IDLE, a) == Outcome([x], IDLE) && Scan(swallow, IDLE, b) == Outcome([y], IDLE)
    requires x.PasteText? && y.AskBackspace?
    ensures Arrive(kept, swallow, IDLE, [a, b]).steps == [Later(x), Now(y), Later(y)]
  {
    var chunks := [a, b];
    WholeArrives(kept, swallow, a);
    WholeArrives(kept, swallow, b);
    hide Scan;
    assert chunks[1..] == [b];
    assert [x][1..] == [] && [y][1..] == [];
    assert Nows([x]) == [] && Laters([x]) == [x] && Nows([y]) == [y] && Laters([y]) == [y];
    assert Arrives([], [x]) == [Later(x)] && Arrives([y], [y]) == [Now(y), Later(y)];
    EnterOfOne(x);
    EnterOfOne(y);
    hide HasEnter, Nows, Laters, Arrives;
  }

  lemma EditThree(marker: string, d: Draft, x: Step, y: Step, z: Step)
    ensures EditedAll(marker, d, [x, y, z]) == Edited(marker, Edited(marker, Edited(marker, d, x), y), z)
  {
    hide Edited;
    assert [x, y, z][1..] == [y, z] && [y, z][1..] == [z] && [z][1..] == [];
    assert EditedAll(marker, Edited(marker, d, x), [y, z]) ==
             EditedAll(marker, Edited(marker, Edited(marker, d, x), y), [z]);
  }

  lemma DraftOfJoined(marker: string, body: seq<Byte>, b: Byte)
    requires marker != ""
    ensures EditedAll(marker, Draft("", []),
                      [Now(AskBackspace(b)), Later(PasteText(body)), Later(AskBackspace(b))]).line
              == marker[..|marker| - 1]
  {
    EditThree(marker, Draft("", []), Now(AskBackspace(b)), Later(PasteText(body)), Later(AskBackspace(b)));
    hide EditedAll;
    assert "" + marker == marker;
  }

  lemma DraftOfApart(marker: string, body: seq<Byte>, b: Byte)
    requires marker != ""
    ensures EditedAll(marker, Draft("", []),
                      [Later(PasteText(body)), Now(AskBackspace(b)), Later(AskBackspace(b))]).line
              == ""
  {
    EditThree(marker, Draft("", []), Later(PasteText(body)), Now(AskBackspace(b)), Later(AskBackspace(b)));
    hide EditedAll;
    assert "" + marker == marker && marker[|marker| - |marker|..|marker|] == marker;
  }
}
