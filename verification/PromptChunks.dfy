/**
 What the scans of a stream of terminal input that arrives in chunks do, with the
 lines taken on the way (src/cli/prompt-input.ts): the cuts that show in it. In
 which order the editor gets it is said in PromptArrivals.
 */
module PromptChunks {
  import opened Common
  import opened InputProxy
  import opened PromptLines
  import Osc = PrivateOsc

  // ---- Delivering chunks to a prompt ----

  /** The events that reach the prompt, and the proxy they leave unless the prompt is over. */
  datatype Delivery = Delivery(events: seq<Event>, left: Option<Proxy>)

  function UpToEnter(events: seq<Event>): seq<Event> {
    if |events| == 0 then []
    else if IsEnter(events[0]) then [events[0]]
    else [events[0]] + UpToEnter(events[1..])
  }

  /** Every Enter of a chunk is taken as a line when the chunk has been read. */
  function Deliver(kept: bool, swallow: bool, p: Proxy, chunks: seq<seq<Byte>>): Delivery
    decreases |chunks|
  {
    if |chunks| == 0 then Delivery([], Some(p))
    else
      var o := ReadChunk(swallow, p, chunks[0]);
      if HasEnter(o.events) && !kept then Delivery(UpToEnter(o.events), None)
      else
        var rest := Deliver(kept, swallow, if HasEnter(o.events) then AfterLine(o.proxy) else o.proxy, chunks[1..]);
        Delivery(o.events + rest.events, rest.left)
  }

  /** An Enter reaches the editor, and a clipboard read begins: behind it, since an Enter in front is held. */
  predicate Tidy(events: seq<Event>) {
    !(HasEnter(events) && BeginCapture in events)
  }

  /** Every frame and every paste met before the first Enter settles. */
  predicate SettlesToEnter(swallow: bool, p: Proxy, s: seq<Byte>)
    decreases |s|, if p.active then 1 else 0
  {
    if s == [] then true
    else
      && MoveSettles(swallow, p, s)
      && match MoveAt(swallow, p, s)
         case Stop(_, _) => true
         case Go(events, q, n) => HasEnter(events) || SettlesToEnter(swallow, q, s[n..])
  }

  /** Nothing tells the two apart but the order in which questions and output come. */
  predicate SameDelivery(x: Delivery, y: Delivery) {
    Laters(x.events) == Laters(y.events) && x.left == y.left && (x.left.Some? ==> Nows(x.events) == Nows(y.events))
  }

  // ---- Events up to an Enter ----

  /** Enters, reads and holds are all brought at the end of a chunk. */
  lemma LatersKeep(events: seq<Event>)
    ensures HasEnter(Laters(events)) <==> HasEnter(events)
    ensures forall e :: e in Laters(events) <==> e in events && !e.ShowThinking?
    ensures multiset(Laters(events))[BeginCapture] == multiset(events)[BeginCapture]
  {
    LatersAre(events);
    LatersCount(events);
    if HasEnter(events) {
      var i :| 0 <= i < |events| && IsEnter(events[i]);
      assert events[i] in Laters(events);
    }
    if HasEnter(Laters(events)) {
      var i :| 0 <= i < |Laters(events)| && IsEnter(Laters(events)[i]);
      assert Laters(events)[i] in events;
    }
  }

  lemma {:induction false} LatersAre(events: seq<Event>)
    ensures forall e :: e in Laters(events) <==> e in events && !e.ShowThinking?
    decreases |events|
  {
    if events != [] {
      LatersAre(events[1..]);
      assert forall e :: e in events <==> e == events[0] || e in events[1..];
    }
  }

  lemma {:induction false} LatersCount(events: seq<Event>)
    ensures multiset(Laters(events))[BeginCapture] == multiset(events)[BeginCapture]
    decreases |events|
  {
    if events != [] {
      LatersCount(events[1..]);
      assert events == [events[0]] + events[1..];
      assert multiset(events) == multiset{events[0]} + multiset(events[1..]);
    }
  }

  lemma EnterOfParts(u: seq<Event>, v: seq<Event>)
    ensures HasEnter(u + v) <==> HasEnter(u) || HasEnter(v)
  {
    var both := u + v;
    if HasEnter(u) {
      var i :| 0 <= i < |u| && IsEnter(u[i]);
      assert IsEnter(both[i]);
    }
    if HasEnter(v) {
      var i :| 0 <= i < |v| && IsEnter(v[i]);
      assert IsEnter(both[|u| + i]);
    }
  }

  lemma EnterOfOne(e: Event)
    ensures HasEnter([e]) <==> IsEnter(e)
  {
    assert HasEnter([e]) ==> IsEnter([e][0]);
    assert IsEnter([e][0]) ==> HasEnter([e]);
  }

  lemma UpToCons(e: Event, rest: seq<Event>)
    ensures UpToEnter([e] + rest) == [e] + if IsEnter(e) then [] else UpToEnter(rest)
  {
    assert ([e] + rest)[1..] == rest;
  }

  lemma {:induction false} UpToParts(u: seq<Event>, v: seq<Event>)
    ensures UpToEnter(u + v) == if HasEnter(u) then UpToEnter(u) else u + UpToEnter(v)
    ensures |UpToEnter(u)| <= |u|
    ensures !HasEnter(u) ==> UpToEnter(u) == u
  {
    if u == [] {
      assert u + v == v;
    } else {
      hide HasEnter, UpToEnter, IsEnter;
      var first, rest := [u[0]], u[1..];
      assert u == first + rest && u + v == first + (rest + v);
      UpToParts(rest, v);
      EnterOfParts(first, rest);
      EnterOfOne(u[0]);
      UpToCons(u[0], rest);
      UpToCons(u[0], rest + v);
      assert first + (rest + UpToEnter(v)) == u + UpToEnter(v);
    }
  }

  // ---- One chunk and two chunks ----

  /** What a prompt makes of one outcome. */
  function Seen(kept: bool, o: Outcome): Delivery {
    if !HasEnter(o.events) then Delivery(o.events, Some(o.proxy))
    else if kept then Delivery(o.events, Some(AfterLine(o.proxy)))
    else Delivery(UpToEnter(o.events), None)
  }

  lemma DeliverOne(kept: bool, swallow: bool, p: Proxy, s: seq<Byte>)
    ensures Deliver(kept, swallow, p, [s]) == Seen(kept, ReadChunk(swallow, p, s))
  {
    hide ReadChunk, HasEnter, UpToEnter;
    assert [s][1..] == [];
    var o := ReadChunk(swallow, p, s);
    assert o.events + [] == o.events;
  }

  lemma DeliverTwo(kept: bool, swallow: bool, a: seq<Byte>, b: seq<Byte>)
    ensures Flatten([a, b]) == a + b
    ensures var o := Scan(swallow, IDLE, a);
            Deliver(kept, swallow, IDLE, [a, b]) ==
            if HasEnter(o.events) && !kept then Delivery(UpToEnter(o.events), None)
            else
              var d := Seen(kept, ReadChunk(swallow, if HasEnter(o.events) then AfterLine(o.proxy) else o.proxy, b));
              Delivery(o.events + d.events, d.left)
  {
    var chunks := [a, b];
    assert chunks[1..] == [b] && chunks[1..][1..] == [] && Flatten(chunks[1..]) == b;
    assert IDLE.(pending := []) == IDLE && [] + a == a;
    var o := Scan(swallow, IDLE, a);
    assert ReadChunk(swallow, IDLE, a) == o;
    DeliverOne(kept, swallow, if HasEnter(o.events) then AfterLine(o.proxy) else o.proxy, b);
    hide Scan, HasEnter, UpToEnter, Seen;
  }

  /** A one-shot prompt sees two chunks like their joined outcome. */
  lemma DeliverTwoOnce(swallow: bool, a: seq<Byte>, b: seq<Byte>)
    ensures Deliver(false, swallow, IDLE, [a, b]) == Seen(false, Then(swallow, Scan(swallow, IDLE, a), b))
  {
    DeliverTwo(false, swallow, a, b);
    var o := Scan(swallow, IDLE, a);
    var next := ReadChunk(swallow, o.proxy, b);
    hide Scan, ReadChunk, HasEnter, UpToEnter;
    EnterOfParts(o.events, next.events);
    UpToParts(o.events, next.events);
  }

  lemma ReadIsSaid(swallow: bool, p: Proxy, data: seq<Byte>)
    ensures var o := ReadChunk(swallow, p, data); ScanSays(p.(pending := []), o.events, o.proxy)
  {
    ScanIsSaid(swallow, p.(pending := []), p.pending + data);
  }

  // ---- Cutting behind an Enter ----

  lemma NotInWord(word: seq<Byte>, a: seq<Byte>)
    requires a != [] && a[|a| - 1] !in word
    ensures !(a <= word)
  {
    assert |a| <= |word| ==> word[|a| - 1] in word;
  }

  /** No word of the proxy has an Enter in it. */
  lemma WordsHaveNoEnter(a: seq<Byte>)
    requires a != [] && (a[|a| - 1] == 0x0d || a[|a| - 1] == 0x0a)
    ensures !(a < PasteStart()) && !CutHotkey(a) && !(a <= Osc.PrivateOscPrefix())
  {
    NotInWord(PasteStart(), a);
    NotInWord(Hotkey(0x35), a);
    NotInWord(Hotkey(0x36), a);
    NotInWord(Hotkey(0x39), a);
    NotInWord(Osc.PrivateOscPrefix(), a);
  }

  /** A frame that ends within `a` settles there as it does with what follows. */
  lemma FrameBeforeEnter(swallow: bool, a: seq<Byte>, b: seq<Byte>)
    requires a != [] && TokenAt(swallow, a + b).Take? && TokenAt(swallow, a + b).length < |a|
    requires Osc.PrivateOscPrefix() <= a
    ensures Osc.Terminator(a) == Osc.Terminator(a + b) != -1
  {
    var s := a + b;
    CompatibleStable(a, b, Osc.PrivateOscPrefix());
    Osc.TerminatorStable(a, b);
    assert s[0] == 0x1b && s[1] == 0x5d && !(PasteStart() <= s);
    Osc.ParseIsNoFrame(s);
    hide PasteStart, Osc.PrivateOscPrefix, Osc.Terminator;
  }

  lemma TokenBeforeEnter(swallow: bool, a: seq<Byte>, b: seq<Byte>)
    requires a != [] && (a[|a| - 1] == 0x0d || a[|a| - 1] == 0x0a)
    requires var token := TokenAt(swallow, a + b);
             !token.Wait? && (token.Take? ==> token.length < |a|) && (token.EnterKey? ==> |a| > 1)
    ensures TokenAt(swallow, a) == TokenAt(swallow, a + b)
    ensures FrameSettles(swallow, a + b) ==> FrameSettles(swallow, a)
  {
    var s := a + b;
    assert a[0] == s[0];
    WordsHaveNoEnter(a);
    CompatibleStable(a, b, Osc.PrivateOscPrefix());
    if Osc.PrivateOscPrefix() <= a {
      OscTakes(swallow, s);
      FrameBeforeEnter(swallow, a, b);
    }
    NeverWaits(swallow, a);
    hide PasteStart, Hotkey, Osc.PrivateOscPrefix, Osc.Terminator, TokenAt, CutHotkey;
    TokenStable(swallow, a, b);
    assert forall i :: 0 <= i < |a| ==> a[i] == s[i];
  }

  /** A private frame is taken or waited for. */
  lemma OscTakes(swallow: bool, s: seq<Byte>)
    requires Osc.PrivateOscPrefix() <= s
    ensures TokenAt(swallow, s).Take? || TokenAt(swallow, s).Wait?
  {
    assert s[0] == 0x1b && s[1] == 0x5d;
  }

  /** Nothing that ends in an Enter is held, but an open private frame. */
  lemma NeverWaits(swallow: bool, a: seq<Byte>)
    requires a != [] && (a[|a| - 1] == 0x0d || a[|a| - 1] == 0x0a)
    requires Osc.PrivateOscPrefix() <= a ==> Osc.Terminator(a) != -1
    ensures !TokenAt(swallow, a).Wait?
  {
    WordsHaveNoEnter(a);
    Osc.ParseIsNoFrame(a);
    assert a[0] == 0x1b ==> |a| > 1;
    hide PasteStart, Hotkey, Osc.PrivateOscPrefix, Osc.Terminator, CutHotkey;
  }

  /** A move that ends before an Enter does not depend on what follows the Enter. */
  lemma MoveBeforeEnter(swallow: bool, p: Proxy, a: seq<Byte>, b: seq<Byte>)
    requires a != [] && (a[|a| - 1] == 0x0d || a[|a| - 1] == 0x0a)
    requires MoveAt(swallow, p, a + b).Go? && MoveAt(swallow, p, a + b).length < |a|
    ensures MoveAt(swallow, p, a) == MoveAt(swallow, p, a + b)
    ensures MoveSettles(swallow, p, a + b) ==> MoveSettles(swallow, p, a)
  {
    if p.active {
      var c := Combined(p, a);
      assert Combined(p, a + b) == c + b;
      EndStable(c, b);
      MoveStable(swallow, p, a, b);
    } else {
      TokenBeforeEnter(swallow, a, b);
      hide TokenAt, FrameSettles;
    }
  }

  lemma LoneEnter(swallow: bool, p: Proxy, b: Byte)
    requires !p.active && !p.submit && p.captures == 0 && (b == 0x0d || b == 0x0a)
    ensures MoveAt(swallow, p, [b]) == Go([Emit(b)], p, 1)
    ensures Scan(swallow, p, [b]) == Outcome([Emit(b)], p) && Settles(swallow, p, [b])
  {
    assert [b][1..] == [];
  }

  predicate EndsInEnter(events: seq<Event>) {
    events != [] && IsEnter(events[|events| - 1])
  }

  /** Cut behind the last Enter that is passed on: both parts are read as in one. */
  lemma {:induction false} EnterCut(swallow: bool, p: Proxy, s: seq<Byte>) returns (a: seq<Byte>, b: seq<Byte>)
    requires p.pending == [] && HasEnter(Scan(swallow, p, s).events)
    ensures s == a + b && a != [] && (a[|a| - 1] == 0x0d || a[|a| - 1] == 0x0a)
    ensures var o := Scan(swallow, p, a);
            var rest := Scan(swallow, o.proxy, b);
            && o.proxy.pending == []
            && Scan(swallow, p, s) == Outcome(o.events + rest.events, rest.proxy)
            && HasEnter(o.events) && EndsInEnter(o.events) && !HasEnter(rest.events)
    decreases |s|, if p.active then 1 else 0
  {
    hide HasEnter, Scan, MoveSettles, MoveAt, Settles;
    MoveOfEnter(swallow, p, s);
    var m := MoveAt(swallow, p, s);
    GoScan(swallow, p, s);
    var rest := Scan(swallow, m.proxy, s[m.length..]);
    EnterOfParts(m.events, rest.events);
    if HasEnter(m.events) && !HasEnter(rest.events) {
      a, b := s[..1], s[1..];
      assert a == [s[0]];
      LoneEnter(swallow, p, s[0]);
      EnterOfOne(Emit(s[0]));
    } else {
      var a', b' := EnterCut(swallow, m.proxy, s[m.length..]);
      a, b := s[..m.length] + a', b';
      assert s == a + b && a[m.length..] == a' && a[|a| - 1] == a'[|a'| - 1];
      MoveBeforeEnter(swallow, p, a, b);
      GoScan(swallow, p, a);
      JoinParts(m.events, Scan(swallow, m.proxy, a').events, b', swallow, Scan(swallow, m.proxy, a').proxy);
    }
  }

  lemma MoveOfEnter(swallow: bool, p: Proxy, s: seq<Byte>)
    requires p.pending == [] && HasEnter(Scan(swallow, p, s).events)
    ensures s != [] && MoveAt(swallow, p, s).Go?
    ensures var m := MoveAt(swallow, p, s);
            && m.proxy.pending == []
            && (HasEnter(m.events) ==>
                  !p.active && !p.submit && p.captures == 0 && m == Go([Emit(s[0])], p, 1) &&
                  (s[0] == 0x0d || s[0] == 0x0a))
  {
    if s != [] {
      MoveSays(swallow, p, s);
      hide MoveAt;
    }
  }

  lemma JoinParts(u: seq<Event>, v: seq<Event>, b: seq<Byte>, swallow: bool, q: Proxy)
    ensures u + (v + Scan(swallow, q, b).events) == (u + v) + Scan(swallow, q, b).events
    ensures HasEnter(v) ==> HasEnter(u + v)
    ensures EndsInEnter(v) ==> EndsInEnter(u + v)
  {
    hide Scan, HasEnter;
    EnterOfParts(u, v);
  }

  // ---- A prompt that is kept open ----

  /** The stream in one chunk. */
  lemma WholeStream(kept: bool, swallow: bool, s: seq<Byte>)
    ensures Flatten([s]) == s
    ensures Deliver(kept, swallow, IDLE, [s]) == Seen(kept, Scan(swallow, IDLE, s))
  {
    assert [s][1..] == [] && s + [] == s;
    assert IDLE.(pending := []) == IDLE && [] + s == s;
    hide Scan, Seen;
    DeliverOne(kept, swallow, IDLE, s);
  }

  /** A read behind an Enter: cut behind the last Enter, it is still counted at the end. */
  lemma UntidyCut(swallow: bool, s: seq<Byte>) returns (a: seq<Byte>, b: seq<Byte>)
    requires !Tidy(Scan(swallow, IDLE, s).events)
    ensures Flatten([a, b]) == s
    ensures !SameDelivery(Deliver(true, swallow, IDLE, [a, b]), Seen(true, Scan(swallow, IDLE, s)))
  {
    a, b := EnterCut(swallow, IDLE, s);
    DeliverTwo(true, swallow, a, b);
    var o := Scan(swallow, IDLE, a);
    var rest := Scan(swallow, o.proxy, b);
    ScanIsSaid(swallow, IDLE, a);
    ScanIsSaid(swallow, o.proxy, b);
    EnterEndsCounting(o, IDLE);
    assert o.proxy.(pending := []) == o.proxy && [] + b == b;
    hide Scan, Deliver, HasEnter;
    ReadBehind(o, rest);
  }

  lemma ReadBehind(o: Outcome, rest: Outcome)
    requires ScanSays(IDLE, o.events, o.proxy) && ScanSays(o.proxy, rest.events, rest.proxy)
    requires o.proxy.captures == 0 && BeginCapture in o.events + rest.events
    ensures rest.proxy.captures > 0
  {
    assert multiset(o.events)[BeginCapture] == 0;
    assert BeginCapture !in o.events;
  }

  /** Up to its last Enter a scan has begun no read and holds no Enter, if the last thing it did was an Enter. */
  lemma EnterEndsCounting(o: Outcome, p: Proxy)
    requires ScanSays(p, o.events, o.proxy) && EndsInEnter(o.events)
    ensures o.proxy.captures == 0 && !o.proxy.submit && AfterLine(o.proxy) == o.proxy
  {
    var n := |o.events| - 1;
    assert BeginCapture !in o.events[..n];
    assert o.events == o.events[..n] + [o.events[n]];
    assert multiset(o.events) == multiset(o.events[..n]) + multiset{o.events[n]};
    forall i | 0 <= i <= n ensures o.events[i] != HoldEnter {}
  }

  /** A stream that does not settle has a cut that shows, lines or not. */
  lemma UnsettledCut(swallow: bool, s: seq<Byte>) returns (a: seq<Byte>, b: seq<Byte>)
    requires !Settles(swallow, IDLE, s) && Tidy(Scan(swallow, IDLE, s).events)
    ensures Flatten([a, b]) == s
    ensures !SameDelivery(Deliver(true, swallow, IDLE, [a, b]), Seen(true, Scan(swallow, IDLE, s)))
  {
    EndOfNothing();
    assert Coherent(IDLE) by { hide EndAt; }
    a, b := RevealingCut(swallow, IDLE, s);
    DeliverTwo(true, swallow, a, b);
    var whole, o := Scan(swallow, IDLE, s), Scan(swallow, IDLE, a);
    var next := ReadChunk(swallow, o.proxy, b);
    ScanIsSaid(swallow, IDLE, s);
    ScanIsSaid(swallow, IDLE, a);
    ReadIsSaid(swallow, o.proxy, b);
    hide Scan, ReadChunk, Deliver, Settles, HasEnter, SameDelivery;
    UnsettledShows(swallow, whole, o, next, b);
  }

  lemma UnsettledShows(swallow: bool, whole: Outcome, o: Outcome, next: Outcome, b: seq<Byte>)
    requires ScanSays(IDLE, whole.events, whole.proxy) && ScanSays(IDLE, o.events, o.proxy)
    requires next == ReadChunk(swallow, o.proxy, b) && ScanSays(o.proxy.(pending := []), next.events, next.proxy)
    requires Tidy(whole.events) && !Alike(whole, Then(swallow, o, b))
    ensures var d := Seen(true, ReadChunk(swallow, if HasEnter(o.events) then AfterLine(o.proxy) else o.proxy, b));
            !SameDelivery(Delivery(o.events + d.events, d.left), Seen(true, whole))
  {
    var q := if HasEnter(o.events) then AfterLine(o.proxy) else o.proxy;
    var d := Seen(true, ReadChunk(swallow, q, b));
    hide ReadChunk, HasEnter, Laters, Nows;
    if Laters(o.events + d.events) == Laters(whole.events) && Nows(o.events + d.events) == Nows(whole.events) {
      LatersKeep(o.events + d.events);
      LatersKeep(whole.events);
      EnterOfParts(o.events, d.events);
      assert BeginCapture in o.events ==> BeginCapture in o.events + d.events;
      if HasEnter(o.events) {
        assert BeginCapture !in o.events;
        assert AfterLine(o.proxy) == o.proxy;
      }
      assert q == o.proxy && d.events == next.events;
      assert multiset(o.events + next.events) == multiset(o.events) + multiset(next.events);
      assert HoldEnter in o.events + next.events <==> HoldEnter in o.events || HoldEnter in next.events;
      assert whole.proxy != next.proxy;
    }
  }

  // ---- A prompt that ends with its first line ----

  lemma {:induction false} SettlesWithoutEnter(swallow: bool, p: Proxy, s: seq<Byte>)
    requires SettlesToEnter(swallow, p, s) && !HasEnter(Scan(swallow, p, s).events)
    ensures Settles(swallow, p, s)
    decreases |s|, if p.active then 1 else 0
  {
    if s != [] {
      var m := MoveAt(swallow, p, s);
      if m.Go? {
        EnterOfParts(m.events, Scan(swallow, m.proxy, s[m.length..]).events);
        hide MoveAt, MoveSettles, HasEnter;
        SettlesWithoutEnter(swallow, m.proxy, s[m.length..]);
      }
    }
  }

  /** What follows an Enter changes nothing in front of it. */
  lemma {:induction false} EnterThenMore(swallow: bool, p: Proxy, z: seq<Byte>, y: seq<Byte>)
    requires p.pending == [] && HasEnter(Scan(swallow, p, z).events)
    ensures HasEnter(Scan(swallow, p, z + y).events)
    ensures UpToEnter(Scan(swallow, p, z + y).events) == UpToEnter(Scan(swallow, p, z).events)
    decreases |z|, if p.active then 1 else 0
  {
    hide MoveAt, Scan, HasEnter, UpToEnter, Abandoned, MoveSettles, Settles;
    MoveOfEnter(swallow, p, z);
    var m := MoveAt(swallow, p, z);
    var rest, more := Scan(swallow, m.proxy, z[m.length..]), Scan(swallow, m.proxy, z[m.length..] + y);
    if !p.active && !p.submit { AbandonedHasNoEnter(swallow, p, z); }
    MoveStable(swallow, p, z, y);
    assert (z + y)[m.length..] == z[m.length..] + y;
    GoScan(swallow, p, z);
    GoScan(swallow, p, z + y);
    EnterOfParts(m.events, rest.events);
    EnterOfParts(m.events, more.events);
    UpToParts(m.events, rest.events);
    UpToParts(m.events, more.events);
    if !HasEnter(m.events) {
      EnterThenMore(swallow, m.proxy, z[m.length..], y);
    }
  }

  lemma AbandonedHasNoEnter(swallow: bool, p: Proxy, z: seq<Byte>)
    requires HasEnter(Scan(swallow, p, z).events) && !p.active && !p.submit
    ensures !Abandoned(z)
  {
    if Abandoned(z) {
      FrameSkipped(swallow, p, z);
      assert false;
    }
  }

  lemma FirstDiffers(u: seq<Event>, v: seq<Event>)
    requires u != [] && v != [] && u[0] != v[0] && !u[0].ShowThinking? && !v[0].ShowThinking?
    ensures Laters(UpToEnter(u)) != Laters(UpToEnter(v))
  {
    assert UpToEnter(u)[0] == u[0] && UpToEnter(v)[0] == v[0];
    assert Laters(UpToEnter(u))[0] == u[0] && Laters(UpToEnter(v))[0] == v[0];
  }

  /** A paste in the band shows its cut before anything else. */
  lemma PasteCutSeen(swallow: bool, p: Proxy, s: seq<Byte>) returns (a: seq<Byte>, b: seq<Byte>)
    requires p.active && !p.submit && p.pending == [] && Coherent(p) && s != []
    requires !LengthSettles(p, EndAt(Combined(p, s)))
    ensures s == a + b && |a| + |p.buffer| > MAX_BRACKETED_PASTE_BYTES
    ensures !SameDelivery(Seen(false, Scan(swallow, p, s)), Seen(false, Then(swallow, Scan(swallow, p, a), b)))
  {
    a, b := PasteCut(swallow, p, s);
    hide Scan, EndAt, HasEnter, Laters;
    var u, v := Scan(swallow, p, s).events, Then(swallow, Scan(swallow, p, a), b).events;
    assert v[0] == PasteTooLong;
    FirstDiffers(u, v);
    UpToParts(u, []);
    UpToParts(v, []);
    assert u + [] == u && v + [] == v;
  }

  /** So does an overlong private frame. */
  lemma FrameCutSeen(swallow: bool, p: Proxy, s: seq<Byte>) returns (a: seq<Byte>, b: seq<Byte>)
    requires !p.active && !p.submit && p.pending == [] && s != [] && !FrameSettles(swallow, s)
    ensures s == a + b && |a| > Osc.MAX_PRIVATE_OSC_BYTES
    ensures !SameDelivery(Seen(false, Scan(swallow, p, s)), Seen(false, Then(swallow, Scan(swallow, p, a), b)))
  {
    a, b := FrameCut(swallow, p, s);
    hide Scan, HasEnter, UpToEnter, FrameSettles, Laters, Nows;
    ThenFromIdle(swallow, p, b);
    var u, v := Scan(swallow, p, s), Scan(swallow, p, b);
    if v.events == [Emit(0x07)] + u.events {
      EnterOfOne(Emit(0x07));
      EnterOfParts([Emit(0x07)], u.events);
      UpToParts([Emit(0x07)], u.events);
      BellShows(Outcome(UpToEnter(u.events), p), Outcome([Emit(0x07)] + UpToEnter(u.events), p));
      BellShows(u, v);
      assert |Laters(v.events)| == 1 + |Laters(u.events)|;
      assert |Laters([Emit(0x07)] + UpToEnter(u.events))| == 1 + |Laters(UpToEnter(u.events))|;
    } else {
      assert !HasEnter([]) by { NoEnterInNothing(); }
      NothingHappens(v.events);
      assert Laters([]) == [] && Nows([]) == [] by { NoneOfNothing(); }
    }
  }

  lemma NoEnterInNothing()
    ensures !HasEnter([])
  {}

  lemma NoneOfNothing()
    ensures Laters([]) == [] && Nows([]) == []
  {}

  /** Events in front that hold no Enter hide no difference. */
  lemma SeenBehind(u: seq<Event>, x: Outcome, y: Outcome)
    requires !HasEnter(u) && !SameDelivery(Seen(false, x), Seen(false, y))
    ensures !SameDelivery(Seen(false, Outcome(u + x.events, x.proxy)), Seen(false, Outcome(u + y.events, y.proxy)))
  {
    EnterOfParts(u, x.events);
    EnterOfParts(u, y.events);
    UpToParts(u, x.events);
    UpToParts(u, y.events);
    hide HasEnter, UpToEnter, Laters, Nows;
    var dx, dy := Seen(false, x), Seen(false, y);
    NowsParts(u, dx.events);
    NowsParts(u, dy.events);
    if Laters(u) + Laters(dx.events) == Laters(u) + Laters(dy.events) {
      assert (Laters(u) + Laters(dx.events))[|Laters(u)|..] == Laters(dx.events);
      assert (Laters(u) + Laters(dy.events))[|Laters(u)|..] == Laters(dy.events);
    }
    if Nows(u) + Nows(dx.events) == Nows(u) + Nows(dy.events) {
      assert (Nows(u) + Nows(dx.events))[|Nows(u)|..] == Nows(dx.events);
      assert (Nows(u) + Nows(dy.events))[|Nows(u)|..] == Nows(dy.events);
    }
  }

  /** Where a stream that does not settle up to its first Enter can be cut so that a one-shot prompt shows it. */
  lemma {:induction false} RevealingCutSeen(swallow: bool, p: Proxy, s: seq<Byte>) returns (a: seq<Byte>, b: seq<Byte>)
    requires Coherent(p) && p.pending == [] && !SettlesToEnter(swallow, p, s)
    ensures s == a + b && |a| + |p.buffer| > Osc.MAX_PRIVATE_OSC_BYTES
    ensures !SameDelivery(Seen(false, Scan(swallow, p, s)), Seen(false, Then(swallow, Scan(swallow, p, a), b)))
    decreases |s|, if p.active then 1 else 0
  {
    hide FrameSettles, LengthSettles, TokenAt, EndAt, PasteMove, TokenMove, HasEnter, UpToEnter, Scan, Coherent, Seen,
      SameDelivery;
    if !MoveSettles(swallow, p, s) {
      if p.active {
        a, b := PasteCutSeen(swallow, p, s);
      } else {
        a, b := FrameCutSeen(swallow, p, s);
      }
    } else {
      var m := MoveAt(swallow, p, s);
      MoveCoherent(swallow, p, s);
      var a', b' := RevealingCutSeen(swallow, m.proxy, s[m.length..]);
      a, b := s[..m.length] + a', b';
      assert s == a + b && a[m.length..] == a' && s[m.length..] == a' + b';
      SameFirstMove(swallow, p, a, b);
      GoScan(swallow, p, s);
      GoScan(swallow, p, a);
      var x, y := Scan(swallow, m.proxy, a' + b'), Then(swallow, Scan(swallow, m.proxy, a'), b');
      assert Then(swallow, Scan(swallow, p, a), b) == Outcome(m.events + y.events, y.proxy);
      SeenBehind(m.events, x, y);
    }
  }

  // ---- A line that shows a cut ----

  /** Enter, a paste hotkey, Enter and a letter: in one chunk the letter is dropped, in two it arrives. */
  lemma LineShowsTheCut(swallow: bool)
    ensures var a, b: seq<Byte> := [0x0d, 0x16], [0x0d, 0x61];
            && Deliver(true, swallow, IDLE, [a + b]).events == [Emit(0x0d), BeginCapture, HoldEnter]
            && Deliver(true, swallow, IDLE, [a, b]).events == [Emit(0x0d), BeginCapture, Emit(0x0d), Emit(0x61)]
  {
    hide Scan, Deliver;
    var a, b: seq<Byte> := [0x0d, 0x16], [0x0d, 0x61];
    FewKeys(swallow);
    WholeStream(true, swallow, a + b);
    DeliverTwo(true, swallow, a, b);
    assert a + b == [0x0d, 0x16, 0x0d] + [0x61];
    LetterPasses(swallow);
    EnterPasses(swallow, IDLE, [0x61]);
    assert b == [0x0d] + [0x61] && IDLE.(pending := []) == IDLE && [] + b == b;
    assert IsEnter(Scan(swallow, IDLE, a).events[0]);
  }

  lemma LetterPasses(swallow: bool)
    ensures Scan(swallow, IDLE, [0x61]) == Outcome([Emit(0x61)], IDLE)
  {
    var s: seq<Byte> := [0x61];
    assert s[1..] == [];
  }
}
