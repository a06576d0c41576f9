/**
 The keys a menu understands (src/cli/menu-selector.ts), each given by its characters, and what
 they do: the sequences that mean something are exactly these, and a whole sequence is obeyed.
 */
module MenuKeys {
  import opened Common
  import opened MenuSelection
  import Markers = PasteMarkers

  // ---- Numbers ----

  lemma {:induction false} ValueOfDecimal(n: nat)
    ensures Digits(Markers.Decimal(n)) && Value(Markers.Decimal(n)) == n
    decreases n
  {
    if n >= 10 {
      ValueOfDecimal(n / 10);
      var text := Markers.Decimal(n);
      assert text[..|text| - 1] == Markers.Decimal(n / 10);
    }
  }

  // ---- Sequences ----

  /** A key of the kitty protocol: its code and alternates, its modifier and event, and the text it stands for. */
  datatype Key = Key(codes: seq<string>, modifiers: seq<string>, points: seq<string>)

  predicate GoodKey(key: Key) {
    && 1 <= |key.codes| <= 3 && (forall k :: 0 <= k < |key.codes| ==> SafeInteger(key.codes[k]))
    && |key.modifiers| <= 2
    && (|key.modifiers| >= 1 ==> PositiveInteger(key.modifiers[0]))
    && (|key.modifiers| == 2 ==> IsEvent(key.modifiers[1]))
    && (|key.points| >= 1 ==> |key.modifiers| >= 1)
    && (forall k :: 0 <= k < |key.points| ==> SafeInteger(key.points[k]) && Value(key.points[k]) <= 0x10ffff)
  }

  function Fields(key: Key): seq<string>
    requires |key.codes| > 0
  {
    [Joined(key.codes, ":")]
    + (if |key.modifiers| > 0 then [Joined(key.modifiers, ":")] else [])
    + (if |key.points| > 0 then [Joined(key.points, ":")] else [])
  }

  /** What the menu understands behind ESC. */
  datatype Sequence =
    | ApplicationKey(final: char)
    | PlainArrow(up: bool, counted: bool)
    | ModifiedArrow(up: bool, modifier: string, event: string)
    | KittyKey(key: Key)
    | ModifiedReturn(modifier: string)

  predicate Good(s: Sequence) {
    match s
    case ApplicationKey(final) => final == 'A' || final == 'B' || final == 'M'
    case PlainArrow(_, _) => true
    case ModifiedArrow(_, modifier, event) => PositiveInteger(modifier) && (event == "" || IsEvent(event))
    case KittyKey(key) => GoodKey(key)
    case ModifiedReturn(modifier) => PositiveInteger(modifier)
  }

  function Introducer(s: Sequence): char {
    if s.ApplicationKey? then 'O' else '['
  }

  function Body(s: Sequence): string
    requires s.KittyKey? ==> |s.key.codes| > 0
  {
    match s
    case ApplicationKey(_) => ""
    case PlainArrow(_, counted) => if counted then "1" else ""
    case ModifiedArrow(_, modifier, event) => "1;" + modifier + (if event == "" then "" else ":" + event)
    case KittyKey(key) => Joined(Fields(key), ";")
    case ModifiedReturn(modifier) => "27;" + modifier + ";13"
  }

  function Final(s: Sequence): char {
    match s
    case ApplicationKey(final) => final
    case PlainArrow(up, _) => if up then 'A' else 'B'
    case ModifiedArrow(up, _, _) => if up then 'A' else 'B'
    case KittyKey(_) => 'u'
    case ModifiedReturn(_) => '~'
  }

  /** What a key of the kitty protocol is for. */
  function KeyMeaning(key: Key): Option<Token>
    requires GoodKey(key)
  {
    var code := Value(key.codes[0]);
    var control := |key.modifiers| > 0 && ((Value(key.modifiers[0]) - 1) / 4) % 2 == 1;
    if |key.modifiers| == 2 && key.modifiers[1] == "3" then None
    else if code in {57352, 57419} then Some(MoveBy(-1))
    else if code in {57353, 57420} then Some(MoveBy(1))
    else if code in {13, 57414} then Some(Accept)
    else if code == 27 || (code in {99, 67} && control) then Some(Quit)
    else None
  }

  function Meaning(s: Sequence): Option<Token>
    requires Good(s)
  {
    match s
    case ApplicationKey(final) =>
      Some(if final == 'A' then MoveBy(-1) else if final == 'B' then MoveBy(1) else Accept)
    case PlainArrow(up, _) => Some(MoveBy(if up then -1 else 1))
    case ModifiedArrow(up, _, event) => if event == "3" then None else Some(MoveBy(if up then -1 else 1))
    case KittyKey(key) => KeyMeaning(key)
    case ModifiedReturn(_) => Some(Accept)
  }

  lemma DigitsAlone(text: string)
    requires Digits(text)
    ensures Lacks(text, ';') && Lacks(text, ':')
  {
    DigitsHaveNoSeparators(text);
  }

  lemma {:induction false} JoinedWithout(fields: seq<string>, joiner: char, separator: char)
    requires |fields| > 0 && AllLack(fields, separator) && joiner != separator
    ensures Lacks(Joined(fields, [joiner]), separator)
    decreases |fields|
  {
    assert Lacks(fields[0], separator);
    if |fields| > 1 {
      assert AllLack(fields[1..], separator);
      JoinedWithout(fields[1..], joiner, separator);
    }
  }

  /** The fields of a good key are split as they were joined. */
  lemma KeyIsSplit(key: Key)
    requires GoodKey(key)
    ensures Split(Joined(Fields(key), ";"), ';') == Fields(key)
    ensures Split(Joined(key.codes, ":"), ':') == key.codes
    ensures |key.modifiers| > 0 ==> Split(Joined(key.modifiers, ":"), ':') == key.modifiers
    ensures |key.points| > 0 ==> Split(Joined(key.points, ":"), ':') == key.points
  {
    NumbersAlone(key.codes);
    NumbersAlone(key.points);
    NumbersAlone(key.modifiers);
    hide SafeInteger, PositiveInteger, IsEvent, Joined, Split;
    SplitJoined(key.codes, ':');
    JoinedWithout(key.codes, ':', ';');
    if |key.modifiers| > 0 {
      SplitJoined(key.modifiers, ':');
      JoinedWithout(key.modifiers, ':', ';');
    }
    if |key.points| > 0 {
      SplitJoined(key.points, ':');
      JoinedWithout(key.points, ':', ';');
    }
    SplitJoined(Fields(key), ';');
  }

  lemma NumbersAlone(fields: seq<string>)
    requires forall k :: 0 <= k < |fields| ==> SafeInteger(fields[k]) || IsEvent(fields[k])
    ensures AllLack(fields, ':') && AllLack(fields, ';')
  {
    forall k | 0 <= k < |fields| ensures Lacks(fields[k], ':') && Lacks(fields[k], ';') {
      if SafeInteger(fields[k]) {
        DigitsAlone(fields[k]);
      }
    }
  }

  function Decoded(key: Key): CsiKey
    requires GoodKey(key)
  {
    CsiKey(Value(key.codes[0]), if |key.modifiers| > 0 then Some(Value(key.modifiers[0])) else None,
           if |key.modifiers| == 2 then EventOf(key.modifiers[1]) else Plain)
  }

  lemma KeyIsDecoded(key: Key)
    requires GoodKey(key)
    ensures CsiU(Joined(Fields(key), ";")) == Some(Decoded(key))
  {
    KeyIsSplit(key);
    hide Split, Joined, SafeInteger, PositiveInteger, Value, EventOf;
  }

  lemma DecodedMeans(key: Key)
    requires GoodKey(key)
    ensures KeyToken(Decoded(key)) == KeyMeaning(key)
  {
    hide SafeInteger, Value;
  }

  lemma KittyMeans(key: Key)
    requires GoodKey(key)
    ensures SequenceToken('[', Joined(Fields(key), ";"), 'u') == KeyMeaning(key)
  {
    KeyIsDecoded(key);
    DecodedMeans(key);
    hide GoodKey, CsiU, KeyToken, KeyMeaning, Joined, Fields, Decoded;
  }

  /** Each good sequence means what it is for. */
  lemma SequencesMean(s: Sequence)
    requires Good(s)
    ensures SequenceToken(Introducer(s), Body(s), Final(s)) == Meaning(s)
  {
    match s
    case ApplicationKey(_) =>
    case PlainArrow(_, _) =>
    case ModifiedArrow(up, modifier, event) => ArrowMeans(up, modifier, event);
    case KittyKey(key) => KittyMeans(key);
    case ModifiedReturn(modifier) => ReturnMeans(modifier);
  }

  lemma ArrowMeans(up: bool, modifier: string, event: string)
    requires Good(ModifiedArrow(up, modifier, event))
    ensures var s := ModifiedArrow(up, modifier, event);
            SequenceToken('[', Body(s), Final(s)) == Meaning(s)
  {
    if event == "" {
      ArrowsMove(modifier, "1", up);
      assert "1;" + modifier + "" == "1;" + modifier;
    } else {
      ArrowsMove(modifier, event, up);
      assert "1;" + modifier + (":" + event) == "1;" + modifier + ":" + event;
    }
    hide SequenceToken;
  }

  lemma ReturnMeans(modifier: string)
    requires PositiveInteger(modifier)
    ensures SequenceToken('[', "27;" + modifier + ";13", '~') == Some(Accept)
  {
    var fields := ["27", modifier, "13"];
    DigitsAlone(modifier);
    assert Joined(fields, ";") == "27;" + modifier + ";13" by {
      assert fields[1..] == [modifier, "13"] && fields[1..][1..] == ["13"];
      assert Joined(["13"], ";") == "13";
      assert Joined([modifier, "13"], ";") == modifier + [';'] + "13";
    }
    SplitJoined(fields, ';');
    hide Split, Joined;
  }

  /** Nothing else means anything. */
  lemma OnlySequencesMean(introducer: char, body: string, final: char) returns (s: Sequence)
    requires introducer == '[' || introducer == 'O'
    requires SequenceToken(introducer, body, final).Some?
    ensures Good(s) && Introducer(s) == introducer && Body(s) == body && Final(s) == final
  {
    if introducer == 'O' {
      s := ApplicationKey(final);
    } else if final == 'A' || final == 'B' {
      s := ArrowFound(body, final == 'A');
    } else if final == 'u' {
      var key := KeyFound(body);
      s := KittyKey(key);
    } else {
      s := ReturnFound(body);
    }
  }

  lemma ArrowFound(body: string, up: bool) returns (s: Sequence)
    requires ArrowEvent(body).Some?
    ensures Good(s) && Introducer(s) == '[' && Body(s) == body && Final(s) == if up then 'A' else 'B'
  {
    if body == "" || body == "1" {
      s := PlainArrow(up, body == "1");
    } else {
      var fields := Split(body, ';');
      JoinedSplit(body, ';');
      assert fields == [fields[0], fields[1]];
      var parts := Split(fields[1], ':');
      JoinedSplit(fields[1], ':');
      s := ModifiedArrow(up, parts[0], if |parts| == 2 then parts[1] else "");
      assert Joined(fields, ";") == fields[0] + [';'] + fields[1] by {
        assert fields[1..] == [fields[1]];
      }
      if |parts| == 2 {
        assert parts[1..] == [parts[1]];
        assert Joined(parts, ":") == parts[0] + [':'] + parts[1];
        assert "1" + [';'] + (parts[0] + [':'] + parts[1]) == "1;" + parts[0] + (":" + parts[1]);
      } else {
        assert "1" + [';'] + parts[0] == "1;" + parts[0] + "";
      }
      hide Joined, Split;
    }
  }

  lemma KeyFound(body: string) returns (key: Key)
    requires CsiU(body).Some?
    ensures GoodKey(key) && Joined(Fields(key), ";") == body
  {
    var fields := Split(body, ';');
    JoinedSplit(body, ';');
    forall k | 0 <= k < |fields| ensures Joined(Split(fields[k], ':'), ":") == fields[k] {
      JoinedSplit(fields[k], ':');
    }
    key := Key(Split(fields[0], ':'), if |fields| > 1 then Split(fields[1], ':') else [],
               if |fields| > 2 then Split(fields[2], ':') else []);
    assert Fields(key) == fields;
    hide Joined, Split, SafeInteger, PositiveInteger, Value;
  }

  lemma ReturnFound(body: string) returns (s: Sequence)
    requires ModifiedEnter(body)
    ensures Good(s) && Introducer(s) == '[' && Body(s) == body && Final(s) == '~'
  {
    var fields := Split(body, ';');
    JoinedSplit(body, ';');
    s := ModifiedReturn(fields[1]);
    assert fields[1..] == [fields[1], fields[2]] && fields[1..][1..] == [fields[2]];
    assert Joined([fields[1], fields[2]], ";") == fields[1] + [';'] + fields[2];
    assert Joined(fields, ";") == "27" + [';'] + (fields[1] + [';'] + "13");
    assert "27" + [';'] + (fields[1] + [';'] + "13") == "27;" + fields[1] + ";13";
  }

  // ---- A whole sequence is obeyed ----

  /** Parameters: digits and separators. */
  predicate Parameters(text: string) {
    forall i :: 0 <= i < |text| ==> '0' <= text[i] <= ';'
  }

  lemma {:induction false} JoinedParameters(fields: seq<string>, separator: char)
    requires |fields| > 0 && (separator == ':' || separator == ';')
    requires forall k :: 0 <= k < |fields| ==> Parameters(fields[k])
    ensures Parameters(Joined(fields, [separator]))
    decreases |fields|
  {
    assert Parameters(fields[0]);
    if |fields| > 1 {
      assert forall k :: 0 <= k < |fields[1..]| ==> Parameters(fields[1..][k]);
      JoinedParameters(fields[1..], separator);
    }
  }

  lemma NumbersAreParameters(fields: seq<string>)
    requires |fields| > 0 && forall k :: 0 <= k < |fields| ==> SafeInteger(fields[k]) || IsEvent(fields[k])
    ensures Parameters(Joined(fields, ":"))
  {
    forall k | 0 <= k < |fields| ensures Parameters(fields[k]) {}
    JoinedParameters(fields, ':');
  }

  lemma KeyIsParameters(key: Key)
    requires GoodKey(key)
    ensures Parameters(Joined(Fields(key), ";"))
  {
    NumbersAreParameters(key.codes);
    if |key.modifiers| > 0 {
      NumbersAreParameters(key.modifiers);
    }
    if |key.points| > 0 {
      NumbersAreParameters(key.points);
    }
    hide Joined, Parameters, SafeInteger, Value;
    JoinedParameters(Fields(key), ';');
  }

  lemma BodyIsParameters(s: Sequence)
    requires Good(s)
    ensures Parameters(Body(s))
  {
    if s.KittyKey? {
      KeyIsParameters(s.key);
    }
    hide Joined, Fields, GoodKey;
  }

  lemma {:induction false} UnitsOfParameters(text: string)
    requires Parameters(text)
    ensures Units(text) == |text|
    decreases |text|
  {
    if text != "" { UnitsOfParameters(text[1..]); }
  }

  lemma {:induction false} FeedBody(o: Options, m: Menu, introducer: char, done: string, more: string, tail: string,
      allowed: bool, draws: bool)
    requires o.choices > 0 && m.outcome.None? && m.escape == Control(introducer, done)
    requires Parameters(done + more) && |done + more| <= MAX_BODY
    ensures OnData(o, m, more + tail, allowed, draws) ==
            OnData(o, m.(escape := Control(introducer, done + more)), tail, allowed, draws)
    decreases |more|
  {
    if more == "" {
      assert more + tail == tail && done + more == done;
    } else {
      var c, rest := more[0], more[1..];
      assert (more + tail)[0] == c && (more + tail)[1..] == rest + tail;
      assert (done + more)[|done|] == c;
      assert done + [c] + rest == done + more;
      assert Units(done) < MAX_BODY by {
        assert Parameters(done) by { assert forall i :: 0 <= i < |done| ==> (done + more)[i] == done[i]; }
        UnitsOfParameters(done);
      }
      FeedBody(o, m.(escape := Control(introducer, done + [c])), introducer, done + [c], rest, tail, allowed, draws);
    }
  }

  /** What a token does to an open menu. */
  ghost predicate Acts(o: Options, m: Menu, token: Option<Token>, allowed: bool, draws: bool, after: Menu)
    requires o.choices > 0
  {
    match token
    case None => after == m
    case Some(MoveBy(offset)) =>
      && after.index == (m.index + offset) % o.choices && after.visible == m.visible && after.escape == m.escape
      && after.outcome == (if m.visible && !draws then Some(Errored) else None)
    case Some(Quit) => after.outcome == Some(Canceled) && after.index == m.index
    case Some(_) =>
      if m.visible then after.outcome == Some(if allowed then Selected(m.index) else Canceled) else after == m
  }

  lemma TokenActs(o: Options, m: Menu, token: Token, allowed: bool, draws: bool)
    requires o.choices > 0 && Inv(o, m) && m.outcome.None?
    ensures Acts(o, m, Some(token), allowed, draws, Obey(o, m, token, allowed, draws))
  {
    if token.MoveBy? {
      MoveIndex(o, m, token.offset, draws);
    }
  }

  /** The characters of a sequence. */
  function Spelled(s: Sequence): string
    requires Good(s)
  {
    [ESC, Introducer(s)] + Body(s) + [Final(s)]
  }

  lemma OpensSequence(o: Options, m: Menu, introducer: char, rest: string, allowed: bool, draws: bool)
    requires o.choices > 0 && m.outcome.None? && m.escape == NoEscape && (introducer == '[' || introducer == 'O')
    ensures OnData(o, m, [ESC, introducer] + rest, allowed, draws) ==
            OnData(o, m.(escape := Control(introducer, "")), rest, allowed, draws)
  {
    var text := [ESC, introducer] + rest;
    assert text[1..] == [introducer] + rest && text[1..][1..] == rest;
    hide SequenceToken, Obey;
    assert OnData(o, m, text, allowed, draws) == OnData(o, m.(escape := Started), text[1..], allowed, draws);
  }

  lemma EndsSequence(o: Options, m: Menu, introducer: char, body: string, final: char, allowed: bool, draws: bool)
    requires o.choices > 0 && m.outcome.None? && m.escape == NoEscape && '@' <= final <= '~'
    ensures var token := SequenceToken(introducer, body, final);
            OnData(o, m.(escape := Control(introducer, body)), [final], allowed, draws) ==
              if token.Some? then Obey(o, m, token.value, allowed, draws) else m
  {
    hide SequenceToken, Obey;
    assert [final][1..] == "";
    var token := SequenceToken(introducer, body, final);
    assert m.(escape := Control(introducer, body)).(escape := NoEscape) == m;
    var next := if token.Some? then Obey(o, m, token.value, allowed, draws) else m;
    assert OnData(o, next, "", allowed, draws) == next;
  }

  lemma ReadSequence(o: Options, m: Menu, introducer: char, body: string, final: char, allowed: bool, draws: bool)
    requires o.choices > 0 && m.outcome.None? && m.escape == NoEscape
    requires (introducer == '[' || introducer == 'O') && Parameters(body) && |body| <= MAX_BODY && '@' <= final <= '~'
    ensures var token := SequenceToken(introducer, body, final);
            OnData(o, m, [ESC, introducer] + body + [final], allowed, draws) ==
              if token.Some? then Obey(o, m, token.value, allowed, draws) else m
  {
    OpensSequence(o, m, introducer, body + [final], allowed, draws);
    assert [ESC, introducer] + body + [final] == [ESC, introducer] + (body + [final]);
    assert "" + body == body;
    FeedBody(o, m.(escape := Control(introducer, "")), introducer, "", body, [final], allowed, draws);
    EndsSequence(o, m, introducer, body, final, allowed, draws);
    hide OnData, SequenceToken, Obey;
  }

  /** A sequence the menu understands is obeyed, in every open menu that waits for no other one. */
  lemma SequenceIsObeyed(o: Options, m: Menu, s: Sequence, allowed: bool, draws: bool)
    requires o.choices > 0 && Inv(o, m) && m.outcome.None? && m.escape == NoEscape
    requires Good(s) && |Body(s)| <= MAX_BODY
    ensures Acts(o, m, Meaning(s), allowed, draws, OnData(o, m, Spelled(s), allowed, draws))
  {
    BodyIsParameters(s);
    SequencesMean(s);
    ReadSequence(o, m, Introducer(s), Body(s), Final(s), allowed, draws);
    if Meaning(s).Some? {
      TokenActs(o, m, Meaning(s).value, allowed, draws);
    }
    hide OnData, SequenceToken, Obey, Parameters, Body, Meaning;
  }

  lemma BodyIsFull(o: Options, m: Menu, introducer: char, body: string, c: char, allowed: bool, draws: bool)
    requires o.choices > 0 && m.outcome.None? && Parameters(body) && |body| == MAX_BODY && '0' <= c <= ';'
    ensures OnData(o, m.(escape := Control(introducer, body)), [c], allowed, draws).outcome == Some(Canceled)
  {
    UnitsOfParameters(body);
  }

  /** Parameters that go on for more than 64 characters cancel the selection. */
  lemma EndlessSequenceCancels(o: Options, m: Menu, introducer: char, body: string, allowed: bool, draws: bool)
    requires o.choices > 0 && m.outcome.None? && m.escape == NoEscape
    requires (introducer == '[' || introducer == 'O') && Parameters(body) && |body| == MAX_BODY + 1
    ensures OnData(o, m, [ESC, introducer] + body, allowed, draws).outcome == Some(Canceled)
  {
    var first := body[..MAX_BODY];
    assert Parameters(first) && '0' <= body[MAX_BODY] <= ';';
    hide OnData, Parameters, Units;
    OpensSequence(o, m, introducer, body, allowed, draws);
    assert body == first + [body[MAX_BODY]] && "" + first == first;
    FeedBody(o, m.(escape := Control(introducer, "")), introducer, "", first, [body[MAX_BODY]], allowed, draws);
    BodyIsFull(o, m, introducer, first, body[MAX_BODY], allowed, draws);
  }

  // ---- What happens to an open menu ----

  lemma ClampIs(initial: int, choices: int)
    requires choices > 0
    ensures Clamp(initial, choices) == if initial < 0 then 0 else if initial >= choices then choices - 1 else initial
  {}

  /** A settled selection is not settled again, whatever else would end it. */
  lemma SettledStays(m: Menu, outcome: Outcome)
    requires m.outcome.Some?
    ensures Finish(m, outcome) == m
  {}

  predicate Agreed(o: Options) {
    o.idle.Some? && 0 <= o.idle.value < o.choices
  }

  /**
   In every run an open menu is visible, and its idle timer armed for an agreed row, once the host needs no
   confirmation or has given it.
   */
  lemma {:induction false} OpenMenuIs(o: Options, draws: bool, events: seq<Event>)
    requires o.choices > 0 && Run(o, draws, events).outcome.None?
    ensures var m := Run(o, draws, events);
            && !o.aborted && (m.visible <==> !o.waits || exists e :: e in events && e.Ready?)
            && (m.idleArmed <==> m.visible && Agreed(o))
    decreases |events|
  {
    if |events| == 0 {
      EarlyKeeps(o, Menu(Clamp(o.initial, o.choices), false, false, NoEscape, false, None, 0), o.early);
    } else {
      var before, e := events[..|events| - 1], events[|events| - 1];
      var m := Run(o, draws, before);
      RunKeeps(o, draws, before);
      OpenMenuIs(o, draws, before);
      assert events == before + [e];
      assert forall x :: x in events <==> x in before || x == e;
      StepKeepsShown(o, m, e);
      hide Next, Run;
    }
  }

  lemma StepKeepsShown(o: Options, m: Menu, e: Event)
    requires o.choices > 0 && Inv(o, m) && m.outcome.None?
    ensures var after := Next(o, m, e);
            after.outcome.None? ==>
              && after.visible == (m.visible || (e.Ready? && o.waits))
              && after.idleArmed == (m.idleArmed || (e.Ready? && o.waits && !m.visible && Agreed(o)))
  {
    match e
    case Data(text, allowed, draws) =>
      DataKeeps(o, m, text, allowed, draws);
      DataKeepsArmed(o, m, text, allowed, draws);
    case Navigate(up, draws) => MoveKeeps(o, m, if up then -1 else 1, draws);
    case _ =>
  }

  lemma {:induction false} DataKeepsArmed(o: Options, m: Menu, text: string, allowed: bool, draws: bool)
    requires o.choices > 0 && m.outcome.None?
    ensures OnData(o, m, text, allowed, draws).outcome.None? ==>
              OnData(o, m, text, allowed, draws).idleArmed == m.idleArmed
    decreases |text|
  {
    hide SequenceToken;
    if text != "" {
      var c, rest := text[0], text[1..];
      match m.escape
      case Started =>
        DataKeepsArmed(o, m.(escape := if c == '[' || c == 'O' then Control(c, "") else NoEscape), rest, allowed,
                       draws);
      case Control(introducer, body) =>
        if c == ESC {
          DataKeepsArmed(o, m.(escape := Started), rest, allowed, draws);
        } else if '@' <= c <= '~' {
          var token, ended := SequenceToken(introducer, body, c), m.(escape := NoEscape);
          var obeyed := if token.Some? then Obey(o, ended, token.value, allowed, draws) else ended;
          if obeyed.outcome.None? {
            DataKeepsArmed(o, obeyed, rest, allowed, draws);
          }
        } else if Units(body) < MAX_BODY {
          DataKeepsArmed(o, m.(escape := Control(introducer, body + [c])), rest, allowed, draws);
        }
      case NoEscape =>
        if c == ESC {
          DataKeepsArmed(o, m.(escape := Started), rest, allowed, draws);
        } else if c != '\U{0003}' && c != '\r' && c != '\n' {
          DataKeepsArmed(o, m, rest, allowed, draws);
        }
    }
  }

  /** What each event does to the menu of a run that is still open. */
  lemma EventActs(o: Options, draws: bool, events: seq<Event>, e: Event)
    requires o.choices > 0 && Run(o, draws, events).outcome.None?
    ensures var m, after := Run(o, draws, events), Run(o, draws, events + [e]);
            match e
            case Navigate(up, d) => Acts(o, m, Some(MoveBy(if up then -1 else 1)), true, d, after)
            case Ready(d) =>
              if o.waits && !m.visible then
                after.visible && after.index == m.index && after.outcome == (if d then None else Some(Errored))
              else after == m
            case EscapeTimeout => if m.escape != NoEscape then after.outcome == Some(Canceled) else after == m
            case IdleTimeout(allowed) =>
              if m.visible && Agreed(o) then
                after.outcome == Some(if m.escape == NoEscape && allowed then Selected(o.idle.value) else Canceled)
              else after == m
            case Closed => after.outcome == Some(Canceled)
            case Failed => after.outcome == Some(Errored)
            case Data(text, allowed, d) =>
              m.escape == NoEscape ==>
                && (text == "\r" || text == "\n" ==> Acts(o, m, Some(Enter), allowed, d, after))
                && (text == "\U{0003}" ==> after.outcome == Some(Canceled))
                && (text == [ESC] ==> after == m.(escape := Started))
  {
    RunKeeps(o, draws, events);
    OpenMenuIs(o, draws, events);
    assert (events + [e])[..|events|] == events;
    var m := Run(o, draws, events);
    if e.Navigate? {
      TokenActs(o, m, MoveBy(if e.up then -1 else 1), true, e.draws);
    } else if e.Data? && m.escape == NoEscape {
      OneCharacter(o, m, e.text, e.allowed, e.draws);
    }
    hide OnData, Run;
  }

  lemma OneCharacter(o: Options, m: Menu, text: string, allowed: bool, draws: bool)
    requires o.choices > 0 && Inv(o, m) && m.outcome.None? && m.escape == NoEscape
    ensures var after := OnData(o, m, text, allowed, draws);
            && (text == "\r" || text == "\n" ==> Acts(o, m, Some(Enter), allowed, draws, after))
            && (text == "\U{0003}" ==> after.outcome == Some(Canceled))
            && (text == [ESC] ==> after == m.(escape := Started))
  {
    if text == [ESC] {
      EscapeStarts(o, m, allowed, draws);
    }
  }
}
