/**
 One active menu selection (src/cli/menu-selector.ts): an escape-sequence parser
 over terminal input, the selected row, and the single settlement of its result.
 */
module MenuSelection {
  import opened Common

  // ---- Control sequences ----

  datatype Token = MoveBy(offset: int) | Enter | Accept | Quit

  predicate Digits(text: string) {
    text != "" && forall i :: 0 <= i < |text| ==> '0' <= text[i] <= '9'
  }

  function Value(text: string): nat
    requires forall i :: 0 <= i < |text| ==> '0' <= text[i] <= '9'
  {
    if text == "" then 0 else Value(text[..|text| - 1]) * 10 + (text[|text| - 1] as int - '0' as int)
  }

  const MAX_SAFE_INTEGER := 9007199254740991

  predicate SafeInteger(text: string) {
    Digits(text) && Value(text) <= MAX_SAFE_INTEGER
  }

  predicate PositiveInteger(text: string) {
    SafeInteger(text) && Value(text) >= 1
  }

  /** The event code of a key: a press, a repeat or a release. */
  datatype Press = Plain | Coded(event: int)

  predicate IsEvent(text: string) {
    text == "1" || text == "2" || text == "3"
  }

  function EventOf(text: string): Press
    requires IsEvent(text)
  {
    Coded(if text == "1" then 1 else if text == "2" then 2 else 3)
  }

  /** The event of a CSI arrow key; nothing when the parameters are malformed. */
  function ArrowEvent(body: string): Option<Press> {
    if body == "" || body == "1" then Some(Plain)
    else
      var fields := Split(body, ';');
      if |fields| != 2 || fields[0] != "1" then None
      else
        var parts := Split(fields[1], ':');
        if |parts| > 2 || !PositiveInteger(parts[0]) then None
        else if |parts| == 1 then Some(Plain)
        else if IsEvent(parts[1]) then Some(EventOf(parts[1])) else None
  }

  datatype CsiKey = CsiKey(code: nat, modifier: Option<nat>, press: Press)

  const MAX_CODE_POINT := 0x10ffff

  /** A key of the kitty keyboard protocol. */
  function CsiU(body: string): Option<CsiKey> {
    var fields := Split(body, ';');
    if |fields| > 3 then None
    else
      var keys := Split(fields[0], ':');
      if |keys| > 3 || exists i :: 0 <= i < |keys| && !SafeInteger(keys[i]) then None
      else if |fields| == 1 then Some(CsiKey(Value(keys[0]), None, Plain))
      else
        var modifiers := Split(fields[1], ':');
        if |modifiers| > 2 || !PositiveInteger(modifiers[0]) then None
        else if |modifiers| == 2 && !IsEvent(modifiers[1]) then None
        else if |fields| == 3 && !TextPoints(Split(fields[2], ':')) then None
        else
          var press := if |modifiers| == 2 then EventOf(modifiers[1]) else Plain;
          Some(CsiKey(Value(keys[0]), Some(Value(modifiers[0])), press))
  }

  predicate TextPoints(points: seq<string>) {
    forall i :: 0 <= i < |points| ==> SafeInteger(points[i]) && Value(points[i]) <= MAX_CODE_POINT
  }

  /** The control bit of a modifier, which is stored one too high. */
  predicate WithControl(modifier: nat) {
    modifier >= 1 && ((modifier - 1) / 4) % 2 == 1
  }

  function KeyToken(key: CsiKey): Option<Token> {
    if key.press == Coded(3) then None
    else if key.code == 57352 || key.code == 57419 then Some(MoveBy(-1))
    else if key.code == 57353 || key.code == 57420 then Some(MoveBy(1))
    else if key.code == 13 || key.code == 57414 then Some(Accept)
    else if key.code == 27 then Some(Quit)
    else if (key.code == 99 || key.code == 67) && key.modifier.Some? && WithControl(key.modifier.value) then Some(Quit)
    else None
  }

  /** A modified Enter of modifyOtherKeys. */
  predicate ModifiedEnter(body: string) {
    var fields := Split(body, ';');
    |fields| == 3 && fields[0] == "27" && PositiveInteger(fields[1]) && fields[2] == "13"
  }

  /** What a whole control sequence asks for. */
  function SequenceToken(introducer: char, body: string, final: char): (token: Option<Token>)
    ensures token != Some(Enter)
  {
    if final == 'A' || final == 'B' then
      var moves := if introducer == 'O' then body == ""
                   else ArrowEvent(body).Some? && ArrowEvent(body).value != Coded(3);
      if moves then Some(MoveBy(if final == 'A' then -1 else 1)) else None
    else if introducer == 'O' then (if body == "" && final == 'M' then Some(Accept) else None)
    else if final == 'u' then (if CsiU(body).Some? then KeyToken(CsiU(body).value) else None)
    else if final == '~' && ModifiedEnter(body) then Some(Accept)
    else None
  }

  // ---- The selection ----

  datatype Escape = NoEscape | Started | Control(introducer: char, body: string)

  datatype Outcome = Selected(index: int) | Canceled | Errored

  /** `visible` says that frames may be drawn; `cleanups` counts the releases of the terminal. */
  datatype Menu = Menu(
    index: int, visible: bool, rendered: bool, escape: Escape, idleArmed: bool,
    outcome: Option<Outcome>, cleanups: nat)

  /** `idle` is the row an unattended menu takes; `waits` that the host must first confirm its key bindings. */
  datatype Options = Options(choices: int, initial: int, waits: bool, early: seq<int>, idle: Option<int>, aborted: bool)

  const MAX_BODY := 64

  function Clamp(initial: int, choices: int): int {
    var low := if initial < choices - 1 then initial else choices - 1;
    if low > 0 then low else 0
  }

  function Finish(m: Menu, outcome: Outcome): Menu {
    if m.outcome.Some? then m else m.(outcome := Some(outcome), cleanups := m.cleanups + 1, idleArmed := false)
  }

  /** Draw a frame, if frames may be drawn; a frame that cannot be drawn ends the selection. */
  function Render(m: Menu, draws: bool): Menu {
    if !m.visible then m else if draws then m.(rendered := true) else Finish(m, Errored)
  }

  function Move(o: Options, m: Menu, offset: int, draws: bool): Menu
    requires o.choices > 0
  {
    Render(m.(index := (m.index + offset + o.choices) % o.choices), draws)
  }

  function Confirm(m: Menu, allowed: bool): Menu {
    if !m.visible || !m.rendered then m else Finish(m, if allowed then Selected(m.index) else Canceled)
  }

  function Obey(o: Options, m: Menu, token: Token, allowed: bool, draws: bool): Menu
    requires o.choices > 0
  {
    match token
    case MoveBy(offset) => Move(o, m, offset, draws)
    case Quit => Finish(m, Canceled)
    case _ => Confirm(m, allowed)
  }

  const ESC := '\U{001B}'

  /** Terminal input, character by character. */
  function OnData(o: Options, m: Menu, text: string, allowed: bool, draws: bool): Menu
    requires o.choices > 0
    decreases |text|
  {
    if text == "" || m.outcome.Some? then m
    else
      var c, rest := text[0], text[1..];
      match m.escape
      case Started =>
        OnData(o, m.(escape := if c == '[' || c == 'O' then Control(c, "") else NoEscape), rest, allowed, draws)
      case Control(introducer, body) =>
        if c == ESC then OnData(o, m.(escape := Started), rest, allowed, draws)
        else if '@' <= c <= '~' then
          var token := SequenceToken(introducer, body, c);
          var ended := m.(escape := NoEscape);
          OnData(o, if token.Some? then Obey(o, ended, token.value, allowed, draws) else ended, rest, allowed, draws)
        else if Units(body) < MAX_BODY then
          OnData(o, m.(escape := Control(introducer, body + [c])), rest, allowed, draws)
        else Finish(m, Canceled)
      case NoEscape =>
        if c == ESC then OnData(o, m.(escape := Started), rest, allowed, draws)
        else if c == '\U{0003}' then Finish(m, Canceled)
        else if c == '\r' || c == '\n' then Confirm(m, allowed)
        else OnData(o, m, rest, allowed, draws)
  }

  datatype Event =
    | Data(text: string, allowed: bool, draws: bool)
    | Navigate(up: bool, draws: bool)
    | Ready(draws: bool)
    | EscapeTimeout
    | IdleTimeout(allowed: bool)
    | Closed
    | Failed

  /** The first frame, and with it the idle timer. */
  function Show(o: Options, m: Menu, draws: bool): Menu {
    var shown := Render(m.(visible := true), draws);
    if shown.outcome.Some? then shown
    else shown.(idleArmed := shown.idleArmed || (o.idle.Some? && 0 <= o.idle.value < o.choices))
  }

  function EarlyMoves(o: Options, m: Menu, moves: seq<int>): Menu
    requires o.choices > 0
    decreases |moves|
  {
    if |moves| == 0 then m else EarlyMoves(o, Move(o, m, moves[0], true), moves[1..])
  }

  function Start(o: Options, draws: bool): Menu
    requires o.choices > 0
  {
    var first := Menu(Clamp(o.initial, o.choices), false, false, NoEscape, false, None, 0);
    if o.aborted then Finish(first, Canceled)
    else
      var moved := EarlyMoves(o, first, o.early);
      if o.waits then moved else Show(o, moved, draws)
  }

  function Next(o: Options, m: Menu, e: Event): Menu
    requires o.choices > 0
  {
    if m.outcome.Some? then m
    else match e
      case Data(text, allowed, draws) => OnData(o, m, text, allowed, draws)
      case Navigate(up, draws) => Move(o, m, if up then -1 else 1, draws)
      case Ready(draws) => if o.waits && !m.visible then Show(o, m, draws) else m
      case EscapeTimeout => if m.escape == NoEscape then m else Finish(m, Canceled)
      case IdleTimeout(allowed) =>
        if !m.idleArmed || o.idle.None? then m
        else if m.escape != NoEscape || !m.rendered || !m.visible then Finish(m, Canceled)
        else Finish(m, if allowed then Selected(o.idle.value) else Canceled)
      case Closed => Finish(m, Canceled)
      case Failed => Finish(m, Errored)
  }

  function Run(o: Options, draws: bool, events: seq<Event>): Menu
    requires o.choices > 0
  {
    if |events| == 0 then Start(o, draws) else Next(o, Run(o, draws, events[..|events| - 1]), events[|events| - 1])
  }

  // ---- What holds of every run ----

  predicate Inv(o: Options, m: Menu) {
    && 0 <= m.index < o.choices
    && m.cleanups == (if m.outcome.Some? then 1 else 0)
    && (m.rendered ==> m.visible) && (m.outcome.None? && m.visible ==> m.rendered)
    && (m.idleArmed ==> m.outcome.None? && m.visible && o.idle.Some? && 0 <= o.idle.value < o.choices)
    && (m.outcome.Some? && m.outcome.value.Selected? ==> 0 <= m.outcome.value.index < o.choices)
  }

  lemma MoveKeeps(o: Options, m: Menu, offset: int, draws: bool)
    requires o.choices > 0 && Inv(o, m) && m.outcome.None?
    ensures Inv(o, Move(o, m, offset, draws))
  {}

  lemma ObeyKeeps(o: Options, m: Menu, token: Token, allowed: bool, draws: bool)
    requires o.choices > 0 && Inv(o, m) && m.outcome.None?
    ensures var after := Obey(o, m, token, allowed, draws);
            && Inv(o, after) && after.visible == m.visible
            && (after.outcome.Some? && after.outcome.value.Selected? ==>
                  m.visible && m.rendered && allowed && after.outcome.value.index == after.index)
  {
    if token.MoveBy? {
      MoveKeeps(o, m, token.offset, draws);
    }
  }

  /** Input only selects the row shown, of a menu that was shown, when the choice may be confirmed. */
  lemma {:induction false} DataKeeps(o: Options, m: Menu, text: string, allowed: bool, draws: bool)
    requires o.choices > 0 && Inv(o, m) && m.outcome.None?
    ensures var after := OnData(o, m, text, allowed, draws);
            && Inv(o, after) && after.visible == m.visible
            && (after.outcome.Some? && after.outcome.value.Selected? ==>
                  m.visible && m.rendered && allowed && after.outcome.value.index == after.index)
    decreases |text|
  {
    hide SequenceToken;
    if text != "" {
      var c, rest := text[0], text[1..];
      match m.escape
      case Started =>
        DataKeeps(o, m.(escape := if c == '[' || c == 'O' then Control(c, "") else NoEscape), rest, allowed, draws);
      case Control(introducer, body) =>
        if c == ESC {
          DataKeeps(o, m.(escape := Started), rest, allowed, draws);
        } else if '@' <= c <= '~' {
          var token := SequenceToken(introducer, body, c);
          var ended := m.(escape := NoEscape);
          if token.None? {
            DataKeeps(o, ended, rest, allowed, draws);
          } else {
            ObeyKeeps(o, ended, token.value, allowed, draws);
            var obeyed := Obey(o, ended, token.value, allowed, draws);
            hide Obey;
            if obeyed.outcome.None? {
              DataKeeps(o, obeyed, rest, allowed, draws);
            }
          }
        } else if Units(body) < MAX_BODY {
          DataKeeps(o, m.(escape := Control(introducer, body + [c])), rest, allowed, draws);
        }
      case NoEscape =>
        if c == ESC {
          DataKeeps(o, m.(escape := Started), rest, allowed, draws);
        } else if c != '\U{0003}' && c != '\r' && c != '\n' {
          DataKeeps(o, m, rest, allowed, draws);
        }
    }
  }

  /** Where a selection comes from. */
  predicate Delivers(o: Options, m: Menu, e: Event, after: Menu) {
    after.outcome.Some? && after.outcome.value.Selected? ==>
      && m.visible && m.rendered
      && match e
         case Data(_, allowed, _) => allowed && after.outcome.value.index == after.index
         case IdleTimeout(allowed) => allowed && m.escape == NoEscape && Some(after.outcome.value.index) == o.idle
         case _ => false
  }

  lemma NextKeeps(o: Options, m: Menu, e: Event)
    requires o.choices > 0 && Inv(o, m)
    ensures Inv(o, Next(o, m, e))
    ensures m.outcome.None? ==> Delivers(o, m, e, Next(o, m, e))
  {
    if m.outcome.None? {
      match e
      case Data(text, allowed, draws) => DataKeeps(o, m, text, allowed, draws);
      case Navigate(up, draws) => MoveKeeps(o, m, if up then -1 else 1, draws);
      case _ =>
    }
  }

  lemma {:induction false} EarlyKeeps(o: Options, m: Menu, moves: seq<int>)
    requires o.choices > 0 && Inv(o, m) && m.outcome.None? && !m.visible
    ensures Inv(o, EarlyMoves(o, m, moves)) && EarlyMoves(o, m, moves).outcome.None? && !EarlyMoves(o, m, moves).visible
    ensures EarlyMoves(o, m, moves).escape == m.escape && EarlyMoves(o, m, moves).idleArmed == m.idleArmed
    decreases |moves|
  {
    if |moves| > 0 {
      MoveKeeps(o, m, moves[0], true);
      EarlyKeeps(o, Move(o, m, moves[0], true), moves[1..]);
    }
  }

  lemma {:induction false} RunKeeps(o: Options, draws: bool, events: seq<Event>)
    requires o.choices > 0
    ensures Inv(o, Run(o, draws, events))
  {
    hide Next;
    if |events| == 0 {
      EarlyKeeps(o, Menu(Clamp(o.initial, o.choices), false, false, NoEscape, false, None, 0), o.early);
    } else {
      RunKeeps(o, draws, events[..|events| - 1]);
      NextKeeps(o, Run(o, draws, events[..|events| - 1]), events[|events| - 1]);
    }
  }

  // ---- The main results ----

  /** The selection settles at most once, with one cleanup, and nothing after that changes it. */
  lemma {:induction false} SettlesOnce(o: Options, draws: bool, events: seq<Event>, more: seq<Event>)
    requires o.choices > 0
    ensures var m := Run(o, draws, events);
            && m.cleanups == (if m.outcome.Some? then 1 else 0)
            && (m.outcome.Some? ==> Run(o, draws, events + more) == m)
    decreases |more|
  {
    RunKeeps(o, draws, events);
    hide Next;
    if |more| == 0 {
      assert events + more == events;
    } else {
      var n := |more| - 1;
      SettlesOnce(o, draws, events, more[..n]);
      var all := events + more;
      assert all[..|all| - 1] == events + more[..n];
      if Run(o, draws, events).outcome.Some? {
        StaysSettled(o, Run(o, draws, events + more[..n]), more[n]);
      }
    }
  }

  lemma StaysSettled(o: Options, m: Menu, e: Event)
    requires o.choices > 0 && m.outcome.Some?
    ensures Next(o, m, e) == m
  {
    hide OnData, Move, Show;
  }

  /**
   A row is only delivered from a menu whose frame was drawn, when confirming is
   allowed: the row shown, on input, or the agreed one at an idle timeout with no
   escape sequence pending.
   */
  lemma DeliveredOnlyAfterReview(o: Options, draws: bool, events: seq<Event>, e: Event)
    requires o.choices > 0 && Run(o, draws, events).outcome.None?
    ensures Delivers(o, Run(o, draws, events), e, Run(o, draws, events + [e]))
    ensures Run(o, draws, events + [e]).outcome.Some? && Run(o, draws, events + [e]).outcome.value.Selected? ==>
              0 <= Run(o, draws, events + [e]).outcome.value.index < o.choices
  {
    RunKeeps(o, draws, events);
    RunKeeps(o, draws, events + [e]);
    assert (events + [e])[..|events|] == events;
    NextKeeps(o, Run(o, draws, events), e);
    hide Next;
  }

  // ---- The row is the sum of the moves ----

  /** The tokens of an input, and the escape state after it. */
  datatype Reading = Reading(tokens: seq<Token>, escape: Escape)

  function Prepend(token: Option<Token>, r: Reading): Reading {
    if token.Some? then r.(tokens := [token.value] + r.tokens) else r
  }

  /** Reading without a menu: an unbracketed Enter and an interrupt end the input. */
  function Read(escape: Escape, text: string): Reading
    decreases |text|
  {
    if text == "" then Reading([], escape)
    else
      var c, rest := text[0], text[1..];
      match escape
      case Started => Read(if c == '[' || c == 'O' then Control(c, "") else NoEscape, rest)
      case Control(introducer, body) =>
        if c == ESC then Read(Started, rest)
        else if '@' <= c <= '~' then Prepend(SequenceToken(introducer, body, c), Read(NoEscape, rest))
        else if Units(body) < MAX_BODY then Read(Control(introducer, body + [c]), rest)
        else Reading([Quit], escape)
      case NoEscape =>
        if c == ESC then Read(Started, rest)
        else if c == '\U{0003}' then Reading([Quit], NoEscape)
        else if c == '\r' || c == '\n' then Reading([Enter], NoEscape)
        else Read(NoEscape, rest)
  }

  /** The moves obeyed before the selection settles. */
  function Net(visible: bool, draws: bool, tokens: seq<Token>): int {
    if |tokens| == 0 then 0
    else match tokens[0]
      case MoveBy(offset) => offset + if visible && !draws then 0 else Net(visible, draws, tokens[1..])
      case Accept => if visible then 0 else Net(visible, draws, tokens[1..])
      case _ => 0
  }

  lemma Multiple(d: int, n: int)
    requires n > 0
    ensures d >= 1 ==> d * n >= n
    ensures d <= -1 ==> d * n <= -n
  {}

  lemma ModUnique(x: int, q: int, r: int, n: int)
    requires n > 0 && 0 <= r < n && x == q * n + r
    ensures x % n == r
  {
    var d := q - x / n;
    assert x == (x / n) * n + x % n;
    assert d * n == q * n - (x / n) * n == x % n - r;
    Multiple(d, n);
  }

  lemma ModShift(x: int, q: int, n: int)
    requires n > 0
    ensures (x + q * n) % n == x % n
  {
    assert x == (x / n) * n + x % n;
    assert (x / n + q) * n == (x / n) * n + q * n;
    ModUnique(x + q * n, x / n + q, x % n, n);
  }

  lemma ModAdd(x: int, k: int, n: int)
    requires n > 0
    ensures (x % n + k) % n == (x + k) % n
  {
    ModShift(x % n + k, x / n, n);
    assert x == x % n + (x / n) * n;
  }

  lemma MoveIndex(o: Options, m: Menu, offset: int, draws: bool)
    requires o.choices > 0
    ensures Move(o, m, offset, draws).index == (m.index + offset) % o.choices
  {
    ModShift(m.index + offset, 1, o.choices);
    assert 1 * o.choices == o.choices;
  }

  lemma {:induction false} DataMoves(o: Options, m: Menu, text: string, allowed: bool, draws: bool)
    requires o.choices > 0 && Inv(o, m) && m.outcome.None?
    ensures OnData(o, m, text, allowed, draws).index ==
            (m.index + Net(m.visible, draws, Read(m.escape, text).tokens)) % o.choices
    decreases |text|
  {
    hide SequenceToken;
    if text != "" {
      var c, rest := text[0], text[1..];
      match m.escape
      case Started =>
        DataMoves(o, m.(escape := if c == '[' || c == 'O' then Control(c, "") else NoEscape), rest, allowed, draws);
      case Control(introducer, body) =>
        if c == ESC {
          DataMoves(o, m.(escape := Started), rest, allowed, draws);
        } else if '@' <= c <= '~' {
          SequenceMoves(o, m, text, allowed, draws);
        } else if Units(body) < MAX_BODY {
          DataMoves(o, m.(escape := Control(introducer, body + [c])), rest, allowed, draws);
        }
      case NoEscape =>
        if c == ESC {
          DataMoves(o, m.(escape := Started), rest, allowed, draws);
        } else if c != '\U{0003}' && c != '\r' && c != '\n' {
          DataMoves(o, m, rest, allowed, draws);
        }
    }
  }

  /** A control sequence ends. */
  lemma {:induction false} SequenceMoves(o: Options, m: Menu, text: string, allowed: bool, draws: bool)
    requires o.choices > 0 && Inv(o, m) && m.outcome.None? && text != "" && m.escape.Control?
    requires text[0] != ESC && '@' <= text[0] <= '~'
    ensures OnData(o, m, text, allowed, draws).index ==
            (m.index + Net(m.visible, draws, Read(m.escape, text).tokens)) % o.choices
    decreases |text|, 0
  {
    hide SequenceToken;
    var rest := text[1..];
    var token := SequenceToken(m.escape.introducer, m.escape.body, text[0]);
    var ended := m.(escape := NoEscape);
    var reading := Read(NoEscape, rest);
    if token.None? {
      DataMoves(o, ended, rest, allowed, draws);
    } else {
      ObeyKeeps(o, ended, token.value, allowed, draws);
      ObeyMoves(o, ended, token.value, reading.tokens, allowed, draws);
      var obeyed := Obey(o, ended, token.value, allowed, draws);
      hide Obey, Net;
      if obeyed.outcome.None? {
        DataMoves(o, obeyed, rest, allowed, draws);
      }
    }
  }

  /** One token moves the row, and settles the rest unless it is to be read on. */
  lemma ObeyMoves(o: Options, m: Menu, token: Token, rest: seq<Token>, allowed: bool, draws: bool)
    requires o.choices > 0 && Inv(o, m) && m.outcome.None? && token != Enter
    ensures var obeyed := Obey(o, m, token, allowed, draws);
            (m.index + Net(m.visible, draws, [token] + rest)) % o.choices ==
            if obeyed.outcome.None? then (obeyed.index + Net(m.visible, draws, rest)) % o.choices else obeyed.index
    ensures var obeyed := Obey(o, m, token, allowed, draws);
            obeyed.visible == m.visible && obeyed.escape == m.escape
  {
    assert ([token] + rest)[1..] == rest;
    var net := Net(m.visible, draws, rest);
    if token.MoveBy? {
      MoveIndex(o, m, token.offset, draws);
      ModAdd(m.index + token.offset, net, o.choices);
      assert m.index + (token.offset + net) == m.index + token.offset + net;
    } else {
      ModUnique(m.index, 0, m.index, o.choices);
    }
  }

  function Sum(offsets: seq<int>): int {
    if |offsets| == 0 then 0 else offsets[0] + Sum(offsets[1..])
  }

  /** The moves one event asks for, as long as the selection is open. */
  function Asked(m: Menu, e: Event): int {
    if m.outcome.Some? then 0
    else match e
      case Data(text, _, draws) => Net(m.visible, draws, Read(m.escape, text).tokens)
      case Navigate(up, _) => if up then -1 else 1
      case _ => 0
  }

  function AskedInAll(o: Options, draws: bool, events: seq<Event>): int
    requires o.choices > 0
  {
    if |events| == 0 then (if o.aborted then 0 else Sum(o.early))
    else
      var before := events[..|events| - 1];
      AskedInAll(o, draws, before) + Asked(Run(o, draws, before), events[|events| - 1])
  }

  lemma {:induction false} EarlyIndex(o: Options, m: Menu, moves: seq<int>)
    requires o.choices > 0 && !m.visible && 0 <= m.index < o.choices
    ensures EarlyMoves(o, m, moves).index == (m.index + Sum(moves)) % o.choices
    decreases |moves|
  {
    if |moves| > 0 {
      MoveIndex(o, m, moves[0], true);
      EarlyIndex(o, Move(o, m, moves[0], true), moves[1..]);
      ModAdd(m.index + moves[0], Sum(moves[1..]), o.choices);
    }
  }

  /** Over every run the row is the clamped initial one plus all moves asked for, around the number of rows. */
  lemma {:induction false} IndexIsTheSumOfMoves(o: Options, draws: bool, events: seq<Event>)
    requires o.choices > 0
    ensures Run(o, draws, events).index == (Clamp(o.initial, o.choices) + AskedInAll(o, draws, events)) % o.choices
  {
    if |events| == 0 {
      StartIndex(o, draws);
    } else {
      hide *;
      var before, e := events[..|events| - 1], events[|events| - 1];
      var m := Run(o, draws, before);
      RunStep(o, draws, events);
      IndexIsTheSumOfMoves(o, draws, before);
      RunKeeps(o, draws, before);
      StepIndex(o, m, e);
      ModChain(Clamp(o.initial, o.choices), AskedInAll(o, draws, before), Asked(m, e), o.choices,
               m.index, Run(o, draws, events).index);
    }
  }

  lemma StartIndex(o: Options, draws: bool)
    requires o.choices > 0
    ensures Start(o, draws).index == (Clamp(o.initial, o.choices) + (if o.aborted then 0 else Sum(o.early))) % o.choices
  {
    var low := Clamp(o.initial, o.choices);
    ModUnique(low, 0, low, o.choices);
    EarlyIndex(o, Menu(low, false, false, NoEscape, false, None, 0), o.early);
    hide EarlyMoves;
  }

  lemma ModChain(a: int, s: int, k: int, n: int, x: int, y: int)
    requires n > 0 && x == (a + s) % n && y == (x + k) % n
    ensures y == (a + (s + k)) % n
  {
    ModAdd(a + s, k, n);
    assert a + s + k == a + (s + k);
  }

  lemma RunStep(o: Options, draws: bool, events: seq<Event>)
    requires o.choices > 0 && |events| > 0
    ensures var before, e := events[..|events| - 1], events[|events| - 1];
            && Run(o, draws, events) == Next(o, Run(o, draws, before), e)
            && AskedInAll(o, draws, events) == AskedInAll(o, draws, before) + Asked(Run(o, draws, before), e)
  {
    hide Next, Asked;
  }

  lemma StepIndex(o: Options, m: Menu, e: Event)
    requires o.choices > 0 && Inv(o, m)
    ensures Next(o, m, e).index == (m.index + Asked(m, e)) % o.choices
  {
    if m.outcome.None? {
      match e
      case Data(text, allowed, draws) => DataMoves(o, m, text, allowed, draws);
      case Navigate(up, draws) => MoveIndex(o, m, if up then -1 else 1, draws);
      case _ =>
    }
  }

  // ---- Chunks ----

  /** An Enter is read before anything ends the selection. */
  predicate EnterFirst(tokens: seq<Token>) {
    |tokens| > 0 && tokens[0] != Quit && (tokens[0] == Enter || EnterFirst(tokens[1..]))
  }

  lemma {:induction false} ConcatData(o: Options, m: Menu, a: string, b: string, allowed: bool, draws: bool)
    requires o.choices > 0 && Inv(o, m) && m.outcome.None?
    ensures if !m.visible && EnterFirst(Read(m.escape, a).tokens) then
              && OnData(o, m, a + b, allowed, draws) == OnData(o, m, a, allowed, draws)
              && OnData(o, m, a, allowed, draws).outcome.None? && OnData(o, m, a, allowed, draws).escape == NoEscape
            else OnData(o, m, a + b, allowed, draws) == OnData(o, OnData(o, m, a, allowed, draws), b, allowed, draws)
    decreases |a|
  {
    hide SequenceToken;
    if a == "" {
      assert a + b == b;
    } else {
      var c, rest := a[0], a[1..];
      assert (a + b)[1..] == rest + b;
      match m.escape
      case Started =>
        ConcatData(o, m.(escape := if c == '[' || c == 'O' then Control(c, "") else NoEscape), rest, b, allowed, draws);
      case Control(introducer, body) =>
        if c == ESC {
          ConcatData(o, m.(escape := Started), rest, b, allowed, draws);
        } else if '@' <= c <= '~' {
          var token := SequenceToken(introducer, body, c);
          var ended := m.(escape := NoEscape);
          if token.None? {
            ConcatData(o, ended, rest, b, allowed, draws);
          } else {
            ObeyKeeps(o, ended, token.value, allowed, draws);
            var obeyed := Obey(o, ended, token.value, allowed, draws);
            assert ([token.value] + Read(NoEscape, rest).tokens)[1..] == Read(NoEscape, rest).tokens;
            if obeyed.outcome.None? {
              ConcatData(o, obeyed, rest, b, allowed, draws);
            }
          }
        } else if Units(body) < MAX_BODY {
          ConcatData(o, m.(escape := Control(introducer, body + [c])), rest, b, allowed, draws);
        }
      case NoEscape =>
        if c == ESC {
          ConcatData(o, m.(escape := Started), rest, b, allowed, draws);
        } else if c != '\U{0003}' && c != '\r' && c != '\n' {
          ConcatData(o, m, rest, b, allowed, draws);
        }
    }
  }

  /** Input may be cut anywhere exactly when the menu is visible, or no Enter swallows the rest of its chunk. */
  lemma ChunksDoNotMatterIff(o: Options, m: Menu, a: string, allowed: bool, draws: bool)
    requires o.choices > 0 && Inv(o, m) && m.outcome.None?
    ensures (forall b :: OnData(o, m, a + b, allowed, draws) ==
               OnData(o, OnData(o, m, a, allowed, draws), b, allowed, draws))
            <==> m.visible || !EnterFirst(Read(m.escape, a).tokens)
  {
    hide SequenceToken;
    forall b
      ensures (m.visible || !EnterFirst(Read(m.escape, a).tokens)) ==>
                OnData(o, m, a + b, allowed, draws) == OnData(o, OnData(o, m, a, allowed, draws), b, allowed, draws)
    {
      ConcatData(o, m, a, b, allowed, draws);
    }
    ConcatData(o, m, a, [ESC], allowed, draws);
    var after := OnData(o, m, a, allowed, draws);
    if !m.visible && EnterFirst(Read(m.escape, a).tokens) {
      EscapeStarts(o, after, allowed, draws);
      hide OnData;
      assert OnData(o, m, a + [ESC], allowed, draws) != OnData(o, after, [ESC], allowed, draws);
    }
  }

  lemma EscapeStarts(o: Options, m: Menu, allowed: bool, draws: bool)
    requires o.choices > 0 && m.outcome.None? && m.escape == NoEscape
    ensures OnData(o, m, [ESC], allowed, draws) == m.(escape := Started)
  {
    var text := [ESC];
    assert text[1..] == "";
  }

  /** A hidden menu with two rows or more: an Enter and an arrow move nothing in one chunk, and one row in two. */
  lemma HiddenEnterSwallowsAnArrow(o: Options, m: Menu, allowed: bool, draws: bool)
    requires o.choices > 1 && Inv(o, m) && m.outcome.None? && !m.visible && m.escape.NoEscape?
    ensures var arrow := [ESC, '[', 'B'];
            && OnData(o, m, ['\r'] + arrow, allowed, draws) == m
            && OnData(o, OnData(o, m, ['\r'], allowed, draws), arrow, allowed, draws).index ==
                 (m.index + 1) % o.choices != m.index
  {
    var arrow := [ESC, '[', 'B'];
    assert (['\r'] + arrow)[0] == '\r';
    assert SequenceToken('[', "", 'B') == Some(MoveBy(1)) by { SplitNone("", ';'); }
    var k, next := if m.index + 1 < o.choices then 0 else 1, if m.index + 1 < o.choices then m.index + 1 else 0;
    ModUnique(m.index + 1, k, next, o.choices);
    ModUnique(m.index + 1 + o.choices, k + 1, next, o.choices);
    hide SequenceToken;
    assert arrow[1..] == ['[', 'B'] && arrow[1..][1..] == ['B'] && arrow[1..][1..][1..] == [];
    assert OnData(o, m.(escape := Control('[', "")), ['B'], allowed, draws) ==
           OnData(o, Obey(o, m, MoveBy(1), allowed, draws), [], allowed, draws);
    assert OnData(o, m.(escape := Started), ['[', 'B'], allowed, draws) ==
           OnData(o, m.(escape := Control('[', "")), ['B'], allowed, draws);
  }

  // ---- Encodings of the arrows ----

  lemma {:induction false} SplitTwo(a: string, separator: char, b: string)
    requires separator !in a && separator !in b
    ensures Split(a + [separator] + b, separator) == [a, b]
  {
    var text := a + [separator] + b;
    if a == "" {
      assert text[1..] == b;
      SplitNone(b, separator);
    } else {
      assert a[0] in a && forall c :: c in a[1..] ==> c in a;
      assert text[1..] == a[1..] + [separator] + b;
      SplitTwo(a[1..], separator, b);
      assert [a[0]] + a[1..] == a;
    }
  }

  lemma DigitsHaveNoSeparators(text: string)
    requires Digits(text)
    ensures ';' !in text && ':' !in text
  {}

  /**
   An arrow moves in every encoding: plain, application mode, and with any modifier as a press or a
   repeat; a release never does.
   */
  lemma ArrowsMove(modifier: string, event: string, up: bool)
    requires PositiveInteger(modifier) && IsEvent(event)
    ensures var final, move := if up then 'A' else 'B', Some(MoveBy(if up then -1 else 1));
            && SequenceToken('[', "", final) == SequenceToken('O', "", final) == move
            && SequenceToken('[', "1;" + modifier, final) == move
            && SequenceToken('[', "1;" + modifier + ":" + event, final) == (if event == "3" then None else move)
  {
    DigitsHaveNoSeparators(modifier);
    SplitTwo("1", ';', modifier);
    assert "1" + [';'] + modifier == "1;" + modifier;
    SplitNone(modifier, ':');
    var field := modifier + [':'] + event;
    SplitTwo("1", ';', field);
    assert "1" + [';'] + field == "1;" + modifier + ":" + event;
    SplitTwo(modifier, ':', event);
    hide Split;
  }

  /**
   A key of the kitty protocol acts by its code, alone or with a modifier as a press or a repeat; a
   release never does.
   */
  lemma KittyKeysAct(code: string, modifier: string, event: string)
    requires SafeInteger(code) && PositiveInteger(modifier) && IsEvent(event)
    ensures SequenceToken('[', code, 'u') == KeyToken(CsiKey(Value(code), None, Plain))
    ensures SequenceToken('[', code + ";" + modifier + ":" + event, 'u') ==
            if event == "3" then None else KeyToken(CsiKey(Value(code), Some(Value(modifier)), EventOf(event)))
  {
    DigitsHaveNoSeparators(code);
    DigitsHaveNoSeparators(modifier);
    SplitNone(code, ';');
    SplitNone(code, ':');
    var field := modifier + [':'] + event;
    SplitTwo(modifier, ':', event);
    SplitTwo(code, ';', field);
    assert code + [';'] + field == code + ";" + modifier + ":" + event;
    hide Split, Value;
  }

  // ---- The selector as written ----

  class MenuSelector {
    const options: Options
    var index: int
    var visible: bool
    var rendered: bool
    var escape: Escape
    var idleArmed: bool
    var outcome: Option<Outcome>
    var cleanups: nat

    ghost predicate Valid()
      reads this
    {
      options.choices > 0
    }

    ghost function State(): Menu
      reads this
    {
      Menu(index, visible, rendered, escape, idleArmed, outcome, cleanups)
    }

    constructor (options: Options, draws: bool)
      requires options.choices > 0
      ensures Valid() && this.options == options
      ensures State() == Start(options, draws)
    {
      this.options := options;
      index := Clamp(options.initial, options.choices);
      visible, rendered, escape, idleArmed := false, false, NoEscape, false;
      outcome, cleanups := None, 0;
      new;
      if options.aborted {
        Settle(Canceled);
        return;
      }
      ghost var first := State();
      var rest := options.early;
      while |rest| > 0
        invariant Valid() && this.options == options
        invariant EarlyMoves(options, State(), rest) == EarlyMoves(options, first, options.early)
        decreases |rest|
      {
        MoveRow(rest[0], true);
        rest := rest[1..];
      }
      if !options.waits {
        ShowFirst(draws);
      }
    }

    method Settle(result: Outcome)
      modifies this
      ensures State() == Finish(old(State()), result)
    {
      if outcome.Some? {
        return;
      }
      outcome := Some(result);
      idleArmed := false;
      cleanups := cleanups + 1;
    }

    method Draw(draws: bool)
      modifies this
      ensures State() == Render(old(State()), draws)
    {
      if !visible {
        return;
      }
      if draws {
        rendered := true;
      } else {
        Settle(Errored);
      }
    }

    method ShowFirst(draws: bool)
      modifies this
      ensures State() == Show(options, old(State()), draws)
    {
      visible := true;
      Draw(draws);
      if outcome.None? && options.idle.Some? && 0 <= options.idle.value < options.choices {
        idleArmed := true;
      }
    }

    method MoveRow(offset: int, draws: bool)
      requires Valid()
      modifies this
      ensures State() == Move(options, old(State()), offset, draws)
    {
      index := (index + offset + options.choices) % options.choices;
      Draw(draws);
    }

    method ConfirmRow(allowed: bool)
      modifies this
      ensures State() == Confirm(old(State()), allowed)
    {
      if visible && rendered {
        Settle(if allowed then Selected(index) else Canceled);
      }
    }

    method HandleSequence(introducer: char, body: string, final: char, allowed: bool, draws: bool)
      requires Valid()
      modifies this
      ensures var token := SequenceToken(introducer, body, final);
              State() == if token.Some? then Obey(options, old(State()), token.value, allowed, draws) else old(State())
    {
      hide SequenceToken;
      var token := SequenceToken(introducer, body, final);
      if token.None? {
        return;
      }
      if token.value.MoveBy? {
        MoveRow(token.value.offset, draws);
      } else if token.value == Quit {
        Settle(Canceled);
      } else {
        ConfirmRow(allowed);
      }
    }

    method ReceiveData(text: string, allowed: bool, draws: bool)
      requires Valid()
      modifies this
      ensures State() == OnData(options, old(State()), text, allowed, draws)
    {
      hide SequenceToken, Obey, Confirm, Finish;
      var rest := text;
      while rest != "" && outcome.None?
        invariant OnData(options, State(), rest, allowed, draws) == OnData(options, old(State()), text, allowed, draws)
        decreases |rest|
      {
        var c := rest[0];
        rest := rest[1..];
        match escape
        case Started =>
          escape := if c == '[' || c == 'O' then Control(c, "") else NoEscape;
        case Control(introducer, body) =>
          if c == ESC {
            escape := Started;
          } else if '@' <= c <= '~' {
            escape := NoEscape;
            HandleSequence(introducer, body, c, allowed, draws);
          } else if Units(body) < MAX_BODY {
            escape := Control(introducer, body + [c]);
          } else {
            Settle(Canceled);
            return;
          }
        case NoEscape =>
          if c == ESC {
            escape := Started;
          } else if c == '\U{0003}' {
            Settle(Canceled);
            return;
          } else if c == '\r' || c == '\n' {
            ConfirmRow(allowed);
            return;
          }
      }
    }

    method Receive(e: Event)
      requires Valid()
      modifies this
      ensures State() == Next(options, old(State()), e)
    {
      if outcome.Some? {
        return;
      }
      match e
      case Data(text, allowed, draws) => ReceiveData(text, allowed, draws);
      case Navigate(up, draws) => MoveRow(if up then -1 else 1, draws);
      case Ready(draws) =>
        if options.waits && !visible {
          ShowFirst(draws);
        }
      case EscapeTimeout =>
        if escape != NoEscape {
          Settle(Canceled);
        }
      case IdleTimeout(allowed) =>
        if idleArmed && options.idle.Some? {
          if escape != NoEscape || !rendered || !visible {
            Settle(Canceled);
          } else {
            Settle(if allowed then Selected(options.idle.value) else Canceled);
          }
        }
      case Closed => Settle(Canceled);
      case Failed => Settle(Errored);
    }
  }
}
