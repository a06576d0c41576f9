/**
 What terminal input means to the prompt, piece by piece (src/cli/prompt-input.ts):
 a stream is read as keys, pastes and private frames, each given by its bytes, and
 the proxy does what the pieces stand for.
 */
module PromptPieces {
  import opened Common
  import opened InputProxy
  import Osc = PrivateOsc

  type Byte = Osc.Byte

  /** A complete piece of input. */
  datatype Piece =
    | PasteImageFrame
    | OtherFrame(body: seq<Byte>)
    | PasteKey(modifier: Byte)
    | CtrlV
    | CtrlT
    | Backspace(byte: Byte)
    | Paste(body: seq<Byte>)
    | Enter(byte: Byte)
    | Interrupt
    | EscapeKey
    | Character(byte: Byte)

  /** ESC ] 6973;easy-code; */
  function FramePrefix(): seq<Byte> {
    [0x1b, 0x5d, 0x36, 0x39, 0x37, 0x33, 0x3b, 0x65, 0x61, 0x73, 0x79, 0x2d, 0x63, 0x6f, 0x64, 0x65, 0x3b]
  }

  /** paste-image */
  function ImageRequest(): seq<Byte> {
    [0x70, 0x61, 0x73, 0x74, 0x65, 0x2d, 0x69, 0x6d, 0x61, 0x67, 0x65]
  }

  /** CSI 118 ; modifier u */
  function KittyV(modifier: Byte): seq<Byte> {
    [0x1b, 0x5b, 0x31, 0x31, 0x38, 0x3b, modifier, 0x75]
  }

  /** CSI 200 ~ */
  function Opening(): seq<Byte> {
    [0x1b, 0x5b, 0x32, 0x30, 0x30, 0x7e]
  }

  /** CSI 201 ~ */
  function Closing(): seq<Byte> {
    [0x1b, 0x5b, 0x32, 0x30, 0x31, 0x7e]
  }

  function Bytes(piece: Piece): seq<Byte> {
    match piece
    case PasteImageFrame => FramePrefix() + ImageRequest() + [0x07]
    case OtherFrame(body) => FramePrefix() + body + [0x07]
    case PasteKey(modifier) => KittyV(modifier)
    case CtrlV => [0x16]
    case CtrlT => [0x14]
    case Backspace(b) => [b]
    case Paste(body) => Opening() + body + Closing()
    case Enter(b) => [b]
    case Interrupt => [0x03]
    case EscapeKey => [0x1b]
    case Character(b) => [b]
  }

  /** What begins with ESC and is more than the key: frames, pastes and Ctrl, Ctrl+Shift and Super with V. */
  function Words(): seq<seq<Byte>> {
    [FramePrefix(), Opening(), KittyV(0x35), KittyV(0x36), KittyV(0x39)]
  }

  /** The input begins a word, or is cut off inside one. */
  predicate BeginsWord(s: seq<Byte>) {
    exists i :: 0 <= i < |Words()| && Compatible(s, Words()[i])
  }

  /** The body of a paste does not close it. */
  predicate Unclosed(body: seq<Byte>) {
    forall i :: 0 <= i <= |body| - 6 ==> !OccursAt(body, Closing(), i)
  }

  /** The piece is what its bytes mean in front of `rest`. */
  predicate Reads(swallow: bool, piece: Piece, rest: seq<Byte>) {
    match piece
    case PasteImageFrame => true
    case OtherFrame(body) => 0x07 !in body && body != ImageRequest()
    case PasteKey(modifier) => modifier == 0x35 || modifier == 0x36 || modifier == 0x39
    case CtrlV => true
    case CtrlT => true
    case Backspace(b) => b == 0x08 || b == 0x7f
    case Paste(body) => Unclosed(body)
    case Enter(b) => b == 0x0d || b == 0x0a
    case Interrupt => swallow
    case EscapeKey => !BeginsWord([0x1b] + rest)
    case Character(b) =>
      b != 0x08 && b != 0x7f && b != 0x16 && b != 0x14 && b != 0x1b && b != 0x0d && b != 0x0a && (swallow ==> b != 0x03)
  }

  /** How the input ends: between two pieces, inside a word, or in a frame or paste that is still open. */
  datatype Ending = Done | Held(bytes: seq<Byte>) | InFrame(bytes: seq<Byte>) | InPaste(body: seq<Byte>)

  function EndBytes(ending: Ending): seq<Byte> {
    match ending
    case Done => []
    case Held(bytes) => bytes
    case InFrame(bytes) => bytes
    case InPaste(body) => Opening() + body
  }

  /** A frame whose closing BEL has not come. */
  predicate Unfinished(t: seq<Byte>) {
    FramePrefix() <= t && forall i :: 17 <= i < |t| ==> t[i] != 0x07
  }

  predicate Ends(ending: Ending) {
    match ending
    case Done => true
    case Held(t) =>
      t != [] && ((exists i :: 0 <= i < |Words()| && t < Words()[i]) || (Unfinished(t) && |t| <= 160))
    case InFrame(t) => Unfinished(t) && |t| > 160
    case InPaste(body) => Unclosed(body)
  }

  function Text(pieces: seq<Piece>, ending: Ending): seq<Byte> {
    if |pieces| == 0 then EndBytes(ending) else Bytes(pieces[0]) + Text(pieces[1..], ending)
  }

  /** The pieces and the ending are a reading of their text. */
  predicate Reading(swallow: bool, pieces: seq<Piece>, ending: Ending) {
    if |pieces| == 0 then Ends(ending)
    else Reads(swallow, pieces[0], Text(pieces[1..], ending)) && Reading(swallow, pieces[1..], ending)
  }

  // ---- What a reading means ----

  predicate RequestsPaste(piece: Piece) {
    piece.PasteImageFrame? || piece.PasteKey? || piece.CtrlV?
  }

  /** What one piece makes happen when no Enter has to be held. */
  function Meaning(piece: Piece): seq<Event> {
    match piece
    case PasteImageFrame => [BeginCapture]
    case OtherFrame(_) => []
    case PasteKey(_) => [BeginCapture]
    case CtrlV => [BeginCapture]
    case CtrlT => [ShowThinking]
    case Backspace(b) => [AskBackspace(b)]
    case Paste(body) => if |body| > MAX_BRACKETED_PASTE_BYTES then [PasteTooLong] else [PasteText(body)]
    case Enter(b) => [Emit(b)]
    case Interrupt => []
    case EscapeKey => [Emit(0x1b)]
    case Character(b) => [Emit(b)]
  }

  function Requests(pieces: seq<Piece>): nat {
    if |pieces| == 0 then 0 else (if RequestsPaste(pieces[0]) then 1 else 0) + Requests(pieces[1..])
  }

  function Meanings(pieces: seq<Piece>): seq<Event> {
    if |pieces| == 0 then [] else Meaning(pieces[0]) + Meanings(pieces[1..])
  }

  /** How many pieces come in front of the first Enter that has to wait for a paste. */
  function UpToHeld(pieces: seq<Piece>, captures: nat): (n: nat)
    ensures n <= |pieces|
  {
    if |pieces| == 0 || (pieces[0].Enter? && captures > 0) then 0
    else 1 + UpToHeld(pieces[1..], captures + if RequestsPaste(pieces[0]) then 1 else 0)
  }

  function EndEvents(ending: Ending): seq<Event> {
    if ending.InPaste? && |ending.body| > MAX_BRACKETED_PASTE_BYTES then [PasteTooLong] else []
  }

  /** What the proxy keeps of the ending. */
  function Keeps(p: Proxy, ending: Ending): Proxy {
    match ending
    case Done => p
    case Held(bytes) => p.(pending := bytes)
    case InFrame(_) => p
    case InPaste(body) =>
      var rejected := |body| > MAX_BRACKETED_PASTE_BYTES;
      p.(active := true, rejected := rejected, buffer := if rejected then body[|body| - 5..] else body)
  }

  // ---- One piece ----

  predicate Idle(p: Proxy) {
    p == Proxy([], false, false, [], p.captures, false)
  }

  lemma SameWords(modifier: Byte)
    ensures FramePrefix() == Osc.PrivateOscPrefix() && ImageRequest() == Osc.PasteImagePayload()
    ensures Opening() == PasteStart() && Closing() == PasteEnd() && KittyV(modifier) == Hotkey(modifier)
  {}

  /** A closed frame is taken whole; only the one that asks for an image does something. */
  lemma FrameToken(swallow: bool, body: seq<Byte>, rest: seq<Byte>)
    requires 0x07 !in body
    ensures var f := FramePrefix() + body + [0x07];
            TokenAt(swallow, f + rest) == Take(|f|, if body == ImageRequest() then Some(BeginCapture) else None)
  {
    var f := FramePrefix() + body + [0x07];
    var s := f + rest;
    SameWords(0x35);
    assert s[0] == 0x1b && s[1] == 0x5d;
    assert |f| == 18 + |body| && f[17 + |body|] == 0x07 && forall i :: 17 <= i < 17 + |body| ==> f[i] == body[i - 17];
    forall i | 17 <= i < 17 + |body| ensures s[i] != 0x07 {
      assert s[i] == body[i - 17] && body[i - 17] in body;
    }
    assert s[17 + |body|] == 0x07;
    assert Osc.Terminator(s) == 17 + |body|;
    assert s[..17] == FramePrefix() && s[17..17 + |body|] == body;
  }

  lemma KeyToken(swallow: bool, modifier: Byte, rest: seq<Byte>)
    requires modifier == 0x35 || modifier == 0x36 || modifier == 0x39
    ensures TokenAt(swallow, KittyV(modifier) + rest) == Take(8, Some(BeginCapture))
  {
    var s := KittyV(modifier) + rest;
    SameWords(modifier);
    assert s[0] == 0x1b && s[1] == 0x5b && s[2] == 0x31 && s[..8] == Hotkey(modifier);
    Osc.ParseIsNoFrame(s);
    hide Osc.PasteImagePayload;
  }

  lemma EscapeToken1(swallow: bool, rest: seq<Byte>)
    requires !BeginsWord([0x1b] + rest)
    ensures TokenAt(swallow, [0x1b] + rest) == Take(1, Some(Emit(0x1b)))
  {
    var s := [0x1b] + rest;
    SameWords(0x35);
    SameWords(0x36);
    SameWords(0x39);
    forall i | 0 <= i < 5 ensures !Compatible(s, Words()[i]) {}
    assert !Compatible(s, Words()[0]) && !Compatible(s, Words()[1]) && !Compatible(s, Words()[2]);
    assert !Compatible(s, Words()[3]) && !Compatible(s, Words()[4]);
    Osc.ParseIsNoFrame(s);
    hide PasteStart, Hotkey, Osc.PrivateOscPrefix;
    assert |s| != 1 by { assert |s| == 1 ==> s <= FramePrefix(); }
  }

  /** After the piece, with what it counts. */
  function Past(p: Proxy, piece: Piece): Proxy {
    p.(captures := p.captures + if RequestsPaste(piece) then 1 else 0)
  }

  lemma PieceToken(swallow: bool, p: Proxy, piece: Piece, rest: seq<Byte>)
    requires Idle(p) && Reads(swallow, piece, rest) && !piece.Paste? && !(piece.Enter? && p.captures > 0)
    ensures Bytes(piece) != []
    ensures MoveAt(swallow, p, Bytes(piece) + rest) == Go(Meaning(piece), Past(p, piece), |Bytes(piece)|)
  {
    assert (Bytes(piece) + rest)[0] == Bytes(piece)[0];
    if piece.PasteImageFrame? {
      assert 0x07 !in ImageRequest();
      FrameToken(swallow, ImageRequest(), rest);
    } else if piece.OtherFrame? {
      FrameToken(swallow, piece.body, rest);
    } else if piece.PasteKey? {
      KeyToken(swallow, piece.modifier, rest);
    } else if piece.EscapeKey? {
      EscapeToken1(swallow, rest);
    }
  }

  lemma PieceScan(swallow: bool, p: Proxy, piece: Piece, rest: seq<Byte>)
    requires Idle(p) && Reads(swallow, piece, rest) && !(piece.Enter? && p.captures > 0)
    ensures var after := Scan(swallow, Past(p, piece), rest);
            Scan(swallow, p, Bytes(piece) + rest) == Outcome(Meaning(piece) + after.events, after.proxy)
  {
    var s := Bytes(piece) + rest;
    if piece.Paste? {
      PasteScan(swallow, p, piece.body, rest);
    } else {
      PieceToken(swallow, p, piece, rest);
      hide Reads, Bytes, MoveAt, Scan, Settles, Meaning;
      assert s[|Bytes(piece)|..] == rest;
      GoScan(swallow, p, s);
    }
  }

  lemma OpensPaste(swallow: bool, p: Proxy, rest: seq<Byte>)
    requires Idle(p)
    ensures Scan(swallow, p, Opening() + rest) == Scan(swallow, p.(active := true), rest)
  {
    var s := Opening() + rest;
    SameWords(0x35);
    StartOpensPaste(swallow, rest);
    hide PasteStart, TokenAt, Scan, Settles;
    assert s[6..] == rest;
    GoScan(swallow, p, s);
  }

  lemma UnclosedIs(body: seq<Byte>)
    ensures Unclosed(body) <==> EndAt(body) == -1
  {
    SameWords(0x35);
    hide Closing;
    if EndAt(body) != -1 { assert OccursAt(body, PasteEnd(), EndAt(body)); }
  }

  lemma UnclosedEnds(body: seq<Byte>, rest: seq<Byte>)
    requires Unclosed(body)
    ensures EndAt(body + Closing() + rest) == |body|
  {
    SameWords(0x35);
    UnclosedIs(body);
    EndFoundWherePut(body);
    EndStable(body + PasteEnd(), rest);
  }

  lemma PasteMeans(open: Proxy, body: seq<Byte>, rest: seq<Byte>)
    requires open.active && !open.rejected && open.buffer == [] && Unclosed(body)
    ensures var tail := body + Closing() + rest;
            && EndAt(Combined(open, tail)) == |body| && tail[|body| + 6..] == rest
            && PasteMove(open, tail) == Go(Meaning(Paste(body)), open.(active := false), |body| + 6)
  {
    UnclosedEnds(body, rest);
    var tail := body + Closing() + rest;
    assert |body + Closing()| == |body| + 6 && tail[..|body|] == body;
    hide Closing, EndAt;
    assert Combined(open, tail) == tail;
  }

  lemma PasteScan(swallow: bool, p: Proxy, body: seq<Byte>, rest: seq<Byte>)
    requires Idle(p) && Unclosed(body)
    ensures var after := Scan(swallow, p, rest);
            Scan(swallow, p, Bytes(Paste(body)) + rest) == Outcome(Meaning(Paste(body)) + after.events, after.proxy)
  {
    var open, tail := p.(active := true), body + Closing() + rest;
    PasteMeans(open, body, rest);
    PasteText1(body, rest);
    hide Closing, Opening, EndAt, Scan, Settles, PasteMove, Combined, Bytes, Meaning, Unclosed;
    OpensPaste(swallow, p, tail);
    PasteFound(swallow, open, tail);
  }

  lemma PasteText1(body: seq<Byte>, rest: seq<Byte>)
    ensures var tail := body + Closing() + rest; tail != [] && Bytes(Paste(body)) + rest == Opening() + tail
  {
    assert |body + Closing()| == |body| + 6;
    hide Closing, Opening;
  }

  // ---- How the input ends ----

  /** A word that is cut off is held. */
  lemma HeldToken(swallow: bool, t: seq<Byte>)
    requires Ends(Held(t))
    ensures TokenAt(swallow, t).Wait?
  {
    SameWords(0x35);
    SameWords(0x36);
    SameWords(0x39);
    Osc.ParseIsNoFrame(t);
    if exists i :: 0 <= i < |Words()| && t < Words()[i] {
      var i :| 0 <= i < |Words()| && t < Words()[i];
      CutWordToken(swallow, t, i);
    } else {
      assert t[0] == 0x1b && t[1] == 0x5d && !(PasteStart() <= t);
      assert Osc.Terminator(t) == -1;
      assert t[..17] == FramePrefix();
    }
  }

  lemma CutWordToken(swallow: bool, t: seq<Byte>, i: nat)
    requires t != [] && i < |Words()| && t < Words()[i]
    ensures TokenAt(swallow, t).Wait?
  {
    SameWords(0x35);
    SameWords(0x36);
    SameWords(0x39);
    var w := Words()[i];
    assert t[0] == w[0] == 0x1b;
    assert |t| > 1 ==> t[1] == w[1];
    assert |t| > 2 ==> t[2] == w[2];
    Osc.ParseIsNoFrame(t);
    if i == 0 {
      assert t == FramePrefix()[..|t|];
    }
    hide Osc.PasteImagePayload;
  }

  lemma EndScan(swallow: bool, p: Proxy, ending: Ending)
    requires Idle(p) && Ends(ending)
    ensures Scan(swallow, p, EndBytes(ending)) == Outcome(EndEvents(ending), Keeps(p, ending))
  {
    match ending
    case Done =>
    case Held(t) =>
      HeldToken(swallow, t);
      hide TokenAt, Ends;
    case InFrame(t) =>
      SameWords(0x35);
      assert Osc.Terminator(t) == -1;
      hide Osc.PrivateOscPrefix, Osc.Terminator, Scan;
      FrameSkipped(swallow, p, t);
    case InPaste(body) => OpenPasteScan(swallow, p, body);
  }

  lemma OpenPasteScan(swallow: bool, p: Proxy, body: seq<Byte>)
    requires Idle(p) && Ends(InPaste(body))
    ensures Scan(swallow, p, EndBytes(InPaste(body))) ==
              Outcome(EndEvents(InPaste(body)), Keeps(p, InPaste(body)))
  {
    OpensPaste(swallow, p, body);
    UnclosedIs(body);
    hide Opening, Closing, Scan, Unclosed;
    OpenScan(swallow, p.(active := true), body);
  }

  lemma OpenScan(swallow: bool, open: Proxy, body: seq<Byte>)
    requires Idle(open.(active := false)) && open.active && EndAt(body) == -1
    ensures Scan(swallow, open, body) ==
              Outcome(EndEvents(InPaste(body)), Keeps(open.(active := false), InPaste(body)))
  {
    hide EndAt, Scan;
    assert Combined(open, body) == body;
    if body == [] {
      NothingToScan(swallow, open);
    } else {
      PasteStop(swallow, open, body);
    }
  }

  // ---- The whole input ----

  /** What a reading tells the proxy to do, and what it leaves. */
  function Told(p: Proxy, pieces: seq<Piece>, ending: Ending): Outcome {
    var n := UpToHeld(pieces, p.captures);
    var counted := p.(captures := p.captures + Requests(pieces[..n]));
    if n < |pieces| then Outcome(Meanings(pieces[..n]) + [HoldEnter], counted.(submit := true))
    else Outcome(Meanings(pieces) + EndEvents(ending), Keeps(counted, ending))
  }

  /** What the counts say of one more piece in front. */
  lemma HeldOn(first: Piece, rest: seq<Piece>, captures: nat)
    requires !(first.Enter? && captures > 0)
    ensures var pieces := [first] + rest;
            var more := if RequestsPaste(first) then 1 else 0;
            var k := UpToHeld(rest, captures + more);
            && UpToHeld(pieces, captures) == k + 1
            && captures + Requests(pieces[..k + 1]) == captures + more + Requests(rest[..k])
            && Meanings(pieces[..k + 1]) == Meaning(first) + Meanings(rest[..k])
            && Meanings(pieces) == Meaning(first) + Meanings(rest)
  {
    var pieces := [first] + rest;
    var k := UpToHeld(rest, captures + if RequestsPaste(first) then 1 else 0);
    assert pieces[1..] == rest;
    assert pieces[..k + 1] == [first] + rest[..k];
    FirstCounts(first, rest);
    FirstCounts(first, rest[..k]);
    hide Requests, Meanings, Meaning, RequestsPaste;
  }

  lemma ToldOn(p: Proxy, first: Piece, rest: seq<Piece>, ending: Ending)
    requires !(first.Enter? && p.captures > 0)
    ensures var after := Told(Past(p, first), rest, ending);
            Told(p, [first] + rest, ending) == Outcome(Meaning(first) + after.events, after.proxy)
  {
    hide UpToHeld, Meaning, EndEvents, Keeps, Requests, Meanings, RequestsPaste;
    HeldOn(first, rest, p.captures);
    var k := UpToHeld(rest, Past(p, first).captures);
    Reassociate(Meaning(first), Meanings(rest[..k]), [HoldEnter]);
    Reassociate(Meaning(first), Meanings(rest), EndEvents(ending));
  }

  lemma Reassociate<T>(a: seq<T>, b: seq<T>, c: seq<T>)
    ensures a + (b + c) == (a + b) + c
  {}

  lemma FirstCounts(first: Piece, rest: seq<Piece>)
    ensures Requests([first] + rest) == (if RequestsPaste(first) then 1 else 0) + Requests(rest)
    ensures Meanings([first] + rest) == Meaning(first) + Meanings(rest)
  {
    assert ([first] + rest)[1..] == rest;
  }

  /**
   Whatever the reading of the input, an idle proxy does what its pieces mean, in
   order, and counts their paste requests; an Enter behind a request that has not
   ended is held, and nothing behind it is read.
   */
  lemma {:induction false} ScanMeansThePieces(swallow: bool, p: Proxy, pieces: seq<Piece>, ending: Ending)
    requires Idle(p) && Reading(swallow, pieces, ending)
    ensures Scan(swallow, p, Text(pieces, ending)) == Told(p, pieces, ending)
    decreases |pieces|
  {
    hide Scan, Reads, Meaning, Ends, EndEvents, Keeps, Words;
    if |pieces| == 0 {
      EndScan(swallow, p, ending);
      assert [] + EndEvents(ending) == EndEvents(ending);
    } else if UpToHeld(pieces, p.captures) == 0 {
      HeldEnter(swallow, p, pieces[0].byte, Text(pieces[1..], ending)) by {
        EnterIsOne(swallow, pieces[0], Text(pieces[1..], ending));
      }
      assert pieces[..0] == [];
    } else {
      PieceScan(swallow, p, pieces[0], Text(pieces[1..], ending));
      hide Told, Bytes;
      ScanMeansThePieces(swallow, Past(p, pieces[0]), pieces[1..], ending);
      assert pieces == [pieces[0]] + pieces[1..];
      ToldOn(p, pieces[0], pieces[1..], ending);
    }
  }

  /** The same for a chunk that comes behind bytes that were held. */
  lemma ChunkMeansThePieces(swallow: bool, p: Proxy, data: seq<Byte>, pieces: seq<Piece>, ending: Ending)
    requires Idle(p.(pending := [])) && Reading(swallow, pieces, ending) && Text(pieces, ending) == p.pending + data
    ensures ReadChunk(swallow, p, data) == Told(p.(pending := []), pieces, ending)
  {
    ScanMeansThePieces(swallow, p.(pending := []), pieces, ending);
  }

  /** Bytes that are held and not followed in time are passed on if they begin a paste key, and dropped otherwise. */
  lemma HeldBytesTimeOut(p: Proxy, t: seq<Byte>)
    requires p.pending == t && Ends(Held(t))
    ensures var passed := |t| >= 3 && t[..3] == [0x1b, 0x5b, 0x31];
            && TimeOutEscape(p).proxy == p.(pending := [])
            && |TimeOutEscape(p).events| == (if passed then |t| else 0)
            && forall i :: 0 <= i < |TimeOutEscape(p).events| ==> TimeOutEscape(p).events[i] == Emit(t[i])
  {
    SameWords(0x35);
    if Unfinished(t) {
      assert t[..2] == FramePrefix()[..2];
    } else {
      var i :| 0 <= i < |Words()| && t < Words()[i];
      assert t == Words()[i][..|t|];
    }
  }

  lemma EnterIsOne(swallow: bool, piece: Piece, rest: seq<Byte>)
    requires piece.Enter? && Reads(swallow, piece, rest)
    ensures piece.byte == 0x0d || piece.byte == 0x0a
  {}

  lemma HeldEnter(swallow: bool, p: Proxy, b: Byte, rest: seq<Byte>)
    requires Idle(p) && p.captures > 0 && (b == 0x0d || b == 0x0a)
    ensures Scan(swallow, p, [b] + rest) == Outcome([HoldEnter], p.(submit := true))
  {
    var s := [b] + rest;
    assert s[0] == b && s[1..] == rest;
    var q := p.(submit := true);
    SubmitStays(swallow, q, rest);
    assert MoveAt(swallow, p, s) == Go([HoldEnter], q, 1);
    hide MoveAt, Scan, Settles;
    GoScan(swallow, p, s);
    assert [HoldEnter] + [] == [HoldEnter];
  }

  // ---- Every input has a reading ----

  /** Every input has such a reading, so its meaning is fixed. */
  lemma {:induction false} EveryInputHasAReading(swallow: bool, s: seq<Byte>)
    returns (pieces: seq<Piece>, ending: Ending)
    ensures Reading(swallow, pieces, ending) && Text(pieces, ending) == s
    decreases |s|
  {
    pieces, ending := [], Done;
    if s != [] {
      var first := FirstPiece(swallow, s);
      if first.None? {
        ending := FirstEnding(swallow, s);
      } else {
        var piece := first.value;
        var rest := s[|Bytes(piece)|..];
        var tail;
        tail, ending := EveryInputHasAReading(swallow, rest);
        pieces := [piece] + tail;
        hide Reads, Bytes, Ends, StaysOpen;
        assert pieces[1..] == tail && pieces[0] == piece;
        assert s == Bytes(piece) + rest;
      }
    }
  }

  /** The input is one word cut off, or a frame or paste that is still open. */
  predicate StaysOpen(s: seq<Byte>) {
    || (exists i :: 0 <= i < |Words()| && s < Words()[i])
    || Unfinished(s) || (Opening() <= s && Unclosed(s[6..]))
  }

  lemma FirstEnding(swallow: bool, s: seq<Byte>) returns (ending: Ending)
    requires s != [] && StaysOpen(s)
    ensures Ends(ending) && EndBytes(ending) == s
  {
    if Opening() <= s && Unclosed(s[6..]) {
      ending := InPaste(s[6..]);
    } else if Unfinished(s) && |s| > 160 {
      ending := InFrame(s);
    } else {
      ending := Held(s);
    }
  }

  lemma FirstPiece(swallow: bool, s: seq<Byte>) returns (first: Option<Piece>)
    requires s != []
    ensures match first
            case None => StaysOpen(s)
            case Some(piece) =>
              Bytes(piece) != [] && Bytes(piece) <= s && Reads(swallow, piece, s[|Bytes(piece)|..])
  {
    var b := s[0];
    if b == 0x1b {
      first := FirstWord(swallow, s);
    } else if swallow && b == 0x03 {
      first := Some(Interrupt);
    } else if b == 0x08 || b == 0x7f {
      first := Some(Backspace(b));
    } else if b == 0x16 {
      first := Some(CtrlV);
    } else if b == 0x14 {
      first := Some(CtrlT);
    } else if b == 0x0d || b == 0x0a {
      first := Some(Enter(b));
    } else {
      first := Some(Character(b));
    }
  }

  lemma FirstWord(swallow: bool, s: seq<Byte>) returns (first: Option<Piece>)
    requires s != [] && s[0] == 0x1b
    ensures match first
            case None => StaysOpen(s)
            case Some(piece) =>
              Bytes(piece) != [] && Bytes(piece) <= s && Reads(swallow, piece, s[|Bytes(piece)|..])
  {
    hide Unclosed, Unfinished;
    if FramePrefix() <= s {
      first := FirstFrame(swallow, s);
    } else if Opening() <= s {
      first := FirstPaste(swallow, s);
    } else if KittyV(0x35) <= s {
      first := Some(PasteKey(0x35));
    } else if KittyV(0x36) <= s {
      first := Some(PasteKey(0x36));
    } else if KittyV(0x39) <= s {
      first := Some(PasteKey(0x39));
    } else if BeginsWord(s) {
      first := None;
      var i :| 0 <= i < |Words()| && Compatible(s, Words()[i]);
      assert s < Words()[i];
    } else {
      first := Some(EscapeKey);
      assert [0x1b] + s[1..] == s;
    }
  }

  lemma FirstFrame(swallow: bool, s: seq<Byte>) returns (first: Option<Piece>)
    requires FramePrefix() <= s
    ensures match first
            case None => Unfinished(s)
            case Some(piece) =>
              Bytes(piece) != [] && Bytes(piece) <= s && Reads(swallow, piece, s[|Bytes(piece)|..])
  {
    var t := Osc.Terminator(s);
    if t == -1 {
      first := None;
    } else {
      var body := s[17..t];
      assert s[..t + 1] == FramePrefix() + body + [0x07];
      first := Some(if body == ImageRequest() then PasteImageFrame else OtherFrame(body));
    }
  }

  lemma FirstPaste(swallow: bool, s: seq<Byte>) returns (first: Option<Piece>)
    requires Opening() <= s
    ensures match first
            case None => Unclosed(s[6..])
            case Some(piece) =>
              Bytes(piece) != [] && Bytes(piece) <= s && Reads(swallow, piece, s[|Bytes(piece)|..])
  {
    var c := s[6..];
    SameWords(0x35);
    UnclosedIs(c);
    var t := EndAt(c);
    if t == -1 {
      first := None;
    } else {
      var body := c[..t];
      assert c[t..t + 6] == Closing();
      forall i | 0 <= i <= |body| - 6 ensures !OccursAt(body, Closing(), i) {
        assert c[i..i + 6] == body[i..i + 6];
        assert !OccursAt(c, PasteEnd(), i);
      }
      assert s[..12 + t] == Opening() + body + Closing();
      first := Some(Paste(body));
    }
  }
}
