/**
 Atomic paste markers: a multi-line paste stands in the edit buffer as one short
 marker bound to its payload by an invisible nonce (src/cli/prompt-input.ts).
 */
module PasteMarkers {
  import opened Common

  const NONCE_LENGTH := 16

  /** The supplementary variation selectors nonces are made of. */
  predicate IsNonceChar(c: char) {
    '\U{E0100}' <= c <= '\U{E010F}'
  }

  predicate AllNonce(s: string) {
    forall i :: 0 <= i < |s| ==> IsNonceChar(s[i])
  }

  predicate NoNonce(s: string) {
    forall i :: 0 <= i < |s| ==> !IsNonceChar(s[i])
  }

  function Strip(s: string): string {
    if s == [] then [] else (if IsNonceChar(s[0]) then [] else [s[0]]) + Strip(s[1..])
  }

  // ---- Nonces ----

  type RandomByte = x: int | 0 <= x < 256

  function Nibble(x: int): (c: char)
    requires 0 <= x < 16
    ensures IsNonceChar(c)
  {
    (0xE0100 + x) as char
  }

  /** Two invisible code points for each random byte, high half first. */
  function InvisiblePasteNonce(bytes: seq<RandomByte>): (s: string)
    ensures |s| == 2 * |bytes| && AllNonce(s)
  {
    if bytes == [] then []
    else [Nibble(bytes[0] / 16), Nibble(bytes[0] % 16)] + InvisiblePasteNonce(bytes[1..])
  }

  /** Different random bytes make different nonces. */
  lemma {:induction false} NonceInjective(x: seq<RandomByte>, y: seq<RandomByte>)
    requires InvisiblePasteNonce(x) == InvisiblePasteNonce(y)
    ensures x == y
  {
    if x != [] {
      var s := InvisiblePasteNonce(x);
      assert s[0] == Nibble(x[0] / 16) == Nibble(y[0] / 16);
      assert s[1] == Nibble(x[0] % 16) == Nibble(y[0] % 16);
      assert s[2..] == InvisiblePasteNonce(x[1..]) == InvisiblePasteNonce(y[1..]);
      NonceInjective(x[1..], y[1..]);
      assert x == [x[0]] + x[1..] && y == [y[0]] + y[1..];
    }
  }

  // ---- Issued markers and the line they stand in ----

  datatype Block = Block(title: string, nonce: string, payload: string) {
    function Marker(): string { title + nonce + " " }

    predicate WellFormed() {
      title != [] && NoNonce(title) && |nonce| == NONCE_LENGTH && AllNonce(nonce)
    }
  }

  predicate Issued(blocks: seq<Block>) {
    && (forall k :: 0 <= k < |blocks| ==> blocks[k].WellFormed())
    && (forall j, k :: 0 <= j < k < |blocks| ==> blocks[j].nonce != blocks[k].nonce)
  }

  /** A marker and the text typed after it. */
  datatype Piece = Piece(which: nat, typed: string)

  predicate Placed(blocks: seq<Block>, pieces: seq<Piece>) {
    forall j :: 0 <= j < |pieces| ==> pieces[j].which < |blocks|
  }

  /** No issued nonce was typed by hand. */
  ghost predicate TypedApart(blocks: seq<Block>, text: string) {
    forall k, i :: 0 <= k < |blocks| ==> !OccursAt(text, blocks[k].nonce, i)
  }

  function Line(blocks: seq<Block>, head: string, pieces: seq<Piece>): string
    requires Placed(blocks, pieces)
    decreases |pieces|
  {
    if |pieces| == 0 then head
    else head + blocks[pieces[0].which].Marker() + Line(blocks, pieces[0].typed, pieces[1..])
  }

  /** What the line stands for. */
  function Meaning(blocks: seq<Block>, head: string, pieces: seq<Piece>): string
    requires Placed(blocks, pieces)
    decreases |pieces|
  {
    if |pieces| == 0 then Strip(head)
    else Strip(head) + blocks[pieces[0].which].payload + Meaning(blocks, pieces[0].typed, pieces[1..])
  }

  // ---- Expansion ----

  datatype Hit = NoHit | Hit(index: nat, which: nat)

  /** The leftmost marker in `value`; of two at one place, the one issued first. */
  function FirstHit(blocks: seq<Block>, value: string): (hit: Hit)
    ensures hit.NoHit? ==> forall k, i :: 0 <= k < |blocks| ==> !OccursAt(value, blocks[k].Marker(), i)
    ensures hit.Hit? ==> hit.which < |blocks| && OccursAt(value, blocks[hit.which].Marker(), hit.index)
    ensures hit.Hit? ==> forall k, i :: 0 <= k < |blocks| && OccursAt(value, blocks[k].Marker(), i) ==>
                           hit.index < i || (hit.index == i && hit.which <= k)
  {
    if |blocks| == 0 then NoHit
    else
      var last := |blocks| - 1;
      Better(FirstHit(blocks[..last], value), IndexOf(value, blocks[last].Marker(), 0), last)
  }

  function Better(best: Hit, index: int, which: nat): Hit
    requires index >= -1
  {
    if index >= 0 && (best.NoHit? || index < best.index) then Hit(index, which) else best
  }

  function Expand(blocks: seq<Block>, value: string): string
    decreases |value|
  {
    match FirstHit(blocks, value)
    case NoHit => Strip(value)
    case Hit(index, which) =>
      var marker := blocks[which].Marker();
      Strip(value[..index]) + blocks[which].payload + Expand(blocks, value[index + |marker|..])
  }

  /**
   A run of nonce code points as long as a nonce lies inside the text before a
   marker, is the marker's own nonce, or lies behind the marker: the title
   before and the blank behind a nonce keep runs apart.
   */
  lemma NonceRun(head: string, b: Block, rest: string, w: string, q: nat)
    requires b.WellFormed() && |w| == NONCE_LENGTH && AllNonce(w)
    requires OccursAt(head + b.Marker() + rest, w, q)
    ensures || OccursAt(head, w, q)
            || (q == |head| + |b.title| && w == b.nonce)
            || q >= |head| + |b.Marker()|
  {
    var line, blank := head + b.Marker() + rest, |head| + |b.title| + NONCE_LENGTH;
    forall i | q <= i < q + NONCE_LENGTH ensures IsNonceChar(line[i]) {
      OccursIndex(line, w, q, i - q);
    }
    assert line[blank] == ' ' && !IsNonceChar(' ');
    assert line[|head|] == b.title[0];
    assert forall i :: |head| <= i < |head| + |b.title| ==> line[i] == b.title[i - |head|];
    if q + NONCE_LENGTH <= |head| {
      assert line[q..q + NONCE_LENGTH] == head[q..q + NONCE_LENGTH];
    }
    assert line[|head| + |b.title|..blank] == b.nonce;
    var first := line[q];
    assert IsNonceChar(first);
  }

  lemma FirstPiece(blocks: seq<Block>, head: string, pieces: seq<Piece>)
    requires Placed(blocks, pieces) && |pieces| > 0
    ensures pieces[0].which < |blocks| && Placed(blocks, pieces[1..])
    ensures Line(blocks, head, pieces) ==
            head + blocks[pieces[0].which].Marker() + Line(blocks, pieces[0].typed, pieces[1..])
  {
  }

  lemma IssuedBlocks(blocks: seq<Block>, j: nat, k: nat)
    requires Issued(blocks) && j < |blocks| && k < |blocks|
    ensures blocks[j].WellFormed() && blocks[k].WellFormed()
    ensures |blocks[j].nonce| == NONCE_LENGTH && AllNonce(blocks[j].nonce)
    ensures blocks[j].nonce == blocks[k].nonce ==> j == k
  {
  }

  lemma ApartFrom(blocks: seq<Block>, head: string, k: nat)
    requires TypedApart(blocks, head) && k < |blocks|
    ensures forall i :: !OccursAt(head, blocks[k].nonce, i)
  {
  }

  /** No marker occurs before the first one placed, and at its place only that one. */
  lemma MarkerOccurrence(blocks: seq<Block>, head: string, pieces: seq<Piece>, k: nat, i: int)
    requires Issued(blocks) && Placed(blocks, pieces) && TypedApart(blocks, head)
    requires k < |blocks| && OccursAt(Line(blocks, head, pieces), blocks[k].Marker(), i)
    ensures |pieces| > 0
    ensures i > |head| || (i == |head| && k == pieces[0].which)
  {
    hide *;
    ApartFrom(blocks, head, k);
    IssuedBlocks(blocks, k, k);
    var c := blocks[k];
    var q := i + |c.title|;
    NonceInsideMarker(Line(blocks, head, pieces), c, i);
    if |pieces| == 0 {
      LineWithoutMarkers(blocks, head, pieces);
    } else {
      FirstPiece(blocks, head, pieces);
      IssuedBlocks(blocks, k, pieces[0].which);
      var b := blocks[pieces[0].which];
      var rest := Line(blocks, pieces[0].typed, pieces[1..]);
      NonceRun(head, b, rest, c.nonce, q);
      if q >= |head| + |b.Marker()| { TitleSkipsNonce(head, b, rest, c, i); }
    }
  }

  lemma LineWithoutMarkers(blocks: seq<Block>, head: string, pieces: seq<Piece>)
    requires Placed(blocks, pieces) && |pieces| == 0
    ensures Line(blocks, head, pieces) == head
  {
  }

  lemma NonceInsideMarker(line: string, c: Block, i: int)
    requires c.WellFormed() && OccursAt(line, c.Marker(), i)
    ensures OccursAt(line, c.nonce, i + |c.title|)
  {
    assert c.Marker()[|c.title|..|c.title| + NONCE_LENGTH] == c.nonce;
    OccursInside(line, c.Marker(), c.nonce, i, |c.title|);
  }

  lemma TitleOccurs(line: string, c: Block, i: int)
    requires OccursAt(line, c.Marker(), i)
    ensures forall j {:trigger line[j]} :: i <= j < i + |c.title| ==> line[j] == c.title[j - i]
  {
    assert forall j :: 0 <= j < |c.title| ==> c.Marker()[j] == c.title[j];
    assert forall j :: i <= j < i + |c.title| ==> line[j] == line[i..i + |c.Marker()|][j - i];
  }

  /** A marker read from inside another marker would have nonce code points in its title. */
  lemma TitleSkipsNonce(head: string, b: Block, rest: string, c: Block, i: int)
    requires b.WellFormed() && c.WellFormed() && OccursAt(head + b.Marker() + rest, c.Marker(), i)
    requires i + |c.title| >= |head| + |b.Marker()|
    ensures i > |head|
  {
    var line, m := head + b.Marker() + rest, c.Marker();
    var p := |head| + |b.title|;
    assert line[p] == b.Marker()[|b.title|] == b.nonce[0];
    TitleOccurs(line, c, i);
  }

  /** The leftmost marker of a line is the first one placed. */
  lemma FirstHitIsFirstPiece(blocks: seq<Block>, head: string, pieces: seq<Piece>)
    requires Issued(blocks) && Placed(blocks, pieces) && TypedApart(blocks, head)
    ensures FirstHit(blocks, Line(blocks, head, pieces)) ==
            if |pieces| == 0 then NoHit else Hit(|head|, pieces[0].which)
  {
    hide Line, FirstHit, Block.Marker, OccursAt;
    var line := Line(blocks, head, pieces);
    var hit := FirstHit(blocks, line);
    if |pieces| > 0 {
      PlacedMarkerOccurs(blocks, head, pieces);
    }
    if hit.Hit? {
      MarkerOccurrence(blocks, head, pieces, hit.which, hit.index);
    }
  }

  lemma PlacedMarkerOccurs(blocks: seq<Block>, head: string, pieces: seq<Piece>)
    requires Placed(blocks, pieces) && |pieces| > 0
    ensures var m := blocks[pieces[0].which].Marker();
            var line := Line(blocks, head, pieces);
            && OccursAt(line, m, |head|)
            && line[..|head|] == head
            && line[|head| + |m|..] == Line(blocks, pieces[0].typed, pieces[1..])
  {
    var m := blocks[pieces[0].which].Marker();
    var line := Line(blocks, head, pieces);
    assert line[|head|..|head| + |m|] == m;
  }

  /**
   The submitted text is the typed text without nonce code points, with each
   marker replaced by its payload at its place; payloads are never searched for
   further markers.
   */
  lemma {:induction false} ExpansionIsTheMeaning(blocks: seq<Block>, head: string, pieces: seq<Piece>)
    requires Issued(blocks) && Placed(blocks, pieces) && TypedApart(blocks, head)
    requires forall j :: 0 <= j < |pieces| ==> TypedApart(blocks, pieces[j].typed)
    ensures Expand(blocks, Line(blocks, head, pieces)) == Meaning(blocks, head, pieces)
    decreases |pieces|
  {
    hide TypedApart, FirstHit, Block.Marker, OccursAt, Strip;
    FirstHitIsFirstPiece(blocks, head, pieces);
    if |pieces| > 0 {
      PlacedMarkerOccurs(blocks, head, pieces);
      ExpansionIsTheMeaning(blocks, pieces[0].typed, pieces[1..]);
    }
  }

  // ---- Issuing ----

  function Digit(d: int): char
    requires 0 <= d < 10
    ensures !IsNonceChar(Digit(d))
  {
    ('0' as int + d) as char
  }

  function Decimal(n: nat): (s: string)
    ensures NoNonce(s)
  {
    if n < 10 then [Digit(n)] else Decimal(n / 10) + [Digit(n % 10)]
  }

  function LineBreaks(text: string): nat {
    if text == [] then 0 else (if text[0] == '\n' then 1 else 0) + LineBreaks(text[1..])
  }

  /** The visible part of a marker. */
  function Title(sequence: nat, lineCount: nat): (s: string)
    ensures s != [] && NoNonce(s)
  {
    var a, b, c := " [Pasted text #", " \U{00B7} ", if lineCount == 1 then " line]" else " lines]";
    assert NoNonce(a) && NoNonce(b) && NoNonce(c);
    a + Decimal(sequence) + b + Decimal(lineCount) + c
  }

  /** The number in a title is that of the lines between line breaks. */
  lemma {:induction false} LineBreaksAreBetweenLines(text: string)
    ensures LineBreaks(text) + 1 == |Split(text, '\n')|
    decreases |text|
  {
    if text != "" { LineBreaksAreBetweenLines(text[1..]); }
  }

  /** A title speaks of one line exactly when there is one. */
  lemma TitleIsSingularIff(sequence: nat, lineCount: nat)
    ensures var title := Title(sequence, lineCount);
            && " [Pasted text #" <= title
            && (title[|title| - 2] == 'e' <==> lineCount == 1)
  {}

  lemma {:induction false} StripLeavesNoNonce(s: string)
    ensures NoNonce(Strip(s))
    decreases |s|
  {
    if s != "" { StripLeavesNoNonce(s[1..]); }
  }

  lemma {:induction false} StripKeepsTheRest(s: string)
    ensures NoNonce(s) ==> Strip(s) == s
    ensures AllNonce(s) ==> Strip(s) == ""
    decreases |s|
  {
    if s != "" {
      StripKeepsTheRest(s[1..]);
      assert [s[0]] + s[1..] == s;
    }
  }

  /** Taking the nonces out leaves everything else, in order. */
  lemma {:induction false} StripIsPiecewise(a: string, b: string)
    ensures Strip(a + b) == Strip(a) + Strip(b)
    decreases |a|
  {
    if a == "" {
      assert a + b == b;
    } else {
      assert (a + b)[1..] == a[1..] + b;
      StripIsPiecewise(a[1..], b);
      hide IsNonceChar;
    }
  }

  predicate NeedsMarker(text: string) {
    '\n' in text || '\t' in text
  }

  // ---- The registry of one draft ----

  datatype Edit = Edit(line: string, cursor: nat)

  predicate EndsAt(value: string, cursor: int, marker: string) {
    |marker| <= cursor <= |value| && value[cursor - |marker|..cursor] == marker
  }

  /** `edit` is `value` without the `marker` that ends at the cursor, the cursor where it began. */
  predicate TakesOut(value: string, cursor: int, marker: string, edit: Edit) {
    && marker != "" && EndsAt(value, cursor, marker)
    && edit == Edit(value[..cursor - |marker|] + value[cursor..], cursor - |marker|)
  }

  /** The markers of the current draft and the payloads they stand for. */
  class MarkerRegistry {
    /** Pasted text blocks, oldest first. */
    var pastedTextBlocks: seq<Block>
    var imageMarkers: seq<string>
    var pendingMarkers: seq<string>
    var pastedTextSequence: nat

    ghost predicate Valid()
      reads this
    {
      Issued(pastedTextBlocks)
    }

    constructor ()
      ensures Valid() && pastedTextBlocks == [] && pastedTextSequence == 0
    {
      pastedTextBlocks, imageMarkers, pendingMarkers, pastedTextSequence := [], [], [], 0;
    }

    /** The leftmost marker of `value`, looking through the blocks one by one. */
    method FindNext(value: string) returns (next: Hit)
      ensures next == FirstHit(pastedTextBlocks, value)
    {
      next := NoHit;
      for k := 0 to |pastedTextBlocks|
        invariant next == FirstHit(pastedTextBlocks[..k], value)
      {
        var index := IndexOf(value, pastedTextBlocks[k].Marker(), 0);
        assert pastedTextBlocks[..k + 1][..k] == pastedTextBlocks[..k];
        if index >= 0 && (next.NoHit? || index < next.index) {
          next := Hit(index, k);
        }
      }
      assert pastedTextBlocks[..|pastedTextBlocks|] == pastedTextBlocks;
    }

    /** The text a submitted line stands for; `rest` is the line from the current offset on. */
    method ExpandPastedText(value: string) returns (expanded: string)
      ensures expanded == Expand(pastedTextBlocks, value)
    {
      expanded := "";
      var rest := value;
      while true
        invariant Expand(pastedTextBlocks, value) == expanded + Expand(pastedTextBlocks, rest)
        decreases |rest|
      {
        var next := FindNext(rest);
        if next.NoHit? {
          expanded := expanded + Strip(rest);
          return;
        }
        var block := pastedTextBlocks[next.which];
        var tail := rest[next.index + |block.Marker()|..];
        assert expanded + Expand(pastedTextBlocks, rest)
            == (expanded + Strip(rest[..next.index]) + block.payload) + Expand(pastedTextBlocks, tail);
        expanded := expanded + Strip(rest[..next.index]);
        expanded := expanded + block.payload;
        rest := tail;
      }
    }

    /** Delete the marker that ends at the cursor, the longest if several do. */
    method CollapseMarkerBefore(value: string, cursor: int) returns (r: Option<Edit>)
      ensures r.Some? ==> exists m :: m in Markers() && TakesOut(value, cursor, m, r.value)
                                      && forall n :: n in Markers() && EndsAt(value, cursor, n) ==> |n| <= |m|
      ensures r.None? ==> forall n :: n in Markers() && n != [] ==> !EndsAt(value, cursor, n)
    {
      if cursor <= 0 || cursor > |value| {
        return None;
      }
      var markers := Markers();
      var matched := "";
      for k := 0 to |markers|
        invariant matched == "" || (matched in markers && EndsAt(value, cursor, matched))
        invariant forall n :: n in markers[..k] && EndsAt(value, cursor, n) ==> |n| <= |matched|
      {
        if |markers[k]| > |matched| && EndsAt(value, cursor, markers[k]) {
          matched := markers[k];
        }
      }
      assert markers[..|markers|] == markers;
      if matched == "" {
        return None;
      }
      var start := cursor - |matched|;
      r := Some(Edit(value[..start] + value[cursor..], start));
      assert TakesOut(value, cursor, matched, r.value);
    }

    function Markers(): seq<string>
      reads this
    {
      BlockMarkers(pastedTextBlocks) + imageMarkers + pendingMarkers
    }

    /** Put pasted text into the edit buffer: as it is, or as a marker when it has line breaks or tabs. */
    method PastedTextForPrompt(normalized: string, nonce: string) returns (r: Result<string, string>)
      requires Valid()
      requires |nonce| == NONCE_LENGTH && AllNonce(nonce)
      requires forall k :: 0 <= k < |pastedTextBlocks| ==> pastedTextBlocks[k].nonce != nonce
      modifies this`pastedTextBlocks, this`pastedTextSequence
      ensures Valid()
      ensures r.Err? <==> Units(normalized) > MAX_CLIPBOARD_TEXT_CHARS
      ensures r.Ok? && !NeedsMarker(normalized) ==> r.value == normalized
      ensures r.Ok? && NeedsMarker(normalized) ==>
                && |pastedTextBlocks| == |old(pastedTextBlocks)| + 1
                && pastedTextBlocks[..|old(pastedTextBlocks)|] == old(pastedTextBlocks)
                && var issued := pastedTextBlocks[|old(pastedTextBlocks)|];
                   issued.payload == normalized && issued.nonce == nonce && issued.Marker() == r.value
      ensures r.Err? || !NeedsMarker(normalized) ==>
                pastedTextBlocks == old(pastedTextBlocks) && pastedTextSequence == old(pastedTextSequence)
    {
      if Units(normalized) > MAX_CLIPBOARD_TEXT_CHARS {
        return Err("Pasted text exceeds the 256 KiB input limit.");
      }
      if !NeedsMarker(normalized) {
        return Ok(normalized);
      }
      pastedTextSequence := pastedTextSequence + 1;
      var lineCount := LineBreaks(normalized) + 1;
      var block := Block(Title(pastedTextSequence, lineCount), nonce, normalized);
      pastedTextBlocks := pastedTextBlocks + [block];
      return Ok(block.Marker());
    }

    /** A line is taken: its text is expanded, and no marker of the draft is known any more. */
    method ConsumeSubmission(value: string) returns (text: string)
      requires Valid()
      modifies this`pastedTextBlocks, this`imageMarkers, this`pendingMarkers
      ensures Valid() && text == Expand(old(pastedTextBlocks), value) && Markers() == []
    {
      text := ExpandPastedText(value);
      pastedTextBlocks, imageMarkers, pendingMarkers := [], [], [];
    }
  }

  function BlockMarkers(blocks: seq<Block>): seq<string> {
    if |blocks| == 0 then [] else [blocks[0].Marker()] + BlockMarkers(blocks[1..])
  }

  /** The markers of the pasted blocks, oldest first, are what a Backspace may take out of them. */
  lemma {:induction false} BlockMarkersAre(blocks: seq<Block>)
    ensures |BlockMarkers(blocks)| == |blocks|
    ensures forall k :: 0 <= k < |blocks| ==> BlockMarkers(blocks)[k] == blocks[k].Marker()
    decreases |blocks|
  {
    if |blocks| > 0 { BlockMarkersAre(blocks[1..]); }
  }
}
