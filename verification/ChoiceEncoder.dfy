/**
 The choice encoding of the local decision model and the trimming of its input
 (resources/laya-decision/runtime.py and worker.py).

 The tokenizer is a pair of arbitrary functions; `Sound` states what is assumed
 of it.
 */
module ChoiceEncoder {
  import opened Common

  type Token = int

  datatype Tokenizer = Tokenizer(
    maskToken: string,
    maskId: Token,
    clsId: Token,
    sepId: Token,
    encode: string -> seq<Token>,
    decode: seq<Token> -> string)

  predicate Contains(text: string, word: string) {
    IndexOf(text, word, 0) != -1
  }

  predicate NoBlank(word: string) {
    forall i :: 0 <= i < |word| ==> word[i] != ' '
  }

  const HEAD := "choice question: "

  /**
   The mask id comes only from the mask token; the mask token is one visible
   word that the fixed head does not contain; no text gives no tokens.
   */
  ghost predicate Sound(tok: Tokenizer) {
    && tok.maskToken != "" && NoBlank(tok.maskToken)
    && !Contains(HEAD, tok.maskToken)
    && tok.maskId != tok.clsId && tok.maskId != tok.sepId
    && tok.encode("") == []
    && forall text :: !Contains(text, tok.maskToken) ==> tok.maskId !in tok.encode(text)
  }

  // ---- Replacing the mask token ----

  /** `value.replace(mask, " ")`: leftmost occurrences, without overlap. */
  function Clean(text: string, mask: string): string
    requires mask != ""
    decreases |text|
  {
    if text == "" then ""
    else if mask <= text then " " + Clean(text[|mask|..], mask)
    else [text[0]] + Clean(text[1..], mask)
  }

  /** A cleaned text starts with a word without blanks only if the text did. */
  lemma {:induction false} CleanStart(text: string, mask: string, word: string)
    requires mask != "" && NoBlank(word)
    requires word <= Clean(text, mask)
    ensures word <= text
    decreases |text|
  {
    assert word == "" || word[0] == Clean(text, mask)[0];
    if word != "" && text != "" && !(mask <= text) {
      var rest := Clean(text[1..], mask);
      assert Clean(text, mask)[1..] == rest;
      assert word[1..] == Clean(text, mask)[..|word|][1..] == rest[..|word| - 1];
      CleanStart(text[1..], mask, word[1..]);
      assert word == [word[0]] + word[1..] && text == [text[0]] + text[1..];
    }
  }

  /** Replacing an occurrence by a blank cannot create another one. */
  lemma {:induction false} CleanHasNoMask(text: string, mask: string, i: nat)
    requires mask != "" && NoBlank(mask)
    ensures !OccursAt(Clean(text, mask), mask, i)
    decreases |text|
  {
    var cleaned := Clean(text, mask);
    if OccursAt(cleaned, mask, i) && i == 0 {
      assert cleaned[0] == cleaned[..|mask|][0] == mask[0];
      CleanStart(text, mask, mask);
    } else if OccursAt(cleaned, mask, i) {
      var n := if mask <= text then |mask| else 1;
      var rest := Clean(text[n..], mask);
      assert cleaned[1..] == rest;
      assert rest[i - 1..i - 1 + |mask|] == cleaned[i..i + |mask|];
      CleanHasNoMask(text[n..], mask, i - 1);
    }
  }

  /** Text put behind a blank keeps free of a word without blanks. */
  lemma JoinedAtBlank(before: string, text: string, word: string)
    requires word != "" && NoBlank(word)
    requires before != "" && before[|before| - 1] == ' '
    requires !Contains(before, word) && !Contains(text, word)
    ensures !Contains(before + text, word)
  {
    var all := before + text;
    var i := IndexOf(all, word, 0);
    if i != -1 {
      var blank := |before| - 1;
      assert all[i..i + |word|] == word;
      if i + |word| <= |before| {
        assert before[i..i + |word|] == all[i..i + |word|];
        assert OccursAt(before, word, i);
      } else if i >= |before| {
        assert text[i - |before|..i - |before| + |word|] == all[i..i + |word|];
        assert OccursAt(text, word, i - |before|);
      } else {
        OccursIndex(all, word, i, blank - i);
      }
    }
  }

  /** Cleaned text, alone or behind a blank, yields no mask id. */
  lemma CleanedTokens(tok: Tokenizer, before: string, text: string)
    requires Sound(tok)
    requires before == "" || (before[|before| - 1] == ' ' && !Contains(before, tok.maskToken))
    ensures tok.maskId !in tok.encode(before + Clean(text, tok.maskToken))
  {
    var cleaned := Clean(text, tok.maskToken);
    forall i: nat ensures !OccursAt(cleaned, tok.maskToken, i) { CleanHasNoMask(text, tok.maskToken, i); }
    if before == "" {
      assert before + cleaned == cleaned;
    } else {
      JoinedAtBlank(before, cleaned, tok.maskToken);
    }
  }

  // ---- The sequence ----

  datatype Question = Question(isChoice: bool, ins: string, crit: seq<(string, Option<string>)>)

  datatype Encoded = Encoded(ids: seq<Token>, markers: seq<nat>)

  datatype Error = NotAChoiceTask | NotAPermutation | HeaderOverBudget | NoRoomForInput | CannotKeepBothEnds

  function Take<T>(s: seq<T>, n: nat): seq<T> {
    if n < |s| then s[..n] else s
  }

  function Max(a: int, b: int): int { if a > b then a else b }

  function OptionText(option: (string, Option<string>)): string {
    if option.1.None? || option.1.value == "" then option.0 else option.0 + ": " + option.1.value
  }

  predicate IsPermutation(order: seq<nat>, n: nat) {
    && |order| == n
    && (forall i :: 0 <= i < n ==> order[i] < n)
    && (forall i, j :: 0 <= i < j < n ==> order[i] != order[j])
  }

  const MAX_CHOICE_TOKENS := 48

  function ChoiceTokens(tok: Tokenizer, option: (string, Option<string>)): (c: seq<Token>)
    requires tok.maskToken != ""
    ensures |c| > 0 && c[0] == tok.maskId
  {
    [tok.maskId] + Take(tok.encode(" " + Clean(OptionText(option), tok.maskToken)), MAX_CHOICE_TOKENS)
  }

  function AllChoices(tok: Tokenizer, crit: seq<(string, Option<string>)>, order: seq<nat>): (cs: seq<seq<Token>>)
    requires tok.maskToken != "" && forall i :: 0 <= i < |order| ==> order[i] < |crit|
    ensures |cs| == |order|
  {
    if |order| == 0 then [] else [ChoiceTokens(tok, crit[order[0]])] + AllChoices(tok, crit, order[1..])
  }

  function TotalLength(choices: seq<seq<Token>>): nat {
    if |choices| == 0 then 0 else |choices[0]| + TotalLength(choices[1..])
  }

  function CutEach(choices: seq<seq<Token>>, per: nat): (cs: seq<seq<Token>>)
    ensures |cs| == |choices|
  {
    if |choices| == 0 then [] else [Take(choices[0], per)] + CutEach(choices[1..], per)
  }

  /** Choices as they fit: cut to an equal share when the head would get under 16 tokens. */
  function FitChoices(choices: seq<seq<Token>>, headMaxLen: int): (cs: seq<seq<Token>>)
    requires |choices| > 0
    ensures |cs| == |choices|
  {
    if headMaxLen - TotalLength(choices) < 16 then CutEach(choices, Max(4, (headMaxLen - 16) / |choices|)) else choices
  }

  function MarkerPositions(start: nat, choices: seq<seq<Token>>): seq<nat>
    decreases |choices|
  {
    if |choices| == 0 then [] else [start] + MarkerPositions(start + |choices[0]|, choices[1..])
  }

  function Below(markers: seq<nat>, limit: nat): seq<nat> {
    if markers == [] then [] else (if markers[0] < limit then [markers[0]] else []) + Below(markers[1..], limit)
  }

  /** What stands before the choices. */
  function Opening(tok: Tokenizer, q: Question, choices: seq<seq<Token>>, headMaxLen: int): seq<Token>
    requires tok.maskToken != ""
  {
    [tok.clsId]
    + Take(tok.encode(HEAD + Clean(q.ins, tok.maskToken)), Max(8, headMaxLen - TotalLength(choices)))
    + [tok.sepId]
  }

  function FittedChoices(tok: Tokenizer, q: Question, headMaxLen: int, order: seq<nat>): seq<seq<Token>>
    requires tok.maskToken != "" && |order| > 0 && forall i :: 0 <= i < |order| ==> order[i] < |q.crit|
  {
    FitChoices(AllChoices(tok, q.crit, order), headMaxLen)
  }

  /** The part of the sequence that does not depend on the input. */
  function Header(tok: Tokenizer, q: Question, headMaxLen: int, order: seq<nat>): seq<Token>
    requires tok.maskToken != "" && |order| > 0 && forall i :: 0 <= i < |order| ==> order[i] < |q.crit|
  {
    var choices := FittedChoices(tok, q, headMaxLen, order);
    Opening(tok, q, choices, headMaxLen) + Flatten(choices) + [tok.sepId]
  }

  function HeaderMarkers(tok: Tokenizer, q: Question, headMaxLen: int, order: seq<nat>): seq<nat>
    requires tok.maskToken != "" && |order| > 0 && forall i :: 0 <= i < |order| ==> order[i] < |q.crit|
  {
    var choices := FittedChoices(tok, q, headMaxLen, order);
    MarkerPositions(|Opening(tok, q, choices, headMaxLen)|, choices)
  }

  predicate Accepted(q: Question, order: seq<nat>) {
    q.isChoice && |q.crit| >= 2 && IsPermutation(order, |q.crit|)
  }

  function InOrder(n: nat): (order: seq<nat>)
    ensures IsPermutation(order, n)
  {
    seq(n, i => i)
  }

  /** The input tokens that are kept. */
  function Room(maxLen: nat, header: nat): nat {
    if maxLen - header - 1 > 0 then maxLen - header - 1 else 0
  }

  function Encode(tok: Tokenizer, state: string, q: Question, maxLen: nat, headMaxLen: int, order: seq<nat>): Encoded
    requires tok.maskToken != "" && Accepted(q, order)
  {
    var header := Header(tok, q, headMaxLen, order);
    var input := Take(tok.encode(Clean(state, tok.maskToken)), Room(maxLen, |header|));
    Encoded(Take(header + input + [tok.sepId], maxLen), Below(HeaderMarkers(tok, q, headMaxLen, order), maxLen))
  }

  function Built(tok: Tokenizer, state: string, q: Question, maxLen: nat, headMaxLen: int, order: seq<nat>):
    Result<Encoded, Error>
    requires tok.maskToken != ""
  {
    if !q.isChoice then Err(NotAChoiceTask)
    else if !Accepted(q, order) then Err(NotAPermutation)
    else Ok(Encode(tok, state, q, maxLen, headMaxLen, order))
  }

  /** Append every choice and note where it begins. */
  method AppendChoices(opening: seq<Token>, choices: seq<seq<Token>>) returns (ids: seq<Token>, markers: seq<nat>)
    ensures ids == opening + Flatten(choices) && markers == MarkerPositions(|opening|, choices)
  {
    ids, markers := opening, [];
    var rest := choices;
    while |rest| > 0
      invariant ids + Flatten(rest) == opening + Flatten(choices)
      invariant markers + MarkerPositions(|ids|, rest) == MarkerPositions(|opening|, choices)
      decreases |rest|
    {
      assert ids + Flatten(rest) == (ids + rest[0]) + Flatten(rest[1..]);
      assert markers + MarkerPositions(|ids|, rest) ==
               (markers + [|ids|]) + MarkerPositions(|ids| + |rest[0]|, rest[1..]);
      markers := markers + [|ids|];
      ids := ids + rest[0];
      rest := rest[1..];
    }
  }

  /** Build the token sequence of one decision, growing it choice by choice. */
  method BuildSequence(tok: Tokenizer, state: string, q: Question, maxLen: nat, headMaxLen: int,
      optionOrder: Option<seq<nat>>)
    returns (r: Result<Encoded, Error>)
    requires tok.maskToken != ""
    ensures r == Built(tok, state, q, maxLen, headMaxLen,
                       if optionOrder.Some? then optionOrder.value else InOrder(|q.crit|))
  {
    hide Clean, AllChoices, CutEach, TotalLength, Below, Take, Flatten, MarkerPositions;
    if !q.isChoice {
      return Err(NotAChoiceTask);
    }
    var order := if optionOrder.None? then InOrder(|q.crit|) else optionOrder.value;
    if !IsPermutation(order, |q.crit|) || |q.crit| < 2 {
      return Err(NotAPermutation);
    }
    var head := tok.encode(HEAD + Clean(q.ins, tok.maskToken));
    var choices := AllChoices(tok, q.crit, order);
    var budget := headMaxLen - TotalLength(choices);
    if budget < 16 {
      var per := Max(4, (headMaxLen - 16) / |choices|);
      choices := CutEach(choices, per);
      budget := headMaxLen - TotalLength(choices);
    }
    var ids := [tok.clsId] + Take(head, Max(8, budget)) + [tok.sepId];
    var markers;
    ids, markers := AppendChoices(ids, choices);
    ids := ids + [tok.sepId];
    var room := Room(maxLen, |ids|);
    ids := ids + Take(tok.encode(Clean(state, tok.maskToken)), room) + [tok.sepId];
    return Ok(Encoded(Take(ids, maxLen), Below(markers, maxLen)));
  }

  // ---- Masks stand exactly at the markers ----

  predicate Ascending(ms: seq<nat>) {
    forall i, j :: 0 <= i < j < |ms| ==> ms[i] < ms[j]
  }

  /** A choice: the mask, then tokens that are not masks. */
  predicate OneMask(mask: Token, c: seq<Token>) {
    |c| > 0 && c[0] == mask && forall i :: 0 < i < |c| ==> c[i] != mask
  }

  predicate EachOneMask(mask: Token, choices: seq<seq<Token>>) {
    forall k :: 0 <= k < |choices| ==> OneMask(mask, choices[k])
  }

  lemma {:induction false} FittedHaveOneMask(tok: Tokenizer, q: Question, headMaxLen: int, order: seq<nat>)
    requires Sound(tok) && |order| > 0 && forall i :: 0 <= i < |order| ==> order[i] < |q.crit|
    ensures EachOneMask(tok.maskId, FittedChoices(tok, q, headMaxLen, order))
  {
    var choices := AllChoices(tok, q.crit, order);
    ChoicesHaveOneMask(tok, q.crit, order);
    CutKeepsMasks(tok.maskId, choices, Max(4, (headMaxLen - 16) / |choices|));
  }

  lemma {:induction false} ChoicesHaveOneMask(tok: Tokenizer, crit: seq<(string, Option<string>)>, order: seq<nat>)
    requires Sound(tok) && forall i :: 0 <= i < |order| ==> order[i] < |crit|
    ensures EachOneMask(tok.maskId, AllChoices(tok, crit, order))
    decreases |order|
  {
    if |order| > 0 {
      var text := OptionText(crit[order[0]]);
      assert !Contains(" ", tok.maskToken) by { BlankHasNoWord(tok.maskToken); }
      CleanedTokens(tok, " ", text);
      ChoicesHaveOneMask(tok, crit, order[1..]);
    }
  }

  lemma BlankHasNoWord(word: string)
    requires word != "" && NoBlank(word)
    ensures !Contains(" ", word)
  {
    if OccursAt(" ", word, 0) { OccursIndex(" ", word, 0, 0); }
  }

  lemma {:induction false} CutKeepsMasks(mask: Token, choices: seq<seq<Token>>, per: nat)
    requires EachOneMask(mask, choices) && per > 0
    ensures EachOneMask(mask, CutEach(choices, per))
    decreases |choices|
  {
    if |choices| > 0 {
      assert EachOneMask(mask, choices[1..]);
      CutKeepsMasks(mask, choices[1..], per);
    }
  }

  /** Marker positions ascend from `start` and stay inside the concatenation. */
  lemma {:induction false} PositionsAscend(mask: Token, start: nat, choices: seq<seq<Token>>)
    requires EachOneMask(mask, choices)
    ensures var ms := MarkerPositions(start, choices);
            && |ms| == |choices| && Ascending(ms)
            && (forall m :: m in ms ==> start <= m < start + |Flatten(choices)|)
    decreases |choices|
  {
    if |choices| > 0 {
      PositionsAscend(mask, start + |choices[0]|, choices[1..]);
      var ms := MarkerPositions(start + |choices[0]|, choices[1..]);
      assert forall i :: 0 <= i < |ms| ==> ms[i] in ms;
    }
  }

  lemma MasksOfFirst(mask: Token, start: nat, first: seq<Token>, rest: seq<Token>, later: seq<nat>, i: nat)
    requires OneMask(mask, first) && i < |first + rest|
    requires forall m :: m in later ==> m >= start + |first|
    ensures if i < |first| then (first + rest)[i] == mask <==> start + i in [start] + later
            else (first + rest)[i] == rest[i - |first|] && (start + i in [start] + later <==> start + i in later)
  {
  }

  /** The first choice and the others. */
  lemma SplitChoices(mask: Token, start: nat, choices: seq<seq<Token>>)
    requires EachOneMask(mask, choices) && |choices| > 0
    ensures OneMask(mask, choices[0]) && EachOneMask(mask, choices[1..])
    ensures Flatten(choices) == choices[0] + Flatten(choices[1..])
    ensures MarkerPositions(start, choices) == [start] + MarkerPositions(start + |choices[0]|, choices[1..])
    ensures var second := start + |choices[0]|;
            var later := MarkerPositions(second, choices[1..]);
            forall m :: m in later ==> m >= second
  {
    hide OneMask, Ascending;
    assert EachOneMask(mask, choices[1..]);
    PositionsAscend(mask, start + |choices[0]|, choices[1..]);
  }

  lemma {:induction false} MasksOfChoices(mask: Token, start: nat, choices: seq<seq<Token>>, i: nat)
    requires EachOneMask(mask, choices) && i < |Flatten(choices)|
    ensures Flatten(choices)[i] == mask <==> start + i in MarkerPositions(start, choices)
    decreases |choices|
  {
    assert |choices| > 0;
    hide *;
    SplitChoices(mask, start, choices);
    var first, others := choices[0], choices[1..];
    var n := |first|;
    MasksOfFirst(mask, start, first, Flatten(others), MarkerPositions(start + n, others), i);
    if i >= n {
      MasksOfChoices(mask, start + n, others, i - n);
    }
  }

  lemma {:induction false} BelowMembers(ms: seq<nat>, limit: nat)
    ensures forall m :: m in Below(ms, limit) <==> m in ms && m < limit
    ensures (forall m :: m in ms ==> m < limit) ==> Below(ms, limit) == ms
    decreases |ms|
  {
    if ms != [] {
      BelowMembers(ms[1..], limit);
      assert ms == [ms[0]] + ms[1..] && ms[0] in ms;
      assert forall m :: m in ms[1..] ==> m in ms;
    }
  }

  lemma {:induction false} BelowAscends(ms: seq<nat>, limit: nat)
    requires Ascending(ms)
    ensures Ascending(Below(ms, limit))
    decreases |ms|
  {
    if ms != [] {
      var rest := Below(ms[1..], limit);
      BelowAscends(ms[1..], limit);
      BelowMembers(ms[1..], limit);
      forall i | 0 <= i < |rest| ensures ms[0] < rest[i] {
        assert rest[i] in ms[1..];
      }
    }
  }

  lemma MasksOfWhole(mask: Token, opening: seq<Token>, choices: seq<seq<Token>>, tail: seq<Token>, i: nat)
    requires EachOneMask(mask, choices) && mask !in opening && mask !in tail
    requires i < |opening + Flatten(choices) + tail|
    ensures (opening + Flatten(choices) + tail)[i] == mask <==> i in MarkerPositions(|opening|, choices)
  {
    var body := Flatten(choices);
    var all := opening + body + tail;
    PositionsAscend(mask, |opening|, choices);
    if i < |opening| {
      assert all[i] == opening[i] && opening[i] in opening;
    } else if i < |opening| + |body| {
      assert all[i] == body[i - |opening|];
      MasksOfChoices(mask, |opening|, choices, i - |opening|);
    } else {
      assert all[i] == tail[i - |opening| - |body|] && all[i] in tail;
    }
  }

  /** In every sequence built, the mask id stands exactly at the markers, in ascending order. */
  lemma MasksAreTheMarkers(tok: Tokenizer, state: string, q: Question, maxLen: nat, headMaxLen: int, order: seq<nat>)
    requires Sound(tok) && Accepted(q, order)
    ensures var e := Encode(tok, state, q, maxLen, headMaxLen, order);
            && |e.ids| <= maxLen
            && Ascending(e.markers)
            && (forall i: nat :: i < |e.ids| ==> (e.ids[i] == tok.maskId <==> i in e.markers))
            && (forall m :: m in e.markers ==> m < |e.ids|)
  {
    hide *;
    NonEmptyMask(tok);
    EncodeShape(tok, state, q, maxLen, headMaxLen, order);
    var choices := FittedChoices(tok, q, headMaxLen, order);
    var opening := Opening(tok, q, choices, headMaxLen);
    var tail := Closing(tok, state, Room(maxLen, |Header(tok, q, headMaxLen, order)|));
    NoMaskAround(tok, state, q, choices, headMaxLen, Room(maxLen, |Header(tok, q, headMaxLen, order)|));
    FittedHaveOneMask(tok, q, headMaxLen, order);
    WholeThenCut(tok.maskId, opening, choices, tail, maxLen);
  }

  /** What stands behind the choices. */
  function Closing(tok: Tokenizer, state: string, room: nat): seq<Token>
    requires tok.maskToken != ""
  {
    [tok.sepId] + Take(tok.encode(Clean(state, tok.maskToken)), room) + [tok.sepId]
  }

  lemma EncodeShape(tok: Tokenizer, state: string, q: Question, maxLen: nat, headMaxLen: int, order: seq<nat>)
    requires tok.maskToken != "" && Accepted(q, order)
    ensures |order| > 0 && forall i :: 0 <= i < |order| ==> order[i] < |q.crit|
    ensures var e := Encode(tok, state, q, maxLen, headMaxLen, order);
            var choices := FittedChoices(tok, q, headMaxLen, order);
            var opening := Opening(tok, q, choices, headMaxLen);
            && e.ids == Take(opening + Flatten(choices) +
                             Closing(tok, state, Room(maxLen, |Header(tok, q, headMaxLen, order)|)), maxLen)
            && e.markers == Below(MarkerPositions(|opening|, choices), maxLen)
  {
    hide FittedChoices, Opening, Clean, MarkerPositions, Flatten, Below, Room;
    var choices := FittedChoices(tok, q, headMaxLen, order);
    var opening := Opening(tok, q, choices, headMaxLen);
    var room := Room(maxLen, |Header(tok, q, headMaxLen, order)|);
    var input := Take(tok.encode(Clean(state, tok.maskToken)), room);
    assert Header(tok, q, headMaxLen, order) + input + [tok.sepId] ==
             opening + Flatten(choices) + Closing(tok, state, room);
  }

  lemma WholeThenCut(mask: Token, opening: seq<Token>, choices: seq<seq<Token>>, tail: seq<Token>, maxLen: nat)
    requires EachOneMask(mask, choices) && mask !in opening && mask !in tail
    ensures var ids := Take(opening + Flatten(choices) + tail, maxLen);
            var markers := Below(MarkerPositions(|opening|, choices), maxLen);
            && |ids| <= maxLen
            && Ascending(markers)
            && (forall i: nat :: i < |ids| ==> (ids[i] == mask <==> i in markers))
            && (forall m :: m in markers ==> m < |ids|)
  {
    hide MarkerPositions, Flatten, EachOneMask, Below, Ascending;
    var positions := MarkerPositions(|opening|, choices);
    var all := opening + Flatten(choices) + tail;
    PositionsAscend(mask, |opening|, choices);
    BelowMembers(positions, maxLen);
    BelowAscends(positions, maxLen);
    forall i: nat | i < |all|
      ensures all[i] == mask <==> i in positions
    {
      MasksOfWhole(mask, opening, choices, tail, i);
    }
  }

  lemma NoMaskAround(tok: Tokenizer, state: string, q: Question, choices: seq<seq<Token>>, headMaxLen: int, room: nat)
    requires Sound(tok)
    ensures tok.maskId !in Opening(tok, q, choices, headMaxLen)
    ensures tok.maskId !in Closing(tok, state, room)
  {
    CleanedTokens(tok, HEAD, q.ins);
    CleanedTokens(tok, "", state);
    assert "" + Clean(state, tok.maskToken) == Clean(state, tok.maskToken);
  }

  // ---- The header fits its budget ----

  lemma {:induction false} CutTotal(choices: seq<seq<Token>>, per: nat)
    ensures TotalLength(CutEach(choices, per)) <= per * |choices|
    decreases |choices|
  {
    if |choices| > 0 {
      CutTotal(choices[1..], per);
      assert per * |choices| == per + per * (|choices| - 1);
    }
  }

  lemma {:induction false} TotalIsFlat(choices: seq<seq<Token>>)
    ensures TotalLength(choices) == |Flatten(choices)|
    decreases |choices|
  {
    if |choices| > 0 { TotalIsFlat(choices[1..]); }
  }

  lemma ShareFits(headMaxLen: int, n: nat)
    requires n > 0 && headMaxLen >= 16 + 4 * n
    ensures Max(4, (headMaxLen - 16) / n) * n <= headMaxLen - 16
  {
    var x := headMaxLen - 16;
    var share := x / n;
    assert share * n + x % n == x;
    assert (share + 1) * n == share * n + n;
  }

  /** With room for four tokens a choice beside sixteen of the head, the choices leave at least those sixteen. */
  lemma FittedTotal(tok: Tokenizer, q: Question, headMaxLen: int, order: seq<nat>)
    requires tok.maskToken != "" && Accepted(q, order) && headMaxLen >= 16 + 4 * |q.crit|
    ensures TotalLength(FittedChoices(tok, q, headMaxLen, order)) <= headMaxLen - 16
  {
    var choices := AllChoices(tok, q.crit, order);
    ShareFits(headMaxLen, |choices|);
    CutTotal(choices, Max(4, (headMaxLen - 16) / |choices|));
  }

  /** The header stays within its budget but for the three special tokens. */
  lemma HeaderWithinBudget(tok: Tokenizer, q: Question, headMaxLen: int, order: seq<nat>)
    requires tok.maskToken != "" && Accepted(q, order) && headMaxLen >= 16 + 4 * |q.crit|
    ensures |Header(tok, q, headMaxLen, order)| <= headMaxLen + 3
  {
    FittedTotal(tok, q, headMaxLen, order);
    TotalIsFlat(FittedChoices(tok, q, headMaxLen, order));
  }

  /** Then a sequence two tokens longer than the header budget keeps the marker of every choice. */
  lemma AllMarkersKept(tok: Tokenizer, state: string, q: Question, maxLen: nat, headMaxLen: int, order: seq<nat>)
    requires Sound(tok) && Accepted(q, order)
    requires headMaxLen >= 16 + 4 * |q.crit| && maxLen >= headMaxLen + 2
    ensures |Encode(tok, state, q, maxLen, headMaxLen, order).markers| == |q.crit|
  {
    var choices := FittedChoices(tok, q, headMaxLen, order);
    var opening := Opening(tok, q, choices, headMaxLen);
    HeaderWithinBudget(tok, q, headMaxLen, order);
    FittedHaveOneMask(tok, q, headMaxLen, order);
    PositionsAscend(tok.maskId, |opening|, choices);
    BelowMembers(MarkerPositions(|opening|, choices), maxLen);
  }

  // ---- Trimming the input ----

  const MAX_SOURCE_CHARS := 100000

  function Omission(): (s: string)
    ensures |s| == 45
  {
    "\n[... middle omitted for local decision ...]\n"
  }

  datatype Trimmed = Trimmed(text: string, clipped: bool)

  /** Keep both ends of an overlong source. */
  function TrimChars(text: string): (r: Trimmed)
    ensures |r.text| <= MAX_SOURCE_CHARS
    ensures r.clipped <==> |text| > MAX_SOURCE_CHARS
    ensures !r.clipped ==> r.text == text
    ensures r.clipped ==> |r.text| == MAX_SOURCE_CHARS
  {
    if |text| <= MAX_SOURCE_CHARS then Trimmed(text, false)
    else
      var room := MAX_SOURCE_CHARS - |Omission()|;
      var head := (room + 1) / 2;
      Trimmed(text[..head] + Omission() + text[|text| - (room - head)..], true)
  }

  /** Two ends of the tokens, apart and not empty, around the omission. */
  predicate KeepsBothEnds(tok: Tokenizer, tokens: seq<Token>, text: string, head: nat, tail: nat) {
    && 0 < head && 0 < tail && head + tail < |tokens|
    && (head == tail || head == tail + 1)
    && text == tok.decode(tokens[..head]) + Omission() + tok.decode(tokens[|tokens| - tail..])
  }

  datatype Fitted = Fitted(text: string, tokens: nat, clipped: bool)

  function RoomFor(tok: Tokenizer, q: Question, maxLen: nat, headMaxLen: int): int
    requires tok.maskToken != "" && Accepted(q, InOrder(|q.crit|))
  {
    maxLen - |Encode(tok, "", q, maxLen, headMaxLen, InOrder(|q.crit|)).ids|
  }

  /** The header keeps the marker of every choice. */
  predicate MarkersFit(tok: Tokenizer, q: Question, maxLen: nat, headMaxLen: int)
    requires tok.maskToken != "" && Accepted(q, InOrder(|q.crit|))
  {
    |Encode(tok, "", q, maxLen, headMaxLen, InOrder(|q.crit|)).markers| == |q.crit|
  }

  function TokensOf(tok: Tokenizer, text: string): seq<Token>
    requires tok.maskToken != ""
  {
    tok.encode(Clean(text, tok.maskToken))
  }

  /** The two ends that keep `n` tokens in all. */
  function Candidate(tok: Tokenizer, tokens: seq<Token>, n: int): string
    requires 2 <= n <= |tokens|
  {
    var head := (n + 1) / 2;
    tok.decode(tokens[..head]) + Omission() + tok.decode(tokens[|tokens| - (n - head)..])
  }

  /** Cut back to `n` tokens and tokenized again, the source fits. */
  predicate Fits(tok: Tokenizer, tokens: seq<Token>, room: nat, n: int)
    requires tok.maskToken != "" && 2 <= n <= |tokens|
  {
    |TokensOf(tok, Candidate(tok, tokens, n))| <= room
  }

  /** From `start` on the sizes shrink by what is too much, until one fits; `n` is one of them. */
  predicate Reached(tok: Tokenizer, tokens: seq<Token>, room: nat, start: int, n: int)
    requires tok.maskToken != "" && start <= |tokens|
    decreases start
  {
    && 2 <= n <= start
    && (n == start ||
        (!Fits(tok, tokens, room, start) &&
         Reached(tok, tokens, room,
                 start - (|TokensOf(tok, Candidate(tok, tokens, start))| - room), n)))
  }

  /** No size that is tried fits. */
  ghost predicate NeverFits(tok: Tokenizer, tokens: seq<Token>, room: nat, start: int)
    requires tok.maskToken != "" && start <= |tokens|
  {
    forall n :: Reached(tok, tokens, room, start, n) ==> !Fits(tok, tokens, room, n)
  }

  /**
   Fit a source into the model: unchanged when it fits, else its two ends,
   shrunk until the re-tokenized candidate fits.
   */
  method TrimToModel(tok: Tokenizer, raw: string, q: Question, maxLen: nat, headMaxLen: int)
    returns (r: Result<Fitted, Error>)
    requires Sound(tok)
    ensures r.Ok? ==>
              && Accepted(q, InOrder(|q.crit|))
              && var order := InOrder(|q.crit|);
                 var header := Header(tok, q, headMaxLen, order);
                 var e := Encode(tok, r.value.text, q, maxLen, headMaxLen, order);
                 && r.value.tokens == |TokensOf(tok, r.value.text)|
                 && e.ids == header + TokensOf(tok, r.value.text) + [tok.sepId]
                 && |e.ids| <= maxLen
                 && |e.markers| == |q.crit|
    ensures r.Ok? ==>
              var source := TrimChars(raw);
              if |TokensOf(tok, source.text)| <= RoomFor(tok, q, maxLen, headMaxLen)
              then r.value == Fitted(source.text, |TokensOf(tok, source.text)|, source.clipped)
              else r.value.clipped && exists head, tail ::
                     KeepsBothEnds(tok, TokensOf(tok, source.text), r.value.text, head, tail)
    ensures r == Err(NotAChoiceTask) <==> !q.isChoice
    ensures r == Err(NotAPermutation) <==> q.isChoice && |q.crit| < 2
    ensures r == Err(HeaderOverBudget) <==>
              Accepted(q, InOrder(|q.crit|)) && !MarkersFit(tok, q, maxLen, headMaxLen)
    ensures r == Err(NoRoomForInput) <==>
              && Accepted(q, InOrder(|q.crit|)) && MarkersFit(tok, q, maxLen, headMaxLen)
              && RoomFor(tok, q, maxLen, headMaxLen) < 8
    ensures r == Err(CannotKeepBothEnds) <==>
              && Accepted(q, InOrder(|q.crit|)) && MarkersFit(tok, q, maxLen, headMaxLen)
              && var tokens, room := TokensOf(tok, TrimChars(raw).text), RoomFor(tok, q, maxLen, headMaxLen);
                 |tokens| > room >= 8 && NeverFits(tok, tokens, room, room - |tok.encode(Omission())|)
  {
    hide Encode, Header, TokensOf, Omission, Sound, TrimChars, KeepsBothEnds, Fits;
    assert tok.maskToken != "" by { NonEmptyMask(tok); }
    var source := TrimChars(raw);
    var empty := BuildSequence(tok, "", q, maxLen, headMaxLen, None);
    if empty.Err? {
      return Err(empty.error);
    }
    var order := InOrder(|q.crit|);
    if |empty.value.markers| != |q.crit| {
      return Err(HeaderOverBudget);
    }
    var room := maxLen - |empty.value.ids|;
    if room < 8 {
      return Err(NoRoomForInput);
    }
    var tokenIds := TokensOf(tok, source.text);
    if |tokenIds| <= room {
      NothingCut(tok, source.text, q, maxLen, headMaxLen);
      return Ok(Fitted(source.text, |tokenIds|, source.clipped));
    }
    var available := room - |tok.encode(Omission())|;
    if available < 2 {
      return Err(CannotKeepBothEnds);
    }
    var shrunk := ShrinkToFit(tok, tokenIds, room, available);
    if shrunk.None? {
      return Err(CannotKeepBothEnds);
    }
    NothingCut(tok, shrunk.value, q, maxLen, headMaxLen);
    return Ok(Fitted(shrunk.value, |TokensOf(tok, shrunk.value)|, true));
  }

  lemma NonEmptyMask(tok: Tokenizer)
    requires Sound(tok)
    ensures tok.maskToken != ""
  {
  }

  /** Decode and re-tokenize ever shorter ends until they fit. */
  method ShrinkToFit(tok: Tokenizer, tokenIds: seq<Token>, room: nat, start: int) returns (r: Option<string>)
    requires tok.maskToken != "" && start <= room < |tokenIds|
    ensures r.None? <==> NeverFits(tok, tokenIds, room, start)
    ensures r.Some? ==>
              && |TokensOf(tok, r.value)| <= room
              && (exists n :: Reached(tok, tokenIds, room, start, n) && r.value == Candidate(tok, tokenIds, n))
              && exists head, tail :: KeepsBothEnds(tok, tokenIds, r.value, head, tail)
  {
    var available := start;
    while available >= 2
      invariant available <= room < |tokenIds|
      invariant forall n :: Reached(tok, tokenIds, room, available, n) ==> Reached(tok, tokenIds, room, start, n)
      invariant forall n :: Reached(tok, tokenIds, room, start, n) && !Reached(tok, tokenIds, room, available, n) ==>
                  !Fits(tok, tokenIds, room, n)
      decreases available
    {
      var head := (available + 1) / 2;
      var tail := available - head;
      var candidate := tok.decode(tokenIds[..head]) + Omission() + tok.decode(tokenIds[|tokenIds| - tail..]);
      var actual := TokensOf(tok, candidate);
      assert candidate == Candidate(tok, tokenIds, available) && Reached(tok, tokenIds, room, available, available);
      if |actual| <= room {
        assert KeepsBothEnds(tok, tokenIds, candidate, head, tail);
        return Some(candidate);
      }
      available := available - Max(1, |actual| - room);
    }
    return None;
  }

  /** The trimmer and the encoder agree on the room: a text of at most that many tokens is encoded whole. */
  lemma NothingCut(tok: Tokenizer, text: string, q: Question, maxLen: nat, headMaxLen: int)
    requires Sound(tok) && Accepted(q, InOrder(|q.crit|))
    requires RoomFor(tok, q, maxLen, headMaxLen) >= 1
    requires |TokensOf(tok, text)| <= RoomFor(tok, q, maxLen, headMaxLen)
    ensures var order := InOrder(|q.crit|);
            var e := Encode(tok, text, q, maxLen, headMaxLen, order);
            && e.ids == Header(tok, q, headMaxLen, order) + TokensOf(tok, text) + [tok.sepId]
            && |e.ids| <= maxLen
            && e.markers == Encode(tok, "", q, maxLen, headMaxLen, order).markers
  {
    hide Header, HeaderMarkers;
    assert Clean("", tok.maskToken) == "";
  }
}
