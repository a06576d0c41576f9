/**
 Where everything stands in a sequence of the choice encoder (resources/laya-decision/runtime.py): the
 question, each option behind its marker, and the input; and what replacing the mask token leaves of a text.
 */
module ChoiceLayout {
  import opened Common
  import opened ChoiceEncoder

  // ---- What replacing the mask token leaves ----

  /** The mask occurs first behind the text. */
  predicate EndsAtMask(part: string, mask: string) {
    forall i :: 0 <= i < |part| ==> !OccursAt(part + mask, mask, i)
  }

  predicate WithoutMask(text: string, mask: string) {
    forall i :: 0 <= i < |text| ==> !OccursAt(text, mask, i)
  }

  /** A text is read from the left as parts with the mask between them. */
  predicate Splits(parts: seq<string>, mask: string) {
    && |parts| > 0
    && (forall k :: 0 <= k < |parts| - 1 ==> EndsAtMask(parts[k], mask))
    && WithoutMask(parts[|parts| - 1], mask)
  }

  lemma {:induction false} CleanUpTo(part: string, rest: string, mask: string)
    requires mask != "" && EndsAtMask(part, mask)
    ensures Clean(part + mask + rest, mask) == part + " " + Clean(rest, mask)
    decreases |part|
  {
    var text := part + mask + rest;
    if part == "" {
      assert text[..|mask|] == mask && text[|mask|..] == rest;
    } else {
      assert !OccursAt(part + mask, mask, 0);
      assert text[..|mask|] == (part + mask)[..|mask|];
      assert text[1..] == part[1..] + mask + rest;
      forall i | 0 <= i < |part[1..]| ensures !OccursAt(part[1..] + mask, mask, i) {
        assert !OccursAt(part + mask, mask, i + 1);
        assert (part[1..] + mask)[i..i + |mask|] == (part + mask)[i + 1..i + 1 + |mask|];
      }
      CleanUpTo(part[1..], rest, mask);
    }
  }

  lemma {:induction false} CleanNothing(text: string, mask: string)
    requires mask != "" && WithoutMask(text, mask)
    ensures Clean(text, mask) == text
    decreases |text|
  {
    if text != "" {
      assert !OccursAt(text, mask, 0);
      forall i | 0 <= i < |text[1..]| ensures !OccursAt(text[1..], mask, i) {
        assert !OccursAt(text, mask, i + 1);
        if i + |mask| <= |text[1..]| {
          assert text[1..][i..i + |mask|] == text[i + 1..i + 1 + |mask|];
        }
      }
      CleanNothing(text[1..], mask);
    }
  }

  /** Every mask token, and nothing else, is replaced by a blank. */
  lemma {:induction false} CleanReplacesTheMasks(parts: seq<string>, mask: string)
    requires mask != "" && Splits(parts, mask)
    ensures Clean(Joined(parts, mask), mask) == Joined(parts, " ")
    decreases |parts|
  {
    if |parts| == 1 {
      CleanNothing(parts[0], mask);
    } else {
      assert EndsAtMask(parts[0], mask);
      CleanUpTo(parts[0], Joined(parts[1..], mask), mask);
      CleanReplacesTheMasks(parts[1..], mask);
    }
  }

  lemma SplitsMore(part: string, later: seq<string>, mask: string)
    requires EndsAtMask(part, mask) && Splits(later, mask)
    ensures Splits([part] + later, mask) && Joined([part] + later, mask) == part + mask + Joined(later, mask)
  {
    var parts := [part] + later;
    assert parts[1..] == later && parts[|parts| - 1] == later[|later| - 1];
    forall k | 0 <= k < |parts| - 1 ensures EndsAtMask(parts[k], mask) {
      assert k > 0 ==> parts[k] == later[k - 1];
    }
    hide EndsAtMask, WithoutMask;
  }

  lemma EndsAtFirst(text: string, mask: string, n: nat)
    requires mask != "" && OccursAt(text, mask, n) && forall i :: 0 <= i < n ==> !OccursAt(text, mask, i)
    ensures EndsAtMask(text[..n], mask) && text == text[..n] + mask + text[n + |mask|..]
  {
    var head := text[..n + |mask|];
    assert head == text[..n] + text[n..n + |mask|] == text[..n] + mask;
    forall i | 0 <= i < n ensures !OccursAt(head, mask, i) {
      assert !OccursAt(text, mask, i);
      assert head[i..i + |mask|] == text[i..i + |mask|];
    }
  }

  /** Every text can be read that way. */
  lemma {:induction false} EveryTextSplits(text: string, mask: string) returns (parts: seq<string>)
    requires mask != ""
    ensures Splits(parts, mask) && Joined(parts, mask) == text
    decreases |text|
  {
    var n := IndexOf(text, mask, 0);
    if n == -1 {
      parts := [text];
    } else {
      EndsAtFirst(text, mask, n);
      hide Splits, Joined, EndsAtMask, OccursAt, IndexOf;
      var later := EveryTextSplits(text[n + |mask|..], mask);
      parts := [text[..n]] + later;
      SplitsMore(text[..n], later, mask);
    }
  }

  // ---- The options ----

  /** The tokens of an option's name and description, at most 48. */
  function OptionTokens(tok: Tokenizer, option: (string, Option<string>)): seq<Token>
    requires tok.maskToken != ""
  {
    var described := option.1.Some? && option.1.value != "";
    var tokens := tok.encode(" " +
                             Clean(if described then option.0 + ": " + option.1.value else option.0, tok.maskToken));
    if |tokens| > 48 then tokens[..48] else tokens
  }

  /** What the options take with their masks when none is cut. */
  function WantedTokens(tok: Tokenizer, crit: seq<(string, Option<string>)>, order: seq<nat>): nat
    requires tok.maskToken != "" && forall i :: 0 <= i < |order| ==> order[i] < |crit|
  {
    if |order| == 0 then 0 else 1 + |OptionTokens(tok, crit[order[0]])| + WantedTokens(tok, crit, order[1..])
  }

  predicate InRange(crit: seq<(string, Option<string>)>, order: seq<nat>) {
    |order| > 0 && forall i :: 0 <= i < |order| ==> order[i] < |crit|
  }

  /** How many tokens of an option are kept: all of them, or an equal share when the head would get under 16. */
  function ShareOf(tok: Tokenizer, q: Question, headMaxLen: int, order: seq<nat>): nat
    requires tok.maskToken != "" && InRange(q.crit, order)
  {
    if headMaxLen - WantedTokens(tok, q.crit, order) >= 16 then 48
    else if (headMaxLen - 16) / |order| <= 4 then 3 else (headMaxLen - 16) / |order| - 1
  }

  function KeptTokens(tok: Tokenizer, q: Question, headMaxLen: int, order: seq<nat>, k: nat): seq<Token>
    requires tok.maskToken != "" && InRange(q.crit, order) && k < |order|
  {
    Take(OptionTokens(tok, q.crit[order[k]]), ShareOf(tok, q, headMaxLen, order))
  }

  lemma {:induction false} ChoicesAre(tok: Tokenizer, crit: seq<(string, Option<string>)>, order: seq<nat>)
    requires tok.maskToken != "" && forall i :: 0 <= i < |order| ==> order[i] < |crit|
    ensures var cs := AllChoices(tok, crit, order);
            && TotalLength(cs) == WantedTokens(tok, crit, order)
            && forall k :: 0 <= k < |order| ==> cs[k] == [tok.maskId] + OptionTokens(tok, crit[order[k]])
    decreases |order|
  {
    if |order| > 0 {
      assert ChoiceTokens(tok, crit[order[0]]) == [tok.maskId] + OptionTokens(tok, crit[order[0]]);
      hide ChoiceTokens, OptionTokens;
      ChoicesAre(tok, crit, order[1..]);
    }
  }

  lemma {:induction false} CutEachIs(choices: seq<seq<Token>>, per: nat)
    ensures forall k :: 0 <= k < |choices| ==> CutEach(choices, per)[k] == Take(choices[k], per)
    decreases |choices|
  {
    if |choices| > 0 { CutEachIs(choices[1..], per); }
  }

  lemma FittedIs(tok: Tokenizer, q: Question, headMaxLen: int, order: seq<nat>)
    requires tok.maskToken != "" && InRange(q.crit, order)
    ensures var all := AllChoices(tok, q.crit, order);
            FittedChoices(tok, q, headMaxLen, order) ==
              if headMaxLen - TotalLength(all) < 16 then CutEach(all, Max(4, (headMaxLen - 16) / |order|)) else all
  {
    hide AllChoices, CutEach, TotalLength;
  }

  lemma ShareIs(tok: Tokenizer, q: Question, headMaxLen: int, order: seq<nat>)
    requires tok.maskToken != "" && InRange(q.crit, order)
    ensures var share := ShareOf(tok, q, headMaxLen, order);
            if headMaxLen - WantedTokens(tok, q.crit, order) < 16
            then share + 1 == Max(4, (headMaxLen - 16) / |order|) else share == 48
  {
    hide WantedTokens;
  }

  lemma FittedOne(tok: Tokenizer, q: Question, headMaxLen: int, order: seq<nat>, k: nat)
    requires tok.maskToken != "" && InRange(q.crit, order) && k < |order|
    ensures FittedChoices(tok, q, headMaxLen, order)[k] == [tok.maskId] + KeptTokens(tok, q, headMaxLen, order, k)
  {
    ChoicesAre(tok, q.crit, order);
    FittedIs(tok, q, headMaxLen, order);
    ShareIs(tok, q, headMaxLen, order);
    var all, tokens := AllChoices(tok, q.crit, order), OptionTokens(tok, q.crit[order[k]]);
    var share := ShareOf(tok, q, headMaxLen, order);
    assert |tokens| <= 48;
    assert share == 48 ==> Take(tokens, share) == tokens;
    hide OptionTokens, AllChoices, WantedTokens, CutEach, FittedChoices, TotalLength, ShareOf, Take, Max;
    assert all[k] == [tok.maskId] + tokens;
    CutEachIs(all, share + 1);
    TakeBehind(tok.maskId, tokens, share);
  }

  lemma FittedAre(tok: Tokenizer, q: Question, headMaxLen: int, order: seq<nat>)
    requires tok.maskToken != "" && InRange(q.crit, order)
    ensures var cs := FittedChoices(tok, q, headMaxLen, order);
            && |cs| == |order|
            && forall k :: 0 <= k < |order| ==> cs[k] == [tok.maskId] + KeptTokens(tok, q, headMaxLen, order, k)
  {
    assert |FittedChoices(tok, q, headMaxLen, order)| == |order|;
    hide FittedChoices, KeptTokens;
    forall k | 0 <= k < |order|
      ensures FittedChoices(tok, q, headMaxLen, order)[k] == [tok.maskId] + KeptTokens(tok, q, headMaxLen, order, k)
    {
      FittedOne(tok, q, headMaxLen, order, k);
    }
  }

  lemma TakeBehind(first: Token, rest: seq<Token>, n: nat)
    ensures Take([first] + rest, n + 1) == [first] + Take(rest, n)
  {}

  // ---- Each option behind its marker ----

  lemma {:induction false} MarkerOf(opening: seq<Token>, choices: seq<seq<Token>>, tail: seq<Token>, k: nat)
    requires k < |choices|
    ensures var all, ms := opening + Flatten(choices) + tail, MarkerPositions(|opening|, choices);
            && |ms| == |choices| && ms[0] == |opening| && ms[k] + |choices[k]| <= |opening| + |Flatten(choices)|
            && all[ms[k]..ms[k] + |choices[k]|] == choices[k]
            && (if k + 1 < |choices| then ms[k + 1] == ms[k] + |choices[k]|
                else ms[k] + |choices[k]| == |opening| + |Flatten(choices)|)
    decreases k
  {
    var next := opening + choices[0];
    assert opening + Flatten(choices) + tail == next + Flatten(choices[1..]) + tail;
    MarkerCount(|opening|, choices);
    if k == 0 {
      assert (opening + Flatten(choices) + tail)[|opening|..|opening| + |choices[0]|] == choices[0];
      if |choices| > 1 {
        MarkerCount(|next|, choices[1..]);
      }
    } else {
      MarkerOf(next, choices[1..], tail, k - 1);
    }
  }

  lemma {:induction false} MarkerCount(start: nat, choices: seq<seq<Token>>)
    ensures |MarkerPositions(start, choices)| == |choices|
    decreases |choices|
  {
    if |choices| > 0 { MarkerCount(start + |choices[0]|, choices[1..]); }
  }

  lemma {:induction false} BelowIsPrefix(ms: seq<nat>, limit: nat)
    requires Ascending(ms)
    ensures |Below(ms, limit)| <= |ms|
    ensures forall k :: 0 <= k < |Below(ms, limit)| ==> Below(ms, limit)[k] == ms[k]
    ensures forall k :: 0 <= k < |ms| ==> (k < |Below(ms, limit)| <==> ms[k] < limit)
    decreases |ms|
  {
    if ms != [] {
      var rest := ms[1..];
      BelowIsPrefix(rest, limit);
      if ms[0] >= limit {
        assert forall k :: 0 <= k < |rest| ==> rest[k] >= limit;
      }
      assert forall k :: 0 < k < |ms| ==> ms[k] == rest[k - 1];
    }
  }

  /** Every option with its mask before it. */
  function AllOptions(tok: Tokenizer, q: Question, headMaxLen: int, order: seq<nat>): seq<seq<Token>>
    requires tok.maskToken != "" && InRange(q.crit, order)
  {
    seq(|order|, k requires 0 <= k < |order| => [tok.maskId] + KeptTokens(tok, q, headMaxLen, order, k))
  }

  lemma OptionsAreFitted(tok: Tokenizer, q: Question, headMaxLen: int, order: seq<nat>)
    requires tok.maskToken != "" && InRange(q.crit, order)
    ensures FittedChoices(tok, q, headMaxLen, order) == AllOptions(tok, q, headMaxLen, order)
  {
    FittedAre(tok, q, headMaxLen, order);
    hide FittedChoices, KeptTokens;
  }

  /** What stands before the options. */
  lemma OpeningIs(tok: Tokenizer, q: Question, choices: seq<seq<Token>>, headMaxLen: int)
    requires tok.maskToken != ""
    ensures var budget := headMaxLen - |Flatten(choices)|;
            Opening(tok, q, choices, headMaxLen) ==
            [tok.clsId]
            + Take(tok.encode("choice question: " + Clean(q.ins, tok.maskToken)), if budget > 8 then budget else 8)
            + [tok.sepId]
  {
    TotalIsFlat(choices);
    hide Flatten, TotalLength, Clean;
  }

  /** The sequence behind its header: as much of the input as there is room for, closed by a separator. */
  lemma InputBehind(tok: Tokenizer, state: string, q: Question, maxLen: nat, headMaxLen: int, order: seq<nat>,
      header: seq<Token>)
    requires tok.maskToken != "" && Accepted(q, order) && header == Header(tok, q, headMaxLen, order)
    ensures var room := if maxLen > |header| + 1 then maxLen - |header| - 1 else 0;
            var input := Take(tok.encode(Clean(state, tok.maskToken)), room);
            Encode(tok, state, q, maxLen, headMaxLen, order).ids == Take(header + input + [tok.sepId], maxLen)
  {
    hide Header, HeaderMarkers, Clean, Take;
  }

  /** The question within its budget, then every option behind its mask, each closed by a separator. */
  function QuestionAndOptions(tok: Tokenizer, q: Question, headMaxLen: int, order: seq<nat>): seq<Token>
    requires tok.maskToken != "" && InRange(q.crit, order)
  {
    var options := Flatten(AllOptions(tok, q, headMaxLen, order));
    var budget := headMaxLen - |options|;
    var question := Take(tok.encode("choice question: " + Clean(q.ins, tok.maskToken)), if budget > 8 then budget
                    else 8);
    [tok.clsId] + question + [tok.sepId] + options + [tok.sepId]
  }

  lemma HeaderIs(tok: Tokenizer, q: Question, headMaxLen: int, order: seq<nat>)
    requires tok.maskToken != "" && InRange(q.crit, order)
    ensures Header(tok, q, headMaxLen, order) == QuestionAndOptions(tok, q, headMaxLen, order)
  {
    var options := AllOptions(tok, q, headMaxLen, order);
    OptionsAreFitted(tok, q, headMaxLen, order);
    OpeningIs(tok, q, options, headMaxLen);
    assert Header(tok, q, headMaxLen, order) ==
             Opening(tok, q, options, headMaxLen) + Flatten(options) + [tok.sepId] by {
      hide FittedChoices, AllOptions, Opening, Flatten;
    }
    hide AllOptions, Clean, Flatten, Opening, Take, Header, FittedChoices;
  }

  /**
   The sequence is the question and the options, then as much of the input as there is room for, closed by a
   separator; all of it is cut to the length of the model.
   */
  lemma SequenceIs(tok: Tokenizer, state: string, q: Question, maxLen: nat, headMaxLen: int, order: seq<nat>)
    requires Sound(tok) && Accepted(q, order)
    ensures tok.maskToken != "" && InRange(q.crit, order)
    ensures var header := QuestionAndOptions(tok, q, headMaxLen, order);
            var room := if maxLen > |header| + 1 then maxLen - |header| - 1 else 0;
            var input := Take(tok.encode(Clean(state, tok.maskToken)), room);
            Encode(tok, state, q, maxLen, headMaxLen, order).ids == Take(header + input + [tok.sepId], maxLen)
  {
    NonEmptyMask(tok);
    HeaderIs(tok, q, headMaxLen, order);
    hide Clean, Sound, Take, Encode, Header, QuestionAndOptions;
    InputBehind(tok, state, q, maxLen, headMaxLen, order, Header(tok, q, headMaxLen, order));
  }

  /**
   Marker `k`, if it is kept, stands where `option` stands in the sequence, cut where the sequence is cut; the next
   marker stands right behind, and is lost only when the sequence ends before it.
   */
  predicate StandsBehind(ids: seq<Token>, markers: seq<nat>, k: nat, option: seq<Token>, last: bool, maxLen: nat) {
    k < |markers| ==>
      var m := markers[k];
      && m < |ids| && ids[m..if m + |option| < |ids| then m + |option| else |ids|] == Take(option, |ids| - m)
      && (k + 1 < |markers| ==> markers[k + 1] == m + |option|)
      && (k + 1 == |markers| && !last ==> m + |option| >= maxLen)
  }

  lemma StandsIf(all: seq<Token>, ms: seq<nat>, kept: seq<nat>, maxLen: nat, k: nat, option: seq<Token>, last: bool)
    requires k < |ms| && ms[k] + |option| <= |all| && all[ms[k]..ms[k] + |option|] == option && |option| > 0
    requires last <==> k + 1 == |ms|
    requires !last ==> ms[k + 1] == ms[k] + |option|
    requires |kept| <= |ms| && forall j :: 0 <= j < |kept| ==> kept[j] == ms[j]
    requires forall j :: 0 <= j < |ms| ==> (j < |kept| <==> ms[j] < maxLen)
    ensures StandsBehind(Take(all, maxLen), kept, k, option, last, maxLen)
  {
    if k < |kept| {
      CutBehind(all, maxLen, ms[k], option);
      hide Take;
    }
  }

  lemma CutMarkers(mask: Token, opening: seq<Token>, choices: seq<seq<Token>>, tail: seq<Token>, maxLen: nat, k: nat)
    requires EachOneMask(mask, choices) && k < |choices|
    ensures StandsBehind(Take(opening + Flatten(choices) + tail, maxLen),
                         Below(MarkerPositions(|opening|, choices), maxLen), k, choices[k], k + 1 == |choices|, maxLen)
  {
    var all, ms := opening + Flatten(choices) + tail, MarkerPositions(|opening|, choices);
    assert OneMask(mask, choices[k]);
    hide MarkerPositions, Flatten, Below, EachOneMask, Take, StandsBehind, Ascending;
    MarkerOf(opening, choices, tail, k);
    PositionsAscend(mask, |opening|, choices);
    BelowIsPrefix(ms, maxLen);
    StandsIf(all, ms, Below(ms, maxLen), maxLen, k, choices[k], k + 1 == |choices|);
  }

  /**
   Behind the marker of each option stand the mask and the tokens of that option, in the order asked for, cut to 48
   and to the equal share, and right behind them the next marker.
   */
  lemma OptionsStandBehindTheirMarkers(
    tok: Tokenizer, state: string, q: Question, maxLen: nat, headMaxLen: int, order: seq<nat>, k: nat)
    requires Sound(tok) && Accepted(q, order) && k < |order|
    ensures tok.maskToken != "" && InRange(q.crit, order)
    ensures var e := Encode(tok, state, q, maxLen, headMaxLen, order);
            StandsBehind(e.ids, e.markers, k, [tok.maskId] + KeptTokens(tok, q, headMaxLen, order, k),
                         k + 1 == |order|, maxLen)
  {
    NonEmptyMask(tok);
    EncodeShape(tok, state, q, maxLen, headMaxLen, order);
    FittedAre(tok, q, headMaxLen, order);
    FittedHaveOneMask(tok, q, headMaxLen, order);
    var choices := FittedChoices(tok, q, headMaxLen, order);
    hide FittedChoices, KeptTokens, Encode, Opening, Closing, Header, Sound, Flatten, MarkerPositions, Below, Take;
    hide EachOneMask, StandsBehind;
    CutMarkers(tok.maskId, Opening(tok, q, choices, headMaxLen), choices,
               Closing(tok, state, Room(maxLen, |Header(tok, q, headMaxLen, order)|)), maxLen, k);
  }

  lemma CutBehind(all: seq<Token>, maxLen: nat, m: nat, option: seq<Token>)
    requires m + |option| <= |all| && all[m..m + |option|] == option && m < maxLen && |option| > 0
    ensures var ids := Take(all, maxLen);
            && m < |ids|
            && ids[m..if m + |option| < |ids| then m + |option| else |ids|] == Take(option, |ids| - m)
  {
    var ids := Take(all, maxLen);
    if m + |option| >= |ids| {
      assert ids[m..|ids|] == all[m..m + |option|][..|ids| - m];
    }
  }

  // ---- The order of the options ----

  predicate Distinct(order: seq<nat>) {
    forall i, j :: 0 <= i < j < |order| ==> order[i] != order[j]
  }

  function Members(order: seq<nat>): set<nat> {
    set x | x in order
  }

  lemma {:induction false} DistinctCounts(order: seq<nat>)
    requires Distinct(order)
    ensures forall x :: multiset(order)[x] <= 1
    ensures |Members(order)| == |order|
    decreases |order|
  {
    if |order| > 0 {
      var n := |order| - 1;
      DistinctCounts(order[..n]);
      assert order == order[..n] + [order[n]];
      assert order[n] !in order[..n];
      assert Members(order) == Members(order[..n]) + {order[n]};
    }
  }

  lemma TwiceCounts(order: seq<nat>, i: nat, j: nat)
    requires i < j < |order| && order[i] == order[j]
    ensures multiset(order)[order[i]] >= 2
  {
    assert order == order[..j] + order[j..];
    assert order[i] in order[..j] && order[j] in order[j..];
  }

  lemma AllInside(inside: set<nat>, all: set<nat>)
    requires inside <= all && |inside| == |all|
    ensures inside == all
  {
    assert |all - inside| == |all| - |inside|;
  }

  lemma PermutationCounts(order: seq<nat>, n: nat)
    requires IsPermutation(order, n)
    ensures multiset(order) == multiset(seq(n, i => i))
  {
    var range := seq(n, i => i);
    DistinctCounts(range);
    DistinctCounts(order);
    forall x | x in Members(order) ensures x in Members(range) {
      assert range[x] == x;
    }
    AllInside(Members(order), Members(range));
    forall x: nat ensures multiset(order)[x] == multiset(range)[x] {
      assert x in Members(order) <==> x in Members(range);
      assert x in Members(order) <==> x in multiset(order);
      assert x in Members(range) <==> x in multiset(range);
    }
  }

  lemma CountsArePermutation(order: seq<nat>, n: nat)
    requires multiset(order) == multiset(seq(n, i => i))
    ensures IsPermutation(order, n)
  {
    var range := seq(n, i => i);
    DistinctCounts(range);
    assert |order| == |multiset(order)| == |multiset(range)| == n;
    forall i | 0 <= i < |order| ensures order[i] < n {
      assert order[i] in multiset(order);
      assert order[i] in range;
    }
    forall i, j | 0 <= i < j < |order| ensures order[i] != order[j] {
      if order[i] == order[j] { TwiceCounts(order, i, j); }
    }
  }

  lemma PermutationIff(order: seq<nat>, n: nat)
    ensures IsPermutation(order, n) <==> multiset(order) == multiset(seq(n, i => i))
  {
    if IsPermutation(order, n) {
      PermutationCounts(order, n);
    } else if multiset(order) == multiset(seq(n, i => i)) {
      CountsArePermutation(order, n);
    }
  }

  /** An order of a choice of at least two options is accepted exactly when sorting it gives their numbers. */
  lemma BuiltIff(tok: Tokenizer, state: string, q: Question, maxLen: nat, headMaxLen: int, order: seq<nat>)
    requires tok.maskToken != ""
    ensures var r := Built(tok, state, q, maxLen, headMaxLen, order);
            var sorted := multiset(order) == multiset(seq(|q.crit|, i => i));
            && (r == Err(NotAChoiceTask) <==> !q.isChoice)
            && (r == Err(NotAPermutation) <==> q.isChoice && !(|q.crit| >= 2 && sorted))
            && (r.Ok? <==> q.isChoice && |q.crit| >= 2 && sorted)
  {
    PermutationIff(order, |q.crit|);
    hide IsPermutation, Encode;
  }

  // ---- The ends of an overlong source ----

  /** A source over the limit keeps both its ends, of nearly equal length, around the notice. */
  lemma TrimmedKeepsBothEnds(raw: string) returns (head: nat, tail: nat)
    requires |raw| > MAX_SOURCE_CHARS
    ensures (head == tail || head == tail + 1) && head + tail + 45 == MAX_SOURCE_CHARS && head + tail < |raw|
    ensures TrimChars(raw).text ==
            raw[..head] + "\n[... middle omitted for local decision ...]\n" + raw[|raw| - tail..]
  {
    var room := MAX_SOURCE_CHARS - |Omission()|;
    head, tail := (room + 1) / 2, room - (room + 1) / 2;
  }
}
