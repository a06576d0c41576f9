/** Shared vocabulary: optional values, results, and searching inside sequences. */
module Common {

  datatype Option<+T> = None | Some(value: T)

  datatype Result<+T, +E> = Ok(value: T) | Err(error: E)

  /** The pattern `w` occurs in `s` at position `i`. */
  predicate OccursAt<T(==)>(s: seq<T>, w: seq<T>, i: int) {
    0 <= i && i + |w| <= |s| && s[i..i + |w|] == w
  }

  /** The first position at or after `from` where `w` occurs in `s`, or -1. */
  function IndexOf<T(==)>(s: seq<T>, w: seq<T>, from: nat): (r: int)
    ensures r == -1 || (from <= r && OccursAt(s, w, r))
    ensures forall i :: from <= i && (r == -1 || i < r) ==> !OccursAt(s, w, i)
    decreases |s| - from
  {
    if from + |w| > |s| then -1
    else if s[from..from + |w|] == w then from
    else IndexOf(s, w, from + 1)
  }

  lemma OccursIndex<T>(s: seq<T>, w: seq<T>, i: int, j: int)
    requires OccursAt(s, w, i) && 0 <= j < |w|
    ensures s[i + j] == w[j]
  {
    assert s[i..i + |w|][j] == s[i + j];
  }

  /** An occurrence inside an occurrence. */
  lemma OccursInside<T>(s: seq<T>, w: seq<T>, v: seq<T>, i: int, j: int)
    requires OccursAt(s, w, i) && OccursAt(w, v, j)
    ensures OccursAt(s, v, i + j)
  {
    var x, y := s[i + j..i + j + |v|], s[i..i + |w|][j..j + |v|];
    assert forall k :: 0 <= k < |v| ==> x[k] == y[k];
  }

  /** One of the two sequences begins with the other. */
  predicate Compatible<T(==)>(a: seq<T>, w: seq<T>) {
    a <= w || w <= a
  }

  /** Reading on cannot make an incompatible beginning compatible. */
  lemma CompatibleStable<T>(a: seq<T>, b: seq<T>, w: seq<T>)
    ensures !Compatible(a, w) ==> !Compatible(a + b, w)
    ensures |w| <= |a| ==> (w <= a <==> w <= a + b)
  {
    var s := a + b;
    if Compatible(s, w) && |a| <= |w| {
      assert a == s[..|a|] == w[..|a|];
    } else if Compatible(s, w) {
      assert a[..|w|] == s[..|w|];
    }
    if |w| <= |a| {
      assert s[..|w|] == a[..|w|];
    }
  }

  lemma SamePrefix<T>(p: seq<T>, x: seq<T>, y: seq<T>)
    ensures p + x == p + y ==> x == y
  {
    assert (p + x)[|p|..] == x && (p + y)[|p|..] == y;
  }

  /** The concatenation of all chunks, in order. */
  function Flatten<T>(chunks: seq<seq<T>>): seq<T> {
    if |chunks| == 0 then [] else chunks[0] + Flatten(chunks[1..])
  }

  lemma {:induction false} FlattenSnoc<T>(chunks: seq<seq<T>>, last: seq<T>)
    ensures Flatten(chunks + [last]) == Flatten(chunks) + last
    decreases |chunks|
  {
    if |chunks| == 0 {
      assert chunks + [last] == [last] && [last][1..] == [];
    } else {
      FlattenSnoc(chunks[1..], last);
      assert (chunks + [last])[1..] == chunks[1..] + [last];
    }
  }

  function Min(a: int, b: int): (m: int)
    ensures m <= a && m <= b && (m == a || m == b)
  {
    if a < b then a else b
  }

  /** The characters between separators. */
  function Split(text: string, separator: char): (fields: seq<string>)
    ensures |fields| > 0
  {
    if text == "" then [""]
    else
      var rest := Split(text[1..], separator);
      if text[0] == separator then [""] + rest else [[text[0]] + rest[0]] + rest[1..]
  }

  /** Texts with a separator between them. */
  function Joined(parts: seq<string>, separator: string): string
    requires |parts| > 0
  {
    if |parts| == 1 then parts[0] else parts[0] + separator + Joined(parts[1..], separator)
  }

  lemma {:induction false} SplitNone(text: string, separator: char)
    requires separator !in text
    ensures Split(text, separator) == [text]
  {
    if text != "" {
      assert text[0] in text && forall c :: c in text[1..] ==> c in text;
      SplitNone(text[1..], separator);
      assert [text[0]] + text[1..] == text;
    }
  }

  predicate Lacks(text: string, separator: char) {
    separator !in text
  }

  predicate AllLack(fields: seq<string>, separator: char) {
    forall k :: 0 <= k < |fields| ==> Lacks(fields[k], separator)
  }

  lemma {:induction false} SplitHead(head: string, rest: string, separator: char)
    requires Lacks(head, separator)
    ensures Split(head + [separator] + rest, separator) == [head] + Split(rest, separator)
    decreases |head|
  {
    var text := head + [separator] + rest;
    if head == "" {
      assert text[1..] == rest;
    } else {
      assert head[0] in head && forall c :: c in head[1..] ==> c in head;
      assert text[1..] == head[1..] + [separator] + rest;
      SplitHead(head[1..], rest, separator);
      assert [head[0]] + head[1..] == head;
    }
  }

  lemma {:induction false} SplitJoined(fields: seq<string>, separator: char)
    requires |fields| > 0 && AllLack(fields, separator)
    ensures Split(Joined(fields, [separator]), separator) == fields
    decreases |fields|
  {
    assert Lacks(fields[0], separator);
    if |fields| == 1 {
      SplitNone(fields[0], separator);
    } else {
      assert AllLack(fields[1..], separator);
      SplitHead(fields[0], Joined(fields[1..], [separator]), separator);
      SplitJoined(fields[1..], separator);
    }
  }

  lemma JoinedMore(first: string, rest: seq<string>, separator: string)
    requires |rest| > 0
    ensures Joined([first] + rest, separator) == first + separator + Joined(rest, separator)
  {
    assert ([first] + rest)[1..] == rest;
  }

  lemma JoinedLonger(rest: seq<string>, c: char, separator: string)
    requires |rest| > 0
    ensures Joined([[c] + rest[0]] + rest[1..], separator) == [c] + Joined(rest, separator)
  {
    if |rest| > 1 {
      JoinedMore([c] + rest[0], rest[1..], separator);
      JoinedMore(rest[0], rest[1..], separator);
      assert [rest[0]] + rest[1..] == rest;
      hide Joined;
    }
  }

  lemma {:induction false} JoinedSplit(text: string, separator: char)
    ensures Joined(Split(text, separator), [separator]) == text && AllLack(Split(text, separator), separator)
    decreases |text|
  {
    hide Joined;
    if text == "" {
      assert Joined([""], [separator]) == "" by { JoinedOne("", separator); }
    } else {
      var rest := Split(text[1..], separator);
      JoinedSplit(text[1..], separator);
      JoinedMore("", rest, [separator]);
      JoinedLonger(rest, text[0], [separator]);
      assert [text[0]] + text[1..] == text;
      assert Lacks(rest[0], separator);
    }
  }

  lemma JoinedOne(text: string, separator: char)
    ensures Joined([text], [separator]) == text
  {}

  /** The length of a text in UTF-16 units. */
  function Units(text: string): nat {
    if text == "" then 0 else (if text[0] as int >= 0x10000 then 2 else 1) + Units(text[1..])
  }

  const MAX_CLIPBOARD_TEXT_CHARS := 256 * 1024

  /** White space as JavaScript has it, in `\s` and when trimming. */
  predicate IsSpace(c: char) {
    || c in " \t\n\r\U{000B}\U{000C}\U{00A0}\U{1680}\U{2028}\U{2029}\U{202F}\U{205F}\U{3000}\U{FEFF}"
    || '\U{2000}' <= c <= '\U{200A}'
  }
}
