/**
 Command arguments with quotes (src/app/text.ts). Single quotes keep everything;
 in double quotes a backslash before a double quote stands for that quote.
 */
module QuotedArguments {
  import opened Common

  datatype State = State(args: seq<string>, current: string, quote: Option<char>)

  datatype Failure = UnclosedQuote

  const START := State([], "", None)

  function Push(s: State): State {
    if s.current == "" then s else s.(args := s.args + [s.current], current := "")
  }

  /** The number of characters one step reads: two for an escaped quote. */
  function Width(s: State, rest: string): (n: nat)
    requires |rest| > 0
    ensures 1 <= n <= |rest|
  {
    if s.quote == Some('"') && rest[0] == '\\' && |rest| > 1 && rest[1] == '"' then 2 else 1
  }

  function Step(s: State, rest: string): State
    requires |rest| > 0
  {
    var c := rest[0];
    if s.quote.Some? then
      if c == s.quote.value then s.(quote := None)
      else if Width(s, rest) == 2 then s.(current := s.current + [rest[1]])
      else s.(current := s.current + [c])
    else if c == '"' || c == '\'' then s.(quote := Some(c))
    else if IsSpace(c) then Push(s)
    else s.(current := s.current + [c])
  }

  function Walk(rest: string, s: State): State
    decreases |rest|
  {
    if |rest| == 0 then s else Walk(rest[Width(s, rest)..], Step(s, rest))
  }

  function Parse(value: string): Result<seq<string>, Failure> {
    var s := Walk(value, START);
    if s.quote.Some? then Err(UnclosedQuote) else Ok(Push(s).args)
  }

  // ---- Printing ----

  /** The inside of a single-quoted argument; a single quote leaves and enters again. */
  function Body(arg: string): string {
    if arg == "" then "" else (if arg[0] == '\'' then "'\"'\"'" else [arg[0]]) + Body(arg[1..])
  }

  function Quote(arg: string): string {
    "'" + Body(arg) + "'"
  }

  function Print(args: seq<string>): string {
    if |args| == 0 then "" else Quote(args[0]) + " " + Print(args[1..])
  }

  function NonEmptyOnes(args: seq<string>): seq<string> {
    if |args| == 0 then [] else (if args[0] == "" then [] else [args[0]]) + NonEmptyOnes(args[1..])
  }

  // ---- Walking over a concatenation ----

  lemma WalkStep(rest: string, s: State)
    requires |rest| > 0
    ensures Walk(rest, s) == Walk(rest[Width(s, rest)..], Step(s, rest))
  {}

  /** A part that ends outside quotes can be walked on its own. */
  lemma {:induction false} WalkConcat(a: string, b: string, s: State)
    requires Walk(a, s).quote.None?
    ensures Walk(a + b, s) == Walk(b, Walk(a, s))
    decreases |a|
  {
    if |a| == 0 {
      assert a + b == b;
    } else {
      WalkStep(a, s);
      WalkStep(a + b, s);
      var n := Width(s, a);
      assert |a| == 1 ==> a[n..] == "" && Walk(a, s) == Step(s, a);
      hide Walk;
      assert |a| > 1 ==> (a + b)[1] == a[1];
      assert Width(s, a + b) == n && Step(s, a + b) == Step(s, a);
      assert (a + b)[n..] == a[n..] + b;
      WalkConcat(a[n..], b, Step(s, a));
    }
  }

  /** What was read before only stands in front. */
  lemma {:induction false} WalkAfter(rest: string, args: seq<string>, s: State)
    ensures Walk(rest, s.(args := args + s.args)) == Walk(rest, s).(args := args + Walk(rest, s).args)
    decreases |rest|
  {
    if |rest| > 0 {
      WalkStep(rest, s);
      WalkStep(rest, s.(args := args + s.args));
      hide Walk, IsSpace;
      var t := Step(s, rest);
      assert args + (s.args + [s.current]) == args + s.args + [s.current];
      assert Step(s.(args := args + s.args), rest) == t.(args := args + t.args);
      WalkAfter(rest[Width(s, rest)..], args, t);
    }
  }

  /** A plain character inside single quotes. */
  lemma PlainIsRead(c: char, tail: string, s: State)
    requires s.quote == Some('\'') && c != '\''
    ensures Walk([c] + tail, s) == Walk(tail, s.(current := s.current + [c]))
  {
    WalkStep([c] + tail, s);
    hide Walk;
    assert ([c] + tail)[1..] == tail;
  }

  /** A quote outside quotes, or the one that closes. */
  lemma QuoteTurns(c: char, tail: string, s: State)
    requires c == '"' || c == '\''
    requires s.quote.None? || s.quote == Some(c)
    ensures Walk([c] + tail, s) == Walk(tail, s.(quote := if s.quote.None? then Some(c) else None))
  {
    WalkStep([c] + tail, s);
    hide Walk;
    assert ([c] + tail)[1..] == tail;
  }

  /** A single quote inside double quotes. */
  lemma SingleInDouble(tail: string, s: State)
    requires s.quote == Some('"')
    ensures Walk("'" + tail, s) == Walk(tail, s.(current := s.current + "'"))
  {
    WalkStep("'" + tail, s);
    hide Walk;
    assert ("'" + tail)[1..] == tail;
  }

  /** Leaving the quotes, a single quote in double quotes, and entering them again. */
  lemma QuoteIsRead(tail: string, s: State)
    requires s.quote == Some('\'')
    ensures Walk("'\"'\"'" + tail, s) == Walk(tail, s.(current := s.current + "'"))
  {
    hide Walk;
    var t4 := "'" + tail;
    var t3 := "\"" + t4;
    var t2 := "'" + t3;
    var t1 := "\"" + t2;
    assert "'\"'\"'" + tail == "'" + t1;
    var closed := s.(quote := None, current := s.current + "'");
    QuoteTurns('\'', t1, s);
    QuoteTurns('"', t2, s.(quote := None));
    SingleInDouble(t3, s.(quote := Some('"')));
    QuoteTurns('"', t4, closed.(quote := Some('"')));
    QuoteTurns('\'', tail, closed);
  }

  lemma {:induction false} BodyIsRead(arg: string, rest: string, s: State)
    requires s.quote == Some('\'')
    ensures Walk(Body(arg) + "'" + rest, s) == Walk(rest, s.(current := s.current + arg, quote := None))
    decreases |arg|
  {
    hide Walk;
    if arg == "" {
      assert Body(arg) + "'" + rest == "'" + rest;
      assert s.current + arg == s.current;
      QuoteTurns('\'', rest, s);
    } else {
      var tail := Body(arg[1..]) + "'" + rest;
      assert s.current + [arg[0]] + arg[1..] == s.current + arg;
      BodyIsRead(arg[1..], rest, s.(current := s.current + [arg[0]]));
      if arg[0] == '\'' {
        assert Body(arg) + "'" + rest == "'\"'\"'" + tail;
        QuoteIsRead(tail, s);
      } else {
        assert Body(arg) + "'" + rest == [arg[0]] + tail;
        PlainIsRead(arg[0], tail, s);
      }
    }
  }

  lemma SpaceIsRead(c: char, tail: string, s: State)
    requires IsSpace(c) && s.quote.None?
    ensures Walk([c] + tail, s) == Walk(tail, Push(s))
  {
    WalkStep([c] + tail, s);
    hide Walk;
    assert ([c] + tail)[1..] == tail;
  }

  /** One printed argument, up to the space after it. */
  lemma ArgumentIsRead(arg: string, rest: string, read: seq<string>)
    ensures Walk(Quote(arg) + " " + rest, State(read, "", None)) == Walk(rest, Push(State(read, arg, None)))
  {
    assert IsSpace(' ');
    hide Walk, Body, IsSpace;
    var tail := " " + rest;
    var s := State(read, "", None);
    assert Quote(arg) + " " + rest == "'" + (Body(arg) + "'" + tail);
    QuoteTurns('\'', Body(arg) + "'" + tail, s);
    BodyIsRead(arg, tail, s.(quote := Some('\'')));
    assert "" + arg == arg;
    SpaceIsRead(' ', rest, State(read, arg, None));
  }

  lemma {:induction false} PrintedIsRead(args: seq<string>, read: seq<string>)
    ensures Walk(Print(args), State(read, "", None)) == State(read + NonEmptyOnes(args), "", None)
    decreases |args|
  {
    if |args| == 0 {
      assert read + [] == read;
    } else {
      hide Walk, Quote;
      ArgumentIsRead(args[0], Print(args[1..]), read);
      PrintedIsRead(args[1..], Push(State(read, args[0], None)).args);
      assert read + ([args[0]] + NonEmptyOnes(args[1..])) == read + [args[0]] + NonEmptyOnes(args[1..]);
      assert [] + NonEmptyOnes(args[1..]) == NonEmptyOnes(args[1..]);
    }
  }

  // ---- The main results ----

  /** Parsing what was printed gives the arguments that are not empty: the printer is a right inverse for those. */
  lemma PrintedArgumentsParse(args: seq<string>)
    ensures Parse(Print(args)) == Ok(NonEmptyOnes(args))
  {
    PrintedIsRead(args, []);
    assert [] + NonEmptyOnes(args) == NonEmptyOnes(args);
  }

  predicate AllNonEmpty(args: seq<string>) {
    forall i :: 0 <= i < |args| ==> args[i] != ""
  }

  lemma {:induction false} NonEmptyStay(args: seq<string>)
    ensures AllNonEmpty(args) ==> NonEmptyOnes(args) == args
    ensures AllNonEmpty(NonEmptyOnes(args))
  {
    if |args| > 0 {
      assert AllNonEmpty(args) ==> AllNonEmpty(args[1..]);
      NonEmptyStay(args[1..]);
    }
  }

  lemma {:induction false} WalkKeepsNonEmpty(rest: string, s: State)
    requires AllNonEmpty(s.args)
    ensures AllNonEmpty(Walk(rest, s).args)
    decreases |rest|
  {
    if |rest| > 0 {
      WalkKeepsNonEmpty(rest[Width(s, rest)..], Step(s, rest));
    }
  }

  /** Exactly the lists without empty arguments can be given. */
  lemma ParsedListsAreTheNonEmptyOnes(args: seq<string>)
    ensures AllNonEmpty(args) <==> exists value :: Parse(value) == Ok(args)
  {
    PrintedArgumentsParse(args);
    NonEmptyStay(args);
    forall value | Parse(value) == Ok(args) ensures AllNonEmpty(args) {
      WalkKeepsNonEmpty(value, START);
    }
  }

  /** Inputs with closed quotes, joined by white space, parse to the joined lists. */
  lemma JoinedInputsParse(a: string, b: string, c: char)
    requires Parse(a).Ok? && Parse(b).Ok? && IsSpace(c)
    ensures Parse(a + [c] + b) == Ok(Parse(a).value + Parse(b).value)
  {
    hide Walk, IsSpace;
    var s := Walk(a, START);
    assert a + [c] + b == a + ([c] + b);
    WalkConcat(a, [c] + b, START);
    SpaceIsRead(c, b, s);
    WalkAfter(b, Push(s).args, START);
    assert Push(s).args + [] == Push(s).args;
    var t := Walk(b, START);
    assert Push(s).args + (t.args + [t.current]) == Push(s).args + t.args + [t.current];
  }

  /** The inside of a double-quoted argument: only its double quotes are escaped. */
  function Escape(arg: string): string {
    if arg == "" then "" else (if arg[0] == '"' then "\\\"" else [arg[0]]) + Escape(arg[1..])
  }

  predicate EndsInBackslash(arg: string) {
    arg != "" && arg[|arg| - 1] == '\\'
  }

  /** An escaped quote, inside double quotes. */
  lemma EscapeIsRead(tail: string, s: State)
    requires s.quote == Some('"')
    ensures Walk("\\\"" + tail, s) == Walk(tail, s.(current := s.current + "\""))
  {
    var text := "\\\"" + tail;
    WalkStep(text, s);
    hide Walk;
    assert text[2..] == tail;
  }

  /** Any other character, inside double quotes. */
  lemma OtherIsRead(c: char, tail: string, s: State)
    requires s.quote == Some('"') && c != '"' && (c == '\\' ==> tail == "" || tail[0] != '"')
    ensures Walk([c] + tail, s) == Walk(tail, s.(current := s.current + [c]))
  {
    WalkStep([c] + tail, s);
    hide Walk;
    assert ([c] + tail)[1..] == tail;
    assert tail != "" ==> ([c] + tail)[1] == tail[0];
  }

  /** Inside double quotes, up to a last character that is not a backslash. */
  lemma {:induction false} EscapedIsRead(arg: string, rest: string, s: State)
    requires s.quote == Some('"') && !EndsInBackslash(arg)
    ensures Walk(Escape(arg) + rest, s) == Walk(rest, s.(current := s.current + arg))
    decreases |arg|
  {
    hide Walk;
    if arg == "" {
      assert Escape(arg) + rest == rest && s.current + arg == s.current;
    } else {
      assert Escape(arg) == (if arg[0] == '"' then "\\\"" else [arg[0]]) + Escape(arg[1..]);
      assert arg[0] == '\\' && |arg| > 1 ==> Escape(arg[1..])[0] != '"';
      hide Escape;
      var tail := Escape(arg[1..]) + rest;
      assert s.current + [arg[0]] + arg[1..] == s.current + arg;
      assert arg[1..] != "" ==> arg[1..][|arg| - 2] == arg[|arg| - 1];
      EscapedIsRead(arg[1..], rest, s.(current := s.current + [arg[0]]));
      if arg[0] == '"' {
        assert Escape(arg) + rest == "\\\"" + tail;
        EscapeIsRead(tail, s);
      } else {
        assert Escape(arg) + rest == [arg[0]] + tail;
        OtherIsRead(arg[0], tail, s);
      }
    }
  }

  /**
   Double quotes keep a nonempty argument, if and only if it does not end in a backslash, which would
   escape the closing quote.
   */
  lemma DoubleQuotedParsesIff(arg: string)
    requires arg != ""
    ensures Parse("\"" + Escape(arg) + "\"") == Ok([arg]) <==> !EndsInBackslash(arg)
  {
    var text := "\"" + Escape(arg) + "\"";
    assert text == "\"" + (Escape(arg) + "\"");
    QuoteTurns('"', Escape(arg) + "\"", START);
    var open := START.(quote := Some('"'));
    if !EndsInBackslash(arg) {
      EscapedIsRead(arg, "\"", open);
      assert "" + arg == arg;
      assert "\"" == "\"" + "";
      QuoteTurns('"', "", open.(current := arg));
      assert Walk("", START.(current := arg)) == START.(current := arg);
      assert [] + [arg] == [arg];
    } else {
      LastEscaped(arg);
    }
  }

  /** A backslash at the end takes the closing quote with it. */
  lemma LastEscaped(arg: string)
    requires EndsInBackslash(arg)
    ensures Walk(Escape(arg) + "\"", START.(quote := Some('"'))).quote.Some?
  {
    var n := |arg| - 1;
    var open := START.(quote := Some('"'));
    var k := FirstTrailing(arg);
    assert arg == arg[..k] + arg[k..];
    EscapeConcat(arg[..k], arg[k..]);
    assert Escape(arg) + "\"" == Escape(arg[..k]) + (Escape(arg[k..]) + "\"");
    EscapedIsRead(arg[..k], Escape(arg[k..]) + "\"", open);
    BackslashesStayOpen(arg[k..], open.(current := "" + arg[..k]));
  }

  /** Where the last run of backslashes begins. */
  function FirstTrailing(arg: string): (k: nat)
    ensures k <= |arg| && !EndsInBackslash(arg[..k])
    ensures forall i :: k <= i < |arg| ==> arg[i] == '\\'
    ensures EndsInBackslash(arg) ==> k < |arg|
  {
    if EndsInBackslash(arg) then
      assert arg[..|arg| - 1][..FirstTrailing(arg[..|arg| - 1])] == arg[..FirstTrailing(arg[..|arg| - 1])];
      FirstTrailing(arg[..|arg| - 1])
    else
      assert arg[..|arg|] == arg;
      |arg|
  }

  lemma {:induction false} EscapeConcat(a: string, b: string)
    ensures Escape(a + b) == Escape(a) + Escape(b)
  {
    if a == "" {
      assert a + b == b;
    } else {
      EscapeConcat(a[1..], b);
      assert (a + b)[1..] == a[1..] + b;
      var first := if a[0] == '"' then "\\\"" else [a[0]];
      assert Escape(a) == first + Escape(a[1..]) && Escape(a + b) == first + Escape(a[1..] + b);
      hide Escape;
      assert first + (Escape(a[1..]) + Escape(b)) == first + Escape(a[1..]) + Escape(b);
    }
  }

  lemma {:induction false} BackslashesStayOpen(arg: string, s: State)
    requires arg != "" && (forall i :: 0 <= i < |arg| ==> arg[i] == '\\') && s.quote == Some('"')
    ensures Walk(Escape(arg) + "\"", s).quote.Some?
    decreases |arg|
  {
    if |arg| == 1 {
      assert Escape(arg[1..]) == "";
      assert Escape(arg) + "\"" == "\\\"" + "";
      EscapeIsRead("", s);
    } else {
      hide Walk;
      var tail := Escape(arg[1..]) + "\"";
      assert Escape(arg) + "\"" == [arg[0]] + tail;
      assert arg[1..][0] == '\\' && tail[0] == '\\';
      OtherIsRead(arg[0], tail, s);
      BackslashesStayOpen(arg[1..], s.(current := s.current + [arg[0]]));
    }
  }

  predicate Unquoted(value: string) {
    '"' !in value && '\'' !in value
  }

  function WithoutSpaces(value: string): string {
    if value == "" then "" else (if IsSpace(value[0]) then "" else [value[0]]) + WithoutSpaces(value[1..])
  }

  lemma {:induction false} UnquotedWalk(rest: string, s: State)
    requires Unquoted(rest) && s.quote.None?
    ensures var t := Walk(rest, s);
            && t.quote.None?
            && Flatten(t.args) + t.current == Flatten(s.args) + s.current + WithoutSpaces(rest)
    decreases |rest|
  {
    hide IsSpace, Flatten;
    if |rest| == 0 {
      assert Flatten(s.args) + s.current + "" == Flatten(s.args) + s.current;
    } else {
      WalkStep(rest, s);
      hide Walk;
      var t := Step(s, rest);
      assert rest[0] in rest && forall c :: c in rest[1..] ==> c in rest;
      UnquotedWalk(rest[1..], t);
      FlattenSnoc(s.args, s.current);
      assert IsSpace(rest[0]) ==> Flatten(t.args) + t.current == Flatten(s.args) + s.current;
      assert !IsSpace(rest[0]) ==> Flatten(t.args) + t.current == Flatten(s.args) + s.current + [rest[0]];
      assert Flatten(s.args) + s.current + ([rest[0]] + WithoutSpaces(rest[1..])) ==
             Flatten(s.args) + s.current + [rest[0]] + WithoutSpaces(rest[1..]);
      assert "" + WithoutSpaces(rest[1..]) == WithoutSpaces(rest[1..]);
    }
  }

  /** Without quotes nothing fails, and nothing but white space is lost. */
  lemma UnquotedInputIsKept(value: string)
    requires Unquoted(value)
    ensures Parse(value).Ok? && Flatten(Parse(value).value) == WithoutSpaces(value)
  {
    UnquotedWalk(value, START);
    var s := Walk(value, START);
    FlattenSnoc(s.args, s.current);
    assert Flatten(s.args) + "" == Flatten(s.args);
    assert Flatten<char>(START.args) + START.current + WithoutSpaces(value) == WithoutSpaces(value);
  }

  // ---- The parser as written ----

  method ParseQuotedArguments(value: string) returns (r: Result<seq<string>, Failure>)
    ensures r == Parse(value)
    ensures r.Ok? ==> AllNonEmpty(r.value)
  {
    WalkKeepsNonEmpty(value, START);
    var args, current, quote := [], "", None;
    var index := 0;
    assert value[0..] == value;
    while index < |value|
      invariant 0 <= index <= |value|
      invariant Walk(value[index..], State(args, current, quote)) == Walk(value, START)
    {
      ghost var s := State(args, current, quote);
      ghost var rest := value[index..];
      var c := value[index];
      assert index + 1 < |value| ==> rest[1] == value[index + 1];
      assert rest[Width(s, rest)..] == value[index + Width(s, rest)..];
      if quote.Some? {
        if c == quote.value {
          quote := None;
        } else if c == '\\' && quote.value == '"' && index + 1 < |value| && value[index + 1] == '"' {
          index := index + 1;
          current := current + [value[index]];
        } else {
          current := current + [c];
        }
      } else if c == '"' || c == '\'' {
        quote := Some(c);
      } else if IsSpace(c) {
        if current != "" {
          args, current := args + [current], "";
        }
      } else {
        current := current + [c];
      }
      index := index + 1;
    }
    if quote.Some? {
      return Err(UnclosedQuote);
    }
    if current != "" {
      args := args + [current];
    }
    return Ok(args);
  }
}
