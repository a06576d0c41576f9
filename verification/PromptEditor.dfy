/**
 The prompt editor's saved line and caret while other output or another UI owns
 the terminal (src/cli/prompt-input.ts).

 `Apply` gives the effect of each callback on the editor's state; the class
 below performs them on its fields.
 */
module PromptEditing {
  import opened Common
  import opened PasteMarkers

  /**
   `line` and `cursor` belong to readline; `savedLine` and `savedCursor` are the
   editor's copies; `shown` is the draft the primary terminal buffer displays.
   */
  datatype Editor = Editor(
    line: string,
    cursor: nat,
    savedLine: string,
    savedCursor: nat,
    depth: nat,
    inputSuspended: bool,
    preserved: bool,
    active: bool,
    expansions: nat,
    shown: string)

  /** Which listeners were installed when the prompt started. */
  datatype Config = Config(keypressHooks: bool, keepOpen: bool)

  datatype Op =
    | WriteAbove
    | BeginThinking
    | EndThinking
    | SuspendInput(preserveDisplay: bool)
    | ResumeInput(preserveDisplay: bool)
    | Key(line: string, cursor: nat)
    | Submit
    | DeleteMarker(edit: Edit)
    | ReplaceMarker(marker: string, replacement: string)
    | Close

  /** `slice` clamps its bounds. */
  function Slice(s: string, from: nat, to: nat): string {
    var hi := if to < |s| then to else |s|;
    if from <= hi then s[from..hi] else ""
  }

  // ---- The building blocks ----

  /** Hide the prompt; only the outermost suspension saves the draft. */
  function Suspended(e: Editor): Editor {
    if !e.active then e
    else if e.depth > 0 then e.(depth := e.depth + 1)
    else e.(depth := 1, savedLine := e.line, savedCursor := e.cursor, shown := "")
  }

  /** Leave one suspension; the outermost one repaints the saved draft. */
  function Resumed(e: Editor): Editor {
    if e.depth == 0 then e
    else
      var d := e.(depth := e.depth - 1);
      if d.depth > 0 || !d.active then d
      else d.(cursor := d.savedCursor, shown := d.savedLine)
  }

  function SetDraft(e: Editor, line: string, cursor: nat): Editor {
    e.(line := line, cursor := cursor, savedLine := line, savedCursor := cursor)
  }

  /** Where the caret goes when `length` characters at `start` are replaced. */
  function NextCursor(cursor: nat, start: nat, length: nat, replacement: nat): nat {
    if cursor <= start then cursor
    else if cursor < start + length then start + replacement
    else cursor + replacement - length
  }

  // ---- One step for each operation of the source ----

  function BeginSuspendInput(e: Editor, preserveDisplay: bool): Editor {
    if !e.active || e.inputSuspended then e
    else if preserveDisplay && e.depth == 0 then
      e.(depth := 1, savedLine := e.line, savedCursor := e.cursor, preserved := true, inputSuspended := true)
    else Suspended(e).(inputSuspended := true)
  }

  function FinishResumeInput(e: Editor, preserveDisplay: bool): Editor {
    if !e.active || !e.inputSuspended then e
    else
      var reuse := preserveDisplay && e.preserved && e.line == e.savedLine && e.cursor == e.savedCursor;
      var r :=
        if reuse then e.(depth := if e.depth > 0 then e.depth - 1 else 0)
        else if e.preserved then Resumed(e.(shown := ""))
        else Resumed(e);
      r.(inputSuspended := false, preserved := false)
  }

  /** readline has changed the buffer; then the installed keypress hook runs. */
  function AfterKey(config: Config, e: Editor, line: string, cursor: nat): Editor {
    var k := e.(line := line, cursor := cursor, shown := if e.inputSuspended then e.shown else line);
    if config.keypressHooks && k.inputSuspended then k.(savedLine := k.line, savedCursor := k.cursor) else k
  }

  function ClosePrompt(e: Editor): Editor {
    e.(active := false, depth := 0, inputSuspended := false, expansions := 0)
  }

  /** Enter empties readline's buffer and reports the line. */
  function SubmitLine(config: Config, e: Editor): Editor {
    if !config.keepOpen then ClosePrompt(e)
    else
      var s := e.(line := "", cursor := 0, shown := if e.inputSuspended then e.shown else "");
      var t := if s.inputSuspended then s.(savedLine := s.line, savedCursor := s.cursor) else s;
      AfterKey(config, t, t.line, t.cursor)
  }

  function Replaced(e: Editor, marker: string, replacement: string): (r: Editor)
  {
    var start := IndexOf(e.line, marker, 0);
    if start < 0 || !e.active then e
    else
      var s := Suspended(e);
      var line := Slice(s.savedLine, 0, start) + replacement + Slice(s.savedLine, start + |marker|, |s.savedLine|);
      Resumed(SetDraft(s, line, NextCursor(s.savedCursor, start, |marker|, |replacement|)))
  }

  function Apply(config: Config, e: Editor, op: Op): Editor {
    match op
    case WriteAbove => if e.active then Resumed(Suspended(e)) else e
    case BeginThinking => if e.active then Suspended(e).(expansions := e.expansions + 1) else e
    case EndThinking => Resumed(e).(expansions := if e.expansions > 0 then e.expansions - 1 else 0)
    case SuspendInput(preserve) => BeginSuspendInput(e, preserve)
    case ResumeInput(preserve) => FinishResumeInput(e, preserve)
    case Key(line, cursor) => AfterKey(config, e, line, cursor)
    case Submit => SubmitLine(config, e)
    case DeleteMarker(edit) => if e.active then Resumed(SetDraft(Suspended(e), edit.line, edit.cursor)) else e
    case ReplaceMarker(marker, replacement) => Replaced(e, marker, replacement)
    case Close => ClosePrompt(e)
  }

  /**
   When an operation can happen: keys reach readline only while the prompt is
   open or its input is fed by the suspending owner; a disclosure ends once; a
   marker is deleted where it ends at the caret.
   */
  ghost predicate Enabled(e: Editor, op: Op) {
    match op
    case Key(line, cursor) => e.active && (e.depth == 0 || e.inputSuspended) && cursor <= |line|
    case Submit => e.active && (e.depth == 0 || e.inputSuspended)
    case EndThinking => e.expansions > 0
    case DeleteMarker(edit) => exists marker :: TakesOut(e.line, e.cursor, marker, edit)
    case _ => true
  }

  function Start(startSuspended: bool): Editor {
    Editor("", 0, "", 0, if startSuspended then 1 else 0, startSuspended, false, true, 0, "")
  }

  ghost predicate Possible(config: Config, e: Editor, ops: seq<Op>)
    decreases |ops|
  {
    |ops| == 0 || (Enabled(e, ops[0]) && Possible(config, Apply(config, e, ops[0]), ops[1..]))
  }

  function Run(config: Config, e: Editor, ops: seq<Op>): Editor
    decreases |ops|
  {
    if |ops| == 0 then e else Run(config, Apply(config, e, ops[0]), ops[1..])
  }

  // ---- The saved draft is right while the prompt is suspended ----

  predicate SavedDraftRight(e: Editor) {
    e.active && e.depth > 0 ==> e.savedLine == e.line && e.savedCursor == e.cursor
  }

  predicate Inv(e: Editor) {
    && e.cursor <= |e.line|
    && SavedDraftRight(e)
    && (e.active ==> e.depth == e.expansions + (if e.inputSuspended then 1 else 0))
    && (!e.active ==> e.depth == 0)
    && (e.preserved ==> e.inputSuspended || !e.active)
  }

  lemma StepKeepsInv(config: Config, e: Editor, op: Op)
    requires Inv(e) && Enabled(e, op) && config.keypressHooks
    ensures Inv(Apply(config, e, op))
  {
    if op.ReplaceMarker? { ReplaceKeepsTheRest(e, op.marker, op.replacement); }
  }

  lemma {:induction false} RunKeepsInv(config: Config, e: Editor, ops: seq<Op>)
    requires Inv(e) && Possible(config, e, ops) && config.keypressHooks
    ensures Inv(Run(config, e, ops))
    decreases |ops|
  {
    if |ops| > 0 {
      StepKeepsInv(config, e, ops[0]);
      RunKeepsInv(config, Apply(config, e, ops[0]), ops[1..]);
    }
  }

  /**
   Replacing a marker changes the first occurrence of it and nothing else, and
   the caret keeps its place in the text outside the marker.
   */
  lemma ReplaceKeepsTheRest(e: Editor, marker: string, replacement: string)
    requires Inv(e)
    ensures var r := Replaced(e, marker, replacement);
            var at := IndexOf(e.line, marker, 0);
            && Inv(r)
            && (at < 0 || !e.active ==> r == e)
            && (at >= 0 && e.active ==>
                  var before, after := e.line[..at], e.line[at + |marker|..];
                  && e.line == before + marker + after
                  && r.line == before + replacement + after
                  && r.cursor <= |r.line|
                  && (e.cursor <= at ==> r.cursor == e.cursor)
                  && (e.cursor >= at + |marker| && e.cursor > at ==> |r.line| - r.cursor == |e.line| - e.cursor)
                  && (at < e.cursor < at + |marker| ==> r.cursor == at + |replacement|))
  {
    hide IndexOf, Slice;
    var at := IndexOf(e.line, marker, 0);
    if at >= 0 && e.active {
      ReplaceForm(e, marker, replacement);
      SliceParts(e.line, marker, at);
    }
  }

  /** Editing the draft under a suspension of its own changes the draft and the saved copy alike. */
  lemma DraftForm(e: Editor, line: string, cursor: nat)
    requires e.active
    ensures Resumed(SetDraft(Suspended(e), line, cursor)) ==
            e.(line := line, cursor := cursor, savedLine := line, savedCursor := cursor,
               shown := if e.depth == 0 then line else e.shown)
  {
  }

  lemma ReplaceForm(e: Editor, marker: string, replacement: string)
    requires Inv(e) && e.active && IndexOf(e.line, marker, 0) >= 0
    ensures var at := IndexOf(e.line, marker, 0);
            var line := e.line[..at] + replacement + e.line[at + |marker|..];
            var cursor := NextCursor(e.cursor, at, |marker|, |replacement|);
            Replaced(e, marker, replacement) ==
            e.(line := line, cursor := cursor, savedLine := line, savedCursor := cursor,
               shown := if e.depth == 0 then line else e.shown)
  {
    hide IndexOf, OccursAt, Resumed, SetDraft;
    var at := IndexOf(e.line, marker, 0);
    assert OccursAt(e.line, marker, at);
    var s := Suspended(e);
    assert s.savedLine == e.line && s.savedCursor == e.cursor;
    SliceParts(e.line, marker, at);
    DraftForm(e, e.line[..at] + replacement + e.line[at + |marker|..],
              NextCursor(e.cursor, at, |marker|, |replacement|));
  }

  lemma SliceParts(line: string, marker: string, at: nat)
    requires OccursAt(line, marker, at)
    ensures at + |marker| <= |line|
    ensures Slice(line, 0, at) == line[..at]
    ensures Slice(line, at + |marker|, |line|) == line[at + |marker|..]
    ensures line == line[..at] + marker + line[at + |marker|..]
  {
  }

  /** Deleting a marker leaves the text around it and puts the caret where it began. */
  lemma DeleteKeepsTheRest(config: Config, e: Editor, marker: string, edit: Edit)
    requires Inv(e) && e.active && TakesOut(e.line, e.cursor, marker, edit)
    ensures var r := Apply(config, e, DeleteMarker(edit));
            && Inv(r)
            && e.line == r.line[..r.cursor] + marker + r.line[r.cursor..]
            && r.cursor + |marker| == e.cursor
  {
    var start := e.cursor - |marker|;
    assert edit.line[..start] == e.line[..start] && edit.line[start..] == e.line[e.cursor..];
    assert e.line == e.line[..start] + e.line[start..e.cursor] + e.line[e.cursor..];
  }

  ghost predicate AlwaysRight(config: Config) {
    forall suspended, ops :: Possible(config, Start(suspended), ops) ==>
      SavedDraftRight(Run(config, Start(suspended), ops))
  }

  /**
   The saved line and caret are right in every run exactly when the keypress
   hooks are installed: without them, bytes fed to a suspended prompt change the
   draft behind the saved copy.
   */
  lemma SavedDraftNeedsHooks(config: Config)
    ensures AlwaysRight(config) <==> config.keypressHooks
  {
    if config.keypressHooks {
      forall suspended, ops | Possible(config, Start(suspended), ops)
        ensures SavedDraftRight(Run(config, Start(suspended), ops))
      {
        RunKeepsInv(config, Start(suspended), ops);
      }
    } else {
      var e := Start(true);
      var ops := [Key("x", 1)];
      assert ops[1..] == [];
      assert Possible(config, Apply(config, e, ops[0]), ops[1..]);
      assert Possible(config, e, ops);
      assert Run(config, e, ops) == Apply(config, e, ops[0]);
    }
  }

  // ---- What the terminal shows once the prompt is back ----

  predicate ShownRight(e: Editor) {
    e.active && e.depth == 0 ==> e.shown == e.line
  }

  /** The input is taken away and the display is left as it is. */
  predicate Preserves(e: Editor, op: Op) {
    op == SuspendInput(true) && e.active && !e.inputSuspended && e.depth == 0
  }

  /** A preserved display is taken back, and nothing else hides the prompt. */
  predicate Reuses(e: Editor, op: Op) {
    op == ResumeInput(true) && e.active && e.inputSuspended && e.preserved && e.depth == 1
  }

  /** The draft when a display was last preserved; `left` is the one before. */
  function DraftLeft(e: Editor, left: string, op: Op): string {
    if Preserves(e, op) then e.line else left
  }

  /** Every preserved display is taken back with the draft that was left behind. */
  ghost predicate Honest(config: Config, e: Editor, left: string, ops: seq<Op>)
    decreases |ops|
  {
    |ops| == 0 ||
    ((Reuses(e, ops[0]) ==> e.line == left) &&
     Honest(config, Apply(config, e, ops[0]), DraftLeft(e, left, ops[0]), ops[1..]))
  }

  /** The terminal shows the draft after every step, whenever nothing hides it. */
  ghost predicate AlwaysShown(config: Config, e: Editor, ops: seq<Op>)
    decreases |ops|
  {
    ShownRight(e) && (|ops| > 0 ==> AlwaysShown(config, Apply(config, e, ops[0]), ops[1..]))
  }

  /** A preserved display still shows the draft that was left behind. */
  predicate ShowsLeft(e: Editor, left: string) {
    e.active && e.preserved ==> e.shown == left
  }

  /**
   The saved draft follows every key, so comparing it with the line never refuses
   a reuse: what counts is whether the draft is the one that was left behind.
   */
  lemma StepShows(config: Config, e: Editor, left: string, op: Op)
    requires Inv(e) && ShownRight(e) && ShowsLeft(e, left) && Enabled(e, op) && config.keypressHooks
    ensures ShowsLeft(Apply(config, e, op), DraftLeft(e, left, op))
    ensures ShownRight(Apply(config, e, op)) <==> (Reuses(e, op) ==> e.line == left)
  {
    if op.ReplaceMarker? && e.active && IndexOf(e.line, op.marker, 0) >= 0 {
      ReplaceForm(e, op.marker, op.replacement);
    }
  }

  /**
   The terminal shows the draft throughout a run if and only if every preserved
   display is taken back with the draft that was left behind.
   */
  lemma {:induction false} DisplayIsRightIffHonest(config: Config, e: Editor, left: string, ops: seq<Op>)
    requires Inv(e) && ShownRight(e) && ShowsLeft(e, left) && config.keypressHooks && Possible(config, e, ops)
    ensures AlwaysShown(config, e, ops) <==> Honest(config, e, left, ops)
    decreases |ops|
  {
    if |ops| > 0 {
      StepKeepsInv(config, e, ops[0]);
      StepShows(config, e, left, ops[0]);
      hide Apply;
      if ShownRight(Apply(config, e, ops[0])) {
        DisplayIsRightIffHonest(config, Apply(config, e, ops[0]), DraftLeft(e, left, ops[0]), ops[1..]);
      }
    }
  }

  lemma {:induction false} ShownAtTheEnd(config: Config, e: Editor, ops: seq<Op>)
    requires AlwaysShown(config, e, ops)
    ensures ShownRight(Run(config, e, ops))
    decreases |ops|
  {
    if |ops| > 0 {
      ShownAtTheEnd(config, Apply(config, e, ops[0]), ops[1..]);
    }
  }

  /** Every prompt whose preserved displays are taken back so shows its draft. */
  lemma HonestRunsShowTheDraft(config: Config, suspended: bool, ops: seq<Op>)
    requires config.keypressHooks && Possible(config, Start(suspended), ops)
    requires Honest(config, Start(suspended), "", ops)
    ensures ShownRight(Run(config, Start(suspended), ops))
  {
    DisplayIsRightIffHonest(config, Start(suspended), "", ops);
    ShownAtTheEnd(config, Start(suspended), ops);
  }

  /** While a preserved suspension lasts, nothing changes what the terminal shows. */
  lemma {:induction false} SuspensionLasts(config: Config, e: Editor, ops: seq<Op>)
    requires Inv(e) && e.preserved && config.keypressHooks && Possible(config, e, ops)
    requires forall op :: op in ops ==> !op.ResumeInput? && !op.Close?
    ensures var r := Run(config, e, ops); Inv(r) && r.preserved && (r.active ==> e.active && r.shown == e.shown)
    decreases |ops|
  {
    if |ops| > 0 {
      var r := Apply(config, e, ops[0]);
      StepKeepsInv(config, e, ops[0]);
      assert !ops[0].ResumeInput? && !ops[0].Close?;
      if e.active && ops[0].ReplaceMarker? && IndexOf(e.line, ops[0].marker, 0) >= 0 {
        ReplaceForm(e, ops[0].marker, ops[0].replacement);
      }
      assert r.preserved && (r.active ==> e.active && r.shown == e.shown);
      hide Apply, Inv;
      SuspensionLasts(config, r, ops[1..]);
    }
  }

  /**
   A preserved suspension that is given back with the display kept leaves the
   draft on the terminal if and only if the draft is what it was before.
   */
  lemma ReuseIsRightIffUnchanged(config: Config, e: Editor, ops: seq<Op>)
    requires Inv(e) && ShownRight(e) && e.active && e.depth == 0 && config.keypressHooks
    requires forall op :: op in ops ==> !op.ResumeInput? && !op.Close?
    requires Possible(config, Apply(config, e, SuspendInput(true)), ops)
    ensures var t := Run(config, Apply(config, e, SuspendInput(true)), ops);
            var r := Apply(config, t, ResumeInput(true));
            t.active && t.expansions == 0 ==> r.depth == 0 && r.line == t.line && (ShownRight(r) <==> t.line == e.line)
  {
    var s := Apply(config, e, SuspendInput(true));
    StepKeepsInv(config, e, SuspendInput(true));
    SuspensionLasts(config, s, ops);
  }

  /** One key typed while the display is preserved is not on the terminal afterwards. */
  lemma ReuseShowsAStaleDraft(config: Config)
    requires config.keypressHooks
    ensures var ops := [SuspendInput(true), Key("x", 1), ResumeInput(true)];
            var r := Run(config, Start(false), ops);
            && Possible(config, Start(false), ops)
            && r.active && r.depth == 0 && r.line == "x" && r.shown == ""
  {}

  // ---- What every operation does ----

  /** The draft is as it was, and the prompt is hidden `deeper` levels deeper. */
  predicate Moves(e: Editor, r: Editor, deeper: int) {
    r.line == e.line && r.cursor == e.cursor && r.active == e.active && r.depth == e.depth + deeper
  }

  /** The operations that hide the prompt and bring it back: none changes the draft, and what is shown is exact. */
  lemma HidingKeepsTheDraft(config: Config, e: Editor, op: Op)
    requires Inv(e) && ShownRight(e) && Enabled(e, op) && config.keypressHooks && e.active
    ensures var r := Apply(config, e, op);
            match op
            case WriteAbove =>
              && Moves(e, r, 0) && r.shown == e.shown && r.inputSuspended == e.inputSuspended
              && r.preserved == e.preserved && r.expansions == e.expansions
            case BeginThinking =>
              && Moves(e, r, 1) && r.expansions == e.expansions + 1 && r.inputSuspended == e.inputSuspended
              && r.preserved == e.preserved && r.shown == (if e.depth == 0 then "" else e.shown)
            case EndThinking =>
              && Moves(e, r, -1) && r.expansions == e.expansions - 1 && r.inputSuspended == e.inputSuspended
              && r.preserved == e.preserved && r.shown == (if e.depth == 1 then e.line else e.shown)
            case SuspendInput(keep) =>
              if e.inputSuspended then r == e
              else
                && Moves(e, r, 1) && r.inputSuspended && r.expansions == e.expansions
                && r.preserved == (keep && e.depth == 0)
                && r.shown == (if e.depth == 0 && !keep then "" else e.shown)
            case ResumeInput(keep) =>
              if !e.inputSuspended then r == e
              else
                && Moves(e, r, -1) && !r.inputSuspended && !r.preserved && r.expansions == e.expansions
                && r.shown == (if keep && e.preserved then e.shown
                               else if e.depth == 1 then e.line
                               else if e.preserved then "" else e.shown)
            case _ => true
  {}

  /** The operations on the draft and on the prompt itself. */
  lemma EditingIs(config: Config, e: Editor, op: Op)
    requires Inv(e) && ShownRight(e) && Enabled(e, op) && config.keypressHooks && e.active
    ensures var r := Apply(config, e, op);
            match op
            case Key(line, cursor) =>
              && r.line == line && r.cursor == cursor && r.active && r.depth == e.depth
              && r.inputSuspended == e.inputSuspended && r.expansions == e.expansions && r.preserved == e.preserved
              && r.shown == (if e.inputSuspended then e.shown else line)
            case Submit =>
              if config.keepOpen then
                && r.line == "" && r.cursor == 0 && r.active && r.depth == e.depth
                && r.inputSuspended == e.inputSuspended && r.expansions == e.expansions && r.preserved == e.preserved
                && r.shown == (if e.inputSuspended then e.shown else "")
              else !r.active && r.depth == 0 && !r.inputSuspended && r.expansions == 0
            case Close => !r.active && r.depth == 0 && !r.inputSuspended && r.expansions == 0
            case _ => true
  {}

  /** A prompt that is closed stays as it is, whatever is done to it. */
  lemma ClosedStaysClosed(config: Config, e: Editor, op: Op)
    requires Inv(e) && Enabled(e, op) && !e.active && !e.inputSuspended && e.expansions == 0
    ensures Apply(config, e, op) == e
  {}

  /** With or without hooks, a line taken while the input is suspended empties the saved draft too. */
  lemma SubmitEmptiesTheSavedDraft(config: Config, e: Editor)
    requires e.active && e.inputSuspended && config.keepOpen
    ensures var r := Apply(config, e, Submit);
            r.line == r.savedLine == "" && r.cursor == r.savedCursor == 0
  {}

  /** With or without hooks, the outermost level puts the caret where it was saved and shows the saved line. */
  lemma OutermostRestoresTheSavedCaret(config: Config, e: Editor)
    requires e.active && e.depth == 1 && e.expansions == 1
    ensures var r := Apply(config, e, EndThinking);
            r.cursor == e.savedCursor && r.shown == e.savedLine && r.depth == 0
  {}

  // ---- The editor class ----

  /** One prompt session around readline's line and cursor. */
  class PromptEditor {
    const config: Config
    // readline's edit buffer
    var line: string
    var cursor: nat
    // the editor's own copies
    var suspendedLine: string
    var suspendedCursor: nat
    var promptSuspensionDepth: nat
    var inputSuspended: bool
    var inputSuspendedWithPreservedDisplay: bool
    var promptActive: bool
    /** Disclosures opened from the prompt and not yet closed. */
    ghost var expansions: nat
    /** The draft in the primary terminal buffer. */
    var shown: string

    ghost function State(): Editor
      reads this
    {
      Editor(line, cursor, suspendedLine, suspendedCursor, promptSuspensionDepth, inputSuspended,
             inputSuspendedWithPreservedDisplay, promptActive, expansions, shown)
    }

    constructor (config: Config, startSuspended: bool)
      ensures State() == Start(startSuspended) && this.config == config
    {
      this.config := config;
      line, cursor, suspendedLine, suspendedCursor, shown := "", 0, "", 0, "";
      promptSuspensionDepth := if startSuspended then 1 else 0;
      inputSuspended, inputSuspendedWithPreservedDisplay, promptActive := startSuspended, false, true;
      expansions := 0;
    }

    method SuspendPrompt() returns (hidden: bool)
      modifies this
      ensures State() == Suspended(old(State())) && hidden == old(promptActive)
    {
      if !promptActive {
        return false;
      }
      promptSuspensionDepth := promptSuspensionDepth + 1;
      if promptSuspensionDepth > 1 {
        return true;
      }
      suspendedLine := line;
      suspendedCursor := cursor;
      shown := "";
      return true;
    }

    method ResumePrompt()
      modifies this
      ensures State() == Resumed(old(State()))
    {
      if promptSuspensionDepth == 0 {
        return;
      }
      promptSuspensionDepth := promptSuspensionDepth - 1;
      if promptSuspensionDepth > 0 || !promptActive {
        return;
      }
      cursor := suspendedCursor;
      shown := suspendedLine;
    }

    method WriteAbove()
      modifies this
      ensures State() == Apply(config, old(State()), Op.WriteAbove)
    {
      var hidden := SuspendPrompt();
      if hidden {
        ResumePrompt();
      }
    }

    method SuspendInput(preserveDisplay: bool) returns (suspended: bool)
      modifies this
      ensures State() == BeginSuspendInput(old(State()), preserveDisplay) && suspended == old(promptActive)
    {
      if !promptActive {
        return false;
      }
      if inputSuspended {
        return true;
      }
      if preserveDisplay && promptSuspensionDepth == 0 {
        promptSuspensionDepth := 1;
        suspendedLine := line;
        suspendedCursor := cursor;
        inputSuspendedWithPreservedDisplay := true;
      } else {
        var hidden := SuspendPrompt();
      }
      inputSuspended := true;
      return true;
    }

    method ResumeInput(preserveDisplay: bool)
      modifies this
      ensures State() == FinishResumeInput(old(State()), preserveDisplay)
    {
      if !promptActive || !inputSuspended {
        return;
      }
      inputSuspended := false;
      var canReusePreservedDisplay :=
        preserveDisplay && inputSuspendedWithPreservedDisplay && line == suspendedLine && cursor == suspendedCursor;
      if canReusePreservedDisplay {
        promptSuspensionDepth := if promptSuspensionDepth > 0 then promptSuspensionDepth - 1 else 0;
      } else {
        if inputSuspendedWithPreservedDisplay {
          shown := "";
        }
        ResumePrompt();
      }
      inputSuspendedWithPreservedDisplay := false;
    }

    /** Delete the marker before the caret, if `collapsed` found one. */
    method DeleteAtomicMarker(collapsed: Option<Edit>) returns (deleted: bool)
      modifies this
      ensures deleted == (collapsed.Some? && old(promptActive))
      ensures State() == if deleted then Apply(config, old(State()), DeleteMarker(collapsed.value)) else old(State())
    {
      if collapsed.None? {
        return false;
      }
      var hidden := SuspendPrompt();
      if !hidden {
        return false;
      }
      line, cursor := collapsed.value.line, collapsed.value.cursor;
      suspendedLine, suspendedCursor := line, cursor;
      ResumePrompt();
      return true;
    }

    /** Put the outcome of a clipboard read in the place of its marker. */
    method ReplaceAtomicMarker(marker: string, replacement: string) returns (replaced: bool)
      modifies this
      ensures State() == Replaced(old(State()), marker, replacement)
      ensures replaced == (IndexOf(old(line), marker, 0) >= 0 && old(promptActive))
    {
      hide IndexOf, OccursAt, Slice;
      var markerStart := IndexOf(line, marker, 0);
      if markerStart < 0 {
        return false;
      }
      var hidden := SuspendPrompt();
      if !hidden {
        return false;
      }
      var markerEnd := markerStart + |marker|;
      var nextLine := Slice(suspendedLine, 0, markerStart) + replacement +
                      Slice(suspendedLine, markerEnd, |suspendedLine|);
      var nextCursor := suspendedCursor;
      if suspendedCursor > markerStart {
        nextCursor := if suspendedCursor < markerEnd then markerStart + |replacement|
                      else suspendedCursor + |replacement| - |marker|;
      }
      line, cursor := nextLine, nextCursor;
      suspendedLine, suspendedCursor := line, cursor;
      ResumePrompt();
      return true;
    }

    /** readline handled a key; the keypress hook keeps the saved draft in step. */
    method OnKey(newLine: string, newCursor: nat)
      modifies this
      ensures State() == AfterKey(config, old(State()), newLine, newCursor)
    {
      line, cursor := newLine, newCursor;
      if !inputSuspended {
        shown := line;
      }
      if config.keypressHooks && inputSuspended {
        suspendedLine, suspendedCursor := line, cursor;
      }
    }

    /** readline reported a line; a kept-open editor goes on with an empty buffer. */
    method OnLine()
      requires config.keepOpen
      modifies this
      ensures State() == SubmitLine(config, old(State()))
    {
      line, cursor := "", 0;
      if !inputSuspended {
        shown := "";
      }
      if inputSuspended {
        suspendedLine, suspendedCursor := line, cursor;
      }
      OnKey(line, cursor);
    }
  }
}
