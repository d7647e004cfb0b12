/** What the terminal view shows, told by the texts it is given. */
module TuiLaws {
  import opened Prelude
  import opened StreamTypes
  import opened Sequences
  import opened TuiText
  import opened TuiHandler
  import opened TuiTheorems
  import Framing
  import Json
  import Text

  // ---- Text ----------------------------------------------------------------------------------

  /** A text shows what its cleaned form shows. */
  lemma ShowsTheCleaned(cfg: Config, text: string)
    ensures TextToLines(cfg, text) == TextToLines(cfg, Clean(text))
  {
    SanitizeIsClean(text);
    SanitizeBlockIsSafe(text);
  }

  // An escape character before a bracket.
  predicate HoldsEscape(text: string) {
    exists i :: 0 <= i < |text| - 1 && text[i] == 27 as char && text[i + 1] == '['
  }

  lemma EscapesAreFound(text: string)
    ensures Text.Contains(text, ESCAPE) <==> HoldsEscape(text)
  {
    Text.ContainsIs(text, ESCAPE);
    if i: nat :| Text.StandsIn(text, ESCAPE, i) {
      assert text[i..i + 2][0] == text[i] && text[i..i + 2][1] == text[i + 1];
    }
    if HoldsEscape(text) {
      var i :| 0 <= i < |text| - 1 && text[i] == 27 as char && text[i + 1] == '[';
      assert text[i..i + 2] == ESCAPE;
      assert Text.StandsIn(text, ESCAPE, i);
    }
  }

  /** Nothing is shown of a text that cleans to nothing. Any other is parsed as ANSI, as it is if it holds an escape
      sequence and as rendered Markdown if not. */
  lemma ParsesTheRendered(cfg: Config, text: string, rendered: string)
    requires rendered == if HoldsEscape(Clean(text)) then Clean(text) else cfg.markdown(Clean(text))
    ensures Clean(text) == "" ==> TextToLines(cfg, text) == []
    ensures Clean(text) != "" && cfg.ansi(rendered).Some? ==> TextToLines(cfg, text) == cfg.ansi(rendered).value
    ensures Clean(text) != "" && cfg.ansi(rendered).None? ==> IsPlainly(TextToLines(cfg, text), Clean(text))
  {
    SanitizeIsClean(text);
    EscapesAreFound(Clean(text));
    if Clean(text) != "" && cfg.ansi(rendered).None? {
      PlainlyShown(Clean(text));
    }
  }

  // Bell, backspace, vertical tab and form feed.
  const CONTROLS: set<char> := {7 as char, 8 as char, 11 as char, 12 as char}

  predicate IsPrinted(c: char) {
    c !in CONTROLS
  }

  /** Cleaning leaves no carriage return and none of the four controls; without carriage returns it drops nothing
      else. */
  lemma {:induction false} CleanDrops(text: string)
    ensures '\r' !in text ==> Clean(text) == Filter(IsPrinted, text)
    ensures forall c :: c in Clean(text) ==> c != '\r' && c !in CONTROLS
  {
    if text != [] {
      CleanDrops(text[Width(text)..]);
    }
  }

  /** A line break, whether one character or two, comes out as one newline. */
  lemma BreaksAreNewlines(rest: string)
    ensures Clean("\r\n" + rest) == "\n" + Clean(rest)
    ensures rest == "" || rest[0] != '\n' ==> Clean("\r" + rest) == "\n" + Clean(rest)
  {}

  // The lines of a text, one unstyled span each.
  ghost predicate IsPlainly(lines: seq<Line>, text: string) {
    && lines != [] && (forall i :: 0 <= i < |lines| ==> |lines[i]| == 1 && lines[i][0].color == Unstyled)
    && (forall i :: 0 <= i < |lines| ==> '\n' !in lines[i][0].text)
    && SpelledBy(lines) == text
  }

  // What lines of one span spell, with a line break between any two.
  function SpelledBy(lines: seq<Line>): string {
    if lines == [] then ""
    else
      var here := if lines[0] == [] then "" else lines[0][0].text;
      if |lines| == 1 then here else here + "\n" + SpelledBy(lines[1..])
  }

  lemma {:induction false} PlainSpells(pieces: seq<string>, tail: string)
    ensures SpelledBy(PlainLines(pieces + [tail])) == Framing.Join(pieces, tail)
    ensures |PlainLines(pieces + [tail])| == |pieces| + 1
    ensures forall i :: 0 <= i <= |pieces| ==> PlainLines(pieces + [tail])[i] == [Span((pieces + [tail])[i], Unstyled)]
  {
    var all := pieces + [tail];
    if pieces == [] {
      assert all[1..] == [];
    } else {
      assert all[1..] == pieces[1..] + [tail];
      PlainSpells(pieces[1..], tail);
    }
  }

  lemma PlainlyShown(text: string)
    ensures var split := Framing.SplitLines(text); IsPlainly(PlainLines(split.lines + [split.tail]), text)
  {
    var split := Framing.SplitLines(text);
    Framing.SplitIsFramed(text);
    PlainSpells(split.lines, split.tail);
  }

  /** What is shown plainly is safe: no carriage return and no other control in any line. */
  lemma PlainIsSafe(lines: seq<Line>, text: string, i: nat)
    requires i < |lines| && IsPlainly(lines, Clean(text))
    ensures Safe(lines[i][0].text) && forall c :: c in lines[i][0].text ==> c != '\r' && c !in CONTROLS
  {
    CleanIsSafe(text);
    PiecesAreSafe(lines, i);
  }

  lemma {:induction false} PiecesAreSafe(lines: seq<Line>, i: nat)
    requires i < |lines| && (forall k :: 0 <= k < |lines| ==> |lines[k]| == 1) && Safe(SpelledBy(lines))
    ensures Safe(lines[i][0].text)
  {
    var here := lines[0][0].text;
    if |lines| > 1 {
      var rest := SpelledBy(lines[1..]);
      SafeParts(here + "\n", rest);
      SafeParts(here, "\n");
      if i > 0 {
        PiecesAreSafe(lines[1..], i - 1);
      }
    }
  }

  lemma SafeParts(a: string, b: string)
    requires Safe(a + b)
    ensures Safe(a) && Safe(b)
  {
    forall i | 0 <= i < |a| ensures a[i] != '\r' && !IsControl(a[i]) {
      assert (a + b)[i] == a[i] && (a + b)[i] in a + b;
    }
    forall i | 0 <= i < |b| ensures b[i] != '\r' && !IsControl(b[i]) {
      assert (a + b)[|a| + i] == b[i] && (a + b)[|a| + i] in a + b;
    }
  }

  // ---- Fixed lines ---------------------------------------------------------------------------

  // What inline cleaning makes of a text, read off in one pass: a line break becomes a space, other controls go.
  function Inlined(text: string): string {
    if text == [] then []
    else if text[0] == '\r' || text[0] == '\n' then " " + Inlined(text[Width(text)..])
    else (if text[0] in CONTROLS then [] else [text[0]]) + Inlined(text[1..])
  }

  lemma {:induction false} InlineIsOnePass(text: string)
    ensures SanitizeInline(text) == Inlined(text)
  {
    if text != [] {
      var rest := text[Width(text)..];
      var c := if Width(text) == 2 then ' ' else text[0];
      var d := if c == '\r' || c == '\n' then ' ' else c;
      var r := ReplaceCrLf(rest, ' ');
      var t := ReplaceAll(r, {'\r', '\n'}, ' ');
      InlineIsOnePass(rest);
      assert ReplaceCrLf(text, ' ') == [c] + r && ([c] + r)[1..] == r;
      assert ([d] + t)[1..] == t;
    }
  }

  // At most 200 characters, and an ellipsis for more.
  function Clipped(text: string): string {
    if |text| <= 200 then text else text[..200] + "..."
  }

  // The view after a line was added behind the text so far.
  predicate AddsLine(v: View, w: View, line: Line) {
    && w.pending == ""
    && w.blocks == v.blocks + (if v.pending == "" then [] else [TextBlock(v.pending)]) + [Fixed(line)]
  }

  /** A tool call adds its name and, if there is one, its summary on one line. */
  lemma ToolCallAdds(cfg: Config, v: View, name: string, id: string, input: Json.Value)
    ensures AddsLine(v, Handled(cfg, v, OnToolCall(name, id, input)),
                     match cfg.toolSummary(name, input)
                     case Some(s) => [Span("\U{2699} [" + name + "]", Blue), Span(" " + Inlined(s), DarkGray)]
                     case None => [Span("\U{2699} [" + name + "]", Blue)])
  {
    var s := cfg.toolSummary(name, input);
    if s.Some? {
      InlineIsOnePass(s.value);
    }
  }

  /** A tool result adds its display, clipped, and nothing if it has none; an error adds its message. */
  lemma ResultsAndErrorsAdd(cfg: Config, v: View, id: string, text: string)
    ensures cfg.toolDisplay(text) == "" ==> Handled(cfg, v, OnToolResult(id, text)) == v
    ensures cfg.toolDisplay(text) != "" ==>
              AddsLine(v, Handled(cfg, v, OnToolResult(id, text)),
                       [Span("  \U{21B3} ", DarkGray), Span("\U{2713} ", Green),
                        Span(Clipped(Inlined(cfg.toolDisplay(text))), DarkGray)])
    ensures AddsLine(v, Handled(cfg, v, OnError(text)),
                     [Span("  \U{21B3} ", DarkGray), Span("\U{2717} Error: " + Inlined(text), Red)])
  {
    InlineIsOnePass(cfg.toolDisplay(text));
    InlineIsOnePass(text);
  }

  lemma AddLineAdds(render: Renderer, v: View, line: Line)
    ensures AddsLine(v, AddLine(render, v, line), line)
    ensures AddLine(render, Refresh(render, v), line) == AddLine(render, v, line)
  {}

  /** A completion adds an empty line and the summary, red for an error and green otherwise. */
  lemma CompletionAdds(cfg: Config, v: View, r: SessionResult) returns (w: View)
    ensures AddsLine(v, w, [])
    ensures AddsLine(w, Handled(cfg, v, OnComplete(r)), [Span(cfg.summary(r), if r.isError then Red else Green)])
  {
    var render := RendererOf(cfg);
    var flushed := Refresh(render, v);
    w := AddLine(render, flushed, BLANK);
    AddLineAdds(render, v, BLANK);
    CompletedIs(cfg, v, flushed, w, r);
    AddLineAdds(render, w, SummaryLine(cfg, r));
  }

  /** Text waits behind the text so far. */
  lemma TextWaits(cfg: Config, v: View, text: string)
    ensures var w := Handled(cfg, v, OnText(text)); w.pending == v.pending + text && w.blocks == v.blocks
  {}

  predicate OneLineEach(line: Line) {
    forall i :: 0 <= i < |line| ==> OneLine(line[i].text)
  }

  lemma MarksAreSingle()
    ensures OneLine("  \U{21B3} ") && OneLine("\U{2713} ") && OneLine("\U{2717} Error: ")
  {}

  lemma ThreeSingle(line: Line, a: Span, b: Span, c: Span)
    requires line == [a, b, c] && OneLine(a.text) && OneLine(b.text) && OneLine(c.text)
    ensures OneLineEach(line)
  {}

  /** Tool results stay on one line. */
  lemma ResultsAreSingle(text: string)
    ensures OneLineEach(ToolResultLine(text))
  {
    var line := ToolResultLine(text);
    MarksAreSingle();
    InlineIsOneLine(text, 200);
    ThreeSingle(line, line[0], line[1], line[2]);
  }

  /** Errors stay on one line. */
  lemma ErrorsAreSingle(text: string)
    ensures OneLineEach(ErrorLine(text))
  {
    MarksAreSingle();
    InlineIsOneLine(text, 0);
    OneLineJoins("\U{2717} Error: ", SanitizeInline(text));
  }

  lemma NameIsSingle(name: string)
    ensures OneLine("\U{2699} [" + name + "]") <==> OneLine(name)
  {
    OneLineJoins("\U{2699} [" + name, "]");
    OneLineJoins("\U{2699} [", name);
  }

  lemma SummaryIsSingle(text: string)
    ensures OneLine(" " + SanitizeInline(text))
  {
    InlineIsOneLine(text, 0);
    OneLineJoins(" ", SanitizeInline(text));
  }

  /** A tool call stays on one line exactly if the tool's name does, which is not cleaned. */
  lemma ToolCallsAreSingleExactly(cfg: Config, name: string, input: Json.Value)
    ensures OneLineEach(ToolCallLine(cfg, name, input)) <==> OneLine(name)
  {
    var line := ToolCallLine(cfg, name, input);
    NameIsSingle(name);
    assert line[0].text == "\U{2699} [" + name + "]";
    if cfg.toolSummary(name, input).Some? {
      SummaryIsSingle(cfg.toolSummary(name, input).value);
    }
  }

  lemma OneLineJoins(a: string, b: string)
    ensures OneLine(a + b) <==> OneLine(a) && OneLine(b)
  {
    if OneLine(a + b) {
      SafeParts(a, b);
      assert forall i :: 0 <= i < |a| ==> (a + b)[i] == a[i];
      assert forall i :: 0 <= i < |b| ==> (a + b)[|a| + i] == b[i];
    }
  }

  // ---- The lines of the view -----------------------------------------------------------------

  /** A view without blocks shows its text. */
  lemma TextIsShown(cfg: Config, v: View)
    requires v.blocks == []
    ensures Refresh(RendererOf(cfg), v).lines == TextToLines(cfg, v.pending)
  {}

  /** An added line is shown behind all that was shown. */
  lemma LineIsShown(render: Renderer, v: View, line: Line)
    requires render([]) == []
    ensures AddLine(render, v, line).lines == Refresh(render, v).lines + [line]
  {
    FrozenShows(render, v);
    RenderBlocksSnoc(render, Freeze(v).blocks, Fixed(line));
  }

  /** Text is shown behind the lines before it. */
  lemma TextIsShownBehind(render: Renderer, v: View, text: string)
    requires render([]) == [] && v.pending == []
    ensures Refresh(render, v.(pending := text)).lines == Refresh(render, v).lines + render(text)
  {}
}
