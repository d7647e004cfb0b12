/** The terminal view of a stream: frozen blocks, a live text buffer and the lines rendered from both. */
module TuiHandler {
  import opened Prelude
  import opened StreamTypes
  import opened TuiText
  import Framing
  import Json
  import Text

  datatype Color = Unstyled | Blue | DarkGray | Green | Red | Ansi(code: int)
  datatype Span = Span(text: string, color: Color)
  type Line = seq<Span>

  datatype Block = TextBlock(text: string) | Fixed(line: Line)

  // What the handler takes from elsewhere: the tool previews, the completion summary, the Markdown skin and the
  // ANSI parser, which may fail.
  datatype Config = Config(
    toolSummary: (string, Json.Value) -> Option<string>,
    toolDisplay: string -> string,
    summary: SessionResult -> string,
    markdown: string -> string,
    ansi: string -> Option<seq<Line>>)

  // ---- Rendering -----------------------------------------------------------------------------

  function PlainLines(pieces: seq<string>): seq<Line> {
    if pieces == [] then [] else [[Span(pieces[0], Unstyled)]] + PlainLines(pieces[1..])
  }

  const ESCAPE: string := [27 as char, '[']

  function TextToLines(cfg: Config, text: string): seq<Line> {
    var clean := SanitizeBlock(text);
    if clean == [] then []
    else
      match cfg.ansi(if Text.Contains(clean, ESCAPE) then clean else cfg.markdown(clean))
      case Some(lines) => lines
      case None =>
        var split := Framing.SplitLines(clean);
        PlainLines(split.lines + [split.tail])
  }

  // Rendering a text; nothing is shown for the empty one.
  type Renderer = string -> seq<Line>

  function RendererOf(cfg: Config): Renderer {
    text => TextToLines(cfg, text)
  }

  function RenderBlock(render: Renderer, block: Block): seq<Line> {
    match block
    case TextBlock(text) => render(text)
    case Fixed(line) => [line]
  }

  function RenderBlocks(render: Renderer, blocks: seq<Block>): seq<Line> {
    if blocks == [] then []
    else RenderBlocks(render, blocks[..|blocks| - 1]) + RenderBlock(render, blocks[|blocks| - 1])
  }

  function ToolCallLine(cfg: Config, name: string, input: Json.Value): Line {
    var tag := Span("\U{2699} [" + name + "]", Blue);
    match cfg.toolSummary(name, input)
    case Some(s) => [tag, Span(" " + SanitizeInline(s), DarkGray)]
    case None => [tag]
  }

  function ToolResultLine(display: string): Line {
    [Span("  \U{21B3} ", DarkGray), Span("\U{2713} ", Green), Span(Truncate(SanitizeInline(display), 200), DarkGray)]
  }

  function ErrorLine(message: string): Line {
    [Span("  \U{21B3} ", DarkGray), Span("\U{2717} Error: " + SanitizeInline(message), Red)]
  }

  const BLANK: Line := []

  function SummaryLine(cfg: Config, result: SessionResult): Line {
    [Span(cfg.summary(result), if result.isError then Red else Green)]
  }

  // ---- What the view should show -------------------------------------------------------------

  // The log as display items, each still a block of its own: a piece of text, or a fixed line.
  function Items(cfg: Config, call: Call): seq<Block> {
    match call
    case OnText(text) => [TextBlock(text)]
    case OnToolCall(name, _, input) => [Fixed(ToolCallLine(cfg, name, input))]
    case OnToolResult(_, output) =>
      var display := cfg.toolDisplay(output);
      if display == [] then [] else [Fixed(ToolResultLine(display))]
    case OnError(message) => [Fixed(ErrorLine(message))]
    case OnComplete(result) => [Fixed(BLANK), Fixed(SummaryLine(cfg, result))]
  }

  function AllItems(cfg: Config, calls: seq<Call>): seq<Block> {
    if calls == [] then [] else AllItems(cfg, calls[..|calls| - 1]) + Items(cfg, calls[|calls| - 1])
  }

  // The length of the run of text pieces at the front, and the text it spells.
  function RunLength(items: seq<Block>): (n: nat)
    ensures n <= |items|
  {
    if items != [] && items[0].TextBlock? then 1 + RunLength(items[1..]) else 0
  }

  function Spelled(items: seq<Block>): string {
    if items == [] then [] else (if items[0].TextBlock? then items[0].text else []) + Spelled(items[1..])
  }

  // The log rendered from scratch: each maximal run of text pieces is rendered as one text.
  function Document(render: Renderer, items: seq<Block>): seq<Line>
    decreases |items|
  {
    var n := RunLength(items);
    render(Spelled(items[..n]))
    + if n == |items| then [] else RenderBlock(render, items[n]) + Document(render, items[n + 1..])
  }

  // ---- The handler as a state machine --------------------------------------------------------

  datatype View = View(pending: string, blocks: seq<Block>, lines: seq<Line>)

  function Freeze(v: View): View {
    if v.pending == [] then v else v.(pending := [], blocks := v.blocks + [TextBlock(v.pending)])
  }

  function Refresh(render: Renderer, v: View): View {
    v.(lines := RenderBlocks(render, v.blocks) + render(v.pending))
  }

  function AddLine(render: Renderer, v: View, line: Line): View {
    var f := Freeze(v);
    Refresh(render, f.(blocks := f.blocks + [Fixed(line)]))
  }

  function Handled(cfg: Config, v: View, call: Call): View {
    var render := RendererOf(cfg);
    match call
    case OnText(text) => Refresh(render, v.(pending := v.pending + text))
    case OnToolCall(name, _, input) => AddLine(render, v, ToolCallLine(cfg, name, input))
    case OnToolResult(_, output) =>
      var display := cfg.toolDisplay(output);
      if display == [] then v else AddLine(render, v, ToolResultLine(display))
    case OnError(message) => AddLine(render, v, ErrorLine(message))
    case OnComplete(result) => AddLine(render, AddLine(render, Refresh(render, v), BLANK), SummaryLine(cfg, result))
  }

  lemma CompletedIs(cfg: Config, v: View, flushed: View, parted: View, result: SessionResult)
    requires flushed == Refresh(RendererOf(cfg), v) && parted == AddLine(RendererOf(cfg), flushed, BLANK)
    ensures Handled(cfg, v, OnComplete(result)) == AddLine(RendererOf(cfg), parted, SummaryLine(cfg, result))
  {}

  function HandledAll(cfg: Config, v: View, calls: seq<Call>): View {
    if calls == [] then v else Handled(cfg, HandledAll(cfg, v, calls[..|calls| - 1]), calls[|calls| - 1])
  }

  class TuiStreamHandler {
    const cfg: Config
    var pending: string
    var blocks: seq<Block>
    var lines: seq<Line>

    // The lines may be shared with the application and hold anything at first.
    constructor (cfg: Config, shared: seq<Line>)
      ensures this.cfg == cfg && Now() == View([], [], shared)
    {
      this.cfg := cfg;
      pending, blocks, lines := [], [], shared;
    }

    function Now(): View
      reads this
    {
      View(pending, blocks, lines)
    }

    method FreezeCurrentText()
      modifies this
      ensures Now() == Freeze(old(Now()))
    {
      if pending != [] {
        blocks := blocks + [TextBlock(pending)];
        pending := [];
      }
    }

    method UpdateLines()
      modifies this
      ensures Now() == Refresh(RendererOf(cfg), old(Now()))
    {
      var all: seq<Line> := [];
      for i := 0 to |blocks|
        invariant blocks == old(blocks) && pending == old(pending)
        invariant all == RenderBlocks(RendererOf(cfg), blocks[..i])
      {
        assert blocks[..i + 1][..i] == blocks[..i];
        match blocks[i] {
          case TextBlock(text) => all := all + TextToLines(cfg, text);
          case Fixed(line) => all := all + [line];
        }
      }
      assert blocks[..|blocks|] == blocks;
      if pending != [] {
        all := all + TextToLines(cfg, pending);
      }
      lines := all;
    }

    method AddNonTextLine(line: Line)
      modifies this
      ensures Now() == AddLine(RendererOf(cfg), old(Now()), line)
    {
      FreezeCurrentText();
      blocks := blocks + [Fixed(line)];
      UpdateLines();
    }

    method OnTextPiece(text: string)
      modifies this
      ensures Now() == Handled(cfg, old(Now()), OnText(text))
    {
      pending := pending + text;
      UpdateLines();
    }

    method OnToolCallNamed(name: string, id: string, input: Json.Value)
      modifies this
      ensures Now() == Handled(cfg, old(Now()), OnToolCall(name, id, input))
    {
      var spans := [Span("\U{2699} [" + name + "]", Blue)];
      match cfg.toolSummary(name, input) {
        case Some(s) => spans := spans + [Span(" " + SanitizeInline(s), DarkGray)];
        case None =>
      }
      assert spans == ToolCallLine(cfg, name, input);
      AddNonTextLine(spans);
    }

    method OnToolOutput(id: string, output: string)
      modifies this
      ensures Now() == Handled(cfg, old(Now()), OnToolResult(id, output))
    {
      var display := cfg.toolDisplay(output);
      if display != [] {
        AddNonTextLine(ToolResultLine(display));
      }
    }

    method OnFailure(message: string)
      modifies this
      ensures Now() == Handled(cfg, old(Now()), OnError(message))
    {
      AddNonTextLine(ErrorLine(message));
    }

    method OnCompletion(result: SessionResult)
      modifies this
      ensures Now() == Handled(cfg, old(Now()), OnComplete(result))
    {
      ghost var v := Now();
      UpdateLines();
      ghost var flushed := Now();
      AddNonTextLine(BLANK);
      ghost var parted := Now();
      AddNonTextLine(SummaryLine(cfg, result));
      CompletedIs(cfg, v, flushed, parted, result);
    }

    // A whole sequence of callbacks.
    method HandleAll(calls: seq<Call>)
      modifies this
      ensures Now() == HandledAll(cfg, old(Now()), calls)
    {
      for i := 0 to |calls|
        invariant Now() == HandledAll(cfg, old(Now()), calls[..i])
      {
        assert calls[..i + 1][..i] == calls[..i];
        match calls[i] {
          case OnText(text) => OnTextPiece(text);
          case OnToolCall(name, id, input) => OnToolCallNamed(name, id, input);
          case OnToolResult(id, output) => OnToolOutput(id, output);
          case OnError(message) => OnFailure(message);
          case OnComplete(result) => OnCompletion(result);
        }
      }
      assert calls[..|calls|] == calls;
    }
  }
}
