/** Pi's stream events, their dispatch, and the session totals. */
module PiStream {
  import opened Prelude
  import opened StreamTypes
  import Json

  datatype Usage = Usage(input: Word64, output: Word64, cacheRead: Word64, cacheWrite: Word64, cost: Option<real>)
  datatype TurnMessage = TurnMessage(provider: Option<string>, model: Option<string>, usage: Option<Usage>)

  datatype Event =
    | TextDelta(delta: string)
    | ThinkingDelta(delta: string)
    | Error(reason: string)
    | ToolStart(id: string, name: string, args: Json.Value)
    | ToolEnd(id: string, content: seq<Option<string>>, isError: bool)
    | TurnEnd(message: Option<TurnMessage>)
    | Other

  // The text blocks of a tool result, joined with newlines; other blocks are dropped first.
  function TextBlocks(content: seq<Option<string>>): seq<string> {
    if content == [] then []
    else (if content[0].Some? then [content[0].value] else []) + TextBlocks(content[1..])
  }

  function JoinLines(texts: seq<string>): string {
    if texts == [] then "" else if |texts| == 1 then texts[0] else texts[0] + "\n" + JoinLines(texts[1..])
  }

  function CallsOf(e: Event, verbose: bool): seq<Call> {
    match e
    case TextDelta(delta) => [OnText(delta)]
    case ThinkingDelta(delta) => if verbose then [OnText(delta)] else []
    case Error(reason) => [OnError(reason)]
    case ToolStart(id, name, args) => [OnToolCall(name, id, args)]
    case ToolEnd(id, content, isError) =>
      var output := JoinLines(TextBlocks(content));
      if isError then [OnError(output)] else [OnToolResult(id, output)]
    case TurnEnd(_) => []
    case Other => []
  }

  // A reported name replaces the remembered one unless it is absent or empty.
  function Latest(old_: Option<string>, reported: Option<string>): Option<string> {
    if reported.Some? && reported.value != "" then reported else old_
  }

  const NO_USAGE := Usage(0, 0, 0, 0, None)

  function UsageOf(e: Event): Usage {
    if e.TurnEnd? && e.message.Some? then e.message.value.usage.GetOr(NO_USAGE) else NO_USAGE
  }

  // Unsigned counters wrap at their width, as release builds compile `+=`.
  function AddTurn(t: PiTotals, e: Event): PiTotals {
    var u := UsageOf(e);
    var m := if e.TurnEnd? then e.message.GetOr(TurnMessage(None, None, None)) else TurnMessage(None, None, None);
    PiTotals(
      t.cost + u.cost.GetOr(0.0),
      if e.TurnEnd? then WrapAdd32(t.turns, 1) else t.turns,
      Latest(t.provider, m.provider), Latest(t.model, m.model),
      WrapAdd64(t.input, u.input), WrapAdd64(t.output, u.output),
      WrapAdd64(t.cacheRead, u.cacheRead), WrapAdd64(t.cacheWrite, u.cacheWrite))
  }

  function Step(p: Progress, e: Event, verbose: bool): Progress {
    p.(calls := p.calls + CallsOf(e, verbose),
       extracted := p.extracted + if e.TextDelta? then e.delta else "",
       pi := if e.TurnEnd? then AddTurn(p.pi, e) else p.pi)
  }

  method Dispatch(e: Event, sink: Sink, verbose: bool)
    modifies sink
    ensures sink.Now() == Step(old(sink.Now()), e, verbose)
  {
    match e
    case TextDelta(delta) =>
      sink.calls := sink.calls + [OnText(delta)];
      sink.extracted := sink.extracted + delta;
    case ThinkingDelta(delta) =>
      if verbose {
        sink.calls := sink.calls + [OnText(delta)];
      }
    case Error(reason) =>
      sink.calls := sink.calls + [OnError(reason)];
    case ToolStart(id, name, args) =>
      sink.calls := sink.calls + [OnToolCall(name, id, args)];
    case ToolEnd(id, content, isError) =>
      var output := JoinLines(TextBlocks(content));
      if isError {
        sink.calls := sink.calls + [OnError(output)];
      } else {
        sink.calls := sink.calls + [OnToolResult(id, output)];
      }
    case TurnEnd(message) =>
      var t := sink.pi.(turns := WrapAdd32(sink.pi.turns, 1));
      if message.Some? {
        var m := message.value;
        if m.provider.Some? && m.provider.value != "" {
          t := t.(provider := m.provider);
        }
        if m.model.Some? && m.model.value != "" {
          t := t.(model := m.model);
        }
        if m.usage.Some? {
          var u := m.usage.value;
          if u.cost.Some? {
            t := t.(cost := t.cost + u.cost.value);
          }
          t := t.(input := WrapAdd64(t.input, u.input), output := WrapAdd64(t.output, u.output),
                  cacheRead := WrapAdd64(t.cacheRead, u.cacheRead),
                  cacheWrite := WrapAdd64(t.cacheWrite, u.cacheWrite));
        }
      }
      sink.pi := t;
    case Other =>
  }

  function Fold(p: Progress, es: seq<Event>, verbose: bool): Progress {
    if es == [] then p else Step(Fold(p, es[..|es| - 1], verbose), es[|es| - 1], verbose)
  }

  datatype Sums = Sums(turns: nat, input: nat, output: nat, cacheRead: nat, cacheWrite: nat)

  function Add(t: Sums, e: Event): Sums {
    var u := UsageOf(e);
    Sums(t.turns + if e.TurnEnd? then 1 else 0,
         t.input + u.input, t.output + u.output, t.cacheRead + u.cacheRead, t.cacheWrite + u.cacheWrite)
  }

  // What the events report, added up without any bound.
  function Total(es: seq<Event>): Sums {
    if es == [] then Sums(0, 0, 0, 0, 0) else Add(Total(es[..|es| - 1]), es[|es| - 1])
  }

  predicate Shows(t: PiTotals, sums: Sums) {
    && t.turns == Wrap32(sums.turns)
    && t.input == Wrap64(sums.input) && t.output == Wrap64(sums.output)
    && t.cacheRead == Wrap64(sums.cacheRead) && t.cacheWrite == Wrap64(sums.cacheWrite)
  }

  lemma TotalsAdvance(t: PiTotals, sums: Sums, e: Event)
    requires Shows(t, sums)
    ensures Shows(if e.TurnEnd? then AddTurn(t, e) else t, Add(sums, e))
  {
    var u := UsageOf(e);
    WrapCounts(sums.turns);
    WrapAdds(sums.input, u.input);
    WrapAdds(sums.output, u.output);
    WrapAdds(sums.cacheRead, u.cacheRead);
    WrapAdds(sums.cacheWrite, u.cacheWrite);
  }

  /** The session summary is the true usage: each total is the sum over all turns, modulo the counter width. */
  lemma {:induction false} TotalsAreSums(p: Progress, es: seq<Event>, verbose: bool)
    requires p.pi == NO_PI
    ensures Shows(Fold(p, es, verbose).pi, Total(es))
  {
    if es != [] {
      var front := es[..|es| - 1];
      TotalsAreSums(p, front, verbose);
      TotalsAdvance(Fold(p, front, verbose).pi, Total(front), es[|es| - 1]);
    }
  }

  predicate Reports(e: Event) {
    e.TurnEnd? && e.message.Some? && e.message.value.provider.Some? && e.message.value.provider.value != ""
  }

  /** The provider shown is the last non-empty one any turn reported. */
  lemma {:induction false} ProviderIsLastReported(p: Progress, es: seq<Event>, verbose: bool, k: nat)
    requires k < |es| && Reports(es[k]) && forall j :: k < j < |es| ==> !Reports(es[j])
    ensures Fold(p, es, verbose).pi.provider == es[k].message.value.provider
    decreases |es|
  {
    var n := |es| - 1;
    if k < n {
      assert !Reports(es[n]);
      ProviderIsLastReported(p, es[..n], verbose, k);
    }
  }
}
