/** Newline framing: the carried `line_buffer` against the one-shot split of the whole text. */
module Framing {
  import opened Text
  import opened Sequences

  // The complete lines of a text (without their terminators) and the unterminated rest.
  datatype Split = Split(lines: seq<string>, tail: string)

  // The position of the first newline, or the length of the text.
  function Find(text: string): (p: nat)
    ensures p <= |text|
  {
    if text == [] || text[0] == '\n' then 0 else 1 + Find(text[1..])
  }

  function Head(text: string): string
    requires Find(text) < |text|
  {
    text[..Find(text)]
  }

  function Rest(text: string): (r: string)
    requires Find(text) < |text|
    ensures |r| < |text|
  {
    text[Find(text) + 1..]
  }

  function SplitLines(text: string): Split
    decreases |text|
  {
    if Find(text) == |text| then Split([], text)
    else Split([Head(text)] + SplitLines(Rest(text)).lines, SplitLines(Rest(text)).tail)
  }

  function Join(lines: seq<string>, tail: string): string {
    if lines == [] then tail else lines[0] + "\n" + Join(lines[1..], tail)
  }

  predicate Framed(s: Split) {
    (forall i :: 0 <= i < |s.lines| ==> '\n' !in s.lines[i]) && '\n' !in s.tail
  }

  lemma {:induction false} FindIsFirst(text: string)
    ensures '\n' !in text[..Find(text)]
    ensures Find(text) < |text| ==> text[Find(text)] == '\n'
    ensures Find(text) == |text| <==> '\n' !in text
  {
    if text != [] && text[0] != '\n' {
      var p := Find(text[1..]);
      FindIsFirst(text[1..]);
      assert text == [text[0]] + text[1..];
      assert text[..p + 1] == [text[0]] + text[1..][..p];
    }
  }

  lemma {:induction false} FindAfter(line: string, rest: string)
    requires '\n' !in line
    ensures Find(line + "\n" + rest) == |line|
  {
    var text := line + "\n" + rest;
    if line != [] {
      assert text[1..] == line[1..] + "\n" + rest;
      FindAfter(line[1..], rest);
    }
  }

  lemma HeadAndRest(line: string, rest: string)
    requires '\n' !in line
    ensures var text := line + "\n" + rest; Find(text) < |text| && Head(text) == line && Rest(text) == rest
  {
    FindAfter(line, rest);
  }

  lemma CutAtNewline(text: string)
    requires Find(text) < |text|
    ensures text == Head(text) + "\n" + Rest(text) && '\n' !in Head(text)
  {
    FindIsFirst(text);
    Cut(text, Find(text));
  }

  lemma {:induction false} SplitIsFramed(text: string)
    ensures var s := SplitLines(text); Framed(s) && Join(s.lines, s.tail) == text
    decreases |text|
  {
    FindIsFirst(text);
    if Find(text) < |text| {
      CutAtNewline(text);
      SplitIsFramed(Rest(text));
      assert SplitLines(text).lines[1..] == SplitLines(Rest(text)).lines;
    }
  }

  lemma {:induction false} FramedIsSplit(s: Split)
    requires Framed(s)
    ensures SplitLines(Join(s.lines, s.tail)) == s
    decreases |s.lines|
  {
    if s.lines == [] {
      FindIsFirst(s.tail);
    } else {
      HeadAndRest(s.lines[0], Join(s.lines[1..], s.tail));
      FramedIsSplit(Split(s.lines[1..], s.tail));
      assert s.lines == [s.lines[0]] + s.lines[1..];
    }
  }

  /** The split is the only way to cut a text into newline-free pieces: it exists and is unique. */
  lemma SplitExact(text: string, s: Split)
    ensures s == SplitLines(text) <==> Framed(s) && Join(s.lines, s.tail) == text
  {
    SplitIsFramed(text);
    if Framed(s) {
      FramedIsSplit(s);
    }
  }

  lemma HeadOfConcat(a: string, b: string)
    requires Find(a) < |a|
    ensures Find(a + b) < |a + b| && Head(a + b) == Head(a) && Rest(a + b) == Rest(a) + b
  {
    CutAtNewline(a);
    Associative(Head(a) + "\n", Rest(a), b);
    HeadAndRest(Head(a), Rest(a) + b);
  }

  /** Framing is incremental: only the carried tail of what came before matters. */
  lemma {:induction false} SplitConcat(a: string, b: string)
    ensures SplitLines(a + b).lines == SplitLines(a).lines + SplitLines(SplitLines(a).tail + b).lines
    ensures SplitLines(a + b).tail == SplitLines(SplitLines(a).tail + b).tail
    decreases |a|
  {
    if Find(a) < |a| {
      HeadOfConcat(a, b);
      SplitConcat(Rest(a), b);
      Associative([Head(a)], SplitLines(Rest(a)).lines, SplitLines(SplitLines(Rest(a)).tail + b).lines);
    }
  }

  // One turn of the framing loop, after the lines `seen`.
  lemma Advance(seen: seq<string>, buffer: string)
    requires Find(buffer) < |buffer|
    ensures seen + SplitLines(buffer).lines == (seen + [Head(buffer)]) + SplitLines(Rest(buffer)).lines
    ensures SplitLines(buffer).tail == SplitLines(Rest(buffer)).tail
  {
    Associative(seen, [Head(buffer)], SplitLines(Rest(buffer)).lines);
  }

  // What reaches the parser by the end of a stream that was flushed: a non-empty rest counts as a line.
  function Flushed(text: string): seq<string> {
    var s := SplitLines(text);
    if s.tail == "" then s.lines else s.lines + [s.tail]
  }

  function StripCr(line: string): string {
    if line != [] && line[|line| - 1] == '\r' then line[..|line| - 1] else line
  }

  // `str::lines`: terminators are LF or CRLF, and a CR before the end of the text is kept.
  function Lines(text: string): seq<string> {
    var s := SplitLines(text);
    var stripped := seq(|s.lines|, i requires 0 <= i < |s.lines| => StripCr(s.lines[i]));
    if s.tail == "" then stripped else stripped + [s.tail]
  }

  lemma StripCrTrims(line: string)
    ensures Trim(StripCr(line)) == Trim(line)
  {
    if line != [] && line[|line| - 1] == '\r' {
      assert line == line[..|line| - 1] + ['\r'];
      TrimDropsTrailing(line[..|line| - 1], '\r');
    }
  }

  /** `str::lines` and the framing loop agree line by line up to trimming, for LF and CRLF alike. */
  lemma LinesAgree(text: string)
    ensures |Lines(text)| == |Flushed(text)|
    ensures forall i :: 0 <= i < |Lines(text)| ==> Trim(Lines(text)[i]) == Trim(Flushed(text)[i])
  {
    forall i | 0 <= i < |Lines(text)|
      ensures Trim(Lines(text)[i]) == Trim(Flushed(text)[i])
    {
      StripCrTrims(Flushed(text)[i]);
    }
  }
}
