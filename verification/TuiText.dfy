/** Text made safe for the terminal view: block text keeps its line structure, inline text becomes one line. */
module TuiText {
  import opened Sequences

  // Bell, backspace, vertical tab and form feed.
  predicate IsControl(c: char) {
    c == 7 as char || c == 8 as char || c == 11 as char || c == 12 as char
  }

  predicate HasControl(text: string) {
    exists i :: 0 <= i < |text| && IsControl(text[i])
  }

  function DropControls(text: string): string {
    if text == [] then []
    else (if IsControl(text[0]) then [] else [text[0]]) + DropControls(text[1..])
  }

  // `replace("\r\n", by)`.
  function ReplaceCrLf(text: string, sub: char): string {
    if text == [] then []
    else if |text| >= 2 && text[0] == '\r' && text[1] == '\n' then [sub] + ReplaceCrLf(text[2..], sub)
    else [text[0]] + ReplaceCrLf(text[1..], sub)
  }

  function ReplaceAll(text: string, what: set<char>, sub: char): string {
    if text == [] then []
    else [if text[0] in what then sub else text[0]] + ReplaceAll(text[1..], what, sub)
  }

  function SanitizeBlock(text: string): string {
    if '\r' !in text && !HasControl(text) then text
    else
      var s := if '\r' in text then ReplaceAll(ReplaceCrLf(text, '\n'), {'\r'}, '\n') else text;
      if HasControl(text) then DropControls(s) else s
  }

  function SanitizeInline(text: string): string {
    DropControls(ReplaceAll(ReplaceCrLf(text, ' '), {'\r', '\n'}, ' '))
  }

  // `truncate`: at most `max` characters, with an ellipsis when some were cut.
  function Truncate(text: string, max: nat): string {
    if |text| <= max then text else text[..max] + "..."
  }

  // ---- One pass ------------------------------------------------------------------------------

  // How many characters the line break or single character at the front takes.
  function Width(text: string): (n: nat)
    requires text != []
    ensures 1 <= n <= |text|
  {
    if |text| >= 2 && text[0] == '\r' && text[1] == '\n' then 2 else 1
  }

  function CleanChar(c: char): string {
    if c == '\r' then ['\n'] else if IsControl(c) then [] else [c]
  }

  // What sanitising a block means, read off in one pass.
  function Clean(text: string): string {
    if text == [] then [] else CleanChar(text[0]) + Clean(text[Width(text)..])
  }

  lemma {:induction false} StagesAreOnePass(text: string)
    ensures DropControls(ReplaceAll(ReplaceCrLf(text, '\n'), {'\r'}, '\n')) == Clean(text)
  {
    if text != [] {
      var rest := text[Width(text)..];
      var c := if Width(text) == 2 then '\n' else text[0];
      var r := ReplaceCrLf(rest, '\n');
      StagesAreOnePass(rest);
      assert ReplaceCrLf(text, '\n') == [c] + r;
      assert ([c] + r)[1..] == r;
      var d := if c == '\r' then '\n' else c;
      var t := ReplaceAll(r, {'\r'}, '\n');
      assert ([d] + t)[1..] == t;
    }
  }

  lemma {:induction false} NothingToReplace(text: string)
    requires '\r' !in text
    ensures ReplaceAll(ReplaceCrLf(text, '\n'), {'\r'}, '\n') == text
  {
    if text != [] {
      NothingToReplace(text[1..]);
      var r := ReplaceCrLf(text[1..], '\n');
      assert text == [text[0]] + text[1..];
      assert ([text[0]] + r)[1..] == r;
    }
  }

  lemma {:induction false} NothingToDrop(text: string)
    requires !HasControl(text)
    ensures DropControls(text) == text
  {
    if text != [] {
      assert !IsControl(text[0]);
      NothingToDrop(text[1..]);
    }
  }

  lemma {:induction false} BreaksAddNoControl(text: string)
    requires !HasControl(text)
    ensures !HasControl(ReplaceAll(ReplaceCrLf(text, '\n'), {'\r'}, '\n'))
  {
    if text != [] {
      var rest := text[Width(text)..];
      var c := if Width(text) == 2 then '\n' else text[0];
      var r := ReplaceCrLf(rest, '\n');
      assert !IsControl(text[0]);
      BreaksAddNoControl(rest);
      assert ReplaceCrLf(text, '\n') == [c] + r;
      assert ([c] + r)[1..] == r;
    }
  }

  /** The early exits of the sanitiser are shortcuts only: it is the one-pass cleaning on every text. */
  lemma SanitizeIsClean(text: string)
    ensures SanitizeBlock(text) == Clean(text)
  {
    StagesAreOnePass(text);
    if '\r' !in text {
      NothingToReplace(text);
    }
    if !HasControl(text) {
      BreaksAddNoControl(text);
      NothingToDrop(ReplaceAll(ReplaceCrLf(text, '\n'), {'\r'}, '\n'));
    }
  }

  predicate Safe(text: string) {
    '\r' !in text && !HasControl(text)
  }

  lemma SafeConcat(a: string, b: string)
    requires Safe(a) && Safe(b)
    ensures Safe(a + b)
  {}

  lemma {:induction false} CleanIsSafe(text: string)
    ensures Safe(Clean(text))
  {
    if text != [] {
      CleanIsSafe(text[Width(text)..]);
      SafeConcat(CleanChar(text[0]), Clean(text[Width(text)..]));
    }
  }

  /** What reaches the view holds no carriage return and no other control, and sanitising again changes nothing. */
  lemma SanitizeBlockIsSafe(text: string)
    ensures Safe(SanitizeBlock(text)) && SanitizeBlock(SanitizeBlock(text)) == SanitizeBlock(text)
  {
    SanitizeIsClean(text);
    CleanIsSafe(text);
  }

  predicate SplitsCrLf(a: string, b: string) {
    a != [] && b != [] && a[|a| - 1] == '\r' && b[0] == '\n'
  }

  lemma CleanUnfolds(text: string, first: string, rest: string)
    requires first != [] && text == first + rest && Width(text) == |first|
    ensures Clean(text) == CleanChar(first[0]) + Clean(rest)
  {
    assert text[|first|..] == rest;
  }

  lemma CleanCutCrLf(b: string)
    requires b != [] && b[0] == '\n'
    ensures |Clean("\r" + b)| == |Clean("\r")| + |Clean(b)| - 1
  {
    assert "\r" + b == "\r\n" + b[1..];
    CleanUnfolds("\r" + b, "\r\n", b[1..]);
    CleanUnfolds("\r", "\r", "");
    CleanUnfolds(b, b[..1], b[1..]);
  }

  lemma {:induction false} CleanConcat(a: string, b: string)
    ensures if SplitsCrLf(a, b) then |Clean(a + b)| == |Clean(a)| + |Clean(b)| - 1
            else Clean(a + b) == Clean(a) + Clean(b)
  {
    if a == [] {
      assert a + b == b;
    } else if |a| == 1 && SplitsCrLf(a, b) {
      assert a == "\r";
      CleanCutCrLf(b);
    } else {
      var n := Width(a);
      CleanConcat(a[n..], b);
      Halves(a, n);
      Associative(a[..n], a[n..], b);
      CleanUnfolds(a, a[..n], a[n..]);
      CleanUnfolds(a + b, a[..n], a[n..] + b);
      Associative(CleanChar(a[0]), Clean(a[n..]), Clean(b));
    }
  }

  /** Sanitising piece by piece is the same as sanitising the whole exactly when no CRLF is cut in two; so the
      view has to clean a text buffer as a whole, not chunk by chunk. */
  lemma SanitizePiecewiseExactly(a: string, b: string)
    ensures SanitizeBlock(a + b) == SanitizeBlock(a) + SanitizeBlock(b) <==> !SplitsCrLf(a, b)
  {
    SanitizeIsClean(a);
    SanitizeIsClean(b);
    SanitizeIsClean(a + b);
    CleanConcat(a, b);
  }

  predicate OneLine(text: string) {
    '\n' !in text && '\r' !in text && !HasControl(text)
  }

  lemma {:induction false} ReplacedAway(text: string)
    ensures var r := ReplaceAll(text, {'\r', '\n'}, ' '); '\n' !in r && '\r' !in r
  {
    if text != [] {
      ReplacedAway(text[1..]);
    }
  }

  lemma {:induction false} DroppedIsOneLine(text: string)
    requires '\n' !in text && '\r' !in text
    ensures OneLine(DropControls(text))
  {
    if text != [] {
      DroppedIsOneLine(text[1..]);
      var rest := DropControls(text[1..]);
      assert IsControl(text[0]) || DropControls(text) == [text[0]] + rest;
    }
  }

  /** Inline text is a single line, also after truncation, which keeps a prefix of at most the given length. */
  lemma InlineIsOneLine(text: string, max: nat)
    ensures var s := SanitizeInline(text); var t := Truncate(s, max);
            && OneLine(s) && OneLine(t)
            && (|s| <= max ==> t == s)
            && (|s| > max ==> t[..max] == s[..max] && |t| == max + 3)
  {
    ReplacedAway(ReplaceCrLf(text, ' '));
    DroppedIsOneLine(ReplaceAll(ReplaceCrLf(text, ' '), {'\r', '\n'}, ' '));
    var s := SanitizeInline(text);
    if |s| > max {
      assert forall i :: 0 <= i < max ==> s[..max][i] == s[i];
    }
  }
}
