/** Strings: the byte-wise order Rust uses for `str`, and the Unicode white space that `str::trim` removes.
    Code-point order and UTF-8 byte order agree, so the order is stated on characters. */
module Text {

  predicate Before(a: string, b: string) {
    b != [] && (a == [] || a[0] < b[0] || (a[0] == b[0] && Before(a[1..], b[1..])))
  }

  predicate AtMost(a: string, b: string) {
    a == b || Before(a, b)
  }

  lemma {:induction false} BeforeIrreflexive(a: string)
    ensures !Before(a, a)
  {
    if a != [] {
      BeforeIrreflexive(a[1..]);
    }
  }

  lemma {:induction false} BeforeTransitive(a: string, b: string, c: string)
    requires Before(a, b) && Before(b, c)
    ensures Before(a, c)
  {
    if a != [] && a[0] == b[0] && b[0] == c[0] {
      BeforeTransitive(a[1..], b[1..], c[1..]);
    }
  }

  lemma {:induction false} BeforeTotal(a: string, b: string)
    ensures a == b || Before(a, b) || Before(b, a)
  {
    if a != [] && b != [] && a[0] == b[0] {
      BeforeTotal(a[1..], b[1..]);
      assert a == [a[0]] + a[1..] && b == [b[0]] + b[1..];
    }
  }

  lemma BeforeAsymmetric(a: string, b: string)
    requires Before(a, b)
    ensures !Before(b, a) && a != b
  {
    BeforeIrreflexive(a);
    if Before(b, a) {
      BeforeTransitive(a, b, a);
    }
  }

  /** Equal prefixes do not matter, and an earlier difference decides whatever follows it. */
  lemma {:induction false} BeforeExtends(a: string, b: string, x: string, y: string)
    requires |a| == |b|
    requires Before(a, b) || (a == b && Before(x, y))
    ensures Before(a + x, b + y)
  {
    if a == [] {
      assert a + x == x && b + y == y;
    } else {
      assert (a + x)[1..] == a[1..] + x && (b + y)[1..] == b[1..] + y;
      if a[0] == b[0] {
        BeforeExtends(a[1..], b[1..], x, y);
      }
    }
  }

  // The Unicode White_Space property.
  predicate IsWhitespace(c: char) {
    var n := c as int;
    9 <= n <= 13 || n == 0x20 || n == 0x85 || n == 0xA0 || n == 0x1680 || 0x2000 <= n <= 0x200A
    || n == 0x2028 || n == 0x2029 || n == 0x202F || n == 0x205F || n == 0x3000
  }

  function TrimStart(s: string): string {
    if s != [] && IsWhitespace(s[0]) then TrimStart(s[1..]) else s
  }

  function TrimEnd(s: string): string {
    if s != [] && IsWhitespace(s[|s| - 1]) then TrimEnd(s[..|s| - 1]) else s
  }

  function Trim(s: string): string {
    TrimEnd(TrimStart(s))
  }

  predicate IsBlank(s: string) {
    forall i :: 0 <= i < |s| ==> IsWhitespace(s[i])
  }

  lemma {:induction false} TrimStartCuts(s: string) returns (n: nat)
    ensures n <= |s| && IsBlank(s[..n]) && TrimStart(s) == s[n..]
    ensures n < |s| ==> !IsWhitespace(s[n])
  {
    n := 0;
    if s != [] && IsWhitespace(s[0]) {
      var m := TrimStartCuts(s[1..]);
      n := m + 1;
      assert s[..n] == [s[0]] + s[1..][..m];
    }
  }

  lemma {:induction false} TrimEndCuts(s: string) returns (n: nat)
    ensures n <= |s| && IsBlank(s[n..]) && TrimEnd(s) == s[..n]
    ensures n > 0 ==> !IsWhitespace(s[n - 1])
  {
    n := |s|;
    if s != [] && IsWhitespace(s[|s| - 1]) {
      n := TrimEndCuts(s[..|s| - 1]);
      assert s[n..] == s[..|s| - 1][n..] + [s[|s| - 1]];
    }
  }

  /** Trimming cuts off white space at both ends, all of it. */
  lemma TrimIs(s: string) returns (i: nat, j: nat)
    ensures i <= j <= |s| && Trim(s) == s[i..j] && IsBlank(s[..i]) && IsBlank(s[j..])
    ensures i < j ==> !IsWhitespace(s[i]) && !IsWhitespace(s[j - 1])
  {
    i := TrimStartCuts(s);
    var n := TrimEndCuts(s[i..]);
    j := i + n;
    assert s[i..][..n] == s[i..j] && s[i..][n..] == s[j..];
  }

  lemma {:induction false} BlankTrims(s: string)
    ensures Trim(s) == "" <==> IsBlank(s)
  {
    var i, j := TrimIs(s);
    if Trim(s) == "" {
      assert i == j && s == s[..i] + s[j..];
    } else {
      assert s[i] in s;
    }
  }

  /** A trailing white-space character never survives trimming. */
  lemma {:induction false} TrimDropsTrailing(s: string, c: char)
    requires IsWhitespace(c)
    ensures Trim(s + [c]) == Trim(s)
  {
    if s == [] {
      assert s + [c] == [c] && [c][1..] == [];
    } else {
      assert (s + [c])[1..] == s[1..] + [c];
      if IsWhitespace(s[0]) {
        TrimDropsTrailing(s[1..], c);
      } else {
        assert (s + [c])[..|s|] == s;
      }
    }
  }

  predicate Contains(text: string, needle: string) {
    |needle| <= |text| && (text[..|needle|] == needle || Contains(text[1..], needle))
  }

  predicate StandsIn(text: string, needle: string, i: nat) {
    i + |needle| <= |text| && text[i..i + |needle|] == needle
  }

  lemma StandsLater(text: string, needle: string, i: nat)
    requires text != []
    ensures StandsIn(text, needle, i + 1) == StandsIn(text[1..], needle, i)
  {
    if i + 1 + |needle| <= |text| {
      assert text[1..][i..i + |needle|] == text[i + 1..i + 1 + |needle|];
    }
  }

  /** A text contains another where that stands in it, anywhere. */
  lemma {:induction false} ContainsIs(text: string, needle: string)
    ensures Contains(text, needle) <==> exists i: nat :: StandsIn(text, needle, i)
  {
    if |needle| <= |text| {
      assert text[0..0 + |needle|] == text[..|needle|];
      assert StandsIn(text, needle, 0) <==> text[..|needle|] == needle;
      if text[..|needle|] != needle {
        ContainsIs(text[1..], needle);
        if i: nat :| StandsIn(text[1..], needle, i) {
          StandsLater(text, needle, i);
        }
        if i: nat :| StandsIn(text, needle, i) {
          assert i > 0;
          StandsLater(text, needle, i - 1);
        }
      }
    }
  }

  // The last field of hyphenated text.
  function AfterLastHyphen(s: string): string {
    if '-' !in s then s
    else if s[|s| - 1] == '-' then ""
    else AfterLastHyphen(s[..|s| - 1]) + [s[|s| - 1]]
  }

  lemma {:induction false} LastHyphenDelimits(front: string, digits: string)
    requires '-' !in digits
    ensures AfterLastHyphen(front + "-" + digits) == digits
  {
    var s := front + "-" + digits;
    assert s[|front|] == '-';
    if digits == [] {
      assert s[|s| - 1] == '-';
    } else {
      var n := |digits| - 1;
      assert s[|s| - 1] == digits[n] && digits[n] in digits;
      assert s[..|s| - 1] == front + "-" + digits[..n];
      LastHyphenDelimits(front, digits[..n]);
      assert digits == digits[..n] + [digits[n]];
    }
  }
}
