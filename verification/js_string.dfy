/** The pieces of JavaScript string behaviour the extension relies on:
    `trim`, `includes`, `lastIndexOf`, `toLowerCase`, `Array.prototype.toString`,
    `String(n)` for a non-negative integer, and the `/(\d+)/` + `parseInt`
    idiom. Lengths are counted in characters. */
module JsString {
  import opened Values

  /** ECMAScript LineTerminator code points (the ones `.` does not match). */
  predicate IsLineTerminator(c: char) {
    c == '\n' || c == '\r' || c == '\U{2028}' || c == '\U{2029}'
  }

  /** ECMAScript WhiteSpace and LineTerminator: what `trim` strips and `\s` matches. */
  predicate IsWhitespace(c: char) {
    || c == '\t' || c == '\U{000B}' || c == '\U{000C}' || c == ' '
    || c == '\U{00A0}' || c == '\U{FEFF}' || c == '\U{1680}'
    || ('\U{2000}' <= c <= '\U{200A}')
    || c == '\U{202F}' || c == '\U{205F}' || c == '\U{3000}'
    || IsLineTerminator(c)
  }

  predicate AllWhitespace(s: string) {
    forall i | 0 <= i < |s| :: IsWhitespace(s[i])
  }

  /** A concatenation is all whitespace exactly when both parts are. */
  lemma AllWhitespaceConcat(a: string, b: string)
    ensures AllWhitespace(a + b) <==> AllWhitespace(a) && AllWhitespace(b)
  {
    if AllWhitespace(a + b) {
      forall i | 0 <= i < |a| ensures IsWhitespace(a[i]) {
        assert a[i] == (a + b)[i];
      }
      forall i | 0 <= i < |b| ensures IsWhitespace(b[i]) {
        assert b[i] == (a + b)[|a| + i];
      }
    }
  }

  /** `trimStart`: drops the longest all-whitespace prefix. */
  function TrimStart(s: string): (r: string)
    ensures |r| <= |s| && r == s[|s| - |r|..]
    ensures AllWhitespace(s[..|s| - |r|])
    ensures r == [] || !IsWhitespace(r[0])
  {
    if |s| > 0 && IsWhitespace(s[0]) then
      var r := TrimStart(s[1..]);
      TrimStartStep(s, r);
      r
    else
      s
  }

  /** `trimEnd`: drops the longest all-whitespace suffix. */
  function TrimEnd(s: string): (r: string)
    ensures |r| <= |s| && r == s[..|r|]
    ensures AllWhitespace(s[|r|..])
    ensures r == [] || !IsWhitespace(r[|r| - 1])
  {
    if |s| > 0 && IsWhitespace(s[|s| - 1]) then
      var r := TrimEnd(s[..|s| - 1]);
      TrimEndStep(s, r);
      r
    else
      s
  }

  /** A leading whitespace character joins the dropped prefix. */
  lemma TrimStartStep(s: string, r: string)
    requires |s| > 0 && IsWhitespace(s[0])
    requires |r| <= |s| - 1 && r == s[1..][|s| - 1 - |r|..]
    requires AllWhitespace(s[1..][..|s| - 1 - |r|])
    ensures r == s[|s| - |r|..] && AllWhitespace(s[..|s| - |r|])
  {
    assert s[..|s| - |r|] == [s[0]] + s[1..][..|s| - 1 - |r|];
    AllWhitespaceConcat([s[0]], s[1..][..|s| - 1 - |r|]);
  }

  /** A trailing whitespace character joins the dropped suffix. */
  lemma TrimEndStep(s: string, r: string)
    requires |s| > 0 && IsWhitespace(s[|s| - 1])
    requires |r| <= |s| - 1 && r == s[..|s| - 1][..|r|]
    requires AllWhitespace(s[..|s| - 1][|r|..])
    ensures r == s[..|r|] && AllWhitespace(s[|r|..])
  {
    assert s[|r|..] == s[..|s| - 1][|r|..] + [s[|s| - 1]];
    AllWhitespaceConcat(s[..|s| - 1][|r|..], [s[|s| - 1]]);
  }

  /** `String.prototype.trim`. */
  function Trim(s: string): (r: string)
    ensures |r| <= |s|
    ensures r == [] <==> AllWhitespace(s)
    ensures r != [] ==> !IsWhitespace(r[0]) && !IsWhitespace(r[|r| - 1])
  {
    var t := TrimStart(s);
    var r := TrimEnd(t);
    TrimParts(s, t, r);
    r
  }

  /** Whitespace dropped from the front and then from the back leaves
      nothing exactly when the whole string was whitespace. */
  lemma TrimParts(s: string, t: string, r: string)
    requires |t| <= |s| && t == s[|s| - |t|..] && AllWhitespace(s[..|s| - |t|])
    requires t == [] || !IsWhitespace(t[0])
    requires |r| <= |t| && r == t[..|r|] && AllWhitespace(t[|r|..])
    ensures r == [] <==> AllWhitespace(s)
    ensures r != [] ==> !IsWhitespace(r[0])
  {
    var k := |s| - |t|;
    assert s == s[..k] + t;
    AllWhitespaceConcat(s[..k], t);
    assert t == r + t[|r|..];
    AllWhitespaceConcat(r, t[|r|..]);
    if r != [] {
      assert r[0] == t[0];
    }
  }

  /** `!s.trim()`: nothing but whitespace, so the trimmed string is empty
      (`BlankIffTrimEmpty`). */
  predicate IsBlank(s: string) {
    AllWhitespace(s)
  }

  lemma BlankIffTrimEmpty(s: string)
    ensures IsBlank(s) <==> Trim(s) == []
  {
  }

  /** A string that starts and ends with a non-whitespace character is its own trim. */
  lemma TrimOfTrimmed(s: string)
    requires s != [] && !IsWhitespace(s[0]) && !IsWhitespace(s[|s| - 1])
    ensures Trim(s) == s
  {
  }

  /** Trailing whitespace never survives `trim`. */
  lemma {:induction false} TrimDropsTrailingWhitespace(s: string, w: string)
    requires AllWhitespace(w)
    ensures Trim(s + w) == Trim(s)
  {
    TrimStartOfPadded(s, w);
    TrimEndOfPadded(TrimStart(s), w);
  }

  lemma {:induction false} TrimStartOfPadded(s: string, w: string)
    requires AllWhitespace(w)
    ensures !AllWhitespace(s) ==> TrimStart(s + w) == TrimStart(s) + w
    ensures AllWhitespace(s) ==> TrimStart(s + w) == []
    decreases |s|
  {
    if |s| == 0 {
      assert s + w == w;
      AllWhitespaceTrimStart(w);
    } else if IsWhitespace(s[0]) {
      AllWhitespaceCons(s);
      assert TrimStart(s + w) == TrimStart(s[1..] + w) by {
        assert (s + w)[0] == s[0];
        assert (s + w)[1..] == s[1..] + w;
      }
      TrimStartOfPadded(s[1..], w);
    } else {
      assert TrimStart(s + w) == s + w by {
        assert (s + w)[0] == s[0];
      }
    }
  }

  /** Behind a leading whitespace character, a string is all whitespace
      exactly when the rest is. */
  lemma AllWhitespaceCons(s: string)
    requires s != [] && IsWhitespace(s[0])
    ensures AllWhitespace(s) <==> AllWhitespace(s[1..])
  {
    if AllWhitespace(s[1..]) {
      forall i | 1 <= i < |s| ensures IsWhitespace(s[i]) {
        assert s[i] == s[1..][i - 1];
      }
    }
  }

  lemma AllWhitespaceTrimStart(w: string)
    requires AllWhitespace(w)
    ensures TrimStart(w) == []
  {
  }

  lemma {:induction false} TrimEndOfPadded(t: string, w: string)
    requires AllWhitespace(w)
    requires !AllWhitespace(t) ==> t != [] && !IsWhitespace(t[0])
    ensures !AllWhitespace(t) ==> TrimEnd(t + w) == TrimEnd(t)
    ensures AllWhitespace(t) ==> TrimEnd(t + w) == []
    decreases |w|
  {
    if |w| == 0 {
      assert t + w == t;
      if AllWhitespace(t) { AllWhitespaceTrimEnd(t); }
    } else {
      var w' := w[..|w| - 1];
      assert (t + w)[..|t + w| - 1] == t + w';
      assert IsWhitespace((t + w)[|t + w| - 1]) by { assert (t + w)[|t + w| - 1] == w[|w| - 1]; }
      TrimEndOfPadded(t, w');
    }
  }

  lemma AllWhitespaceTrimEnd(w: string)
    requires AllWhitespace(w)
    ensures TrimEnd(w) == []
  {
  }

  /** `s` holds `pat` starting at index `i`. */
  predicate OccursAt(s: string, pat: string, i: nat) {
    i + |pat| <= |s| && s[i..i + |pat|] == pat
  }

  /** An occurrence stays where it is when text is appended. */
  lemma OccursAtExtended(s: string, pat: string, i: nat, tail: string)
    requires OccursAt(s, pat, i)
    ensures OccursAt(s + tail, pat, i)
  {
    assert (s + tail)[i..i + |pat|] == s[i..i + |pat|];
  }

  /** `s.indexOf(pat, from)`: the leftmost occurrence at or after `from`. */
  function IndexOfFrom(s: string, pat: string, from: nat): (r: Option<nat>)
    ensures r.Some? ==> from <= r.value && OccursAt(s, pat, r.value)
    ensures r.Some? ==> forall j: nat | from <= j < r.value :: !OccursAt(s, pat, j)
    ensures r.None? ==> forall j: nat | from <= j :: !OccursAt(s, pat, j)
    decreases |s| - from
  {
    if from + |pat| > |s| then None
    else if s[from..from + |pat|] == pat then Some(from)
    else IndexOfFrom(s, pat, from + 1)
  }

  /** `s.includes(pat)`. */
  function Includes(s: string, pat: string): (b: bool)
    ensures b <==> exists j: nat :: OccursAt(s, pat, j)
  {
    IndexOfFrom(s, pat, 0).Some?
  }

  predicate StartsWith(s: string, prefix: string) {
    |prefix| <= |s| && s[..|prefix|] == prefix
  }

  predicate EndsWith(s: string, suffix: string) {
    |suffix| <= |s| && s[|s| - |suffix|..] == suffix
  }

  /** The three parts of a concatenation can be read back from it. */
  lemma Slices3(x: string, y: string, z: string)
    ensures (x + y + z)[..|x|] == x
    ensures (x + y + z)[|x|..|x| + |y|] == y
    ensures (x + y + z)[|x| + |y|..] == z
  {
  }

  /** Concatenation is associative. */
  lemma ConcatAssoc<T>(a: seq<T>, b: seq<T>, c: seq<T>)
    ensures a + (b + c) == a + b + c
  {
  }

  /** The end of a suffix is a suffix. */
  lemma EndsWithPart(s: string, x: string, y: string)
    requires EndsWith(s, x + y)
    ensures EndsWith(s, y)
  {
    assert s[|s| - |y|..] == s[|s| - |x + y|..][|x|..];
  }

  /** Where each of five consecutive parts sits in their concatenation. */
  lemma {:induction false} Layout5(a: string, b: string, c: string, d: string, e: string)
    ensures var s := a + b + c + d + e;
      && StartsWith(s, a)
      && OccursAt(s, b, |a|)
      && OccursAt(s, c, |a| + |b|)
      && OccursAt(s, d, |a| + |b| + |c|)
      && EndsWith(s, e)
      && |s| == |a| + |b| + |c| + |d| + |e|
  {
    var s := a + b + c + d + e;
    assert StartsWith(s, a) && OccursAt(s, b, |a|) by {
      ConcatAssoc(a + b, c, d);
      ConcatAssoc(a + b, c + d, e);
      Slices3(a, b, (c + d) + e);
    }
    assert OccursAt(s, c, |a| + |b|) by {
      ConcatAssoc(a + b + c, d, e);
      Slices3(a + b, c, d + e);
    }
    assert OccursAt(s, d, |a| + |b| + |c|) && EndsWith(s, e) by {
      Slices3(a + b + c, d, e);
    }
  }

  /** `s.lastIndexOf(c)` for a one-character needle, -1 when absent. */
  function LastIndexOfChar(s: string, c: char): (r: int)
    ensures -1 <= r < |s|
    ensures r >= 0 ==> s[r] == c
    ensures forall j | r < j < |s| :: s[j] != c
    decreases |s|
  {
    if |s| == 0 then -1
    else if s[|s| - 1] == c then |s| - 1
    else LastIndexOfChar(s[..|s| - 1], c)
  }

  /** `toLowerCase` restricted to ASCII letters. */
  function ToLowerChar(c: char): char {
    if 'A' <= c <= 'Z' then (c as int + 32) as char else c
  }

  function ToLower(s: string): (r: string)
    ensures |r| == |s|
  {
    seq(|s|, i requires 0 <= i < |s| => ToLowerChar(s[i]))
  }

  /** `Array.prototype.toString` of a row of strings: the cells joined by ','. */
  function JoinComma(cells: seq<string>): string {
    if |cells| == 0 then ""
    else if |cells| == 1 then cells[0]
    else cells[0] + "," + JoinComma(cells[1..])
  }

  /** Splitting on ',' (the inverse of `JoinComma` for cells without commas). */
  function SplitComma(s: string): (r: seq<string>)
    ensures |r| >= 1
    decreases |s|
  {
    if ',' !in s then [s]
    else
      var i := FirstIndexOfChar(s, ',');
      [s[..i]] + SplitComma(s[i + 1..])
  }

  function FirstIndexOfChar(s: string, c: char): (i: nat)
    requires c in s
    ensures i < |s| && s[i] == c && c !in s[..i]
  {
    if s[0] == c then 0
    else
      assert c in s[1..] by { var k :| 0 <= k < |s| && s[k] == c; assert s[1..][k - 1] == c; }
      var i := 1 + FirstIndexOfChar(s[1..], c);
      assert s[..i] == [s[0]] + s[1..][..i - 1];
      i
  }

  lemma {:induction false} FirstIndexOfCharAt(a: string, c: char, b: string)
    requires c !in a
    ensures FirstIndexOfChar(a + [c] + b, c) == |a|
    decreases |a|
  {
    var s := a + [c] + b;
    if |a| > 0 {
      assert s[0] == a[0];
      assert s[1..] == a[1..] + [c] + b;
      FirstIndexOfCharAt(a[1..], c, b);
    }
  }

  /** A row read from a range comes back cell for cell from its `toString()`
      whenever no cell holds a comma. */
  lemma {:induction false} SplitJoinRoundTrip(cells: seq<string>)
    requires |cells| >= 1
    requires forall k | 0 <= k < |cells| :: ',' !in cells[k]
    ensures SplitComma(JoinComma(cells)) == cells
    decreases |cells|
  {
    if |cells| > 1 {
      var s := JoinComma(cells);
      var rest := JoinComma(cells[1..]);
      assert s == cells[0] + "," + rest;
      assert s[|cells[0]|] == ',';
      assert s == cells[0] + [','] + rest;
      FirstIndexOfCharAt(cells[0], ',', rest);
      var i := |cells[0]|;
      assert s[..i] == cells[0];
      assert s[i + 1..] == rest;
      SplitJoinRoundTrip(cells[1..]);
    }
  }

  predicate IsDigit(c: char) {
    '0' <= c <= '9'
  }

  predicate AllDigits(s: string) {
    forall i | 0 <= i < |s| :: IsDigit(s[i])
  }

  function DigitChar(d: nat): (c: char)
    requires d < 10
    ensures IsDigit(c)
  {
    ('0' as int + d) as char
  }

  function DigitValue(c: char): (d: nat)
    requires IsDigit(c)
    ensures d < 10 && DigitChar(d) == c
  {
    c as int - '0' as int
  }

  /** `String(n)` / template-literal rendering of a non-negative integer. */
  function NatToString(n: nat): (r: string)
    ensures |r| >= 1 && AllDigits(r)
    ensures n >= 10 ==> r[0] != '0'
  {
    if n < 10 then [DigitChar(n)]
    else NatToString(n / 10) + [DigitChar(n % 10)]
  }

  /** `parseInt` of a decimal digit string. */
  function ParseDigits(s: string): nat
    requires AllDigits(s)
  {
    if |s| == 0 then 0
    else 10 * ParseDigits(s[..|s| - 1]) + DigitValue(s[|s| - 1])
  }

  /** Rendering a count and parsing it back gives the count again. */
  lemma {:induction false} ParseNatToString(n: nat)
    ensures ParseDigits(NatToString(n)) == n
    decreases n
  {
    var s := NatToString(n);
    if n >= 10 {
      ParseNatToString(n / 10);
      assert s[..|s| - 1] == NatToString(n / 10);
    }
  }

  /** Distinct counts render differently, so a row number in a message names one row. */
  lemma NatToStringInjective(m: nat, n: nat)
    requires NatToString(m) == NatToString(n)
    ensures m == n
  {
    ParseNatToString(m);
    ParseNatToString(n);
  }

  /** Index of the first digit at or after `from`, if any. */
  function FirstDigitFrom(s: string, from: nat): (r: Option<nat>)
    ensures r.Some? ==> from <= r.value < |s| && IsDigit(s[r.value])
    ensures r.Some? ==> forall j | from <= j < r.value :: !IsDigit(s[j])
    ensures r.None? ==> forall j | from <= j < |s| :: !IsDigit(s[j])
    decreases |s| - from
  {
    if from >= |s| then None
    else if IsDigit(s[from]) then Some(from)
    else FirstDigitFrom(s, from + 1)
  }

  /** End of the run of digits starting at `from`. */
  function DigitRunEnd(s: string, from: nat): (e: nat)
    requires from <= |s|
    ensures from <= e <= |s|
    ensures AllDigits(s[from..e])
    ensures e == |s| || !IsDigit(s[e])
    decreases |s| - from
  {
    if from < |s| && IsDigit(s[from]) then
      var e := DigitRunEnd(s, from + 1);
      assert s[from..e] == [s[from]] + s[from + 1..e];
      e
    else from
  }

  /** `run` sits in `s` at `i`, no digit comes before it and it cannot be extended. */
  predicate IsDigitRunAfterNoDigits(s: string, run: string, i: nat) {
    && OccursAt(s, run, i)
    && (forall j | 0 <= j < i :: !IsDigit(s[j]))
    && (i + |run| == |s| || !IsDigit(s[i + |run|]))
  }

  /** `s.match(/(\d+)/)?.[1]`: the leftmost maximal run of ASCII digits. */
  function FirstDigitRun(s: string): (r: Option<string>)
    ensures r.None? <==> forall j | 0 <= j < |s| :: !IsDigit(s[j])
    ensures r.Some? ==> r.value != [] && AllDigits(r.value)
    ensures r.Some? ==> exists i: nat :: IsDigitRunAfterNoDigits(s, r.value, i)
  {
    match FirstDigitFrom(s, 0)
    case None => None
    case Some(i) =>
      var e := DigitRunEnd(s, i);
      var run := s[i..e];
      assert IsDigitRunAfterNoDigits(s, run, i);
      Some(run)
  }

  predicate NoDigits(s: string) {
    forall j | 0 <= j < |s| :: !IsDigit(s[j])
  }

  /** Two maximal runs of digits from the same place have the same length. */
  lemma MaximalRunsAgree(s: string, i: nat, a: nat, b: nat)
    requires i + a <= |s| && i + b <= |s|
    requires forall j | i <= j < i + a :: IsDigit(s[j])
    requires forall j | i <= j < i + b :: IsDigit(s[j])
    requires i + a == |s| || !IsDigit(s[i + a])
    requires i + b == |s| || !IsDigit(s[i + b])
    ensures a == b
  {
  }

  /** A maximal run of digits with no digit before it is the first run. */
  lemma FirstDigitRunAt(s: string, i0: nat, n: nat)
    requires 0 < n && i0 + n <= |s|
    requires forall j | 0 <= j < i0 :: !IsDigit(s[j])
    requires forall j | i0 <= j < i0 + n :: IsDigit(s[j])
    requires i0 + n == |s| || !IsDigit(s[i0 + n])
    ensures FirstDigitRun(s) == Some(s[i0..i0 + n])
  {
    assert IsDigit(s[i0]);
    var run := FirstDigitRun(s).value;
    var i: nat :| IsDigitRunAfterNoDigits(s, run, i);
    assert IsDigit(s[i]) by {
      assert s[i] == s[i..i + |run|][0] == run[0];
    }
    assert i == i0;
    assert forall j | i <= j < i + |run| :: IsDigit(s[j]) by {
      forall j | i <= j < i + |run| ensures IsDigit(s[j]) {
        assert s[j] == s[i..i + |run|][j - i] == run[j - i];
      }
    }
    MaximalRunsAgree(s, i, |run|, n);
  }

  /** Digits written after a digit-free head, and not followed by another
      digit, are the first run of digits. */
  lemma FirstDigitRunAfter(head: string, digits: string, tail: string)
    requires NoDigits(head) && digits != [] && AllDigits(digits)
    requires tail == [] || !IsDigit(tail[0])
    ensures FirstDigitRun(head + digits + tail) == Some(digits)
  {
    var s := head + digits + tail;
    var i0 := |head|;
    forall j | 0 <= j < i0 ensures !IsDigit(s[j]) {
      assert s[j] == head[j];
    }
    forall j | i0 <= j < i0 + |digits| ensures IsDigit(s[j]) {
      assert s[j] == digits[j - i0];
    }
    assert i0 + |digits| == |s| || !IsDigit(s[i0 + |digits|]) by {
      if tail != [] {
        assert s[i0 + |digits|] == tail[0];
      }
    }
    FirstDigitRunAt(s, i0, |digits|);
    assert s[i0..i0 + |digits|] == digits;
  }
}
