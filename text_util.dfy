/**
 * The .NET string and number routines the property clipboard relies on (String.Trim, String.Split,
 * bool.Parse, the integer Parse/TryParse and ToString), with the behaviour their documentation gives.
 */
module DotNetText {
  import opened Wrappers

  /** Environment.NewLine on Windows, which StringBuilder.AppendLine writes after each line. */
  const NEW_LINE: string := "\r\n"

  /** char.IsWhiteSpace: the Unicode space separators, the line and paragraph separators, U+0009..U+000D and U+0085. */
  predicate IsWhiteSpace(c: char)
  {
    c == ' ' || ('\t' <= c <= '\r') || c == '\U{85}' || c == '\U{A0}' || c == '\U{1680}' ||
    ('\U{2000}' <= c <= '\U{200A}') || c == '\U{2028}' || c == '\U{2029}' || c == '\U{202F}' ||
    c == '\U{205F}' || c == '\U{3000}'
  }

  /** How many characters at the start of `s` satisfy `strip`. */
  function LeadingCount(s: string, strip: char -> bool): (n: nat)
    ensures n <= |s|
    ensures forall i :: 0 <= i < n ==> strip(s[i])
    ensures n < |s| ==> !strip(s[n])
    decreases |s|
  {
    if |s| > 0 && strip(s[0]) then 1 + LeadingCount(s[1..], strip) else 0
  }

  /** How many characters at the end of `s` satisfy `strip`. */
  function TrailingCount(s: string, strip: char -> bool): (n: nat)
    ensures n <= |s|
    ensures forall i :: |s| - n <= i < |s| ==> strip(s[i])
    ensures n < |s| ==> !strip(s[|s| - n - 1])
    decreases |s|
  {
    if |s| > 0 && strip(s[|s| - 1]) then 1 + TrailingCount(s[..|s| - 1], strip) else 0
  }

  /** `s` without its leading characters satisfying `strip`. */
  function TrimStart(s: string, strip: char -> bool): (r: string)
    ensures |r| > 0 ==> !strip(r[0])
  {
    s[LeadingCount(s, strip)..]
  }

  /** `s` without its trailing characters satisfying `strip`. */
  function TrimEnd(s: string, strip: char -> bool): (r: string)
    ensures |r| > 0 ==> !strip(r[|r| - 1])
  {
    s[..|s| - TrailingCount(s, strip)]
  }

  /** `s` without the characters satisfying `strip` at either end. */
  function TrimBoth(s: string, strip: char -> bool): (r: string)
    ensures |r| > 0 ==> !strip(r[0]) && !strip(r[|r| - 1])
  {
    TrimEnd(TrimStart(s, strip), strip)
  }

  /** A string that neither starts nor ends with a stripped character is its own trim. */
  lemma TrimBothNoop(s: string, strip: char -> bool)
    requires |s| > 0 ==> !strip(s[0]) && !strip(s[|s| - 1])
    ensures TrimBoth(s, strip) == s
  {
  }

  /** String.Trim(): leading and trailing white space removed. */
  function Trim(s: string): (r: string)
    ensures |r| > 0 ==> !IsWhiteSpace(r[0]) && !IsWhiteSpace(r[|r| - 1])
  {
    TrimBoth(s, IsWhiteSpace)
  }

  /** Trimming twice changes nothing more. */
  lemma TrimIdempotent(s: string)
    ensures Trim(Trim(s)) == Trim(s)
  {
    TrimBothNoop(Trim(s), IsWhiteSpace);
  }

  /** Whether no character of `s` is in `seps`. */
  predicate NoneOf(s: string, seps: set<char>)
  {
    forall j :: 0 <= j < |s| ==> s[j] !in seps
  }

  /** String.Split(seps): the pieces between the separators, empty ones included; there is always one more piece than separators. */
  function SplitOn(s: string, seps: set<char>): (r: seq<string>)
    ensures |r| >= 1
    ensures forall i :: 0 <= i < |r| ==> NoneOf(r[i], seps)
    decreases |s|
  {
    if |s| == 0 then [""]
    else
      var rest := SplitOn(s[1..], seps);
      if s[0] in seps then [""] + rest else [[s[0]] + rest[0]] + rest[1..]
  }

  /** The pieces joined back with the separator `c`. */
  function JoinWith(parts: seq<string>, c: char): string
    requires |parts| >= 1
    decreases |parts|
  {
    if |parts| == 1 then parts[0] else parts[0] + [c] + JoinWith(parts[1..], c)
  }

  /** Splitting on a single separator loses nothing: joining the pieces gives the string back. */
  lemma {:induction false} SplitJoin(s: string, c: char)
    ensures JoinWith(SplitOn(s, {c}), c) == s
    decreases |s|
  {
    if |s| != 0 {
      var rest := SplitOn(s[1..], {c});
      SplitJoin(s[1..], c);
      if s[0] != c {
        if |rest| == 1 {
          assert s == [s[0]] + rest[0];
        } else {
          assert rest[1..][0] == rest[1];
          assert JoinWith(rest, c) == rest[0] + [c] + JoinWith(rest[1..], c);
          assert s == [s[0]] + s[1..];
        }
      }
    }
  }

  /** How many characters of `s` are `c`. */
  function Occurrences(s: string, c: char): nat
    decreases |s|
  {
    if |s| == 0 then 0 else (if s[0] == c then 1 else 0) + Occurrences(s[1..], c)
  }

  /** There is exactly one more piece than separators, so a string splits into two pieces iff it holds one separator. */
  lemma {:induction false} SplitCount(s: string, c: char)
    ensures |SplitOn(s, {c})| == Occurrences(s, c) + 1
    decreases |s|
  {
    if |s| != 0 {
      SplitCount(s[1..], c);
    }
  }

  /** A string without separators is a single piece. */
  lemma {:induction false} SplitOnNone(s: string, seps: set<char>)
    requires NoneOf(s, seps)
    ensures SplitOn(s, seps) == [s]
    decreases |s|
  {
    if |s| != 0 {
      SplitOnNone(s[1..], seps);
      assert [s[0]] + s[1..] == s;
    }
  }

  /** A separator after a piece without separators ends that piece. */
  lemma {:induction false} SplitOnPiece(a: string, c: char, t: string, seps: set<char>)
    requires NoneOf(a, seps) && c in seps
    ensures SplitOn(a + [c] + t, seps) == [a] + SplitOn(t, seps)
    decreases |a|
  {
    if |a| == 0 {
      assert a + [c] + t == [c] + t;
      assert ([c] + t)[1..] == t;
    } else {
      assert (a + [c] + t)[1..] == a[1..] + [c] + t;
      SplitOnPiece(a[1..], c, t, seps);
      assert [a[0]] + a[1..] == a;
    }
  }

  /** StringSplitOptions.RemoveEmptyEntries: the non-empty pieces, in order. */
  function RemoveEmpty(parts: seq<string>): (r: seq<string>)
    ensures forall i :: 0 <= i < |r| ==> r[i] != ""
    decreases |parts|
  {
    if |parts| == 0 then [] else (if parts[0] == "" then [] else [parts[0]]) + RemoveEmpty(parts[1..])
  }

  /** The non-empty lines of `text`, split on both CR and LF. */
  function SplitLines(text: string): seq<string>
  {
    RemoveEmpty(SplitOn(text, {'\r', '\n'}))
  }

  /** The text a StringBuilder holds after AppendLine of each line in turn. */
  function JoinLines(lines: seq<string>): string
    decreases |lines|
  {
    if |lines| == 0 then "" else lines[0] + NEW_LINE + JoinLines(lines[1..])
  }

  /** One more AppendLine adds the line and a line break at the end. */
  lemma {:induction false} JoinLinesSnoc(lines: seq<string>, line: string)
    ensures JoinLines(lines + [line]) == JoinLines(lines) + line + NEW_LINE
    decreases |lines|
  {
    if |lines| == 0 {
      assert JoinLines([line]) == line + NEW_LINE + JoinLines([]);
    } else {
      assert (lines + [line])[1..] == lines[1..] + [line];
      JoinLinesSnoc(lines[1..], line);
    }
  }

  /** A line followed by a line break splits into the line, the empty piece between CR and LF, and the rest. */
  lemma SplitLineBreak(line: string, rest: string)
    requires NoneOf(line, {'\r', '\n'})
    ensures SplitOn(line + NEW_LINE + rest, {'\r', '\n'}) == [line, ""] + SplitOn(rest, {'\r', '\n'})
  {
    var seps := {'\r', '\n'};
    assert line + NEW_LINE + rest == line + ['\r'] + (['\n'] + rest);
    SplitOnPiece(line, '\r', ['\n'] + rest, seps);
    assert "" + ['\n'] + rest == ['\n'] + rest;
    SplitOnPiece("", '\n', rest, seps);
  }

  /** Splitting appended lines gives the lines back, as long as none is empty or holds a line break. */
  lemma {:induction false} SplitJoinLines(lines: seq<string>)
    requires forall i :: 0 <= i < |lines| ==> lines[i] != "" && NoneOf(lines[i], {'\r', '\n'})
    ensures SplitLines(JoinLines(lines)) == lines
    decreases |lines|
  {
    if |lines| != 0 {
      var seps := {'\r', '\n'};
      var pieces := SplitOn(JoinLines(lines[1..]), seps);
      calc {
        SplitLines(JoinLines(lines));
        RemoveEmpty(SplitOn(lines[0] + NEW_LINE + JoinLines(lines[1..]), seps));
        { SplitLineBreak(lines[0], JoinLines(lines[1..])); }
        RemoveEmpty([lines[0], ""] + pieces);
        { assert ([lines[0], ""] + pieces)[1..] == [""] + pieces; }
        [lines[0]] + RemoveEmpty([""] + pieces);
        { assert ([""] + pieces)[1..] == pieces; }
        [lines[0]] + RemoveEmpty(pieces);
        { SplitJoinLines(lines[1..]); }
        [lines[0]] + lines[1..];
        lines;
      }
    }
  }

  /** Whether `s` equals the lower-case ASCII word `word` once lower-cased (`s.ToLower() == word`). */
  predicate LowerEquals(s: string, word: string)
  {
    |s| == |word| &&
    forall i :: 0 <= i < |s| ==> s[i] == word[i] || ('a' <= word[i] <= 'z' && s[i] as int == word[i] as int - 32)
  }

  /** bool.Parse / bool.TryParse: "true" or "false" in any case, ignoring surrounding white space and NUL characters. */
  function ParseBool(s: string): (r: Option<bool>)
    ensures r == Some(true) ==> LowerEquals(TrimBoth(s, c => IsWhiteSpace(c) || c == '\0'), "true")
    ensures r == Some(false) ==> LowerEquals(TrimBoth(s, c => IsWhiteSpace(c) || c == '\0'), "false")
  {
    var t := TrimBoth(s, c => IsWhiteSpace(c) || c == '\0');
    if LowerEquals(t, "true") then Some(true)
    else if LowerEquals(t, "false") then Some(false)
    else None
  }

  /** bool.ToString(). */
  function FormatBool(b: bool): string
  {
    if b then "True" else "False"
  }

  /** Parsing a rendered boolean gives it back. */
  lemma BoolRoundTrip(b: bool)
    ensures ParseBool(FormatBool(b)) == Some(b)
  {
    TrimBothNoop(FormatBool(b), c => IsWhiteSpace(c) || c == '\0');
  }

  // ---------------------------------------------------------------- integers

  predicate IsDigit(c: char)
  {
    '0' <= c <= '9'
  }

  predicate AllDigits(s: string)
  {
    forall i :: 0 <= i < |s| ==> IsDigit(s[i])
  }

  /** The value of a string of decimal digits. */
  function DigitsValue(s: string): nat
    requires AllDigits(s)
    decreases |s|
  {
    if |s| == 0 then 0 else DigitsValue(s[..|s| - 1]) * 10 + (s[|s| - 1] as int - '0' as int)
  }

  /** The decimal digits of `n`, without leading zeros. */
  function Digits(n: nat): (r: string)
    ensures |r| > 0 && AllDigits(r)
    decreases n
  {
    if n < 10 then [('0' as int + n) as char] else Digits(n / 10) + [('0' as int + n % 10) as char]
  }

  /** Reading back the digits of `n` gives `n`. */
  lemma {:induction false} DigitsRoundTrip(n: nat)
    ensures DigitsValue(Digits(n)) == n
    decreases n
  {
    if n >= 10 {
      var d := Digits(n);
      assert d[..|d| - 1] == Digits(n / 10);
      DigitsRoundTrip(n / 10);
    }
  }

  /** White space the integer parser skips around the number (NumberStyles.Integer). */
  predicate IsNumberWhite(c: char)
  {
    c == ' ' || ('\t' <= c <= '\r')
  }

  /**
   * int/uint/long/ulong Parse and TryParse with NumberStyles.Integer, for the range `lo .. hi` of the
   * target type: optional white space, then a signed number. None is a format error or an overflow.
   */
  function ParseInteger(s: string, lo: int, hi: int): (r: Option<int>)
    ensures r.Some? ==> lo <= r.value <= hi
  {
    ParseSigned(TrimBoth(s, IsNumberWhite), lo, hi)
  }

  /** An optional sign and one or more decimal digits, whose value must lie in `lo .. hi`. */
  function ParseSigned(t: string, lo: int, hi: int): (r: Option<int>)
    ensures r.Some? ==> lo <= r.value <= hi
  {
    if |t| == 0 then None
    else
      var digits := if t[0] == '-' || t[0] == '+' then t[1..] else t;
      if |digits| == 0 || !AllDigits(digits) then None
      else
        var v: int := if t[0] == '-' then -(DigitsValue(digits) as int) else DigitsValue(digits);
        if lo <= v <= hi then Some(v) else None
  }

  /** Integer ToString(): a minus sign for negative values, then the decimal digits. */
  function FormatInteger(v: int): (r: string)
    ensures |r| > 0 && (r[0] == '-' || IsDigit(r[0])) && IsDigit(r[|r| - 1])
    ensures forall j :: 0 < j < |r| ==> IsDigit(r[j])
    ensures (r[0] == '-') <==> v < 0
  {
    if v < 0 then "-" + Digits(-v) else Digits(v)
  }

  /** Every integer of the target range survives ToString followed by Parse. */
  lemma IntegerRoundTrip(v: int, lo: int, hi: int)
    requires lo <= v <= hi
    ensures ParseInteger(FormatInteger(v), lo, hi) == Some(v)
  {
    var s := FormatInteger(v);
    TrimBothNoop(s, IsNumberWhite);
    SignedRoundTrip(v, lo, hi);
  }

  lemma SignedRoundTrip(v: int, lo: int, hi: int)
    requires lo <= v <= hi
    ensures ParseSigned(FormatInteger(v), lo, hi) == Some(v)
  {
    var t := FormatInteger(v);
    if v < 0 {
      var d := Digits(-v);
      assert t == "-" + d && t[1..] == d;
      DigitsRoundTrip(-v);
      assert ParseSigned(t, lo, hi) == if lo <= -(DigitsValue(d) as int) <= hi then Some(-(DigitsValue(d) as int)) else None;
    } else {
      assert t[0] != '-' && t[0] != '+';
      DigitsRoundTrip(v);
    }
  }
}
