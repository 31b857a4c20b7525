/** The JavaScript string operations the two scripts rely on: `trim`, `split` on one
    character, `replace` of the first occurrence, `\s+` replacement, `toLowerCase`
    and the decimal rendering of a status code. */
module Text {

  /** ECMAScript WhiteSpace and LineTerminator code points: what `trim()` strips and `\s` matches. */
  predicate IsWhitespace(c: char) {
    || c == '\t' || c == '\n' || c == '\U{000B}' || c == '\U{000C}' || c == '\r'
    || c == ' ' || c == '\U{00A0}' || c == '\U{1680}' || ('\U{2000}' <= c <= '\U{200A}')
    || c == '\U{2028}' || c == '\U{2029}' || c == '\U{202F}' || c == '\U{205F}'
    || c == '\U{3000}' || c == '\U{FEFF}'
  }

  predicate HasNoWhitespace(s: string) {
    forall i :: 0 <= i < |s| ==> !IsWhitespace(s[i])
  }

  /** `s` with its leading whitespace removed: a suffix of `s`, all of the cut part whitespace. */
  function TrimStart(s: string): (r: string)
    ensures |r| <= |s| && r == s[|s| - |r|..]
    ensures forall i :: 0 <= i < |s| - |r| ==> IsWhitespace(s[i])
    ensures r == [] || !IsWhitespace(r[0])
  {
    if s != [] && IsWhitespace(s[0]) then TrimStart(s[1..]) else s
  }

  /** `s` with its trailing whitespace removed: a prefix of `s`, all of the cut part whitespace. */
  function TrimEnd(s: string): (r: string)
    ensures |r| <= |s| && r == s[..|r|]
    ensures forall i :: |r| <= i < |s| ==> IsWhitespace(s[i])
    ensures r == [] || !IsWhitespace(r[|r| - 1])
  {
    if s != [] && IsWhitespace(s[|s| - 1]) then TrimEnd(s[..|s| - 1]) else s
  }

  /** JavaScript `s.trim()`. */
  function Trim(s: string): string {
    TrimEnd(TrimStart(s))
  }

  /** `Trim` keeps one contiguous slice of `s`, and everything it cuts is whitespace. */
  lemma TrimSlice(s: string)
    ensures exists i, j ::
              && 0 <= i <= j <= |s| && Trim(s) == s[i..j]
              && (forall k :: 0 <= k < i ==> IsWhitespace(s[k]))
              && (forall k :: j <= k < |s| ==> IsWhitespace(s[k]))
  {
    var t := TrimStart(s);
    CutEnds(s, t, TrimEnd(t));
  }

  /** A prefix `u` of a suffix `t` of `s`, with only whitespace cut on either side. */
  lemma CutEnds(s: string, t: string, u: string)
    requires |t| <= |s| && t == s[|s| - |t|..] && |u| <= |t| && u == t[..|u|]
    requires forall k :: 0 <= k < |s| - |t| ==> IsWhitespace(s[k])
    requires forall k :: |u| <= k < |t| ==> IsWhitespace(t[k])
    ensures exists i, j ::
              && 0 <= i <= j <= |s| && u == s[i..j]
              && (forall k :: 0 <= k < i ==> IsWhitespace(s[k]))
              && (forall k :: j <= k < |s| ==> IsWhitespace(s[k]))
  {
    var i := |s| - |t|;
    var j := i + |u|;
    assert u == s[i..j];
    forall k | j <= k < |s| ensures IsWhitespace(s[k]) {
      assert s[k] == t[k - i];
    }
  }

  /** What `Trim` keeps has no whitespace at either end. */
  lemma TrimEnds(s: string)
    ensures Trim(s) == [] || (!IsWhitespace(Trim(s)[0]) && !IsWhitespace(Trim(s)[|Trim(s)| - 1]))
  {
    var t := TrimStart(s);
    var u := TrimEnd(t);
    assert u == t[..|u|];
    if u != [] {
      assert u[0] == t[0];
    }
  }

  /** A string without whitespace is its own trim. */
  lemma TrimOfNoWhitespace(s: string)
    requires HasNoWhitespace(s)
    ensures Trim(s) == s
  {
  }

  /** Trimming twice is trimming once. */
  lemma TrimIdempotent(s: string)
    ensures Trim(Trim(s)) == Trim(s)
  {
    TrimEnds(s);
  }

  /** Glues `parts` back together with `sep` between neighbours. */
  function Join(parts: seq<string>, sep: char): string
    requires |parts| >= 1
  {
    if |parts| == 1 then parts[0] else parts[0] + [sep] + Join(parts[1..], sep)
  }

  /** JavaScript `s.split(sep)` for a one-character separator: never empty, no piece holds
      `sep`, and gluing the pieces back with `sep` gives `s`. */
  function Split(s: string, sep: char): (r: seq<string>)
    ensures |r| >= 1
    ensures forall i :: 0 <= i < |r| ==> sep !in r[i]
    ensures Join(r, sep) == s
  {
    if s == [] then [""]
    else
      var rest := Split(s[1..], sep);
      if s[0] == sep then [""] + rest
      else
        assert Join([[s[0]] + rest[0]] + rest[1..], sep) == [s[0]] + Join(rest, sep);
        [[s[0]] + rest[0]] + rest[1..]
  }

  /** Splitting is the inverse of joining pieces that do not hold the separator. */
  lemma {:induction false} SplitJoin(parts: seq<string>, sep: char)
    requires |parts| >= 1
    requires forall i :: 0 <= i < |parts| ==> sep !in parts[i]
    ensures Split(Join(parts, sep), sep) == parts
  {
    if |parts| == 1 {
      SplitPiece(parts[0], sep);
    } else {
      SplitJoin(parts[1..], sep);
      SplitPrefix(parts[0], Join(parts[1..], sep), sep);
      assert [parts[0]] + parts[1..] == parts;
    }
  }

  /** A string without the separator splits into itself. */
  lemma {:induction false} SplitPiece(w: string, sep: char)
    requires sep !in w
    ensures Split(w, sep) == [w]
  {
    if w != [] {
      SplitPiece(w[1..], sep);
      assert [w[0]] + w[1..] == w;
    }
  }

  /** Splitting `w + sep + t`, `w` free of the separator, puts `w` in front of the pieces of `t`. */
  lemma {:induction false} SplitPrefix(w: string, t: string, sep: char)
    requires sep !in w
    ensures Split(w + [sep] + t, sep) == [w] + Split(t, sep)
  {
    if w == [] {
      assert w + [sep] + t == [sep] + t;
      assert ([sep] + t)[1..] == t;
    } else {
      var x := w + [sep] + t;
      SplitPrefix(w[1..], t, sep);
      assert x[1..] == w[1..] + [sep] + t;
      var rest := Split(x[1..], sep);
      assert rest[0] == w[1..] && rest[1..] == Split(t, sep);
      assert x[0] == w[0] && w[0] != sep;
      assert [x[0]] + rest[0] == w;
    }
  }

  /** JavaScript `s.replace(pat, rep)` with a string pattern: only the first occurrence of
      `pat` is replaced; an empty pattern matches at the very start. */
  function ReplaceFirst(s: string, pat: string, rep: string): string
    decreases |s|
  {
    if pat <= s then rep + s[|pat|..]
    else if s == [] then []
    else [s[0]] + ReplaceFirst(s[1..], pat, rep)
  }

  /** Replacing the first occurrence of a prefix by nothing strips that prefix, whatever
      the rest holds (even further occurrences of it). */
  lemma StripPrefix(pat: string, rest: string)
    ensures ReplaceFirst(pat + rest, pat, "") == rest
  {
    assert pat <= pat + rest;
    assert (pat + rest)[|pat|..] == rest;
  }

  /** JavaScript `s.endsWith(suffix)`. */
  predicate EndsWith(s: string, suffix: string) {
    |suffix| <= |s| && s[|s| - |suffix|..] == suffix
  }

  /** `s.replace(/\s+/g, rep)`: every maximal run of whitespace becomes one `rep`. */
  function ReplaceWhitespaceRuns(s: string, rep: char): (r: string)
    ensures !IsWhitespace(rep) ==> HasNoWhitespace(r)
    decreases |s|
  {
    if s == [] then []
    else if IsWhitespace(s[0]) then [rep] + ReplaceWhitespaceRuns(TrimStart(s), rep)
    else [s[0]] + ReplaceWhitespaceRuns(s[1..], rep)
  }

  /** A string with no whitespace is left as it is. */
  lemma {:induction false} ReplaceRunsNoWhitespace(s: string, rep: char)
    requires HasNoWhitespace(s)
    ensures ReplaceWhitespaceRuns(s, rep) == s
  {
    if s != [] {
      ReplaceRunsNoWhitespace(s[1..], rep);
      assert [s[0]] + s[1..] == s;
    }
  }

  /** `toLowerCase()` on one character; only the ASCII letters are mapped here. */
  function LowerChar(c: char): char {
    if 'A' <= c <= 'Z' then (c as int + 32) as char else c
  }

  predicate IsAsciiUpper(c: char) {
    'A' <= c <= 'Z'
  }

  /** `s.toLowerCase()` restricted to ASCII: same length, no upper-case ASCII letter left,
      every other character kept, whitespace neither created nor removed. */
  function Lower(s: string): (r: string)
    ensures |r| == |s|
    ensures forall i :: 0 <= i < |r| ==> !IsAsciiUpper(r[i])
    ensures forall i :: 0 <= i < |r| ==> (IsAsciiUpper(s[i]) || r[i] == s[i])
    ensures forall i :: 0 <= i < |r| ==> (IsWhitespace(r[i]) <==> IsWhitespace(s[i]))
  {
    seq(|s|, i requires 0 <= i < |s| => LowerChar(s[i]))
  }

  /** Decimal digits of `n`, as JavaScript renders `response.status` in a template string. */
  function NatToString(n: nat): (r: string)
    ensures |r| >= 1
    ensures forall i :: 0 <= i < |r| ==> '0' <= r[i] <= '9'
  {
    if n < 10 then [DigitChar(n)] else NatToString(n / 10) + [DigitChar(n % 10)]
  }

  function DigitChar(d: nat): (c: char)
    requires d < 10
    ensures '0' <= c <= '9'
  {
    ('0' as int + d) as char
  }

  /** Reading the digits back gives the number: the rendering loses nothing. */
  function DigitsValue(s: string): int {
    if s == [] then 0 else DigitsValue(s[..|s| - 1]) * 10 + (s[|s| - 1] as int - '0' as int)
  }

  lemma {:induction false} NatToStringValue(n: nat)
    ensures DigitsValue(NatToString(n)) == n
  {
    if n >= 10 {
      NatToStringValue(n / 10);
      var s := NatToString(n);
      assert s[..|s| - 1] == NatToString(n / 10);
    }
  }
}
