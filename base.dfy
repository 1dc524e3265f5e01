/** Shared value types and the JavaScript string operations the services rely on.
    A `string` stands for a JavaScript string, one `char` per character. */
module Base {

  datatype Option<+T> = None | Some(value: T)

  /** A byte of a downloaded media buffer. */
  type Byte = bv8

  datatype Result<+T, +E> = Ok(value: T) | Err(error: E)

  /** What an HTTP client error carries: its own `message` and, when the server
      answered, the fields of the response body the services read ("" = absent). */
  datatype ErrorBody = ErrorBody(message: string, description: string, firstErrorMessage: string)
  datatype HttpFailure = HttpFailure(message: string, body: ErrorBody)

  /** An `Error` thrown by the services themselves has no response attached. */
  function Thrown(message: string): HttpFailure {
    HttpFailure(message, ErrorBody("", "", ""))
  }

  /** JavaScript `a || b` on strings: the empty string is falsy. */
  function OrElse(a: string, b: string): (r: string)
    ensures r == a || r == b
    ensures r == "" <==> a == "" && b == ""
    ensures a != "" ==> r == a
  {
    if a != "" then a else b
  }

  /** `x` is truthy: present and not the empty string. */
  predicate Truthy(x: Option<string>) {
    x.Some? && x.value != ""
  }

  /** The two whitespace sets the code relies on. */
  datatype Spaces = JsSpaces | PySpaces

  /** ECMAScript WhiteSpace and LineTerminator code points: what `trim` removes
      and what `\s` matches in a regular expression. */
  predicate IsJsSpace(c: char) {
    c == '\t' || c == '\n' || c == '\U{B}' || c == '\U{C}' || c == '\r' || c == ' '
    || c == '\U{A0}' || c == '\U{1680}' || ('\U{2000}' <= c <= '\U{200A}')
    || c == '\U{2028}' || c == '\U{2029}' || c == '\U{202F}' || c == '\U{205F}'
    || c == '\U{3000}' || c == '\U{FEFF}'
  }

  /** Python's `str.isspace` for a single character (what `str.strip()` removes). */
  predicate IsPySpace(c: char) {
    ('\t' <= c <= '\r') || ('\U{1C}' <= c <= '\U{1F}') || c == ' ' || c == '\U{85}'
    || c == '\U{A0}' || c == '\U{1680}' || ('\U{2000}' <= c <= '\U{200A}')
    || c == '\U{2028}' || c == '\U{2029}' || c == '\U{202F}' || c == '\U{205F}'
    || c == '\U{3000}'
  }

  predicate IsSpace(c: char, spaces: Spaces) {
    if spaces == JsSpaces then IsJsSpace(c) else IsPySpace(c)
  }

  /** Drops the leading whitespace. */
  function DropLeading(s: string, spaces: Spaces): (r: string)
    ensures |r| <= |s|
  {
    if s != [] && IsSpace(s[0], spaces) then DropLeading(s[1..], spaces) else s
  }

  /** Drops the trailing whitespace. */
  function DropTrailing(s: string, spaces: Spaces): (r: string)
    ensures |r| <= |s|
  {
    if s != [] && IsSpace(s[|s| - 1], spaces) then DropTrailing(s[..|s| - 1], spaces) else s
  }

  /** JavaScript `String.prototype.trim`. */
  function Trim(s: string): (r: string)
    ensures |r| <= |s|
  {
    DropTrailing(DropLeading(s, JsSpaces), JsSpaces)
  }

  /** Python `str.strip()` with no argument. */
  function PyStrip(s: string): (r: string)
    ensures |r| <= |s|
  {
    DropTrailing(DropLeading(s, PySpaces), PySpaces)
  }

  lemma {:induction false} DropLeadingSpec(s: string, spaces: Spaces)
    ensures var r := DropLeading(s, spaces);
            && r == s[|s| - |r|..]
            && (forall k :: 0 <= k < |s| - |r| ==> IsSpace(s[k], spaces))
            && (r != [] ==> !IsSpace(r[0], spaces))
  {
    if s != [] && IsSpace(s[0], spaces) {
      DropLeadingSpec(s[1..], spaces);
    }
  }

  lemma {:induction false} DropTrailingSpec(s: string, spaces: Spaces)
    ensures var r := DropTrailing(s, spaces);
            && r == s[..|r|]
            && (forall k :: |r| <= k < |s| ==> IsSpace(s[k], spaces))
            && (r != [] ==> !IsSpace(r[|r| - 1], spaces))
  {
    if s != [] && IsSpace(s[|s| - 1], spaces) {
      DropTrailingSpec(s[..|s| - 1], spaces);
    }
  }

  /** Trimming keeps a contiguous piece of the text, removes only whitespace, and
      leaves no whitespace at either end. */
  lemma TrimSpec(s: string)
    ensures var r := Trim(s);
            var i := |s| - |DropLeading(s, JsSpaces)|;
            && i + |r| <= |s| && r == s[i..i + |r|]
            && (forall k :: 0 <= k < i ==> IsJsSpace(s[k]))
            && (forall k :: i + |r| <= k < |s| ==> IsJsSpace(s[k]))
            && (r != [] ==> !IsJsSpace(r[0]) && !IsJsSpace(r[|r| - 1]))
  {
    var a := DropLeading(s, JsSpaces);
    var r := DropTrailing(a, JsSpaces);
    DropLeadingSpec(s, JsSpaces);
    DropTrailingSpec(a, JsSpaces);
    var i := |s| - |a|;
    assert r == s[i..i + |r|];
    forall k | i + |r| <= k < |s| ensures IsJsSpace(s[k]) {
      assert s[k] == a[k - i];
    }
  }

  /** Growing a prefix by one element. */
  lemma TakeSnoc<T>(s: seq<T>, i: nat)
    requires i < |s|
    ensures s[..i + 1] == s[..i] + [s[i]]
  {
    assert s[..i + 1][..i] == s[..i];
  }

  /** JavaScript `s.substring(0, n)` for n >= 0: the first n characters, or all of s. */
  function Prefix(s: string, n: nat): (r: string)
    ensures |r| == if n <= |s| then n else |s|
    ensures r <= s
  {
    if n <= |s| then s[..n] else s
  }

  predicate OccursAt(s: string, pat: string, j: int) {
    0 <= j && j + |pat| <= |s| && s[j..j + |pat|] == pat
  }

  function IndexFrom(s: string, pat: string, i: nat): (r: Option<nat>)
    requires i <= |s|
    decreases |s| - i
    ensures r.Some? ==> i <= r.value && OccursAt(s, pat, r.value)
  {
    if OccursAt(s, pat, i) then Some(i)
    else if i + |pat| >= |s| then None
    else IndexFrom(s, pat, i + 1)
  }

  /** JavaScript `s.indexOf(pat)` (None for -1). */
  function IndexOf(s: string, pat: string): (r: Option<nat>)
    ensures r.Some? ==> OccursAt(s, pat, r.value)
  {
    IndexFrom(s, pat, 0)
  }

  /** The search finds the first occurrence, and finds none only when there is none. */
  lemma {:induction false} IndexFromFirst(s: string, pat: string, i: nat)
    requires i <= |s|
    decreases |s| - i
    ensures var r := IndexFrom(s, pat, i);
            && (r.Some? ==> forall j :: i <= j < r.value ==> !OccursAt(s, pat, j))
            && (r.None? ==> forall j :: i <= j ==> !OccursAt(s, pat, j))
  {
    if !OccursAt(s, pat, i) && i + |pat| < |s| {
      IndexFromFirst(s, pat, i + 1);
    }
  }

  /** JavaScript `s.replace(pat, rep)` with a string pattern: only the first
      occurrence is replaced. */
  function ReplaceFirst(s: string, pat: string, rep: string): string {
    match IndexOf(s, pat)
    case None => s
    case Some(i) => s[..i] + rep + s[i + |pat|..]
  }

  /** The text up to the first `c`, or all of it: `s.split(c)[0]`. */
  function Before(s: string, c: char): (r: string)
    ensures r <= s
    ensures |r| < |s| ==> s[|r|] == c
  {
    if s == [] || s[0] == c then [] else [s[0]] + Before(s[1..], c)
  }

  /** The text after the first `c`, when there is one. */
  function AfterFirst(s: string, c: char): (r: Option<string>)
    ensures r.Some? ==> |Before(s, c)| < |s| && r.value == s[|Before(s, c)| + 1..]
    ensures r.None? ==> Before(s, c) == s
  {
    if s == [] then None
    else if s[0] == c then Some(s[1..])
    else AfterFirst(s[1..], c)
  }

  /** `Before` stops at the first `c` and at nothing else. */
  lemma {:induction false} BeforeSpec(s: string, c: char)
    ensures forall k :: 0 <= k < |Before(s, c)| ==> s[k] != c
  {
    if s != [] && s[0] != c {
      BeforeSpec(s[1..], c);
    }
  }

  /** Without a `c` the whole text comes back. */
  lemma {:induction false} BeforeWhole(s: string, c: char)
    requires forall k :: 0 <= k < |s| ==> s[k] != c
    ensures Before(s, c) == s
  {
    if s != [] {
      assert forall k :: 0 <= k < |s[1..]| ==> s[1..][k] == s[k + 1];
      BeforeWhole(s[1..], c);
    }
  }

  lemma {:induction false} AfterFirstPast(t: string, c: char, u: string)
    requires forall k :: 0 <= k < |t| ==> t[k] != c
    ensures AfterFirst(t + [c] + u, c) == Some(u)
  {
    if t == [] {
      assert t + [c] + u == [c] + u;
    } else {
      assert (t + [c] + u)[1..] == t[1..] + [c] + u;
      assert forall k :: 0 <= k < |t[1..]| ==> t[1..][k] == t[k + 1];
      AfterFirstPast(t[1..], c, u);
    }
  }

  lemma {:induction false} AfterFirstNone(s: string, c: char)
    requires forall k :: 0 <= k < |s| ==> s[k] != c
    ensures AfterFirst(s, c) == None
  {
    if s != [] {
      assert forall k :: 0 <= k < |s[1..]| ==> s[1..][k] == s[k + 1];
      AfterFirstNone(s[1..], c);
    }
  }

  /** `s.split(c)`: the pieces between the occurrences of `c`. */
  function Split(s: string, c: char): (parts: seq<string>)
    ensures |parts| >= 1
    decreases |s|
  {
    match AfterFirst(s, c)
    case None => [s]
    case Some(rest) => [Before(s, c)] + Split(rest, c)
  }

  /** `c.join(parts)`. */
  function Join(parts: seq<string>, c: char): string
    requires |parts| >= 1
  {
    if |parts| == 1 then parts[0] else parts[0] + [c] + Join(parts[1..], c)
  }

  /** Splitting loses nothing: joining the pieces gives the text back. */
  lemma {:induction false} SplitJoin(s: string, c: char)
    ensures Join(Split(s, c), c) == s
    decreases |s|
  {
    match AfterFirst(s, c)
    case None =>
    case Some(rest) =>
      var b := Before(s, c);
      assert s == b + [c] + rest;
      SplitJoin(rest, c);
      assert Split(s, c)[1..] == Split(rest, c);
  }

  /** ASCII lower-casing; every other character is left as is. */
  function LowerAscii(c: char): char {
    if 'A' <= c <= 'Z' then (c as int + 32) as char else c
  }

  /** `s` from position i starts with `pat` (lower-case ASCII), ignoring the case of ASCII
      letters in `s`: a case-insensitive regular expression without the `u` flag. */
  predicate MatchesAtCI(s: string, i: nat, pat: string) {
    i + |pat| <= |s| && LowerAll(s[i..i + |pat|]) == pat
  }

  /** ASCII lower-casing of a whole string. */
  function LowerAll(s: string): (r: string)
    ensures |r| == |s|
  {
    if s == [] then [] else [LowerAscii(s[0])] + LowerAll(s[1..])
  }

  /** Lower-casing works character by character. */
  lemma {:induction false} LowerAllSpec(s: string)
    ensures forall k :: 0 <= k < |s| ==> LowerAll(s)[k] == LowerAscii(s[k])
  {
    if s != [] {
      LowerAllSpec(s[1..]);
    }
  }

  /** Lower-casing a slice is the slice of the lower-cased string. */
  lemma LowerAllSlice(s: string, i: nat, j: nat)
    requires i <= j <= |s|
    ensures LowerAll(s[i..j]) == LowerAll(s)[i..j]
  {
    LowerAllSpec(s);
    LowerAllSpec(s[i..j]);
  }

  function DigitChar(d: nat): char
    requires d < 10
  {
    "0123456789"[d]
  }

  /** Decimal rendering of a natural number, as `String(n)` or a template string gives it. */
  function NatToString(n: nat): (r: string)
    ensures |r| >= 1
  {
    if n < 10 then [DigitChar(n)] else NatToString(n / 10) + [DigitChar(n % 10)]
  }

  function DigitValue(c: char): nat {
    if '0' <= c <= '9' then c as int - '0' as int else 0
  }

  function ParseNat(s: string): nat {
    if s == [] then 0 else ParseNat(s[..|s| - 1]) * 10 + DigitValue(s[|s| - 1])
  }

  /** Decimal rendering round-trips. */
  lemma {:induction false} NatToStringRoundTrip(n: nat)
    ensures ParseNat(NatToString(n)) == n
  {
    if n >= 10 {
      var s := NatToString(n);
      assert s[..|s| - 1] == NatToString(n / 10);
      NatToStringRoundTrip(n / 10);
    }
  }
}
