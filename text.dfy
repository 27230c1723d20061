/** The string operations the source borrows from JavaScript: `trim`, `toLowerCase`,
    `includes`, `replace` with a string pattern, digit-string tests and number printing. */
module Text {
  import opened Wrappers

  /** The white space and line terminators that `String.prototype.trim` removes. */
  predicate IsWhitespace(c: char) {
    || c == ' ' || c == '\t' || c == '\n' || c == '\r'
    || c == '\U{B}' || c == '\U{C}' || c == '\U{A0}' || c == '\U{1680}'
    || ('\U{2000}' <= c <= '\U{200A}')
    || c == '\U{2028}' || c == '\U{2029}' || c == '\U{202F}' || c == '\U{205F}'
    || c == '\U{3000}' || c == '\U{FEFF}'
  }

  /** `s` with its leading white space removed. */
  function TrimStart(s: string): (r: string)
    ensures |r| <= |s| && r == s[|s| - |r|..]
    ensures forall i :: 0 <= i < |s| - |r| ==> IsWhitespace(s[i])
    ensures r == [] || !IsWhitespace(r[0])
  {
    if s != [] && IsWhitespace(s[0]) then TrimStart(s[1..]) else s
  }

  /** `s` with its trailing white space removed. */
  function TrimEnd(s: string): (r: string)
    ensures |r| <= |s| && r == s[..|r|]
    ensures forall i :: |r| <= i < |s| ==> IsWhitespace(s[i])
    ensures r == [] || !IsWhitespace(r[|r| - 1])
  {
    if s != [] && IsWhitespace(s[|s| - 1]) then TrimEnd(s[..|s| - 1]) else s
  }

  /** `r` is `s` with the `k` characters before it and all characters after it removed,
      and every removed character is white space. */
  predicate StripsOnlyWhitespace(s: string, r: string, k: int) {
    && 0 <= k <= |s| - |r| && r == s[k..k + |r|]
    && (forall i :: 0 <= i < k ==> IsWhitespace(s[i]))
    && (forall i :: k + |r| <= i < |s| ==> IsWhitespace(s[i]))
  }

  /** `s.trim()`: the longest infix of `s` that neither starts nor ends with white space,
      obtained by dropping only white space. */
  function Trim(s: string): (r: string)
    ensures exists k :: OccursAt(s, r, k)
    ensures exists k :: StripsOnlyWhitespace(s, r, k)
    ensures r == [] || (!IsWhitespace(r[0]) && !IsWhitespace(r[|r| - 1]))
  {
    var t := TrimStart(s);
    var r := TrimEnd(t);
    TrimStrips(s, t, r);
    r
  }

  /** Trimming both ends in turn removes white space only. */
  lemma TrimStrips(s: string, t: string, r: string)
    requires |t| <= |s| && t == s[|s| - |t|..]
    requires forall i :: 0 <= i < |s| - |t| ==> IsWhitespace(s[i])
    requires |r| <= |t| && r == t[..|r|]
    requires forall i :: |r| <= i < |t| ==> IsWhitespace(t[i])
    ensures OccursAt(s, r, |s| - |t|)
    ensures StripsOnlyWhitespace(s, r, |s| - |t|)
  {
    StripBothEnds(s, t, r, IsWhitespace);
  }

  /** Keeping a suffix `t` of `s` and then a prefix `r` of `t`, where `p` holds of every
      dropped element, leaves the infix of `s` at `|s| - |t|` with only `p` elements after it. */
  lemma StripBothEnds<T>(s: seq<T>, t: seq<T>, r: seq<T>, p: T -> bool)
    requires |t| <= |s| && t == s[|s| - |t|..]
    requires |r| <= |t| && r == t[..|r|]
    requires forall i :: |r| <= i < |t| ==> p(t[i])
    ensures s[|s| - |t|..|s| - |t| + |r|] == r
    ensures forall i :: |s| - |t| + |r| <= i < |s| ==> p(s[i])
  {
    var k := |s| - |t|;
    forall i | k + |r| <= i < |s| ensures p(s[i]) {
      assert s[i] == t[i - k];
    }
  }

  /** `!s.trim()`: the string is empty once trimmed. */
  predicate IsBlank(s: string) { Trim(s) == [] }

  /** A string is blank exactly when every one of its characters is white space. */
  lemma {:induction false} BlankIffAllWhitespace(s: string)
    ensures IsBlank(s) <==> forall i :: 0 <= i < |s| ==> IsWhitespace(s[i])
  {
    var t := TrimStart(s);
    if t == [] {
      assert forall i :: 0 <= i < |s| ==> IsWhitespace(s[i]);
    } else {
      var r := TrimEnd(t);
      assert !IsWhitespace(t[0]) && t[0] == s[|s| - |t|];
    }
  }

  /** `toLowerCase` on one character; only the ASCII letters are mapped. */
  function LowerChar(c: char): char {
    if 'A' <= c <= 'Z' then (c as int + 32) as char else c
  }

  /** `s.toLowerCase()`, character by character. */
  function Lower(s: string): (r: string)
    ensures |r| == |s|
    ensures forall i :: 0 <= i < |s| ==> r[i] == LowerChar(s[i])
  {
    seq(|s|, i requires 0 <= i < |s| => LowerChar(s[i]))
  }

  /** Lower-casing twice changes nothing more. */
  lemma LowerIdempotent(s: string)
    ensures Lower(Lower(s)) == Lower(s)
  {
  }

  /** `t` occurs in `s` starting at index `i`. */
  predicate OccursAt(s: string, t: string, i: int) {
    0 <= i && i + |t| <= |s| && s[i..i + |t|] == t
  }

  /** The first index where `t` occurs in `s` (`s.indexOf(t)`, with None for -1). */
  function IndexOf(s: string, t: string): (r: Option<nat>)
    ensures r.Some? ==> OccursAt(s, t, r.value) && forall j :: 0 <= j < r.value ==> !OccursAt(s, t, j)
    ensures r.None? ==> forall j :: !OccursAt(s, t, j)
    decreases |s|
  {
    if |t| > |s| then None
    else if s[..|t|] == t then Some(0)
    else
      var rest := IndexOf(s[1..], t);
      assert forall j :: 0 <= j ==> (OccursAt(s[1..], t, j) <==> OccursAt(s, t, j + 1)) by {
        forall j | 0 <= j { OccursInTail(s, t, j); }
      }
      assert !OccursAt(s, t, 0);
      assert forall j :: OccursAt(s, t, j) ==> j == 0 || OccursAt(s[1..], t, j - 1);
      if rest.None? then None else Some(rest.value + 1)
  }

  /** An occurrence in `s[1..]` is an occurrence in `s` one place further on, and back. */
  lemma OccursInTail(s: string, t: string, i: int)
    requires |s| > 0 && 0 <= i
    ensures OccursAt(s[1..], t, i) <==> OccursAt(s, t, i + 1)
  {
    if 0 <= i && i + 1 + |t| <= |s| {
      assert s[1..][i..i + |t|] == s[i + 1..i + 1 + |t|];
    }
  }

  /** `s.includes(t)`: some infix of `s` equals `t`. */
  function Contains(s: string, t: string): (r: bool)
    ensures r <==> exists i :: OccursAt(s, t, i)
    decreases |s|
  {
    match IndexOf(s, t)
    case None => false
    case Some(i) => true
  }

  /** `s.replace(t, u)` with a string pattern: only the first occurrence is replaced. */
  function ReplaceFirst(s: string, t: string, u: string): (r: string)
    ensures !Contains(s, t) ==> r == s
    ensures Contains(s, t) ==>
      exists i :: OccursAt(s, t, i) && r == s[..i] + u + s[i + |t|..]
        && forall j :: 0 <= j < i ==> !OccursAt(s, t, j)
  {
    match IndexOf(s, t)
    case None => s
    case Some(i) => s[..i] + u + s[i + |t|..]
  }

  predicate IsDigit(c: char) { '0' <= c <= '9' }

  /** The whole string matches `/^\d*$/`. */
  predicate AllDigits(s: string) {
    forall i :: 0 <= i < |s| ==> IsDigit(s[i])
  }

  function DigitChar(d: nat): (c: char)
    requires d < 10
    ensures IsDigit(c)
  {
    ('0' as int + d) as char
  }

  /** The decimal value of a digit string (what `parseInt` gives for one). */
  function ParseDigits(s: string): nat
    requires AllDigits(s)
  {
    if s == [] then 0
    else ParseDigits(s[..|s| - 1]) * 10 + (s[|s| - 1] as int - '0' as int)
  }

  /** The canonical decimal spelling of a natural number (`String(n)`). */
  function NatToString(n: nat): (s: string)
    ensures |s| > 0 && AllDigits(s)
    ensures s[0] == '0' ==> n == 0 && s == "0"
  {
    if n < 10 then [DigitChar(n)] else NatToString(n / 10) + [DigitChar(n % 10)]
  }

  /** Printing a number and parsing it back gives the number. */
  lemma {:induction false} ParseShowRoundTrip(n: nat)
    ensures ParseDigits(NatToString(n)) == n
  {
    if n >= 10 {
      var s := NatToString(n);
      assert s[..|s| - 1] == NatToString(n / 10);
      ParseShowRoundTrip(n / 10);
    }
  }

  /** `String(n)` for any integer, with a leading minus sign for negatives. */
  function IntToString(n: int): (s: string)
    ensures n >= 0 ==> s == NatToString(n)
    ensures n < 0 ==> s == "-" + NatToString(-n)
  {
    if n < 0 then "-" + NatToString(-n) else NatToString(n)
  }
}
