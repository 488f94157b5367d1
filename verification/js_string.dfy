/**
  Models of the JavaScript `String.prototype` operations the trip builder relies on:
  `toLowerCase` (on ASCII letters), `includes`, `trim`, `split(sep).pop()`, and the
  decimal rendering of a non-negative integer in a template literal.
*/
module JsString {

  /** The ASCII case mapping of one character: `A`..`Z` to `a`..`z`, everything else kept. */
  function LowerChar(c: char): (r: char)
    ensures 'A' <= c <= 'Z' ==> 'a' <= r <= 'z' && r as int - c as int == 'a' as int - 'A' as int
    ensures !('A' <= c <= 'Z') ==> r == c
  {
    if 'A' <= c <= 'Z' then (c as int + 32) as char else c
  }

  /** `s.toLowerCase()` for ASCII text: every upper-case letter becomes lower case. */
  function Lower(s: string): (r: string)
    ensures |r| == |s|
    ensures forall i :: 0 <= i < |r| ==> !('A' <= r[i] <= 'Z')
    ensures forall i :: 0 <= i < |s| && 'A' <= s[i] <= 'Z' ==> r[i] as int == s[i] as int + ('a' as int - 'A' as int)
    ensures forall i :: 0 <= i < |s| && !('A' <= s[i] <= 'Z') ==> r[i] == s[i]
  {
    seq(|s|, i requires 0 <= i < |s| => LowerChar(s[i]))
  }

  /** Lower-casing twice is lower-casing once. */
  lemma LowerIdempotent(s: string)
    ensures Lower(Lower(s)) == Lower(s)
  {
    assert forall i :: 0 <= i < |s| ==> Lower(Lower(s))[i] == Lower(s)[i];
  }

  /** `t` occurs in `s` starting at position `i`. */
  ghost predicate OccursAt(s: string, t: string, i: int)
  {
    0 <= i && i + |t| <= |s| && s[i..i + |t|] == t
  }

  /** `s.startsWith(t)`, compared character by character. */
  function StartsWith(s: string, t: string): (r: bool)
    ensures r ==> |t| <= |s|
    decreases |t|
  {
    t == [] || (s != [] && s[0] == t[0] && StartsWith(s[1..], t[1..]))
  }

  /** `StartsWith` is the prefix relation on strings. */
  lemma {:induction false} StartsWithIsPrefix(s: string, t: string)
    ensures StartsWith(s, t) <==> t <= s
    decreases |t|
  {
    if t != [] && s != [] {
      StartsWithIsPrefix(s[1..], t[1..]);
      assert t <= s <==> s[0] == t[0] && t[1..] <= s[1..];
    }
  }

  /** `s.includes(t)`: `t` starts at some position of `s`. */
  function Includes(s: string, t: string): (r: bool)
    ensures t == [] ==> r
    ensures r ==> |t| <= |s|
    decreases |s|
  {
    StartsWith(s, t) || (s != [] && Includes(s[1..], t))
  }

  /** `Includes` holds exactly when `t` occurs somewhere in `s`. */
  lemma {:induction false} IncludesIffOccurs(s: string, t: string)
    ensures Includes(s, t) <==> exists i :: OccursAt(s, t, i)
    decreases |s|
  {
    StartsWithIsPrefix(s, t);
    if t <= s {
      assert OccursAt(s, t, 0);
    } else if s == [] {
      assert forall i :: !OccursAt(s, t, i);
    } else {
      IncludesIffOccurs(s[1..], t);
      forall i | OccursAt(s[1..], t, i) ensures OccursAt(s, t, i + 1) {
        assert s[1..][i..i + |t|] == s[i + 1..i + 1 + |t|];
      }
      forall i | OccursAt(s, t, i) ensures OccursAt(s[1..], t, i - 1) {
        assert s[1..][i - 1..i - 1 + |t|] == s[i..i + |t|];
      }
    }
  }

  /**
    The characters `trim` removes: the ECMAScript WhiteSpace and LineTerminator
    code points.
  */
  predicate IsWhitespace(c: char)
  {
    c == ' ' || c == '\t' || c == '\n' || c == '\r' || c == '\U{000B}' || c == '\U{000C}'
    || c == '\U{00A0}' || c == '\U{1680}' || ('\U{2000}' <= c <= '\U{200A}')
    || c == '\U{2028}' || c == '\U{2029}' || c == '\U{202F}' || c == '\U{205F}'
    || c == '\U{3000}' || c == '\U{FEFF}'
  }

  /** `s.trimStart()`: the suffix of `s` left after its leading whitespace. */
  function TrimStart(s: string): (r: string)
    ensures |r| <= |s| && r == s[|s| - |r|..]
    ensures forall i :: 0 <= i < |s| - |r| ==> IsWhitespace(s[i])
    ensures r != [] ==> !IsWhitespace(r[0])
    decreases |s|
  {
    if s != [] && IsWhitespace(s[0]) then TrimStart(s[1..]) else s
  }

  /** `s.trimEnd()`: the prefix of `s` left after its trailing whitespace. */
  function TrimEnd(s: string): (r: string)
    ensures |r| <= |s| && r == s[..|r|]
    ensures forall i :: |r| <= i < |s| ==> IsWhitespace(s[i])
    ensures r != [] ==> !IsWhitespace(r[|r| - 1])
    decreases |s|
  {
    if s != [] && IsWhitespace(s[|s| - 1]) then TrimEnd(s[..|s| - 1]) else s
  }

  /**
    `r` is `s` with only leading and trailing whitespace removed: an infix `s[i..j]`
    with nothing but whitespace before `i` and from `j` on.
  */
  ghost predicate TrimmedFrom(s: string, r: string)
  {
    exists i, j :: 0 <= i <= j <= |s| && r == s[i..j]
      && (forall k :: 0 <= k < i ==> IsWhitespace(s[k]))
      && (forall k :: j <= k < |s| ==> IsWhitespace(s[k]))
  }

  /** `s.trim()`: `s` without leading or trailing whitespace. */
  function Trim(s: string): (r: string)
    ensures |r| <= |s|
    ensures TrimmedFrom(s, r)
    ensures r != [] ==> !IsWhitespace(r[0]) && !IsWhitespace(r[|r| - 1])
  {
    TrimIsTrimmedFrom(s);
    TrimEnd(TrimStart(s))
  }

  /** Stripping the front, then the back, removes only whitespace at the two ends. */
  lemma TrimIsTrimmedFrom(s: string)
    ensures TrimmedFrom(s, TrimEnd(TrimStart(s)))
  {
    var front := TrimStart(s);
    var i := |s| - |front|;
    TrimEndWithin(s, front, i);
    TrimmedAt(s, TrimEnd(front), i, i + |TrimEnd(front)|);
  }

  /** Trimming the end of a suffix `front` of `s` leaves whitespace only after it in `s`. */
  lemma TrimEndWithin(s: string, front: string, i: int)
    requires 0 <= i <= |s| && front == s[i..]
    ensures var r := TrimEnd(front);
      && i + |r| <= |s| && r == s[i..i + |r|]
      && forall k :: i + |r| <= k < |s| ==> IsWhitespace(s[k])
  {
    var r := TrimEnd(front);
    forall k | i + |r| <= k < |s| ensures IsWhitespace(s[k]) {
      assert s[k] == front[k - i];
    }
  }

  lemma TrimmedAt(s: string, r: string, i: int, j: int)
    requires 0 <= i <= j <= |s| && r == s[i..j]
    requires forall k :: 0 <= k < i ==> IsWhitespace(s[k])
    requires forall k :: j <= k < |s| ==> IsWhitespace(s[k])
    ensures TrimmedFrom(s, r)
  {
  }

  /** Trimming an already trimmed string changes nothing. */
  lemma TrimIdempotent(s: string)
    ensures Trim(Trim(s)) == Trim(s)
  {
    var t := Trim(s);
    if t != [] {
      assert TrimStart(t) == t;
      assert TrimEnd(t) == t;
    }
  }

  /**
    `s.split(sep).pop()`: the last `sep`-separated field of `s`, which is the longest
    suffix of `s` not containing `sep`. (`split` always yields at least one field.)
  */
  function LastField(s: string, sep: char): (r: string)
    ensures |r| <= |s| && r == s[|s| - |r|..]
    ensures sep !in r
    ensures |r| < |s| ==> s[|s| - |r| - 1] == sep
    decreases |s|
  {
    if s == [] then []
    else if s[|s| - 1] == sep then []
    else
      var front := LastField(s[..|s| - 1], sep);
      assert s[..|s| - 1][|s| - 1 - |front|..] + [s[|s| - 1]] == s[|s| - 1 - |front|..];
      front + [s[|s| - 1]]
  }

  function DigitChar(d: nat): char
    requires d < 10
  {
    ('0' as int + d) as char
  }

  /** The decimal numeral JavaScript writes for the non-negative integer `n`. */
  function NatToString(n: nat): (r: string)
    ensures r != []
    ensures forall i :: 0 <= i < |r| ==> '0' <= r[i] <= '9'
    ensures r[0] == '0' <==> n == 0
  {
    if n < 10 then [DigitChar(n)] else NatToString(n / 10) + [DigitChar(n % 10)]
  }

  /** The number a string of decimal digits denotes, most significant digit first. */
  function DigitsValue(r: string): nat
    requires forall i :: 0 <= i < |r| ==> '0' <= r[i] <= '9'
  {
    if r == [] then 0 else DigitsValue(r[..|r| - 1]) * 10 + (r[|r| - 1] as int - '0' as int)
  }

  /** Reading the numeral back gives the number: the rendering loses nothing. */
  lemma {:induction false} NatToStringValue(n: nat)
    ensures DigitsValue(NatToString(n)) == n
  {
    if n >= 10 {
      var front := NatToString(n / 10);
      var r := NatToString(n);
      assert r[..|r| - 1] == front;
      NatToStringValue(n / 10);
    }
  }
}
