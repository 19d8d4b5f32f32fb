/**
 * String helpers shared by the modelled code: the `str` methods the Rust
 * sources call (`starts_with`, `ends_with`, `contains`, `find`, `split`,
 * `trim`, `to_lowercase`, `join`) and the decimal rendering of a number.
 * Strings are sequences of characters.
 */
module Text {
  import opened Wrappers

  predicate StartsWith(s: string, prefix: string) {
    |prefix| <= |s| && s[..|prefix|] == prefix
  }

  predicate EndsWith(s: string, suffix: string) {
    |suffix| <= |s| && s[|s| - |suffix|..] == suffix
  }

  /** A literal opened and closed by three quotes is opened and closed by one. */
  lemma TripleQuotesAreQuotes(s: string)
    ensures StartsWith(s, "\"\"\"") ==> StartsWith(s, "\"")
    ensures EndsWith(s, "\"\"\"") ==> EndsWith(s, "\"")
    ensures StartsWith(s, "'''") ==> StartsWith(s, "'")
    ensures EndsWith(s, "'''") ==> EndsWith(s, "'")
  {
    if |s| >= 3 {
      assert s[..1] == s[..3][..1];
      assert s[|s| - 1..] == s[|s| - 3..][2..];
    }
  }

  /** `sub` occurs in `s` starting at offset `i`. */
  predicate OccursAt(s: string, sub: string, i: int) {
    0 <= i && i + |sub| <= |s| && s[i..i + |sub|] == sub
  }

  /** Rust's `str::contains` with a string pattern. */
  function Contains(s: string, sub: string): (b: bool)
    ensures b <==> exists i :: OccursAt(s, sub, i)
    decreases |s|
  {
    if |sub| > |s| then false
    else if s[..|sub|] == sub then (assert OccursAt(s, sub, 0); true)
    else
      var b := Contains(s[1..], sub);
      ShiftOccurrence(s, sub);
      b
  }

  /** An occurrence past offset 0 of `s` is an occurrence in `s[1..]`, and back. */
  lemma ShiftOccurrence(s: string, sub: string)
    requires |sub| <= |s| && s[..|sub|] != sub
    ensures (exists i :: OccursAt(s, sub, i)) <==> (exists i :: OccursAt(s[1..], sub, i))
  {
    if exists i :: OccursAt(s, sub, i) {
      var i :| OccursAt(s, sub, i);
      assert i != 0;
      assert s[1..][i - 1..i - 1 + |sub|] == s[i..i + |sub|];
      assert OccursAt(s[1..], sub, i - 1);
    }
    if exists i :: OccursAt(s[1..], sub, i) {
      var i :| OccursAt(s[1..], sub, i);
      assert s[i + 1..i + 1 + |sub|] == s[1..][i..i + |sub|];
      assert OccursAt(s, sub, i + 1);
    }
  }

  /** Whatever occurs in `b` occurs in `a + b + c`. */
  lemma ContainsInFrame(a: string, b: string, c: string, sub: string)
    requires Contains(b, sub)
    ensures Contains(a + b + c, sub)
  {
    var i :| OccursAt(b, sub, i);
    assert (a + b + c)[|a| + i..|a| + i + |sub|] == b[i..i + |sub|];
    assert OccursAt(a + b + c, sub, |a| + i);
  }

  /** Rust's `str::find` with a character pattern: the first index of `c`. */
  function IndexOf(s: string, c: char): (r: Option<nat>)
    ensures r.None? <==> c !in s
    ensures r.Some? ==> r.value < |s| && s[r.value] == c && c !in s[..r.value]
  {
    if s == [] then None
    else if s[0] == c then Some(0)
    else match IndexOf(s[1..], c)
      case None => None
      case Some(i) => (assert s[..i + 1] == [s[0]] + s[1..][..i]; Some(i + 1))
  }

  /** The first index is the only one with no earlier occurrence. */
  lemma IndexOfIsFirst(s: string, c: char, i: nat)
    requires i < |s| && s[i] == c && c !in s[..i]
    ensures IndexOf(s, c) == Some(i)
  {
    assert s[i] in s;
  }

  /** The last index of `c` in `s`. */
  function LastIndexOf(s: string, c: char): (r: Option<nat>)
    ensures r.None? <==> c !in s
    ensures r.Some? ==> r.value < |s| && s[r.value] == c && c !in s[r.value + 1..]
  {
    if s == [] then None
    else if s[|s| - 1] == c then Some(|s| - 1)
    else
      var r := LastIndexOf(s[..|s| - 1], c);
      assert s == s[..|s| - 1] + [s[|s| - 1]];
      if r.Some? then (assert s[r.value + 1..] == s[..|s| - 1][r.value + 1..] + [s[|s| - 1]]; r)
      else r
  }

  /** `sep` joined between consecutive elements (Rust's `join`). */
  function Join(xs: seq<string>, sep: string): string {
    if xs == [] then []
    else if |xs| == 1 then xs[0]
    else xs[0] + sep + Join(xs[1..], sep)
  }

  /** Joining one more piece appends the separator and the piece. */
  lemma {:induction false} JoinSnoc(xs: seq<string>, x: string, sep: string)
    ensures Join(xs + [x], sep) == if xs == [] then x else Join(xs, sep) + sep + x
  {
    if |xs| == 1 {
      assert (xs + [x])[1..] == [x];
    } else if |xs| > 1 {
      assert (xs + [x])[1..] == xs[1..] + [x];
      JoinSnoc(xs[1..], x, sep);
    }
  }

  /** Every joined piece occurs in the joined string. */
  lemma {:induction false} JoinContainsEach(xs: seq<string>, sep: string, i: nat)
    requires i < |xs|
    ensures Contains(Join(xs, sep), xs[i])
  {
    if |xs| == 1 {
      assert OccursAt(xs[0], xs[0], 0);
    } else if i == 0 {
      assert OccursAt(xs[0], xs[0], 0);
      ContainsInFrame([], xs[0], sep + Join(xs[1..], sep), xs[0]);
      assert [] + xs[0] + (sep + Join(xs[1..], sep)) == Join(xs, sep);
    } else {
      JoinContainsEach(xs[1..], sep, i - 1);
      ContainsInFrame(xs[0] + sep, Join(xs[1..], sep), [], xs[i]);
      assert xs[0] + sep + Join(xs[1..], sep) + [] == Join(xs, sep);
    }
  }

  /** Rust's `str::split` with a character pattern: the pieces between separators. */
  function Split(s: string, sep: char): (pieces: seq<string>)
    ensures |pieces| >= 1
    ensures forall k :: 0 <= k < |pieces| ==> sep !in pieces[k]
    decreases |s|
  {
    match IndexOf(s, sep)
    case None => [s]
    case Some(i) => [s[..i]] + Split(s[i + 1..], sep)
  }

  /** Text before the first separator is the first piece. */
  lemma SplitAtFirst(a: string, b: string, sep: char)
    requires sep !in a
    ensures Split(a + [sep] + b, sep) == [a] + Split(b, sep)
  {
    var s := a + [sep] + b;
    assert s[..|a|] == a && s[|a| + 1..] == b;
    IndexOfIsFirst(s, sep, |a|);
  }

  /** Splitting and joining with the same separator gives back the string. */
  lemma {:induction false} JoinSplit(s: string, sep: char)
    ensures Join(Split(s, sep), [sep]) == s
    decreases |s|
  {
    match IndexOf(s, sep)
    case None =>
    case Some(i) =>
      var rest := Split(s[i + 1..], sep);
      JoinSplit(s[i + 1..], sep);
      assert Split(s, sep) == [s[..i]] + rest;
      assert Join(Split(s, sep), [sep]) == s[..i] + [sep] + Join(rest, [sep]);
      assert s == s[..i] + [sep] + s[i + 1..];
  }

  /** The whitespace `str::trim` removes, restricted to ASCII. */
  predicate IsSpace(c: char) {
    c == ' ' || c == '\t' || c == '\n' || c == '\r' || c == '\U{000B}' || c == '\U{000C}'
  }

  predicate AllSpace(s: string) {
    forall k :: 0 <= k < |s| ==> IsSpace(s[k])
  }

  /** The number of whitespace characters `s` starts with. */
  function LeadingSpaces(s: string): (n: nat)
    ensures n <= |s| && AllSpace(s[..n])
    ensures n < |s| ==> !IsSpace(s[n])
  {
    if s != [] && IsSpace(s[0]) then
      var n := LeadingSpaces(s[1..]);
      assert s[..n + 1] == [s[0]] + s[1..][..n];
      n + 1
    else 0
  }

  /** The number of whitespace characters `s` ends with. */
  function TrailingSpaces(s: string): (n: nat)
    ensures n <= |s| && AllSpace(s[|s| - n..])
    ensures n < |s| ==> !IsSpace(s[|s| - n - 1])
  {
    if s != [] && IsSpace(s[|s| - 1]) then
      var t := s[..|s| - 1];
      var n := TrailingSpaces(t);
      var tail := s[|s| - (n + 1)..];
      assert AllSpace(tail) by {
        forall k | 0 <= k < |tail| ensures IsSpace(tail[k]) {
          if k < n {
            assert tail[k] == t[|t| - n..][k];
          }
        }
      }
      assert n + 1 < |s| ==> s[|s| - (n + 1) - 1] == t[|t| - n - 1];
      n + 1
    else 0
  }

  /** Rust's `str::trim`: the slice of `s` without leading and trailing whitespace. */
  function Trim(s: string): (r: string)
    ensures r == [] <==> AllSpace(s)
    ensures r != [] ==> !IsSpace(r[0]) && !IsSpace(r[|r| - 1])
  {
    var lo := LeadingSpaces(s);
    if lo == |s| then (assert s[..lo] == s; [])
    else
      var hi := |s| - TrailingSpaces(s);
      assert forall k :: hi <= k < |s| ==> IsSpace(s[k]) by {
        forall k | hi <= k < |s| ensures IsSpace(s[k]) { assert s[k] == s[hi..][k - hi]; }
      }
      assert !IsSpace(s[lo]);
      s[lo..hi]
  }

  /** A string with no whitespace at either end is its own trim. */
  lemma TrimUnpadded(s: string)
    requires s != [] && !IsSpace(s[0]) && !IsSpace(s[|s| - 1])
    ensures Trim(s) == s
  {
    assert LeadingSpaces(s) == 0 && TrailingSpaces(s) == 0;
    assert s[0..|s|] == s;
  }

  /** A character absent from `s` is absent from `Trim(s)`, which is a slice of `s`. */
  lemma AbsentFromTrim(s: string, c: char)
    requires c !in s
    ensures c !in Trim(s)
  {
    var lo := LeadingSpaces(s);
    if lo < |s| {
      var r := Trim(s);
      forall k | 0 <= k < |r| ensures r[k] != c {
        assert r[k] == s[lo + k];
      }
    }
  }

  /** ASCII lowercasing (Rust's `to_lowercase` restricted to ASCII letters). */
  function LowerChar(c: char): char {
    if 'A' <= c <= 'Z' then (c as int + 32) as char else c
  }

  function ToLower(s: string): string {
    seq(|s|, i requires 0 <= i < |s| => LowerChar(s[i]))
  }

  predicate IsDigit(c: char) {
    '0' <= c <= '9'
  }

  function DigitChar(d: nat): (c: char)
    requires d < 10
    ensures IsDigit(c)
  {
    ('0' as int + d) as char
  }

  /** The decimal rendering of `n` (what `{}` prints for an integer). */
  function NatToString(n: nat): (r: string)
    ensures |r| >= 1 && forall k :: 0 <= k < |r| ==> IsDigit(r[k])
  {
    if n < 10 then [DigitChar(n)] else NatToString(n / 10) + [DigitChar(n % 10)]
  }

  /** The number a string of decimal digits denotes. */
  function DigitsValue(s: string): nat
    requires forall k :: 0 <= k < |s| ==> IsDigit(s[k])
  {
    if s == [] then 0
    else
      assert IsDigit(s[|s| - 1]);
      var prefix := s[..|s| - 1];
      assert forall k :: 0 <= k < |prefix| ==> prefix[k] == s[k];
      DigitsValue(prefix) * 10 + (s[|s| - 1] as int - '0' as int)
  }

  /** Reading back the decimal rendering gives the number: the rendering loses nothing. */
  lemma {:induction false} NatToStringRoundTrip(n: nat)
    ensures DigitsValue(NatToString(n)) == n
  {
    if n >= 10 {
      var s := NatToString(n);
      NatToStringRoundTrip(n / 10);
      assert s[..|s| - 1] == NatToString(n / 10);
    }
  }
}
