/**
  * The JavaScript string built-ins the core relies on: `trim`, `toLowerCase`,
  * `includes`, `startsWith`, `indexOf`, `substring`, `split`, `join`, and the
  * decimal rendering of a millisecond clock reading.
  */
module JsStrings {

  // ---------------------------------------------------------------- trim

  /** The code points `String.prototype.trim` removes: WhiteSpace and LineTerminator. */
  predicate IsWhitespace(c: char)
  {
    || c == ' ' || c == '\t' || c == '\n' || c == '\r'
    || c == '\U{000B}' || c == '\U{000C}' || c == '\U{00A0}' || c == '\U{1680}'
    || ('\U{2000}' <= c <= '\U{200A}')
    || c == '\U{2028}' || c == '\U{2029}' || c == '\U{202F}' || c == '\U{205F}'
    || c == '\U{3000}' || c == '\U{FEFF}'
  }

  predicate AllWhitespace(s: string)
  {
    forall i :: 0 <= i < |s| ==> IsWhitespace(s[i])
  }

  /** Neither end of `s` is a whitespace character. */
  predicate Trimmed(s: string)
  {
    s == [] || (!IsWhitespace(s[0]) && !IsWhitespace(s[|s| - 1]))
  }

  /** Drops leading whitespace. */
  function TrimStart(s: string): string
  {
    if s != [] && IsWhitespace(s[0]) then TrimStart(s[1..]) else s
  }

  /** Drops trailing whitespace. */
  function TrimEnd(s: string): string
  {
    if s != [] && IsWhitespace(s[|s| - 1]) then TrimEnd(s[..|s| - 1]) else s
  }

  /** What `TrimStart` drops is all whitespace, what it keeps is a suffix not starting with whitespace. */
  lemma {:induction false} TrimStartSpec(s: string)
    ensures |TrimStart(s)| <= |s| && TrimStart(s) == s[|s| - |TrimStart(s)|..]
    ensures AllWhitespace(s[..|s| - |TrimStart(s)|])
    ensures TrimStart(s) == [] || !IsWhitespace(TrimStart(s)[0])
  {
    if s != [] && IsWhitespace(s[0]) {
      TrimStartSpec(s[1..]);
      var rest := TrimStart(s[1..]);
      assert s[..|s| - |rest|] == [s[0]] + s[1..][..|s| - 1 - |rest|];
    } else {
      assert s[..0] == [];
    }
  }

  /** What `TrimEnd` drops is all whitespace, what it keeps is a prefix not ending with whitespace. */
  lemma {:induction false} TrimEndSpec(s: string)
    ensures |TrimEnd(s)| <= |s| && TrimEnd(s) == s[..|TrimEnd(s)|]
    ensures AllWhitespace(s[|TrimEnd(s)|..])
    ensures TrimEnd(s) == [] || !IsWhitespace(TrimEnd(s)[|TrimEnd(s)| - 1])
  {
    if s != [] && IsWhitespace(s[|s| - 1]) {
      TrimEndSpec(s[..|s| - 1]);
      var rest := TrimEnd(s[..|s| - 1]);
      assert s[|rest|..] == s[..|s| - 1][|rest|..] + [s[|s| - 1]];
    } else {
      assert s[|s|..] == [];
    }
  }

  /** `s.trim()`. */
  function Trim(s: string): string
  {
    TrimEnd(TrimStart(s))
  }

  /**
    * What `trim` returns: the infix of `s` left when the whitespace run at each end
    * is cut off, and an infix that itself starts and ends with non-whitespace.
    */
  lemma TrimIsInfix(s: string) returns (start: nat)
    ensures start + |Trim(s)| <= |s|
    ensures Trim(s) == s[start..start + |Trim(s)|]
    ensures AllWhitespace(s[..start]) && AllWhitespace(s[start + |Trim(s)|..])
    ensures Trimmed(Trim(s))
  {
    var t := TrimStart(s);
    var r := TrimEnd(t);
    TrimStartSpec(s);
    TrimEndSpec(t);
    start := |s| - |t|;
    assert r == s[start..start + |r|];
    assert s[start + |r|..] == t[|r|..];
  }

  /**
    * `r` is what is left of `s` once the whitespace runs at both ends are cut:
    * an infix with only whitespace before and after it that itself neither
    * starts nor ends with whitespace. At most one `r` has this relation to `s`.
    */
  predicate IsTrimOf(r: string, s: string)
  {
    Trimmed(r) && exists start | 0 <= start <= |s| :: CoreAt(s, start, r)
  }

  /** `r` sits in `s` at `start` with only whitespace on either side of it. */
  predicate CoreAt(s: string, start: int, r: string)
  {
    && 0 <= start <= |s| - |r|
    && AllWhitespace(s[..start]) && s[start..start + |r|] == r && AllWhitespace(s[start + |r|..])
  }

  /** A core that starts with non-whitespace cannot start inside a leading whitespace run. */
  lemma CoreStartsAfterMargin(s: string, a: nat, r: string, b: nat)
    requires r != [] && !IsWhitespace(r[0]) && a + |r| <= |s| && s[a..a + |r|] == r
    requires b <= |s| && AllWhitespace(s[..b])
    ensures b <= a
  {
    assert s[a] == r[0];
    forall i | 0 <= i < b
      ensures IsWhitespace(s[i])
    {
      assert s[..b][i] == s[i];
    }
  }

  /** A core that ends with non-whitespace cannot end inside a trailing whitespace run. */
  lemma CoreEndsBeforeMargin(s: string, a: nat, r: string, b: nat)
    requires r != [] && !IsWhitespace(r[|r| - 1]) && a + |r| <= |s| && s[a..a + |r|] == r
    requires b <= |s| && AllWhitespace(s[b..])
    ensures a + |r| <= b
  {
    assert s[a + |r| - 1] == r[|r| - 1];
    forall i | b <= i < |s|
      ensures IsWhitespace(s[i])
    {
      assert s[b..][i - b] == s[i];
    }
  }

  /** Two trimmed cores of the same string, wherever they sit, are equal. */
  lemma CoresAgree(s: string, a1: nat, r1: string, a2: nat, r2: string)
    requires Trimmed(r1) && CoreAt(s, a1, r1)
    requires Trimmed(r2) && CoreAt(s, a2, r2)
    ensures r1 == r2
  {
    if r1 != [] {
      CoreStartsAfterMargin(s, a1, r1, a2);
      CoreEndsBeforeMargin(s, a1, r1, a2 + |r2|);
    }
    if r2 != [] {
      CoreStartsAfterMargin(s, a2, r2, a1);
      CoreEndsBeforeMargin(s, a2, r2, a1 + |r1|);
    }
    assert (a1 == a2 && |r1| == |r2|) || (r1 == [] && r2 == []);
  }

  /** A string has only one whitespace-bounded core. */
  lemma IsTrimOfUnique(r1: string, r2: string, s: string)
    requires IsTrimOf(r1, s) && IsTrimOf(r2, s)
    ensures r1 == r2
  {
    var a1 :| 0 <= a1 <= |s| && CoreAt(s, a1, r1);
    var a2 :| 0 <= a2 <= |s| && CoreAt(s, a2, r2);
    CoresAgree(s, a1, r1, a2, r2);
  }

  /** `trim` returns the whitespace-bounded core of its argument. */
  lemma TrimIsTrimOf(s: string)
    ensures IsTrimOf(Trim(s), s)
  {
    var start := TrimIsInfix(s);
    assert CoreAt(s, start, Trim(s));
  }

  /** What `trim` returns starts and ends with non-whitespace. */
  lemma TrimIsTrimmed(s: string)
    ensures Trimmed(Trim(s))
  {
    var _ := TrimIsInfix(s);
  }

  /** `!s.trim()` holds exactly for the strings made of whitespace only. */
  lemma {:induction false} BlankIffAllWhitespace(s: string)
    ensures Trim(s) == [] <==> AllWhitespace(s)
  {
    var start := TrimIsInfix(s);
    if Trim(s) == [] {
      assert s == s[..start] + s[start..];
    } else {
      assert s[start] == Trim(s)[0];
    }
  }

  /** `!s.trim()`: empty once trimmed. */
  predicate IsBlank(s: string)
  {
    Trim(s) == []
  }

  /** A trimmed string is its own trim: `trim` is idempotent. */
  lemma TrimOfTrimmed(s: string)
    requires Trimmed(s)
    ensures Trim(s) == s
  {
  }

  // ---------------------------------------------------------------- toLowerCase

  /** Lower-casing of one character, for the ASCII letters. */
  function LowerChar(c: char): char
  {
    if 'A' <= c <= 'Z' then (c as int + 32) as char else c
  }

  /** `s.toLowerCase()`, restricted to ASCII letters. */
  function ToLower(s: string): string
  {
    seq(|s|, i requires 0 <= i < |s| => LowerChar(s[i]))
  }

  /** Lower-casing twice is lower-casing once. */
  lemma ToLowerIdempotent(s: string)
    ensures ToLower(ToLower(s)) == ToLower(s)
  {
  }

  /** Lower-casing keeps every position and never creates or removes a colon. */
  lemma ToLowerKeepsColons(s: string)
    ensures |ToLower(s)| == |s|
    ensures forall i :: 0 <= i < |s| ==> (ToLower(s)[i] == ':' <==> s[i] == ':')
  {
  }

  // ---------------------------------------------------------------- search

  /** `sub` occurs in `s` starting at position `i`. */
  predicate OccursAt(s: string, sub: string, i: int)
  {
    0 <= i <= |s| - |sub| && s[i..i + |sub|] == sub
  }

  /** `s.includes(sub)`. */
  predicate Contains(s: string, sub: string)
  {
    exists i :: 0 <= i <= |s| - |sub| && OccursAt(s, sub, i)
  }

  /** `s.startsWith(prefix)`. */
  predicate StartsWith(s: string, prefix: string)
  {
    |prefix| <= |s| && s[..|prefix|] == prefix
  }

  /** A string that contains `sub` contains every prefix of `sub`. */
  lemma ContainsPrefixOf(s: string, sub: string, k: nat)
    requires Contains(s, sub) && k <= |sub|
    ensures Contains(s, sub[..k])
  {
    var i :| 0 <= i <= |s| - |sub| && OccursAt(s, sub, i);
    assert s[i..i + k] == sub[..k];
    assert OccursAt(s, sub[..k], i);
  }

  /** `s.indexOf(c)` for a one-character needle: the first position of `c`, or -1. */
  function IndexOf(s: string, c: char): (r: int)
    ensures -1 <= r < |s|
    ensures r == -1 <==> c !in s
    ensures 0 <= r ==> s[r] == c && c !in s[..r]
  {
    if s == [] then -1
    else if s[0] == c then 0
    else
      var k := IndexOf(s[1..], c);
      if k < 0 then -1
      else
        assert s[..k + 1] == [s[0]] + s[1..][..k];
        k + 1
  }

  /** `s.substring(start)`: the start is clamped into 0..|s|. */
  function SubstringFrom(s: string, start: int): string
  {
    if start <= 0 then s else if start >= |s| then [] else s[start..]
  }

  // ---------------------------------------------------------------- split / join

  /** `s.split(sep)` for a one-character separator. */
  function Split(s: string, sep: char): (r: seq<string>)
    ensures |r| >= 1
    ensures forall k :: 0 <= k < |r| ==> sep !in r[k]
    decreases |s|
  {
    var i := IndexOf(s, sep);
    if i < 0 then [s] else [s[..i]] + Split(s[i + 1..], sep)
  }

  /** `xs.join(sep)` for a one-character separator. */
  function Join(xs: seq<string>, sep: char): string
  {
    if |xs| == 0 then ""
    else if |xs| == 1 then xs[0]
    else xs[0] + [sep] + Join(xs[1..], sep)
  }

  /** Splitting and re-joining on the same separator gives the string back. */
  lemma {:induction false} JoinSplit(s: string, sep: char)
    ensures Join(Split(s, sep), sep) == s
    decreases |s|
  {
    var i := IndexOf(s, sep);
    if i >= 0 {
      var rest := Split(s[i + 1..], sep);
      JoinSplit(s[i + 1..], sep);
      assert ([s[..i]] + rest)[1..] == rest;
      assert s == s[..i] + [sep] + s[i + 1..];
    }
  }

  /** The first separator of `a + [sep] + b`, when `a` has none, is the one after `a`. */
  lemma {:induction false} IndexOfAfterPrefix(a: string, b: string, sep: char)
    requires sep !in a
    ensures IndexOf(a + [sep] + b, sep) == |a|
  {
    if a != [] {
      assert (a + [sep] + b)[1..] == a[1..] + [sep] + b;
      IndexOfAfterPrefix(a[1..], b, sep);
    }
  }

  /** Joining pieces free of the separator and splitting again gives the pieces back. */
  lemma {:induction false} SplitJoin(xs: seq<string>, sep: char)
    requires |xs| >= 1
    requires forall k :: 0 <= k < |xs| ==> sep !in xs[k]
    ensures Split(Join(xs, sep), sep) == xs
  {
    if |xs| >= 2 {
      var tail := Join(xs[1..], sep);
      var s := xs[0] + [sep] + tail;
      assert Join(xs, sep) == s;
      IndexOfAfterPrefix(xs[0], tail, sep);
      assert s[..|xs[0]|] == xs[0];
      assert s[|xs[0]| + 1..] == tail;
      assert Split(s, sep) == [xs[0]] + Split(tail, sep);
      SplitJoin(xs[1..], sep);
      assert xs == [xs[0]] + xs[1..];
    }
  }

  /** A join is empty exactly when there is nothing to join or one empty piece. */
  lemma JoinIsEmptyIff(xs: seq<string>, sep: char)
    ensures Join(xs, sep) == "" <==> xs == [] || xs == [""]
  {
    if |xs| >= 2 {
      assert |Join(xs, sep)| >= 1;
    }
  }

  // ---------------------------------------------------------------- numbers

  function DigitChar(d: nat): char
    requires d < 10
  {
    (48 + d) as char
  }

  /** `n.toString()` for a non-negative integer: its decimal digits. */
  function NatToString(n: nat): (r: string)
    ensures |r| >= 1
    ensures forall k :: 0 <= k < |r| ==> '0' <= r[k] <= '9'
  {
    if n < 10 then [DigitChar(n)] else NatToString(n / 10) + [DigitChar(n % 10)]
  }

  /** Different numbers render differently. */
  lemma {:induction false} NatToStringInjective(a: nat, b: nat)
    requires NatToString(a) == NatToString(b)
    ensures a == b
  {
    assert a >= 10 ==> |NatToString(a)| >= 2;
    assert b >= 10 ==> |NatToString(b)| >= 2;
    if a >= 10 && b >= 10 {
      var sa, sb := NatToString(a), NatToString(b);
      assert sa[|sa| - 1] == DigitChar(a % 10);
      assert sb[|sb| - 1] == DigitChar(b % 10);
      assert sa[..|sa| - 1] == NatToString(a / 10);
      assert sb[..|sb| - 1] == NatToString(b / 10);
      NatToStringInjective(a / 10, b / 10);
    }
  }

  /** A common prefix can be cancelled. */
  lemma PrefixCancel(p: string, x: string, y: string)
    requires p + x == p + y
    ensures x == y
  {
    assert x == (p + x)[|p|..];
    assert y == (p + y)[|p|..];
  }
}
