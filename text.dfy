/** The JavaScript string operations the application relies on, over `string` (a sequence of
    Unicode scalar values): `trim`, `toLowerCase`/`toUpperCase` (ASCII letters only),
    `startsWith`, `includes`, `replace` with a string pattern (first occurrence only), the
    `length` of a string in UTF-16 code units, `Array.prototype.filter` (which on a string is
    also the regular-expression character filtering), and printing a non-negative integer in
    decimal. */
module Text {
  import opened Wrappers

  /** JavaScript's WhiteSpace and LineTerminator characters: what `String.prototype.trim`
      strips and what the regular-expression class `\s` matches (tab to carriage return,
      space, no-break space, ogham space mark, the spaces U+2000 to U+200A, the line and
      paragraph separators, narrow no-break space, medium mathematical space, ideographic
      space and the byte-order mark). */
  predicate IsWhitespace(c: char) {
    || '\t' <= c <= '\r' || c == ' ' || c == '\U{00A0}' || c == '\U{1680}'
    || '\U{2000}' <= c <= '\U{200A}' || c == '\U{2028}' || c == '\U{2029}'
    || c == '\U{202F}' || c == '\U{205F}' || c == '\U{3000}' || c == '\U{FEFF}'
  }

  /** The regular-expression class `\d` (ASCII digits only, as in a JavaScript regex without the `u` flag). */
  predicate IsDigit(c: char) {
    '0' <= c <= '9'
  }

  /** Every character of `s` satisfies `p`. */
  predicate All(s: string, p: char -> bool) {
    forall i :: 0 <= i < |s| ==> p(s[i])
  }

  /** Drops the characters satisfying `strip` from the front of `s`. */
  function TrimStartBy(s: string, strip: char -> bool): (r: string)
    ensures |r| <= |s|
  {
    if s != [] && strip(s[0]) then TrimStartBy(s[1..], strip) else s
  }

  /** Drops the characters satisfying `strip` from the back of `s`. */
  function TrimEndBy(s: string, strip: char -> bool): (r: string)
    ensures |r| <= |s|
  {
    if s != [] && strip(s[|s| - 1]) then TrimEndBy(s[..|s| - 1], strip) else s
  }

  /** Trimming the front drops a run of stripped characters and stops at the first other one. */
  lemma {:induction false} TrimStartByFacts(s: string, strip: char -> bool)
    ensures var r := TrimStartBy(s, strip);
      && r == s[|s| - |r|..]
      && (r == [] || !strip(r[0]))
      && All(s[..|s| - |r|], strip)
  {
    if s != [] && strip(s[0]) {
      var r := TrimStartBy(s, strip);
      TrimStartByFacts(s[1..], strip);
      assert s[..|s| - |r|] == [s[0]] + s[1..][..|s| - 1 - |r|];
    }
  }

  /** Trimming the back drops a run of stripped characters and stops at the last other one. */
  lemma {:induction false} TrimEndByFacts(s: string, strip: char -> bool)
    ensures var r := TrimEndBy(s, strip);
      && r == s[..|r|]
      && (r == [] || !strip(r[|r| - 1]))
      && All(s[|r|..], strip)
  {
    if s != [] && strip(s[|s| - 1]) {
      var r := TrimEndBy(s, strip);
      var s' := s[..|s| - 1];
      TrimEndByFacts(s', strip);
      assert s[|r|..] == s'[|r|..] + [s[|s| - 1]];
      assert r == s'[..|r|] == s[..|r|];
    }
  }

  /** Neither the first nor the last character of `s` satisfies `strip`. */
  predicate TrimmedBy(s: string, strip: char -> bool) {
    s == [] || (!strip(s[0]) && !strip(s[|s| - 1]))
  }

  /** Drops the characters satisfying `strip` from both ends of `s`. */
  function TrimBy(s: string, strip: char -> bool): (r: string)
    ensures |r| <= |s|
    ensures TrimmedBy(r, strip)
  {
    var t := TrimStartBy(s, strip);
    TrimStartByFacts(s, strip);
    TrimEndByFacts(t, strip);
    var r := TrimEndBy(t, strip);
    assert r == [] || r[0] == t[0];
    r
  }

  /** Trimming removes only stripped characters, and only at the two ends: the result is the
      piece of `s` at offset `k`, with only stripped characters before and after it. */
  lemma {:induction false} TrimByRemovesOnlyEnds(s: string, strip: char -> bool) returns (k: nat)
    ensures var r := TrimBy(s, strip);
      && k + |r| <= |s| && r == s[k..k + |r|]
      && All(s[..k], strip) && All(s[k + |r|..], strip)
  {
    var t := TrimStartBy(s, strip);
    var r := TrimEndBy(t, strip);
    assert TrimBy(s, strip) == r;
    TrimStartByFacts(s, strip);
    TrimEndByFacts(t, strip);
    k := |s| - |t|;
    assert r == s[k..k + |r|];
    assert s[k + |r|..] == t[|r|..];
  }

  /** A string that neither starts nor ends with a stripped character is its own trim. */
  lemma TrimByFixpoint(s: string, strip: char -> bool)
    requires TrimmedBy(s, strip)
    ensures TrimBy(s, strip) == s
  {
  }

  /** Trimming twice is trimming once. */
  lemma TrimByIdempotent(s: string, strip: char -> bool)
    ensures TrimBy(TrimBy(s, strip), strip) == TrimBy(s, strip)
  {
    TrimByFixpoint(TrimBy(s, strip), strip);
  }

  /** Neither starts nor ends with whitespace. */
  predicate IsTrimmed(s: string) {
    s == [] || (!IsWhitespace(s[0]) && !IsWhitespace(s[|s| - 1]))
  }

  /** `String.prototype.trim`. */
  function Trim(s: string): (r: string)
    ensures |r| <= |s|
    ensures IsTrimmed(r)
  {
    TrimBy(s, IsWhitespace)
  }

  /** A string with no whitespace at either end is its own trim. */
  lemma TrimmedIsFixpoint(s: string)
    requires IsTrimmed(s)
    ensures Trim(s) == s
  {
    TrimByFixpoint(s, IsWhitespace);
  }

  /** `toLowerCase` on one character, restricted to the ASCII letters. */
  function LowerChar(c: char): char {
    if 'A' <= c <= 'Z' then (c as int + 32) as char else c
  }

  /** `toUpperCase` on one character, restricted to the ASCII letters. */
  function UpperChar(c: char): char {
    if 'a' <= c <= 'z' then (c as int - 32) as char else c
  }

  /** `String.prototype.toLowerCase` (ASCII letters). */
  function Lower(s: string): (r: string)
    ensures |r| == |s| && forall i :: 0 <= i < |s| ==> r[i] == LowerChar(s[i])
  {
    seq(|s|, i requires 0 <= i < |s| => LowerChar(s[i]))
  }

  /** Lower-casing works character by character, so it distributes over concatenation. */
  lemma LowerConcat(a: string, b: string)
    ensures Lower(a + b) == Lower(a) + Lower(b)
  {
    assert forall i :: 0 <= i < |a + b| ==> Lower(a + b)[i] == (Lower(a) + Lower(b))[i];
  }

  /** `String.prototype.toUpperCase` (ASCII letters). */
  function Upper(s: string): (r: string)
    ensures |r| == |s| && forall i :: 0 <= i < |s| ==> r[i] == UpperChar(s[i])
  {
    seq(|s|, i requires 0 <= i < |s| => UpperChar(s[i]))
  }

  /** Lower-casing maps every character to one that is not an upper-case letter, and changes
      nothing but letters, so whitespace stays whitespace and nothing else becomes it. */
  lemma LowerCharFacts(c: char)
    ensures !('A' <= LowerChar(c) <= 'Z')
    ensures IsWhitespace(LowerChar(c)) <==> IsWhitespace(c)
  {
  }

  /** A lower-cased string has no upper-case letter, and lower-casing a trimmed string leaves
      it trimmed. */
  lemma LowerFacts(s: string)
    ensures forall i :: 0 <= i < |Lower(s)| ==> !('A' <= Lower(s)[i] <= 'Z')
    ensures IsTrimmed(s) ==> IsTrimmed(Lower(s))
  {
    forall i | 0 <= i < |s|
      ensures !('A' <= Lower(s)[i] <= 'Z')
    {
      LowerCharFacts(s[i]);
    }
    if s != [] {
      LowerCharFacts(s[0]);
      LowerCharFacts(s[|s| - 1]);
    }
  }

  lemma LowerIdempotent(s: string)
    ensures Lower(Lower(s)) == Lower(s)
  {
  }

  /** `String.prototype.startsWith`. */
  predicate StartsWith(s: string, p: string) {
    |p| <= |s| && s[..|p|] == p
  }

  /** `String.prototype.includes`: `p` occurs somewhere in `s`. */
  predicate Contains(s: string, p: string)
    decreases |s|
  {
    StartsWith(s, p) || (s != [] && Contains(s[1..], p))
  }

  /** `String.prototype.indexOf`: the first position at which `p` occurs in `s`. */
  function IndexOf(s: string, p: string): (r: Option<nat>)
    ensures r.Some? <==> Contains(s, p)
    decreases |s|
  {
    if StartsWith(s, p) then Some(0)
    else if s == [] then None
    else
      match IndexOf(s[1..], p)
      case None => None
      case Some(k) => Some(k + 1)
  }

  /** The position found is an occurrence of `p`, and no earlier position is one. */
  lemma {:induction false} IndexOfFacts(s: string, p: string)
    ensures var r := IndexOf(s, p);
      && (r.Some? ==> r.value + |p| <= |s| && s[r.value..r.value + |p|] == p)
      && (r.Some? ==> forall j :: 0 <= j < r.value ==> !StartsWith(s[j..], p))
    decreases |s|
  {
    if !StartsWith(s, p) && s != [] {
      IndexOfFacts(s[1..], p);
      var r := IndexOf(s[1..], p);
      if r.Some? {
        var k := r.value;
        assert s[k + 1..k + 1 + |p|] == s[1..][k..k + |p|];
        forall j | 1 <= j < k + 1
          ensures !StartsWith(s[j..], p)
        {
          assert s[j..] == s[1..][j - 1..];
        }
      }
    }
  }

  /** `s.replace(p, rep)` with a string pattern: only the first occurrence is replaced. */
  function ReplaceFirst(s: string, p: string, rep: string): (r: string)
    ensures !Contains(s, p) ==> r == s
    ensures StartsWith(s, p) ==> r == rep + s[|p|..]
    ensures Contains(s, p) ==> |r| == |s| - |p| + |rep|
  {
    IndexOfFacts(s, p);
    match IndexOf(s, p)
    case None => s
    case Some(i) => s[..i] + rep + s[i + |p|..]
  }

  /** An occurrence at any position means `p` is contained. */
  lemma {:induction false} ContainsAt(s: string, p: string, i: nat)
    requires i <= |s| && StartsWith(s[i..], p)
    ensures Contains(s, p)
    decreases i
  {
    if i > 0 {
      assert s[1..][i - 1..] == s[i..];
      ContainsAt(s[1..], p, i - 1);
    }
  }

  /** Wherever the first occurrence of `p` lies, `replace` rewrites exactly that slice. */
  lemma ReplaceFirstAtFirstOccurrence(s: string, p: string, rep: string, i: nat)
    requires i + |p| <= |s| && s[i..i + |p|] == p
    requires forall j :: 0 <= j < i ==> !StartsWith(s[j..], p)
    ensures ReplaceFirst(s, p, rep) == s[..i] + rep + s[i + |p|..]
  {
    IndexOfFacts(s, p);
    assert StartsWith(s[i..], p);
    ContainsAt(s, p, i);
    var k := IndexOf(s, p).value;
    assert StartsWith(s[k..], p);
  }

  /** The number of UTF-16 code units a character takes: two above the Basic Multilingual
      Plane, where JavaScript stores it as a surrogate pair, else one. */
  function Utf16Units(c: char): nat {
    if c as int >= 0x1_0000 then 2 else 1
  }

  /** `s.length`: JavaScript counts UTF-16 code units, not characters. */
  function Utf16Length(s: string): (n: nat)
    ensures |s| <= n <= 2 * |s|
  {
    if s == [] then 0 else Utf16Units(s[0]) + Utf16Length(s[1..])
  }

  /** The code-unit count equals the character count exactly when no character lies above
      the Basic Multilingual Plane. */
  lemma {:induction false} Utf16LengthOfBmp(s: string)
    ensures Utf16Length(s) == |s| <==> forall i :: 0 <= i < |s| ==> s[i] as int < 0x1_0000
  {
    if s != [] {
      Utf16LengthOfBmp(s[1..]);
      assert forall i :: 0 <= i < |s[1..]| ==> s[1..][i] == s[i + 1];
    }
  }

  /** The length of a concatenation is the sum of the lengths. */
  lemma {:induction false} Utf16LengthConcat(a: string, b: string)
    ensures Utf16Length(a + b) == Utf16Length(a) + Utf16Length(b)
  {
    if a == [] {
      assert a + b == b;
    } else {
      assert (a + b)[1..] == a[1..] + b;
      Utf16LengthConcat(a[1..], b);
    }
  }

  // ---------------------------------------------------------------------------------------
  // Array filtering

  /** `Array.prototype.filter`, and on strings `s.replace(/[^…]/g, '')`: the elements that
      satisfy `p`, in order. */
  function Filter<T>(s: seq<T>, p: T -> bool): (r: seq<T>)
    ensures |r| <= |s|
  {
    if s == [] then [] else if p(s[0]) then [s[0]] + Filter(s[1..], p) else Filter(s[1..], p)
  }

  /** `a` is `b` with some elements left out, the rest in their order. */
  predicate IsSubsequence<T(==)>(a: seq<T>, b: seq<T>)
    decreases |b|
  {
    if a == [] then true
    else if b == [] then false
    else if a[0] == b[0] then IsSubsequence(a[1..], b[1..])
    else IsSubsequence(a, b[1..])
  }

  /** Filtering keeps the elements that satisfy `p`, every one of them, in order. */
  lemma {:induction false} FilterKeepsOrder<T>(s: seq<T>, p: T -> bool)
    ensures IsSubsequence(Filter(s, p), s)
    ensures forall x :: x in Filter(s, p) <==> x in s && p(x)
    ensures forall i :: 0 <= i < |Filter(s, p)| ==> p(Filter(s, p)[i])
  {
    if s != [] {
      FilterKeepsOrder(s[1..], p);
      assert forall x :: x in s <==> x == s[0] || x in s[1..];
      if p(s[0]) {
        assert Filter(s, p)[1..] == Filter(s[1..], p);
      }
    }
  }

  /** Filtering by `p` and then by `q` is filtering by both at once. */
  lemma {:induction false} FilterTwice<T>(s: seq<T>, p: T -> bool, q: T -> bool, both: T -> bool)
    requires forall x :: both(x) == (p(x) && q(x))
    ensures Filter(Filter(s, p), q) == Filter(s, both)
  {
    if s != [] {
      FilterTwice(s[1..], p, q, both);
      if p(s[0]) {
        assert Filter(s, p) == [s[0]] + Filter(s[1..], p);
        assert Filter(s, p)[1..] == Filter(s[1..], p);
      }
    }
  }

  /** An element either satisfies `p` or not: the two filters split the list. */
  lemma {:induction false} FilterSplits<T>(s: seq<T>, p: T -> bool, notP: T -> bool)
    requires forall x :: notP(x) == !p(x)
    ensures |Filter(s, p)| + |Filter(s, notP)| == |s|
  {
    if s != [] {
      FilterSplits(s[1..], p, notP);
    }
  }

  /** Filters by two predicates that agree everywhere give the same list. */
  lemma {:induction false} FilterSame<T>(s: seq<T>, p: T -> bool, q: T -> bool)
    requires forall x :: p(x) == q(x)
    ensures Filter(s, p) == Filter(s, q)
  {
    if s != [] {
      FilterSame(s[1..], p, q);
    }
  }

  /** A list whose every element passes the filter is kept whole. */
  lemma {:induction false} FilterAll<T>(s: seq<T>, p: T -> bool)
    requires forall i :: 0 <= i < |s| ==> p(s[i])
    ensures Filter(s, p) == s
  {
    if s != [] {
      assert forall i :: 0 <= i < |s[1..]| ==> s[1..][i] == s[i + 1];
      FilterAll(s[1..], p);
      assert s == [s[0]] + s[1..];
    }
  }

  function DigitChar(d: nat): (c: char)
    requires d < 10
    ensures IsDigit(c)
  {
    ('0' as int + d) as char
  }

  /** The number a string of decimal digits denotes, read most significant digit first. */
  function DigitsValue(s: string): int
    decreases |s|
  {
    if s == [] then 0 else DigitsValue(s[..|s| - 1]) * 10 + (s[|s| - 1] as int - '0' as int)
  }

  /** `String(n)` for a non-negative integer: its decimal digits, without leading zeros. */
  function NatToString(n: nat): string
    decreases n
  {
    if n < 10 then [DigitChar(n)] else NatToString(n / 10) + [DigitChar(n % 10)]
  }

  /** The decimal text is a non-empty string of digits, and it starts with `0` only for zero. */
  lemma {:induction false} NatToStringDigits(n: nat)
    ensures NatToString(n) != [] && forall i :: 0 <= i < |NatToString(n)| ==> IsDigit(NatToString(n)[i])
    ensures NatToString(n)[0] == '0' ==> n == 0
    decreases n
  {
    if n >= 10 {
      NatToStringDigits(n / 10);
    }
  }

  /** The decimal text denotes the number it was printed from. */
  lemma {:induction false} NatToStringValue(n: nat)
    ensures DigitsValue(NatToString(n)) == n
    decreases n
  {
    if n >= 10 {
      NatToStringValue(n / 10);
      var t := NatToString(n);
      assert t[..|t| - 1] == NatToString(n / 10);
    }
  }

  /** Different numbers print differently. */
  lemma NatToStringInjective(m: nat, n: nat)
    ensures NatToString(m) == NatToString(n) ==> m == n
  {
    NatToStringValue(m);
    NatToStringValue(n);
  }
}
