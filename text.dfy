/**
 * The Python string built-ins the session controller relies on, restricted to
 * ASCII where Python consults Unicode tables: `str.replace`, `str.split(sep)`,
 * `sep.join`, `str.startswith`, `str.lower`, `str.isalpha`, `str.isnumeric`,
 * `str.strip`/`bytes.rstrip`, `int(text)`, `str(n)` and the ordering `list.sort`
 * uses on strings.
 */
module Text {
  import opened Basics

  // ---------------------------------------------------------------------------
  // startswith / replace
  // ---------------------------------------------------------------------------

  /** Python `s.startswith(p)`. */
  predicate StartsWith(s: string, p: string) {
    |p| <= |s| && s[..|p|] == p
  }

  /**
   * Python `s.replace(pat, sub)` for a non-empty `pat`: occurrences are found
   * from left to right, do not overlap, and each is replaced by `sub`.
   */
  function Replace(s: string, pat: string, sub: string): string
    requires |pat| > 0
    decreases |s|
  {
    if |s| < |pat| then s
    else if s[..|pat|] == pat then sub + Replace(s[|pat|..], pat, sub)
    else [s[0]] + Replace(s[1..], pat, sub)
  }

  /** No occurrence of `pat` in `a + b` begins inside `a` and ends inside `b`. */
  predicate NoStraddle(a: string, b: string, pat: string) {
    forall i :: 0 <= i < |a| && |a| < i + |pat| ==> !StartsWith((a + b)[i..], pat)
  }

  /** A text in which the first character of `pat` never occurs is left as it is. */
  lemma {:induction false} ReplaceAbsent(s: string, pat: string, sub: string)
    requires |pat| > 0 && pat[0] !in s
    ensures Replace(s, pat, sub) == s
    decreases |s|
  {
    if |s| >= |pat| {
      assert s[..|pat|][0] == s[0] != pat[0];
      ReplaceAbsent(s[1..], pat, sub);
      assert s == [s[0]] + s[1..];
    }
  }

  /** Replacing distributes over a concatenation that no occurrence straddles. */
  lemma {:induction false} ReplaceConcat(a: string, b: string, pat: string, sub: string)
    requires |pat| > 0 && NoStraddle(a, b, pat)
    ensures Replace(a + b, pat, sub) == Replace(a, pat, sub) + Replace(b, pat, sub)
    decreases |a|
  {
    var n := |pat|;
    if |a| == 0 {
      assert a + b == b;
    } else if StartsWith(a + b, pat) {
      assert (a + b)[0..] == a + b;
      assert n <= |a|;
      var a' := a[n..];
      assert a[..n] == (a + b)[..n];
      assert (a + b)[n..] == a' + b;
      forall i | 0 <= i < |a'| && |a'| < i + n
        ensures !StartsWith((a' + b)[i..], pat)
      {
        assert (a' + b)[i..] == (a + b)[i + n..];
      }
      ReplaceConcat(a', b, pat, sub);
      assert Replace(a + b, pat, sub) == sub + Replace(a' + b, pat, sub);
      assert Replace(a, pat, sub) == sub + Replace(a', pat, sub);
      AppendAssoc(sub, Replace(a', pat, sub), Replace(b, pat, sub));
    } else {
      var a' := a[1..];
      assert (a + b)[1..] == a' + b;
      assert (a + b)[0] == a[0];
      if |a| >= n {
        assert a[..n] == (a + b)[..n];
      } else {
        assert a == [a[0]] + a';
      }
      forall i | 0 <= i < |a'| && |a'| < i + n
        ensures !StartsWith((a' + b)[i..], pat)
      {
        assert (a' + b)[i..] == (a + b)[i + 1..];
      }
      ReplaceConcat(a', b, pat, sub);
      assert Replace(a + b, pat, sub) == [a[0]] + Replace(a' + b, pat, sub);
      assert Replace(a, pat, sub) == [a[0]] + Replace(a', pat, sub);
      AppendAssoc([a[0]], Replace(a', pat, sub), Replace(b, pat, sub));
    }
  }

  /**
   * No non-empty tail of `a` shorter than `pat` is a beginning of `pat`, so no
   * occurrence of `pat` can start inside `a` and run past its end, whatever follows.
   */
  predicate CleanEnd(a: string, pat: string) {
    forall i :: 0 <= i < |a| && |a| < i + |pat| ==> !StartsWith(pat, a[i..])
  }

  lemma CleanEndNoStraddle(a: string, b: string, pat: string)
    requires CleanEnd(a, pat)
    ensures NoStraddle(a, b, pat)
  {
    forall i | 0 <= i < |a| && |a| < i + |pat|
      ensures !StartsWith((a + b)[i..], pat)
    {
      assert (a + b)[i..][..|a| - i] == a[i..];
    }
  }

  /** A text without the first character of `pat` has a clean end. */
  lemma CleanEndAbsent(a: string, pat: string)
    requires |pat| > 0 && pat[0] !in a
    ensures CleanEnd(a, pat)
  {
    forall i | 0 <= i < |a| && |a| < i + |pat|
      ensures !StartsWith(pat, a[i..])
    {
      assert a[i] in a && a[i..][0] == a[i];
    }
  }

  /** Replacing distributes over a concatenation whose left part has a clean end. */
  lemma ReplaceCleanConcat(a: string, b: string, pat: string, sub: string)
    requires |pat| > 0 && CleanEnd(a, pat)
    ensures Replace(a + b, pat, sub) == Replace(a, pat, sub) + Replace(b, pat, sub)
  {
    CleanEndNoStraddle(a, b, pat);
    ReplaceConcat(a, b, pat, sub);
  }

  /** A prefix without the first character of `pat` passes through unchanged. */
  lemma ReplaceAbsentPrefix(a: string, b: string, pat: string, sub: string)
    requires |pat| > 0 && pat[0] !in a
    ensures Replace(a + b, pat, sub) == a + Replace(b, pat, sub)
  {
    CleanEndAbsent(a, pat);
    ReplaceAbsent(a, pat, sub);
    ReplaceCleanConcat(a, b, pat, sub);
  }

  /** Replacing cannot bring in a character that neither the text nor the replacement holds. */
  lemma {:induction false} ReplaceKeepsAbsent(s: string, pat: string, sub: string, c: char)
    requires |pat| > 0 && c !in s && c !in sub
    ensures c !in Replace(s, pat, sub)
    decreases |s|
  {
    if |s| >= |pat| {
      if s[..|pat|] == pat {
        ReplaceKeepsAbsent(s[|pat|..], pat, sub, c);
      } else {
        ReplaceKeepsAbsent(s[1..], pat, sub, c);
      }
    }
  }

  /** With a one-character pattern, any concatenation can be replaced piecewise. */
  lemma ReplaceConcatChar(a: string, b: string, c: char, sub: string)
    ensures Replace(a + b, [c], sub) == Replace(a, [c], sub) + Replace(b, [c], sub)
  {
    ReplaceConcat(a, b, [c], sub);
  }

  /** A text that starts with the pattern has its first occurrence right there. */
  lemma ReplaceLeading(pat: string, rest: string, sub: string)
    requires |pat| > 0
    ensures Replace(pat + rest, pat, sub) == sub + Replace(rest, pat, sub)
  {
    assert (pat + rest)[..|pat|] == pat;
    assert (pat + rest)[|pat|..] == rest;
  }

  /** Replacing a one-character pattern by text without it removes every occurrence. */
  lemma {:induction false} ReplaceRemovesChar(s: string, c: char, sub: string)
    requires c !in sub
    ensures c !in Replace(s, [c], sub)
    decreases |s|
  {
    if |s| >= 1 {
      ReplaceRemovesChar(s[1..], c, sub);
    }
  }

  // ---------------------------------------------------------------------------
  // split / join
  // ---------------------------------------------------------------------------

  /**
   * Python `s.split(sep)` with an explicit one-character separator: every
   * separator ends a piece, so empty pieces are kept and the result is never empty.
   */
  function Split(s: string, sep: char): (r: seq<string>)
    ensures |r| >= 1
  {
    if |s| == 0 then [""]
    else
      var rest := Split(s[1..], sep);
      if s[0] == sep then [""] + rest
      else [[s[0]] + rest[0]] + rest[1..]
  }

  /** Python `sep.join(xs)`. */
  function Join(xs: seq<string>, sep: string): string {
    if |xs| == 0 then ""
    else if |xs| == 1 then xs[0]
    else xs[0] + sep + Join(xs[1..], sep)
  }

  /** The pieces of a split never contain the separator. */
  lemma {:induction false} SplitPiecesLackSep(s: string, sep: char)
    ensures forall p :: p in Split(s, sep) ==> sep !in p
    decreases |s|
  {
    if |s| > 0 {
      SplitPiecesLackSep(s[1..], sep);
    }
  }

  /** A text without the separator splits into itself. */
  lemma {:induction false} SplitNoSep(s: string, sep: char)
    requires sep !in s
    ensures Split(s, sep) == [s]
    decreases |s|
  {
    if |s| > 0 {
      SplitNoSep(s[1..], sep);
      assert [s[0]] + s[1..] == s;
    }
  }

  /** Splitting at one separator splits each side on its own. */
  lemma {:induction false} SplitConcat(a: string, b: string, sep: char)
    ensures Split(a + [sep] + b, sep) == Split(a, sep) + Split(b, sep)
    decreases |a|
  {
    var s := a + [sep] + b;
    if |a| == 0 {
      assert s[0] == sep && s[1..] == b;
    } else {
      SplitConcat(a[1..], b, sep);
      SplitConcatStep(a, b, sep);
    }
  }

  /** One step of `SplitConcat`: from the string's tail to the whole string. */
  lemma SplitConcatStep(a: string, b: string, sep: char)
    requires |a| > 0
    requires Split(a[1..] + [sep] + b, sep) == Split(a[1..], sep) + Split(b, sep)
    ensures Split(a + [sep] + b, sep) == Split(a, sep) + Split(b, sep)
  {
    var s := a + [sep] + b;
    assert s[0] == a[0] && s[1..] == a[1..] + [sep] + b;
    SplitHead(s, sep);
    SplitHead(a, sep);
    PiecesAppend(a[0], sep, Split(a[1..], sep), Split(b, sep), Split(s, sep), Split(a, sep));
  }

  /** The shape of `SplitHead` distributes over appending the pieces of another string. */
  lemma PiecesAppend(c: char, sep: char, xs: seq<string>, ys: seq<string>, whole: seq<string>, left: seq<string>)
    requires |xs| >= 1
    requires whole == if c == sep then [""] + (xs + ys) else [[c] + (xs + ys)[0]] + (xs + ys)[1..]
    requires left == if c == sep then [""] + xs else [[c] + xs[0]] + xs[1..]
    ensures whole == left + ys
  {
    if c == sep {
      AppendAssoc([""], xs, ys);
    } else {
      assert (xs + ys)[0] == xs[0] && (xs + ys)[1..] == xs[1..] + ys;
      AppendAssoc([[c] + xs[0]], xs[1..], ys);
    }
  }

  /** Concatenation is associative; stated on plain values so that callers need not unfold anything. */
  lemma AppendAssoc<T>(p: seq<T>, q: seq<T>, r: seq<T>)
    ensures p + (q + r) == p + q + r
  {
  }

  /** Splitting a non-empty string: its first character then the pieces of the rest. */
  lemma SplitHead(s: string, sep: char)
    requires |s| > 0
    ensures Split(s, sep) ==
      if s[0] == sep then [""] + Split(s[1..], sep) else [[s[0]] + Split(s[1..], sep)[0]] + Split(s[1..], sep)[1..]
  {
  }


  /** Joining and then splitting at the same separator gives the pieces back. */
  lemma {:induction false} SplitJoin(xs: seq<string>, sep: char)
    requires |xs| >= 1
    requires forall x :: x in xs ==> sep !in x
    ensures Split(Join(xs, [sep]), sep) == xs
    decreases |xs|
  {
    if |xs| == 1 {
      SplitNoSep(xs[0], sep);
    } else {
      var rest := Join(xs[1..], [sep]);
      assert Join(xs, [sep]) == xs[0] + [sep] + rest;
      SplitJoin(xs[1..], sep);
      SplitNoSep(xs[0], sep);
      SplitConcat(xs[0], rest, sep);
      assert Split(Join(xs, [sep]), sep) == [xs[0]] + xs[1..];
      assert [xs[0]] + xs[1..] == xs;
    }
  }

  /** Splitting and then joining at the same separator gives the text back. */
  lemma {:induction false} JoinSplit(s: string, sep: char)
    ensures Join(Split(s, sep), [sep]) == s
    decreases |s|
  {
    if |s| > 0 {
      var rest := Split(s[1..], sep);
      JoinSplit(s[1..], sep);
      if s[0] == sep {
        assert Join([""] + rest, [sep]) == "" + [sep] + Join(rest, [sep]);
      } else {
        var xs := [[s[0]] + rest[0]] + rest[1..];
        if |rest| == 1 {
          assert Join(xs, [sep]) == [s[0]] + rest[0];
        } else {
          assert xs[1..] == rest[1..];
          assert Join(rest, [sep]) == rest[0] + [sep] + Join(rest[1..], [sep]);
        }
      }
      assert [s[0]] + s[1..] == s;
    }
  }

  /** The list comprehension `[x for x in xs if x != ""]`. */
  function NonEmpty(xs: seq<string>): (r: seq<string>)
    ensures forall x :: x in r ==> x != "" && x in xs
    ensures forall x :: x in xs && x != "" ==> x in r
  {
    if |xs| == 0 then []
    else if xs[0] == "" then NonEmpty(xs[1..])
    else [xs[0]] + NonEmpty(xs[1..])
  }

  lemma {:induction false} NonEmptyConcat(xs: seq<string>, ys: seq<string>)
    ensures NonEmpty(xs + ys) == NonEmpty(xs) + NonEmpty(ys)
    decreases |xs|
  {
    if |xs| == 0 {
      assert xs + ys == ys;
    } else {
      assert (xs + ys)[1..] == xs[1..] + ys;
      NonEmptyConcat(xs[1..], ys);
    }
  }

  /** `[prefix + x for x in xs]`: each text with the same prefix in front, in order. */
  function Prefixed(prefix: string, xs: seq<string>): (r: seq<string>)
    ensures |r| == |xs|
  {
    seq(|xs|, i requires 0 <= i < |xs| => prefix + xs[i])
  }

  /** Prefixing two lists in turn is prefixing their concatenation. */
  lemma PrefixedConcat(prefix: string, xs: seq<string>, ys: seq<string>)
    ensures Prefixed(prefix, xs + ys) == Prefixed(prefix, xs) + Prefixed(prefix, ys)
  {
  }

  /** Cutting the prefix off again gives the list back, item by item and in order. */
  lemma PrefixedRoundTrip(prefix: string, xs: seq<string>)
    ensures seq(|xs|, i requires 0 <= i < |xs| => Prefixed(prefix, xs)[i][|prefix|..]) == xs
  {
    forall i | 0 <= i < |xs|
      ensures Prefixed(prefix, xs)[i][|prefix|..] == xs[i]
    {
      assert (prefix + xs[i])[|prefix|..] == xs[i];
    }
  }

  // ---------------------------------------------------------------------------
  // Character classes and case
  // ---------------------------------------------------------------------------

  /** ASCII approximation of Python's `c.isalpha()`. */
  predicate IsLetter(c: char) {
    ('a' <= c <= 'z') || ('A' <= c <= 'Z')
  }

  /** `any(c.isalpha() for c in s)`. */
  predicate HasLetter(s: string) {
    exists i :: 0 <= i < |s| && IsLetter(s[i])
  }

  predicate IsDigit(c: char) {
    '0' <= c <= '9'
  }

  /** ASCII approximation of Python's `s.isnumeric()`: non-empty and all digits. */
  predicate IsDigits(s: string) {
    |s| > 0 && forall i :: 0 <= i < |s| ==> IsDigit(s[i])
  }

  /** The ASCII characters Python's `str.strip()` and `int()` treat as white space. */
  predicate IsSpace(c: char) {
    c == ' ' || (9 <= c as int <= 13) || (28 <= c as int <= 31)
  }

  /** The characters `bytes.rstrip()` removes: space, \t, \n, \v, \f and \r. */
  predicate IsByteSpace(c: char) {
    c == ' ' || (9 <= c as int <= 13)
  }

  function LowerChar(c: char): char {
    if 'A' <= c <= 'Z' then (c as int - 'A' as int + 'a' as int) as char else c
  }

  /** ASCII approximation of Python's `s.lower()`. */
  function Lower(s: string): (r: string)
    ensures |r| == |s|
    ensures forall i :: 0 <= i < |s| ==> r[i] == LowerChar(s[i])
  {
    if |s| == 0 then "" else [LowerChar(s[0])] + Lower(s[1..])
  }

  /** A lowered text has no upper-case letter left and lowering it again changes nothing. */
  lemma LowerIdempotent(s: string)
    ensures forall i :: 0 <= i < |s| ==> !('A' <= Lower(s)[i] <= 'Z')
    ensures Lower(Lower(s)) == Lower(s)
  {
  }

  /** Lowering works character by character, so it distributes over concatenation. */
  lemma {:induction false} LowerConcat(a: string, b: string)
    ensures Lower(a + b) == Lower(a) + Lower(b)
    decreases |a|
  {
    if |a| == 0 {
      assert a + b == b;
    } else {
      assert (a + b)[0] == a[0] && (a + b)[1..] == a[1..] + b;
      LowerConcat(a[1..], b);
    }
  }

  /** Lowering keeps exactly the positions that hold letters. */
  lemma LowerKeepsLetters(s: string)
    ensures HasLetter(Lower(s)) <==> HasLetter(s)
  {
    if HasLetter(s) {
      var i :| 0 <= i < |s| && IsLetter(s[i]);
      assert IsLetter(Lower(s)[i]);
    }
    if HasLetter(Lower(s)) {
      var i :| 0 <= i < |s| && IsLetter(Lower(s)[i]);
      assert IsLetter(s[i]);
    }
  }

  // ---------------------------------------------------------------------------
  // strip
  // ---------------------------------------------------------------------------

  function TrimLeft(s: string): string {
    if |s| > 0 && IsSpace(s[0]) then TrimLeft(s[1..]) else s
  }

  function TrimRight(s: string): string {
    if |s| > 0 && IsSpace(s[|s| - 1]) then TrimRight(s[..|s| - 1]) else s
  }

  /** Python `s.strip()` (ASCII white space). */
  function Strip(s: string): string {
    TrimRight(TrimLeft(s))
  }

  /** Python `b.rstrip()` on a line of bytes. */
  function RStripBytes(s: string): string {
    if |s| > 0 && IsByteSpace(s[|s| - 1]) then RStripBytes(s[..|s| - 1]) else s
  }

  /** Stripping keeps a piece of the text that starts and ends with something other than white space. */
  lemma {:induction false} StripIsInner(s: string)
    ensures var t, k := Strip(s), |s| - |TrimLeft(s)|;
      0 <= k <= |s| - |t| && t == s[k..k + |t|]
      && (|t| > 0 ==> !IsSpace(t[0]) && !IsSpace(t[|t| - 1]))
  {
    TrimLeftIsSuffix(s);
    var l := TrimLeft(s);
    TrimRightIsPrefix(l);
    var t := Strip(s);
    var k := |s| - |l|;
    assert t == l[..|t|] && l == s[k..];
    assert t == s[k..k + |t|];
  }

  lemma {:induction false} TrimLeftIsSuffix(s: string)
    ensures |TrimLeft(s)| <= |s| && TrimLeft(s) == s[|s| - |TrimLeft(s)|..]
    ensures |TrimLeft(s)| > 0 ==> !IsSpace(TrimLeft(s)[0])
    decreases |s|
  {
    if |s| > 0 && IsSpace(s[0]) {
      TrimLeftIsSuffix(s[1..]);
    }
  }

  lemma {:induction false} TrimRightIsPrefix(s: string)
    ensures |TrimRight(s)| <= |s| && TrimRight(s) == s[..|TrimRight(s)|]
    ensures |TrimRight(s)| > 0 ==> !IsSpace(TrimRight(s)[|TrimRight(s)| - 1])
    decreases |s|
  {
    if |s| > 0 && IsSpace(s[|s| - 1]) {
      TrimRightIsPrefix(s[..|s| - 1]);
    }
  }

  predicate AllSpace(s: string) {
    forall i :: 0 <= i < |s| ==> IsSpace(s[i])
  }

  lemma {:induction false} TrimLeftSpaces(w: string, t: string)
    requires AllSpace(w) && (|t| == 0 || !IsSpace(t[0]))
    ensures TrimLeft(w + t) == t
    decreases |w|
  {
    if |w| == 0 {
      assert w + t == t;
    } else {
      assert (w + t)[1..] == w[1..] + t;
      TrimLeftSpaces(w[1..], t);
    }
  }

  lemma {:induction false} TrimRightSpaces(t: string, w: string)
    requires AllSpace(w)
    requires |t| == 0 || !IsSpace(t[|t| - 1])
    ensures TrimRight(t + w) == t
    decreases |w|
  {
    if |w| == 0 {
      assert t + w == t;
    } else {
      assert (t + w)[..|t + w| - 1] == t + w[..|w| - 1];
      TrimRightSpaces(t, w[..|w| - 1]);
    }
  }

  /** `bytes.rstrip()` removes a trailing run of white space and nothing before it. */
  lemma {:induction false} RStripBytesSpaces(t: string, w: string)
    requires forall i :: 0 <= i < |w| ==> IsByteSpace(w[i])
    requires |t| == 0 || !IsByteSpace(t[|t| - 1])
    ensures RStripBytes(t + w) == t
    decreases |w|
  {
    if |w| == 0 {
      assert t + w == t;
    } else {
      assert (t + w)[..|t + w| - 1] == t + w[..|w| - 1];
      RStripBytesSpaces(t, w[..|w| - 1]);
    }
  }

  /** Stripping removes exactly the white space around a text that neither starts nor ends with any. */
  lemma StripAround(l: string, t: string, r: string)
    requires AllSpace(l) && AllSpace(r) && |t| > 0
    requires !IsSpace(t[0]) && !IsSpace(t[|t| - 1])
    ensures Strip(l + t + r) == t
  {
    assert l + t + r == l + (t + r);
    TrimLeftSpaces(l, t + r);
    TrimRightSpaces(t, r);
  }

  // ---------------------------------------------------------------------------
  // int(text) and str(n)
  // ---------------------------------------------------------------------------

  function DigitValue(c: char): nat
    requires IsDigit(c)
  {
    c as int - '0' as int
  }

  function DigitChar(d: nat): (c: char)
    requires d < 10
    ensures IsDigit(c) && DigitValue(c) == d
  {
    ('0' as int + d) as char
  }

  /** The value of a string of decimal digits, most significant first. */
  function DigitsValue(s: string): nat
    requires forall i :: 0 <= i < |s| ==> IsDigit(s[i])
  {
    if |s| == 0 then 0 else 10 * DigitsValue(s[..|s| - 1]) + DigitValue(s[|s| - 1])
  }

  /** Python `str(n)` for a non-negative integer. */
  function NatToString(n: nat): string
  {
    if n < 10 then [DigitChar(n)] else NatToString(n / 10) + [DigitChar(n % 10)]
  }

  /** Python `str(n)`. */
  function IntToString(n: int): string {
    if n < 0 then "-" + NatToString(-n) else NatToString(n)
  }

  /**
   * Python `int(s)` on an ASCII text: surrounding white space is ignored, then an
   * optional sign and at least one decimal digit; anything else raises
   * ValueError, written `None` here.
   */
  function ParseInt(s: string): Option<int> {
    ParseSigned(Strip(s))
  }

  /** An optional sign followed by at least one decimal digit, and nothing else. */
  function ParseSigned(t: string): Option<int> {
    if |t| > 0 && (t[0] == '-' || t[0] == '+') then
      if IsDigits(t[1..]) then
        var v: int := DigitsValue(t[1..]);
        Some(if t[0] == '-' then -v else v)
      else None
    else if IsDigits(t) then Some(DigitsValue(t))
    else None
  }

  /** A parsed integer is always written with at least one digit. */
  lemma ParseIntNeedsDigit(s: string)
    requires ParseInt(s).Some?
    ensures exists i :: 0 <= i < |s| && IsDigit(s[i])
  {
    var t := Strip(s);
    StripIsInner(s);
    var k := |s| - |TrimLeft(s)|;
    assert ParseSigned(t).Some?;
    var j := if IsDigit(t[0]) then 0 else 1;
    assert IsDigit(t[j]) && t[j] == s[k + j];
  }

  lemma {:induction false} NatToStringDigits(n: nat)
    ensures IsDigits(NatToString(n))
    ensures DigitsValue(NatToString(n)) == n
    decreases n
  {
    if n >= 10 {
      NatToStringDigits(n / 10);
      var s := NatToString(n);
      assert s[..|s| - 1] == NatToString(n / 10);
    }
  }

  lemma ParseSignedToString(n: int)
    ensures ParseSigned(IntToString(n)) == Some(n)
  {
    var d := NatToString(if n < 0 then -n else n);
    NatToStringDigits(if n < 0 then -n else n);
    if n < 0 {
      assert IntToString(n)[1..] == d;
    }
  }

  /** `str(n)` is made of digits and at most a leading minus sign. */
  lemma IntToStringChars(n: int)
    ensures |IntToString(n)| > 0
    ensures forall i :: 0 <= i < |IntToString(n)| ==> IsDigit(IntToString(n)[i]) || IntToString(n)[i] == '-'
    ensures IsDigit(IntToString(n)[|IntToString(n)| - 1])
  {
    NatToStringDigits(if n < 0 then -n else n);
  }

  /** `int(str(n)) == n`, also with white space around the digits. */
  lemma ParseIntToString(l: string, n: int, r: string)
    requires AllSpace(l) && AllSpace(r)
    ensures ParseInt(l + IntToString(n) + r) == Some(n)
  {
    var d := NatToString(if n < 0 then -n else n);
    NatToStringDigits(if n < 0 then -n else n);
    var t := IntToString(n);
    assert t[|t| - 1] == d[|d| - 1];
    StripAround(l, t, r);
    ParseSignedToString(n);
  }

  // ---------------------------------------------------------------------------
  // Ordering of strings (what `list.sort()` compares with)
  // ---------------------------------------------------------------------------

  /** Python's `a <= b` on strings: code point by code point, a proper prefix first. */
  predicate LexLe(a: string, b: string) {
    |a| == 0 || (|b| > 0 && (a[0] < b[0] || (a[0] == b[0] && LexLe(a[1..], b[1..]))))
  }

  lemma {:induction false} LexLeTotal(a: string, b: string)
    ensures LexLe(a, b) || LexLe(b, a)
    decreases |a|
  {
    if |a| > 0 && |b| > 0 && a[0] == b[0] {
      LexLeTotal(a[1..], b[1..]);
    }
  }

  lemma {:induction false} LexLeAntisymmetric(a: string, b: string)
    requires LexLe(a, b) && LexLe(b, a)
    ensures a == b
    decreases |a|
  {
    if |a| > 0 {
      LexLeAntisymmetric(a[1..], b[1..]);
      assert a == [a[0]] + a[1..] && b == [b[0]] + b[1..];
    }
  }

  predicate Sorted(xs: seq<string>) {
    forall i :: 0 < i < |xs| ==> LexLe(xs[i - 1], xs[i])
  }

  function Insert(x: string, xs: seq<string>): (r: seq<string>)
    requires Sorted(xs)
    ensures Sorted(r) && multiset(r) == multiset(xs) + multiset{x}
    ensures |r| > 0 && (r[0] == x || (|xs| > 0 && r[0] == xs[0]))
  {
    if |xs| == 0 then [x]
    else if LexLe(x, xs[0]) then [x] + xs
    else
      LexLeTotal(x, xs[0]);
      var tail := Insert(x, xs[1..]);
      assert xs == [xs[0]] + xs[1..];
      [xs[0]] + tail
  }

  /** Python's `xs.sort()` on strings: the result is ordered and holds the same strings. */
  function Sort(xs: seq<string>): (r: seq<string>)
    ensures Sorted(r) && multiset(r) == multiset(xs)
  {
    if |xs| == 0 then []
    else
      assert xs == [xs[0]] + xs[1..];
      Insert(xs[0], Sort(xs[1..]))
  }
}
