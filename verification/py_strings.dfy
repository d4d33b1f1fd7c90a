/**
  The Python string operations the input handler and the prediction bridge rely on:
  str.find, str.rfind, str.split, str.strip, str.upper, int() on a stripped token
  and str() of an int. Strings are sequences of characters.
 */
module PyStrings {
  import opened Wrappers

  // ---------------------------------------------------------------------------
  // find / rfind
  // ---------------------------------------------------------------------------

  /** str.find(c): the index of the first occurrence of c, or -1. */
  function Find(s: string, c: char): (i: int)
    ensures -1 <= i < |s|
    ensures i == -1 <==> c !in s
    ensures 0 <= i ==> s[i] == c && forall k :: 0 <= k < i ==> s[k] != c
  {
    if |s| == 0 then -1
    else if s[0] == c then 0
    else
      var j := Find(s[1..], c);
      if j == -1 then -1 else j + 1
  }

  /** str.rfind(c): the index of the last occurrence of c, or -1. */
  function RFind(s: string, c: char): (i: int)
    ensures -1 <= i < |s|
    ensures i == -1 <==> c !in s
    ensures 0 <= i ==> s[i] == c && forall k :: i < k < |s| ==> s[k] != c
  {
    if |s| == 0 then -1
    else if s[|s| - 1] == c then |s| - 1
    else RFind(s[..|s| - 1], c)
  }

  /** A character none of the first n positions hold is not in the prefix of length n. */
  lemma AbsentBefore(s: string, c: char, n: nat)
    requires n <= |s|
    requires forall k :: 0 <= k < n ==> s[k] != c
    ensures c !in s[..n]
  {
    forall k | 0 <= k < n ensures s[..n][k] != c {
      assert s[..n][k] == s[k];
    }
  }

  /** A character no position from n on holds is not in the suffix starting at n. */
  lemma AbsentAfter(s: string, c: char, n: nat)
    requires n <= |s|
    requires forall k :: n <= k < |s| ==> s[k] != c
    ensures c !in s[n..]
  {
    forall k | 0 <= k < |s| - n ensures s[n..][k] != c {
      assert s[n..][k] == s[n + k];
    }
  }

  // ---------------------------------------------------------------------------
  // split / join
  // ---------------------------------------------------------------------------

  /** str.split(sep) with an explicit one-character separator. */
  function Split(s: string, sep: char): (pieces: seq<string>)
    ensures |pieces| >= 1
  {
    if |s| == 0 then [""]
    else
      var rest := Split(s[1..], sep);
      if s[0] == sep then [""] + rest
      else [[s[0]] + rest[0]] + rest[1..]
  }

  /** No piece of a split holds the separator. */
  lemma {:induction false} SplitPiecesSeparatorFree(s: string, sep: char)
    ensures forall p <- Split(s, sep) :: sep !in p
  {
    if |s| > 0 {
      SplitPiecesSeparatorFree(s[1..], sep);
      var rest := Split(s[1..], sep);
      if s[0] != sep {
        assert rest[0] in rest;
        assert forall p <- rest[1..] :: p in rest;
      }
    }
  }

  /** sep.join(pieces), the inverse of Split: the separator appears exactly between pieces. */
  function Join(pieces: seq<string>, sep: char): (r: string)
    ensures (forall p <- pieces :: sep !in p) ==> (sep in r <==> |pieces| > 1)
  {
    if |pieces| == 0 then ""
    else if |pieces| == 1 then pieces[0]
    else pieces[0] + [sep] + Join(pieces[1..], sep)
  }

  /** Splitting and re-joining gives back the original text. */
  lemma {:induction false} JoinSplit(s: string, sep: char)
    ensures Join(Split(s, sep), sep) == s
  {
    if |s| > 0 {
      var rest := Split(s[1..], sep);
      JoinSplit(s[1..], sep);
      if s[0] == sep {
        assert Split(s, sep) == [""] + rest;
        assert Join([""] + rest, sep) == "" + [sep] + Join(rest, sep);
      } else {
        var pieces := Split(s, sep);
        assert pieces == [[s[0]] + rest[0]] + rest[1..];
        if |rest| == 1 {
          assert Join(pieces, sep) == [s[0]] + rest[0];
        } else {
          assert pieces[1..] == rest[1..];
          assert Join(rest, sep) == rest[0] + [sep] + Join(rest[1..], sep);
          assert Join(pieces, sep) == [s[0]] + rest[0] + [sep] + Join(rest[1..], sep);
        }
      }
    }
  }

  /** A piece without the separator is not split further. */
  lemma {:induction false} SplitSeparatorFree(p: string, sep: char)
    requires sep !in p
    ensures Split(p, sep) == [p]
  {
    if |p| > 0 {
      SplitSeparatorFree(p[1..], sep);
      assert [p[0]] + p[1..] == p;
    }
  }

  /** A separator-free prefix followed by the separator becomes the first piece. */
  lemma {:induction false} SplitAfterPiece(p: string, sep: char, t: string)
    requires sep !in p
    ensures Split(p + [sep] + t, sep) == [p] + Split(t, sep)
  {
    if |p| == 0 {
      assert p + [sep] + t == [sep] + t;
      assert ([sep] + t)[1..] == t;
    } else {
      SplitAfterPiece(p[1..], sep, t);
      var s := p + [sep] + t;
      assert s[0] == p[0];
      assert s[1..] == p[1..] + [sep] + t;
      assert [p[0]] + p[1..] == p;
    }
  }

  /** Joining separator-free pieces and splitting again gives back the pieces. */
  lemma {:induction false} SplitJoin(pieces: seq<string>, sep: char)
    requires |pieces| >= 1
    requires forall p <- pieces :: sep !in p
    ensures Split(Join(pieces, sep), sep) == pieces
  {
    if |pieces| == 1 {
      SplitSeparatorFree(pieces[0], sep);
    } else {
      SplitJoin(pieces[1..], sep);
      SplitAfterPiece(pieces[0], sep, Join(pieces[1..], sep));
      assert [pieces[0]] + pieces[1..] == pieces;
    }
  }

  // ---------------------------------------------------------------------------
  // strip
  // ---------------------------------------------------------------------------

  /** str.isspace() of one character: the characters Python's strip() removes. */
  predicate IsSpace(c: char)
  {
    || ('\t' <= c <= '\r')
    || ('\U{1c}' <= c <= '\U{20}')
    || c == '\U{85}' || c == '\U{a0}' || c == '\U{1680}'
    || ('\U{2000}' <= c <= '\U{200a}')
    || c == '\U{2028}' || c == '\U{2029}' || c == '\U{202f}' || c == '\U{205f}' || c == '\U{3000}'
  }

  predicate IsBlank(s: string)
  {
    forall k :: 0 <= k < |s| ==> IsSpace(s[k])
  }

  /** str.lstrip(): drops the leading whitespace only. */
  function StripLeft(s: string): (r: string)
    ensures |r| <= |s| && r == s[|s| - |r|..]
    ensures forall k :: 0 <= k < |s| - |r| ==> IsSpace(s[k])
    ensures r == [] || !IsSpace(r[0])
  {
    if |s| > 0 && IsSpace(s[0]) then StripLeft(s[1..]) else s
  }

  /** str.rstrip(): drops the trailing whitespace only. */
  function StripRight(s: string): (r: string)
    ensures |r| <= |s| && r == s[..|r|]
    ensures forall k :: |r| <= k < |s| ==> IsSpace(s[k])
    ensures r == [] || !IsSpace(r[|r| - 1])
  {
    if |s| > 0 && IsSpace(s[|s| - 1]) then StripRight(s[..|s| - 1]) else s
  }

  /** str.strip(): whitespace removed at both ends. */
  function Strip(s: string): (r: string)
    ensures |r| <= |s|
    ensures r == [] || (!IsSpace(r[0]) && !IsSpace(r[|r| - 1]))
    ensures r == [] <==> IsBlank(s)
  {
    StripRight(StripLeft(s))
  }

  /** The number of whitespace characters Strip drops at the front. */
  function LeadingSpace(s: string): nat
  {
    |s| - |StripLeft(s)|
  }

  /** What Strip keeps is a contiguous part of s, and only whitespace is dropped around it. */
  lemma StripIsSlice(s: string)
    ensures LeadingSpace(s) + |Strip(s)| <= |s|
    ensures Strip(s) == s[LeadingSpace(s)..LeadingSpace(s) + |Strip(s)|]
    ensures IsBlank(s[..LeadingSpace(s)])
    ensures IsBlank(s[LeadingSpace(s) + |Strip(s)|..])
  {
    var l := StripLeft(s);
    var r := StripRight(l);
    var lead := |s| - |l|;
    assert l == s[lead..];
    assert r == l[..|r|];
    var tail := s[lead + |r|..];
    assert tail == l[|r|..];
    forall k | 0 <= k < |tail| ensures IsSpace(tail[k]) {
      assert tail[k] == l[|r| + k];
    }
  }

  /** Strip adds no character: one absent from s is absent from Strip(s). */
  lemma StripKeepsOut(s: string, c: char)
    requires c !in s
    ensures c !in Strip(s)
  {
    StripIsSlice(s);
    SliceKeepsOut(s, LeadingSpace(s), LeadingSpace(s) + |Strip(s)|, c);
  }

  /** A slice holds no character that its string does not. */
  lemma SliceKeepsOut(s: string, i: nat, j: nat, c: char)
    requires i <= j <= |s| && c !in s
    ensures c !in s[i..j]
  {
    forall k | 0 <= k < j - i ensures s[i..j][k] != c {
      assert s[i..j][k] == s[i + k];
    }
  }

  /** A string with no whitespace at either end is left as it is. */
  lemma StripTrimmed(s: string)
    requires s != [] && !IsSpace(s[0]) && !IsSpace(s[|s| - 1])
    ensures Strip(s) == s
  {
  }

  // ---------------------------------------------------------------------------
  // upper
  // ---------------------------------------------------------------------------

  predicate IsLower(c: char)
  {
    'a' <= c <= 'z'
  }

  predicate NoLowercase(s: string)
  {
    forall k :: 0 <= k < |s| ==> !IsLower(s[k])
  }

  /** The upper-case partner of an ASCII lowercase letter; every other character is kept. */
  function UpperChar(c: char): (u: char)
    ensures !IsLower(u)
    ensures IsLower(c) ==> 'A' <= u <= 'Z' && u as int - 'A' as int == c as int - 'a' as int
    ensures !IsLower(c) ==> u == c
  {
    if IsLower(c) then (c as int - 32) as char else c
  }

  /** str.upper(), on the ASCII letters. */
  function Upper(s: string): (r: string)
    ensures |r| == |s|
    ensures NoLowercase(r)
    ensures forall k :: 0 <= k < |r| ==> r[k] == UpperChar(s[k])
    ensures forall k :: 0 <= k < |r| ==> !IsLower(s[k]) ==> r[k] == s[k]
  {
    seq(|s|, k requires 0 <= k < |s| => UpperChar(s[k]))
  }

  /** Upper-casing introduces no character other than an upper-case letter. */
  lemma UpperKeepsOut(s: string, c: char)
    requires c !in s && !('A' <= c <= 'Z')
    ensures c !in Upper(s)
  {
    forall k | 0 <= k < |s| ensures Upper(s)[k] != c {
      assert s[k] in s;
    }
  }

  // ---------------------------------------------------------------------------
  // int() and str() on integers
  // ---------------------------------------------------------------------------

  predicate IsDigit(c: char)
  {
    '0' <= c <= '9'
  }

  predicate AllDigits(s: string)
  {
    forall k :: 0 <= k < |s| ==> IsDigit(s[k])
  }

  /** The value of a string of decimal digits, most significant first. */
  function DigitsValue(s: string): nat
    requires AllDigits(s)
  {
    if |s| == 0 then 0
    else DigitsValue(s[..|s| - 1]) * 10 + (s[|s| - 1] as int - '0' as int)
  }

  /** A decimal literal: an optional sign followed by at least one digit. */
  predicate IsDecimal(s: string)
  {
    if |s| > 0 && (s[0] == '+' || s[0] == '-') then |s| > 1 && AllDigits(s[1..])
    else |s| > 0 && AllDigits(s)
  }

  /** int(s) on an already stripped token: None where Python raises ValueError. */
  function ParseInt(s: string): (r: Option<int>)
    ensures r.Some? <==> IsDecimal(s)
    ensures r.Some? ==> s != "" && ',' !in s
  {
    if |s| > 0 && (s[0] == '+' || s[0] == '-') then
      if |s| > 1 && AllDigits(s[1..]) then
        var n: int := DigitsValue(s[1..]);
        Some(if s[0] == '-' then -n else n)
      else None
    else if |s| > 0 && AllDigits(s) then Some(DigitsValue(s))
    else None
  }

  function DigitChar(d: nat): (c: char)
    requires d < 10
    ensures IsDigit(c)
  {
    ('0' as int + d) as char
  }

  /** str(n) for a natural number: its decimal digits, without leading zeros. */
  function NatToString(n: nat): (s: string)
    ensures |s| > 0 && AllDigits(s)
    ensures s[0] == '0' <==> n == 0
    ensures s[|s| - 1] == DigitChar(n % 10)
  {
    if n < 10 then [DigitChar(n)]
    else NatToString(n / 10) + [DigitChar(n % 10)]
  }

  lemma {:induction false} NatToStringValue(n: nat)
    ensures DigitsValue(NatToString(n)) == n
  {
    if n >= 10 {
      NatToStringValue(n / 10);
      var s := NatToString(n);
      assert s[..|s| - 1] == NatToString(n / 10);
    }
  }

  /** str(i) for an integer. */
  function IntToString(i: int): (s: string)
    ensures |s| > 0
    ensures forall k :: 0 <= k < |s| ==> IsDigit(s[k]) || (k == 0 && s[k] == '-')
  {
    if i < 0 then "-" + NatToString(-i) else NatToString(i)
  }

  /** int(str(i)) == i. */
  lemma ParseIntToString(i: int)
    ensures ParseInt(IntToString(i)) == Some(i)
  {
    if i < 0 {
      var digits := NatToString(-i);
      var s := "-" + digits;
      assert s[0] == '-' && s[1..] == digits;
      NatToStringValue(-i);
    } else {
      var digits := NatToString(i);
      assert IsDigit(digits[0]);
      NatToStringValue(i);
    }
  }

  /** Distinct integers print differently. */
  lemma IntToStringInjective(i: int, j: int)
    requires IntToString(i) == IntToString(j)
    ensures i == j
  {
    ParseIntToString(i);
    ParseIntToString(j);
  }

  // ---------------------------------------------------------------------------
  // prefixes, suffixes, substrings
  // ---------------------------------------------------------------------------

  predicate StartsWith(s: string, prefix: string)
  {
    |prefix| <= |s| && s[..|prefix|] == prefix
  }

  predicate EndsWith(s: string, suffix: string)
  {
    |suffix| <= |s| && s[|s| - |suffix|..] == suffix
  }

  /** Python's `pat in s` on two strings. */
  predicate Contains(s: string, pat: string)
    decreases |s|
    ensures Contains(s, pat) ==> |pat| <= |s|
  {
    StartsWith(s, pat) || (|s| > 0 && Contains(s[1..], pat))
  }

  /** `pat in s` holds exactly when pat occurs in s at some position. */
  lemma {:induction false} ContainsOccurrence(s: string, pat: string)
    ensures Contains(s, pat) <==> exists i :: 0 <= i <= |s| && StartsWith(s[i..], pat)
  {
    assert s[0..] == s;
    if |s| > 0 {
      ContainsOccurrence(s[1..], pat);
      if Contains(s[1..], pat) {
        var i :| 0 <= i <= |s| - 1 && StartsWith(s[1..][i..], pat);
        assert s[1..][i..] == s[i + 1..];
      }
      if exists i :: 0 <= i <= |s| && StartsWith(s[i..], pat) {
        var i :| 0 <= i <= |s| && StartsWith(s[i..], pat);
        if i > 0 {
          assert s[1..][i - 1..] == s[i..];
        }
      }
    } else {
      if exists i :: 0 <= i <= |s| && StartsWith(s[i..], pat) {
        var i :| 0 <= i <= |s| && StartsWith(s[i..], pat);
        assert s[i..] == s;
      }
    }
  }
}
