/**
 * String operations the app relies on: Swift's `String.contains(_:)`,
 * `lowercased()` and the decimal rendering of an `Int` inside string
 * interpolation, together with a reader for decimal numerals that serves as
 * their inverse.
 */
module Text {

  // ---------------------------------------------------------------------------
  // Substrings
  // ---------------------------------------------------------------------------

  /** `p` is a prefix of `s`, compared one character at a time. */
  predicate IsPrefix(p: string, s: string)
  {
    |p| == 0 || (|s| > 0 && p[0] == s[0] && IsPrefix(p[1..], s[1..]))
  }

  /**
   * `String.contains(_:)` on text compared code point by code point: `p`
   * occurs somewhere in `s` as a contiguous run of characters.
   */
  predicate Contains(s: string, p: string)
    decreases |s|
  {
    IsPrefix(p, s) || (|s| > 0 && Contains(s[1..], p))
  }

  /** The window of `s` of length `|p|` starting at `i` is `p`. */
  ghost predicate OccursAt(s: string, p: string, i: int)
  {
    0 <= i && i + |p| <= |s| && s[i..i + |p|] == p
  }

  lemma {:induction false} IsPrefixIsTake(p: string, s: string)
    ensures IsPrefix(p, s) <==> |p| <= |s| && s[..|p|] == p
  {
    if |p| > 0 && |s| > 0 {
      IsPrefixIsTake(p[1..], s[1..]);
      if p[0] == s[0] && |p| <= |s| {
        calc {
          s[..|p|] == p;
        <==> { assert s[..|p|] == [s[0]] + s[1..][..|p| - 1]; assert p == [p[0]] + p[1..]; }
          s[1..][..|p| - 1] == p[1..];
        }
      }
    }
  }

  /** The recursive definition agrees with the textbook one: some window of `s` equals `p`. */
  lemma {:induction false} ContainsIffOccurs(s: string, p: string)
    ensures Contains(s, p) <==> exists i :: OccursAt(s, p, i)
    decreases |s|
  {
    IsPrefixIsTake(p, s);
    if IsPrefix(p, s) {
      assert s[0..0 + |p|] == s[..|p|];
      assert OccursAt(s, p, 0);
    } else if |s| > 0 {
      ContainsIffOccurs(s[1..], p);
      if Contains(s[1..], p) {
        var i :| OccursAt(s[1..], p, i);
        assert s[1..][i..i + |p|] == s[i + 1..i + 1 + |p|];
        assert OccursAt(s, p, i + 1);
      } else {
        forall i | 0 <= i && i + |p| <= |s| ensures !OccursAt(s, p, i) {
          if i > 0 {
            assert s[1..][i - 1..i - 1 + |p|] == s[i..i + |p|];
            assert !OccursAt(s[1..], p, i - 1);
          } else {
            assert s[..|p|] == s[0..0 + |p|];
          }
        }
      }
    }
  }

  /** Any piece of an occurring pattern occurs too ("medicines" contains "medicine", "nope" contains "no"). */
  lemma ContainsPiece(s: string, p: string, lo: nat, hi: nat)
    requires lo <= hi <= |p|
    requires Contains(s, p)
    ensures Contains(s, p[lo..hi])
  {
    ContainsIffOccurs(s, p);
    var i :| OccursAt(s, p, i);
    forall k | 0 <= k < hi - lo ensures s[i + lo..i + hi][k] == p[lo..hi][k] {
      assert s[i..i + |p|][lo + k] == p[lo + k];
    }
    assert OccursAt(s, p[lo..hi], i + lo);
    ContainsIffOccurs(s, p[lo..hi]);
  }

  /** Every character of an occurring pattern is a character of the text. */
  lemma CharOfOccurrence(s: string, p: string, k: nat)
    requires k < |p|
    requires Contains(s, p)
    ensures p[k] in s
  {
    ContainsIffOccurs(s, p);
    var i :| OccursAt(s, p, i);
    assert s[i + k] == p[k];
  }

  lemma OccursInLeft(x: string, y: string, p: string, i: int)
    requires 0 <= i && i + |p| <= |x|
    ensures OccursAt(x + y, p, i) <==> OccursAt(x, p, i)
  {
    assert (x + y)[i..i + |p|] == x[i..i + |p|];
  }

  lemma OccursInRight(x: string, y: string, p: string, i: int)
    requires 0 <= i && i + |p| <= |y|
    ensures OccursAt(x + y, p, |x| + i) <==> OccursAt(y, p, i)
  {
    assert (x + y)[|x| + i..|x| + i + |p|] == y[i..i + |p|];
  }

  lemma OccursCovers(s: string, p: string, i: int, k: int)
    ensures OccursAt(s, p, i) && i <= k < i + |p| ==> s[k] in p
  {
    if OccursAt(s, p, i) && i <= k < i + |p| {
      assert s[i..i + |p|][k - i] == s[k];
    }
  }

  /** `p` occurs in `a + [c] + b` exactly when it occurs in `a` or in `b`, provided `c` is not in `p`. */
  lemma ContainsAcrossSeparator(a: string, c: char, b: string, p: string)
    requires c !in p
    ensures Contains(a + [c] + b, p) <==> Contains(a, p) || Contains(b, p)
  {
    var s := a + [c] + b;
    assert s == a + ([c] + b);
    ContainsIffOccurs(s, p);
    ContainsIffOccurs(a, p);
    ContainsIffOccurs(b, p);
    if Contains(s, p) {
      var i :| OccursAt(s, p, i);
      OccursCovers(s, p, i, |a|);
      if i + |p| <= |a| {
        OccursInLeft(a, [c] + b, p, i);
      } else if i > |a| {
        OccursInRight(a + [c], b, p, i - |a| - 1);
      }
    }
    if Contains(a, p) {
      var i :| OccursAt(a, p, i);
      OccursInLeft(a, [c] + b, p, i);
    }
    if Contains(b, p) {
      var i :| OccursAt(b, p, i);
      OccursInRight(a + [c], b, p, i);
    }
  }

  // ---------------------------------------------------------------------------
  // Lower case
  // ---------------------------------------------------------------------------

  predicate IsUpper(c: char)
  {
    'A' <= c <= 'Z'
  }

  /** The lower-case form of one character; only the letters A-Z are mapped. */
  function LowerChar(c: char): (r: char)
    ensures !IsUpper(r)
    ensures !IsUpper(c) ==> r == c
  {
    if IsUpper(c) then (c as int - 'A' as int + 'a' as int) as char else c
  }

  /** `lowercased()`, restricted to the ASCII letters. */
  function Lower(s: string): (r: string)
    ensures |r| == |s|
    ensures forall i :: 0 <= i < |s| ==> r[i] == LowerChar(s[i])
  {
    if s == [] then [] else [LowerChar(s[0])] + Lower(s[1..])
  }

  lemma LowerIdempotent(s: string)
    ensures Lower(Lower(s)) == Lower(s)
  {
  }

  lemma LowerAppend(a: string, b: string)
    ensures Lower(a + b) == Lower(a) + Lower(b)
  {
  }

  /** No character of `s[lo..hi]` lower-cases to `c`. */
  predicate LowersAvoid(s: string, lo: int, hi: int, c: char)
  {
    forall i :: lo <= i < hi && 0 <= i < |s| ==> LowerChar(s[i]) != c
  }

  /** The characters of `s` from `at` on lower-case to `p`. */
  predicate LowersToAt(s: string, at: int, p: string)
  {
    0 <= at && at + |p| <= |s| && forall j :: 0 <= j < |p| ==> LowerChar(s[at + j]) == p[j]
  }

  /** A pattern with a character that nothing in a stretch lower-cases to does not occur in that stretch of the lower-cased text. */
  lemma LowerSliceMisses(s: string, p: string, lo: int, hi: int, k: nat)
    requires 0 <= lo <= hi <= |s| && k < |p| && LowersAvoid(s, lo, hi, p[k])
    ensures !Contains(Lower(s)[lo..hi], p)
  {
    if Contains(Lower(s)[lo..hi], p) {
      CharOfOccurrence(Lower(s)[lo..hi], p, k);
    }
  }

  /** A stretch that spells a given text in lower case is that text in the lower-cased whole. */
  lemma LowerSliceSpells(s: string, at: int, p: string)
    requires LowersToAt(s, at, p)
    ensures Lower(s)[at..at + |p|] == p
  {
  }

  /** A pattern without `c` misses a stretch split at a `c` when it misses both halves. */
  lemma MissesAcross(t: string, c: char, p: string, lo: int, mid: int, hi: int)
    requires 0 <= lo <= mid < hi <= |t| && t[mid] == c && c !in p
    requires !Contains(t[lo..mid], p) && !Contains(t[mid + 1..hi], p)
    ensures !Contains(t[lo..hi], p)
  {
    assert t[lo..hi] == t[lo..mid] + [c] + t[mid + 1..hi];
    ContainsAcrossSeparator(t[lo..mid], c, t[mid + 1..hi], p);
  }

  /** A pattern found in a stretch is found in the whole text. */
  lemma FoundInSlice(t: string, p: string, at: int)
    requires 0 <= at && at + |p| <= |t| && t[at..at + |p|] == p
    ensures Contains(t, p)
  {
    ContainsIffOccurs(t, p);
    assert OccursAt(t, p, at);
  }

  /** A pattern with a character that nothing in the text lower-cases to does not occur in the lower-cased text. */
  lemma LowerMisses(s: string, p: string, k: nat)
    requires k < |p| && LowersAvoid(s, 0, |s|, p[k])
    ensures !Contains(Lower(s), p)
  {
    LowerSliceMisses(s, p, 0, |s|, k);
    assert Lower(s)[0..|s|] == Lower(s);
  }

  /** The same across one space: a pattern without spaces that misses both sides of it misses the lower-cased text. */
  lemma LowerMissesAcross(s: string, p: string, mid: int, k1: nat, k2: nat)
    requires 0 <= mid < |s| && s[mid] == ' ' && ' ' !in p
    requires k1 < |p| && LowersAvoid(s, 0, mid, p[k1]) && k2 < |p| && LowersAvoid(s, mid + 1, |s|, p[k2])
    ensures !Contains(Lower(s), p)
  {
    LowerSliceMisses(s, p, 0, mid, k1);
    LowerSliceMisses(s, p, mid + 1, |s|, k2);
    MissesAcross(Lower(s), ' ', p, 0, mid, |s|);
    assert Lower(s)[0..|s|] == Lower(s);
  }

  /** A stretch that lower-cases to the pattern is an occurrence of it in the lower-cased text. */
  lemma LowerFound(s: string, p: string, at: int)
    requires LowersToAt(s, at, p)
    ensures Contains(Lower(s), p)
  {
    LowerSliceSpells(s, at, p);
    FoundInSlice(Lower(s), p, at);
  }

  // ---------------------------------------------------------------------------
  // Decimal numerals
  // ---------------------------------------------------------------------------

  predicate IsDigit(c: char)
  {
    '0' <= c <= '9'
  }

  predicate AllDigits(s: string)
  {
    forall i :: 0 <= i < |s| ==> IsDigit(s[i])
  }

  function DigitChar(d: nat): (c: char)
    requires d < 10
    ensures IsDigit(c)
  {
    ('0' as int + d) as char
  }

  function DigitValue(c: char): (d: nat)
    requires IsDigit(c)
    ensures d < 10 && DigitChar(d) == c
  {
    c as int - '0' as int
  }

  /** The decimal rendering of a natural number, most significant digit first, without leading zeros. */
  function NatToString(n: nat): (r: string)
    ensures |r| > 0 && AllDigits(r)
    ensures |r| > 1 ==> r[0] != '0'
  {
    if n < 10 then [DigitChar(n)] else NatToString(n / 10) + [DigitChar(n % 10)]
  }

  /** The value of a string of decimal digits. */
  function ParseNat(s: string): nat
    requires AllDigits(s)
  {
    if s == [] then 0 else ParseNat(s[..|s| - 1]) * 10 + DigitValue(s[|s| - 1])
  }

  lemma {:induction false} ParseNatToString(n: nat)
    ensures ParseNat(NatToString(n)) == n
  {
    if n >= 10 {
      var r := NatToString(n);
      assert r[..|r| - 1] == NatToString(n / 10);
      ParseNatToString(n / 10);
    }
  }

  lemma NatToStringInjective(m: nat, n: nat)
    ensures NatToString(m) == NatToString(n) ==> m == n
  {
    ParseNatToString(m);
    ParseNatToString(n);
  }

  /** How `\(n)` renders an `Int`: a minus sign in front of the digits of a negative number. */
  function IntToString(i: int): (r: string)
    ensures |r| > 0
    ensures i >= 0 <==> IsDigit(r[0])
  {
    if i < 0 then "-" + NatToString(-i) else NatToString(i)
  }

  /** The length of the run of digits at the start of `s`. */
  function LeadingDigits(s: string): (k: nat)
    ensures k <= |s| && AllDigits(s[..k])
    ensures k < |s| ==> !IsDigit(s[k])
  {
    if s == [] || !IsDigit(s[0]) then 0
    else
      var k := 1 + LeadingDigits(s[1..]);
      assert s[..k] == [s[0]] + s[1..][..k - 1];
      k
  }

  lemma {:induction false} LeadingDigitsOfNumeral(d: string, t: string)
    requires AllDigits(d)
    requires t == [] || !IsDigit(t[0])
    ensures LeadingDigits(d + t) == |d|
  {
    if d != [] {
      assert (d + t)[1..] == d[1..] + t;
      LeadingDigitsOfNumeral(d[1..], t);
    }
  }
}
