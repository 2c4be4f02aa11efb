/** Strings as Python sees them in this SDK: lower-casing, ordering, joining,
    substring search and the decimal rendering of integers. */
module Text {

  /** `str.lower` on one character (ASCII letters only). */
  function LowerChar(c: char): char
  {
    if 'A' <= c <= 'Z' then (c as int + 32) as char else c
  }

  predicate IsLowerChar(c: char)
  {
    !('A' <= c <= 'Z')
  }

  /** No upper-case letter anywhere in `s`. */
  predicate IsLower(s: string)
  {
    forall i :: 0 <= i < |s| ==> IsLowerChar(s[i])
  }

  /** `str.lower`: same length, every letter lower-cased, everything else kept. */
  function Lower(s: string): (r: string)
    ensures |r| == |s|
    ensures IsLower(r)
    ensures forall i :: 0 <= i < |s| && IsLowerChar(s[i]) ==> r[i] == s[i]
  {
    seq(|s|, i requires 0 <= i < |s| => LowerChar(s[i]))
  }

  /** `pandas.Index.str.lower` on a list of labels. */
  function LowerAll(names: seq<string>): (r: seq<string>)
    ensures |r| == |names|
    ensures forall i :: 0 <= i < |names| ==> r[i] == Lower(names[i])
  {
    seq(|names|, i requires 0 <= i < |names| => Lower(names[i]))
  }

  /** `names.index(n)`, or `|names|` when `n` is not there. */
  function Find(names: seq<string>, n: string): (k: nat)
    ensures k <= |names|
    ensures k < |names| ==> names[k] == n
    ensures forall j :: 0 <= j < k ==> names[j] != n
    ensures k == |names| <==> n !in names
  {
    if |names| == 0 then 0
    else if names[0] == n then 0
    else 1 + Find(names[1..], n)
  }

  lemma LowerFixesLower(s: string)
    requires IsLower(s)
    ensures Lower(s) == s
  {
  }

  lemma LowerIdempotent(s: string)
    ensures Lower(Lower(s)) == Lower(s)
  {
    LowerFixesLower(Lower(s));
  }

  lemma LowerAppend(a: string, b: string)
    ensures Lower(a + b) == Lower(a) + Lower(b)
  {
  }

  // ---------------------------------------------------------------------
  // Python's string order (code point by code point), as `dir()` sorts.

  /** `a` and `b` agree on their first `k` characters and differ first at `k`
      in favour of `b`, or `a` is a proper prefix of `b` of length `k`. */
  predicate LessAt(a: string, b: string, k: nat)
  {
    && k <= |a| && k <= |b|
    && a[..k] == b[..k]
    && ((k == |a| && k < |b|) || (k < |a| && k < |b| && a[k] < b[k]))
  }

  /** `a < b` on Python strings. */
  predicate Less(a: string, b: string)
  {
    exists k: nat | k <= |a| :: LessAt(a, b, k)
  }

  lemma LessIrreflexive(a: string)
    ensures !Less(a, a)
  {
  }

  lemma LessTransitive(a: string, b: string, c: string)
    requires Less(a, b) && Less(b, c)
    ensures Less(a, c)
  {
    var k1: nat :| k1 <= |a| && LessAt(a, b, k1);
    var k2: nat :| k2 <= |b| && LessAt(b, c, k2);
    if k1 < k2 {
      assert a[..k1] == c[..k1] by {
        assert b[..k2][..k1] == b[..k1];
        assert c[..k2][..k1] == c[..k1];
      }
      if k1 < |a| {
        assert b[k1] == c[k1] by { assert b[..k2][k1] == c[..k2][k1]; }
      }
      assert LessAt(a, c, k1);
    } else if k2 < k1 {
      assert a[..k2] == c[..k2] by {
        assert a[..k1][..k2] == a[..k2];
        assert b[..k1][..k2] == b[..k2];
      }
      assert a[k2] == b[k2] by { assert a[..k1][k2] == b[..k1][k2]; }
      assert LessAt(a, c, k2);
    } else {
      assert LessAt(a, c, k1);
    }
  }

  /** Strictly increasing: what `dir()` returns (sorted, without repetition). */
  predicate Sorted(s: seq<string>)
  {
    forall i, j :: 0 <= i < j < |s| ==> Less(s[i], s[j])
  }

  lemma SortedDistinct(s: seq<string>, i: int, j: int)
    requires Sorted(s)
    requires 0 <= i < |s| && 0 <= j < |s| && i != j
    ensures s[i] != s[j]
  {
    if i < j { LessIrreflexive(s[i]); } else { LessIrreflexive(s[j]); }
  }

  // ---------------------------------------------------------------------
  // Joining and searching.

  /** `sep.join(parts)`. */
  function Join(sep: string, parts: seq<string>): string
  {
    if |parts| == 0 then ""
    else if |parts| == 1 then parts[0]
    else parts[0] + sep + Join(sep, parts[1..])
  }

  predicate OccursAt(sub: string, s: string, i: int)
  {
    0 <= i <= |s| - |sub| && s[i..i + |sub|] == sub
  }

  /** `sub in s` on Python strings. */
  predicate IsSubstring(sub: string, s: string)
  {
    exists i | 0 <= i <= |s| - |sub| :: OccursAt(sub, s, i)
  }

  /** `'__' in s`: the test `get_methods` uses to skip private members. */
  predicate HasDunder(s: string)
  {
    exists i | 0 <= i < |s| - 1 :: s[i] == '_' && s[i + 1] == '_'
  }

  // ---------------------------------------------------------------------
  // `str(n)` / `f"{n}"` for an integer.

  function DigitChar(d: int): char
    requires 0 <= d < 10
  {
    ('0' as int + d) as char
  }

  function Digits(n: nat): string
    decreases n
  {
    if n < 10 then [DigitChar(n)] else Digits(n / 10) + [DigitChar(n % 10)]
  }

  function IntString(n: int): string
  {
    if n < 0 then "-" + Digits(-n) else Digits(n)
  }
}
