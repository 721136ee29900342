/**
 * The JavaScript string operations the exercise search relies on:
 * `String.prototype.trim`, `toLowerCase` (over ASCII), `includes`, and the
 * `length` of a string, which counts UTF-16 code units.
 */
module Text {

  /** ECMAScript WhiteSpace and LineTerminator code points: what `trim` strips. */
  predicate IsJsSpace(c: char)
  {
    var n := c as int;
    (0x09 <= n <= 0x0D) || n == 0x20 || n == 0xA0 || n == 0x1680 ||
    (0x2000 <= n <= 0x200A) || n == 0x2028 || n == 0x2029 || n == 0x202F ||
    n == 0x205F || n == 0x3000 || n == 0xFEFF
  }

  predicate AllSpace(s: string)
  {
    forall k :: 0 <= k < |s| ==> IsJsSpace(s[k])
  }

  /** Scans right from `i` past white space: the position of the first non-space at or after `i`, or `|s|`. */
  function SkipSpace(s: string, i: nat): (j: nat)
    requires i <= |s|
    ensures i <= j <= |s|
    ensures forall k :: i <= k < j ==> IsJsSpace(s[k])
    ensures j == |s| || !IsJsSpace(s[j])
    decreases |s| - i
  {
    if i < |s| && IsJsSpace(s[i]) then SkipSpace(s, i + 1) else i
  }

  /** Scans left from `j` past white space, not below `lo`: the end of the last non-space before `j`, or `lo`. */
  function SkipSpaceBack(s: string, lo: nat, j: nat): (e: nat)
    requires lo <= j <= |s|
    ensures lo <= e <= j
    ensures forall k :: e <= k < j ==> IsJsSpace(s[k])
    ensures e == lo || !IsJsSpace(s[e - 1])
    decreases j
  {
    if lo < j && IsJsSpace(s[j - 1]) then SkipSpaceBack(s, lo, j - 1) else j
  }

  /** `r` sits at position `i` of `s` with only white space before and after it. */
  predicate TrimmedAt(s: string, r: string, i: int)
  {
    OccursAt(s, r, i) && AllSpace(s[..i]) && AllSpace(s[i + |r|..])
  }

  /** `s.trim()`: `s` with its white space removed at both ends. */
  function Trim(s: string): (r: string)
    ensures exists i :: TrimmedAt(s, r, i)
    ensures r == [] || (!IsJsSpace(r[0]) && !IsJsSpace(r[|r| - 1]))
  {
    var i := SkipSpace(s, 0);
    var e := SkipSpaceBack(s, i, |s|);
    assert TrimmedAt(s, s[i..e], i);
    s[i..e]
  }

  /** `toLowerCase` on one character, for the ASCII letters only. */
  function LowerChar(c: char): char
  {
    if 'A' <= c <= 'Z' then (c as int - 'A' as int + 'a' as int) as char else c
  }

  /** `s.toLowerCase()`, character by character. */
  function ToLower(s: string): string
  {
    seq(|s|, k requires 0 <= k < |s| => LowerChar(s[k]))
  }

  /** Lower-casing a lower-cased string changes nothing. */
  lemma ToLowerIdempotent(s: string)
    ensures ToLower(ToLower(s)) == ToLower(s)
  {
    var t := ToLower(s);
    assert forall k :: 0 <= k < |s| ==> ToLower(t)[k] == LowerChar(LowerChar(s[k])) == t[k];
  }

  /** Lower-casing never turns a space into a non-space or back. */
  lemma LowerCharKeepsSpace(c: char)
    ensures IsJsSpace(LowerChar(c)) == IsJsSpace(c)
  {
  }

  lemma ToLowerSlices(s: string, i: nat, j: nat)
    requires i <= j <= |s|
    ensures ToLower(s[i..j]) == ToLower(s)[i..j]
  {
  }

  /** Lower-casing does not move where a scan past white space stops. */
  lemma {:induction false} SkipSpaceLower(s: string, i: nat)
    requires i <= |s|
    ensures SkipSpace(ToLower(s), i) == SkipSpace(s, i)
    decreases |s| - i
  {
    if i < |s| {
      LowerCharKeepsSpace(s[i]);
      SkipSpaceLower(s, i + 1);
    }
  }

  lemma {:induction false} SkipSpaceBackLower(s: string, lo: nat, j: nat)
    requires lo <= j <= |s|
    ensures SkipSpaceBack(ToLower(s), lo, j) == SkipSpaceBack(s, lo, j)
    decreases j
  {
    if lo < j {
      LowerCharKeepsSpace(s[j - 1]);
      SkipSpaceBackLower(s, lo, j - 1);
    }
  }

  /** Trimming and lower-casing commute, so `query.trim().toLowerCase()` is also the trimmed lower-cased query. */
  lemma TrimLowerCommute(s: string)
    ensures Trim(ToLower(s)) == ToLower(Trim(s))
  {
    SkipSpaceLower(s, 0);
    var i := SkipSpace(s, 0);
    SkipSpaceBackLower(s, i, |s|);
    ToLowerSlices(s, i, SkipSpaceBack(s, i, |s|));
  }

  /** `s.length`: the number of UTF-16 code units, two for a code point above U+FFFF. */
  function Utf16Length(s: string): (n: nat)
    ensures |s| <= n <= 2 * |s|
    ensures n == 0 <==> s == []
  {
    if s == [] then 0 else (if s[0] as int >= 0x1_0000 then 2 else 1) + Utf16Length(s[1..])
  }

  /** A string is shorter than two UTF-16 code units exactly when it is empty or one code point of the Basic Multilingual Plane. */
  lemma Utf16ShorterThanTwo(s: string)
    ensures Utf16Length(s) < 2 <==> s == [] || (|s| == 1 && s[0] as int < 0x1_0000)
  {
    if |s| == 1 {
      assert s[1..] == [];
    }
  }

  /** `t` occurs in `s` starting at position `i`. */
  predicate OccursAt(s: string, t: string, i: int)
  {
    0 <= i <= |s| - |t| && s[i..i + |t|] == t
  }

  /** The search of `includes` from position `i` on: `t` occurs at `i` or at a later position. */
  predicate ContainsFrom(s: string, t: string, i: nat)
    decreases |s| - i
  {
    OccursAt(s, t, i) || (i < |s| && ContainsFrom(s, t, i + 1))
  }

  /** `s.includes(t)`: tries every start position of `s` from the left. */
  predicate Contains(s: string, t: string)
  {
    ContainsFrom(s, t, 0)
  }

  lemma {:induction false} ContainsFromIff(s: string, t: string, i: nat)
    ensures ContainsFrom(s, t, i) <==> exists k :: i <= k && OccursAt(s, t, k)
    decreases |s| - i
  {
    if OccursAt(s, t, i) {
      assert i <= i && OccursAt(s, t, i);
    } else if i < |s| {
      ContainsFromIff(s, t, i + 1);
      if exists k :: i <= k && OccursAt(s, t, k) {
        var k :| i <= k && OccursAt(s, t, k);
        assert i + 1 <= k && OccursAt(s, t, k);
      }
    }
  }

  /** `Contains` holds exactly when `t` occurs in `s` at some position. */
  lemma ContainsIff(s: string, t: string)
    ensures Contains(s, t) <==> exists i :: OccursAt(s, t, i)
  {
    ContainsFromIff(s, t, 0);
    if exists i :: OccursAt(s, t, i) {
      var i :| OccursAt(s, t, i);
      assert 0 <= i && OccursAt(s, t, i);
    }
  }
}
