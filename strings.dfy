/**
 * The Python string primitives the template code relies on:
 * `str.isspace`, `str.strip`, `str.replace` and `str.count`
 * (which is what `len(re.findall(literal, s))` computes for a literal).
 */
module Strings {
  import opened Wrappers

  /** Python's `str.isspace` on one character. */
  predicate IsSpace(c: char)
  {
    (9 <= c as int <= 13) || (28 <= c as int <= 32) || c as int == 0x85 || c as int == 0xA0
    || c as int == 0x1680 || (0x2000 <= c as int <= 0x200A) || c as int == 0x2028
    || c as int == 0x2029 || c as int == 0x202F || c as int == 0x205F || c as int == 0x3000
  }

  /** The string is empty after `strip()`, i.e. Python finds `s.strip()` falsy. */
  predicate IsBlank(s: string)
  {
    forall i :: 0 <= i < |s| ==> IsSpace(s[i])
  }

  /** `s.lstrip()`: drops the longest all-whitespace prefix. */
  function StripStart(s: string): (r: string)
    ensures |r| <= |s|
    ensures forall i :: 0 <= i < |r| ==> r[i] == s[|s| - |r| + i]
    ensures r == [] || !IsSpace(r[0])
    ensures forall i :: 0 <= i < |s| - |r| ==> IsSpace(s[i])
  {
    if |s| > 0 && IsSpace(s[0]) then StripStart(s[1..]) else s
  }

  /** `s.rstrip()`: drops the longest all-whitespace suffix. */
  function StripEnd(s: string): (r: string)
    ensures |r| <= |s| && r == s[..|r|]
    ensures r == [] || !IsSpace(r[|r| - 1])
    ensures forall i :: |r| <= i < |s| ==> IsSpace(s[i])
  {
    if |s| > 0 && IsSpace(s[|s| - 1]) then StripEnd(s[..|s| - 1]) else s
  }

  /** `s.strip()`. */
  function Strip(s: string): string
  {
    StripEnd(StripStart(s))
  }

  /** What `strip()` leaves neither starts nor ends with whitespace. */
  lemma {:induction false} StripTrimsBothEnds(s: string)
    ensures Strip(s) == [] || (!IsSpace(Strip(s)[0]) && !IsSpace(Strip(s)[|Strip(s)| - 1]))
  {
    var a := StripStart(s);
    var b := StripEnd(a);
    if b != [] {
      assert b[0] == a[0];
    }
  }

  /** `s.strip()` is empty exactly when `s` is blank. */
  lemma {:induction false} StripEmptyIffBlank(s: string)
    ensures Strip(s) == [] <==> IsBlank(s)
  {
    var a := StripStart(s);
    if a != [] {
      assert !IsSpace(s[|s| - |a|]);
      assert !IsSpace(a[0]);
    }
  }

  /** Stripping twice changes nothing more. */
  lemma {:induction false} StripIdempotent(s: string)
    ensures Strip(Strip(s)) == Strip(s)
  {
    var r := Strip(s);
    StripTrimsBothEnds(s);
    if r != [] {
      assert StripStart(r) == r;
      assert StripEnd(r) == r;
    }
  }

  /** `pat` occurs in `s` starting at index `i`. */
  predicate OccursAt(s: string, pat: string, i: nat)
  {
    i + |pat| <= |s| && s[i..i + |pat|] == pat
  }

  /** `pat` occurs somewhere in `s` (Python's `pat in s`). */
  predicate Contains(s: string, pat: string)
  {
    exists i :: 0 <= i <= |s| && OccursAt(s, pat, i)
  }

  /** `s.replace(pat, rep)`: left-to-right, non-overlapping; an empty
      `pat` inserts `rep` before every character and at the end. */
  function Replace(s: string, pat: string, rep: string): string
    decreases |s|
  {
    if |pat| == 0 then
      (if |s| == 0 then rep else rep + [s[0]] + Replace(s[1..], pat, rep))
    else if |s| < |pat| then s
    else if s[..|pat|] == pat then rep + Replace(s[|pat|..], pat, rep)
    else [s[0]] + Replace(s[1..], pat, rep)
  }

  /** `s.count(pat)` for a non-empty `pat`: non-overlapping occurrences,
      found left to right. */
  function Count(s: string, pat: string): nat
    requires |pat| > 0
    decreases |s|
  {
    if |s| < |pat| then 0
    else if s[..|pat|] == pat then 1 + Count(s[|pat|..], pat)
    else Count(s[1..], pat)
  }

  /** When no occurrence of `pat` starts inside `a`, replacing in `a + rest`
      copies `a` and continues in `rest`. */
  lemma {:induction false} ReplaceSkips(a: string, rest: string, pat: string, rep: string)
    requires |pat| > 0
    requires forall i: nat :: i < |a| ==> !OccursAt(a + rest, pat, i)
    ensures Replace(a + rest, pat, rep) == a + Replace(rest, pat, rep)
  {
    if |a| > 0 {
      var s := a + rest;
      assert !OccursAt(s, pat, 0);
      if |s| >= |pat| {
        assert s[..|pat|] != pat;
      }
      assert s[1..] == a[1..] + rest;
      forall i: nat | i < |a[1..]| ensures !OccursAt(a[1..] + rest, pat, i) {
        assert !OccursAt(s, pat, i + 1);
        if i + |pat| <= |a[1..] + rest| {
          assert (a[1..] + rest)[i..i + |pat|] == s[i + 1..i + 1 + |pat|];
        }
      }
      ReplaceSkips(a[1..], rest, pat, rep);
      if |s| < |pat| {
        ReplaceShort(rest, pat, rep);
        ReplaceShort(a[1..] + rest, pat, rep);
      } else {
        var tail := Replace(rest, pat, rep);
        assert Replace(s, pat, rep) == [s[0]] + (a[1..] + tail);
        assert [s[0]] + (a[1..] + tail) == ([s[0]] + a[1..]) + tail;
        assert [s[0]] + a[1..] == a;
      }
    } else {
      assert a + rest == rest;
    }
  }

  /** A string shorter than a non-empty pattern is left unchanged. */
  lemma {:induction false} ReplaceShort(s: string, pat: string, rep: string)
    requires 0 < |pat| && |s| < |pat|
    ensures Replace(s, pat, rep) == s
  {
  }

  /** When `pat` starts `s`, the replacement is emitted and scanning resumes after it. */
  lemma {:induction false} ReplaceAtMatch(s: string, rest: string, pat: string, rep: string)
    requires |pat| > 0
    ensures Replace(pat + rest, pat, rep) == rep + Replace(rest, pat, rep)
  {
    assert (pat + rest)[..|pat|] == pat;
    assert (pat + rest)[|pat|..] == rest;
  }

  /** Where `pat` does not occur, `replace` is the identity. */
  lemma {:induction false} ReplaceAbsent(s: string, pat: string, rep: string)
    requires |pat| > 0
    requires !Contains(s, pat)
    ensures Replace(s, pat, rep) == s
  {
    forall i: nat | i < |s| ensures !OccursAt(s + [], pat, i) {
      assert s + [] == s;
    }
    ReplaceSkips(s, [], pat, rep);
    assert s + [] == s;
  }

  /** Replacing a pattern by itself is the identity. */
  lemma {:induction false} ReplaceSelf(s: string, pat: string)
    ensures Replace(s, pat, pat) == s
    decreases |s|
  {
    if |pat| == 0 {
      if |s| > 0 {
        ReplaceSelf(s[1..], pat);
        assert s == [s[0]] + s[1..];
      }
    } else if |s| < |pat| {
    } else if s[..|pat|] == pat {
      ReplaceSelf(s[|pat|..], pat);
      assert s == s[..|pat|] + s[|pat|..];
    } else {
      ReplaceSelf(s[1..], pat);
      assert s == [s[0]] + s[1..];
    }
  }

  /** Occurrences in `s[1..]` are the occurrences in `s` shifted by one. */
  /** The slices of a text laid out as `o`, then `b`, then `c`, then `r`. */
  lemma {:induction false} SectionSlices(o: string, b: string, c: string, r: string, s: string)
    requires s == o + (b + (c + r))
    ensures OccursAt(s, o, 0)
    ensures s[|o|..] == b + (c + r)
    ensures s[|o|..|o| + |b|] == b
    ensures s[|o| + |b| + |c|..] == r
  {
    assert s[..|o|] == o;
    assert s[|o|..] == b + (c + r);
    assert s[|o| + |b|..] == c + r;
  }

  lemma {:induction false} OccursShift(s: string, pat: string, i: nat)
    requires |s| > 0
    ensures OccursAt(s, pat, i + 1) <==> OccursAt(s[1..], pat, i)
  {
    if i + 1 + |pat| <= |s| {
      assert s[1..][i..i + |pat|] == s[i + 1..i + 1 + |pat|];
    }
  }

  /** `str.count` finds nothing exactly when the pattern does not occur. */
  lemma {:induction false} CountZeroIffAbsent(s: string, pat: string)
    requires |pat| > 0
    ensures Count(s, pat) == 0 <==> !Contains(s, pat)
    decreases |s|
  {
    if |s| < |pat| {
    } else if s[..|pat|] == pat {
      assert OccursAt(s, pat, 0);
    } else {
      CountZeroIffAbsent(s[1..], pat);
      if Contains(s, pat) {
        var i :| 0 <= i <= |s| && OccursAt(s, pat, i);
        assert i > 0;
        OccursShift(s, pat, i - 1);
        assert OccursAt(s[1..], pat, i - 1);
      }
      if Contains(s[1..], pat) {
        var i :| 0 <= i <= |s[1..]| && OccursAt(s[1..], pat, i);
        OccursShift(s, pat, i);
        assert OccursAt(s, pat, i + 1);
      }
    }
  }

  /** The first index at which `pat` occurs in `s` (`s.find(pat)`, with `None` for -1). */
  function Find(s: string, pat: string): (r: Option<nat>)
    ensures r.Some? ==> r.value + |pat| <= |s|
    decreases |s|
  {
    if |s| < |pat| then None
    else if s[..|pat|] == pat then Some(0)
    else
      var r := Find(s[1..], pat);
      if r.Some? then Some(r.value + 1) else None
  }

  /** Occurrences past a prefix `a` are the occurrences in what follows it. */
  lemma {:induction false} OccursAfterPrefix(a: string, t: string, pat: string, j: nat)
    ensures OccursAt(a + t, pat, |a| + j) <==> OccursAt(t, pat, j)
  {
    if |a| + j + |pat| <= |a + t| {
      assert (a + t)[|a| + j..|a| + j + |pat|] == t[j..j + |pat|];
    }
  }

  /** An occurrence with none before it is the one `Find` reports. */
  lemma {:induction false} FindFirst(s: string, pat: string, j: nat)
    requires OccursAt(s, pat, j)
    requires forall k: nat :: k < j ==> !OccursAt(s, pat, k)
    ensures Find(s, pat) == Some(j)
    decreases j
  {
    if j > 0 {
      assert !OccursAt(s, pat, 0);
      OccursShift(s, pat, j - 1);
      forall k: nat | k < j - 1 ensures !OccursAt(s[1..], pat, k) {
        OccursShift(s, pat, k);
      }
      FindFirst(s[1..], pat, j - 1);
    }
  }

  /** When no occurrence of `pat` starts inside `a`, counting in `a + rest` counts in `rest`. */
  lemma {:induction false} CountSkips(a: string, rest: string, pat: string)
    requires |pat| > 0
    requires forall i: nat :: i < |a| ==> !OccursAt(a + rest, pat, i)
    ensures Count(a + rest, pat) == Count(rest, pat)
    decreases |a|
  {
    if |a| > 0 {
      var s := a + rest;
      assert !OccursAt(s, pat, 0);
      assert s[1..] == a[1..] + rest;
      forall i: nat | i < |a[1..]| ensures !OccursAt(a[1..] + rest, pat, i) {
        OccursShift(s, pat, i);
      }
      CountSkips(a[1..], rest, pat);
      if |s| < |pat| {
        assert Count(rest, pat) == 0 && Count(a[1..] + rest, pat) == 0;
      }
    } else {
      assert a + rest == rest;
    }
  }

  /** An occurrence at the start is counted and scanning resumes after it. */
  lemma {:induction false} CountAtMatch(rest: string, pat: string)
    requires |pat| > 0
    ensures Count(pat + rest, pat) == 1 + Count(rest, pat)
  {
    assert (pat + rest)[..|pat|] == pat;
    assert (pat + rest)[|pat|..] == rest;
  }

  /** `str(n)` for a natural number: its decimal digits. */
  function Decimal(n: nat): string
  {
    if n < 10 then ["0123456789"[n]] else Decimal(n / 10) + ["0123456789"[n % 10]]
  }
}
