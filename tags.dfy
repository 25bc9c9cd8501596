/**
 * The regular expressions the template code scans with, written out as
 * left-to-right scanners with Python's `re` semantics (leftmost match,
 * scanning resumes after each match, `\w` read as ASCII `[A-Za-z0-9_]`).
 */
module Tags {
  import opened Wrappers
  import opened Strings

  /** `\w` */
  predicate IsWordChar(c: char)
  {
    ('a' <= c <= 'z') || ('A' <= c <= 'Z') || ('0' <= c <= '9') || c == '_'
  }

  /** A complete `\w+` match. */
  predicate IsWord(w: string)
  {
    |w| > 0 && forall i :: 0 <= i < |w| ==> IsWordChar(w[i])
  }

  /** Length of the longest `\w*` run at the start of `s`. */
  function WordRun(s: string): (n: nat)
    ensures n <= |s|
    ensures forall i :: 0 <= i < n ==> IsWordChar(s[i])
    ensures n == |s| || !IsWordChar(s[n])
  {
    if |s| > 0 && IsWordChar(s[0]) then 1 + WordRun(s[1..]) else 0
  }

  /** `{{w}}` */
  function Braced(w: string): string
  {
    "{{" + w + "}}"
  }

  /** The pattern `{{(\w+)}}` tried at the start of `s`; `Some(w)` is the captured name. */
  function FieldTagAt(s: string): (r: Option<string>)
    ensures r.Some? ==> IsWord(r.value) && OccursAt(s, Braced(r.value), 0)
  {
    if |s| >= 2 && s[0] == '{' && s[1] == '{' then
      var n := WordRun(s[2..]);
      if n > 0 && n + 4 <= |s| && s[n + 2] == '}' && s[n + 3] == '}' then
        assert s[..n + 4] == Braced(s[2..n + 2]);
        Some(s[2..n + 2])
      else None
    else None
  }

  /** `{{(\w+)}}` matches at the start of `s` with name `w` exactly when `s` starts with `{{w}}`. */
  lemma {:induction false} FieldTagAtIff(s: string, w: string)
    requires IsWord(w)
    ensures FieldTagAt(s) == Some(w) <==> OccursAt(s, Braced(w), 0)
  {
    if OccursAt(s, Braced(w), 0) {
      var b := Braced(w);
      assert s[..|w| + 4] == b;
      forall i | 0 <= i < |w| ensures s[i + 2] == w[i] {
        assert s[i + 2] == s[..|w| + 4][i + 2] == b[i + 2];
      }
      var t := s[2..];
      assert t[|w|] == s[..|w| + 4][|w| + 2] == '}';
      forall i | 0 <= i < |w| ensures IsWordChar(t[i]) {
        assert t[i] == s[i + 2];
      }
      WordRunExact(t, |w|);
      assert s[2..|w| + 2] == w by {
        forall i | 0 <= i < |w| ensures s[2..|w| + 2][i] == w[i] {
          assert s[2..|w| + 2][i] == s[i + 2];
        }
      }
    }
  }

  /** A `\w*` run ends exactly where the first non-word character stands. */
  lemma {:induction false} WordRunExact(s: string, n: nat)
    requires n <= |s|
    requires forall i :: 0 <= i < n ==> IsWordChar(s[i])
    requires n == |s| || !IsWordChar(s[n])
    ensures WordRun(s) == n
  {
  }

  /** `re.findall(r'{{(\w+)}}', s)`. */
  function FindFieldTags(s: string): (r: seq<string>)
    ensures forall i :: 0 <= i < |r| ==> IsWord(r[i])
    decreases |s|
  {
    if |s| == 0 then []
    else match FieldTagAt(s)
      case Some(w) => [w] + FindFieldTags(s[|w| + 4..])
      case None => FindFieldTags(s[1..])
  }

  /** Opening and closing markers of the `{{if_input}}` sections. */
  const InputOpen: string := "{{if_input}}"
  const InputClose: string := "{{/if_input}}"

  /**
   * `re.sub(r'{{if_input}}(.*?){{/if_input}}', r'\1', s, flags=re.DOTALL)` when `keep`,
   * and the same pattern replaced by `''` otherwise: each opening marker that has a
   * closing marker after it, together with the nearest such closing marker, delimits
   * one section.
   */
  function SubInputBlocks(s: string, keep: bool): string
    decreases |s|
  {
    if |s| == 0 then []
    else if OccursAt(s, InputOpen, 0) && Find(s[|InputOpen|..], InputClose).Some? then
      var j := Find(s[|InputOpen|..], InputClose).value;
      (if keep then s[|InputOpen|..|InputOpen| + j] else [])
        + SubInputBlocks(s[|InputOpen| + j + |InputClose|..], keep)
    else [s[0]] + SubInputBlocks(s[1..], keep)
  }

  /** One match of `{{(?:/)?if_(\w+)}}`: a conditional marker, opening or closing. */
  datatype CondTag = CondTag(closing: bool, name: string)

  /** The opening part of a marker, up to its name. */
  function CondTagHead(closing: bool): string
  {
    if closing then "{{/if_" else "{{if_"
  }

  /** The marker's text. */
  function CondTagText(t: CondTag): string
  {
    CondTagHead(t.closing) + t.name + "}}"
  }

  /** `(\w+)}}` tried at the start of `u`: the name. */
  function NameThenBraces(u: string): (r: Option<string>)
    ensures r.Some? ==> IsWord(r.value) && OccursAt(u, r.value + "}}", 0)
  {
    var n := WordRun(u);
    if n > 0 && n + 2 <= |u| && u[n] == '}' && u[n + 1] == '}' then
      assert u[..n + 2] == u[..n] + "}}";
      Some(u[..n])
    else None
  }

  /** Two adjacent occurrences make one occurrence of the concatenation. */
  lemma {:induction false} OccursConcat(s: string, a: string, b: string)
    requires OccursAt(s, a, 0) && OccursAt(s[|a|..], b, 0)
    ensures OccursAt(s, a + b, 0)
  {
    assert s[..|a| + |b|] == s[..|a|] + s[|a|..][..|b|];
  }

  /** The pattern `{{(?:/)?if_(\w+)}}` tried at the start of `s`: the marker and its length. */
  function CondTagAt(s: string): (r: Option<(CondTag, nat)>)
    ensures r.Some? ==> IsWord(r.value.0.name) && 0 < r.value.1 == |CondTagText(r.value.0)| <= |s|
  {
    var closing := OccursAt(s, CondTagHead(true), 0);
    if closing || OccursAt(s, CondTagHead(false), 0) then
      var h := CondTagHead(closing);
      match NameThenBraces(s[|h|..])
      case Some(w) =>
        OccursConcat(s, h, w + "}}");
        assert h + (w + "}}") == CondTagText(CondTag(closing, w));
        Some((CondTag(closing, w), |h| + |w| + 2))
      case None => None
    else None
  }

  /** A marker read at the start of `s` is spelled out there. */
  lemma {:induction false} CondTagAtOccurs(s: string)
    ensures CondTagAt(s).Some? ==> OccursAt(s, CondTagText(CondTagAt(s).value.0), 0)
  {
    var closing := OccursAt(s, CondTagHead(true), 0);
    if CondTagAt(s).Some? {
      var h := CondTagHead(closing);
      var w := NameThenBraces(s[|h|..]).value;
      OccursConcat(s, h, w + "}}");
      assert h + (w + "}}") == CondTagText(CondTag(closing, w));
    }
  }

  /** `re.finditer(r'{{(?:/)?if_(\w+)}}', s)`, in order. */
  function FindCondTags(s: string): (r: seq<CondTag>)
    ensures forall i :: 0 <= i < |r| ==> IsWord(r[i].name)
    decreases |s|
  {
    if |s| == 0 then []
    else match CondTagAt(s)
      case Some((t, len)) => [t] + FindCondTags(s[len..])
      case None => FindCondTags(s[1..])
  }

  /** Where no `{{(\w+)}}` match starts, `findall` moves on by one character. */
  lemma {:induction false} FindFieldTagsStep(s: string)
    requires |s| > 0 && FieldTagAt(s).None?
    ensures FindFieldTags(s) == FindFieldTags(s[1..])
  {
  }

  /** The first `k` positions, where no `{{(\w+)}}` match starts, are skipped by `findall`. */
  lemma {:induction false} FindFieldTagsSkips(s: string, k: nat)
    requires k <= |s|
    requires forall i: nat :: i < k ==> FieldTagAt(s[i..]).None?
    ensures FindFieldTags(s) == FindFieldTags(s[k..])
    decreases k
  {
    if k > 0 {
      var t := s[1..];
      assert s[0..] == s;
      FindFieldTagsStep(s);
      forall i: nat | i < k - 1 ensures FieldTagAt(t[i..]).None? {
        assert t[i..] == s[i + 1..];
      }
      FindFieldTagsSkips(t, k - 1);
      assert t[k - 1..] == s[k..];
    }
  }

  /** Where no section opens, the substitution copies one character and moves on. */
  lemma {:induction false} SubInputBlocksCopies(s: string, keep: bool)
    requires |s| > 0 && !OccursAt(s, InputOpen, 0)
    ensures SubInputBlocks(s, keep) == [s[0]] + SubInputBlocks(s[1..], keep)
  {
  }

  /** Positions where no `{{if_input}}` starts are copied by the section substitution. */
  lemma {:induction false} SubInputBlocksSkips(a: string, rest: string, keep: bool)
    requires forall i: nat :: i < |a| ==> !OccursAt(a + rest, InputOpen, i)
    ensures SubInputBlocks(a + rest, keep) == a + SubInputBlocks(rest, keep)
    decreases |a|
  {
    if |a| > 0 {
      var s := a + rest;
      SubInputBlocksCopies(s, keep);
      assert s[1..] == a[1..] + rest;
      forall i: nat | i < |a[1..]| ensures !OccursAt(a[1..] + rest, InputOpen, i) {
        OccursShift(s, InputOpen, i);
      }
      SubInputBlocksSkips(a[1..], rest, keep);
      assert s[0] == a[0];
      assert a + SubInputBlocks(rest, keep) == [a[0]] + (a[1..] + SubInputBlocks(rest, keep));
    } else {
      assert a + rest == rest;
    }
  }

  /** Every marker starts with `{{`. */
  lemma {:induction false} CondTagNeedsBraces(s: string)
    ensures CondTagAt(s).Some? ==> |s| >= 2 && s[0] == '{' && s[1] == '{'
  {
    if CondTagAt(s).Some? {
      CondTagAtOccurs(s);
      var t := CondTagAt(s).value.0;
      assert s[..|CondTagText(t)|][0] == CondTagText(t)[0];
      assert s[..|CondTagText(t)|][1] == CondTagText(t)[1];
    }
  }

  /** A section that opens at the start and closes `j` characters after its opening marker. */
  lemma {:induction false} SubInputBlocksAtSection(s: string, keep: bool, j: nat)
    requires OccursAt(s, InputOpen, 0) && Find(s[|InputOpen|..], InputClose) == Some(j)
    ensures |InputOpen| + j + |InputClose| <= |s|
    ensures SubInputBlocks(s, keep)
         == (if keep then s[|InputOpen|..|InputOpen| + j] else [])
            + SubInputBlocks(s[|InputOpen| + j + |InputClose|..], keep)
  {
  }

  /** A section whose body holds no closing marker is replaced by its body or by nothing. */
  lemma {:induction false} SubInputBlocksSection(b: string, r: string, keep: bool, s: string)
    requires s == InputOpen + (b + (InputClose + r))
    requires Find(b + (InputClose + r), InputClose) == Some(|b|)
    ensures SubInputBlocks(s, keep) == (if keep then b else []) + SubInputBlocks(r, keep)
  {
    SectionSlices(InputOpen, b, InputClose, r, s);
    SubInputBlocksAtSection(s, keep, |b|);
  }
}
