/**
 * A reference reading of prompt templates as a sequence of prose, `{{name}}`
 * placeholders and `{{if_name}}...{{/if_name}}` sections.  Rendering such a
 * template gives the text the services scan; the lemmas here show that the
 * character-level scanners see exactly the placeholders and markers the
 * template was built from, which is what the template processors rely on.
 */
module Templates {
  import opened Wrappers
  import opened Strings
  import opened Tags

  /** Text without braces, or one placeholder. */
  datatype Piece = Prose(text: string) | Slot(name: string)

  /** A top-level piece, or a conditional section holding pieces. */
  datatype Seg = Plain(piece: Piece) | Cond(name: string, body: seq<Piece>)

  predicate BraceFree(s: string)
  {
    forall i :: 0 <= i < |s| ==> s[i] != '{' && s[i] != '}'
  }

  /** A placeholder name: a `\w+` word that is not itself a conditional marker. */
  predicate SlotName(x: string)
  {
    IsWord(x) && !(|x| >= 3 && x[..3] == "if_")
  }

  predicate PieceOk(p: Piece)
  {
    match p
    case Prose(t) => BraceFree(t)
    case Slot(x) => SlotName(x)
  }

  predicate PiecesOk(ps: seq<Piece>)
  {
    forall i :: 0 <= i < |ps| ==> PieceOk(ps[i])
  }

  predicate SegOk(g: Seg)
  {
    match g
    case Plain(p) => PieceOk(p)
    case Cond(n, body) => IsWord(n) && PiecesOk(body)
  }

  predicate TemplateOk(t: seq<Seg>)
  {
    forall i :: 0 <= i < |t| ==> SegOk(t[i])
  }

  function RenderPiece(p: Piece): string
  {
    match p
    case Prose(t) => t
    case Slot(x) => Braced(x)
  }

  function RenderPieces(ps: seq<Piece>): string
  {
    if |ps| == 0 then [] else RenderPiece(ps[0]) + RenderPieces(ps[1..])
  }

  function OpenMarker(n: string): string { CondTagText(CondTag(false, n)) }

  function CloseMarker(n: string): string { CondTagText(CondTag(true, n)) }

  function RenderSeg(g: Seg): string
  {
    match g
    case Plain(p) => RenderPiece(p)
    case Cond(n, body) => OpenMarker(n) + RenderPieces(body) + CloseMarker(n)
  }

  function Render(t: seq<Seg>): string
  {
    if |t| == 0 then [] else RenderSeg(t[0]) + Render(t[1..])
  }

  lemma {:induction false} InputMarkers()
    ensures OpenMarker("input") == InputOpen && CloseMarker("input") == InputClose
    ensures OpenMarker("input") == Braced("if_input")
  {
  }

  /** In a rendered piece, `{{` can only start at the first character of a placeholder. */
  lemma {:induction false} DoubleBraceOnlyAtSlot(p: Piece, rest: string, i: nat)
    requires PieceOk(p) && i < |RenderPiece(p)|
    ensures (i + 1 < |RenderPiece(p) + rest| && (RenderPiece(p) + rest)[i] == '{'
      && (RenderPiece(p) + rest)[i + 1] == '{') ==> p.Slot? && i == 0
  {
    var a := RenderPiece(p);
    assert (a + rest)[i] == a[i];
    match p
    case Prose(t) =>
      assert a[i] != '{';
    case Slot(x) =>
      if i == 1 {
        assert (a + rest)[2] == x[0] != '{';
      } else if 2 <= i < |x| + 2 {
        assert a[i] == x[i - 2] != '{';
      } else if i >= 2 {
        assert a[i] == '}';
      }
  }

  /** A pattern starting with `{{` occurs inside a rendered piece only where a placeholder starts. */
  lemma {:induction false} PatternOnlyAtSlot(p: Piece, rest: string, pat: string, i: nat)
    requires PieceOk(p) && i < |RenderPiece(p)|
    requires |pat| >= 2 && pat[0] == '{' && pat[1] == '{'
    ensures OccursAt(RenderPiece(p) + rest, pat, i) ==> p.Slot? && i == 0
  {
    var s := RenderPiece(p) + rest;
    if OccursAt(s, pat, i) {
      assert s[i..i + |pat|][0] == s[i] && s[i..i + |pat|][1] == s[i + 1];
    }
    DoubleBraceOnlyAtSlot(p, rest, i);
  }

  /** A placeholder `{{x}}` is an occurrence of `{{y}}` only when the names agree. */
  lemma {:induction false} SlotMatchesBraced(x: string, y: string, rest: string)
    requires IsWord(x) && IsWord(y)
    ensures OccursAt(Braced(x) + rest, Braced(y), 0) <==> x == y
  {
    var s := Braced(x) + rest;
    var b := Braced(y);
    if x == y {
      assert s[..|y| + 4] == b;
    } else if |x| < |y| {
      assert s[|x| + 2] == '}' != y[|x|] == b[|x| + 2];
    } else if |x| > |y| {
      assert s[|y| + 2] == x[|y|] != '}' == b[|y| + 2];
    } else {
      var k :| 0 <= k < |x| && x[k] != y[k];
      assert s[k + 2] == x[k] != y[k] == b[k + 2];
    }
  }

  /** A placeholder is never read as a closing marker. */
  lemma {:induction false} SlotIsNotClose(x: string, n: string, rest: string)
    requires IsWord(x)
    ensures !OccursAt(Braced(x) + rest, CloseMarker(n), 0)
  {
    var s := Braced(x) + rest;
    assert s[2] == x[0] != '/' == CloseMarker(n)[2];
  }

  /** A placeholder whose name does not begin with `if_` does not start with `{{if_` or `{{/if_`. */
  lemma {:induction false} SlotLacksMarkerHead(x: string, rest: string)
    requires SlotName(x)
    ensures !OccursAt(Braced(x) + rest, CondTagHead(false), 0)
    ensures !OccursAt(Braced(x) + rest, CondTagHead(true), 0)
  {
    var s := Braced(x) + rest;
    assert s[2] == x[0] != '/';
    if |x| >= 3 {
      assert s[2..5] == x[..3] != "if_";
    } else {
      assert s[|x| + 2] == '}' != "if_"[|x|];
    }
  }

  /** A placeholder is never read as a conditional marker. */
  lemma {:induction false} SlotIsNoCondTag(x: string, rest: string)
    requires SlotName(x)
    ensures CondTagAt(Braced(x) + rest).None?
  {
    SlotLacksMarkerHead(x, rest);
  }

  /** A placeholder is never read as an opening marker. */
  lemma {:induction false} SlotIsNotOpen(x: string, n: string, rest: string)
    requires SlotName(x)
    ensures !OccursAt(Braced(x) + rest, OpenMarker(n), 0)
  {
    var s := Braced(x) + rest;
    SlotLacksMarkerHead(x, rest);
    assert OpenMarker(n)[..5] == CondTagHead(false);
    if |s| >= |OpenMarker(n)| {
      assert s[..5] == s[..|OpenMarker(n)|][..5];
    }
  }

  /** Every `{{x}}` placeholder becomes the prose `v`. */
  function SubstSlot(ps: seq<Piece>, x: string, v: string): (r: seq<Piece>)
    ensures |r| == |ps|
  {
    if |ps| == 0 then []
    else [SubstPiece(ps[0], x, v)] + SubstSlot(ps[1..], x, v)
  }

  /** What `SubstSlot` makes of one piece. */
  function SubstPiece(p: Piece, x: string, v: string): Piece
  {
    if p == Slot(x) then Prose(v) else p
  }

  /** `str.replace('{{x}}', v)` on one rendered piece followed by more text. */
  lemma {:induction false} ReplaceInPiece(p: Piece, b: string, x: string, v: string)
    requires PieceOk(p) && IsWord(x)
    ensures Replace(RenderPiece(p) + b, Braced(x), v) == RenderPiece(SubstPiece(p, x, v)) + Replace(b, Braced(x), v)
  {
    var a := RenderPiece(p);
    if p == Slot(x) {
      ReplaceAtMatch(a + b, b, Braced(x), v);
    } else {
      forall i: nat | i < |a| ensures !OccursAt(a + b, Braced(x), i) {
        if OccursAt(a + b, Braced(x), i) {
          PatternOnlyAtSlot(p, b, Braced(x), i);
          SlotMatchesBraced(p.name, x, b);
        }
      }
      ReplaceSkips(a, b, Braced(x), v);
    }
  }

  lemma {:induction false} SubstSlotCons(ps: seq<Piece>, x: string, v: string)
    requires |ps| > 0
    ensures RenderPieces(SubstSlot(ps, x, v)) == RenderPiece(SubstPiece(ps[0], x, v)) + RenderPieces(SubstSlot(ps[1..], x, v))
  {
    var r := SubstSlot(ps, x, v);
    assert r[0] == SubstPiece(ps[0], x, v);
    assert r[1..] == SubstSlot(ps[1..], x, v);
  }

  /** `str.replace('{{x}}', v)` on rendered pieces replaces exactly the `{{x}}` placeholders. */
  lemma {:induction false} ReplaceRendered(ps: seq<Piece>, rest: string, x: string, v: string)
    requires PiecesOk(ps) && IsWord(x)
    ensures Replace(RenderPieces(ps) + rest, Braced(x), v)
         == RenderPieces(SubstSlot(ps, x, v)) + Replace(rest, Braced(x), v)
  {
    if |ps| == 0 {
      assert RenderPieces(ps) + rest == rest;
    } else {
      PiecesOkSplit(ps);
      ReplaceRendered(ps[1..], rest, x, v);
      RenderPiecesCons(ps, rest);
      ReplaceInPiece(ps[0], RenderPieces(ps[1..]) + rest, x, v);
      SubstSlotCons(ps, x, v);
      SeqAssoc(RenderPiece(SubstPiece(ps[0], x, v)), RenderPieces(SubstSlot(ps[1..], x, v)), Replace(rest, Braced(x), v));
    }
  }

  lemma {:induction false} PiecesOkSplit(ps: seq<Piece>)
    requires PiecesOk(ps) && |ps| > 0
    ensures PieceOk(ps[0]) && PiecesOk(ps[1..])
  {
    assert forall i :: 0 <= i < |ps[1..]| ==> ps[1..][i] == ps[i + 1];
  }

  lemma {:induction false} TemplateOkSplit(t: seq<Seg>)
    requires TemplateOk(t) && |t| > 0
    ensures SegOk(t[0]) && TemplateOk(t[1..])
  {
    assert forall i :: 0 <= i < |t[1..]| ==> t[1..][i] == t[i + 1];
  }

  lemma {:induction false} RenderPiecesAppend(xs: seq<Piece>, ys: seq<Piece>)
    ensures RenderPieces(xs + ys) == RenderPieces(xs) + RenderPieces(ys)
  {
    if |xs| == 0 {
      assert xs + ys == ys;
    } else {
      assert (xs + ys)[0] == xs[0] && (xs + ys)[1..] == xs[1..] + ys;
      RenderPiecesAppend(xs[1..], ys);
    }
  }

  lemma {:induction false} RenderPiecesSingle(p: Piece)
    ensures RenderPieces([p]) == RenderPiece(p)
  {
    assert [p][1..] == [];
    assert RenderPiece(p) + [] == RenderPiece(p);
  }

  /** A `{{(\w+)}}` match inside a rendered piece starts only at a placeholder. */
  lemma {:induction false} FieldTagOnlyAtSlot(p: Piece, rest: string, i: nat)
    requires PieceOk(p) && i < |RenderPiece(p)|
    ensures FieldTagAt((RenderPiece(p) + rest)[i..]).Some? ==> p.Slot? && i == 0
  {
    var s := RenderPiece(p) + rest;
    DoubleBraceOnlyAtSlot(p, rest, i);
    if FieldTagAt(s[i..]).Some? {
      assert s[i..][0] == s[i] && s[i..][1] == s[i + 1];
    }
  }

  /** A marker match inside a rendered piece never starts. */
  lemma {:induction false} CondTagNeverInPiece(p: Piece, rest: string, i: nat)
    requires PieceOk(p) && i < |RenderPiece(p)|
    ensures CondTagAt((RenderPiece(p) + rest)[i..]).None?
  {
    var s := RenderPiece(p) + rest;
    DoubleBraceOnlyAtSlot(p, rest, i);
    if p.Slot? && i == 0 {
      assert s[i..] == Braced(p.name) + rest;
      SlotIsNoCondTag(p.name, rest);
    } else {
      CondTagNeedsBraces(s[i..]);
      if i + 1 < |s| {
        assert s[i..][0] == s[i] && s[i..][1] == s[i + 1];
      }
    }
  }

  /** The placeholder names among `ps`, in order. */
  function SlotNames(ps: seq<Piece>): seq<string>
  {
    if |ps| == 0 then [] else PieceSlotName(ps[0]) + SlotNames(ps[1..])
  }

  /** The placeholder name of one piece, as `findall` lists it. */
  function PieceSlotName(p: Piece): seq<string>
  {
    if p.Slot? then [p.name] else []
  }

  /** `findall(r'{{(\w+)}}')` over one rendered piece reports its placeholder, if any. */
  lemma {:induction false} FieldTagsOfPiece(p: Piece, b: string)
    requires PieceOk(p)
    ensures FindFieldTags(RenderPiece(p) + b) == PieceSlotName(p) + FindFieldTags(b)
  {
    var a := RenderPiece(p);
    var s := a + b;
    match p
    case Prose(_) =>
      forall i: nat | i < |a| ensures FieldTagAt(s[i..]).None? {
        FieldTagOnlyAtSlot(p, b, i);
      }
      FindFieldTagsSkips(s, |a|);
      DropPrefix(a, b);
    case Slot(x) =>
      assert s[..|x| + 4] == a;
      FieldTagAtIff(s, x);
      DropPrefix(a, b);
      FindFieldTagsAtTag(s, x, b);
  }

  lemma {:induction false} DropPrefix<T>(a: seq<T>, b: seq<T>)
    ensures (a + b)[|a|..] == b
  {
  }

  /** Rendered pieces followed by more text, split after the first piece. */
  lemma {:induction false} RenderPiecesCons(ps: seq<Piece>, rest: string)
    requires |ps| > 0
    ensures RenderPieces(ps) + rest == RenderPiece(ps[0]) + (RenderPieces(ps[1..]) + rest)
  {
    SeqAssoc(RenderPiece(ps[0]), RenderPieces(ps[1..]), rest);
  }

  /** `findall(r'{{(\w+)}}')` over rendered pieces reports exactly their placeholders. */
  lemma {:induction false} FieldTagsOfPieces(ps: seq<Piece>, rest: string)
    requires PiecesOk(ps)
    ensures FindFieldTags(RenderPieces(ps) + rest) == SlotNames(ps) + FindFieldTags(rest)
  {
    if |ps| == 0 {
      assert RenderPieces(ps) + rest == rest;
    } else {
      PiecesOkSplit(ps);
      FieldTagsOfPieces(ps[1..], rest);
      RenderPiecesCons(ps, rest);
      FieldTagsOfPiece(ps[0], RenderPieces(ps[1..]) + rest);
      SeqAssoc(PieceSlotName(ps[0]), SlotNames(ps[1..]), FindFieldTags(rest));
    }
  }

  /** No opening or closing marker occurs inside rendered pieces. */
  lemma {:induction false} NoMarkerInPieces(ps: seq<Piece>, rest: string, m: CondTag)
    requires PiecesOk(ps)
    ensures forall i: nat :: i < |RenderPieces(ps)| ==> !OccursAt(RenderPieces(ps) + rest, CondTagText(m), i)
  {
    if |ps| > 0 {
      var p := ps[0];
      var a := RenderPiece(p);
      var b := RenderPieces(ps[1..]);
      var pat := CondTagText(m);
      PiecesOkSplit(ps);
      NoMarkerInPieces(ps[1..], rest, m);
      assert RenderPieces(ps) + rest == a + (b + rest);
      assert pat[0] == '{' && pat[1] == '{';
      forall i: nat | i < |RenderPieces(ps)| ensures !OccursAt(a + (b + rest), pat, i) {
        if i < |a| {
          PatternOnlyAtSlot(p, b + rest, pat, i);
          if p.Slot? {
            if m.closing {
              SlotIsNotClose(p.name, m.name, b + rest);
            } else {
              SlotIsNotOpen(p.name, m.name, b + rest);
            }
          }
        } else {
          OccursAfterPrefix(a, b + rest, pat, i - |a|);
        }
      }
    }
  }

  /** What `findall(r'{{(\w+)}}')` sees in a template: each placeholder, and each
      opening marker read as a tag named `if_<name>`. */
  function TagNames(t: seq<Seg>): seq<string>
  {
    if |t| == 0 then []
    else
      (match t[0]
       case Plain(p) => SlotNames([p])
       case Cond(n, body) => ["if_" + n] + SlotNames(body))
      + TagNames(t[1..])
  }

  /** A closing marker holds no `{{(\w+)}}` match. */
  lemma {:induction false} CloseMarkerHasNoFieldTag(n: string, rest: string)
    requires IsWord(n)
    ensures forall i: nat :: i < |CloseMarker(n)| ==> FieldTagAt((CloseMarker(n) + rest)[i..]).None?
  {
    var c := CloseMarker(n);
    var s := c + rest;
    forall i: nat | i < |c| ensures FieldTagAt(s[i..]).None? {
      assert s[i..][0] == c[i];
      if i == 0 {
        assert s[2..][0] == '/';
      } else if i == 1 {
        assert s[i..][1] == c[2] == '/';
      } else if i < 6 {
        assert c[i] == "{{/if_"[i];
      } else if i < |n| + 6 {
        assert c[i] == n[i - 6];
      } else {
        assert c[i] == '}';
      }
    }
  }

  /** An opening marker is read by `{{(\w+)}}` as the tag `if_<name>`. */
  lemma {:induction false} OpenMarkerIsFieldTag(n: string, rest: string)
    requires IsWord(n)
    ensures FieldTagAt(OpenMarker(n) + rest) == Some("if_" + n)
    ensures |OpenMarker(n)| == |"if_" + n| + 4
  {
    var w := "if_" + n;
    assert OpenMarker(n) == Braced(w);
    var s := OpenMarker(n) + rest;
    assert s[..|w| + 4] == Braced(w);
    assert IsWord(w) by {
      assert forall i :: 3 <= i < |w| ==> w[i] == n[i - 3];
    }
    FieldTagAtIff(s, w);
  }

  /** At a `{{(\w+)}}` match, `findall` reports the name and resumes after the match. */
  lemma {:induction false} FindFieldTagsAtTag(s: string, w: string, rest: string)
    requires FieldTagAt(s) == Some(w) && s[|w| + 4..] == rest
    ensures FindFieldTags(s) == [w] + FindFieldTags(rest)
  {
  }

  /** The tags of a section's text: the opening marker, the body's placeholders, nothing in the closing marker. */
  lemma {:induction false} FieldTagsOfSectionText(n: string, body: seq<Piece>, r: string, s: string)
    requires IsWord(n) && PiecesOk(body)
    requires s == OpenMarker(n) + (RenderPieces(body) + (CloseMarker(n) + r))
    ensures FindFieldTags(s) == ["if_" + n] + (SlotNames(body) + FindFieldTags(r))
  {
    var c := CloseMarker(n);
    var b := RenderPieces(body);
    var o := OpenMarker(n);
    var x := b + (c + r);
    OpenMarkerIsFieldTag(n, x);
    assert s[|o|..] == x;
    FindFieldTagsAtTag(s, "if_" + n, x);
    FieldTagsOfPieces(body, c + r);
    CloseMarkerHasNoFieldTag(n, r);
    FindFieldTagsSkips(c + r, |c|);
    DropPrefix(c, r);
  }

  /** One section's markers and placeholders, as `findall(r'{{(\w+)}}')` reports them. */
  lemma {:induction false} FieldTagsOfCond(n: string, body: seq<Piece>, r: string)
    requires IsWord(n) && PiecesOk(body)
    ensures FindFieldTags(RenderSeg(Cond(n, body)) + r) == ["if_" + n] + SlotNames(body) + FindFieldTags(r)
  {
    var o, b, c := OpenMarker(n), RenderPieces(body), CloseMarker(n);
    assert RenderSeg(Cond(n, body)) == o + b + c;
    SectionTextAssoc(o, b, c, r);
    FieldTagsOfSectionText(n, body, r, o + (b + (c + r)));
    SeqAssoc(["if_" + n], SlotNames(body), FindFieldTags(r));
  }

  lemma {:induction false} SectionTextAssoc(o: string, b: string, c: string, r: string)
    ensures o + b + c + r == o + (b + (c + r))
  {}

  lemma {:induction false} DropSectionText(o: string, b: string, c: string, r: string)
    ensures (o + (b + (c + r)))[|o| + |b| + |c|..] == r
  {
  }

  /** A prefix of `s` that is one longer, followed by more, splits off its last element. */
  lemma {:induction false} TakeOneMore<T>(s: seq<T>, k: nat, tail: seq<T>)
    requires 0 < k <= |s|
    ensures s[..k] + tail == s[..k - 1] + ([s[k - 1]] + tail)
  {
    assert s[..k] == s[..k - 1] + [s[k - 1]];
  }

  lemma {:induction false} SeqAssoc<T>(x: seq<T>, y: seq<T>, z: seq<T>)
    ensures x + (y + z) == x + y + z
  {}

  /** A top-level piece, as `findall(r'{{(\w+)}}')` reports it. */
  lemma {:induction false} FieldTagsOfPlain(p: Piece, r: string)
    requires PieceOk(p)
    ensures FindFieldTags(RenderSeg(Plain(p)) + r) == SlotNames([p]) + FindFieldTags(r)
  {
    assert [p][1..] == [] && RenderPieces([p]) == RenderPiece(p) + [];
    assert RenderPieces([p]) == RenderPiece(p);
    assert SlotNames([p]) == PieceSlotName(p) + SlotNames([]);
    assert PiecesOk([p]);
    FieldTagsOfPieces([p], r);
  }

  /** `findall(r'{{(\w+)}}')` over a rendered template reports exactly `TagNames`. */
  lemma {:induction false} FieldTagsOfTemplate(t: seq<Seg>)
    requires TemplateOk(t)
    ensures FindFieldTags(Render(t)) == TagNames(t)
  {
    if |t| > 0 {
      TemplateOkSplit(t);
      FieldTagsOfTemplate(t[1..]);
      match t[0]
      case Plain(p) => FieldTagsOfPlain(p, Render(t[1..]));
      case Cond(n, body) => FieldTagsOfCond(n, body, Render(t[1..]));
    }
  }

  /** The pieces left once each `{{if_input}}` section is replaced by its body (`keep`) or by nothing. */
  function FlattenInput(t: seq<Seg>, keep: bool): seq<Piece>
  {
    if |t| == 0 then [] else InputHead(t[0], keep) + FlattenInput(t[1..], keep)
  }

  function InputHead(g: Seg, keep: bool): seq<Piece>
  {
    match g
    case Plain(p) => [p]
    case Cond(_, body) => if keep then body else []
  }

  /** Every section of the template is an `{{if_input}}` section. */
  predicate InputSectionsOnly(t: seq<Seg>)
  {
    forall i :: 0 <= i < |t| ==> (t[i].Cond? ==> t[i].name == "input")
  }

  /** A top-level piece is copied by the `{{if_input}}` substitution. */
  lemma {:induction false} InputBlocksOfPlain(p: Piece, r: string, keep: bool)
    requires PieceOk(p)
    ensures SubInputBlocks(RenderSeg(Plain(p)) + r, keep) == RenderPiece(p) + SubInputBlocks(r, keep)
  {
    var a := RenderPiece(p);
    forall i: nat | i < |a| ensures !OccursAt(a + r, InputOpen, i) {
      PatternOnlyAtSlot(p, r, InputOpen, i);
      if p.Slot? {
        SlotIsNotOpen(p.name, "input", r);
      }
    }
    SubInputBlocksSkips(a, r, keep);
  }

  /** The first closing marker after a section's body is the section's own. */
  lemma {:induction false} CloseAfterBody(body: seq<Piece>, n: string, r: string)
    requires PiecesOk(body)
    ensures Find(RenderPieces(body) + (CloseMarker(n) + r), CloseMarker(n)) == Some(|RenderPieces(body)|)
  {
    var b := RenderPieces(body);
    var c := CloseMarker(n);
    NoMarkerInPieces(body, c + r, CondTag(true, n));
    OccursAfterPrefix(b, c + r, c, 0);
    assert (c + r)[..|c|] == c;
    FindFirst(b + (c + r), c, |b|);
  }

  /** An `{{if_input}}` section is replaced by its body or by nothing. */
  lemma {:induction false} InputBlocksOfCond(body: seq<Piece>, r: string, keep: bool)
    requires PiecesOk(body)
    ensures SubInputBlocks(RenderSeg(Cond("input", body)) + r, keep)
         == (if keep then RenderPieces(body) else []) + SubInputBlocks(r, keep)
  {
    var o, b, c := OpenMarker("input"), RenderPieces(body), CloseMarker("input");
    assert RenderSeg(Cond("input", body)) == o + b + c;
    SectionTextAssoc(o, b, c, r);
    InputMarkers();
    CloseAfterBody(body, "input", r);
    SubInputBlocksSection(b, r, keep, RenderSeg(Cond("input", body)) + r);
  }

  /** One segment of the `{{if_input}}` substitution. */
  lemma {:induction false} InputBlocksOfSeg(g: Seg, r: string, keep: bool)
    requires SegOk(g) && (g.Cond? ==> g.name == "input")
    ensures SubInputBlocks(RenderSeg(g) + r, keep) == RenderPieces(InputHead(g, keep)) + SubInputBlocks(r, keep)
  {
    match g
    case Plain(p) =>
      InputBlocksOfPlain(p, r, keep);
      RenderPiecesSingle(p);
    case Cond(n, body) =>
      InputBlocksOfCond(body, r, keep);
  }

  /** The `{{if_input}}` substitution keeps or drops exactly the template's sections. */
  lemma {:induction false} InputBlocksOfTemplate(t: seq<Seg>, keep: bool)
    requires TemplateOk(t) && InputSectionsOnly(t)
    ensures SubInputBlocks(Render(t), keep) == RenderPieces(FlattenInput(t, keep))
  {
    if |t| > 0 {
      TemplateOkSplit(t);
      assert InputSectionsOnly(t[1..]) by {
        assert forall i :: 0 <= i < |t[1..]| ==> t[1..][i] == t[i + 1];
      }
      InputBlocksOfTemplate(t[1..], keep);
      InputBlocksOfSeg(t[0], Render(t[1..]), keep);
      RenderPiecesAppend(InputHead(t[0], keep), FlattenInput(t[1..], keep));
    }
  }

  /** The number of sections in a template. */
  function SectionCount(t: seq<Seg>): nat
  {
    if |t| == 0 then 0 else (if t[0].Cond? then 1 else 0) + SectionCount(t[1..])
  }

  /** Rendered pieces hold no opening or closing marker to count. */
  lemma {:induction false} CountInPieces(ps: seq<Piece>, rest: string, m: CondTag)
    requires PiecesOk(ps)
    ensures Count(RenderPieces(ps) + rest, CondTagText(m)) == Count(rest, CondTagText(m))
  {
    NoMarkerInPieces(ps, rest, m);
    CountSkips(RenderPieces(ps), rest, CondTagText(m));
  }

  /** Past its first character a marker holds no `{{`. */
  lemma {:induction false} MarkerInnerHasNoDoubleBrace(m: CondTag, rest: string, pat: string)
    requires IsWord(m.name)
    requires |pat| >= 2 && pat[0] == '{' && pat[1] == '{'
    ensures forall i: nat :: 1 <= i < |CondTagText(m)| ==> !OccursAt(CondTagText(m) + rest, pat, i)
  {
    var c := CondTagText(m);
    var s := c + rest;
    var h := CondTagHead(m.closing);
    forall i: nat | 1 <= i < |c| ensures !OccursAt(s, pat, i) {
      if i + |pat| <= |s| {
        assert s[i..i + |pat|][0] == s[i] && s[i..i + |pat|][1] == s[i + 1];
        if i < |h| - 1 {
          assert s[i + 1] == h[i + 1] != '{';
        } else if i < |h| + |m.name| {
          assert s[i] == c[i];
          if i >= |h| {
            assert c[i] == m.name[i - |h|];
          } else {
            assert s[i + 1] == c[i + 1] == m.name[0];
          }
        } else {
          assert s[i] == c[i] == '}';
        }
      }
    }
  }

  /** A closing marker holds no opening marker, and an opening marker no closing marker. */
  lemma {:induction false} MarkersDistinct(n: string, rest: string)
    requires IsWord(n)
    ensures forall i: nat :: i < |CloseMarker(n)| ==> !OccursAt(CloseMarker(n) + rest, InputOpen, i)
    ensures forall i: nat :: i < |OpenMarker(n)| ==> !OccursAt(OpenMarker(n) + rest, InputClose, i)
  {
    MarkerInnerHasNoDoubleBrace(CondTag(true, n), rest, InputOpen);
    MarkerInnerHasNoDoubleBrace(CondTag(false, n), rest, InputClose);
    var s := CloseMarker(n) + rest;
    assert s[2] == '/' != InputOpen[2];
    var o := OpenMarker(n) + rest;
    assert o[2] == 'i' != InputClose[2];
  }

  /** In a template whose sections are `{{if_input}}` sections, both markers occur once per section. */
  lemma {:induction false} MarkerCountsOfTemplate(t: seq<Seg>, rest: string)
    requires TemplateOk(t) && InputSectionsOnly(t)
    ensures Count(Render(t) + rest, InputOpen) == SectionCount(t) + Count(rest, InputOpen)
    ensures Count(Render(t) + rest, InputClose) == SectionCount(t) + Count(rest, InputClose)
  {
    if |t| > 0 {
      TemplateOkSplit(t);
      assert InputSectionsOnly(t[1..]) by {
        assert forall i :: 0 <= i < |t[1..]| ==> t[1..][i] == t[i + 1];
      }
      MarkerCountsOfTemplate(t[1..], rest);
      MarkerCountsOfSeg(t[0], Render(t[1..]) + rest);
      assert Render(t) + rest == RenderSeg(t[0]) + (Render(t[1..]) + rest);
    } else {
      assert Render(t) + rest == rest;
    }
  }

  /** One segment's contribution to the marker counts. */
  lemma {:induction false} MarkerCountsOfSeg(g: Seg, r: string)
    requires SegOk(g) && (g.Cond? ==> g.name == "input")
    ensures Count(RenderSeg(g) + r, InputOpen) == (if g.Cond? then 1 else 0) + Count(r, InputOpen)
    ensures Count(RenderSeg(g) + r, InputClose) == (if g.Cond? then 1 else 0) + Count(r, InputClose)
  {
    InputMarkers();
    match g
    case Plain(p) =>
      assert RenderPieces([p]) == RenderPiece(p) + RenderPieces([]);
      assert RenderPieces([p]) == RenderPiece(p);
      assert RenderSeg(g) + r == RenderPieces([p]) + r;
      assert PiecesOk([p]);
      CountInPieces([p], r, CondTag(false, "input"));
      CountInPieces([p], r, CondTag(true, "input"));
    case Cond(n, body) =>
      var b := RenderPieces(body);
      assert RenderSeg(g) + r == InputOpen + (b + (InputClose + r));
      CountAtMatch(b + (InputClose + r), InputOpen);
      CountInPieces(body, InputClose + r, CondTag(false, "input"));
      MarkersDistinct("input", r);
      CountSkips(InputClose, r, InputOpen);
      MarkersDistinct("input", b + (InputClose + r));
      CountSkips(InputOpen, b + (InputClose + r), InputClose);
      CountInPieces(body, InputClose + r, CondTag(true, "input"));
      CountAtMatch(r, InputClose);
  }

  /** The value paired with `x`, taking the first pair that names it. */
  function Lookup(pairs: seq<(string, string)>, x: string): (r: Option<string>)
    ensures r.Some? <==> exists k :: 0 <= k < |pairs| && pairs[k].0 == x
    ensures r.Some? ==> exists k :: 0 <= k < |pairs| && pairs[k] == (x, r.value)
  {
    if |pairs| == 0 then None
    else if pairs[0].0 == x then Some(pairs[0].1)
    else
      var r := Lookup(pairs[1..], x);
      assert forall k :: 1 <= k < |pairs| ==> pairs[1..][k - 1] == pairs[k];
      r
  }

  /** A placeholder named in `pairs` becomes its value; anything else is left as it is. */
  function ResolvePiece(p: Piece, pairs: seq<(string, string)>): Piece
  {
    match p
    case Prose(_) => p
    case Slot(x) => match Lookup(pairs, x) case Some(v) => Prose(v) case None => p
  }

  function ResolvePieces(ps: seq<Piece>, pairs: seq<(string, string)>): (r: seq<Piece>)
    ensures |r| == |ps|
  {
    seq(|ps|, i requires 0 <= i < |ps| => ResolvePiece(ps[i], pairs))
  }

  /** `s = s.replace('{{name}}', value)` for each pair in turn. */
  function ReplaceEach(s: string, pairs: seq<(string, string)>): string
    decreases |pairs|
  {
    if |pairs| == 0 then s else ReplaceEach(Replace(s, Braced(pairs[0].0), pairs[0].1), pairs[1..])
  }

  lemma {:induction false} LookupCons(p: (string, string), rest: seq<(string, string)>, x: string)
    ensures Lookup([p] + rest, x) == if p.0 == x then Some(p.1) else Lookup(rest, x)
  {
    assert ([p] + rest)[1..] == rest;
  }

  predicate PairsOk(pairs: seq<(string, string)>)
  {
    forall k :: 0 <= k < |pairs| ==> IsWord(pairs[k].0) && BraceFree(pairs[k].1)
  }

  /** `SubstSlot` changes exactly the `{{x}}` placeholders. */
  lemma {:induction false} SubstSlotAt(ps: seq<Piece>, x: string, v: string)
    ensures forall i :: 0 <= i < |ps| ==> SubstSlot(ps, x, v)[i] == (if ps[i] == Slot(x) then Prose(v) else ps[i])
  {
    if |ps| > 0 {
      SubstSlotAt(ps[1..], x, v);
      var r := SubstSlot(ps, x, v);
      forall i | 1 <= i < |ps| ensures r[i] == (if ps[i] == Slot(x) then Prose(v) else ps[i]) {
        assert r[i] == SubstSlot(ps[1..], x, v)[i - 1];
      }
    }
  }

  /** Replacing placeholder after placeholder resolves each one by its first pair and keeps the others. */
  lemma {:induction false} ReplaceEachRendered(ps: seq<Piece>, pairs: seq<(string, string)>)
    requires PiecesOk(ps) && PairsOk(pairs)
    ensures ReplaceEach(RenderPieces(ps), pairs) == RenderPieces(ResolvePieces(ps, pairs))
    decreases |pairs|
  {
    if |pairs| == 0 {
      assert forall i :: 0 <= i < |ps| ==> ResolvePieces(ps, pairs)[i] == ps[i];
      assert ResolvePieces(ps, pairs) == ps;
    } else {
      var x := pairs[0].0;
      var v := pairs[0].1;
      var ps' := SubstSlot(ps, x, v);
      ReplaceRendered(ps, [], x, v);
      assert RenderPieces(ps) + [] == RenderPieces(ps);
      assert RenderPieces(ps') + Replace([], Braced(x), v) == RenderPieces(ps');
      SubstSlotAt(ps, x, v);
      assert PairsOk(pairs[1..]) by {
        assert forall k :: 0 <= k < |pairs[1..]| ==> pairs[1..][k] == pairs[k + 1];
      }
      ReplaceEachRendered(ps', pairs[1..]);
      forall i | 0 <= i < |ps| ensures ResolvePieces(ps', pairs[1..])[i] == ResolvePieces(ps, pairs)[i] {
        if ps[i].Slot? && ps[i].name != x {
          assert Lookup(pairs, ps[i].name) == Lookup(pairs[1..], ps[i].name);
        }
      }
      assert ResolvePieces(ps', pairs[1..]) == ResolvePieces(ps, pairs);
    }
  }
}
