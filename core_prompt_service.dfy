/**
 * The prompt processor of the `core` package: checks that conditional markers
 * nest, resolves `{{char}}`/`{{user}}`, keeps or drops each
 * `{{if_X}}...{{/if_X}}` block, and turns every `{{field}}` into the field's
 * value or into a `[field]` placeholder while recording which fields were
 * used or missing. The error handler it reports to is not part of this model.
 */
module CorePromptService {
  import opened Wrappers
  import opened Strings
  import opened Tags
  import T = Templates
  import opened CorePromptModels

  // ------------------------------------------------------------ tag nesting

  datatype TagError = UnexpectedClosingTag | MismatchedConditionalTags | UnclosedConditionalBlock

  function TagErrorMessage(e: TagError): string
  {
    match e
    case UnexpectedClosingTag => "Unexpected closing tag"
    case MismatchedConditionalTags => "Mismatched conditional tags"
    case UnclosedConditionalBlock => "Unclosed conditional block"
  }

  /** The stack scan over the markers, with `stack` holding the names still open. */
  function CheckNesting(tags: seq<CondTag>, stack: seq<string>): Result<(), TagError>
    decreases |tags|
  {
    if |tags| == 0 then (if |stack| == 0 then Success(()) else Failure(UnclosedConditionalBlock))
    else if tags[0].closing then
      if |stack| == 0 then Failure(UnexpectedClosingTag)
      else if stack[|stack| - 1] != tags[0].name then Failure(MismatchedConditionalTags)
      else CheckNesting(tags[1..], stack[..|stack| - 1])
    else CheckNesting(tags[1..], stack + [tags[0].name])
  }

  /** `_validate_conditional_tags`: scans the markers in order with a stack of open names. */
  method ValidateConditionalTags(content: string) returns (r: Result<(), TagError>)
    ensures r == CheckNesting(FindCondTags(content), [])
  {
    var tags := FindCondTags(content);
    var stack: seq<string> := [];
    var i := 0;
    while i < |tags|
      invariant 0 <= i <= |tags|
      invariant CheckNesting(tags[i..], stack) == CheckNesting(tags, [])
    {
      var tag := tags[i];
      assert tags[i..][1..] == tags[i + 1..];
      if tag.closing {
        if |stack| == 0 {
          return Failure(UnexpectedClosingTag);
        }
        if stack[|stack| - 1] != tag.name {
          return Failure(MismatchedConditionalTags);
        }
        stack := stack[..|stack| - 1];
      } else {
        stack := stack + [tag.name];
      }
      i := i + 1;
    }
    if |stack| > 0 {
      return Failure(UnclosedConditionalBlock);
    }
    return Success(());
  }

  /** A well-nested arrangement of conditional blocks: each block a name and the blocks inside it. */
  datatype Block = Block(name: string, inner: seq<Block>)

  /** The markers of a forest of blocks, in text order. */
  function Markers(bs: seq<Block>): seq<CondTag>
    decreases bs
  {
    if |bs| == 0 then []
    else [CondTag(false, bs[0].name)] + Markers(bs[0].inner) + [CondTag(true, bs[0].name)] + Markers(bs[1..])
  }

  /** The markers of well-nested blocks pass the scan and leave the stack as it was. */
  lemma {:induction false} NestedMarkersPass(bs: seq<Block>, rest: seq<CondTag>, stack: seq<string>)
    ensures CheckNesting(Markers(bs) + rest, stack) == CheckNesting(rest, stack)
    decreases bs
  {
    if |bs| > 0 {
      var b := bs[0];
      var open := CondTag(false, b.name);
      var close := CondTag(true, b.name);
      var tail := Markers(bs[1..]) + rest;
      assert Markers(bs) + rest == [open] + (Markers(b.inner) + ([close] + tail));
      NestedMarkersPass(b.inner, [close] + tail, stack + [b.name]);
      assert ([close] + tail)[1..] == tail;
      assert (stack + [b.name])[..|stack|] == stack;
      NestedMarkersPass(bs[1..], rest, stack);
    } else {
      assert Markers(bs) + rest == rest;
    }
  }

  /** Well-nested blocks are accepted. */
  lemma {:induction false} NestedBlocksAccepted(bs: seq<Block>)
    ensures CheckNesting(Markers(bs), []) == Success(())
  {
    NestedMarkersPass(bs, [], []);
    assert Markers(bs) + [] == Markers(bs);
  }

  /** Well-nested blocks followed by a stray closing marker are refused as an unexpected closing tag. */
  lemma {:induction false} StrayCloseRejected(bs: seq<Block>, n: string, rest: seq<CondTag>)
    ensures CheckNesting(Markers(bs) + [CondTag(true, n)] + rest, []) == Failure(UnexpectedClosingTag)
  {
    NestedMarkersPass(bs, [CondTag(true, n)] + rest, []);
    assert Markers(bs) + [CondTag(true, n)] + rest == Markers(bs) + ([CondTag(true, n)] + rest);
  }

  /** A block opened for one name and closed for another is refused as mismatched. */
  lemma {:induction false} CrossedCloseRejected(n: string, m: string, bs: seq<Block>, rest: seq<CondTag>)
    requires n != m
    ensures CheckNesting([CondTag(false, n)] + Markers(bs) + [CondTag(true, m)] + rest, [])
         == Failure(MismatchedConditionalTags)
  {
    var s := [CondTag(false, n)] + Markers(bs) + [CondTag(true, m)] + rest;
    assert s[1..] == Markers(bs) + ([CondTag(true, m)] + rest);
    assert [] + [n] == [n];
    assert CheckNesting(s, []) == CheckNesting(s[1..], [n]);
    NestedMarkersPass(bs, [CondTag(true, m)] + rest, [n]);
  }

  /** An opening marker followed by well-nested blocks only is refused as unclosed. */
  lemma {:induction false} OpenLeftRejected(n: string, bs: seq<Block>)
    ensures CheckNesting([CondTag(false, n)] + Markers(bs), []) == Failure(UnclosedConditionalBlock)
  {
    var s := [CondTag(false, n)] + Markers(bs);
    assert s[1..] == Markers(bs) + [];
    assert [] + [n] == [n];
    assert CheckNesting(s, []) == CheckNesting(s[1..], [n]);
    NestedMarkersPass(bs, [], [n]);
  }

  // ------------------------------------------------------------ conditional blocks

  /** `{{if_(\w+)}}(.*?){{/if_\1}}` tried at the start of `s`: the name, the body and the match length. */
  function BlockAt(s: string): (r: Option<(string, string, nat)>)
    ensures r.Some? ==> 0 < r.value.2 <= |s|
  {
    match CondTagAt(s)
    case None => None
    case Some((t, len)) => if t.closing then None else BlockClose(s, t.name, len, CondTagText(CondTag(true, t.name)))
  }

  /** The rest of a block match once `{{if_n}}` has been read: up to the first `{{/if_n}}`. */
  function BlockClose(s: string, n: string, len: nat, close: string): (r: Option<(string, string, nat)>)
    requires 0 < len <= |s|
    ensures r.Some? ==> 0 < r.value.2 <= |s|
  {
    match Find(s[len..], close)
    case None => None
    case Some(j) => Some((n, s[len..len + j], len + j + |close|))
  }

  /** What `conditional_replacer` puts in place of a block. */
  function BlockReplacement(name: string, body: string, data: map<string, string>, userInput: string): string
  {
    if name == "input" && userInput != "" then Replace(body, Braced("input"), userInput)
    else if name in data then body
    else ""
  }

  /** `_conditional_pattern.sub(conditional_replacer, s)`. */
  function SubBlocks(s: string, data: map<string, string>, userInput: string): string
    decreases |s|
  {
    if |s| == 0 then []
    else match BlockAt(s)
      case Some((n, body, len)) => BlockReplacement(n, body, data, userInput) + SubBlocks(s[len..], data, userInput)
      case None => [s[0]] + SubBlocks(s[1..], data, userInput)
  }

  /** The conditions met by the blocks of `s` (the `used_conditionals` set). */
  function UsedConditionals(s: string, data: map<string, string>, userInput: string): set<string>
    decreases |s|
  {
    if |s| == 0 then {}
    else match BlockAt(s)
      case Some((n, _, len)) =>
        (if (n == "input" && userInput != "") || n in data then {n} else {})
        + UsedConditionals(s[len..], data, userInput)
      case None => UsedConditionals(s[1..], data, userInput)
  }

  /** The names of the blocks of `s`, as `_conditional_pattern.finditer` reports them. */
  function BlockNames(s: string): (r: set<string>)
    decreases |s|
  {
    if |s| == 0 then {}
    else match BlockAt(s)
      case Some((n, _, len)) => {n} + BlockNames(s[len..])
      case None => BlockNames(s[1..])
  }

  // ------------------------------------------------------------ field tags

  /** The rewritten text and the three sets `field_replacer` adds to. */
  datatype FieldSub = FieldSub(text: string, used: set<string>, missingRequired: set<string>, missingOptional: set<string>)

  /** What `field_replacer` does with one `{{field}}`. */
  function ReplaceField(x: string, data: map<string, string>, template: PromptTemplate): FieldSub
  {
    if x in data then FieldSub(data[x], {x}, {}, {})
    else if x in template.requiredFields then FieldSub("[" + x + "]", {}, {x}, {})
    else if Contains(template.content, x) then FieldSub("[" + x + "]", {}, {}, {x})
    else FieldSub("[" + x + "]", {}, {}, {})
  }

  function Join(a: FieldSub, b: FieldSub): FieldSub
  {
    FieldSub(a.text + b.text, a.used + b.used, a.missingRequired + b.missingRequired,
             a.missingOptional + b.missingOptional)
  }

  /**
   * `_field_pattern.sub(field_replacer, s)`. Only fields present in the data are
   * used, only required fields are reported missing as required, and no field is
   * both used and missing.
   */
  function SubFields(s: string, data: map<string, string>, template: PromptTemplate): (r: FieldSub)
    ensures r.used <= data.Keys
    ensures r.missingRequired <= template.requiredFields && r.missingRequired !! data.Keys
    ensures r.missingOptional !! data.Keys && r.missingOptional !! template.requiredFields
    decreases |s|
  {
    if |s| == 0 then FieldSub([], {}, {}, {})
    else match FieldTagAt(s)
      case Some(x) => Join(ReplaceField(x, data, template), SubFields(s[|x| + 4..], data, template))
      case None => Join(FieldSub([s[0]], {}, {}, {}), SubFields(s[1..], data, template))
  }

  // ------------------------------------------------------------ process_prompt

  /** One pass of the system-tag loop: `{{char}}` and then `{{user}}` from `system_values`. */
  function SystemPass(content: string, systemValues: map<string, string>): string
  {
    var c := if "char" in systemValues then systemValues["char"] else "[char]";
    var u := if "user" in systemValues then systemValues["user"] else "[user]";
    Replace(Replace(content, Braced("char"), c), Braced("user"), u)
  }

  function SystemPasses(content: string, systemValues: map<string, string>, n: nat): string
    decreases n
  {
    if n == 0 then content else SystemPasses(SystemPass(content, systemValues), systemValues, n - 1)
  }

  /** The system-tag loop: one pass per entry of `system_values`, none when it is empty. */
  method ReplaceSystemTags(content: string, systemValues: map<string, string>) returns (r: string)
    ensures r == SystemPasses(content, systemValues, |systemValues|)
    ensures systemValues == map[] ==> r == content
  {
    r := content;
    var left := systemValues.Keys;
    while left != {}
      invariant left <= systemValues.Keys
      invariant SystemPasses(r, systemValues, |left|) == SystemPasses(content, systemValues, |systemValues|)
      decreases |left|
    {
      var k :| k in left;
      r := SystemPass(r, systemValues);
      left := left - {k};
    }
  }

  datatype ProcessedPrompt = ProcessedPrompt(
    originalTemplate: PromptTemplate,
    processedContent: string,
    usedFields: set<string>,
    missingRequired: set<string>,
    missingOptional: set<string>,
    usedConditionals: set<string>)

  /** The message of the `ValueError` that `process_prompt` raises. */
  function FailureMessage(e: TagError): string
  {
    "Failed to process prompt: " + TagErrorMessage(e)
  }

  /** The processed prompt for a template whose markers nest, after the system pass. */
  function Resolve(template: PromptTemplate, afterSystem: string, data: map<string, string>, userInput: string)
    : ProcessedPrompt
  {
    var blocks := SubBlocks(afterSystem, data, userInput);
    var fields := SubFields(blocks, data, template);
    ProcessedPrompt(template, fields.text, fields.used, fields.missingRequired, fields.missingOptional,
                    UsedConditionals(afterSystem, data, userInput))
  }

  /**
   * `process_prompt`. The user input is `""` where the source passes `None`
   * (both are falsy and the input is used only when truthy); data values are
   * the strings `str()` gives.
   */
  method ProcessPrompt(template: PromptTemplate, data: map<string, string>, userInput: string,
                       systemValues: map<string, string>)
    returns (r: Result<ProcessedPrompt, string>)
    ensures CheckNesting(FindCondTags(template.content), []).Failure? <==> r.Failure?
    ensures r.Failure? ==> r.error == FailureMessage(CheckNesting(FindCondTags(template.content), []).error)
    ensures r.Success? ==> r.value == Resolve(template, SystemPasses(template.content, systemValues, |systemValues|),
                                              data, userInput)
    ensures r.Success? ==> r.value.usedFields <= data.Keys && r.value.missingRequired <= template.requiredFields
  {
    var check := ValidateConditionalTags(template.content);
    if check.Failure? {
      return Failure(FailureMessage(check.error));
    }
    var content := ReplaceSystemTags(template.content, systemValues);
    r := Success(Resolve(template, content, data, userInput));
  }

  // ------------------------------------------------------------ analyze_dependencies

  /** The field tags of a text, as a set. */
  function FieldRefs(s: string): set<string>
  {
    var tags := FindFieldTags(s);
    set i | 0 <= i < |tags| :: tags[i]
  }

  /**
   * `analyze_dependencies`: the template's required fields, and every other
   * referenced name (field tags and the names of conditional blocks other than
   * `input`) as optional.
   */
  function AnalyzeDependencies(template: PromptTemplate): (r: (set<string>, set<string>))
    ensures r.0 == template.requiredFields
    ensures r.1 !! r.0
    ensures forall x :: x in r.1 <==>
      x !in template.requiredFields && (x in FieldRefs(template.content)
        || (x in BlockNames(template.content) && x != "input"))
  {
    var fields := FieldRefs(template.content) + (BlockNames(template.content) - {"input"});
    (template.requiredFields, fields - template.requiredFields)
  }

  // ------------------------------------------------------------ rendered templates

  /** `(\w+)}}` reads exactly the name in front of `}}`. */
  lemma {:induction false} NameThenBracesOf(w: string, r: string)
    requires IsWord(w)
    ensures NameThenBraces(w + "}}" + r) == Some(w)
  {
    var u := w + "}}" + r;
    assert forall i :: 0 <= i < |w| ==> u[i] == w[i];
    assert u[|w|] == '}' && u[|w| + 1] == '}';
    WordRunExact(u, |w|);
    assert u[..|w|] == w;
  }

  /** A marker is read as itself by the marker pattern. */
  lemma {:induction false} MarkerIsCondTag(m: CondTag, r: string)
    requires IsWord(m.name)
    ensures CondTagAt(CondTagText(m) + r) == Some((m, |CondTagText(m)|))
  {
    var s := CondTagText(m) + r;
    var h := CondTagHead(m.closing);
    assert s == h + (m.name + "}}" + r);
    OccursAfterPrefix([], s, h, 0);
    assert s[..|h|] == h;
    if !m.closing {
      assert s[2] == 'i' != '/';
      assert !OccursAt(s, CondTagHead(true), 0);
    }
    assert s[|h|..] == m.name + "}}" + r;
    NameThenBracesOf(m.name, r);
  }

  /** The conditions a template section meets. */
  function Met(n: string, data: map<string, string>, userInput: string): bool
  {
    (n == "input" && userInput != "") || n in data
  }

  /** The pieces a segment leaves after the conditional substitution. */
  function BlockHead(g: T.Seg, data: map<string, string>, userInput: string): seq<T.Piece>
  {
    match g
    case Plain(p) => [p]
    case Cond(n, body) =>
      if n == "input" && userInput != "" then T.SubstSlot(body, "input", userInput)
      else if n in data then body
      else []
  }

  function FlattenBlocks(t: seq<T.Seg>, data: map<string, string>, userInput: string): seq<T.Piece>
  {
    if |t| == 0 then [] else BlockHead(t[0], data, userInput) + FlattenBlocks(t[1..], data, userInput)
  }

  /** Where no block starts, the scanners move on by one character. */
  lemma {:induction false} BlockScannersStep(s: string, data: map<string, string>, userInput: string)
    requires |s| > 0 && CondTagAt(s).None?
    ensures SubBlocks(s, data, userInput) == [s[0]] + SubBlocks(s[1..], data, userInput)
    ensures UsedConditionals(s, data, userInput) == UsedConditionals(s[1..], data, userInput)
    ensures BlockNames(s) == BlockNames(s[1..])
  {
  }

  /** The first `k` positions, where no block starts, are copied by the substitution. */
  lemma {:induction false} SubBlocksSkips(s: string, k: nat, data: map<string, string>, userInput: string)
    requires k <= |s|
    requires forall i: nat :: i < k ==> CondTagAt(s[i..]).None?
    ensures SubBlocks(s, data, userInput) == s[..k] + SubBlocks(s[k..], data, userInput)
    ensures UsedConditionals(s, data, userInput) == UsedConditionals(s[k..], data, userInput)
    ensures BlockNames(s) == BlockNames(s[k..])
    decreases k
  {
    if k > 0 {
      SubBlocksSkips(s, k - 1, data, userInput);
      var u := s[k - 1..];
      BlockScannersStep(u, data, userInput);
      assert u[1..] == s[k..];
      T.TakeOneMore(s, k, SubBlocks(s[k..], data, userInput));
    } else {
      assert s[0..] == s;
    }
  }

  /** A block match read off its opening marker and the first closing marker after it. */
  lemma {:induction false} BlockAtOf(s: string, n: string, len: nat, close: string, j: nat)
    requires CondTagAt(s) == Some((CondTag(false, n), len))
    requires close == CondTagText(CondTag(true, n))
    requires 0 < len <= |s| && Find(s[len..], close) == Some(j)
    ensures len + j <= |s|
    ensures BlockAt(s) == Some((n, s[len..len + j], len + j + |close|))
  {
    assert BlockClose(s, n, len, close) == Some((n, s[len..len + j], len + j + |close|));
    assert BlockAt(s) == BlockClose(s, n, len, close);
  }

  lemma {:induction false} FindOfEqual(x: string, y: string, pat: string)
    requires x == y
    ensures Find(x, pat) == Find(y, pat)
  {
  }

  lemma {:induction false} SliceOfSuffix(s: string, len: nat, u: string, body: string)
    requires len <= |s| && s[len..] == u && |body| <= |u| && u[..|body|] == body
    ensures s[len..len + |body|] == body
  {
    assert forall i :: 0 <= i < |body| ==> s[len..len + |body|][i] == u[i];
  }

  /** The opening marker of a section is read where the section starts. */
  lemma {:induction false} OpenMarkerAt(n: string, o: string, u: string, s: string)
    requires IsWord(n) && o == T.OpenMarker(n) && s == o + u
    ensures CondTagAt(s) == Some((CondTag(false, n), |o|)) && s[|o|..] == u
  {
    MarkerIsCondTag(CondTag(false, n), u);
  }

  /** The first closing marker after a section's opening is its own. */
  lemma {:induction false} CloseMarkerFound(n: string, body: seq<T.Piece>, b: string, c: string, r: string, u: string)
    requires T.PiecesOk(body) && b == T.RenderPieces(body) && c == T.CloseMarker(n) && u == b + (c + r)
    ensures Find(u, c) == Some(|b|) && u[..|b|] == b
  {
    T.CloseAfterBody(body, n, r);
  }

  /** A section's text is one block match, with its body as the block's content. */
  lemma {:induction false} SectionTextIsBlock(o: string, b: string, c: string, r: string, s: string,
                           n: string, body: seq<T.Piece>, len: nat)
    requires IsWord(n) && T.PiecesOk(body)
    requires o == T.OpenMarker(n) && b == T.RenderPieces(body) && c == T.CloseMarker(n)
    requires s == o + (b + (c + r)) && len == |o| + |b| + |c|
    ensures BlockAt(s) == Some((n, b, len))
  {
    var u := b + (c + r);
    OpenMarkerAt(n, o, u, s);
    CloseMarkerFound(n, body, b, c, r, u);
    BlockOfParts(s, n, o, u, b, c);
  }

  /** A block match assembled from its opening marker, its body and the first closing marker. */
  lemma {:induction false} BlockOfParts(s: string, n: string, o: string, u: string, b: string, c: string)
    requires CondTagAt(s) == Some((CondTag(false, n), |o|))
    requires |o| <= |s| && s[|o|..] == u
    requires c == CondTagText(CondTag(true, n))
    requires Find(u, c) == Some(|b|) && |b| <= |u| && u[..|b|] == b
    ensures BlockAt(s) == Some((n, b, |o| + |b| + |c|))
  {
    SliceOfSuffix(s, |o|, u, b);
    BlockAtOf(s, n, |o|, c, |b|);
  }

  /** At a block match the scanners emit the block's replacement and resume after it. */
  lemma {:induction false} BlockScannersAtBlock(s: string, n: string, body: string, len: nat, rest: string,
                             data: map<string, string>, userInput: string)
    requires BlockAt(s) == Some((n, body, len)) && s[len..] == rest
    ensures SubBlocks(s, data, userInput) == BlockReplacement(n, body, data, userInput) + SubBlocks(rest, data, userInput)
    ensures UsedConditionals(s, data, userInput)
         == (if Met(n, data, userInput) then {n} else {}) + UsedConditionals(rest, data, userInput)
    ensures BlockNames(s) == {n} + BlockNames(rest)
  {
  }

  /** A top-level piece is copied by the conditional substitution. */
  lemma {:induction false} SubBlocksOfPlain(p: T.Piece, r: string, data: map<string, string>, userInput: string)
    requires T.PieceOk(p)
    ensures SubBlocks(T.RenderPiece(p) + r, data, userInput) == T.RenderPiece(p) + SubBlocks(r, data, userInput)
    ensures UsedConditionals(T.RenderPiece(p) + r, data, userInput) == UsedConditionals(r, data, userInput)
    ensures BlockNames(T.RenderPiece(p) + r) == BlockNames(r)
  {
    forall i: nat | i < |T.RenderPiece(p)| ensures CondTagAt((T.RenderPiece(p) + r)[i..]).None? {
      T.CondTagNeverInPiece(p, r, i);
    }
    var s := T.RenderPiece(p) + r;
    SubBlocksSkips(s, |T.RenderPiece(p)|, data, userInput);
    assert s[..|T.RenderPiece(p)|] == T.RenderPiece(p);
    assert s[|T.RenderPiece(p)|..] == r;
  }

  /** A section's text is replaced as its condition says. */
  lemma {:induction false} SubBlocksOfSection(s: string, g: T.Seg, r: string, data: map<string, string>, userInput: string)
    requires g.Cond? && T.SegOk(g) && T.BraceFree(userInput)
    requires |T.RenderSeg(g)| <= |s| && BlockAt(s) == Some((g.name, T.RenderPieces(g.body), |T.RenderSeg(g)|))
    requires s[|T.RenderSeg(g)|..] == r
    ensures SubBlocks(s, data, userInput)
         == T.RenderPieces(BlockHead(g, data, userInput)) + SubBlocks(r, data, userInput)
    ensures UsedConditionals(s, data, userInput)
         == (if Met(g.name, data, userInput) then {g.name} else {}) + UsedConditionals(r, data, userInput)
    ensures BlockNames(s) == {g.name} + BlockNames(r)
  {
    BlockScannersAtBlock(s, g.name, T.RenderPieces(g.body), |T.RenderSeg(g)|, r, data, userInput);
    BlockReplacementOfBody(g.name, g.body, data, userInput);
  }

  /** A section followed by more text is one block match at its start. */
  lemma {:induction false} SectionIsBlock(g: T.Seg, r: string)
    requires g.Cond? && T.SegOk(g)
    ensures BlockAt(T.RenderSeg(g) + r) == Some((g.name, T.RenderPieces(g.body), |T.RenderSeg(g)|))
    ensures (T.RenderSeg(g) + r)[|T.RenderSeg(g)|..] == r
  {
    var o, b, c := T.OpenMarker(g.name), T.RenderPieces(g.body), T.CloseMarker(g.name);
    var t := T.RenderSeg(g);
    assert t == o + b + c;
    T.SectionTextAssoc(o, b, c, r);
    SectionTextIsBlock(o, b, c, r, t + r, g.name, g.body, |t|);
    T.DropPrefix(t, r);
  }

  /** The replacement of a section's body, on pieces. */
  lemma {:induction false} BlockReplacementOfBody(n: string, body: seq<T.Piece>, data: map<string, string>, userInput: string)
    requires T.PiecesOk(body) && T.BraceFree(userInput)
    ensures BlockReplacement(n, T.RenderPieces(body), data, userInput)
         == T.RenderPieces(BlockHead(T.Cond(n, body), data, userInput))
  {
    if n == "input" && userInput != "" {
      var b := T.RenderPieces(body);
      var b' := T.RenderPieces(T.SubstSlot(body, "input", userInput));
      T.ReplaceRendered(body, [], "input", userInput);
      assert b + [] == b;
      assert b' + [] == b';
    }
  }

  /** One segment of the conditional substitution. */
  lemma {:induction false} SubBlocksOfSeg(g: T.Seg, r: string, data: map<string, string>, userInput: string)
    requires T.SegOk(g) && T.BraceFree(userInput)
    ensures SubBlocks(T.RenderSeg(g) + r, data, userInput)
         == T.RenderPieces(BlockHead(g, data, userInput)) + SubBlocks(r, data, userInput)
    ensures UsedConditionals(T.RenderSeg(g) + r, data, userInput)
         == (if g.Cond? && Met(g.name, data, userInput) then {g.name} else {}) + UsedConditionals(r, data, userInput)
    ensures BlockNames(T.RenderSeg(g) + r) == (if g.Cond? then {g.name} else {}) + BlockNames(r)
  {
    if g.Cond? {
      SubBlocksOfCond(g, r, data, userInput);
    } else {
      SubBlocksOfPlainSeg(g, r, data, userInput);
    }
  }

  /** A top-level piece of the conditional substitution. */
  lemma {:induction false} SubBlocksOfPlainSeg(g: T.Seg, r: string, data: map<string, string>, userInput: string)
    requires g.Plain? && T.SegOk(g)
    ensures SubBlocks(T.RenderSeg(g) + r, data, userInput)
         == T.RenderPieces(BlockHead(g, data, userInput)) + SubBlocks(r, data, userInput)
    ensures UsedConditionals(T.RenderSeg(g) + r, data, userInput) == UsedConditionals(r, data, userInput)
    ensures BlockNames(T.RenderSeg(g) + r) == BlockNames(r)
  {
    SubBlocksOfPlain(g.piece, r, data, userInput);
    T.RenderPiecesSingle(g.piece);
  }

  /** A section segment of the conditional substitution. */
  lemma {:induction false} SubBlocksOfCond(g: T.Seg, r: string, data: map<string, string>, userInput: string)
    requires g.Cond? && T.SegOk(g) && T.BraceFree(userInput)
    ensures SubBlocks(T.RenderSeg(g) + r, data, userInput)
         == T.RenderPieces(BlockHead(g, data, userInput)) + SubBlocks(r, data, userInput)
    ensures UsedConditionals(T.RenderSeg(g) + r, data, userInput)
         == (if Met(g.name, data, userInput) then {g.name} else {}) + UsedConditionals(r, data, userInput)
    ensures BlockNames(T.RenderSeg(g) + r) == {g.name} + BlockNames(r)
  {
    SectionIsBlock(g, r);
    SubBlocksOfSection(T.RenderSeg(g) + r, g, r, data, userInput);
  }

  /** The names of a template's sections. */
  function CondNames(t: seq<T.Seg>): set<string>
  {
    set i | 0 <= i < |t| && t[i].Cond? :: t[i].name
  }

  /** The names of a template's sections whose condition is met. */
  function MetNames(t: seq<T.Seg>, data: map<string, string>, userInput: string): set<string>
  {
    set i | 0 <= i < |t| && t[i].Cond? && Met(t[i].name, data, userInput) :: t[i].name
  }

  lemma {:induction false} CondNamesSplit(t: seq<T.Seg>)
    requires |t| > 0
    ensures CondNames(t) == (if t[0].Cond? then {t[0].name} else {}) + CondNames(t[1..])
  {
    var h := if t[0].Cond? then {t[0].name} else {};
    forall x | x in CondNames(t) ensures x in h + CondNames(t[1..]) {
      var i :| 0 <= i < |t| && t[i].Cond? && t[i].name == x;
      if i > 0 { assert t[1..][i - 1] == t[i]; }
    }
    forall x | x in CondNames(t[1..]) ensures x in CondNames(t) {
      var i :| 0 <= i < |t[1..]| && t[1..][i].Cond? && t[1..][i].name == x;
      assert t[i + 1] == t[1..][i];
    }
  }

  lemma {:induction false} MetNamesSplit(t: seq<T.Seg>, data: map<string, string>, userInput: string)
    requires |t| > 0
    ensures MetNames(t, data, userInput)
         == (if t[0].Cond? && Met(t[0].name, data, userInput) then {t[0].name} else {})
            + MetNames(t[1..], data, userInput)
  {
    var h := if t[0].Cond? && Met(t[0].name, data, userInput) then {t[0].name} else {};
    forall x | x in MetNames(t, data, userInput) ensures x in h + MetNames(t[1..], data, userInput) {
      var i :| 0 <= i < |t| && t[i].Cond? && Met(t[i].name, data, userInput) && t[i].name == x;
      if i > 0 { assert t[1..][i - 1] == t[i]; }
    }
    forall x | x in MetNames(t[1..], data, userInput) ensures x in MetNames(t, data, userInput) {
      var i :| 0 <= i < |t[1..]| && t[1..][i].Cond? && Met(t[1..][i].name, data, userInput) && t[1..][i].name == x;
      assert t[i + 1] == t[1..][i];
    }
  }

  /**
   * On a template of prose, placeholders and conditional sections, the
   * substitution keeps the `{{if_input}}` sections' bodies (with `{{input}}`
   * filled in) when there is user input, keeps a section `{{if_X}}` whose `X`
   * is in the data, and drops every other section with its markers; the
   * conditions met are exactly the kept sections' names.
   */
  lemma {:induction false} SubBlocksOfTemplate(t: seq<T.Seg>, data: map<string, string>, userInput: string)
    requires T.TemplateOk(t) && T.BraceFree(userInput)
    ensures SubBlocks(T.Render(t), data, userInput) == T.RenderPieces(FlattenBlocks(t, data, userInput))
    ensures UsedConditionals(T.Render(t), data, userInput) == MetNames(t, data, userInput)
    ensures BlockNames(T.Render(t)) == CondNames(t)
  {
    if |t| > 0 {
      T.TemplateOkSplit(t);
      SubBlocksOfTemplate(t[1..], data, userInput);
      SubBlocksOfSeg(t[0], T.Render(t[1..]), data, userInput);
      T.RenderPiecesAppend(BlockHead(t[0], data, userInput), FlattenBlocks(t[1..], data, userInput));
      MetNamesSplit(t, data, userInput);
      CondNamesSplit(t);
    }
  }

  /** What `field_replacer` turns each piece into. */
  function FieldPiece(p: T.Piece, data: map<string, string>): T.Piece
  {
    match p
    case Prose(_) => p
    case Slot(x) => T.Prose(if x in data then data[x] else "[" + x + "]")
  }

  /** The placeholder names of `ps`, as a set. */
  function SlotSet(ps: seq<T.Piece>): set<string>
  {
    set i | 0 <= i < |ps| && ps[i].Slot? :: ps[i].name
  }

  lemma {:induction false} SlotSetSplit(ps: seq<T.Piece>)
    requires |ps| > 0
    ensures SlotSet(ps) == PieceSlot(ps[0]) + SlotSet(ps[1..])
  {
    var h := PieceSlot(ps[0]);
    forall x | x in SlotSet(ps) ensures x in h + SlotSet(ps[1..]) {
      var i :| 0 <= i < |ps| && ps[i].Slot? && ps[i].name == x;
      if i > 0 { assert ps[1..][i - 1] == ps[i]; }
    }
    forall x | x in SlotSet(ps[1..]) ensures x in SlotSet(ps) {
      var i :| 0 <= i < |ps[1..]| && ps[1..][i].Slot? && ps[1..][i].name == x;
      assert ps[i + 1] == ps[1..][i];
    }
  }

  /** What the field substitution makes of one piece. */
  function PieceSub(p: T.Piece, data: map<string, string>, template: PromptTemplate): FieldSub
  {
    match p
    case Prose(t) => FieldSub(t, {}, {}, {})
    case Slot(x) => ReplaceField(x, data, template)
  }

  function PiecesSub(ps: seq<T.Piece>, data: map<string, string>, template: PromptTemplate): FieldSub
  {
    if |ps| == 0 then FieldSub([], {}, {}, {})
    else Join(PieceSub(ps[0], data, template), PiecesSub(ps[1..], data, template))
  }

  /** One piece of the field substitution. */
  lemma {:induction false} SubFieldsOfPiece(p: T.Piece, b: string, data: map<string, string>, template: PromptTemplate)
    requires T.PieceOk(p)
    ensures SubFields(T.RenderPiece(p) + b, data, template)
         == Join(PieceSub(p, data, template), SubFields(b, data, template))
  {
    var a := T.RenderPiece(p);
    var s := a + b;
    match p
    case Prose(_) =>
      forall i: nat | i < |a| ensures FieldTagAt(s[i..]).None? {
        T.FieldTagOnlyAtSlot(p, b, i);
      }
      FieldSubSkips(s, |a|, data, template);
      assert s[..|a|] == a;
      assert s[|a|..] == b;
    case Slot(x) =>
      assert s[..|x| + 4] == a;
      FieldTagAtIff(s, x);
      assert s[|x| + 4..] == b;
  }

  /** The field substitution of rendered pieces works piece by piece. */
  lemma {:induction false} SubFieldsByPieces(ps: seq<T.Piece>, data: map<string, string>, template: PromptTemplate)
    requires T.PiecesOk(ps)
    ensures SubFields(T.RenderPieces(ps), data, template) == PiecesSub(ps, data, template)
  {
    if |ps| > 0 {
      T.PiecesOkSplit(ps);
      SubFieldsByPieces(ps[1..], data, template);
      SubFieldsOfPiece(ps[0], T.RenderPieces(ps[1..]), data, template);
    }
  }

  /** The pieces `field_replacer` leaves: each placeholder replaced by prose. */
  function FieldPieces(ps: seq<T.Piece>, data: map<string, string>): seq<T.Piece>
  {
    if |ps| == 0 then [] else [FieldPiece(ps[0], data)] + FieldPieces(ps[1..], data)
  }

  /** The text of the piece-by-piece substitution: each placeholder rewritten. */
  lemma {:induction false} PiecesSubText(ps: seq<T.Piece>, data: map<string, string>, template: PromptTemplate)
    ensures PiecesSub(ps, data, template).text == T.RenderPieces(FieldPieces(ps, data))
  {
    if |ps| > 0 {
      PiecesSubText(ps[1..], data, template);
      var out := FieldPieces(ps, data);
      assert out[0] == FieldPiece(ps[0], data);
      assert out[1..] == FieldPieces(ps[1..], data);
    }
  }

  /** The placeholder name of a piece, as a set. */
  function PieceSlot(p: T.Piece): set<string>
  {
    if p.Slot? then {p.name} else {}
  }

  /** What the substitution reports for one piece. */
  lemma {:induction false} PieceSubSets(p: T.Piece, data: map<string, string>, template: PromptTemplate)
    ensures var r := PieceSub(p, data, template);
      && r.used == PieceSlot(p) * data.Keys
      && r.missingRequired == (PieceSlot(p) - data.Keys) * template.requiredFields
      && r.missingOptional == set x | x in PieceSlot(p) - data.Keys - template.requiredFields
                                      && Contains(template.content, x)
  {
  }

  /** The fields the piece-by-piece substitution reports used or missing. */
  lemma {:induction false} PiecesSubSets(ps: seq<T.Piece>, data: map<string, string>, template: PromptTemplate)
    ensures var r := PiecesSub(ps, data, template);
      && r.used == SlotSet(ps) * data.Keys
      && r.missingRequired == (SlotSet(ps) - data.Keys) * template.requiredFields
      && r.missingOptional == set x | x in SlotSet(ps) - data.Keys - template.requiredFields
                                      && Contains(template.content, x)
  {
    if |ps| > 0 {
      PiecesSubSets(ps[1..], data, template);
      PieceSubSets(ps[0], data, template);
      SlotSetSplit(ps);
    }
  }

  /**
   * On prose and placeholders, the field substitution turns each placeholder
   * into the field's value or into `[field]`; the fields used are the
   * placeholders found in the data, the missing required ones the required
   * placeholders not in the data, and the missing optional ones the other
   * placeholders not in the data whose names the template text contains.
   */
  lemma {:induction false} SubFieldsOfPieces(ps: seq<T.Piece>, data: map<string, string>, template: PromptTemplate)
    requires T.PiecesOk(ps)
    ensures var r := SubFields(T.RenderPieces(ps), data, template);
      && r.text == T.RenderPieces(FieldPieces(ps, data))
      && r.used == SlotSet(ps) * data.Keys
      && r.missingRequired == (SlotSet(ps) - data.Keys) * template.requiredFields
      && r.missingOptional == set x | x in SlotSet(ps) - data.Keys - template.requiredFields
                                      && Contains(template.content, x)
  {
    SubFieldsByPieces(ps, data, template);
    PiecesSubText(ps, data, template);
    PiecesSubSets(ps, data, template);
  }

  /** Where no field tag starts, the substitution moves on by one character. */
  lemma {:induction false} FieldSubStep(s: string, data: map<string, string>, template: PromptTemplate)
    requires |s| > 0 && FieldTagAt(s).None?
    ensures SubFields(s, data, template)
         == SubFields(s[1..], data, template).(text := [s[0]] + SubFields(s[1..], data, template).text)
  {
  }

  /** The first `k` positions, where no field tag starts, are copied by the field substitution. */
  lemma {:induction false} FieldSubSkips(s: string, k: nat, data: map<string, string>, template: PromptTemplate)
    requires k <= |s|
    requires forall i: nat :: i < k ==> FieldTagAt(s[i..]).None?
    ensures SubFields(s, data, template)
         == SubFields(s[k..], data, template).(text := s[..k] + SubFields(s[k..], data, template).text)
    decreases k
  {
    if k > 0 {
      FieldSubSkips(s, k - 1, data, template);
      var u := s[k - 1..];
      FieldSubStep(u, data, template);
      assert u[1..] == s[k..];
      var r := SubFields(s[k..], data, template);
      assert SubFields(u, data, template) == r.(text := [s[k - 1]] + r.text);
      T.TakeOneMore(s, k, r.text);
    } else {
      assert s[0..] == s;
    }
  }

  // ------------------------------------------------------------ prompt sets

  /** Keeps the valid prompt sets by id. */
  class PromptManager {
    var promptSets: map<nat, PromptSet>

    constructor()
      ensures promptSets == map[]
    {
      promptSets := map[];
    }

    /** `add_prompt_set`: stores the set under its id only when its generation order is valid. */
    method AddPromptSet(ps: PromptSet) returns (ok: bool)
      modifies this
      ensures ok == ValidateGenerationOrder(ps)
      ensures promptSets == if ok then old(promptSets)[ps.id := ps] else old(promptSets)
    {
      if !ValidateGenerationOrder(ps) {
        return false;
      }
      promptSets := promptSets[ps.id := ps];
      return true;
    }
  }
}
