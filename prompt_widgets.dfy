/**
 * The validation the base-prompt editor runs over every prompt before it accepts
 * them (`BasePromptsContainer._validate_prompts`): blank prompts are skipped,
 * the `{{if_input}}` markers must balance, and every `{{word}}` must name a
 * field or one of the reserved tags. The first offending prompt, in the
 * dictionary's order, raises.
 */
module PromptWidgets {
  import opened Wrappers
  import opened Strings
  import opened Tags
  import opened Fields
  import opened Dicts
  import T = Templates
  import CG = CharacterGen

  /** The two `TagError`s the validation raises, with what their messages report. */
  datatype WidgetTagError =
    | MismatchedConditional(field: FieldName, opening: nat, closing: nat)
    | InvalidReference(field: FieldName, reference: string)

  /** A `{{word}}` the editor accepts: a reserved tag or the value of a field. */
  predicate Allowed(w: string)
  {
    w in ReservedTags || FromValue(w).Some?
  }

  /** The first reference that is not allowed, scanning left to right. */
  function FirstInvalid(refs: seq<string>): (r: Option<string>)
    ensures r.None? <==> forall i :: 0 <= i < |refs| ==> Allowed(refs[i])
  {
    if |refs| == 0 then None
    else if !Allowed(refs[0]) then Some(refs[0])
    else
      assert forall i :: 0 < i < |refs| ==> refs[i] == refs[1..][i - 1];
      FirstInvalid(refs[1..])
  }

  /** The reference reported is the first one that is not allowed. */
  lemma {:induction false} FirstInvalidIsFirst(refs: seq<string>, k: nat)
    requires k < |refs| && !Allowed(refs[k])
    requires forall j :: 0 <= j < k ==> Allowed(refs[j])
    ensures FirstInvalid(refs) == Some(refs[k])
  {
    if k > 0 {
      FirstInvalidIsFirst(refs[1..], k - 1);
    }
  }

  /** The verdict on one prompt: `None` when it passes. */
  function CheckPrompt(f: FieldName, text: string): Option<WidgetTagError>
  {
    if IsBlank(text) then None
    else
      var opening, closing := Count(text, InputOpen), Count(text, InputClose);
      if opening != closing then Some(MismatchedConditional(f, opening, closing))
      else match FirstInvalid(FindFieldTags(text))
        case Some(w) => Some(InvalidReference(f, w))
        case None => None
  }

  /** `_validate_prompts(prompts)`: `True`, or the error of the first prompt that fails. */
  function ValidatePrompts(prompts: Dict<FieldName, string>): (r: Result<bool, WidgetTagError>)
    ensures r.Success? <==> forall i :: 0 <= i < |prompts| ==> CheckPrompt(prompts[i].0, prompts[i].1).None?
    ensures r.Success? ==> r.value
  {
    if |prompts| == 0 then Success(true)
    else match CheckPrompt(prompts[0].0, prompts[0].1)
      case Some(e) => Failure(e)
      case None =>
        assert forall i :: 0 < i < |prompts| ==> prompts[i] == prompts[1..][i - 1];
        ValidatePrompts(prompts[1..])
  }

  /** The error raised is that of the first prompt, in dictionary order, that fails. */
  lemma {:induction false} FirstFailureRaised(prompts: Dict<FieldName, string>, k: nat)
    requires k < |prompts| && CheckPrompt(prompts[k].0, prompts[k].1).Some?
    requires forall j :: 0 <= j < k ==> CheckPrompt(prompts[j].0, prompts[j].1).None?
    ensures ValidatePrompts(prompts) == Failure(CheckPrompt(prompts[k].0, prompts[k].1).value)
  {
    if k > 0 {
      assert forall j :: 0 <= j < k - 1 ==> prompts[1..][j] == prompts[j + 1];
      FirstFailureRaised(prompts[1..], k - 1);
    }
  }

  /** A prompt that is blank once stripped is accepted whatever else it holds. */
  lemma {:induction false} BlankPromptSkipped(f: FieldName, text: string)
    requires Strip(text) == []
    ensures CheckPrompt(f, text).None?
  {
    StripEmptyIffBlank(text);
  }

  /** A non-blank template made of prose, placeholders and `{{if_input}}` sections passes
      exactly when every placeholder names a field or a reserved tag. */
  lemma {:induction false} TemplateAcceptedIffKnownNames(f: FieldName, t: seq<T.Seg>)
    requires T.TemplateOk(t) && T.InputSectionsOnly(t) && !IsBlank(T.Render(t))
    ensures CheckPrompt(f, T.Render(t)).None? <==> forall i :: 0 <= i < |T.TagNames(t)| ==> Allowed(T.TagNames(t)[i])
  {
    T.MarkerCountsOfTemplate(t, []);
    assert T.Render(t) + [] == T.Render(t);
    T.FieldTagsOfTemplate(t);
  }

  /** A non-blank template with a placeholder that is neither a field nor reserved is
      refused, and the error names the first such placeholder. */
  lemma {:induction false} UnknownReferenceRejected(f: FieldName, t: seq<T.Seg>, k: nat)
    requires T.TemplateOk(t) && T.InputSectionsOnly(t) && !IsBlank(T.Render(t))
    requires k < |T.TagNames(t)| && !Allowed(T.TagNames(t)[k])
    requires forall j :: 0 <= j < k ==> Allowed(T.TagNames(t)[j])
    ensures CheckPrompt(f, T.Render(t)) == Some(InvalidReference(f, T.TagNames(t)[k]))
  {
    T.MarkerCountsOfTemplate(t, []);
    assert T.Render(t) + [] == T.Render(t);
    T.FieldTagsOfTemplate(t);
    FirstInvalidIsFirst(T.TagNames(t), k);
  }

  /** A template with one more `{{if_input}}` opened than closed is refused, and the
      error reports both counts. */
  lemma {:induction false} UnclosedSectionRejected(f: FieldName, t: seq<T.Seg>, tail: string)
    requires T.TemplateOk(t) && T.InputSectionsOnly(t)
    requires !Contains(tail, InputOpen) && !Contains(tail, InputClose)
    ensures CheckPrompt(f, T.Render(t) + InputOpen + tail)
         == Some(MismatchedConditional(f, T.SectionCount(t) + 1, T.SectionCount(t)))
  {
    var text := T.Render(t) + InputOpen + tail;
    T.SeqAssoc(T.Render(t), InputOpen, tail);
    T.MarkerCountsOfTemplate(t, InputOpen + tail);
    CG.OpenCountOfTail(tail);
    CG.CloseCountOfTail(tail);
    assert text[|T.Render(t)|] == '{';
    assert !IsSpace(text[|T.Render(t)|]);
    assert !IsBlank(text);
  }

  /** Whether the prompts pass does not depend on their order. */
  lemma {:induction false} ValidityIgnoresOrder(p: Dict<FieldName, string>, q: Dict<FieldName, string>)
    requires multiset(p) == multiset(q)
    ensures ValidatePrompts(p).Success? <==> ValidatePrompts(q).Success?
  {
    forall i | 0 <= i < |p| ensures p[i] in q {
      assert p[i] in multiset(p);
    }
    forall i | 0 <= i < |q| ensures q[i] in p {
      assert q[i] in multiset(q);
    }
    if ValidatePrompts(p).Success? {
      forall i | 0 <= i < |q| ensures CheckPrompt(q[i].0, q[i].1).None? {
        var j :| 0 <= j < |p| && p[j] == q[i];
      }
    }
    if ValidatePrompts(q).Success? {
      forall i | 0 <= i < |p| ensures CheckPrompt(p[i].0, p[i].1).None? {
        var j :| 0 <= j < |q| && q[j] == p[i];
      }
    }
  }
}
