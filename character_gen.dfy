/**
 * The single-file generator: a generation order over the six fields, base
 * prompts with an optional `{{if_input}}` section, a prompt manager holding
 * prompts, user inputs and generated outputs, and a generation service that
 * regenerates the fields that depend on a changed one.
 */
module CharacterGen {
  import opened Wrappers
  import opened Strings
  import opened Tags
  import opened Fields
  import opened Lists
  import T = Templates

  // ---------------------------------------------------------------- FieldOrder

  /** `FieldOrder.get_available_fields`: the fields listed before `current`'s first occurrence. */
  function AvailableFields(order: seq<FieldName>, current: FieldName): set<FieldName>
  {
    match IndexOf(order, current)
    case None => {}
    case Some(i) => Elems(order[..i])
  }

  /** Where an available field is listed: before the first occurrence of the field being generated. */
  lemma {:induction false} AvailableAt(order: seq<FieldName>, current: FieldName, g: FieldName) returns (k: nat)
    requires g in AvailableFields(order, current)
    ensures current in order && k < IndexOf(order, current).value && order[k] == g
  {
    var i := IndexOf(order, current).value;
    ElemsMeaning(order[..i], g);
    k :| 0 <= k < i && order[..i][k] == g;
  }

  /** A field is available exactly when it is listed strictly before the field being generated. */
  lemma {:induction false} AvailableFieldsMeaning(order: seq<FieldName>, current: FieldName, g: FieldName)
    ensures g in AvailableFields(order, current) <==>
      current in order && exists k :: 0 <= k < |order| && order[k] == g && current !in order[..k + 1]
  {
    if current in order {
      var i := IndexOf(order, current).value;
      if g in AvailableFields(order, current) {
        var k := AvailableAt(order, current, g);
        assert current !in order[..k + 1];
      }
      if exists k :: 0 <= k < |order| && order[k] == g && current !in order[..k + 1] {
        var k :| 0 <= k < |order| && order[k] == g && current !in order[..k + 1];
        assert order[..i][k] == g;
        ElemsMeaning(order[..i], g);
      }
    }
  }

  /** The order never makes a field available to itself, and never makes two fields available to each other. */
  lemma {:induction false} AvailabilityIsStrict(order: seq<FieldName>, f: FieldName, g: FieldName)
    ensures f !in AvailableFields(order, f)
    ensures g in AvailableFields(order, f) ==> f !in AvailableFields(order, g)
  {
    if f in AvailableFields(order, f) {
      var k := AvailableAt(order, f, f);
    }
    if g in AvailableFields(order, f) && f in AvailableFields(order, g) {
      var k := AvailableAt(order, f, g);
      var m := AvailableAt(order, g, f);
    }
  }

  /** What is available to a field stays available to the fields after it. */
  lemma {:induction false} AvailabilityIsTransitive(order: seq<FieldName>, f: FieldName, g: FieldName, h: FieldName)
    requires g in AvailableFields(order, f) && h in AvailableFields(order, g)
    ensures h in AvailableFields(order, f)
  {
    var i := IndexOf(order, f).value;
    var k := AvailableAt(order, f, g);
    var m := AvailableAt(order, g, h);
    assert order[..i][m] == h;
    ElemsMeaning(order[..i], h);
  }

  // ---------------------------------------------------------------- BasePrompt

  datatype BasePrompt = BasePrompt(text: string)

  datatype PromptError =
    | MismatchedTags
    | NoBasePrompt(field: FieldName)
    | MissingFields(field: FieldName, missing: set<FieldName>)

  /** `BasePrompt(text)`: refuses a text whose opening and closing `if_input` marker counts differ. */
  function NewBasePrompt(text: string): (r: Result<BasePrompt, PromptError>)
    ensures r.Success? ==> r.value.text == text
    ensures r.Failure? ==> r.error == MismatchedTags
  {
    if Count(text, InputOpen) != Count(text, InputClose) then Failure(MismatchedTags)
    else Success(BasePrompt(text))
  }

  /** Every template built from prose, placeholders and `{{if_input}}` sections is accepted. */
  lemma {:induction false} WellFormedTemplateAccepted(t: seq<T.Seg>)
    requires T.TemplateOk(t) && T.InputSectionsOnly(t)
    ensures NewBasePrompt(T.Render(t)).Success?
  {
    T.MarkerCountsOfTemplate(t, []);
    assert T.Render(t) + [] == T.Render(t);
  }

  /** A template with one more section opened than closed is refused. */
  lemma {:induction false} UnclosedSectionRejected(t: seq<T.Seg>, tail: string)
    requires T.TemplateOk(t) && T.InputSectionsOnly(t)
    requires !Contains(tail, InputOpen) && !Contains(tail, InputClose)
    ensures NewBasePrompt(T.Render(t) + InputOpen + tail).Failure?
  {
    T.SeqAssoc(T.Render(t), InputOpen, tail);
    T.MarkerCountsOfTemplate(t, InputOpen + tail);
    OpenCountOfTail(tail);
    CloseCountOfTail(tail);
  }

  /** An opening marker followed by text without one holds one opening marker. */
  lemma {:induction false} OpenCountOfTail(tail: string)
    requires !Contains(tail, InputOpen)
    ensures Count(InputOpen + tail, InputOpen) == 1
  {
    CountZeroIffAbsent(tail, InputOpen);
    CountAtMatch(tail, InputOpen);
  }

  /** An opening marker followed by text without a closing marker holds none. */
  lemma {:induction false} CloseCountOfTail(tail: string)
    requires !Contains(tail, InputClose)
    ensures Count(InputOpen + tail, InputClose) == 0
  {
    CountZeroIffAbsent(tail, InputClose);
    T.InputMarkers();
    T.MarkersDistinct("input", tail);
    CountSkips(InputOpen, tail, InputClose);
  }

  /** The fields a prompt text refers to: every `{{field}}` tag naming a field, reserved tags aside. */
  function RequiredFieldSet(text: string): set<FieldName>
  {
    TagFields(FindFieldTags(text))
  }

  /** The fields named by a list of tags, reserved tags aside. */
  function TagFields(tags: seq<string>): set<FieldName>
  {
    if |tags| == 0 then {}
    else TagFields(tags[..|tags| - 1]) + TagField(tags[|tags| - 1])
  }

  /** The field one tag names: none for a reserved tag or a value no field has. */
  function TagField(tag: string): set<FieldName>
  {
    if tag in ReservedTags then {}
    else match FromValue(tag)
      case Some(f) => {f}
      case None => {}
  }

  /** The field one more tag adds. */
  lemma {:induction false} TagFieldsAppend(tags: seq<string>, tag: string)
    ensures TagFields(tags + [tag]) == TagFields(tags) + TagField(tag)
  {
    assert (tags + [tag])[..|tags|] == tags;
  }

  /** A field is named by the tags exactly when its value is one of them and is not reserved. */
  lemma {:induction false} TagFieldsMeaning(tags: seq<string>, f: FieldName)
    ensures f in TagFields(tags) <==> Value(f) in tags && Value(f) !in ReservedTags
    decreases |tags|
  {
    if |tags| > 0 {
      var init, last := tags[..|tags| - 1], tags[|tags| - 1];
      TagFieldsMeaning(init, f);
      assert tags == init + [last];
      FromValueInvertsValue(f, last);
    }
  }

  /** `BasePrompt.get_required_fields`. */
  method GetRequiredFields(p: BasePrompt) returns (fields: set<FieldName>)
    ensures fields == RequiredFieldSet(p.text)
  {
    var tags := FindFieldTags(p.text);
    fields := {};
    var i := 0;
    while i < |tags|
      invariant 0 <= i <= |tags|
      invariant fields == TagFields(tags[..i])
    {
      var tag := tags[i];
      TagFieldsAppend(tags[..i], tag);
      if tag !in ReservedTags {
        match FromValue(tag)
        case Some(f) =>
          fields := fields + {f};
        case None =>
      }
      assert tags[..i + 1] == tags[..i] + [tag];
      i := i + 1;
    }
    assert tags[..i] == tags;
  }

  /** The fields a rendered template requires are the fields whose placeholders it holds. */
  lemma {:induction false} RequiredFieldsOfTemplate(t: seq<T.Seg>)
    requires T.TemplateOk(t)
    ensures RequiredFieldSet(T.Render(t)) == set f | Value(f) in T.TagNames(t)
  {
    T.FieldTagsOfTemplate(t);
    NoFieldIsReserved();
    forall f ensures f in RequiredFieldSet(T.Render(t)) <==> Value(f) in T.TagNames(t) {
      TagFieldsMeaning(FindFieldTags(T.Render(t)), f);
    }
  }

  /** The substitution pairs for generated outputs, in the dictionary's iteration order. */
  function OutputPairs(outputs: seq<(FieldName, string)>): (r: seq<(string, string)>)
    ensures |r| == |outputs|
  {
    if |outputs| == 0 then []
    else [(Value(outputs[0].0), outputs[0].1)] + OutputPairs(outputs[1..])
  }

  /** The `k`-th pair puts the `k`-th output in place of its field's placeholder. */
  lemma {:induction false} OutputPairsAt(outputs: seq<(FieldName, string)>, k: nat)
    requires k < |outputs|
    ensures OutputPairs(outputs)[k] == (Value(outputs[k].0), outputs[k].1)
    decreases k
  {
    if k > 0 {
      OutputPairsAt(outputs[1..], k - 1);
    }
  }

  /** What `BasePrompt.process` computes. */
  function ProcessSpec(text: string, input: string, outputs: seq<(FieldName, string)>): string
  {
    var kept := SubInputBlocks(text, !IsBlank(input));
    Strip(T.ReplaceEach(Replace(kept, Braced("input"), input), OutputPairs(outputs)))
  }

  /**
   * `BasePrompt.process`: keeps the `{{if_input}}` sections' bodies when the input is
   * not blank and drops the sections otherwise, substitutes the input and then each
   * output in turn, and strips the result.
   */
  method Process(p: BasePrompt, input: string, outputs: seq<(FieldName, string)>) returns (r: string)
    ensures r == ProcessSpec(p.text, input, outputs)
  {
    var result := SubInputBlocks(p.text, !IsBlank(input));
    result := Replace(result, Braced("input"), input);
    var i := 0;
    assert outputs[0..] == outputs;
    while i < |outputs|
      invariant 0 <= i <= |outputs|
      invariant T.ReplaceEach(result, OutputPairs(outputs[i..]))
             == T.ReplaceEach(Replace(SubInputBlocks(p.text, !IsBlank(input)), Braced("input"), input), OutputPairs(outputs))
    {
      var (field, value) := outputs[i];
      assert outputs[i..][1..] == outputs[i + 1..];
      result := Replace(result, Braced(Value(field)), value);
      i := i + 1;
    }
    r := Strip(result);
  }

  /** The input paired with the `input` placeholder, followed by the outputs. */
  function ProcessPairs(input: string, outputs: seq<(FieldName, string)>): seq<(string, string)>
  {
    [("input", input)] + OutputPairs(outputs)
  }

  /**
   * On a template of prose, placeholders and `{{if_input}}` sections, processing keeps
   * the sections' bodies exactly when the input is not blank, turns `{{input}}` into
   * the input and `{{field}}` into the field's output, keeps every other placeholder
   * (`{{char}}`, `{{user}}`, fields without output) verbatim, and strips the result.
   */
  lemma {:induction false} ProcessRendered(t: seq<T.Seg>, input: string, outputs: seq<(FieldName, string)>)
    requires T.TemplateOk(t) && T.InputSectionsOnly(t)
    requires T.BraceFree(input)
    requires forall k :: 0 <= k < |outputs| ==> T.BraceFree(outputs[k].1)
    ensures ProcessSpec(T.Render(t), input, outputs)
         == Strip(T.RenderPieces(T.ResolvePieces(T.FlattenInput(t, !IsBlank(input)), ProcessPairs(input, outputs))))
  {
    var keep := !IsBlank(input);
    var ps := T.FlattenInput(t, keep);
    var pairs := ProcessPairs(input, outputs);
    ProcessAsReplaceEach(T.Render(t), input, outputs);
    T.InputBlocksOfTemplate(t, keep);
    FlattenInputOk(t, keep);
    ProcessPairsOk(input, outputs);
    T.ReplaceEachRendered(ps, pairs);
  }

  /** Processing is the section substitution followed by replacing each pair in turn. */
  lemma {:induction false} ProcessAsReplaceEach(text: string, input: string, outputs: seq<(FieldName, string)>)
    ensures ProcessSpec(text, input, outputs)
         == Strip(T.ReplaceEach(SubInputBlocks(text, !IsBlank(input)), ProcessPairs(input, outputs)))
  {
    var pairs := ProcessPairs(input, outputs);
    assert pairs[0] == ("input", input) && pairs[1..] == OutputPairs(outputs);
  }

  lemma {:induction false} ProcessPairsOk(input: string, outputs: seq<(FieldName, string)>)
    requires T.BraceFree(input)
    requires forall k :: 0 <= k < |outputs| ==> T.BraceFree(outputs[k].1)
    ensures T.PairsOk(ProcessPairs(input, outputs))
  {
    var pairs := ProcessPairs(input, outputs);
    forall k | 0 <= k < |pairs| ensures IsWord(pairs[k].0) && T.BraceFree(pairs[k].1) {
      if k > 0 {
        OutputPairsAt(outputs, k - 1);
        FieldValueIsWord(outputs[k - 1].0);
      }
    }
  }

  /** Flattening keeps pieces well formed. */
  lemma {:induction false} FlattenInputOk(t: seq<T.Seg>, keep: bool)
    requires T.TemplateOk(t)
    ensures T.PiecesOk(T.FlattenInput(t, keep))
  {
    if |t| > 0 {
      T.TemplateOkSplit(t);
      FlattenInputOk(t[1..], keep);
    }
  }

  /** Every field value is a `\w+` word, so `{{value}}` is a placeholder. */
  lemma {:induction false} FieldValueIsWord(f: FieldName)
    ensures IsWord(Value(f))
  {
  }

  // ---------------------------------------------------------------- PromptManager

  /** `(g, outputs[g])` for each field `g` of `fields` that is in `among` and has an
      output, at its first occurrence in `fields`. */
  function OutputsAmong(fields: seq<FieldName>, among: set<FieldName>, outputs: map<FieldName, string>)
    : (r: seq<(FieldName, string)>)
    ensures forall k :: 0 <= k < |r| ==> r[k].0 in among && r[k].0 in outputs && r[k].1 == outputs[r[k].0]
  {
    if |fields| == 0 then []
    else
      var g := fields[0];
      if g in among && g in outputs then [(g, outputs[g])] + OutputsAmong(fields[1..], among - {g}, outputs)
      else OutputsAmong(fields[1..], among, outputs)
  }

  /** Looking a field's placeholder up among these outputs finds the field's own output
      exactly when the field is listed, is in `among` and has an output. */
  lemma {:induction false} LookupOutputsAmong(fields: seq<FieldName>, among: set<FieldName>,
                                              outputs: map<FieldName, string>, g: FieldName)
    ensures T.Lookup(OutputPairs(OutputsAmong(fields, among, outputs)), Value(g))
         == if g in fields && g in among && g in outputs then Some(outputs[g]) else None
  {
    if |fields| > 0 {
      var h := fields[0];
      assert g in fields <==> g == h || g in fields[1..];
      if h in among && h in outputs {
        var tail := OutputsAmong(fields[1..], among - {h}, outputs);
        LookupOutputsAmong(fields[1..], among - {h}, outputs, g);
        OutputPairsCons(h, outputs[h], tail);
        T.LookupCons((Value(h), outputs[h]), OutputPairs(tail), Value(g));
        ValueInjective();
      } else {
        LookupOutputsAmong(fields[1..], among, outputs, g);
      }
    }
  }

  /** Pairing an output list one entry longer pairs that entry first. */
  lemma {:induction false} OutputPairsCons(h: FieldName, v: string, tail: seq<(FieldName, string)>)
    ensures OutputPairs([(h, v)] + tail) == [(Value(h), v)] + OutputPairs(tail)
  {
    assert ([(h, v)] + tail)[1..] == tail;
  }

  /** Whether `f`'s base prompt among `prompts` requires the field `changed`. */
  function DependsOn(prompts: map<FieldName, BasePrompt>, f: FieldName, changed: FieldName): bool
  {
    f in prompts && changed in RequiredFieldSet(prompts[f].text)
  }

  /** The fields of `deps` whose base prompt requires `changed`. */
  function Regenerated(prompts: map<FieldName, BasePrompt>, deps: seq<FieldName>, changed: FieldName): set<FieldName>
  {
    if |deps| == 0 then {}
    else Regenerated(prompts, deps[..|deps| - 1], changed)
         + (if DependsOn(prompts, deps[|deps| - 1], changed) then {deps[|deps| - 1]} else {})
  }

  lemma {:induction false} RegeneratedMeaning(prompts: map<FieldName, BasePrompt>, deps: seq<FieldName>,
                                              changed: FieldName, g: FieldName)
    ensures g in Regenerated(prompts, deps, changed) <==> g in deps && DependsOn(prompts, g, changed)
    decreases |deps|
  {
    if |deps| > 0 {
      var init := deps[..|deps| - 1];
      RegeneratedMeaning(prompts, init, changed, g);
      assert deps == init + [deps[|deps| - 1]];
    }
  }

  lemma {:induction false} RegeneratedStep(prompts: map<FieldName, BasePrompt>, deps: seq<FieldName>, i: nat, changed: FieldName)
    requires i < |deps|
    ensures Regenerated(prompts, deps[..i + 1], changed)
         == Regenerated(prompts, deps[..i], changed) + (if DependsOn(prompts, deps[i], changed) then {deps[i]} else {})
  {
    assert deps[..i + 1][..i] == deps[..i];
  }

  /**
   * `get_processed_prompt` on a manager holding these prompts, inputs, outputs and
   * order: refuses a field without a base prompt or with a required field that does
   * not come before it, and otherwise processes the base prompt with the field's
   * input and the outputs of the fields before it.
   */
  function PromptFrom(basePrompts: map<FieldName, BasePrompt>, inputs: map<FieldName, string>,
                      outputs: map<FieldName, string>, order: seq<FieldName>, f: FieldName): Result<string, PromptError>
  {
    if f !in basePrompts then Failure(NoBasePrompt(f))
    else
      var missing := RequiredFieldSet(basePrompts[f].text) - AvailableFields(order, f);
      if missing != {} then Failure(MissingFields(f, missing))
      else Success(ProcessSpec(basePrompts[f].text, if f in inputs then inputs[f] else "",
                               OutputsAmong(order, AvailableFields(order, f), outputs)))
  }

  /** Holds the base prompts, the user inputs, the generated outputs and the generation order. */
  class PromptManager {
    var basePrompts: map<FieldName, BasePrompt>
    var inputs: map<FieldName, string>
    var outputs: map<FieldName, string>
    var order: seq<FieldName>

    constructor()
      ensures basePrompts == map[] && inputs == map[] && outputs == map[] && order == []
    {
      basePrompts := map[];
      inputs := map[];
      outputs := map[];
      order := [];
    }

    /** `set_field_order` */
    method SetFieldOrder(o: seq<FieldName>)
      modifies this
      ensures order == o
      ensures basePrompts == old(basePrompts) && inputs == old(inputs) && outputs == old(outputs)
    {
      order := o;
    }

    /** `set_base_prompt`: a text with mismatched markers raises and changes nothing. */
    method SetBasePrompt(f: FieldName, text: string) returns (r: Result<(), PromptError>)
      modifies this
      ensures r.Success? <==> NewBasePrompt(text).Success?
      ensures r.Success? ==> basePrompts == old(basePrompts)[f := BasePrompt(text)]
      ensures r.Failure? ==> r.error == MismatchedTags && basePrompts == old(basePrompts)
      ensures inputs == old(inputs) && outputs == old(outputs) && order == old(order)
    {
      match NewBasePrompt(text)
      case Success(p) =>
        basePrompts := basePrompts[f := p];
        r := Success(());
      case Failure(e) =>
        r := Failure(e);
    }

    /** `set_input` */
    method SetInput(f: FieldName, text: string)
      modifies this
      ensures inputs == old(inputs)[f := text]
      ensures basePrompts == old(basePrompts) && outputs == old(outputs) && order == old(order)
    {
      inputs := inputs[f := text];
    }

    /** `set_output` */
    method SetOutput(f: FieldName, text: string)
      modifies this
      ensures outputs == old(outputs)[f := text]
      ensures basePrompts == old(basePrompts) && inputs == old(inputs) && order == old(order)
    {
      outputs := outputs[f := text];
    }

    /** `validate_field_dependencies`: the required fields not available before `f`. */
    function ValidateFieldDependencies(f: FieldName): Result<set<FieldName>, PromptError>
      reads this
    {
      if f !in basePrompts then Failure(NoBasePrompt(f))
      else Success(RequiredFieldSet(basePrompts[f].text) - AvailableFields(order, f))
    }

    /** The user input for `f`, `""` when none was set. */
    function InputFor(f: FieldName): string
      reads this
    {
      if f in inputs then inputs[f] else ""
    }

    /** The outputs of the fields available to `f`, in the generation order. */
    function AvailableOutputs(f: FieldName): seq<(FieldName, string)>
      reads this
    {
      OutputsAmong(order, AvailableFields(order, f), outputs)
    }

    /** `get_processed_prompt` */
    function GetProcessedPrompt(f: FieldName): Result<string, PromptError>
      reads this
    {
      PromptFrom(basePrompts, inputs, outputs, order, f)
    }

    /** A prompt is produced exactly when `f` has a base prompt and every field it requires comes before it. */
    lemma {:induction false} ProcessedPromptNeedsDependencies(f: FieldName)
      ensures GetProcessedPrompt(f).Success? <==>
        f in basePrompts && RequiredFieldSet(basePrompts[f].text) <= AvailableFields(order, f)
      ensures f !in basePrompts ==> GetProcessedPrompt(f) == Failure(NoBasePrompt(f))
    {
      if f in basePrompts {
        var missing := RequiredFieldSet(basePrompts[f].text) - AvailableFields(order, f);
        if missing == {} {
          assert forall g :: g in RequiredFieldSet(basePrompts[f].text) ==> g !in missing;
        }
      }
    }

    /** The output substituted for a field's placeholder is its own output, and only
        fields before `f` that have an output are substituted. */
    lemma {:induction false} AvailableOutputsLookup(f: FieldName, g: FieldName)
      ensures T.Lookup(OutputPairs(AvailableOutputs(f)), Value(g))
           == if g in AvailableFields(order, f) && g in outputs then Some(outputs[g]) else None
    {
      if g in AvailableFields(order, f) {
        AvailableFieldsMeaning(order, f, g);
      }
      LookupOutputsAmong(order, AvailableFields(order, f), outputs, g);
    }

    /**
     * On a base prompt rendered from a template, the processed prompt keeps the
     * sections exactly when `f`'s input is not blank, puts `f`'s input in place of
     * `{{input}}`, puts the output of each field that comes before `f` in place of its
     * placeholder, and keeps all other placeholders.
     */
    lemma {:induction false} ProcessedPromptOfTemplate(f: FieldName, t: seq<T.Seg>)
      requires f in basePrompts && basePrompts[f].text == T.Render(t)
      requires T.TemplateOk(t) && T.InputSectionsOnly(t)
      requires RequiredFieldSet(T.Render(t)) <= AvailableFields(order, f)
      requires T.BraceFree(InputFor(f)) && forall g :: g in outputs ==> T.BraceFree(outputs[g])
      ensures GetProcessedPrompt(f) == Success(Strip(T.RenderPieces(T.ResolvePieces(
        T.FlattenInput(t, !IsBlank(InputFor(f))), ProcessPairs(InputFor(f), AvailableOutputs(f))))))
    {
      var outs := AvailableOutputs(f);
      assert forall k :: 0 <= k < |outs| ==> T.BraceFree(outs[k].1);
      var missing := RequiredFieldSet(T.Render(t)) - AvailableFields(order, f);
      assert missing == {};
      assert ValidateFieldDependencies(f) == Success({});
      ProcessRendered(t, InputFor(f), outs);
    }

    /** `get_dependent_fields`: the fields listed after `f`. */
    function GetDependentFields(f: FieldName): seq<FieldName>
      reads this
    {
      After(order, f)
    }

    /** `check_field_dependencies`: whether `f`'s base prompt requires `changed`. */
    function CheckFieldDependencies(f: FieldName, changed: FieldName): bool
      reads this
    {
      DependsOn(basePrompts, f, changed)
    }
  }

  // ---------------------------------------------------------------- GenerationService

  /** Why generating one field failed: its prompt could not be built, or the text service failed. */
  datatype GenError = PromptFailed(cause: PromptError) | ApiFailed(message: string)

  /** What `generate_field_with_dependents` records per field: the text, or the exception. */
  datatype FieldOutcome = Generated(text: string) | Raised(error: GenError)

  /** The result of asking `api` for the text of a prompt that may have failed to build. */
  function Attempt(prompt: Result<string, PromptError>, api: string -> Result<string, string>): Result<string, GenError>
  {
    match prompt
    case Failure(e) => Failure(PromptFailed(e))
    case Success(p) =>
      match api(p)
      case Failure(msg) => Failure(ApiFailed(msg))
      case Success(text) => Success(text)
  }

  /** What the dependents loop records for a field, given the result of generating it. */
  function Outcome(a: Result<string, GenError>): FieldOutcome
  {
    if a.Success? then Generated(a.value) else Raised(a.error)
  }

  /**
   * The results and outputs after the dependents loop of `generate_field_with_dependents`
   * has visited `deps`, starting from `results` and `outputs`: each field whose base
   * prompt requires `f` is generated from the outputs as the fields visited before it
   * left them, and its outcome recorded.
   */
  function RunDependents(prompts: map<FieldName, BasePrompt>, inputs: map<FieldName, string>, order: seq<FieldName>,
                         f: FieldName, api: string -> Result<string, string>, deps: seq<FieldName>,
                         results: map<FieldName, FieldOutcome>, outputs: map<FieldName, string>)
    : (map<FieldName, FieldOutcome>, map<FieldName, string>)
    decreases |deps|
  {
    if |deps| == 0 then (results, outputs)
    else
      var before := RunDependents(prompts, inputs, order, f, api, deps[..|deps| - 1], results, outputs);
      var d := deps[|deps| - 1];
      if !DependsOn(prompts, d, f) then before
      else
        var a := Attempt(PromptFrom(prompts, inputs, before.1, order, d), api);
        (before.0[d := Outcome(a)], if a.Success? then before.1[d := a.value] else before.1)
  }

  /**
   * The results and outputs of `generate_field_with_dependents(f)` on a manager holding
   * these prompts, inputs, outputs and order.
   */
  function GenerateWithDependents(prompts: map<FieldName, BasePrompt>, inputs: map<FieldName, string>,
                                  outputs: map<FieldName, string>, order: seq<FieldName>, f: FieldName,
                                  api: string -> Result<string, string>)
    : (map<FieldName, FieldOutcome>, map<FieldName, string>)
  {
    var a := Attempt(PromptFrom(prompts, inputs, outputs, order, f), api);
    if a.Failure? then (map[f := Raised(a.error)], outputs)
    else RunDependents(prompts, inputs, order, f, api, After(order, f), map[f := Generated(a.value)], outputs[f := a.value])
  }

  /** The loop records an outcome for exactly the fields of `deps` that require `f`, and leaves every other field's result and output alone. */
  lemma {:induction false} RunDependentsRecords(prompts: map<FieldName, BasePrompt>, inputs: map<FieldName, string>,
                                                order: seq<FieldName>, f: FieldName, api: string -> Result<string, string>,
                                                deps: seq<FieldName>, results: map<FieldName, FieldOutcome>,
                                                outputs: map<FieldName, string>, g: FieldName)
    ensures RunDependents(prompts, inputs, order, f, api, deps, results, outputs).0.Keys
         == results.Keys + Regenerated(prompts, deps, f)
    ensures g !in Regenerated(prompts, deps, f) ==>
      && (g in results ==> RunDependents(prompts, inputs, order, f, api, deps, results, outputs).0[g] == results[g])
      && (g in RunDependents(prompts, inputs, order, f, api, deps, results, outputs).1 <==> g in outputs)
      && (g in outputs ==> RunDependents(prompts, inputs, order, f, api, deps, results, outputs).1[g] == outputs[g])
    decreases |deps|
  {
    if |deps| > 0 {
      RunDependentsRecords(prompts, inputs, order, f, api, deps[..|deps| - 1], results, outputs, g);
    }
  }

  /** Every text recorded as generated is the field's output. */
  ghost predicate Agree(results: map<FieldName, FieldOutcome>, outputs: map<FieldName, string>)
  {
    forall g :: g in results && results[g].Generated? ==> g in outputs && outputs[g] == results[g].text
  }

  /** Every text the loop records as generated is the output it left for that field. */
  lemma {:induction false} RunDependentsAgrees(prompts: map<FieldName, BasePrompt>, inputs: map<FieldName, string>,
                                               order: seq<FieldName>, f: FieldName, api: string -> Result<string, string>,
                                               deps: seq<FieldName>, results: map<FieldName, FieldOutcome>,
                                               outputs: map<FieldName, string>)
    requires Agree(results, outputs)
    ensures Agree(RunDependents(prompts, inputs, order, f, api, deps, results, outputs).0,
                  RunDependents(prompts, inputs, order, f, api, deps, results, outputs).1)
    decreases |deps|
  {
    if |deps| > 0 {
      RunDependentsAgrees(prompts, inputs, order, f, api, deps[..|deps| - 1], results, outputs);
      var before := RunDependents(prompts, inputs, order, f, api, deps[..|deps| - 1], results, outputs);
      var (r, o) := RunDependents(prompts, inputs, order, f, api, deps, results, outputs);
      var d := deps[|deps| - 1];
      if DependsOn(prompts, d, f) {
        var a := Attempt(PromptFrom(prompts, inputs, before.1, order, d), api);
        assert r == before.0[d := Outcome(a)];
        assert o == if a.Success? then before.1[d := a.value] else before.1;
        forall g | g in r && r[g].Generated? ensures g in o && o[g] == r[g].text {
          if g != d {
            assert g in before.0 && r[g] == before.0[g];
          }
        }
      }
    }
  }

  /**
   * When `f` is generated, its text stays its result and its output: the order never
   * makes a field available to itself, so a prompt that could be built for `f` does not
   * require `f`, and the loop never regenerates it.
   */
  lemma {:induction false} RootKept(prompts: map<FieldName, BasePrompt>, inputs: map<FieldName, string>,
                                    outputs: map<FieldName, string>, order: seq<FieldName>, f: FieldName,
                                    api: string -> Result<string, string>)
    requires Attempt(PromptFrom(prompts, inputs, outputs, order, f), api).Success?
    ensures f in GenerateWithDependents(prompts, inputs, outputs, order, f, api).0
         && f in GenerateWithDependents(prompts, inputs, outputs, order, f, api).1
    ensures var text := Attempt(PromptFrom(prompts, inputs, outputs, order, f), api).value;
      && GenerateWithDependents(prompts, inputs, outputs, order, f, api).0[f] == Generated(text)
      && GenerateWithDependents(prompts, inputs, outputs, order, f, api).1[f] == text
  {
    var text := Attempt(PromptFrom(prompts, inputs, outputs, order, f), api).value;
    AvailabilityIsStrict(order, f, f);
    assert !DependsOn(prompts, f, f);
    RegeneratedMeaning(prompts, After(order, f), f, f);
    RunDependentsRecords(prompts, inputs, order, f, api, After(order, f), map[f := Generated(text)], outputs[f := text], f);
  }

  /**
   * Generating with dependents records the root field's outcome; on success it
   * records exactly the dependents that require the root.
   */
  lemma {:induction false} GenerateWithDependentsRecords(prompts: map<FieldName, BasePrompt>, inputs: map<FieldName, string>,
                                                         outputs: map<FieldName, string>, order: seq<FieldName>, f: FieldName,
                                                         api: string -> Result<string, string>)
    ensures f in GenerateWithDependents(prompts, inputs, outputs, order, f, api).0
    ensures Attempt(PromptFrom(prompts, inputs, outputs, order, f), api).Failure? ==>
      GenerateWithDependents(prompts, inputs, outputs, order, f, api)
      == (map[f := Raised(Attempt(PromptFrom(prompts, inputs, outputs, order, f), api).error)], outputs)
    ensures Attempt(PromptFrom(prompts, inputs, outputs, order, f), api).Success? ==>
      && GenerateWithDependents(prompts, inputs, outputs, order, f, api).0.Keys == {f} + Regenerated(prompts, After(order, f), f)
      && GenerateWithDependents(prompts, inputs, outputs, order, f, api).0[f]
         == Generated(Attempt(PromptFrom(prompts, inputs, outputs, order, f), api).value)
  {
    var attempt := Attempt(PromptFrom(prompts, inputs, outputs, order, f), api);
    if attempt.Success? {
      RootKept(prompts, inputs, outputs, order, f, api);
      RunDependentsRecords(prompts, inputs, order, f, api, After(order, f), map[f := Generated(attempt.value)],
                           outputs[f := attempt.value], f);
    }
  }

  /**
   * Every text generating with dependents records is the output it leaves for that
   * field, and fields without a record keep their output.
   */
  lemma {:induction false} GenerateWithDependentsAgrees(prompts: map<FieldName, BasePrompt>, inputs: map<FieldName, string>,
                                                        outputs: map<FieldName, string>, order: seq<FieldName>, f: FieldName,
                                                        api: string -> Result<string, string>)
    ensures Agree(GenerateWithDependents(prompts, inputs, outputs, order, f, api).0,
                  GenerateWithDependents(prompts, inputs, outputs, order, f, api).1)
    ensures forall g :: g !in GenerateWithDependents(prompts, inputs, outputs, order, f, api).0 ==>
      && (g in GenerateWithDependents(prompts, inputs, outputs, order, f, api).1 <==> g in outputs)
      && (g in outputs ==> GenerateWithDependents(prompts, inputs, outputs, order, f, api).1[g] == outputs[g])
  {
    var attempt := Attempt(PromptFrom(prompts, inputs, outputs, order, f), api);
    if attempt.Success? {
      var start := map[f := Generated(attempt.value)];
      var outs := outputs[f := attempt.value];
      var deps := After(order, f);
      var r := RunDependents(prompts, inputs, order, f, api, deps, start, outs);
      assert GenerateWithDependents(prompts, inputs, outputs, order, f, api) == r;
      RunDependentsAgrees(prompts, inputs, order, f, api, deps, start, outs);
      forall g | g !in r.0
        ensures (g in r.1 <==> g in outputs) && (g in outputs ==> r.1[g] == outputs[g])
      {
        RunDependentsRecords(prompts, inputs, order, f, api, deps, start, outs, g);
      }
    }
  }

  /**
   * Generates fields through a text-completion service. The service is the
   * function `api` from prompt to text or error message.
   */
  class GenerationService {
    const pm: PromptManager

    constructor(manager: PromptManager)
      ensures pm == manager
    {
      pm := manager;
    }

    /** `generate_field`: builds the prompt, asks the service, and stores the text as `f`'s output. */
    method GenerateField(f: FieldName, api: string -> Result<string, string>) returns (r: Result<string, GenError>)
      modifies pm
      ensures r == Attempt(PromptFrom(old(pm.basePrompts), old(pm.inputs), old(pm.outputs), old(pm.order), f), api)
      ensures pm.outputs == if r.Success? then old(pm.outputs)[f := r.value] else old(pm.outputs)
      ensures pm.basePrompts == old(pm.basePrompts) && pm.inputs == old(pm.inputs) && pm.order == old(pm.order)
    {
      match pm.GetProcessedPrompt(f)
      case Failure(e) =>
        r := Failure(PromptFailed(e));
      case Success(prompt) =>
        match api(prompt)
        case Failure(msg) =>
          r := Failure(ApiFailed(msg));
        case Success(text) =>
          pm.SetOutput(f, text);
          r := Success(text);
    }

    /** Generates the dependent `d` and records its outcome in `results`. */
    method Regenerate(d: FieldName, api: string -> Result<string, string>, results: map<FieldName, FieldOutcome>)
      returns (updated: map<FieldName, FieldOutcome>)
      modifies pm
      ensures updated.Keys == results.Keys + {d}
      ensures forall g :: g != d && g in results ==> updated[g] == results[g]
      ensures updated[d].Generated? ==> pm.outputs == old(pm.outputs)[d := updated[d].text]
      ensures updated[d].Raised? ==> pm.outputs == old(pm.outputs)
      ensures var a := Attempt(PromptFrom(old(pm.basePrompts), old(pm.inputs), old(pm.outputs), old(pm.order), d), api);
        updated == results[d := Outcome(a)] && pm.outputs == if a.Success? then old(pm.outputs)[d := a.value] else old(pm.outputs)
      ensures pm.basePrompts == old(pm.basePrompts) && pm.inputs == old(pm.inputs) && pm.order == old(pm.order)
    {
      var out := GenerateField(d, api);
      updated := results[d := Outcome(out)];
    }

    /** The loop of `generate_field_with_dependents`: regenerates each of `deps` whose base prompt requires `f`. */
    method RegenerateDependents(f: FieldName, deps: seq<FieldName>, api: string -> Result<string, string>,
                                start: map<FieldName, FieldOutcome>)
      returns (results: map<FieldName, FieldOutcome>)
      modifies pm
      requires forall g :: g in start && start[g].Generated? ==> g in pm.outputs && pm.outputs[g] == start[g].text
      ensures results.Keys == start.Keys + Regenerated(old(pm.basePrompts), deps, f)
      ensures forall g :: g in start && g !in Regenerated(old(pm.basePrompts), deps, f) ==> results[g] == start[g]
      ensures forall g :: g in results && results[g].Generated? ==> g in pm.outputs && pm.outputs[g] == results[g].text
      ensures forall g :: g !in results ==>
        (g in pm.outputs <==> g in old(pm.outputs)) && (g in old(pm.outputs) ==> pm.outputs[g] == old(pm.outputs)[g])
      ensures pm.basePrompts == old(pm.basePrompts) && pm.inputs == old(pm.inputs) && pm.order == old(pm.order)
      ensures (results, pm.outputs)
           == RunDependents(old(pm.basePrompts), old(pm.inputs), old(pm.order), f, api, deps, start, old(pm.outputs))
    {
      results := start;
      var prompts := pm.basePrompts;
      var i := 0;
      while i < |deps|
        invariant 0 <= i <= |deps|
        invariant pm.basePrompts == prompts && pm.inputs == old(pm.inputs) && pm.order == old(pm.order)
        invariant (results, pm.outputs)
               == RunDependents(prompts, pm.inputs, pm.order, f, api, deps[..i], start, old(pm.outputs))
      {
        var d := deps[i];
        assert deps[..i + 1][..i] == deps[..i];
        if pm.CheckFieldDependencies(d, f) {
          results := Regenerate(d, api, results);
        }
        i := i + 1;
      }
      assert deps[..i] == deps;
      RunDependentsRecords(prompts, pm.inputs, pm.order, f, api, deps, start, old(pm.outputs), f);
      forall g ensures g !in Regenerated(prompts, deps, f) ==>
        && (g in start ==> results[g] == start[g])
        && (g in pm.outputs <==> g in old(pm.outputs))
        && (g in old(pm.outputs) ==> pm.outputs[g] == old(pm.outputs)[g])
      {
        RunDependentsRecords(prompts, pm.inputs, pm.order, f, api, deps, start, old(pm.outputs), g);
      }
      RunDependentsAgrees(prompts, pm.inputs, pm.order, f, api, deps, start, old(pm.outputs));
    }

    /**
     * `generate_field_with_dependents`: generates `f`; if that succeeds, regenerates
     * each field after `f` in the order whose base prompt requires `f` directly,
     * recording a dependent's failure and moving on. A failure of `f` itself is
     * recorded and ends the call.
     */
    method GenerateFieldWithDependents(f: FieldName, api: string -> Result<string, string>)
      returns (results: map<FieldName, FieldOutcome>)
      modifies pm
      ensures pm.basePrompts == old(pm.basePrompts) && pm.inputs == old(pm.inputs) && pm.order == old(pm.order)
      ensures f in results
      ensures var attempt := Attempt(PromptFrom(old(pm.basePrompts), old(pm.inputs), old(pm.outputs), old(pm.order), f), api);
        if attempt.Failure? then results == map[f := Raised(attempt.error)] && pm.outputs == old(pm.outputs)
        else results.Keys == {f} + Regenerated(pm.basePrompts, After(pm.order, f), f) && results[f] == Generated(attempt.value)
      ensures (results, pm.outputs)
           == GenerateWithDependents(old(pm.basePrompts), old(pm.inputs), old(pm.outputs), old(pm.order), f, api)
      ensures forall g :: g in results && results[g].Generated? ==> g in pm.outputs && pm.outputs[g] == results[g].text
      ensures forall g :: g !in results ==>
        (g in pm.outputs <==> g in old(pm.outputs)) && (g in old(pm.outputs) ==> pm.outputs[g] == old(pm.outputs)[g])
    {
      ghost var prompts, inputs, outputs, order := pm.basePrompts, pm.inputs, pm.outputs, pm.order;
      var root := GenerateField(f, api);
      if root.Failure? {
        results := map[f := Raised(root.error)];
      } else {
        var deps := pm.GetDependentFields(f);
        var start := map[f := Generated(root.value)];
        assert forall g :: g in start && start[g].Generated? ==> g in pm.outputs && pm.outputs[g] == start[g].text;
        results := RegenerateDependents(f, deps, api, start);
      }
      GenerateWithDependentsRecords(prompts, inputs, outputs, order, f, api);
      GenerateWithDependentsAgrees(prompts, inputs, outputs, order, f, api);
    }
  }
}
