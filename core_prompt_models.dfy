/**
 * Prompt templates and prompt sets of the `core` package: a template names
 * the fields it requires, and a prompt set lists its fields in the order
 * they are generated.
 */
module CorePromptModels {
  import opened Wrappers

  /** A prompt template. Field names are plain strings here; the uuid is a number. */
  datatype PromptTemplate = PromptTemplate(
    content: string,
    fieldName: string,
    description: string,
    requiredFields: set<string>,
    optionalFields: set<string>,
    systemTags: set<string>,
    version: string,
    id: nat)

  /** A named collection of templates, keyed by field name, with the generation order. */
  datatype PromptSet = PromptSet(
    name: string,
    description: string,
    prompts: map<string, PromptTemplate>,
    generationOrder: seq<string>,
    version: string,
    id: nat)

  /** `get_prompt_for_field`: the template for `f`, `None` for a field without one. */
  function GetPromptForField(ps: PromptSet, f: string): (r: Option<PromptTemplate>)
    ensures r.None? <==> f !in ps.prompts
    ensures r.Some? ==> r.value == ps.prompts[f]
  {
    if f in ps.prompts then Some(ps.prompts[f]) else None
  }

  /** The fields listed before position `i` of `order`. */
  function Before(order: seq<string>, i: nat): set<string>
    requires i <= |order|
  {
    set k | 0 <= k < i :: order[k]
  }

  /** Every field of the order has a template whose required fields all come earlier. */
  ghost predicate RequiredComeEarlier(ps: PromptSet)
  {
    forall i :: 0 <= i < |ps.generationOrder| ==>
      ps.generationOrder[i] in ps.prompts
      && ps.prompts[ps.generationOrder[i]].requiredFields <= Before(ps.generationOrder, i)
  }

  /** The loop of `validate_generation_order` from position `idx` on. */
  function CheckFrom(ps: PromptSet, idx: nat): (ok: bool)
    requires idx <= |ps.generationOrder|
    requires forall i :: 0 <= i < |ps.generationOrder| ==> ps.generationOrder[i] in ps.prompts
    ensures ok <==> forall i :: idx <= i < |ps.generationOrder| ==>
      ps.prompts[ps.generationOrder[i]].requiredFields <= Before(ps.generationOrder, i)
    decreases |ps.generationOrder| - idx
  {
    if idx == |ps.generationOrder| then true
    else
      var f := ps.generationOrder[idx];
      if !(ps.prompts[f].requiredFields <= Before(ps.generationOrder, idx)) then false
      else CheckFrom(ps, idx + 1)
  }

  /**
   * `validate_generation_order`: the templates' fields are exactly the fields of the
   * order, and each field's required fields all come strictly earlier in the order.
   */
  function ValidateGenerationOrder(ps: PromptSet): (ok: bool)
    ensures ok <==> ps.prompts.Keys == (set i | 0 <= i < |ps.generationOrder| :: ps.generationOrder[i])
                    && RequiredComeEarlier(ps)
  {
    var listed := set i | 0 <= i < |ps.generationOrder| :: ps.generationOrder[i];
    if ps.prompts.Keys != listed then false
    else
      assert forall i :: 0 <= i < |ps.generationOrder| ==> ps.generationOrder[i] in listed;
      CheckFrom(ps, 0)
  }

  /** A field that requires itself makes the set invalid, since it is never listed before itself. */
  lemma {:induction false} SelfRequirementInvalid(ps: PromptSet, i: nat)
    requires i < |ps.generationOrder| && ps.generationOrder[i] in ps.prompts
    requires ps.generationOrder[i] in ps.prompts[ps.generationOrder[i]].requiredFields
    requires forall k :: 0 <= k < i ==> ps.generationOrder[k] != ps.generationOrder[i]
    ensures !ValidateGenerationOrder(ps)
  {
    assert ps.generationOrder[i] !in Before(ps.generationOrder, i);
  }

  /** The optional fields of the templates play no part in the validity of a set. */
  lemma {:induction false} OptionalFieldsIgnored(ps: PromptSet, opt: map<string, set<string>>)
    ensures var ps' := ps.(prompts := map f | f in ps.prompts ::
              ps.prompts[f].(optionalFields := if f in opt then opt[f] else {}));
            ValidateGenerationOrder(ps') == ValidateGenerationOrder(ps)
  {
    var ps' := ps.(prompts := map f | f in ps.prompts ::
      ps.prompts[f].(optionalFields := if f in opt then opt[f] else {}));
    assert ps'.prompts.Keys == ps.prompts.Keys;
    assert RequiredComeEarlier(ps') <==> RequiredComeEarlier(ps);
  }

  /** Swapping two adjacent fields of a valid order breaks it when the later one requires the earlier. */
  lemma {:induction false} SwappingDependentsInvalidates(ps: PromptSet, i: nat)
    requires ValidateGenerationOrder(ps)
    requires i + 1 < |ps.generationOrder|
    requires ps.generationOrder[i] in ps.prompts[ps.generationOrder[i + 1]].requiredFields
    requires forall k :: 0 <= k < i ==> ps.generationOrder[k] != ps.generationOrder[i]
    ensures !ValidateGenerationOrder(ps.(generationOrder := ps.generationOrder[..i]
              + [ps.generationOrder[i + 1], ps.generationOrder[i]] + ps.generationOrder[i + 2..]))
  {
    var o := ps.generationOrder;
    var o' := o[..i] + [o[i + 1], o[i]] + o[i + 2..];
    var ps' := ps.(generationOrder := o');
    assert o'[i] == o[i + 1];
    assert forall k :: 0 <= k < i ==> o'[k] == o[k];
    assert o[i] !in Before(o', i);
    assert !RequiredComeEarlier(ps');
  }
}
