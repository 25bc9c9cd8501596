/**
 * The prompt service of the package-style application: loading a prompt set from
 * its parsed JSON data, the data it saves, prompt processing, the dependency test,
 * set creation and the generation order of the current set.
 */
module SrcPromptService {
  import opened Wrappers
  import opened IsoTime
  import opened Strings
  import opened Tags
  import opened Fields
  import opened Dicts
  import opened SrcModels
  import CG = CharacterGen

  /** One entry of the `prompts` object of a prompt-set file. */
  datatype PromptEntry = PromptEntry(text: Option<string>, requiredFields: set<string>, conditionalTags: seq<string>)

  /** A prompt-set file as `json.load` returns it; absent keys are `None`. */
  datatype PromptFile = PromptFile(
    name: Option<string>,
    description: Option<string>,
    createdAt: Option<Timestamp>,
    modifiedAt: Option<Timestamp>,
    prompts: Option<Dict<string, PromptEntry>>,
    orders: Option<map<string, int>>)

  /** Why `load_prompt_set` raised `PromptLoadError`. */
  datatype LoadError = MissingKey(key: string) | BadTemplate(field: FieldName, error: TemplateError) | BadTimestamp(text: string)

  /** `datetime.fromisoformat(data.get(key, now))`: the file's time, or `now` where it has none. */
  function StampOf(t: Option<Timestamp>, now: Timestamp): (r: Result<Timestamp, LoadError>)
    ensures r.Success? <==> IsIsoFormat(if t.Some? then t.value else now)
    ensures r.Success? ==> r.value == if t.Some? then t.value else now
    ensures r.Failure? ==> r.error == LoadError.BadTimestamp(if t.Some? then t.value else now)
  {
    var text := if t.Some? then t.value else now;
    if IsIsoFormat(text) then Success(text) else Failure(LoadError.BadTimestamp(text))
  }

  /** Every template object passed `PromptTemplate.__post_init__`. */
  ghost predicate Constructed(t: PromptTemplate)
  {
    Count(t.text, InputOpen) == Count(t.text, InputClose) && CG.RequiredFieldSet(t.text) <= t.requiredFields
  }

  /** Each template is stored under its own field, once. */
  ghost predicate WellKeyed(templates: Dict<FieldName, PromptTemplate>)
  {
    DistinctKeys(templates) && forall e :: e in templates ==> e.0 == e.1.field
  }

  // ---------------------------------------------------------------- load

  /** `data['orders'].get(key, 0)`. */
  function OrderFor(orders: map<string, int>, key: string): int
  {
    if key in orders then orders[key] else 0
  }

  /** Whether loading gets past one `prompts` entry: it names no field, or it has a text with balanced markers and the file has orders. */
  predicate EntryLoads(key: string, entry: PromptEntry, orders: Option<map<string, int>>)
  {
    FromValue(key).None?
    || (entry.text.Some? && orders.Some? && Count(entry.text.value, InputOpen) == Count(entry.text.value, InputClose))
  }

  /** The template one `prompts` entry becomes, added to `acc`; an entry whose key names no field is skipped. */
  function LoadEntry(acc: Dict<FieldName, PromptTemplate>, key: string, entry: PromptEntry, orders: Option<map<string, int>>)
    : (r: Result<Dict<FieldName, PromptTemplate>, LoadError>)
    ensures r.Success? <==> EntryLoads(key, entry, orders)
    ensures FromValue(key).None? ==> r == Success(acc)
  {
    match FromValue(key)
    case None => Success(acc)
    case Some(f) =>
      if entry.text.None? then Failure(MissingKey("text"))
      else if orders.None? then Failure(MissingKey("orders"))
      else
        match TemplateFrom(entry.text.value, f, OrderFor(orders.value, key), {})
        case Failure(e) => Failure(BadTemplate(f, e))
        case Success(t) => Success(Put(acc, f, t))
  }

  /** The templates dictionary `load_prompt_set` builds from the `prompts` entries, in order. */
  function LoadTemplates(prompts: Dict<string, PromptEntry>, orders: Option<map<string, int>>)
    : Result<Dict<FieldName, PromptTemplate>, LoadError>
  {
    if |prompts| == 0 then Success([])
    else
      var last := prompts[|prompts| - 1];
      match LoadTemplates(prompts[..|prompts| - 1], orders)
      case Failure(e) => Failure(e)
      case Success(acc) => LoadEntry(acc, last.0, last.1, orders)
  }

  /** Loading succeeds exactly when it gets past every entry. */
  lemma {:induction false} LoadTemplatesSucceeds(prompts: Dict<string, PromptEntry>, orders: Option<map<string, int>>)
    ensures LoadTemplates(prompts, orders).Success?
        <==> forall k :: 0 <= k < |prompts| ==> EntryLoads(prompts[k].0, prompts[k].1, orders)
    decreases |prompts|
  {
    if |prompts| > 0 {
      var init, last := prompts[..|prompts| - 1], prompts[|prompts| - 1];
      LoadTemplatesSucceeds(init, orders);
      assert LoadTemplates(init, orders).Success? ==>
        LoadTemplates(prompts, orders) == LoadEntry(LoadTemplates(init, orders).value, last.0, last.1, orders);
      EachSnoc(prompts, init, (e: (string, PromptEntry)) => EntryLoads(e.0, e.1, orders));
    }
  }

  /** Every element of `init + [last]` passes exactly when every element of `init` and `last` do. */
  lemma {:induction false} EachSnoc<T>(s: seq<T>, init: seq<T>, p: T -> bool)
    requires |s| > 0 && init == s[..|s| - 1]
    ensures (forall k :: 0 <= k < |s| ==> p(s[k]))
        <==> (forall k :: 0 <= k < |init| ==> p(init[k])) && p(s[|s| - 1])
  {
    assert forall k :: 0 <= k < |init| ==> init[k] == s[k];
  }

  /**
   * What loading stores under a field: nothing when no entry has the field's value
   * as key; otherwise a template for that field with the entry's text, the order the
   * file gives the key (0 when it gives none), exactly the fields the text names as
   * required fields, and no conditional tags.
   */
  lemma {:induction false} LoadTemplatesGet(prompts: Dict<string, PromptEntry>, orders: Option<map<string, int>>, f: FieldName)
    requires DistinctKeys(prompts) && LoadTemplates(prompts, orders).Success?
    ensures var r := LoadTemplates(prompts, orders).value;
      && (Get(prompts, Value(f)).None? ==> Get(r, f).None?)
      && (Get(prompts, Value(f)).Some? ==>
            var entry := Get(prompts, Value(f)).value;
            && entry.text.Some? && orders.Some?
            && Get(r, f) == Some(Loaded(entry.text.value, f, OrderFor(orders.value, Value(f)))))
    decreases |prompts|
  {
    if |prompts| > 0 {
      var init, last := prompts[..|prompts| - 1], prompts[|prompts| - 1];
      assert prompts == init + [last];
      DistinctSnoc(init, last);
      LoadTemplatesGet(init, orders, f);
      GetSnoc(init, last, Value(f));
      LoadEntryGet(LoadTemplates(init, orders).value, last.0, last.1, orders, f);
    }
  }

  /** The template loading builds from a text for a field: the fields its text names are its required fields. */
  function Loaded(text: string, f: FieldName, order: int): PromptTemplate
  {
    PromptTemplate(text, f, order, CG.RequiredFieldSet(text), [])
  }

  /** What one entry adds under a field. */
  lemma {:induction false} LoadEntryGet(acc: Dict<FieldName, PromptTemplate>, key: string, entry: PromptEntry,
                                        orders: Option<map<string, int>>, f: FieldName)
    requires LoadEntry(acc, key, entry, orders).Success?
    ensures Get(LoadEntry(acc, key, entry, orders).value, f)
         == if key == Value(f) then Some(Loaded(entry.text.value, f, OrderFor(orders.value, key))) else Get(acc, f)
  {
    FromValueInvertsValue(f, key);
    if FromValue(key).Some? {
      var g := FromValue(key).value;
      var t := TemplateFrom(entry.text.value, g, OrderFor(orders.value, key), {}).value;
      assert t == Loaded(entry.text.value, g, OrderFor(orders.value, key)) by {
        NoFieldIsReserved();
        forall h ensures h in t.requiredFields <==> h in CG.RequiredFieldSet(entry.text.value) {
          CG.TagFieldsMeaning(FindFieldTags(entry.text.value), h);
        }
      }
    }
  }

  /** The templates loading builds are stored under their own fields, once each. */
  lemma {:induction false} LoadTemplatesWellKeyed(prompts: Dict<string, PromptEntry>, orders: Option<map<string, int>>)
    requires LoadTemplates(prompts, orders).Success?
    ensures WellKeyed(LoadTemplates(prompts, orders).value)
    decreases |prompts|
  {
    if |prompts| > 0 {
      var init, last := prompts[..|prompts| - 1], prompts[|prompts| - 1];
      LoadTemplatesWellKeyed(init, orders);
      var acc := LoadTemplates(init, orders).value;
      if FromValue(last.0).Some? {
        var f := FromValue(last.0).value;
        var t := TemplateFrom(last.1.text.value, f, OrderFor(orders.value, last.0), {}).value;
        forall e | e in Put(acc, f, t) ensures e.0 == e.1.field {
          PutMember(acc, f, t, e);
        }
      }
    }
  }

  /** An entry of a dictionary after `d[k] = v` is the new entry or was there before. */
  lemma {:induction false} PutMember<K(!new), V>(d: Dict<K, V>, k: K, v: V, e: (K, V))
    requires DistinctKeys(d) && e in Put(d, k, v)
    ensures e == (k, v) || (e.0 != k && e in d)
    decreases |d|
  {
    if |d| > 0 {
      assert d == [d[0]] + d[1..];
      DistinctCons(d[0], d[1..]);
      KeysAt(d[1..], k);
      if d[0].0 != k {
        assert Put(d, k, v) == [d[0]] + Put(d[1..], k, v);
        if e != d[0] {
          PutMember(d[1..], k, v, e);
        }
      } else if e != (k, v) {
        assert e in d[1..];
      }
    }
  }

  /** The prompt set `load_prompt_set(name)` builds from the file's data, stamped `now` where the file has no times. */
  function LoadSpec(name: string, data: PromptFile, now: Timestamp): Result<PromptSet, LoadError>
  {
    if data.prompts.None? then Failure(MissingKey("prompts"))
    else match LoadTemplates(data.prompts.value, data.orders)
      case Failure(e) => Failure(e)
      case Success(templates) =>
        var createdAt :- StampOf(data.createdAt, now);
        var modifiedAt :- StampOf(data.modifiedAt, now);
        Success(PromptSet(name, templates, if data.description.Some? then data.description.value else "", createdAt, modifiedAt))
  }

  /** Once loading fails at some entry, it fails with that error whatever follows. */
  lemma {:induction false} LoadPrefixFails(prompts: Dict<string, PromptEntry>, orders: Option<map<string, int>>, i: nat)
    requires i <= |prompts| && LoadTemplates(prompts[..i], orders).Failure?
    ensures LoadTemplates(prompts, orders) == LoadTemplates(prompts[..i], orders)
    decreases |prompts|
  {
    if i < |prompts| {
      var init := prompts[..|prompts| - 1];
      assert init[..i] == prompts[..i];
      LoadPrefixFails(init, orders, i);
    } else {
      assert prompts[..i] == prompts;
    }
  }

  /** Loading up to one entry further. */
  lemma {:induction false} LoadOneMore(prompts: Dict<string, PromptEntry>, orders: Option<map<string, int>>, i: nat)
    requires i < |prompts| && LoadTemplates(prompts[..i], orders).Success?
    ensures LoadTemplates(prompts[..i + 1], orders)
         == LoadEntry(LoadTemplates(prompts[..i], orders).value, prompts[i].0, prompts[i].1, orders)
  {
    assert prompts[..i + 1][..i] == prompts[..i];
  }

  /** The prompt service's state: the prompt set loaded last. */
  class PromptService {
    var currentSet: Option<PromptSet>

    constructor()
      ensures currentSet == None
    {
      currentSet := None;
    }

    /**
     * `load_prompt_set(name)` on the file's parsed data: builds the templates entry by
     * entry, raising on the first entry it cannot load, and makes the set current.
     */
    method LoadPromptSet(name: string, data: PromptFile, now: Timestamp) returns (r: Result<PromptSet, LoadError>)
      modifies this
      ensures r == LoadSpec(name, data, now)
      ensures currentSet == if r.Success? then Some(r.value) else old(currentSet)
    {
      if data.prompts.None? {
        return Failure(MissingKey("prompts"));
      }
      var loaded := LoadEntries(data.prompts.value, data.orders);
      if loaded.Failure? {
        return Failure(loaded.error);
      }
      var templates := loaded.value;
      var createdAt := StampOf(data.createdAt, now);
      if createdAt.Failure? {
        return Failure(createdAt.error);
      }
      var modifiedAt := StampOf(data.modifiedAt, now);
      if modifiedAt.Failure? {
        return Failure(modifiedAt.error);
      }
      var ps := PromptSet(name, templates, if data.description.Some? then data.description.value else "",
                          createdAt.value, modifiedAt.value);
      currentSet := Some(ps);
      r := Success(ps);
    }
  }

  /** The loop of `load_prompt_set`: builds the templates entry by entry, raising on the
      first entry it cannot load. */
  method LoadEntries(prompts: Dict<string, PromptEntry>, orders: Option<map<string, int>>)
    returns (r: Result<Dict<FieldName, PromptTemplate>, LoadError>)
    ensures r == LoadTemplates(prompts, orders)
  {
    var templates: Dict<FieldName, PromptTemplate> := [];
    var i := 0;
    while i < |prompts|
      invariant 0 <= i <= |prompts|
      invariant LoadTemplates(prompts[..i], orders) == Success(templates)
    {
      LoadOneMore(prompts, orders, i);
      var next := LoadOne(templates, prompts[i].0, prompts[i].1, orders);
      if next.Failure? {
        LoadPrefixFails(prompts, orders, i + 1);
        return Failure(next.error);
      }
      templates := next.value;
      i := i + 1;
    }
    assert prompts[..i] == prompts;
    r := Success(templates);
  }

  /** One pass of that loop: the template one entry becomes, or the error it raises. */
  method LoadOne(acc: Dict<FieldName, PromptTemplate>, key: string, entry: PromptEntry, orders: Option<map<string, int>>)
    returns (r: Result<Dict<FieldName, PromptTemplate>, LoadError>)
    ensures r == LoadEntry(acc, key, entry, orders)
  {
    match FromValue(key) {
    case None =>
      r := Success(acc);
    case Some(f) =>
      if entry.text.None? {
        return Failure(MissingKey("text"));
      }
      if orders.None? {
        return Failure(MissingKey("orders"));
      }
      var t := NewPromptTemplate(entry.text.value, f, OrderFor(orders.value, key), {});
      if t.Failure? {
        return Failure(BadTemplate(f, t.error));
      }
      r := Success(Put(acc, f, t.value));
    }
  }

  // ---------------------------------------------------------------- save

  /** The `prompts` entry `save_prompt_set` writes for a template. */
  function SaveEntry(t: PromptTemplate): PromptEntry
  {
    PromptEntry(Some(t.text), set f | f in t.requiredFields :: Value(f), t.conditionalTags)
  }

  /** The `prompts` object: each template under its own field's value. */
  function SavePrompts(ts: Dict<FieldName, PromptTemplate>): Dict<string, PromptEntry>
  {
    if |ts| == 0 then []
    else
      var last := ts[|ts| - 1];
      Put(SavePrompts(ts[..|ts| - 1]), Value(last.1.field), SaveEntry(last.1))
  }

  /** The `orders` object: each template's order under its own field's value. */
  function SaveOrders(ts: Dict<FieldName, PromptTemplate>): map<string, int>
  {
    if |ts| == 0 then map[]
    else
      var last := ts[|ts| - 1];
      SaveOrders(ts[..|ts| - 1])[Value(last.1.field) := last.1.generationOrder]
  }

  /** The data `save_prompt_set` writes, modified `now`. */
  function SaveData(ps: PromptSet, now: Timestamp): PromptFile
  {
    PromptFile(Some(ps.name), Some(ps.description), Some(ps.createdAt), Some(now),
               Some(SavePrompts(ps.templates)), Some(SaveOrders(ps.templates)))
  }

  /** A template as loading rebuilds it: same text, field and order, the fields its text names, no conditional tags. */
  function Reload(t: PromptTemplate): PromptTemplate
  {
    PromptTemplate(t.text, t.field, t.generationOrder, CG.RequiredFieldSet(t.text), [])
  }

  function ReloadAll(ts: Dict<FieldName, PromptTemplate>): (r: Dict<FieldName, PromptTemplate>)
    ensures |r| == |ts| && forall k :: 0 <= k < |ts| ==> r[k] == (ts[k].0, Reload(ts[k].1))
  {
    if |ts| == 0 then []
    else ReloadAll(ts[..|ts| - 1]) + [(ts[|ts| - 1].0, Reload(ts[|ts| - 1].1))]
  }

  /** Keys of the saved `prompts` object are the values of the templates' fields. */
  lemma {:induction false} SavePromptsKeys(ts: Dict<FieldName, PromptTemplate>, f: FieldName)
    ensures Value(f) in Keys(SavePrompts(ts)) <==> exists e :: e in ts && e.1.field == f
    decreases |ts|
  {
    if |ts| > 0 {
      var init := ts[..|ts| - 1];
      SavePromptsKeys(init, f);
      assert ts == init + [ts[|ts| - 1]];
      ValueInjective();
    }
  }

  /** The saved objects, read by load's mapping with any orders object that agrees on these templates. */
  lemma {:induction false} SaveLoadTemplates(ts: Dict<FieldName, PromptTemplate>, orders: map<string, int>)
    requires SaveReady(ts, orders)
    ensures LoadTemplates(SavePrompts(ts), Some(orders)) == Success(ReloadAll(ts))
    decreases |ts|
  {
    if |ts| > 0 {
      var init, t := ts[..|ts| - 1], ts[|ts| - 1].1;
      SaveSnoc(ts, orders);
      SaveLoadTemplates(init, orders);
      var saved := SavePrompts(init) + [(Value(t.field), SaveEntry(t))];
      assert saved[..|saved| - 1] == SavePrompts(init);
      SaveLoadStep(ReloadAll(init), t, orders);
    }
  }

  /** What saving and reloading needs of a template dictionary: well keyed, built by
      the constructor, and with each template's order recorded under its key. */
  ghost predicate SaveReady(ts: Dict<FieldName, PromptTemplate>, orders: map<string, int>)
  {
    && WellKeyed(ts)
    && (forall e :: e in ts ==> Constructed(e.1))
    && (forall e :: e in ts ==> Value(e.0) in orders && orders[Value(e.0)] == e.1.generationOrder)
  }

  /** Saving one more template of a well-keyed dictionary appends its entry under a new key. */
  lemma {:induction false} SaveSnoc(ts: Dict<FieldName, PromptTemplate>, orders: map<string, int>)
    requires |ts| > 0 && SaveReady(ts, orders)
    ensures var init, last := ts[..|ts| - 1], ts[|ts| - 1];
      && SaveReady(init, orders)
      && SavePrompts(ts) == SavePrompts(init) + [(Value(last.1.field), SaveEntry(last.1))]
      && last.1.field !in Keys(ReloadAll(init))
      && Constructed(last.1) && Value(last.1.field) in orders
      && orders[Value(last.1.field)] == last.1.generationOrder
  {
    var init, last := ts[..|ts| - 1], ts[|ts| - 1];
    SaveReadyPrefix(ts, orders);
    SavePromptsKeys(init, last.1.field);
    KeysAt(ReloadAll(init), last.1.field);
  }

  /** The templates before the last one are ready too, and none has the last one's field. */
  lemma {:induction false} SaveReadyPrefix(ts: Dict<FieldName, PromptTemplate>, orders: map<string, int>)
    requires |ts| > 0 && SaveReady(ts, orders)
    ensures var init, last := ts[..|ts| - 1], ts[|ts| - 1];
      && SaveReady(init, orders)
      && last in ts
      && last.1.field !in Keys(init)
  {
    var init, last := ts[..|ts| - 1], ts[|ts| - 1];
    assert ts == init + [last];
    DistinctSnoc(init, last);
    forall e | e in init ensures e in ts {
      var j :| 0 <= j < |init| && init[j] == e;
      assert ts[j] == e;
    }
  }

  /** Loading the entry saved for one more template appends its reloaded form. */
  lemma {:induction false} SaveLoadStep(acc: Dict<FieldName, PromptTemplate>, t: PromptTemplate, orders: map<string, int>)
    requires Constructed(t) && Value(t.field) in orders && orders[Value(t.field)] == t.generationOrder
    requires t.field !in Keys(acc)
    ensures LoadEntry(acc, Value(t.field), SaveEntry(t), Some(orders)) == Success(acc + [(t.field, Reload(t))])
  {
    FromValueInvertsValue(t.field, "");
    var t' := TemplateFrom(t.text, t.field, t.generationOrder, {}).value;
    assert t' == Reload(t) by {
      NoFieldIsReserved();
      forall h ensures h in t'.requiredFields <==> h in CG.RequiredFieldSet(t.text) {
        CG.TagFieldsMeaning(FindFieldTags(t.text), h);
      }
    }
  }

  /** What save writes, load reads back: the same name, description and creation time, and each template with its field, text and order, in the same order. */
  lemma {:induction false} SaveLoadRoundTrip(ps: PromptSet, now: Timestamp, later: Timestamp)
    requires WellKeyed(ps.templates) && forall e :: e in ps.templates ==> Constructed(e.1)
    requires IsIsoFormat(ps.createdAt) && IsIsoFormat(now)
    ensures LoadSpec(ps.name, SaveData(ps, now), later)
         == Success(PromptSet(ps.name, ReloadAll(ps.templates), ps.description, ps.createdAt, now))
  {
    SaveOrdersHolds(ps.templates);
    SaveLoadTemplates(ps.templates, SaveOrders(ps.templates));
  }

  /** The saved orders give each template of a well-keyed dictionary its own order. */
  lemma {:induction false} SaveOrdersHolds(ts: Dict<FieldName, PromptTemplate>)
    requires WellKeyed(ts)
    ensures forall e :: e in ts ==> Value(e.0) in SaveOrders(ts) && SaveOrders(ts)[Value(e.0)] == e.1.generationOrder
    decreases |ts|
  {
    if |ts| > 0 {
      var init, last := ts[..|ts| - 1], ts[|ts| - 1];
      assert ts == init + [last];
      DistinctSnoc(init, last);
      SaveOrdersHolds(init);
      ValueInjective();
      forall e | e in init ensures e.0 != last.0 {
        KeysAt(init, e.0);
        KeysAt(init, last.0);
      }
    }
  }

  // ---------------------------------------------------------------- processing and queries

  /**
   * `process_prompt(template, input_text, context)`: the same section handling,
   * substitutions and strip as `BasePrompt.process`, with the context's entries in
   * their dictionary order.
   */
  method ProcessPrompt(template: PromptTemplate, input: string, context: Dict<FieldName, string>) returns (r: string)
    ensures r == CG.ProcessSpec(template.text, input, context)
  {
    r := CG.Process(CG.BasePrompt(template.text), input, context);
  }

  /** `validate_dependencies`: every required field is available. */
  function ValidateDependencies(template: PromptTemplate, available: set<FieldName>): (r: bool)
    ensures r <==> template.requiredFields - available == {}
    ensures !r <==> exists f :: f in template.requiredFields && f !in available
  {
    var missing := template.requiredFields - available;
    assert missing == {} ==> template.requiredFields <= available by {
      if missing == {} {
        forall f | f in template.requiredFields ensures f in available {
          assert f !in missing;
        }
      }
    }
    template.requiredFields <= available
  }

  /** `create_prompt_set`: an empty set stamped `now`. */
  function CreatePromptSet(name: string, description: string, now: Timestamp): (ps: PromptSet)
    ensures ps.templates == [] && ps.name == name && ps.description == description
  {
    PromptSet(name, [], description, now, now)
  }

  /** A new set is valid, well keyed and has no generation order. */
  lemma {:induction false} CreatedSetIsEmpty(name: string, description: string, now: Timestamp)
    ensures Validate(CreatePromptSet(name, description, now))
    ensures WellKeyed(CreatePromptSet(name, description, now).templates)
    ensures GetGenerationOrder(Some(CreatePromptSet(name, description, now))) == []
  {
  }

  /** The templates' own fields, in order. */
  function TemplateFields(es: Dict<FieldName, PromptTemplate>): (r: seq<FieldName>)
    ensures |r| == |es| && forall k :: 0 <= k < |es| ==> r[k] == es[k].1.field
  {
    if |es| == 0 then [] else [es[0].1.field] + TemplateFields(es[1..])
  }

  /** `get_generation_order`: the fields of the current set's templates, by ascending generation order. */
  function GetGenerationOrder(current: Option<PromptSet>): (r: seq<FieldName>)
    ensures current.None? ==> r == []
    ensures current.Some? ==> |r| == |current.value.templates|
  {
    match current
    case None => []
    case Some(ps) =>
      var sorted := SortByOrder(ps.templates);
      assert |multiset(sorted)| == |multiset(ps.templates)|;
      TemplateFields(sorted)
  }

  /**
   * In a well-keyed set, the generation order lists exactly the set's fields, one
   * position per template, by ascending generation order.
   */
  lemma {:induction false} GenerationOrderMeaning(ps: PromptSet)
    requires WellKeyed(ps.templates)
    ensures var r := GetGenerationOrder(Some(ps));
      && |r| == |ps.templates|
      && (forall f :: f in r <==> f in Keys(ps.templates))
      && (forall k :: 0 <= k < |r| ==> Get(ps.templates, r[k]).Some?)
      && (forall i, j :: 0 <= i < j < |r| ==>
            Get(ps.templates, r[i]).value.generationOrder <= Get(ps.templates, r[j]).value.generationOrder)
  {
    var ts := ps.templates;
    var s := SortByOrder(ts);
    var r := TemplateFields(s);
    assert GetGenerationOrder(Some(ps)) == r;
    assert |r| == |ts| by {
      assert |multiset(s)| == |multiset(ts)|;
    }
    assert forall f :: f in r <==> f in Keys(ts) by {
      forall f ensures f in r <==> f in Keys(ts) {
        SortedFieldsAreKeys(ts, f);
      }
    }
    SortedFieldsLookUp(ts);
    forall i, j | 0 <= i < j < |r|
      ensures Get(ts, r[i]).value.generationOrder <= Get(ts, r[j]).value.generationOrder
    {
      assert Get(ts, r[i]) == Some(s[i].1) && Get(ts, r[j]) == Some(s[j].1);
      assert Order(s[i]) <= Order(s[j]);
    }
  }

  /** Each field of the generation order looks up the template at its position in the sorted entries. */
  lemma {:induction false} SortedFieldsLookUp(ts: Dict<FieldName, PromptTemplate>)
    requires WellKeyed(ts)
    ensures forall k :: 0 <= k < |SortByOrder(ts)| ==> Get(ts, TemplateFields(SortByOrder(ts))[k]) == Some(SortByOrder(ts)[k].1)
  {
    var s := SortByOrder(ts);
    var r := TemplateFields(s);
    SortedEntriesLookUp(ts);
    forall k | 0 <= k < |s| ensures Get(ts, r[k]) == Some(s[k].1) {
      assert r[k] == s[k].1.field;
      assert s[k].1.field == s[k].0;
    }
  }

  /** Sorting keeps the entries. */
  lemma {:induction false} SortedSameEntries(ts: Dict<FieldName, PromptTemplate>)
    ensures forall e :: e in SortByOrder(ts) <==> e in ts
  {
    var s := SortByOrder(ts);
    assert forall e :: e in s <==> e in multiset(s);
    assert forall e :: e in ts <==> e in multiset(ts);
  }

  /** Each sorted entry of a well-keyed dictionary is what its key looks up, and its key is its template's field. */
  lemma {:induction false} SortedEntriesLookUp(ts: Dict<FieldName, PromptTemplate>)
    requires WellKeyed(ts)
    ensures forall k :: 0 <= k < |SortByOrder(ts)| ==>
      Get(ts, SortByOrder(ts)[k].0) == Some(SortByOrder(ts)[k].1) && SortByOrder(ts)[k].1.field == SortByOrder(ts)[k].0
  {
    var s := SortByOrder(ts);
    SortedSameEntries(ts);
    forall k | 0 <= k < |s| ensures Get(ts, s[k].0) == Some(s[k].1) && s[k].1.field == s[k].0 {
      assert s[k] in ts;
      var j :| 0 <= j < |ts| && ts[j] == s[k];
      GetAt(ts, j);
    }
  }

  /** The sorted templates' fields are the dictionary's keys. */
  lemma {:induction false} SortedFieldsAreKeys(ts: Dict<FieldName, PromptTemplate>, f: FieldName)
    requires WellKeyed(ts)
    ensures f in TemplateFields(SortByOrder(ts)) <==> f in Keys(ts)
  {
    var s := SortByOrder(ts);
    SortedSameEntries(ts);
    KeysAt(ts, f);
    if f in Keys(ts) {
      var j :| 0 <= j < |ts| && ts[j].0 == f;
      assert ts[j] in s;
      var k :| 0 <= k < |s| && s[k] == ts[j];
      assert TemplateFields(s)[k] == f;
    }
    if f in TemplateFields(s) {
      var k :| 0 <= k < |s| && TemplateFields(s)[k] == f;
      assert s[k] in ts;
    }
  }
}
