/**
 * The generation service of the package-style application: generating one field
 * from its template, generating a field and every later field of the order,
 * and the per-field history of generation results. The text-completion API is
 * a parameter: a function from the processed prompt to what the API returns.
 */
module SrcGenerationService {
  import opened Wrappers
  import opened Fields
  import opened Dicts
  import opened Lists
  import opened SrcModels
  import CG = CharacterGen
  import PS = SrcPromptService

  /** What the API does with a prompt: text with the attempt count of its last
      response (`None` when there is no last response), or an exception. */
  datatype ApiReply = Reply(content: string, attempts: Option<int>) | Raised(message: string)

  type Api = string -> ApiReply

  /** The current prompt set's template for a field. */
  function TemplateOf(current: Option<PromptSet>, f: FieldName): Option<PromptTemplate>
  {
    if current.None? then None else Get(current.value.templates, f)
  }

  /** The required fields of a template that the context does not make available. */
  function MissingFields(template: PromptTemplate, ctx: GenerationContext): set<FieldName>
  {
    template.requiredFields - Keys(AvailableFields(ctx))
  }

  /** What `generate_field(context)` returns or raises. */
  function FieldOutcome(current: Option<PromptSet>, ctx: GenerationContext, api: Api): (r: Result<GenerationResult, GenError>)
    ensures current.None? ==> r == Failure(NoCurrentSet)
    ensures current.Some? && TemplateOf(current, ctx.currentField).None? ==> r.Failure? && r.error.GenerationError?
    ensures r.Failure? && r.error.DependencyError? <==>
      TemplateOf(current, ctx.currentField).Some? && MissingFields(TemplateOf(current, ctx.currentField).value, ctx) != {}
    ensures r.Failure? && r.error.DependencyError? ==>
      r.error == DependencyError(ctx.currentField, MissingFields(TemplateOf(current, ctx.currentField).value, ctx))
    ensures r.Success? ==>
      && r.value.field == ctx.currentField && r.value.Success()
      && TemplateOf(current, ctx.currentField).Some?
      && TemplateOf(current, ctx.currentField).value.requiredFields <= Keys(ctx.character.fields) - {ctx.currentField}
    ensures r.Success? && ctx.mode == Direct ==> r.value.content == ctx.userInput && r.value.attempts == 0
  {
    if current.None? then Failure(NoCurrentSet)
    else match TemplateOf(current, ctx.currentField)
    case None => Failure(GenerationError("No template found for field " + Value(ctx.currentField)))
    case Some(template) =>
      var available := Keys(AvailableFields(ctx));
      if !PS.ValidateDependencies(template, available) then
        Failure(DependencyError(ctx.currentField, template.requiredFields - available))
      else if ctx.mode == Direct then
        Success(GenerationResult(ctx.currentField, ctx.userInput, 0, None))
      else
        var prompt := CG.ProcessSpec(template.text, ctx.userInput, AvailableFields(ctx));
        match api(prompt)
        case Raised(m) => Failure(ApiError(m))
        case Reply(content, attempts) =>
          Success(GenerationResult(ctx.currentField, content, if attempts.Some? then attempts.value else 1, None))
  }

  /** The result recorded for a field whose generation raised `e`. */
  function ErrorResult(f: FieldName, e: GenError): GenerationResult
  {
    GenerationResult(f, "", 1, Some(e))
  }

  /** What a `generate_field` call adds to the history: the result, the error result, or
      nothing for a result taken directly from the user's input. */
  function Logged(ctx: GenerationContext, r: Result<GenerationResult, GenError>): (e: Option<GenerationResult>)
    ensures e.None? <==> r.Success? && ctx.mode == Direct
    ensures e.Some? ==> e.value.field == ctx.currentField || r.Success?
  {
    match r
    case Failure(err) => Some(ErrorResult(ctx.currentField, err))
    case Success(res) => if ctx.mode == Direct then None else Some(res)
  }

  /** A field's history in a history dictionary. */
  function HistoryOf(h: map<FieldName, seq<GenerationResult>>, f: FieldName): seq<GenerationResult>
  {
    if f in h then h[f] else []
  }

  /** `_add_to_history`. */
  function Append(h: map<FieldName, seq<GenerationResult>>, r: GenerationResult): (h': map<FieldName, seq<GenerationResult>>)
    ensures HistoryOf(h', r.field) == HistoryOf(h, r.field) + [r]
    ensures forall f :: f != r.field ==> HistoryOf(h', f) == HistoryOf(h, f)
    ensures h'.Keys == h.Keys + {r.field}
  {
    h[r.field := HistoryOf(h, r.field) + [r]]
  }

  /** The history after recording each result of `log` in turn. */
  function AppendAll(h: map<FieldName, seq<GenerationResult>>, log: seq<GenerationResult>): map<FieldName, seq<GenerationResult>>
  {
    if |log| == 0 then h else Append(AppendAll(h, log[..|log| - 1]), log[|log| - 1])
  }

  /** The results of `log` for field `f`, in order. */
  function ForField(log: seq<GenerationResult>, f: FieldName): seq<GenerationResult>
  {
    if |log| == 0 then []
    else ForField(log[..|log| - 1], f) + (if log[|log| - 1].field == f then [log[|log| - 1]] else [])
  }

  /** Recording a log extends each field's history by that field's results, in order. */
  lemma {:induction false} AppendAllPerField(h: map<FieldName, seq<GenerationResult>>, log: seq<GenerationResult>, f: FieldName)
    ensures HistoryOf(AppendAll(h, log), f) == HistoryOf(h, f) + ForField(log, f)
    decreases |log|
  {
    if |log| > 0 {
      AppendAllPerField(h, log[..|log| - 1], f);
    }
  }

  // ---------------------------------------------------------------- ordered fields

  /** The templates whose generation order is not negative, in dictionary order. */
  function NonNegative(ts: Dict<FieldName, PromptTemplate>): (r: Dict<FieldName, PromptTemplate>)
    ensures forall e :: e in r <==> e in ts && Order(e) >= 0
  {
    if |ts| == 0 then []
    else
      assert forall e :: e in ts <==> e == ts[0] || e in ts[1..];
      (if Order(ts[0]) >= 0 then [ts[0]] else []) + NonNegative(ts[1..])
  }

  /** The keys of the entries, in order. */
  function KeyList(es: Dict<FieldName, PromptTemplate>): (r: seq<FieldName>)
    ensures |r| == |es| && forall k :: 0 <= k < |es| ==> r[k] == es[k].0
  {
    if |es| == 0 then [] else [es[0].0] + KeyList(es[1..])
  }

  /** `_get_ordered_fields`: the fields whose template has a non-negative order, by order. */
  function OrderedFields(current: Option<PromptSet>): seq<FieldName>
  {
    if current.None? then [] else KeyList(SortByOrder(NonNegative(current.value.templates)))
  }

  /** The ordered fields are exactly the fields with a template of non-negative order,
      listed by ascending order. */
  lemma {:induction false} OrderedFieldsMeaning(ps: PromptSet)
    requires DistinctKeys(ps.templates)
    ensures var r := OrderedFields(Some(ps));
      && (forall f :: f in r <==> Get(ps.templates, f).Some? && Get(ps.templates, f).value.generationOrder >= 0)
      && (forall i, j :: 0 <= i < j < |r| ==>
            Get(ps.templates, r[i]).value.generationOrder <= Get(ps.templates, r[j]).value.generationOrder)
  {
    var ts := ps.templates;
    var s := SortByOrder(NonNegative(ts));
    var r := KeyList(s);
    forall f ensures f in r <==> Get(ts, f).Some? && Get(ts, f).value.generationOrder >= 0 {
      if f in r {
        var k :| 0 <= k < |r| && r[k] == f;
        SortedLookUp(ts, k);
      }
      if Get(ts, f).Some? && Get(ts, f).value.generationOrder >= 0 {
        KeysAt(ts, f);
        var i :| 0 <= i < |ts| && ts[i].0 == f;
        GetAt(ts, i);
        SortedHolds(ts, ts[i]);
        var k :| 0 <= k < |s| && s[k] == ts[i];
        assert r[k] == f;
      }
    }
    forall i, j | 0 <= i < j < |r|
      ensures Get(ts, r[i]).value.generationOrder <= Get(ts, r[j]).value.generationOrder
    {
      SortedLookUp(ts, i);
      SortedLookUp(ts, j);
      assert Order(s[i]) <= Order(s[j]);
    }
  }

  /** An entry of non-negative order is among the sorted entries. */
  lemma {:induction false} SortedHolds(ts: Dict<FieldName, PromptTemplate>, e: (FieldName, PromptTemplate))
    requires e in ts && Order(e) >= 0
    ensures e in SortByOrder(NonNegative(ts))
  {
    var n := NonNegative(ts);
    assert e in multiset(n);
  }

  /** Each sorted entry has a non-negative order and is what its key looks up. */
  lemma {:induction false} SortedLookUp(ts: Dict<FieldName, PromptTemplate>, k: nat)
    requires DistinctKeys(ts) && k < |SortByOrder(NonNegative(ts))|
    ensures var e := SortByOrder(NonNegative(ts))[k];
      Get(ts, e.0) == Some(e.1) && Order(e) >= 0
  {
    var n := NonNegative(ts);
    var s := SortByOrder(n);
    assert s[k] in multiset(n);
    assert s[k] in ts;
    var j :| 0 <= j < |ts| && ts[j] == s[k];
    GetAt(ts, j);
  }

  /** No field is listed twice among the ordered fields. */
  lemma {:induction false} OrderedFieldsDistinct(ps: PromptSet)
    requires DistinctKeys(ps.templates)
    ensures Distinct(OrderedFields(Some(ps)))
  {
    var ts := ps.templates;
    var n := NonNegative(ts);
    var s := SortByOrder(n);
    var r := KeyList(s);
    NonNegativeDistinct(ts);
    forall i, j | 0 <= i < j < |r| ensures r[i] != r[j] {
      if r[i] == r[j] {
        SortedLookUp(ts, i);
        SortedLookUp(ts, j);
        TwoCopies(s, i, j);
        AtMostOnce(n, s[i]);
        assert false;
      }
    }
  }

  /** Filtering keeps the keys distinct. */
  lemma {:induction false} NonNegativeDistinct(ts: Dict<FieldName, PromptTemplate>)
    requires DistinctKeys(ts)
    ensures DistinctKeys(NonNegative(ts))
    decreases |ts|
  {
    if |ts| > 0 {
      assert ts == [ts[0]] + ts[1..];
      DistinctCons(ts[0], ts[1..]);
      NonNegativeDistinct(ts[1..]);
      var tail := NonNegative(ts[1..]);
      KeysAt(ts[1..], ts[0].0);
      KeysAt(tail, ts[0].0);
      forall k | 0 <= k < |tail| ensures tail[k].0 != ts[0].0 {
        assert tail[k] in ts[1..];
      }
      DistinctCons(ts[0], tail);
    }
  }

  /** A sequence holding the same element at two positions counts it at least twice. */
  lemma {:induction false} TwoCopies<T>(s: seq<T>, i: nat, j: nat)
    requires i < j < |s| && s[i] == s[j]
    ensures multiset(s)[s[i]] >= 2
  {
    assert s == s[..j] + s[j..];
    assert s[i] == s[..j][i];
    assert s[j] == s[j..][0];
  }

  /** With distinct keys, no entry is listed twice. */
  lemma {:induction false} AtMostOnce(d: Dict<FieldName, PromptTemplate>, e: (FieldName, PromptTemplate))
    requires DistinctKeys(d)
    ensures multiset(d)[e] <= 1
    decreases |d|
  {
    if |d| > 0 {
      assert d == [d[0]] + d[1..];
      DistinctCons(d[0], d[1..]);
      AtMostOnce(d[1..], e);
      if e == d[0] {
        KeysAt(d[1..], e.0);
        assert e !in d[1..];
      }
    }
  }

  // ---------------------------------------------------------------- field with dependents

  /** The state of the loop of `generate_field_with_deps`. */
  datatype RunState = RunState(
    results: Dict<FieldName, GenerationResult>,
    character: CharacterData,
    log: seq<GenerationResult>,
    stopped: bool)

  /** The context the loop builds for `f`: only the starting field gets the user's input and mode. */
  function FieldContext(start: GenerationContext, character: CharacterData, f: FieldName): GenerationContext
  {
    GenerationContext(character, f,
      if f == start.currentField then start.userInput else "",
      if f == start.currentField then start.mode else Generate,
      3)
  }

  /** One pass of the loop: generate `f`, write a success into the character, or record the
      error and stop. */
  function Step(current: Option<PromptSet>, start: GenerationContext, api: Api, s: RunState, f: FieldName): RunState
  {
    var ctx := FieldContext(start, s.character, f);
    var outcome := FieldOutcome(current, ctx, api);
    var logged := Logged(ctx, outcome);
    var log := s.log + (if logged.Some? then [logged.value] else []);
    match outcome
    case Success(res) =>
      RunState(Put(s.results, f, res), s.character.(fields := Put(s.character.fields, f, res.content)), log, false)
    case Failure(e) =>
      RunState(Put(s.results, f, ErrorResult(f, e)), s.character, log, true)
  }

  /** The loop over `fields`, from state `s`. */
  function Run(current: Option<PromptSet>, start: GenerationContext, api: Api, s: RunState, fields: seq<FieldName>): RunState
    decreases |fields|
  {
    if |fields| == 0 || s.stopped then s
    else Run(current, start, api, Step(current, start, api, s, fields[0]), fields[1..])
  }

  /** `generate_field_with_deps(context)`: the fields visited, from the starting field on. */
  function DepsSpec(current: Option<PromptSet>, ctx: GenerationContext, api: Api): (r: Result<RunState, GenError>)
    ensures r.Failure? <==> ctx.currentField !in OrderedFields(current)
    ensures current.None? ==> r == Failure(NoCurrentSet)
    ensures r.Success? ==> exists i ::
      && 0 <= i < |OrderedFields(current)| && OrderedFields(current)[i] == ctx.currentField
      && r.value == Run(current, ctx, api, RunState([], ctx.character, [], false), OrderedFields(current)[i..])
  {
    var ordered := OrderedFields(current);
    if current.None? then Failure(NoCurrentSet)
    else if |ordered| == 0 then Failure(GenerationError("No fields with generation order defined"))
    else match IndexOf(ordered, ctx.currentField)
      case None => Failure(GenerationError("Field " + Value(ctx.currentField) + " not found in generation order"))
      case Some(i) => Success(Run(current, ctx, api, RunState([], ctx.character, [], false), ordered[i..]))
  }

  /** The results a run adds visit a prefix of `fields`: one result per field in order,
      each for its own field, every one but the last a success, and a run that ends
      before the last field ends on a failure. */
  ghost predicate Visits(v: Dict<FieldName, GenerationResult>, fields: seq<FieldName>)
  {
    && |v| <= |fields|
    && (|fields| > 0 ==> |v| > 0)
    && (forall k :: 0 <= k < |v| ==> v[k].0 == fields[k] && v[k].1.field == fields[k])
    && (forall k :: 0 <= k < |v| - 1 ==> v[k].1.Success())
    && (|v| < |fields| ==> !v[|v| - 1].1.Success())
  }

  /** What a run writes into the character for `f`: the content of its successful result. */
  function WrittenIn(v: Dict<FieldName, GenerationResult>, f: FieldName): Option<string>
  {
    match Get(v, f)
    case Some(res) => if res.Success() then Some(res.content) else None
    case None => None
  }

  /** The loop visits the fields in order and stops at the first failure: the results it
      adds, after those it started with, visit a prefix of the fields. */
  lemma {:induction false} RunVisits(current: Option<PromptSet>, start: GenerationContext, api: Api,
                                     s: RunState, fields: seq<FieldName>)
    requires !s.stopped && Distinct(fields) && forall f :: f in fields ==> f !in Keys(s.results)
    ensures var r := Run(current, start, api, s, fields);
      && |s.results| <= |r.results| && r.results[..|s.results|] == s.results
      && Visits(r.results[|s.results|..], fields)
    decreases |fields|
  {
    if |fields| > 0 {
      var s1 := Step(current, start, api, s, fields[0]);
      StepShape(current, start, api, s, fields[0]);
      if !s1.stopped {
        RunPrefixStep(current, start, api, s, fields);
        RunVisits(current, start, api, s1, fields[1..]);
        VisitsCons(s.results, s1.results, Run(current, start, api, s1, fields[1..]).results, fields);
      }
    }
  }

  /** One step adds one result, for the field stepped over; it stops exactly on a failure,
      and only a success is written into the character. */
  lemma {:induction false} StepShape(current: Option<PromptSet>, start: GenerationContext, api: Api,
                                     s: RunState, f: FieldName)
    requires f !in Keys(s.results)
    ensures var s1 := Step(current, start, api, s, f);
      && |s1.results| == |s.results| + 1 && s1.results[..|s.results|] == s.results
      && s1.results[|s.results|].0 == f && s1.results[|s.results|].1.field == f
      && (s1.stopped <==> !s1.results[|s.results|].1.Success())
      && (s1.stopped ==> s1.character == s.character)
      && (!s1.stopped ==> s1.character.fields == Put(s.character.fields, f, s1.results[|s.results|].1.content))
  {
  }

  /** Results visiting the rest of the fields after a successful first one visit all of them. */
  lemma {:induction false} VisitsCons(r0: Dict<FieldName, GenerationResult>, r1: Dict<FieldName, GenerationResult>,
                                      r: Dict<FieldName, GenerationResult>, fields: seq<FieldName>)
    requires |fields| > 0 && |r1| == |r0| + 1 && r1[..|r0|] == r0
    requires r1[|r0|].0 == fields[0] && r1[|r0|].1.field == fields[0] && r1[|r0|].1.Success()
    requires |r1| <= |r| && r[..|r1|] == r1 && Visits(r[|r1|..], fields[1..])
    ensures |r0| <= |r| && r[..|r0|] == r0 && Visits(r[|r0|..], fields)
  {
    var v, v' := r[|r0|..], r[|r1|..];
    assert v == [r1[|r0|]] + v';
    assert r[..|r0|] == r1[..|r0|];
    forall k | 1 <= k < |v| ensures v[k] == v'[k - 1] && fields[k] == fields[1..][k - 1] { }
  }

  /** A character that held `before` holds `after` once the results `v` are written:
      `f` holds its successful content, or what it held before. */
  ghost predicate WritesBack(before: Dict<FieldName, string>, after: Dict<FieldName, string>,
                             v: Dict<FieldName, GenerationResult>, f: FieldName)
  {
    Get(after, f) == match WrittenIn(v, f) case Some(c) => Some(c) case None => Get(before, f)
  }

  /** Each field the loop generates successfully ends up holding the generated content;
      every other field of the character keeps its value. */
  lemma {:induction false} RunWrites(current: Option<PromptSet>, start: GenerationContext, api: Api,
                                     s: RunState, fields: seq<FieldName>, f: FieldName)
    requires !s.stopped && Distinct(fields) && forall g :: g in fields ==> g !in Keys(s.results)
    ensures |s.results| <= |Run(current, start, api, s, fields).results|
    ensures WritesBack(s.character.fields, Run(current, start, api, s, fields).character.fields,
                       Run(current, start, api, s, fields).results[|s.results|..], f)
    decreases |fields|
  {
    if |fields| > 0 {
      var s1 := Step(current, start, api, s, fields[0]);
      StepShape(current, start, api, s, fields[0]);
      RunUnfold(current, start, api, s, fields);
      if !s1.stopped {
        RunPrefixStep(current, start, api, s, fields);
        RunWrites(current, start, api, s1, fields[1..], f);
        RunVisits(current, start, api, s1, fields[1..]);
        var r := Run(current, start, api, s1, fields[1..]);
        WritesAfterSuccess(s.results, s1.results, r.results, s.character.fields, s1.character.fields,
                           r.character.fields, fields, f);
      } else {
        StoppedWrites(s.results, s1.results, s.character.fields, f);
      }
    } else {
      assert s.results[|s.results|..] == [];
    }
  }

  /** A failure leaves the character as it was. */
  lemma {:induction false} StoppedWrites(r0: Dict<FieldName, GenerationResult>, r1: Dict<FieldName, GenerationResult>,
                                         before: Dict<FieldName, string>, f: FieldName)
    requires |r1| == |r0| + 1 && r1[..|r0|] == r0 && !r1[|r0|].1.Success()
    ensures WritesBack(before, before, r1[|r0|..], f)
  {
    assert r1[|r0|..] == [r1[|r0|]];
  }

  /** A successful result followed by results that write back `after` writes it back from
      what the character held before the success. */
  lemma {:induction false} WritesAfterSuccess(r0: Dict<FieldName, GenerationResult>, r1: Dict<FieldName, GenerationResult>,
                                              r: Dict<FieldName, GenerationResult>,
                                              before: Dict<FieldName, string>, mid: Dict<FieldName, string>,
                                              after: Dict<FieldName, string>, fields: seq<FieldName>, f: FieldName)
    requires |fields| > 0 && Distinct(fields)
    requires |r1| == |r0| + 1 && r1[..|r0|] == r0 && r1[|r0|].0 == fields[0] && r1[|r0|].1.Success()
    requires |r1| <= |r| && r[..|r1|] == r1 && Visits(r[|r1|..], fields[1..])
    requires mid == Put(before, fields[0], r1[|r0|].1.content)
    requires WritesBack(mid, after, r[|r1|..], f)
    ensures WritesBack(before, after, r[|r0|..], f)
  {
    var v, v' := r[|r0|..], r[|r1|..];
    assert v == [r1[|r0|]] + v' by {
      assert r[..|r1|][|r0|] == r1[|r0|];
    }
    FirstNotLater(v', fields);
    WrittenCons(r1[|r0|], v', before, mid, after, f);
  }

  /** Results visiting the fields after the first do not hold the first. */
  lemma {:induction false} FirstNotLater(v: Dict<FieldName, GenerationResult>, fields: seq<FieldName>)
    requires |fields| > 0 && Distinct(fields) && Visits(v, fields[1..])
    ensures fields[0] !in Keys(v)
  {
    KeysAt(v, fields[0]);
    forall k | 0 <= k < |v| ensures v[k].0 != fields[0] {
      assert v[k].0 == fields[1..][k] == fields[k + 1];
    }
  }

  /** What the character holds after a successful result and the results after it. */
  lemma {:induction false} WrittenCons(e: (FieldName, GenerationResult), v: Dict<FieldName, GenerationResult>,
                                       before: Dict<FieldName, string>, mid: Dict<FieldName, string>,
                                       after: Dict<FieldName, string>, f: FieldName)
    requires e.1.Success() && e.0 !in Keys(v) && mid == Put(before, e.0, e.1.content)
    requires WritesBack(mid, after, v, f)
    ensures WritesBack(before, after, [e] + v, f)
  {
    assert ([e] + v)[1..] == v;
    if f == e.0 {
      assert Get(v, f).None?;
    }
  }

  /** A run that has not stopped takes a step over the first field. */
  lemma {:induction false} RunUnfold(current: Option<PromptSet>, start: GenerationContext, api: Api,
                                     s: RunState, fields: seq<FieldName>)
    requires !s.stopped && |fields| > 0
    ensures Run(current, start, api, s, fields) == Run(current, start, api, Step(current, start, api, s, fields[0]), fields[1..])
  {
  }

  /** After a successful first step, the rest of the fields are new to the results. */
  lemma {:induction false} RunPrefixStep(current: Option<PromptSet>, start: GenerationContext, api: Api,
                                         s: RunState, fields: seq<FieldName>)
    requires |fields| > 0 && Distinct(fields) && forall f :: f in fields ==> f !in Keys(s.results)
    ensures var s1 := Step(current, start, api, s, fields[0]);
      && Distinct(fields[1..])
      && forall f :: f in fields[1..] ==> f !in Keys(s1.results)
  {
    forall f | f in fields[1..] ensures f != fields[0] && f in fields {
      var k :| 0 <= k < |fields[1..]| && fields[1..][k] == f;
      assert fields[k + 1] == f;
    }
  }

  /** With distinct template keys, a run from a field of the order visits the fields from
      that one on, in order, until the first failure, and leaves every field holding its
      successful content or, if it has none, what it held before. */
  lemma {:induction false} DepsOutcome(current: Option<PromptSet>, ctx: GenerationContext, api: Api, i: nat)
    requires current.Some? && DistinctKeys(current.value.templates)
    requires i < |OrderedFields(current)| && OrderedFields(current)[i] == ctx.currentField
    ensures DepsSpec(current, ctx, api).Success?
    ensures var r := DepsSpec(current, ctx, api).value;
      && Visits(r.results, OrderedFields(current)[i..])
      && forall f :: WritesBack(ctx.character.fields, r.character.fields, r.results, f)
  {
    var rest := OrderedFields(current)[i..];
    var s0 := RunState([], ctx.character, [], false);
    DepsRun(current, ctx, api, i);
    RunVisits(current, ctx, api, s0, rest);
    var r := Run(current, ctx, api, s0, rest);
    assert r.results[0..] == r.results;
    forall f ensures WritesBack(ctx.character.fields, r.character.fields, r.results, f) {
      RunWrites(current, ctx, api, s0, rest, f);
    }
  }

  /** A field at position `i` of the order starts the run there, over distinct fields. */
  lemma {:induction false} DepsRun(current: Option<PromptSet>, ctx: GenerationContext, api: Api, i: nat)
    requires current.Some? && DistinctKeys(current.value.templates)
    requires i < |OrderedFields(current)| && OrderedFields(current)[i] == ctx.currentField
    ensures DepsSpec(current, ctx, api)
         == Success(Run(current, ctx, api, RunState([], ctx.character, [], false), OrderedFields(current)[i..]))
    ensures Distinct(OrderedFields(current)[i..])
  {
    var ordered := OrderedFields(current);
    OrderedFieldsDistinct(current.value);
    IndexOfDistinct(ordered, i);
    DistinctSuffix(ordered, i);
  }

  // ---------------------------------------------------------------- the service

  /** `GenerationService`: generation over a prompt set, with the history of results. */
  class GenerationService {
    /** `generation_history`: each field's results, oldest first. */
    var history: map<FieldName, seq<GenerationResult>>

    constructor()
      ensures history == map[]
    {
      history := map[];
    }

    /** `_add_to_history(result)`. */
    method AddToHistory(r: GenerationResult)
      modifies this
      ensures history == Append(old(history), r)
    {
      var past := if r.field in history then history[r.field] else [];
      history := history[r.field := past + [r]];
    }

    /** `generate_field(context)`: the result or the error raised, recording every result
        except one taken directly from the user's input. */
    method GenerateField(current: Option<PromptSet>, ctx: GenerationContext, api: Api)
      returns (r: Result<GenerationResult, GenError>)
      modifies this
      ensures r == FieldOutcome(current, ctx, api)
      ensures history == match Logged(ctx, r) case Some(e) => Append(old(history), e) case None => old(history)
    {
      var template := TemplateOf(current, ctx.currentField);
      if current.None? {
        r := Failure(NoCurrentSet);
      } else if template.None? {
        r := Failure(GenerationError("No template found for field " + Value(ctx.currentField)));
      } else {
        var available := Keys(AvailableFields(ctx));
        if !PS.ValidateDependencies(template.value, available) {
          r := Failure(DependencyError(ctx.currentField, template.value.requiredFields - available));
        } else if ctx.mode == Direct {
          r := Success(GenerationResult(ctx.currentField, ctx.userInput, 0, None));
          return;
        } else {
          var prompt := PS.ProcessPrompt(template.value, ctx.userInput, AvailableFields(ctx));
          match api(prompt)
          case Raised(m) =>
            r := Failure(ApiError(m));
          case Reply(content, attempts) =>
            r := Success(GenerationResult(ctx.currentField, content, if attempts.Some? then attempts.value else 1, None));
            AddToHistory(r.value);
            return;
        }
      }
      AddToHistory(ErrorResult(ctx.currentField, r.error));
    }

    /** `get_field_history(field)`. */
    method GetFieldHistory(f: FieldName) returns (h: seq<GenerationResult>)
      ensures h == HistoryOf(history, f)
    {
      h := if f in history then history[f] else [];
    }

    /** `clear_history(field)`: forget one field's results, or all of them. */
    method ClearHistory(f: Option<FieldName>)
      modifies this
      ensures f.Some? ==> history == old(history) - {f.value}
      ensures f.None? ==> history == map[]
    {
      if f.Some? {
        history := history - {f.value};
      } else {
        history := map[];
      }
    }

    /** One pass of the loop of `generate_field_with_deps`: generate `f` in its context,
        record the result, and write a success into the character or stop on an error. */
    method VisitField(current: Option<PromptSet>, start: GenerationContext, api: Api,
                      results: Dict<FieldName, GenerationResult>, character: CharacterData,
                      log: seq<GenerationResult>, f: FieldName, ghost base: map<FieldName, seq<GenerationResult>>)
      returns (results': Dict<FieldName, GenerationResult>, character': CharacterData,
               log': seq<GenerationResult>, stopped': bool)
      requires history == AppendAll(base, log)
      modifies this
      ensures RunState(results', character', log', stopped') == Step(current, start, api, RunState(results, character, log, false), f)
      ensures history == AppendAll(base, log')
    {
      var fieldCtx := FieldContext(start, character, f);
      var outcome := GenerateField(current, fieldCtx, api);
      var logged := Logged(fieldCtx, outcome);
      log' := log;
      if logged.Some? {
        assert (log + [logged.value])[..|log|] == log;
        log' := log + [logged.value];
      }
      match outcome {
        case Success(res) =>
          results', character', stopped' := Put(results, f, res), character.(fields := Put(character.fields, f, res.content)), false;
        case Failure(e) =>
          results', character', stopped' := Put(results, f, ErrorResult(f, e)), character, true;
      }
    }

    /** The loop of `generate_field_with_deps` over `fields`, from no results and the
        context's character, up to the first error. */
    method RunFrom(current: Option<PromptSet>, ctx: GenerationContext, api: Api, fields: seq<FieldName>)
      returns (results: Dict<FieldName, GenerationResult>, character: CharacterData)
      modifies this
      ensures var end := Run(current, ctx, api, RunState([], ctx.character, [], false), fields);
        results == end.results && character == end.character && history == AppendAll(old(history), end.log)
    {
      ghost var init := RunState([], ctx.character, [], false);
      ghost var base := history;
      results, character := [], ctx.character;
      var log: seq<GenerationResult> := [];
      var stopped := false;
      var i := 0;
      while i < |fields| && !stopped
        invariant 0 <= i <= |fields|
        invariant Run(current, ctx, api, RunState(results, character, log, stopped), fields[i..])
               == Run(current, ctx, api, init, fields)
        invariant history == AppendAll(base, log)
        decreases |fields| - i
      {
        RunUnfold(current, ctx, api, RunState(results, character, log, stopped), fields[i..]);
        results, character, log, stopped := VisitField(current, ctx, api, results, character, log, fields[i], base);
        assert fields[i..][1..] == fields[i + 1..];
        i := i + 1;
      }
    }

    /** `generate_field_with_deps(context)`: the result of each field visited and the
        character with the successful contents written in; every `generate_field` call
        records its result. */
    method GenerateFieldWithDeps(current: Option<PromptSet>, ctx: GenerationContext, api: Api)
      returns (r: Result<(Dict<FieldName, GenerationResult>, CharacterData), GenError>)
      modifies this
      ensures r.Failure? <==> DepsSpec(current, ctx, api).Failure?
      ensures r.Failure? ==> r.error == DepsSpec(current, ctx, api).error && history == old(history)
      ensures r.Success? ==>
        && r.value == (DepsSpec(current, ctx, api).value.results, DepsSpec(current, ctx, api).value.character)
        && history == AppendAll(old(history), DepsSpec(current, ctx, api).value.log)
    {
      if current.None? {
        return Failure(NoCurrentSet);
      }
      var ordered := OrderedFields(current);
      if |ordered| == 0 {
        return Failure(GenerationError("No fields with generation order defined"));
      }
      var start := IndexOf(ordered, ctx.currentField);
      if start.None? {
        return Failure(GenerationError("Field " + Value(ctx.currentField) + " not found in generation order"));
      }
      var results, character := RunFrom(current, ctx, api, ordered[start.value..]);
      r := Success((results, character));
    }
  }
}
