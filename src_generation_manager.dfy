/**
 * The generation manager of the package-style application: it runs one field's
 * generation, or a field and every later field of the order, through the
 * generation service, writes successful results into the current character
 * through the character manager, reports progress as signals, and defers a
 * request that arrives while a generation runs to a first-in-first-out queue,
 * which is drained as each generation ends.
 */
module SrcGenerationManager {
  import opened Wrappers
  import opened Fields
  import opened Dicts
  import opened Lists
  import opened SrcModels
  import SG = SrcGenerationService
  import CM = SrcCharacterManager

  /** A generation request: `(field, input_text, mode)`. */
  datatype Request = Request(field: FieldName, input: string, mode: GenerationMode)

  /** What goes wrong in the manager: building the context, or the generation itself. */
  datatype ManagerError = ContextError(message: string) | Generation(error: GenError)

  /** The signals the manager emits, in order. */
  datatype Signal =
    | Started(field: FieldName)
    | Completed(field: FieldName, result: GenerationResult)
    | Errored(field: FieldName, error: ManagerError)
    | BatchStarted(total: nat)
    | BatchProgress(index: nat, total: nat)
    | BatchCompleted

  /** The context `_create_context` means to build: the current character, the field, the
      user's input per field, the fields changed so far, and the mode. */
  datatype ManagerContext = ManagerContext(
    character: CharacterData,
    currentField: FieldName,
    fieldInputs: map<FieldName, string>,
    changedFields: set<FieldName>,
    mode: GenerationMode)

  /** `_create_context` as written: the generation context it constructs has no
      `field_inputs` or `changed_fields` parameter (and needs `user_input`), so the
      constructor call raises `TypeError` whatever the request. */
  function CreateContextAsWritten(character: Option<CharacterData>, req: Request): (r: Result<ManagerContext, ManagerError>)
    ensures r.Failure? && r.error.ContextError?
  {
    Failure(ContextError("GenerationContext.__init__() got an unexpected keyword argument 'field_inputs'"))
  }

  /** `_create_context` as intended: the context of the request over the current character,
      with the request's input recorded for its field and no field changed yet. */
  function CreateContext(character: Option<CharacterData>, req: Request): (r: Result<ManagerContext, ManagerError>)
    ensures r.Failure? <==> character.None?
    ensures r.Success? ==>
      && r.value.character == character.value && r.value.currentField == req.field
      && r.value.fieldInputs == map[req.field := req.input] && r.value.changedFields == {}
      && r.value.mode == req.mode
  {
    match character
    case None => Failure(ContextError("No current character"))
    case Some(c) => Success(ManagerContext(c, req.field, map[req.field := req.input], {}, req.mode))
  }

  /** The generation service's context for a manager context: the input recorded for the
      current field, or none. */
  function ServiceContext(ctx: ManagerContext): GenerationContext
  {
    GenerationContext(ctx.character, ctx.currentField,
      if ctx.currentField in ctx.fieldInputs then ctx.fieldInputs[ctx.currentField] else "",
      ctx.mode, 3)
  }

  /** `_get_dependent_fields(field)`: the ordered fields from `field` on, or none when the
      field is not in the order. */
  function DependentFields(ordered: seq<FieldName>, f: FieldName): (r: seq<FieldName>)
    ensures |r| <= |ordered| && r == ordered[|ordered| - |r|..]
    ensures r == [] <==> f !in ordered
    ensures r != [] ==> r[0] == f && f !in ordered[..|ordered| - |r|]
  {
    match IndexOf(ordered, f)
    case None => []
    case Some(i) =>
      assert f !in ordered[..i] by {
        forall k | 0 <= k < i ensures ordered[..i][k] != f { }
      }
      assert |ordered| - |ordered[i..]| == i;
      ordered[i..]
  }

  /** The character manager's state that generation touches. */
  datatype Chars = Chars(current: Option<CharacterData>, undo: seq<CM.Snapshot>, redo: seq<CM.Snapshot>, modified: bool)

  /** `character_manager.update_field(field_name, value)` on that state. */
  function UpdateChars(ch: Chars, fieldName: string, value: string): Chars
  {
    if ch.current.None? then ch
    else Chars(Some(CM.SetField(ch.current.value, fieldName, value)), ch.undo + [ToDict(ch.current.value)], [], true)
  }

  /** Everything a generation changes: the character manager's state, the generation
      service's history and the signals emitted. */
  datatype World = World(chars: Chars, history: map<FieldName, seq<GenerationResult>>, signals: seq<Signal>)

  /** The history after the service generated a field in context `ctx` with outcome `out`. */
  function Recorded(h: map<FieldName, seq<GenerationResult>>, ctx: GenerationContext,
                    out: Result<GenerationResult, GenError>): map<FieldName, seq<GenerationResult>>
  {
    match SG.Logged(ctx, out)
    case Some(e) => SG.Append(h, e)
    case None => h
  }

  /** The body of `generate_field` for one request, given the context it builds: the
      service's outcome, the field written when the result carries no error, and the
      completion or error signal. */
  function Single(current: Option<PromptSet>, api: SG.Api, w: World, req: Request,
                  made: Result<ManagerContext, ManagerError>): World
  {
    var signals := w.signals + [Started(req.field)];
    match made
    case Failure(e) => w.(signals := signals + [Errored(req.field, e)])
    case Success(ctx) =>
      var sctx := ServiceContext(ctx);
      var out := SG.FieldOutcome(current, sctx, api);
      var history := Recorded(w.history, sctx, out);
      match out
      case Failure(e) => World(w.chars, history, signals + [Errored(req.field, Generation(e))])
      case Success(res) =>
        World(if res.error.None? then UpdateChars(w.chars, Value(req.field), res.content) else w.chars,
              history, signals + [Completed(req.field, res)])
  }

  /** The requests run one after another, first in first out, each with the intended context. */
  function Drain(current: Option<PromptSet>, api: SG.Api, w: World, reqs: seq<Request>): World
    decreases |reqs|
  {
    if |reqs| == 0 then w
    else Drain(current, api, Single(current, api, w, reqs[0], CreateContext(w.chars.current, reqs[0])), reqs[1..])
  }

  /** Running the requests of `a` and then those of `b` is running `a + b`. */
  lemma {:induction false} DrainConcat(current: Option<PromptSet>, api: SG.Api, w: World, a: seq<Request>, b: seq<Request>)
    ensures Drain(current, api, w, a + b) == Drain(current, api, Drain(current, api, w, a), b)
    decreases |a|
  {
    if |a| > 0 {
      assert (a + b)[0] == a[0] && (a + b)[1..] == a[1..] + b;
      DrainConcat(current, api, Single(current, api, w, a[0], CreateContext(w.chars.current, a[0])), a[1..], b);
    } else {
      assert a + b == b;
    }
  }

  /** The loop of `generate_with_dependencies` between fields. */
  datatype Loop = Loop(world: World, ctx: ManagerContext, stopped: bool, done: nat)

  /** What the generation service makes of each context. */
  type Outcomes = GenerationContext -> Result<GenerationResult, GenError>

  /** The generation service's outcomes with the current prompt set and the API. */
  function ServiceOutcomes(current: Option<PromptSet>, api: SG.Api): Outcomes
  {
    (ctx: GenerationContext) => SG.FieldOutcome(current, ctx, api)
  }

  /** One pass of that loop over field `f`, the `idx`-th of `total`, the service answering with `outcomes`. */
  function DepsStep(outcomes: Outcomes, s: Loop, f: FieldName, total: nat): Loop
  {
    DepsAnswered(s, f, total, outcomes(ServiceContext(s.ctx.(currentField := f))))
  }

  /** That pass once the service has answered `out`. */
  function DepsAnswered(s: Loop, f: FieldName, total: nat, out: Result<GenerationResult, GenError>): Loop
  {
    var ctx := s.ctx.(currentField := f);
    var signals := s.world.signals + [Started(f), BatchProgress(s.done + 1, total)];
    var sctx := ServiceContext(ctx);
    var history := Recorded(s.world.history, sctx, out);
    match out
    case Failure(e) =>
      Loop(World(s.world.chars, history, signals + [Errored(f, Generation(e))]), ctx, true, s.done + 1)
    case Success(res) =>
      if res.error.None? then
        var chars := UpdateChars(s.world.chars, Value(f), res.content);
        var character := CM.SetField(ctx.character, Value(f), res.content);
        Loop(World(chars, history, signals + [Completed(f, res)]),
             ctx.(character := character, changedFields := ctx.changedFields + {f}), false, s.done + 1)
      else
        Loop(World(s.world.chars, history, signals + [Completed(f, res)]), ctx, false, s.done + 1)
  }

  /** The loop from field `fields[s.done]` on. */
  function DepsLoop(outcomes: Outcomes, s: Loop, fields: seq<FieldName>): Loop
    requires s.done <= |fields|
    decreases |fields| - s.done
  {
    if s.done == |fields| || s.stopped then s
    else DepsLoop(outcomes, DepsStep(outcomes, s, fields[s.done], |fields|), fields)
  }

  /** `generate_with_dependencies`, given the context it builds: the world afterwards and
      the exception it raises, if any. Without a loaded prompt set, `_get_dependent_fields`
      raises the `AttributeError` of `current_set.templates` before the batch starts. */
  function Deps(current: Option<PromptSet>, api: SG.Api, w: World, req: Request,
                made: Result<ManagerContext, ManagerError>): (World, Option<ManagerError>)
  {
    match made
    case Failure(e) => (w, Some(e))
    case Success(ctx) =>
      if current.None? then (w, Some(Generation(NoCurrentSet)))
      else
      var fields := DependentFields(SG.OrderedFields(current), req.field);
      var start := Loop(w.(signals := w.signals + [BatchStarted(|fields|)]), ctx, false, 0);
      var end := DepsLoop(ServiceOutcomes(current, api), start, fields);
      (end.world.(signals := end.world.signals + [BatchCompleted]), None)
  }

  /** As written, no request gets past building its context: `generate_field` only reports
      the `TypeError`, and `generate_with_dependencies` raises it before generating anything. */
  lemma {:induction false} AsWrittenNothingGenerated(current: Option<PromptSet>, api: SG.Api, w: World, req: Request)
    ensures var made := CreateContextAsWritten(w.chars.current, req);
      && Single(current, api, w, req, made) == w.(signals := w.signals + [Started(req.field), Errored(req.field, made.error)])
      && Deps(current, api, w, req, made) == (w, Some(made.error))
  {
    var made := CreateContextAsWritten(w.chars.current, req);
    assert w.signals + [Started(req.field)] + [Errored(req.field, made.error)]
        == w.signals + [Started(req.field), Errored(req.field, made.error)];
  }

  /** With the intended context, a request for a field whose template's required fields the
      character holds, in direct mode, writes the user's input into that field and pushes the
      character's card on the undo stack. */
  lemma {:induction false} DirectRequestWritesInput(current: Option<PromptSet>, api: SG.Api, w: World, req: Request)
    requires w.chars.current.Some? && req.mode == Direct
    requires SG.TemplateOf(current, req.field).Some?
    requires SG.TemplateOf(current, req.field).value.requiredFields <= Keys(w.chars.current.value.fields) - {req.field}
    ensures var r := Single(current, api, w, req, CreateContext(w.chars.current, req));
      && r.chars.current.Some?
      && Get(r.chars.current.value.fields, req.field) == Some(req.input)
      && (forall g :: g != req.field ==> Get(r.chars.current.value.fields, g) == Get(w.chars.current.value.fields, g))
      && r.chars.undo == w.chars.undo + [ToDict(w.chars.current.value)] && r.chars.modified
      && r.history == w.history
  {
    var ctx := CreateContext(w.chars.current, req).value;
    var sctx := ServiceContext(ctx);
    assert sctx.userInput == req.input;
    assert Keys(AvailableFields(sctx)) == Keys(w.chars.current.value.fields) - {req.field};
    var out := SG.FieldOutcome(current, sctx, api);
    assert out.Success?;
    FromValueInvertsValue(req.field, Value(req.field));
  }

  /** A request whose generation fails changes nothing of the character. */
  lemma {:induction false} FailedRequestWritesNothing(current: Option<PromptSet>, api: SG.Api, w: World, req: Request)
    requires var made := CreateContext(w.chars.current, req);
      made.Failure? || SG.FieldOutcome(current, ServiceContext(made.value), api).Failure?
    ensures Single(current, api, w, req, CreateContext(w.chars.current, req)).chars == w.chars
    ensures Single(current, api, w, req, CreateContext(w.chars.current, req)).signals[|w.signals| + 1].Errored?
  {
  }

  /** The last signal reports an error for field `f`. */
  ghost predicate EndsWithError(signals: seq<Signal>, f: FieldName)
  {
    |signals| > 0 && signals[|signals| - 1].Errored? && signals[|signals| - 1].field == f
  }

  /** One pass of the loop moves on by one field, stops exactly when that field's
      generation fails, then reporting the error and leaving the character alone, and
      writes at most one card to the undo stack. */
  lemma {:induction false} DepsStepShape(outcomes: Outcomes, s: Loop, f: FieldName, total: nat)
    ensures var r := DepsStep(outcomes, s, f, total);
      && r.done == s.done + 1
      && (r.stopped <==> outcomes(ServiceContext(s.ctx.(currentField := f))).Failure?)
      && (r.stopped ==> r.world.chars == s.world.chars && EndsWithError(r.world.signals, f))
      && |r.world.chars.undo| <= |s.world.chars.undo| + 1
  {
  }

  /** The loop visits fields in order and stops at the first failure: it ends after the last
      field or just after a failing one, and writes at most one card per field visited to
      the undo stack. */
  lemma {:induction false} DepsLoopStops(outcomes: Outcomes, s: Loop, fields: seq<FieldName>)
    requires s.done <= |fields| && !s.stopped
    ensures var r := DepsLoop(outcomes, s, fields);
      && s.done <= r.done <= |fields|
      && (r.done < |fields| ==> r.stopped)
      && (r.stopped ==> s.done < r.done && EndsWithError(r.world.signals, fields[r.done - 1]))
      && |r.world.chars.undo| <= |s.world.chars.undo| + (r.done - s.done)
    decreases |fields| - s.done
  {
    if s.done < |fields| {
      var s1 := DepsStep(outcomes, s, fields[s.done], |fields|);
      DepsStepShape(outcomes, s, fields[s.done], |fields|);
      assert DepsLoop(outcomes, s, fields) == DepsLoop(outcomes, s1, fields);
      if s1.stopped {
        assert DepsLoop(outcomes, s1, fields) == s1;
      } else {
        DepsLoopStops(outcomes, s1, fields);
      }
    }
  }

  /** `GenerationManager`. */
  class GenerationManager {
    const service: SG.GenerationService
    const characters: CM.CharacterStateManager
    /** `_is_generating`. */
    var generating: bool
    /** `_generation_queue`: the deferred requests, oldest first. */
    var queue: seq<Request>
    var signals: seq<Signal>

    constructor(service: SG.GenerationService, characters: CM.CharacterStateManager)
      ensures this.service == service && this.characters == characters
      ensures !generating && queue == [] && signals == []
    {
      this.service := service;
      this.characters := characters;
      generating := false;
      queue := [];
      signals := [];
    }

    /** What generation changes, read off the objects. */
    function WorldOf(): World
      reads this, service, characters
    {
      World(Chars(characters.current, characters.undoStack, characters.redoStack, characters.modified),
            service.history, signals)
    }

    /** `generate_field(field, input_text, mode)`: deferred while a generation runs; otherwise
        this request and then every deferred one run, first in first out, and the flag ends
        clear. */
    method GenerateField(current: Option<PromptSet>, api: SG.Api, req: Request)
      modifies this, service, characters
      decreases |queue|, 1
      ensures old(generating) ==> generating && queue == old(queue) + [req] && WorldOf() == old(WorldOf())
      ensures !old(generating) ==>
        && !generating && queue == []
        && WorldOf() == Drain(current, api, old(WorldOf()), [req] + old(queue))
      ensures characters.recentFiles == old(characters.recentFiles)
      ensures !old(characters.updating) ==> !characters.updating
    {
      if generating {
        queue := queue + [req];
        return;
      }
      generating := true;
      RunRequest(current, api, req);
      generating := false;
      assert ([req] + queue)[1..] == queue;
      ProcessQueue(current, api);
    }

    /** The body of `generate_field` once the flag is set: build the context, generate, write
        a result without error into the character, and signal the outcome. */
    method RunRequest(current: Option<PromptSet>, api: SG.Api, req: Request)
      modifies this, service, characters
      ensures WorldOf() == Single(current, api, old(WorldOf()), req, CreateContext(old(characters.current), req))
      ensures generating == old(generating) && queue == old(queue)
      ensures characters.recentFiles == old(characters.recentFiles)
      ensures !old(characters.updating) ==> !characters.updating
    {
      signals := signals + [Started(req.field)];
      var made := CreateContext(characters.current, req);
      match made {
        case Failure(e) =>
          signals := signals + [Errored(req.field, e)];
        case Success(ctx) =>
          var out := service.GenerateField(current, ServiceContext(ctx), api);
          match out {
            case Failure(e) =>
              signals := signals + [Errored(req.field, Generation(e))];
            case Success(res) =>
              if res.error.None? {
                characters.UpdateField(Value(req.field), res.content);
              }
              signals := signals + [Completed(req.field, res)];
          }
      }
    }

    /** `_process_queue()`: with the flag clear, the oldest deferred request runs, which in
        turn drains the rest. */
    method ProcessQueue(current: Option<PromptSet>, api: SG.Api)
      modifies this, service, characters
      decreases |queue|, 0
      ensures old(generating) || old(queue) == [] ==>
        generating == old(generating) && queue == old(queue) && WorldOf() == old(WorldOf())
      ensures !old(generating) ==> !generating && queue == [] && WorldOf() == Drain(current, api, old(WorldOf()), old(queue))
      ensures characters.recentFiles == old(characters.recentFiles)
      ensures !old(characters.updating) ==> !characters.updating
    {
      if |queue| > 0 && !generating {
        var next := queue[0];
        queue := queue[1..];
        GenerateField(current, api, next);
        assert [next] + old(queue)[1..] == old(queue);
      }
    }

    /** `generate_with_dependencies(field, input_text, mode)`: deferred while a generation
        runs; otherwise the field and every later field of the order are generated until the
        first failure, the deferred requests run, and the context's exception, if any, is
        raised; without a loaded prompt set no field is generated, the deferred requests
        run, and the `AttributeError` of `_get_dependent_fields` is raised. */
    method GenerateWithDependencies(current: Option<PromptSet>, api: SG.Api, req: Request)
      returns (raised: Option<ManagerError>)
      modifies this, service, characters
      ensures old(generating) ==>
        raised.None? && generating && queue == old(queue) + [req] && WorldOf() == old(WorldOf())
      ensures !old(generating) ==>
        var (w, e) := Deps(current, api, old(WorldOf()), req, CreateContext(old(characters.current), req));
        && raised == e && !generating && queue == []
        && WorldOf() == Drain(current, api, w, old(queue))
      ensures characters.recentFiles == old(characters.recentFiles)
      ensures !old(characters.updating) ==> !characters.updating
    {
      if generating {
        queue := queue + [req];
        return None;
      }
      generating := true;
      var made := CreateContext(characters.current, req);
      if made.Failure? {
        generating := false;
        ProcessQueue(current, api);
        return Some(made.error);
      }
      if current.None? {
        generating := false;
        ProcessQueue(current, api);
        return Some(Generation(NoCurrentSet));
      }
      var ctx := made.value;
      var fields := DependentFields(SG.OrderedFields(current), req.field);
      signals := signals + [BatchStarted(|fields|)];
      RunDeps(current, api, ctx, fields);
      signals := signals + [BatchCompleted];
      generating := false;
      ProcessQueue(current, api);
      raised := None;
    }

    /** One pass of the loop of `generate_with_dependencies`: field `f`, the `idx`-th of `total`. */
    method DepsField(current: Option<PromptSet>, api: SG.Api, ctx0: ManagerContext, f: FieldName, idx: nat, total: nat)
      returns (ctx: ManagerContext, stopped: bool)
      requires characters.current == Some(ctx0.character)
      modifies this, service, characters
      ensures Loop(WorldOf(), ctx, stopped, idx + 1) ==
        DepsAnswered(Loop(old(WorldOf()), ctx0, false, idx), f, total, SG.FieldOutcome(current, ServiceContext(ctx0.(currentField := f)), api))
      ensures characters.current == Some(ctx.character)
      ensures generating == old(generating) && queue == old(queue)
      ensures characters.recentFiles == old(characters.recentFiles)
      ensures !old(characters.updating) ==> !characters.updating
    {
      ghost var w0 := WorldOf();
      signals := signals + [Started(f), BatchProgress(idx + 1, total)];
      ctx := ctx0.(currentField := f);
      stopped := false;
      var out := service.GenerateField(current, ServiceContext(ctx), api);
      assert service.history == Recorded(w0.history, ServiceContext(ctx), out);
      match out {
        case Failure(e) =>
          signals := signals + [Errored(f, Generation(e))];
          stopped := true;
        case Success(res) =>
          if res.error.None? {
            characters.UpdateField(Value(f), res.content);
            assert WorldOf().chars == UpdateChars(w0.chars, Value(f), res.content);
            ctx := ctx.(character := characters.current.value, changedFields := ctx.changedFields + {f});
          }
          signals := signals + [Completed(f, res)];
      }
    }

    /** The loop of `generate_with_dependencies` over `fields`, from context `ctx` over the
        current character. */
    method RunDeps(current: Option<PromptSet>, api: SG.Api, ctx0: ManagerContext, fields: seq<FieldName>)
      requires characters.current == Some(ctx0.character)
      modifies this, service, characters
      ensures WorldOf() == DepsLoop(ServiceOutcomes(current, api), Loop(old(WorldOf()), ctx0, false, 0), fields).world
      ensures generating == old(generating) && queue == old(queue)
      ensures characters.recentFiles == old(characters.recentFiles)
      ensures !old(characters.updating) ==> !characters.updating
    {
      ghost var outcomes := ServiceOutcomes(current, api);
      ghost var start := Loop(WorldOf(), ctx0, false, 0);
      var ctx := ctx0;
      var idx := 0;
      var stopped := false;
      while idx < |fields| && !stopped
        invariant 0 <= idx <= |fields|
        invariant characters.current == Some(ctx.character)
        invariant generating == old(generating) && queue == old(queue)
        invariant characters.recentFiles == old(characters.recentFiles)
        invariant !old(characters.updating) ==> !characters.updating
        invariant DepsLoop(outcomes, Loop(WorldOf(), ctx, stopped, idx), fields) == DepsLoop(outcomes, start, fields)
        decreases |fields| - idx
      {
        ghost var s := Loop(WorldOf(), ctx, stopped, idx);
        assert outcomes(ServiceContext(ctx.(currentField := fields[idx]))) ==
          SG.FieldOutcome(current, ServiceContext(ctx.(currentField := fields[idx])), api);
        ctx, stopped := DepsField(current, api, ctx, fields[idx], idx, |fields|);
        assert Loop(WorldOf(), ctx, stopped, idx + 1) == DepsStep(outcomes, s, fields[idx], |fields|);
        idx := idx + 1;
      }
      assert DepsLoop(outcomes, Loop(WorldOf(), ctx, stopped, idx), fields) == Loop(WorldOf(), ctx, stopped, idx);
    }

    /** `generate_all()`: the `AttributeError` of `_get_ordered_fields` without a loaded
        prompt set; nothing without ordered fields; otherwise the first ordered field and
        everything after it, with no input, in generate mode. */
    method GenerateAll(current: Option<PromptSet>, api: SG.Api) returns (raised: Option<ManagerError>)
      modifies this, service, characters
      ensures current.None? ==>
        raised == Some(Generation(NoCurrentSet))
        && generating == old(generating) && queue == old(queue) && WorldOf() == old(WorldOf())
      ensures current.Some? && SG.OrderedFields(current) == [] ==>
        raised.None? && generating == old(generating) && queue == old(queue) && WorldOf() == old(WorldOf())
      ensures SG.OrderedFields(current) != [] && !old(generating) ==>
        var req := Request(SG.OrderedFields(current)[0], "", Generate);
        var (w, e) := Deps(current, api, old(WorldOf()), req, CreateContext(old(characters.current), req));
        && raised == e && !generating && queue == []
        && WorldOf() == Drain(current, api, w, old(queue))
      ensures characters.recentFiles == old(characters.recentFiles)
      ensures !old(characters.updating) ==> !characters.updating
    {
      if current.None? {
        return Some(Generation(NoCurrentSet));
      }
      var ordered := SG.OrderedFields(current);
      if |ordered| == 0 {
        return None;
      }
      raised := GenerateWithDependencies(current, api, Request(ordered[0], "", Generate));
    }

    /** `cancel_generation()`: the queue empties and the flag clears. */
    method CancelGeneration()
      modifies this
      ensures queue == [] && !generating && signals == old(signals)
    {
      queue := [];
      generating := false;
    }
  }
}
