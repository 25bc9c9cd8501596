/**
 * The metadata kept per character: per-field generation history and manual
 * edits, and per base prompt its use statistics; and `MetadataManager`, which
 * keeps one such record per character id and records into the active one.
 * Character and generation ids (uuids) are kept as their text, and a
 * `datetime` as its ISO text.
 */
module CoreMetadata {
  import opened Wrappers
  import opened IsoTime
  import opened JsonValues

  /** `GenerationMetadata`. */
  datatype GenerationMetadata = GenerationMetadata(
    fieldName: string,
    promptUsed: string,
    inputContext: map<string, Json>,
    result: string,
    basePromptName: string,
    basePromptVersion: string,
    id: string,
    timestamp: Timestamp,
    settings: map<string, Json>,
    dependencies: map<string, string>,
    durationMs: Option<int>)

  /** `FieldMetadata`. */
  datatype FieldMetadata = FieldMetadata(
    fieldName: string,
    lastGenerated: Option<Timestamp>,
    history: seq<GenerationMetadata>,
    manualEdits: seq<Timestamp>,
    basePromptUsed: Option<string>,
    customContext: map<string, Json>)

  /** `BasePromptMetadata`; its custom settings are not modelled. */
  datatype BasePromptMetadata = BasePromptMetadata(
    name: string,
    version: string,
    createdAt: Timestamp,
    lastUsed: Option<Timestamp>,
    useCount: nat,
    averageTime: Option<real>)

  /** `CharacterMetadata`; its never-written settings history is not modelled. */
  datatype CharacterMetadata = CharacterMetadata(
    characterId: string,
    createdAt: Timestamp,
    modifiedAt: Timestamp,
    fieldMetadata: map<string, FieldMetadata>,
    basePromptsUsed: seq<BasePromptMetadata>,
    customData: map<string, Json>)

  /**
   * The `generation_data` dictionary `record_generation` reads: `None` stands for
   * a missing key. The first five keys are required, the rest are read with `get`.
   */
  datatype GenerationData = GenerationData(
    prompt: Option<string>,
    context: Option<map<string, Json>>,
    result: Option<string>,
    basePromptName: Option<string>,
    basePromptVersion: Option<string>,
    settings: Option<map<string, Json>>,
    dependencies: Option<map<string, string>>,
    durationMs: Option<int>)

  /** The errors `record_generation` raises. */
  datatype MetadataError = NoActiveCharacter | UnknownCharacter(id: string) | MissingKey(key: string)

  function FreshCharacter(id: string, now: Timestamp): CharacterMetadata
  {
    CharacterMetadata(id, now, now, map[], [], map[])
  }

  function FreshField(name: string): FieldMetadata
  {
    FieldMetadata(name, None, [], [], None, map[])
  }

  /** Adds an empty record for `field` unless there is one. */
  function WithField(m: CharacterMetadata, field: string): (r: CharacterMetadata)
    ensures field in r.fieldMetadata
  {
    if field in m.fieldMetadata then m else m.(fieldMetadata := m.fieldMetadata[field := FreshField(field)])
  }

  /** The generation record `record_generation` builds, or the first required key that is missing. */
  function Generation(field: string, data: GenerationData, id: string, now: Timestamp): (r: Result<GenerationMetadata, MetadataError>)
    ensures r.Success? <==> data.prompt.Some? && data.context.Some? && data.result.Some? && data.basePromptName.Some? && data.basePromptVersion.Some?
    ensures r.Success? ==> (r.value.fieldName == field && r.value.basePromptName == data.basePromptName.value &&
      r.value.basePromptVersion == data.basePromptVersion.value && r.value.durationMs == data.durationMs)
    ensures data.prompt.None? ==> r == Failure(MissingKey("prompt"))
  {
    if data.prompt.None? then Failure(MissingKey("prompt"))
    else if data.context.None? then Failure(MissingKey("context"))
    else if data.result.None? then Failure(MissingKey("result"))
    else if data.basePromptName.None? then Failure(MissingKey("base_prompt_name"))
    else if data.basePromptVersion.None? then Failure(MissingKey("base_prompt_version"))
    else Success(GenerationMetadata(
      field, data.prompt.value, data.context.value, data.result.value,
      data.basePromptName.value, data.basePromptVersion.value, id, now,
      if data.settings.Some? then data.settings.value else map[],
      if data.dependencies.Some? then data.dependencies.value else map[],
      data.durationMs))
  }

  /** The index of the first base prompt record with this name and version. */
  function FindPrompt(prompts: seq<BasePromptMetadata>, name: string, version: string): (r: Option<nat>)
    ensures r.Some? ==> r.value < |prompts| && prompts[r.value].name == name && prompts[r.value].version == version
    ensures r.Some? ==> forall k :: 0 <= k < r.value ==> !(prompts[k].name == name && prompts[k].version == version)
    ensures r.None? ==> forall k :: 0 <= k < |prompts| ==> !(prompts[k].name == name && prompts[k].version == version)
  {
    if |prompts| == 0 then None
    else if prompts[0].name == name && prompts[0].version == version then Some(0)
    else match FindPrompt(prompts[1..], name, version)
      case None => None
      case Some(i) => Some(i + 1)
  }

  /** One more use of a base prompt: the use count goes up and the running average takes in the duration, if any. */
  function Used(p: BasePromptMetadata, now: Timestamp, durationMs: Option<int>): BasePromptMetadata
  {
    var count := p.useCount + 1;
    p.(lastUsed := Some(now), useCount := count,
       averageTime :=
         if durationMs.None? then p.averageTime
         else if p.averageTime.None? then Some(durationMs.value as real)
         else Some((p.averageTime.value * (count - 1) as real + durationMs.value as real) / count as real))
  }

  /** `_update_base_prompt_stats` on the list of base prompt records. */
  function PromptStats(prompts: seq<BasePromptMetadata>, name: string, version: string, now: Timestamp, durationMs: Option<int>)
    : seq<BasePromptMetadata>
  {
    match FindPrompt(prompts, name, version)
    case Some(i) => prompts[i := Used(prompts[i], now, durationMs)]
    case None => prompts + [Used(BasePromptMetadata(name, version, now, None, 0, None), now, durationMs)]
  }

  /** There is a base prompt record for this name and version, and it has been used. */
  ghost predicate Listed(prompts: seq<BasePromptMetadata>, name: string, version: string)
  {
    exists i :: 0 <= i < |prompts| && prompts[i].name == name && prompts[i].version == version && prompts[i].useCount > 0
  }

  /** No two base prompt records share a name and version. */
  ghost predicate DistinctPrompts(prompts: seq<BasePromptMetadata>)
  {
    forall i, j :: 0 <= i < j < |prompts| ==> !(prompts[i].name == prompts[j].name && prompts[i].version == prompts[j].version)
  }

  /** Recording a use adds a record only for a name and version not yet listed, and keeps every listed one listed. */
  lemma {:induction false} PromptStatsKeeps(prompts: seq<BasePromptMetadata>, name: string, version: string, now: Timestamp, durationMs: Option<int>)
    requires DistinctPrompts(prompts)
    ensures var r := PromptStats(prompts, name, version, now, durationMs);
      && DistinctPrompts(r)
      && Listed(r, name, version)
      && (forall n, v :: Listed(prompts, n, v) ==> Listed(r, n, v))
      && |r| == (if FindPrompt(prompts, name, version).Some? then |prompts| else |prompts| + 1)
  {
    var r := PromptStats(prompts, name, version, now, durationMs);
    match FindPrompt(prompts, name, version)
    case Some(i) =>
      assert r[i].useCount > 0;
      forall n, v | Listed(prompts, n, v)
        ensures Listed(r, n, v)
      {
        var k :| 0 <= k < |prompts| && prompts[k].name == n && prompts[k].version == v && prompts[k].useCount > 0;
        assert r[k].name == n && r[k].version == v && r[k].useCount > 0;
      }
    case None =>
      assert r[|prompts|].name == name && r[|prompts|].version == version;
      forall n, v | Listed(prompts, n, v)
        ensures Listed(r, n, v)
      {
        var k :| 0 <= k < |prompts| && prompts[k].name == n && prompts[k].version == v && prompts[k].useCount > 0;
        assert r[k] == prompts[k];
      }
  }

  /**
   * What recording keeps about a field's record: it is filed under its own name,
   * it was last generated exactly when it has a history, its base prompt is that of
   * its last generation, and every generation's base prompt has a used record.
   */
  ghost predicate FieldTracked(name: string, f: FieldMetadata, prompts: seq<BasePromptMetadata>)
  {
    && f.fieldName == name
    && (f.lastGenerated.None? <==> |f.history| == 0)
    && f.basePromptUsed == (if |f.history| == 0 then None else Some(f.history[|f.history| - 1].basePromptName))
    && forall g :: g in f.history ==> g.fieldName == name && Listed(prompts, g.basePromptName, g.basePromptVersion)
  }

  ghost predicate Tracked(m: CharacterMetadata)
  {
    && DistinctPrompts(m.basePromptsUsed)
    && forall k :: k in m.fieldMetadata ==> FieldTracked(k, m.fieldMetadata[k], m.basePromptsUsed)
  }

  lemma {:induction false} WithFieldKeeps(m: CharacterMetadata, field: string)
    requires Tracked(m)
    ensures Tracked(WithField(m, field))
    ensures WithField(m, field).basePromptsUsed == m.basePromptsUsed
  {
  }

  /** `record_generation` once the generation record is built: the field's and the base prompt's records take it in. */
  function Recorded(m: CharacterMetadata, g: GenerationMetadata, now: Timestamp): CharacterMetadata
    requires g.fieldName in m.fieldMetadata
  {
    var f := m.fieldMetadata[g.fieldName];
    m.(fieldMetadata := m.fieldMetadata[g.fieldName := f.(lastGenerated := Some(now), history := f.history + [g], basePromptUsed := Some(g.basePromptName))],
       basePromptsUsed := PromptStats(m.basePromptsUsed, g.basePromptName, g.basePromptVersion, now, g.durationMs))
  }

  /** Recording a generation keeps the metadata tracked. */
  lemma {:induction false} RecordKeeps(m: CharacterMetadata, g: GenerationMetadata, now: Timestamp)
    requires Tracked(m) && g.fieldName in m.fieldMetadata
    ensures Tracked(Recorded(m, g, now))
  {
    var r := Recorded(m, g, now);
    PromptStatsKeeps(m.basePromptsUsed, g.basePromptName, g.basePromptVersion, now, g.durationMs);
    forall k | k in r.fieldMetadata
      ensures FieldTracked(k, r.fieldMetadata[k], r.basePromptsUsed)
    {
      if k == g.fieldName {
        FieldTakesGeneration(k, m.fieldMetadata[k], g, now, m.basePromptsUsed, r.basePromptsUsed);
      } else {
        FieldStaysTracked(k, m.fieldMetadata[k], m.basePromptsUsed, r.basePromptsUsed);
      }
    }
  }

  /** A field's record stays tracked when the used base prompts only gain entries. */
  lemma {:induction false} FieldStaysTracked(k: string, f: FieldMetadata, prompts: seq<BasePromptMetadata>, prompts': seq<BasePromptMetadata>)
    requires FieldTracked(k, f, prompts)
    requires forall n, v :: Listed(prompts, n, v) ==> Listed(prompts', n, v)
    ensures FieldTracked(k, f, prompts')
  {
    forall x | x in f.history
      ensures Listed(prompts', x.basePromptName, x.basePromptVersion)
    {
      assert Listed(prompts, x.basePromptName, x.basePromptVersion);
    }
  }

  /** A tracked field's record that takes in a generation of its own, whose base prompt is listed, stays tracked. */
  lemma {:induction false} FieldTakesGeneration(k: string, f: FieldMetadata, g: GenerationMetadata, now: Timestamp,
                                                prompts: seq<BasePromptMetadata>, prompts': seq<BasePromptMetadata>)
    requires FieldTracked(k, f, prompts) && g.fieldName == k
    requires forall n, v :: Listed(prompts, n, v) ==> Listed(prompts', n, v)
    requires Listed(prompts', g.basePromptName, g.basePromptVersion)
    ensures FieldTracked(k, f.(lastGenerated := Some(now), history := f.history + [g], basePromptUsed := Some(g.basePromptName)), prompts')
  {
    forall x | x in f.history + [g]
      ensures x.fieldName == k && Listed(prompts', x.basePromptName, x.basePromptVersion)
    {
      if x != g {
        assert x in f.history;
        assert Listed(prompts, x.basePromptName, x.basePromptVersion);
      }
    }
  }

  /** `get_field_history` on one character's metadata. */
  function History(m: CharacterMetadata, field: string): seq<GenerationMetadata>
  {
    if field in m.fieldMetadata then m.fieldMetadata[field].history else []
  }

  /** `get_last_generation_context` on one character's metadata. */
  function LastContext(m: CharacterMetadata, field: string): (r: Option<map<string, Json>>)
    ensures r.None? <==> History(m, field) == []
  {
    var h := History(m, field);
    if |h| == 0 then None else Some(h[|h| - 1].inputContext)
  }

  /**
   * After a recording, the field's history has the new generation at its end, so
   * it is the last context; every other field's history stays as it was, and the
   * field's base prompt is the generation's.
   */
  lemma {:induction false} RecordedShowsLast(m: CharacterMetadata, g: GenerationMetadata, now: Timestamp)
    requires g.fieldName in m.fieldMetadata
    ensures History(Recorded(m, g, now), g.fieldName) == History(m, g.fieldName) + [g]
    ensures LastContext(Recorded(m, g, now), g.fieldName) == Some(g.inputContext)
    ensures forall f :: f != g.fieldName ==> History(Recorded(m, g, now), f) == History(m, f)
    ensures Recorded(m, g, now).fieldMetadata[g.fieldName].basePromptUsed == Some(g.basePromptName)
  {
  }

  /** `record_manual_edit` once the field has a record: the edit time is kept, and the character counts as modified then. */
  function Edited(m: CharacterMetadata, field: string, now: Timestamp): CharacterMetadata
    requires field in m.fieldMetadata
  {
    var f := m.fieldMetadata[field];
    m.(fieldMetadata := m.fieldMetadata[field := f.(manualEdits := f.manualEdits + [now])], modifiedAt := now)
  }

  /** A manual edit keeps the metadata tracked and leaves every generation history as it was. */
  lemma {:induction false} EditKeeps(m: CharacterMetadata, field: string, now: Timestamp)
    requires Tracked(m) && field in m.fieldMetadata
    ensures Tracked(Edited(m, field, now))
    ensures forall f :: History(Edited(m, field, now), f) == History(m, f)
    ensures |Edited(m, field, now).fieldMetadata[field].manualEdits| == |m.fieldMetadata[field].manualEdits| + 1
  {
    var r := Edited(m, field, now);
    forall k | k in r.fieldMetadata
      ensures FieldTracked(k, r.fieldMetadata[k], r.basePromptsUsed)
    {
      assert r.fieldMetadata[k].history == m.fieldMetadata[k].history;
    }
  }

  function TextOrNull(t: Option<string>): Json
  {
    if t.Some? then Str(t.value) else Null
  }

  /** One field's record as `get_metadata_for_save` writes it. */
  function FieldSaved(f: FieldMetadata): Json
  {
    Obj(map[
      "last_generated" := TextOrNull(f.lastGenerated),
      "generation_count" := Int(|f.history|),
      "manual_edit_count" := Int(|f.manualEdits|),
      "base_prompt_used" := TextOrNull(f.basePromptUsed),
      "custom_context" := Obj(f.customContext)])
  }

  /** One base prompt's record as `get_metadata_for_save` writes it. */
  function PromptSaved(p: BasePromptMetadata): Json
  {
    Obj(map[
      "name" := Str(p.name),
      "version" := Str(p.version),
      "use_count" := Int(p.useCount),
      "last_used" := TextOrNull(p.lastUsed),
      "average_generation_time" := if p.averageTime.Some? then Num(p.averageTime.value) else Null])
  }

  function PromptsSaved(prompts: seq<BasePromptMetadata>): (r: seq<Json>)
    ensures |r| == |prompts|
    ensures forall i :: 0 <= i < |prompts| ==> r[i] == PromptSaved(prompts[i])
  {
    if |prompts| == 0 then [] else [PromptSaved(prompts[0])] + PromptsSaved(prompts[1..])
  }

  /** The `charactergen` entry `get_metadata_for_save` writes for one character. */
  function SaveForm(m: CharacterMetadata): map<string, Json>
  {
    map[
      "character_id" := Str(m.characterId),
      "created_at" := Str(m.createdAt),
      "modified_at" := Str(m.modifiedAt),
      "field_metadata" := Obj(map name | name in m.fieldMetadata :: FieldSaved(m.fieldMetadata[name])),
      "base_prompts" := Arr(PromptsSaved(m.basePromptsUsed)),
      "custom_data" := Obj(m.customData)]
  }

  /** The saved form lists every field and every base prompt record. */
  lemma {:induction false} SaveFormLists(m: CharacterMetadata)
    ensures SaveForm(m)["field_metadata"] == Obj(map k | k in m.fieldMetadata :: FieldSaved(m.fieldMetadata[k]))
    ensures SaveForm(m)["field_metadata"].entries.Keys == m.fieldMetadata.Keys
    ensures SaveForm(m)["base_prompts"].items == PromptsSaved(m.basePromptsUsed)
    ensures |SaveForm(m)["base_prompts"].items| == |m.basePromptsUsed|
  {
    var fields := map k | k in m.fieldMetadata :: FieldSaved(m.fieldMetadata[k]);
    assert fields.Keys == m.fieldMetadata.Keys;
  }

  /**
   * A tracked field's saved counts are the lengths of its generation history and
   * edit list, and it names the base prompt and time of its last generation, or
   * nothing when it has none.
   */
  lemma {:induction false} FieldSavedCounts(name: string, f: FieldMetadata, prompts: seq<BasePromptMetadata>)
    requires FieldTracked(name, f, prompts)
    ensures var saved := FieldSaved(f).entries;
      && saved["generation_count"] == Int(|f.history|)
      && saved["manual_edit_count"] == Int(|f.manualEdits|)
      && (|f.history| > 0 ==> saved["base_prompt_used"] == Str(f.history[|f.history| - 1].basePromptName) && saved["last_generated"].Str?)
      && (|f.history| == 0 ==> saved["base_prompt_used"] == Null && saved["last_generated"] == Null)
  {
  }

  /** `MetadataManager`. */
  class MetadataManager {
    var active: Option<string>
    var cache: map<string, CharacterMetadata>

    /** The active character has metadata, and every character's metadata is filed under its id and tracked. */
    ghost predicate Valid()
      reads this
    {
      && (active.Some? ==> active.value in cache)
      && forall id :: id in cache ==> cache[id].characterId == id && Tracked(cache[id])
    }

    constructor()
      ensures active == None && cache == map[]
      ensures Valid()
    {
      active, cache := None, map[];
    }

    /** `initialize_character_metadata`: files a fresh record under `id`, replacing any there. */
    method InitializeCharacterMetadata(id: string, now: Timestamp) returns (m: CharacterMetadata)
      modifies this
      ensures m == FreshCharacter(id, now)
      ensures cache == old(cache)[id := m] && active == old(active)
      ensures old(Valid()) ==> Valid()
    {
      m := FreshCharacter(id, now);
      cache := cache[id := m];
    }

    /** `set_active_character`: the character becomes active, with a fresh record if it had none. */
    method SetActiveCharacter(id: string, now: Timestamp)
      modifies this
      ensures active == Some(id)
      ensures cache == if id in old(cache) then old(cache) else old(cache)[id := FreshCharacter(id, now)]
      ensures old(Valid()) ==> Valid()
    {
      active := Some(id);
      if id !in cache {
        var _ := InitializeCharacterMetadata(id, now);
      }
    }

    /**
     * `record_generation`. Without an active character, or without its record,
     * nothing changes. Otherwise the field gets a record if it had none, and then,
     * when the data holds every required key, the generation is recorded.
     */
    method RecordGeneration(field: string, data: GenerationData, id: string, now: Timestamp)
      returns (r: Result<GenerationMetadata, MetadataError>)
      modifies this
      ensures active == old(active)
      ensures old(active).None? ==> r == Failure(NoActiveCharacter) && cache == old(cache)
      ensures old(active).Some? && old(active).value !in old(cache) ==>
        r == Failure(UnknownCharacter(old(active).value)) && cache == old(cache)
      ensures old(active).Some? && old(active).value in old(cache) ==>
        var a := old(active).value;
        var m := WithField(old(cache)[a], field);
        && r == Generation(field, data, id, now)
        && cache == old(cache)[a := if r.Success? then Recorded(m, r.value, now) else m]
      ensures old(Valid()) ==> Valid()
    {
      if active.None? {
        return Failure(NoActiveCharacter);
      }
      var a := active.value;
      if a !in cache {
        return Failure(UnknownCharacter(a));
      }
      ghost var valid := Valid();
      var m := WithField(cache[a], field);
      if valid {
        WithFieldKeeps(cache[a], field);
      }
      cache := cache[a := m];
      r := Generation(field, data, id, now);
      if r.Success? {
        if valid {
          RecordKeeps(m, r.value, now);
        }
        cache := cache[a := Recorded(m, r.value, now)];
      }
    }

    /** `record_manual_edit`; its errors are logged and swallowed, so without an active record nothing changes. */
    method RecordManualEdit(field: string, now: Timestamp)
      modifies this
      ensures active == old(active)
      ensures old(active).None? || old(active).value !in old(cache) ==> cache == old(cache)
      ensures old(active).Some? && old(active).value in old(cache) ==>
        var a := old(active).value;
        cache == old(cache)[a := Edited(WithField(old(cache)[a], field), field, now)]
      ensures old(Valid()) ==> Valid()
    {
      if active.None? || active.value !in cache {
        return;
      }
      var a := active.value;
      var m := WithField(cache[a], field);
      if Valid() {
        WithFieldKeeps(cache[a], field);
        EditKeeps(m, field, now);
      }
      cache := cache[a := Edited(m, field, now)];
    }

    /** `get_field_history`: empty without an active record. */
    function GetFieldHistory(field: string): (r: seq<GenerationMetadata>)
      reads this
      ensures active.Some? && active.value in cache ==> r == History(cache[active.value], field)
      ensures active.None? || active.value !in cache ==> r == []
    {
      if active.None? || active.value !in cache then [] else History(cache[active.value], field)
    }

    /** `get_last_generation_context`. */
    function GetLastGenerationContext(field: string): (r: Option<map<string, Json>>)
      reads this
      ensures r.None? <==> GetFieldHistory(field) == []
      ensures r.Some? ==> r.value == GetFieldHistory(field)[|GetFieldHistory(field)| - 1].inputContext
    {
      var h := GetFieldHistory(field);
      if |h| == 0 then None else Some(h[|h| - 1].inputContext)
    }

    /** `get_metadata_for_save`: `{}` without an active character; `None` stands for the lookup error when its record is missing. */
    function GetMetadataForSave(): (r: Option<map<string, Json>>)
      reads this
      ensures active.None? ==> r == Some(map[])
      ensures r.Some? && active.Some? ==> r.value.Keys == {"charactergen"}
      ensures Valid() ==> r.Some?
    {
      if active.None? then Some(map[])
      else if active.value !in cache then None
      else Some(map["charactergen" := Obj(SaveForm(cache[active.value]))])
    }
  }
}
