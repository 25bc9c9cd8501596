/**
 * The character record of the `core` package: the template fields of a
 * character card, the application's own metadata kept under the card's
 * `extensions`, and the card's dictionary form. Character ids (uuids) are kept
 * as their text, and a `datetime` as its ISO text.
 */
module CoreCharacter {
  import opened Wrappers
  import opened IsoTime
  import opened JsonValues

  /** Why a dictionary cannot be read into, or update, a record: the value under `key` has the wrong shape. */
  datatype ModelError = WrongType(key: string) | BadTimestamp(text: string)

  /** The attribute values of a `CharacterGenMetadata`. */
  datatype MetaState = MetaState(
    generationHistory: map<string, Json>,
    lastValidated: Option<Timestamp>,
    validationState: map<string, Json>,
    customSettings: map<string, Json>,
    version: string,
    createdWith: string,
    lastModifiedWith: string,
    lastModified: Option<string>)

  const DefaultMeta := MetaState(map[], None, map[], map[], "1.0", "CharacterGen", "CharacterGen", None)

  /** The attribute names of `CharacterGenMetadata` that `update` sets directly. */
  const MetaKeys: set<string> := {"generation_history", "last_validated", "validation_state", "custom_settings",
                                  "version", "created_with", "last_modified_with", "last_modified"}

  /** An optional text: `Some(None)` for null, nothing for any value that is neither null nor text. */
  function OptionalText(v: Json): Option<Option<string>>
  {
    if v.Null? then Some(None) else if v.Str? then Some(Some(v.s)) else None
  }

  /** A value `update` can store under `key`: an object, a text, or a text or null, as the attribute's type says. */
  predicate Fits(key: string, v: Json)
  {
    if key in {"generation_history", "validation_state", "custom_settings"} then v.Obj?
    else if key in {"version", "created_with", "last_modified_with"} then v.Str?
    else if key in {"last_validated", "last_modified"} then OptionalText(v).Some?
    else true
  }

  /** One step of `update`: an attribute name sets that attribute, any other key becomes a custom setting. */
  function Apply(s: MetaState, key: string, v: Json): (r: Result<MetaState, ModelError>)
    ensures r.Failure? <==> key in MetaKeys && !Fits(key, v)
    ensures key !in MetaKeys ==> r == Success(s.(customSettings := s.customSettings[key := v]))
  {
    if key == "generation_history" then (if v.Obj? then Success(s.(generationHistory := v.entries)) else Failure(WrongType(key)))
    else if key == "last_validated" then
      (if OptionalText(v).Some? then Success(s.(lastValidated := OptionalText(v).value)) else Failure(WrongType(key)))
    else if key == "validation_state" then (if v.Obj? then Success(s.(validationState := v.entries)) else Failure(WrongType(key)))
    else if key == "custom_settings" then (if v.Obj? then Success(s.(customSettings := v.entries)) else Failure(WrongType(key)))
    else if key == "version" then (if v.Str? then Success(s.(version := v.s)) else Failure(WrongType(key)))
    else if key == "created_with" then (if v.Str? then Success(s.(createdWith := v.s)) else Failure(WrongType(key)))
    else if key == "last_modified_with" then (if v.Str? then Success(s.(lastModifiedWith := v.s)) else Failure(WrongType(key)))
    else if key == "last_modified" then
      (if OptionalText(v).Some? then Success(s.(lastModified := OptionalText(v).value)) else Failure(WrongType(key)))
    else Success(s.(customSettings := s.customSettings[key := v]))
  }

  /** `update` on the attribute values: the entries applied in order, up to the first that does not fit. */
  function UpdateSpec(s: MetaState, data: seq<(string, Json)>): (MetaState, Option<ModelError>)
    decreases |data|
  {
    if |data| == 0 then (s, None)
    else match Apply(s, data[0].0, data[0].1)
      case Failure(e) => (s, Some(e))
      case Success(next) => UpdateSpec(next, data[1..])
  }

  /** The text `to_dict` writes as `last_modified`: the stored text, or the clock reading when there is none or it is empty. */
  function ModifiedText(s: MetaState, now: Timestamp): string
  {
    if s.lastModified.Some? && s.lastModified.value != "" then s.lastModified.value else now
  }

  function TextOrNull(t: Option<string>): Json
  {
    if t.Some? then Str(t.value) else Null
  }

  /** `CharacterGenMetadata.to_dict`. */
  function MetaDict(s: MetaState, now: Timestamp): map<string, Json>
  {
    map[
      "generation_history" := Obj(s.generationHistory),
      "last_validated" := TextOrNull(s.lastValidated),
      "validation_state" := Obj(s.validationState),
      "custom_settings" := Obj(s.customSettings),
      "version" := Str(s.version),
      "created_with" := Str(s.createdWith),
      "last_modified_with" := Str(s.lastModifiedWith),
      "last_modified" := Str(ModifiedText(s, now))]
  }

  /** `data.get(key, {})` for an object entry. */
  function ObjectEntry(d: map<string, Json>, key: string): (r: Result<map<string, Json>, ModelError>)
    ensures key !in d ==> r == Success(map[])
    ensures key in d ==> (r.Success? <==> d[key].Obj?)
  {
    if key !in d then Success(map[]) else if d[key].Obj? then Success(d[key].entries) else Failure(WrongType(key))
  }

  /** `CharacterGenMetadata.from_dict`: the defaults for null, and each missing entry as its default. */
  function MetaFrom(j: Json): (r: Result<MetaState, ModelError>)
    ensures j.Null? || j == Obj(map[]) ==> r == Success(DefaultMeta)
  {
    if j.Null? then Success(DefaultMeta)
    else if !j.Obj? then Failure(WrongType("charactergen"))
    else
      var d := j.entries;
      var history :- ObjectEntry(d, "generation_history");
      var validated :-
        if "last_validated" in d && Truthy(d["last_validated"]) then
          (if !d["last_validated"].Str? then Failure(WrongType("last_validated"))
           else if !IsIsoFormat(d["last_validated"].s) then Failure(BadTimestamp(d["last_validated"].s))
           else Success(Some(d["last_validated"].s)))
        else Success(None);
      var validation :- ObjectEntry(d, "validation_state");
      var custom :- ObjectEntry(d, "custom_settings");
      var version :- TextEntry(d, "version", "1.0", WrongType("version"));
      var createdWith :- TextEntry(d, "created_with", "CharacterGen", WrongType("created_with"));
      var modifiedWith :- TextEntry(d, "last_modified_with", "CharacterGen", WrongType("last_modified_with"));
      var modified :-
        if "last_modified" !in d then Success(None)
        else if OptionalText(d["last_modified"]).Some? then Success(OptionalText(d["last_modified"]).value)
        else Failure(WrongType("last_modified"));
      Success(MetaState(history, validated, validation, custom, version, createdWith, modifiedWith, modified))
  }

  /**
   * Metadata read back from its dictionary form is the same, except that an unset
   * or empty `last_modified` comes back as the time it was written at. A
   * validation time is one `isoformat()` can have written.
   */
  lemma {:induction false} MetaRoundTrip(s: MetaState, now: Timestamp)
    requires s.lastValidated.Some? ==> IsIsoFormat(s.lastValidated.value)
    ensures MetaFrom(Obj(MetaDict(s, now))) == Success(s.(lastModified := Some(ModifiedText(s, now))))
  {
    var d := MetaDict(s, now);
    assert "generation_history" in d && "validation_state" in d && "custom_settings" in d;
    assert "version" in d && "created_with" in d && "last_modified_with" in d && "last_modified" in d;
  }

  /** Writing an attribute with `update` shows in `to_dict`: the value itself, except a `last_modified` that is null or empty; any other key shows among the custom settings. */
  lemma {:induction false} ApplyShows(s: MetaState, key: string, v: Json, now: Timestamp)
    requires Apply(s, key, v).Success?
    ensures var d := MetaDict(Apply(s, key, v).value, now);
      && (key in MetaKeys && key != "last_modified" ==> d[key] == v)
      && (key == "last_modified" && v.Str? && v.s != "" ==> d[key] == v)
      && (key !in MetaKeys ==> d["custom_settings"] == Obj(s.customSettings[key := v]))
  {
  }

  /** An `update` whose keys name no attribute only adds custom settings, later entries winning. */
  lemma {:induction false} UpdateOnlyCustom(s: MetaState, data: seq<(string, Json)>)
    requires forall i :: 0 <= i < |data| ==> data[i].0 !in MetaKeys
    ensures UpdateSpec(s, data).1 == None
    ensures UpdateSpec(s, data).0 == s.(customSettings := UpdateSpec(s, data).0.customSettings)
    ensures forall k :: k in s.customSettings || (exists i :: 0 <= i < |data| && data[i].0 == k) <==> k in UpdateSpec(s, data).0.customSettings
    decreases |data|
  {
    if |data| > 0 {
      var next := s.(customSettings := s.customSettings[data[0].0 := data[0].1]);
      UpdateOnlyCustom(next, data[1..]);
      forall k
        ensures k in s.customSettings || (exists i :: 0 <= i < |data| && data[i].0 == k) <==> k in UpdateSpec(s, data).0.customSettings
      {
        if exists i :: 0 <= i < |data| && data[i].0 == k {
          var i :| 0 <= i < |data| && data[i].0 == k;
          if i > 0 {
            assert data[1..][i - 1].0 == k;
          }
        }
        if exists i :: 0 <= i < |data[1..]| && data[1..][i].0 == k {
          var i :| 0 <= i < |data[1..]| && data[1..][i].0 == k;
          assert data[i + 1].0 == k;
        }
      }
    }
  }

  /** `CharacterGenMetadata`. */
  class CharacterGenMetadata {
    var generationHistory: map<string, Json>
    var lastValidated: Option<Timestamp>
    var validationState: map<string, Json>
    var customSettings: map<string, Json>
    var version: string
    var createdWith: string
    var lastModifiedWith: string
    var lastModified: Option<string>

    function State(): MetaState
      reads this
    {
      MetaState(generationHistory, lastValidated, validationState, customSettings, version, createdWith, lastModifiedWith, lastModified)
    }

    /** The metadata with the given attribute values. */
    constructor Of(s: MetaState)
      ensures State() == s
    {
      generationHistory, lastValidated, validationState, customSettings := s.generationHistory, s.lastValidated, s.validationState, s.customSettings;
      version, createdWith, lastModifiedWith, lastModified := s.version, s.createdWith, s.lastModifiedWith, s.lastModified;
    }

    /** The `setattr` or the custom setting one entry of `update` performs. */
    method SetAttribute(key: string, v: Json) returns (err: Option<ModelError>)
      modifies this
      ensures err.None? <==> Apply(old(State()), key, v).Success?
      ensures err.None? ==> State() == Apply(old(State()), key, v).value
      ensures err.Some? ==> State() == old(State()) && err == Some(Apply(old(State()), key, v).error)
    {
      if key !in MetaKeys {
        customSettings := customSettings[key := v];
      } else if !Fits(key, v) {
        return Some(WrongType(key));
      } else if key == "generation_history" {
        generationHistory := v.entries;
      } else if key == "last_validated" {
        lastValidated := OptionalText(v).value;
      } else if key == "validation_state" {
        validationState := v.entries;
      } else if key == "custom_settings" {
        customSettings := v.entries;
      } else if key == "version" {
        version := v.s;
      } else if key == "created_with" {
        createdWith := v.s;
      } else if key == "last_modified_with" {
        lastModifiedWith := v.s;
      } else {
        lastModified := OptionalText(v).value;
      }
      return None;
    }

    /** `update`: the entries in order; an entry that does not fit its attribute stops it, leaving earlier ones applied. */
    method Update(data: seq<(string, Json)>) returns (err: Option<ModelError>)
      modifies this
      ensures (State(), err) == UpdateSpec(old(State()), data)
    {
      for i := 0 to |data|
        invariant UpdateSpec(old(State()), data) == UpdateSpec(State(), data[i..])
      {
        err := SetAttribute(data[i].0, data[i].1);
        if err.Some? {
          return;
        }
      }
      return None;
    }

    /** `to_dict`; `now` is the clock reading used for an unset modification time. */
    function ToDict(now: Timestamp): map<string, Json>
      reads this
    {
      MetaDict(State(), now)
    }

    /** `from_dict`. */
    static method FromDict(data: Json) returns (r: Result<CharacterGenMetadata, ModelError>)
      ensures r.Success? <==> MetaFrom(data).Success?
      ensures r.Success? ==> fresh(r.value) && r.value.State() == MetaFrom(data).value
      ensures r.Failure? ==> r.error == MetaFrom(data).error
    {
      var s := MetaFrom(data);
      if s.Failure? {
        return Failure(s.error);
      }
      var m := new CharacterGenMetadata.Of(s.value);
      return Success(m);
    }
  }

  /** The template fields of a character card. */
  datatype Template = Template(
    name: string,
    description: string,
    personality: string,
    firstMes: string,
    avatar: string,
    mesExample: string,
    scenario: string,
    creatorNotes: string,
    systemPrompt: string,
    postHistoryInstructions: string,
    alternateGreetings: seq<string>,
    tags: seq<string>,
    creator: string,
    characterVersion: string)

  /** The template fields of a new character. */
  const EmptyTemplate := Template("", "", "", "", "none", "", "", "", "", "", [], [], "Anonymous", "")

  /** The template fields as `to_dict` writes them. */
  function TemplateEntries(t: Template): (r: map<string, Json>)
    ensures "data" !in r && "extensions" !in r
  {
    map[
      "name" := Str(t.name), "description" := Str(t.description), "personality" := Str(t.personality),
      "first_mes" := Str(t.firstMes), "avatar" := Str(t.avatar), "mes_example" := Str(t.mesExample),
      "scenario" := Str(t.scenario), "creator_notes" := Str(t.creatorNotes), "system_prompt" := Str(t.systemPrompt),
      "post_history_instructions" := Str(t.postHistoryInstructions),
      "alternate_greetings" := Arr(StrList(t.alternateGreetings)), "tags" := Arr(StrList(t.tags)),
      "creator" := Str(t.creator), "character_version" := Str(t.characterVersion)]
  }

  /** `char_data.get(key, [])` for a list of texts. */
  function TextListEntry(d: map<string, Json>, key: string): (r: Result<seq<string>, ModelError>)
    ensures key !in d ==> r == Success([])
  {
    if key !in d then Success([])
    else if d[key].Arr? && Texts(d[key].items).Some? then Success(Texts(d[key].items).value)
    else Failure(WrongType(key))
  }

  /** The text fields `from_dict` reads, in order. */
  const TextKeys: seq<string> := ["name", "description", "personality", "first_mes", "avatar", "mes_example", "scenario",
                                  "creator_notes", "system_prompt", "post_history_instructions", "creator", "character_version"]

  /** The values of the text fields, in the order of `TextKeys`. */
  function TextValues(t: Template): (r: seq<string>)
    ensures |r| == |TextKeys|
  {
    [t.name, t.description, t.personality, t.firstMes, t.avatar, t.mesExample, t.scenario,
     t.creatorNotes, t.systemPrompt, t.postHistoryInstructions, t.creator, t.characterVersion]
  }

  /** `{key: d.get(key, "") for key in keys}`, when every value found is a text. */
  function TextsFrom(d: map<string, Json>, keys: seq<string>): (r: Result<seq<string>, ModelError>)
    ensures r.Success? ==> |r.value| == |keys|
    ensures r.Success? ==> forall i :: 0 <= i < |keys| ==> if keys[i] in d then d[keys[i]] == Str(r.value[i]) else r.value[i] == ""
    ensures r.Failure? ==> exists i :: 0 <= i < |keys| && keys[i] in d && !d[keys[i]].Str?
  {
    if |keys| == 0 then Success([])
    else
      var first :- TextEntry(d, keys[0], "", WrongType(keys[0]));
      match TextsFrom(d, keys[1..])
      case Failure(e) =>
        var i :| 0 <= i < |keys[1..]| && keys[1..][i] in d && !d[keys[1..][i]].Str?;
        assert keys[i + 1] == keys[1..][i];
        Failure(e)
      case Success(rest) => Success([first] + rest)
  }

  /** Texts stored under their keys read back as they were. */
  lemma {:induction false} TextsFromStored(d: map<string, Json>, keys: seq<string>, values: seq<string>)
    requires |values| == |keys|
    requires forall i :: 0 <= i < |keys| ==> keys[i] in d && d[keys[i]] == Str(values[i])
    ensures TextsFrom(d, keys) == Success(values)
    decreases |keys|
  {
    if |keys| > 0 {
      TextsFromStored(d, keys[1..], values[1..]);
      assert values == [values[0]] + values[1..];
    }
  }

  /** The template fields `from_dict` reads, every text defaulting to empty text and every list to an empty list. */
  function TemplateFrom(d: map<string, Json>): (r: Result<Template, ModelError>)
  {
    var texts :- TextsFrom(d, TextKeys);
    var greetings :- TextListEntry(d, "alternate_greetings");
    var tags :- TextListEntry(d, "tags");
    Success(Template(texts[0], texts[1], texts[2], texts[3], texts[4], texts[5], texts[6], texts[7], texts[8], texts[9],
                     greetings, tags, texts[10], texts[11]))
  }

  /** With no entries, every text is empty and every list is empty. */
  lemma {:induction false} TemplateFromEmpty()
    ensures TemplateFrom(map[]) == Success(Template("", "", "", "", "", "", "", "", "", "", [], [], "", ""))
  {
    var empty: map<string, Json> := map[];
    var texts := TextsFrom(empty, TextKeys);
    if texts.Failure? {
      assert false;
    }
  }

  /** The template fields read back from their dictionary form are the same, whatever other entries sit beside them. */
  lemma {:induction false} TemplateRoundTrip(t: Template, extra: map<string, Json>)
    ensures TemplateFrom(extra + TemplateEntries(t)) == Success(t)
  {
    var d := extra + TemplateEntries(t);
    var values := TextValues(t);
    forall i | 0 <= i < |TextKeys|
      ensures TextKeys[i] in d && d[TextKeys[i]] == Str(values[i])
    {
      TemplateEntryAt(t, i);
    }
    TextsFromStored(d, TextKeys, values);
    assert d["alternate_greetings"] == Arr(StrList(t.alternateGreetings)) && d["tags"] == Arr(StrList(t.tags));
    TextsOfStrList(t.alternateGreetings);
    TextsOfStrList(t.tags);
  }

  lemma {:induction false} TemplateEntryAt(t: Template, i: nat)
    requires i < |TextKeys|
    ensures TextKeys[i] in TemplateEntries(t) && TemplateEntries(t)[TextKeys[i]] == Str(TextValues(t)[i])
  {
  }

  /** `to_dict`: the card with the template fields, and the extensions with the metadata under `charactergen`. */
  function CardDict(t: Template, extensions: map<string, Json>, meta: MetaState, now: Timestamp): map<string, Json>
  {
    map[
      "data" := Obj(TemplateEntries(t)["extensions" := Obj(extensions["charactergen" := Obj(MetaDict(meta, now))])]),
      "spec" := Str("chara_card_v2"),
      "spec_version" := Str("2.0")]
  }

  /** What `from_dict` reads from a card: the template fields, the other extensions and the metadata. */
  datatype Loaded = Loaded(template: Template, extensions: map<string, Json>, meta: MetaState)

  /** `char_data.get("extensions", {}) or {}`: missing and falsy extensions count as none. */
  function ExtensionsFrom(cardData: map<string, Json>): (r: Result<map<string, Json>, ModelError>)
    ensures "extensions" in cardData && cardData["extensions"].Obj? ==> r == Success(cardData["extensions"].entries)
    ensures "extensions" !in cardData || cardData["extensions"].Null? ==> r == Success(map[])
  {
    if "extensions" !in cardData || !Truthy(cardData["extensions"]) then Success(map[])
    else if cardData["extensions"].Obj? then Success(cardData["extensions"].entries)
    else Failure(WrongType("extensions"))
  }

  /**
   * `from_dict`: reads the `data` object, or the whole dictionary when it has
   * none; missing or empty extensions count as none, and missing or null
   * metadata as the defaults.
   */
  function CardFrom(data: map<string, Json>): (r: Result<Loaded, ModelError>)
    ensures r.Success? ==> "charactergen" !in r.value.extensions
    ensures "data" !in data ==> r == LoadedFrom(data)
    ensures "data" in data && data["data"].Obj? ==> r == LoadedFrom(data["data"].entries)
  {
    if "data" !in data then LoadedFrom(data)
    else if data["data"].Obj? then LoadedFrom(data["data"].entries)
    else Failure(WrongType("data"))
  }

  /** The template fields, the other extensions and the metadata of the card's own dictionary. */
  function LoadedFrom(cardData: map<string, Json>): (r: Result<Loaded, ModelError>)
    ensures r.Success? ==> "charactergen" !in r.value.extensions
  {
    var template :- TemplateFrom(cardData);
    var extensions :- ExtensionsFrom(cardData);
    var meta :- if "charactergen" in extensions then MetaFrom(extensions["charactergen"]) else Success(DefaultMeta);
    Success(Loaded(template, extensions - {"charactergen"}, meta))
  }

  /**
   * A card read back from its dictionary form has the same template fields, the
   * same extensions other than `charactergen`, and the same metadata except for
   * the modification time `to_dict` fills in.
   */
  lemma {:induction false} CardRoundTrip(t: Template, extensions: map<string, Json>, meta: MetaState, now: Timestamp)
    requires meta.lastValidated.Some? ==> IsIsoFormat(meta.lastValidated.value)
    ensures CardFrom(CardDict(t, extensions, meta, now))
      == Success(Loaded(t, extensions - {"charactergen"}, meta.(lastModified := Some(ModifiedText(meta, now)))))
  {
    var ext := extensions["charactergen" := Obj(MetaDict(meta, now))];
    var cardData := TemplateEntries(t)["extensions" := Obj(ext)];
    CardDictData(t, extensions, meta, now);
    TemplateBesideExtensions(t, Obj(ext));
    MetaRoundTrip(meta, now);
    LoadedFromParts(cardData, t, ext, meta.(lastModified := Some(ModifiedText(meta, now))));
    RemoveAdded(extensions, "charactergen", Obj(MetaDict(meta, now)));
  }

  /** `from_dict` reads the `data` object `to_dict` writes. */
  lemma {:induction false} CardDictData(t: Template, extensions: map<string, Json>, meta: MetaState, now: Timestamp)
    ensures CardFrom(CardDict(t, extensions, meta, now))
      == LoadedFrom(TemplateEntries(t)["extensions" := Obj(extensions["charactergen" := Obj(MetaDict(meta, now))])])
  {
    var d := CardDict(t, extensions, meta, now);
    assert "data" in d && d["data"].Obj?;
  }

  /** The template fields read back beside any extensions. */
  lemma {:induction false} TemplateBesideExtensions(t: Template, extensions: Json)
    ensures TemplateFrom(TemplateEntries(t)["extensions" := extensions]) == Success(t)
  {
    assert TemplateEntries(t)["extensions" := extensions] == map["extensions" := extensions] + TemplateEntries(t);
    TemplateRoundTrip(t, map["extensions" := extensions]);
  }

  /** Removing a key just added leaves what removing it from the original leaves. */
  lemma {:induction false} RemoveAdded(m: map<string, Json>, k: string, v: Json)
    ensures m[k := v] - {k} == m - {k}
  {
    assert (m[k := v] - {k}).Keys == (m - {k}).Keys;
  }

  /** A card's dictionary reads as its template fields, its extensions without `charactergen`, and the metadata stored there. */
  lemma {:induction false} LoadedFromParts(cardData: map<string, Json>, t: Template, ext: map<string, Json>, meta: MetaState)
    requires TemplateFrom(cardData) == Success(t)
    requires "extensions" in cardData && cardData["extensions"] == Obj(ext)
    requires "charactergen" in ext ==> MetaFrom(ext["charactergen"]) == Success(meta)
    requires "charactergen" !in ext ==> meta == DefaultMeta
    ensures LoadedFrom(cardData) == Success(Loaded(t, ext - {"charactergen"}, meta))
  {
    assert ExtensionsFrom(cardData) == Success(ext);
  }

  /** Reading an empty dictionary gives empty text for the avatar and the creator, where a new character has "none" and "Anonymous". */
  lemma {:induction false} EmptyCardDefaults()
    ensures CardFrom(map[]) == Success(Loaded(EmptyTemplate.(avatar := "", creator := ""), map[], DefaultMeta))
  {
    TemplateFromEmpty();
  }

  /** `CharacterData`. */
  class CharacterData {
    var template: Template
    var id: string
    var createdAt: Timestamp
    var modifiedAt: Timestamp
    var extensions: map<string, Json>
    var genMetadata: CharacterGenMetadata

    /** A character holding these values, with metadata of its own. */
    constructor Make(template: Template, id: string, createdAt: Timestamp, modifiedAt: Timestamp,
                     extensions: map<string, Json>, meta: MetaState)
      ensures this.template == template && this.id == id && this.createdAt == createdAt && this.modifiedAt == modifiedAt
      ensures this.extensions == extensions && fresh(genMetadata) && genMetadata.State() == meta
    {
      this.template, this.id, this.createdAt, this.modifiedAt := template, id, createdAt, modifiedAt;
      this.extensions := extensions;
      genMetadata := new CharacterGenMetadata.Of(meta);
    }

    /** `create_empty`: a new character with the template defaults and default metadata; `id` is the new uuid and `now` the clock reading. */
    static method CreateEmpty(id: string, now: Timestamp) returns (c: CharacterData)
      ensures fresh(c) && fresh(c.genMetadata)
      ensures c.template == EmptyTemplate && c.id == id && c.createdAt == now && c.modifiedAt == now
      ensures c.extensions == map[] && c.genMetadata.State() == DefaultMeta
    {
      c := new CharacterData.Make(EmptyTemplate, id, now, now, map[], DefaultMeta);
    }

    /** `copy`: a new record with the same values, id included, and metadata of its own. */
    method Copy() returns (c: CharacterData)
      ensures fresh(c) && fresh(c.genMetadata)
      ensures c.template == template && c.id == id && c.createdAt == createdAt && c.modifiedAt == modifiedAt
      ensures c.extensions == extensions && c.genMetadata.State() == genMetadata.State()
    {
      c := new CharacterData.Make(template, id, createdAt, modifiedAt, extensions, genMetadata.State());
    }

    /** `to_dict`. */
    function ToDict(now: Timestamp): map<string, Json>
      reads this, genMetadata
    {
      CardDict(template, extensions, genMetadata.State(), now)
    }

    /** `from_dict`: a new character, with a new id and the clock reading as its times, holding what the card says. */
    static method FromDict(data: map<string, Json>, id: string, now: Timestamp) returns (r: Result<CharacterData, ModelError>)
      ensures r.Success? <==> CardFrom(data).Success?
      ensures r.Success? ==> fresh(r.value) && fresh(r.value.genMetadata)
      ensures r.Success? ==>
        var loaded := CardFrom(data).value;
        && r.value.template == loaded.template && r.value.extensions == loaded.extensions
        && r.value.genMetadata.State() == loaded.meta
        && r.value.id == id && r.value.createdAt == now && r.value.modifiedAt == now
    {
      var loaded := CardFrom(data);
      if loaded.Failure? {
        return Failure(loaded.error);
      }
      var c := new CharacterData.Make(loaded.value.template, id, now, now, loaded.value.extensions, loaded.value.meta);
      return Success(c);
    }
  }
}
