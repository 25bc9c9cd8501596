/**
 * `CharacterDataHandler`: loading, validating, saving and exporting
 * character cards, with a cache of characters and a record of the ones with
 * unsaved changes. The file system is reduced to parameters: the JSON
 * document a file holds (none when it is missing or not JSON), whether a
 * directory can be made, whether a file can be written, and the save
 * directory. Uuids and clock readings are parameters too.
 */
module CoreCharacterHandler {
  import opened Wrappers
  import opened IsoTime
  import opened JsonValues
  import opened Strings
  import opened CoreCharacter
  import V = CoreValidation

  /** An ASCII letter or digit (`str.isalnum` restricted to ASCII). */
  predicate AlphaNumeric(c: char)
  {
    ('a' <= c <= 'z') || ('A' <= c <= 'Z') || ('0' <= c <= '9')
  }

  /** A character `_get_default_path` keeps from the name. */
  predicate Kept(c: char)
  {
    AlphaNumeric(c) || c == ' ' || c == '-' || c == '_'
  }

  /** A character that may appear in a default file name. */
  predicate FileNameChar(c: char)
  {
    AlphaNumeric(c) || c == '-' || c == '_'
  }

  /** The characters of `s` that are kept, in order. */
  function KeepSafe(s: string): (r: string)
    ensures forall i :: 0 <= i < |r| ==> Kept(r[i])
    ensures (forall i :: 0 <= i < |s| ==> Kept(s[i])) ==> r == s
    decreases |s|
  {
    if |s| == 0 then ""
    else if Kept(s[0]) then [s[0]] + KeepSafe(s[1..])
    else
      assert !(forall i :: 0 <= i < |s| ==> Kept(s[i]));
      KeepSafe(s[1..])
  }

  /** The file name `_get_default_path` derives from a character name: the kept characters, stripped, with spaces as underscores. */
  function SafeName(name: string): string
  {
    Replace(Strip(KeepSafe(name)), " ", "_")
  }

  /** `_get_default_path`: `<save directory>/<safe name>.json`. */
  function DefaultPath(baseDir: string, name: string): string
  {
    baseDir + "/" + SafeName(name) + ".json"
  }

  /** Replacing one character by another maps the text character by character. */
  lemma {:induction false} ReplaceOneChar(s: string, a: char, b: char)
    ensures |Replace(s, [a], [b])| == |s|
    ensures forall i :: 0 <= i < |s| ==> Replace(s, [a], [b])[i] == if s[i] == a then b else s[i]
    decreases |s|
  {
    if |s| > 0 {
      ReplaceOneChar(s[1..], a, b);
      var rest := Replace(s[1..], [a], [b]);
      assert s[..1] == [s[0]];
      if s[0] == a {
        assert Replace(s, [a], [b]) == [b] + rest;
      } else {
        assert Replace(s, [a], [b]) == [s[0]] + rest;
      }
    }
  }

  /** `strip()` keeps a contiguous part of the text, so text made of kept characters stays so. */
  lemma {:induction false} StripKeepsKept(s: string)
    requires forall i :: 0 <= i < |s| ==> Kept(s[i])
    ensures forall i :: 0 <= i < |Strip(s)| ==> Kept(Strip(s)[i])
  {
    var a := StripStart(s);
    forall i | 0 <= i < |a|
      ensures Kept(a[i])
    {
      assert a[i] == s[|s| - |a| + i];
    }
    var b := StripEnd(a);
    forall i | 0 <= i < |b|
      ensures Kept(b[i])
    {
      assert b[i] == a[i];
    }
  }

  /** A default file name holds only ASCII letters and digits, `-` and `_`: no separator, no space. */
  lemma {:induction false} SafeNameChars(name: string)
    ensures forall i :: 0 <= i < |SafeName(name)| ==> FileNameChar(SafeName(name)[i])
  {
    var stripped := Strip(KeepSafe(name));
    StripKeepsKept(KeepSafe(name));
    ReplaceOneChar(stripped, ' ', '_');
    assert SafeName(name) == Replace(stripped, [' '], ['_']);
  }

  /** Text without whitespace is left alone by `strip()`. */
  lemma {:induction false} StripUnspaced(s: string)
    requires forall i :: 0 <= i < |s| ==> !IsSpace(s[i])
    ensures Strip(s) == s
  {
    assert StripStart(s) == s by {
      if |s| > 0 {
        assert !IsSpace(s[0]);
      }
    }
    assert StripEnd(s) == s by {
      if |s| > 0 {
        assert !IsSpace(s[|s| - 1]);
      }
    }
  }

  /** Replacing a character that does not occur changes nothing. */
  lemma {:induction false} ReplaceMissingChar(s: string, a: char, b: char)
    requires forall i :: 0 <= i < |s| ==> s[i] != a
    ensures Replace(s, [a], [b]) == s
  {
    ReplaceOneChar(s, a, b);
  }

  /** Deriving a file name from a default file name gives it back unchanged. */
  lemma {:induction false} SafeNameIdempotent(name: string)
    ensures SafeName(SafeName(name)) == SafeName(name)
  {
    var m := SafeName(name);
    SafeNameChars(name);
    assert KeepSafe(m) == m;
    StripUnspaced(m);
    ReplaceMissingChar(m, ' ', '_');
  }

  /** The public attributes of a `CharacterData`; the private extension fields are not among them. */
  datatype Attribute =
    | NameField | DescriptionField | PersonalityField | FirstMesField | AvatarField | MesExampleField
    | ScenarioField | CreatorNotesField | SystemPromptField | PostHistoryInstructionsField
    | AlternateGreetingsField | TagsField | CreatorField | CharacterVersionField
    | IdField | CreatedAtField | ModifiedAtField

  /** How many public attributes there are. */
  const AttributeCount := 17

  /** The attribute at position `i` in the order `__dict__` lists them, which `_validate_character` follows. */
  function AttributeAt(i: nat): Attribute
    requires i < AttributeCount
  {
    if i == 0 then NameField else if i == 1 then DescriptionField else if i == 2 then PersonalityField
    else if i == 3 then FirstMesField else if i == 4 then AvatarField else if i == 5 then MesExampleField
    else if i == 6 then ScenarioField else if i == 7 then CreatorNotesField else if i == 8 then SystemPromptField
    else if i == 9 then PostHistoryInstructionsField else if i == 10 then AlternateGreetingsField
    else if i == 11 then TagsField else if i == 12 then CreatorField else if i == 13 then CharacterVersionField
    else if i == 14 then IdField else if i == 15 then CreatedAtField else ModifiedAtField
  }

  /** The attribute's Python name, which is also the field type it is validated as. */
  function AttributeName(a: Attribute): string
  {
    match a
    case NameField => "name"
    case DescriptionField => "description"
    case PersonalityField => "personality"
    case FirstMesField => "first_mes"
    case AvatarField => "avatar"
    case MesExampleField => "mes_example"
    case ScenarioField => "scenario"
    case CreatorNotesField => "creator_notes"
    case SystemPromptField => "system_prompt"
    case PostHistoryInstructionsField => "post_history_instructions"
    case AlternateGreetingsField => "alternate_greetings"
    case TagsField => "tags"
    case CreatorField => "creator"
    case CharacterVersionField => "character_version"
    case IdField => "id"
    case CreatedAtField => "created_at"
    case ModifiedAtField => "modified_at"
  }

  /** The attribute's value, as the validators see it. */
  function AttributeValue(a: Attribute, t: Template, id: string, createdAt: Timestamp, modifiedAt: Timestamp): Json
  {
    match a
    case NameField => Str(t.name)
    case DescriptionField => Str(t.description)
    case PersonalityField => Str(t.personality)
    case FirstMesField => Str(t.firstMes)
    case AvatarField => Str(t.avatar)
    case MesExampleField => Str(t.mesExample)
    case ScenarioField => Str(t.scenario)
    case CreatorNotesField => Str(t.creatorNotes)
    case SystemPromptField => Str(t.systemPrompt)
    case PostHistoryInstructionsField => Str(t.postHistoryInstructions)
    case AlternateGreetingsField => Arr(StrList(t.alternateGreetings))
    case TagsField => Arr(StrList(t.tags))
    case CreatorField => Str(t.creator)
    case CharacterVersionField => Str(t.characterVersion)
    case IdField => Str(id)
    case CreatedAtField => Str(createdAt)
    case ModifiedAtField => Str(modifiedAt)
  }

  /** The validators registered under the attribute's name accept its value. */
  predicate AttributePasses(registry: map<string, seq<V.Validator>>, a: Attribute, t: Template, id: string,
                            createdAt: Timestamp, modifiedAt: Timestamp)
  {
    V.Check(V.Lookup(registry, AttributeName(a)), AttributeName(a), AttributeValue(a, t, id, createdAt, modifiedAt)).isValid
  }

  /** The verdicts of the attributes' validators, in attribute order. */
  function Verdicts(registry: map<string, seq<V.Validator>>, t: Template, id: string, createdAt: Timestamp, modifiedAt: Timestamp): (r: seq<bool>)
    ensures |r| == AttributeCount
    ensures forall j :: 0 <= j < AttributeCount ==> r[j] == AttributePasses(registry, AttributeAt(j), t, id, createdAt, modifiedAt)
  {
    seq(AttributeCount, j requires 0 <= j < AttributeCount => AttributePasses(registry, AttributeAt(j), t, id, createdAt, modifiedAt))
  }

  /** The verdicts from position `i` on are all favourable, read one at a time. */
  predicate AllFrom(verdicts: seq<bool>, i: nat)
    requires i <= |verdicts|
    decreases |verdicts| - i
  {
    i == |verdicts| || (verdicts[i] && AllFrom(verdicts, i + 1))
  }

  /** `_validate_character`: the name is not empty and every attribute, in order, passes its field type's validators. */
  predicate Validates(registry: map<string, seq<V.Validator>>, t: Template, id: string, createdAt: Timestamp, modifiedAt: Timestamp)
  {
    t.name != "" && AllFrom(Verdicts(registry, t, id, createdAt, modifiedAt), 0)
  }

  /** The verdicts from position `i` on are all favourable exactly when each of them is. */
  lemma {:induction false} AllFromEach(verdicts: seq<bool>, i: nat)
    requires i <= |verdicts|
    ensures AllFrom(verdicts, i) <==> forall j :: i <= j < |verdicts| ==> verdicts[j]
    decreases |verdicts| - i
  {
    if i < |verdicts| {
      AllFromEach(verdicts, i + 1);
    }
  }

  /** A name the default validators accept. */
  predicate NameAccepted(name: string)
  {
    !IsBlank(name) && 2 <= |name| <= 50 && forall i :: 0 <= i < |name| ==> V.NameChar(name[i])
  }

  /**
   * With the default validators a character is valid exactly when its name and
   * description are acceptable: no other attribute has validators under its own
   * name, so the first message and the examples are never checked.
   */
  lemma {:induction false} DefaultValidation(t: Template, id: string, createdAt: Timestamp, modifiedAt: Timestamp)
    ensures Validates(V.Defaults, t, id, createdAt, modifiedAt) <==> NameAccepted(t.name) && |t.description| <= 1000
  {
    var verdicts := Verdicts(V.Defaults, t, id, createdAt, modifiedAt);
    OthersPass(t, id, createdAt, modifiedAt);
    assert verdicts[0] <==> NameAccepted(t.name) by {
      assert AttributeAt(0) == NameField;
      V.NameRule(t.name);
    }
    assert verdicts[1] <==> |t.description| <= 1000 by {
      assert AttributeAt(1) == DescriptionField;
      V.DescriptionRule(t.description);
    }
    assert AllFrom(verdicts, 0) == (verdicts[0] && AllFrom(verdicts, 1));
    assert AllFrom(verdicts, 1) == (verdicts[1] && AllFrom(verdicts, 2));
  }

  /** Every attribute after the name and the description passes the default validators. */
  lemma {:induction false} OthersPass(t: Template, id: string, createdAt: Timestamp, modifiedAt: Timestamp)
    ensures AllFrom(Verdicts(V.Defaults, t, id, createdAt, modifiedAt), 2)
  {
    var verdicts := Verdicts(V.Defaults, t, id, createdAt, modifiedAt);
    forall j | 2 <= j < AttributeCount
      ensures verdicts[j]
    {
      OtherAttributePasses(AttributeAt(j), t, id, createdAt, modifiedAt);
    }
    AllFromEach(verdicts, 2);
  }

  /** An attribute other than the name and the description has no default validators, so it passes. */
  lemma {:induction false} OtherAttributePasses(a: Attribute, t: Template, id: string, createdAt: Timestamp, modifiedAt: Timestamp)
    requires a != NameField && a != DescriptionField
    ensures AttributePasses(V.Defaults, a, t, id, createdAt, modifiedAt)
  {
    V.UnregisteredPasses(AttributeName(a), AttributeValue(a, t, id, createdAt, modifiedAt));
  }

  /** The card inside a loaded document: the `data` object of an object whose `spec` is `chara_card_v2`. */
  function CardOf(document: Json): Option<map<string, Json>>
  {
    if document.Obj? && "spec" in document.entries && document.entries["spec"] == Str("chara_card_v2")
       && "data" in document.entries && document.entries["data"].Obj?
    then Some(document.entries["data"].entries)
    else None
  }

  /** The card a file holding `document` yields, before validation. */
  function ReadResult(document: Option<Json>): Option<Loaded>
  {
    if document.None? || CardOf(document.value).None? then None
    else match CardFrom(CardOf(document.value).value)
      case Failure(_) => None
      case Success(loaded) => Some(loaded)
  }

  /** What `load_character` returns for a file holding `document`, the new character taking `newId` and `now`. */
  function LoadResult(document: Option<Json>, validate: bool, registry: map<string, seq<V.Validator>>,
                      newId: string, now: Timestamp): Option<Loaded>
  {
    var read := ReadResult(document);
    if read.None? then None
    else if validate && !Validates(registry, read.value.template, newId, now, now) then None
    else read
  }

  /** The entries `save_character` hands to the metadata's `update`. */
  function SaveStamp(now: Timestamp): seq<(string, Json)>
  {
    [("version", Str("1.0")), ("created_with", Str("CharacterGen")),
     ("last_modified_with", Str("CharacterGen")), ("last_modified", Str(now))]
  }

  /** The metadata after that update. */
  function Stamped(s: MetaState, now: Timestamp): MetaState
  {
    s.(version := "1.0", createdWith := "CharacterGen", lastModifiedWith := "CharacterGen", lastModified := Some(now))
  }

  /** The update sets the four attributes and nothing else, and never fails. */
  lemma {:induction false} SaveStampUpdate(s: MetaState, now: Timestamp)
    ensures UpdateSpec(s, SaveStamp(now)) == (Stamped(s, now), None)
  {
    var data := SaveStamp(now);
    var s1 := s.(version := "1.0");
    var s2 := s1.(createdWith := "CharacterGen");
    var s3 := s2.(lastModifiedWith := "CharacterGen");
    var s4 := s3.(lastModified := Some(now));
    assert UpdateSpec(s, data) == UpdateSpec(s1, data[1..]);
    assert UpdateSpec(s1, data[1..]) == UpdateSpec(s2, data[2..]) by {
      assert data[1..][0] == data[1] && data[1..][1..] == data[2..];
    }
    assert UpdateSpec(s2, data[2..]) == UpdateSpec(s3, data[3..]) by {
      assert data[2..][0] == data[2] && data[2..][1..] == data[3..];
    }
    assert UpdateSpec(s3, data[3..]) == UpdateSpec(s4, data[4..]) by {
      assert data[3..][0] == data[3] && data[3..][1..] == data[4..];
    }
    assert data[4..] == [];
  }

  /** The document `export_character` writes: the card, without the metadata when it is not included. */
  function ExportDict(t: Template, extensions: map<string, Json>, meta: MetaState, now: Timestamp, includeMetadata: bool): map<string, Json>
  {
    if includeMetadata then CardDict(t, extensions, meta, now)
    else map[
      "data" := Obj(TemplateEntries(t)["extensions" := Obj(extensions - {"charactergen"})]),
      "spec" := Str("chara_card_v2"),
      "spec_version" := Str("2.0")]
  }

  /** The card `from_dict` reads from a written document is its `data` object, with no `data` entry of its own. */
  lemma {:induction false} CardOfWritten(t: Template, extensions: map<string, Json>, meta: MetaState, now: Timestamp)
    ensures CardOf(Obj(CardDict(t, extensions, meta, now))) == Some(CardDict(t, extensions, meta, now)["data"].entries)
    ensures CardFrom(CardDict(t, extensions, meta, now)["data"].entries) == CardFrom(CardDict(t, extensions, meta, now))
  {
    var inner := CardDict(t, extensions, meta, now)["data"].entries;
    assert "data" !in inner;
  }

  /**
   * A document `save_character` wrote reads back with the same template fields,
   * the same extensions other than `charactergen`, and the stamped metadata.
   */
  lemma {:induction false} SavedDocumentReads(t: Template, extensions: map<string, Json>, meta: MetaState, now: Timestamp)
    requires meta.lastValidated.Some? ==> IsIsoFormat(meta.lastValidated.value)
    ensures ReadResult(Some(Obj(CardDict(t, extensions, Stamped(meta, now), now))))
      == Some(Loaded(t, extensions - {"charactergen"}, Stamped(meta, now)))
  {
    var stamped := Stamped(meta, now);
    var doc := CardDict(t, extensions, stamped, now);
    CardOfWritten(t, extensions, stamped, now);
    CardRoundTrip(t, extensions, stamped, now);
    assert ModifiedText(stamped, now) == now;
    ReadOfCard(doc, doc["data"].entries, Loaded(t, extensions - {"charactergen"}, stamped));
  }

  /** A document whose card reads as `loaded` yields `loaded`. */
  lemma {:induction false} ReadOfCard(doc: map<string, Json>, card: map<string, Json>, loaded: Loaded)
    requires CardOf(Obj(doc)) == Some(card) && CardFrom(card) == Success(loaded)
    ensures ReadResult(Some(Obj(doc))) == Some(loaded)
  {
  }

  /** With validation on, a saved document loads exactly when the character read from it, with its new uuid and times, is valid. */
  lemma {:induction false} SavedDocumentLoads(t: Template, extensions: map<string, Json>, meta: MetaState, now: Timestamp,
                                               validate: bool, registry: map<string, seq<V.Validator>>, newId: string, later: Timestamp)
    requires meta.lastValidated.Some? ==> IsIsoFormat(meta.lastValidated.value)
    ensures LoadResult(Some(Obj(CardDict(t, extensions, Stamped(meta, now), now))), validate, registry, newId, later)
      == if validate && !Validates(registry, t, newId, later, later) then None
         else Some(Loaded(t, extensions - {"charactergen"}, Stamped(meta, now)))
  {
    SavedDocumentReads(t, extensions, meta, now);
  }

  /** A document exported without metadata reads back with the same template fields and extensions, and the default metadata. */
  lemma {:induction false} ExportWithoutMetadataReads(t: Template, extensions: map<string, Json>, meta: MetaState, now: Timestamp)
    ensures ReadResult(Some(Obj(ExportDict(t, extensions, meta, now, false))))
      == Some(Loaded(t, extensions - {"charactergen"}, DefaultMeta))
  {
    var ext := extensions - {"charactergen"};
    var inner := TemplateEntries(t)["extensions" := Obj(ext)];
    assert CardOf(Obj(ExportDict(t, extensions, meta, now, false))) == Some(inner);
    CardWithoutMetadata(t, ext);
  }

  /** A card whose extensions hold no metadata reads back with the default metadata. */
  lemma {:induction false} CardWithoutMetadata(t: Template, ext: map<string, Json>)
    requires "charactergen" !in ext
    ensures CardFrom(TemplateEntries(t)["extensions" := Obj(ext)]) == Success(Loaded(t, ext, DefaultMeta))
  {
    var inner := TemplateEntries(t)["extensions" := Obj(ext)];
    TemplateBesideExtensions(t, Obj(ext));
    LoadedFromParts(inner, t, ext, DefaultMeta);
    assert ext - {"charactergen"} == ext;
  }

  /** What `_charactergen_metadata` holds: the metadata object, or a plain dictionary. */
  datatype MetadataSlot = MetadataObject(state: MetaState) | PlainDict(entries: map<string, Json>)

  /** `create_character` as written puts this plain dictionary where the metadata object belongs. */
  const CreatedSlotAsWritten: MetadataSlot :=
    PlainDict(map["version" := Str("1.0"), "created_with" := Str("CharacterGen"), "last_modified_with" := Str("CharacterGen")])

  /**
   * The document `save_character` as written produces once validation and the
   * directory succeed: `update` works on a dictionary as on the object, but
   * only the object has `to_dict`, so a dictionary makes the save fail.
   */
  function SavedDocumentAsWritten(t: Template, extensions: map<string, Json>, slot: MetadataSlot, now: Timestamp): Option<map<string, Json>>
  {
    match slot
    case MetadataObject(s) => Some(CardDict(t, extensions, Stamped(s, now), now))
    case PlainDict(_) => None
  }

  /**
   * A character made by `create_character` as written can never be saved,
   * whereas with the default metadata object it creates instead, the saved
   * document loads back with the new character's name.
   */
  lemma {:induction false} CreatedCharacterSaveAsWritten(name: string, now: Timestamp)
    ensures SavedDocumentAsWritten(EmptyTemplate.(name := name), map[], CreatedSlotAsWritten, now).None?
    ensures var saved := SavedDocumentAsWritten(EmptyTemplate.(name := name), map[], MetadataObject(DefaultMeta), now);
      && saved.Some?
      && ReadResult(Some(Obj(saved.value))).Some?
      && ReadResult(Some(Obj(saved.value))).value.template.name == name
  {
    SavedDocumentReads(EmptyTemplate.(name := name), map[], DefaultMeta, now);
  }

  /** `CharacterDataHandler`; the error handler's reports and the file lock are not modelled. */
  class CharacterDataHandler {
    const validation: V.ValidationService
    var cache: map<string, CharacterData>
    var modified: map<string, Timestamp>

    constructor(validation: V.ValidationService)
      ensures this.validation == validation && cache == map[] && modified == map[]
    {
      this.validation := validation;
      cache, modified := map[], map[];
    }

    /** `_validate_character`: the name is checked, then each attribute in turn, stopping at the first rejected one. */
    method ValidateCharacter(c: CharacterData) returns (ok: bool)
      ensures ok == Validates(validation.validators, c.template, c.id, c.createdAt, c.modifiedAt)
    {
      if c.template.name == "" {
        return false;
      }
      ghost var verdicts := Verdicts(validation.validators, c.template, c.id, c.createdAt, c.modifiedAt);
      for i := 0 to AttributeCount
        invariant AllFrom(verdicts, 0) == AllFrom(verdicts, i)
      {
        var a := AttributeAt(i);
        var result := validation.ValidateField(AttributeName(a), AttributeValue(a, c.template, c.id, c.createdAt, c.modifiedAt));
        assert result.isValid == verdicts[i];
        if !result.isValid {
          return false;
        }
      }
      return true;
    }

    /** The reading part of `load_character`: the character the card in `document` describes, with the new uuid and the clock reading. */
    static method ReadCharacter(document: Option<Json>, newId: string, now: Timestamp) returns (r: Option<CharacterData>)
      ensures r.Some? <==> ReadResult(document).Some?
      ensures r.Some? ==>
        var loaded := ReadResult(document).value;
        && fresh(r.value) && fresh(r.value.genMetadata)
        && r.value.template == loaded.template && r.value.extensions == loaded.extensions
        && r.value.genMetadata.State() == loaded.meta
        && r.value.id == newId && r.value.createdAt == now && r.value.modifiedAt == now
    {
      if document.None? {
        return None;
      }
      var card := CardOf(document.value);
      if card.None? {
        return None;
      }
      var created := CharacterData.FromDict(card.value, newId, now);
      if created.Failure? {
        return None;
      }
      return Some(created.value);
    }

    /** The reading and validating part of `load_character`: nothing is cached yet. */
    method ReadAndValidate(document: Option<Json>, validate: bool, newId: string, now: Timestamp) returns (r: Option<CharacterData>)
      ensures r.Some? <==> LoadResult(document, validate, validation.validators, newId, now).Some?
      ensures r.Some? ==>
        var loaded := LoadResult(document, validate, validation.validators, newId, now).value;
        && fresh(r.value) && fresh(r.value.genMetadata)
        && r.value.template == loaded.template && r.value.extensions == loaded.extensions
        && r.value.genMetadata.State() == loaded.meta
        && r.value.id == newId && r.value.createdAt == now && r.value.modifiedAt == now
    {
      r := ReadCharacter(document, newId, now);
      if r.Some? && validate {
        var ok := ValidateCharacter(r.value);
        if !ok {
          r := None;
        }
      }
    }

    /**
     * `load_character`: `document` is what the file holds (none when it is
     * missing or not JSON). The character read from the card gets the new
     * uuid and the clock reading, and is cached when it loads.
     */
    method LoadCharacter(document: Option<Json>, validate: bool, newId: string, now: Timestamp) returns (r: Option<CharacterData>)
      modifies this
      ensures r.Some? <==> LoadResult(document, validate, validation.validators, newId, now).Some?
      ensures r.Some? ==>
        var loaded := LoadResult(document, validate, validation.validators, newId, now).value;
        && fresh(r.value) && fresh(r.value.genMetadata)
        && r.value.template == loaded.template && r.value.extensions == loaded.extensions
        && r.value.genMetadata.State() == loaded.meta
        && r.value.id == newId && r.value.createdAt == now && r.value.modifiedAt == now
      ensures cache == if r.Some? then old(cache)[newId := r.value] else old(cache)
      ensures modified == old(modified)
    {
      r := ReadAndValidate(document, validate, newId, now);
      if r.Some? {
        cache := cache[r.value.id := r.value];
      }
    }

    /**
     * `save_character`: validates, picks the path (the default one when none is
     * given), makes the directory, stamps the metadata, writes the card and
     * marks the character cached and saved. `document` is what is written. A
     * failure after the stamp leaves the stamp in place.
     */
    method SaveCharacter(c: CharacterData, path: Option<string>, baseDir: string, now: Timestamp, dirOk: bool, writeOk: bool)
      returns (r: Option<string>, document: Option<Json>)
      modifies this, c.genMetadata
      ensures var valid := Validates(validation.validators, c.template, c.id, c.createdAt, c.modifiedAt);
        && (r.Some? <==> valid && dirOk && writeOk)
        && (valid && dirOk ==> c.genMetadata.State() == Stamped(old(c.genMetadata.State()), now))
        && (!(valid && dirOk) ==> c.genMetadata.State() == old(c.genMetadata.State()))
      ensures r.Some? ==> r.value == (if path.Some? then path.value else DefaultPath(baseDir, c.template.name))
      ensures r.Some? ==> document == Some(Obj(CardDict(c.template, c.extensions, c.genMetadata.State(), now)))
      ensures r.None? ==> document.None?
      ensures r.Some? ==> cache == old(cache)[c.id := c] && modified == old(modified) - {c.id}
      ensures r.None? ==> cache == old(cache) && modified == old(modified)
    {
      var ok := ValidateCharacter(c);
      if !ok {
        return None, None;
      }
      var target := if path.Some? then path.value else DefaultPath(baseDir, c.template.name);
      if !dirOk {
        return None, None;
      }
      SaveStampUpdate(c.genMetadata.State(), now);
      var err := c.genMetadata.Update(SaveStamp(now));
      var data := c.ToDict(now);
      if !writeOk {
        return None, None;
      }
      cache := cache[c.id := c];
      modified := modified - {c.id};
      return Some(target), Some(Obj(data));
    }

    /** `export_character`: writes the card, dropping the metadata when it is not to be included; nothing is cached. */
    method ExportCharacter(c: CharacterData, path: string, includeMetadata: bool, now: Timestamp, dirOk: bool, writeOk: bool)
      returns (r: Option<string>, document: Option<Json>)
      ensures r.Some? <==> dirOk && writeOk
      ensures r.Some? ==> r.value == path
      ensures r.Some? ==> document == Some(Obj(ExportDict(c.template, c.extensions, c.genMetadata.State(), now, includeMetadata)))
      ensures r.None? ==> document.None?
    {
      var data := c.ToDict(now);
      if !includeMetadata {
        var extensions := data["data"].entries["extensions"].entries;
        extensions := extensions - {"charactergen"};
        data := data["data" := Obj(data["data"].entries["extensions" := Obj(extensions)])];
        assert extensions == c.extensions - {"charactergen"};
        assert data["data"].entries == TemplateEntries(c.template)["extensions" := Obj(extensions)];
        assert data.Keys == {"data", "spec", "spec_version"};
        assert data == ExportDict(c.template, c.extensions, c.genMetadata.State(), now, false);
      }
      if !dirOk || !writeOk {
        return None, None;
      }
      return Some(path), Some(Obj(data));
    }

    /** `mark_modified`. */
    method MarkModified(id: string, now: Timestamp)
      modifies this
      ensures modified == old(modified)[id := now] && cache == old(cache)
    {
      modified := modified[id := now];
    }

    /** `is_modified`. */
    predicate IsModified(id: string)
      reads this
    {
      id in modified
    }

    /** `get_cached_character`. */
    function GetCachedCharacter(id: string): Option<CharacterData>
      reads this
    {
      if id in cache then Some(cache[id]) else None
    }

    /** `clear_cache`: forgets every cached character and every unsaved change. */
    method ClearCache()
      modifies this
      ensures cache == map[] && modified == map[]
    {
      cache, modified := map[], map[];
    }

    /**
     * `create_character`, corrected to give the character a metadata object
     * (whose defaults are the values the source writes into a plain dictionary):
     * a new character with this name, cached and marked modified.
     */
    method CreateCharacter(name: string, id: string, now: Timestamp) returns (c: CharacterData)
      modifies this
      ensures fresh(c) && fresh(c.genMetadata)
      ensures c.template == EmptyTemplate.(name := name) && c.id == id && c.createdAt == now && c.modifiedAt == now
      ensures c.extensions == map[] && c.genMetadata.State() == DefaultMeta
      ensures cache == old(cache)[id := c] && modified == old(modified)[id := now]
      ensures IsModified(id) && GetCachedCharacter(id) == Some(c)
    {
      c := new CharacterData.Make(EmptyTemplate.(name := name), id, now, now, map[], DefaultMeta);
      cache := cache[c.id := c];
      MarkModified(c.id, now);
    }
  }
}
