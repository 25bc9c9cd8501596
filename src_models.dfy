/**
 * The records of the package-style application: character data and its card
 * dictionary, prompt templates with their validation and required fields, prompt
 * sets ordered by generation order, generation results and generation contexts.
 */
module SrcModels {
  import opened Wrappers
  import opened IsoTime
  import opened Strings
  import opened Tags
  import opened Fields
  import opened Dicts
  import opened JsonValues
  import CG = CharacterGen

  // ---------------------------------------------------------------- CharacterData

  datatype CharacterData = CharacterData(
    name: string,
    fields: Dict<FieldName, string>,
    alternateGreetings: seq<string>,
    tags: seq<string>,
    creator: string,
    version: string,
    createdAt: Timestamp,
    modifiedAt: Timestamp)

  /** What `from_dict` cannot turn into character data. */
  datatype CardError = NotAnObject(key: string) | NotText(key: string) | NotTextList(key: string) | BadTimestamp(text: string)

  /** `{field.value: value for field, value in fields.items()}`. */
  function FieldEntries(fields: Dict<FieldName, string>): map<string, Json>
  {
    if |fields| == 0 then map[]
    else FieldEntries(fields[..|fields| - 1])[Value(fields[|fields| - 1].0) := Str(fields[|fields| - 1].1)]
  }

  /** A field has an entry exactly when the dictionary holds it, and the entry is that field's text. */
  lemma {:induction false} FieldEntriesMeaning(fields: Dict<FieldName, string>, f: FieldName)
    requires DistinctKeys(fields)
    ensures Value(f) in FieldEntries(fields) <==> f in Keys(fields)
    ensures f in Keys(fields) ==> FieldEntries(fields)[Value(f)] == Str(Get(fields, f).value)
    decreases |fields|
  {
    if |fields| > 0 {
      var init, last := fields[..|fields| - 1], fields[|fields| - 1];
      assert fields == init + [last];
      DistinctSnoc(init, last);
      FieldEntriesMeaning(init, f);
      PutSnoc(init, last);
      if f != last.0 {
        FromValueInvertsValue(f, Value(last.0));
        FromValueInvertsValue(last.0, Value(last.0));
      }
    }
  }

  /** A dictionary with one more entry at the end. */
  lemma {:induction false} DistinctSnoc<K, V>(d: Dict<K, V>, e: (K, V))
    requires DistinctKeys(d + [e])
    ensures DistinctKeys(d) && e.0 !in Keys(d)
  {
    var r := d + [e];
    forall i, j | 0 <= i < j < |d| ensures d[i].0 != d[j].0 {
      assert r[i] == d[i] && r[j] == d[j];
    }
    KeysAt(d, e.0);
    forall i | 0 <= i < |d| ensures d[i].0 != e.0 {
      assert r[i] == d[i] && r[|d|] == e;
    }
  }

  /** Appending a new key is the same as putting it. */
  lemma {:induction false} PutSnoc<K(!new), V>(d: Dict<K, V>, e: (K, V))
    requires e.0 !in Keys(d)
    ensures d + [e] == Put(d, e.0, e.1)
  {
  }

  /** The `data` object of `CharacterData.to_dict`: a `name` entry of the fields replaces the name. */
  function ToCard(c: CharacterData): map<string, Json>
  {
    map["name" := Str(c.name)] + FieldEntries(c.fields) + CardExtras(c)
  }

  /** The entries of the `data` object that follow the fields. */
  function CardExtras(c: CharacterData): map<string, Json>
  {
    map[
      "alternate_greetings" := Arr(StrList(c.alternateGreetings)),
      "tags" := Arr(StrList(c.tags)),
      "creator" := Str(c.creator),
      "character_version" := Str(c.version),
      "created_at" := Str(c.createdAt),
      "modified_at" := Str(c.modifiedAt)]
  }

  /** `CharacterData.to_dict`. */
  function ToDict(c: CharacterData): map<string, Json>
  {
    map["data" := Obj(ToCard(c)), "spec" := Str("chara_card_v2"), "spec_version" := Str("2.0")]
  }

  /** The name a saved card holds: the `name` field's text when there is one. */
  function SavedName(c: CharacterData): string
  {
    match Get(c.fields, Name)
    case Some(v) => v
    case None => c.name
  }

  /** A `data` object holding these texts and lists under the keys `from_dict` reads besides the fields. */
  ghost predicate CardHolds(card: map<string, Json>, name: string, greetings: seq<string>, tags: seq<string>,
                            creator: string, version: string, createdAt: Timestamp, modifiedAt: Timestamp)
  {
    && "name" in card && card["name"] == Str(name)
    && "alternate_greetings" in card && card["alternate_greetings"] == Arr(StrList(greetings))
    && "tags" in card && card["tags"] == Arr(StrList(tags))
    && "creator" in card && card["creator"] == Str(creator)
    && "character_version" in card && card["character_version"] == Str(version)
    && "created_at" in card && card["created_at"] == Str(createdAt)
    && "modified_at" in card && card["modified_at"] == Str(modifiedAt)
  }

  /** The entries after the fields are under keys that are neither `name` nor a field's value. */
  lemma {:induction false} ExtrasHoldNoField(c: CharacterData)
    ensures "name" !in CardExtras(c) && forall f :: Value(f) !in CardExtras(c)
  {
    assert CardExtras(c).Keys == {"alternate_greetings", "tags", "creator", "character_version", "created_at", "modified_at"};
  }

  /** What the saved `data` object holds under each key. */
  lemma {:induction false} ToCardEntries(c: CharacterData)
    requires DistinctKeys(c.fields)
    ensures CardHolds(ToCard(c), SavedName(c), c.alternateGreetings, c.tags, c.creator, c.version, c.createdAt, c.modifiedAt)
    ensures forall f :: Value(f) in ToCard(c) <==> f == Name || f in Keys(c.fields)
    ensures forall f :: f in Keys(c.fields) ==> ToCard(c)[Value(f)] == Str(Get(c.fields, f).value)
  {
    ToCardHolds(c);
    ToCardFields(c);
  }

  /** The saved `data` object holds the name and the entries after the fields. */
  lemma {:induction false} ToCardHolds(c: CharacterData)
    requires DistinctKeys(c.fields)
    ensures CardHolds(ToCard(c), SavedName(c), c.alternateGreetings, c.tags, c.creator, c.version, c.createdAt, c.modifiedAt)
  {
    var card, front, extras := ToCard(c), map["name" := Str(c.name)] + FieldEntries(c.fields), CardExtras(c);
    assert card == front + extras;
    ExtrasHoldNoField(c);
    FieldEntriesMeaning(c.fields, Name);
  }

  /** The saved `data` object holds each field's text under the field's value. */
  lemma {:induction false} ToCardFields(c: CharacterData)
    requires DistinctKeys(c.fields)
    ensures forall f :: Value(f) in ToCard(c) <==> f == Name || f in Keys(c.fields)
    ensures forall f :: f in Keys(c.fields) ==> ToCard(c)[Value(f)] == Str(Get(c.fields, f).value)
  {
    var card, front, extras := ToCard(c), map["name" := Str(c.name)] + FieldEntries(c.fields), CardExtras(c);
    assert card == front + extras;
    ExtrasHoldNoField(c);
    forall f ensures Value(f) in card <==> f == Name || f in Keys(c.fields) {
      FieldEntriesMeaning(c.fields, f);
      FromValueInvertsValue(f, "name");
    }
    forall f | f in Keys(c.fields) ensures card[Value(f)] == Str(Get(c.fields, f).value) {
      FieldEntriesMeaning(c.fields, f);
    }
  }

  /** `card.get(key, [])` for a list of texts. */
  function TextListEntry(card: map<string, Json>, key: string): (r: Result<seq<string>, CardError>)
    ensures key !in card ==> r == Success([])
  {
    if key !in card then Success([])
    else if !card[key].Arr? then Failure(NotTextList(key))
    else match Texts(card[key].items)
      case None => Failure(NotTextList(key))
      case Some(xs) => Success(xs)
  }

  /** The field entries of a card, in the enumeration's order `order`, for the fields present. */
  function FieldsFrom(card: map<string, Json>, order: seq<FieldName>): (r: Result<Dict<FieldName, string>, CardError>)
    ensures r.Success? ==> Keys(r.value) == set f | f in order && Value(f) in card
    ensures r.Success? ==> forall f :: f in Keys(r.value) ==> card[Value(f)] == Str(Get(r.value, f).value)
    ensures (forall f :: f in order ==> Value(f) !in card) ==> r == Success([])
  {
    if |order| == 0 then Success([])
    else
      var f := order[|order| - 1];
      match FieldsFrom(card, order[..|order| - 1])
      case Failure(e) => Failure(e)
      case Success(init) =>
        assert forall g :: g in order <==> g in order[..|order| - 1] || g == f by {
          assert order == order[..|order| - 1] + [f];
        }
        if Value(f) !in card then Success(init)
        else if !card[Value(f)].Str? then Failure(NotText(Value(f)))
        else Success(Put(init, f, card[Value(f)].s))
  }

  /** `datetime.fromisoformat(card.get(key, now))`: the text, when it is ISO text. */
  function TimeEntry(card: map<string, Json>, key: string, now: Timestamp): (r: Result<Timestamp, CardError>)
    ensures r.Success? ==> IsIsoFormat(r.value)
    ensures key !in card ==> r == if IsIsoFormat(now) then Success(now) else Failure(BadTimestamp(now))
    ensures key in card && card[key].Str? ==>
      r == if IsIsoFormat(card[key].s) then Success(card[key].s) else Failure(BadTimestamp(card[key].s))
    ensures key in card && !card[key].Str? ==> r == Failure(NotText(key))
  {
    var text :- TextEntry(card, key, now, NotText(key));
    if IsIsoFormat(text) then Success(text) else Failure(BadTimestamp(text))
  }

  /** The character a `data` object describes, taking missing texts and lists as their defaults and missing timestamps as `now`. */
  function FromCard(card: map<string, Json>, now: Timestamp): (r: Result<CharacterData, CardError>)
    ensures r.Success? ==> Keys(r.value.fields) == set f | Value(f) in card
  {
    var name :- TextEntry(card, "name", "", NotText("name"));
    var fields :- FieldsFrom(card, AllFields);
    var greetings :- TextListEntry(card, "alternate_greetings");
    var tags :- TextListEntry(card, "tags");
    var creator :- TextEntry(card, "creator", "Anonymous", NotText("creator"));
    var version :- TextEntry(card, "character_version", "main", NotText("character_version"));
    var createdAt :- TimeEntry(card, "created_at", now);
    var modifiedAt :- TimeEntry(card, "modified_at", now);
    AllFieldsListsEachOnce();
    Success(CharacterData(name, fields, greetings, tags, creator, version, createdAt, modifiedAt))
  }

  /** `CharacterData.from_dict`: reads the `data` object, an empty one when there is none. */
  function FromDict(data: map<string, Json>, now: Timestamp): (r: Result<CharacterData, CardError>)
    ensures "data" !in data && IsIsoFormat(now) ==> r == Success(CharacterData("", [], [], [], "Anonymous", "main", now, now))
    ensures r.Success? ==> Keys(r.value.fields) == set f | "data" in data && data["data"].Obj? && Value(f) in data["data"].entries
    ensures "data" in data && data["data"].Obj? ==> r == FromCard(data["data"].entries, now)
  {
    var card := if "data" in data then data["data"] else Obj(map[]);
    if !card.Obj? then Failure(NotAnObject("data"))
    else FromCard(card.entries, now)
  }

  /**
   * Reading back a saved card gives the same lists, creator, version, timestamps
   * and non-name field texts. The name comes back as the `name` field's text when
   * the fields hold one, since that entry overwrote it, and it always comes back
   * as a `name` field too, since the card's `name` key is a field's value.
   */
  lemma {:induction false} CardRoundTrip(c: CharacterData, now: Timestamp)
    requires DistinctKeys(c.fields)
    requires IsIsoFormat(c.createdAt) && IsIsoFormat(c.modifiedAt)
    ensures FromDict(ToDict(c), now).Success?
    ensures var r := FromDict(ToDict(c), now).value;
      && r.name == SavedName(c)
      && (forall f :: f != Name ==> Get(r.fields, f) == Get(c.fields, f))
      && Get(r.fields, Name) == Some(SavedName(c))
      && r.alternateGreetings == c.alternateGreetings && r.tags == c.tags
      && r.creator == c.creator && r.version == c.version
      && r.createdAt == c.createdAt && r.modifiedAt == c.modifiedAt
  {
    SavedCardReads(c, now);
    FieldsOfSavedCard(c);
  }

  /** Reading a saved card back, field dictionary aside. */
  lemma {:induction false} SavedCardReads(c: CharacterData, now: Timestamp)
    requires DistinctKeys(c.fields)
    requires IsIsoFormat(c.createdAt) && IsIsoFormat(c.modifiedAt)
    ensures FieldsFrom(ToCard(c), AllFields).Success?
    ensures FromDict(ToDict(c), now)
         == Success(CharacterData(SavedName(c), FieldsFrom(ToCard(c), AllFields).value, c.alternateGreetings, c.tags,
                                  c.creator, c.version, c.createdAt, c.modifiedAt))
  {
    var card := ToCard(c);
    assert ToDict(c)["data"] == Obj(card);
    ToCardHolds(c);
    ToCardTexts(c);
    FieldsFromTexts(card, AllFields);
    FromCardOfShape(card, now, SavedName(c), c.alternateGreetings, c.tags, c.creator, c.version, c.createdAt, c.modifiedAt);
  }

  /** Every field entry of a saved `data` object is a text. */
  lemma {:induction false} ToCardTexts(c: CharacterData)
    requires DistinctKeys(c.fields)
    ensures forall f :: Value(f) in ToCard(c) ==> ToCard(c)[Value(f)].Str?
  {
    ToCardHolds(c);
    ToCardFields(c);
  }

  /** The fields read back from a saved card. */
  lemma {:induction false} FieldsOfSavedCard(c: CharacterData)
    requires DistinctKeys(c.fields)
    ensures FieldsFrom(ToCard(c), AllFields).Success?
    ensures forall f :: Get(FieldsFrom(ToCard(c), AllFields).value, f) == if f == Name then Some(SavedName(c)) else Get(c.fields, f)
  {
    var card := ToCard(c);
    ToCardEntries(c);
    FieldsFromTexts(card, AllFields);
    var fields := FieldsFrom(card, AllFields).value;
    AllFieldsListsEachOnce();
    forall f ensures Get(fields, f) == if f == Name then Some(SavedName(c)) else Get(c.fields, f) {
      if f in Keys(fields) {
        assert card[Value(f)] == Str(Get(fields, f).value);
      }
    }
  }

  /** What `from_dict` reads from a `data` object whose entries all have the expected shapes. */
  lemma {:induction false} FromCardOfShape(card: map<string, Json>, now: Timestamp, name: string, greetings: seq<string>,
                                           tags: seq<string>, creator: string, version: string, createdAt: Timestamp,
                                           modifiedAt: Timestamp)
    requires CardHolds(card, name, greetings, tags, creator, version, createdAt, modifiedAt)
    requires FieldsFrom(card, AllFields).Success?
    requires IsIsoFormat(createdAt) && IsIsoFormat(modifiedAt)
    ensures FromCard(card, now)
         == Success(CharacterData(name, FieldsFrom(card, AllFields).value, greetings, tags, creator, version, createdAt, modifiedAt))
  {
    TextsOfStrList(greetings);
    TextsOfStrList(tags);
    assert TextEntry(card, "name", "", NotText("name")) == Success(name);
    assert TextListEntry(card, "alternate_greetings") == Success(greetings);
    assert TextListEntry(card, "tags") == Success(tags);
    assert TextEntry(card, "creator", "Anonymous", NotText("creator")) == Success(creator);
    assert TextEntry(card, "character_version", "main", NotText("character_version")) == Success(version);
    assert TimeEntry(card, "created_at", now) == Success(createdAt);
    assert TimeEntry(card, "modified_at", now) == Success(modifiedAt);
  }

  /** A card whose field entries all hold texts reads its fields without error. */
  lemma {:induction false} FieldsFromTexts(card: map<string, Json>, order: seq<FieldName>)
    requires forall f :: Value(f) in card ==> card[Value(f)].Str?
    ensures FieldsFrom(card, order).Success?
    decreases |order|
  {
    if |order| > 0 {
      FieldsFromTexts(card, order[..|order| - 1]);
    }
  }

  // ---------------------------------------------------------------- PromptTemplate

  datatype PromptTemplate = PromptTemplate(
    text: string,
    field: FieldName,
    generationOrder: int,
    requiredFields: set<FieldName>,
    conditionalTags: seq<string>)

  /** `MismatchedTagError`, with the two counts its message reports. */
  datatype TemplateError = MismatchedTag(opening: nat, closing: nat)

  /**
   * `PromptTemplate(text, field, order, required_fields=given)`: refuses unequal
   * counts of `{{if_input}}` and `{{/if_input}}`, and otherwise adds to `given`
   * every field the text names in a `{{tag}}`.
   */
  function TemplateFrom(text: string, field: FieldName, order: int, given: set<FieldName>)
    : (r: Result<PromptTemplate, TemplateError>)
    ensures r.Failure? <==> Count(text, InputOpen) != Count(text, InputClose)
    ensures r.Failure? ==> r.error == MismatchedTag(Count(text, InputOpen), Count(text, InputClose))
    ensures r.Success? ==> r.value.text == text && r.value.field == field && r.value.generationOrder == order
    ensures r.Success? ==> forall f :: f in r.value.requiredFields <==> f in given || Value(f) in FindFieldTags(text)
  {
    var opening, closing := Count(text, InputOpen), Count(text, InputClose);
    if opening != closing then Failure(MismatchedTag(opening, closing))
    else
      var required := given + CG.RequiredFieldSet(text);
      assert forall f :: f in required <==> f in given || Value(f) in FindFieldTags(text) by {
        NoFieldIsReserved();
        forall f ensures f in CG.RequiredFieldSet(text) <==> Value(f) in FindFieldTags(text) {
          CG.TagFieldsMeaning(FindFieldTags(text), f);
        }
      }
      Success(PromptTemplate(text, field, order, required, []))
  }

  /** `PromptTemplate.__post_init__`: the tag check, then the loop over the `{{tag}}` matches. */
  method NewPromptTemplate(text: string, field: FieldName, order: int, given: set<FieldName>)
    returns (r: Result<PromptTemplate, TemplateError>)
    ensures r == TemplateFrom(text, field, order, given)
  {
    var opening, closing := Count(text, InputOpen), Count(text, InputClose);
    if opening != closing {
      return Failure(MismatchedTag(opening, closing));
    }
    var required := given;
    var tags := FindFieldTags(text);
    var i := 0;
    while i < |tags|
      invariant 0 <= i <= |tags|
      invariant required == given + CG.TagFields(tags[..i])
    {
      var tag := tags[i];
      ghost var before := required;
      required := AddTagField(required, tag);
      assert tags[..i + 1] == tags[..i] + [tag];
      CG.TagFieldsAppend(tags[..i], tag);
      assert given + CG.TagFields(tags[..i + 1]) == before + CG.TagField(tag);
      i := i + 1;
    }
    assert tags[..i] == tags;
    r := Success(PromptTemplate(text, field, order, required, []));
  }

  /** One pass of that loop: the field a tag names, unless the tag is reserved, joins `required`. */
  method AddTagField(required: set<FieldName>, tag: string) returns (r: set<FieldName>)
    ensures r == required + CG.TagField(tag)
  {
    r := required;
    if tag !in ReservedTags {
      match FromValue(tag)
      case Some(f) =>
        r := r + {f};
      case None =>
    }
  }

  // ---------------------------------------------------------------- PromptSet

  datatype PromptSet = PromptSet(
    name: string,
    templates: Dict<FieldName, PromptTemplate>,
    description: string,
    createdAt: Timestamp,
    modifiedAt: Timestamp)

  function Order(e: (FieldName, PromptTemplate)): int
  {
    e.1.generationOrder
  }

  /** Entries in ascending generation order. */
  ghost predicate OrderSorted(s: Dict<FieldName, PromptTemplate>)
  {
    forall i, j :: 0 <= i < j < |s| ==> Order(s[i]) <= Order(s[j])
  }

  /** Puts `e` before the first entry whose order is not smaller, so equal orders keep their order. */
  function InsertByOrder(e: (FieldName, PromptTemplate), s: Dict<FieldName, PromptTemplate>)
    : (r: Dict<FieldName, PromptTemplate>)
    ensures multiset(r) == multiset(s) + multiset{e}
    ensures forall x :: x in r <==> x == e || x in s
  {
    if |s| == 0 || Order(e) <= Order(s[0]) then [e] + s
    else
      assert s == [s[0]] + s[1..];
      [s[0]] + InsertByOrder(e, s[1..])
  }

  lemma {:induction false} InsertKeepsSorted(e: (FieldName, PromptTemplate), s: Dict<FieldName, PromptTemplate>)
    requires OrderSorted(s)
    ensures OrderSorted(InsertByOrder(e, s))
    decreases |s|
  {
    var r := InsertByOrder(e, s);
    if |s| == 0 || Order(e) <= Order(s[0]) {
      forall i, j | 0 <= i < j < |r| ensures Order(r[i]) <= Order(r[j]) {
        assert r[j] == s[j - 1];
        if i > 0 {
          assert r[i] == s[i - 1];
        } else {
          assert Order(s[0]) <= Order(s[j - 1]);
        }
      }
    } else {
      var rest := InsertByOrder(e, s[1..]);
      assert OrderSorted(s[1..]) by {
        forall i, j | 0 <= i < j < |s[1..]| ensures Order(s[1..][i]) <= Order(s[1..][j]) {
          assert s[1..][i] == s[i + 1] && s[1..][j] == s[j + 1];
        }
      }
      InsertKeepsSorted(e, s[1..]);
      assert r == [s[0]] + rest;
      forall i, j | 0 <= i < j < |r| ensures Order(r[i]) <= Order(r[j]) {
        assert r[j] == rest[j - 1];
        if i > 0 {
          assert r[i] == rest[i - 1];
        } else {
          assert rest[j - 1] in rest;
          if rest[j - 1] != e {
            var k :| 0 <= k < |s[1..]| && s[1..][k] == rest[j - 1];
            assert s[k + 1] == rest[j - 1];
          }
        }
      }
    }
  }

  /** `sorted(templates.items(), key=generation_order)`: Python's sort is stable. */
  function SortByOrder(s: Dict<FieldName, PromptTemplate>): (r: Dict<FieldName, PromptTemplate>)
    ensures multiset(r) == multiset(s)
    ensures OrderSorted(r)
  {
    if |s| == 0 then []
    else
      assert s == [s[0]] + s[1..];
      InsertKeepsSorted(s[0], SortByOrder(s[1..]));
      InsertByOrder(s[0], SortByOrder(s[1..]))
  }

  /** The fields of the templates, among `es`, whose generation order is below `order`. */
  function FieldsBefore(es: Dict<FieldName, PromptTemplate>, order: int): set<FieldName>
  {
    set e | e in es && Order(e) < order :: e.1.field
  }

  /** Whether each template of `rest` requires only fields of templates of `all` that come strictly earlier. */
  function RequiredComeEarlier(rest: Dict<FieldName, PromptTemplate>, all: Dict<FieldName, PromptTemplate>): bool
  {
    |rest| == 0
    || (rest[0].1.requiredFields <= FieldsBefore(all, Order(rest[0])) && RequiredComeEarlier(rest[1..], all))
  }

  /** `PromptSet.validate`: walks the templates in generation order. */
  function Validate(ps: PromptSet): bool
  {
    var sorted := SortByOrder(ps.templates);
    RequiredComeEarlier(sorted, sorted)
  }

  lemma {:induction false} RequiredComeEarlierMeaning(rest: Dict<FieldName, PromptTemplate>, all: Dict<FieldName, PromptTemplate>)
    ensures RequiredComeEarlier(rest, all)
        <==> forall e :: e in rest ==> e.1.requiredFields <= FieldsBefore(all, Order(e))
    decreases |rest|
  {
    if |rest| > 0 {
      RequiredComeEarlierMeaning(rest[1..], all);
      assert rest == [rest[0]] + rest[1..];
      assert forall e :: e in rest <==> e == rest[0] || e in rest[1..];
    }
  }

  /**
   * A prompt set is valid exactly when each template requires only fields of
   * templates with a strictly smaller generation order; templates with equal
   * orders are not available to each other.
   */
  lemma {:induction false} ValidateMeaning(ps: PromptSet)
    ensures Validate(ps) <==> forall e :: e in ps.templates ==> e.1.requiredFields <= FieldsBefore(ps.templates, Order(e))
  {
    var sorted := SortByOrder(ps.templates);
    assert forall e :: e in sorted <==> e in ps.templates by {
      assert forall e :: e in sorted <==> e in multiset(sorted);
      assert forall e :: e in ps.templates <==> e in multiset(ps.templates);
    }
    forall o: int ensures FieldsBefore(sorted, o) == FieldsBefore(ps.templates, o) {
    }
    RequiredComeEarlierMeaning(sorted, sorted);
  }

  /** In a set whose keys are the templates' own distinct fields, a template that requires its own field is invalid. */
  lemma {:induction false} SelfRequirementInvalid(ps: PromptSet, k: nat)
    requires DistinctKeys(ps.templates)
    requires forall e :: e in ps.templates ==> e.0 == e.1.field
    requires k < |ps.templates| && ps.templates[k].1.field in ps.templates[k].1.requiredFields
    ensures !Validate(ps)
  {
    var e := ps.templates[k];
    ValidateMeaning(ps);
    forall d | d in ps.templates && Order(d) < Order(e) ensures d.1.field != e.1.field {
      var j :| 0 <= j < |ps.templates| && ps.templates[j] == d;
      if j != k {
        assert ps.templates[j].0 != ps.templates[k].0;
      }
    }
    assert e in ps.templates;
  }

  /** A template that requires a field no template provides makes the set invalid. */
  lemma {:induction false} MissingTemplateInvalid(ps: PromptSet, k: nat, f: FieldName)
    requires k < |ps.templates| && f in ps.templates[k].1.requiredFields
    requires forall e :: e in ps.templates ==> e.1.field != f
    ensures !Validate(ps)
  {
    ValidateMeaning(ps);
    assert ps.templates[k] in ps.templates;
  }

  // ---------------------------------------------------------------- GenerationResult

  /** The exceptions generation reports. */
  datatype GenError =
    | GenerationError(message: string)
    | DependencyError(field: FieldName, missing: set<FieldName>)
    | ApiError(message: string)
    /** The `AttributeError` of reading the templates of a prompt set when none is loaded. */
    | NoCurrentSet

  datatype GenerationResult = GenerationResult(field: FieldName, content: string, attempts: int, error: Option<GenError>)
  {
    /** `success`: no error was recorded. */
    predicate Success() { error.None? }
  }

  // ---------------------------------------------------------------- GenerationContext

  datatype GenerationMode = Direct | Generate | Hybrid

  datatype GenerationContext = GenerationContext(
    character: CharacterData,
    currentField: FieldName,
    userInput: string,
    mode: GenerationMode,
    maxRetries: int)

  /** The entries of `fields` whose key is not `current`, in order. */
  function Without(fields: Dict<FieldName, string>, current: FieldName): (r: Dict<FieldName, string>)
    ensures Keys(r) == Keys(fields) - {current}
    ensures Get(r, current) == None
    ensures forall f :: f != current ==> Get(r, f) == Get(fields, f)
    ensures DistinctKeys(fields) ==> DistinctKeys(r)
  {
    if |fields| == 0 then []
    else
      var rest := Without(fields[1..], current);
      KeysCons(fields[0], fields[1..]);
      assert fields == [fields[0]] + fields[1..];
      DistinctCons(fields[0], fields[1..]);
      if fields[0].0 == current then rest
      else
        KeysCons(fields[0], rest);
        DistinctCons(fields[0], rest);
        assert ([fields[0]] + rest)[1..] == rest;
        [fields[0]] + rest
  }

  /** `GenerationContext.available_fields`: the character's fields other than the one being generated. */
  function AvailableFields(ctx: GenerationContext): (r: Dict<FieldName, string>)
    ensures Keys(r) == Keys(ctx.character.fields) - {ctx.currentField}
    ensures forall f :: f != ctx.currentField ==> Get(r, f) == Get(ctx.character.fields, f)
  {
    Without(ctx.character.fields, ctx.currentField)
  }
}
