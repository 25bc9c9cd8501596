/**
 * The version history of a character: a numbered list of changes, the current
 * version number, and for each field the version of the last change that touched
 * it; and the dictionary form it is saved in. A `datetime` is kept as the ISO text
 * it is saved as, and a change's metadata as the JSON object it is saved as.
 */
module CoreVersioning {
  import opened Wrappers
  import opened IsoTime
  import opened JsonValues

  /** `ChangeType`. */
  datatype ChangeType = FieldGeneration | ManualEdit | FieldRegeneration | BatchChange | ImageChange | MetadataUpdate

  /** The member name of a change type, as `to_dict` writes it. */
  function TypeName(t: ChangeType): string
  {
    match t
    case FieldGeneration => "FIELD_GENERATION"
    case ManualEdit => "MANUAL_EDIT"
    case FieldRegeneration => "FIELD_REGENERATION"
    case BatchChange => "BATCH_CHANGE"
    case ImageChange => "IMAGE_CHANGE"
    case MetadataUpdate => "METADATA_UPDATE"
  }

  /** `ChangeType[name]`: the change type with that member name, if any. */
  function TypeNamed(name: string): (r: Option<ChangeType>)
    ensures forall t :: TypeName(t) == name <==> r == Some(t)
  {
    if name == "FIELD_GENERATION" then Some(FieldGeneration)
    else if name == "MANUAL_EDIT" then Some(ManualEdit)
    else if name == "FIELD_REGENERATION" then Some(FieldRegeneration)
    else if name == "BATCH_CHANGE" then Some(BatchChange)
    else if name == "IMAGE_CHANGE" then Some(ImageChange)
    else if name == "METADATA_UPDATE" then Some(MetadataUpdate)
    else None
  }

  /** `VersionChange`. */
  datatype VersionChange = VersionChange(
    version: int,
    changeType: ChangeType,
    timestamp: string,
    fieldsChanged: seq<string>,
    description: string,
    metadata: map<string, Json>,
    parentVersion: Option<int>)

  /** Why `from_dict` cannot read a saved history. */
  datatype VersionError =
    | NotAnObject
    | MissingKey(key: string)
    | WrongType(key: string)
    | UnknownChangeType(name: string)
    | BadTimestamp(text: string)

  /** `dict.get(key)`. */
  function Latest(fieldVersions: map<string, int>, field: string): Option<int>
  {
    if field in fieldVersions then Some(fieldVersions[field]) else None
  }

  /** `get_field_history` on a list of changes: the changes that touched `field`, in order. */
  function FieldHistory(changes: seq<VersionChange>, field: string): (r: seq<VersionChange>)
    ensures forall c :: c in r <==> c in changes && field in c.fieldsChanged
    ensures |r| <= |changes|
  {
    if |changes| == 0 then []
    else
      var last := changes[|changes| - 1];
      assert forall c :: c in changes <==> c in changes[..|changes| - 1] || c == last by {
        assert changes == changes[..|changes| - 1] + [last];
      }
      FieldHistory(changes[..|changes| - 1], field) + (if field in last.fieldsChanged then [last] else [])
  }

  /** The version of the last change in a list. */
  function LastVersion(changes: seq<VersionChange>): Option<int>
  {
    if |changes| == 0 then None else Some(changes[|changes| - 1].version)
  }

  /** Changes numbered 2, 3, ... from the start, each with the one before as its parent. */
  ghost predicate Numbered(changes: seq<VersionChange>)
  {
    forall i :: 0 <= i < |changes| ==> changes[i].version == i + 2 && changes[i].parentVersion == Some(i + 1)
  }

  /**
   * What a history built by `add_change` from a fresh one keeps: the current version
   * is the last change's, the changes are numbered in order, and each field's
   * recorded version is that of the last change that touched it.
   */
  ghost predicate Coherent(current: int, changes: seq<VersionChange>, fieldVersions: map<string, int>)
  {
    && current == |changes| + 1
    && Numbered(changes)
    && forall f :: Latest(fieldVersions, f) == LastVersion(FieldHistory(changes, f))
  }

  /** A fresh history is coherent. */
  lemma {:induction false} FreshCoherent()
    ensures Coherent(1, [], map[])
  {
    forall f
      ensures Latest(map[], f) == LastVersion(FieldHistory([], f))
    {
    }
  }

  /** Recording one more change the way `add_change` does keeps a history coherent. */
  lemma {:induction false} AddKeeps(current: int, changes: seq<VersionChange>, fieldVersions: map<string, int>,
                                   c: VersionChange, updated: map<string, int>)
    requires Coherent(current, changes, fieldVersions)
    requires c.version == current + 1 && c.parentVersion == Some(current)
    requires forall g :: Latest(updated, g) == if g in c.fieldsChanged then Some(c.version) else Latest(fieldVersions, g)
    ensures Coherent(current + 1, changes + [c], updated)
  {
    var all := changes + [c];
    assert all[..|all| - 1] == changes;
    forall f
      ensures Latest(updated, f) == LastVersion(FieldHistory(all, f))
    {
      assert FieldHistory(all, f) == FieldHistory(changes, f) + (if f in c.fieldsChanged then [c] else []);
    }
  }

  /** In a coherent history, exactly the versions 2 to the current one have a change, the change of version `v` sits at index `v - 2`, and its parent is `v - 1`. */
  lemma {:induction false} ChangeOfVersion(current: int, changes: seq<VersionChange>, fieldVersions: map<string, int>, v: int)
    requires Coherent(current, changes, fieldVersions)
    ensures (exists c :: c in changes && c.version == v) <==> 2 <= v <= current
    ensures 2 <= v <= current ==> changes[v - 2].version == v && changes[v - 2].parentVersion == Some(v - 1)
  {
    if 2 <= v <= current {
      assert changes[v - 2] in changes;
    }
    forall c | c in changes
      ensures 2 <= c.version <= current
    {
      var i :| 0 <= i < |changes| && changes[i] == c;
    }
  }

  /** In a numbered history, the last change that touched a field has the highest version among those that did. */
  lemma {:induction false} LastTouchIsNewest(changes: seq<VersionChange>, field: string, c: VersionChange)
    requires Numbered(changes)
    requires c in FieldHistory(changes, field)
    ensures LastVersion(FieldHistory(changes, field)).Some?
    ensures c.version <= LastVersion(FieldHistory(changes, field)).value
  {
    var i :| 0 <= i < |changes| && changes[i] == c;
    LastTouchAt(changes, field, i);
  }

  /** The change at index `i` touched the field, so the field's last change is at least as new. */
  lemma {:induction false} LastTouchAt(changes: seq<VersionChange>, field: string, i: nat)
    requires Numbered(changes) && i < |changes| && field in changes[i].fieldsChanged
    ensures LastVersion(FieldHistory(changes, field)).Some?
    ensures i + 2 <= LastVersion(FieldHistory(changes, field)).value
    decreases |changes|
  {
    var n := |changes|;
    var init, last := changes[..n - 1], changes[n - 1];
    if field in last.fieldsChanged {
      assert FieldHistory(changes, field) == FieldHistory(init, field) + [last];
    } else {
      assert i < n - 1;
      assert FieldHistory(changes, field) == FieldHistory(init, field);
      assert init[i] == changes[i];
      NumberedPrefix(changes, n - 1);
      LastTouchAt(init, field, i);
    }
  }

  /** A prefix of a numbered history is numbered. */
  lemma {:induction false} NumberedPrefix(changes: seq<VersionChange>, k: nat)
    requires Numbered(changes) && k <= |changes|
    ensures Numbered(changes[..k])
  {
    forall j | 0 <= j < k
      ensures changes[..k][j].version == j + 2 && changes[..k][j].parentVersion == Some(j + 1)
    {
      assert changes[..k][j] == changes[j];
    }
  }

  /** `get_latest_field_version` of a coherent history is the highest version among the field's history, and a field without one has no history. */
  lemma {:induction false} LatestIsNewest(current: int, changes: seq<VersionChange>, fieldVersions: map<string, int>, field: string)
    requires Coherent(current, changes, fieldVersions)
    ensures Latest(fieldVersions, field).None? <==> FieldHistory(changes, field) == []
    ensures forall c :: c in FieldHistory(changes, field) ==> c.version <= Latest(fieldVersions, field).value
  {
    forall c | c in FieldHistory(changes, field)
      ensures c.version <= Latest(fieldVersions, field).value
    {
      LastTouchIsNewest(changes, field, c);
    }
  }

  /** One change in its dictionary form. */
  function ChangeJson(c: VersionChange): Json
  {
    Obj(map[
      "version" := Int(c.version),
      "change_type" := Str(TypeName(c.changeType)),
      "timestamp" := Str(c.timestamp),
      "fields_changed" := Arr(StrList(c.fieldsChanged)),
      "change_description" := Str(c.description),
      "change_metadata" := Obj(c.metadata),
      "parent_version" := if c.parentVersion.Some? then Int(c.parentVersion.value) else Null])
  }

  function ChangesJson(changes: seq<VersionChange>): (r: seq<Json>)
    ensures |r| == |changes|
    ensures forall i :: 0 <= i < |changes| ==> r[i] == ChangeJson(changes[i])
  {
    if |changes| == 0 then [] else [ChangeJson(changes[0])] + ChangesJson(changes[1..])
  }

  /** `to_dict` on the three parts of a history. */
  function Encode(current: int, changes: seq<VersionChange>, fieldVersions: map<string, int>): map<string, Json>
  {
    map[
      "current_version" := Int(current),
      "changes" := Arr(ChangesJson(changes)),
      "field_versions" := Obj(map f | f in fieldVersions :: Int(fieldVersions[f]))]
  }

  function IntEntry(d: map<string, Json>, key: string): (r: Result<int, VersionError>)
    ensures r.Success? <==> key in d && d[key].Int?
    ensures r.Success? ==> r.value == d[key].i
  {
    if key !in d then Failure(MissingKey(key))
    else if d[key].Int? then Success(d[key].i)
    else Failure(WrongType(key))
  }

  /** `d[key]` read as a text: a missing key raises `KeyError`. */
  function RequiredText(d: map<string, Json>, key: string): (r: Result<string, VersionError>)
    ensures r.Success? <==> key in d && d[key].Str?
    ensures r.Success? ==> r.value == d[key].s
  {
    if key !in d then Failure(MissingKey(key)) else TextEntry(d, key, "", WrongType(key))
  }

  /** One change read back from its dictionary form; `change_metadata` and `parent_version` may be missing. */
  function ChangeFrom(j: Json): (r: Result<VersionChange, VersionError>)
    ensures !j.Obj? ==> r == Failure(NotAnObject)
    ensures j.Obj? && "version" !in j.entries ==> r == Failure(MissingKey("version"))
    ensures r.Success? ==> j.Obj? && Int(r.value.version) == j.entries["version"]
    ensures r.Success? && "change_metadata" !in j.entries ==> r.value.metadata == map[]
    ensures r.Success? && ("parent_version" !in j.entries || j.entries["parent_version"] == Null) ==> r.value.parentVersion == None
  {
    if !j.Obj? then Failure(NotAnObject)
    else
      var d := j.entries;
      var version :- IntEntry(d, "version");
      var typeName :- RequiredText(d, "change_type");
      var changeType :- if TypeNamed(typeName).Some? then Success(TypeNamed(typeName).value) else Failure(UnknownChangeType(typeName));
      var timestamp :- RequiredText(d, "timestamp");
      var _ :- if IsIsoFormat(timestamp) then Success(()) else Failure(BadTimestamp(timestamp));
      var fields :-
        if "fields_changed" !in d then Failure(MissingKey("fields_changed"))
        else if d["fields_changed"].Arr? && Texts(d["fields_changed"].items).Some? then Success(Texts(d["fields_changed"].items).value)
        else Failure(WrongType("fields_changed"));
      var description :- RequiredText(d, "change_description");
      var metadata :-
        if "change_metadata" !in d then Success(map[])
        else if d["change_metadata"].Obj? then Success(d["change_metadata"].entries)
        else Failure(WrongType("change_metadata"));
      var parent :-
        if "parent_version" !in d || d["parent_version"] == Null then Success(None)
        else if d["parent_version"].Int? then Success(Some(d["parent_version"].i))
        else Failure(WrongType("parent_version"));
      Success(VersionChange(version, changeType, timestamp, fields, description, metadata, parent))
  }

  /** What `from_dict` reads before the changes: the current version, the field versions and the saved changes. */
  datatype Header = Header(current: int, fieldVersions: map<string, int>, items: seq<Json>)

  /** `data.get('current_version', 1)`. */
  function CurrentFrom(data: map<string, Json>): (r: Result<int, VersionError>)
    ensures "current_version" !in data ==> r == Success(1)
  {
    if "current_version" in data then IntEntry(data, "current_version") else Success(1)
  }

  /** `data.get('field_versions', {})`. */
  function FieldVersionsFrom(data: map<string, Json>): (r: Result<map<string, int>, VersionError>)
    ensures "field_versions" !in data ==> r == Success(map[])
  {
    if "field_versions" !in data then Success(map[])
    else
      var v := data["field_versions"];
      if v.Obj? && forall f :: f in v.entries ==> v.entries[f].Int? then Success(map f | f in v.entries :: v.entries[f].i)
      else Failure(WrongType("field_versions"))
  }

  /**
   * The loop's view of `data.get('changes', [])`: the items of a list. Iterating
   * an object or a text yields texts, so a non-empty one fails at its first item
   * as a change that is not an object; any other value cannot be iterated.
   */
  function ItemsFrom(data: map<string, Json>): (r: Result<seq<Json>, VersionError>)
    ensures "changes" !in data ==> r == Success([])
    ensures "changes" in data && data["changes"].Arr? ==> r == Success(data["changes"].items)
    ensures r.Success? && "changes" in data ==> data["changes"] in {Arr(r.value), Obj(map[]), Str("")}
  {
    if "changes" !in data then Success([])
    else match data["changes"]
      case Arr(items) => Success(items)
      case Obj(entries) => if entries == map[] then Success([]) else Failure(NotAnObject)
      case Str(text) => if text == "" then Success([]) else Failure(NotAnObject)
      case _ => Failure(WrongType("changes"))
  }

  /** What `from_dict` reads before the changes: the current version, the field versions and the saved changes. */
  function HeaderFrom(data: map<string, Json>): (r: Result<Header, VersionError>)
    ensures r.Success? <==> CurrentFrom(data).Success? && FieldVersionsFrom(data).Success? && ItemsFrom(data).Success?
    ensures data == map[] ==> r == Success(Header(1, map[], []))
  {
    var current :- CurrentFrom(data);
    var fieldVersions :- FieldVersionsFrom(data);
    var items :- ItemsFrom(data);
    Success(Header(current, fieldVersions, items))
  }

  /** A change reads back from its dictionary form unchanged exactly when its timestamp is one `fromisoformat` accepts. */
  lemma {:induction false} ChangeRoundTrip(c: VersionChange)
    ensures IsIsoFormat(c.timestamp) ==> ChangeFrom(ChangeJson(c)) == Success(c)
    ensures !IsIsoFormat(c.timestamp) ==> ChangeFrom(ChangeJson(c)) == Failure(BadTimestamp(c.timestamp))
  {
    var d := ChangeJson(c).entries;
    assert d["version"] == Int(c.version) && d["change_type"] == Str(TypeName(c.changeType));
    assert d["timestamp"] == Str(c.timestamp) && d["fields_changed"] == Arr(StrList(c.fieldsChanged));
    assert d["change_description"] == Str(c.description) && d["change_metadata"] == Obj(c.metadata);
    assert TypeNamed(TypeName(c.changeType)) == Some(c.changeType);
    TextsOfStrList(c.fieldsChanged);
    if IsIsoFormat(c.timestamp) {
      assert ChangeFrom(ChangeJson(c)) == Success(c);
    }
  }

  /**
   * Reading back the dictionary `to_dict` writes gives the same current version
   * and field versions, and each saved change reads back as the change it came
   * from, unless its timestamp is not ISO text.
   */
  lemma {:induction false} DictRoundTrip(current: int, changes: seq<VersionChange>, fieldVersions: map<string, int>)
    ensures Encode(current, changes, fieldVersions) != map[]
    ensures HeaderFrom(Encode(current, changes, fieldVersions)) == Success(Header(current, fieldVersions, ChangesJson(changes)))
    ensures forall i :: 0 <= i < |changes| && IsIsoFormat(changes[i].timestamp) ==>
      ChangeFrom(ChangesJson(changes)[i]) == Success(changes[i])
    ensures forall i :: 0 <= i < |changes| && !IsIsoFormat(changes[i].timestamp) ==>
      ChangeFrom(ChangesJson(changes)[i]) == Failure(BadTimestamp(changes[i].timestamp))
  {
    var data := Encode(current, changes, fieldVersions);
    assert "current_version" in data;
    var entries := data["field_versions"].entries;
    assert (map f | f in entries :: entries[f].i) == fieldVersions;
    forall i | 0 <= i < |changes|
      ensures ChangeFrom(ChangesJson(changes)[i]) == if IsIsoFormat(changes[i].timestamp) then Success(changes[i])
                                                    else Failure(BadTimestamp(changes[i].timestamp))
    {
      ChangeRoundTrip(changes[i]);
    }
  }

  /** Changes read back one by one from the saved forms of `changes` are `changes`. */
  lemma {:induction false} ReadBackSame(changes: seq<VersionChange>, loaded: seq<VersionChange>)
    requires |loaded| == |changes|
    requires forall i :: 0 <= i < |loaded| ==> ChangeFrom(ChangesJson(changes)[i]) == Success(loaded[i])
    ensures loaded == changes
  {
    DictRoundTrip(1, changes, map[]);
  }

  /** `VersionHistory`. */
  class VersionHistory {
    var currentVersion: int
    var changes: seq<VersionChange>
    var fieldVersions: map<string, int>

    ghost predicate Consistent()
      reads this
    {
      Coherent(currentVersion, changes, fieldVersions)
    }

    constructor()
      ensures currentVersion == 1 && changes == [] && fieldVersions == map[]
      ensures Consistent()
    {
      currentVersion, changes, fieldVersions := 1, [], map[];
      FreshCoherent();
    }

    /** `to_dict`. */
    function ToDict(): map<string, Json>
      reads this
    {
      Encode(currentVersion, changes, fieldVersions)
    }

    /**
     * `from_dict`: an empty dictionary changes nothing. Otherwise the current
     * version and the field versions are replaced, in that order, and the changes
     * emptied and then filled with those read back in order; the first entry that
     * cannot be read aborts the load and leaves what was assigned before it.
     */
    method FromDict(data: map<string, Json>) returns (err: Option<VersionError>)
      modifies this
      ensures data == map[] ==> err == None
      ensures data == map[] || CurrentFrom(data).Failure? ==>
        currentVersion == old(currentVersion) && changes == old(changes) && fieldVersions == old(fieldVersions)
      ensures data != map[] && CurrentFrom(data).Failure? ==> err == Some(CurrentFrom(data).error)
      ensures data != map[] && CurrentFrom(data).Success? ==> currentVersion == CurrentFrom(data).value
      ensures data != map[] && CurrentFrom(data).Success? && FieldVersionsFrom(data).Failure? ==>
        changes == old(changes) && fieldVersions == old(fieldVersions) && err == Some(FieldVersionsFrom(data).error)
      ensures data != map[] && HeaderFrom(data).Failure? && FieldVersionsFrom(data).Success? && CurrentFrom(data).Success? ==>
        fieldVersions == FieldVersionsFrom(data).value && changes == [] && err == Some(ItemsFrom(data).error)
      ensures data != map[] && HeaderFrom(data).Success? ==>
        var h := HeaderFrom(data).value;
        && currentVersion == h.current && fieldVersions == h.fieldVersions
        && |changes| <= |h.items|
        && (forall i :: 0 <= i < |changes| ==> ChangeFrom(h.items[i]) == Success(changes[i]))
        && (err.None? <==> |changes| == |h.items|)
        && (err.Some? ==> ChangeFrom(h.items[|changes|]) == Failure(err.value))
    {
      if data == map[] {
        return None;
      }
      var current := CurrentFrom(data);
      if current.Failure? {
        return Some(current.error);
      }
      currentVersion := current.value;
      var versions := FieldVersionsFrom(data);
      if versions.Failure? {
        return Some(versions.error);
      }
      fieldVersions := versions.value;
      changes := [];
      var items := ItemsFrom(data);
      if items.Failure? {
        return Some(items.error);
      }
      changes, err := ReadChanges(items.value, ChangeFrom);
    }

    /** The loop of `from_dict` over the stored changes, each read by `decode`: the changes read, up to the first one that does not read. */
    static method ReadChanges(items: seq<Json>, decode: Json -> Result<VersionChange, VersionError>)
      returns (changes: seq<VersionChange>, err: Option<VersionError>)
      ensures |changes| <= |items|
      ensures forall i :: 0 <= i < |changes| ==> decode(items[i]) == Success(changes[i])
      ensures err.None? <==> |changes| == |items|
      ensures err.Some? ==> decode(items[|changes|]) == Failure(err.value)
    {
      changes := [];
      var i := 0;
      while i < |items|
        invariant i == |changes| <= |items|
        invariant forall k :: 0 <= k < i ==> decode(items[k]) == Success(changes[k])
      {
        var change := decode(items[i]);
        if change.Failure? {
          return changes, Some(change.error);
        }
        changes := changes + [change.value];
        i := i + 1;
      }
      return changes, None;
    }

    /**
     * `add_change`: records a change one version past the current one, with the
     * current one as its parent, makes it current, and marks each of its fields
     * as last changed in it. `now` is the clock reading, and no metadata is `{}`.
     */
    method AddChange(changeType: ChangeType, fields: seq<string>, description: string, metadata: map<string, Json>, now: string)
      returns (c: VersionChange)
      modifies this
      ensures c == VersionChange(old(currentVersion) + 1, changeType, now, fields, description, metadata, Some(old(currentVersion)))
      ensures changes == old(changes) + [c] && currentVersion == c.version
      ensures forall g :: Latest(fieldVersions, g) == if g in fields then Some(c.version) else Latest(old(fieldVersions), g)
      ensures old(Consistent()) ==> Consistent()
    {
      c := VersionChange(currentVersion + 1, changeType, now, fields, description, metadata, Some(currentVersion));
      ghost var before := fieldVersions;
      ghost var current := currentVersion;
      changes := changes + [c];
      currentVersion := c.version;
      for i := 0 to |fields|
        invariant changes == old(changes) + [c] && currentVersion == c.version
        invariant forall g :: Latest(fieldVersions, g) == if g in fields[..i] then Some(c.version) else Latest(before, g)
      {
        assert fields[..i + 1] == fields[..i] + [fields[i]];
        fieldVersions := fieldVersions[fields[i] := c.version];
      }
      assert fields[..|fields|] == fields;
      if Coherent(current, old(changes), before) {
        AddKeeps(current, old(changes), before, c, fieldVersions);
      }
    }

    /** `get_field_history`. */
    function GetFieldHistory(field: string): seq<VersionChange>
      reads this
    {
      FieldHistory(changes, field)
    }

    /** `get_change`: the first change with version `v`, if there is one. */
    method GetChange(v: int) returns (r: Option<VersionChange>)
      ensures r.None? <==> forall c :: c in changes ==> c.version != v
      ensures r.Some? ==> r.value.version == v
      ensures r.Some? ==> exists i :: 0 <= i < |changes| && changes[i] == r.value && (forall k :: 0 <= k < i ==> changes[k].version != v)
    {
      for i := 0 to |changes|
        invariant forall k :: 0 <= k < i ==> changes[k].version != v
      {
        if changes[i].version == v {
          return Some(changes[i]);
        }
      }
      return None;
    }

    /** `get_latest_field_version`. */
    function GetLatestFieldVersion(field: string): Option<int>
      reads this
    {
      Latest(fieldVersions, field)
    }
  }
}
