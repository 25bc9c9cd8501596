/**
 * The character state manager of the package-style application: the current
 * character, its unsaved-changes flag, undo and redo stacks of saved card
 * dictionaries, and the list of recently used files. Loading, creating and
 * exporting characters go through a service that touches the disk; what the
 * service returns is a parameter here.
 */
module SrcCharacterManager {
  import opened Wrappers
  import opened IsoTime
  import opened Fields
  import opened Dicts
  import opened Lists
  import opened SrcModels
  import opened JsonValues

  /** A file path, as its text. */
  type Path = string

  /** At most this many recently used files are kept. */
  const RecentLimit: nat := 10

  /** A snapshot on the undo or redo stack: the character's `to_dict`. */
  type Snapshot = map<string, Json>

  /** `update_field(field_name, value)` applied to a character: a field's value sets that
      field, the name of a text attribute sets the attribute, anything else changes nothing. */
  function SetField(c: CharacterData, fieldName: string, value: string): (r: CharacterData)
    ensures FromValue(fieldName).Some? ==>
      && Get(r.fields, FromValue(fieldName).value) == Some(value)
      && (forall g :: g != FromValue(fieldName).value ==> Get(r.fields, g) == Get(c.fields, g))
      && r == c.(fields := r.fields)
    ensures FromValue(fieldName).None? ==> r.fields == c.fields
    ensures DistinctKeys(c.fields) ==> DistinctKeys(r.fields)
  {
    match FromValue(fieldName)
    case Some(f) => c.(fields := Put(c.fields, f, value))
    case None =>
      if fieldName == "creator" then c.(creator := value)
      else if fieldName == "version" then c.(version := value)
      else c
  }

  /** `xs` without its first occurrence of `x` (`list.remove`), unchanged when `x` is absent. */
  function RemoveFirst(xs: seq<Path>, x: Path): (r: seq<Path>)
    ensures x !in xs ==> r == xs
    ensures multiset(r) == multiset(xs) - multiset{x}
  {
    match IndexOf(xs, x)
    case None => xs
    case Some(i) =>
      assert xs == xs[..i] + [x] + xs[i + 1..];
      xs[..i] + xs[i + 1..]
  }

  /** `_add_recent_file(path)`: the path moves to the front and the list is cut to its limit. */
  function AddRecent(recent: seq<Path>, p: Path): (r: seq<Path>)
  {
    var front := [p] + RemoveFirst(recent, p);
    if |front| <= RecentLimit then front else front[..RecentLimit]
  }

  /** Removing a path keeps only listed paths and, in a list without repetition, removes
      it altogether and repeats nothing. */
  lemma {:induction false} RemoveFirstMeaning(xs: seq<Path>, x: Path)
    ensures forall q :: q in RemoveFirst(xs, x) ==> q in xs
    ensures Distinct(xs) ==> Distinct(RemoveFirst(xs, x)) && x !in RemoveFirst(xs, x)
  {
    var r := RemoveFirst(xs, x);
    forall q | q in r ensures q in xs {
      assert q in multiset(r);
    }
    if Distinct(xs) {
      match IndexOf(xs, x)
      case None =>
      case Some(i) =>
        SpliceDistinct(xs, i);
    }
  }

  /** Leaving one element out of a list without repetition leaves a list without repetition,
      and without that element. */
  lemma {:induction false} SpliceDistinct(xs: seq<Path>, i: nat)
    requires Distinct(xs) && i < |xs|
    ensures var r := xs[..i] + xs[i + 1..]; Distinct(r) && xs[i] !in r
  {
    var r := xs[..i] + xs[i + 1..];
    forall k | 0 <= k < |r| ensures r[k] == xs[if k < i then k else k + 1] { }
    forall k, l | 0 <= k < l < |r| ensures r[k] != r[l] {
      assert r[k] == xs[if k < i then k else k + 1];
      assert r[l] == xs[if l < i then l else l + 1];
    }
    forall k | 0 <= k < |r| ensures r[k] != xs[i] {
      assert r[k] == xs[if k < i then k else k + 1];
    }
  }

  /** The path just added comes first, the list never exceeds its limit, no path is listed
      twice when none was before, and the others keep their relative order. */
  lemma {:induction false} AddRecentMeaning(recent: seq<Path>, p: Path)
    ensures var r := AddRecent(recent, p);
      && 0 < |r| <= RecentLimit && r[0] == p
      && (Distinct(recent) ==> Distinct(r))
      && (forall k :: 1 <= k < |r| ==> r[k] == RemoveFirst(recent, p)[k - 1])
      && (forall q :: q in r ==> q == p || q in recent)
  {
    var rest := RemoveFirst(recent, p);
    var r := AddRecent(recent, p);
    AddRecentFront(recent, p);
    RemoveFirstMeaning(recent, p);
    if Distinct(recent) {
      DistinctFront(p, rest, r);
    }
    forall k | 1 <= k < |r| ensures r[k] == rest[k - 1] {
      assert r[k] == ([p] + rest)[k];
    }
    forall q | q in r ensures q == p || q in recent {
      var k :| 0 <= k < |r| && r[k] == q;
      if k > 0 {
        assert q == rest[k - 1];
      }
    }
  }

  /** The list after adding is a prefix, within the limit, of the path followed by the others. */
  lemma AddRecentFront(recent: seq<Path>, p: Path)
    ensures var r := AddRecent(recent, p);
      && 0 < |r| <= RecentLimit && |r| <= |RemoveFirst(recent, p)| + 1
      && r == ([p] + RemoveFirst(recent, p))[..|r|]
  {
  }

  /** A new path in front of distinct paths not holding it, cut to a prefix, has no repetition. */
  lemma {:induction false} DistinctFront(p: Path, rest: seq<Path>, r: seq<Path>)
    requires Distinct(rest) && p !in rest
    requires |r| <= |rest| + 1 && r == ([p] + rest)[..|r|]
    ensures Distinct(r)
  {
    forall k, l | 0 <= k < l < |r| ensures r[k] != r[l] {
      assert r[l] == rest[l - 1];
      if k > 0 {
        assert r[k] == rest[k - 1];
      }
    }
  }

  /** A path already at the front stays the only change: adding it again changes nothing
      when the list has no repetition and is within its limit. */
  lemma {:induction false} AddRecentIdempotent(recent: seq<Path>, p: Path)
    requires Distinct(recent) && 0 < |recent| <= RecentLimit && recent[0] == p
    ensures AddRecent(recent, p) == recent
  {
    assert IndexOf(recent, p) == Some(0);
    assert recent == [p] + recent[1..];
  }

  /** `CharacterStateManager`. */
  class CharacterStateManager {
    var current: Option<CharacterData>
    var modified: bool
    /** `_is_updating`: true only while an operation runs. */
    var updating: bool
    var undoStack: seq<Snapshot>
    var redoStack: seq<Snapshot>
    var recentFiles: seq<Path>

    constructor()
      ensures current.None? && !modified && !updating
      ensures undoStack == [] && redoStack == [] && recentFiles == []
    {
      current := None;
      modified := false;
      updating := false;
      undoStack := [];
      redoStack := [];
      recentFiles := [];
    }

    /** `_add_recent_file(path)`. */
    method AddRecentFile(p: Path)
      modifies this
      ensures recentFiles == AddRecent(old(recentFiles), p)
      ensures current == old(current) && modified == old(modified) && updating == old(updating)
      ensures undoStack == old(undoStack) && redoStack == old(redoStack)
    {
      recentFiles := AddRecent(recentFiles, p);
    }

    /** `load_character(file_path)`, given what the character service loads from the file:
        the loaded character becomes current with no unsaved changes and no history, or the
        service's exception is raised with nothing else changed. */
    method LoadCharacter(p: Path, loaded: Result<CharacterData, string>) returns (r: Result<CharacterData, string>)
      modifies this
      ensures r == loaded && !updating
      ensures loaded.Success? ==>
        && current == Some(loaded.value) && !modified && undoStack == [] && redoStack == []
        && recentFiles == AddRecent(old(recentFiles), p)
      ensures loaded.Failure? ==>
        && current == old(current) && modified == old(modified)
        && undoStack == old(undoStack) && redoStack == old(redoStack) && recentFiles == old(recentFiles)
    {
      updating := true;
      if loaded.Failure? {
        updating := false;
        return loaded;
      }
      current := Some(loaded.value);
      modified := false;
      ClearUndoRedo();
      AddRecentFile(p);
      updating := false;
      r := loaded;
    }

    /** `save_character(file_path, format)`, given what the export returns: `None` without a
        character; on success the changes count as saved and the path is recent. */
    method SaveCharacter(exported: Result<Path, string>) returns (r: Result<Option<Path>, string>)
      modifies this
      ensures current == old(current) && undoStack == old(undoStack) && redoStack == old(redoStack)
      ensures old(current).None? ==>
        r == Success(None) && modified == old(modified) && updating == old(updating) && recentFiles == old(recentFiles)
      ensures old(current).Some? ==> !updating
      ensures old(current).Some? && exported.Failure? ==>
        r == Failure(exported.error) && modified == old(modified) && recentFiles == old(recentFiles)
      ensures old(current).Some? && exported.Success? ==>
        r == Success(Some(exported.value)) && !modified && recentFiles == AddRecent(old(recentFiles), exported.value)
    {
      if current.None? {
        return Success(None);
      }
      updating := true;
      if exported.Failure? {
        updating := false;
        return Failure(exported.error);
      }
      modified := false;
      AddRecentFile(exported.value);
      updating := false;
      r := Success(Some(exported.value));
    }

    /** `update_field(field_name, value)`: with a current character, its card goes on the undo
        stack, the redo stack empties, the field or attribute is set and the character counts
        as modified; without one nothing happens. */
    method UpdateField(fieldName: string, value: string)
      modifies this
      ensures recentFiles == old(recentFiles)
      ensures old(current).None? ==>
        && current == old(current) && modified == old(modified) && updating == old(updating)
        && undoStack == old(undoStack) && redoStack == old(redoStack)
      ensures old(current).Some? ==>
        && !updating
        && current == Some(SetField(old(current).value, fieldName, value))
        && undoStack == old(undoStack) + [ToDict(old(current).value)] && redoStack == []
        && modified
    {
      if current.None? {
        return;
      }
      updating := true;
      PushUndoState();
      current := Some(SetField(current.value, fieldName, value));
      modified := true;
      updating := false;
    }

    /** `create_new_character(name)`, given what the character service creates. */
    method CreateNewCharacter(created: Result<CharacterData, string>) returns (r: Result<CharacterData, string>)
      modifies this
      ensures r == created && !updating && recentFiles == old(recentFiles)
      ensures created.Success? ==> current == Some(created.value) && !modified && undoStack == [] && redoStack == []
      ensures created.Failure? ==>
        current == old(current) && modified == old(modified) && undoStack == old(undoStack) && redoStack == old(redoStack)
    {
      updating := true;
      if created.Success? {
        current := Some(created.value);
        modified := false;
        ClearUndoRedo();
      }
      updating := false;
      r := created;
    }

    /** `undo()`: `false` on an empty undo stack; otherwise the current card moves to the redo
        stack and the popped card, read back with `from_dict`, becomes current. A card that does
        not read back raises after both stacks have moved. */
    method Undo(now: Timestamp) returns (r: Result<bool, CardError>)
      modifies this
      ensures recentFiles == old(recentFiles) && modified == old(modified)
      ensures |old(undoStack)| == 0 ==>
        && r == Success(false) && updating == old(updating)
        && current == old(current) && undoStack == old(undoStack) && redoStack == old(redoStack)
      ensures |old(undoStack)| > 0 ==>
        && !updating
        && undoStack == old(undoStack)[..|old(undoStack)| - 1]
        && redoStack == old(redoStack) + Saved(old(current))
        && Restored(r, old(current), current, FromDict(old(undoStack)[|old(undoStack)| - 1], now))
    {
      if |undoStack| == 0 {
        return Success(false);
      }
      updating := true;
      if current.Some? {
        redoStack := redoStack + [ToDict(current.value)];
      }
      var state := undoStack[|undoStack| - 1];
      undoStack := undoStack[..|undoStack| - 1];
      var back := FromDict(state, now);
      if back.Failure? {
        updating := false;
        return Failure(back.error);
      }
      current := Some(back.value);
      updating := false;
      r := Success(true);
    }

    /** `redo()`: the mirror image of `undo()`. */
    method Redo(now: Timestamp) returns (r: Result<bool, CardError>)
      modifies this
      ensures recentFiles == old(recentFiles) && modified == old(modified)
      ensures |old(redoStack)| == 0 ==>
        && r == Success(false) && updating == old(updating)
        && current == old(current) && undoStack == old(undoStack) && redoStack == old(redoStack)
      ensures |old(redoStack)| > 0 ==>
        && !updating
        && redoStack == old(redoStack)[..|old(redoStack)| - 1]
        && undoStack == old(undoStack) + Saved(old(current))
        && Restored(r, old(current), current, FromDict(old(redoStack)[|old(redoStack)| - 1], now))
    {
      if |redoStack| == 0 {
        return Success(false);
      }
      updating := true;
      if current.Some? {
        undoStack := undoStack + [ToDict(current.value)];
      }
      var state := redoStack[|redoStack| - 1];
      redoStack := redoStack[..|redoStack| - 1];
      var back := FromDict(state, now);
      if back.Failure? {
        updating := false;
        return Failure(back.error);
      }
      current := Some(back.value);
      updating := false;
      r := Success(true);
    }

    /** `_push_undo_state()`. */
    method PushUndoState()
      modifies this
      ensures current == old(current) && modified == old(modified) && updating == old(updating)
      ensures recentFiles == old(recentFiles)
      ensures undoStack == old(undoStack) + Saved(old(current))
      ensures redoStack == if old(current).Some? then [] else old(redoStack)
    {
      if current.Some? {
        undoStack := undoStack + [ToDict(current.value)];
        redoStack := [];
      }
    }

    /** `_clear_undo_redo()`. */
    method ClearUndoRedo()
      modifies this
      ensures undoStack == [] && redoStack == []
      ensures current == old(current) && modified == old(modified) && updating == old(updating)
      ensures recentFiles == old(recentFiles)
    {
      undoStack := [];
      redoStack := [];
    }
  }

  /** What an undo or redo pushes on the opposite stack: the current card, if any. */
  function Saved(c: Option<CharacterData>): seq<Snapshot>
  {
    if c.Some? then [ToDict(c.value)] else []
  }

  /** The outcome of restoring a card: it becomes current, or its error is raised and the
      current character stays. */
  ghost predicate Restored(r: Result<bool, CardError>, before: Option<CharacterData>, after: Option<CharacterData>,
                           back: Result<CharacterData, CardError>)
  {
    match back
    case Success(c) => r == Success(true) && after == Some(c)
    case Failure(e) => r == Failure(e) && after == before
  }

  /** Undoing an update brings back the character whose card the update pushed: the same
      lists, creator, version and non-name fields, with the name read back from the card. */
  lemma {:induction false} UndoRestoresSnapshot(c: CharacterData, now: Timestamp)
    requires DistinctKeys(c.fields)
    requires IsIsoFormat(c.createdAt) && IsIsoFormat(c.modifiedAt)
    ensures FromDict(ToDict(c), now).Success?
    ensures var back := FromDict(ToDict(c), now).value;
      && (forall f :: f != Name ==> Get(back.fields, f) == Get(c.fields, f))
      && back.alternateGreetings == c.alternateGreetings && back.tags == c.tags
      && back.creator == c.creator && back.version == c.version
      && back.name == SavedName(c)
  {
    CardRoundTrip(c, now);
  }
}
