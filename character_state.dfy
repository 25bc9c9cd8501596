/**
 * `CharacterStateManager`: the character being edited, the set of fields changed
 * since the last save, and undo and redo stacks of earlier versions of the
 * character. A field update validates the new text, snapshots the character onto
 * the undo stack first, and caps that stack at 50 entries by dropping the oldest.
 *
 * The manager sees a character as its attribute dictionary: `setattr` writes an
 * entry, and `copy()` (which rebuilds the dataclass with `dataclasses.replace`)
 * keeps only the entries that are dataclass fields. Date-times are stored as
 * their ISO text. The file service's answers, the clock and the traceback text
 * are parameters.
 */
module CoreCharacterState {
  import opened Wrappers
  import opened IsoTime
  import opened JsonValues
  import E = CoreErrors
  import V = CoreValidation
  import Strings

  /** A character, as the attributes `setattr` and `getattr` see. */
  type Character = map<string, Json>

  /** The fields of the `CharacterData` dataclass. */
  const DataclassFields: set<string> := {
    "name", "description", "personality", "first_mes", "avatar", "mes_example", "scenario",
    "creator_notes", "system_prompt", "post_history_instructions", "alternate_greetings", "tags",
    "creator", "character_version", "id", "created_at", "modified_at", "_extensions", "_charactergen_metadata"}

  /** The most undo snapshots `_push_undo_state` keeps. */
  const UndoLimit := 50

  /** `CharacterData.copy()`: the dataclass fields, each with its value; other attributes are lost. */
  function Copy(c: Character): (r: Character)
    ensures forall k :: k in r <==> k in c && k in DataclassFields
    ensures forall k :: k in r ==> r[k] == c[k]
  {
    map k | k in c && k in DataclassFields :: c[k]
  }

  /** A character holding only dataclass fields is copied unchanged. */
  lemma CopyOfDataclass(c: Character)
    requires c.Keys <= DataclassFields
    ensures Copy(c) == c
  {
    assert Copy(c).Keys == c.Keys;
  }

  /** An attribute that is not a dataclass field does not survive into the snapshot. */
  lemma CopyDropsExtra(c: Character, key: string, v: Json)
    requires key !in DataclassFields
    ensures Copy(c[key := v]) == Copy(c)
  {
    assert Copy(c[key := v]).Keys == Copy(c).Keys;
  }

  /** The undo stack after `_push_undo_state` with `c` current: a copy of `c` on top, the oldest entries dropped beyond 50. */
  function PushedUndo(undo: seq<Character>, c: Character): (r: seq<Character>)
    ensures |r| == if |undo| + 1 > UndoLimit then UndoLimit else |undo| + 1
    ensures r[|r| - 1] == Copy(c)
    ensures r == (undo + [Copy(c)])[|undo| + 1 - |r|..]
  {
    var full := undo + [Copy(c)];
    if |full| > UndoLimit then full[|full| - UndoLimit..] else full
  }

  /** Everything the manager holds. */
  datatype State = State(
    current: Option<Character>,
    modified: set<string>,
    lastSaved: Option<Timestamp>,
    undo: seq<Character>,
    redo: seq<Character>)

  /** `_clear_current_state()`. */
  const Cleared := State(None, {}, None, [], [])

  /**
   * `update_field(field, value, validate)` on state `s`, where `passes` is whether the
   * validation service accepts the value: the new state and the result.
   */
  function UpdateSpec(s: State, field: string, value: string, validate: bool, passes: bool, now: Timestamp): (r: (State, bool))
    ensures r.1 <==> s.current.Some? && (!validate || passes)
    ensures s.current.None? ==> r.0 == s
    ensures s.current.Some? ==> r.0.undo == PushedUndo(s.undo, s.current.value)
    ensures s.current.Some? && !r.1 ==> r.0 == s.(undo := r.0.undo)
    ensures r.1 ==>
      && r.0.current.Some? && field in r.0.current.value && field in r.0.modified && r.0.redo == []
      && (field != "modified_at" ==> r.0.current.value[field] == Str(value))
      && "modified_at" in r.0.current.value && r.0.current.value["modified_at"] == Str(now) && r.0.lastSaved == s.lastSaved
      && (forall k :: k != field && k != "modified_at" ==>
            (k in r.0.current.value <==> k in s.current.value)
            && (k in s.current.value ==> r.0.current.value[k] == s.current.value[k]))
  {
    match s.current
    case None => (s, false)
    case Some(c) =>
      var undo := PushedUndo(s.undo, c);
      if validate && !passes then (s.(undo := undo), false)
      else
        (State(Some(c[field := Str(value)]["modified_at" := Str(now)]), s.modified + {field}, s.lastSaved, undo, []), true)
  }

  /** `undo()` on state `s`. */
  function UndoSpec(s: State): (r: (State, bool))
    ensures !r.1 <==> |s.undo| == 0
    ensures !r.1 ==> r.0 == s
    ensures r.1 ==> r.0.current == Some(s.undo[|s.undo| - 1]) && r.0.undo + [s.undo[|s.undo| - 1]] == s.undo
    ensures r.1 ==> r.0.redo == s.redo + (if s.current.Some? then [s.current.value] else [])
    ensures r.0.modified == s.modified && r.0.lastSaved == s.lastSaved
  {
    if |s.undo| == 0 then (s, false)
    else
      var top := s.undo[|s.undo| - 1];
      (s.(current := Some(top), undo := s.undo[..|s.undo| - 1],
          redo := s.redo + (if s.current.Some? then [s.current.value] else [])), true)
  }

  /** `redo()` on state `s`: the current character goes onto the undo stack without the 50-entry trim. */
  function RedoSpec(s: State): (r: (State, bool))
    ensures !r.1 <==> |s.redo| == 0
    ensures !r.1 ==> r.0 == s
    ensures r.1 ==> r.0.current == Some(s.redo[|s.redo| - 1]) && r.0.redo + [s.redo[|s.redo| - 1]] == s.redo
    ensures r.1 ==> r.0.undo == s.undo + (if s.current.Some? then [s.current.value] else [])
    ensures r.0.modified == s.modified && r.0.lastSaved == s.lastSaved
  {
    if |s.redo| == 0 then (s, false)
    else
      var top := s.redo[|s.redo| - 1];
      (s.(current := Some(top), redo := s.redo[..|s.redo| - 1],
          undo := s.undo + (if s.current.Some? then [s.current.value] else [])), true)
  }

  /** Redoing what was just undone gives back the state before the undo. */
  lemma {:induction false} UndoThenRedo(s: State)
    requires s.current.Some? && |s.undo| > 0
    ensures UndoSpec(s).1 && RedoSpec(UndoSpec(s).0) == (s, true)
  {
    var u := UndoSpec(s).0;
    assert u.redo[..|u.redo| - 1] == s.redo;
    assert u.undo + [u.current.value] == s.undo;
  }

  /** Undoing what was just redone gives back the state before the redo. */
  lemma {:induction false} RedoThenUndo(s: State)
    requires s.current.Some? && |s.redo| > 0
    ensures RedoSpec(s).1 && UndoSpec(RedoSpec(s).0) == (s, true)
  {
    var r := RedoSpec(s).0;
    assert r.undo[..|r.undo| - 1] == s.undo;
    assert r.redo + [r.current.value] == s.redo;
  }

  /**
   * The 50-entry cap holds only for pushes: with 49 snapshots and one redo entry, an
   * update the validator rejects still pushes a snapshot and keeps the redo entry,
   * and the redo that follows leaves 51 snapshots.
   */
  lemma {:induction false} RedoPassesCap(s: State, field: string, value: string, now: Timestamp)
    requires s.current.Some? && |s.undo| == UndoLimit - 1 && |s.redo| == 1
    ensures var rejected := UpdateSpec(s, field, value, true, false, now).0;
      !UpdateSpec(s, field, value, true, false, now).1 && |rejected.undo| == UndoLimit && rejected.redo == s.redo
      && |RedoSpec(rejected).0.undo| == UndoLimit + 1
  {
  }

  /** An update the validator rejects still leaves a snapshot on the undo stack. */
  lemma {:induction false} RejectedUpdateStillSnapshots(s: State, field: string, value: string, now: Timestamp)
    requires s.current.Some?
    ensures var r := UpdateSpec(s, field, value, true, false, now);
      !r.1 && r.0.current == s.current && r.0.redo == s.redo && r.0.modified == s.modified
      && |r.0.undo| > 0 && r.0.undo[|r.0.undo| - 1] == Copy(s.current.value)
  {
  }

  /** `has_unsaved_changes()`. */
  predicate HasUnsavedChanges(s: State)
  {
    |s.modified| > 0
  }

  /** An accepted update leaves unsaved changes and nothing to redo; undoing it brings back a copy of the character before it. */
  lemma {:induction false} UndoAfterUpdate(s: State, field: string, value: string, validate: bool, passes: bool, now: Timestamp)
    requires s.current.Some? && (!validate || passes)
    ensures var u := UpdateSpec(s, field, value, validate, passes, now).0;
      HasUnsavedChanges(u) && u.redo == [] && UndoSpec(u).0.current == Some(Copy(s.current.value))
  {
    var u := UpdateSpec(s, field, value, validate, passes, now).0;
    assert field in u.modified;
  }

  // ---------------------------------------------------------------- auto-save recovery

  /** An auto-save file `auto_save_<id>.json`: the stem of its name and its `st_mtime`. */
  datatype AutoSave = AutoSave(stem: string, mtime: int)

  /**
   * `max(auto_saves, key=...)` with the modification time as the key: the newest
   * file, the first one listed among files equally new.
   */
  function Latest(saves: seq<AutoSave>): (r: AutoSave)
    requires |saves| > 0
    ensures r in saves
    ensures forall a :: a in saves ==> a.mtime <= r.mtime
    ensures exists i :: 0 <= i < |saves| && saves[i] == r && forall j :: 0 <= j < i ==> saves[j].mtime < r.mtime
  {
    var i := LatestAt(saves);
    assert forall a :: a in saves ==> exists j :: 0 <= j < |saves| && saves[j] == a;
    saves[i]
  }

  /** The position of `Latest`: no earlier file is as new, and no file is newer. */
  function LatestAt(saves: seq<AutoSave>): (i: nat)
    requires |saves| > 0
    ensures i < |saves|
    ensures forall j :: 0 <= j < |saves| ==> saves[j].mtime <= saves[i].mtime
    ensures forall j :: 0 <= j < i ==> saves[j].mtime < saves[i].mtime
    decreases |saves|
  {
    if |saves| == 1 then 0
    else
      var k := LatestAt(saves[..|saves| - 1]);
      assert saves[k] == saves[..|saves| - 1][k];
      if saves[|saves| - 1].mtime > saves[k].mtime then |saves| - 1 else k
  }

  /** The character id `recover_auto_save` is asked for: the file's stem without `auto_save_`. */
  function AutoSaveId(a: AutoSave): string
  {
    Strings.Replace(a.stem, "auto_save_", "")
  }

  /** What `p.stat().mtime` raises: `stat()` gives an `os.stat_result`, whose field is `st_mtime`. */
  const MtimeError := E.Raised("AttributeError", "'os.stat_result' object has no attribute 'mtime'")

  /** What announcing a recovery raises: the manager has no `ui_manager`. */
  const UiManagerError := E.Raised("AttributeError", "'CharacterStateManager' object has no attribute 'ui_manager'")

  /**
   * `initialize()` as written: `saves` is what listing the auto-saves gave. `max`
   * calls its key on every file, the first one included, so any auto-save makes it
   * raise before `recover_auto_save` is asked: the state never changes, and the
   * exception is handled as a warning.
   */
  function InitializeAsWritten(s: State, saves: Result<seq<AutoSave>, E.Raised>): (r: (State, Option<E.Raised>))
    ensures r.0 == s
  {
    if s.current.Some? then (s, None)
    else match saves
      case Failure(e) => (s, Some(e))
      case Success(files) => if |files| == 0 then (s, None) else (s, Some(MtimeError))
  }

  /**
   * `initialize()` with the key reading `st_mtime`: the newest auto-save is asked for,
   * and `recover` is what `recover_auto_save` answers for an id. A recovered
   * character becomes current and is marked modified under `"*"`; announcing it then
   * raises the `ui_manager` error. The exception raised, if any, is returned.
   */
  function InitializeSpec(s: State, saves: Result<seq<AutoSave>, E.Raised>,
                          recover: string -> Result<Option<Character>, E.Raised>): (State, Option<E.Raised>)
  {
    if s.current.Some? then (s, None)
    else match saves
      case Failure(e) => (s, Some(e))
      case Success(files) =>
        if |files| == 0 then (s, None)
        else match recover(AutoSaveId(Latest(files)))
          case Failure(e) => (s, Some(e))
          case Success(None) => (s, None)
          case Success(Some(c)) => (s.(current := Some(c), modified := s.modified + {"*"}), Some(UiManagerError))
  }

  /**
   * As written, nothing is ever recovered: with no character loaded, an auto-save
   * that the fixed key would recover is lost to the `AttributeError`, while the
   * fixed key makes that character current and marks it modified.
   */
  lemma {:induction false} AutoSaveNeverRecoveredAsWritten(s: State, files: seq<AutoSave>,
                                                         recover: string -> Result<Option<Character>, E.Raised>,
                                                         c: Character)
    requires s.current.None? && |files| > 0
    requires recover(AutoSaveId(Latest(files))) == Success(Some(c))
    ensures InitializeAsWritten(s, Success(files)) == (s, Some(MtimeError))
    ensures InitializeSpec(s, Success(files), recover).0.current == Some(c)
    ensures "*" in InitializeSpec(s, Success(files), recover).0.modified
  {
  }

  /**
   * With the fixed key, the character recovered is the one saved in the newest
   * auto-save, and only a loaded character or an empty or failed listing or
   * recovery leaves the state as it was.
   */
  lemma {:induction false} RecoversNewest(s: State, files: seq<AutoSave>,
                                         recover: string -> Result<Option<Character>, E.Raised>)
    requires s.current.None? && |files| > 0
    ensures var (r, raised) := InitializeSpec(s, Success(files), recover);
      var newest := Latest(files);
      && (r != s <==> recover(AutoSaveId(newest)).Success? && recover(AutoSaveId(newest)).value.Some?)
      && (r != s ==> r.current == recover(AutoSaveId(newest)).value && raised == Some(UiManagerError))
      && (forall a :: a in files ==> a.mtime <= newest.mtime)
  {
    var newest := Latest(files);
    var answer := recover(AutoSaveId(newest));
    if answer.Success? && answer.value.Some? {
      assert InitializeSpec(s, Success(files), recover).0.current != s.current;
    }
  }

  /** The state manager of the character being edited. */
  class CharacterStateManager {
    var current: Option<Character>
    /** `_modified_fields`. */
    var modified: set<string>
    /** `_last_saved`. */
    var lastSaved: Option<Timestamp>
    /** `_undo_stack`, oldest first. */
    var undo: seq<Character>
    /** `_redo_stack`, oldest first. */
    var redo: seq<Character>
    const validation: V.ValidationService
    const errors: E.ErrorHandler

    function Current(): State
      reads this
    {
      State(current, modified, lastSaved, undo, redo)
    }

    constructor(validation: V.ValidationService, errors: E.ErrorHandler)
      ensures Current() == Cleared
      ensures this.validation == validation && this.errors == errors
    {
      current, modified, lastSaved, undo, redo := None, {}, None, [], [];
      this.validation, this.errors := validation, errors;
    }

    /** `_clear_current_state()`. */
    method ClearCurrentState()
      modifies this
      ensures Current() == Cleared
    {
      current, modified, lastSaved, undo, redo := None, {}, None, [], [];
    }

    /** `_push_undo_state()`: a copy of the current character on top; the oldest entries are dropped, one at a time, while there are more than 50. */
    method PushUndoState()
      modifies this
      ensures current.Some? ==> undo == PushedUndo(old(undo), current.value)
      ensures current.None? ==> undo == old(undo)
      ensures current == old(current) && modified == old(modified) && lastSaved == old(lastSaved) && redo == old(redo)
    {
      if current.Some? {
        undo := undo + [Copy(current.value)];
        ghost var full := undo;
        while |undo| > UndoLimit
          invariant 0 <= |full| - |undo| && undo == full[|full| - |undo|..]
          invariant |undo| >= UndoLimit || undo == full
          invariant current == old(current) && modified == old(modified) && lastSaved == old(lastSaved) && redo == old(redo)
          invariant current.Some? && full == old(undo) + [Copy(current.value)]
          decreases |undo|
        {
          undo := undo[1..];
        }
      }
    }

    /** `has_unsaved_changes()`. */
    method HasUnsaved() returns (b: bool)
      ensures b == HasUnsavedChanges(Current())
    {
      b := |modified| > 0;
    }

    /** `can_undo()`. */
    method CanUndo() returns (b: bool)
      ensures b <==> |undo| > 0
    {
      b := |undo| > 0;
    }

    /** `can_redo()`. */
    method CanRedo() returns (b: bool)
      ensures b <==> |redo| > 0
    {
      b := |redo| > 0;
    }

    /**
     * `update_field(field, value, validate)`: with no character, the `StateError` is
     * handled and the result is false; otherwise a snapshot is pushed, the value
     * validated, and only an accepted value is written and stamped.
     */
    method UpdateField(field: string, value: string, validate: bool, now: Timestamp, trace: string) returns (ok: bool)
      modifies this, errors
      ensures (Current(), ok)
           == UpdateSpec(old(Current()), field, value, validate,
                         V.Check(V.Lookup(validation.validators, field), field, Str(value)).isValid, now)
      ensures old(current).None? ==>
        && |errors.history| == |old(errors.history)| + 1
        && errors.history[..|old(errors.history)|] == old(errors.history)
        && errors.history[|old(errors.history)|].errorType == "StateError"
        && errors.history[|old(errors.history)|].message == "No character loaded"
        && errors.history[|old(errors.history)|].category == E.State
      ensures old(current).Some? ==> errors.history == old(errors.history)
    {
      if current.None? {
        var info := errors.HandleError(E.Raised("StateError", "No character loaded"), E.State, E.Error,
                                       map["operation" := Str("update_field"), "field" := Str(field)], now, trace);
        return false;
      }
      ok := UpdateLoaded(field, value, validate, now);
    }

    /** `update_field` once a character is loaded: everything after the `StateError` check. */
    method UpdateLoaded(field: string, value: string, validate: bool, now: Timestamp) returns (ok: bool)
      requires current.Some?
      modifies this
      ensures (Current(), ok)
           == UpdateSpec(old(Current()), field, value, validate,
                         V.Check(V.Lookup(validation.validators, field), field, Str(value)).isValid, now)
    {
      PushUndoState();
      if validate {
        var result := validation.ValidateField(field, Str(value));
        if !result.isValid {
          return false;
        }
      }
      current := Some(current.value[field := Str(value)]["modified_at" := Str(now)]);
      modified := modified + {field};
      redo := [];
      ok := true;
    }

    /** `undo()`. */
    method Undo() returns (ok: bool)
      modifies this
      ensures (Current(), ok) == UndoSpec(old(Current()))
    {
      if |undo| == 0 {
        return false;
      }
      ghost var before := Current();
      if current.Some? {
        redo := redo + [current.value];
      }
      current := Some(undo[|undo| - 1]);
      undo := undo[..|undo| - 1];
      ok := true;
      assert Current() == UndoSpec(before).0;
    }

    /** `redo()`. */
    method Redo() returns (ok: bool)
      modifies this
      ensures (Current(), ok) == RedoSpec(old(Current()))
    {
      if |redo| == 0 {
        return false;
      }
      ghost var before := Current();
      if current.Some? {
        undo := undo + [current.value];
      }
      current := Some(redo[|redo| - 1]);
      redo := redo[..|redo| - 1];
      ok := true;
      assert Current() == RedoSpec(before).0;
    }

    /**
     * `load_character(id)`: the state is cleared first; `loaded` is what the file
     * service returned or raised. A failure is handled and raised again as
     * `StateError` with the message returned here.
     */
    method LoadCharacter(id: string, loaded: Result<Character, E.Raised>, now: Timestamp, trace: string)
      returns (r: Result<Character, string>)
      modifies this, errors
      ensures loaded.Success? ==> r == Success(loaded.value) && Current() == Cleared.(current := Some(loaded.value), lastSaved := Some(now))
      ensures loaded.Success? ==> errors.history == old(errors.history)
      ensures loaded.Failure? ==> r == Failure("Failed to load character: " + loaded.error.message) && Current() == Cleared
      ensures loaded.Failure? ==>
        && |errors.history| == |old(errors.history)| + 1
        && errors.history[..|old(errors.history)|] == old(errors.history)
        && errors.history[|old(errors.history)|].errorType == loaded.error.className
        && errors.history[|old(errors.history)|].category == E.State
        && errors.history[|old(errors.history)|].level == E.Error
    {
      ClearCurrentState();
      match loaded {
        case Success(c) =>
          current := Some(c);
          lastSaved := Some(now);
          r := Success(c);
        case Failure(e) =>
          var info := errors.HandleError(e, E.State, E.Error,
                                         map["operation" := Str("load_character"), "id" := Str(id)], now, trace);
          r := Failure("Failed to load character: " + e.message);
      }
    }

    /**
     * `save_character(auto_save)`: false with no character; otherwise `failure` is what
     * the file service raised, if anything. A save clears the unsaved changes and
     * records the time; a failed one is handled and changes nothing else.
     */
    method SaveCharacter(autoSave: bool, failure: Option<E.Raised>, now: Timestamp, trace: string) returns (ok: bool)
      modifies this, errors
      ensures ok <==> old(current).Some? && failure.None?
      ensures ok ==> Current() == old(Current()).(modified := {}, lastSaved := Some(now))
      ensures !ok ==> Current() == old(Current())
      ensures ok ==> !HasUnsavedChanges(Current())
      ensures old(current).Some? && failure.Some? ==>
        && |errors.history| == |old(errors.history)| + 1
        && errors.history[..|old(errors.history)|] == old(errors.history)
        && errors.history[|old(errors.history)|].errorType == failure.value.className
      ensures (old(current).None? || failure.None?) ==> errors.history == old(errors.history)
    {
      if current.None? {
        return false;
      }
      if failure.Some? {
        var info := errors.HandleError(failure.value, E.State, E.Error,
                                       map["operation" := Str("save_character"), "auto_save" := Bool(autoSave)], now, trace);
        return false;
      }
      lastSaved := Some(now);
      modified := {};
      ok := true;
    }

    /**
     * `initialize()`, with the key reading `st_mtime` (the key as written raises for
     * every auto-save; see `InitializeAsWritten`): `saves` is what listing the
     * auto-saves gave and `recover` what `recover_auto_save` answers. An exception is
     * handled as a warning.
     */
    method Initialize(saves: Result<seq<AutoSave>, E.Raised>, recover: string -> Result<Option<Character>, E.Raised>,
                      now: Timestamp, trace: string)
      returns (raised: Option<E.Raised>)
      modifies this, errors
      ensures (Current(), raised) == InitializeSpec(old(Current()), saves, recover)
      ensures raised.Some? ==>
        && |errors.history| == |old(errors.history)| + 1
        && errors.history[..|old(errors.history)|] == old(errors.history)
        && errors.history[|old(errors.history)|].level == E.Warning
        && errors.history[|old(errors.history)|].errorType == raised.value.className
      ensures raised.None? ==> errors.history == old(errors.history)
    {
      raised := None;
      if current.Some? {
        return;
      }
      match saves {
        case Failure(e) =>
          raised := Some(e);
        case Success(files) =>
          if |files| > 0 {
            var latest := Latest(files);
            var answer := recover(AutoSaveId(latest));
            match answer {
              case Failure(e) =>
                raised := Some(e);
              case Success(recovered) =>
                if recovered.Some? {
                  current := recovered;
                  modified := modified + {"*"};
                  raised := Some(UiManagerError);
                }
            }
          }
      }
      if raised.Some? {
        var info := errors.HandleError(raised.value, E.State, E.Warning, map["operation" := Str("initialize")], now, trace);
      }
    }
  }
}
