/**
 * `UIStateManager` of the state layer: the current tab, a `FieldState` record per
 * field name, the list of expanded fields, the focused field, a stack of open
 * dialogs, the status message and the loading flag.
 *
 * `set_field_state` writes a `FieldState` with `setattr` for every update key that
 * `hasattr` accepts, whatever the value, so each attribute holds any JSON value.
 * Truth tests on update values follow Python's truth value. The clock, the
 * traceback text and the interpreter's `TypeError` message are parameters; Qt
 * signals and the operation stack are not modelled.
 */
module CoreUIState {
  import opened Wrappers
  import opened IsoTime
  import opened JsonValues
  import opened Lists
  import E = CoreErrors

  datatype TabType = EditorTab | GenerationTab | SettingsTab | PreviewTab
  datatype DialogType = SaveDialog | LoadDialog | ExportDialog | SettingsDialog | ConfirmationDialog | ErrorDialog
  datatype StatusLevel = InfoLevel | SuccessLevel | WarningLevel | ErrorLevel

  /** A `FieldState` record; `setattr` may store any value in any of its attributes. */
  datatype FieldState = FieldState(
    content: Json, isModified: Json, isValid: Json, validationMessage: Json, isGenerating: Json,
    isFocused: Json, isExpanded: Json, scrollPosition: Json, lastModified: Json)

  /** The attribute names of the `FieldState` dataclass, as `hasattr` accepts them. */
  const FieldStateAttributes: set<string> := {
    "content", "is_modified", "is_valid", "validation_message", "is_generating",
    "is_focused", "is_expanded", "scroll_position", "last_modified"}

  /** `FieldState()`. */
  const DefaultFieldState := FieldState(Str(""), Bool(false), Bool(true), Str(""), Bool(false), Bool(false), Bool(false), Int(0), Null)

  /** A dialog request; its callback is not modelled. */
  datatype DialogInfo = DialogInfo(dialogType: DialogType, title: string, message: string, data: map<string, Json>)

  datatype StatusInfo = StatusInfo(message: string, level: StatusLevel, timestamp: Timestamp, duration: int)

  datatype UIState = UIState(
    currentTab: TabType,
    fieldStates: map<string, FieldState>,
    expandedFields: seq<string>,
    focusedField: Option<string>,
    dialogStack: seq<DialogInfo>,
    statusMessage: Option<StatusInfo>,
    isLoading: bool)

  /** `UIState()`. */
  const Initial := UIState(EditorTab, map[], [], None, [], None, false)

  // ---------------------------------------------------------------- field states

  /** `getattr(fs, key)` for an attribute of the record; `None` where `hasattr` is false. */
  function Attr(fs: FieldState, key: string): (r: Option<Json>)
    ensures r.Some? <==> key in FieldStateAttributes
  {
    if key == "content" then Some(fs.content)
    else if key == "is_modified" then Some(fs.isModified)
    else if key == "is_valid" then Some(fs.isValid)
    else if key == "validation_message" then Some(fs.validationMessage)
    else if key == "is_generating" then Some(fs.isGenerating)
    else if key == "is_focused" then Some(fs.isFocused)
    else if key == "is_expanded" then Some(fs.isExpanded)
    else if key == "scroll_position" then Some(fs.scrollPosition)
    else if key == "last_modified" then Some(fs.lastModified)
    else None
  }

  /** `if hasattr(fs, key): setattr(fs, key, value)`. */
  function SetAttr(fs: FieldState, key: string, value: Json): FieldState
  {
    if key == "content" then fs.(content := value)
    else if key == "is_modified" then fs.(isModified := value)
    else if key == "is_valid" then fs.(isValid := value)
    else if key == "validation_message" then fs.(validationMessage := value)
    else if key == "is_generating" then fs.(isGenerating := value)
    else if key == "is_focused" then fs.(isFocused := value)
    else if key == "is_expanded" then fs.(isExpanded := value)
    else if key == "scroll_position" then fs.(scrollPosition := value)
    else if key == "last_modified" then fs.(lastModified := value)
    else fs
  }

  /** The value `updates` gives `key`, or `current` when it gives none. */
  function Pick(updates: map<string, Json>, key: string, current: Json): Json
  {
    if key in updates then updates[key] else current
  }

  /** `fs` after the `setattr` loop of `set_field_state` over `updates`. */
  function Assigned(fs: FieldState, updates: map<string, Json>): FieldState
  {
    FieldState(
      Pick(updates, "content", fs.content), Pick(updates, "is_modified", fs.isModified),
      Pick(updates, "is_valid", fs.isValid), Pick(updates, "validation_message", fs.validationMessage),
      Pick(updates, "is_generating", fs.isGenerating), Pick(updates, "is_focused", fs.isFocused),
      Pick(updates, "is_expanded", fs.isExpanded), Pick(updates, "scroll_position", fs.scrollPosition),
      Pick(updates, "last_modified", fs.lastModified))
  }

  /** After the `setattr` loop, an attribute holds its update when there is one and its old value otherwise; other keys are not stored. */
  lemma AssignedMeaning(fs: FieldState, updates: map<string, Json>, key: string)
    ensures Attr(Assigned(fs, updates), key)
         == if key in updates && key in FieldStateAttributes then Some(updates[key]) else Attr(fs, key)
  {
  }

  /** Writing one more key after the others is the loop over the larger dictionary, whatever the order of the keys. */
  lemma SetAttrExtends(fs: FieldState, updates: map<string, Json>, key: string, value: Json)
    ensures SetAttr(Assigned(fs, updates), key, value) == Assigned(fs, updates[key := value])
  {
    var u := updates[key := value];
    if key == "content" {
      assert Assigned(fs, u) == Assigned(fs, updates).(content := value);
    } else if key == "is_modified" {
      assert Assigned(fs, u) == Assigned(fs, updates).(isModified := value);
    } else if key == "is_valid" {
      assert Assigned(fs, u) == Assigned(fs, updates).(isValid := value);
    } else if key == "validation_message" {
      assert Assigned(fs, u) == Assigned(fs, updates).(validationMessage := value);
    } else if key == "is_generating" {
      assert Assigned(fs, u) == Assigned(fs, updates).(isGenerating := value);
    } else if key == "is_focused" {
      assert Assigned(fs, u) == Assigned(fs, updates).(isFocused := value);
    } else if key == "is_expanded" {
      assert Assigned(fs, u) == Assigned(fs, updates).(isExpanded := value);
    } else if key == "scroll_position" {
      assert Assigned(fs, u) == Assigned(fs, updates).(scrollPosition := value);
    } else if key == "last_modified" {
      assert Assigned(fs, u) == Assigned(fs, updates).(lastModified := value);
    } else {
      assert Assigned(fs, u) == Assigned(fs, updates);
    }
  }

  /** The state of `field`, or a fresh `FieldState()` for a field never seen. */
  function StateOf(states: map<string, FieldState>, field: string): FieldState
  {
    if field in states then states[field] else DefaultFieldState
  }

  /** Whether `field` has a state whose `is_expanded` holds a true value. */
  predicate Expanded(states: map<string, FieldState>, field: string)
  {
    field in states && Truthy(states[field].isExpanded)
  }

  /** Whether `field` has a state whose `is_focused` holds a true value. */
  predicate Focused(states: map<string, FieldState>, field: string)
  {
    field in states && Truthy(states[field].isFocused)
  }

  /** The expanded list after the `is_expanded` handling of `set_field_state`. */
  function ExpandedAfter(expanded: seq<string>, field: string, updates: map<string, Json>): seq<string>
  {
    if "is_expanded" !in updates then expanded
    else if Truthy(updates["is_expanded"]) then (if field in expanded then expanded else expanded + [field])
    else if field in expanded then RemoveFirst(expanded, field)
    else expanded
  }

  /** A `content` update stamps the field and marks it modified. */
  function Stamped(fs: FieldState, updates: map<string, Json>, now: Timestamp): FieldState
  {
    if "content" in updates then fs.(lastModified := Str(now), isModified := Bool(true)) else fs
  }

  /** The attribute writes and the `is_expanded` handling of `set_field_state`. */
  function Written(s: UIState, field: string, updates: map<string, Json>): (r: UIState)
    ensures field in r.fieldStates && r.fieldStates.Keys == s.fieldStates.Keys + {field}
  {
    s.(fieldStates := s.fieldStates[field := Assigned(StateOf(s.fieldStates, field), updates)],
       expandedFields := ExpandedAfter(s.expandedFields, field, updates))
  }

  /** What `_clear_focus(g)` leaves: `g` marked not focused, and no focused field if it was `g`. */
  function Unfocused(s: UIState, g: string): (r: UIState)
    ensures r.fieldStates.Keys == s.fieldStates.Keys + {g} && r.expandedFields == s.expandedFields
  {
    s.(fieldStates := s.fieldStates[g := StateOf(s.fieldStates, g).(isFocused := Bool(false))],
       focusedField := if s.focusedField == Some(g) then None else s.focusedField)
  }

  /**
   * The `is_focused` handling of `set_field_state`: focusing a field first clears
   * the previously focused one, when that one has a non-empty name.
   */
  function Refocused(s: UIState, field: string, updates: map<string, Json>): (r: UIState)
    requires field in s.fieldStates
    ensures field in r.fieldStates && r.fieldStates[field] == s.fieldStates[field]
    ensures s.fieldStates.Keys <= r.fieldStates.Keys && r.expandedFields == s.expandedFields
    ensures forall g :: g in r.fieldStates ==> g in s.fieldStates || s.focusedField == Some(g)
  {
    if "is_focused" !in updates then s
    else if Truthy(updates["is_focused"]) then
      var prev := s.focusedField;
      var cleared := if prev.Some? && prev.value != "" && prev.value != field then Unfocused(s, prev.value) else s;
      cleared.(focusedField := Some(field))
    else if s.focusedField == Some(field) then s.(focusedField := None)
    else s
  }

  /** `set_field_state(field, updates)` on state `s` at time `now`. */
  function FieldStateSet(s: UIState, field: string, updates: map<string, Json>, now: Timestamp): (r: UIState)
    ensures s.fieldStates.Keys + {field} <= r.fieldStates.Keys
    ensures forall g :: g in r.fieldStates ==> g in s.fieldStates || g == field || s.focusedField == Some(g)
    ensures r.currentTab == s.currentTab && r.dialogStack == s.dialogStack
    ensures r.statusMessage == s.statusMessage && r.isLoading == s.isLoading
  {
    var focused := Refocused(Written(s, field, updates), field, updates);
    focused.(fieldStates := focused.fieldStates[field := Stamped(focused.fieldStates[field], updates, now)])
  }

  /** The nested `set_field_state(g, {'is_focused': False})` of `_clear_focus` is `Unfocused`. */
  lemma ClearFocusUnfocuses(s: UIState, g: string, now: Timestamp)
    ensures FieldStateSet(s, g, map["is_focused" := Bool(false)], now) == Unfocused(s, g)
  {
    var clear: map<string, Json> := map["is_focused" := Bool(false)];
    assert Assigned(StateOf(s.fieldStates, g), clear) == StateOf(s.fieldStates, g).(isFocused := Bool(false));
  }

  /**
   * The bookkeeping `set_field_state` keeps: the expanded list holds each expanded
   * field once, and the focused field is the one field whose state says it is
   * focused.
   */
  ghost predicate Valid(s: UIState)
  {
    && Distinct(s.expandedFields)
    && (forall f :: f in s.expandedFields <==> Expanded(s.fieldStates, f))
    && (forall f :: Focused(s.fieldStates, f) <==> s.focusedField == Some(f))
    && s.focusedField != Some("")
  }

  lemma InitialValid()
    ensures Valid(Initial)
  {
  }

  /** Under `Valid`, at most one field's state says it is focused. */
  lemma AtMostOneFocused(s: UIState, f: string, g: string)
    requires Valid(s)
    requires Focused(s.fieldStates, f) && Focused(s.fieldStates, g)
    ensures f == g
  {
  }

  /** Whether `set_field_state(field, updates)` on `s` moves the focus away from another, non-empty named, field `g`. */
  predicate MovesFocusFrom(s: UIState, field: string, updates: map<string, Json>, g: string)
  {
    "is_focused" in updates && Truthy(updates["is_focused"]) && s.focusedField == Some(g) && g != "" && g != field
  }

  /**
   * The record of `field` afterwards: its earlier state, or `FieldState()` for a
   * new field, with every update that names an attribute written over it, and
   * stamped when the content changed.
   */
  lemma FieldStateEntry(s: UIState, field: string, updates: map<string, Json>, now: Timestamp)
    ensures field in FieldStateSet(s, field, updates, now).fieldStates
    ensures FieldStateSet(s, field, updates, now).fieldStates[field]
         == Stamped(Assigned(StateOf(s.fieldStates, field), updates), updates, now)
  {
  }

  /**
   * A field seen for the first time starts from `FieldState()`: every attribute the
   * update does not write keeps its default, every attribute it writes holds the
   * update, and keys that name no attribute are not stored.
   */
  lemma {:induction false} NewFieldStartsDefault(s: UIState, field: string, updates: map<string, Json>, now: Timestamp, key: string)
    requires field !in s.fieldStates
    requires !("content" in updates && (key == "last_modified" || key == "is_modified"))
    ensures Attr(FieldStateSet(s, field, updates, now).fieldStates[field], key)
         == if key in updates && key in FieldStateAttributes then Some(updates[key]) else Attr(DefaultFieldState, key)
  {
    FieldStateEntry(s, field, updates, now);
    var fs := Assigned(DefaultFieldState, updates);
    AssignedMeaning(DefaultFieldState, updates, key);
    assert Attr(Stamped(fs, updates, now), key) == Attr(fs, key);
  }

  /** A field other than the one updated keeps its state, unless a focus move clears it. */
  lemma {:induction false} OtherFieldKept(s: UIState, field: string, updates: map<string, Json>, now: Timestamp, g: string)
    requires g != field && g in s.fieldStates && !MovesFocusFrom(s, field, updates, g)
    ensures FieldStateSet(s, field, updates, now).fieldStates[g] == s.fieldStates[g]
  {
    var w := Written(s, field, updates);
    assert w.fieldStates[g] == s.fieldStates[g] && w.focusedField == s.focusedField;
  }

  /** The entries of `updates` that name a `FieldState` attribute. */
  function Settable(updates: map<string, Json>): (r: map<string, Json>)
    ensures forall k :: k in r <==> k in updates && k in FieldStateAttributes
    ensures forall k :: k in r ==> r[k] == updates[k]
  {
    map k | k in updates && k in FieldStateAttributes :: updates[k]
  }

  /** Update keys that name no attribute of a `FieldState` change nothing. */
  lemma {:induction false} UnknownKeysIgnored(s: UIState, field: string, updates: map<string, Json>, now: Timestamp)
    ensures FieldStateSet(s, field, updates, now) == FieldStateSet(s, field, Settable(updates), now)
  {
    var u := Settable(updates);
    assert ("is_expanded" in u <==> "is_expanded" in updates) && ("is_focused" in u <==> "is_focused" in updates);
    assert "content" in u <==> "content" in updates;
    assert Assigned(StateOf(s.fieldStates, field), u) == Assigned(StateOf(s.fieldStates, field), updates);
    assert Written(s, field, u) == Written(s, field, updates);
    assert Refocused(Written(s, field, u), field, u) == Refocused(Written(s, field, u), field, updates);
  }

  lemma {:induction false} ExpandedAfterMeaning(expanded: seq<string>, field: string, updates: map<string, Json>)
    requires Distinct(expanded)
    ensures Distinct(ExpandedAfter(expanded, field, updates))
    ensures "is_expanded" in updates ==> (field in ExpandedAfter(expanded, field, updates) <==> Truthy(updates["is_expanded"]))
    ensures "is_expanded" !in updates ==> (field in ExpandedAfter(expanded, field, updates) <==> field in expanded)
    ensures forall g :: g != field ==> (g in ExpandedAfter(expanded, field, updates) <==> g in expanded)
  {
    if "is_expanded" in updates {
      if Truthy(updates["is_expanded"]) {
        if field !in expanded {
          var r := expanded + [field];
          forall i, j | 0 <= i < j < |r| ensures r[i] != r[j] {
            if j == |expanded| {
              assert r[i] == expanded[i];
            }
          }
        }
      } else if field in expanded {
        RemoveFirstDistinct(expanded, field);
      }
    }
  }

  /**
   * After an `is_expanded` update, the expanded list holds `field` exactly when the
   * value is true, holds every other field as before, and lists nothing twice.
   */
  lemma {:induction false} ExpandedTracksLastUpdate(s: UIState, field: string, updates: map<string, Json>, now: Timestamp)
    requires "is_expanded" in updates && Distinct(s.expandedFields)
    ensures field in FieldStateSet(s, field, updates, now).expandedFields <==> Truthy(updates["is_expanded"])
    ensures forall g :: g != field ==> (g in FieldStateSet(s, field, updates, now).expandedFields <==> g in s.expandedFields)
    ensures Distinct(FieldStateSet(s, field, updates, now).expandedFields)
  {
    ExpandedAfterMeaning(s.expandedFields, field, updates);
  }

  /**
   * Focusing a field makes it the focused field; the field focused before, when it
   * has a non-empty name and is another field, keeps its record but for being
   * marked not focused.
   */
  lemma {:induction false} FocusMovesOn(s: UIState, field: string, updates: map<string, Json>, now: Timestamp)
    requires "is_focused" in updates && Truthy(updates["is_focused"])
    ensures FieldStateSet(s, field, updates, now).focusedField == Some(field)
    ensures forall g :: MovesFocusFrom(s, field, updates, g) ==>
      FieldStateSet(s, field, updates, now).fieldStates[g] == StateOf(s.fieldStates, g).(isFocused := Bool(false))
  {
    var w := Written(s, field, updates);
    assert w.focusedField == s.focusedField;
    forall g | MovesFocusFrom(s, field, updates, g)
      ensures FieldStateSet(s, field, updates, now).fieldStates[g] == StateOf(s.fieldStates, g).(isFocused := Bool(false))
    {
      assert StateOf(w.fieldStates, g) == StateOf(s.fieldStates, g);
    }
  }

  /** Unfocusing the focused field leaves no field focused; unfocusing another field leaves the focus where it was. */
  lemma {:induction false} UnfocusClears(s: UIState, field: string, updates: map<string, Json>, now: Timestamp)
    requires "is_focused" in updates && !Truthy(updates["is_focused"])
    ensures FieldStateSet(s, field, updates, now).focusedField
         == if s.focusedField == Some(field) then None else s.focusedField
  {
    assert Written(s, field, updates).focusedField == s.focusedField;
  }

  /** A `content` update stores the new content, marks the field modified and stamps it with the time of the update. */
  lemma {:induction false} ContentMarksModified(s: UIState, field: string, updates: map<string, Json>, now: Timestamp)
    requires "content" in updates
    ensures field in FieldStateSet(s, field, updates, now).fieldStates
    ensures FieldStateSet(s, field, updates, now).fieldStates[field].content == updates["content"]
    ensures FieldStateSet(s, field, updates, now).fieldStates[field].isModified == Bool(true)
    ensures FieldStateSet(s, field, updates, now).fieldStates[field].lastModified == Str(now)
  {
    FieldStateEntry(s, field, updates, now);
  }

  /** The record of `g` after `set_field_state`: the updated one, a cleared previous focus, or one kept as it was. */
  ghost predicate RecordAfter(s: UIState, field: string, updates: map<string, Json>, now: Timestamp, states: map<string, FieldState>, g: string)
    requires g in states
  {
    states[g] == if g == field then Stamped(Assigned(StateOf(s.fieldStates, field), updates), updates, now)
                 else if MovesFocusFrom(s, field, updates, g) then StateOf(s.fieldStates, g).(isFocused := Bool(false))
                 else StateOf(s.fieldStates, g)
  }

  lemma {:induction false} RecordsAfter(s: UIState, field: string, updates: map<string, Json>, now: Timestamp, g: string)
    requires g in FieldStateSet(s, field, updates, now).fieldStates
    ensures RecordAfter(s, field, updates, now, FieldStateSet(s, field, updates, now).fieldStates, g)
  {
    if g == field {
      FieldStateEntry(s, field, updates, now);
    } else if MovesFocusFrom(s, field, updates, g) {
      FocusMovesOn(s, field, updates, now);
    } else {
      OtherFieldKept(s, field, updates, now, g);
    }
  }

  /** `set_field_state` keeps the bookkeeping valid, for a field with a non-empty name. */
  lemma {:induction false} SetFieldStateKeepsValid(s: UIState, field: string, updates: map<string, Json>, now: Timestamp)
    requires Valid(s) && field != ""
    ensures Valid(FieldStateSet(s, field, updates, now))
  {
    KeepsExpanded(s, field, updates, now);
    KeepsFocus(s, field, updates, now);
  }

  lemma {:induction false} KeepsExpanded(s: UIState, field: string, updates: map<string, Json>, now: Timestamp)
    requires Valid(s)
    ensures Distinct(FieldStateSet(s, field, updates, now).expandedFields)
    ensures forall f :: f in FieldStateSet(s, field, updates, now).expandedFields
                    <==> Expanded(FieldStateSet(s, field, updates, now).fieldStates, f)
  {
    var r := FieldStateSet(s, field, updates, now);
    ExpandedAfterMeaning(s.expandedFields, field, updates);
    assert r.expandedFields == ExpandedAfter(s.expandedFields, field, updates);
    forall f ensures f in r.expandedFields <==> Expanded(r.fieldStates, f) {
      if f in r.fieldStates {
        RecordsAfter(s, field, updates, now, f);
        if f != field {
          assert f in s.fieldStates || MovesFocusFrom(s, field, updates, f);
          assert r.fieldStates[f].isExpanded == StateOf(s.fieldStates, f).isExpanded;
        }
      }
    }
  }

  lemma {:induction false} KeepsFocus(s: UIState, field: string, updates: map<string, Json>, now: Timestamp)
    requires Valid(s) && field != ""
    ensures forall f :: Focused(FieldStateSet(s, field, updates, now).fieldStates, f)
                    <==> FieldStateSet(s, field, updates, now).focusedField == Some(f)
    ensures FieldStateSet(s, field, updates, now).focusedField != Some("")
  {
    var r := FieldStateSet(s, field, updates, now);
    var moved := "is_focused" in updates && Truthy(updates["is_focused"]);
    if moved {
      FocusMovesOn(s, field, updates, now);
    } else {
      UnfocusFocus(s, field, updates, now);
    }
    forall f ensures Focused(r.fieldStates, f) <==> r.focusedField == Some(f) {
      if f in r.fieldStates {
        RecordsAfter(s, field, updates, now, f);
      }
    }
  }

  /** Without a focus move, the focused field is the one before, or none once `field` is unfocused. */
  lemma {:induction false} UnfocusFocus(s: UIState, field: string, updates: map<string, Json>, now: Timestamp)
    requires !("is_focused" in updates && Truthy(updates["is_focused"]))
    ensures FieldStateSet(s, field, updates, now).focusedField
         == if "is_focused" in updates && s.focusedField == Some(field) then None else s.focusedField
  {
    assert Written(s, field, updates).focusedField == s.focusedField;
  }

  /**
   * A field named by the empty text is not unfocused when another field takes the
   * focus, because `set_field_state` tests the focused name for truth: both fields
   * then say they are focused.
   */
  lemma EmptyNameKeepsFocus(now: Timestamp)
    ensures var s := FieldStateSet(FieldStateSet(Initial, "", map["is_focused" := Bool(true)], now),
                                   "name", map["is_focused" := Bool(true)], now);
            Focused(s.fieldStates, "") && Focused(s.fieldStates, "name")
  {
    var focus: map<string, Json> := map["is_focused" := Bool(true)];
    var s1 := FieldStateSet(Initial, "", focus, now);
    FieldStateEntry(Initial, "", focus, now);
    FocusMovesOn(Initial, "", focus, now);
    assert !MovesFocusFrom(s1, "name", focus, "");
    OtherFieldKept(s1, "name", focus, now, "");
    FieldStateEntry(s1, "name", focus, now);
  }

  // ---------------------------------------------------------------- dialogs

  /** The dialogs not of type `t`, in stack order. */
  function Without(stack: seq<DialogInfo>, t: DialogType): (r: seq<DialogInfo>)
    ensures forall d :: d in r <==> d in stack && d.dialogType != t
    ensures |r| <= |stack|
    ensures Subsequence(r, stack)
  {
    if |stack| == 0 then []
    else
      var rest := Without(stack[1..], t);
      assert forall d :: d in stack <==> d == stack[0] || d in stack[1..];
      if stack[0].dialogType == t then rest else [stack[0]] + rest
  }

  /**
   * `close_dialog(t)`: the new stack and the type announced as closed. An empty
   * stack is left alone; with no type the top dialog is popped; with a type every
   * dialog of that type is removed.
   */
  function Closed(stack: seq<DialogInfo>, t: Option<DialogType>): (r: (seq<DialogInfo>, Option<DialogType>))
    ensures |stack| == 0 ==> r == (stack, None)
    ensures |stack| > 0 && t.None? ==> r == (stack[..|stack| - 1], Some(stack[|stack| - 1].dialogType))
    ensures |stack| > 0 && t.Some? ==> r.1 == t && forall d :: d in r.0 <==> d in stack && d.dialogType != t.value
  {
    if |stack| == 0 then (stack, None)
    else if t.Some? then (Without(stack, t.value), t)
    else (stack[..|stack| - 1], Some(stack[|stack| - 1].dialogType))
  }

  /** Closing the top dialog undoes showing it. */
  lemma ShowThenClose(stack: seq<DialogInfo>, d: DialogInfo)
    ensures Closed(stack + [d], None) == (stack, Some(d.dialogType))
  {
    assert (stack + [d])[..|stack|] == stack;
  }

  /** Closing by type keeps the other dialogs in their order, and closing the same type again changes nothing. */
  lemma {:induction false} CloseByTypeKeepsOthers(stack: seq<DialogInfo>, t: DialogType)
    ensures Without(stack, t) == stack <==> forall d :: d in stack ==> d.dialogType != t
    ensures Without(Without(stack, t), t) == Without(stack, t)
    decreases |stack|
  {
    if |stack| > 0 {
      CloseByTypeKeepsOthers(stack[1..], t);
      if stack[0].dialogType != t {
        assert ([stack[0]] + Without(stack[1..], t))[1..] == Without(stack[1..], t);
      } else {
        assert |Without(stack, t)| < |stack|;
      }
    }
  }

  // ---------------------------------------------------------------- character state changes

  /** What `handle_character_state_change(key, value)` does. */
  datatype Reaction = Ignored | UpdateField(field: string, content: Json) | Raise(error: E.Raised)

  /**
   * The reaction to a character state change: only `field_updated` is handled,
   * by reading `value['field']` and then `value['value']`. A value that cannot be
   * indexed by a text raises `TypeError` with the interpreter's message
   * `typeErrorText`; a missing key raises `KeyError`.
   */
  function ReactionTo(key: string, value: Json, typeErrorText: string): (r: Reaction)
    ensures r.UpdateField? <==>
      key == "field_updated" && value.Obj? && "field" in value.entries && "value" in value.entries
      && value.entries["field"].Str?
    ensures r.UpdateField? ==> r.field == value.entries["field"].s && r.content == value.entries["value"]
    ensures r.Raise? <==> key == "field_updated" && (!value.Obj? || "field" !in value.entries || "value" !in value.entries)
    ensures r.Raise? && value.Obj? ==> r.error.className == "KeyError"
  {
    if key != "field_updated" then Ignored
    else if !value.Obj? then Raise(E.Raised("TypeError", typeErrorText))
    else if "field" !in value.entries then Raise(E.Raised("KeyError", "'field'"))
    else if "value" !in value.entries then Raise(E.Raised("KeyError", "'value'"))
    else if !value.entries["field"].Str? then Ignored
    else UpdateField(value.entries["field"].s, value.entries["value"])
  }

  /** A field update from the character state marks the field modified with the new content. */
  lemma CharacterUpdateMarksModified(s: UIState, field: string, content: Json, now: Timestamp)
    ensures FieldStateSet(s, field, map["content" := content, "is_modified" := Bool(true)], now).fieldStates[field].content == content
    ensures FieldStateSet(s, field, map["content" := content, "is_modified" := Bool(true)], now).fieldStates[field].isModified == Bool(true)
  {
    ContentMarksModified(s, field, map["content" := content, "is_modified" := Bool(true)], now);
  }

  // ---------------------------------------------------------------- the manager

  class UIStateManager {
    var currentTab: TabType
    var fieldStates: map<string, FieldState>
    /** `expanded_fields`, in the order fields were expanded. */
    var expandedFields: seq<string>
    var focusedField: Option<string>
    /** `dialog_stack`, bottom first. */
    var dialogStack: seq<DialogInfo>
    var statusMessage: Option<StatusInfo>
    var isLoading: bool
    const errors: E.ErrorHandler

    function State(): UIState
      reads this
    {
      UIState(currentTab, fieldStates, expandedFields, focusedField, dialogStack, statusMessage, isLoading)
    }

    constructor(errors: E.ErrorHandler)
      ensures State() == Initial && this.errors == errors
    {
      currentTab, fieldStates, expandedFields, focusedField := EditorTab, map[], [], None;
      dialogStack, statusMessage, isLoading := [], None, false;
      this.errors := errors;
    }

    /** `switch_tab(tab)`: `changed` is whether the change was announced, which happens only for a different tab. */
    method SwitchTab(tab: TabType) returns (changed: bool)
      modifies this
      ensures changed <==> old(currentTab) != tab
      ensures State() == old(State()).(currentTab := tab)
    {
      changed := tab != currentTab;
      if changed {
        currentTab := tab;
      }
    }

    /** `set_field_state(field, updates)`. */
    method SetFieldState(field: string, updates: map<string, Json>, now: Timestamp)
      modifies this
      ensures State() == FieldStateSet(old(State()), field, updates, now)
      decreases if "is_focused" in updates && Truthy(updates["is_focused"]) then 1 else 0, 3
    {
      ghost var before := State();
      var fs := WriteAttributes(if field in fieldStates then fieldStates[field] else DefaultFieldState, updates);
      fieldStates := fieldStates[field := fs];
      UpdateExpanded(field, updates);
      ghost var written := State();
      assert written == Written(before, field, updates);
      UpdateFocus(field, updates, now);
      ghost var focused := State();
      assert focused == Refocused(Written(before, field, updates), field, updates);
      if "content" in updates {
        fieldStates := fieldStates[field := fieldStates[field].(lastModified := Str(now), isModified := Bool(true))];
      }
      assert State() == focused.(fieldStates := focused.fieldStates[field := Stamped(focused.fieldStates[field], updates, now)]);
      assert State() == FieldStateSet(before, field, updates, now);
    }

    /** The `setattr` loop of `set_field_state`: each update key the record has as an attribute is written, in no particular order. */
    static method WriteAttributes(fs: FieldState, updates: map<string, Json>) returns (r: FieldState)
      ensures r == Assigned(fs, updates)
    {
      r := fs;
      var keys := updates.Keys;
      while keys != {}
        invariant keys <= updates.Keys
        invariant r == Assigned(fs, map k | k in updates.Keys - keys :: updates[k])
        decreases |keys|
      {
        var k :| k in keys;
        ghost var done := map k | k in updates.Keys - keys :: updates[k];
        SetAttrExtends(fs, done, k, updates[k]);
        r := SetAttr(r, k, updates[k]);
        keys := keys - {k};
        assert done[k := updates[k]] == map k | k in updates.Keys - keys :: updates[k];
      }
      assert updates == map k | k in updates.Keys - keys :: updates[k];
    }

    /** The `is_expanded` handling of `set_field_state`. */
    method UpdateExpanded(field: string, updates: map<string, Json>)
      modifies this
      ensures State() == old(State()).(expandedFields := ExpandedAfter(old(expandedFields), field, updates))
    {
      if "is_expanded" in updates {
        if Truthy(updates["is_expanded"]) {
          if field !in expandedFields {
            expandedFields := expandedFields + [field];
          }
        } else if field in expandedFields {
          expandedFields := RemoveFirst(expandedFields, field);
        }
      }
    }

    /** The `is_focused` handling of `set_field_state`. */
    method UpdateFocus(field: string, updates: map<string, Json>, now: Timestamp)
      requires field in fieldStates
      modifies this
      ensures State() == Refocused(old(State()), field, updates)
      decreases if "is_focused" in updates && Truthy(updates["is_focused"]) then 1 else 0, 2
    {
      if "is_focused" in updates {
        if Truthy(updates["is_focused"]) {
          if focusedField.Some? && focusedField.value != "" && focusedField.value != field {
            ClearFocusUnfocuses(State(), focusedField.value, now);
            ClearFocus(focusedField.value, now);
          }
          focusedField := Some(field);
        } else if focusedField == Some(field) {
          focusedField := None;
        }
      }
    }

    /** `_clear_focus(field)`. */
    method ClearFocus(field: string, now: Timestamp)
      modifies this
      ensures State() == FieldStateSet(old(State()), field, map["is_focused" := Bool(false)], now)
      decreases 0, 4
    {
      SetFieldState(field, map["is_focused" := Bool(false)], now);
    }

    /** `show_dialog(info)`. */
    method ShowDialog(info: DialogInfo)
      modifies this
      ensures State() == old(State()).(dialogStack := old(dialogStack) + [info])
    {
      dialogStack := dialogStack + [info];
    }

    /** `close_dialog(t)`: `closed` is the type announced as closed, if any. */
    method CloseDialog(t: Option<DialogType>) returns (closed: Option<DialogType>)
      modifies this
      ensures (dialogStack, closed) == Closed(old(dialogStack), t)
      ensures State() == old(State()).(dialogStack := dialogStack)
    {
      if |dialogStack| == 0 {
        return None;
      }
      if t.Some? {
        dialogStack := Without(dialogStack, t.value);
        closed := t;
      } else {
        closed := Some(dialogStack[|dialogStack| - 1].dialogType);
        dialogStack := dialogStack[..|dialogStack| - 1];
      }
    }

    /** `show_status(message, level, duration)`, stamped with the time of the call. */
    method ShowStatus(message: string, level: StatusLevel, duration: int, now: Timestamp)
      modifies this
      ensures State() == old(State()).(statusMessage := Some(StatusInfo(message, level, now, duration)))
    {
      statusMessage := Some(StatusInfo(message, level, now, duration));
    }

    /** `set_loading(loading)`: `changed` is whether the change was announced, which happens only for a different value. */
    method SetLoading(loading: bool) returns (changed: bool)
      modifies this
      ensures changed <==> old(isLoading) != loading
      ensures State() == old(State()).(isLoading := loading)
    {
      changed := isLoading != loading;
      if changed {
        isLoading := loading;
      }
    }

    /**
     * `handle_character_state_change(key, value)`: a field update becomes a
     * `set_field_state` with the new content marked modified; a malformed one is
     * handled as a UI error.
     */
    method HandleCharacterStateChange(key: string, value: Json, typeErrorText: string, now: Timestamp, trace: string)
      modifies this, errors
      ensures ReactionTo(key, value, typeErrorText).UpdateField? ==>
        State() == FieldStateSet(old(State()), ReactionTo(key, value, typeErrorText).field,
                                 map["content" := ReactionTo(key, value, typeErrorText).content, "is_modified" := Bool(true)], now)
      ensures !ReactionTo(key, value, typeErrorText).UpdateField? ==> State() == old(State())
      ensures ReactionTo(key, value, typeErrorText).Raise? ==>
        && |errors.history| == |old(errors.history)| + 1
        && errors.history[..|old(errors.history)|] == old(errors.history)
        && errors.history[|old(errors.history)|].errorType == ReactionTo(key, value, typeErrorText).error.className
        && errors.history[|old(errors.history)|].category == E.UI
        && errors.history[|old(errors.history)|].level == E.Error
      ensures !ReactionTo(key, value, typeErrorText).Raise? ==> errors.history == old(errors.history)
    {
      match ReactionTo(key, value, typeErrorText) {
        case Ignored =>
        case UpdateField(field, content) =>
          SetFieldState(field, map["content" := content, "is_modified" := Bool(true)], now);
        case Raise(e) =>
          var info := errors.HandleError(e, E.UI, E.Error, map["operation" := Str("handle_character_state_change")], now, trace);
      }
    }

    /** `get_field_state(field)`. */
    method GetFieldState(field: string) returns (r: Option<FieldState>)
      ensures r.Some? <==> field in fieldStates
      ensures r.Some? ==> r.value == fieldStates[field]
    {
      r := if field in fieldStates then Some(fieldStates[field]) else None;
    }
  }
}
