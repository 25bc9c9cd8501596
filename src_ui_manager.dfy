/**
 * `UIStateManager` of the application layer: a `FieldState` record for every
 * character field, the list of expanded fields, the focused field, the current
 * tab, per-tab dictionaries, the theme and the current status message.
 *
 * Every operation that looks a field up catches the `KeyError` of an unknown
 * field and only logs it; the model leaves the state as the failed statement
 * found it. Qt signals, the status timer and logging are not modelled, except
 * for the `TypeError` the status signal raises.
 */
module SrcUIManager {
  import opened Wrappers
  import opened JsonValues
  import opened Lists
  import opened Dicts
  import opened Fields

  datatype UIMode = Compact | Expanded | ReadOnly
  datatype TabType = Editor | Generation | BasePrompts

  /** The members of `TabType`. */
  const AllTabs: set<TabType> := {Editor, Generation, BasePrompts}
  datatype StatusLevel = InfoLevel | WarningLevel | ErrorLevel | SuccessLevel

  datatype FieldState = FieldState(isExpanded: bool, isFocused: bool, mode: UIMode, scrollPosition: int, originalHeight: Option<int>)

  /** `FieldState()`. */
  const DefaultFieldState := FieldState(false, false, Compact, 0, None)

  /** The field bookkeeping: the records, the expanded list in expansion order, and the focused field. */
  datatype Book = Book(states: map<FieldName, FieldState>, expanded: seq<FieldName>, focused: Option<FieldName>)

  /**
   * What the manager keeps true: every field has a record, the expanded list
   * holds exactly the expanded fields once each, and the focused field is the one
   * field whose record says it is focused.
   */
  ghost predicate Valid(b: Book)
  {
    && (forall f :: f in b.states)
    && Distinct(b.expanded)
    && (forall f :: f in b.expanded <==> f in b.states && b.states[f].isExpanded)
    && (forall f :: f in b.states && b.states[f].isFocused <==> b.focused == Some(f))
  }

  /** The bookkeeping `__init__` sets up: a default record for every field, nothing expanded or focused. */
  function Initial(): (b: Book)
    ensures Valid(b)
    ensures forall f :: b.states[f] == DefaultFieldState
  {
    AllFieldsListsEachOnce();
    Book(map f | f in AllFields :: DefaultFieldState, [], None)
  }

  // ---------------------------------------------------------------- expansion

  /** `toggle_field_expansion(f)`. */
  function Toggled(b: Book, f: FieldName): Book
  {
    if f !in b.states then b
    else
      var expand := !b.states[f].isExpanded;
      b.(states := b.states[f := b.states[f].(isExpanded := expand)],
         expanded := if expand then (if f in b.expanded then b.expanded else b.expanded + [f])
                     else if f in b.expanded then RemoveFirst(b.expanded, f) else b.expanded)
  }

  /** Toggling flips the field's `is_expanded`, changes no other record, and keeps the bookkeeping valid. */
  lemma {:induction false} ToggleFlips(b: Book, f: FieldName)
    requires Valid(b)
    ensures Valid(Toggled(b, f))
    ensures Toggled(b, f).states[f] == b.states[f].(isExpanded := !b.states[f].isExpanded)
    ensures forall g :: g != f ==> Toggled(b, f).states[g] == b.states[g]
    ensures f in Toggled(b, f).expanded <==> !b.states[f].isExpanded
  {
    var r := Toggled(b, f);
    if !b.states[f].isExpanded {
      assert f !in b.expanded;
      var e := b.expanded + [f];
      forall i, j | 0 <= i < j < |e| ensures e[i] != e[j] {
        if j == |b.expanded| {
          assert e[i] == b.expanded[i];
        }
      }
    } else {
      RemoveFirstDistinct(b.expanded, f);
    }
  }

  /** Toggling twice gives back the same records and the same expanded fields. */
  lemma {:induction false} ToggleTwice(b: Book, f: FieldName)
    requires Valid(b)
    ensures Toggled(Toggled(b, f), f).states == b.states
    ensures forall g :: g in Toggled(Toggled(b, f), f).expanded <==> g in b.expanded
    ensures Toggled(Toggled(b, f), f).focused == b.focused
  {
    ToggleFlips(b, f);
    ToggleFlips(Toggled(b, f), f);
  }

  // ---------------------------------------------------------------- focus

  /**
   * `set_field_focus(field)`: a different focused field is unfocused first; then
   * `field` becomes the focused field and, when it is a field, is marked focused.
   */
  function FocusSet(b: Book, field: Option<FieldName>): Book
  {
    if b.focused.Some? && b.focused != field && b.focused.value !in b.states then b
    else
      var cleared := if b.focused.Some? && b.focused != field
                     then b.states[b.focused.value := b.states[b.focused.value].(isFocused := false)] else b.states;
      if field.Some? && field.value in cleared then
        b.(states := cleared[field.value := cleared[field.value].(isFocused := true)], focused := field)
      else b.(states := cleared, focused := field)
  }

  /**
   * Focusing makes `field` the focused field: it alone is marked focused, the field
   * focused before is not, and `None` leaves no field focused. The expanded list
   * and every other attribute are untouched.
   */
  lemma {:induction false} FocusMoves(b: Book, field: Option<FieldName>)
    requires Valid(b)
    ensures Valid(FocusSet(b, field))
    ensures FocusSet(b, field).focused == field
    ensures forall g :: FocusSet(b, field).states[g].isFocused <==> field == Some(g)
    ensures forall g :: FocusSet(b, field).states[g] == b.states[g].(isFocused := field == Some(g))
    ensures FocusSet(b, field).expanded == b.expanded
  {
  }

  // ---------------------------------------------------------------- clearing and restoring

  /** `clear_field_states()`: every record back to its defaults, nothing expanded, nothing focused. */
  function Cleared(b: Book): (r: Book)
    ensures r.states.Keys == b.states.Keys && r.expanded == [] && r.focused == None
  {
    Book(map f | f in b.states :: DefaultFieldState, [], None)
  }

  /** Clearing resets every record and leaves valid bookkeeping behind. */
  lemma ClearedIsValid(b: Book)
    requires forall f :: f in b.states
    ensures Valid(Cleared(b))
    ensures forall f :: Cleared(b).states[f] == DefaultFieldState
  {
  }

  /** One entry of `restore_field_states`: a known field takes the given record, is listed when expanded, and takes the focus when focused. */
  function RestoreOne(b: Book, f: FieldName, st: FieldState): Book
  {
    if f !in b.states then b
    else
      b.(states := b.states[f := st],
         expanded := if st.isExpanded && f !in b.expanded then b.expanded + [f] else b.expanded,
         focused := if st.isFocused then Some(f) else b.focused)
  }

  /** `restore_field_states(d)`: the entries of `d` in order. */
  function Restored(b: Book, d: Dict<FieldName, FieldState>): (r: Book)
    ensures r.states.Keys == b.states.Keys
    decreases |d|
  {
    if |d| == 0 then b
    else
      var last := d[|d| - 1];
      RestoreOne(Restored(b, d[..|d| - 1]), last.0, last.1)
  }

  /** The last known field of `d` whose record is focused, if any. */
  function LastFocused(known: set<FieldName>, d: Dict<FieldName, FieldState>): (r: Option<FieldName>)
    ensures r.Some? ==> exists i :: 0 <= i < |d| && d[i].0 == r.value && d[i].0 in known && d[i].1.isFocused
    ensures r.None? ==> forall i :: 0 <= i < |d| && d[i].0 in known ==> !d[i].1.isFocused
    decreases |d|
  {
    if |d| == 0 then None
    else if d[|d| - 1].0 in known && d[|d| - 1].1.isFocused then Some(d[|d| - 1].0)
    else
      var r := LastFocused(known, d[..|d| - 1]);
      assert forall i :: 0 <= i < |d| - 1 ==> d[..|d| - 1][i] == d[i];
      r
  }

  /**
   * Restoring ignores fields the manager has no record of, keeps the expanded list
   * free of repetitions while only adding to its end, lists every restored expanded
   * field, and leaves the focus on the last restored focused field.
   */
  lemma {:induction false} RestoreMeaning(b: Book, d: Dict<FieldName, FieldState>)
    requires Distinct(b.expanded)
    ensures Restored(b, d).states.Keys == b.states.Keys
    ensures Distinct(Restored(b, d).expanded)
    ensures |b.expanded| <= |Restored(b, d).expanded| && Restored(b, d).expanded[..|b.expanded|] == b.expanded
    ensures forall i :: 0 <= i < |d| && d[i].0 in b.states && d[i].1.isExpanded ==> d[i].0 in Restored(b, d).expanded
    ensures Restored(b, d).focused == if LastFocused(b.states.Keys, d).Some? then LastFocused(b.states.Keys, d) else b.focused
    decreases |d|
  {
    if |d| > 0 {
      var init := d[..|d| - 1];
      var (f, st) := d[|d| - 1];
      RestoreMeaning(b, init);
      var p := Restored(b, init);
      assert forall i :: 0 <= i < |d| - 1 ==> init[i] == d[i];
      if f in p.states && st.isExpanded && f !in p.expanded {
        var e := p.expanded + [f];
        forall i, j | 0 <= i < j < |e| ensures e[i] != e[j] {
          if j == |p.expanded| {
            assert e[i] == p.expanded[i];
          }
        }
        assert e[..|b.expanded|] == p.expanded[..|b.expanded|];
      }
    }
  }

  /**
   * Restoring a dictionary into cleared bookkeeping lists exactly the fields whose
   * restored record is expanded: the expanded list and the records agree again.
   */
  lemma {:induction false} RestoreIntoCleared(b: Book, d: Dict<FieldName, FieldState>)
    requires DistinctKeys(d)
    ensures forall f :: f in Restored(Cleared(b), d).expanded
                    <==> f in Restored(Cleared(b), d).states && Restored(Cleared(b), d).states[f].isExpanded
  {
    RestoreKeepsExpandedAgreement(Cleared(b), d);
  }

  lemma {:induction false} RestoreKeepsExpandedAgreement(b: Book, d: Dict<FieldName, FieldState>)
    requires DistinctKeys(d)
    requires forall f :: f in b.expanded <==> f in b.states && b.states[f].isExpanded
    requires forall i :: 0 <= i < |d| && d[i].0 in b.states ==> !b.states[d[i].0].isExpanded
    ensures forall f :: f in Restored(b, d).expanded <==> f in Restored(b, d).states && Restored(b, d).states[f].isExpanded
    ensures forall f :: f in b.states && (forall i :: 0 <= i < |d| ==> d[i].0 != f) ==> Restored(b, d).states[f] == b.states[f]
    decreases |d|
  {
    if |d| > 0 {
      var init := d[..|d| - 1];
      var (f, st) := d[|d| - 1];
      assert forall i :: 0 <= i < |d| - 1 ==> init[i] == d[i];
      assert DistinctKeys(init);
      RestoreKeepsExpandedAgreement(b, init);
      var p := Restored(b, init);
      if f in p.states {
        assert forall i :: 0 <= i < |init| ==> init[i].0 != f;
        assert p.states[f] == b.states[f];
      }
    }
  }

  // ---------------------------------------------------------------- status levels

  /** The level an integer status level stands for: 0 to 3 in order of the mapping, anything else information. */
  function LevelOfCode(code: int): (r: StatusLevel)
  {
    if code == 1 then SuccessLevel
    else if code == 2 then WarningLevel
    else if code == 3 then ErrorLevel
    else InfoLevel
  }

  /** The integer the mapping gives for each level. */
  function CodeOf(level: StatusLevel): (r: int)
    ensures 0 <= r <= 3
  {
    match level
    case InfoLevel => 0
    case SuccessLevel => 1
    case WarningLevel => 2
    case ErrorLevel => 3
  }

  /** Every level has exactly one code among 0 to 3, and any other integer reads as information. */
  lemma LevelCodes(level: StatusLevel, code: int)
    ensures LevelOfCode(CodeOf(level)) == level
    ensures 0 <= code <= 3 ==> CodeOf(LevelOfCode(code)) == code
    ensures !(0 <= code <= 3) ==> LevelOfCode(code) == InfoLevel
  {
  }

  /** A status level argument: a `StatusLevel`, or an integer standing for one. */
  /** The `TypeError` Qt raises when `status_message`, a `(str, int)` signal, is emitted with a `StatusLevel`. */
  const EmitLevelError := "TypeError: status_message.emit(): argument 2 has unexpected type 'StatusLevel'"

  datatype LevelArg = Level(level: StatusLevel) | Code(code: int)

  function Resolved(arg: LevelArg): StatusLevel
  {
    match arg
    case Level(level) => level
    case Code(code) => LevelOfCode(code)
  }

  // ---------------------------------------------------------------- the manager

  class UIStateManager {
    var currentTab: Option<TabType>
    var fieldStates: map<FieldName, FieldState>
    var tabStates: map<TabType, map<string, Json>>
    /** `_expanded_fields`, in the order fields were expanded. */
    var expandedFields: seq<FieldName>
    var focusedField: Option<FieldName>
    var theme: string
    var currentStatus: string
    var currentStatusLevel: StatusLevel

    function Fields(): Book
      reads this
    {
      Book(fieldStates, expandedFields, focusedField)
    }

    /** `__init__`: no tab, an empty dictionary per tab, the light theme, and a default record for every field, made one field at a time. */
    constructor()
      ensures Fields() == Initial()
      ensures currentTab == None && theme == "light" && currentStatus == "" && currentStatusLevel == InfoLevel
      ensures tabStates == map t | t in AllTabs :: map[]
    {
      currentTab := None;
      tabStates := map t | t in AllTabs :: map[];
      expandedFields, focusedField := [], None;
      theme, currentStatus, currentStatusLevel := "light", "", InfoLevel;
      var states: map<FieldName, FieldState> := map[];
      for i := 0 to |AllFields|
        invariant states == map f | f in AllFields[..i] :: DefaultFieldState
      {
        states := states[AllFields[i] := DefaultFieldState];
        assert AllFields[..i + 1] == AllFields[..i] + [AllFields[i]];
      }
      assert AllFields[..|AllFields|] == AllFields;
      fieldStates := states;
    }

    /** `set_current_tab(tab)`: `changed` is whether the change was announced, which happens only for a different tab. */
    method SetCurrentTab(tab: TabType) returns (changed: bool)
      modifies this
      ensures changed <==> old(currentTab) != Some(tab)
      ensures currentTab == Some(tab) && Fields() == old(Fields())
    {
      changed := currentTab != Some(tab);
      if changed {
        currentTab := Some(tab);
      }
    }

    /** `toggle_field_expansion(field)`. */
    method ToggleFieldExpansion(field: FieldName)
      modifies this
      ensures Fields() == Toggled(old(Fields()), field)
      ensures currentTab == old(currentTab) && tabStates == old(tabStates)
    {
      if field !in fieldStates {
        return;
      }
      var newState := !fieldStates[field].isExpanded;
      fieldStates := fieldStates[field := fieldStates[field].(isExpanded := newState)];
      if newState {
        if field !in expandedFields {
          expandedFields := expandedFields + [field];
        }
      } else if field in expandedFields {
        expandedFields := RemoveFirst(expandedFields, field);
      }
    }

    /** `set_field_focus(field)`. */
    method SetFieldFocus(field: Option<FieldName>)
      modifies this
      ensures Fields() == FocusSet(old(Fields()), field)
      ensures currentTab == old(currentTab) && tabStates == old(tabStates)
    {
      if focusedField.Some? && focusedField != field {
        if focusedField.value !in fieldStates {
          return;
        }
        fieldStates := fieldStates[focusedField.value := fieldStates[focusedField.value].(isFocused := false)];
      }
      focusedField := field;
      if field.Some? {
        if field.value !in fieldStates {
          return;
        }
        fieldStates := fieldStates[field.value := fieldStates[field.value].(isFocused := true)];
      }
    }

    /** `set_field_mode(field, mode)`: `changed` is whether the mode changed and was announced. */
    method SetFieldMode(field: FieldName, mode: UIMode) returns (changed: bool)
      modifies this
      ensures changed <==> field in old(fieldStates) && old(fieldStates)[field].mode != mode
      ensures field in old(fieldStates) ==> fieldStates == old(fieldStates)[field := old(fieldStates)[field].(mode := mode)]
      ensures field !in old(fieldStates) ==> fieldStates == old(fieldStates)
      ensures expandedFields == old(expandedFields) && focusedField == old(focusedField)
    {
      changed := false;
      if field !in fieldStates {
        return;
      }
      if fieldStates[field].mode != mode {
        fieldStates := fieldStates[field := fieldStates[field].(mode := mode)];
        changed := true;
      }
    }

    /** `save_field_state(field, scroll_pos, height)`. */
    method SaveFieldState(field: FieldName, scrollPos: int, height: int)
      modifies this
      ensures field in old(fieldStates) ==>
        fieldStates == old(fieldStates)[field := old(fieldStates)[field].(scrollPosition := scrollPos, originalHeight := Some(height))]
      ensures field !in old(fieldStates) ==> fieldStates == old(fieldStates)
      ensures expandedFields == old(expandedFields) && focusedField == old(focusedField)
    {
      if field in fieldStates {
        fieldStates := fieldStates[field := fieldStates[field].(scrollPosition := scrollPos, originalHeight := Some(height))];
      }
    }

    /** `get_field_state(field)`: the record, or a fresh `FieldState()` for an unknown field. */
    method GetFieldState(field: FieldName) returns (r: FieldState)
      ensures field in fieldStates ==> r == fieldStates[field]
      ensures field !in fieldStates ==> r == DefaultFieldState
    {
      r := if field in fieldStates then fieldStates[field] else DefaultFieldState;
    }

    /** `save_tab_state(tab, state)`: the tab's dictionary updated with `state`, whose entries win. */
    method SaveTabState(tab: TabType, state: map<string, Json>)
      modifies this
      ensures tab in old(tabStates) ==> tabStates == old(tabStates)[tab := old(tabStates)[tab] + state]
      ensures tab !in old(tabStates) ==> tabStates == old(tabStates)
      ensures Fields() == old(Fields())
    {
      if tab in tabStates {
        tabStates := tabStates[tab := tabStates[tab] + state];
      }
    }

    /** `get_tab_state(tab)`. */
    method GetTabState(tab: TabType) returns (r: map<string, Json>)
      ensures tab in tabStates ==> r == tabStates[tab]
      ensures tab !in tabStates ==> r == map[]
    {
      r := if tab in tabStates then tabStates[tab] else map[];
    }

    /**
     * `show_status_message(message, level)`: an integer level is read through the
     * mapping, and the message and the level become current. The closing
     * `status_message.emit(message, level)` then always raises: the signal is
     * declared `pyqtSignal(str, int)`, and `level` is by then a `StatusLevel`.
     */
    method ShowStatusMessage(message: string, level: LevelArg) returns (error: Option<string>)
      modifies this
      ensures currentStatus == message && currentStatusLevel == Resolved(level)
      ensures Fields() == old(Fields()) && theme == old(theme) && currentTab == old(currentTab)
      ensures error == Some(EmitLevelError)
    {
      var resolved;
      match level {
        case Code(code) => resolved := LevelOfCode(code);
        case Level(l) => resolved := l;
      }
      currentStatus := message;
      currentStatusLevel := resolved;
      error := Some(EmitLevelError);
    }

    /** `_clear_status()`. */
    method ClearStatus()
      modifies this
      ensures currentStatus == "" && currentStatusLevel == InfoLevel
      ensures Fields() == old(Fields()) && theme == old(theme) && currentTab == old(currentTab)
    {
      currentStatus, currentStatusLevel := "", InfoLevel;
    }

    /** `get_current_status()`. */
    method GetCurrentStatus() returns (message: string, level: StatusLevel)
      ensures message == currentStatus && level == currentStatusLevel
    {
      message, level := currentStatus, currentStatusLevel;
    }

    /** `set_theme(theme)`: `changed` is whether the theme changed and was announced. */
    method SetTheme(newTheme: string) returns (changed: bool)
      modifies this
      ensures changed <==> old(theme) != newTheme
      ensures theme == newTheme && Fields() == old(Fields()) && currentTab == old(currentTab)
    {
      changed := theme != newTheme;
      if changed {
        theme := newTheme;
      }
    }

    /** `request_dialog(dialog_type, parameters)`: the parameters announced, an empty dictionary when none are given. */
    method RequestDialog(dialogType: string, parameters: Option<map<string, Json>>) returns (announced: map<string, Json>)
      ensures announced == if parameters.Some? then parameters.value else map[]
    {
      announced := if parameters.Some? && parameters.value != map[] then parameters.value else map[];
    }

    /** `get_expanded_fields()`. */
    method GetExpandedFields() returns (r: seq<FieldName>)
      ensures r == expandedFields
    {
      r := expandedFields;
    }

    /** `get_focused_field()`. */
    method GetFocusedField() returns (r: Option<FieldName>)
      ensures r == focusedField
    {
      r := focusedField;
    }

    /**
     * `clear_field_states()`: every record is reset in place, one field at a time,
     * then the expanded list and the focus are cleared.
     */
    method ClearFieldStates()
      modifies this
      ensures Fields() == Cleared(old(Fields()))
      ensures currentTab == old(currentTab) && tabStates == old(tabStates)
    {
      for i := 0 to |AllFields|
        invariant fieldStates.Keys == old(fieldStates).Keys
        invariant forall f :: f in fieldStates ==> fieldStates[f] == if f in AllFields[..i] then DefaultFieldState else old(fieldStates)[f]
        invariant currentTab == old(currentTab) && tabStates == old(tabStates)
      {
        var field := AllFields[i];
        if field in fieldStates {
          var state := fieldStates[field];
          if state.isExpanded {
            state := state.(isExpanded := false);
          }
          if state.isFocused {
            state := state.(isFocused := false);
          }
          state := state.(mode := Compact, scrollPosition := 0, originalHeight := None);
          fieldStates := fieldStates[field := state];
        }
        assert AllFields[..i + 1] == AllFields[..i] + [field];
      }
      AllFieldsListsEachOnce();
      assert AllFields[..|AllFields|] == AllFields;
      expandedFields := [];
      focusedField := None;
    }

    /** `restore_field_states(states)`: the entries in dictionary order; records of unknown fields are ignored. */
    method RestoreFieldStates(states: Dict<FieldName, FieldState>)
      modifies this
      ensures Fields() == Restored(old(Fields()), states)
      ensures currentTab == old(currentTab) && tabStates == old(tabStates)
    {
      for i := 0 to |states|
        invariant Fields() == Restored(old(Fields()), states[..i])
        invariant currentTab == old(currentTab) && tabStates == old(tabStates)
      {
        var (field, state) := states[i];
        assert states[..i + 1][..i] == states[..i];
        if field in fieldStates {
          fieldStates := fieldStates[field := state];
          if state.isExpanded {
            if field !in expandedFields {
              expandedFields := expandedFields + [field];
            }
          }
          if state.isFocused {
            focusedField := Some(field);
          }
        }
      }
      assert states[..|states|] == states;
    }
  }
}
