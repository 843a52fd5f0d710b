/** The pure part of src/hooks/useListbox.ts: the seven-field state, the three actions and
    the reducer, with the consistency the reducer keeps between the state and the option
    registry. */
module ListboxReducer {
  import opened Wrappers
  import opened OptionRecord
  import opened JsArrays
  import opened Dispatches

  /** The multi-select accumulator, keyed by option value. */
  type SelectedValues = map<string, Item>

  datatype State = State(
    focusedId: string, focusedIndex: int, focusedValue: string,
    selectedId: string, selectedIndex: int, selectedValue: string,
    selectedValues: SelectedValues)

  const InitialState := State("", -1, "", "", -1, "", map[])

  datatype ActionType = FocusOption | SelectOption | MultiSelectOption

  /** The focus fields read as an option record. */
  function FocusedItem(s: State): Item
  {
    Item(s.focusedId, s.focusedIndex, s.focusedValue)
  }

  /** The single-selection fields read as an option record. */
  function SelectedItem(s: State): Item
  {
    Item(s.selectedId, s.selectedIndex, s.selectedValue)
  }

  /** The multi-select update: `payload.value` leaves the map if it was there, and enters it
      mapped to the payload if it was not; no other key changes. */
  function Toggle(m: SelectedValues, o: Item): (r: SelectedValues)
    ensures o.value in r <==> o.value !in m
    ensures o.value in r ==> r[o.value] == o
    ensures forall v :: v != o.value ==> (v in r <==> v in m)
    ensures forall v :: v != o.value && v in r ==> r[v] == m[v]
  {
    var next := m[o.value := o];
    if o.value in m then next - {o.value} else next
  }

  /** `reducer(state, action)` */
  function Reduce(s: State, a: Action<ActionType>): State
  {
    var o := a.payload;
    match a.kind
    case FocusOption => s.(focusedId := o.id, focusedIndex := o.index, focusedValue := o.value)
    case SelectOption => s.(selectedId := o.id, selectedIndex := o.index, selectedValue := o.value)
    case MultiSelectOption =>
      s.(selectedId := o.id, selectedIndex := o.index, selectedValues := Toggle(s.selectedValues, o))
  }

  /** FOCUS_OPTION moves the focus fields to the payload and leaves every selection field,
      `selectedValues` included, as it was. */
  lemma FocusOnlyFocuses(s: State, o: Item)
    ensures FocusedItem(Reduce(s, Action(FocusOption, o))) == o
    ensures SelectedItem(Reduce(s, Action(FocusOption, o))) == SelectedItem(s)
    ensures Reduce(s, Action(FocusOption, o)).selectedValues == s.selectedValues
  {
  }

  /** SELECT_OPTION moves the single-selection fields to the payload and leaves the focus
      fields and `selectedValues` as they were. */
  lemma SelectOnlySelects(s: State, o: Item)
    ensures SelectedItem(Reduce(s, Action(SelectOption, o))) == o
    ensures FocusedItem(Reduce(s, Action(SelectOption, o))) == FocusedItem(s)
    ensures Reduce(s, Action(SelectOption, o)).selectedValues == s.selectedValues
  {
  }

  /** MULTI_SELECT_OPTION toggles `payload.value` in `selectedValues`, moves `selectedId` and
      `selectedIndex` (but not `selectedValue`) to the payload, and leaves the focus as it was. */
  lemma MultiSelectToggles(s: State, o: Item)
    ensures var r := Reduce(s, Action(MultiSelectOption, o));
      && r.selectedValues == Toggle(s.selectedValues, o)
      && r.selectedId == o.id && r.selectedIndex == o.index && r.selectedValue == s.selectedValue
      && FocusedItem(r) == FocusedItem(s)
  {
  }

  /** Toggling a value that is not selected twice gives back the map it started from. */
  lemma ToggleTwiceRestores(m: SelectedValues, o: Item)
    requires o.value !in m
    ensures Toggle(Toggle(m, o), o) == m
  {
    var once := Toggle(m, o);
    assert once == m[o.value := o];
    assert once - {o.value} == m;
  }

  /** Toggling a selected value twice keeps it selected, now mapped to the latest payload. */
  lemma ToggleTwiceReplaces(m: SelectedValues, o: Item)
    requires o.value in m
    ensures Toggle(Toggle(m, o), o) == m[o.value := o]
  {
    var once := Toggle(m, o);
    assert once == m - {o.value};
    assert once[o.value := o] == m[o.value := o];
  }

  /** The state after the dispatched actions are processed in order. */
  function Replay(s: State, actions: seq<Action<ActionType>>): State
  {
    if actions == [] then s
    else Reduce(Replay(s, actions[..|actions| - 1]), actions[|actions| - 1])
  }

  /** Processing two batches in turn is processing their concatenation. */
  lemma {:induction false} ReplayAppend(s: State, first: seq<Action<ActionType>>, second: seq<Action<ActionType>>)
    ensures Replay(s, first + second) == Replay(Replay(s, first), second)
    decreases |second|
  {
    if second == [] {
      assert first + second == first;
    } else {
      var last := |second| - 1;
      assert (first + second)[..|first + second| - 1] == first + second[..last];
      ReplayAppend(s, first, second[..last]);
    }
  }

  /** FOCUS_OPTION followed by SELECT_OPTION of the same option: both the focus and the
      single selection are that option; `selectedValues` is unchanged. */
  lemma FocusThenSelect(s: State, o: Item)
    ensures var r := Replay(s, [Action(FocusOption, o), Action(SelectOption, o)]);
      FocusedItem(r) == o && SelectedItem(r) == o && r.selectedValues == s.selectedValues
  {
    var focus, select := Action(FocusOption, o), Action(SelectOption, o);
    assert [focus, select][..1] == [focus];
    assert [focus][..0] == [];
    assert Replay(s, [focus]) == Reduce(s, focus);
    assert Replay(s, [focus, select]) == Reduce(Reduce(s, focus), select);
  }

  /** FOCUS_OPTION followed by MULTI_SELECT_OPTION of the same option: the focus is that
      option and its value is toggled in `selectedValues`. */
  lemma FocusThenToggle(s: State, o: Item)
    ensures var r := Replay(s, [Action(FocusOption, o), Action(MultiSelectOption, o)]);
      FocusedItem(r) == o && r.selectedValues == Toggle(s.selectedValues, o)
      && r.selectedId == o.id && r.selectedIndex == o.index && r.selectedValue == s.selectedValue
  {
    var focus, toggle := Action(FocusOption, o), Action(MultiSelectOption, o);
    assert [focus, toggle][..1] == [focus];
    assert [focus][..0] == [];
    assert Replay(s, [focus]) == Reduce(s, focus);
    assert Replay(s, [focus, toggle]) == Reduce(Reduce(s, focus), toggle);
  }

  /** A lone FOCUS_OPTION. */
  lemma FocusAlone(s: State, o: Item)
    ensures var r := Replay(s, [Action(FocusOption, o)]);
      FocusedItem(r) == o && SelectedItem(r) == SelectedItem(s) && r.selectedValues == s.selectedValues
  {
    assert [Action(FocusOption, o)][..0] == [];
  }

  /** The action's payload is the record the registry holds at the payload's own index. */
  predicate FromRegistry(a: Action<ActionType>, options: JsArray<Item>)
  {
    options.Get(a.payload.index) == Some(a.payload)
  }

  /** The state agrees with the registry: the focus fields are empty or name the record at
      `focusedIndex`; `selectedId`/`selectedIndex` are empty or name the record at
      `selectedIndex`; in single-select mode `selectedValue` belongs to that record too; every
      entry of `selectedValues` is a registry record filed under its own value. */
  ghost predicate Consistent(s: State, options: JsArray<Item>, multiSelect: bool)
  {
    && (FocusedItem(s) == Blank || options.Get(s.focusedIndex) == Some(FocusedItem(s)))
    && ((s.selectedId == "" && s.selectedIndex == -1)
        || (options.Get(s.selectedIndex).Some? && options.Get(s.selectedIndex).value.id == s.selectedId
            && options.Get(s.selectedIndex).value.index == s.selectedIndex))
    && (!multiSelect ==> SelectedItem(s) == Blank || options.Get(s.selectedIndex) == Some(SelectedItem(s)))
    && (forall v :: v in s.selectedValues ==>
          s.selectedValues[v].value == v && options.Get(s.selectedValues[v].index) == Some(s.selectedValues[v]))
  }

  lemma InitialConsistent(options: JsArray<Item>, multiSelect: bool)
    ensures Consistent(InitialState, options, multiSelect)
  {
  }

  /** Every action whose payload comes from the registry keeps the state consistent with it;
      in single-select mode this holds as long as no MULTI_SELECT_OPTION is dispatched. */
  lemma {:induction false} ReplayKeepsConsistent(s: State, actions: seq<Action<ActionType>>, options: JsArray<Item>, multiSelect: bool)
    requires Consistent(s, options, multiSelect)
    requires forall k :: 0 <= k < |actions| ==> FromRegistry(actions[k], options)
    requires !multiSelect ==> forall k :: 0 <= k < |actions| ==> actions[k].kind != MultiSelectOption
    ensures Consistent(Replay(s, actions), options, multiSelect)
    decreases |actions|
  {
    if actions != [] {
      var prefix := actions[..|actions| - 1];
      ReplayKeepsConsistent(s, prefix, options, multiSelect);
      var before := Replay(s, prefix);
      var a := actions[|actions| - 1];
      var after := Reduce(before, a);
      if a.kind == MultiSelectOption {
        forall v | v in after.selectedValues
          ensures after.selectedValues[v].value == v
          ensures options.Get(after.selectedValues[v].index) == Some(after.selectedValues[v])
        {
          if v != a.payload.value {
            assert after.selectedValues[v] == before.selectedValues[v];
          }
        }
      }
    }
  }
}
