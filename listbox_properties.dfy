/** What src/hooks/useListbox.ts promises its callers: the keyboard transition table, the
    first focus, the notifications after each render, the consistency of the committed state
    with the option registry, and the ARIA projection. */
module ListboxProperties {
  import opened Wrappers
  import opened OptionRecord
  import opened JsArrays
  import opened ListboxReducer
  import opened Utils
  import opened ListboxHook
  import opened Dispatches
  import OptionRegistry

  /** The state a render commits after a handler's dispatches. */
  function After(s: State, dispatched: seq<Dispatched<ActionType>>): State
    requires AllDefined(dispatched)
  {
    Replay(s, Actions(dispatched))
  }

  /** Moving to a defined option focuses it; single-select also selects it, multi-select
      leaves every selection field alone. */
  lemma MoveToFocuses(s: State, o: Item, multiSelect: bool)
    ensures AllDefined(MoveTo(Some(o), multiSelect))
    ensures var r := After(s, MoveTo(Some(o), multiSelect));
      && FocusedItem(r) == o && r.selectedValues == s.selectedValues
      && (multiSelect ==> SelectedItem(r) == SelectedItem(s))
      && (!multiSelect ==> SelectedItem(r) == o)
  {
    if multiSelect {
      assert Actions(MoveTo(Some(o), true)) == [Action(FocusOption, o)];
      FocusAlone(s, o);
    } else {
      assert Actions(MoveTo(Some(o), false)) == [Action(FocusOption, o), Action(SelectOption, o)];
      FocusThenSelect(s, o);
    }
  }

  /** Home and End focus and select the first and the last option, in both modes. */
  lemma FocusAndSelectBoth(s: State, o: Item)
    ensures AllDefined(FocusAndSelect(Some(o)))
    ensures var r := After(s, FocusAndSelect(Some(o)));
      FocusedItem(r) == o && SelectedItem(r) == o && r.selectedValues == s.selectedValues
  {
    assert Actions(FocusAndSelect(Some(o))) == [Action(FocusOption, o), Action(SelectOption, o)];
    FocusThenSelect(s, o);
  }

  /** Only Tab is let through to the browser; every other key has its default prevented. */
  lemma OnlyTabPassesThrough(s: State, options: JsArray<Item>, multiSelect: bool, key: int)
    ensures KeyDownDispatches(s, options, multiSelect, key).Ok? ==>
              (KeyDownDispatches(s, options, multiSelect, key).value.prevented <==> key != TAB)
    ensures key == TAB ==> KeyDownDispatches(s, options, multiSelect, key) == Ok(Handled(false, []))
  {
    ListboxKeyCodes();
  }

  /** Arrow Down moves the focus to the next slot, selecting it in single-select mode; before
      the first focus (index -1) that is option 0. */
  lemma ArrowDownMovesByOne(s: State, options: JsArray<Item>, multiSelect: bool)
    requires OptionRegistry.Indexed(options)
    requires s.focusedIndex != options.Length() - 1
    requires options.Get(s.focusedIndex + 1).Some?
    ensures KeyDownDispatches(s, options, multiSelect, DOWN).Ok?
    ensures var h := KeyDownDispatches(s, options, multiSelect, DOWN).value;
      && h.prevented && AllDefined(h.dispatched)
      && After(s, h.dispatched).focusedIndex == s.focusedIndex + 1
      && After(s, h.dispatched).selectedValues == s.selectedValues
      && (multiSelect ==> SelectedItem(After(s, h.dispatched)) == SelectedItem(s))
      && (!multiSelect ==> After(s, h.dispatched).selectedIndex == s.focusedIndex + 1)
  {
    ListboxKeyCodes();
    MoveToFocuses(s, options.Get(s.focusedIndex + 1).value, multiSelect);
  }

  /** Arrow Up moves the focus to the previous slot, selecting it in single-select mode. */
  lemma ArrowUpMovesByOne(s: State, options: JsArray<Item>, multiSelect: bool)
    requires OptionRegistry.Indexed(options)
    requires s.focusedIndex > 0
    requires options.Get(s.focusedIndex - 1).Some?
    ensures KeyDownDispatches(s, options, multiSelect, UP).Ok?
    ensures var h := KeyDownDispatches(s, options, multiSelect, UP).value;
      && h.prevented && AllDefined(h.dispatched)
      && After(s, h.dispatched).focusedIndex == s.focusedIndex - 1
      && After(s, h.dispatched).selectedValues == s.selectedValues
      && (multiSelect ==> SelectedItem(After(s, h.dispatched)) == SelectedItem(s))
      && (!multiSelect ==> After(s, h.dispatched).selectedIndex == s.focusedIndex - 1)
  {
    ListboxKeyCodes();
    MoveToFocuses(s, options.Get(s.focusedIndex - 1).value, multiSelect);
  }

  /** The arrows stop at the ends: Up at index 0 or before the first focus, Down on the last
      slot; the key's default is still prevented and the state is unchanged. */
  lemma ArrowsStopAtEnds(s: State, options: JsArray<Item>, multiSelect: bool)
    ensures s.focusedIndex <= 0 ==> KeyDownDispatches(s, options, multiSelect, UP) == Ok(Handled(true, []))
    ensures s.focusedIndex == options.Length() - 1 ==>
              KeyDownDispatches(s, options, multiSelect, DOWN) == Ok(Handled(true, []))
    ensures After(s, []) == s
  {
    ListboxKeyCodes();
    assert Actions<ActionType>([]) == [];
  }

  /** An arrow towards a slot no option has written throws before dispatching. */
  lemma ArrowIntoHoleThrows(s: State, options: JsArray<Item>, multiSelect: bool)
    ensures s.focusedIndex != options.Length() - 1 && options.Get(s.focusedIndex + 1).None? ==>
              KeyDownDispatches(s, options, multiSelect, DOWN) == Err(ElementRefUndefined)
    ensures s.focusedIndex > 0 && options.Get(s.focusedIndex - 1).None? ==>
              KeyDownDispatches(s, options, multiSelect, UP) == Err(ElementRefUndefined)
  {
    ListboxKeyCodes();
  }

  /** Home and End focus and select the first and the last slot, also in multi-select mode. */
  lemma HomeAndEnd(s: State, options: JsArray<Item>, multiSelect: bool)
    requires options.Length() > 0
    requires options.Get(0).Some? && options.Get(options.Length() - 1).Some?
    ensures var h := KeyDownDispatches(s, options, multiSelect, HOME);
      h.Ok? && h.value.prevented && AllDefined(h.value.dispatched) &&
      FocusedItem(After(s, h.value.dispatched)) == options.Get(0).value &&
      SelectedItem(After(s, h.value.dispatched)) == options.Get(0).value
    ensures var h := KeyDownDispatches(s, options, multiSelect, END);
      h.Ok? && h.value.prevented && AllDefined(h.value.dispatched) &&
      FocusedItem(After(s, h.value.dispatched)) == options.Get(options.Length() - 1).value &&
      SelectedItem(After(s, h.value.dispatched)) == options.Get(options.Length() - 1).value
  {
    ListboxKeyCodes();
    FocusAndSelectBoth(s, options.Get(0).value);
    FocusAndSelectBoth(s, options.Get(options.Length() - 1).value);
  }

  /** Return on the focused option: single-select refocuses it and changes nothing else;
      multi-select toggles it in `selectedValues` and points `selectedId`/`selectedIndex` at it. */
  lemma ReturnOnFocused(s: State, options: JsArray<Item>, multiSelect: bool, o: Item)
    requires options.Get(s.focusedIndex) == Some(o) && FocusedItem(s) == o
    ensures var h := KeyDownDispatches(s, options, multiSelect, RETURN);
      h.Ok? && h.value.prevented && AllDefined(h.value.dispatched) &&
      (!multiSelect ==> After(s, h.value.dispatched) == s) &&
      (multiSelect ==> After(s, h.value.dispatched) ==
                         s.(selectedId := o.id, selectedIndex := o.index, selectedValues := Toggle(s.selectedValues, o)))
  {
    ListboxKeyCodes();
    if multiSelect {
      assert Actions([Dispatched(FocusOption, Some(o)), Dispatched(MultiSelectOption, Some(o))])
          == [Action(FocusOption, o), Action(MultiSelectOption, o)];
      FocusThenToggle(s, o);
    } else {
      assert Actions([Dispatched(FocusOption, Some(o))]) == [Action(FocusOption, o)];
      FocusAlone(s, o);
    }
  }

  /** The first focus lands on option 0 (selecting it in single-select mode); once an option
      with a non-empty value is focused, focusing the list dispatches nothing. */
  lemma FirstFocus(s: State, options: JsArray<Item>, multiSelect: bool)
    ensures FocusDispatches(s, options, multiSelect) == [] <==> s.focusedValue != ""
    ensures s.focusedValue == "" && options.Get(0).Some? ==>
              var r := After(s, FocusDispatches(s, options, multiSelect));
              FocusedItem(r) == options.Get(0).value &&
              (!multiSelect ==> SelectedItem(r) == options.Get(0).value) &&
              (multiSelect ==> SelectedItem(r) == SelectedItem(s))
  {
    if s.focusedValue == "" && options.Get(0).Some? {
      MoveToFocuses(s, options.Get(0).value, multiSelect);
    }
  }

  /** On mount multi-select reports the empty selection and single-select reports nothing. */
  lemma MountNotifies(options: JsArray<Item>, multiSelect: bool)
    ensures Effects(None, InitialState, options, multiSelect, false) ==
              (if multiSelect then [OnSelectMany(map[])] else [])
  {
  }

  /** The render after the first focus: single-select reports option 0 to `onSelect` and then
      to `onChange`; multi-select reports it to `onChange` only. */
  lemma FirstFocusNotifies(options: JsArray<Item>, multiSelect: bool, o: Item)
    requires options.Get(0) == Some(o) && o.index == 0
    ensures var next := After(InitialState, FocusDispatches(InitialState, options, multiSelect));
      Effects(Some(InitialState), next, options, multiSelect, false) ==
        (if multiSelect then [OnChange(Some(o))] else [OnSelect(Some(o)), OnChange(Some(o))])
  {
    MoveToFocuses(InitialState, o, multiSelect);
  }

  /** In single-select mode, moving to another option reports it to `onSelect` and then to
      `onChange`. */
  lemma SingleMoveNotifies(s: State, options: JsArray<Item>, o: Item)
    requires options.Get(o.index) == Some(o) && o.index > -1
    requires s.focusedIndex != o.index && s.selectedIndex != o.index
    ensures Effects(Some(s), After(s, FocusAndSelect(Some(o))), options, false, false) ==
              [OnSelect(Some(o)), OnChange(Some(o))]
  {
    FocusAndSelectBoth(s, o);
  }

  /** In multi-select mode Return reports the toggled map to `onSelect` and, the focus not
      having moved, nothing to `onChange`. */
  lemma MultiReturnNotifies(s: State, options: JsArray<Item>, o: Item)
    requires options.Get(s.focusedIndex) == Some(o) && FocusedItem(s) == o
    ensures KeyDownDispatches(s, options, true, RETURN).Ok?
    ensures var h := KeyDownDispatches(s, options, true, RETURN).value;
      AllDefined(h.dispatched) &&
      Effects(Some(s), After(s, h.dispatched), options, true, false) == [OnSelectMany(Toggle(s.selectedValues, o))]
  {
    ReturnOnFocused(s, options, true, o);
    var next := s.(selectedId := o.id, selectedIndex := o.index, selectedValues := Toggle(s.selectedValues, o));
    assert (o.value in next.selectedValues) != (o.value in s.selectedValues);
  }

  /** Every defined payload in the queue is the record the registry holds at its index. */
  predicate QueueFromRegistry(queue: seq<Dispatched<ActionType>>, options: JsArray<Item>)
  {
    forall k :: 0 <= k < |queue| && queue[k].payload.Some? ==>
      options.Get(queue[k].payload.value.index) == queue[k].payload
  }

  /** Single-select mode never queues MULTI_SELECT_OPTION. */
  predicate KindsFitMode(queue: seq<Dispatched<ActionType>>, multiSelect: bool)
  {
    !multiSelect ==> forall k :: 0 <= k < |queue| ==> queue[k].kind != MultiSelectOption
  }

  lemma {:induction false} ReadFromRegistry(options: JsArray<Item>, i: int)
    requires OptionRegistry.Indexed(options)
    ensures options.Get(i).Some? ==> options.Get(options.Get(i).value.index) == options.Get(i)
  {
  }

  /** The focus, click and typeahead handlers read their payloads from the registry, and
      only multi-select toggles. */
  lemma PointerHandlersReadRegistry(s: State, options: JsArray<Item>, multiSelect: bool, index: int, found: Option<nat>)
    requires OptionRegistry.Indexed(options)
    ensures QueueFromRegistry(FocusDispatches(s, options, multiSelect), options)
    ensures KindsFitMode(FocusDispatches(s, options, multiSelect), multiSelect)
    ensures QueueFromRegistry(ClickDispatches(options, multiSelect, index), options)
    ensures KindsFitMode(ClickDispatches(options, multiSelect, index), multiSelect)
    ensures QueueFromRegistry(FoundDispatches(options, found), options)
    ensures KindsFitMode(FoundDispatches(options, found), multiSelect)
  {
    ReadFromRegistry(options, 0);
    ReadFromRegistry(options, index);
    if found.Some? {
      ReadFromRegistry(options, found.value);
    }
  }

  /** The keydown handler reads its payloads from the registry, and only multi-select toggles. */
  lemma KeyDownReadsRegistry(s: State, options: JsArray<Item>, multiSelect: bool, key: int)
    requires OptionRegistry.Indexed(options)
    ensures KeyDownDispatches(s, options, multiSelect, key).Ok? ==>
              QueueFromRegistry(KeyDownDispatches(s, options, multiSelect, key).value.dispatched, options) &&
              KindsFitMode(KeyDownDispatches(s, options, multiSelect, key).value.dispatched, multiSelect)
  {
    var i := s.focusedIndex;
    if key == UP {
      ReadFromRegistry(options, i - 1);
    } else if key == DOWN {
      ReadFromRegistry(options, i + 1);
    } else if key == RETURN {
      ReadFromRegistry(options, i);
    } else if key == HOME {
      ReadFromRegistry(options, 0);
    } else if key == END {
      ReadFromRegistry(options, options.Length() - 1);
    }
  }

  /** A render that commits a queue read from the registry keeps the state consistent with it. */
  lemma RenderKeepsConsistent(s: State, queue: seq<Dispatched<ActionType>>, options: JsArray<Item>, multiSelect: bool)
    requires Consistent(s, options, multiSelect)
    requires AllDefined(queue) && QueueFromRegistry(queue, options) && KindsFitMode(queue, multiSelect)
    ensures Consistent(After(s, queue), options, multiSelect)
  {
    var actions := Actions(queue);
    forall k | 0 <= k < |actions|
      ensures FromRegistry(actions[k], options)
    {
      assert queue[k].payload.Some?;
    }
    ReplayKeepsConsistent(s, actions, options, multiSelect);
  }

  /** The focused option is the selected one. */
  predicate SelectionFollowsFocus(s: State)
  {
    FocusedItem(s) == SelectedItem(s)
  }

  /** In single-select mode, once an option is focused, every key keeps the selection on the
      focused option. */
  lemma SingleSelectionFollowsFocus(s: State, options: JsArray<Item>, key: int)
    requires Consistent(s, options, false) && SelectionFollowsFocus(s) && FocusedItem(s) != Blank
    requires KeyDownDispatches(s, options, false, key).Ok?
    requires AllDefined(KeyDownDispatches(s, options, false, key).value.dispatched)
    ensures SelectionFollowsFocus(After(s, KeyDownDispatches(s, options, false, key).value.dispatched))
  {
    ListboxKeyCodes();
    var h := KeyDownDispatches(s, options, false, key).value;
    if key == RETURN {
      ReturnOnFocused(s, options, false, FocusedItem(s));
    } else if key == HOME || key == END || ((key == UP || key == DOWN) && h.dispatched != []) {
      FocusAndSelectBoth(s, h.dispatched[0].payload.value);
    } else {
      assert h.dispatched == [];
      assert Actions<ActionType>([]) == [];
    }
  }

  /** A typeahead match focuses and selects the option it found, so the selection follows
      the focus after it in either mode; no match dispatches nothing. */
  lemma FoundSelectionFollowsFocus(s: State, options: JsArray<Item>, found: Option<nat>)
    requires AllDefined(FoundDispatches(options, found))
    requires found.None? ==> SelectionFollowsFocus(s)
    ensures found.Some? ==> FocusedItem(After(s, FoundDispatches(options, found))) == options.Get(found.value).value
    ensures SelectionFollowsFocus(After(s, FoundDispatches(options, found)))
  {
    if found.Some? {
      assert FoundDispatches(options, found)[0].payload == options.Get(found.value);
      FocusAndSelectBoth(s, options.Get(found.value).value);
    } else {
      assert Actions<ActionType>([]) == [];
    }
  }

  /** Record slots from 0 up carry distinct, non-empty ids and distinct values. */
  ghost predicate Distinct(options: JsArray<Item>)
  {
    && (forall i :: 0 <= i && options.Get(i).Some? ==> options.Get(i).value.id != "")
    && (forall i, j :: 0 <= i < j && options.Get(i).Some? && options.Get(j).Some? ==>
          options.Get(i).value.id != options.Get(j).value.id && options.Get(i).value.value != options.Get(j).value.value)
  }

  /** Two slots from 0 up holding the same id, or the same value, are one slot. */
  lemma DistinctSlots(options: JsArray<Item>, i: int, j: int)
    requires Distinct(options)
    requires 0 <= i && 0 <= j && options.Get(i).Some? && options.Get(j).Some?
    ensures options.Get(i).value.id == options.Get(j).value.id ==> i == j
    ensures options.Get(i).value.value == options.Get(j).value.value ==> i == j
  {
  }

  /** The selection names option slots, never the record the first render leaves at -1. */
  predicate SelectionOnSlots(s: State)
  {
    (s.selectedId == "" || s.selectedIndex >= 0) &&
    forall v :: v in s.selectedValues ==> s.selectedValues[v].index >= 0
  }

  /** Uncontrolled single-select: an option is `aria-selected` exactly when it is the selected
      option. */
  lemma AriaSelectedSingle(props: ControlledProps, s: State, options: JsArray<Item>, k: int)
    requires !IsControlled(props)
    requires Consistent(s, options, false) && Distinct(options) && SelectionOnSlots(s)
    requires k >= 0 && options.Get(k).Some?
    ensures var o := options.Get(k).value;
      AriaSelected(props, false, s, o.id, Some(k), o.value) == Ok(s.selectedIndex == k)
  {
    var o := options.Get(k).value;
    if o.id == s.selectedId {
      DistinctSlots(options, k, s.selectedIndex);
    }
  }

  /** Uncontrolled multi-select: an option is `aria-selected` exactly when its value is in
      `selectedValues`. */
  lemma AriaSelectedMulti(props: ControlledProps, s: State, options: JsArray<Item>, k: int)
    requires !IsControlled(props)
    requires Consistent(s, options, true) && Distinct(options) && SelectionOnSlots(s)
    requires k >= 0 && options.Get(k).Some?
    ensures var o := options.Get(k).value;
      AriaSelected(props, true, s, o.id, Some(k), o.value) == Ok(o.value in s.selectedValues)
  {
    var o := options.Get(k).value;
    if o.value in s.selectedValues {
      DistinctSlots(options, k, s.selectedValues[o.value].index);
    }
  }

  /** `aria-activedescendant` is absent until the first focus and then names option 0. */
  lemma ActiveDescendantAfterFirstFocus(props: ControlledProps, options: JsArray<Item>, multiSelect: bool, o: Item, dom: Option<string>)
    requires !IsControlled(props)
    requires options.Get(0) == Some(o) && o.id != ""
    ensures ActiveDescendant(props, InitialState, dom) == None
    ensures ActiveDescendant(props, After(InitialState, FocusDispatches(InitialState, options, multiSelect)), dom) == Some(o.id)
  {
    FirstFocus(InitialState, options, multiSelect);
  }

  /** A controlled arrow reports the neighbour of the controlled focus and dispatches nothing. */
  lemma ControlledArrows(props: ControlledProps, options: JsArray<Item>, i: int)
    requires props.focusedIndex == Given(i) && i >= 0
    ensures i > 0 ==> ControlledKeyDown(props, options, UP) == Reported(true, [OnChange(options.Get(i - 1))])
    ensures i == 0 ==> ControlledKeyDown(props, options, UP) == Reported(true, [])
    ensures i != options.Length() - 1 ==> ControlledKeyDown(props, options, DOWN) == Reported(true, [OnChange(options.Get(i + 1))])
    ensures ControlledKeyDown(props, options, RETURN) == Reported(true, [OnSelect(options.Get(i))])
  {
    ListboxKeyCodes();
  }

  /** A `null` controlled focus is not an early return: Down reports option 1 whatever the
      list's length, Return reports `undefined` to `onSelect`, and Up reports nothing; each
      calls `preventDefault`. */
  lemma ControlledNullFocus(props: ControlledProps, options: JsArray<Item>)
    requires props.focusedIndex == Null
    ensures ControlledKeyDown(props, options, DOWN) == Reported(true, [OnChange(options.Get(1))])
    ensures ControlledKeyDown(props, options, RETURN) == Reported(true, [OnSelect(None)])
    ensures ControlledKeyDown(props, options, UP) == Reported(true, [])
    ensures ControlledKeyDown(props, options, TAB) == Reported(false, [])
  {
    ListboxKeyCodes();
  }

  /** The record every option writes at index -1 during the first render survives in the
      registry: Return before the first focus focuses it, which leaves `focusedIndex` at -1
      with a non-empty `focusedId`, and `aria-activedescendant` then names an option. */
  lemma ReturnBeforeFocusFindsMinusOneRecord(props: ControlledProps, options: JsArray<Item>, id: string, value: string)
    requires !IsControlled(props)
    requires options.Get(-1) == Some(Item(id, -1, value)) && id != ""
    ensures var h := KeyDownDispatches(InitialState, options, false, RETURN);
      h.Ok? && AllDefined(h.value.dispatched) &&
      After(InitialState, h.value.dispatched).focusedIndex == -1 &&
      After(InitialState, h.value.dispatched).focusedId == id &&
      ActiveDescendant(props, After(InitialState, h.value.dispatched), None) == Some(id)
  {
    var o := Item(id, -1, value);
    var focus := [Dispatched(FocusOption, Some(o))];
    assert KeyDownDispatches(InitialState, options, false, RETURN) == Ok(Handled(true, focus)) by {
      ListboxKeyCodes();
      assert focus + [] == focus;
    }
    assert Actions(focus) == [Action(FocusOption, o)];
    FocusAlone(InitialState, o);
    assert FocusedItem(After(InitialState, focus)) == o;
  }

  /** A key press with no typeahead match, followed by the render it causes. */
  method PressAndRender(listbox: Listbox, key: int) returns (calls: seq<Call>)
    requires listbox.Valid() && !IsControlled(listbox.props) && listbox.queue == [] && listbox.mounted
    requires KeyDownDispatches(listbox.state, listbox.options, listbox.multiSelect, key).Ok?
    requires AllDefined(KeyDownDispatches(listbox.state, listbox.options, listbox.multiSelect, key).value.dispatched)
    modifies listbox`queue, listbox`state, listbox`mounted, listbox.finder
    ensures listbox.Valid() && listbox.queue == [] && listbox.mounted
    ensures var next := After(old(listbox.state), KeyDownDispatches(old(listbox.state), listbox.options, listbox.multiSelect, key).value.dispatched);
      listbox.state == next && calls == Effects(Some(old(listbox.state)), next, listbox.options, listbox.multiSelect, false)
  {
    var found, handled := listbox.KeyDown(key, None);
    assert listbox.queue == KeyDownDispatches(old(listbox.state), listbox.options, listbox.multiSelect, key).value.dispatched;
    var r := listbox.Render();
    calls := r.value;
  }

  /** The records the three cars of the walk-through write, with ids as their options build
      them from the ids `useId` gave them. */
  function Ford(): Item { Item(OptionId("ford", "1"), 0, "ford") }
  function Tesla(): Item { Item(OptionId("tesla", "2"), 1, "tesla") }
  function Toyota(): Item { Item(OptionId("toyota", "3"), 2, "toyota") }

  /** The three cars of the walk-through, at slots 0, 1 and 2. */
  function Cars(): JsArray<Item>
  {
    Empty().Set(0, Ford()).Set(1, Tesla()).Set(2, Toyota())
  }

  /** Mounts a single-select list of three cars. */
  method Mount() returns (listbox: Listbox, onMount: seq<Call>)
    ensures fresh(listbox) && fresh(listbox.finder) && listbox.Valid() && !IsControlled(listbox.props) && !listbox.multiSelect
    ensures listbox.queue == [] && listbox.mounted && listbox.options == Cars() && listbox.state == InitialState
    ensures onMount == []
  {
    listbox := new Listbox(false, ControlledProps(Absent, None));
    listbox.WriteOption(0, Ford());
    listbox.WriteOption(1, Tesla());
    listbox.WriteOption(2, Toyota());
    var r := listbox.Render();
    assert Actions<ActionType>([]) == [];
    onMount := r.value;
  }

  /** Mounts a single-select list of three cars and focuses it. */
  method MountAndFocus() returns (listbox: Listbox, onMount: seq<Call>, onFocus: seq<Call>)
    ensures fresh(listbox) && fresh(listbox.finder) && listbox.Valid() && !IsControlled(listbox.props) && !listbox.multiSelect
    ensures listbox.queue == [] && listbox.mounted && listbox.options == Cars()
    ensures FocusedItem(listbox.state) == Ford() && SelectedItem(listbox.state) == Ford()
    ensures onMount == []
    ensures onFocus == [OnSelect(Some(Ford())), OnChange(Some(Ford()))]
  {
    var ford := Ford();
    listbox, onMount := Mount();
    assert listbox.options.Get(0) == Some(ford);
    listbox.Focus();
    FirstFocusNotifies(listbox.options, false, ford);
    MoveToFocuses(InitialState, ford, false);
    var r := listbox.Render();
    onFocus := r.value;
  }

  /** In a single-select list, an arrow press that moves to `o` followed by its render: `o`
      becomes focused and selected, and the effects report it to `onSelect` then `onChange`. */
  method ArrowAndRender(listbox: Listbox, key: int, o: Item) returns (calls: seq<Call>)
    requires listbox.Valid() && !IsControlled(listbox.props) && listbox.queue == [] && listbox.mounted
    requires !listbox.multiSelect
    requires KeyDownDispatches(listbox.state, listbox.options, false, key) == Ok(Handled(true, FocusAndSelect(Some(o))))
    requires listbox.options.Get(o.index) == Some(o) && o.index > -1
    requires listbox.state.focusedIndex != o.index && listbox.state.selectedIndex != o.index
    modifies listbox`queue, listbox`state, listbox`mounted, listbox.finder
    ensures listbox.Valid() && listbox.queue == [] && listbox.mounted
    ensures FocusedItem(listbox.state) == o && SelectedItem(listbox.state) == o
    ensures calls == [OnSelect(Some(o)), OnChange(Some(o))]
  {
    MoveToFocuses(listbox.state, o, false);
    SingleMoveNotifies(listbox.state, listbox.options, o);
    calls := PressAndRender(listbox, key);
  }

  /** A single-select list of three cars, driven as a user would: mount, focus, Down, Down,
      Down at the end, then Up. */
  method SingleSelectWalkThrough() returns (onMount: seq<Call>, onFocus: seq<Call>, onDown: seq<Call>,
                                           onDownAgain: seq<Call>, onDownAtEnd: seq<Call>, onUp: seq<Call>)
    ensures onMount == []
    ensures onFocus == [OnSelect(Some(Ford())), OnChange(Some(Ford()))]
    ensures onDown == [OnSelect(Some(Tesla())), OnChange(Some(Tesla()))]
    ensures onDownAgain == [OnSelect(Some(Toyota())), OnChange(Some(Toyota()))]
    ensures onDownAtEnd == []
    ensures onUp == [OnSelect(Some(Tesla())), OnChange(Some(Tesla()))]
  {
    var listbox;
    listbox, onMount, onFocus := MountAndFocus();
    var tesla, toyota := Tesla(), Toyota();
    assert listbox.options.Get(1) == Some(tesla) && listbox.options.Get(2) == Some(toyota) && listbox.options.Length() == 3;
    ListboxKeyCodes();

    onDown := ArrowAndRender(listbox, DOWN, tesla);
    onDownAgain := ArrowAndRender(listbox, DOWN, toyota);

    ArrowsStopAtEnds(listbox.state, listbox.options, false);
    onDownAtEnd := PressAndRender(listbox, DOWN);

    onUp := ArrowAndRender(listbox, UP, tesla);
  }
}
