/** The older hook of src/listbox/components/Listbox/useListbox.ts. One "active" option is shared
    by focus and selection, starting at index 0; the handlers dispatch to the hook's reducer and
    report plain values to the optional `onChange`/`onSelect` callbacks straight away. */
module LegacyListbox {
  import opened Wrappers
  import opened OptionRecord
  import opened JsArrays
  import opened Dispatches
  import opened Utils
  import OptionRegistry

  datatype LegacyState = LegacyState(activeId: string, activeIndex: int, focusedValue: string, selectedValue: string)

  const InitialState := LegacyState("", 0, "", "")

  datatype ActionType = FocusOption | SelectOption


  /** `reducer(state, action)` */
  function Reduce(s: LegacyState, a: Action<ActionType>): LegacyState
  {
    var o := a.payload;
    match a.kind
    case FocusOption => s.(activeId := o.id, activeIndex := o.index, focusedValue := o.value)
    case SelectOption => s.(activeIndex := o.index, focusedValue := o.value, selectedValue := o.value)
  }

  /** FOCUS_OPTION moves the active option and the focused value and keeps the selected value;
      SELECT_OPTION moves the active index and both values but keeps `activeId`. */
  lemma ReducerFields(s: LegacyState, o: Item)
    ensures var r := Reduce(s, Action(FocusOption, o));
      r.activeId == o.id && r.activeIndex == o.index && r.focusedValue == o.value && r.selectedValue == s.selectedValue
    ensures var r := Reduce(s, Action(SelectOption, o));
      r.activeId == s.activeId && r.activeIndex == o.index && r.focusedValue == o.value && r.selectedValue == o.value
  {
  }

  function Replay(s: LegacyState, actions: seq<Action<ActionType>>): LegacyState
  {
    if actions == [] then s else Reduce(Replay(s, actions[..|actions| - 1]), actions[|actions| - 1])
  }

  /** One call of `onChange` or `onSelect`, with the value it was given. */
  datatype Report = Changed(value: string) | Selected(value: string)

  datatype Failure =
    | ValueOfUndefined   // `option.value` on an empty slot, evaluated only when the callback exists
    | PayloadUndefined   // the reducer destructures an undefined payload during render

  /** Which of the optional callbacks the caller passed. */
  datatype Callbacks = Callbacks(onChange: bool, onSelect: bool)

  /** What a handler did before returning or throwing. */
  datatype Outcome = Outcome(dispatched: seq<Dispatched<ActionType>>, reports: seq<Report>, failure: Option<Failure>)

  /** `callback && callback(option.value)` */
  function Notify(present: bool, option: Option<Item>, selected: bool): (r: Result<seq<Report>, Failure>)
    ensures r.Err? <==> present && option.None?
    ensures r.Ok? ==> |r.value| == (if present then 1 else 0)
    ensures r.Ok? && present ==>
              r.value == [if selected then Selected(option.value.value) else Changed(option.value.value)]
  {
    if !present then Ok([])
    else if option.None? then Err(ValueOfUndefined)
    else Ok([if selected then Selected(option.value.value) else Changed(option.value.value)])
  }

  /** A dispatch followed by a report. */
  function DispatchThenNotify(d: Dispatched<ActionType>, present: bool, selected: bool): Outcome
  {
    match Notify(present, d.payload, selected)
    case Ok(reports) => Outcome([d], reports, None)
    case Err(e) => Outcome([d], [], Some(e))
  }

  /** `useFocus`: the first focus makes option 0 active and reports its value. */
  function FocusOutcome(s: LegacyState, options: JsArray<Item>, callbacks: Callbacks): Outcome
  {
    if s.activeId == "" then DispatchThenNotify(Dispatched(FocusOption, options.Get(0)), callbacks.onChange, false)
    else Outcome([], [], None)
  }

  /** `useKeyDown` for key code `key`. */
  function KeyDownOutcome(s: LegacyState, options: JsArray<Item>, callbacks: Callbacks, key: int): Outcome
  {
    var i := s.activeIndex;
    if key == UP then
      if i > 0 then DispatchThenNotify(Dispatched(FocusOption, options.Get(i - 1)), callbacks.onChange, false)
      else Outcome([], [], None)
    else if key == DOWN then
      if i != options.Length() - 1 then DispatchThenNotify(Dispatched(FocusOption, options.Get(i + 1)), callbacks.onChange, false)
      else Outcome([], [], None)
    else if key == RETURN then
      DispatchThenNotify(Dispatched(SelectOption, Some(Item(s.activeId, i, s.focusedValue))), callbacks.onSelect, true)
    else Outcome([], [], None)
  }

  /** `focusAndSelectOption(index)`: both reports come first, then both dispatches. */
  function ClickOutcome(options: JsArray<Item>, callbacks: Callbacks, index: int): Outcome
  {
    var option := options.Get(index);
    match Notify(callbacks.onChange, option, false)
    case Err(e) => Outcome([], [], Some(e))
    case Ok(changed) =>
      match Notify(callbacks.onSelect, option, true)
      case Err(e) => Outcome([], changed, Some(e))
      case Ok(selected) =>
        Outcome([Dispatched(FocusOption, option), Dispatched(SelectOption, option)], changed + selected, None)
  }

  /** The state the next render commits after `queue`. */
  function After(s: LegacyState, queue: seq<Dispatched<ActionType>>): LegacyState
    requires AllDefined(queue)
  {
    Replay(s, Actions(queue))
  }

  /** One instance of the older hook. */
  class LegacyHook {
    var state: LegacyState
    var queue: seq<Dispatched<ActionType>>
    /** `options.current`, written by each option's registration effect. */
    var options: JsArray<Item>
    const callbacks: Callbacks

    constructor (callbacks: Callbacks)
      ensures state == InitialState && queue == [] && options == Empty() && this.callbacks == callbacks
    {
      state := InitialState;
      queue := [];
      options := Empty();
      this.callbacks := callbacks;
    }

    /** The registration effect of `getOptionProps`: `options.current[index] = {id, index, value}`,
        with the id built from the value and the `useId()` result `stableId`. */
    method Register(index: int, stableId: string, value: string)
      modifies this`options
      ensures options == old(options).Set(index, Item(OptionId(value, stableId), index, value))
    {
      options := options.Set(index, Item(OptionId(value, stableId), index, value));
    }

    method Dispatch(kind: ActionType, payload: Option<Item>)
      modifies this`queue
      ensures queue == old(queue) + [Dispatched(kind, payload)]
    {
      queue := queue + [Dispatched(kind, payload)];
    }

    /** `callback && callback(option.value)` */
    method Report(present: bool, option: Option<Item>, selected: bool) returns (r: Result<seq<Report>, Failure>)
      ensures r == Notify(present, option, selected)
    {
      if !present {
        return Ok([]);
      }
      if option.None? {
        return Err(ValueOfUndefined);
      }
      r := Ok([if selected then Selected(option.value.value) else Changed(option.value.value)]);
    }

    method Focus() returns (reports: seq<Report>, failure: Option<Failure>)
      modifies this`queue
      ensures var o := FocusOutcome(state, options, callbacks);
        queue == old(queue) + o.dispatched && reports == o.reports && failure == o.failure
    {
      reports, failure := [], None;
      if state.activeId == "" {
        var option := options.Get(0);
        Dispatch(FocusOption, option);
        var r := Report(callbacks.onChange, option, false);
        match r
        case Ok(rs) => reports := rs;
        case Err(e) => failure := Some(e);
      }
    }

    method KeyDown(key: int) returns (reports: seq<Report>, failure: Option<Failure>)
      modifies this`queue
      ensures var o := KeyDownOutcome(state, options, callbacks, key);
        queue == old(queue) + o.dispatched && reports == o.reports && failure == o.failure
    {
      reports, failure := [], None;
      var activeIndex := state.activeIndex;
      var option: Option<Item> := None;
      var kind := FocusOption;
      var present := callbacks.onChange;
      if key == UP {
        if activeIndex <= 0 {
          return;
        }
        option := options.Get(activeIndex - 1);
      } else if key == DOWN {
        if activeIndex == options.Length() - 1 {
          return;
        }
        option := options.Get(activeIndex + 1);
      } else if key == RETURN {
        option := Some(Item(state.activeId, activeIndex, state.focusedValue));
        kind := SelectOption;
        present := callbacks.onSelect;
      } else {
        return;
      }
      Dispatch(kind, option);
      var r := Report(present, option, kind == SelectOption);
      match r
      case Ok(rs) => reports := rs;
      case Err(e) => failure := Some(e);
    }

    /** A click on the option at `index` (the option's own `onClick` aside). */
    method Click(index: int) returns (reports: seq<Report>, failure: Option<Failure>)
      modifies this`queue
      ensures var o := ClickOutcome(options, callbacks, index);
        queue == old(queue) + o.dispatched && reports == o.reports && failure == o.failure
    {
      var option := options.Get(index);
      var changed := Report(callbacks.onChange, option, false);
      if changed.Err? {
        return [], Some(changed.error);
      }
      var selected := Report(callbacks.onSelect, option, true);
      if selected.Err? {
        return changed.value, Some(selected.error);
      }
      reports, failure := changed.value + selected.value, None;
      Dispatch(FocusOption, option);
      Dispatch(SelectOption, option);
    }

    /** A render: replays the queue with the reducer and commits the result. */
    method Render() returns (r: Result<LegacyState, Failure>)
      modifies this`state, this`queue
      ensures queue == []
      ensures r.Ok? <==> AllDefined(old(queue))
      ensures r.Ok? ==> state == After(old(state), old(queue)) && r.value == state
      ensures r.Err? ==> r.error == PayloadUndefined && state == old(state)
    {
      var next := state;
      var i := 0;
      while i < |queue|
        invariant 0 <= i <= |queue|
        invariant AllDefined(queue[..i])
        invariant next == Replay(state, Actions(queue[..i]))
      {
        var d := queue[i];
        if d.payload.None? {
          queue := [];
          return Err(PayloadUndefined);
        }
        assert queue[..i + 1][..i] == queue[..i];
        next := Reduce(next, Action(d.kind, d.payload.value));
        i := i + 1;
      }
      assert queue[..i] == queue;
      state := next;
      queue := [];
      r := Ok(next);
    }
  }

  lemma SingleStep(s: LegacyState, d: Dispatched<ActionType>)
    requires d.payload.Some?
    ensures AllDefined([d]) && After(s, [d]) == Reduce(s, Action(d.kind, d.payload.value))
  {
    var a := Action(d.kind, d.payload.value);
    assert Actions([d]) == [a];
    assert [a][..0] == [];
    assert Replay(s, [a]) == Reduce(Replay(s, []), a);
  }

  /** Because `activeIndex` starts at 0, Up before any focus does nothing, and Down skips
      option 0: it makes option 1 active and reports its value. */
  lemma ArrowsBeforeFocus(options: JsArray<Item>, callbacks: Callbacks)
    requires OptionRegistry.Indexed(options) && options.Length() != 1 && options.Get(1).Some?
    ensures KeyDownOutcome(InitialState, options, callbacks, UP) == Outcome([], [], None)
    ensures var o := KeyDownOutcome(InitialState, options, callbacks, DOWN);
      o.failure.None? && AllDefined(o.dispatched) && After(InitialState, o.dispatched).activeIndex == 1 &&
      o.reports == (if callbacks.onChange then [Changed(options.Get(1).value.value)] else [])
  {
    ListboxKeyCodes();
    SingleStep(InitialState, Dispatched(FocusOption, options.Get(1)));
  }

  /** Up and Down move the active option by one inside the registry and report its value;
      at the ends nothing happens. */
  lemma ArrowsMoveByOne(s: LegacyState, options: JsArray<Item>, callbacks: Callbacks, key: int)
    requires OptionRegistry.Indexed(options)
    requires key == UP || key == DOWN
    ensures var delta := if key == UP then -1 else 1;
      var o := KeyDownOutcome(s, options, callbacks, key);
      && ((key == UP && s.activeIndex <= 0) || (key == DOWN && s.activeIndex == options.Length() - 1) ==> o == Outcome([], [], None))
      && ((key == UP && s.activeIndex > 0) || (key == DOWN && s.activeIndex != options.Length() - 1)) &&
         options.Get(s.activeIndex + delta).Some? ==>
           o.failure.None? && AllDefined(o.dispatched) &&
           After(s, o.dispatched).activeIndex == s.activeIndex + delta &&
           After(s, o.dispatched).selectedValue == s.selectedValue &&
           o.reports == (if callbacks.onChange then [Changed(options.Get(s.activeIndex + delta).value.value)] else [])
  {
    ListboxKeyCodes();
    var delta := if key == UP then -1 else 1;
    if options.Get(s.activeIndex + delta).Some? {
      SingleStep(s, Dispatched(FocusOption, options.Get(s.activeIndex + delta)));
    }
  }

  /** Return selects the active option as the state remembers it: the selected value becomes the
      focused value, which is what `onSelect` receives; the active option does not move. */
  lemma ReturnSelectsActive(s: LegacyState, options: JsArray<Item>, callbacks: Callbacks)
    ensures var o := KeyDownOutcome(s, options, callbacks, RETURN);
      o.failure.None? && AllDefined(o.dispatched) &&
      After(s, o.dispatched) == s.(selectedValue := s.focusedValue) &&
      o.reports == (if callbacks.onSelect then [Selected(s.focusedValue)] else [])
  {
    ListboxKeyCodes();
    SingleStep(s, Dispatched(SelectOption, Some(Item(s.activeId, s.activeIndex, s.focusedValue))));
  }

  /** The first focus makes option 0 active; once an option is active, focus does nothing. */
  lemma FocusOnce(s: LegacyState, options: JsArray<Item>, callbacks: Callbacks)
    ensures s.activeId != "" ==> FocusOutcome(s, options, callbacks) == Outcome([], [], None)
    ensures s.activeId == "" && options.Get(0).Some? ==>
              var o := FocusOutcome(s, options, callbacks);
              o.failure.None? && AllDefined(o.dispatched) &&
              After(s, o.dispatched).activeId == options.Get(0).value.id &&
              After(s, o.dispatched).activeIndex == options.Get(0).value.index &&
              o.reports == (if callbacks.onChange then [Changed(options.Get(0).value.value)] else [])
    ensures s.activeId == "" && options.Get(0).None? ==>
              (FocusOutcome(s, options, callbacks).failure.Some? <==> callbacks.onChange)
  {
    if s.activeId == "" && options.Get(0).Some? {
      SingleStep(s, Dispatched(FocusOption, options.Get(0)));
    }
  }

  /** A click reports the option's value to `onChange` and then to `onSelect`, and afterwards
      the option is active, focused and selected. On an empty slot it throws before dispatching
      as soon as either callback exists; without callbacks it dispatches the undefined slot,
      which the next render cannot reduce. */
  lemma ClickFocusesAndSelects(options: JsArray<Item>, callbacks: Callbacks, index: int, s: LegacyState)
    ensures options.Get(index).Some? ==>
              var o := ClickOutcome(options, callbacks, index);
              var v := options.Get(index).value;
              o.failure.None? && AllDefined(o.dispatched) &&
              o.reports == (if callbacks.onChange then [Changed(v.value)] else []) + (if callbacks.onSelect then [Selected(v.value)] else []) &&
              After(s, o.dispatched) == LegacyState(v.id, v.index, v.value, v.value)
    ensures options.Get(index).None? ==>
              var o := ClickOutcome(options, callbacks, index);
              (o.failure.Some? <==> callbacks.onChange || callbacks.onSelect) &&
              (o.failure.Some? ==> o.dispatched == []) &&
              (o.failure.None? ==> !AllDefined(o.dispatched))
  {
    var option := options.Get(index);
    if option.Some? {
      var v := option.value;
      var changed := if callbacks.onChange then [Changed(v.value)] else [];
      var selected := if callbacks.onSelect then [Selected(v.value)] else [];
      assert Notify(callbacks.onChange, option, false) == Ok(changed);
      assert Notify(callbacks.onSelect, option, true) == Ok(selected);
      var q := [Dispatched(FocusOption, option), Dispatched(SelectOption, option)];
      var focus, select := Action(FocusOption, v), Action(SelectOption, v);
      assert Actions(q) == [focus, select];
      assert [focus, select][..1] == [focus];
      assert [focus][..0] == [];
      assert Replay(s, [focus, select]) == Reduce(Reduce(Replay(s, []), focus), select);
    } else if !callbacks.onChange && !callbacks.onSelect {
      assert ClickOutcome(options, callbacks, index).dispatched[0].payload.None?;
    }
  }
}
