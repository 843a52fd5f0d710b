/** The handlers and projections of src/hooks/useListbox.ts. Handlers do not change the state:
    each `dispatch` appends to the queue of the listbox's reducer, and the next render replays
    the queue, commits the new state and runs the notification effects. In controlled mode the
    handlers report through `onChange`/`onSelect` instead of dispatching. */
module ListboxHook {
  import opened Wrappers
  import opened OptionRecord
  import opened JsArrays
  import opened ListboxReducer
  import opened Dispatches
  import opened Utils
  import OptionRegistry
  import Typeahead

  /** The `selectedIndex` prop: one index or an array of them. */
  datatype SelectedIndexProp = One(index: int) | Many(indices: seq<int>)

  /** The `focusedIndex` prop as the caller passed it: left out (`undefined`), `null`, or a
      number. `isControlled` treats `null` as absent, the controlled key handler does not. */
  datatype FocusProp = Absent | Null | Given(index: int)

  /** The `focusedIndex` and `selectedIndex` props; a `selectedIndex` of `None` is `null` or
      `undefined`, which every reader of that prop treats alike. */
  datatype ControlledProps = ControlledProps(focusedIndex: FocusProp, selectedIndex: Option<SelectedIndexProp>)

  /** `isControlled`: either prop is `!= null`. */
  predicate IsControlled(props: ControlledProps)
  {
    props.selectedIndex.Some? || props.focusedIndex.Given?
  }

  /** One call of a caller's callback. */
  datatype Call =
    | OnChange(option: Option<Item>)
    | OnSelect(option: Option<Item>)
    | OnSelectMany(values: SelectedValues)

  datatype Failure =
    | PayloadUndefined      // the reducer destructures an undefined payload during render
    | ElementRefUndefined   // `optionsRef.current[nextIndex].current` on an empty slot
    | IndexRequired         // `getOptionProps` without an index

  /** What an uncontrolled handler did: whether it called `preventDefault`, and its dispatches. */
  datatype Handled = Handled(prevented: bool, dispatched: seq<Dispatched<ActionType>>)

  /** What a controlled handler did: whether it called `preventDefault`, and its callbacks. */
  datatype Reported = Reported(prevented: bool, calls: seq<Call>)

  function FocusAndSelect(option: Option<Item>): seq<Dispatched<ActionType>>
  {
    [Dispatched(FocusOption, option), Dispatched(SelectOption, option)]
  }

  /** Moving to an option: multi-select only focuses it, single-select focuses and selects it. */
  function MoveTo(option: Option<Item>, multiSelect: bool): seq<Dispatched<ActionType>>
  {
    if multiSelect then [Dispatched(FocusOption, option)] else FocusAndSelect(option)
  }

  /** `handleFocus`: the first focus moves to option 0; later ones do nothing. */
  function FocusDispatches(s: State, options: JsArray<Item>, multiSelect: bool): seq<Dispatched<ActionType>>
  {
    if s.focusedValue == "" then MoveTo(options.Get(0), multiSelect) else []
  }

  /** `handleClick(index)` */
  function ClickDispatches(options: JsArray<Item>, multiSelect: bool, index: int): seq<Dispatched<ActionType>>
  {
    [Dispatched(FocusOption, options.Get(index)),
     Dispatched(if multiSelect then MultiSelectOption else SelectOption, options.Get(index))]
  }

  /** `onFound(index)` of the typeahead. */
  function FoundDispatches(options: JsArray<Item>, found: Option<nat>): seq<Dispatched<ActionType>>
  {
    if found.Some? then FocusAndSelect(options.Get(found.value)) else []
  }

  /** The transition table of `handleKeyDown` for key code `key`, read from the state
      committed by the last render. */
  function KeyDownDispatches(s: State, options: JsArray<Item>, multiSelect: bool, key: int): Result<Handled, Failure>
  {
    var i := s.focusedIndex;
    if key == TAB then Ok(Handled(false, []))
    else if key == UP then
      if i > 0 then
        if options.Get(i - 1).None? then Err(ElementRefUndefined)
        else Ok(Handled(true, MoveTo(options.Get(i - 1), multiSelect)))
      else Ok(Handled(true, []))
    else if key == DOWN then
      if i != options.Length() - 1 then
        if options.Get(i + 1).None? then Err(ElementRefUndefined)
        else Ok(Handled(true, MoveTo(options.Get(i + 1), multiSelect)))
      else Ok(Handled(true, []))
    else if key == RETURN then
      Ok(Handled(true, [Dispatched(FocusOption, options.Get(i))]
                       + (if multiSelect then [Dispatched(MultiSelectOption, options.Get(i))] else [])))
    else if key == HOME then Ok(Handled(true, FocusAndSelect(options.Get(0))))
    else if key == END then Ok(Handled(true, FocusAndSelect(options.Get(options.Length() - 1))))
    else Ok(Handled(true, []))
  }

  /** The table of `handleKeyDownControlled`: nothing is dispatched; Up and Down report the
      in-bounds neighbour of the controlled focus to `onChange`, Return reports the focused
      option to `onSelect`. Only an `undefined` or negative focus returns early: a `null` one
      goes on with JavaScript's coercions (`null > 0` is false, `null + 1` is 1, `null` is never
      `=== length - 1`, and `options.current[null]` reads the missing key "null"). */
  function ControlledKeyDown(props: ControlledProps, options: JsArray<Item>, key: int): (r: Reported)
    ensures r.prevented <==> key != TAB && !props.focusedIndex.Absent? &&
                             !(props.focusedIndex.Given? && props.focusedIndex.index < 0)
    ensures |r.calls| <= 1
    ensures forall c :: c in r.calls ==> (c.OnChange? <==> key == UP || key == DOWN) && (c.OnSelect? <==> key == RETURN)
  {
    if key == TAB then Reported(false, [])
    else
      match props.focusedIndex
      case Absent => Reported(false, [])
      case Null =>
        if key == DOWN then Reported(true, [OnChange(options.Get(1))])
        else if key == RETURN then Reported(true, [OnSelect(None)])
        else Reported(true, [])
      case Given(i) =>
        if i < 0 then Reported(false, [])
        else if key == UP then Reported(true, if i > 0 then [OnChange(options.Get(i - 1))] else [])
        else if key == DOWN then Reported(true, if i != options.Length() - 1 then [OnChange(options.Get(i + 1))] else [])
        else if key == RETURN then Reported(true, [OnSelect(options.Get(i))])
        else Reported(true, [])
  }

  /** `handleClickControlled(index)` */
  function ControlledClick(options: JsArray<Item>, index: int): seq<Call>
  {
    [OnChange(options.Get(index)), OnSelect(options.Get(index))]
  }

  /** One of the select effect's state dependencies (`selectedIndex`, `selectedValues`,
      `selectedValue`) differs from the previous commit, or there is none. */
  predicate SelectionChanged(prev: Option<State>, next: State)
  {
    prev.None? || prev.value.selectedIndex != next.selectedIndex
    || prev.value.selectedValues != next.selectedValues
    || prev.value.selectedValue != next.selectedValue
  }

  /** The two notification effects after a commit, in declaration order: `onSelect` when
      `selectedIndex`, `selectedValues` or `selectedValue` changed, `onChange` when
      `focusedIndex` changed. `prev` is the previously committed state, `None` on mount, when
      every effect runs. Single-select and `onChange` report the registry's record, and only
      for an index above -1 whose slot is filled; multi-select reports the whole map. */
  function Effects(prev: Option<State>, next: State, options: JsArray<Item>, multiSelect: bool, controlled: bool): (calls: seq<Call>)
    ensures controlled || prev == Some(next) ==> calls == []
    ensures |calls| <= 2
    ensures forall c :: c in calls && c.OnChange? ==>
              next.focusedIndex > -1 && c.option.Some? && c.option == options.Get(next.focusedIndex) &&
              (prev.None? || prev.value.focusedIndex != next.focusedIndex)
    ensures forall c :: c in calls && c.OnSelect? ==>
              !multiSelect && next.selectedIndex > -1 && c.option.Some? && c.option == options.Get(next.selectedIndex)
    ensures forall c :: c in calls && c.OnSelectMany? ==> multiSelect && c.values == next.selectedValues
    ensures forall c :: c in calls && (c.OnSelect? || c.OnSelectMany?) ==> SelectionChanged(prev, next)
    ensures |calls| == 2 ==> !calls[0].OnChange? && calls[1].OnChange?
    ensures !controlled && next.focusedIndex > -1 && options.Get(next.focusedIndex).Some? &&
            (prev.None? || prev.value.focusedIndex != next.focusedIndex) ==>
              |calls| > 0 && calls[|calls| - 1] == OnChange(options.Get(next.focusedIndex))
    ensures !controlled && SelectionChanged(prev, next) && multiSelect ==>
              |calls| > 0 && calls[0] == OnSelectMany(next.selectedValues)
    ensures !controlled && SelectionChanged(prev, next) && !multiSelect &&
            next.selectedIndex > -1 && options.Get(next.selectedIndex).Some? ==>
              |calls| > 0 && calls[0] == OnSelect(options.Get(next.selectedIndex))
  {
    if controlled then []
    else
      var selectChanged := SelectionChanged(prev, next);
      var focusChanged := prev.None? || prev.value.focusedIndex != next.focusedIndex;
      var selected := options.Get(next.selectedIndex);
      var focused := options.Get(next.focusedIndex);
      var onSelect :=
        if !selectChanged then []
        else if multiSelect then [OnSelectMany(next.selectedValues)]
        else if next.selectedIndex > -1 && selected.Some? then [OnSelect(selected)]
        else [];
      var onChange := if focusChanged && next.focusedIndex > -1 && focused.Some? then [OnChange(focused)] else [];
      onSelect + onChange
  }

  /** The `selectedIndex` prop names `index`, alone or in its array. */
  predicate SelectedByProp(props: ControlledProps, index: int)
  {
    props.selectedIndex == Some(One(index)) ||
    (props.selectedIndex.Some? && props.selectedIndex.value.Many? && index in props.selectedIndex.value.indices)
  }

  /** `aria-selected` of the option rendered with `id`, `index` and `value`; throws without an
      index. */
  function AriaSelected(props: ControlledProps, multiSelect: bool, s: State, id: string, index: Option<int>, value: string): (r: Result<bool, Failure>)
    ensures r.Err? <==> index.None?
    ensures index.Some? && IsControlled(props) ==> (r.value <==> SelectedByProp(props, index.value))
  {
    if index.None? then Err(IndexRequired)
    else if IsControlled(props) then
      Ok(match props.selectedIndex
         case None => false
         case Some(One(n)) => index.value == n
         case Some(Many(ns)) => index.value in ns)
    else if multiSelect then Ok(value in s.selectedValues && s.selectedValues[value].id == id)
    else Ok(id == s.selectedId)
  }

  /** `aria-activedescendant` of the list: in controlled mode the id read from the rendered
      children, otherwise the focused id, absent while it is empty. */
  function ActiveDescendant(props: ControlledProps, s: State, controlledActiveDescendant: Option<string>): (r: Option<string>)
    ensures !IsControlled(props) ==> (r.Some? <==> s.focusedId != "")
    ensures !IsControlled(props) && r.Some? ==> r.value == s.focusedId
  {
    if IsControlled(props) then controlledActiveDescendant
    else if s.focusedId == "" then None
    else Some(s.focusedId)
  }

  /** One `useListbox` instance. */
  class Listbox {
    /** The state committed by the last render. */
    var state: State
    /** Dispatches not yet processed by a render. */
    var queue: seq<Dispatched<ActionType>>
    /** `options.current`, written by the options as they render. */
    var options: JsArray<Item>
    /** Whether the listbox has rendered once (its effects have run on mount). */
    var mounted: bool
    const multiSelect: bool
    const props: ControlledProps
    /** The typeahead matcher of `getListboxProps`. */
    const finder: Typeahead.Finder

    ghost predicate Valid()
      reads this, finder
    {
      finder.Valid()
    }

    constructor (multiSelect: bool, props: ControlledProps)
      ensures Valid() && fresh(finder)
      ensures state == InitialState && queue == [] && options == Empty() && !mounted
      ensures OptionRegistry.Indexed(options)
      ensures this.multiSelect == multiSelect && this.props == props
      ensures finder.typed == [] && finder.delay == Typeahead.DEFAULT_DELAY
    {
      state := InitialState;
      queue := [];
      options := Empty();
      mounted := false;
      this.multiSelect := multiSelect;
      this.props := props;
      finder := new Typeahead.Finder(Typeahead.DEFAULT_DELAY);
    }

    /** An option's render writes its record into `options.current[index]`. */
    method WriteOption(index: int, item: Item)
      requires item.index == index
      modifies this`options
      ensures options == old(options).Set(index, item)
      ensures OptionRegistry.Indexed(old(options)) ==> OptionRegistry.Indexed(options)
    {
      if OptionRegistry.Indexed(options) {
        OptionRegistry.RenderKeepsIndexed(options, index, item.id, item.value);
      }
      options := options.Set(index, item);
    }

    /** `dispatch({type: kind, payload})` */
    method Dispatch(kind: ActionType, payload: Option<Item>)
      modifies this`queue
      ensures queue == old(queue) + [Dispatched(kind, payload)]
    {
      queue := queue + [Dispatched(kind, payload)];
    }

    /** A render: replays the queued dispatches with the reducer and commits the result, then
        runs the notification effects. A queued undefined payload makes the reducer throw, and
        nothing is committed. */
    method Render() returns (r: Result<seq<Call>, Failure>)
      modifies this`state, this`queue, this`mounted
      ensures queue == []
      ensures r.Ok? <==> AllDefined(old(queue))
      ensures r.Ok? ==>
                && state == Replay(old(state), Actions(old(queue)))
                && mounted
                && r.value == Effects(if old(mounted) then Some(old(state)) else None, state, options, multiSelect, IsControlled(props))
      ensures r.Err? ==> r.error == PayloadUndefined && state == old(state) && mounted == old(mounted)
    {
      var next := state;
      var i := 0;
      while i < |queue|
        invariant 0 <= i <= |queue|
        invariant AllDefined(queue[..i])
        invariant next == Replay(state, Actions(queue[..i]))
      {
        var d := queue[i];
        if d.payload.None? {
          queue := [];
          return Err(PayloadUndefined);
        }
        assert queue[..i + 1][..i] == queue[..i];
        next := Reduce(next, Action(d.kind, d.payload.value));
        i := i + 1;
      }
      assert queue[..i] == queue;
      var previous := if mounted then Some(state) else None;
      state := next;
      queue := [];
      mounted := true;
      r := Ok(Effects(previous, state, options, multiSelect, IsControlled(props)));
    }

    /** The focus handler (`handleFocus`, used in both modes). */
    method Focus()
      modifies this`queue
      ensures queue == old(queue) + FocusDispatches(state, options, multiSelect)
    {
      if state.focusedValue == "" {
        var option := options.Get(0);
        Dispatch(FocusOption, option);
        if !multiSelect {
          Dispatch(SelectOption, option);
        }
      }
    }

    /** A click on the option at `index`: dispatches in uncontrolled mode, reports in
        controlled mode. */
    method Click(index: int) returns (calls: seq<Call>)
      modifies this`queue
      ensures IsControlled(props) ==> queue == old(queue) && calls == ControlledClick(options, index)
      ensures !IsControlled(props) ==> queue == old(queue) + ClickDispatches(options, multiSelect, index) && calls == []
    {
      var option := options.Get(index);
      if IsControlled(props) {
        calls := [OnChange(option), OnSelect(option)];
      } else {
        calls := [];
        Dispatch(FocusOption, option);
        if multiSelect {
          Dispatch(MultiSelectOption, option);
        } else {
          Dispatch(SelectOption, option);
        }
      }
    }

    /** `onFound(index)` */
    method OnFound(index: nat)
      modifies this`queue
      ensures queue == old(queue) + FoundDispatches(options, Some(index))
    {
      Dispatch(FocusOption, options.Get(index));
      Dispatch(SelectOption, options.Get(index));
    }

    /** `handleKeyDown` (uncontrolled). The result says whether `preventDefault` was called;
        reading the element ref of an empty slot throws before anything is dispatched. */
    method HandleKeyDown(key: int) returns (r: Result<bool, Failure>)
      modifies this`queue
      ensures KeyDownDispatches(state, options, multiSelect, key).Ok? ==>
                r == Ok(KeyDownDispatches(state, options, multiSelect, key).value.prevented) &&
                queue == old(queue) + KeyDownDispatches(state, options, multiSelect, key).value.dispatched
      ensures KeyDownDispatches(state, options, multiSelect, key).Err? ==>
                r == Err(KeyDownDispatches(state, options, multiSelect, key).error) && queue == old(queue)
    {
      if key == TAB {
        return Ok(false);
      }
      var focusedIndex := state.focusedIndex;
      if key == UP {
        if focusedIndex > 0 {
          var nextIndex := focusedIndex - 1;
          var option := options.Get(nextIndex);
          if option.None? {
            return Err(ElementRefUndefined);
          }
          Dispatch(FocusOption, option);
          if !multiSelect {
            Dispatch(SelectOption, option);
          }
        }
      } else if key == DOWN {
        if focusedIndex != options.Length() - 1 {
          var nextIndex := focusedIndex + 1;
          var option := options.Get(nextIndex);
          if option.None? {
            return Err(ElementRefUndefined);
          }
          Dispatch(FocusOption, option);
          if !multiSelect {
            Dispatch(SelectOption, option);
          }
        }
      } else if key == RETURN {
        var option := options.Get(focusedIndex);
        Dispatch(FocusOption, option);
        if multiSelect {
          Dispatch(MultiSelectOption, option);
        }
      } else if key == HOME {
        var firstOption := options.Get(0);
        Dispatch(FocusOption, firstOption);
        Dispatch(SelectOption, firstOption);
      } else if key == END {
        var lastOption := options.Get(options.Length() - 1);
        Dispatch(FocusOption, lastOption);
        Dispatch(SelectOption, lastOption);
      }
      r := Ok(true);
    }

    /** `handleKeyDownControlled`: reads the controlled focus, never dispatches. */
    method HandleKeyDownControlled(key: int) returns (r: Reported)
      ensures r == ControlledKeyDown(props, options, key)
    {
      if key == TAB {
        return Reported(false, []);
      }
      var focusedIndex := props.focusedIndex;
      if focusedIndex.Absent? || (focusedIndex.Given? && focusedIndex.index < 0) {
        return Reported(false, []);
      }
      var calls: seq<Call> := [];
      if focusedIndex.Null? {
        if key == DOWN {
          calls := [OnChange(options.Get(1))];
        } else if key == RETURN {
          calls := [OnSelect(None)];
        }
        return Reported(true, calls);
      }
      var i := focusedIndex.index;
      if key == UP {
        if i > 0 {
          calls := [OnChange(options.Get(i - 1))];
        }
      } else if key == DOWN {
        if i != options.Length() - 1 {
          calls := [OnChange(options.Get(i + 1))];
        }
      } else if key == RETURN {
        calls := [OnSelect(options.Get(i))];
      }
      r := Reported(true, calls);
    }

    /** A keydown on the list: the typeahead matcher runs first, then the handler of the
        listbox's mode, both reading the state of the last render. */
    method KeyDown(key: int, nodes: Option<seq<Option<Typeahead.Text>>>) returns (found: Option<nat>, r: Result<Reported, Failure>)
      requires Valid()
      modifies this`queue, finder
      ensures Valid()
      ensures finder.typed == old(finder.typed) + [Typeahead.LowerUnit(Typeahead.FromCharCode(key))]
      ensures nodes.None? ==> found.None?
      ensures nodes.Some? && found.Some? ==>
                found.value < |nodes.value| && Typeahead.Matches(nodes.value[found.value], finder.typed) &&
                forall j :: 0 <= j < found.value ==> !Typeahead.Matches(nodes.value[j], finder.typed)
      ensures nodes.Some? && found.None? ==>
                forall j :: 0 <= j < |nodes.value| ==> !Typeahead.Matches(nodes.value[j], finder.typed)
      ensures IsControlled(props) ==>
                queue == old(queue) + FoundDispatches(options, found) && r == Ok(ControlledKeyDown(props, options, key))
      ensures !IsControlled(props) && KeyDownDispatches(state, options, multiSelect, key).Ok? ==>
                var h := KeyDownDispatches(state, options, multiSelect, key).value;
                queue == old(queue) + FoundDispatches(options, found) + h.dispatched && r == Ok(Reported(h.prevented, []))
      ensures !IsControlled(props) && KeyDownDispatches(state, options, multiSelect, key).Err? ==>
                queue == old(queue) + FoundDispatches(options, found) &&
                r == Err(KeyDownDispatches(state, options, multiSelect, key).error)
    {
      found := finder.KeyDown(key, nodes);
      if found.Some? {
        OnFound(found.value);
      }
      if IsControlled(props) {
        var reported := HandleKeyDownControlled(key);
        r := Ok(reported);
      } else {
        var handled := HandleKeyDown(key);
        match handled
        case Ok(prevented) => r := Ok(Reported(prevented, []));
        case Err(e) => r := Err(e);
      }
    }
  }
}
