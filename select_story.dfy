/** The Select built on the listbox in src/stories/select/components.tsx: a button that expands
    a list, the list's keyboard handling and selection guard, and the reducer holding the chosen
    option and whether the list is open. */
module SelectStory {
  import opened Wrappers
  import opened OptionRecord
  import opened Utils

  datatype SelectState = SelectState(id: string, index: int, value: string, expanded: bool)

  const InitialState := SelectState("", 0, "", false)

  datatype SelectAction =
    | Expand
    | Collapse
    | InitialSelect(value: string)         // "initial render select" with payload `{value}`
    | SelectOption(payload: Option<Item>)  // "select option"; spreading `undefined` adds nothing
    | SelectIndex(index: int)              // "select index"
    | OtherAction

  /** `reducer(state, action)` */
  function Reduce(s: SelectState, a: SelectAction): SelectState
  {
    match a
    case Expand => s.(expanded := true)
    case Collapse => s.(expanded := false)
    case InitialSelect(v) => if s.value != "" then s else s.(value := v)
    case SelectOption(None) => s
    case SelectOption(Some(o)) => s.(id := o.id, index := o.index, value := o.value)
    case SelectIndex(i) => s.(index := i)
    case OtherAction => s
  }

  /** Expand and collapse only open and close the list; "select index" only moves the index;
      "select option" overlays the option's id, index and value and keeps `expanded`. */
  lemma ReducerFields(s: SelectState, i: int, o: Item)
    ensures Reduce(s, Expand) == s.(expanded := true) && Reduce(s, Collapse) == s.(expanded := false)
    ensures Reduce(s, SelectIndex(i)) == s.(index := i)
    ensures Reduce(s, SelectOption(Some(o))) == SelectState(o.id, o.index, o.value, s.expanded)
    ensures Reduce(s, SelectOption(None)) == s && Reduce(s, OtherAction) == s
  {
  }

  function Replay(s: SelectState, actions: seq<SelectAction>): SelectState
    decreases |actions|
  {
    if actions == [] then s else Replay(Reduce(s, actions[0]), actions[1..])
  }

  /** The "initial render select" each option's effect dispatches with its value. */
  function InitialSelects(values: seq<string>): (actions: seq<SelectAction>)
    ensures |actions| == |values|
    ensures forall k :: 0 <= k < |values| ==> actions[k] == InitialSelect(values[k])
  {
    seq(|values|, k requires 0 <= k < |values| => InitialSelect(values[k]))
  }

  /** The first non-empty value, or "" when there is none. */
  function FirstNonEmpty(values: seq<string>): (v: string)
    ensures v == "" <==> forall k :: 0 <= k < |values| ==> values[k] == ""
  {
    if values == [] then ""
    else if values[0] != "" then values[0]
    else FirstNonEmpty(values[1..])
  }

  /** The value at the first non-empty position is the one `FirstNonEmpty` picks. */
  lemma {:induction false} FirstNonEmptyAt(values: seq<string>, k: int)
    requires 0 <= k < |values| && values[k] != ""
    requires forall j :: 0 <= j < k ==> values[j] == ""
    ensures FirstNonEmpty(values) == values[k]
    decreases k
  {
    if k > 0 {
      FirstNonEmptyAt(values[1..], k - 1);
    }
  }

  /** However many options dispatch "initial render select", the first non-empty value wins,
      and only `value` changes; once a value is chosen they all do nothing. */
  lemma {:induction false} FirstValueWins(s: SelectState, values: seq<string>)
    ensures s.value != "" ==> Replay(s, InitialSelects(values)) == s
    ensures s.value == "" ==> Replay(s, InitialSelects(values)) == s.(value := FirstNonEmpty(values))
    decreases |values|
  {
    if values != [] {
      assert InitialSelects(values)[1..] == InitialSelects(values[1..]);
      FirstValueWins(Reduce(s, InitialSelect(values[0])), values[1..]);
    }
  }

  /** What the `List`'s keydown handler does: whether it prevents the default, what it
      dispatches, and whether it moves the focus back to the button. `childCount` is the number
      of rendered children of the list element, `None` while there is no element. */
  datatype KeyResult = KeyResult(prevented: bool, dispatched: seq<SelectAction>, focusButton: bool)

  function ListKeyDown(s: SelectState, key: int, childCount: Option<nat>): KeyResult
  {
    if key == RETURN || key == ESC then KeyResult(true, [Collapse], true)
    else if key == UP then KeyResult(true, if s.index > 0 then [SelectIndex(s.index - 1)] else [], false)
    else if key == DOWN && childCount.Some? && s.index < childCount.value - 1 then
      KeyResult(true, [SelectIndex(s.index + 1)], false)
    else KeyResult(false, [], false)
  }

  /** The list's keys keep the index within the rendered children: it moves by at most one, never
      below 0 and never past the last child; Return and Esc close the list. */
  lemma ListKeysKeepIndexInBounds(s: SelectState, key: int, n: nat)
    ensures var r := Replay(s, ListKeyDown(s, key, Some(n)).dispatched);
      && (0 <= s.index ==> 0 <= r.index)
      && (s.index < n ==> r.index < n)
      && s.index - 1 <= r.index <= s.index + 1
      && (key == RETURN || key == ESC ==> !r.expanded && ListKeyDown(s, key, Some(n)).focusButton)
      && (key == DOWN && s.index < n - 1 ==> r.index == s.index + 1)
      && (key == UP && s.index > 0 ==> r.index == s.index - 1)
  {
    ListboxKeyCodes();
    var d := ListKeyDown(s, key, Some(n)).dispatched;
    if d != [] {
      assert d[1..] == [];
    }
  }

  /** The Select's state, its pending dispatches and the list's callbacks. */
  class SelectWidget {
    var state: SelectState
    var queue: seq<SelectAction>

    constructor ()
      ensures state == InitialState && queue == []
    {
      state := InitialState;
      queue := [];
    }

    /** The button's click opens the list. */
    method ButtonClick()
      modifies this`queue
      ensures queue == old(queue) + [Expand]
    {
      queue := queue + [Expand];
    }

    /** The list's blur closes it. */
    method ListBlur()
      modifies this`queue
      ensures queue == old(queue) + [Collapse]
    {
      queue := queue + [Collapse];
    }

    /** An option's effect proposes its value while the rendered value is empty. */
    method OptionEffect(value: string)
      modifies this`queue
      ensures queue == old(queue) + (if state.value == "" then [InitialSelect(value)] else [])
    {
      if state.value == "" {
        queue := queue + [InitialSelect(value)];
      }
    }

    /** The `onSelect`/`onChange` the list gives the listbox: ignored while the list is closed;
        otherwise dispatches "select option" and forwards the option to the Select's `onChange`. */
    method ListSelect(option: Option<Item>) returns (forwarded: seq<Option<Item>>)
      modifies this`queue
      ensures !state.expanded ==> queue == old(queue) && forwarded == []
      ensures state.expanded ==> queue == old(queue) + [SelectOption(option)] && forwarded == [option]
    {
      forwarded := [];
      if state.expanded {
        queue := queue + [SelectOption(option)];
        forwarded := [option];
      }
    }

    /** The list's keydown handler. */
    method ListKeyDownHandler(key: int, childCount: Option<nat>) returns (prevented: bool, focusButton: bool)
      modifies this`queue
      ensures var r := ListKeyDown(state, key, childCount);
        queue == old(queue) + r.dispatched && prevented == r.prevented && focusButton == r.focusButton
    {
      prevented, focusButton := false, false;
      if key == RETURN || key == ESC {
        prevented := true;
        queue := queue + [Collapse];
        focusButton := true;
      }
      if key == UP {
        prevented := true;
        if state.index > 0 {
          queue := queue + [SelectIndex(state.index - 1)];
        }
      }
      if key == DOWN {
        if childCount.Some? {
          if state.index < childCount.value - 1 {
            prevented := true;
            queue := queue + [SelectIndex(state.index + 1)];
          }
        }
      }
    }

    /** A render commits the queued actions. */
    method Render()
      modifies this`state, this`queue
      ensures state == Replay(old(state), old(queue)) && queue == []
    {
      state := Replay(state, queue);
      queue := [];
    }
  }

  /** A Select over ford, tesla and toyota: all three effects of the first commit propose their
      value and ford wins; the button opens the list, Down moves to index 1, Return closes it. */
  method SelectWalkThrough() returns (valueAfterMount: string, expandedAfterClick: bool, indexAfterDown: int,
                                      expandedAfterReturn: bool, focusButton: bool)
    ensures valueAfterMount == "ford" && expandedAfterClick
    ensures indexAfterDown == 1 && !expandedAfterReturn && focusButton
  {
    var select := new SelectWidget();
    select.OptionEffect("ford");
    select.OptionEffect("tesla");
    select.OptionEffect("toyota");
    assert select.queue == InitialSelects(["ford", "tesla", "toyota"]);
    FirstValueWins(InitialState, ["ford", "tesla", "toyota"]);
    select.Render();
    valueAfterMount := select.state.value;

    select.ButtonClick();
    select.Render();
    expandedAfterClick := select.state.expanded;

    var prevented;
    ListKeysKeepIndexInBounds(select.state, DOWN, 3);
    prevented, focusButton := select.ListKeyDownHandler(DOWN, Some(3));
    select.Render();
    indexAfterDown := select.state.index;

    ListKeysKeepIndexInBounds(select.state, RETURN, 3);
    prevented, focusButton := select.ListKeyDownHandler(RETURN, Some(3));
    select.Render();
    expandedAfterReturn := select.state.expanded;
  }
}
