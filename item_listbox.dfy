/** The older generation's list component: the `SELECT_ITEM` reducer of
    src/listbox/components/Listbox/useListboxState.ts, the keyboard handler and the shared option
    counter of src/listbox/components/Listbox/index.tsx, and the index an option claims from that
    counter in src/listbox/components/ListboxOption/index.tsx. */
module ItemListbox {
  import opened Wrappers
  import opened OptionRecord
  import opened JsArrays
  import opened Utils
  import OptionRegistry

  datatype ItemState = ItemState(activeId: string, activeIndex: int, selectedValue: string)

  const InitialState := ItemState("", 0, "")

  /** `SELECT_ITEM` with its payload, or an action of any other type. */
  datatype ItemAction = SelectItem(payload: Item) | OtherAction

  /** `reducer(state, action)` */
  function Reduce(s: ItemState, a: ItemAction): ItemState
  {
    match a
    case SelectItem(o) => ItemState(o.id, o.index, o.value)
    case OtherAction => s
  }

  /** SELECT_ITEM replaces the whole state with the payload's fields, whatever the state was;
      applying it twice is applying it once; any other action leaves the state as it is. */
  lemma SelectItemReplacesState(s: ItemState, t: ItemState, o: Item)
    ensures Reduce(s, SelectItem(o)) == Reduce(t, SelectItem(o)) == ItemState(o.id, o.index, o.value)
    ensures Reduce(Reduce(s, SelectItem(o)), SelectItem(o)) == Reduce(s, SelectItem(o))
    ensures Reduce(s, OtherAction) == s
  {
  }

  function Replay(s: ItemState, actions: seq<ItemAction>): ItemState
  {
    if actions == [] then s else Reduce(Replay(s, actions[..|actions| - 1]), actions[|actions| - 1])
  }

  /** After any sequence of actions the state is the payload of the last SELECT_ITEM in it,
      at index `k`, or the starting state when there is none (`k == -1`). */
  lemma {:induction false} LastSelectWins(s: ItemState, actions: seq<ItemAction>, k: int)
    requires -1 <= k < |actions| && (k >= 0 ==> actions[k].SelectItem?)
    requires forall j :: k < j < |actions| ==> actions[j] == OtherAction
    ensures Replay(s, actions) ==
              if k < 0 then s else ItemState(actions[k].payload.id, actions[k].payload.index, actions[k].payload.value)
    decreases |actions|
  {
    if k < |actions| - 1 {
      var prefix := actions[..|actions| - 1];
      assert k >= 0 ==> prefix[k] == actions[k];
      LastSelectWins(s, prefix, k);
    }
  }

  datatype KeyFailure =
    | Sad                // `throw new Error("sad")` for any key but Up and Down
    | PayloadUndefined   // the reducer destructures an undefined payload during render

  /** `checkKeyPress`: the payloads it dispatches with SELECT_ITEM, or the error it throws. */
  function KeyPressOutcome(s: ItemState, options: JsArray<Item>, key: int): Result<seq<Option<Item>>, KeyFailure>
  {
    var i := s.activeIndex;
    if key == UP then Ok(if i > 0 then [options.Get(i - 1)] else [])
    else if key == DOWN then Ok(if i != options.Length() - 1 then [options.Get(i + 1)] else [])
    else Err(Sad)
  }

  /** Any key but Up and Down throws, Tab and Return included. */
  lemma OnlyArrowsAccepted(s: ItemState, options: JsArray<Item>, key: int)
    ensures KeyPressOutcome(s, options, key).Err? <==> key != UP && key != DOWN
    ensures KeyPressOutcome(s, options, TAB) == Err(Sad) && KeyPressOutcome(s, options, RETURN) == Err(Sad)
  {
    ListboxKeyCodes();
  }

  /** Up and Down select the neighbouring slot, stopping at index 0 and at the last slot. */
  lemma ArrowsSelectNeighbour(s: ItemState, options: JsArray<Item>)
    requires OptionRegistry.Indexed(options)
    ensures s.activeIndex <= 0 ==> KeyPressOutcome(s, options, UP) == Ok([])
    ensures s.activeIndex > 0 && options.Get(s.activeIndex - 1).Some? ==>
              KeyPressOutcome(s, options, UP).Ok? &&
              Reduce(s, SelectItem(KeyPressOutcome(s, options, UP).value[0].value)).activeIndex == s.activeIndex - 1
    ensures s.activeIndex == options.Length() - 1 ==> KeyPressOutcome(s, options, DOWN) == Ok([])
    ensures s.activeIndex != options.Length() - 1 && options.Get(s.activeIndex + 1).Some? ==>
              KeyPressOutcome(s, options, DOWN).Ok? &&
              Reduce(s, SelectItem(KeyPressOutcome(s, options, DOWN).value[0].value)).activeIndex == s.activeIndex + 1
  {
    ListboxKeyCodes();
  }

  /** One `Listbox` of the older generation. */
  class ItemList {
    var state: ItemState
    /** SELECT_ITEM payloads not yet processed by a render. */
    var queue: seq<Option<Item>>
    /** `options.current` */
    var options: JsArray<Item>
    /** `currentIndexRef.current`, shared by the options of this list. */
    var nextIndex: int

    constructor ()
      ensures state == InitialState && queue == [] && options == Empty() && nextIndex == 0
    {
      state := InitialState;
      queue := [];
      options := Empty();
      nextIndex := 0;
    }

    /** `checkKeyPress(e)` */
    method CheckKeyPress(key: int) returns (r: Result<(), KeyFailure>)
      modifies this`queue
      ensures KeyPressOutcome(state, options, key).Ok? ==>
                r == Ok(()) && queue == old(queue) + KeyPressOutcome(state, options, key).value
      ensures KeyPressOutcome(state, options, key).Err? ==> r == Err(Sad) && queue == old(queue)
    {
      if key == UP {
        if state.activeIndex > 0 {
          queue := queue + [options.Get(state.activeIndex - 1)];
        }
      } else if key == DOWN {
        if state.activeIndex != options.Length() - 1 {
          queue := queue + [options.Get(state.activeIndex + 1)];
        }
      } else {
        return Err(Sad);
      }
      r := Ok(());
    }

    /** A render: reduces the queued SELECT_ITEM actions; an undefined payload throws and
        nothing is committed. */
    method Render() returns (r: Result<ItemState, KeyFailure>)
      modifies this`state, this`queue
      ensures queue == []
      ensures r.Ok? <==> forall k :: 0 <= k < |old(queue)| ==> old(queue)[k].Some?
      ensures r.Ok? ==> state == r.value &&
                        (old(queue) == [] ==> state == old(state)) &&
                        (old(queue) != [] ==> var o := old(queue)[|old(queue)| - 1].value; state == ItemState(o.id, o.index, o.value))
      ensures r.Err? ==> r.error == PayloadUndefined && state == old(state)
    {
      var next := state;
      var i := 0;
      while i < |queue|
        invariant 0 <= i <= |queue|
        invariant forall k :: 0 <= k < i ==> queue[k].Some?
        invariant i == 0 ==> next == state
        invariant i > 0 ==> var o := queue[i - 1].value; next == ItemState(o.id, o.index, o.value)
      {
        if queue[i].None? {
          queue := [];
          return Err(PayloadUndefined);
        }
        next := Reduce(next, SelectItem(queue[i].value));
        i := i + 1;
      }
      state := next;
      queue := [];
      r := Ok(next);
    }
  }

  /** One `ListboxOption` of the older generation. */
  class ItemOption {
    const value: string
    const uid: string
    /** The element id, `option--${value}--${uid}`. */
    const id: string
    /** The `useRef` cell holding the option's index, empty before the first render. */
    var claimed: Option<int>

    constructor (value: string, uid: string)
      ensures this.value == value && this.uid == uid && claimed == None
      ensures id == OptionId(value, uid)
    {
      this.value := value;
      this.uid := uid;
      id := OptionId(value, uid);
      claimed := None;
    }

    /** A render: `useRef(currentIndexRef.current++).current` takes a number from the counter
        on every render, and keeps the one taken on the first. */
    method Render(list: ItemList) returns (index: int)
      modifies this`claimed, list`nextIndex
      ensures list.nextIndex == old(list.nextIndex) + 1
      ensures old(claimed).Some? ==> claimed == old(claimed)
      ensures old(claimed).None? ==> claimed == Some(old(list.nextIndex))
      ensures claimed == Some(index)
    {
      var taken := list.nextIndex;
      list.nextIndex := taken + 1;
      if claimed.None? {
        claimed := Some(taken);
      }
      index := claimed.value;
    }
  }

  /** Three options rendered in turn take 0, 1 and 2; a re-render of the first keeps 0 but
      uses up 3, so an option rendered after it takes 4. */
  method CounterWalkThrough() returns (first: int, second: int, third: int, firstAgain: int, fourth: int)
    ensures first == 0 && second == 1 && third == 2
    ensures firstAgain == 0 && fourth == 4
  {
    var list := new ItemList();
    var ford := new ItemOption("ford", "u0");
    var tesla := new ItemOption("tesla", "u1");
    var toyota := new ItemOption("toyota", "u2");
    var bmw := new ItemOption("bmw", "u3");
    first := ford.Render(list);
    second := tesla.Render(list);
    third := toyota.Render(list);
    firstAgain := ford.Render(list);
    fourth := bmw.Render(list);
  }
}
