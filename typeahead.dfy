/** src/hooks/useFindItemToFocus.ts: the typeahead matcher. Every keydown appends the typed
    character to a rolling buffer, replaces the pending clear timer, and scans the option texts
    from the first one for a text that starts with the buffer. */
module Typeahead {
  import opened Wrappers

  /** A UTF-16 code unit: what one position of a JavaScript string holds. */
  newtype CodeUnit = x: int | 0 <= x < 0x1_0000

  /** A JavaScript string. */
  type Text = seq<CodeUnit>

  /** The default delay, in milliseconds, after which the buffer is cleared. */
  const DEFAULT_DELAY: nat := 500

  /** `String.fromCharCode(code)`: the code reduced to 16 bits. */
  function FromCharCode(code: int): (c: CodeUnit)
    ensures 0 <= code < 0x1_0000 ==> c as int == code
    ensures (c as int - code) % 0x1_0000 == 0
  {
    (code % 0x1_0000) as CodeUnit
  }

  /** `toLowerCase` on one code unit, for the ASCII letters. */
  function LowerUnit(c: CodeUnit): (l: CodeUnit)
    ensures 'A' as CodeUnit <= c <= 'Z' as CodeUnit ==> l as int == c as int + 32
    ensures !('A' as CodeUnit <= c <= 'Z' as CodeUnit) ==> l == c
  {
    if 'A' as CodeUnit <= c <= 'Z' as CodeUnit then c + 32 else c
  }

  /** `toLowerCase` on a string, for the ASCII letters. */
  function Lower(t: Text): (l: Text)
    ensures |l| == |t|
    ensures forall i :: 0 <= i < |t| ==> l[i] == LowerUnit(t[i])
  {
    seq(|t|, i requires 0 <= i < |t| => LowerUnit(t[i]))
  }

  /** The option node at this position exists, has text, and its lowercased text starts with
      the typed characters. */
  predicate Matches(node: Option<Text>, typed: Text)
  {
    node.Some? && typed <= Lower(node.value)
  }

  /** The scan loop: the first node, counting from index 0, whose text starts with `typed`.
      Missing nodes and nodes without text are skipped. */
  method FindFirst(nodes: seq<Option<Text>>, typed: Text) returns (found: Option<nat>)
    ensures found.Some? ==> found.value < |nodes| && Matches(nodes[found.value], typed)
    ensures found.Some? ==> forall j :: 0 <= j < found.value ==> !Matches(nodes[j], typed)
    ensures found.None? ==> forall j :: 0 <= j < |nodes| ==> !Matches(nodes[j], typed)
  {
    found := None;
    var index := 0;
    while index < |nodes|
      invariant 0 <= index <= |nodes|
      invariant forall j :: 0 <= j < index ==> !Matches(nodes[j], typed)
    {
      if nodes[index].None? {
        index := index + 1;
        continue;
      }
      var optionText := Lower(nodes[index].value);
      if typed <= optionText {
        found := Some(index);
        break;
      }
      index := index + 1;
    }
  }

  /** The state of one `useFindItemToFocus` instance: the `cacheTypedChars` and `timeoutId`
      refs, together with the part of the host's timer table that belongs to it. */
  class Finder {
    /** `cacheTypedChars.current` */
    var typed: Text
    /** `timeoutId.current`; 0 while no timer was ever scheduled (`undefined`). */
    var timeoutId: nat
    /** The clear timers this instance scheduled that have neither fired nor been cancelled. */
    var pending: set<nat>
    /** The id the host's `setTimeout` hands out next; host timer ids are positive. */
    var nextTimerId: nat
    /** The delay after which the buffer is cleared. */
    const delay: nat

    /** Every pending timer is the one `timeoutId` holds: at most one clear timer is alive. */
    ghost predicate Valid()
      reads this
    {
      0 < nextTimerId && timeoutId < nextTimerId && pending <= {timeoutId} && 0 !in pending
    }

    constructor (delay: nat)
      ensures Valid()
      ensures typed == [] && timeoutId == 0 && pending == {} && this.delay == delay
    {
      typed := [];
      timeoutId := 0;
      pending := {};
      nextTimerId := 1;
      this.delay := delay;
    }

    /** The keydown closure. `nodes` is the result of querying the option nodes' text
        (`None` when the list element is not mounted). The result is the index handed to
        `onFound`; `onFound` is called at most once. */
    method KeyDown(key: int, nodes: Option<seq<Option<Text>>>) returns (found: Option<nat>)
      requires Valid()
      modifies this
      ensures Valid()
      ensures typed == old(typed) + [LowerUnit(FromCharCode(key))]
      ensures pending == {timeoutId} && timeoutId !in old(pending) && timeoutId != old(timeoutId)
      ensures nodes.None? ==> found.None?
      ensures nodes.Some? && found.Some? ==>
                found.value < |nodes.value| && Matches(nodes.value[found.value], typed) &&
                forall j :: 0 <= j < found.value ==> !Matches(nodes.value[j], typed)
      ensures nodes.Some? && found.None? ==> forall j :: 0 <= j < |nodes.value| ==> !Matches(nodes.value[j], typed)
    {
      var character := FromCharCode(key);
      typed := typed + [LowerUnit(character)];
      if timeoutId != 0 {
        pending := pending - {timeoutId};
      }
      timeoutId := nextTimerId;
      pending := pending + {timeoutId};
      nextTimerId := nextTimerId + 1;
      found := None;
      if typed != [] && nodes.Some? {
        found := FindFirst(nodes.value, typed);
      }
    }

    /** The host runs timer `id`: if it is this instance's pending clear timer, the buffer
        becomes empty. */
    method TimerFires(id: nat)
      requires Valid()
      modifies this
      ensures Valid()
      ensures id in old(pending) ==> typed == [] && pending == {} && timeoutId == old(timeoutId)
      ensures id !in old(pending) ==> typed == old(typed) && pending == old(pending) && timeoutId == old(timeoutId)
    {
      if id in pending {
        pending := pending - {id};
        typed := [];
      }
    }
  }

  /** A string literal as code units. */
  function Units(s: string): (t: Text)
    ensures |t| == |s|
  {
    seq(|s|, i requires 0 <= i < |s| => ((s[i] as int) % 0x1_0000) as CodeUnit)
  }

  /** The typeahead walk-through of the listbox tests with the texts BMW, Ford, Tesla and
      Toyota: "t" finds Tesla; "o" typed before the timer fires extends the buffer to "to"
      and finds Toyota; after the timer fires, "b" alone finds BMW. */
  method BrandsWalkThrough() returns (afterT: Option<nat>, afterTo: Option<nat>, afterB: Option<nat>)
    ensures afterT == Some(2) && afterTo == Some(3) && afterB == Some(0)
  {
    var nodes := [Some(Units("BMW")), Some(Units("Ford")), Some(Units("Tesla")), Some(Units("Toyota"))];
    assert Lower(Units("BMW"))[0] == 'b' as CodeUnit;
    assert Lower(Units("Ford"))[0] == 'f' as CodeUnit;
    assert Lower(Units("Tesla"))[..2] == [116, 101];
    assert Lower(Units("Toyota"))[..2] == [116, 111];
    var finder := new Finder(DEFAULT_DELAY);
    afterT := finder.KeyDown('T' as int, Some(nodes));
    assert finder.typed == [116];
    assert !Matches(nodes[0], [116]) && !Matches(nodes[1], [116]) && Matches(nodes[2], [116]);
    afterTo := finder.KeyDown('O' as int, Some(nodes));
    assert finder.typed == [116, 111];
    assert !Matches(nodes[0], [116, 111]) && !Matches(nodes[1], [116, 111]);
    assert !Matches(nodes[2], [116, 111]) by {
      assert Lower(Units("Tesla"))[1] == 101;
    }
    assert Matches(nodes[3], [116, 111]);
    finder.TimerFires(finder.timeoutId);
    afterB := finder.KeyDown('B' as int, Some(nodes));
    assert finder.typed == [98];
    assert Matches(nodes[0], [98]);
  }
}
