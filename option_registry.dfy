/** src/components/ListboxOption.tsx: how an option of the current listbox claims its index.
    Each option's mount effect appends its value to the shared values list and scans the list
    backwards for that value; every render writes the option's record and element ref at its
    index. Nothing is ever removed, so indices are never compacted. */
module OptionRegistry {
  import opened Wrappers
  import opened OptionRecord
  import opened JsArrays

  /** The refs the listbox shares with its options. */
  class Registry {
    /** `valuesRef.current` */
    var values: seq<string>
    /** `options.current` */
    var options: JsArray<Item>
    /** `optionsRef.current`: the element ref of each option, as an opaque token. */
    var elements: JsArray<nat>

    constructor ()
      ensures values == [] && options == Empty() && elements == Empty()
    {
      values := [];
      options := Empty();
      elements := Empty();
    }
  }

  /** The backward scan of the mount effect: the last position holding `value`, or -1. */
  method LastIndexOf(values: seq<string>, value: string) returns (index: int)
    ensures -1 <= index < |values|
    ensures index >= 0 ==> values[index] == value
    ensures forall j :: index < j < |values| ==> values[j] != value
  {
    index := -1;
    var i := |values| - 1;
    while i >= 0
      invariant -1 <= i < |values|
      invariant index == -1
      invariant forall j :: i < j < |values| ==> values[j] != value
    {
      var currentValue := values[i];
      if currentValue == value {
        index := i;
        break;
      }
      i := i - 1;
    }
  }

  /** One mounted `ListboxOption`. */
  class OptionInstance {
    const value: string
    /** The id `useId()` generated for this instance. */
    const uid: string
    /** The element ref this instance renders with. */
    const elementRef: nat
    /** The `index` state of `useOptionIndex`: -1 until the mount effect has run. */
    var index: int
    /** Whether the mount effect (empty dependency list) has run. */
    var registered: bool

    constructor (value: string, uid: string, elementRef: nat)
      ensures this.value == value && this.uid == uid && this.elementRef == elementRef
      ensures index == -1 && !registered
    {
      this.value := value;
      this.uid := uid;
      this.elementRef := elementRef;
      index := -1;
      registered := false;
    }

    /** The element id of this option. */
    function Id(): string
    {
      OptionId(value, uid)
    }

    /** The mount effect of `useOptionIndex`: runs once per mount, appends the value once and
        takes the position it was appended at, even when the value occurs earlier as well. */
    method MountEffect(registry: Registry)
      modifies this, registry
      ensures registered
      ensures !old(registered) ==> registry.values == old(registry.values) + [value] && index == |old(registry.values)|
      ensures old(registered) ==> registry.values == old(registry.values) && index == old(index)
      ensures registry.options == old(registry.options) && registry.elements == old(registry.elements)
    {
      if registered {
        return;
      }
      registry.values := registry.values + [value];
      assert registry.values[|registry.values| - 1] == value;
      var i := LastIndexOf(registry.values, value);
      if i >= 0 {
        index := i;
      }
      registered := true;
    }

    /** A render: writes `{id, value, index}` into `options.current[index]` and the element
        ref into `optionsRef.current[index]`, whatever `index` currently is (-1 before the
        mount effect has run). */
    method Render(registry: Registry)
      modifies registry
      ensures registry.options == old(registry.options).Set(index, Item(Id(), index, value))
      ensures registry.elements == old(registry.elements).Set(index, elementRef)
      ensures registry.values == old(registry.values)
    {
      registry.options := registry.options.Set(index, Item(Id(), index, value));
      registry.elements := registry.elements.Set(index, elementRef);
    }
  }

  /** Every record of the registry sits at the slot its `index` names. */
  ghost predicate Indexed(options: JsArray<Item>)
  {
    forall i :: options.Get(i).Some? ==> options.Get(i).value.index == i
  }

  /** A render keeps every record at the slot its `index` names. */
  lemma RenderKeepsIndexed(options: JsArray<Item>, index: int, id: string, value: string)
    requires Indexed(options)
    ensures Indexed(options.Set(index, Item(id, index, value)))
  {
    var after := options.Set(index, Item(id, index, value));
    forall i | after.Get(i).Some?
      ensures after.Get(i).value.index == i
    {
      if i != index {
        assert after.Get(i) == options.Get(i);
      }
    }
  }

  /** Three options mount in order, two of them with the same value; then the first one
      unmounts (there is no cleanup) and a new one mounts. The indices are 0, 1, 2 and then 3:
      consecutive, unaffected by the repeated value, and not compacted. Before its mount
      effect has run, the first render of an option writes its record under the key -1. */
  method MountWalkThrough() returns (i0: int, i1: int, i2: int, i3: int, beforeMount: Option<Item>)
    ensures i0 == 0 && i1 == 1 && i2 == 2 && i3 == 3
    ensures beforeMount == Some(Item(OptionId("ford", "u0"), -1, "ford"))
  {
    var registry := new Registry();
    var ford := new OptionInstance("ford", "u0", 0);
    var tesla := new OptionInstance("tesla", "u1", 1);
    var ford2 := new OptionInstance("ford", "u2", 2);
    ford.Render(registry);
    beforeMount := registry.options.Get(-1);
    ford.MountEffect(registry);
    tesla.MountEffect(registry);
    ford2.MountEffect(registry);
    i0, i1, i2 := ford.index, tesla.index, ford2.index;
    var late := new OptionInstance("toyota", "u3", 3);
    late.MountEffect(registry);
    i3 := late.index;
  }
}
