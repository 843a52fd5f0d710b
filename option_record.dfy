/** The option record shared by every generation of the listbox: `IOption` in
    src/hooks/useListbox.ts and src/listbox/components/Listbox/useListbox.ts,
    `IItem` in src/listbox/components/Listbox/useListboxState.ts. */
module OptionRecord {

  /** An option's element id, its slot among the registered options and its caller-supplied value. */
  datatype Item = Item(id: string, index: int, value: string)

  /** The record that stands for "nothing": what the empty focus and selection fields of a
      freshly mounted listbox spell out. */
  const Blank := Item("", -1, "")

  /** The element id an option renders with: "option--" + value + "--" + the generated id. */
  function OptionId(value: string, uid: string): (id: string)
    ensures |id| == 10 + |value| + |uid|
    ensures id[..8] == "option--" && id[8..8 + |value|] == value
    ensures id[8 + |value|..10 + |value|] == "--" && id[10 + |value|..] == uid
  {
    "option--" + value + "--" + uid
  }

  /** Two option instances with the same value get distinct element ids as long as their
      generated ids are distinct, and no id is ever empty. */
  lemma OptionIdsDistinct(value: string, uid1: string, uid2: string)
    requires uid1 != uid2
    ensures OptionId(value, uid1) != OptionId(value, uid2)
    ensures OptionId(value, uid1) != ""
  {
  }
}
