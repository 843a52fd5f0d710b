# react-listbox interaction logic, in Dafny

This project models the interaction logic of the accessible listbox widget in the
`react-listbox` repository and proves what its code promises. The widget keeps a focused
option and a selection (one option, or a set of values in multi-select mode). It moves them
on keyboard, click, focus and typeahead input, reports changes to `onChange`/`onSelect`, and
derives `aria-selected` and `aria-activedescendant` from them. The visual tree is not modelled.

Modules, one per source file or concern:

- `Wrappers` — `Option` and `Result`.
- `OptionRecord` — the `{id, index, value}` option record and the `option--<value>--<uid>` id.
- `JsArrays` — the JavaScript array behind `options.current`: slots that may be holes, plus
  properties under negative keys (the first render of every option writes `options.current[-1]`).
- `Utils` — `KEY_CODES`, `composeEventHandlers` and the scroll arithmetic of `focusElement`.
- `Typeahead` — `useFindItemToFocus`: the lowercase buffer, the single pending clear timer and
  the forward scan for the first option text the buffer starts.
- `OptionRegistry` — `useOptionIndex` and the registry writes of `ListboxOption`.
- `Dispatches` — a `dispatch` call with its possibly undefined payload, and the actions a
  queue of them stands for, shared by the current and the older hook.
- `ListboxReducer` — the 7-field state, the three actions and `reducer` of `useListbox`.
- `ListboxHook` — the handlers of `useListbox` as a `Listbox` class. Handlers append their
  `dispatch` calls to a queue. `Render` replays the queue through the reducer, commits the state
  and runs the two notification effects. The pure transition tables are the specification
  functions the handler methods are proved against.
- `ListboxProperties` — what the hook promises: the keyboard table, the first focus, the
  notifications, consistency with the registry, the ARIA projection, and a walk-through.
- `LegacyListbox` — the older hook under `src/listbox/components/Listbox/useListbox.ts`.
- `ItemListbox` — the older `SELECT_ITEM` list, its Up/Down handler and its option counter.
- `SelectStory` — the Select built on the listbox in the stories.

Behaviours of the code a reader might not expect, which the model follows:

- Option indices are never compacted and the counter is never reset. The current option pushes
  its value onto a shared list and takes the position of that push. The older option takes a
  number from a counter on every render.
- The invariant "`focusedIndex` is -1 exactly when `focusedId` is empty" is not kept by the code.
  Each option's first render writes a record under index -1, and Return before any focus
  focuses that record (`ReturnBeforeFocusFindsMinusOneRecord`).
- Controlled mode does touch the internal state. The focus handler and the typeahead's `onFound`
  dispatch in both modes. Only the key and click handlers switch on the mode.
- `aria-selected` compares ids, not indices. `AriaSelectedSingle` and `AriaSelectedMulti` prove
  this agrees with "is the selected index" or "its value is selected" when ids and values are
  distinct.
- In multi-select mode MULTI_SELECT_OPTION does not update `selectedValue`. Home and End dispatch
  SELECT_OPTION even there, so `onSelect` then reports the unchanged map.
- Home on an option that is already focused and selected changes nothing and reports nothing.
- A `focusedIndex` prop of `null` leaves the listbox uncontrolled (`isControlled` tests
  `!= null`), but when `selectedIndex` makes it controlled the controlled key handler does not
  return early on `null`: Down reports option 1 and Return reports `undefined`
  (`ControlledNullFocus`).
- The test at src/index.test.tsx:676-698 expects `onSelect` with Tesla after typing "T" into a
  listbox controlled through `focusedIndex`. The code never reports that: the select effect runs
  only when `isControlled` is false, and `onFound` only dispatches. The test's event also has
  no `which` or `keyCode`, so the typed unit is `String.fromCharCode(0)`. The model follows
  the code: `Effects` reports nothing when controlled, and `Listbox.KeyDown` only queues the
  typeahead's dispatches.

## Model

| member | source | states |
|---|---|---|
| OptionRecord.OptionId | src/components/ListboxOption.tsx:47 | the id is `option--`, then the value, then `--`, then the generated id |
| OptionRecord.OptionIdsDistinct | src/components/ListboxOption.tsx:47 | two options with distinct generated ids get distinct, non-empty ids, whatever their values |
| JsArrays.JsArray.Get | src/hooks/useListbox.ts:165 | reading `options.current[i]`: a slot inside the array, `undefined` at or past the length, and below 0 the property stored under that key, `undefined` without one |
| JsArrays.JsArray.Set | src/components/ListboxOption.tsx:58-59 | writing a slot: only that key changes; writing at or past the length grows the array to index + 1 |
| Utils.KeyOf | src/utils/index.ts:20-36 | maps a code back to the key it stands for, if any |
| Utils.KeyCodesDistinct | src/utils/index.ts:20-36 | the key codes are pairwise distinct, and `KeyOf` inverts `KeyCode` |
| Utils.ListboxKeyCodes | src/utils/index.ts:20-36 | TAB 9, RETURN 13, ESC 27, END 35, HOME 36, UP 38, DOWN 40 |
| Utils.DefinedAt | src/utils/index.ts:40-44 | a defined handler at position i appears among the called handlers, at the position given by the defined handlers before it |
| Utils.DefinedOrder | src/utils/index.ts:40-44 | defined handlers are called in argument order |
| Utils.ComposeEventHandlers | src/utils/index.ts:40-44 | exactly the defined handlers are called, each once, in order, all with the same event |
| Utils.ScrollTopFor | src/utils/index.ts:52-60 | an element below the window aligns bottoms, one above it aligns tops, a visible one keeps `scrollTop` |
| Utils.ScrolledIntoView | src/utils/index.ts:52-60 | an element no taller than the window is visible after the scroll |
| Utils.FocusElement | src/utils/index.ts:46-61 | a missing element or container changes nothing; otherwise `scrollTop` becomes `ScrollTopFor` |
| Typeahead.FromCharCode | src/hooks/useFindItemToFocus.ts:16 | `String.fromCharCode` keeps the code modulo 2^16 |
| Typeahead.LowerUnit | src/hooks/useFindItemToFocus.ts:18 | `toLowerCase` on one code unit: A–Z move down by 32, every other unit is kept |
| Typeahead.Lower | src/hooks/useFindItemToFocus.ts:34 | lowercasing a text lowercases each unit and keeps the length |
| Typeahead.FindFirst | src/hooks/useFindItemToFocus.ts:29-41 | the result is the least index whose text starts with the buffer; missing texts never match; none when nothing matches |
| Typeahead.Finder.constructor | src/hooks/useFindItemToFocus.ts:3-9 | the buffer starts empty, with no timer pending |
| Typeahead.Finder.KeyDown | src/hooks/useFindItemToFocus.ts:11-42 | appends one lowercased unit; replaces any pending timer by a fresh one; reports the first match |
| Typeahead.Finder.TimerFires | src/hooks/useFindItemToFocus.ts:24-27 | only the pending timer clears the buffer; a cancelled one does nothing |
| Typeahead.BrandsWalkThrough | src/hooks/useFindItemToFocus.ts:29-41 | over bmw, ford, tesla, toyota: "t" finds 2, "to" finds 3, and after the timer "b" finds 0 |
| OptionRegistry.LastIndexOf | src/components/ListboxOption.tsx:30-37 | the backward scan returns the last position holding the value, or -1 |
| OptionRegistry.OptionInstance.MountEffect | src/components/ListboxOption.tsx:27-39 | the first mount pushes the value once and takes the length before the push as its index; later calls change nothing |
| OptionRegistry.OptionInstance.Render | src/components/ListboxOption.tsx:58-59 | each render writes the record and the element ref at the option's current index, -1 before mount |
| OptionRegistry.RenderKeepsIndexed | src/components/ListboxOption.tsx:58 | every record in the registry sits at the slot its own index names, and renders keep it so |
| OptionRegistry.MountWalkThrough | src/components/ListboxOption.tsx:24-42 | successive mounts take 0, 1, 2, 3 even with a repeated value; before mount the record sits at -1 |
| ListboxReducer.Toggle | src/hooks/useListbox.ts:129-147 | the value enters the map if absent and leaves it if present; no other key changes |
| ListboxReducer.FocusOnlyFocuses | src/hooks/useListbox.ts:115-121 | FOCUS_OPTION writes only the three focus fields |
| ListboxReducer.SelectOnlySelects | src/hooks/useListbox.ts:122-128 | SELECT_OPTION writes only the three selection fields, leaving `selectedValues` |
| ListboxReducer.MultiSelectToggles | src/hooks/useListbox.ts:129-147 | MULTI_SELECT_OPTION sets `selectedId`/`selectedIndex`, toggles the value and keeps focus and `selectedValue` |
| ListboxReducer.ToggleTwiceRestores | src/hooks/useListbox.ts:129-147 | toggling an absent value twice restores the map |
| ListboxReducer.ToggleTwiceReplaces | src/hooks/useListbox.ts:129-147 | toggling a present value twice leaves it mapped to the latest record |
| ListboxReducer.ReplayAppend | src/hooks/useListbox.ts:311 | replaying two batches in turn equals replaying them together |
| ListboxReducer.FocusThenSelect | src/hooks/useListbox.ts:191-193 | FOCUS then SELECT of one option makes it focused and selected |
| ListboxReducer.FocusThenToggle | src/hooks/useListbox.ts:166-168 | FOCUS then MULTI_SELECT of one option focuses it and toggles its value |
| ListboxReducer.InitialConsistent | src/hooks/useListbox.ts:151-159 | the initial state agrees with any registry |
| ListboxReducer.ReplayKeepsConsistent | src/hooks/useListbox.ts:111-149 | actions whose payloads come from the registry keep the state consistent with it; single mode needs no MULTI_SELECT |
| ListboxHook.ControlledKeyDown | src/hooks/useListbox.ts:198-234 | `preventDefault` is called exactly when the key is not Tab and the controlled focus is neither `undefined` nor negative (a `null` focus goes on); at most one callback, `onChange` only for the arrows and `onSelect` only for Return |
| ListboxHook.Effects | src/hooks/useListbox.ts:340-363 | controlled mode and unchanged state report nothing; the select report comes first and only when `selectedIndex`, `selectedValues` or `selectedValue` changed; it is made, in multi mode with the whole map, in single mode exactly when the index is above -1 with a record; `onChange` comes last, exactly when the focus changed to an index above -1 with a record |
| ListboxHook.AriaSelected | src/hooks/useListbox.ts:380-403 | throws without an index; in controlled mode true exactly when the prop names the index, alone or in its array |
| ListboxHook.ActiveDescendant | src/hooks/useListbox.ts:444-446 | uncontrolled: absent while `focusedId` is empty, otherwise `focusedId` |
| ListboxHook.Listbox.constructor | src/hooks/useListbox.ts:151-159 | starts from the initial state with an empty queue and an empty registry, in which every record sits at its own index |
| ListboxHook.Listbox.WriteOption | src/components/ListboxOption.tsx:58 | an option's render writes its record, whose index is the slot, into the hook's registry; every record still sits at its own index afterwards |
| ListboxHook.Listbox.Render | src/hooks/useListbox.ts:111-112 | commits the reducer's replay of the queue and returns the effects; an undefined payload throws and commits nothing |
| ListboxHook.Listbox.Focus | src/hooks/useListbox.ts:183-196 | queues exactly `FocusDispatches` |
| ListboxHook.Listbox.Click | src/hooks/useListbox.ts:161-181 | controlled: reports the option to `onChange` then `onSelect`; uncontrolled: queues FOCUS then SELECT or MULTI_SELECT |
| ListboxHook.Listbox.OnFound | src/hooks/useListbox.ts:365-368 | queues FOCUS and SELECT of the found option |
| ListboxHook.Listbox.HandleKeyDown | src/hooks/useListbox.ts:236-297 | queues exactly the dispatches of `KeyDownDispatches`, or throws before any on a missing element ref |
| ListboxHook.Listbox.HandleKeyDownControlled | src/hooks/useListbox.ts:198-234 | returns exactly `ControlledKeyDown` and dispatches nothing |
| ListboxHook.Listbox.KeyDown | src/hooks/useListbox.ts:447-454 | the typeahead runs first, then the handler of the mode; controlled mode queues only the typeahead's dispatches |
| ListboxProperties.MoveToFocuses | src/hooks/useListbox.ts:258-263 | a move focuses the option; single-select also selects it; multi-select keeps the selection |
| ListboxProperties.FocusAndSelectBoth | src/hooks/useListbox.ts:286-295 | Home/End's FOCUS+SELECT make the option focused and selected |
| ListboxProperties.OnlyTabPassesThrough | src/hooks/useListbox.ts:246-250 | Tab neither dispatches nor prevents the default; every other key prevents it |
| ListboxProperties.ArrowDownMovesByOne | src/hooks/useListbox.ts:266-278 | Down below the last slot moves the focus by exactly one, selecting in single mode only |
| ListboxProperties.ArrowUpMovesByOne | src/hooks/useListbox.ts:253-265 | Up above 0 moves the focus by exactly one, selecting in single mode only |
| ListboxProperties.ArrowsStopAtEnds | src/hooks/useListbox.ts:253-278 | at the ends the arrows dispatch nothing and the state is unchanged |
| ListboxProperties.ArrowIntoHoleThrows | src/hooks/useListbox.ts:253-278 | an arrow towards an empty slot throws before dispatching |
| ListboxProperties.HomeAndEnd | src/hooks/useListbox.ts:286-295 | Home focuses and selects slot 0 and End the last slot, in both modes |
| ListboxProperties.ReturnOnFocused | src/hooks/useListbox.ts:279-285 | Return keeps the state in single mode and toggles the focused option in multi mode |
| ListboxProperties.FirstFocus | src/hooks/useListbox.ts:183-196 | focus dispatches nothing exactly when `focusedValue` is set; the first focus lands on slot 0 and selects it in single mode only |
| ListboxProperties.MountNotifies | src/hooks/useListbox.ts:340-356 | on mount multi-select reports the empty map and single-select reports nothing |
| ListboxProperties.FirstFocusNotifies | src/hooks/useListbox.ts:340-363 | after the first focus single-select reports option 0 to `onSelect` then `onChange`; multi-select to `onChange` only |
| ListboxProperties.SingleMoveNotifies | src/hooks/useListbox.ts:340-363 | moving to another option in single mode reports it once to each callback |
| ListboxProperties.MultiReturnNotifies | src/hooks/useListbox.ts:279-285 | Return in multi mode reports the toggled map and no focus change |
| ListboxProperties.PointerHandlersReadRegistry | src/hooks/useListbox.ts:161-196 | focus, click and typeahead payloads are registry records; only multi-select toggles |
| ListboxProperties.KeyDownReadsRegistry | src/hooks/useListbox.ts:236-297 | keydown payloads are registry records; only multi-select toggles |
| ListboxProperties.RenderKeepsConsistent | src/hooks/useListbox.ts:111-149 | a render of such a queue keeps the state consistent with the registry |
| ListboxProperties.SingleSelectionFollowsFocus | src/hooks/useListbox.ts:236-297 | in single mode, once focused, every key keeps the selected option equal to the focused one |
| ListboxProperties.FoundSelectionFollowsFocus | src/hooks/useListbox.ts:365-368 | a typeahead match focuses and selects the found option in either mode; no match changes nothing |
| ListboxProperties.DistinctSlots | src/components/ListboxOption.tsx:47 | slots with equal ids or equal values are one slot, given distinct ids and values |
| ListboxProperties.AriaSelectedSingle | src/hooks/useListbox.ts:400-402 | single-select: `aria-selected` exactly for the selected index |
| ListboxProperties.AriaSelectedMulti | src/hooks/useListbox.ts:396-399 | multi-select: `aria-selected` exactly for values in `selectedValues` |
| ListboxProperties.ActiveDescendantAfterFirstFocus | src/hooks/useListbox.ts:444-446 | absent before the first focus, then the id of option 0 |
| ListboxProperties.ControlledArrows | src/hooks/useListbox.ts:214-232 | controlled Up/Down report the in-bounds neighbour to `onChange`; Return reports the focused option to `onSelect` |
| ListboxProperties.ControlledNullFocus | src/hooks/useListbox.ts:206-232 | a `null` controlled focus is not an early return: Down reports option 1 at any length, Return reports `undefined` to `onSelect`, Up reports nothing |
| ListboxProperties.ReturnBeforeFocusFindsMinusOneRecord | src/hooks/useListbox.ts:279-281 | Return before any focus focuses the record at -1: `focusedIndex` stays -1 with a non-empty `focusedId` |
| ListboxProperties.PressAndRender | src/hooks/useListbox.ts:236-297 | a key press and its render commit the keydown table's dispatches and report their effects |
| ListboxProperties.Mount | src/hooks/useListbox.ts:340-363 | mounting three options commits the initial state and reports nothing in single mode |
| ListboxProperties.MountAndFocus | src/hooks/useListbox.ts:183-196 | mounting three options and focusing reports nothing, then ford to `onSelect` and `onChange` |
| ListboxProperties.ArrowAndRender | src/hooks/useListbox.ts:253-278 | in single mode an arrow move to an option and its render leave it focused and selected and report it to `onSelect`, then `onChange` |
| ListboxProperties.SingleSelectWalkThrough | src/hooks/useListbox.ts:253-278 | Down, Down, Down at the end, Up report tesla, toyota, nothing, tesla |
| LegacyListbox.ReducerFields | src/listbox/components/Listbox/useListbox.ts:72-93 | FOCUS_OPTION keeps `selectedValue`; SELECT_OPTION keeps `activeId` |
| LegacyListbox.Notify | src/listbox/components/Listbox/useListbox.ts:108 | a missing callback is not called and reads nothing; reading the value of an empty slot throws; otherwise the callback gets the option's value |
| LegacyListbox.LegacyHook.Register | src/listbox/components/Listbox/useListbox.ts:185-191 | the effect stores `{id, index, value}` at `options[index]`, with the id `option--${value}--${stableId}` |
| LegacyListbox.LegacyHook.Focus | src/listbox/components/Listbox/useListbox.ts:102-110 | queues and reports exactly `FocusOutcome` |
| LegacyListbox.LegacyHook.KeyDown | src/listbox/components/Listbox/useListbox.ts:112-149 | queues and reports exactly `KeyDownOutcome` |
| LegacyListbox.LegacyHook.Click | src/listbox/components/Listbox/useListbox.ts:170-176 | reports first and then queues, exactly as `ClickOutcome` |
| LegacyListbox.LegacyHook.Render | src/listbox/components/Listbox/useListbox.ts:158 | commits the reducer's replay of the queue; an undefined payload throws |
| LegacyListbox.ArrowsBeforeFocus | src/listbox/components/Listbox/useListbox.ts:95-100 | with `activeIndex` starting at 0, Up first does nothing and Down first moves to index 1 |
| LegacyListbox.ArrowsMoveByOne | src/listbox/components/Listbox/useListbox.ts:123-138 | Up/Down move by one and report the new value; nothing at the ends |
| LegacyListbox.ReturnSelectsActive | src/listbox/components/Listbox/useListbox.ts:139-147 | Return selects the focused value, moves nothing and reports that value to `onSelect` |
| LegacyListbox.FocusOnce | src/listbox/components/Listbox/useListbox.ts:102-110 | the first focus makes option 0 active and reports it; later focus does nothing |
| LegacyListbox.ClickFocusesAndSelects | src/listbox/components/Listbox/useListbox.ts:170-176 | a click reports the value to both callbacks and makes the option active and selected |
| ItemListbox.SelectItemReplacesState | src/listbox/components/Listbox/useListboxState.ts:29-41 | SELECT_ITEM replaces the whole state whatever it was, and is idempotent; other actions change nothing |
| ItemListbox.LastSelectWins | src/listbox/components/Listbox/useListboxState.ts:29-41 | after any actions the state is the last SELECT_ITEM's payload, or the starting state when no SELECT_ITEM was dispatched |
| ItemListbox.OnlyArrowsAccepted | src/listbox/components/Listbox/index.tsx:28-49 | every key other than Up and Down throws, Tab and Return included |
| ItemListbox.ArrowsSelectNeighbour | src/listbox/components/Listbox/index.tsx:32-45 | Up and Down select the neighbouring slot and stop at 0 and at the last slot |
| ItemListbox.ItemList.constructor | src/listbox/components/Listbox/index.tsx:18 | the option counter starts at 0 |
| ItemListbox.ItemList.CheckKeyPress | src/listbox/components/Listbox/index.tsx:28-49 | queues exactly the table's payloads, or throws |
| ItemListbox.ItemList.Render | src/listbox/components/Listbox/useListboxState.ts:49-54 | commits the last queued payload; an undefined payload throws |
| ItemListbox.ItemOption.constructor | src/listbox/components/ListboxOption/index.tsx:13-15 | a new option has claimed no index yet and its id is `option--${value}--${uid}`, built like the current option's |
| ItemListbox.ItemOption.Render | src/listbox/components/ListboxOption/index.tsx:13 | each render takes one number from the counter; the index is the one taken first |
| ItemListbox.CounterWalkThrough | src/listbox/components/ListboxOption/index.tsx:13 | three first renders take 0, 1, 2; a re-render keeps 0 but uses up 3, so the next option takes 4 |
| SelectStory.ReducerFields | src/stories/select/components.tsx:212-245 | expand/collapse touch only `expanded`; select index only `index`; select option overlays the record |
| SelectStory.InitialSelects | src/stories/select/components.tsx:199-206 | each option effect proposes its own value |
| SelectStory.FirstNonEmpty | src/stories/select/components.tsx:224-231 | empty exactly when every proposed value is empty |
| SelectStory.FirstNonEmptyAt | src/stories/select/components.tsx:224-231 | the pick is the value at the first non-empty position |
| SelectStory.FirstValueWins | src/stories/select/components.tsx:224-231 | the first non-empty proposal wins and later ones change nothing |
| SelectStory.ListKeysKeepIndexInBounds | src/stories/select/components.tsx:164-185 | the index moves by at most one, stays at or above 0 and below the child count; Return/Esc close the list |
| SelectStory.SelectWidget.constructor | src/stories/select/components.tsx:21-26 | the initial state |
| SelectStory.SelectWidget.ButtonClick | src/stories/select/components.tsx:107 | the button queues expand |
| SelectStory.SelectWidget.ListBlur | src/stories/select/components.tsx:163 | blur queues collapse |
| SelectStory.SelectWidget.OptionEffect | src/stories/select/components.tsx:199-206 | an option proposes its value only while the rendered value is empty |
| SelectStory.SelectWidget.ListSelect | src/stories/select/components.tsx:136-144 | ignored while closed; otherwise queues select option and forwards the option |
| SelectStory.SelectWidget.ListKeyDownHandler | src/stories/select/components.tsx:164-185 | queues exactly the list's key table |
| SelectStory.SelectWidget.Render | src/stories/select/components.tsx:256 | commits the reducer's replay of the queue |
| SelectStory.SelectWalkThrough | src/stories/select/components.tsx:164-245 | ford wins the first commit; the button opens, Down moves to 1, Return closes and refocuses the button |

## Left out

- React scheduling is reduced to an explicit `Render` step that replays the queued dispatches and then runs the effects. Batching, StrictMode double rendering and what React does after a render throws are not modelled.
- The two effect callbacks, `onChange` and `onSelect`, are assumed passed and stable in the current hook, so their identity never triggers an effect. The older hook models their presence.
- `Effects` compares `selectedValues` by contents, while React compares the object's identity. They agree per action, because each MULTI_SELECT_OPTION makes a new map whose contents differ. They can disagree per render: a batch that toggles one value twice ends with a new object with the old contents, on which React re-runs the select effect and `Effects` reports nothing. Such a batch is not modelled.
- The JavaScript object behind `selectedValues` is a `map`. Key order and inherited prototype keys such as `constructor` are not modelled.
- `focusElement`'s geometry is not read by the hook model. The hook model keeps only the throw on a missing element ref.
- The DOM reads are parameters. The typeahead's option texts are `seq<Option<Text>>`. The controlled `aria-activedescendant` is read from the children's ids. The Select's child count is a parameter.
- Timers are explicit: `TimerFires(id)` stands for `setTimeout` expiring, and timer ids come from a counter.
- Lowercasing covers ASCII A–Z only; full Unicode `toLowerCase` is not modelled.
- Generated ids (`useId`) are given strings.
- The controlled `aria-activedescendant` effect reads `children[focusedIndex]` whenever the prop is not `undefined`; with `null` that read throws. The effect is a parameter of `ActiveDescendant`, so this throw is not modelled.
- The consumer's own `onClick`/`onKeyDown`/`onFocus` are not modelled in the hook. They run first through `composeEventHandlers`, which `Utils.ComposeEventHandlers` models on its own.
- Ref merging, the context providers, the JSX components and the stories' markup are not modelled.
- SelectStory.SelectWidget.ListSelect: a "select option" whose payload is the multi-select map is not modelled, because the Select's listbox is controlled and only reports single options.
- The older list's `options.current` is a parameter. No code shown writes it.
