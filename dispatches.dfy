/** The `dispatch` calls of the listbox hooks, shared by every reducer whose actions carry an
    option record as payload. `K` is the reducer's set of action types. */
module Dispatches {
  import opened Wrappers
  import opened OptionRecord

  /** An action as the reducer receives it. */
  datatype Action<K> = Action(kind: K, payload: Item)

  /** One `dispatch` call: its action type and its payload, which is `undefined` when the
      handler read an empty slot of `options.current`. */
  datatype Dispatched<K> = Dispatched(kind: K, payload: Option<Item>)

  /** No dispatch in the queue carries an undefined payload. */
  predicate AllDefined<K>(queue: seq<Dispatched<K>>)
  {
    forall k :: 0 <= k < |queue| ==> queue[k].payload.Some?
  }

  /** The actions a fully defined queue stands for, in dispatch order. */
  function Actions<K>(queue: seq<Dispatched<K>>): (actions: seq<Action<K>>)
    requires AllDefined(queue)
    ensures |actions| == |queue|
    ensures forall k :: 0 <= k < |queue| ==> actions[k] == Action(queue[k].kind, queue[k].payload.value)
  {
    if queue == [] then []
    else Actions(queue[..|queue| - 1]) + [Action(queue[|queue| - 1].kind, queue[|queue| - 1].payload.value)]
  }
}
