/** src/utils/index.ts: the key-code table, event-handler composition and the
    scroll-into-view arithmetic of `focusElement`. */
module Utils {
  import opened Wrappers

  /** The named keys of `KEY_CODES`. */
  datatype Key =
    | Backspace | Tab | Return | Esc | Space | PageUp | PageDown
    | End | Home | Left | Up | Right | Down | Delete | Shift

  /** `KEY_CODES[k]` */
  function KeyCode(k: Key): int
  {
    match k
    case Backspace => 8
    case Tab => 9
    case Return => 13
    case Esc => 27
    case Space => 32
    case PageUp => 33
    case PageDown => 34
    case End => 35
    case Home => 36
    case Left => 37
    case Up => 38
    case Right => 39
    case Down => 40
    case Delete => 46
    case Shift => 16
  }

  const TAB := KeyCode(Tab)
  const RETURN := KeyCode(Return)
  const ESC := KeyCode(Esc)
  const END := KeyCode(End)
  const HOME := KeyCode(Home)
  const UP := KeyCode(Up)
  const DOWN := KeyCode(Down)

  /** The key a code names, if any: the inverse reading of the table. */
  function KeyOf(code: int): (k: Option<Key>)
    ensures k.Some? ==> KeyCode(k.value) == code
  {
    match code
    case 8 => Some(Backspace)
    case 9 => Some(Tab)
    case 13 => Some(Return)
    case 27 => Some(Esc)
    case 32 => Some(Space)
    case 33 => Some(PageUp)
    case 34 => Some(PageDown)
    case 35 => Some(End)
    case 36 => Some(Home)
    case 37 => Some(Left)
    case 38 => Some(Up)
    case 39 => Some(Right)
    case 40 => Some(Down)
    case 46 => Some(Delete)
    case 16 => Some(Shift)
    case _ => None
  }

  /** Every code of the table reads back as its own key, so no two keys share a code. */
  lemma KeyCodesDistinct(a: Key, b: Key)
    ensures KeyOf(KeyCode(a)) == Some(a)
    ensures KeyCode(a) == KeyCode(b) ==> a == b
  {
  }

  /** The codes the listbox handlers compare against. */
  lemma ListboxKeyCodes()
    ensures TAB == 9 && RETURN == 13 && ESC == 27 && END == 35 && HOME == 36 && UP == 38 && DOWN == 40
  {
  }

  /** The handlers of a list that are defined, in argument order. */
  function Defined<H>(handlers: seq<Option<H>>): (d: seq<H>)
    ensures |d| <= |handlers|
  {
    if handlers == [] then []
    else
      var last := handlers[|handlers| - 1];
      Defined(handlers[..|handlers| - 1]) + (if last.Some? then [last.value] else [])
  }

  /** Defining the list handler by handler extends the defined handlers at the end. */
  lemma {:induction false} DefinedPrefix<H>(handlers: seq<Option<H>>, j: nat)
    requires j <= |handlers|
    ensures Defined(handlers[..j]) <= Defined(handlers)
    decreases |handlers| - j
  {
    if j < |handlers| {
      DefinedPrefix(handlers, j + 1);
      assert handlers[..j + 1][..j] == handlers[..j];
    } else {
      assert handlers[..j] == handlers;
    }
  }

  /** A defined handler at position i is called at position |Defined(handlers[..i])| of the
      composed calls: after every defined handler before it and before every one after it. */
  lemma DefinedAt<H>(handlers: seq<Option<H>>, i: nat)
    requires i < |handlers| && handlers[i].Some?
    ensures |Defined(handlers[..i])| < |Defined(handlers)|
    ensures Defined(handlers)[|Defined(handlers[..i])|] == handlers[i].value
  {
    DefinedPrefix(handlers, i + 1);
    assert handlers[..i + 1][..i] == handlers[..i];
  }

  /** The ordering of calls follows the ordering of arguments. */
  lemma DefinedOrder<H>(handlers: seq<Option<H>>, i: nat, j: nat)
    requires i < j <= |handlers| && handlers[i].Some?
    ensures |Defined(handlers[..i])| < |Defined(handlers[..j])|
  {
    DefinedPrefix(handlers[..j], i + 1);
    assert handlers[..j][..i + 1] == handlers[..i + 1];
    assert handlers[..i + 1][..i] == handlers[..i];
  }

  /** One call of a composed handler: which handler ran, with which event. */
  datatype Invocation<H, E> = Invocation(handler: H, event: E)

  /** `composeEventHandlers(...handlers)(e)`: calls each defined handler once, in argument
      order, with the same event; undefined entries are skipped. */
  method ComposeEventHandlers<H, E>(handlers: seq<Option<H>>, e: E) returns (calls: seq<Invocation<H, E>>)
    ensures |calls| == |Defined(handlers)|
    ensures forall k :: 0 <= k < |calls| ==> calls[k] == Invocation(Defined(handlers)[k], e)
  {
    calls := [];
    var i := 0;
    while i < |handlers|
      invariant 0 <= i <= |handlers|
      invariant |calls| == |Defined(handlers[..i])|
      invariant forall k :: 0 <= k < |calls| ==> calls[k] == Invocation(Defined(handlers[..i])[k], e)
    {
      assert handlers[..i + 1][..i] == handlers[..i];
      var handler := handlers[i];
      if handler.Some? {
        calls := calls + [Invocation(handler.value, e)];
      }
      i := i + 1;
    }
    assert handlers[..i] == handlers;
  }

  /** The geometry `focusElement` reads from an option element. */
  datatype Geometry = Geometry(offsetTop: int, offsetHeight: int)

  /** The element lies entirely inside the container's visible window. */
  predicate Visible(element: Geometry, clientHeight: int, scrollTop: int)
  {
    scrollTop <= element.offsetTop && element.offsetTop + element.offsetHeight <= scrollTop + clientHeight
  }

  /** The container's `scrollTop` after `focusElement`. */
  function ScrollTopFor(element: Geometry, clientHeight: int, scrollTop: int): (r: int)
    ensures element.offsetTop + element.offsetHeight > scrollTop + clientHeight ==>
              r + clientHeight == element.offsetTop + element.offsetHeight
    ensures element.offsetTop + element.offsetHeight <= scrollTop + clientHeight && element.offsetTop < scrollTop ==>
              r == element.offsetTop
    ensures Visible(element, clientHeight, scrollTop) ==> r == scrollTop
  {
    var scrollBottom := clientHeight + scrollTop;
    var elementBottom := element.offsetTop + element.offsetHeight;
    if elementBottom > scrollBottom then elementBottom - clientHeight
    else if element.offsetTop < scrollTop then element.offsetTop
    else scrollTop
  }

  /** An element no taller than the container is fully visible after `focusElement`. */
  lemma ScrolledIntoView(element: Geometry, clientHeight: int, scrollTop: int)
    requires 0 <= element.offsetHeight <= clientHeight
    ensures Visible(element, clientHeight, ScrollTopFor(element, clientHeight, scrollTop))
  {
  }

  /** The scrolling list container. */
  class ScrollContainer {
    const clientHeight: int
    var scrollTop: int

    constructor (clientHeight: int, scrollTop: int)
      ensures this.clientHeight == clientHeight && this.scrollTop == scrollTop
    {
      this.clientHeight := clientHeight;
      this.scrollTop := scrollTop;
    }
  }

  /** `focusElement(element, container)`: nothing happens when either is null; otherwise the
      container scrolls just enough to bring the element into view. */
  method FocusElement(element: Option<Geometry>, container: ScrollContainer?)
    modifies container
    ensures container != null && element.None? ==> container.scrollTop == old(container.scrollTop)
    ensures container != null && element.Some? ==>
              container.scrollTop == ScrollTopFor(element.value, container.clientHeight, old(container.scrollTop))
  {
    if element.None? || container == null {
      return;
    }
    var scrollBottom := container.clientHeight + container.scrollTop;
    var elementBottom := element.value.offsetTop + element.value.offsetHeight;
    if elementBottom > scrollBottom {
      container.scrollTop := elementBottom - container.clientHeight;
    } else if element.value.offsetTop < container.scrollTop {
      container.scrollTop := element.value.offsetTop;
    }
  }
}
