/** The JavaScript arrays the listbox keeps in refs (`options.current`, `optionsRef.current`).
    Writing `a[i]` at an integer index behaves as JavaScript does: an index at or beyond the
    length grows the array, leaving holes; a negative key such as -1 becomes a plain property
    that reading `a[-1]` returns but that does not count towards `length`. */
module JsArrays {
  import opened Wrappers

  datatype JsArray<T> = JsArray(slots: seq<Option<T>>, props: map<int, T>)
  {
    /** `a.length` */
    function Length(): nat
    {
      |slots|
    }

    /** `a[i]`: the element, or `undefined` for a hole, an index past the end or a missing key. */
    function Get(i: int): (r: Option<T>)
      ensures 0 <= i < Length() ==> r == slots[i]
      ensures Length() <= i ==> r == None
      ensures i < 0 ==> (r.Some? <==> i in props)
      ensures i < 0 && i in props ==> r == Some(props[i])
    {
      if 0 <= i < |slots| then slots[i]
      else if i < 0 && i in props then Some(props[i])
      else None
    }

    /** `a[i] = v` */
    function Set(i: int, v: T): (a: JsArray<T>)
      ensures a.Get(i) == Some(v)
      ensures forall j :: j != i ==> a.Get(j) == Get(j)
      ensures a.Length() == if 0 <= i && Length() <= i then i + 1 else Length()
    {
      if i < 0 then JsArray(slots, props[i := v])
      else if i < |slots| then JsArray(slots[i := Some(v)], props)
      else JsArray(slots + seq(i - |slots|, _ => None) + [Some(v)], props)
    }
  }

  /** `[]` */
  function Empty<T>(): (a: JsArray<T>)
    ensures a.Length() == 0
    ensures forall i :: a.Get(i) == None
  {
    JsArray([], map[])
  }
}
