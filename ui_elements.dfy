/** The editor's selectable list (src/ui_elements.rs): items plus the
    selected index of a `ListState`, moved with wrap-around. */
module UiElements {
  import opened Prelude

  /** The index `next` selects. The source computes `len - 1` whenever there
      is a selection, which underflows on an empty list. */
  function NextIndex(selected: Option<nat>, len: nat): (r: nat)
    requires selected.Some? ==> len > 0
    ensures len > 0 ==> r < len
    ensures selected.None? ==> r == 0
    ensures selected.Some? && selected.value + 1 < len ==> r == selected.value + 1
    ensures selected.Some? && selected.value + 1 >= len ==> r == 0
  {
    match selected
    case Some(i) => if i >= len - 1 then 0 else i + 1
    case None => 0
  }

  /** The index `previous` selects; `len - 1` underflows on an empty list
      when the first item is selected. */
  function PreviousIndex(selected: Option<nat>, len: nat): (r: nat)
    requires selected == Some(0) ==> len > 0
    ensures selected.None? ==> r == 0
    ensures selected == Some(0) ==> r == len - 1
    ensures selected.Some? && selected.value > 0 ==> r == selected.value - 1
  {
    match selected
    case Some(i) => if i == 0 then len - 1 else i - 1
    case None => 0
  }

  /** From a selection inside a non-empty list, `previous` stays inside it too. */
  lemma PreviousStaysInRange(i: nat, len: nat)
    requires i < len
    ensures PreviousIndex(Some(i), len) < len
  {
  }

  /** On a non-empty list, `previous` undoes `next` and `next` undoes `previous`. */
  lemma NextPreviousInverse(i: nat, len: nat)
    requires i < len
    ensures PreviousIndex(Some(NextIndex(Some(i), len)), len) == i
    ensures NextIndex(Some(PreviousIndex(Some(i), len)), len) == i
  {
  }

  /** The index reached after `k` calls of `next` from the first item. */
  function NextTimes(len: nat, k: nat): (r: nat)
    requires len > 0
  {
    if k == 0 then 0 else NextIndex(Some(NextTimes(len, k - 1)), len)
  }

  /** From the first item, `next` walks the items in order. */
  lemma {:induction false} NextTimesWalks(len: nat, k: nat)
    requires k < len
    ensures NextTimes(len, k) == k
  {
    if k > 0 {
      NextTimesWalks(len, k - 1);
    }
  }

  /** Pressing `next` once per item brings the selection back where it was:
      the walk repeats with period `len`. */
  lemma {:induction false} NextTimesWraps(len: nat, k: nat)
    requires len > 0
    ensures NextTimes(len, len) == 0
    ensures NextTimes(len, k + len) == NextTimes(len, k)
  {
    NextTimesWalks(len, len - 1);
    if k > 0 {
      NextTimesWraps(len, k - 1);
      assert k + len - 1 == (k - 1) + len;
    }
  }

  /** `StatefulList<T>`: the items and the selected index. */
  class StatefulList<T> {
    var selected: Option<nat>
    var inner: seq<T>

    /** `StatefulList::default()`: no items, nothing selected. */
    constructor Default()
      ensures selected.None? && inner == []
    {
      selected := None;
      inner := [];
    }

    /** `StatefulList::with_items(items)`: these items, nothing selected. */
    constructor WithItems(items: seq<T>)
      ensures selected.None? && inner == items
    {
      selected := None;
      inner := items;
    }

    method Next()
      requires selected.Some? ==> |inner| > 0
      modifies this
      ensures inner == old(inner)
      ensures selected == Some(NextIndex(old(selected), |inner|))
    {
      var i := match selected
        case Some(i) => if i >= |inner| - 1 then 0 else i + 1
        case None => 0;
      selected := Some(i);
    }

    method Previous()
      requires selected == Some(0) ==> |inner| > 0
      modifies this
      ensures inner == old(inner)
      ensures selected == Some(PreviousIndex(old(selected), |inner|))
    {
      var i := match selected
        case Some(i) => if i == 0 then |inner| - 1 else i - 1
        case None => 0;
      selected := Some(i);
    }

    method Unselect()
      modifies this
      ensures inner == old(inner) && selected.None?
    {
      selected := None;
    }
  }
}
