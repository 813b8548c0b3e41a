/**
 * The multi-select toggle shared by the filter menu and the filter drawer:
 * a value not yet selected is appended, a selected value is removed (every
 * occurrence of it).
 */
module Selection {
  import opened Lists

  /** `list.includes(v) ? list.filter(x => x !== v) : [...list, v]`. */
  function Toggle(list: seq<string>, value: string): (r: seq<string>)
    ensures value !in list ==> r == list + [value]
    ensures value in list ==> value !in r && IsSubsequence(r, list)
    ensures (value in r) <==> (value !in list)
    ensures forall x :: x != value ==> (x in r <==> x in list)
  {
    if value in list then
      FilterIsSubsequence(list, x => x != value);
      Filter(list, x => x != value)
    else list + [value]
  }

  /** Toggling an unselected value on and off again restores the list. */
  lemma ToggleTwiceRestores(list: seq<string>, value: string)
    requires value !in list
    ensures Toggle(Toggle(list, value), value) == list
  {
    FilterAppend(list, value, x => x != value);
    FilterAll(list, x => x != value);
  }

  /** A list without duplicates stays without duplicates. */
  lemma ToggleKeepsNoDuplicates(list: seq<string>, value: string)
    requires NoDuplicates(list)
    ensures NoDuplicates(Toggle(list, value))
  {
    if value in list {
      FilterNoDuplicates(list, x => x != value);
    }
  }
}
