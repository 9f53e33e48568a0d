/** The home page's chip row: four fixed filters, a click on a chip toggling
    the UI store's active category between that chip and none, and the one
    highlighted chip. */
module CategoryFilter {
  import opened Types
  import opened UiStore

  /** The ids of the four chips, in display order. */
  const FilterIds: seq<string> := ["history", "favorites", "sale", "new"]

  /** The active category is none or the id of one of the chips. */
  predicate IsChipOrNone(active: Option<string>)
  {
    active.None? || active.value in FilterIds
  }

  /** `activeCategory === filter.id ? null : filter.id`: a click on the
      active chip clears it; a click on any other chip activates that one. */
  function NextActive(active: Option<string>, filterId: string): (next: Option<string>)
    ensures next.None? <==> active == Some(filterId)
    ensures next.Some? ==> next.value == filterId
  {
    if active == Some(filterId) then None else Some(filterId)
  }

  /** A click on the chip at position `k`: only the store's active category
      changes, and it stays none or a chip id. */
  method ClickChip(ui: Ui, k: int)
    requires 0 <= k < |FilterIds|
    modifies ui
    ensures ui.State() == old(ui.State()).(activeCategory := NextActive(old(ui.activeCategory), FilterIds[k]))
    ensures IsChipOrNone(ui.activeCategory)
  {
    ui.SetActiveCategory(NextActive(ui.activeCategory, FilterIds[k]));
  }

  /** The chip at position `k` is drawn highlighted. */
  predicate ChipIsActive(active: Option<string>, k: int)
    requires 0 <= k < |FilterIds|
  {
    active == Some(FilterIds[k])
  }

  /** At most one chip is highlighted at a time. */
  lemma AtMostOneActiveChip(active: Option<string>, i: int, j: int)
    requires 0 <= i < |FilterIds| && 0 <= j < |FilterIds|
    requires ChipIsActive(active, i) && ChipIsActive(active, j)
    ensures i == j
  {
  }

  /** From no active chip, two clicks on the same chip return to no active
      chip. */
  lemma {:induction false} DoubleClickFromNoneClears(filterId: string)
    ensures NextActive(NextActive(None, filterId), filterId) == None
  {
  }
}
