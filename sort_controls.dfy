/** The sort controls of the IPO listings: a field picker and a direction
    button. Both only compute the next (field, order) pair and hand it to
    the page. The same "flip on the same field, otherwise ascending" rule
    drives the sortable table headers elsewhere, which use these functions
    too. */
module SortControls {

  const Asc: string := "asc"
  const Desc: string := "desc"

  /** `sortOrder === 'asc' ? 'desc' : 'asc'`. Any order other than `asc`,
      even one that is not a valid order, flips to `asc`. */
  function Flipped(order: string): (r: string)
    ensures r == Asc || r == Desc
    ensures r == Desc <==> order == Asc
  {
    if order == Asc then Desc else Asc
  }

  /** Flipping a valid order twice gives it back. */
  lemma FlipTwice(order: string)
    requires order == Asc || order == Desc
    ensures Flipped(Flipped(order)) == order
  {
  }

  /** `handleSortChange(newSortBy)`: the pair emitted when a field is picked.
      Picking the current field flips the order; picking another field
      sorts by it ascending. */
  function NextSort<F(==)>(sortBy: F, sortOrder: string, picked: F): (r: (F, string))
    ensures r.0 == picked
    ensures r.1 == Asc || r.1 == Desc
    ensures picked == sortBy ==> (r.1 == Desc <==> sortOrder == Asc)
    ensures picked != sortBy ==> r.1 == Asc
  {
    if picked == sortBy then (sortBy, Flipped(sortOrder)) else (picked, Asc)
  }

  /** The direction button: same field, flipped order. */
  function DirectionButton<F>(sortBy: F, sortOrder: string): (r: (F, string))
    ensures r.0 == sortBy
    ensures r.1 == Asc || r.1 == Desc
    ensures r.1 != sortOrder || sortOrder !in {Asc, Desc}
  {
    (sortBy, Flipped(sortOrder))
  }

  /** Picking a field twice comes back to the field's first order: after
      a new field, two picks go ascending, descending, ascending. */
  lemma PickTwice<F>(sortBy: F, sortOrder: string, picked: F)
    requires sortOrder == Asc || sortOrder == Desc
    ensures var once := NextSort(sortBy, sortOrder, picked);
      var twice := NextSort(once.0, once.1, picked);
      twice.0 == picked && (picked == sortBy ==> twice.1 == sortOrder) && (picked != sortBy ==> twice.1 == Desc)
  {
  }

  /** The field picker and the direction button agree on the current field. */
  lemma PickCurrentIsDirectionButton<F>(sortBy: F, sortOrder: string)
    ensures NextSort(sortBy, sortOrder, sortBy) == DirectionButton(sortBy, sortOrder)
  {
  }
}
