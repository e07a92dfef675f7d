/** The column-header sort toggle shared by the tables (`handleSort`). */
module Sorting {

  datatype Order = Asc | Desc

  /** Which field a table is sorted by, and in which direction. */
  datatype SortConfig<F> = SortConfig(field: F, order: Order)

  /** The configuration handed to `setConfig` when the header of `field` is
      clicked while `current` is in force. */
  function HandleSort<F(==)>(field: F, current: SortConfig<F>): (next: SortConfig<F>)
    ensures next.field == field
    ensures current.field == field && current.order == Asc ==> next.order == Desc
    ensures current.field == field && current.order == Desc ==> next.order == Asc
    ensures current.field != field ==> next.order == Asc
  {
    SortConfig(field, if current.field == field && current.order == Asc then Desc else Asc)
  }

  /** Clicking the field already sorted on twice restores the configuration,
      in either direction: the toggle has period two. */
  lemma ToggleTwiceRestores<F>(field: F, current: SortConfig<F>)
    requires current.field == field
    ensures HandleSort(field, HandleSort(field, current)) == current
  {
  }

  /** After a first click on `field`, every further click alternates between
      the two directions. */
  lemma ToggleAlternates<F>(field: F, current: SortConfig<F>)
    ensures HandleSort(field, current).order != HandleSort(field, HandleSort(field, current)).order
    ensures HandleSort(field, HandleSort(field, HandleSort(field, current))) == HandleSort(field, current)
  {
  }
}
