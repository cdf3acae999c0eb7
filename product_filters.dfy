/** The filter panel (src/components/product/ProductFilters.tsx): a record of five string
    fields, changed one field at a time or cleared, with every change passed on to the
    listener that re-runs the catalogue pipeline. */
module ProductFilters {

  /** The filter record; `category` holds a category slug ("" for all categories). */
  datatype FilterState = FilterState(category: string, minPrice: string, maxPrice: string, material: string, sortBy: string)

  /** The names of the record's fields, `keyof FilterState`. */
  datatype FilterKey = Category | MinPrice | MaxPrice | Material | SortBy

  /** The record with every field empty: the initial state and the cleared state. */
  const Cleared: FilterState := FilterState("", "", "", "", "")

  /** `filters[key]` */
  function Get(f: FilterState, key: FilterKey): string {
    match key
    case Category => f.category
    case MinPrice => f.minPrice
    case MaxPrice => f.maxPrice
    case Material => f.material
    case SortBy => f.sortBy
  }

  /** `{ ...filters, [key]: value }` */
  function With(f: FilterState, key: FilterKey, value: string): FilterState {
    match key
    case Category => f.(category := value)
    case MinPrice => f.(minPrice := value)
    case MaxPrice => f.(maxPrice := value)
    case Material => f.(material := value)
    case SortBy => f.(sortBy := value)
  }

  /** Setting a field changes that field to the value and no other field. */
  lemma WithChangesOnlyKey(f: FilterState, key: FilterKey, value: string)
    ensures Get(With(f, key, value), key) == value
    ensures forall other :: other != key ==> Get(With(f, key, value), other) == Get(f, other)
  {
  }

  /** Setting a field to the value it already holds changes nothing, and of two settings
      of the same field only the last one counts. */
  lemma WithOverwrites(f: FilterState, key: FilterKey, v1: string, v2: string)
    ensures With(f, key, Get(f, key)) == f
    ensures With(With(f, key, v1), key, v2) == With(f, key, v2)
  {
  }

  /** The panel's state: the filter record and whether the panel is expanded on small screens. */
  class FilterPanel {
    var filters: FilterState
    var isExpanded: bool

    constructor()
      ensures filters == Cleared && !isExpanded
      ensures forall key :: Get(filters, key) == ""
    {
      filters := Cleared;
      isExpanded := false;
    }

    /** `handleFilterChange(key, value)`: the record with `key` set; the listener is
        notified with exactly that record, returned here as `notified`. */
    method HandleFilterChange(key: FilterKey, value: string) returns (notified: FilterState)
      modifies this
      ensures filters == With(old(filters), key, value) && notified == filters
      ensures Get(filters, key) == value
      ensures forall other :: other != key ==> Get(filters, other) == Get(old(filters), other)
      ensures isExpanded == old(isExpanded)
    {
      WithChangesOnlyKey(filters, key, value);
      filters := With(filters, key, value);
      notified := filters;
    }

    /** `handleClearFilters()`: every field back to "", and the listener notified with that record. */
    method HandleClearFilters() returns (notified: FilterState)
      modifies this
      ensures filters == Cleared && notified == Cleared
      ensures forall key :: Get(filters, key) == ""
      ensures isExpanded == old(isExpanded)
    {
      filters := Cleared;
      notified := filters;
    }

    /** The expand button flips the panel. */
    method ToggleExpanded()
      modifies this
      ensures isExpanded == !old(isExpanded) && filters == old(filters)
    {
      isExpanded := !isExpanded;
    }
  }
}
