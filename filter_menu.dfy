/** The four-category filter menu: sectors, company types, years and statuses. */
module FilterMenu {
  import opened Selection

  datatype MenuCategory = Sectors | Types | Years | Statuses

  datatype MenuFilters = MenuFilters(sectors: seq<string>, types: seq<string>, years: seq<string>, statuses: seq<string>)
  {
    /** `activeFilters[category]`. */
    function Get(category: MenuCategory): seq<string> {
      match category
      case Sectors => sectors
      case Types => types
      case Years => years
      case Statuses => statuses
    }

    /** `{ ...prev, [category]: list }`. */
    function Set(category: MenuCategory, list: seq<string>): (r: MenuFilters)
      ensures r.Get(category) == list
      ensures forall other :: other != category ==> r.Get(other) == Get(other)
    {
      match category
      case Sectors => this.(sectors := list)
      case Types => this.(types := list)
      case Years => this.(years := list)
      case Statuses => this.(statuses := list)
    }
  }

  /** `isFilterActive(category, value)`. */
  predicate IsFilterActive(filters: MenuFilters, category: MenuCategory, value: string) {
    value in filters.Get(category)
  }

  /** `toggleFilter(category, value)`. */
  function ToggleFilter(filters: MenuFilters, category: MenuCategory, value: string): (r: MenuFilters)
    ensures forall other :: other != category ==> r.Get(other) == filters.Get(other)
    ensures IsFilterActive(r, category, value) <==> !IsFilterActive(filters, category, value)
    ensures value !in filters.Get(category) ==> r.Get(category) == filters.Get(category) + [value]
    ensures value in filters.Get(category) ==>
      forall x :: x in r.Get(category) <==> x in filters.Get(category) && x != value
  {
    filters.Set(category, Toggle(filters.Get(category), value))
  }

  /** `clearCategoryFilters(category)`. */
  function ClearCategory(filters: MenuFilters, category: MenuCategory): (r: MenuFilters)
    ensures r.Get(category) == []
    ensures forall other :: other != category ==> r.Get(other) == filters.Get(other)
  {
    filters.Set(category, [])
  }

  /** Toggling an inactive value twice restores the whole filter record. */
  lemma ToggleFilterTwice(filters: MenuFilters, category: MenuCategory, value: string)
    requires !IsFilterActive(filters, category, value)
    ensures ToggleFilter(ToggleFilter(filters, category, value), category, value) == filters
  {
    ToggleTwiceRestores(filters.Get(category), value);
    var r := ToggleFilter(ToggleFilter(filters, category, value), category, value);
    assert r.Get(Sectors) == filters.Get(Sectors) && r.Get(Types) == filters.Get(Types);
    assert r.Get(Years) == filters.Get(Years) && r.Get(Statuses) == filters.Get(Statuses);
  }
}
