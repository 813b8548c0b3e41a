/** The three-category filter drawer: sectors, locations and founding-year ranges. */
module FilterDrawer {
  import opened Selection

  datatype DrawerCategory = Sectors | Locations | Years

  datatype DrawerFilters = DrawerFilters(sectors: seq<string>, locations: seq<string>, years: seq<string>)
  {
    function Get(category: DrawerCategory): seq<string> {
      match category
      case Sectors => sectors
      case Locations => locations
      case Years => years
    }

    function Set(category: DrawerCategory, list: seq<string>): (r: DrawerFilters)
      ensures r.Get(category) == list
      ensures forall other :: other != category ==> r.Get(other) == Get(other)
    {
      match category
      case Sectors => this.(sectors := list)
      case Locations => this.(locations := list)
      case Years => this.(years := list)
    }
  }

  predicate IsFilterActive(filters: DrawerFilters, category: DrawerCategory, value: string) {
    value in filters.Get(category)
  }

  function ToggleFilter(filters: DrawerFilters, category: DrawerCategory, value: string): (r: DrawerFilters)
    ensures forall other :: other != category ==> r.Get(other) == filters.Get(other)
    ensures IsFilterActive(r, category, value) <==> !IsFilterActive(filters, category, value)
    ensures value !in filters.Get(category) ==> r.Get(category) == filters.Get(category) + [value]
    ensures value in filters.Get(category) ==>
      forall x :: x in r.Get(category) <==> x in filters.Get(category) && x != value
  {
    filters.Set(category, Toggle(filters.Get(category), value))
  }

  function ClearCategory(filters: DrawerFilters, category: DrawerCategory): (r: DrawerFilters)
    ensures r.Get(category) == []
    ensures forall other :: other != category ==> r.Get(other) == filters.Get(other)
  {
    filters.Set(category, [])
  }

  /** `clearAllFilters`: every category empty, whatever was selected. */
  function ClearAll(filters: DrawerFilters): (r: DrawerFilters)
    ensures forall category :: r.Get(category) == [] && !IsFilterActive(r, category, "")
  {
    DrawerFilters([], [], [])
  }

  /** Clearing each category in turn is clearing everything. */
  lemma ClearEachIsClearAll(filters: DrawerFilters)
    ensures ClearCategory(ClearCategory(ClearCategory(filters, Sectors), Locations), Years) == ClearAll(filters)
  {
  }

  /** Toggling an inactive value twice restores the whole filter record. */
  lemma ToggleFilterTwice(filters: DrawerFilters, category: DrawerCategory, value: string)
    requires !IsFilterActive(filters, category, value)
    ensures ToggleFilter(ToggleFilter(filters, category, value), category, value) == filters
  {
    ToggleTwiceRestores(filters.Get(category), value);
    var r := ToggleFilter(ToggleFilter(filters, category, value), category, value);
    assert r.Get(Sectors) == filters.Get(Sectors) && r.Get(Locations) == filters.Get(Locations);
    assert r.Get(Years) == filters.Get(Years);
  }
}
