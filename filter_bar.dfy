/**
 * The industry / city pickers of the directory: the chosen item becomes the
 * filter (`value || null`), and Clear sets both filters to null.
 */
module FilterBar {
  import opened Optional
  import opened CompanyTypes
  import opened Directory

  /** The pair of nullable filters the pickers edit. */
  datatype BarFilters = BarFilters(industryFilter: Option<string>, cityFilter: Option<string>)

  /** `value || null`: the empty selection clears the filter, anything else is stored. */
  function SelectValue(value: string): (r: Option<string>)
    ensures r.None? <==> value == ""
    ensures r.Some? ==> r.value == value
  {
    if value == "" then None else Some(value)
  }

  function SelectIndustry(filters: BarFilters, value: string): (r: BarFilters)
    ensures r.industryFilter == SelectValue(value) && r.cityFilter == filters.cityFilter
  {
    filters.(industryFilter := SelectValue(value))
  }

  function SelectCity(filters: BarFilters, value: string): (r: BarFilters)
    ensures r.cityFilter == SelectValue(value) && r.industryFilter == filters.industryFilter
  {
    filters.(cityFilter := SelectValue(value))
  }

  /** `clearFilters`. */
  function ClearFilters(filters: BarFilters): (r: BarFilters)
    ensures r.industryFilter.None? && r.cityFilter.None?
  {
    BarFilters(None, None)
  }

  /** `industryFilter !== null || cityFilter !== null`. */
  predicate HasActiveFilters(filters: BarFilters) {
    filters.industryFilter.Some? || filters.cityFilter.Some?
  }

  /** Whatever the pickers store is never the empty string. */
  predicate FromPickers(filters: BarFilters) {
    && (filters.industryFilter.Some? ==> filters.industryFilter.value != "")
    && (filters.cityFilter.Some? ==> filters.cityFilter.value != "")
  }

  lemma PickersKeepFromPickers(filters: BarFilters, value: string)
    requires FromPickers(filters)
    ensures FromPickers(SelectIndustry(filters, value)) && FromPickers(SelectCity(filters, value))
    ensures FromPickers(ClearFilters(filters)) && !HasActiveFilters(ClearFilters(filters))
  {
  }

  /** The value of the "All Industries" and "All Cities" items. */
  const AllItem := "all"

  /**
   * As written, the "All Industries" item stores the filter "all", and the
   * directory then keeps only companies whose industry is literally "all":
   * with none such, the list comes out empty.
   */
  lemma AllIndustriesEmptiesList(cs: seq<Company>, searchQuery: string, filters: BarFilters)
    requires forall c :: c in cs ==> c.industry != AllItem
    ensures FilterCompanies(cs, searchQuery, SelectIndustry(filters, AllItem).industryFilter, filters.cityFilter) == []
  {
    var selected := SelectIndustry(filters, AllItem);
    FilterCompaniesSpec(cs, searchQuery, selected.industryFilter, filters.cityFilter);
  }

  /** The evident intent: the "all" item, like the empty selection, clears the filter. */
  function SelectValueIntended(value: string): (r: Option<string>)
    ensures r.None? <==> value == "" || value == AllItem
    ensures r.Some? ==> r.value == value
  {
    if value == "" || value == AllItem then None else Some(value)
  }

  /** With the intended mapping, "All Industries" / "All Cities" impose no restriction. */
  lemma AllItemIntendedNoRestriction(cs: seq<Company>, searchQuery: string, industryFilter: Option<string>,
                                     cityFilter: Option<string>)
    ensures FilterCompanies(cs, searchQuery, SelectValueIntended(AllItem), cityFilter) ==
            FilterCompanies(cs, searchQuery, None, cityFilter)
    ensures FilterCompanies(cs, searchQuery, industryFilter, SelectValueIntended(AllItem)) ==
            FilterCompanies(cs, searchQuery, industryFilter, None)
  {
  }
}
