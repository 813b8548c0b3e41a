/** The mobile filter sheet of the directory: active-filter badge and Clear All. */
module SearchFilterBar {
  import opened Optional
  import opened FilterBar

  /** `(industryFilter ? 1 : 0) + (cityFilter ? 1 : 0)`: the truthy filters. */
  function ActiveCount(filters: BarFilters): (n: nat)
    ensures n <= 2
    ensures n == 0 <==> !Truthy(filters.industryFilter) && !Truthy(filters.cityFilter)
    ensures n == 2 <==> Truthy(filters.industryFilter) && Truthy(filters.cityFilter)
  {
    (if Truthy(filters.industryFilter) then 1 else 0) + (if Truthy(filters.cityFilter) then 1 else 0)
  }

  /** The badge appears exactly when a filter is non-null. */
  predicate ShowsBadge(filters: BarFilters) {
    HasActiveFilters(filters)
  }

  /** Clear All: `setIndustryFilter(null); setCityFilter(null)`. */
  function ClearAll(filters: BarFilters): (r: BarFilters)
    ensures !HasActiveFilters(r) && ActiveCount(r) == 0
  {
    BarFilters(None, None)
  }

  /** Clear All is disabled when no filter is active. */
  predicate ClearAllDisabled(filters: BarFilters) {
    !HasActiveFilters(filters)
  }

  /**
   * For filters the pickers produced, a shown badge never reads 0: non-null and
   * truthy agree. Clear All disables itself.
   */
  lemma BadgeCountsWhatIsShown(filters: BarFilters)
    requires FromPickers(filters)
    ensures ShowsBadge(filters) <==> ActiveCount(filters) > 0
    ensures ClearAllDisabled(ClearAll(filters))
    ensures ClearAllDisabled(filters) ==> ClearAll(filters) == filters
  {
  }
}
