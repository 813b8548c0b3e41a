/**
 * The public company directory: stored company documents are normalised into
 * `Company` rows, then searched, filtered by industry and city, and sorted by
 * one of seven columns in either direction.
 */
module Directory {
  import opened Optional
  import opened Text
  import opened Lists
  import opened CompanyTypes

  /** The fields of a stored company document that the directory reads. */
  datatype StoredCompany = StoredCompany(
    id: string,
    companyName: Option<string>,
    businessActivity: Option<string>,
    industry: Option<string>,
    hqLocation: Option<string>,
    registeredAddress: Option<string>,
    website: Option<string>,
    ceoName: Option<string>,
    annualRevenue: Option<int>,
    numEmployees: Option<int>)

  // ----- normalisation -----

  /** `hqLocation?.split(',').map(trim) || ["Unknown", "Russia"]`. */
  function LocationParts(hq: Option<string>): (parts: seq<string>)
    ensures |parts| >= 1
    ensures hq.Some? ==> |parts| == |Split(hq.value, ',')|
    ensures hq.Some? ==> forall k :: 0 <= k < |parts| ==> parts[k] == Trim(Split(hq.value, ',')[k])
  {
    match hq
    case None => ["Unknown", "Russia"]
    case Some(s) =>
      var pieces := Split(s, ',');
      seq(|pieces|, k requires 0 <= k < |pieces| => Trim(pieces[k]))
  }

  /** City is the first part, or "Unknown" when it is empty; country the second, or "Russia". */
  function HeadquartersOf(hq: Option<string>): (h: Headquarters)
    ensures h.city != ""
    ensures hq.None? ==> h == Headquarters("Unknown", "Russia")
  {
    var parts := LocationParts(hq);
    Headquarters(if parts[0] == "" then "Unknown" else parts[0],
                 if |parts| > 1 then parts[1] else "Russia")
  }

  /** A location without a comma is all city, and the country defaults to "Russia". */
  lemma HeadquartersWithoutComma(s: string)
    requires ',' !in s
    ensures HeadquartersOf(Some(s)) == Headquarters(if Trim(s) == "" then "Unknown" else Trim(s), "Russia")
  {
    SplitWithoutSep(s, ',');
  }

  /**
   * With a comma, the city is the trimmed text before the first comma and the
   * country the trimmed text up to the next comma; later pieces are ignored.
   */
  lemma HeadquartersWithComma(a: string, b: string)
    requires ',' !in a
    ensures HeadquartersOf(Some(a + [','] + b)) ==
      Headquarters(if Trim(a) == "" then "Unknown" else Trim(a), Trim(Split(b, ',')[0]))
  {
    SplitAtFirst(a, b, ',');
    var pieces := Split(a + [','] + b, ',');
    assert pieces[0] == a && pieces[1] == Split(b, ',')[0];
    var parts := LocationParts(Some(a + [','] + b));
    assert parts[0] == Trim(a) && parts[1] == Trim(Split(b, ',')[0]);
  }

  /** The `fetchCompanies` mapping from a stored document to a directory row. */
  function Normalize(item: StoredCompany): (c: Company)
    ensures c.id == item.id && c.website == item.website
    ensures c.headquarters == HeadquartersOf(item.hqLocation)
    ensures c.rank == 0 && !c.featured && c.ticker == "" && c.logoUrl == ""
    ensures c.ceo.Some? && c.ceo.value.linkedinUrl == ""
  {
    Company(
      id := item.id,
      rank := 0,
      name := OrElse(item.companyName, ""),
      ticker := "",
      industry := OrElse(item.businessActivity, OrElse(item.industry, "")),
      description := OrElse(item.registeredAddress, ""),
      logoUrl := "",
      website := item.website,
      featured := false,
      headquarters := HeadquartersOf(item.hqLocation),
      employees := item.numEmployees.GetOr(0),
      marketCap := item.annualRevenue.GetOr(0),
      ceo := Some(Ceo(OrElse(item.ceoName, ""), "")))
  }

  /**
   * The defaults of the mapping: text fields fall back to "", numbers to 0, and
   * the industry prefers `businessActivity` over `industry`.
   */
  lemma NormalizeDefaults(item: StoredCompany)
    ensures var c := Normalize(item);
      && (c.name == "" <==> item.companyName.None? || item.companyName.value == "")
      && (item.businessActivity.Some? && item.businessActivity.value != "" ==> c.industry == item.businessActivity.value)
      && ((item.businessActivity.None? || item.businessActivity.value == "") ==>
            c.industry == if item.industry.Some? then item.industry.value else "")
      && (item.registeredAddress.None? ==> c.description == "")
      && (item.numEmployees.None? ==> c.employees == 0)
      && (item.numEmployees.Some? ==> c.employees == item.numEmployees.value)
      && (item.annualRevenue.None? ==> c.marketCap == 0)
  {
  }

  function NormalizeAll(data: seq<StoredCompany>): (cs: seq<Company>)
    ensures |cs| == |data|
    ensures forall k :: 0 <= k < |data| ==> cs[k] == Normalize(data[k])
  {
    seq(|data|, k requires 0 <= k < |data| => Normalize(data[k]))
  }

  // ----- search and filters -----

  /** The search test against an already lower-cased query. */
  predicate MatchesSearch(c: Company, query: string) {
    || Contains(LowerStr(c.name), query)
    || Contains(LowerStr(c.industry), query)
    || (c.description != "" && Contains(LowerStr(c.description), query))
  }

  function SearchStage(cs: seq<Company>, searchQuery: string): seq<Company> {
    if searchQuery == "" then cs
    else Filter(cs, c => MatchesSearch(c, LowerStr(searchQuery)))
  }

  function IndustryStage(cs: seq<Company>, industryFilter: Option<string>): seq<Company> {
    if Truthy(industryFilter) then Filter(cs, (c: Company) => c.industry == industryFilter.value) else cs
  }

  function CityStage(cs: seq<Company>, cityFilter: Option<string>): seq<Company> {
    if Truthy(cityFilter) then Filter(cs, (c: Company) => c.headquarters.city == cityFilter.value) else cs
  }

  /** The three filter steps of the directory effect, in the order it applies them. */
  function FilterCompanies(cs: seq<Company>, searchQuery: string, industryFilter: Option<string>,
                           cityFilter: Option<string>): seq<Company>
  {
    CityStage(IndustryStage(SearchStage(cs, searchQuery), industryFilter), cityFilter)
  }

  /** The reference test: a company is kept when it passes all three conditions. */
  predicate Keeps(c: Company, searchQuery: string, industryFilter: Option<string>, cityFilter: Option<string>) {
    && (searchQuery == "" || MatchesSearch(c, LowerStr(searchQuery)))
    && (!Truthy(industryFilter) || c.industry == industryFilter.value)
    && (!Truthy(cityFilter) || c.headquarters.city == cityFilter.value)
  }

  /** The three conditions of `Keeps`, one at a time, as tests handed to `filter`. */
  function SearchTest(searchQuery: string): Company -> bool {
    (c: Company) => searchQuery == "" || MatchesSearch(c, LowerStr(searchQuery))
  }

  function IndustryTest(industryFilter: Option<string>): Company -> bool {
    (c: Company) => !Truthy(industryFilter) || c.industry == industryFilter.value
  }

  function CityTest(cityFilter: Option<string>): Company -> bool {
    (c: Company) => !Truthy(cityFilter) || c.headquarters.city == cityFilter.value
  }

  lemma SearchStageIsFilter(cs: seq<Company>, searchQuery: string)
    ensures SearchStage(cs, searchQuery) == Filter(cs, SearchTest(searchQuery))
  {
    if searchQuery == "" {
      FilterAll(cs, SearchTest(searchQuery));
    } else {
      FilterExtensional(cs, c => MatchesSearch(c, LowerStr(searchQuery)), SearchTest(searchQuery));
    }
  }

  lemma IndustryStageIsFilter(cs: seq<Company>, industryFilter: Option<string>)
    ensures IndustryStage(cs, industryFilter) == Filter(cs, IndustryTest(industryFilter))
  {
    if Truthy(industryFilter) {
      FilterExtensional(cs, (c: Company) => c.industry == industryFilter.value, IndustryTest(industryFilter));
    } else {
      FilterAll(cs, IndustryTest(industryFilter));
    }
  }

  lemma CityStageIsFilter(cs: seq<Company>, cityFilter: Option<string>)
    ensures CityStage(cs, cityFilter) == Filter(cs, CityTest(cityFilter))
  {
    if Truthy(cityFilter) {
      FilterExtensional(cs, (c: Company) => c.headquarters.city == cityFilter.value, CityTest(cityFilter));
    } else {
      FilterAll(cs, CityTest(cityFilter));
    }
  }

  /**
   * The staged filters are one filter by the conjunction of the conditions, so
   * the result keeps the loaded order and the duplicates of kept rows.
   */
  lemma FilterCompaniesIsOneFilter(cs: seq<Company>, searchQuery: string, industryFilter: Option<string>,
                                   cityFilter: Option<string>)
    ensures FilterCompanies(cs, searchQuery, industryFilter, cityFilter) ==
            Filter(cs, c => Keeps(c, searchQuery, industryFilter, cityFilter))
  {
    var p1 := SearchTest(searchQuery);
    var p2 := IndustryTest(industryFilter);
    var p3 := CityTest(cityFilter);
    var s1 := SearchStage(cs, searchQuery);
    var s2 := IndustryStage(s1, industryFilter);
    SearchStageIsFilter(cs, searchQuery);
    IndustryStageIsFilter(s1, industryFilter);
    CityStageIsFilter(s2, cityFilter);
    var p12 := (c: Company) => p1(c) && p2(c);
    FilterFilter(cs, p1, p2, p12);
    FilterFilter(cs, p12, p3, c => Keeps(c, searchQuery, industryFilter, cityFilter));
  }

  /**
   * A company is shown exactly when it is loaded and passes every condition;
   * the shown rows keep their loaded relative order.
   */
  lemma FilterCompaniesSpec(cs: seq<Company>, searchQuery: string, industryFilter: Option<string>,
                            cityFilter: Option<string>)
    ensures forall c :: c in FilterCompanies(cs, searchQuery, industryFilter, cityFilter) <==>
      c in cs && Keeps(c, searchQuery, industryFilter, cityFilter)
    ensures IsSubsequence(FilterCompanies(cs, searchQuery, industryFilter, cityFilter), cs)
  {
    FilterCompaniesIsOneFilter(cs, searchQuery, industryFilter, cityFilter);
    FilterIsSubsequence(cs, c => Keeps(c, searchQuery, industryFilter, cityFilter));
  }

  // ----- sorting -----

  function CeoNameOf(c: Company): string {
    if c.ceo.Some? then c.ceo.value.name else ""
  }

  /** The ascending comparison of `sortCompanies` for one column. */
  function Comparison(field: SortField, a: Company, b: Company): int {
    match field
    case Rank => a.rank - b.rank
    case Name => Compare(a.name, b.name)
    case Industry => Compare(a.industry, b.industry)
    case MarketCap => a.marketCap - b.marketCap
    case Employees => a.employees - b.employees
    case HeadquartersCity => Compare(a.headquarters.city, b.headquarters.city)
    case CeoName => Compare(CeoNameOf(a), CeoNameOf(b))
  }

  /** The comparator handed to `sort`: descending negates the comparison. */
  function CompanyOrder(field: SortField, direction: SortDirection, a: Company, b: Company): int {
    var comparison := Comparison(field, a, b);
    if direction == Asc then comparison else -comparison
  }

  /** Which of two rows comes first depends only on the column's key. */
  lemma ComparisonKeys(field: SortField, a: Company, b: Company)
    ensures field == Rank ==> (Comparison(field, a, b) <= 0 <==> a.rank <= b.rank)
    ensures field == MarketCap ==> (Comparison(field, a, b) <= 0 <==> a.marketCap <= b.marketCap)
    ensures field == Employees ==> (Comparison(field, a, b) <= 0 <==> a.employees <= b.employees)
    ensures field == Name ==> (Comparison(field, a, b) <= 0 <==> TextNotAfter(a.name, b.name))
    ensures field == Industry ==> (Comparison(field, a, b) <= 0 <==> TextNotAfter(a.industry, b.industry))
    ensures field == HeadquartersCity ==>
      (Comparison(field, a, b) <= 0 <==> TextNotAfter(a.headquarters.city, b.headquarters.city))
    ensures field == CeoName ==> (Comparison(field, a, b) <= 0 <==> TextNotAfter(CeoNameOf(a), CeoNameOf(b)))
    ensures field == Name ==> (Comparison(field, a, b) == 0 <==> a.name == b.name)
    ensures field == Industry ==> (Comparison(field, a, b) == 0 <==> a.industry == b.industry)
    ensures field == HeadquartersCity ==> (Comparison(field, a, b) == 0 <==> a.headquarters.city == b.headquarters.city)
    ensures field == CeoName ==> (Comparison(field, a, b) == 0 <==> CeoNameOf(a) == CeoNameOf(b))
  {
    match field
    case Name => CompareOrder(a.name, b.name);
    case Industry => CompareOrder(a.industry, b.industry);
    case HeadquartersCity => CompareOrder(a.headquarters.city, b.headquarters.city);
    case CeoName => CompareOrder(CeoNameOf(a), CeoNameOf(b));
    case _ =>
  }

  lemma ComparisonAntisymmetric(field: SortField, a: Company, b: Company)
    ensures Comparison(field, a, b) == -Comparison(field, b, a)
  {
    match field
    case Name => CompareAntisymmetric(a.name, b.name);
    case Industry => CompareAntisymmetric(a.industry, b.industry);
    case HeadquartersCity => CompareAntisymmetric(a.headquarters.city, b.headquarters.city);
    case CeoName => CompareAntisymmetric(CeoNameOf(a), CeoNameOf(b));
    case _ =>
  }

  lemma ComparisonTransitive(field: SortField, a: Company, b: Company, c: Company)
    requires Comparison(field, a, b) <= 0 && Comparison(field, b, c) <= 0
    ensures Comparison(field, a, c) <= 0
  {
    match field
    case Name => CompareTransitive(a.name, b.name, c.name);
    case Industry => CompareTransitive(a.industry, b.industry, c.industry);
    case HeadquartersCity =>
      CompareTransitive(a.headquarters.city, b.headquarters.city, c.headquarters.city);
    case CeoName => CompareTransitive(CeoNameOf(a), CeoNameOf(b), CeoNameOf(c));
    case _ =>
  }

  /** Every column and direction gives `sort` a consistent comparator. */
  lemma CompanyOrderIsTotalPreorder(field: SortField, direction: SortDirection)
    ensures TotalPreorder((a, b) => CompanyOrder(field, direction, a, b))
  {
    var cmp := (a, b) => CompanyOrder(field, direction, a, b);
    forall a, b
      ensures NotAfter(cmp, a, b) || NotAfter(cmp, b, a)
    {
      ComparisonAntisymmetric(field, a, b);
    }
    forall a, b, c | NotAfter(cmp, a, b) && NotAfter(cmp, b, c)
      ensures cmp(a, c) <= 0
    {
      if direction == Asc {
        ComparisonTransitive(field, a, b, c);
      } else {
        ComparisonAntisymmetric(field, a, b);
        ComparisonAntisymmetric(field, b, c);
        ComparisonAntisymmetric(field, a, c);
        ComparisonTransitive(field, c, b, a);
      }
    }
  }

  /** `sortCompanies`: a sorted copy, by a stable sort. */
  function SortCompanies(cs: seq<Company>, field: SortField, direction: SortDirection): seq<Company> {
    SortBy(cs, (a, b) => CompanyOrder(field, direction, a, b))
  }

  /** The sorted copy holds the same rows, in column order. */
  lemma SortCompaniesSpec(cs: seq<Company>, field: SortField, direction: SortDirection)
    ensures multiset(SortCompanies(cs, field, direction)) == multiset(cs)
    ensures SortedBy(SortCompanies(cs, field, direction), (a, b) => CompanyOrder(field, direction, a, b))
  {
    CompanyOrderIsTotalPreorder(field, direction);
    SortBySorted(cs, (a, b) => CompanyOrder(field, direction, a, b));
  }

  /** What the filter effect shows: the filtered rows, sorted. */
  function Visible(cs: seq<Company>, searchQuery: string, industryFilter: Option<string>,
                   cityFilter: Option<string>, field: SortField, direction: SortDirection): seq<Company>
  {
    SortCompanies(FilterCompanies(cs, searchQuery, industryFilter, cityFilter), field, direction)
  }

  /**
   * The shown list is a permutation of the rows that pass every condition,
   * in the order of the chosen column.
   */
  lemma VisibleSpec(cs: seq<Company>, searchQuery: string, industryFilter: Option<string>,
                    cityFilter: Option<string>, field: SortField, direction: SortDirection)
    ensures multiset(Visible(cs, searchQuery, industryFilter, cityFilter, field, direction)) ==
            multiset(Filter(cs, c => Keeps(c, searchQuery, industryFilter, cityFilter)))
    ensures SortedBy(Visible(cs, searchQuery, industryFilter, cityFilter, field, direction),
                     (a, b) => CompanyOrder(field, direction, a, b))
  {
    FilterCompaniesIsOneFilter(cs, searchQuery, industryFilter, cityFilter);
    SortCompaniesSpec(FilterCompanies(cs, searchQuery, industryFilter, cityFilter), field, direction);
  }

  // ----- filter option lists -----

  function Industries(cs: seq<Company>): (r: seq<string>)
    ensures NoDuplicates(r)
    ensures forall x :: x in r <==> x != "" && exists c :: c in cs && c.industry == x
  {
    var all := Map(cs, (c: Company) => c.industry);
    Distinct(Filter(all, (x: string) => x != ""))
  }

  function Cities(cs: seq<Company>): (r: seq<string>)
    ensures NoDuplicates(r)
    ensures forall x :: x in r <==> x != "" && exists c :: c in cs && c.headquarters.city == x
  {
    var all := Map(cs, (c: Company) => c.headquarters.city);
    Distinct(Filter(all, (x: string) => x != ""))
  }

  // ----- page state -----

  function Flip(direction: SortDirection): (r: SortDirection)
    ensures r != direction
  {
    if direction == Asc then Desc else Asc
  }

  /** The state of the directory page. */
  class DirectoryPage {
    var companies: seq<Company>
    var filteredCompanies: seq<Company>
    var searchQuery: string
    var industryFilter: Option<string>
    var cityFilter: Option<string>
    var sortField: SortField
    var sortDirection: SortDirection
    var loading: bool

    /** Nothing loaded yet, no filters, sorted by name ascending, loading. */
    constructor ()
      ensures companies == [] && filteredCompanies == []
      ensures searchQuery == "" && industryFilter == None && cityFilter == None
      ensures sortField == Name && sortDirection == Asc
      ensures loading
    {
      companies := [];
      filteredCompanies := [];
      searchQuery := "";
      industryFilter := None;
      cityFilter := None;
      sortField := Name;
      sortDirection := Asc;
      loading := true;
    }

    /** A successful fetch: the normalised rows are shown unsorted until the effect runs. */
    method LoadSucceeded(data: seq<StoredCompany>)
      modifies this
      ensures companies == NormalizeAll(data) && filteredCompanies == companies
      ensures !loading
      ensures searchQuery == old(searchQuery) && industryFilter == old(industryFilter)
      ensures cityFilter == old(cityFilter)
      ensures sortField == old(sortField) && sortDirection == old(sortDirection)
    {
      companies := NormalizeAll(data);
      filteredCompanies := companies;
      loading := false;
    }

    /** A failed fetch only ends loading. */
    method LoadFailed()
      modifies this
      ensures !loading
      ensures companies == old(companies) && filteredCompanies == old(filteredCompanies)
      ensures searchQuery == old(searchQuery) && industryFilter == old(industryFilter)
      ensures cityFilter == old(cityFilter)
      ensures sortField == old(sortField) && sortDirection == old(sortDirection)
    {
      loading := false;
    }

    method SetSearchQuery(q: string)
      modifies this
      ensures searchQuery == q
      ensures companies == old(companies) && filteredCompanies == old(filteredCompanies)
      ensures industryFilter == old(industryFilter) && cityFilter == old(cityFilter)
      ensures sortField == old(sortField) && sortDirection == old(sortDirection)
      ensures loading == old(loading)
    {
      searchQuery := q;
    }

    method SetIndustryFilter(f: Option<string>)
      modifies this
      ensures industryFilter == f
      ensures companies == old(companies) && filteredCompanies == old(filteredCompanies)
      ensures searchQuery == old(searchQuery) && cityFilter == old(cityFilter)
      ensures sortField == old(sortField) && sortDirection == old(sortDirection)
      ensures loading == old(loading)
    {
      industryFilter := f;
    }

    method SetCityFilter(f: Option<string>)
      modifies this
      ensures cityFilter == f
      ensures companies == old(companies) && filteredCompanies == old(filteredCompanies)
      ensures searchQuery == old(searchQuery) && industryFilter == old(industryFilter)
      ensures sortField == old(sortField) && sortDirection == old(sortDirection)
      ensures loading == old(loading)
    {
      cityFilter := f;
    }

    /**
     * The search-and-filter effect: with no companies loaded it leaves the shown
     * list alone; otherwise it shows the filtered rows in the chosen order.
     */
    method ApplyFilters()
      modifies this
      ensures old(companies) == [] ==> filteredCompanies == old(filteredCompanies)
      ensures old(companies) != [] ==>
        filteredCompanies == Visible(companies, searchQuery, industryFilter, cityFilter, sortField, sortDirection)
      ensures companies == old(companies)
      ensures searchQuery == old(searchQuery) && industryFilter == old(industryFilter)
      ensures cityFilter == old(cityFilter)
      ensures sortField == old(sortField) && sortDirection == old(sortDirection)
      ensures loading == old(loading)
    {
      if |companies| == 0 {
        return;
      }
      var result := companies;
      if searchQuery != "" {
        var query := LowerStr(searchQuery);
        result := Filter(result, c => MatchesSearch(c, query));
      }
      if Truthy(industryFilter) {
        var industry := industryFilter.value;
        result := Filter(result, (c: Company) => c.industry == industry);
      }
      if Truthy(cityFilter) {
        var city := cityFilter.value;
        result := Filter(result, (c: Company) => c.headquarters.city == city);
      }
      result := SortCompanies(result, sortField, sortDirection);
      filteredCompanies := result;
    }

    /** Choosing the current column flips the direction; another column starts ascending. */
    method HandleSortChange(field: SortField)
      modifies this
      ensures field == old(sortField) ==> sortField == field && sortDirection == Flip(old(sortDirection))
      ensures field != old(sortField) ==> sortField == field && sortDirection == Asc
      ensures companies == old(companies) && filteredCompanies == old(filteredCompanies)
      ensures searchQuery == old(searchQuery) && industryFilter == old(industryFilter)
      ensures cityFilter == old(cityFilter)
      ensures loading == old(loading)
    {
      if field == sortField {
        sortDirection := if sortDirection == Asc then Desc else Asc;
      } else {
        sortField := field;
        sortDirection := Asc;
      }
    }
  }

  /** Choosing the same column twice restores the direction. */
  lemma FlipTwice(direction: SortDirection)
    ensures Flip(Flip(direction)) == direction
  {
  }
}
