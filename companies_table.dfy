/** The display rules of the directory table: sort arrows, row highlights, badges, logo tiles. */
module CompaniesTable {
  import opened CompanyTypes

  /** What `renderSortIndicator` draws next to a column header. */
  datatype SortIndicator = NoIndicator | ArrowUp | ArrowDown

  function RenderSortIndicator(field: SortField, sortField: SortField, sortDirection: SortDirection): (r: SortIndicator)
    ensures r == NoIndicator <==> field != sortField
    ensures field == sortField ==> (r == ArrowUp <==> sortDirection == Asc)
  {
    if sortField != field then NoIndicator
    else if sortDirection == Asc then ArrowUp
    else ArrowDown
  }

  /** At most one column, the active one, carries an arrow. */
  lemma OneIndicator(f1: SortField, f2: SortField, sortField: SortField, sortDirection: SortDirection)
    requires f1 != f2
    ensures RenderSortIndicator(f1, sortField, sortDirection) == NoIndicator ||
            RenderSortIndicator(f2, sortField, sortDirection) == NoIndicator
  {
  }

  const TopRankClass := "bg-amber-50 dark:bg-amber-950/20"
  const FeaturedClass := "bg-pink-50 dark:bg-pink-950/20"

  /** `getRowBackgroundClass`: the top three ranks first, then featured rows. */
  function RowBackgroundClass(c: Company): (r: string)
    ensures c.rank <= 3 ==> r == TopRankClass
    ensures c.rank > 3 && c.featured ==> r == FeaturedClass
    ensures r == "" <==> c.rank > 3 && !c.featured
  {
    if c.rank <= 3 then TopRankClass
    else if c.featured then FeaturedClass
    else ""
  }

  /** The badge colours per industry. */
  const IndustryColors: map<string, (string, string)> := map[
    "Banking" := ("bg-blue-100", "text-blue-700"),
    "Manufacturing" := ("bg-gray-100", "text-gray-700"),
    "Retail" := ("bg-green-100", "text-green-700"),
    "Construction" := ("bg-yellow-100", "text-yellow-700"),
    "Food & Beverage" := ("bg-red-100", "text-red-700"),
    "Energy" := ("bg-indigo-100", "text-indigo-700"),
    "Aviation" := ("bg-purple-100", "text-purple-700"),
    "Technology" := ("bg-teal-100", "text-teal-700"),
    "Agriculture" := ("bg-lime-100", "text-lime-700"),
    "Logistics" := ("bg-amber-100", "text-amber-700"),
    "Shipping" := ("bg-cyan-100", "text-cyan-700")
  ]

  const DefaultColors := ("bg-gray-100", "text-gray-700")

  const BadgeSuffix := " dark:bg-opacity-20"

  /** `getIndustryBadgeClass`: the industry's colours, else gray. */
  function IndustryBadgeClass(industry: string): (r: string)
    ensures industry !in IndustryColors ==> r == "bg-gray-100 text-gray-700" + BadgeSuffix
    ensures industry in IndustryColors ==>
      r == IndustryColors[industry].0 + " " + IndustryColors[industry].1 + BadgeSuffix
  {
    var colors := if industry in IndustryColors then IndustryColors[industry] else DefaultColors;
    colors.0 + " " + colors.1 + BadgeSuffix
  }

  /** An unknown industry and "Manufacturing" get the same gray badge. */
  lemma UnknownLooksLikeManufacturing(industry: string)
    requires industry !in IndustryColors
    ensures IndustryBadgeClass(industry) == IndustryBadgeClass("Manufacturing")
  {
  }

  /** `getLogoBackground`: white tiles for the logos that need them. */
  function LogoBackground(companyId: string): (r: string)
    ensures r == "bg-white" <==> companyId in {"6", "7", "8", "9"}
    ensures r != "bg-white" ==> r == "bg-gray-100 dark:bg-gray-700"
  {
    if companyId == "6" || companyId == "7" || companyId == "8" || companyId == "9" then "bg-white"
    else "bg-gray-100 dark:bg-gray-700"
  }

  /** The table body: the no-companies message, or one row per company in order. */
  datatype TableBody = NoCompaniesMessage | Rows(rows: seq<Company>)

  function RenderBody(companies: seq<Company>): (r: TableBody)
    ensures r == NoCompaniesMessage <==> companies == []
    ensures r.Rows? ==> r.rows == companies
  {
    if |companies| == 0 then NoCompaniesMessage else Rows(companies)
  }
}
