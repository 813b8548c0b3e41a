/**
 * The company shape the directory views render, with the sort field and
 * direction types that go with it.
 */
module CompanyTypes {
  import opened Optional

  datatype Headquarters = Headquarters(city: string, country: string)

  datatype Ceo = Ceo(name: string, linkedinUrl: string)

  /** A company row of the directory; `marketCap` is kept as a whole number. */
  datatype Company = Company(
    id: string,
    rank: int,
    name: string,
    ticker: string,
    industry: string,
    description: string,
    logoUrl: string,
    website: Option<string>,
    featured: bool,
    headquarters: Headquarters,
    employees: int,
    marketCap: int,
    ceo: Option<Ceo>)

  /** The seven sortable columns. */
  datatype SortField = Rank | Name | Industry | MarketCap | Employees | HeadquartersCity | CeoName

  datatype SortDirection = Asc | Desc
}
