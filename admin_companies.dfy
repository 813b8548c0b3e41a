/**
 * The admin company table: every stored company shown through alias
 * fallbacks, searched by name, industry or location, paged ten at a time, with
 * a confirmed delete.
 */
module AdminCompanies {
  import opened Optional
  import opened Text
  import opened Lists
  import opened Paging
  import opened Toasts

  /** The fields of a stored company document that the admin table reads. */
  datatype AdminCompany = AdminCompany(
    id: string,
    companyName: Option<string>,
    name: Option<string>,
    industry: Option<string>,
    businessActivity: Option<string>,
    location: Option<string>,
    hqLocation: Option<string>,
    contactEmail: Option<string>,
    email: Option<string>)

  /** `companyName || name || "Unnamed Company"`. */
  function CompanyName(c: AdminCompany): (r: string)
    ensures r != ""
  {
    FirstTruthy(c.companyName, c.name, "Unnamed Company")
  }

  /** `industry || businessActivity || "N/A"`: here `industry` comes first. */
  function CompanyIndustry(c: AdminCompany): (r: string)
    ensures r != ""
  {
    FirstTruthy(c.industry, c.businessActivity, "N/A")
  }

  /** `location || hqLocation || "N/A"`. */
  function CompanyLocation(c: AdminCompany): (r: string)
    ensures r != ""
  {
    FirstTruthy(c.location, c.hqLocation, "N/A")
  }

  /** `contactEmail || email || "N/A"`. */
  function CompanyEmail(c: AdminCompany): (r: string)
    ensures r != ""
  {
    FirstTruthy(c.contactEmail, c.email, "N/A")
  }

  /** The resolved fields pick the first non-empty alias, else the placeholder. */
  lemma ResolvedFields(c: AdminCompany)
    ensures c.companyName.Some? && c.companyName.value != "" ==> CompanyName(c) == c.companyName.value
    ensures (c.companyName.None? || c.companyName.value == "") && c.name.Some? && c.name.value != "" ==>
      CompanyName(c) == c.name.value
    ensures (c.companyName.None? || c.companyName.value == "") && (c.name.None? || c.name.value == "") ==>
      CompanyName(c) == "Unnamed Company"
    ensures c.industry.Some? && c.industry.value != "" ==> CompanyIndustry(c) == c.industry.value
    ensures (c.industry.None? || c.industry.value == "") && c.businessActivity.Some? && c.businessActivity.value != "" ==>
      CompanyIndustry(c) == c.businessActivity.value
    ensures (c.industry.None? || c.industry.value == "") && (c.businessActivity.None? || c.businessActivity.value == "") ==>
      CompanyIndustry(c) == "N/A"
    ensures c.location.Some? && c.location.value != "" ==> CompanyLocation(c) == c.location.value
    ensures (c.location.None? || c.location.value == "") && c.hqLocation.Some? && c.hqLocation.value != "" ==>
      CompanyLocation(c) == c.hqLocation.value
    ensures (c.location.None? || c.location.value == "") && (c.hqLocation.None? || c.hqLocation.value == "") ==>
      CompanyLocation(c) == "N/A"
    ensures c.contactEmail.Some? && c.contactEmail.value != "" ==> CompanyEmail(c) == c.contactEmail.value
    ensures (c.contactEmail.None? || c.contactEmail.value == "") && c.email.Some? && c.email.value != "" ==>
      CompanyEmail(c) == c.email.value
    ensures (c.contactEmail.None? || c.contactEmail.value == "") && (c.email.None? || c.email.value == "") ==>
      CompanyEmail(c) == "N/A"
  {
  }

  /** The search test: the term in the resolved name, industry or location. */
  predicate AdminMatches(c: AdminCompany, searchTerm: string) {
    || IncludesIgnoringCase(CompanyName(c), searchTerm)
    || IncludesIgnoringCase(CompanyIndustry(c), searchTerm)
    || IncludesIgnoringCase(CompanyLocation(c), searchTerm)
  }

  function FilterAdminCompanies(cs: seq<AdminCompany>, searchTerm: string): (r: seq<AdminCompany>)
    ensures forall c :: c in r <==> c in cs && AdminMatches(c, searchTerm)
  {
    Filter(cs, c => AdminMatches(c, searchTerm))
  }

  /** The search keeps the matching companies in their stored order, each as often as it is stored. */
  lemma FilterAdminCompaniesSpec(cs: seq<AdminCompany>, searchTerm: string)
    ensures IsSubsequence(FilterAdminCompanies(cs, searchTerm), cs)
    ensures forall c :: AdminMatches(c, searchTerm) ==>
      multiset(FilterAdminCompanies(cs, searchTerm))[c] == multiset(cs)[c]
  {
    FilterIsSubsequence(cs, c => AdminMatches(c, searchTerm));
    forall c | AdminMatches(c, searchTerm)
      ensures multiset(FilterAdminCompanies(cs, searchTerm))[c] == multiset(cs)[c]
    {
      FilterMultiset(cs, c => AdminMatches(c, searchTerm), c);
    }
  }

  /** The empty term keeps every company, in order. */
  lemma EmptyTermKeepsAll(cs: seq<AdminCompany>)
    ensures FilterAdminCompanies(cs, "") == cs
  {
    forall c | c in cs
      ensures AdminMatches(c, "")
    {
      IncludesEmptyTerm(CompanyName(c));
    }
    FilterAll(cs, c => AdminMatches(c, ""));
  }

  /** The placeholders take part in the search: a company without industry matches "n/a". */
  lemma PlaceholderIsSearchable(c: AdminCompany)
    requires c.industry.None? || c.industry.value == ""
    requires c.businessActivity.None? || c.businessActivity.value == ""
    ensures AdminMatches(c, "n/a")
  {
    IncludesItself("N/A");
    assert LowerStr("n/a") == LowerStr("N/A");
  }

  /** The state of the admin company table. */
  class AdminCompaniesPage {
    var companies: seq<AdminCompany>
    var searchTerm: string
    var currentPage: int
    var companyToDelete: Option<string>

    ghost predicate Valid()
      reads this
    {
      currentPage >= 1
    }

    function FilteredCompanies(): seq<AdminCompany>
      reads this
    {
      FilterAdminCompanies(companies, searchTerm)
    }

    function PageCount(): nat
      reads this
    {
      TotalPages(|FilteredCompanies()|)
    }

    /** The rows on screen: the current page of the filtered list. */
    function PaginatedCompanies(): seq<AdminCompany>
      reads this
      requires Valid()
    {
      Page(FilteredCompanies(), currentPage)
    }

    constructor (companies: seq<AdminCompany>)
      ensures Valid()
      ensures this.companies == companies
      ensures searchTerm == "" && currentPage == 1 && companyToDelete == None
    {
      this.companies := companies;
      searchTerm := "";
      currentPage := 1;
      companyToDelete := None;
    }

    /** The live query delivered a new list; the page number stays. */
    method CompaniesChanged(cs: seq<AdminCompany>)
      requires Valid()
      modifies this
      ensures Valid()
      ensures companies == cs
      ensures searchTerm == old(searchTerm) && currentPage == old(currentPage)
      ensures companyToDelete == old(companyToDelete)
    {
      companies := cs;
    }

    /** Typing in the search box: the current page is not reset. */
    method SetSearchTerm(term: string)
      requires Valid()
      modifies this
      ensures Valid()
      ensures searchTerm == term && currentPage == old(currentPage)
      ensures companies == old(companies) && companyToDelete == old(companyToDelete)
    {
      searchTerm := term;
    }

    method ClickPrevious()
      requires Valid()
      modifies this
      ensures Valid()
      ensures currentPage == AfterPrevious(old(currentPage))
      ensures companies == old(companies) && searchTerm == old(searchTerm)
      ensures companyToDelete == old(companyToDelete)
    {
      if currentPage > 1 {
        currentPage := currentPage - 1;
      }
    }

    method ClickNext()
      requires Valid()
      modifies this
      ensures Valid()
      ensures currentPage == AfterNext(old(currentPage), old(PageCount()))
      ensures companies == old(companies) && searchTerm == old(searchTerm)
      ensures companyToDelete == old(companyToDelete)
    {
      var totalPages := PageCount();
      if currentPage < totalPages {
        currentPage := currentPage + 1;
      }
    }

    /** The numbered link `i` (0-based) of the pager. */
    method ClickPageLink(i: nat)
      requires Valid()
      requires i < PageCount()
      modifies this
      ensures Valid()
      ensures currentPage == i + 1 && 1 <= currentPage <= PageCount()
      ensures companies == old(companies) && searchTerm == old(searchTerm)
      ensures companyToDelete == old(companyToDelete)
    {
      currentPage := LinkTarget(i, PageCount());
    }

    /** The trash button remembers which company the dialog is about. */
    method RequestDelete(id: string)
      requires Valid()
      modifies this
      ensures Valid()
      ensures companyToDelete == Some(id)
      ensures companies == old(companies) && searchTerm == old(searchTerm) && currentPage == old(currentPage)
    {
      companyToDelete := Some(id);
    }

    method CancelDelete()
      requires Valid()
      modifies this
      ensures Valid()
      ensures companyToDelete == None
      ensures companies == old(companies) && searchTerm == old(searchTerm) && currentPage == old(currentPage)
    {
      companyToDelete := None;
    }

    /**
     * The dialog's Delete action: with a pending id the store is asked to
     * delete it (`deleteSucceeded` is the store's answer); the pending id is
     * cleared only after a successful delete.
     */
    method ConfirmDelete(deleteSucceeded: bool) returns (deleted: Option<string>, toast: Option<Toast>)
      requires Valid()
      modifies this
      ensures Valid()
      ensures deleted.Some? <==> old(companyToDelete).Some? && old(companyToDelete).value != ""
      ensures deleted.Some? ==> deleted == old(companyToDelete)
      ensures deleted.None? ==> toast.None? && companyToDelete == old(companyToDelete)
      ensures deleted.Some? && deleteSucceeded ==>
        companyToDelete == None && toast == Some(Success("Company deleted successfully"))
      ensures deleted.Some? && !deleteSucceeded ==>
        companyToDelete == old(companyToDelete) && toast == Some(Failure("Failed to delete company"))
      ensures companies == old(companies) && searchTerm == old(searchTerm) && currentPage == old(currentPage)
    {
      deleted := None;
      toast := None;
      if companyToDelete.Some? && companyToDelete.value != "" {
        deleted := companyToDelete;
        if deleteSucceeded {
          toast := Some(Success("Company deleted successfully"));
          companyToDelete := None;
        } else {
          toast := Some(Failure("Failed to delete company"));
        }
      }
    }
  }
}
