/**
 * The signed-in company list: a search over name, industry and location, and
 * a delete that needs a signed-in user and a confirmation.
 */
module CompanyList {
  import opened Text
  import opened Lists
  import opened Toasts
  import opened Optional

  /** The fields of a listed company that the search reads. */
  datatype ListedCompany = ListedCompany(id: string, name: string, industry: string, location: string)

  predicate ListMatches(c: ListedCompany, searchTerm: string) {
    || IncludesIgnoringCase(c.name, searchTerm)
    || IncludesIgnoringCase(c.industry, searchTerm)
    || IncludesIgnoringCase(c.location, searchTerm)
  }

  function FilterListed(cs: seq<ListedCompany>, searchTerm: string): (r: seq<ListedCompany>)
    ensures forall c :: c in r <==> c in cs && ListMatches(c, searchTerm)
  {
    Filter(cs, (c: ListedCompany) => ListMatches(c, searchTerm))
  }

  /** The search keeps the loaded order, and the empty term keeps every company. */
  lemma FilterListedSpec(cs: seq<ListedCompany>, searchTerm: string)
    ensures IsSubsequence(FilterListed(cs, searchTerm), cs)
    ensures searchTerm == "" ==> FilterListed(cs, searchTerm) == cs
  {
    FilterIsSubsequence(cs, (c: ListedCompany) => ListMatches(c, searchTerm));
    if searchTerm == "" {
      forall c | c in cs
        ensures ListMatches(c, searchTerm)
      {
        IncludesEmptyTerm(c.name);
      }
      FilterAll(cs, (c: ListedCompany) => ListMatches(c, searchTerm));
    }
  }

  /** What `handleDeleteCompany` did: asked for confirmation, called the store, raised a notice. */
  datatype DeleteRun = DeleteRun(askedConfirmation: bool, deleteCalled: bool, toast: Option<Toast>)

  /**
   * `handleDeleteCompany`: `signedIn` is whether a user is present, `confirmed`
   * the answer to the confirmation dialog, `deleteSucceeded` the store's answer.
   */
  function HandleDelete(signedIn: bool, confirmed: bool, deleteSucceeded: bool): (r: DeleteRun)
    ensures !signedIn ==> !r.askedConfirmation && !r.deleteCalled &&
                          r.toast == Some(Failure("You must be logged in to delete a company"))
    ensures r.askedConfirmation <==> signedIn
    ensures r.deleteCalled <==> signedIn && confirmed
    ensures signedIn && !confirmed ==> r.toast.None?
    ensures r.deleteCalled ==>
      r.toast == Some(if deleteSucceeded then Success("Company deleted successfully") else Failure("Failed to delete company"))
  {
    if !signedIn then DeleteRun(false, false, Some(Failure("You must be logged in to delete a company")))
    else if !confirmed then DeleteRun(true, false, None)
    else if deleteSucceeded then DeleteRun(true, true, Some(Success("Company deleted successfully")))
    else DeleteRun(true, true, Some(Failure("Failed to delete company")))
  }
}
