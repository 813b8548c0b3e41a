/**
 * The plain add-company form: the submitted fields become a company document
 * with empty-text and zero defaults, and the busy flag is raised only for the
 * duration of the write.
 */
module AddCompanyForm {
  import opened Optional
  import opened Text
  import opened Forms
  import opened Toasts

  /** The document this form writes (dates left out). */
  datatype FormCompany = FormCompany(
    name: Option<string>, industry: Option<string>, location: Option<string>,
    description: string, website: string, contactEmail: string, contactPhone: string,
    employeeCount: int, foundedYear: int)

  /** `(formData.get(key) as string) || ""`. */
  function TextOrEmpty(v: Option<string>): (r: string)
    ensures v.Some? ==> r == v.value
    ensures v.None? ==> r == ""
  {
    OrElse(v, "")
  }

  /** `parseInt(v) || 0`: NaN becomes 0. */
  function IntOrZero(v: Option<string>): (r: int)
    ensures ParseField(v).Some? ==> r == ParseField(v).value
    ensures ParseField(v).None? ==> r == 0
  {
    ParseField(v).GetOr(0)
  }

  /** The `company` object of `handleSubmit`. */
  function BuildFormCompany(fd: FormData): (c: FormCompany)
    ensures c.name == FormGet(fd, "name") && c.industry == FormGet(fd, "industry")
    ensures c.location == FormGet(fd, "location")
    ensures c.description == TextOrEmpty(FormGet(fd, "description"))
    ensures c.website == TextOrEmpty(FormGet(fd, "website"))
    ensures c.contactEmail == TextOrEmpty(FormGet(fd, "contactEmail"))
    ensures c.contactPhone == TextOrEmpty(FormGet(fd, "contactPhone"))
    ensures c.employeeCount == IntOrZero(FormGet(fd, "employeeCount"))
    ensures c.foundedYear == IntOrZero(FormGet(fd, "foundedYear"))
  {
    FormCompany(
      FormGet(fd, "name"), FormGet(fd, "industry"), FormGet(fd, "location"),
      TextOrEmpty(FormGet(fd, "description")), TextOrEmpty(FormGet(fd, "website")),
      TextOrEmpty(FormGet(fd, "contactEmail")), TextOrEmpty(FormGet(fd, "contactPhone")),
      IntOrZero(FormGet(fd, "employeeCount")), IntOrZero(FormGet(fd, "foundedYear")))
  }

  /**
   * Whatever the form holds, the optional texts are never missing, and a
   * number field without digits is stored as 0 while one holding a number
   * is stored as that number.
   */
  lemma FormCompanyDefaults(fd: FormData, n: int)
    ensures "description" !in fd ==> BuildFormCompany(fd).description == ""
    ensures "employeeCount" !in fd ==> BuildFormCompany(fd).employeeCount == 0
    ensures FormGet(fd, "employeeCount") == Some(IntToString(n)) ==> BuildFormCompany(fd).employeeCount == n
  {
    IntToStringRoundTrip(n);
  }

  /** What a submit did: the document written, the notice raised, the page moved to. */
  datatype SubmitRun = SubmitRun(written: FormCompany, toast: Toast, navigatedTo: Option<string>)

  class AddCompanyFormPage {
    var loading: bool

    constructor ()
      ensures !loading
    {
      loading := false;
    }

    /**
     * `handleSubmit`: `newId` is the id the store answers with, or None when
     * the write fails; either way the busy flag ends lowered.
     */
    method HandleSubmit(fd: FormData, newId: Option<string>) returns (run: SubmitRun)
      modifies this
      ensures !loading
      ensures run.written == BuildFormCompany(fd)
      ensures newId.Some? ==> run.toast == Success("Company added successfully") && run.navigatedTo == Some("/company/" + newId.value)
      ensures newId.None? ==> run.toast == Failure("Failed to add company") && run.navigatedTo == None
    {
      loading := true;
      var company := BuildFormCompany(fd);
      if newId.Some? {
        run := SubmitRun(company, Success("Company added successfully"), Some("/company/" + newId.value));
      } else {
        run := SubmitRun(company, Failure("Failed to add company"), None);
      }
      loading := false;
    }
  }
}
