/**
 * The admin page that adds a company: the submitted form becomes one stored
 * company document that writes several fields twice under an old and a new
 * name, with an optional logo uploaded first.
 */
module AdminAddCompany {
  import opened Optional
  import opened Text
  import opened Forms
  import opened Toasts
  import AdminCompanies
  import Directory

  // ----- the logo file name -----

  /** The characters `[a-zA-Z0-9_.-]` that a stored file name may keep. */
  predicate SafeChar(c: char) {
    ('a' <= c <= 'z') || ('A' <= c <= 'Z') || ('0' <= c <= '9') || c == '_' || c == '.' || c == '-'
  }

  /** `name.replace(/[^a-zA-Z0-9_.-]/g, '_')`. */
  function SafeFileName(name: string): (r: string)
    ensures |r| == |name|
    ensures forall i :: 0 <= i < |r| ==> r[i] == (if SafeChar(name[i]) then name[i] else '_')
  {
    seq(|name|, i requires 0 <= i < |name| => if SafeChar(name[i]) then name[i] else '_')
  }

  /** The cleaned name holds only safe characters, and cleaning it again changes nothing. */
  lemma SafeFileNameIdempotent(name: string)
    ensures forall i :: 0 <= i < |SafeFileName(name)| ==> SafeChar(SafeFileName(name)[i])
    ensures SafeFileName(SafeFileName(name)) == SafeFileName(name)
  {
  }

  /** A name made of safe characters only is kept as it is. */
  lemma SafeNameUnchanged(name: string)
    requires forall i :: 0 <= i < |name| ==> SafeChar(name[i])
    ensures SafeFileName(name) == name
  {
  }

  /** `companies/temp/logo_${stamp}_${safeFileName}`; `stamp` stands for `Date.now()`. */
  function TempLogoPath(stamp: string, fileName: string): (p: string)
    ensures StartsWith(p, "companies/temp/logo_")
    ensures |p| >= |fileName| && p[|p| - |fileName|..] == SafeFileName(fileName)
  {
    "companies/temp/logo_" + stamp + "_" + SafeFileName(fileName)
  }

  // ----- the stored record -----

  /** `parseInt(v) || undefined`: NaN and 0 are both dropped. */
  function TruthyOrUndefined(v: Option<string>): (r: Option<int>)
    ensures r.Some? <==> ParseField(v).Some? && ParseField(v).value != 0
    ensures r.Some? ==> r == ParseField(v)
  {
    var n := ParseField(v);
    if n.Some? && n.value != 0 then n else None
  }

  /** The document written for a new company (dates and the decimal money fields left out). */
  datatype NewCompany = NewCompany(
    companyName: Option<string>, name: Option<string>,
    businessActivity: Option<string>, industry: Option<string>,
    companyType: Option<string>, yearEstablished: Option<string>, foundedYear: Option<int>,
    logoUrl: Option<string>,
    hqLocation: Option<string>, location: Option<string>,
    registeredAddress: Option<string>, description: Option<string>,
    website: Option<string>, email: Option<string>, contactEmail: Option<string>,
    phone: Option<string>, contactPhone: Option<string>,
    rtibContactName: Option<string>, rtibContactPosition: Option<string>,
    rtibContactPhone: Option<string>, rtibContactEmail: Option<string>,
    ceoName: Option<string>, ceoBirthDate: Option<string>,
    parentCompany: Option<string>, mainShareholder: Option<string>,
    subsidiaries: seq<string>,
    numEmployees: Option<int>, employeeCount: Option<int>)

  /** The old and new names of a field always hold the same value. */
  predicate AliasesAgree(c: NewCompany) {
    && c.name == c.companyName && c.industry == c.businessActivity
    && c.location == c.hqLocation && c.description == c.registeredAddress
    && c.contactEmail == c.email && c.contactPhone == c.phone
    && c.mainShareholder == c.parentCompany && c.employeeCount == c.numEmployees
  }

  /** The `company` object of `handleSubmit`, from the submitted form and the uploaded logo's URL. */
  function BuildNewCompany(fd: FormData, logoUrl: Option<string>): (c: NewCompany)
    ensures AliasesAgree(c)
    ensures c.companyName == FormGet(fd, "companyName") && c.businessActivity == FormGet(fd, "businessActivity")
    ensures c.hqLocation == FormGet(fd, "hqLocation") && c.registeredAddress == FormGet(fd, "registeredAddress")
    ensures c.email == FormGet(fd, "email") && c.phone == FormGet(fd, "phone")
    ensures c.parentCompany == FormGet(fd, "parentCompany")
    ensures c.foundedYear == TruthyOrUndefined(FormGet(fd, "yearEstablished"))
    ensures c.numEmployees == TruthyOrUndefined(FormGet(fd, "numEmployees"))
    ensures c.subsidiaries == ParseCommaList(FormGet(fd, "subsidiaries"))
    ensures c.logoUrl == logoUrl
  {
    var companyName := FormGet(fd, "companyName");
    var activity := FormGet(fd, "businessActivity");
    var hq := FormGet(fd, "hqLocation");
    var address := FormGet(fd, "registeredAddress");
    var email := FormGet(fd, "email");
    var phone := FormGet(fd, "phone");
    var parent := FormGet(fd, "parentCompany");
    var employees := TruthyOrUndefined(FormGet(fd, "numEmployees"));
    NewCompany(
      companyName := companyName, name := companyName,
      businessActivity := activity, industry := activity,
      companyType := FormGet(fd, "companyType"), yearEstablished := FormGet(fd, "yearEstablished"),
      foundedYear := TruthyOrUndefined(FormGet(fd, "yearEstablished")),
      logoUrl := logoUrl,
      hqLocation := hq, location := hq,
      registeredAddress := address, description := address,
      website := FormGet(fd, "website"), email := email, contactEmail := email,
      phone := phone, contactPhone := phone,
      rtibContactName := FormGet(fd, "rtibContactName"), rtibContactPosition := FormGet(fd, "rtibContactPosition"),
      rtibContactPhone := FormGet(fd, "rtibContactPhone"), rtibContactEmail := FormGet(fd, "rtibContactEmail"),
      ceoName := FormGet(fd, "ceoName"), ceoBirthDate := FormGet(fd, "ceoBirthDate"),
      parentCompany := parent, mainShareholder := parent,
      subsidiaries := ParseCommaList(FormGet(fd, "subsidiaries")),
      numEmployees := employees, employeeCount := employees)
  }

  /** The document as the admin table reads it. */
  function AsAdminRow(id: string, c: NewCompany): AdminCompanies.AdminCompany {
    AdminCompanies.AdminCompany(id, c.companyName, c.name, c.industry, c.businessActivity,
                                c.location, c.hqLocation, c.contactEmail, c.email)
  }

  /** The document as the public directory reads it. */
  function AsDirectoryItem(id: string, c: NewCompany): Directory.StoredCompany {
    Directory.StoredCompany(id, c.companyName, c.businessActivity, c.industry, c.hqLocation,
                            c.registeredAddress, c.website, c.ceoName, None, c.numEmployees)
  }

  /**
   * The admin table tries `industry` first and the directory `businessActivity`
   * first; for a document this page wrote both read the same industry, and
   * the same name when one was given.
   */
  lemma NewCompanyReadsAlike(id: string, fd: FormData, logoUrl: Option<string>)
    requires Truthy(FormGet(fd, "businessActivity"))
    ensures var c := BuildNewCompany(fd, logoUrl);
      AdminCompanies.CompanyIndustry(AsAdminRow(id, c)) == Directory.Normalize(AsDirectoryItem(id, c)).industry
    ensures var c := BuildNewCompany(fd, logoUrl);
      Truthy(FormGet(fd, "companyName")) ==>
        AdminCompanies.CompanyName(AsAdminRow(id, c)) == Directory.Normalize(AsDirectoryItem(id, c)).name
  {
  }

  // ----- the page -----

  datatype SignedInUser = SignedInUser(isAdmin: bool)

  /** The effect that sends a signed-out or non-admin visitor home once the session is known. */
  predicate RedirectsHome(authLoading: bool, user: Option<SignedInUser>) {
    !authLoading && (user.None? || !user.value.isAdmin)
  }

  /** The page shows a placeholder instead of the form while loading or to a non-admin. */
  predicate ShowsPlaceholder(authLoading: bool, user: Option<SignedInUser>) {
    authLoading || user.None? || !user.value.isAdmin
  }

  /** The form is shown only to a signed-in admin, and a visitor sent home never sees it. */
  lemma FormOnlyForAdmins(authLoading: bool, user: Option<SignedInUser>)
    ensures !ShowsPlaceholder(authLoading, user) <==> !authLoading && user.Some? && user.value.isAdmin
    ensures RedirectsHome(authLoading, user) ==> ShowsPlaceholder(authLoading, user)
  {
  }

  /**
   * What a submit did: the path the logo was uploaded to, the document
   * written, the notices raised, and whether the page moved to the list.
   */
  datatype SubmitRun = SubmitRun(uploadPath: Option<string>, written: Option<NewCompany>, toasts: seq<Toast>, navigated: bool)

  class AdminAddCompanyPage {
    var loading: bool
    var uploadingLogo: bool
    var selectedLogo: Option<string>

    constructor ()
      ensures !loading && !uploadingLogo && selectedLogo == None
    {
      loading := false;
      uploadingLogo := false;
      selectedLogo := None;
    }

    /** `handleLogoSelect`: the chosen file's name, or none. */
    method HandleLogoSelect(fileName: Option<string>)
      modifies this
      ensures selectedLogo == fileName && loading == old(loading) && uploadingLogo == old(uploadingLogo)
    {
      selectedLogo := fileName;
    }

    /**
     * `handleSubmit`: `stamp` stands for the clock, `uploadedUrl` for the
     * storage's answer (None when the upload fails) and `writeSucceeded` for
     * the document store's.
     */
    method HandleSubmit(user: Option<SignedInUser>, fd: FormData, stamp: string,
                        uploadedUrl: Option<string>, writeSucceeded: bool) returns (run: SubmitRun)
      modifies this
      ensures user.None? || !user.value.isAdmin ==>
        run == SubmitRun(None, None, [Failure("You must be an admin to add a company")], false) &&
        loading == old(loading) && uploadingLogo == old(uploadingLogo)
      ensures user.Some? && user.value.isAdmin ==>
        && !loading
        && uploadingLogo == (old(uploadingLogo) && old(selectedLogo).None?)
        && (run.uploadPath.Some? <==> old(selectedLogo).Some?)
        && (old(selectedLogo).Some? ==> run.uploadPath == Some(TempLogoPath(stamp, old(selectedLogo).value)))
        && run.written.Some?
        && run.written.value == BuildNewCompany(fd, if old(selectedLogo).Some? then uploadedUrl else None)
        && run.navigated == writeSucceeded
        && run.toasts ==
             (if old(selectedLogo).Some? && uploadedUrl.None? then [Failure("Failed to upload logo")] else []) +
             [if writeSucceeded then Success("Company added successfully") else Failure("Failed to add company")]
      ensures selectedLogo == old(selectedLogo)
    {
      if user.None? || !user.value.isAdmin {
        return SubmitRun(None, None, [Failure("You must be an admin to add a company")], false);
      }
      loading := true;
      var toasts: seq<Toast> := [];
      var uploadPath: Option<string> := None;
      var logoUrl: Option<string> := None;
      if selectedLogo.Some? {
        uploadingLogo := true;
        uploadPath := Some(TempLogoPath(stamp, selectedLogo.value));
        if uploadedUrl.Some? {
          logoUrl := uploadedUrl;
        } else {
          toasts := toasts + [Failure("Failed to upload logo")];
        }
        uploadingLogo := false;
      }
      var company := BuildNewCompany(fd, logoUrl);
      if writeSucceeded {
        toasts := toasts + [Success("Company added successfully")];
      } else {
        toasts := toasts + [Failure("Failed to add company")];
      }
      loading := false;
      run := SubmitRun(uploadPath, Some(company), toasts, writeSucceeded);
    }
  }
}
