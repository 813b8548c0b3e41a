/**
 * The add-company dialog of the navigation bar: fifteen text fields, five of
 * them required, with per-field errors that clear as the user edits.
 */
module AddCompanyModal {
  import opened Optional
  import opened Forms

  datatype CompanyField =
    | Name | Sector | Type | Established | Address
    | Website | SocialMedia | Description | Investment | Revenue
    | ImportVolume | ExportVolume | Employees | MainShareholder | Subsidiaries

  /** The dialog's `FormData`: one text per field. */
  datatype CompanyForm = CompanyForm(
    name: string, sector: string, companyType: string, established: string, address: string,
    website: string, socialMedia: string, description: string, investment: string, revenue: string,
    importVolume: string, exportVolume: string, employees: string, mainShareholder: string,
    subsidiaries: string)
  {
    function Get(f: CompanyField): string {
      match f
      case Name => name
      case Sector => sector
      case Type => companyType
      case Established => established
      case Address => address
      case Website => website
      case SocialMedia => socialMedia
      case Description => description
      case Investment => investment
      case Revenue => revenue
      case ImportVolume => importVolume
      case ExportVolume => exportVolume
      case Employees => employees
      case MainShareholder => mainShareholder
      case Subsidiaries => subsidiaries
    }

    /** `{ ...prev, [f]: value }`. */
    function Set(f: CompanyField, value: string): (r: CompanyForm)
      ensures r.Get(f) == value
      ensures forall g :: g != f ==> r.Get(g) == Get(g)
    {
      match f
      case Name => this.(name := value)
      case Sector => this.(sector := value)
      case Type => this.(companyType := value)
      case Established => this.(established := value)
      case Address => this.(address := value)
      case Website => this.(website := value)
      case SocialMedia => this.(socialMedia := value)
      case Description => this.(description := value)
      case Investment => this.(investment := value)
      case Revenue => this.(revenue := value)
      case ImportVolume => this.(importVolume := value)
      case ExportVolume => this.(exportVolume := value)
      case Employees => this.(employees := value)
      case MainShareholder => this.(mainShareholder := value)
      case Subsidiaries => this.(subsidiaries := value)
    }
  }

  /** The fields the dialog refuses to submit empty, in the order it checks them. */
  const RequiredFields: seq<CompanyField> := [Name, Sector, Type, Established, Address]

  /** `initialFormData`: every field empty. */
  function InitialForm(): (form: CompanyForm)
    ensures forall f :: form.Get(f) == ""
  {
    CompanyForm("", "", "", "", "", "", "", "", "", "", "", "", "", "", "")
  }

  /** The errors a form should show: "required" exactly on the empty required fields. */
  function ExpectedErrors(form: CompanyForm): map<CompanyField, FieldError> {
    map f | f in RequiredFields && form.Get(f) == "" :: Required
  }

  /** The form passes exactly when every required field is filled; optional ones never fail. */
  lemma ExpectedErrorsSpec(form: CompanyForm)
    ensures ExpectedErrors(form) == map[] <==>
      form.name != "" && form.sector != "" && form.companyType != "" && form.established != "" && form.address != ""
    ensures forall f :: f in ExpectedErrors(form) ==> ExpectedErrors(form)[f] == Required
    ensures forall f :: f !in RequiredFields ==> f !in ExpectedErrors(form)
  {
    if form.name == "" {
      assert Name in ExpectedErrors(form);
    } else if form.sector == "" {
      assert Sector in ExpectedErrors(form);
    } else if form.companyType == "" {
      assert Type in ExpectedErrors(form);
    } else if form.established == "" {
      assert Established in ExpectedErrors(form);
    } else if form.address == "" {
      assert Address in ExpectedErrors(form);
    }
  }

  /** A map built one required field at a time is the expected error map. */
  lemma RequiredErrors(form: CompanyForm, m: map<CompanyField, FieldError>)
    requires forall f :: f in m <==>
      || (f == Name && form.name == "") || (f == Sector && form.sector == "")
      || (f == Type && form.companyType == "") || (f == Established && form.established == "")
      || (f == Address && form.address == "")
    requires forall f | f in m :: m[f] == Required
    ensures m == ExpectedErrors(form)
  {
  }

  class AddCompanyDialog {
    var form: CompanyForm
    var errors: map<CompanyField, FieldError>
    var isSubmitting: bool

    constructor ()
      ensures form == InitialForm() && errors == map[] && !isSubmitting
    {
      form := InitialForm();
      errors := map[];
      isSubmitting := false;
    }

    /** `handleChange`: stores the value and clears that field's error, if any. */
    method HandleChange(field: CompanyField, value: string)
      modifies this
      ensures form == old(form).Set(field, value)
      ensures errors == old(errors) - {field}
      ensures isSubmitting == old(isSubmitting)
    {
      form := form.Set(field, value);
      if field in errors {
        errors := errors - {field};
      }
    }

    /** `handleSelectChange`: the same update for the dropdown fields. */
    method HandleSelectChange(field: CompanyField, value: string)
      modifies this
      ensures form == old(form).Set(field, value)
      ensures errors == old(errors) - {field}
      ensures isSubmitting == old(isSubmitting)
    {
      HandleChange(field, value);
    }

    /** `validateForm`: one "required" error per empty required field. */
    method ValidateForm() returns (ok: bool)
      modifies this
      ensures errors == ExpectedErrors(form)
      ensures ok <==> errors == map[]
      ensures form == old(form) && isSubmitting == old(isSubmitting)
    {
      var fm := form;
      var newErrors: map<CompanyField, FieldError> := map[];
      if fm.name == "" { newErrors := newErrors[Name := Required]; }
      if fm.sector == "" { newErrors := newErrors[Sector := Required]; }
      if fm.companyType == "" { newErrors := newErrors[Type := Required]; }
      if fm.established == "" { newErrors := newErrors[Established := Required]; }
      if fm.address == "" { newErrors := newErrors[Address := Required]; }
      RequiredErrors(fm, newErrors);
      errors := newErrors;
      ok := |newErrors| == 0;
    }

    /**
     * `handleSubmit` up to the delayed callback: with an accepted form the
     * dialog turns busy, and the data the callback will hand over is the form
     * as it stands now (the callback closes over this `formData`).
     */
    method HandleSubmit() returns (pending: Option<CompanyForm>)
      modifies this
      ensures pending.Some? <==> ExpectedErrors(old(form)) == map[]
      ensures pending.Some? ==> pending.value == old(form) && isSubmitting
      ensures pending.None? ==> isSubmitting == old(isSubmitting)
      ensures errors == ExpectedErrors(old(form)) && form == old(form)
    {
      var ok := ValidateForm();
      if !ok {
        return None;
      }
      isSubmitting := true;
      pending := Some(form);
    }

    /** The delayed callback: the pending data is delivered and the form starts afresh. */
    method SubmitDelayElapsed()
      modifies this
      ensures form == InitialForm() && !isSubmitting && errors == old(errors)
    {
      isSubmitting := false;
      form := InitialForm();
    }

    /** `handleClose`: empty form, no errors. */
    method HandleClose()
      modifies this
      ensures form == InitialForm() && errors == map[] && isSubmitting == old(isSubmitting)
    {
      form := InitialForm();
      errors := map[];
    }
  }
}
