/**
 * The add-employee dialog: seven text inputs, three of them required and the
 * address checked when typed; an accepted form becomes an employee record of
 * the company the dialog was opened for.
 */
module AddEmployeeModal {
  import opened Optional
  import opened Text
  import opened Forms
  import opened People

  datatype EmployeeField = Name | Position | Department | Email | LinkedinUrl | Bio | ImageUrl

  datatype EmployeeForm = EmployeeForm(
    name: string, position: string, department: string, email: string,
    linkedinUrl: string, bio: string, imageUrl: string)
  {
    function Get(f: EmployeeField): string {
      match f
      case Name => name
      case Position => position
      case Department => department
      case Email => email
      case LinkedinUrl => linkedinUrl
      case Bio => bio
      case ImageUrl => imageUrl
    }

    /** `{ ...prev, [name]: value }`. */
    function Set(f: EmployeeField, value: string): (r: EmployeeForm)
      ensures r.Get(f) == value
      ensures forall g :: g != f ==> r.Get(g) == Get(g)
    {
      match f
      case Name => this.(name := value)
      case Position => this.(position := value)
      case Department => this.(department := value)
      case Email => this.(email := value)
      case LinkedinUrl => this.(linkedinUrl := value)
      case Bio => this.(bio := value)
      case ImageUrl => this.(imageUrl := value)
    }
  }

  /** `initialFormData`: every input empty. */
  function InitialForm(): (form: EmployeeForm)
    ensures forall f :: form.Get(f) == ""
  {
    EmployeeForm("", "", "", "", "", "", "")
  }

  /** What `validateForm` reports for one input. */
  function FieldCheck(form: EmployeeForm, f: EmployeeField): Option<FieldError> {
    match f
    case Name => RequiredCheck(form.name)
    case Position => RequiredCheck(form.position)
    case Department => RequiredCheck(form.department)
    case Email => EmailCheck(form.email)
    case _ => None
  }

  const CheckedFields: seq<EmployeeField> := [Name, Position, Department, Email]

  function ExpectedErrors(form: EmployeeForm): map<EmployeeField, FieldError> {
    map f | f in CheckedFields && FieldCheck(form, f).Some? :: FieldCheck(form, f).value
  }

  /** The form the dialog accepts. */
  predicate Acceptable(form: EmployeeForm) {
    && form.name != "" && form.position != "" && form.department != ""
    && (form.email == "" || MatchesEmailPattern(form.email))
  }

  /** Validation reports nothing exactly for an acceptable form; bio, link and image never fail. */
  lemma NoErrorsIffAcceptable(form: EmployeeForm)
    ensures ExpectedErrors(form) == map[] <==> Acceptable(form)
    ensures LinkedinUrl !in ExpectedErrors(form) && Bio !in ExpectedErrors(form) && ImageUrl !in ExpectedErrors(form)
  {
    var e := ExpectedErrors(form);
    if form.name == "" {
      assert Name in e;
    } else if form.position == "" {
      assert Position in e;
    } else if form.department == "" {
      assert Department in e;
    } else if form.email != "" && !MatchesEmailPattern(form.email) {
      assert Email in e;
    }
  }

  /** The errors built one check at a time are the expected ones. */
  lemma CheckedErrors(form: EmployeeForm, m: map<EmployeeField, FieldError>)
    requires forall f :: f in m <==>
      || (f == Name && form.name == "") || (f == Position && form.position == "")
      || (f == Department && form.department == "")
      || (f == Email && form.email != "" && !MatchesEmailPattern(form.email))
    requires forall f | f in m :: m[f] == (if f == Email then Invalid else Required)
    ensures m == ExpectedErrors(form)
  {
  }

  /**
   * `newEmployee`: `newId` stands for `emp-${Date.now()}`; the company is the
   * text "Company " followed by the id the dialog was opened with.
   */
  function BuildEmployee(form: EmployeeForm, companyId: string, newId: string, preview: Option<string>): (e: EmployeeData)
    ensures e.id == newId && e.company == "Company " + companyId
    ensures e.name == form.name && e.position == form.position && e.department == form.department
    ensures e.bio == Some(form.bio) && e.email == Some(form.email) && e.linkedinUrl == Some(form.linkedinUrl)
    ensures e.imageUrl == ImageUrlOf(form.imageUrl, preview)
  {
    EmployeeData(newId, form.name, form.position, form.department, "Company " + companyId,
                 Some(form.bio), ImageUrlOf(form.imageUrl, preview), Some(form.email), Some(form.linkedinUrl))
  }

  /** An employee built from an accepted form has a name, a position, a department and a usable address. */
  lemma AcceptedEmployeeIsComplete(form: EmployeeForm, companyId: string, newId: string, preview: Option<string>)
    requires ExpectedErrors(form) == map[]
    ensures var e := BuildEmployee(form, companyId, newId, preview);
      e.name != "" && e.position != "" && e.department != "" &&
      (e.email.value == "" || MatchesEmailPattern(e.email.value))
  {
    NoErrorsIffAcceptable(form);
  }

  /** The state of the add-employee dialog. */
  class EmployeeDialog {
    const companyId: string
    var form: EmployeeForm
    var errors: map<EmployeeField, FieldError>
    var isSubmitting: bool
    var preview: Option<string>

    constructor (companyId: string)
      ensures this.companyId == companyId && form == InitialForm()
      ensures errors == map[] && !isSubmitting && preview == None
    {
      this.companyId := companyId;
      form := InitialForm();
      errors := map[];
      isSubmitting := false;
      preview := None;
    }

    /** `handleChange` and `handleSelectChange`: store the value, clear that input's error. */
    method HandleChange(field: EmployeeField, value: string)
      modifies this
      ensures form == old(form).Set(field, value) && errors == old(errors) - {field}
      ensures isSubmitting == old(isSubmitting) && preview == old(preview)
    {
      form := form.Set(field, value);
      if field in errors {
        errors := errors - {field};
      }
    }

    method ImageLoaded(dataUrl: string)
      modifies this
      ensures preview == Some(dataUrl)
      ensures form == old(form) && errors == old(errors) && isSubmitting == old(isSubmitting)
    {
      preview := Some(dataUrl);
    }

    /** `validateForm`. */
    method ValidateForm() returns (ok: bool)
      modifies this
      ensures errors == ExpectedErrors(form)
      ensures ok <==> Acceptable(form)
      ensures form == old(form) && isSubmitting == old(isSubmitting) && preview == old(preview)
    {
      var fm := form;
      var newErrors: map<EmployeeField, FieldError> := map[];
      if fm.name == "" { newErrors := newErrors[Name := Required]; }
      if fm.position == "" { newErrors := newErrors[Position := Required]; }
      if fm.department == "" { newErrors := newErrors[Department := Required]; }
      if fm.email != "" && !MatchesEmailPattern(fm.email) { newErrors := newErrors[Email := Invalid]; }
      CheckedErrors(fm, newErrors);
      NoErrorsIffAcceptable(fm);
      errors := newErrors;
      ok := |newErrors| == 0;
    }

    /** `handleSubmit` up to the delayed callback; `newId` is the clock-based id. */
    method HandleSubmit(newId: string) returns (pending: Option<EmployeeData>)
      modifies this
      ensures errors == ExpectedErrors(old(form)) && form == old(form) && preview == old(preview)
      ensures pending.Some? <==> Acceptable(old(form))
      ensures pending.Some? ==> pending.value == BuildEmployee(old(form), companyId, newId, old(preview)) && isSubmitting
      ensures pending.None? ==> isSubmitting == old(isSubmitting)
    {
      var ok := ValidateForm();
      if !ok {
        return None;
      }
      isSubmitting := true;
      pending := Some(BuildEmployee(form, companyId, newId, preview));
    }

    /** The delayed callback: the record is delivered and the dialog starts afresh. */
    method SubmitDelayElapsed()
      modifies this
      ensures form == InitialForm() && !isSubmitting && preview == None && errors == old(errors)
    {
      isSubmitting := false;
      form := InitialForm();
      preview := None;
    }

    /** `handleClose`. */
    method HandleClose()
      modifies this
      ensures form == InitialForm() && errors == map[] && preview == None
      ensures isSubmitting == old(isSubmitting)
    {
      form := InitialForm();
      errors := map[];
      preview := None;
    }
  }
}
