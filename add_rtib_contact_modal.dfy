/**
 * The dialog that adds or updates an RTIB contact: opened with an existing
 * contact it starts from that contact's values and keeps its id.
 */
module AddRtibContactModal {
  import opened Optional
  import opened Text
  import opened Forms
  import opened People

  datatype ContactField = Name | Position | Email | Phone | ImageUrl

  datatype ContactForm = ContactForm(name: string, position: string, email: string, phone: string, imageUrl: string)
  {
    function Get(f: ContactField): string {
      match f
      case Name => name
      case Position => position
      case Email => email
      case Phone => phone
      case ImageUrl => imageUrl
    }

    /** `{ ...prev, [name]: value }`. */
    function Set(f: ContactField, value: string): (r: ContactForm)
      ensures r.Get(f) == value
      ensures forall g :: g != f ==> r.Get(g) == Get(g)
    {
      match f
      case Name => this.(name := value)
      case Position => this.(position := value)
      case Email => this.(email := value)
      case Phone => this.(phone := value)
      case ImageUrl => this.(imageUrl := value)
    }
  }

  /** `initialFormData`: the existing contact's values, or empty inputs. */
  function InitialForm(existing: Option<RtibContactData>): (form: ContactForm)
    ensures existing.None? ==> form == ContactForm("", "", "", "", "")
    ensures existing.Some? ==>
      && form.name == existing.value.name && form.position == existing.value.position
      && form.email == existing.value.email
      && form.phone == OrElse(existing.value.phone, "") && form.imageUrl == OrElse(existing.value.imageUrl, "")
  {
    match existing
    case None => ContactForm("", "", "", "", "")
    case Some(c) => ContactForm(c.name, c.position, c.email, OrElse(c.phone, ""), OrElse(c.imageUrl, ""))
  }

  /** The preview starts as the existing contact's image, if it has one. */
  function InitialPreview(existing: Option<RtibContactData>): (r: Option<string>)
    ensures r.Some? <==> existing.Some? && Truthy(existing.value.imageUrl)
    ensures r.Some? ==> r == existing.value.imageUrl
  {
    if existing.Some? && Truthy(existing.value.imageUrl) then existing.value.imageUrl else None
  }

  /**
   * What `validateForm` reports: name and position are required; an empty
   * address is "required", a malformed one "invalid" (the second check
   * overwrites the first, which cannot both apply).
   */
  function FieldCheck(form: ContactForm, f: ContactField): Option<FieldError> {
    match f
    case Name => RequiredCheck(form.name)
    case Position => RequiredCheck(form.position)
    case Email => if EmailCheck(form.email).Some? then EmailCheck(form.email) else RequiredCheck(form.email)
    case _ => None
  }

  const CheckedFields: seq<ContactField> := [Name, Position, Email]

  function ExpectedErrors(form: ContactForm): map<ContactField, FieldError> {
    map f | f in CheckedFields && FieldCheck(form, f).Some? :: FieldCheck(form, f).value
  }

  /** The form the dialog accepts: here the address is mandatory and must look like one. */
  predicate Acceptable(form: ContactForm) {
    form.name != "" && form.position != "" && MatchesEmailPattern(form.email)
  }

  /** The email error is "required" exactly for an empty address and "invalid" for a malformed one. */
  lemma EmailErrorKinds(form: ContactForm)
    ensures Email in ExpectedErrors(form) <==> !MatchesEmailPattern(form.email)
    ensures form.email == "" ==> ExpectedErrors(form)[Email] == Required
    ensures form.email != "" && !MatchesEmailPattern(form.email) ==> ExpectedErrors(form)[Email] == Invalid
  {
  }

  /** Validation reports nothing exactly for an acceptable form. */
  lemma NoErrorsIffAcceptable(form: ContactForm)
    ensures ExpectedErrors(form) == map[] <==> Acceptable(form)
    ensures Phone !in ExpectedErrors(form) && ImageUrl !in ExpectedErrors(form)
  {
    EmailErrorKinds(form);
    var e := ExpectedErrors(form);
    if form.name == "" {
      assert Name in e;
    } else if form.position == "" {
      assert Position in e;
    } else if !MatchesEmailPattern(form.email) {
      assert Email in e;
    }
  }

  /** The errors built one check at a time are the expected ones. */
  lemma CheckedErrors(form: ContactForm, m: map<ContactField, FieldError>)
    requires forall f :: f in m <==>
      || (f == Name && form.name == "") || (f == Position && form.position == "")
      || (f == Email && (form.email == "" || !MatchesEmailPattern(form.email)))
    requires forall f | f in m :: m[f] == (if f == Email && form.email != "" then Invalid else Required)
    ensures m == ExpectedErrors(form)
  {
  }

  /**
   * `contactData`: the existing id if it has one, else `freshId` (standing for
   * `rtib-${Date.now()}`); an empty phone becomes absent.
   */
  function BuildContact(form: ContactForm, existing: Option<RtibContactData>, freshId: string, preview: Option<string>): (c: RtibContactData)
    ensures existing.Some? && existing.value.id != "" ==> c.id == existing.value.id
    ensures (existing.None? || existing.value.id == "") ==> c.id == freshId
    ensures c.name == form.name && c.position == form.position && c.email == form.email
    ensures c.phone == NonEmpty(form.phone)
    ensures c.imageUrl == ImageUrlOf(form.imageUrl, preview)
  {
    var id := if existing.Some? && existing.value.id != "" then existing.value.id else freshId;
    RtibContactData(id, form.name, form.position, form.email, NonEmpty(form.phone), ImageUrlOf(form.imageUrl, preview))
  }

  /**
   * Submitting an existing contact's values unchanged gives back the same
   * contact, as long as its optional phone and image are absent rather than
   * empty and its id is set.
   */
  lemma UnchangedUpdateRoundTrip(c: RtibContactData, freshId: string)
    requires c.id != ""
    requires c.phone.None? || c.phone.value != ""
    requires c.imageUrl.None? || c.imageUrl.value != ""
    ensures BuildContact(InitialForm(Some(c)), Some(c), freshId, InitialPreview(Some(c))) == c
  {
  }

  /** The state of the contact dialog. */
  class ContactDialog {
    const existing: Option<RtibContactData>
    var form: ContactForm
    var errors: map<ContactField, FieldError>
    var isSubmitting: bool
    var preview: Option<string>

    constructor (existing: Option<RtibContactData>)
      ensures this.existing == existing && form == InitialForm(existing)
      ensures errors == map[] && !isSubmitting && preview == InitialPreview(existing)
    {
      this.existing := existing;
      form := InitialForm(existing);
      errors := map[];
      isSubmitting := false;
      preview := InitialPreview(existing);
    }

    /** `handleChange`. */
    method HandleChange(field: ContactField, value: string)
      modifies this
      ensures form == old(form).Set(field, value) && errors == old(errors) - {field}
      ensures isSubmitting == old(isSubmitting) && preview == old(preview)
    {
      form := form.Set(field, value);
      if field in errors {
        errors := errors - {field};
      }
    }

    method ImageLoaded(dataUrl: string)
      modifies this
      ensures preview == Some(dataUrl)
      ensures form == old(form) && errors == old(errors) && isSubmitting == old(isSubmitting)
    {
      preview := Some(dataUrl);
    }

    /** `validateForm`. */
    method ValidateForm() returns (ok: bool)
      modifies this
      ensures errors == ExpectedErrors(form)
      ensures ok <==> Acceptable(form)
      ensures form == old(form) && isSubmitting == old(isSubmitting) && preview == old(preview)
    {
      var fm := form;
      var newErrors: map<ContactField, FieldError> := map[];
      if fm.name == "" { newErrors := newErrors[Name := Required]; }
      if fm.position == "" { newErrors := newErrors[Position := Required]; }
      if fm.email == "" { newErrors := newErrors[Email := Required]; }
      if fm.email != "" && !MatchesEmailPattern(fm.email) { newErrors := newErrors[Email := Invalid]; }
      CheckedErrors(fm, newErrors);
      NoErrorsIffAcceptable(fm);
      errors := newErrors;
      ok := |newErrors| == 0;
    }

    /** `handleSubmit` up to the delayed callback. */
    method HandleSubmit(freshId: string) returns (pending: Option<RtibContactData>)
      modifies this
      ensures errors == ExpectedErrors(old(form)) && form == old(form) && preview == old(preview)
      ensures pending.Some? <==> Acceptable(old(form))
      ensures pending.Some? ==> pending.value == BuildContact(old(form), existing, freshId, old(preview)) && isSubmitting
      ensures pending.None? ==> isSubmitting == old(isSubmitting)
    {
      var ok := ValidateForm();
      if !ok {
        return None;
      }
      isSubmitting := true;
      pending := Some(BuildContact(form, existing, freshId, preview));
    }

    /** The delayed callback: the form is not reset, only the busy flag. */
    method SubmitDelayElapsed()
      modifies this
      ensures !isSubmitting
      ensures form == old(form) && errors == old(errors) && preview == old(preview)
    {
      isSubmitting := false;
    }

    /** `handleClose`: the preview is dropped only when adding a new contact. */
    method HandleClose()
      modifies this
      ensures form == InitialForm(existing) && errors == map[]
      ensures preview == if existing.None? then None else old(preview)
      ensures isSubmitting == old(isSubmitting)
    {
      form := InitialForm(existing);
      errors := map[];
      if existing.None? {
        preview := None;
      }
    }
  }
}
