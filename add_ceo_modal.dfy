/**
 * The add-CEO dialog: basic and contact fields plus an editable career
 * timeline, validated field by field and entry by entry before the CEO record
 * is handed over.
 */
module AddCeoModal {
  import opened Optional
  import opened Text
  import opened Forms
  import opened People

  /** The text inputs of the dialog (the timeline has its own inputs). */
  datatype CeoField = Name | Position | Company | Bio | Email | LinkedinUrl | ImageUrl

  /** The inputs of one timeline entry. */
  datatype EntryField = EntryPosition | EntryCompany | EntryStartDate | EntryEndDate

  /** A timeline entry as the dialog edits it: every input holds a text. */
  datatype FormEntry = FormEntry(position: string, company: string, startDate: string, endDate: string)
  {
    function Get(f: EntryField): string {
      match f
      case EntryPosition => position
      case EntryCompany => company
      case EntryStartDate => startDate
      case EntryEndDate => endDate
    }

    /** `{ ...entry, [field]: value }`. */
    function Set(f: EntryField, value: string): (r: FormEntry)
      ensures r.Get(f) == value
      ensures forall g :: g != f ==> r.Get(g) == Get(g)
    {
      match f
      case EntryPosition => this.(position := value)
      case EntryCompany => this.(company := value)
      case EntryStartDate => this.(startDate := value)
      case EntryEndDate => this.(endDate := value)
    }
  }

  datatype CeoForm = CeoForm(
    name: string, position: string, company: string, bio: string,
    email: string, linkedinUrl: string, imageUrl: string, timeline: seq<FormEntry>)
  {
    function Get(f: CeoField): string {
      match f
      case Name => name
      case Position => position
      case Company => company
      case Bio => bio
      case Email => email
      case LinkedinUrl => linkedinUrl
      case ImageUrl => imageUrl
    }

    /** `{ ...prev, [name]: value }` for a text input. */
    function Set(f: CeoField, value: string): (r: CeoForm)
      ensures r.Get(f) == value && r.timeline == timeline
      ensures forall g :: g != f ==> r.Get(g) == Get(g)
    {
      match f
      case Name => this.(name := value)
      case Position => this.(position := value)
      case Company => this.(company := value)
      case Bio => this.(bio := value)
      case Email => this.(email := value)
      case LinkedinUrl => this.(linkedinUrl := value)
      case ImageUrl => this.(imageUrl := value)
    }
  }

  /**
   * The dialog's errors: per-field kinds, and, only when some entry failed,
   * the failing inputs of each failing timeline entry by index.
   */
  datatype CeoErrors = CeoErrors(fields: map<CeoField, FieldError>, timeline: Option<map<int, set<EntryField>>>)

  const NoErrors := CeoErrors(map[], None)

  /**
   * `initialFormData`: position "CEO", the company the dialog was opened for,
   * and one current CEO entry that starts `today` (the date part of the clock).
   */
  function InitialForm(companyName: string, today: string): (form: CeoForm)
    ensures form.name == "" && form.bio == "" && form.email == "" && form.position == "CEO"
    ensures form.company == companyName
    ensures form.timeline == [FormEntry("CEO", companyName, today, "")]
  {
    CeoForm("", "CEO", companyName, "", "", "", "", [FormEntry("CEO", companyName, today, "")])
  }

  /** What `validateForm` reports for one text input. */
  function FieldCheck(form: CeoForm, f: CeoField): Option<FieldError> {
    match f
    case Name => RequiredCheck(form.name)
    case Position => RequiredCheck(form.position)
    case Bio => RequiredCheck(form.bio)
    case Email => EmailCheck(form.email)
    case _ => None
  }

  const CheckedFields: seq<CeoField> := [Name, Position, Bio, Email]

  function ExpectedFieldErrors(form: CeoForm): map<CeoField, FieldError> {
    map f | f in CheckedFields && FieldCheck(form, f).Some? :: FieldCheck(form, f).value
  }

  /** The inputs of one entry that fail: an empty position, an empty start date. */
  function EntryMissing(e: FormEntry): (r: set<EntryField>)
    ensures EntryPosition in r <==> e.position == ""
    ensures EntryStartDate in r <==> e.startDate == ""
    ensures r <= {EntryPosition, EntryStartDate}
  {
    (if e.position == "" then {EntryPosition} else {}) + (if e.startDate == "" then {EntryStartDate} else {})
  }

  /** The entry errors of the first `n` entries, keyed by index, failing entries only. */
  function EntryErrorsUpTo(tl: seq<FormEntry>, n: int): map<int, set<EntryField>>
    requires 0 <= n <= |tl|
  {
    map j | 0 <= j < n && EntryMissing(tl[j]) != {} :: EntryMissing(tl[j])
  }

  function ExpectedTimelineErrors(tl: seq<FormEntry>): map<int, set<EntryField>> {
    EntryErrorsUpTo(tl, |tl|)
  }

  /** The errors `validateForm` should set for a form. */
  function ExpectedErrors(form: CeoForm): CeoErrors {
    var te := ExpectedTimelineErrors(form.timeline);
    CeoErrors(ExpectedFieldErrors(form), if te != map[] then Some(te) else None)
  }

  /** A timeline entry is complete when it has a position and a start date. */
  predicate EntryComplete(e: FormEntry) {
    e.position != "" && e.startDate != ""
  }

  /** The form the dialog accepts, stated field by field. */
  predicate Acceptable(form: CeoForm) {
    && form.name != "" && form.position != "" && form.bio != ""
    && (form.email == "" || MatchesEmailPattern(form.email))
    && forall i :: 0 <= i < |form.timeline| ==> EntryComplete(form.timeline[i])
  }

  /** The entry errors name exactly the incomplete entries, each with its failing inputs. */
  lemma TimelineErrorsSpec(tl: seq<FormEntry>)
    ensures forall i :: i in ExpectedTimelineErrors(tl) <==> 0 <= i < |tl| && !EntryComplete(tl[i])
    ensures forall i | i in ExpectedTimelineErrors(tl) :: ExpectedTimelineErrors(tl)[i] == EntryMissing(tl[i])
    ensures ExpectedTimelineErrors(tl) == map[] <==> forall i :: 0 <= i < |tl| ==> EntryComplete(tl[i])
  {
    if !forall i :: 0 <= i < |tl| ==> EntryComplete(tl[i]) {
      var i :| 0 <= i < |tl| && !EntryComplete(tl[i]);
      assert i in ExpectedTimelineErrors(tl);
    }
  }

  /** Validation reports nothing exactly for an acceptable form. */
  lemma NoErrorsIffAcceptable(form: CeoForm)
    ensures ExpectedErrors(form) == NoErrors <==> Acceptable(form)
  {
    TimelineErrorsSpec(form.timeline);
    var fe := ExpectedFieldErrors(form);
    if form.name == "" {
      assert Name in fe;
    } else if form.position == "" {
      assert Position in fe;
    } else if form.bio == "" {
      assert Bio in fe;
    } else if form.email != "" && !MatchesEmailPattern(form.email) {
      assert Email in fe;
    }
  }

  /** A freshly opened dialog reports exactly the missing name and bio (its entry starts today). */
  lemma InitialFormErrors(companyName: string, today: string)
    requires today != ""
    ensures ExpectedErrors(InitialForm(companyName, today)) == CeoErrors(map[Name := Required, Bio := Required], None)
  {
    var form := InitialForm(companyName, today);
    TimelineErrorsSpec(form.timeline);
    assert FieldCheck(form, Email).None?;
  }

  /** `[...timeline, emptyEntry]`. */
  function AddEntry(tl: seq<FormEntry>): (r: seq<FormEntry>)
    ensures |r| == |tl| + 1 && r[..|tl|] == tl && r[|tl|] == FormEntry("", "", "", "")
  {
    tl + [FormEntry("", "", "", "")]
  }

  /** `timeline.splice(index, 1)`: an index past the end removes nothing. */
  function RemoveEntry(tl: seq<FormEntry>, index: nat): (r: seq<FormEntry>)
    ensures index < |tl| ==> |r| == |tl| - 1
    ensures index < |tl| ==> forall i :: 0 <= i < |r| ==> r[i] == (if i < index then tl[i] else tl[i + 1])
    ensures index >= |tl| ==> r == tl
  {
    if index < |tl| then tl[..index] + tl[index + 1..] else tl
  }

  /** Removing the entry just added restores the timeline. */
  lemma RemoveAddedEntry(tl: seq<FormEntry>)
    ensures RemoveEntry(AddEntry(tl), |tl|) == tl
  {
    assert AddEntry(tl)[..|tl|] == tl;
  }

  /** A fresh entry is incomplete, so adding one blocks submission until it is filled in. */
  lemma AddedEntryBlocksSubmit(form: CeoForm)
    ensures !Acceptable(form.(timeline := AddEntry(form.timeline)))
  {
    assert !EntryComplete(AddEntry(form.timeline)[|form.timeline|]);
  }

  /** `newCEO`: the form's values, the image typed or uploaded, the timeline as entered. */
  function BuildCeo(form: CeoForm, preview: Option<string>): (c: CeoData)
    ensures c.name == form.name && c.position == form.position && c.company == form.company
    ensures c.bio == Some(form.bio) && c.email == Some(form.email) && c.linkedinUrl == Some(form.linkedinUrl)
    ensures c.imageUrl == ImageUrlOf(form.imageUrl, preview)
    ensures c.timeline.Some? && |c.timeline.value| == |form.timeline|
    ensures forall i :: 0 <= i < |form.timeline| ==>
      c.timeline.value[i] == TimelineEntry(form.timeline[i].position, Some(form.timeline[i].company),
                                           form.timeline[i].startDate, Some(form.timeline[i].endDate))
  {
    var entries := seq(|form.timeline|, i requires 0 <= i < |form.timeline| =>
      TimelineEntry(form.timeline[i].position, Some(form.timeline[i].company),
                    form.timeline[i].startDate, Some(form.timeline[i].endDate)));
    CeoData(form.name, form.position, form.company, Some(form.bio),
            ImageUrlOf(form.imageUrl, preview), Some(form.email), Some(form.linkedinUrl), Some(entries))
  }

  /** A CEO built from an accepted form has a name, a bio and a dated position at every step. */
  lemma AcceptedCeoIsComplete(form: CeoForm, preview: Option<string>)
    requires ExpectedErrors(form) == NoErrors
    ensures BuildCeo(form, preview).name != "" && BuildCeo(form, preview).bio.value != ""
    ensures forall e | e in BuildCeo(form, preview).timeline.value :: e.position != "" && e.startDate != ""
  {
    NoErrorsIffAcceptable(form);
  }

  /**
   * The `forEach` over the timeline inside `validateForm`: each entry's failing
   * inputs under its index, and whether any entry failed.
   */
  method ValidateTimeline(tl: seq<FormEntry>) returns (timelineErrors: map<int, set<EntryField>>, hasTimelineErrors: bool)
    ensures timelineErrors == ExpectedTimelineErrors(tl)
    ensures hasTimelineErrors <==> timelineErrors != map[]
  {
    timelineErrors := map[];
    hasTimelineErrors := false;
    var i := 0;
    while i < |tl|
      invariant 0 <= i <= |tl|
      invariant timelineErrors == EntryErrorsUpTo(tl, i)
      invariant hasTimelineErrors <==> timelineErrors != map[]
    {
      var entryErrors: set<EntryField> := {};
      if tl[i].position == "" {
        entryErrors := entryErrors + {EntryPosition};
        hasTimelineErrors := true;
      }
      if tl[i].startDate == "" {
        entryErrors := entryErrors + {EntryStartDate};
        hasTimelineErrors := true;
      }
      assert entryErrors == EntryMissing(tl[i]);
      if entryErrors != {} {
        timelineErrors := timelineErrors[i := entryErrors];
        assert i in timelineErrors;
      }
      EntryErrorsStep(tl, i);
      i := i + 1;
    }
  }

  /** The state of the add-CEO dialog. */
  class CeoDialog {
    const companyName: string
    var form: CeoForm
    var errors: CeoErrors
    var isSubmitting: bool
    var preview: Option<string>

    constructor (companyName: string, today: string)
      ensures this.companyName == companyName && form == InitialForm(companyName, today)
      ensures errors == NoErrors && !isSubmitting && preview == None
    {
      this.companyName := companyName;
      form := InitialForm(companyName, today);
      errors := NoErrors;
      isSubmitting := false;
      preview := None;
    }

    /** `handleChange`: stores the value and clears that input's error. */
    method HandleChange(field: CeoField, value: string)
      modifies this
      ensures form == old(form).Set(field, value)
      ensures errors == old(errors).(fields := old(errors).fields - {field})
      ensures isSubmitting == old(isSubmitting) && preview == old(preview)
    {
      form := form.Set(field, value);
      if field in errors.fields {
        errors := errors.(fields := errors.fields - {field});
      }
    }

    /**
     * `handleTimelineChange`: stores the value in entry `index`, and clears the
     * error of that input of that entry when one is shown.
     */
    method HandleTimelineChange(index: nat, field: EntryField, value: string)
      requires index < |form.timeline|
      modifies this
      ensures form == old(form).(timeline := old(form).timeline[index := old(form).timeline[index].Set(field, value)])
      ensures var te := old(errors).timeline;
        if te.Some? && index in te.value && field in te.value[index]
        then errors == old(errors).(timeline := Some(te.value[index := te.value[index] - {field}]))
        else errors == old(errors)
      ensures isSubmitting == old(isSubmitting) && preview == old(preview)
    {
      form := form.(timeline := form.timeline[index := form.timeline[index].Set(field, value)]);
      if errors.timeline.Some? && index in errors.timeline.value && field in errors.timeline.value[index] {
        var te := errors.timeline.value;
        errors := errors.(timeline := Some(te[index := te[index] - {field}]));
      }
    }

    /** `addTimelineEntry`. */
    method AddTimelineEntry()
      modifies this
      ensures form == old(form).(timeline := AddEntry(old(form).timeline))
      ensures errors == old(errors) && isSubmitting == old(isSubmitting) && preview == old(preview)
    {
      form := form.(timeline := AddEntry(form.timeline));
    }

    /**
     * `removeTimelineEntry`, reachable only from the remove button, which every
     * entry but the first carries; the entry errors keep their old indices.
     */
    method RemoveTimelineEntry(index: nat)
      requires 0 < index
      modifies this
      ensures form == old(form).(timeline := RemoveEntry(old(form).timeline, index))
      ensures errors == old(errors) && isSubmitting == old(isSubmitting) && preview == old(preview)
    {
      form := form.(timeline := RemoveEntry(form.timeline, index));
    }

    /** The file reader finished: the data URL becomes the preview. */
    method ImageLoaded(dataUrl: string)
      modifies this
      ensures preview == Some(dataUrl)
      ensures form == old(form) && errors == old(errors) && isSubmitting == old(isSubmitting)
    {
      preview := Some(dataUrl);
    }

    /**
     * `validateForm`: the required inputs, the address if one is typed, then
     * every timeline entry in order; true when nothing was reported.
     */
    method ValidateForm() returns (ok: bool)
      modifies this
      ensures errors == ExpectedErrors(form)
      ensures ok <==> Acceptable(form)
      ensures form == old(form) && isSubmitting == old(isSubmitting) && preview == old(preview)
    {
      var fm := form;
      var fields: map<CeoField, FieldError> := map[];
      if fm.name == "" { fields := fields[Name := Required]; }
      if fm.position == "" { fields := fields[Position := Required]; }
      if fm.bio == "" { fields := fields[Bio := Required]; }
      if fm.email != "" && !MatchesEmailPattern(fm.email) { fields := fields[Email := Invalid]; }
      CheckedFieldErrors(fm, fields);

      var timelineErrors, hasTimelineErrors := ValidateTimeline(fm.timeline);
      errors := CeoErrors(fields, if hasTimelineErrors then Some(timelineErrors) else None);
      ok := |fields| == 0 && !hasTimelineErrors;
      NoErrorsIffAcceptable(fm);
    }

    /**
     * `handleSubmit` up to the delayed callback: with an accepted form the
     * dialog turns busy and the CEO record is fixed from the current values.
     */
    method HandleSubmit() returns (pending: Option<CeoData>)
      modifies this
      ensures errors == ExpectedErrors(old(form)) && form == old(form) && preview == old(preview)
      ensures pending.Some? <==> Acceptable(old(form))
      ensures pending.Some? ==> pending.value == BuildCeo(old(form), old(preview)) && isSubmitting
      ensures pending.None? ==> isSubmitting == old(isSubmitting)
    {
      var ok := ValidateForm();
      if !ok {
        return None;
      }
      isSubmitting := true;
      pending := Some(BuildCeo(form, preview));
    }

    /** The delayed callback: the record is delivered and the dialog starts afresh. */
    method SubmitDelayElapsed(today: string)
      modifies this
      ensures form == InitialForm(companyName, today) && !isSubmitting && preview == None
      ensures errors == old(errors)
    {
      isSubmitting := false;
      form := InitialForm(companyName, today);
      preview := None;
    }

    /** `handleClose`: a fresh form, no errors, no preview. */
    method HandleClose(today: string)
      modifies this
      ensures form == InitialForm(companyName, today) && errors == NoErrors && preview == None
      ensures isSubmitting == old(isSubmitting)
    {
      form := InitialForm(companyName, today);
      errors := NoErrors;
      preview := None;
    }
  }

  /** The text-input errors built one check at a time are the expected ones. */
  lemma CheckedFieldErrors(form: CeoForm, m: map<CeoField, FieldError>)
    requires forall f :: f in m <==>
      || (f == Name && form.name == "") || (f == Position && form.position == "")
      || (f == Bio && form.bio == "") || (f == Email && form.email != "" && !MatchesEmailPattern(form.email))
    requires forall f | f in m :: m[f] == (if f == Email then Invalid else Required)
    ensures m == ExpectedFieldErrors(form)
  {
  }

  /** One more entry checked extends the entry errors by that entry's failures, if any. */
  lemma EntryErrorsStep(tl: seq<FormEntry>, i: nat)
    requires i < |tl|
    ensures EntryErrorsUpTo(tl, i + 1) ==
      if EntryMissing(tl[i]) != {} then EntryErrorsUpTo(tl, i)[i := EntryMissing(tl[i])] else EntryErrorsUpTo(tl, i)
  {
  }
}
