/** What the add-dialogs share: the kinds of field error and the image fallback. */
module Forms {
  import opened Optional
  import opened Text

  /**
   * The kind of message a field shows: "required" or "invalid" (the message
   * text itself comes from the dialog's translation table).
   */
  datatype FieldError = Required | Invalid

  /** `formData.imageUrl || previewImage || undefined`. */
  function ImageUrlOf(typedUrl: string, preview: Option<string>): (r: Option<string>)
    ensures typedUrl != "" ==> r == Some(typedUrl)
    ensures typedUrl == "" && Truthy(preview) ==> r == preview
    ensures typedUrl == "" && !Truthy(preview) ==> r.None?
    ensures r.Some? ==> r.value != ""
  {
    if typedUrl != "" then Some(typedUrl)
    else if Truthy(preview) then preview
    else None
  }

  /** `if (!value) errors[f] = required`: the error an empty required field gets. */
  function RequiredCheck(value: string): (r: Option<FieldError>)
    ensures r.Some? <==> value == ""
    ensures r.Some? ==> r.value == Required
  {
    if value == "" then Some(Required) else None
  }

  /**
   * `if (email && !/^\S+@\S+\.\S+$/.test(email)) errors.email = invalid`: an
   * empty address is never reported as malformed.
   */
  function EmailCheck(email: string): (r: Option<FieldError>)
    ensures r.Some? <==> email != "" && !MatchesEmailPattern(email)
    ensures r.Some? ==> r.value == Invalid
  {
    if email != "" && !MatchesEmailPattern(email) then Some(Invalid) else None
  }

  /** A submitted HTML form: the value of each named input. */
  type FormData = map<string, string>

  /** `formData.get(key)`: absent (null) when the form has no input of that name. */
  function FormGet(fd: FormData, key: string): (r: Option<string>)
    ensures r.Some? <==> key in fd
    ensures r.Some? ==> r.value == fd[key]
  {
    if key in fd then Some(fd[key]) else None
  }

  /**
   * `parseInt(formData.get(key))`: the absent value is converted to the text
   * "null", which has no digits, so it parses to NaN (None) like any other
   * text without a leading number.
   */
  function ParseField(v: Option<string>): (r: Option<int>)
    ensures v.None? ==> r.None?
    ensures v.Some? ==> r == ParseInt(v.value)
  {
    match v
    case None => None
    case Some(s) => ParseInt(s)
  }

  /**
   * `str ? str.split(",").map(s => s.trim()) : []`: an absent or empty text
   * gives an empty list; otherwise every comma starts a new piece and empty
   * pieces are kept.
   */
  function ParseCommaList(v: Option<string>): (r: seq<string>)
    ensures !Truthy(v) ==> r == []
    ensures Truthy(v) ==> |r| == |Split(v.value, ',')|
    ensures Truthy(v) ==> forall k :: 0 <= k < |r| ==> r[k] == Trim(Split(v.value, ',')[k])
  {
    if !Truthy(v) then []
    else
      var pieces := Split(v.value, ',');
      seq(|pieces|, k requires 0 <= k < |pieces| => Trim(pieces[k]))
  }

  /** One item per comma plus one; each is trimmed and holds no comma. */
  lemma CommaListShape(s: string)
    requires s != ""
    ensures |ParseCommaList(Some(s))| == 1 + multiset(s)[',']
    ensures forall k :: 0 <= k < |ParseCommaList(Some(s))| ==>
      Trim(ParseCommaList(Some(s))[k]) == ParseCommaList(Some(s))[k] && ',' !in ParseCommaList(Some(s))[k]
  {
    SplitCount(s, ',');
    var pieces := Split(s, ',');
    var r := ParseCommaList(Some(s));
    forall k | 0 <= k < |r|
      ensures Trim(r[k]) == r[k] && ',' !in r[k]
    {
      TrimIdempotent(pieces[k]);
      var i, j := TrimIsInfix(pieces[k]);
      assert r[k] == pieces[k][i..j];
    }
  }

  /** Names written comma-separated, each already trimmed and comma-free, are read back as they were. */
  lemma CommaListRoundTrip(names: seq<string>)
    requires |names| >= 1 && Join(names, ',') != ""
    requires forall k :: 0 <= k < |names| ==> ',' !in names[k]
    requires forall k :: 0 <= k < |names| ==> names[k] == [] || (!IsSpace(names[k][0]) && !IsSpace(names[k][|names[k]| - 1]))
    ensures ParseCommaList(Some(Join(names, ','))) == names
  {
    SplitJoin(names, ',');
    forall k | 0 <= k < |names|
      ensures Trim(names[k]) == names[k]
    {
      TrimTrimmed(names[k]);
    }
  }
}
