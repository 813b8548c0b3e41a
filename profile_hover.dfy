/**
 * The hover cards of CEOs, employees and RTIB contacts: avatar initials, the
 * profile link built from an id or a name slug, which rows a card shows, and
 * the open/closed state of a card.
 */
module ProfileHover {
  import opened Optional
  import opened Text
  import opened Lists
  import opened People
  import opened LanguageContext

  // ----- avatar initials -----

  /** The pieces that have a first character. */
  function NonEmptyPieces(pieces: seq<string>): seq<string> {
    Filter(pieces, (n: string) => n != "")
  }

  /**
   * `pieces.map(n => n[0]).join("")`: an empty piece has no first character and
   * adds nothing, so the result is the first character of each non-empty piece.
   */
  function Heads(pieces: seq<string>): (r: string)
    ensures |r| == |NonEmptyPieces(pieces)| <= |pieces|
    ensures forall k :: 0 <= k < |r| ==> r[k] == NonEmptyPieces(pieces)[k][0]
    ensures (forall k :: 0 <= k < |pieces| ==> pieces[k] == "") ==> r == ""
  {
    if pieces == [] then ""
    else (if pieces[0] == "" then "" else [pieces[0][0]]) + Heads(pieces[1..])
  }

  /**
   * `getInitials(name)`: the first letter of every space-separated piece,
   * upper-cased; the empty pieces left by repeated spaces add nothing.
   */
  function Initials(name: string): (r: string)
    ensures |r| == |NonEmptyPieces(Split(name, ' '))|
    ensures |r| <= |Split(name, ' ')|
    ensures forall k :: 0 <= k < |r| ==> r[k] == Upper(NonEmptyPieces(Split(name, ' '))[k][0])
    ensures |r| <= |name|
  {
    SplitCount(name, ' ');
    HeadsAtMostLength(Split(name, ' '), name);
    UpperStr(Heads(Split(name, ' ')))
  }

  /** The pieces' first letters are no more than the letters of the name. */
  lemma HeadsAtMostLength(pieces: seq<string>, name: string)
    requires pieces == Split(name, ' ')
    ensures |Heads(pieces)| <= |name|
  {
    JoinSplit(name, ' ');
    HeadsOfJoin(pieces, ' ');
  }

  lemma {:induction false} HeadsOfJoin(pieces: seq<string>, sep: char)
    requires |pieces| >= 1
    ensures |Heads(pieces)| <= |Join(pieces, sep)|
  {
    if |pieces| > 1 {
      HeadsOfJoin(pieces[1..], sep);
    }
  }

  /** One space between two names splits into the two names. */
  lemma SplitTwoNames(first: string, last: string)
    requires ' ' !in first && ' ' !in last
    ensures Split(first + " " + last, ' ') == [first, last]
  {
    SplitAtFirst(first, last, ' ');
    SplitWithoutSep(last, ' ');
    assert first + " " + last == first + [' '] + last;
  }

  /** Two spaces between two names leave an empty piece between them. */
  lemma SplitTwoNamesTwoSpaces(first: string, last: string)
    requires ' ' !in first && ' ' !in last
    ensures Split(first + "  " + last, ' ') == [first, "", last]
  {
    SplitTwoNames("", last);
    assert "" + " " + last == " " + last;
    SplitAtFirst(first, " " + last, ' ');
    assert first + "  " + last == first + [' '] + (" " + last);
  }

  /** A first and a last name give their two capitals. */
  lemma InitialsOfTwoNames(first: string, last: string)
    requires first != "" && last != ""
    requires ' ' !in first && ' ' !in last
    ensures Initials(first + " " + last) == [Upper(first[0]), Upper(last[0])]
  {
    SplitTwoNames(first, last);
    assert Heads([first, last]) == [first[0]] + Heads([last]);
    assert [last][1..] == [];
  }

  /** Extra spaces make empty pieces, which add no letter. */
  lemma InitialsSkipEmptyPieces(first: string, last: string)
    requires ' ' !in first && ' ' !in last
    ensures Initials(first + "  " + last) == Initials(first + " " + last)
  {
    SplitTwoNames(first, last);
    SplitTwoNamesTwoSpaces(first, last);
    assert Heads(["", last]) == Heads([last]) by {
      assert ["", last][1..] == [last];
    }
    assert [first, "", last][1..] == ["", last];
    assert [first, last][1..] == [last];
  }

  // ----- profile links -----

  /** `s.replace(/\s+/g, "-")`: every run of whitespace becomes one dash. */
  function DashRuns(s: string): (r: string)
    ensures HasNoSpace(r)
    ensures |r| <= |s|
    decreases |s|
  {
    if s == [] then []
    else if IsSpace(s[0]) then
      "-" + DashRuns(TrimStart(s))
    else [s[0]] + DashRuns(s[1..])
  }

  /** A text without whitespace is left as it is, so the slug of a slug is itself. */
  lemma {:induction false} DashRunsNoSpace(s: string)
    requires HasNoSpace(s)
    ensures DashRuns(s) == s
  {
    if s != [] {
      DashRunsNoSpace(s[1..]);
    }
  }

  lemma DashRunsIdempotent(s: string)
    ensures DashRuns(DashRuns(s)) == DashRuns(s)
  {
    DashRunsNoSpace(DashRuns(s));
  }

  /** A non-empty stretch of whitespace only. */
  predicate IsWhitespaceRun(run: string) {
    run != [] && forall i :: 0 <= i < |run| ==> IsSpace(run[i])
  }

  /** Trimming the front of a run followed by text not starting with whitespace leaves the text. */
  lemma {:induction false} TrimStartRun(run: string, b: string)
    requires forall i :: 0 <= i < |run| ==> IsSpace(run[i])
    requires b == [] || !IsSpace(b[0])
    ensures TrimStart(run + b) == b
  {
    if run == [] {
      assert run + b == b;
    } else {
      assert (run + b)[1..] == run[1..] + b;
      TrimStartRun(run[1..], b);
    }
  }

  /**
   * A whole run of whitespace, however long, becomes a single dash and the
   * text around it is kept; with `DashRunsNoSpace` this fixes the result for
   * every input, run by run.
   */
  lemma {:induction false} DashRunsRun(a: string, run: string, b: string)
    requires HasNoSpace(a) && IsWhitespaceRun(run)
    requires b == [] || !IsSpace(b[0])
    ensures DashRuns(a + run + b) == a + "-" + DashRuns(b)
  {
    if a == [] {
      assert a + run + b == run + b;
      TrimStartRun(run, b);
    } else {
      assert (a + run + b)[1..] == a[1..] + run + b;
      assert (a + run + b)[0] == a[0];
      DashRunsRun(a[1..], run, b);
    }
  }

  /** `name.toLowerCase().replace(/\s+/g, "-")`. */
  function Slug(name: string): (r: string)
    ensures HasNoSpace(r)
  {
    DashRuns(LowerStr(name))
  }

  /** A name without whitespace only changes case. */
  lemma SlugNoSpace(name: string)
    requires HasNoSpace(name)
    ensures Slug(name) == LowerStr(name)
  {
    LowerNoSpace(name);
    DashRunsNoSpace(LowerStr(name));
  }

  /** Each run of whitespace in the name becomes one dash of the slug, and the words are lower-cased. */
  lemma SlugRun(a: string, run: string, b: string)
    requires HasNoSpace(a) && IsWhitespaceRun(run)
    requires b == [] || !IsSpace(b[0])
    ensures Slug(a + run + b) == LowerStr(a) + "-" + Slug(b)
  {
    LowerStrConcat(a, run);
    LowerStrConcat(a + run, b);
    LowerNoSpace(a);
    var lr := LowerStr(run);
    forall i | 0 <= i < |lr| ensures IsSpace(lr[i]) { LowerKeepsSpace(run[i]); }
    if b != [] {
      LowerKeepsSpace(b[0]);
    }
    DashRunsRun(LowerStr(a), lr, LowerStr(b));
  }

  /** Lower-casing keeps a text free of whitespace. */
  lemma LowerNoSpace(s: string)
    requires HasNoSpace(s)
    ensures HasNoSpace(LowerStr(s))
  {
    forall i | 0 <= i < |s| ensures !IsSpace(LowerStr(s)[i]) { LowerKeepsSpace(s[i]); }
  }

  lemma LowerStrConcat(a: string, b: string)
    ensures LowerStr(a + b) == LowerStr(a) + LowerStr(b)
  {
    assert LowerStr(a + b) == LowerStr(a) + LowerStr(b) by {
      forall i | 0 <= i < |a| + |b|
        ensures LowerStr(a + b)[i] == (LowerStr(a) + LowerStr(b))[i]
      {
        if i < |a| { assert (a + b)[i] == a[i]; } else { assert (a + b)[i] == b[i - |a|]; }
      }
    }
  }

  /** Two words joined by one space become two lower-case words joined by one dash. */
  lemma SlugOfTwoWords(first: string, last: string)
    requires HasNoSpace(first) && HasNoSpace(last)
    ensures Slug(first + " " + last) == LowerStr(first) + "-" + LowerStr(last)
  {
    SlugRun(first, " ", last);
    SlugNoSpace(last);
  }

  /** `/profile/ceo-{slug}`: always the name slug. */
  function CeoProfileUrl(name: string): (url: string)
    ensures StartsWith(url, "/profile/ceo-") && url[|"/profile/ceo-"|..] == Slug(name)
    ensures HasNoSpace(url)
  {
    "/profile/ceo-" + Slug(name)
  }

  /** `/profile/employee-{id}` when there is an id, else `/profile/employee-{slug}`. */
  function EmployeeProfileUrl(id: string, name: string): (url: string)
    ensures StartsWith(url, "/profile/employee-")
    ensures id != "" ==> url == "/profile/employee-" + id
    ensures id == "" ==> url == "/profile/employee-" + Slug(name) && HasNoSpace(url)
  {
    if id != "" then "/profile/employee-" + id else "/profile/employee-" + Slug(name)
  }

  /** `/profile/{id}` (no prefix) when there is an id, else `/profile/rtib-{slug}`. */
  function RtibProfileUrl(id: string, name: string): (url: string)
    ensures StartsWith(url, "/profile/")
    ensures id != "" ==> url == "/profile/" + id
    ensures id == "" ==> url == "/profile/rtib-" + Slug(name) && HasNoSpace(url)
  {
    if id != "" then "/profile/" + id else "/profile/rtib-" + Slug(name)
  }

  // ----- what a card shows -----

  /** The timeline button appears only for a non-empty timeline. */
  predicate ShowsTimelineButton(ceo: CeoData) {
    ceo.timeline.Some? && |ceo.timeline.value| > 0
  }

  /** `index < (timeline?.length || 0) - 1`: a connector below every entry but the last. */
  predicate HasConnector(ceo: CeoData, index: int) {
    index < (if ceo.timeline.Some? then |ceo.timeline.value| else 0) - 1
  }

  /** Among the entries, exactly the last one has no connector. */
  lemma ConnectorsBetweenEntries(ceo: CeoData, index: int)
    requires ceo.timeline.Some? && 0 <= index < |ceo.timeline.value|
    ensures !HasConnector(ceo, index) <==> index == |ceo.timeline.value| - 1
  {
  }

  function PresentLabel(l: Language): string {
    match l
    case En => "present"
    case Tr => "günümüz"
    case Ru => "настоящее время"
  }

  /** `item.endDate || t.present`. */
  function EndDateLabel(entry: TimelineEntry, l: Language): (r: string)
    ensures Truthy(entry.endDate) ==> r == entry.endDate.value
    ensures !Truthy(entry.endDate) ==> r == PresentLabel(l)
    ensures r != ""
  {
    OrElse(entry.endDate, PresentLabel(l))
  }

  /** The no-information line of the employee and contact cards. */
  function NoInfoLabel(l: Language): string {
    match l
    case En => "No additional information provided."
    case Tr => "Ek bilgi sağlanmadı."
    case Ru => "Дополнительная информация не предоставлена."
  }

  /** The employee card shows the bio, or the no-information line. */
  function EmployeeBioLine(e: EmployeeData, l: Language): (r: string)
    ensures Truthy(e.bio) ==> r == e.bio.value
    ensures !Truthy(e.bio) ==> r == NoInfoLabel(l)
    ensures r != ""
  {
    OrElse(e.bio, NoInfoLabel(l))
  }

  /**
   * The contact card reads a `bio` that the contact record does not have, so
   * it always shows the no-information line.
   */
  function ContactBioLine(c: RtibContactData, l: Language): (r: string)
    ensures r == NoInfoLabel(l)
  {
    var bio: Option<string> := None;
    OrElse(bio, NoInfoLabel(l))
  }

  /** The optional rows of a contact card: email and phone, each only when non-empty. */
  datatype ContactRows = ContactRows(email: Option<string>, phone: Option<string>)

  function ContactCardRows(c: RtibContactData): (r: ContactRows)
    ensures r.email.Some? <==> c.email != ""
    ensures r.phone.Some? <==> Truthy(c.phone)
    ensures r.email.Some? ==> r.email.value == c.email
    ensures r.phone.Some? ==> r.phone == c.phone
  {
    ContactRows(if c.email != "" then Some(c.email) else None, if Truthy(c.phone) then c.phone else None)
  }

  /** The avatar shows the picture if there is one, else the initials. */
  datatype Avatar = Picture(url: string) | InitialsBadge(letters: string)

  function AvatarOf(name: string, imageUrl: Option<string>): (a: Avatar)
    ensures Truthy(imageUrl) ==> a == Picture(imageUrl.value)
    ensures !Truthy(imageUrl) ==> a == InitialsBadge(Initials(name))
  {
    if Truthy(imageUrl) then Picture(imageUrl.value) else InitialsBadge(Initials(name))
  }

  // ----- card state -----

  /** The state of one hover card; `timelineOpen` is used by the CEO card only. */
  class HoverCard {
    var isHovering: bool
    var timelineOpen: bool

    constructor ()
      ensures !isHovering && !timelineOpen
    {
      isHovering := false;
      timelineOpen := false;
    }

    /** A click on the info button flips the card. */
    method ClickInfo()
      modifies this
      ensures isHovering == !old(isHovering) && timelineOpen == old(timelineOpen)
    {
      isHovering := !isHovering;
    }

    /** Pointing at the info button, or leaving the card, or clicking elsewhere. */
    method SetHovering(value: bool)
      modifies this
      ensures isHovering == value && timelineOpen == old(timelineOpen)
    {
      isHovering := value;
    }

    /** The CEO card's timeline button: the dialog opens and the card closes. */
    method OpenTimeline(ceo: CeoData)
      requires ShowsTimelineButton(ceo)
      modifies this
      ensures timelineOpen && !isHovering
    {
      timelineOpen := true;
      isHovering := false;
    }

    method SetTimelineOpen(value: bool)
      modifies this
      ensures timelineOpen == value && isHovering == old(isHovering)
    {
      timelineOpen := value;
    }
  }
}
