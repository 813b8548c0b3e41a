/**
 * The navigation bar of the company directory: a collapsible search box, the
 * card/list switch remembered in local storage, and the hand-over of a
 * company entered in the add-company dialog.
 */
module MinimalNavbar {
  import opened Optional
  import opened Text
  import opened Forms
  import AddCompanyModal

  datatype ViewMode = Card | List

  /** `viewMode === "card" ? "list" : "card"`. */
  function Toggled(mode: ViewMode): (r: ViewMode)
    ensures r != mode
  {
    if mode == Card then List else Card
  }

  /** Switching twice shows the original layout again. */
  lemma ToggledTwice(mode: ViewMode)
    ensures Toggled(Toggled(mode)) == mode
  {
  }

  /** The record `handleAddCompany` passes on, in the directory's own field names (money fields left out). */
  datatype NavbarCompany = NavbarCompany(
    id: string,
    sirketAdi: string,
    logoUrl: string,
    sektor: string,
    faaliyetAlani: string,
    sirketTuru: string,
    kurulusYili: string,
    status: string,
    rusyaAdres: string,
    color: string,
    webSitesi: string,
    sirketAnaOrtagi: string,
    calisanSayisi: Option<int>,
    istirakler: seq<string>)

  const PlaceholderLogo := "/placeholder.svg?height=80&width=80"

  /**
   * `employees ? Number.parseInt(employees) : 0`: an empty field is 0, a field
   * without leading digits is NaN (None), which is stored as it is.
   */
  function EmployeesCount(employees: string): (r: Option<int>)
    ensures employees == "" ==> r == Some(0)
    ensures employees != "" ==> r == ParseInt(employees)
  {
    if employees == "" then Some(0) else ParseInt(employees)
  }

  /**
   * The id is the text of a draw from 10 to 1009 (`Math.floor(Math.random() * 1000) + 10`);
   * `draw` is the random part.
   */
  function NewId(draw: int): (id: string)
    requires 0 <= draw < 1000
    ensures ParseInt(id) == Some(draw + 10)
  {
    IntToStringRoundTrip(draw + 10);
    IntToString(draw + 10)
  }

  /** The object built by `handleAddCompany` from the dialog's form. */
  function BuildNavbarCompany(form: AddCompanyModal.CompanyForm, draw: int): (c: NavbarCompany)
    requires 0 <= draw < 1000
    ensures c.id == NewId(draw)
    ensures c.sirketAdi == form.name && c.sirketTuru == form.companyType
    ensures c.sektor == form.sector && c.faaliyetAlani == form.sector
    ensures c.kurulusYili == form.established && c.rusyaAdres == form.address
    ensures c.status == "Active" && c.color == "blue" && c.logoUrl == PlaceholderLogo
    ensures c.webSitesi == form.website && c.sirketAnaOrtagi == form.mainShareholder
    ensures c.calisanSayisi == EmployeesCount(form.employees)
    ensures c.istirakler == ParseCommaList(Some(form.subsidiaries))
  {
    NavbarCompany(
      id := NewId(draw),
      sirketAdi := form.name,
      logoUrl := PlaceholderLogo,
      sektor := form.sector,
      faaliyetAlani := form.sector,
      sirketTuru := form.companyType,
      kurulusYili := form.established,
      status := "Active",
      rusyaAdres := form.address,
      color := "blue",
      webSitesi := OrElse(Some(form.website), ""),
      sirketAnaOrtagi := OrElse(Some(form.mainShareholder), ""),
      calisanSayisi := EmployeesCount(form.employees),
      istirakler := ParseCommaList(Some(form.subsidiaries)))
  }

  /**
   * A form the add-company dialog accepted gives a record whose name, sector,
   * type, founding year and address are all filled in, and whose two sector
   * fields agree.
   */
  lemma AcceptedFormGivesNamedRecord(form: AddCompanyModal.CompanyForm, draw: int)
    requires 0 <= draw < 1000
    requires AddCompanyModal.ExpectedErrors(form) == map[]
    ensures var c := BuildNavbarCompany(form, draw);
      c.sirketAdi != "" && c.sektor != "" && c.sektor == c.faaliyetAlani && c.sirketTuru != "" &&
      c.kurulusYili != "" && c.rusyaAdres != ""
  {
    AddCompanyModal.ExpectedErrorsSpec(form);
  }

  /** The state of the navigation bar, with the texts it reported to `onSearch`. */
  class Navbar {
    var searchOpen: bool
    var filterOpen: bool
    var searchQuery: string
    var viewMode: ViewMode
    var storedViewMode: Option<ViewMode>
    var addCompanyOpen: bool
    var reported: seq<string>

    constructor (viewMode: ViewMode)
      ensures !searchOpen && !filterOpen && searchQuery == "" && !addCompanyOpen
      ensures this.viewMode == viewMode && storedViewMode == None && reported == []
    {
      searchOpen := false;
      filterOpen := false;
      searchQuery := "";
      this.viewMode := viewMode;
      storedViewMode := None;
      addCompanyOpen := false;
      reported := [];
    }

    /** Opening the search box (the search icon). */
    method OpenSearch()
      modifies this
      ensures searchOpen && searchQuery == old(searchQuery) && reported == old(reported)
      ensures filterOpen == old(filterOpen) && viewMode == old(viewMode) && storedViewMode == old(storedViewMode)
      ensures addCompanyOpen == old(addCompanyOpen)
    {
      searchOpen := true;
    }

    /** `handleSearchChange`: every keystroke is stored and reported. */
    method HandleSearchChange(value: string)
      modifies this
      ensures searchQuery == value && reported == old(reported) + [value]
      ensures searchOpen == old(searchOpen) && filterOpen == old(filterOpen)
      ensures viewMode == old(viewMode) && storedViewMode == old(storedViewMode) && addCompanyOpen == old(addCompanyOpen)
    {
      searchQuery := value;
      reported := reported + [value];
    }

    /** `handleSearchSubmit`: the current text is reported again. */
    method HandleSearchSubmit()
      modifies this
      ensures reported == old(reported) + [old(searchQuery)] && searchQuery == old(searchQuery)
      ensures searchOpen == old(searchOpen) && filterOpen == old(filterOpen)
      ensures viewMode == old(viewMode) && storedViewMode == old(storedViewMode) && addCompanyOpen == old(addCompanyOpen)
    {
      reported := reported + [searchQuery];
    }

    /** `clearSearch`: empty text, reported as "", and the box closes. */
    method ClearSearch()
      modifies this
      ensures searchQuery == "" && reported == old(reported) + [""] && !searchOpen
      ensures filterOpen == old(filterOpen)
      ensures viewMode == old(viewMode) && storedViewMode == old(storedViewMode) && addCompanyOpen == old(addCompanyOpen)
    {
      searchQuery := "";
      reported := reported + [""];
      searchOpen := false;
    }

    method ToggleFilter()
      modifies this
      ensures filterOpen == !old(filterOpen)
      ensures searchOpen == old(searchOpen) && searchQuery == old(searchQuery) && reported == old(reported)
      ensures viewMode == old(viewMode) && storedViewMode == old(storedViewMode) && addCompanyOpen == old(addCompanyOpen)
    {
      filterOpen := !filterOpen;
    }

    method CloseFilter()
      modifies this
      ensures !filterOpen
      ensures searchOpen == old(searchOpen) && searchQuery == old(searchQuery) && reported == old(reported)
      ensures viewMode == old(viewMode) && storedViewMode == old(storedViewMode) && addCompanyOpen == old(addCompanyOpen)
    {
      filterOpen := false;
    }

    /** `toggleViewMode`: the other layout, also written to local storage. */
    method ToggleViewMode()
      modifies this
      ensures viewMode == Toggled(old(viewMode)) && storedViewMode == Some(viewMode)
      ensures searchOpen == old(searchOpen) && filterOpen == old(filterOpen)
      ensures searchQuery == old(searchQuery) && reported == old(reported) && addCompanyOpen == old(addCompanyOpen)
    {
      var newMode := Toggled(viewMode);
      viewMode := newMode;
      storedViewMode := Some(newMode);
    }

    method OpenAddCompany()
      modifies this
      ensures addCompanyOpen
      ensures searchOpen == old(searchOpen) && filterOpen == old(filterOpen) && searchQuery == old(searchQuery)
      ensures reported == old(reported) && viewMode == old(viewMode) && storedViewMode == old(storedViewMode)
    {
      addCompanyOpen := true;
    }

    /**
     * `handleAddCompany`: the record handed to `onAddCompany`, the dialog
     * closed, and the page the delayed redirect goes to.
     */
    method HandleAddCompany(form: AddCompanyModal.CompanyForm, draw: int) returns (added: NavbarCompany, redirect: string)
      requires 0 <= draw < 1000
      modifies this
      ensures added == BuildNavbarCompany(form, draw) && redirect == "/company/" + added.id
      ensures !addCompanyOpen
      ensures searchOpen == old(searchOpen) && filterOpen == old(filterOpen) && searchQuery == old(searchQuery)
      ensures reported == old(reported) && viewMode == old(viewMode) && storedViewMode == old(storedViewMode)
    {
      added := BuildNavbarCompany(form, draw);
      addCompanyOpen := false;
      redirect := "/company/" + added.id;
    }
  }
}
