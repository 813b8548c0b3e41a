# RTIB database front end — a Dafny model

This project models the logic of the web front end of the RTIB company
database. The site is a directory of Turkish companies active in Russia,
together with their CEOs, employees and RTIB contacts. The model covers:

- the public company directory: normalising stored records, searching,
  filtering by industry and city, sorting by a column, and listing the
  industries and cities to choose from;
- the filter controls: the filter bar, the search-and-filter bar, the filter
  menu and the filter drawer;
- the admin pages: the company list with search, pagination and deletion;
  the user list with search, pagination and the administrator switch; and
  the "add company" page, which uploads a logo and writes the record;
- the plain company list with its delete flow, and the companies table's
  sort arrows, row colours and industry badges;
- the four entry dialogs (company, CEO with a career timeline, employee,
  RTIB contact): form state, validation and the record each one produces;
  also the form-data company page and the navigation bar's hand-over of a
  new company;
- the image picker with its preview;
- the three profile hover cards: initials, profile links and the rows shown;
- the organisation chart layout: members grouped by level, the node
  positions and the parent–child edges;
- the language provider: choosing, storing and translating;
- the authentication gate in front of every request.

Each source file is one Dafny module. Pure computations are functions with
lemmas about them. The state a component keeps with `useState` is the field
set of a class, and each event handler is a method. A method's contract
gives the new state in terms of the old one and of specification functions,
and lemmas prove what those functions promise. Anything the browser or the
backend supplies is a parameter of the method that receives it: the clock,
random draws, whether a store call succeeded, the new document id, the file
reader's data URL, the local storage value, the browser language, and the
media query. Toasts and the store calls a handler makes are returned as
values.

The shared modules are `Optional` (JavaScript truthiness of optional
strings), `Text` (case mapping, `includes`, `split`/`join`, `trim`,
`parseInt`, string comparison, the e-mail pattern), `Lists` (filter,
subsequence, duplicate-free lists, a stable insertion sort) and `Paging`
(the page arithmetic of the two admin lists). `CompanyTypes`, `People` and
`Toasts` hold data types only.

Where the system's design description and its code disagree, the model
follows the code:

- **No page reset.** The admin company and user lists keep their current
  page when the search term changes; they do not go back to page 1.
- **Headquarters parsing.** The directory splits a headquarters string at
  every comma and takes the first two pieces as city and country. It does
  not split at the first comma only.

Several inconsistencies of the code are reproduced as they are:

- The admin table reads a company's industry as `industry` first, while the
  directory reads `businessActivity` first.
- Every directory record gets rank 0, so the top-3 row colour applies to all
  rows.
- The organisation chart sorts level numbers as text, so level 10 comes
  before level 2.

## Model

| member | source | states |
|---|---|---|
| Directory.LocationParts | frontend-rtib-database/app/page.tsx:40 | A headquarters string becomes its comma-separated pieces, each one trimmed; a missing string gives one piece |
| Directory.HeadquartersOf | frontend-rtib-database/app/page.tsx:40-42 | The city is never empty ("Unknown" stands in); no headquarters gives Unknown, Russia |
| Directory.HeadquartersWithoutComma | frontend-rtib-database/app/page.tsx:40-42 | A string without a comma is the city (trimmed, or "Unknown" if blank), and the country defaults to Russia |
| Directory.HeadquartersWithComma | frontend-rtib-database/app/page.tsx:40-42 | With a comma, the country is the trimmed second piece only: text after a second comma is dropped |
| Directory.Normalize | frontend-rtib-database/app/page.tsx:45-67 | A stored record keeps its id, website and parsed headquarters; rank is always 0, it is never featured, and it has no ticker or logo |
| Directory.NormalizeDefaults | frontend-rtib-database/app/page.tsx:46-67 | The name is empty only when none is stored; the industry prefers businessActivity and falls back to industry; missing numbers become 0 |
| Directory.NormalizeAll | frontend-rtib-database/app/page.tsx:36-69 | Loading normalises every stored record, in order, one company per record |
| Directory.FilterCompaniesIsOneFilter | frontend-rtib-database/app/page.tsx:91-112 | The three filter stages (search, industry, city) equal one filter by their conjunction |
| Directory.FilterCompaniesSpec | frontend-rtib-database/app/page.tsx:91-112 | A company is shown iff it was loaded and passes all three conditions; the result keeps the loaded order |
| Directory.ComparisonKeys | frontend-rtib-database/app/page.tsx:133-165 | For each column, one row goes before another (or ties) exactly when its key is no greater: numeric order for rank, market cap and employees; lexicographic text order (prefix, or smaller at the first difference) for name, industry, city and CEO name, which tie only on equal keys |
| Directory.ComparisonAntisymmetric | frontend-rtib-database/app/page.tsx:133-165 | Swapping the two rows negates the comparison |
| Directory.ComparisonTransitive | frontend-rtib-database/app/page.tsx:133-165 | The column comparison is transitive |
| Directory.CompanyOrderIsTotalPreorder | frontend-rtib-database/app/page.tsx:133-165 | The comparator handed to sort is a total preorder in both directions, so the sort is well defined |
| Directory.SortCompaniesSpec | frontend-rtib-database/app/page.tsx:133-165 | The sorted list is a permutation of its input and is ordered by the chosen column and direction |
| Directory.VisibleSpec | frontend-rtib-database/app/page.tsx:88-118 | The rows shown are exactly the filtered rows, each as often as it occurs, ordered by the sort column |
| Directory.Industries | frontend-rtib-database/app/page.tsx:84 | The industry choices have no duplicates and are exactly the non-empty industries of the loaded companies |
| Directory.Cities | frontend-rtib-database/app/page.tsx:85 | The city choices have no duplicates and are exactly the non-empty headquarters cities |
| Directory.Flip | frontend-rtib-database/app/page.tsx:124 | Clicking the sorted column's header switches the direction |
| Directory.FlipTwice | frontend-rtib-database/app/page.tsx:121-130 | Two clicks on the same header restore the direction |
| Directory.DirectoryPage.constructor | frontend-rtib-database/app/page.tsx:17-24 | The page starts loading, with no companies, no search, no filters, and sorted by name ascending |
| Directory.DirectoryPage.LoadSucceeded | frontend-rtib-database/app/page.tsx:71-76 | A successful load stores the normalised companies, shows them all and stops loading; search, filters and sort are kept |
| Directory.DirectoryPage.LoadFailed | frontend-rtib-database/app/page.tsx:73-77 | A failed load only stops loading |
| Directory.DirectoryPage.SetSearchQuery | frontend-rtib-database/app/page.tsx:19 | Sets the search text and nothing else |
| Directory.DirectoryPage.SetIndustryFilter | frontend-rtib-database/app/page.tsx:20 | Sets the industry filter and nothing else |
| Directory.DirectoryPage.SetCityFilter | frontend-rtib-database/app/page.tsx:21 | Sets the city filter and nothing else |
| Directory.DirectoryPage.ApplyFilters | frontend-rtib-database/app/page.tsx:88-118 | With no companies, the shown list is left as it is; otherwise it becomes the filtered, sorted view |
| Directory.DirectoryPage.HandleSortChange | frontend-rtib-database/app/page.tsx:121-130 | The same column flips the direction; a new column sorts ascending |
| AdminCompanies.CompanyName | frontend-rtib-database/app/admin/companies/page.tsx:74-76 | The name shown is never empty |
| AdminCompanies.CompanyIndustry | frontend-rtib-database/app/admin/companies/page.tsx:79-81 | The industry shown is never empty |
| AdminCompanies.CompanyLocation | frontend-rtib-database/app/admin/companies/page.tsx:84-86 | The location shown is never empty |
| AdminCompanies.CompanyEmail | frontend-rtib-database/app/admin/companies/page.tsx:89-91 | The e-mail shown is never empty |
| AdminCompanies.ResolvedFields | frontend-rtib-database/app/admin/companies/page.tsx:74-91 | Each field is its first non-empty source (companyName then name; industry then businessActivity; location then hqLocation; contactEmail then email), else its placeholder |
| AdminCompanies.FilterAdminCompanies | frontend-rtib-database/app/admin/companies/page.tsx:94-99 | A company is listed iff its shown name, industry or location contains the term, ignoring case |
| AdminCompanies.FilterAdminCompaniesSpec | frontend-rtib-database/app/admin/companies/page.tsx:94-99 | The listed companies keep their stored order, and each matching company appears as often as it is stored |
| AdminCompanies.EmptyTermKeepsAll | frontend-rtib-database/app/admin/companies/page.tsx:94-99 | An empty search term lists every company, in order |
| AdminCompanies.PlaceholderIsSearchable | frontend-rtib-database/app/admin/companies/page.tsx:80 | A company without an industry is found by searching for "n/a", because the placeholder is searched |
| AdminCompanies.AdminCompaniesPage.constructor | frontend-rtib-database/app/admin/companies/page.tsx:55-57 | Empty search, page 1, no deletion pending |
| AdminCompanies.AdminCompaniesPage.CompaniesChanged | frontend-rtib-database/app/admin/companies/page.tsx:58 | New store data replaces the list; search, page and pending deletion are kept |
| AdminCompanies.AdminCompaniesPage.SetSearchTerm | frontend-rtib-database/app/admin/companies/page.tsx:143 | A new search term keeps the current page |
| AdminCompanies.AdminCompaniesPage.ClickPrevious | frontend-rtib-database/app/admin/companies/page.tsx:279 | Moves one page back unless already on page 1 |
| AdminCompanies.AdminCompaniesPage.ClickNext | frontend-rtib-database/app/admin/companies/page.tsx:295 | Moves one page forward unless already on the last page |
| AdminCompanies.AdminCompaniesPage.ClickPageLink | frontend-rtib-database/app/admin/companies/page.tsx:286 | A page link moves to its page, which lies between 1 and the page count |
| AdminCompanies.AdminCompaniesPage.RequestDelete | frontend-rtib-database/app/admin/companies/page.tsx:57 | The delete button marks that company for confirmation |
| AdminCompanies.AdminCompaniesPage.CancelDelete | frontend-rtib-database/app/admin/companies/page.tsx:57 | Cancelling clears the pending deletion |
| AdminCompanies.AdminCompaniesPage.ConfirmDelete | frontend-rtib-database/app/admin/companies/page.tsx:114-123 | A delete is issued iff a company id is pending; success clears it with a success toast; failure keeps it with an error toast |
| Paging.TotalPages | frontend-rtib-database/app/admin/companies/page.tsx:102 | The fewest pages that hold the rows; 0 exactly when there are no rows |
| Paging.Page | frontend-rtib-database/app/admin/companies/page.tsx:103-106 | A page holds at most 10 rows: the ones at its offset, in order |
| Paging.PagesPrefix | frontend-rtib-database/app/admin/companies/page.tsx:103-106 | The first k pages together are the first 10k rows |
| Paging.PagesPartition | frontend-rtib-database/app/admin/companies/page.tsx:102-106 | All the pages together are the whole list: no row is lost or repeated |
| Paging.PageOfRow | frontend-rtib-database/app/admin/companies/page.tsx:102-106 | Every row lies on a page within the page count, at the position given by its index |
| Paging.PageEmptyIffPastEnd | frontend-rtib-database/app/admin/companies/page.tsx:102-106 | A page is empty exactly when its number is past the page count |
| Paging.ShowsPagerIffMoreThanOnePage | frontend-rtib-database/app/admin/companies/page.tsx:274 | The pager appears iff there are more than 10 rows |
| Paging.AfterPrevious | frontend-rtib-database/app/admin/companies/page.tsx:279 | Previous decrements the page above 1 and otherwise leaves it |
| Paging.AfterNext | frontend-rtib-database/app/admin/companies/page.tsx:295 | Next increments the page below the page count and otherwise leaves it |
| Paging.NavigationStaysInRange | frontend-rtib-database/app/admin/companies/page.tsx:279-295 | From a valid page, Previous and Next stay between 1 and the page count; past the end, Next does nothing |
| Paging.LinkTarget | frontend-rtib-database/app/admin/companies/page.tsx:286 | A page link's target lies between 1 and the page count |
| AdminUsers.FilterUsers | frontend-rtib-database/app/admin/users/page.tsx:60-62 | A user is listed iff their e-mail contains the term, ignoring case |
| AdminUsers.FilterUsersSpec | frontend-rtib-database/app/admin/users/page.tsx:60-62 | The list keeps the loaded order, and an empty term lists everyone |
| AdminUsers.ToggleAdmin | frontend-rtib-database/app/admin/users/page.tsx:77-88 | The update writes the negated flag for that user; the toast says added, removed or failed |
| AdminUsers.ToggleAdminTwice | frontend-rtib-database/app/admin/users/page.tsx:77-82 | Two toggles write back the original flag |
| AdminUsers.AdminUsersPage.constructor | frontend-rtib-database/app/admin/users/page.tsx:50-51 | Empty search, page 1 |
| AdminUsers.AdminUsersPage.UsersChanged | frontend-rtib-database/app/admin/users/page.tsx:53 | New data replaces the users; search and page are kept |
| AdminUsers.AdminUsersPage.SetSearchTerm | frontend-rtib-database/app/admin/users/page.tsx:102 | A new search term keeps the current page |
| AdminUsers.AdminUsersPage.ClickPrevious | frontend-rtib-database/app/admin/users/page.tsx:196 | Moves one page back unless already on page 1 |
| AdminUsers.AdminUsersPage.ClickNext | frontend-rtib-database/app/admin/users/page.tsx:212 | Moves one page forward unless already on the last page |
| AdminUsers.AdminUsersPage.ClickPageLink | frontend-rtib-database/app/admin/users/page.tsx:203 | A page link moves to its page, which lies between 1 and the page count |
| CompanyList.FilterListed | frontend-rtib-database/app/company/page.tsx:45-49 | A company is listed iff its name, industry or location contains the term, ignoring case |
| CompanyList.FilterListedSpec | frontend-rtib-database/app/company/page.tsx:45-49 | The list keeps the loaded order, and an empty term lists all |
| CompanyList.HandleDelete | frontend-rtib-database/app/company/page.tsx:51-66 | Without a user, only an error toast (no confirmation, no delete); the store is called iff signed in and confirmed; its outcome picks the toast |
| CompaniesTable.RenderSortIndicator | frontend-rtib-database/components/companies-table.tsx:70-74 | Only the sorted column has an arrow, up for ascending and down for descending |
| CompaniesTable.OneIndicator | frontend-rtib-database/components/companies-table.tsx:71 | Of two different columns, at least one shows no arrow |
| CompaniesTable.RowBackgroundClass | frontend-rtib-database/components/companies-table.tsx:77-81 | Ranks 1–3 get the top colour, other featured rows the featured colour, and the rest none |
| CompaniesTable.IndustryBadgeClass | frontend-rtib-database/components/companies-table.tsx:90-93 | A known industry gets its colours from the industry colour table; any other gets gray |
| CompaniesTable.UnknownLooksLikeManufacturing | frontend-rtib-database/components/companies-table.tsx:91 | An unknown industry's badge is identical to Manufacturing's |
| CompaniesTable.LogoBackground | frontend-rtib-database/components/companies-table.tsx:120-130 | Ids 6–9 get a white logo background and all others gray |
| CompaniesTable.RenderBody | frontend-rtib-database/components/companies-table.tsx:305-310 | The "no companies" row appears iff the list is empty; otherwise there is one row per company, in order |
| Selection.Toggle | frontend-rtib-database/components/filter-menu.tsx:49-65 | A value not selected is appended; a selected one is removed (order kept); other values keep their membership |
| Selection.ToggleTwiceRestores | frontend-rtib-database/components/filter-drawer.tsx:33-49 | Selecting and then deselecting a value restores the list exactly |
| Selection.ToggleKeepsNoDuplicates | frontend-rtib-database/components/filter-drawer.tsx:33-49 | Toggling never makes a duplicate-free selection repeat a value |
| FilterMenu.MenuFilters.Set | frontend-rtib-database/components/filter-menu.tsx:54-62 | Replacing one category's list leaves the other three unchanged |
| FilterMenu.ToggleFilter | frontend-rtib-database/components/filter-menu.tsx:49-65 | The value becomes active iff it was inactive (appended, or removed keeping the others); other categories are untouched |
| FilterMenu.ClearCategory | frontend-rtib-database/components/filter-menu.tsx:68-73 | One category becomes empty and the others are kept |
| FilterMenu.ToggleFilterTwice | frontend-rtib-database/components/filter-menu.tsx:49-65 | Turning a filter on and off again restores every category |
| FilterDrawer.DrawerFilters.Set | frontend-rtib-database/components/filter-drawer.tsx:38-45 | Replacing one category's list leaves the other two unchanged |
| FilterDrawer.ToggleFilter | frontend-rtib-database/components/filter-drawer.tsx:33-49 | The value becomes active iff it was inactive; other categories are untouched |
| FilterDrawer.ClearCategory | frontend-rtib-database/components/filter-drawer.tsx:52-57 | One category becomes empty and the others are kept |
| FilterDrawer.ClearAll | frontend-rtib-database/components/filter-drawer.tsx:60-66 | After Clear All no category holds a value |
| FilterDrawer.ClearEachIsClearAll | frontend-rtib-database/components/filter-drawer.tsx:52-66 | Clearing the three categories one by one equals Clear All |
| FilterDrawer.ToggleFilterTwice | frontend-rtib-database/components/filter-drawer.tsx:33-49 | Turning a filter on and off again restores the drawer |
| FilterBar.SelectValue | frontend-rtib-database/components/filter-bar.tsx:41 | Only the empty string clears; any other value, including "all", is stored as it is |
| FilterBar.SelectIndustry | frontend-rtib-database/components/filter-bar.tsx:41 | The industry picker sets the industry filter and keeps the city filter |
| FilterBar.SelectCity | frontend-rtib-database/components/filter-bar.tsx:60 | The city picker sets the city filter and keeps the industry filter |
| FilterBar.ClearFilters | frontend-rtib-database/components/filter-bar.tsx:27-30 | Clearing removes both filters |
| FilterBar.PickersKeepFromPickers | frontend-rtib-database/components/filter-bar.tsx:27-41 | Picker values are never the empty string, and after Clear no filter is active |
| FilterBar.AllIndustriesEmptiesList | frontend-rtib-database/components/filter-bar.tsx:46 | As written, choosing "All Industries" filters on the industry "all" and empties the directory |
| FilterBar.SelectValueIntended | frontend-rtib-database/components/filter-bar.tsx:41-46 | Corrected mapping: the empty string and "all" both clear the filter |
| FilterBar.AllItemIntendedNoRestriction | frontend-rtib-database/components/filter-bar.tsx:46 | With the corrected mapping, "all" filters like no filter, for industry and for city |
| SearchFilterBar.ActiveCount | frontend-rtib-database/components/search-filter-bar.tsx:65 | The badge counts the truthy filters: 0 iff neither, 2 iff both |
| SearchFilterBar.ClearAll | frontend-rtib-database/components/search-filter-bar.tsx:89-92 | Clear All leaves no active filter and a count of 0 |
| SearchFilterBar.BadgeCountsWhatIsShown | frontend-rtib-database/components/search-filter-bar.tsx:32 | For picker-made filters the badge is shown iff its count is positive; Clear All disables itself, and it changes nothing when disabled |
| Middleware.Decide | frontend-rtib-database/middleware.ts:20-45 | A request passes iff its path is public or it has an auth cookie; otherwise it is redirected to /auth |
| Middleware.NotPublicUnderAd | frontend-rtib-database/middleware.ts:11-13 | No path starting with "/ad" is public |
| Middleware.NotPublicWhenShort | frontend-rtib-database/middleware.ts:5 | No path shorter than 5 characters is public |
| Middleware.PrefixExamples | frontend-rtib-database/middleware.ts:5-18 | Paths are matched by prefix: "/authx" is public and "/administrator" counts as an admin path |
| Middleware.AdminPathsNotSpecial | frontend-rtib-database/middleware.ts:39-44 | Admin paths get no extra check here: a cookie lets them through, and no cookie redirects |
| Middleware.RedirectTargetPasses | frontend-rtib-database/middleware.ts:35-36 | The login page is always let through, so the redirect cannot loop |
| Forms.ImageUrlOf | frontend-rtib-database/components/add-ceo-modal.tsx:291 | A typed URL wins, then the uploaded preview; otherwise no image, and never the empty string |
| Forms.RequiredCheck | frontend-rtib-database/components/add-ceo-modal.tsx:237-239 | A required field fails, with "required", exactly when it is empty |
| Forms.EmailCheck | frontend-rtib-database/components/add-ceo-modal.tsx:242-244 | An e-mail fails, with "invalid", exactly when it is non-empty and does not match the pattern |
| Forms.FormGet | frontend-rtib-database/app/admin/companies/add/page.tsx:76-79 | `formData.get`: the submitted value of a key, or null when the key is absent |
| Forms.ParseField | frontend-rtib-database/app/admin/companies/add/page.tsx:82 | An absent field is undefined; otherwise parseInt of its text |
| Forms.ParseCommaList | frontend-rtib-database/app/admin/companies/add/page.tsx:50-53 | An empty or absent text gives no names; otherwise one trimmed name per comma-separated piece |
| Forms.CommaListShape | frontend-rtib-database/app/admin/companies/add/page.tsx:50-53 | A non-empty text gives one more name than it has commas; each name is trimmed and has no comma |
| Forms.CommaListRoundTrip | frontend-rtib-database/app/admin/companies/add/page.tsx:50-53 | Joining trimmed, comma-free names with commas and parsing them back gives the names |
| Optional.FirstTruthy | frontend-rtib-database/app/admin/companies/page.tsx:75 | The first non-empty value, never empty when the fallback is not |
| Text.IntToStringRoundTrip | frontend-rtib-database/components/minimal-navbar.tsx:104 | parseInt reads back the decimal text of any integer |
| Text.Compare | frontend-rtib-database/app/page.tsx:141 | The string comparison returns -1, 0 or 1, and 0 exactly for equal strings |
| Text.CompareOrder | frontend-rtib-database/app/page.tsx:141 | The comparison puts a first (or ties) exactly when a is a prefix of b or is smaller at the first character where they differ |
| Text.EmailExamples | frontend-rtib-database/components/add-ceo-modal.tsx:242 | The e-mail pattern needs no whitespace, a non-empty local part, and a dot after a non-empty domain with text behind it |
| AddCompanyModal.CompanyForm.Set | frontend-rtib-database/components/add-company-modal.tsx:250-258 | Editing one input changes only that field |
| AddCompanyModal.InitialForm | frontend-rtib-database/components/add-company-modal.tsx:228-244 | Every field of a fresh form is empty |
| AddCompanyModal.ExpectedErrorsSpec | frontend-rtib-database/components/add-company-modal.tsx:269-281 | A form passes iff name, sector, type, year and address are filled; every error is "required"; optional fields never fail |
| AddCompanyModal.RequiredErrors | frontend-rtib-database/components/add-company-modal.tsx:270-279 | The error map is exactly the empty required fields, each marked "required" |
| AddCompanyModal.AddCompanyDialog.constructor | frontend-rtib-database/components/add-company-modal.tsx:246-248 | A fresh dialog has an empty form, no errors, and is not submitting |
| AddCompanyModal.AddCompanyDialog.HandleChange | frontend-rtib-database/components/add-company-modal.tsx:250-258 | Editing a field stores it and clears that field's error only |
| AddCompanyModal.AddCompanyDialog.HandleSelectChange | frontend-rtib-database/components/add-company-modal.tsx:260-267 | Choosing from a menu stores it and clears that field's error only |
| AddCompanyModal.AddCompanyDialog.ValidateForm | frontend-rtib-database/components/add-company-modal.tsx:269-281 | The errors become those of the form, and validation passes iff there are none |
| AddCompanyModal.AddCompanyDialog.HandleSubmit | frontend-rtib-database/components/add-company-modal.tsx:283-293 | A form with no errors starts submitting, and the data to hand over is that form as it stands at submit time; any other form only shows its errors |
| AddCompanyModal.AddCompanyDialog.SubmitDelayElapsed | frontend-rtib-database/components/add-company-modal.tsx:291-297 | After the delay, the form is reset and submitting ends; the errors are kept |
| AddCompanyModal.AddCompanyDialog.HandleClose | frontend-rtib-database/components/add-company-modal.tsx:300-304 | Closing resets the form and the errors |
| AddCeoModal.FormEntry.Set | frontend-rtib-database/components/add-ceo-modal.tsx:191-208 | Editing one input of a timeline entry changes only that input |
| AddCeoModal.CeoForm.Set | frontend-rtib-database/components/add-ceo-modal.tsx:181-189 | Editing one text input changes only that field, and the timeline is kept |
| AddCeoModal.InitialForm | frontend-rtib-database/components/add-ceo-modal.tsx:158-174 | Position "CEO", the company's name, and one timeline entry as CEO of that company starting today |
| AddCeoModal.EntryMissing | frontend-rtib-database/components/add-ceo-modal.tsx:251-261 | An entry's failing inputs are exactly an empty position and an empty start date |
| AddCeoModal.TimelineErrorsSpec | frontend-rtib-database/components/add-ceo-modal.tsx:247-270 | Entry errors name exactly the incomplete entries, each with its failing inputs; there are none iff every entry is complete |
| AddCeoModal.NoErrorsIffAcceptable | frontend-rtib-database/components/add-ceo-modal.tsx:233-274 | Validation finds nothing iff name, position and bio are filled, the e-mail is empty or well formed, and every entry is complete |
| AddCeoModal.InitialFormErrors | frontend-rtib-database/components/add-ceo-modal.tsx:158-174 | An untouched form fails on name and bio only |
| AddCeoModal.AddEntry | frontend-rtib-database/components/add-ceo-modal.tsx:210-223 | Adding appends one blank entry and keeps the others |
| AddCeoModal.RemoveEntry | frontend-rtib-database/components/add-ceo-modal.tsx:225-231 | Removing drops exactly the entry at that index and shifts the later ones; an index past the end changes nothing |
| AddCeoModal.RemoveAddedEntry | frontend-rtib-database/components/add-ceo-modal.tsx:210-231 | Removing the entry just added restores the timeline |
| AddCeoModal.AddedEntryBlocksSubmit | frontend-rtib-database/components/add-ceo-modal.tsx:210-223 | A form with a freshly added blank entry is never accepted |
| AddCeoModal.BuildCeo | frontend-rtib-database/components/add-ceo-modal.tsx:284-293 | The CEO record carries the form's fields, the chosen image, and one timeline entry per form entry, in order |
| AddCeoModal.AcceptedCeoIsComplete | frontend-rtib-database/components/add-ceo-modal.tsx:276-293 | A CEO built from an accepted form has a name, a bio, and a position and start date in every entry |
| AddCeoModal.ValidateTimeline | frontend-rtib-database/components/add-ceo-modal.tsx:247-270 | The entry loop gathers exactly the expected entry errors, and reports errors iff there are any |
| AddCeoModal.CheckedFieldErrors | frontend-rtib-database/components/add-ceo-modal.tsx:234-244 | The field errors are exactly: empty name, position or bio ("required"), and a malformed non-empty e-mail ("invalid") |
| AddCeoModal.EntryErrorsStep | frontend-rtib-database/components/add-ceo-modal.tsx:250-265 | One loop step records an entry's missing inputs iff it has any |
| AddCeoModal.CeoDialog.constructor | frontend-rtib-database/components/add-ceo-modal.tsx:176-179 | A fresh dialog has the initial form, no errors and no preview |
| AddCeoModal.CeoDialog.HandleChange | frontend-rtib-database/components/add-ceo-modal.tsx:181-189 | Editing a field stores it and clears that field's error only |
| AddCeoModal.CeoDialog.HandleTimelineChange | frontend-rtib-database/components/add-ceo-modal.tsx:191-208 | Editing an entry's input stores it and clears just that input's error, if it had one |
| AddCeoModal.CeoDialog.AddTimelineEntry | frontend-rtib-database/components/add-ceo-modal.tsx:210-223 | Appends a blank entry; errors are unchanged |
| AddCeoModal.CeoDialog.RemoveTimelineEntry | frontend-rtib-database/components/add-ceo-modal.tsx:225-231 | Removes an entry other than the first (only those have a remove button); the errors keep their old indices |
| AddCeoModal.CeoDialog.ImageLoaded | frontend-rtib-database/components/add-ceo-modal.tsx:313-323 | A read image becomes the preview; nothing else changes |
| AddCeoModal.CeoDialog.ValidateForm | frontend-rtib-database/components/add-ceo-modal.tsx:233-274 | The errors become those of the form, and validation passes iff the form is acceptable |
| AddCeoModal.CeoDialog.HandleSubmit | frontend-rtib-database/components/add-ceo-modal.tsx:276-294 | An acceptable form starts submitting with the CEO built from it; any other only shows its errors |
| AddCeoModal.CeoDialog.SubmitDelayElapsed | frontend-rtib-database/components/add-ceo-modal.tsx:296-302 | After the delay, the form and preview are reset and submitting ends |
| AddCeoModal.CeoDialog.HandleClose | frontend-rtib-database/components/add-ceo-modal.tsx:305-310 | Closing resets the form, errors and preview |
| AddEmployeeModal.EmployeeForm.Set | frontend-rtib-database/components/add-employee-modal.tsx:172-189 | Editing one input changes only that field |
| AddEmployeeModal.InitialForm | frontend-rtib-database/components/add-employee-modal.tsx:157-165 | Every field of a fresh form is empty |
| AddEmployeeModal.NoErrorsIffAcceptable | frontend-rtib-database/components/add-employee-modal.tsx:191-206 | Validation finds nothing iff name, position and department are filled and the e-mail is empty or well formed; bio, link and image never fail |
| AddEmployeeModal.CheckedErrors | frontend-rtib-database/components/add-employee-modal.tsx:191-205 | The error map is exactly the empty required fields plus a malformed non-empty e-mail |
| AddEmployeeModal.BuildEmployee | frontend-rtib-database/components/add-employee-modal.tsx:216-229 | The record has the new id, the company label "Company {id}", the form's fields and the chosen image |
| AddEmployeeModal.AcceptedEmployeeIsComplete | frontend-rtib-database/components/add-employee-modal.tsx:208-229 | An employee built from an accepted form has a name, a position, a department, and an empty or well-formed e-mail |
| AddEmployeeModal.EmployeeDialog.constructor | frontend-rtib-database/components/add-employee-modal.tsx:167-170 | A fresh dialog has an empty form, no errors and no preview |
| AddEmployeeModal.EmployeeDialog.HandleChange | frontend-rtib-database/components/add-employee-modal.tsx:172-189 | Editing a field, or choosing from a menu, stores it and clears that field's error only |
| AddEmployeeModal.EmployeeDialog.ImageLoaded | frontend-rtib-database/components/add-employee-modal.tsx:249-259 | A read image becomes the preview; nothing else changes |
| AddEmployeeModal.EmployeeDialog.ValidateForm | frontend-rtib-database/components/add-employee-modal.tsx:191-206 | The errors become those of the form, and validation passes iff the form is acceptable |
| AddEmployeeModal.EmployeeDialog.HandleSubmit | frontend-rtib-database/components/add-employee-modal.tsx:208-230 | An acceptable form starts submitting with the employee built from it; any other only shows its errors |
| AddEmployeeModal.EmployeeDialog.SubmitDelayElapsed | frontend-rtib-database/components/add-employee-modal.tsx:232-238 | After the delay, the form and preview are reset and submitting ends |
| AddEmployeeModal.EmployeeDialog.HandleClose | frontend-rtib-database/components/add-employee-modal.tsx:241-246 | Closing resets the form, errors and preview |
| AddRtibContactModal.ContactForm.Set | frontend-rtib-database/components/add-rtib-contact-modal.tsx:136-144 | Editing one input changes only that field |
| AddRtibContactModal.InitialForm | frontend-rtib-database/components/add-rtib-contact-modal.tsx:123-129 | A new contact starts blank; an edited contact starts from its record, with missing phone and image as empty |
| AddRtibContactModal.InitialPreview | frontend-rtib-database/components/add-rtib-contact-modal.tsx:134 | The preview starts as the edited contact's image, if it has one |
| AddRtibContactModal.EmailErrorKinds | frontend-rtib-database/components/add-rtib-contact-modal.tsx:152-157 | The e-mail is mandatory: its error is "required" when empty, "invalid" when malformed, and absent otherwise |
| AddRtibContactModal.NoErrorsIffAcceptable | frontend-rtib-database/components/add-rtib-contact-modal.tsx:146-161 | Validation finds nothing iff name and position are filled and the e-mail is well formed; phone and image never fail |
| AddRtibContactModal.CheckedErrors | frontend-rtib-database/components/add-rtib-contact-modal.tsx:146-160 | The error map is exactly the failing fields with their kinds |
| AddRtibContactModal.BuildContact | frontend-rtib-database/components/add-rtib-contact-modal.tsx:171-178 | An edited contact keeps its id, a new one gets a fresh id; an empty phone becomes absent; the image is the typed URL or the preview |
| AddRtibContactModal.UnchangedUpdateRoundTrip | frontend-rtib-database/components/add-rtib-contact-modal.tsx:171-178 | Opening a contact and saving without edits gives back the same contact |
| AddRtibContactModal.ContactDialog.constructor | frontend-rtib-database/components/add-rtib-contact-modal.tsx:131-134 | The dialog opens on the contact's values and image, with no errors |
| AddRtibContactModal.ContactDialog.HandleChange | frontend-rtib-database/components/add-rtib-contact-modal.tsx:136-144 | Editing a field stores it and clears that field's error only |
| AddRtibContactModal.ContactDialog.ImageLoaded | frontend-rtib-database/components/add-rtib-contact-modal.tsx:198-208 | A read image becomes the preview; nothing else changes |
| AddRtibContactModal.ContactDialog.ValidateForm | frontend-rtib-database/components/add-rtib-contact-modal.tsx:146-161 | The errors become those of the form, and validation passes iff the form is acceptable |
| AddRtibContactModal.ContactDialog.HandleSubmit | frontend-rtib-database/components/add-rtib-contact-modal.tsx:163-180 | An acceptable form starts submitting with the contact built from it; any other only shows its errors |
| AddRtibContactModal.ContactDialog.SubmitDelayElapsed | frontend-rtib-database/components/add-rtib-contact-modal.tsx:181-185 | After the delay, only submitting ends: the form is not reset |
| AddRtibContactModal.ContactDialog.HandleClose | frontend-rtib-database/components/add-rtib-contact-modal.tsx:188-195 | Closing restores the opening values and clears the errors; a new-contact dialog also drops the preview |
| AdminAddCompany.SafeFileName | frontend-rtib-database/app/admin/companies/add/page.tsx:61 | The stored file name has the same length, with every character outside letters, digits and `_.-` replaced by `_` |
| AdminAddCompany.SafeFileNameIdempotent | frontend-rtib-database/app/admin/companies/add/page.tsx:61 | The result has only safe characters, so sanitising it again changes nothing |
| AdminAddCompany.SafeNameUnchanged | frontend-rtib-database/app/admin/companies/add/page.tsx:61 | A name that is already safe is kept as it is |
| AdminAddCompany.TempLogoPath | frontend-rtib-database/app/admin/companies/add/page.tsx:63 | The upload path lies under companies/temp/logo_ and ends in the sanitised file name |
| AdminAddCompany.TruthyOrUndefined | frontend-rtib-database/app/admin/companies/add/page.tsx:112-113 | A year or head count is kept iff it parses to a non-zero number; otherwise it is left undefined |
| AdminAddCompany.BuildNewCompany | frontend-rtib-database/app/admin/companies/add/page.tsx:74-122 | The written record takes each submitted field, duplicated under its alias names (which always agree), with parsed numbers and subsidiaries and the uploaded logo URL |
| AdminAddCompany.NewCompanyReadsAlike | frontend-rtib-database/app/admin/companies/add/page.tsx:76-79 | Because the aliases agree, the admin table and the directory show the same industry (and the same name) for a record this page wrote |
| AdminAddCompany.FormOnlyForAdmins | frontend-rtib-database/app/admin/companies/add/page.tsx:28-32 | The form is shown iff auth has loaded and the user is an admin; anyone sent home never sees it |
| AdminAddCompany.AdminAddCompanyPage.constructor | frontend-rtib-database/app/admin/companies/add/page.tsx:21-26 | Not loading, not uploading, no logo chosen |
| AdminAddCompany.AdminAddCompanyPage.HandleLogoSelect | frontend-rtib-database/app/admin/companies/add/page.tsx:34-36 | Remembers the chosen file, or none |
| AdminAddCompany.AdminAddCompanyPage.HandleSubmit | frontend-rtib-database/app/admin/companies/add/page.tsx:38-140 | A non-admin gets only an error toast. For an admin: a chosen logo is uploaded to its temp path (a failed upload toasts and continues without a logo), the record is written, and success navigates back |
| AddCompanyForm.TextOrEmpty | frontend-rtib-database/components/company/AddCompanyForm.tsx:27-30 | A missing optional text becomes "" |
| AddCompanyForm.IntOrZero | frontend-rtib-database/components/company/AddCompanyForm.tsx:31-32 | A number that does not parse (or is missing) becomes 0 |
| AddCompanyForm.BuildFormCompany | frontend-rtib-database/components/company/AddCompanyForm.tsx:23-35 | The record takes name, industry and location as submitted; the optional texts default to "", the numbers to 0 |
| AddCompanyForm.FormCompanyDefaults | frontend-rtib-database/components/company/AddCompanyForm.tsx:27-32 | A missing description is "", a missing head count is 0, and a head count typed as a number is read back as that number |
| AddCompanyForm.AddCompanyFormPage.constructor | frontend-rtib-database/components/company/AddCompanyForm.tsx:14 | Not loading |
| AddCompanyForm.AddCompanyFormPage.HandleSubmit | frontend-rtib-database/components/company/AddCompanyForm.tsx:17-46 | Writes the record; a new id gives a success toast and a visit to its page, a failure an error toast; loading ends either way |
| MinimalNavbar.Toggled | frontend-rtib-database/components/minimal-navbar.tsx:95 | The view switch always gives the other layout |
| MinimalNavbar.ToggledTwice | frontend-rtib-database/components/minimal-navbar.tsx:94-99 | Switching twice restores the layout |
| MinimalNavbar.EmployeesCount | frontend-rtib-database/components/minimal-navbar.tsx:124 | An empty field gives 0; otherwise parseInt, and text without digits gives NaN (None) |
| MinimalNavbar.NewId | frontend-rtib-database/components/minimal-navbar.tsx:104 | The new id is the decimal text of a number from 10 to 1009, read back by parseInt |
| MinimalNavbar.BuildNavbarCompany | frontend-rtib-database/components/minimal-navbar.tsx:107-126 | The handed-over company takes the dialog's fields under the directory's field names, the sector in both sector fields, and fixed status, colour and logo |
| MinimalNavbar.AcceptedFormGivesNamedRecord | frontend-rtib-database/components/minimal-navbar.tsx:107-116 | A form the dialog accepted gives a record with name, sector, type, year and address filled in |
| MinimalNavbar.Navbar.constructor | frontend-rtib-database/components/minimal-navbar.tsx:48-51 | Search, filter and dialog closed; empty search; the given layout; nothing stored or reported |
| MinimalNavbar.Navbar.OpenSearch | frontend-rtib-database/components/minimal-navbar.tsx:48 | Opens the search box and nothing else |
| MinimalNavbar.Navbar.HandleSearchChange | frontend-rtib-database/components/minimal-navbar.tsx:65-68 | Every keystroke is stored and reported to the owner |
| MinimalNavbar.Navbar.HandleSearchSubmit | frontend-rtib-database/components/minimal-navbar.tsx:71-74 | Submitting reports the current text again |
| MinimalNavbar.Navbar.ClearSearch | frontend-rtib-database/components/minimal-navbar.tsx:77-81 | Clearing empties the text, reports "", and closes the box |
| MinimalNavbar.Navbar.ToggleFilter | frontend-rtib-database/components/minimal-navbar.tsx:84-86 | Flips the filter panel |
| MinimalNavbar.Navbar.CloseFilter | frontend-rtib-database/components/minimal-navbar.tsx:89-91 | Closes the filter panel |
| MinimalNavbar.Navbar.ToggleViewMode | frontend-rtib-database/components/minimal-navbar.tsx:94-99 | Shows the other layout and stores it in local storage |
| MinimalNavbar.Navbar.OpenAddCompany | frontend-rtib-database/components/minimal-navbar.tsx:51 | Opens the add-company dialog |
| MinimalNavbar.Navbar.HandleAddCompany | frontend-rtib-database/components/minimal-navbar.tsx:102-139 | Hands over the built company, closes the dialog, and redirects to that company's page |
| FileUpload.DisplayImage | frontend-rtib-database/components/ui/file-upload.tsx:99 | The picture shown is the new preview, else the stored image unless it failed to load, else none |
| FileUpload.PromptIffNothingToShow | frontend-rtib-database/components/ui/file-upload.tsx:99 | The drop prompt is hidden iff there is a preview or a stored image that has not failed |
| FileUpload.Picker.constructor | frontend-rtib-database/components/ui/file-upload.tsx:36-39 | No preview, no error, no broken image |
| FileUpload.Picker.HandleFileChange | frontend-rtib-database/components/ui/file-upload.tsx:48-78 | No file clears the preview and reports none; an oversized file only sets the size error; any other file is reported, and a non-image drops the preview |
| FileUpload.Picker.PreviewLoaded | frontend-rtib-database/components/ui/file-upload.tsx:69-71 | The read image becomes the preview |
| FileUpload.Picker.HandleClear | frontend-rtib-database/components/ui/file-upload.tsx:80-91 | Everything is reset, "no file" is reported, and the owner's clear callback is called when there is one |
| FileUpload.Picker.HandleImageError | frontend-rtib-database/components/ui/file-upload.tsx:93-97 | The image is marked broken and the owner's clear callback is called when there is one |
| FileUpload.ClearShowsStoredImageAgain | frontend-rtib-database/components/ui/file-upload.tsx:86-88 | After a clear, the stored image is on screen again if there is one |
| FileUpload.BrokenImageShowsPrompt | frontend-rtib-database/components/ui/file-upload.tsx:93-99 | A broken stored image with no preview brings back the prompt |
| ProfileHover.Heads | frontend-rtib-database/components/ceo-profile-hover.tsx:68-74 | The result is exactly the first character of each non-empty piece, in order; empty pieces add nothing |
| ProfileHover.Initials | frontend-rtib-database/components/ceo-profile-hover.tsx:68-74 | The initials are exactly the upper-cased first letter of each non-empty space-separated piece, in order, so never longer than the name |
| ProfileHover.InitialsOfTwoNames | frontend-rtib-database/components/employee-profile-hover.tsx:60-66 | "First Last" gives the two capitals |
| ProfileHover.InitialsSkipEmptyPieces | frontend-rtib-database/components/rtib-contact-hover.tsx:47-53 | A double space between the names gives the same initials as a single one |
| ProfileHover.DashRuns | frontend-rtib-database/components/ceo-profile-hover.tsx:77-80 | No whitespace is left, and the text does not grow |
| ProfileHover.DashRunsNoSpace | frontend-rtib-database/components/ceo-profile-hover.tsx:77-80 | A text without whitespace is left as it is |
| ProfileHover.DashRunsRun | frontend-rtib-database/components/ceo-profile-hover.tsx:77-80 | A maximal run of whitespace of any length becomes exactly one dash, and the text before and after it is kept; with the previous row this fixes the result for every input |
| ProfileHover.DashRunsIdempotent | frontend-rtib-database/components/ceo-profile-hover.tsx:77-80 | Replacing the runs again changes nothing |
| ProfileHover.Slug | frontend-rtib-database/components/ceo-profile-hover.tsx:77-80 | A slug has no whitespace |
| ProfileHover.SlugNoSpace | frontend-rtib-database/components/ceo-profile-hover.tsx:77-80 | A name without whitespace only changes to lower case |
| ProfileHover.SlugRun | frontend-rtib-database/components/ceo-profile-hover.tsx:77-80 | Each maximal whitespace run of the name becomes one dash of the slug, with the words around it lower-cased; with the previous row this fixes every slug |
| ProfileHover.SlugOfTwoWords | frontend-rtib-database/components/ceo-profile-hover.tsx:77-80 | "First Last" becomes "first-last" |
| ProfileHover.CeoProfileUrl | frontend-rtib-database/components/ceo-profile-hover.tsx:77-80 | A CEO link is always /profile/ceo- followed by the name slug, without whitespace |
| ProfileHover.EmployeeProfileUrl | frontend-rtib-database/components/employee-profile-hover.tsx:69-75 | An employee link uses the id when there is one, else the name slug |
| ProfileHover.RtibProfileUrl | frontend-rtib-database/components/rtib-contact-hover.tsx:56-62 | A contact link is /profile/{id} with no prefix when there is an id, else /profile/rtib-{slug} |
| ProfileHover.ConnectorsBetweenEntries | frontend-rtib-database/components/ceo-profile-hover.tsx:206 | Among the timeline entries, exactly the last has no connector line |
| ProfileHover.EndDateLabel | frontend-rtib-database/components/ceo-profile-hover.tsx:218 | An entry shows its end date, or "present" in the current language, and never an empty label |
| ProfileHover.EmployeeBioLine | frontend-rtib-database/components/employee-profile-hover.tsx:141-145 | The employee card shows the bio, or the no-information line when there is none |
| ProfileHover.ContactBioLine | frontend-rtib-database/components/rtib-contact-hover.tsx:127-130 | The contact card always shows the no-information line, because a contact record has no bio |
| ProfileHover.ContactCardRows | frontend-rtib-database/components/rtib-contact-hover.tsx:134-146 | The e-mail and phone rows appear exactly when those values are non-empty, and show them |
| ProfileHover.AvatarOf | frontend-rtib-database/components/ceo-profile-hover.tsx:122-127 | The avatar is the picture when there is one, else the initials badge |
| ProfileHover.HoverCard.constructor | frontend-rtib-database/components/ceo-profile-hover.tsx:61-62 | A card starts closed, with the timeline closed |
| ProfileHover.HoverCard.ClickInfo | frontend-rtib-database/components/ceo-profile-hover.tsx:108 | Clicking the info button flips the card |
| ProfileHover.HoverCard.SetHovering | frontend-rtib-database/components/ceo-profile-hover.tsx:109 | Pointer and outside-click events set the card's state to the given value |
| ProfileHover.HoverCard.OpenTimeline | frontend-rtib-database/components/ceo-profile-hover.tsx:165-174 | The timeline button opens the dialog and closes the card |
| ProfileHover.HoverCard.SetTimelineOpen | frontend-rtib-database/components/ceo-profile-hover.tsx:196 | The dialog's own open/close sets only the timeline state |
| OrganizationChart.EdgeOf | frontend-rtib-database/components/organization-chart.tsx:150-154 | A member's edge runs from its parent to it, with id "{parent}-{id}" |
| OrganizationChart.NodeInitials | frontend-rtib-database/components/organization-chart.tsx:33-36 | Exactly the first letter of each non-empty space-separated piece, in order and in the case typed |
| OrganizationChart.GroupKeepsOrder | frontend-rtib-database/components/organization-chart.tsx:111-119 | A level's group holds exactly the members of that level, in input order |
| OrganizationChart.FirstSeenLevels | frontend-rtib-database/components/organization-chart.tsx:111-121 | The level keys have no duplicates and are exactly the levels that occur |
| OrganizationChart.GroupByLevel | frontend-rtib-database/components/organization-chart.tsx:111-119 | The grouping loop builds a map from each occurring level to that level's members in order, and lists the keys in order of first occurrence |
| OrganizationChart.LevelOrderIsTotalPreorder | frontend-rtib-database/components/organization-chart.tsx:121 | Comparing level numbers as text is a total preorder |
| OrganizationChart.LevelKeysSpec | frontend-rtib-database/components/organization-chart.tsx:121 | Every level that occurs is visited exactly once, in text order of the level numbers |
| OrganizationChart.LevelOrderStrict | frontend-rtib-database/components/organization-chart.tsx:121 | Different levels never compare equal |
| OrganizationChart.TenSortsBeforeTwo | frontend-rtib-database/components/organization-chart.tsx:121 | As text, level 10 sorts before level 2 |
| OrganizationChart.LevelTenBeforeTwo | frontend-rtib-database/components/organization-chart.tsx:121 | When levels 2 and 10 both occur, level 10 is laid out first |
| OrganizationChart.DesktopPositionsIncrease | frontend-rtib-database/components/organization-chart.tsx:134-136 | On a wide screen, a level's members lie left to right in order, strictly inside the span |
| OrganizationChart.LevelNodes | frontend-rtib-database/components/organization-chart.tsx:132-147 | One node per member of a level, in order, at its column position and the level's height |
| OrganizationChart.LayOutLevel | frontend-rtib-database/components/organization-chart.tsx:128-166 | The inner loop builds exactly that level's nodes, and an edge for each of its members with a parent |
| OrganizationChart.EdgeStep | frontend-rtib-database/components/organization-chart.tsx:150-165 | One step of the loop adds an edge iff the member has a parent |
| OrganizationChart.LayOut | frontend-rtib-database/components/organization-chart.tsx:128-167 | The outer loop concatenates the levels' nodes and edges in key order |
| OrganizationChart.NodesCarryGroups | frontend-rtib-database/components/organization-chart.tsx:128-167 | The nodes carry the level groups' members, group after group |
| OrganizationChart.EdgesFollowMembers | frontend-rtib-database/components/organization-chart.tsx:149-165 | The edges are those of the members with a parent, group after group |
| OrganizationChart.GroupedCount | frontend-rtib-database/components/organization-chart.tsx:128-167 | Visiting each key once, the groups hold every member of those levels as often as it was given |
| OrganizationChart.EdgeMembersCount | frontend-rtib-database/components/organization-chart.tsx:149-165 | Visiting each key once, every member with a parent contributes its edge as often as it was given |
| OrganizationChart.OneNodePerMember | frontend-rtib-database/components/organization-chart.tsx:141-147 | The chart has exactly one node per member |
| OrganizationChart.NodesAtTheirLevel | frontend-rtib-database/components/organization-chart.tsx:139-147 | Every node has its member's id and sits at the height of the member's level |
| OrganizationChart.OneEdgePerParentLink | frontend-rtib-database/components/organization-chart.tsx:149-165 | The chart has exactly one edge per member with a parent |
| OrganizationChart.OrgChart.constructor | frontend-rtib-database/components/organization-chart.tsx:97-100 | Loading, with no nodes or edges, not full screen |
| OrganizationChart.OrgChart.Render | frontend-rtib-database/components/organization-chart.tsx:224-238 | Shows the spinner while loading, the no-data message for empty data, and otherwise the nodes and edges |
| OrganizationChart.OrgChart.CreateNodesAndEdges | frontend-rtib-database/components/organization-chart.tsx:105-172 | Ends loading; empty data keeps the old nodes and edges; otherwise they become the chart of the members |
| OrganizationChart.OrgChart.DataChanged | frontend-rtib-database/components/organization-chart.tsx:175-178 | After new data the view is the no-data message or the chart of the new members |
| OrganizationChart.OrgChart.ToggleFullscreen | frontend-rtib-database/components/organization-chart.tsx:181-203 | With a container, full screen is entered or left; without one, nothing changes |
| OrganizationChart.OrgChart.FullscreenChanged | frontend-rtib-database/components/organization-chart.tsx:206-222 | The state follows the browser's full-screen element |
| LanguageContext.FromCode | frontend-rtib-database/context/LanguageContext.tsx:75 | Only "en", "tr" and "ru" name a language, and the one named has that code |
| LanguageContext.CodeRoundTrip | frontend-rtib-database/context/LanguageContext.tsx:75 | Every language's code reads back as that language |
| LanguageContext.T | frontend-rtib-database/context/LanguageContext.tsx:97-99 | A translated key gives its text; any other key is shown as itself |
| LanguageContext.TablesAgreeOnKeys | frontend-rtib-database/context/LanguageContext.tsx:22-63 | The three tables translate the same keys to non-empty texts: a key is translated in every language or in none |
| LanguageContext.Resolve | frontend-rtib-database/context/LanguageContext.tsx:73-84 | A valid stored language wins; otherwise the browser language up to its first dash, if supported; otherwise English |
| LanguageContext.RegionalBrowserLanguage | frontend-rtib-database/context/LanguageContext.tsx:79-80 | A regional browser setting such as tr-TR picks its language |
| LanguageContext.LanguageProvider.constructor | frontend-rtib-database/context/LanguageContext.tsx:68 | The first render is in English |
| LanguageContext.LanguageProvider.Initialize | frontend-rtib-database/context/LanguageContext.tsx:73-84 | Start-up adopts the resolved language; afterwards the stored value names the shown language |
| LanguageContext.LanguageProvider.SetLanguage | frontend-rtib-database/context/LanguageContext.tsx:87-90 | Choosing a language shows it and stores it |

## Left out

- Rendering: JSX layout, styling beyond the class names modelled above, icons, animations and the mobile menu are not modelled. Toasts and navigation are returned as values.
- Store and network calls: reading, writing and deleting documents, the file upload and the auth state are parameters (success flags, new ids, the uploaded URL, the signed-in user). Console logging is left out.
- Clocks and randomness: `new Date()`, `Date.now()` and `Math.random()` are parameters (`today`, `stamp`, `draw`, `newId`, `freshId`). The `createdAt` and `updatedAt` stamps are not modelled.
- Timers: each `setTimeout` continuation is its own method (`SubmitDelayElapsed`, and the redirect returned by `MinimalNavbar.Navbar.HandleAddCompany`).
- Browser APIs: FileReader, the full-screen API, local storage, the media query and the browser language are parameters or fields.
- Floating point: the money fields (investment, revenue, import and export volume) that the dialogs and the admin page parse with `parseFloat` are not modelled. Market cap is an integer. Chart x positions are exact reals, so rounding is not modelled.
- Text.ParseInt: decimal only. The `0x` hexadecimal prefix and the radix argument are not modelled.
- Text.LowerStr: ASCII case mapping only (`toLowerCase` and `toUpperCase` map all of Unicode).
- Text.Compare: code-point order; `localeCompare`'s locale collation is not modelled.
- Text.MatchesEmailPattern: the regular expression is modelled by its meaning (no whitespace, an `@` after a non-empty part, and a later dot with text on both sides), not as a regex engine.
- Directory.SortCompaniesSpec: proves that the result is a permutation and is sorted; the stability of `Array.prototype.sort` is not proved.
- OrganizationChart.LevelKeysSpec: levels are integers. A fractional or non-numeric level from `Object.keys` is not modelled. The `maxLevel` value is computed but never used, so it is left out.
- OrganizationChart.OrgChart.CreateNodesAndEdges: empty data keeps the previous nodes and edges (as the code does); the view shows the no-data message anyway.
- AddCeoModal.CeoDialog.RemoveTimelineEntry: the entry errors keep their old indices after a removal, as in the code, so an error can end up on the wrong entry until the next validation.
- Middleware.Decide: the `matcher` configuration that keeps static files out of the gate is not modelled; the gate is modelled for every path.
- LanguageContext.LanguageProvider.Translate is the table lookup `T` for the current language and has no contract of its own.
- FilterMenu.IsFilterActive is membership in a category's list; its properties are stated through `FilterMenu.ToggleFilter`.
- MinimalNavbar.EmployeesCount: a count that is not a number is kept as NaN in the code; the model writes None.
- The companies table's logo style and industry icons, and the admin add page's tab switching, are presentation only and are not modelled.
- The profile and detail pages that show a full record, the edit page, and the data files are not part of this model.

## Findings

| source | as written | input that shows it | evidently intended | confidence | as-written member | corrected member |
|---|---|---|---|---|---|---|
| frontend-rtib-database/components/filter-bar.tsx:46 | The "All Industries" item has the value "all", which `onValueChange` stores as the industry filter "all" | Choose "All Industries" while no company's industry is "all": the directory's list becomes empty | "All Industries" clears the filter, like the empty value | not executed | FilterBar.AllIndustriesEmptiesList | FilterBar.AllItemIntendedNoRestriction |

The page-state operations (`FilterBar.SelectIndustry`, `FilterBar.SelectCity`)
keep the mapping as written, because they describe what the code does.
`FilterBar.SelectValueIntended` is the corrected mapping. The lemma beside it
proves that, with this mapping, choosing "all" filters like no filter at all.
