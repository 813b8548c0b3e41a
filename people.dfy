/** The person records the hover cards show and the add-person dialogs build. */
module People {
  import opened Optional

  /** One step of a career timeline. */
  datatype TimelineEntry = TimelineEntry(position: string, company: Option<string>, startDate: string, endDate: Option<string>)

  datatype CeoData = CeoData(
    name: string,
    position: string,
    company: string,
    bio: Option<string>,
    imageUrl: Option<string>,
    email: Option<string>,
    linkedinUrl: Option<string>,
    timeline: Option<seq<TimelineEntry>>)

  datatype EmployeeData = EmployeeData(
    id: string,
    name: string,
    position: string,
    department: string,
    company: string,
    bio: Option<string>,
    imageUrl: Option<string>,
    email: Option<string>,
    linkedinUrl: Option<string>)

  datatype RtibContactData = RtibContactData(
    id: string,
    name: string,
    position: string,
    email: string,
    phone: Option<string>,
    imageUrl: Option<string>)
}
