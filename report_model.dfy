/** The Report schema: closed enumerations, the record shape and the defaults applied on creation. */
module ReportModel {
  import opened Common

  datatype Category = DomesticViolence | SexualAssault | PhysicalAbuse | Stalking | Other

  datatype Status = Pending | InProgress | Resolved

  datatype ContactMethod = Phone | Email | NoContact

  /** The stored text of a category. */
  function CategoryName(c: Category): string
  {
    match c
    case DomesticViolence => "Domestic Violence"
    case SexualAssault => "Sexual Assault"
    case PhysicalAbuse => "Physical Abuse"
    case Stalking => "Stalking"
    case Other => "Other"
  }

  /** The schema's `enum` list for `category`, in declaration order. */
  function CategoryEnum(): (r: seq<string>)
    ensures |r| == 5
    ensures forall c :: CategoryName(c) in r
  {
    [CategoryName(DomesticViolence), CategoryName(SexualAssault), CategoryName(PhysicalAbuse),
     CategoryName(Stalking), CategoryName(Other)]
  }

  /** The enum validator for `category`: succeeds exactly on the five stored names. */
  function ParseCategory(s: string): (r: Option<Category>)
    ensures r.Some? <==> s in CategoryEnum()
    ensures r.Some? ==> CategoryName(r.value) == s
  {
    if s == "Domestic Violence" then Some(DomesticViolence)
    else if s == "Sexual Assault" then Some(SexualAssault)
    else if s == "Physical Abuse" then Some(PhysicalAbuse)
    else if s == "Stalking" then Some(Stalking)
    else if s == "Other" then Some(Other)
    else None
  }

  lemma ParseCategoryName(c: Category)
    ensures ParseCategory(CategoryName(c)) == Some(c)
  {
  }

  function StatusName(s: Status): string
  {
    match s
    case Pending => "Pending"
    case InProgress => "In Progress"
    case Resolved => "Resolved"
  }

  /** The enum validator for `status`. */
  function ParseStatus(s: string): (r: Option<Status>)
    ensures r.Some? <==> s == "Pending" || s == "In Progress" || s == "Resolved"
    ensures r.Some? ==> StatusName(r.value) == s
  {
    if s == "Pending" then Some(Pending)
    else if s == "In Progress" then Some(InProgress)
    else if s == "Resolved" then Some(Resolved)
    else None
  }

  function ContactMethodName(m: ContactMethod): string
  {
    match m
    case Phone => "PHONE"
    case Email => "EMAIL"
    case NoContact => "NONE"
  }

  /** The enum validator for `contactInfo.method`. */
  function ParseContactMethod(s: string): (r: Option<ContactMethod>)
    ensures r.Some? <==> s == "PHONE" || s == "EMAIL" || s == "NONE"
    ensures r.Some? ==> ContactMethodName(r.value) == s
  {
    if s == "PHONE" then Some(Phone)
    else if s == "EMAIL" then Some(Email)
    else if s == "NONE" then Some(NoContact)
    else None
  }

  /** Coordinates are only ever compared with 0, so they are kept opaque as reals. */
  datatype Location = Location(lat: real, lng: real, address: string)

  datatype Assignment = Assignment(orgId: Option<string>, orgName: Option<string>, claimedAt: Option<int>)

  datatype Resolution = Resolution(resolvedBy: Option<string>, resolvedAt: Option<int>,
                                   notes: Option<string>, proof: seq<string>)

  datatype ContactInfo = ContactInfo(contactMethod: ContactMethod, value: Option<string>,
                                     safeToVoicemail: Option<bool>, safeTime: Option<string>,
                                     immediateHelp: Option<bool>)

  /** A stored report document; `createdAt` is a time in milliseconds. */
  datatype Report = Report(
    id: string,
    category: Category,
    description: string,
    media: seq<string>,
    location: Option<Location>,
    contactPolice: bool,
    status: Status,
    assignedTo: Assignment,
    isPriority: bool,
    isEscalated: bool,
    resolution: Resolution,
    contactInfo: Option<ContactInfo>,
    createdAt: int)

  /** The fields a caller hands to `new Report(...)`; a `None` is a field left undefined. */
  datatype ReportFields = ReportFields(
    category: Option<string>,
    description: Option<string>,
    contactPolice: Option<bool>,
    location: Option<Location>,
    media: seq<string>)

  datatype ReportError = CategoryRequired | CategoryNotInEnum(value: string)

  datatype Created = Created(report: Report) | Invalid(error: ReportError)

  /** The placeholder stored when no description is given. */
  function DefaultDescription(): string
  {
    "No text description provided."
  }

  /** The location used by the client and the server when none is submitted. */
  function NotProvidedLocation(): (l: Location)
    ensures l.lat == 0.0 && l.lng == 0.0 && l.address == "Not provided"
  {
    Location(0.0, 0.0, "Not provided")
  }

  /** The nested `contactInfo` a new report gets: only `method` (here `contactMethod`) has a default. */
  function DefaultContactInfo(): (ci: ContactInfo)
    ensures ci.contactMethod == NoContact
  {
    ContactInfo(NoContact, None, None, None, None)
  }

  /** What every freshly created report looks like. */
  ghost predicate FreshReport(r: Report, f: ReportFields, id: string, now: int)
  {
    && r.id == id
    && r.status == Pending
    && r.assignedTo.orgId.None?
    && !r.isPriority && !r.isEscalated
    && r.contactPolice == (f.contactPolice == Some(true))
    // the placeholder replaces only an absent description: "" is stored as it is
    && r.description == (if f.description.None? then DefaultDescription() else f.description.value)
    && r.media == f.media
    && r.location == f.location
    && r.resolution.proof == []
    && r.contactInfo == Some(ContactInfo(NoContact, None, None, None, None))
    && r.createdAt == now
  }

  /**
   * `new Report(fields)` followed by validation: the schema's defaults are applied
   * and `category` must be present, non-empty and one of the enum values.
   */
  function NewReport(f: ReportFields, id: string, now: int): (c: Created)
    ensures c.Created? <==> f.category.Some? && f.category.value in CategoryEnum()
    ensures f.category.None? || f.category == Some("") ==> c == Invalid(CategoryRequired)
    ensures c.Created? ==> CategoryName(c.report.category) == f.category.value
    ensures c.Created? ==> FreshReport(c.report, f, id, now)
  {
    if !Truthy(f.category) then Invalid(CategoryRequired)
    else match ParseCategory(f.category.value)
      case None => Invalid(CategoryNotInEnum(f.category.value))
      case Some(cat) =>
        Created(Report(
          id := id,
          category := cat,
          description := if f.description.Some? then f.description.value else DefaultDescription(),
          media := f.media,
          location := f.location,
          contactPolice := if f.contactPolice.Some? then f.contactPolice.value else false,
          status := Pending,
          assignedTo := Assignment(None, None, None),
          isPriority := false,
          isEscalated := false,
          resolution := Resolution(None, None, None, []),
          contactInfo := Some(DefaultContactInfo()),
          createdAt := now))
  }
}
