/**
 * The Organization schema: the type and status enumerations, the required fields,
 * the defaults, and the unique index on `accessCode` over the collection.
 */
module OrganizationModel {
  import opened Common

  datatype OrgType = Police | Shelter | Medical | Community | Legal

  datatype OrgStatus = OrgPending | Approved | Rejected

  function OrgTypeName(t: OrgType): string
  {
    match t
    case Police => "POLICE"
    case Shelter => "SHELTER"
    case Medical => "MEDICAL"
    case Community => "COMMUNITY"
    case Legal => "LEGAL"
  }

  /** The enum validator for `type`. */
  function ParseOrgType(s: string): (r: Option<OrgType>)
    ensures r.Some? <==> s in ["POLICE", "SHELTER", "MEDICAL", "COMMUNITY", "LEGAL"]
    ensures r.Some? ==> OrgTypeName(r.value) == s
  {
    if s == "POLICE" then Some(Police)
    else if s == "SHELTER" then Some(Shelter)
    else if s == "MEDICAL" then Some(Medical)
    else if s == "COMMUNITY" then Some(Community)
    else if s == "LEGAL" then Some(Legal)
    else None
  }

  function OrgStatusName(s: OrgStatus): string
  {
    match s
    case OrgPending => "PENDING"
    case Approved => "APPROVED"
    case Rejected => "REJECTED"
  }

  /** The enum validator for `status`. */
  function ParseOrgStatus(s: string): (r: Option<OrgStatus>)
    ensures r.Some? <==> s in ["PENDING", "APPROVED", "REJECTED"]
    ensures r.Some? ==> OrgStatusName(r.value) == s
  {
    if s == "PENDING" then Some(OrgPending)
    else if s == "APPROVED" then Some(Approved)
    else if s == "REJECTED" then Some(Rejected)
    else None
  }

  /** The optional descriptive fields, none of which is validated. */
  datatype OrgDetails = OrgDetails(
    country: Option<string>, region: Option<string>, city: Option<string>, address: Option<string>,
    contactEmail: Option<string>, contactPhone: Option<string>, website: Option<string>,
    registrationNumber: Option<string>, description: Option<string>)

  /**
   * A stored organization. `allowedCategories` and `documents` are plain string lists:
   * the schema puts no enum on the categories.
   */
  datatype Organization = Organization(
    id: string,
    name: string,
    orgType: OrgType,
    details: OrgDetails,
    documents: seq<string>,
    accessCode: string,
    status: OrgStatus,
    allowedCategories: seq<string>,
    createdAt: int)

  /** The fields a caller hands to `new Organization(...)`; `None` is a field left undefined. */
  datatype OrgFields = OrgFields(
    name: Option<string>,
    orgType: Option<string>,
    details: OrgDetails,
    documents: seq<string>,
    accessCode: Option<string>,
    status: Option<string>,
    allowedCategories: seq<string>)

  datatype OrgError = Required(path: string) | NotInEnum(path: string, value: string)

  datatype OrgCreated = OrgCreated(org: Organization) | OrgInvalid(errors: seq<OrgError>)

  /** A stored organization satisfies the `required` validators (which reject ""). */
  predicate ValidOrganization(o: Organization)
  {
    o.name != "" && o.accessCode != ""
  }

  /** The validation errors of one required string path, in the schema's order. */
  function RequiredErrors(path: string, v: Option<string>): (e: seq<OrgError>)
    ensures e == [] <==> Truthy(v)
  {
    if Truthy(v) then [] else [Required(path)]
  }

  function TypeErrors(v: Option<string>): (e: seq<OrgError>)
    ensures e == [] <==> Truthy(v) && ParseOrgType(v.value).Some?
  {
    if !Truthy(v) then [Required("type")]
    else if ParseOrgType(v.value).None? then [NotInEnum("type", v.value)]
    else []
  }

  function StatusErrors(v: Option<string>): (e: seq<OrgError>)
    ensures e == [] <==> v.None? || ParseOrgStatus(v.value).Some?
  {
    if v.Some? && ParseOrgStatus(v.value).None? then [NotInEnum("status", v.value)] else []
  }

  /** Every validation error of a set of fields, collected as Mongoose does before failing. */
  function ValidationErrors(f: OrgFields): (e: seq<OrgError>)
    ensures Required("name") in e <==> !Truthy(f.name)
    ensures Required("accessCode") in e <==> !Truthy(f.accessCode)
    ensures Required("type") in e <==> !Truthy(f.orgType)
  {
    RequiredErrors("name", f.name) + TypeErrors(f.orgType)
      + RequiredErrors("accessCode", f.accessCode) + StatusErrors(f.status)
  }

  /**
   * `new Organization(fields)` followed by validation. `status` defaults to PENDING and
   * `createdAt` to the creation time.
   */
  function NewOrganization(f: OrgFields, id: string, now: int): (c: OrgCreated)
    ensures c.OrgCreated? <==> ValidationErrors(f) == []
    ensures c.OrgInvalid? ==> c.errors != []
    ensures c.OrgCreated? ==> ValidOrganization(c.org)
    ensures c.OrgCreated? ==> Some(c.org.name) == f.name && Some(c.org.accessCode) == f.accessCode
    ensures c.OrgCreated? ==> Some(OrgTypeName(c.org.orgType)) == f.orgType
    ensures c.OrgCreated? && f.status.None? ==> c.org.status == OrgPending
    ensures c.OrgCreated? && f.status.Some? ==> OrgStatusName(c.org.status) == f.status.value
    ensures c.OrgCreated? ==>
      c.org.allowedCategories == f.allowedCategories && c.org.documents == f.documents
      && c.org.createdAt == now && c.org.id == id
  {
    var errors := ValidationErrors(f);
    if errors != [] then OrgInvalid(errors)
    else
      OrgCreated(Organization(
        id := id,
        name := f.name.value,
        orgType := ParseOrgType(f.orgType.value).value,
        details := f.details,
        documents := f.documents,
        accessCode := f.accessCode.value,
        status := if f.status.Some? then ParseOrgStatus(f.status.value).value else OrgPending,
        allowedCategories := f.allowedCategories,
        createdAt := now))
  }

  /** The unique index on `accessCode`. */
  ghost predicate UniqueAccessCodes(store: seq<Organization>)
  {
    forall i, j :: 0 <= i < j < |store| ==> store[i].accessCode != store[j].accessCode
  }

  predicate CodeTaken(store: seq<Organization>, code: string)
  {
    exists i :: 0 <= i < |store| && store[i].accessCode == code
  }

  datatype Insertion = Inserted(store: seq<Organization>) | DuplicateKey(code: string)

  /** Saving a new organization: refused when its access code is already in the collection. */
  function Insert(store: seq<Organization>, o: Organization): (r: Insertion)
    ensures r.Inserted? <==> forall i :: 0 <= i < |store| ==> store[i].accessCode != o.accessCode
    ensures r.Inserted? ==> r.store == store + [o]
    ensures r.DuplicateKey? ==> r.code == o.accessCode
  {
    if CodeTaken(store, o.accessCode) then DuplicateKey(o.accessCode) else Inserted(store + [o])
  }

  /** The outcome of creating and saving an organization; a failure keeps the old collection. */
  datatype Registration = Registered(org: Organization, store: seq<Organization>)
                        | RegistrationFailed(store: seq<Organization>)

  function Create(store: seq<Organization>, f: OrgFields, id: string, now: int): (r: Registration)
    ensures r.RegistrationFailed? ==> r.store == store
    ensures r.Registered? ==>
      r.store == store + [r.org] && ValidOrganization(r.org) && Some(r.org.accessCode) == f.accessCode
    ensures r.Registered? <==> ValidationErrors(f) == [] && !CodeTaken(store, f.accessCode.value)
  {
    match NewOrganization(f, id, now)
    case OrgInvalid(_) => RegistrationFailed(store)
    case OrgCreated(o) =>
      match Insert(store, o)
      case DuplicateKey(_) => RegistrationFailed(store)
      case Inserted(s) => Registered(o, s)
  }

  /** Every successful insertion keeps the access codes unique. */
  lemma InsertKeepsCodesUnique(store: seq<Organization>, o: Organization)
    requires UniqueAccessCodes(store)
    requires Insert(store, o).Inserted?
    ensures UniqueAccessCodes(Insert(store, o).store)
  {
  }

  /** A second registration with a code already in use fails and leaves the first one in place. */
  lemma {:induction false} SecondRegistrationFails(store: seq<Organization>, f: OrgFields, g: OrgFields,
                                                   id1: string, id2: string, now: int)
    requires Create(store, f, id1, now).Registered?
    requires g.accessCode == f.accessCode
    ensures Create(Create(store, f, id1, now).store, g, id2, now).RegistrationFailed?
    ensures Create(Create(store, f, id1, now).store, g, id2, now).store
            == store + [Create(store, f, id1, now).org]
  {
    var s1 := Create(store, f, id1, now).store;
    assert s1[|store|].accessCode == f.accessCode.value;
  }
}
