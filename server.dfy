/**
 * The route handlers of the API server as functions over the two collections:
 * report submission, login by access code, and the per-organization report list.
 */
module Server {
  import opened Common
  import opened ReportModel
  import opened OrganizationModel

  /** An HTTP reply: a status code with a body, or a status code with an error message. */
  datatype Reply<T> = Reply(status: int, body: T) | ErrorReply(status: int, message: string)

  /** A file as the upload middleware describes it; "" stands for a property that is absent. */
  datatype UploadedFile = UploadedFile(path: string, secureUrl: string, url: string)

  /** The submitted form: text fields (`None` when absent), the parsed JSON parts and the uploaded evidence files. */
  datatype Submission = Submission(
    category: Option<string>,
    description: Option<string>,
    contactPolice: Option<string>,
    location: Option<Location>,
    contactInfo: Option<ContactInfo>,
    files: Option<seq<UploadedFile>>)

  /** `file.path || file.secure_url || file.url`. */
  function FileUrl(f: UploadedFile): (u: string)
    ensures u == FirstPresent([f.path, f.secureUrl, f.url])
    ensures u == "" <==> f.path == "" && f.secureUrl == "" && f.url == ""
  {
    assert [f.path, f.secureUrl, f.url][1..] == [f.secureUrl, f.url];
    assert [f.secureUrl, f.url][1..] == [f.url];
    assert [f.url][1..] == [];
    assert FirstPresent([f.url]) == f.url;
    assert FirstPresent([f.secureUrl, f.url]) == if f.secureUrl != "" then f.secureUrl else f.url;
    if f.path != "" then f.path else if f.secureUrl != "" then f.secureUrl else f.url
  }

  /** The media list stored for the uploaded files: one URL per file, in upload order. */
  function MediaUrls(files: Option<seq<UploadedFile>>): (m: seq<string>)
    ensures files.None? ==> m == []
    ensures files.Some? ==>
      |m| == |files.value| && forall i :: 0 <= i < |m| ==> m[i] == FirstPresent([files.value[i].path, files.value[i].secureUrl, files.value[i].url])
  {
    if files.None? then [] else seq(|files.value|, i requires 0 <= i < |files.value| => FileUrl(files.value[i]))
  }

  /** The boolean stored for the consent field: only the exact text "true" means yes. */
  function DecodeConsent(field: Option<string>): (b: bool)
    ensures b <==> field == Some("true")
  {
    field.Some? && field.value == "true"
  }

  /**
   * `reportData`: the only fields the route takes from the request. A submitted
   * `contactInfo` is not among them.
   */
  function ReportData(sub: Submission): (f: ReportFields)
    ensures f.category == sub.category && f.description == sub.description
    ensures f.contactPolice == Some(sub.contactPolice == Some("true"))
    ensures f.location == Some(if sub.location.Some? then sub.location.value else NotProvidedLocation())
    ensures f.media == MediaUrls(sub.files)
  {
    ReportFields(
      category := sub.category,
      description := sub.description,
      contactPolice := Some(DecodeConsent(sub.contactPolice)),
      location := Some(if sub.location.Some? then sub.location.value else NotProvidedLocation()),
      media := MediaUrls(sub.files))
  }

  /** POST /api/reports: build the report, save it (201) or answer 500 when validation fails. */
  function SubmitReport(store: seq<Report>, sub: Submission, id: string, now: int): (out: (Reply<Report>, seq<Report>))
    ensures out.0.Reply? <==> NewReport(ReportData(sub), id, now).Created?
    ensures out.0.Reply? ==> out.0.status == 201 && out.1 == store + [out.0.body]
    ensures out.0.ErrorReply? ==> out.0 == ErrorReply(500, "Error saving report") && out.1 == store
  {
    match NewReport(ReportData(sub), id, now)
    case Created(r) => (Reply(201, r), store + [r])
    case Invalid(_) => (ErrorReply(500, "Error saving report"), store)
  }

  /** What a saved report holds, for every submission the schema accepts. */
  lemma {:induction false} SubmittedReportContents(store: seq<Report>, sub: Submission, id: string, now: int)
    requires SubmitReport(store, sub, id, now).0.Reply?
    ensures var r := SubmitReport(store, sub, id, now).0.body;
      && Some(CategoryName(r.category)) == sub.category
      && r.status == Pending && r.assignedTo.orgId.None?
      && !r.isPriority && !r.isEscalated
      && (r.contactPolice <==> sub.contactPolice == Some("true"))
      && r.location == Some(if sub.location.Some? then sub.location.value else NotProvidedLocation())
      && r.media == MediaUrls(sub.files)
      && r.contactInfo == Some(DefaultContactInfo())
      && r.description == (if sub.description.Some? then sub.description.value else DefaultDescription())
  {
    var f := ReportData(sub);
    assert FreshReport(NewReport(f, id, now).report, f, id, now);
  }

  /** POST /api/login: the first organization holding the code; no status is looked at. */
  function Login(orgs: seq<Organization>, code: string): (reply: Reply<Organization>)
    ensures reply.Reply? ==> reply.status == 200 && reply.body in orgs && reply.body.accessCode == code
    ensures reply.ErrorReply? <==> forall i :: 0 <= i < |orgs| ==> orgs[i].accessCode != code
    ensures reply.ErrorReply? ==> reply == ErrorReply(401, "Invalid Access Code")
  {
    var i := FirstIndex(orgs, (o: Organization) => o.accessCode == code);
    if i == |orgs| then ErrorReply(401, "Invalid Access Code") else Reply(200, orgs[i])
  }

  /**
   * With unique access codes, each organization logs in with its own code whatever its status:
   * PENDING and REJECTED organizations are returned too.
   */
  lemma {:induction false} LoginIgnoresStatus(orgs: seq<Organization>, k: nat)
    requires UniqueAccessCodes(orgs) && k < |orgs|
    ensures Login(orgs, orgs[k].accessCode) == Reply(200, orgs[k])
  {
    var code := orgs[k].accessCode;
    var i := FirstIndex(orgs, (o: Organization) => o.accessCode == code);
    assert i <= k;
    assert i == k;
  }

  /** The visibility rule as written: category allowed, and for police also the consent flag. */
  predicate Visible(org: Organization, r: Report)
  {
    CategoryName(r.category) in org.allowedCategories && (org.orgType == Police ==> r.contactPolice)
  }

  /** The database query `{category: {$in: ...}, contactPolice?: ...}`. */
  datatype Query = Query(categoryIn: seq<string>, contactPolice: Option<bool>)

  predicate Matches(q: Query, r: Report)
  {
    CategoryName(r.category) in q.categoryIn && (q.contactPolice.Some? ==> r.contactPolice == q.contactPolice.value)
  }

  /** Builds the query step by step as the route does, starting from the category restriction. */
  method BuildQuery(org: Organization) returns (q: Query)
    ensures q.categoryIn == org.allowedCategories
    ensures forall r :: Matches(q, r) <==> Visible(org, r)
  {
    q := Query(org.allowedCategories, None);
    if org.orgType == Police {
      q := q.(contactPolice := Some(true));
    }
  }

  /** Each report is at least as recent as the one after it. */
  ghost predicate NewestFirst(s: seq<Report>)
  {
    forall i :: 0 < i < |s| ==> s[i - 1].createdAt >= s[i].createdAt
  }

  /** In a newest-first list every report is at least as recent as any later one. */
  lemma {:induction false} NewestFirstPairwise(s: seq<Report>)
    requires NewestFirst(s)
    ensures forall i, j :: 0 <= i < j < |s| ==> s[i].createdAt >= s[j].createdAt
  {
    if s != [] {
      var t := s[1..];
      assert NewestFirst(t) by {
        assert forall i :: 0 < i < |t| ==> t[i - 1] == s[i] && t[i] == s[i + 1];
      }
      NewestFirstPairwise(t);
      forall i, j | 0 <= i < j < |s|
        ensures s[i].createdAt >= s[j].createdAt
      {
        assert s[j] == t[j - 1];
        if i > 0 {
          assert s[i] == t[i - 1];
        } else if j > 1 {
          assert s[1] == t[0];
        }
      }
    }
  }

  /** One step of the sort: `x` goes before the first report that is not newer than it. */
  function InsertNewest(x: Report, s: seq<Report>): seq<Report>
  {
    if s == [] || x.createdAt >= s[0].createdAt then [x] + s
    else [s[0]] + InsertNewest(x, s[1..])
  }

  lemma {:induction false} InsertNewestPermutes(x: Report, s: seq<Report>)
    ensures multiset(InsertNewest(x, s)) == multiset(s) + multiset{x}
  {
    if !(s == [] || x.createdAt >= s[0].createdAt) {
      InsertNewestPermutes(x, s[1..]);
      assert s == [s[0]] + s[1..];
    }
  }

  lemma {:induction false} InsertNewestSorted(x: Report, s: seq<Report>)
    requires NewestFirst(s)
    ensures NewestFirst(InsertNewest(x, s))
  {
    if !(s == [] || x.createdAt >= s[0].createdAt) {
      var rest := InsertNewest(x, s[1..]);
      InsertNewestSorted(x, s[1..]);
      assert rest[0] == x || rest[0] == s[1];
      var r := [s[0]] + rest;
      assert forall k :: 0 < k < |r| ==> r[k] == rest[k - 1];
    }
  }

  /** `.sort({createdAt: -1})`: newest first; the order among equal times is left open. */
  function SortNewestFirst(s: seq<Report>): (r: seq<Report>)
    ensures NewestFirst(r)
    ensures multiset(r) == multiset(s)
  {
    if s == [] then []
    else
      var sorted := SortNewestFirst(s[1..]);
      InsertNewestSorted(s[0], sorted);
      InsertNewestPermutes(s[0], sorted);
      assert s == [s[0]] + s[1..];
      InsertNewest(s[0], sorted)
  }

  function FindOrg(orgs: seq<Organization>, orgId: string): (i: nat)
    ensures i <= |orgs|
    ensures i < |orgs| ==> orgs[i].id == orgId
    ensures i == |orgs| <==> forall j :: 0 <= j < |orgs| ==> orgs[j].id != orgId
  {
    FirstIndex(orgs, (o: Organization) => o.id == orgId)
  }

  /** GET /api/org-reports/:orgId. */
  function OrgReports(orgs: seq<Organization>, reports: seq<Report>, orgId: string): (reply: Reply<seq<Report>>)
    ensures reply.ErrorReply? <==> forall j :: 0 <= j < |orgs| ==> orgs[j].id != orgId
    ensures reply.ErrorReply? ==> reply == ErrorReply(404, "Org not found")
    ensures reply.Reply? ==>
      reply.status == 200 && NewestFirst(reply.body) && multiset(reply.body) == multiset(Filter(reports, (r: Report) => Visible(orgs[FindOrg(orgs, orgId)], r)))
  {
    var i := FindOrg(orgs, orgId);
    if i == |orgs| then ErrorReply(404, "Org not found")
    else Reply(200, SortNewestFirst(Filter(reports, (r: Report) => Visible(orgs[i], r))))
  }

  /** A non-police organization receives exactly the reports of its allowed categories. */
  lemma OrgReportsNonPolice(orgs: seq<Organization>, reports: seq<Report>, k: nat)
    requires k < |orgs| && FindOrg(orgs, orgs[k].id) == k && orgs[k].orgType != Police
    ensures var reply := OrgReports(orgs, reports, orgs[k].id);
      reply.Reply? && forall r :: r in reply.body <==> r in reports && CategoryName(r.category) in orgs[k].allowedCategories
  {
    var reply := OrgReports(orgs, reports, orgs[k].id);
    forall r ensures r in reply.body <==> r in multiset(reply.body) {}
  }

  /** A police organization receives exactly the consented reports of its allowed categories. */
  lemma OrgReportsPolice(orgs: seq<Organization>, reports: seq<Report>, k: nat)
    requires k < |orgs| && FindOrg(orgs, orgs[k].id) == k && orgs[k].orgType == Police
    ensures var reply := OrgReports(orgs, reports, orgs[k].id);
      reply.Reply? && forall r :: r in reply.body <==>
        r in reports && CategoryName(r.category) in orgs[k].allowedCategories && r.contactPolice
  {
    var reply := OrgReports(orgs, reports, orgs[k].id);
    forall r ensures r in reply.body <==> r in multiset(reply.body) {}
  }
}
