/**
 * The responder dashboard: the in-place sort of the fetched reports, the three
 * derived lists, and the rules that decide what each report card shows.
 */
module Dashboard {
  import opened Common
  import opened ReportModel
  import opened OrganizationModel
  import opened Forms
  import Server

  // ---------------------------------------------------------------------------------------------
  // Sorting the fetched reports
  // ---------------------------------------------------------------------------------------------

  /**
   * The comparator's order: `a` may come before `b` when the comparator does not put `b`
   * strictly first, that is priority reports first and, within one tier, newest first.
   */
  predicate RanksNoLater(a: Report, b: Report)
  {
    if a.isPriority == b.isPriority then a.createdAt >= b.createdAt else a.isPriority
  }

  lemma RanksNoLaterTotal(a: Report, b: Report)
    ensures RanksNoLater(a, b) || RanksNoLater(b, a)
  {
  }

  lemma RanksNoLaterTransitive(a: Report, b: Report, c: Report)
    requires RanksNoLater(a, b) && RanksNoLater(b, c)
    ensures RanksNoLater(a, c)
  {
  }

  ghost predicate DashboardOrder(s: seq<Report>)
  {
    forall i, j :: 0 <= i < j < |s| ==> RanksNoLater(s[i], s[j])
  }

  /** A list in dashboard order has every priority report first and is newest first inside each tier. */
  lemma {:induction false} DashboardOrderTiers(s: seq<Report>)
    requires DashboardOrder(s)
    ensures forall i, j :: 0 <= i < j < |s| && s[j].isPriority ==> s[i].isPriority
    ensures forall i, j :: 0 <= i < j < |s| && s[i].isPriority == s[j].isPriority ==> s[i].createdAt >= s[j].createdAt
  {
    forall i, j | 0 <= i < j < |s|
      ensures s[j].isPriority ==> s[i].isPriority
      ensures s[i].isPriority == s[j].isPriority ==> s[i].createdAt >= s[j].createdAt
    {
      assert RanksNoLater(s[i], s[j]);
    }
  }

  /** The first `n` elements are pairwise in dashboard order. */
  ghost predicate OrderedBelow(s: seq<Report>, n: int)
  {
    forall p, q :: 0 <= p < q < n && q < |s| ==> RanksNoLater(s[p], s[q])
  }

  /** `res.data.sort(comparator)`, in place: an insertion sort by adjacent swaps. */
  method SortForDashboard(a: array<Report>)
    modifies a
    ensures DashboardOrder(a[..])
    ensures multiset(a[..]) == multiset(old(a[..]))
  {
    var i := 0;
    while i < a.Length
      invariant 0 <= i <= a.Length
      invariant OrderedBelow(a[..], i)
      invariant multiset(a[..]) == multiset(old(a[..]))
    {
      InsertDown(a, i);
      i := i + 1;
    }
  }

  /** Sinks `a[i]` towards the front until the first `i + 1` elements are in order. */
  method InsertDown(a: array<Report>, i: int)
    requires 0 <= i < a.Length && OrderedBelow(a[..], i)
    modifies a
    ensures OrderedBelow(a[..], i + 1)
    ensures forall m :: i < m < a.Length ==> a[m] == old(a[m])
    ensures multiset(a[..]) == multiset(old(a[..]))
  {
    var j := i;
    while j > 0 && !RanksNoLater(a[j - 1], a[j])
      invariant 0 <= j <= i
      invariant forall p, q :: 0 <= p < q <= i && p != j && q != j ==> RanksNoLater(a[p], a[q])
      invariant forall q :: j < q <= i ==> RanksNoLater(a[j], a[q])
      invariant forall m :: i < m < a.Length ==> a[m] == old(a[m])
      invariant multiset(a[..]) == multiset(old(a[..]))
    {
      RanksNoLaterTotal(a[j - 1], a[j]);
      Swap(a, j);
      j := j - 1;
    }
    forall p | 0 <= p < j
      ensures RanksNoLater(a[p], a[j])
    {
      if p < j - 1 {
        RanksNoLaterTransitive(a[p], a[j - 1], a[j]);
      }
    }
  }

  /** Exchanges `a[k - 1]` and `a[k]`. */
  method Swap(a: array<Report>, k: int)
    requires 0 < k < a.Length
    modifies a
    ensures a[k - 1] == old(a[k]) && a[k] == old(a[k - 1])
    ensures forall m :: 0 <= m < a.Length && m != k - 1 && m != k ==> a[m] == old(a[m])
    ensures multiset(a[..]) == multiset(old(a[..]))
  {
    a[k - 1], a[k] := a[k], a[k - 1];
  }

  // ---------------------------------------------------------------------------------------------
  // Derived lists and tabs
  // ---------------------------------------------------------------------------------------------

  predicate IsActive(r: Report)
  {
    r.status != Resolved
  }

  /** `activeReports`: every report not resolved, in the fetched order. */
  function ActiveReports(reports: seq<Report>): (active: seq<Report>)
    ensures forall r :: r in active <==> r in reports && r.status != Resolved
    ensures forall r :: multiset(active)[r] == if r.status != Resolved then multiset(reports)[r] else 0
    ensures IsSubsequence(active, reports)
  {
    FilterIsSubsequence(reports, IsActive);
    Filter(reports, IsActive)
  }

  /** The `myCases` test: `assignedTo.orgId === org._id`. */
  function AssignedTo(org: Organization): Report -> bool
  {
    (r: Report) => r.assignedTo.orgId == Some(org.id)
  }

  /** The `feedCases` test: `!assignedTo?.orgId`. */
  predicate Unclaimed(r: Report)
  {
    !Truthy(r.assignedTo.orgId)
  }

  /** `myCases`: the active reports assigned to this organization. */
  function MyCases(org: Organization, reports: seq<Report>): (mine: seq<Report>)
    ensures forall r :: r in mine <==> r in ActiveReports(reports) && r.assignedTo.orgId == Some(org.id)
    ensures forall r :: multiset(mine)[r] == if r.assignedTo.orgId == Some(org.id) then multiset(ActiveReports(reports))[r] else 0
    ensures IsSubsequence(mine, ActiveReports(reports))
  {
    FilterIsSubsequence(ActiveReports(reports), AssignedTo(org));
    Filter(ActiveReports(reports), AssignedTo(org))
  }

  /** `feedCases`: the active reports nobody has claimed (no `orgId`, or an empty one). */
  function FeedCases(reports: seq<Report>): (feed: seq<Report>)
    ensures forall r :: r in feed <==> r in ActiveReports(reports) && !Truthy(r.assignedTo.orgId)
    ensures forall r :: multiset(feed)[r] == if !Truthy(r.assignedTo.orgId) then multiset(ActiveReports(reports))[r] else 0
    ensures IsSubsequence(feed, ActiveReports(reports))
  {
    FilterIsSubsequence(ActiveReports(reports), Unclaimed);
    Filter(ActiveReports(reports), Unclaimed)
  }

  /** An organization with a non-empty id never finds one of its cases in the live feed. */
  lemma FeedAndMyCasesDisjoint(org: Organization, reports: seq<Report>, r: Report)
    requires org.id != ""
    ensures !(r in MyCases(org, reports) && r in FeedCases(reports))
  {
  }

  datatype View = Feed | MyCasesView

  /** `displayedReports`. */
  function Displayed(view: View, org: Organization, reports: seq<Report>): (shown: seq<Report>)
    ensures view == MyCasesView ==> shown == MyCases(org, reports)
    ensures view == Feed ==> shown == FeedCases(reports)
  {
    if view == MyCasesView then MyCases(org, reports) else FeedCases(reports)
  }

  /** The numbers in the two tab labels, "Live Feed (n)" and "My Cases (m)". */
  function TabCounts(org: Organization, reports: seq<Report>): (counts: (nat, nat))
    ensures counts.0 == |Displayed(Feed, org, reports)| && counts.1 == |Displayed(MyCasesView, org, reports)|
    ensures org.id != "" ==> counts.0 + counts.1 <= |ActiveReports(reports)|
  {
    assert org.id != "" ==> |FeedCases(reports)| + |MyCases(org, reports)| <= |ActiveReports(reports)| by {
      if org.id != "" {
        FilterExclusiveLength(ActiveReports(reports), Unclaimed, AssignedTo(org));
      }
    }
    (|FeedCases(reports)|, |MyCases(org, reports)|)
  }

  // ---------------------------------------------------------------------------------------------
  // Media classification
  // ---------------------------------------------------------------------------------------------

  datatype MediaKind = ImageMedia | VideoMedia | AudioMedia | FileMedia

  /** `/\.(jpeg|jpg|gif|png|webp)/i`: one of the extensions, preceded by a dot, anywhere in the URL. */
  predicate IsImageUrl(url: string)
  {
    var u := Lower(url);
    Contains(u, ".jpeg") || Contains(u, ".jpg") || Contains(u, ".gif") || Contains(u, ".png") || Contains(u, ".webp")
  }

  /** `/\.(mp4|webm|mov)/i`. */
  predicate IsVideoUrl(url: string)
  {
    var u := Lower(url);
    Contains(u, ".mp4") || Contains(u, ".webm") || Contains(u, ".mov")
  }

  /** `/\.(mp3|wav|m4a|ogg|opus)/i`. */
  predicate IsAudioUrl(url: string)
  {
    var u := Lower(url);
    Contains(u, ".mp3") || Contains(u, ".wav") || Contains(u, ".m4a") || Contains(u, ".ogg") || Contains(u, ".opus")
  }

  /** `renderMedia`: the first test that matches decides, a plain file link otherwise. */
  function ClassifyMedia(url: string): (k: MediaKind)
    ensures k == ImageMedia <==> IsImageUrl(url)
    ensures k == VideoMedia <==> !IsImageUrl(url) && IsVideoUrl(url)
    ensures k == AudioMedia <==> !IsImageUrl(url) && !IsVideoUrl(url) && IsAudioUrl(url)
    ensures k == FileMedia <==> !IsImageUrl(url) && !IsVideoUrl(url) && !IsAudioUrl(url)
  {
    if IsImageUrl(url) then ImageMedia
    else if IsVideoUrl(url) then VideoMedia
    else if IsAudioUrl(url) then AudioMedia
    else FileMedia
  }

  lemma LowerIdempotent(s: string)
    ensures Lower(Lower(s)) == Lower(s)
  {
  }

  /** Letter case plays no part in the classification. */
  lemma {:induction false} ClassifyIgnoresCase(url: string)
    ensures ClassifyMedia(Lower(url)) == ClassifyMedia(url)
  {
    LowerIdempotent(url);
  }

  lemma LowerConcat(a: string, b: string, c: string)
    ensures Lower(a + b + c) == Lower(a) + Lower(b) + Lower(c)
  {
  }

  /** An image extension anywhere wins, whatever surrounds it (even a video extension). */
  lemma {:induction false} ImageExtensionAnywhereWins(before: string, url: string, after: string)
    requires IsImageUrl(url)
    ensures ClassifyMedia(before + url + after) == ImageMedia
  {
    var u := Lower(url);
    LowerConcat(before, url, after);
    assert Lower(before + url + after) == Lower(before) + u + Lower(after);
    var e := if Contains(u, ".jpeg") then ".jpeg" else if Contains(u, ".jpg") then ".jpg"
             else if Contains(u, ".gif") then ".gif" else if Contains(u, ".png") then ".png" else ".webp";
    ContainsExtend(u, e, Lower(before), Lower(after));
  }

  /** A concrete URL naming both a video and an image extension is shown as an image. */
  lemma MixedExtensionsShowAsImage()
    ensures ClassifyMedia("clip.MP4.thumb.png") == ImageMedia
  {
    var url := "clip.MP4.thumb.png";
    assert OccursAt(Lower(url), ".png", 14);
  }

  // ---------------------------------------------------------------------------------------------
  // The location cell
  // ---------------------------------------------------------------------------------------------

  /**
   * The location cell. Only `lat` is compared with 0: a missing location passes the
   * `?.lat !== 0` test and then fails while the link is built (`MissingLocation`).
   */
  datatype GpsCell = MapLink(lat: real, lng: real) | NoGps | MissingLocation

  function GpsCellFor(location: Option<Location>): (c: GpsCell)
    ensures c.MapLink? <==> location.Some? && location.value.lat != 0.0
    ensures c.MapLink? ==> c.lat == location.value.lat && c.lng == location.value.lng
    ensures c == NoGps <==> location.Some? && location.value.lat == 0.0
    ensures c == MissingLocation <==> location.None?
  {
    match location
    case None => MissingLocation
    case Some(l) => if l.lat != 0.0 then MapLink(l.lat, l.lng) else NoGps
  }

  /** Every report saved by the submit route renders a location cell; without a location it shows "No GPS". */
  lemma {:induction false} SubmittedReportGpsCell(store: seq<Report>, sub: Server.Submission, id: string, now: int)
    requires Server.SubmitReport(store, sub, id, now).0.Reply?
    ensures var r := Server.SubmitReport(store, sub, id, now).0.body;
      GpsCellFor(r.location) != MissingLocation
      && (sub.location.None? ==> GpsCellFor(r.location) == NoGps)
  {
    Server.SubmittedReportContents(store, sub, id, now);
  }

  // ---------------------------------------------------------------------------------------------
  // The contact panel
  // ---------------------------------------------------------------------------------------------

  datatype TimeCell = Asap | SafeTime(text: string) | NoTimeSpecified

  /**
   * The contact request panel: the method and value line, whether it is drawn as urgent,
   * the preferred-time cell, and the voicemail answer (a row present for PHONE only).
   */
  datatype ContactPanel = ContactPanel(contactMethod: ContactMethod, value: Option<string>, urgent: bool,
                                       time: TimeCell, voicemailSafe: Option<bool>)

  function ContactPanelFor(info: Option<ContactInfo>): (p: Option<ContactPanel>)
    ensures p.Some? <==> info.Some? && info.value.contactMethod != NoContact
    ensures p.Some? ==> p.value.contactMethod == info.value.contactMethod && p.value.value == info.value.value
    ensures p.Some? ==> (p.value.urgent <==> info.value.immediateHelp == Some(true))
    ensures p.Some? ==> (p.value.voicemailSafe.Some? <==> info.value.contactMethod == Phone)
    ensures p.Some? && p.value.voicemailSafe.Some? ==>
      (p.value.voicemailSafe.value <==> info.value.safeToVoicemail == Some(true))
    ensures p.Some? ==> (p.value.time == Asap <==> info.value.immediateHelp == Some(true))
    ensures p.Some? && info.value.immediateHelp != Some(true) ==>
      p.value.time == (if Truthy(info.value.safeTime) then SafeTime(info.value.safeTime.value) else NoTimeSpecified)
  {
    match info
    case None => None
    case Some(ci) =>
      if ci.contactMethod == NoContact then None
      else
        var urgent := ci.immediateHelp == Some(true);
        Some(ContactPanel(
          contactMethod := ci.contactMethod,
          value := ci.value,
          urgent := urgent,
          time := if urgent then Asap else if Truthy(ci.safeTime) then SafeTime(ci.safeTime.value) else NoTimeSpecified,
          voicemailSafe := if ci.contactMethod == Phone then Some(ci.safeToVoicemail == Some(true)) else None))
  }

  /** The submit route never copies contact details, so its reports show no contact panel. */
  lemma {:induction false} SubmittedReportHasNoContactPanel(store: seq<Report>, sub: Server.Submission, id: string, now: int)
    requires Server.SubmitReport(store, sub, id, now).0.Reply?
    ensures ContactPanelFor(Server.SubmitReport(store, sub, id, now).0.body.contactInfo).None?
  {
    Server.SubmittedReportContents(store, sub, id, now);
  }

  // ---------------------------------------------------------------------------------------------
  // Action buttons
  // ---------------------------------------------------------------------------------------------

  datatype Action = Claim | Escalate | NotifyPolice | MarkResolved

  /** The buttons in a report card's footer, left to right. */
  function ActionsFor(view: View, r: Report): (acts: seq<Action>)
    ensures view == Feed ==> acts == [Claim]
    ensures view == MyCasesView ==>
      && (Escalate in acts <==> !r.isEscalated)
      && (NotifyPolice in acts <==> !r.contactPolice)
      && MarkResolved in acts && Claim !in acts
      && acts[|acts| - 1] == MarkResolved
    ensures forall i, j :: 0 <= i < j < |acts| ==> acts[i] != acts[j]
  {
    if view == Feed then [Claim]
    else
      (if !r.isEscalated then [Escalate] else [])
      + (if !r.contactPolice then [NotifyPolice] else [])
      + [MarkResolved]
  }

  /** What pressing a button sends (after the confirmation prompt), or the form it opens. */
  datatype Request =
    | ClaimRequest(reportId: string, orgId: string, orgName: string)
    | EscalateRequest(reportId: string)
    | OpenResolutionForm(reportId: string)

  function RequestFor(a: Action, org: Organization, r: Report): (req: Request)
    ensures req == ClaimRequest(r.id, org.id, org.name) <==> a == Claim
    ensures req == EscalateRequest(r.id) <==> a == Escalate || a == NotifyPolice
    ensures req == OpenResolutionForm(r.id) <==> a == MarkResolved
  {
    match a
    case Claim => ClaimRequest(r.id, org.id, org.name)
    case Escalate => EscalateRequest(r.id)
    case NotifyPolice => EscalateRequest(r.id)
    case MarkResolved => OpenResolutionForm(r.id)
  }

  /** The resolution form body: `orgName`, `notes`, then one `proof` part per chosen file. */
  function ResolutionParts(orgName: string, notes: string, proof: seq<LocalFile>): (parts: seq<Part>)
    ensures |parts| == 2 + |proof|
    ensures parts[0] == Part("orgName", Text(orgName)) && parts[1] == Part("notes", Text(notes))
    ensures forall i :: 0 <= i < |proof| ==> parts[2 + i] == Part("proof", Blob(proof[i]))
  {
    [Part("orgName", Text(orgName)), Part("notes", Text(notes))] + Blobs("proof", proof)
  }

  /** `submitResolution`: fills the form body by repeated appends. */
  method EncodeResolution(orgName: string, notes: string, proof: seq<LocalFile>) returns (data: seq<Part>)
    ensures data == ResolutionParts(orgName, notes, proof)
  {
    data := [];
    data := data + [Part("orgName", Text(orgName))];
    data := data + [Part("notes", Text(notes))];
    var i := 0;
    while i < |proof|
      invariant 0 <= i <= |proof|
      invariant data == [Part("orgName", Text(orgName)), Part("notes", Text(notes))] + Blobs("proof", proof[..i])
    {
      assert Blobs("proof", proof[..i + 1]) == Blobs("proof", proof[..i]) + [Part("proof", Blob(proof[i]))];
      data := data + [Part("proof", Blob(proof[i]))];
      i := i + 1;
    }
    assert proof[..i] == proof;
  }
}
