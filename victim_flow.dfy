/**
 * The victim-facing flow: the three screens (category, form, confirmation), the
 * language switch, and the multipart body of a report together with what the
 * submit route makes of it.
 */
module VictimFlow {
  import opened Common
  import opened ReportModel
  import opened Forms
  import Server

  // ---------------------------------------------------------------------------------------------
  // The step machine
  // ---------------------------------------------------------------------------------------------

  /** The three screens: category choice, report form, confirmation with safety advice. */
  datatype Step = ChooseCategory | FillForm | Confirmation

  datatype Lang = En | Fr

  datatype FlowState = FlowState(step: Step, category: Option<string>, isSubmitting: bool, lang: Lang)

  /**
   * What can happen: the three buttons of the screens, the start of a submission,
   * the answer to it (`ok` when the post succeeded), and the language button.
   */
  datatype Event =
    | SelectCategory(cat: string)
    | Back
    | SubmitStarted
    | SubmitFinished(ok: bool)
    | NewReport
    | ToggleLang

  function InitialFlow(): (s: FlowState)
    ensures s.step == ChooseCategory && s.category.None? && !s.isSubmitting && s.lang == En
  {
    FlowState(ChooseCategory, None, false, En)
  }

  function Flip(l: Lang): (m: Lang)
    ensures m != l
  {
    if l == En then Fr else En
  }

  /** The language button swaps en and fr; pressing it twice changes nothing. */
  lemma FlipTwice(l: Lang)
    ensures Flip(Flip(l)) == l
  {
  }

  /**
   * One event. A button that is not on the current screen cannot be pressed, so its
   * event changes nothing, and an answer arrives only while a submission is running.
   */
  function Next(s: FlowState, e: Event): (t: FlowState)
    ensures e.SelectCategory? && s.step == ChooseCategory ==> t == s.(step := FillForm, category := Some(e.cat))
    ensures e == Back && s.step == FillForm ==> t == s.(step := ChooseCategory)
    ensures e == SubmitStarted && s.step == FillForm ==> t == s.(isSubmitting := true)
    ensures e.SubmitFinished? && s.isSubmitting ==>
      t == s.(step := if e.ok then Confirmation else s.step, isSubmitting := false)
    ensures e == NewReport && s.step == Confirmation ==> t == s.(step := ChooseCategory, category := None)
    ensures e == ToggleLang ==> t == s.(lang := Flip(s.lang))
    ensures t.step == Confirmation && s.step != Confirmation ==> e == SubmitFinished(true) && s.isSubmitting
  {
    match e
    case SelectCategory(cat) => if s.step == ChooseCategory then s.(step := FillForm, category := Some(cat)) else s
    case Back => if s.step == FillForm then s.(step := ChooseCategory) else s
    case SubmitStarted => if s.step == FillForm then s.(isSubmitting := true) else s
    case SubmitFinished(ok) =>
      if s.isSubmitting then s.(step := if ok then Confirmation else s.step, isSubmitting := false) else s
    case NewReport => if s.step == Confirmation then s.(step := ChooseCategory, category := None) else s
    case ToggleLang => s.(lang := Flip(s.lang))
  }

  /** A failed post leaves the form on screen, and the submit flag is cleared either way. */
  lemma {:induction false} FailedSubmitStaysOnForm(s: FlowState)
    requires s.step == FillForm && s.isSubmitting
    ensures Next(s, SubmitFinished(false)) == s.(isSubmitting := false)
    ensures Next(s, SubmitFinished(true)) == s.(step := Confirmation, isSubmitting := false)
  {
  }

  /**
   * What holds in every reachable state: past the first screen, and while a submission
   * runs, a category has been chosen; the confirmation screen is never submitting.
   */
  predicate FlowInvariant(s: FlowState)
  {
    && (s.step != ChooseCategory ==> s.category.Some?)
    && (s.isSubmitting ==> s.category.Some?)
    && (s.step == Confirmation ==> !s.isSubmitting)
  }

  lemma InitialFlowInvariant()
    ensures FlowInvariant(InitialFlow())
  {
  }

  lemma {:induction false} NextKeepsInvariant(s: FlowState, e: Event)
    requires FlowInvariant(s)
    ensures FlowInvariant(Next(s, e))
  {
  }

  /** The state after a sequence of events. */
  function Run(s: FlowState, es: seq<Event>): (t: FlowState)
    decreases |es|
  {
    if es == [] then s else Run(Next(s, es[0]), es[1..])
  }

  /** From the start, any sequence of events keeps the invariant. */
  lemma {:induction false} RunKeepsInvariant(s: FlowState, es: seq<Event>)
    requires FlowInvariant(s)
    ensures FlowInvariant(Run(s, es))
    decreases |es|
  {
    if es != [] {
      NextKeepsInvariant(s, es[0]);
      RunKeepsInvariant(Next(s, es[0]), es[1..]);
    }
  }

  // ---------------------------------------------------------------------------------------------
  // The report body
  // ---------------------------------------------------------------------------------------------

  /** `formData.append("category", selectedCategory)`: a null category is sent as the text "null". */
  function CategoryText(category: Option<string>): (t: string)
    ensures category.Some? ==> t == category.value
    ensures category.None? ==> t == "null"
  {
    if category.Some? then category.value else "null"
  }

  /**
   * The multipart body of `handleSubmit`: category, description, consent, location
   * (the "Not provided" one when missing), contact data (`{}` when missing, here `None`),
   * then one `evidence` part per file.
   */
  function ReportParts(category: Option<string>, description: string, consent: bool,
                       location: Option<Location>, contact: Option<ContactInfo>,
                       files: Option<seq<LocalFile>>): (parts: seq<Part>)
    ensures |parts| >= 5
    ensures parts[0] == Part("category", Text(CategoryText(category)))
    ensures parts[1] == Part("description", Text(description))
    ensures parts[2] == Part("contactPolice", Text(BoolText(consent)))
    ensures parts[3] == Part("location", LocationJson(if location.Some? then location.value else NotProvidedLocation()))
    ensures parts[4] == Part("contactInfo", ContactJson(contact))
    ensures parts[5..] == if files.Some? && |files.value| > 0 then Blobs("evidence", files.value) else []
  {
    [Part("category", Text(CategoryText(category))),
     Part("description", Text(description)),
     Part("contactPolice", Text(BoolText(consent))),
     Part("location", LocationJson(if location.Some? then location.value else NotProvidedLocation())),
     Part("contactInfo", ContactJson(contact))]
    + (if files.Some? && |files.value| > 0 then Blobs("evidence", files.value) else [])
  }

  /** Fills the body by successive appends, the files by a loop. */
  method EncodeReport(category: Option<string>, description: string, consent: bool,
                      location: Option<Location>, contact: Option<ContactInfo>,
                      files: Option<seq<LocalFile>>) returns (data: seq<Part>)
    ensures data == ReportParts(category, description, consent, location, contact, files)
  {
    data := [Part("category", Text(CategoryText(category)))];
    data := data + [Part("description", Text(description))];
    data := data + [Part("contactPolice", Text(BoolText(consent)))];
    var loc := if location.Some? then location.value else NotProvidedLocation();
    data := data + [Part("location", LocationJson(loc))];
    data := data + [Part("contactInfo", ContactJson(contact))];
    ghost var expected := ReportParts(category, description, consent, location, contact, files);
    assert data == expected[..5];
    if files.Some? && |files.value| > 0 {
      var fs := files.value;
      ghost var head := data;
      var i := 0;
      while i < |fs|
        invariant 0 <= i <= |fs|
        invariant data == head + Blobs("evidence", fs)[..i]
      {
        assert Blobs("evidence", fs)[..i + 1] == Blobs("evidence", fs)[..i] + [Part("evidence", Blob(fs[i]))];
        data := data + [Part("evidence", Blob(fs[i]))];
        i := i + 1;
      }
      assert Blobs("evidence", fs)[..|fs|] == Blobs("evidence", fs);
    }
    assert expected == expected[..5] + expected[5..];
  }

  // ---------------------------------------------------------------------------------------------
  // What the submit route receives
  // ---------------------------------------------------------------------------------------------

  function KeyIs(key: string): Part -> bool
  {
    (p: Part) => p.key == key
  }

  /**
   * The position of the first part under `key` (`|parts|` when there is none). A field is read
   * from it; every body the form builds has one part per text key, so that part is the field's value.
   */
  function FirstPart(parts: seq<Part>, key: string): (i: nat)
    ensures i <= |parts|
    ensures i < |parts| ==> parts[i].key == key
    ensures forall j :: 0 <= j < i ==> parts[j].key != key
  {
    FirstIndex(parts, KeyIs(key))
  }

  /** The text of the first part under `key`, as it appears in the request body. */
  function TextField(parts: seq<Part>, key: string): Option<string>
  {
    var i := FirstPart(parts, key);
    if i < |parts| && parts[i].value.Text? then Some(parts[i].value.text) else None
  }

  /** The parsed `location` part. */
  function LocationField(parts: seq<Part>): Option<Location>
  {
    var i := FirstPart(parts, "location");
    if i < |parts| && parts[i].value.LocationJson? then Some(parts[i].value.location) else None
  }

  /** The parsed `contactInfo` part. */
  function ContactField(parts: seq<Part>): Option<ContactInfo>
  {
    var i := FirstPart(parts, "contactInfo");
    if i < |parts| && parts[i].value.ContactJson? then parts[i].value.contact else None
  }

  /** The files sent under `evidence`, in order. */
  function EvidenceFiles(parts: seq<Part>): (fs: seq<LocalFile>)
    ensures |fs| <= |parts|
  {
    if parts == [] then []
    else (if parts[0].key == "evidence" && parts[0].value.Blob? then [parts[0].value.file] else [])
         + EvidenceFiles(parts[1..])
  }

  lemma {:induction false} EvidenceOfBlobs(fs: seq<LocalFile>)
    ensures EvidenceFiles(Blobs("evidence", fs)) == fs
  {
    if fs != [] {
      assert Blobs("evidence", fs)[1..] == Blobs("evidence", fs[1..]);
      EvidenceOfBlobs(fs[1..]);
    }
  }

  /**
   * The request as the submit route sees it: the text and JSON fields, and the evidence
   * files after the upload service has stored each of them (`store`).
   */
  function Received(parts: seq<Part>, store: LocalFile -> Server.UploadedFile): (sub: Server.Submission)
    ensures sub.files.Some? && |sub.files.value| == |EvidenceFiles(parts)|
    ensures forall i :: 0 <= i < |EvidenceFiles(parts)| ==> sub.files.value[i] == store(EvidenceFiles(parts)[i])
  {
    var fs := EvidenceFiles(parts);
    Server.Submission(
      category := TextField(parts, "category"),
      description := TextField(parts, "description"),
      contactPolice := TextField(parts, "contactPolice"),
      location := LocationField(parts),
      contactInfo := ContactField(parts),
      files := Some(seq(|fs|, i requires 0 <= i < |fs| => store(fs[i]))))
  }

  /** The submission decoded from a report body built by the form. */
  lemma {:induction false} ReceivedReport(category: Option<string>, description: string, consent: bool,
                                          location: Option<Location>, contact: Option<ContactInfo>,
                                          files: Option<seq<LocalFile>>, store: LocalFile -> Server.UploadedFile)
    ensures var sub := Received(ReportParts(category, description, consent, location, contact, files), store);
      && sub.category == Some(CategoryText(category))
      && sub.description == Some(description)
      && sub.contactPolice == Some(BoolText(consent))
      && sub.location == Some(if location.Some? then location.value else NotProvidedLocation())
      && sub.contactInfo == contact
      && sub.files.Some?
      && |sub.files.value| == (if files.Some? then |files.value| else 0)
      && forall i :: 0 <= i < |sub.files.value| ==> sub.files.value[i] == store(files.value[i])
  {
    var parts := ReportParts(category, description, consent, location, contact, files);
    ReportHeadFields(parts);
    ReportEvidence(category, description, consent, location, contact, files);
  }

  /** Each of the five leading parts is the first one under its key. */
  lemma ReportHeadFields(parts: seq<Part>)
    requires |parts| >= 5
    requires parts[0].key == "category" && parts[1].key == "description" && parts[2].key == "contactPolice"
    requires parts[3].key == "location" && parts[4].key == "contactInfo"
    ensures FirstPart(parts, "category") == 0 && FirstPart(parts, "description") == 1
    ensures FirstPart(parts, "contactPolice") == 2 && FirstPart(parts, "location") == 3
    ensures FirstPart(parts, "contactInfo") == 4
  {
  }

  /** The evidence files of a report body are the files chosen, in order. */
  lemma {:induction false} ReportEvidence(category: Option<string>, description: string, consent: bool,
                                          location: Option<Location>, contact: Option<ContactInfo>,
                                          files: Option<seq<LocalFile>>)
    ensures EvidenceFiles(ReportParts(category, description, consent, location, contact, files))
         == if files.Some? then files.value else []
  {
    var parts := ReportParts(category, description, consent, location, contact, files);
    var head := parts[..5];
    assert parts == head + parts[5..];
    NoEvidence(head);
    EvidenceFilesAppend(head, parts[5..]);
    if files.Some? && |files.value| > 0 {
      EvidenceOfBlobs(files.value);
    }
  }

  lemma {:induction false} NoEvidence(parts: seq<Part>)
    requires forall i :: 0 <= i < |parts| ==> parts[i].key != "evidence"
    ensures EvidenceFiles(parts) == []
  {
    if parts != [] {
      NoEvidence(parts[1..]);
    }
  }

  lemma {:induction false} EvidenceFilesAppend(a: seq<Part>, b: seq<Part>)
    ensures EvidenceFiles(a + b) == EvidenceFiles(a) + EvidenceFiles(b)
  {
    if a == [] {
      assert a + b == b;
    } else {
      assert (a + b)[0] == a[0];
      assert (a + b)[1..] == a[1..] + b;
      EvidenceFilesAppend(a[1..], b);
    }
  }

  /**
   * The consent round trip and the rest of what gets stored: a report sent from the form
   * with a schema category is saved, with `contactPolice` equal to the consent given, the
   * description as typed, one media URL per file, and none of the contact data.
   */
  lemma {:induction false} SubmitRoundTrip(reports: seq<Report>, cat: string, description: string, consent: bool,
                                           location: Option<Location>, contact: Option<ContactInfo>,
                                           files: Option<seq<LocalFile>>, store: LocalFile -> Server.UploadedFile,
                                           id: string, now: int)
    requires cat in CategoryEnum()
    ensures var sub := Received(ReportParts(Some(cat), description, consent, location, contact, files), store);
      var out := Server.SubmitReport(reports, sub, id, now);
      && out.0.Reply? && out.0.status == 201 && out.1 == reports + [out.0.body]
      && CategoryName(out.0.body.category) == cat
      && out.0.body.contactPolice == consent
      && out.0.body.description == description
      && out.0.body.location == Some(if location.Some? then location.value else NotProvidedLocation())
      && |out.0.body.media| == (if files.Some? then |files.value| else 0)
      && (forall i :: 0 <= i < |out.0.body.media| ==> out.0.body.media[i] == Server.FileUrl(store(files.value[i])))
      && out.0.body.contactInfo == Some(DefaultContactInfo())
  {
    var sub := Received(ReportParts(Some(cat), description, consent, location, contact, files), store);
    ReceivedReport(Some(cat), description, consent, location, contact, files, store);
    Server.SubmittedReportContents(reports, sub, id, now);
  }

  /** A report sent before any category was chosen carries "null" and is refused with a 500. */
  lemma {:induction false} NullCategoryRefused(reports: seq<Report>, description: string, consent: bool,
                                               location: Option<Location>, contact: Option<ContactInfo>,
                                               files: Option<seq<LocalFile>>, store: LocalFile -> Server.UploadedFile,
                                               id: string, now: int)
    ensures var sub := Received(ReportParts(None, description, consent, location, contact, files), store);
      Server.SubmitReport(reports, sub, id, now) == (Server.ErrorReply(500, "Error saving report"), reports)
  {
    ReportHeadFields(ReportParts(None, description, consent, location, contact, files));
  }
}
