# Cry-Out in Dafny

Cry-Out is an anonymous incident-reporting application. A victim picks a category, fills in a report (description, optional GPS location, optional contact request, evidence files, consent to involve the police) and receives category-specific safety advice. Responder organizations (police, shelters, clinics, community centres, legal aid) register, log in with an access code and work through the reports visible to them on a dashboard. A super admin approves, rejects and deletes organizations and edits the categories each one may see.

This project models the decision rules at the core of that system and proves what they promise:

- `ReportModel`, `OrganizationModel`: the two Mongoose schemas. They give the closed enumerations, the defaults applied on creation, the required fields and the unique access code. The record constructors return either a document or the validation error.
- `Server`: the Express handlers, written as functions over a store sequence.
  - Report submission decodes the request into the stored report.
  - Login looks an organization up by access code.
  - The per-organization report feed is a category/police filter built by a method, then a newest-first sort.
- `Forms`: the key/value parts of a multipart form body.
- `VictimFlow`: the victim's three-step screen machine and the client's report encoding. It also proves the round trip from the client's encoding through the server's decoder to the stored report.
- `Dashboard`: the responder dashboard.
  - the priority-then-newest sort, done in place on an array
  - the active / feed / my-cases lists and the tab counts
  - media classification by file extension
  - the GPS cell, the contact panel and the action buttons with the requests they send
  - the resolution form encoding
- `Heatmap`: the markers drawn on the responder map and their styling.
- `SuperAdmin`: status tabs, the moves offered per tab, and the category editor.
- `Dropdown`: the searchable dropdown's filter, open/search state and selection.
- `Register`: the organization registration form.
  - the country list: normalised, sorted, with a fallback
  - field updates, document add and remove
  - the multipart encoding on submit, and the outcome
- `SafetyAdvice`: the category-to-advice table and its numbered steps.
- `Common`: list and string helpers shared by the modules above. These are `filter`, subsequences, ASCII lower-casing, substring search, `findIndex`-style search and `a || b || c` on strings.

Nothing external is modelled directly. These inputs become parameters instead:

- the database (a sequence of documents)
- the upload service, which turns a local file into a stored file record (the `store` function)
- the clock (`now`)
- document ids
- whether the country fetch or a request succeeded

## Model

| member | source | states |
|---|---|---|
| ReportModel.CategoryEnum | server/models/Report.js:7-13 | the category enum has exactly five names and contains the name of every category |
| ReportModel.ParseCategory | server/models/Report.js:4-14 | a string is accepted as a category iff it is one of the five enum values, and the accepted value names exactly that string |
| ReportModel.ParseCategoryName | server/models/Report.js:7-13 | parsing a category's name gives back that category |
| ReportModel.ParseStatus | server/models/Report.js:31-35 | a status is accepted iff it is "Pending", "In Progress" or "Resolved", and maps back to the same string |
| ReportModel.ParseContactMethod | server/models/Report.js:54 | a contact method is accepted iff it is PHONE, EMAIL or NONE, and maps back to the same string |
| ReportModel.NotProvidedLocation | server/index.js:61 | the substitute location is lat 0, lng 0, address "Not provided" |
| ReportModel.DefaultContactInfo | server/models/Report.js:53-59 | a new report's contact sub-document has method NONE |
| ReportModel.NewReport | server/models/Report.js:3-62 | creation succeeds iff a category is given and is in the enum; a missing or empty category fails with "required"; a new report stores that category with status Pending, no assignee, not priority, not escalated, contactPolice only when given as true, the default description only when none is given, the given media and location, no resolution proof, contact method NONE, and createdAt the creation time |
| OrganizationModel.ParseOrgType | server/models/Organization.js:6-10 | an org type is accepted iff it is POLICE, SHELTER, MEDICAL, COMMUNITY or LEGAL, and maps back to the same string |
| OrganizationModel.ParseOrgStatus | server/models/Organization.js:24-28 | an org status is accepted iff it is PENDING, APPROVED or REJECTED, and maps back to the same string |
| OrganizationModel.RequiredErrors | server/models/Organization.js:5 | a required field has no error iff it holds a non-empty string |
| OrganizationModel.TypeErrors | server/models/Organization.js:6-10 | the type has no error iff it is present, non-empty and one of the five org types |
| OrganizationModel.StatusErrors | server/models/Organization.js:24-28 | the status has no error iff it is absent (the default applies) or one of the three statuses |
| OrganizationModel.ValidationErrors | server/models/Organization.js:3-28 | a "required" error is reported for name, accessCode and type exactly when that field is missing or empty |
| OrganizationModel.NewOrganization | server/models/Organization.js:3-33 | creation succeeds iff validation reports no error; a created organization is valid, stores the given name, access code and type, has status PENDING unless one was given, and keeps the given lists, creation time and id |
| OrganizationModel.Insert | server/models/Organization.js:21 | an insert succeeds iff no stored organization has the same access code; success appends it and a duplicate reports that code |
| OrganizationModel.Create | server/models/Organization.js:3-33 | registration succeeds iff validation passes and the code is not taken; a failure leaves the store unchanged and a success appends the new organization |
| OrganizationModel.InsertKeepsCodesUnique | server/models/Organization.js:21 | a successful insert keeps the access codes of the store pairwise distinct |
| OrganizationModel.SecondRegistrationFails | server/models/Organization.js:21 | registering a second organization with an access code already registered fails and leaves the store as the first registration left it |
| Server.FileUrl | server/index.js:66 | a file's URL is the first non-empty of path, secure_url and url, and is empty only when all three are |
| Server.MediaUrls | server/index.js:65-67 | no upload gives no media; otherwise there is one URL per uploaded file, in upload order |
| Server.DecodeConsent | server/index.js:58 | consent is true iff the submitted field is exactly the string "true" |
| Server.ReportData | server/index.js:55-69 | the record passed to the schema takes category and description as sent, contactPolice decoded from "true", the sent location or the "Not provided" location, and the media URLs; nothing else is copied |
| Server.SubmitReport | server/index.js:46-84 | a submission is answered 201 and appended to the store iff it passes schema validation; otherwise it gets 500 "Error saving report" and the store is unchanged |
| Server.SubmittedReportContents | server/index.js:55-77 | a saved report has the submitted category, status Pending, no assignee, no priority or escalation, consent iff "true" was sent, the sent or default location, the uploaded media, contact method NONE even when contact data was sent, and the sent description or the default one |
| Server.Login | server/index.js:87-92 | login answers 200 with a stored organization that has the submitted code, and 401 "Invalid Access Code" iff no organization has it |
| Server.LoginIgnoresStatus | server/index.js:89-92 | with unique codes, every stored organization logs in with its own code whatever its status, PENDING and REJECTED included |
| Server.BuildQuery | server/index.js:103-104 | the query restricts categories to the org's allowed list, and a report matches iff its category is allowed and, for a POLICE org, contactPolice is true |
| Server.NewestFirstPairwise | server/index.js:106 | in a newest-first list every earlier report is at least as recent as every later one |
| Server.InsertNewestPermutes | server/index.js:106 | inserting a report into a list adds exactly that report to its multiset |
| Server.InsertNewestSorted | server/index.js:106 | inserting into a newest-first list keeps it newest-first |
| Server.SortNewestFirst | server/index.js:106 | the sorted list is newest-first and a permutation of the input |
| Server.FindOrg | server/index.js:100 | the lookup returns the position of an organization with the id, or the end of the list iff none has it |
| Server.OrgReports | server/index.js:98-107 | an unknown org id gets 404 "Org not found" and no list; a known one gets 200 with a newest-first permutation of the reports visible to that org |
| Server.OrgReportsNonPolice | server/index.js:103-106 | for a non-POLICE org the result is a permutation of exactly the reports whose category it allows |
| Server.OrgReportsPolice | server/index.js:103-106 | for a POLICE org the result is a permutation of exactly the reports whose category it allows and that have contactPolice true |
| Forms.BoolText | client/src/App.jsx:43 | a boolean appended to a form is sent as "true" exactly when it is true |
| Forms.Blobs | client/src/App.jsx:52-55 | appending files under a key gives one part per file, in order |
| VictimFlow.InitialFlow | client/src/App.jsx:20-26 | the flow starts at category choice with no category, not submitting, in English |
| VictimFlow.Flip | client/src/App.jsx:85 | the language toggle always changes the language |
| VictimFlow.FlipTwice | client/src/App.jsx:85 | toggling the language twice restores it |
| VictimFlow.Next | client/src/App.jsx:102-152 | selecting a category on step 1 stores it and goes to step 2; Back returns to step 1; a submit on step 2 sets submitting; a finished submit clears submitting and moves to step 3 only on success; New Report on step 3 returns to step 1 with no category; step 3 is reached only by a successful submit |
| VictimFlow.FailedSubmitStaysOnForm | client/src/App.jsx:57-69 | a failed submit stays on the form with submitting cleared, and a successful one shows the confirmation with submitting cleared |
| VictimFlow.InitialFlowInvariant | client/src/App.jsx:20-26 | the initial state satisfies the flow invariant: past step 1 and while submitting a category is held, and the confirmation is never submitting |
| VictimFlow.NextKeepsInvariant | client/src/App.jsx:102-152 | every event preserves the flow invariant |
| VictimFlow.RunKeepsInvariant | client/src/App.jsx:102-152 | every sequence of events preserves the flow invariant |
| VictimFlow.CategoryText | client/src/App.jsx:41 | the category is sent as typed, and a null category is sent as the text "null" |
| VictimFlow.ReportParts | client/src/App.jsx:40-55 | the form body is category, description, contactPolice as "true"/"false", the location or the "Not provided" one, the contact data, then one evidence part per file in order only when there are files |
| VictimFlow.EncodeReport | client/src/App.jsx:40-55 | the appends build exactly that form body |
| VictimFlow.FirstPart | server/index.js:56-59 | a field is read from the first part with its key; in every body the form builds that is the only part with the key |
| VictimFlow.EvidenceOfBlobs | server/index.js:46 | the evidence parts of an encoded file list are exactly those files, in order |
| VictimFlow.Received | server/index.js:46 | the server receives one stored file per evidence part, in order, each the upload service's record for that file |
| VictimFlow.ReportHeadFields | client/src/App.jsx:41-50 | in the encoded body each of the five text fields is read from its own position |
| VictimFlow.ReportEvidence | client/src/App.jsx:52-55 | the evidence read from the encoded body is exactly the files chosen, or none |
| VictimFlow.ReceivedReport | client/src/App.jsx:40-55 | what the server reads from the encoded body is the category text, the description, the consent text, the sent location, and one upload per chosen file |
| VictimFlow.SubmitRoundTrip | client/src/App.jsx:40-58 | a report submitted with an enum category is saved with that category, consent exactly as chosen, the chosen location or the "Not provided" one, one media URL per evidence file in order (the URL of that file's upload), contact method NONE, and the description as typed |
| VictimFlow.NullCategoryRefused | client/src/App.jsx:41 | a submit with no category sends "null", which the schema refuses, so the server answers 500 and stores nothing |
| Dashboard.RanksNoLaterTotal | client/src/components/AdminDashboard.jsx:46-50 | the dashboard comparator orders any two reports one way or the other |
| Dashboard.RanksNoLaterTransitive | client/src/components/AdminDashboard.jsx:46-50 | the dashboard comparator is transitive |
| Dashboard.DashboardOrderTiers | client/src/components/AdminDashboard.jsx:45-50 | in dashboard order every priority report precedes every non-priority one, and within a tier createdAt is non-increasing |
| Dashboard.SortForDashboard | client/src/components/AdminDashboard.jsx:46-50 | sorting the fetched array in place leaves it in dashboard order and a permutation of what it held |
| Dashboard.InsertDown | client/src/components/AdminDashboard.jsx:46-50 | one insertion step extends the sorted prefix by one element, permuting the array and leaving the rest alone |
| Dashboard.ActiveReports | client/src/components/AdminDashboard.jsx:169 | the active reports are exactly those not Resolved, each with all its copies, in their original order |
| Dashboard.MyCases | client/src/components/AdminDashboard.jsx:170 | my cases are exactly the active reports assigned to the org's id, each with all its copies, in order |
| Dashboard.FeedCases | client/src/components/AdminDashboard.jsx:171 | the feed is exactly the active reports with no assignee id, each with all its copies, in order |
| Dashboard.FeedAndMyCasesDisjoint | client/src/components/AdminDashboard.jsx:170-171 | for a non-empty org id no report is in both the feed and my cases |
| Dashboard.Displayed | client/src/components/AdminDashboard.jsx:172 | the MY_CASES view shows my cases and the feed view shows the feed |
| Dashboard.TabCounts | client/src/components/AdminDashboard.jsx:281-291 | the tab labels count the lists each tab shows, and together count at most the active reports |
| Dashboard.ClassifyMedia | client/src/components/AdminDashboard.jsx:111-165 | a URL is an image iff an image extension occurs in it; otherwise a video iff a video extension occurs, otherwise audio iff an audio extension occurs, otherwise a file |
| Dashboard.ClassifyIgnoresCase | client/src/components/AdminDashboard.jsx:112-114 | lower-casing a URL does not change its media kind |
| Dashboard.ImageExtensionAnywhereWins | client/src/components/AdminDashboard.jsx:112-116 | text around an image URL never changes its kind |
| Dashboard.MixedExtensionsShowAsImage | client/src/components/AdminDashboard.jsx:112-116 | "clip.MP4.thumb.png" is shown as an image, because the image test runs first |
| Dashboard.GpsCellFor | client/src/components/AdminDashboard.jsx:428-440 | a map link with the report's coordinates appears iff lat is not 0; lat 0 shows "No GPS"; a missing location is the case the page cannot render |
| Dashboard.SubmittedReportGpsCell | client/src/components/AdminDashboard.jsx:428-440 | a report saved without a location shows "No GPS" |
| Dashboard.ContactPanelFor | client/src/components/AdminDashboard.jsx:345-407 | the contact panel appears iff contact data exists with a method other than NONE; it shows the method and value, is urgent iff immediate help, has a voicemail row iff the method is PHONE, and shows ASAP iff immediate help, otherwise the safe time or "No time specified" |
| Dashboard.SubmittedReportHasNoContactPanel | client/src/components/AdminDashboard.jsx:345 | a report saved from the victim form never shows a contact panel |
| Dashboard.ActionsFor | client/src/components/AdminDashboard.jsx:448-479 | the feed offers only Claim; my cases offer Escalate iff not escalated, Notify Police iff not contactPolice, never Claim, and always Mark Resolved last; no button appears twice |
| Dashboard.RequestFor | client/src/components/AdminDashboard.jsx:60-85 | Claim sends the org's id and name; Escalate and Notify Police both send the escalate request; Mark Resolved only opens the resolution form |
| Dashboard.ResolutionParts | client/src/components/AdminDashboard.jsx:89-93 | the resolution body is orgName, notes, then one proof part per file in order |
| Dashboard.EncodeResolution | client/src/components/AdminDashboard.jsx:89-93 | the appends build exactly that resolution body |
| Heatmap.StrokeColor | client/src/components/ReportHeatmap.jsx:30 | the stroke is red iff the report is a priority, otherwise #3b82f6 |
| Heatmap.FillColor | client/src/components/ReportHeatmap.jsx:31 | the fill is #ef4444 iff the report is a priority, otherwise #60a5fa |
| Heatmap.Excerpt | client/src/components/ReportHeatmap.jsx:41 | the popup shows the first 30 characters of the description (all of it if shorter) followed by "..." |
| Heatmap.MarkerFor | client/src/components/ReportHeatmap.jsx:26-45 | a marker carries the report's id and coordinates, the priority-dependent stroke and fill colours, the category name and the description excerpt |
| Heatmap.Slots | client/src/components/ReportHeatmap.jsx:22-49 | each report yields a marker iff it has a location with lat not 0 |
| Heatmap.MarkersOf | client/src/components/ReportHeatmap.jsx:22-49 | one marker per report, in order |
| Heatmap.DrawnMarkers | client/src/components/ReportHeatmap.jsx:22-49 | the markers drawn are exactly one per report with GPS, in input order |
| Heatmap.MapAgreesWithDashboard | client/src/components/ReportHeatmap.jsx:24 | a report has a map marker iff its dashboard card shows a map link |
| SuperAdmin.AllCategories | client/src/components/SuperAdmin.jsx:26-32 | the editor's checkbox list is the report category enum, in the same order |
| SuperAdmin.FilteredOrgs | client/src/components/SuperAdmin.jsx:92 | the listed organizations are exactly those with the selected status, each with all its copies, in order |
| SuperAdmin.TabCount | client/src/components/SuperAdmin.jsx:114 | a tab count never exceeds the number of organizations |
| SuperAdmin.TabCountIsShownLength | client/src/components/SuperAdmin.jsx:92-114 | a tab's count is the length of the list shown under that tab |
| SuperAdmin.TabCountsSum | client/src/components/SuperAdmin.jsx:104-116 | the three tab counts add up to the number of organizations |
| SuperAdmin.TabActions | client/src/components/SuperAdmin.jsx:236-274 | a tab offers a move to every status other than itself and PENDING (PENDING to APPROVED or REJECTED, APPROVED to REJECTED, REJECTED to APPROVED), and Delete last |
| SuperAdmin.MovesLeavePending | client/src/components/SuperAdmin.jsx:236-267 | no offered move leads to PENDING or to the current tab |
| SuperAdmin.MoveRequestStatus | client/src/components/SuperAdmin.jsx:55-59 | the status sent for a move is a valid org status naming the move's target |
| SuperAdmin.StartEditing | client/src/components/SuperAdmin.jsx:69-72 | opening the editor selects the org and copies its allowed categories, or an empty list when it has none |
| SuperAdmin.ToggleCat | client/src/components/SuperAdmin.jsx:82-88 | a present category is removed with all its occurrences, and every other category keeps its number of copies and its order; an absent one is appended at the end |
| SuperAdmin.ToggleTwiceRestoresMembership | client/src/components/SuperAdmin.jsx:82-88 | toggling a category twice restores which categories are ticked |
| SuperAdmin.ToggleTwiceRestoresAbsent | client/src/components/SuperAdmin.jsx:82-88 | toggling an absent category twice restores the exact list |
| SuperAdmin.ToggleTwiceReorders | client/src/components/SuperAdmin.jsx:82-88 | toggling a present category twice can reorder the list: ["Other", "Stalking"] becomes ["Stalking", "Other"] |
| SuperAdmin.StartEditingKeepsChecks | client/src/components/SuperAdmin.jsx:203-206 | opening the editor changes no checkbox on the card |
| SuperAdmin.ToggleFlipsOneCheckbox | client/src/components/SuperAdmin.jsx:203-208 | a click in the card being edited flips its own checkbox and no other |
| SuperAdmin.SaveCategories | client/src/components/SuperAdmin.jsx:74-80 | saving sends the edited list; a successful request closes the editor, and a rejected one leaves the editor state as it was |
| Dropdown.Filtered | client/src/components/SearchableDropdown.jsx:15-19 | an option is kept iff its lower-cased name contains the lower-cased term or its dial code contains the term, with all its copies, in original order |
| Dropdown.EmptyTermKeepsAll | client/src/components/SearchableDropdown.jsx:15-19 | an empty search keeps every option |
| Dropdown.LongerTermNarrows | client/src/components/SearchableDropdown.jsx:15-19 | a term containing another keeps a subsequence of what the shorter term keeps |
| Dropdown.InitialDropdown | client/src/components/SearchableDropdown.jsx:10-11 | the dropdown starts closed with an empty search |
| Dropdown.ToggleOpen | client/src/components/SearchableDropdown.jsx:37 | a click on the trigger flips the open flag and keeps the search |
| Dropdown.ClickOutside | client/src/components/SearchableDropdown.jsx:22-30 | a press outside closes the list and keeps the search |
| Dropdown.TypeSearch | client/src/components/SearchableDropdown.jsx:58 | typing replaces the search term and keeps the open flag |
| Dropdown.SelectAsWritten | client/src/components/SearchableDropdown.jsx:70-74 | a selection reports the option's dial code, closes the list and clears the search |
| Dropdown.Select | client/src/components/SearchableDropdown.jsx:70-74 | a selection honouring returnField reports the name or the dial code as asked, closes the list and clears the search |
| Dropdown.SelectDialCodeAgrees | client/src/components/SearchableDropdown.jsx:70-74 | for a caller asking for the dial code both selections agree |
| Dropdown.SelectNameDiffers | client/src/components/SearchableDropdown.jsx:70-74 | for a caller asking for the name the code as written reports something else whenever the name is not the dial code |
| Dropdown.Display | client/src/components/SearchableDropdown.jsx:40 | the trigger shows the value when it is non-empty, otherwise the placeholder |
| Register.DialCode | client/src/components/ResponderRegister.jsx:53 | a dial code starts with the root; with no suffixes it is the root, otherwise root plus the first suffix, and an empty suffix list appends the text "undefined" |
| Register.FormatEntry | client/src/components/ResponderRegister.jsx:51-55 | an entry carries the country's common name, its dial code and its cca2 code |
| Register.FormatAll | client/src/components/ResponderRegister.jsx:49-55 | formatting maps each country to its entry, in order |
| Register.NameLeTotal | client/src/components/ResponderRegister.jsx:56 | any two names compare one way or the other |
| Register.NameLeTransitive | client/src/components/ResponderRegister.jsx:56 | the name order is transitive |
| Register.SortedByNamePairwise | client/src/components/ResponderRegister.jsx:56 | in a name-sorted list every earlier name is no greater than every later one |
| Register.InsertByNamePermutes | client/src/components/ResponderRegister.jsx:56 | inserting an entry adds exactly that entry to the multiset |
| Register.InsertByNameSorted | client/src/components/ResponderRegister.jsx:56 | inserting into a name-sorted list keeps it sorted |
| Register.SortByName | client/src/components/ResponderRegister.jsx:56 | the sorted country list is ordered by name and a permutation of its input |
| Register.CountryList | client/src/components/ResponderRegister.jsx:43-66 | a failed fetch, or one with a country that has no idd, gives exactly [Cameroon +237, USA +1]; otherwise the list is a name-sorted permutation of the formatted countries that have a non-empty root |
| Register.CountryListEntries | client/src/components/ResponderRegister.jsx:49-55 | every entry of a fetched list is the formatting of a fetched country that has a root |
| Register.Keys | client/src/components/ResponderRegister.jsx:89 | the form's keys are its fields' keys, in order |
| Register.LookupFindsKeys | client/src/components/ResponderRegister.jsx:70-71 | a field lookup fails iff the key is not one of the form's keys |
| Register.InitialForm | client/src/components/ResponderRegister.jsx:18-31 | the form starts with the twelve fields in declaration order, type SHELTER and every other field empty |
| Register.InitialFormDistinct | client/src/components/ResponderRegister.jsx:18-31 | the initial form's keys are distinct |
| Register.InitialPhoneCode | client/src/components/ResponderRegister.jsx:34 | the phone code starts as the dial code of Cameroon, the first fallback country |
| Register.SetField | client/src/components/ResponderRegister.jsx:70-71 | a change sets the named field and leaves every other field's value and the key order unchanged, adding the key at the end if new |
| Register.SetFieldKeepsDistinct | client/src/components/ResponderRegister.jsx:70-71 | a change keeps the form's keys distinct |
| Register.ChooseCountryAsWritten | client/src/components/ResponderRegister.jsx:275-281 | choosing a country, as written, stores its dial code in the country field and changes nothing else |
| Register.ChooseCountry | client/src/components/ResponderRegister.jsx:275-281 | choosing a country with returnField "name" honoured stores its name and changes nothing else |
| Register.CountryStoredAsDialCode | client/src/components/ResponderRegister.jsx:275-281 | choosing Cameroon stores "+237" as the country, where "Cameroon" was asked for |
| Register.ChoosePhoneCode | client/src/components/ResponderRegister.jsx:344-350 | the phone-code picker stores the chosen dial code, which is what the dropdown reports |
| Register.TypeOptions | client/src/components/ResponderRegister.jsx:173-183 | the type menu offers every org type and only org types, and its first option, SHELTER, is the form's initial type |
| Register.AddDocs | client/src/components/ResponderRegister.jsx:74-78 | chosen files are appended after the existing documents, in order; no selection changes nothing |
| Register.RemoveDoc | client/src/components/ResponderRegister.jsx:80 | removing index i drops exactly the i-th document and keeps the rest in order; an index out of range changes nothing |
| Register.RemoveLastAdded | client/src/components/ResponderRegister.jsx:74-80 | removing a just-added document restores the list |
| Register.FieldParts | client/src/components/ResponderRegister.jsx:89-95 | each field is sent once, in order: contactPhone as phone code, space, number, and the others verbatim |
| Register.RegistrationParts | client/src/components/ResponderRegister.jsx:89-100 | the body is the field parts followed by one "documents" part per document, in order |
| Register.RegistrationFieldSent | client/src/components/ResponderRegister.jsx:89-95 | with distinct keys, each field is sent at its own position with its value (contactPhone prefixed by the phone code) and its key occurs nowhere else in the body |
| Register.EncodeFields | client/src/components/ResponderRegister.jsx:89-95 | the field loop builds exactly the field parts |
| Register.AppendDocuments | client/src/components/ResponderRegister.jsx:98-100 | the document loop appends exactly one "documents" part per document |
| Register.EncodeRegistration | client/src/components/ResponderRegister.jsx:87-100 | the submit handler builds exactly the registration body |
| Register.ErrorMessage | client/src/components/ResponderRegister.jsx:111 | the error shown is the server's message when it is non-empty, otherwise "Registration failed" |
| Register.BeginSubmit | client/src/components/ResponderRegister.jsx:84 | pressing submit sets the status to LOADING and keeps the error text |
| Register.AfterSubmit | client/src/components/ResponderRegister.jsx:107-113 | success sets SUCCESS and keeps the message; failure sets ERROR with that error message |
| Register.SubmitSettles | client/src/components/ResponderRegister.jsx:84-113 | a started submission ends in SUCCESS exactly when the request succeeded and in ERROR otherwise, never still LOADING, with the error message on failure |
| SafetyAdvice.TopicOf | client/src/components/SafetyAdvisor.jsx:6-43 | the advice topic is Domestic Violence, Sexual Assault or Stalking exactly for that category, and general for anything else, null included |
| SafetyAdvice.AdviceFor | client/src/components/SafetyAdvisor.jsx:6-53 | each topic gives its title and its exact list of steps |
| SafetyAdvice.GetAdvice | client/src/components/SafetyAdvisor.jsx:5-55 | the three named categories get "Safety First Protocol", "Preservation & Care" and "Anti-Surveillance Steps" with four steps each; any other input gets the three-step "General Safety Guide" |
| SafetyAdvice.AdviceForCategory | client/src/components/SafetyAdvisor.jsx:6-43 | of the report categories, Physical Abuse and Other get the general guide and the other three their own topic |
| SafetyAdvice.NumberedSteps | client/src/components/SafetyAdvisor.jsx:74-80 | the steps are shown numbered 1 to n in list order |

## Left out

- The claim, escalate, resolve, admin, register-org, update-status, update-categories and delete-org server handlers are not part of this model. The client calls them, but their code is not available, so the model covers only what the client shows and sends.
- The multer storage, the Cloudinary upload, the Mongoose connection and the Express bootstrapping are I/O. Uploading is the `store` parameter, which turns a local file into a record with optional path, secure_url and url.
- The database is a sequence of documents. MongoDB's order for equal `createdAt` values is unspecified, so the feed is stated as a newest-first permutation, not as one particular order.
- Database failures are not modelled, so neither are the 500 replies they cause in login, the report feed and the schema's uniqueness index. Only the validation failure on submit is modelled, and it answers 500.
- `JSON.stringify`/`JSON.parse`, `FormData` and axios are not modelled. Locations and contact data stay structured values, and a form body is a list of key/value parts.
- A non-boolean `contactPolice` given to the schema and Mongoose's type casting are not modelled.
- `server/seed.js` is a database script and is not part of this model.
- ReportForm, AudioRecorder, ResponderLogin and CategorySelect are browser-API and UI components with no logic stated here; config.js is an environment switch.
- The super-admin password prompt, the confirm and alert dialogs, and quickExit's navigation are not modelled.
- React rendering, CSS, icons and effect scheduling are not modelled. The one exception is the open/search state of the dropdown.
- Coordinates are kept as reals that are only compared with 0.
- The Google Maps URL text and date rendering (`toLocaleString`, `toLocaleDateString`) are not modelled.
- `Register.NameLe`, and with it `Register.SortByName`, replaces `localeCompare` with code-point order.
- `Common.Lower` lower-cases ASCII letters only, where JavaScript's `toLowerCase` covers all of Unicode.
- `Heatmap.Excerpt` counts characters, where `substring` counts UTF-16 code units.
- Dashboard.SortForDashboard: it proves the dashboard order and a permutation, not the stability of JavaScript's sort for reports with equal priority and createdAt.
- Dashboard.GpsCellFor: a report with no location at all makes the page throw while reading `location.lat`. The model marks it `MissingLocation` and does not model the crash.
- Login with no access code in the body is not modelled separately. The model treats it as an ordinary code string.
- Server.Login: the code is always a string. A JSON body can send a query operator instead, such as `{"$ne": ""}`, and `findOne` then returns the first organization whose code matches that operator. The model does not capture this.
- Server.OrgReports: an id that is not a valid ObjectId makes `findById` reject with a cast error, and the catch answers 500, not 404. The model treats every id as well formed, so only an id no organization has yields its 404.
- VictimFlow.FirstPart: a text key sent more than once is turned into an array by multer, and that is not modelled. The report bodies the form builds never repeat a text key.
- The server keeps the category restriction for POLICE organizations and adds the consent test; it does not open every category to them.
- Login does not check an organization's approval status, and the model follows the code.
- An empty description is stored as sent; the default applies only when the field is missing.
- A submitted `contactInfo` is not copied by the server; a saved report always has contact method NONE.

## Findings

| source | as written | input that shows it | evidently intended | confidence | as-written member | corrected member |
|---|---|---|---|---|---|---|
| client/src/components/SearchableDropdown.jsx:70-74 | the dropdown ignores its `returnField` prop and always reports the dial code, so the registration form's country field, which asks for `returnField="name"`, stores the dial code | choosing Cameroon in the country picker stores "+237" as the country | the country field stores "Cameroon" | not executed | Register.ChooseCountryAsWritten | Register.ChooseCountry |
