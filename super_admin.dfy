/**
 * The super-admin screen: organizations listed by status tab, the moves offered
 * in each tab, and the editor for an organization's allowed categories.
 */
module SuperAdmin {
  import opened Common
  import opened ReportModel
  import opened OrganizationModel

  /** `ALL_CATEGORIES`: the checkbox list of the category editor. */
  function AllCategories(): (cats: seq<string>)
    ensures cats == CategoryEnum()
  {
    ["Domestic Violence", "Sexual Assault", "Physical Abuse", "Stalking", "Other"]
  }

  // ---------------------------------------------------------------------------------------------
  // Status tabs
  // ---------------------------------------------------------------------------------------------

  function HasStatus(tab: OrgStatus): Organization -> bool
  {
    (o: Organization) => o.status == tab
  }

  /** `filteredOrgs`: the organizations whose status is the selected tab, in list order. */
  function FilteredOrgs(orgs: seq<Organization>, tab: OrgStatus): (shown: seq<Organization>)
    ensures forall o :: o in shown <==> o in orgs && o.status == tab
    ensures forall o :: multiset(shown)[o] == if o.status == tab then multiset(orgs)[o] else 0
    ensures IsSubsequence(shown, orgs)
  {
    FilterIsSubsequence(orgs, HasStatus(tab));
    Filter(orgs, HasStatus(tab))
  }

  /** The number in a tab's label. */
  function TabCount(orgs: seq<Organization>, tab: OrgStatus): (n: nat)
    ensures n <= |orgs|
  {
    if orgs == [] then 0
    else (if orgs[0].status == tab then 1 else 0) + TabCount(orgs[1..], tab)
  }

  /** The count in a tab's label is the length of the list shown under it. */
  lemma {:induction false} TabCountIsShownLength(orgs: seq<Organization>, tab: OrgStatus)
    ensures TabCount(orgs, tab) == |FilteredOrgs(orgs, tab)|
  {
    if orgs != [] {
      TabCountIsShownLength(orgs[1..], tab);
    }
  }

  /** Every organization is counted in exactly one tab. */
  lemma {:induction false} TabCountsSum(orgs: seq<Organization>)
    ensures TabCount(orgs, OrgPending) + TabCount(orgs, Approved) + TabCount(orgs, Rejected) == |orgs|
  {
    if orgs != [] {
      TabCountsSum(orgs[1..]);
    }
  }

  datatype AdminAction = Move(to: OrgStatus) | Delete

  /** The buttons of an organization card in a tab: the status moves, then "Delete Forever". */
  function TabActions(tab: OrgStatus): (acts: seq<AdminAction>)
    ensures forall t :: Move(t) in acts <==> t != tab && t != OrgPending
    ensures Delete in acts && acts[|acts| - 1] == Delete
  {
    match tab
    case OrgPending =>
      var acts := [Move(Approved), Move(Rejected), Delete];
      assert forall t :: Move(t) in acts <==> t.Approved? || t.Rejected?;
      acts
    case Approved =>
      var acts := [Move(Rejected), Delete];
      assert forall t :: Move(t) in acts <==> t.Rejected?;
      acts
    case Rejected =>
      var acts := [Move(Approved), Delete];
      assert forall t :: Move(t) in acts <==> t.Approved?;
      acts
  }

  /** No move sends an organization back to PENDING, and every move changes its status. */
  lemma {:induction false} MovesLeavePending(tab: OrgStatus, k: nat)
    requires k < |TabActions(tab)| && TabActions(tab)[k].Move?
    ensures TabActions(tab)[k].to != OrgPending && TabActions(tab)[k].to != tab
  {
    assert TabActions(tab)[k] in TabActions(tab);
  }

  /** The body of the status update request for a move. */
  function MoveRequestStatus(a: AdminAction): (s: string)
    requires a.Move?
    ensures ParseOrgStatus(s) == Some(a.to)
  {
    OrgStatusName(a.to)
  }

  // ---------------------------------------------------------------------------------------------
  // The category editor
  // ---------------------------------------------------------------------------------------------

  /** Which card is being edited and the categories ticked so far. */
  datatype EditState = EditState(editingId: Option<string>, editCats: seq<string>)

  function NotEditing(): EditState
  {
    EditState(None, [])
  }

  /** `startEditing`: `allowedCategories || []`. */
  function StartEditing(orgId: string, allowedCategories: Option<seq<string>>): (st: EditState)
    ensures st.editingId == Some(orgId)
    ensures allowedCategories.Some? ==> st.editCats == allowedCategories.value
    ensures allowedCategories.None? ==> st.editCats == []
  {
    EditState(Some(orgId), if allowedCategories.Some? then allowedCategories.value else [])
  }

  function Without(cats: seq<string>, cat: string): seq<string>
  {
    Filter(cats, (c: string) => c != cat)
  }

  /** `toggleCat`: drop every occurrence of a present category, append an absent one. */
  function ToggleCat(cats: seq<string>, cat: string): (r: seq<string>)
    ensures cat in cats ==> cat !in r && IsSubsequence(r, cats)
    ensures cat in cats ==> forall c :: c in r <==> c in cats && c != cat
    ensures cat in cats ==> forall c :: c != cat ==> multiset(r)[c] == multiset(cats)[c]
    ensures cat !in cats ==> r == cats + [cat]
  {
    if cat in cats then
      FilterIsSubsequence(cats, (c: string) => c != cat);
      Without(cats, cat)
    else cats + [cat]
  }

  /** Toggling twice restores which categories are ticked. */
  lemma ToggleTwiceRestoresMembership(cats: seq<string>, cat: string, c: string)
    ensures c in ToggleCat(ToggleCat(cats, cat), cat) <==> c in cats
  {
  }

  /** Toggling an absent category twice gives back exactly the list it started from. */
  lemma {:induction false} ToggleTwiceRestoresAbsent(cats: seq<string>, cat: string)
    requires cat !in cats
    ensures ToggleCat(ToggleCat(cats, cat), cat) == cats
  {
    var once := cats + [cat];
    assert cat in once;
    FilterKeepsAll(cats, (c: string) => c != cat);
    assert Without(once, cat) == cats by {
      FilterAppendDropped(cats, cat);
    }
  }

  lemma {:induction false} FilterAppendDropped(cats: seq<string>, cat: string)
    ensures Without(cats + [cat], cat) == Without(cats, cat)
  {
    if cats == [] {
      assert [cat][1..] == [];
    } else {
      assert (cats + [cat])[1..] == cats[1..] + [cat];
      FilterAppendDropped(cats[1..], cat);
    }
  }

  /** A present category toggled twice moves to the end: the exact order is not restored. */
  lemma ToggleTwiceReorders()
    ensures ToggleCat(ToggleCat(["Other", "Stalking"], "Other"), "Other") == ["Stalking", "Other"]
  {
    var cats := ["Other", "Stalking"];
    assert "Other" in cats;
    assert Without(cats, "Other") == ["Stalking"] by {
      assert cats[1..] == ["Stalking"];
      assert cats[1..][1..] == [];
    }
  }

  /** Whether a category's checkbox is ticked on an organization's card. */
  predicate Checked(st: EditState, org: Organization, cat: string)
  {
    if st.editingId == Some(org.id) then cat in st.editCats else cat in org.allowedCategories
  }

  /** Opening the editor changes no checkbox of the card. */
  lemma StartEditingKeepsChecks(st: EditState, org: Organization, cat: string)
    requires st.editingId != Some(org.id)
    ensures Checked(StartEditing(org.id, Some(org.allowedCategories)), org, cat) == Checked(st, org, cat)
  {
  }

  /** In the card being edited, a click flips its own checkbox and no other. */
  lemma ToggleFlipsOneCheckbox(st: EditState, org: Organization, cat: string, other: string)
    requires st.editingId == Some(org.id) && other != cat
    ensures var next := st.(editCats := ToggleCat(st.editCats, cat));
      && (Checked(next, org, cat) <==> !Checked(st, org, cat))
      && (Checked(next, org, other) <==> Checked(st, org, other))
  {
  }

  /**
   * `saveCategories`: the list sent for an organization. Only once the request succeeds (`saved`)
   * is the editor closed; a rejected request is not caught, so the card stays in edit mode.
   */
  function SaveCategories(st: EditState, saved: bool): (out: (seq<string>, EditState))
    ensures out.0 == st.editCats
    ensures saved ==> out.1.editingId.None? && out.1.editCats == st.editCats
    ensures !saved ==> out.1 == st
  {
    (st.editCats, if saved then st.(editingId := None) else st)
  }
}
