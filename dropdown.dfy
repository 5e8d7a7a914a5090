/**
 * The searchable dropdown used for the country and phone-code pickers: its
 * search filter, its open/search state and what a selection hands to the caller.
 */
module Dropdown {
  import opened Common

  /** One entry of the list: a display name, a dial code such as "+237", and an optional country code. */
  datatype DropdownOption = DropdownOption(name: string, dialCode: string, code: Option<string>)

  /**
   * The search test: the lower-cased name contains the lower-cased term, or the
   * dial code contains the term as typed.
   */
  predicate OptionMatches(opt: DropdownOption, term: string)
  {
    Contains(Lower(opt.name), Lower(term)) || Contains(opt.dialCode, term)
  }

  function MatchesTerm(term: string): DropdownOption -> bool
  {
    (opt: DropdownOption) => OptionMatches(opt, term)
  }

  /** `filtered`: the matching options, in their original order. */
  function Filtered(options: seq<DropdownOption>, term: string): (shown: seq<DropdownOption>)
    ensures forall o :: o in shown <==> o in options && OptionMatches(o, term)
    ensures forall o :: multiset(shown)[o] == if OptionMatches(o, term) then multiset(options)[o] else 0
    ensures IsSubsequence(shown, options)
  {
    FilterIsSubsequence(options, MatchesTerm(term));
    Filter(options, MatchesTerm(term))
  }

  /** An empty search keeps the whole list. */
  lemma {:induction false} EmptyTermKeepsAll(options: seq<DropdownOption>)
    ensures Filtered(options, "") == options
  {
    forall i | 0 <= i < |options|
      ensures MatchesTerm("")(options[i])
    {
      ContainsEmpty(Lower(options[i].name));
      assert Lower("") == "";
    }
    FilterKeepsAll(options, MatchesTerm(""));
  }

  /** Typing more can only narrow the list: a term containing `t` keeps a subsequence of what `t` keeps. */
  lemma {:induction false} LongerTermNarrows(options: seq<DropdownOption>, t: string, t2: string)
    requires Contains(t2, t)
    ensures IsSubsequence(Filtered(options, t2), Filtered(options, t))
  {
    forall i | 0 <= i < |options| && MatchesTerm(t2)(options[i])
      ensures MatchesTerm(t)(options[i])
    {
      var opt := options[i];
      if Contains(Lower(opt.name), Lower(t2)) {
        ContainsLower(t2, t);
        ContainsTransitive(Lower(opt.name), Lower(t2), Lower(t));
      } else {
        ContainsTransitive(opt.dialCode, t2, t);
      }
    }
    FilterStrongerIsSubsequence(options, MatchesTerm(t2), MatchesTerm(t));
  }

  /** Whether the list is open, and the search text. */
  datatype DropdownState = DropdownState(isOpen: bool, searchTerm: string)

  function InitialDropdown(): (st: DropdownState)
    ensures !st.isOpen && st.searchTerm == ""
  {
    DropdownState(false, "")
  }

  /** A click on the trigger opens a closed list and closes an open one; the search text stays. */
  function ToggleOpen(st: DropdownState): (next: DropdownState)
    ensures next.isOpen == !st.isOpen && next.searchTerm == st.searchTerm
  {
    st.(isOpen := !st.isOpen)
  }

  /** A mouse press outside the component closes the list. */
  function ClickOutside(st: DropdownState): (next: DropdownState)
    ensures !next.isOpen && next.searchTerm == st.searchTerm
  {
    st.(isOpen := false)
  }

  function TypeSearch(st: DropdownState, term: string): (next: DropdownState)
    ensures next.isOpen == st.isOpen && next.searchTerm == term
  {
    st.(searchTerm := term)
  }

  /** The value a caller asks the dropdown to report for a chosen option. */
  datatype ReturnField = NameField | DialCodeField

  /**
   * Clicking an option as the component is written: the dial code goes to `onChange`
   * whatever the caller asked for, then the list closes and the search is cleared.
   */
  function SelectAsWritten(st: DropdownState, opt: DropdownOption): (out: (string, DropdownState))
    ensures out.0 == opt.dialCode
    ensures out.1 == InitialDropdown()
  {
    (opt.dialCode, DropdownState(false, ""))
  }

  /** The selection as the callers use it: the field named by `returnField` is reported. */
  function Select(st: DropdownState, opt: DropdownOption, field: ReturnField): (out: (string, DropdownState))
    ensures field == NameField ==> out.0 == opt.name
    ensures field == DialCodeField ==> out.0 == opt.dialCode
    ensures out.1 == InitialDropdown()
  {
    (if field == NameField then opt.name else opt.dialCode, DropdownState(false, ""))
  }

  /** For a caller that asks for the dial code the two agree. */
  lemma SelectDialCodeAgrees(st: DropdownState, opt: DropdownOption)
    ensures Select(st, opt, DialCodeField) == SelectAsWritten(st, opt)
  {
  }

  /** For a caller that asks for the name they differ on every option whose name is not its dial code. */
  lemma SelectNameDiffers(st: DropdownState, opt: DropdownOption)
    requires opt.name != opt.dialCode
    ensures Select(st, opt, NameField).0 != SelectAsWritten(st, opt).0
  {
  }

  /** The trigger's text: `value || placeholder`. */
  function Display(value: string, placeholder: string): (shown: string)
    ensures value != "" ==> shown == value
    ensures value == "" ==> shown == placeholder
  {
    if value != "" then value else placeholder
  }
}
