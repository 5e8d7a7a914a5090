/**
 * The organization registration screen: the country list built from the country
 * service, the form's field map, the attached documents, and the multipart body
 * sent on submit.
 */
module Register {
  import opened Common
  import opened OrganizationModel
  import opened Forms
  import opened Dropdown

  // ---------------------------------------------------------------------------------------------
  // The country list
  // ---------------------------------------------------------------------------------------------

  /** The `idd` record of the country service: a root such as "+2" and suffixes such as ["37"]. */
  datatype Idd = Idd(root: Option<string>, suffixes: Option<seq<string>>)

  /** One entry of the country service's answer; `idd` may be missing altogether. */
  datatype RawCountry = RawCountry(commonName: string, idd: Option<Idd>, cca2: string)

  /** The `.filter((c) => c.idd.root)` test, for an entry that has an `idd`. */
  predicate HasRoot(c: RawCountry)
  {
    c.idd.Some? && Truthy(c.idd.value.root)
  }

  /**
   * `root + (suffixes ? suffixes[0] : "")`. An empty suffix list is truthy and its first
   * element is `undefined`, which the concatenation turns into the text "undefined".
   */
  function DialCode(root: string, suffixes: Option<seq<string>>): (d: string)
    ensures |d| >= |root| && d[..|root|] == root
    ensures suffixes.None? ==> d == root
    ensures suffixes.Some? && suffixes.value != [] ==> d == root + suffixes.value[0]
    ensures suffixes == Some([]) ==> d == root + "undefined"
  {
    match suffixes
    case None => root
    case Some(sfx) => if sfx != [] then root + sfx[0] else root + "undefined"
  }

  function FormatEntry(c: RawCountry): (opt: DropdownOption)
    requires HasRoot(c)
    ensures opt.name == c.commonName && opt.code == Some(c.cca2)
    ensures opt.dialCode == DialCode(c.idd.value.root.value, c.idd.value.suffixes)
  {
    DropdownOption(c.commonName, DialCode(c.idd.value.root.value, c.idd.value.suffixes), Some(c.cca2))
  }

  function FormatAll(cs: seq<RawCountry>): (opts: seq<DropdownOption>)
    requires forall i :: 0 <= i < |cs| ==> HasRoot(cs[i])
    ensures |opts| == |cs| && forall i :: 0 <= i < |cs| ==> opts[i] == FormatEntry(cs[i])
  {
    seq(|cs|, i requires 0 <= i < |cs| => FormatEntry(cs[i]))
  }

  /** Lexicographic order on the code points of two names. */
  predicate NameLe(a: string, b: string)
    decreases |a|
  {
    a == [] || (b != [] && (a[0] < b[0] || (a[0] == b[0] && NameLe(a[1..], b[1..]))))
  }

  lemma {:induction false} NameLeTotal(a: string, b: string)
    ensures NameLe(a, b) || NameLe(b, a)
    decreases |a|
  {
    if a != [] && b != [] && a[0] == b[0] {
      NameLeTotal(a[1..], b[1..]);
    }
  }

  lemma {:induction false} NameLeTransitive(a: string, b: string, c: string)
    requires NameLe(a, b) && NameLe(b, c)
    ensures NameLe(a, c)
    decreases |a|
  {
    if a != [] && a[0] == b[0] && b[0] == c[0] {
      NameLeTransitive(a[1..], b[1..], c[1..]);
    }
  }

  /** Each name is no later than the next one. */
  ghost predicate SortedByName(s: seq<DropdownOption>)
  {
    forall i :: 0 < i < |s| ==> NameLe(s[i - 1].name, s[i].name)
  }

  /** In a sorted list every name is no later than any name after it. */
  lemma {:induction false} SortedByNamePairwise(s: seq<DropdownOption>)
    requires SortedByName(s)
    ensures forall i, j :: 0 <= i < j < |s| ==> NameLe(s[i].name, s[j].name)
  {
    if s != [] {
      var t := s[1..];
      assert SortedByName(t) by {
        assert forall i :: 0 < i < |t| ==> t[i - 1] == s[i] && t[i] == s[i + 1];
      }
      SortedByNamePairwise(t);
      forall i, j | 0 <= i < j < |s|
        ensures NameLe(s[i].name, s[j].name)
      {
        assert s[j] == t[j - 1];
        if i > 0 {
          assert s[i] == t[i - 1];
        } else if j > 1 {
          assert s[1] == t[0];
          NameLeTransitive(s[0].name, s[1].name, s[j].name);
        }
      }
    }
  }

  /** One step of the sort: `x` goes before the first entry whose name is not earlier. */
  function InsertByName(x: DropdownOption, s: seq<DropdownOption>): seq<DropdownOption>
  {
    if s == [] || NameLe(x.name, s[0].name) then [x] + s
    else [s[0]] + InsertByName(x, s[1..])
  }

  lemma {:induction false} InsertByNamePermutes(x: DropdownOption, s: seq<DropdownOption>)
    ensures multiset(InsertByName(x, s)) == multiset(s) + multiset{x}
  {
    if !(s == [] || NameLe(x.name, s[0].name)) {
      InsertByNamePermutes(x, s[1..]);
      assert s == [s[0]] + s[1..];
    }
  }

  lemma {:induction false} InsertByNameSorted(x: DropdownOption, s: seq<DropdownOption>)
    requires SortedByName(s)
    ensures SortedByName(InsertByName(x, s))
  {
    if !(s == [] || NameLe(x.name, s[0].name)) {
      NameLeTotal(x.name, s[0].name);
      var rest := InsertByName(x, s[1..]);
      InsertByNameSorted(x, s[1..]);
      assert rest[0] == x || rest[0] == s[1];
      var r := [s[0]] + rest;
      assert forall k :: 0 < k < |r| ==> r[k] == rest[k - 1];
    }
  }

  /** `.sort((a, b) => a.name.localeCompare(b.name))`, with code-point order for the locale's. */
  function SortByName(s: seq<DropdownOption>): (r: seq<DropdownOption>)
    ensures SortedByName(r)
    ensures multiset(r) == multiset(s)
  {
    if s == [] then []
    else
      var sorted := SortByName(s[1..]);
      InsertByNameSorted(s[0], sorted);
      InsertByNamePermutes(s[0], sorted);
      assert s == [s[0]] + s[1..];
      InsertByName(s[0], sorted)
  }

  /** The list used when the country service cannot be read. */
  function FallbackCountries(): seq<DropdownOption>
  {
    [DropdownOption("Cameroon", "+237", None), DropdownOption("USA", "+1", None)]
  }

  /**
   * `fetchCountries`: no answer (`None`), or an entry without `idd` (reading `idd.root`
   * throws), leads to the fallback list; otherwise the formatted entries sorted by name.
   */
  function CountryList(fetched: Option<seq<RawCountry>>): (list: seq<DropdownOption>)
    ensures fetched.None? ==> list == FallbackCountries()
    ensures fetched.Some? && (exists i :: 0 <= i < |fetched.value| && fetched.value[i].idd.None?) ==>
      list == FallbackCountries()
    ensures fetched.Some? && (forall i :: 0 <= i < |fetched.value| ==> fetched.value[i].idd.Some?) ==>
      SortedByName(list) && multiset(list) == multiset(FormatAll(Filter(fetched.value, HasRoot)))
  {
    match fetched
    case None => FallbackCountries()
    case Some(raw) =>
      if exists i :: 0 <= i < |raw| && raw[i].idd.None? then FallbackCountries()
      else SortByName(FormatAll(Filter(raw, HasRoot)))
  }

  /** Every entry of a formatted list comes from a service entry with a root, with its dial code built from it. */
  lemma {:induction false} CountryListEntries(raw: seq<RawCountry>, opt: DropdownOption)
    requires forall i :: 0 <= i < |raw| ==> raw[i].idd.Some?
    requires opt in CountryList(Some(raw))
    ensures exists c :: c in raw && HasRoot(c) && opt == FormatEntry(c)
  {
    var kept := Filter(raw, HasRoot);
    assert opt in multiset(FormatAll(kept));
    var k :| 0 <= k < |kept| && FormatAll(kept)[k] == opt;
    assert kept[k] in kept;
  }

  // ---------------------------------------------------------------------------------------------
  // The form fields
  // ---------------------------------------------------------------------------------------------

  /** One key of the form state object with its value. */
  datatype Field = Field(key: string, value: string)

  /** The form state: its keys in insertion order, as `Object.keys` lists them. */
  type Form = seq<Field>

  function Keys(form: Form): (ks: seq<string>)
    ensures |ks| == |form| && forall i :: 0 <= i < |form| ==> ks[i] == form[i].key
  {
    if form == [] then [] else [form[0].key] + Keys(form[1..])
  }

  ghost predicate DistinctKeys(form: Form)
  {
    forall i, j :: 0 <= i < j < |form| ==> form[i].key != form[j].key
  }

  /** `formData[key]`: the value under a key, `None` when the key is not in the form. */
  function Lookup(form: Form, key: string): Option<string>
  {
    if form == [] then None
    else if form[0].key == key then Some(form[0].value)
    else Lookup(form[1..], key)
  }

  /** A key has a value exactly when it is one of the form's keys. */
  lemma {:induction false} LookupFindsKeys(form: Form, key: string)
    ensures Lookup(form, key).None? <==> key !in Keys(form)
  {
    if form != [] {
      LookupFindsKeys(form[1..], key);
    }
  }

  /** The order of the keys in the initial state object. */
  function FormKeys(): seq<string>
  {
    ["name", "type", "accessCode", "country", "region", "city", "address",
     "contactEmail", "contactPhone", "website", "registrationNumber", "description"]
  }

  /** The initial form: type SHELTER, every other field empty. */
  function InitialForm(): (form: Form)
    ensures Keys(form) == FormKeys()
    ensures Lookup(form, "type") == Some("SHELTER")
    ensures forall i :: 0 <= i < |form| && form[i].key != "type" ==> form[i].value == ""
  {
    var ks := FormKeys();
    seq(|ks|, i requires 0 <= i < |ks| => Field(ks[i], if ks[i] == "type" then "SHELTER" else ""))
  }

  /** No key of the initial form appears twice. */
  lemma InitialFormDistinct()
    ensures DistinctKeys(InitialForm())
  {
    var ks := FormKeys();
    forall i, j | 0 <= i < j < |ks|
      ensures ks[i] != ks[j]
    {
      assert |ks[i]| != |ks[j]| || ks[i][0] != ks[j][0] || ks[i][7] != ks[j][7];
    }
    assert Keys(InitialForm()) == ks;
  }

  /** The phone code shown before a choice is made: Cameroon's, the first country of the fallback list. */
  function InitialPhoneCode(): (code: string)
    ensures code == FallbackCountries()[0].dialCode && FallbackCountries()[0].name == "Cameroon"
  {
    "+237"
  }

  /** `handleChange`: `{...formData, [name]: value}`; a new key is added at the end. */
  function SetField(form: Form, key: string, value: string): (r: Form)
    ensures Lookup(r, key) == Some(value)
    ensures forall k :: k != key ==> Lookup(r, k) == Lookup(form, k)
    ensures key in Keys(form) ==> Keys(r) == Keys(form)
    ensures key !in Keys(form) ==> Keys(r) == Keys(form) + [key]
  {
    if form == [] then
      var r := [Field(key, value)];
      LookupCons(Field(key, value), []);
      KeysCons(Field(key, value), []);
      r
    else
      assert form == [form[0]] + form[1..];
      KeysCons(form[0], form[1..]);
      LookupCons(form[0], form[1..]);
      var rest := if form[0].key == key then form[1..] else SetField(form[1..], key, value);
      var head := if form[0].key == key then Field(key, value) else form[0];
      KeysCons(head, rest);
      LookupCons(head, rest);
      [head] + rest
  }

  lemma KeysCons(f: Field, rest: Form)
    ensures Keys([f] + rest) == [f.key] + Keys(rest)
  {
    assert ([f] + rest)[1..] == rest;
  }

  lemma LookupCons(f: Field, rest: Form)
    ensures forall k :: Lookup([f] + rest, k) == if f.key == k then Some(f.value) else Lookup(rest, k)
  {
    assert ([f] + rest)[1..] == rest;
  }

  /** Changing a field keeps the keys distinct. */
  lemma {:induction false} SetFieldKeepsDistinct(form: Form, key: string, value: string)
    requires DistinctKeys(form)
    ensures DistinctKeys(SetField(form, key, value))
  {
    var r := SetField(form, key, value);
    forall i, j | 0 <= i < j < |r|
      ensures r[i].key != r[j].key
    {
      assert Keys(r)[i] == r[i].key && Keys(r)[j] == r[j].key;
      if key in Keys(form) {
        assert Keys(form)[i] == form[i].key && Keys(form)[j] == form[j].key;
      } else if j < |form| {
        assert Keys(form)[i] == form[i].key && Keys(form)[j] == form[j].key;
      } else {
        assert Keys(r)[j] == key;
        assert Keys(form)[i] == form[i].key;
      }
    }
  }

  /**
   * Choosing a country in the country dropdown, which asks for the option's name.
   * With the dropdown as written it would store the dial code instead (`ChooseCountryAsWritten`).
   */
  function ChooseCountry(form: Form, opt: DropdownOption): (r: Form)
    ensures Lookup(r, "country") == Some(opt.name)
    ensures forall k :: k != "country" ==> Lookup(r, k) == Lookup(form, k)
  {
    SetField(form, "country", Select(InitialDropdown(), opt, NameField).0)
  }

  function ChooseCountryAsWritten(form: Form, opt: DropdownOption): (r: Form)
    ensures Lookup(r, "country") == Some(opt.dialCode)
    ensures forall k :: k != "country" ==> Lookup(r, k) == Lookup(form, k)
  {
    SetField(form, "country", SelectAsWritten(InitialDropdown(), opt).0)
  }

  /** From the initial form, picking Cameroon stores "+237" as the country, not "Cameroon". */
  lemma CountryStoredAsDialCode()
    ensures var cameroon := FallbackCountries()[0];
      && Lookup(ChooseCountryAsWritten(InitialForm(), cameroon), "country") == Some("+237")
      && Lookup(ChooseCountry(InitialForm(), cameroon), "country") == Some("Cameroon")
  {
  }

  /** Choosing a phone code: the phone dropdown asks for the dial code, and gets it either way. */
  function ChoosePhoneCode(opt: DropdownOption): (code: string)
    ensures code == opt.dialCode
    ensures code == SelectAsWritten(InitialDropdown(), opt).0
  {
    Select(InitialDropdown(), opt, DialCodeField).0
  }

  /** The values of the type select; the first one is the initial SHELTER. */
  function TypeOptions(): (opts: seq<string>)
    ensures forall i :: 0 <= i < |opts| ==> ParseOrgType(opts[i]).Some?
    ensures forall t :: OrgTypeName(t) in opts
    ensures opts[0] == OrgTypeName(Shelter) && Lookup(InitialForm(), "type") == Some(opts[0])
  {
    ["SHELTER", "POLICE", "MEDICAL", "LEGAL", "COMMUNITY"]
  }

  // ---------------------------------------------------------------------------------------------
  // Attached documents
  // ---------------------------------------------------------------------------------------------

  /** `handleDocChange`: the newly chosen files go after the ones already attached. */
  function AddDocs(docs: seq<LocalFile>, chosen: Option<seq<LocalFile>>): (r: seq<LocalFile>)
    ensures chosen.None? ==> r == docs
    ensures chosen.Some? ==> |r| == |docs| + |chosen.value| && r[..|docs|] == docs && r[|docs|..] == chosen.value
  {
    if chosen.Some? then docs + chosen.value else docs
  }

  /** `removeDoc(index)`: every document whose position is not `index`, in order. */
  function RemoveDoc(docs: seq<LocalFile>, index: int): (r: seq<LocalFile>)
    ensures !(0 <= index < |docs|) ==> r == docs
    ensures 0 <= index < |docs| ==>
      && |r| == |docs| - 1
      && (forall j :: 0 <= j < index ==> r[j] == docs[j])
      && (forall j :: index <= j < |r| ==> r[j] == docs[j + 1])
  {
    if 0 <= index < |docs| then docs[..index] + docs[index + 1..] else docs
  }

  /** Removing a document attached last undoes attaching it. */
  lemma {:induction false} RemoveLastAdded(docs: seq<LocalFile>, f: LocalFile)
    ensures RemoveDoc(AddDocs(docs, Some([f])), |docs|) == docs
  {
    var r := RemoveDoc(AddDocs(docs, Some([f])), |docs|);
    assert |r| == |docs|;
    forall j | 0 <= j < |docs|
      ensures r[j] == docs[j]
    {
      assert AddDocs(docs, Some([f]))[..|docs|][j] == docs[j];
    }
  }

  // ---------------------------------------------------------------------------------------------
  // Submitting
  // ---------------------------------------------------------------------------------------------

  /** The part sent for one form field: the phone number goes with its code in front. */
  function FieldPart(f: Field, phoneCode: string): Part
  {
    Part(f.key, Text(if f.key == "contactPhone" then phoneCode + " " + f.value else f.value))
  }

  /** The parts for the form fields, in key order. */
  function FieldParts(form: Form, phoneCode: string): (parts: seq<Part>)
    ensures |parts| == |form|
    ensures forall i :: 0 <= i < |form| ==> parts[i] == FieldPart(form[i], phoneCode)
  {
    seq(|form|, i requires 0 <= i < |form| => FieldPart(form[i], phoneCode))
  }

  /** The multipart body of `handleSubmit`: one part per field in key order, then the documents. */
  function RegistrationParts(form: Form, phoneCode: string, docs: seq<LocalFile>): (parts: seq<Part>)
    ensures |parts| == |form| + |docs|
    ensures forall i :: 0 <= i < |form| ==> parts[i] == FieldPart(form[i], phoneCode)
    ensures forall i :: 0 <= i < |docs| ==> parts[|form| + i] == Part("documents", Blob(docs[i]))
  {
    FieldParts(form, phoneCode) + Blobs("documents", docs)
  }

  /** What the body says about each field: sent once, verbatim, except the phone with its code. */
  lemma {:induction false} RegistrationFieldSent(form: Form, phoneCode: string, docs: seq<LocalFile>, k: nat)
    requires DistinctKeys(form) && k < |form| && form[k].key != "documents"
    ensures var parts := RegistrationParts(form, phoneCode, docs);
      && parts[k].key == form[k].key
      && (form[k].key == "contactPhone" ==> parts[k].value == Text(phoneCode + " " + form[k].value))
      && (form[k].key != "contactPhone" ==> parts[k].value == Text(form[k].value))
      && forall j :: 0 <= j < |parts| && parts[j].key == form[k].key ==> j == k
  {
  }

  /** Fills the body by appending each field, then each document, as the two loops do. */
  method EncodeRegistration(form: Form, phoneCode: string, docs: seq<LocalFile>) returns (data: seq<Part>)
    ensures data == RegistrationParts(form, phoneCode, docs)
  {
    data := EncodeFields(form, phoneCode);
    data := AppendDocuments(data, docs);
  }

  /** The first loop: one part per field, the phone number prefixed with its code. */
  method EncodeFields(form: Form, phoneCode: string) returns (data: seq<Part>)
    ensures data == FieldParts(form, phoneCode)
  {
    data := [];
    var i := 0;
    while i < |form|
      invariant 0 <= i <= |form|
      invariant |data| == i && forall j :: 0 <= j < i ==> data[j] == FieldPart(form[j], phoneCode)
    {
      var f := form[i];
      var value := f.value;
      if f.key == "contactPhone" {
        value := phoneCode + " " + f.value;
      }
      data := data + [Part(f.key, Text(value))];
      i := i + 1;
    }
  }

  /** The second loop: one `documents` part per attached file, after what is already there. */
  method AppendDocuments(prefix: seq<Part>, docs: seq<LocalFile>) returns (data: seq<Part>)
    ensures data == prefix + Blobs("documents", docs)
  {
    data := prefix;
    var k := 0;
    while k < |docs|
      invariant 0 <= k <= |docs|
      invariant data == prefix + Blobs("documents", docs)[..k]
    {
      assert Blobs("documents", docs)[..k + 1] == Blobs("documents", docs)[..k] + [Part("documents", Blob(docs[k]))];
      data := data + [Part("documents", Blob(docs[k]))];
      k := k + 1;
    }
    assert Blobs("documents", docs)[..|docs|] == Blobs("documents", docs);
  }

  datatype SubmitStatus = Idle | Loading | Success | Failed

  /** The error text: the server's `message` when there is one, "Registration failed" otherwise. */
  function ErrorMessage(serverMessage: Option<string>): (m: string)
    ensures Truthy(serverMessage) ==> m == serverMessage.value
    ensures !Truthy(serverMessage) ==> m == "Registration failed"
  {
    if Truthy(serverMessage) then serverMessage.value else "Registration failed"
  }

  /** Pressing submit: the status becomes LOADING and the error text is kept. */
  function BeginSubmit(errorMsg: string): (out: (SubmitStatus, string))
    ensures out.0 == Loading && out.1 == errorMsg
  {
    (Loading, errorMsg)
  }

  /** The status and error text once the request has answered. */
  function AfterSubmit(ok: bool, serverMessage: Option<string>, errorMsg: string): (out: (SubmitStatus, string))
    ensures ok ==> out == (Success, errorMsg)
    ensures !ok ==> out == (Failed, ErrorMessage(serverMessage))
  {
    if ok then (Success, errorMsg) else (Failed, ErrorMessage(serverMessage))
  }

  /** A submission that has started always settles: SUCCESS exactly when the request succeeded, ERROR otherwise. */
  lemma SubmitSettles(ok: bool, serverMessage: Option<string>, errorMsg: string)
    ensures var started := BeginSubmit(errorMsg);
      var done := AfterSubmit(ok, serverMessage, started.1);
      && done.0 != Loading && done.0 != Idle
      && (done.0 == Success <==> ok)
      && (!ok ==> done.1 == ErrorMessage(serverMessage))
  {
  }
}
