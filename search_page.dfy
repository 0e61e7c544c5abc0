/**
 * The state logic of `src/app/search-vendor-report/page.tsx`: the list
 * loaded from the bank on mount, removal by name, the search filter, and
 * how the selected vendor follows changes to the list. Each React state
 * update is a function from the old page state to the new one.
 */
module SearchPage {
  import opened Wrappers
  import opened Records
  import opened VendorBank
  import Seqs

  datatype PageState = PageState(
    savedVendors: seq<VendorRecord>,
    searchTerm: string,
    selectedVendor: Option<VendorRecord>)

  /** The state before the mount effect runs. */
  const InitialPageState := PageState([], "", None)

  /** The mount effect: adopt the stored list when it parses to an array; otherwise keep the list. */
  function OnMount(st: PageState, slot: Option<BankJson>): PageState
  {
    match slot
    case Some(VendorArray(vs)) => st.(savedVendors := vs)
    case _ => st
  }

  /** The page starts from the same list the save path reads: an unreadable slot leaves it empty. */
  lemma MountAgreesWithSave(slot: Option<BankJson>)
    ensures OnMount(InitialPageState, slot).savedVendors == StoredVendors(slot)
    ensures !(slot.Some? && slot.value.VendorArray?) ==> OnMount(InitialPageState, slot).savedVendors == []
    ensures OnMount(InitialPageState, slot).selectedVendor == None
  {
  }

  function KeepOthers(name: string): VendorRecord -> bool
  {
    (v: VendorRecord) => !NameIs(v, name)
  }

  /** The page state after a removal, and the list written to the bank. */
  datatype Removal = Removal(next: PageState, written: BankJson)

  /** `handleRemoveVendor`. */
  function HandleRemoveVendor(st: PageState, name: string): (r: Removal)
    ensures r.written == VendorArray(r.next.savedVendors)
    ensures r.next.searchTerm == st.searchTerm
    ensures st.selectedVendor.Some? && NameOf(st.selectedVendor.value) == name ==> r.next.selectedVendor == None
    ensures !(st.selectedVendor.Some? && NameOf(st.selectedVendor.value) == name) ==> r.next.selectedVendor == st.selectedVendor
  {
    var updatedVendors := Seqs.Filter(st.savedVendors, KeepOthers(name));
    var selected := if st.selectedVendor.Some? && NameOf(st.selectedVendor.value) == name then None else st.selectedVendor;
    Removal(PageState(updatedVendors, st.searchTerm, selected), VendorArray(updatedVendors))
  }

  /**
   * Removal keeps exactly the entries whose name differs, in their
   * original order, and so drops every duplicate of the name.
   */
  lemma RemoveKeepsExactlyOthers(st: PageState, name: string)
    ensures var kept := HandleRemoveVendor(st, name).next.savedVendors;
      && (forall i :: 0 <= i < |kept| ==> !NameIs(kept[i], name) && kept[i] in st.savedVendors)
      && (forall i :: 0 <= i < |st.savedVendors| && !NameIs(st.savedVendors[i], name) ==> st.savedVendors[i] in kept)
      && Seqs.IsSubsequence(kept, st.savedVendors)
      && (forall v :: multiset(kept)[v] == if NameIs(v, name) then 0 else multiset(st.savedVendors)[v])
  {
    Seqs.FilterIsSubsequence(st.savedVendors, KeepOthers(name));
    Seqs.FilterCounts(st.savedVendors, KeepOthers(name));
  }

  /** Removing a name twice is removing it once. */
  lemma RemoveIdempotent(st: PageState, name: string)
    ensures var once := HandleRemoveVendor(st, name);
      HandleRemoveVendor(once.next, name) == once
  {
    Seqs.FilterIdempotent(st.savedVendors, KeepOthers(name));
  }

  /** `filteredVendors`: everything for a blank term, else the names containing the term, ignoring case. */
  function FilteredVendors(savedVendors: seq<VendorRecord>, searchTerm: string): seq<VendorRecord>
  {
    if Trim(searchTerm) == "" then savedVendors
    else Seqs.Filter(savedVendors, (v: VendorRecord) => Includes(ToLower(NameOf(v)), ToLower(searchTerm)))
  }

  /** The name contains the term at some position, case aside. */
  ghost predicate Matches(v: VendorRecord, searchTerm: string)
  {
    exists i :: OccursAt(ToLower(NameOf(v)), ToLower(searchTerm), i)
  }

  /** A blank or whitespace-only term lists the whole bank, unchanged. */
  lemma BlankSearchListsAll(savedVendors: seq<VendorRecord>, searchTerm: string)
    requires IsBlank(searchTerm)
    ensures FilteredVendors(savedVendors, searchTerm) == savedVendors
  {
    TrimEmptyIffBlank(searchTerm);
  }

  /**
   * Any other term lists, in bank order, exactly the entries whose
   * lower-cased name contains the lower-cased term.
   */
  lemma SearchListsMatches(savedVendors: seq<VendorRecord>, searchTerm: string)
    requires !IsBlank(searchTerm)
    ensures var found := FilteredVendors(savedVendors, searchTerm);
      && (forall i :: 0 <= i < |found| ==> found[i] in savedVendors && Matches(found[i], searchTerm))
      && (forall i :: 0 <= i < |savedVendors| && Matches(savedVendors[i], searchTerm) ==> savedVendors[i] in found)
      && Seqs.IsSubsequence(found, savedVendors)
      && (forall v :: multiset(found)[v] == if Matches(v, searchTerm) then multiset(savedVendors)[v] else 0)
  {
    TrimEmptyIffBlank(searchTerm);
    var p := (v: VendorRecord) => Includes(ToLower(NameOf(v)), ToLower(searchTerm));
    Seqs.FilterIsSubsequence(savedVendors, p);
    Seqs.FilterCounts(savedVendors, p);
    forall v: VendorRecord ensures p(v) <==> Matches(v, searchTerm) {
      IncludesIffOccurs(ToLower(NameOf(v)), ToLower(searchTerm));
    }
  }

  lemma {:induction false} LowerCaseIdempotent(s: string)
    ensures ToLower(ToLower(s)) == ToLower(s)
  {
    assert forall i :: 0 <= i < |s| ==> LowerChar(LowerChar(s[i])) == LowerChar(s[i]);
  }

  lemma {:induction false} LowerCaseKeepsBlank(s: string)
    ensures IsBlank(ToLower(s)) <==> IsBlank(s)
  {
    assert forall i :: 0 <= i < |s| ==> (IsJsWhitespace(LowerChar(s[i])) <==> IsJsWhitespace(s[i]));
  }

  /** Only the lower-cased term matters: searching for a term and for its lower-case form list the same. */
  lemma SearchIgnoresTermCase(savedVendors: seq<VendorRecord>, searchTerm: string)
    ensures FilteredVendors(savedVendors, ToLower(searchTerm)) == FilteredVendors(savedVendors, searchTerm)
  {
    LowerCaseIdempotent(searchTerm);
    LowerCaseKeepsBlank(searchTerm);
    TrimEmptyIffBlank(searchTerm);
    TrimEmptyIffBlank(ToLower(searchTerm));
    var p := (v: VendorRecord) => Includes(ToLower(NameOf(v)), ToLower(searchTerm));
    var q := (v: VendorRecord) => Includes(ToLower(NameOf(v)), ToLower(ToLower(searchTerm)));
    assert p == q;
  }

  /** `handleVendorListUpdate`: adopt the new list and re-point (or drop) the selection. */
  function HandleVendorListUpdate(st: PageState, updatedVendors: seq<VendorRecord>): (next: PageState)
    ensures next.savedVendors == updatedVendors && next.searchTerm == st.searchTerm
    ensures st.selectedVendor == None ==> next.selectedVendor == None
    ensures st.selectedVendor.Some? && IndexOfName(updatedVendors, NameOf(st.selectedVendor.value)) >= 0 ==>
      var i := IndexOfName(updatedVendors, NameOf(st.selectedVendor.value));
      next.selectedVendor == Some(updatedVendors[i])
    ensures st.selectedVendor.Some? && (forall j :: 0 <= j < |updatedVendors| ==> !NameIs(updatedVendors[j], NameOf(st.selectedVendor.value))) ==>
      next.selectedVendor == None
  {
    var selected :=
      match st.selectedVendor
      case None => None
      case Some(sel) =>
        var i := IndexOfName(updatedVendors, NameOf(sel));
        if i >= 0 then Some(updatedVendors[i]) else None;
    PageState(updatedVendors, st.searchTerm, selected)
  }

  /** After a save, a selection with the saved name shows the record just saved. */
  lemma SaveRefreshesSelection(st: PageState, list: seq<VendorRecord>, v: VendorRecord)
    requires st.selectedVendor.Some? && NameOf(st.selectedVendor.value) == NameOf(v)
    ensures HandleVendorListUpdate(st, UpsertVendor(list, v)).selectedVendor == Some(v)
  {
    UpsertPutsRecordFirst(list, v);
  }

  /** `{ ...initialInputState, ...vendor }`: every form field present, the vendor's values winning. */
  function LoadedForm(vendor: VendorRecord): (form: VendorRecord)
    ensures form.Keys == InitialInputState.Keys + vendor.Keys
    ensures forall k :: k in vendor ==> form[k] == vendor[k]
    ensures forall f :: f in FormFields && f !in vendor ==> form[f] == Str("")
  {
    InitialInputState + vendor
  }

  /** `handleLoadVendor`. */
  function HandleLoadVendor(st: PageState, vendor: VendorRecord): (next: PageState)
    ensures next.savedVendors == st.savedVendors && next.searchTerm == st.searchTerm
    ensures next.selectedVendor == Some(LoadedForm(vendor))
  {
    st.(selectedVendor := Some(LoadedForm(vendor)))
  }

  /** Loading a record that already has every form field selects it as it is. */
  lemma LoadingCompleteRecordKeepsIt(vendor: VendorRecord)
    requires forall f :: f in FormFields ==> f in vendor
    ensures LoadedForm(vendor) == vendor
  {
    InitialInputStateIsBlank();
    assert LoadedForm(vendor).Keys == vendor.Keys;
  }
}
