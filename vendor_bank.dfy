/**
 * The local-storage "vendor bank" of `src/components/vendor/vendor-processor.tsx`:
 * the blank form, the field-by-field form update, and the save that
 * upserts the form into the list stored under `vendorInformationBank_manual`.
 */
module VendorBank {
  import opened Wrappers
  import opened Records
  import Seqs

  /** The fields of `initialInputState`, in declaration order. */
  const FormFields: seq<string> := [
    "vendorName",
    "vendorIndustry",
    "companySize",
    "tenderNumber",
    "tenderTitle",
    "dateOfFinancialEvaluation",
    "evaluationValidityDate",
    "evaluatorNameDepartment",
    "overallResult",
    "quantitativeScore",
    "quantitativeBand",
    "quantitativeRiskCategory",
    "altmanZScore",
    "altmanZBand",
    "altmanZRiskCategory",
    "qualitativeScore",
    "qualitativeBand",
    "qualitativeRiskCategory",
    "overallFinancialEvaluationResult",
    "keyInformation"
  ]

  /** `initialInputState`: every form field, each the empty string. */
  const InitialInputState: VendorRecord := map f | f in FormFields :: Str("")

  /** The blank form has the twenty fields and nothing else, each empty. */
  lemma InitialInputStateIsBlank()
    ensures |FormFields| == 20 && FormFields[0] == VendorNameKey
    ensures forall i, j :: 0 <= i < j < |FormFields| ==> FormFields[i] != FormFields[j]
    ensures InitialInputState.Keys == set f | f in FormFields
    ensures forall f :: f in InitialInputState ==> InitialInputState[f] == Str("")
    ensures NameOf(InitialInputState) == ""
  {
  }

  /** `handleInputChange`: `{ ...prev, [name]: value }`. */
  function HandleInputChange(prev: VendorRecord, name: string, value: string): (next: VendorRecord)
    ensures next.Keys == prev.Keys + {name}
    ensures next[name] == Str(value)
    ensures forall k :: k in prev && k != name ==> next[k] == prev[k]
  {
    prev[name := Str(value)]
  }

  /**
   * What `JSON.parse` makes of the text stored under the bank key: it
   * throws, it yields something other than an array, or it yields the
   * array of vendor objects that a save wrote.
   */
  datatype BankJson = Unparseable | NotAnArray | VendorArray(vendors: seq<VendorRecord>)

  /**
   * The list a reader starts from: the stored array, or the empty list when
   * nothing (or the empty string) is stored, the text does not parse, or it
   * is not an array.
   */
  function StoredVendors(slot: Option<BankJson>): (vendors: seq<VendorRecord>)
    ensures slot.Some? && slot.value.VendorArray? ==> vendors == slot.value.vendors
    ensures !(slot.Some? && slot.value.VendorArray?) ==> vendors == []
  {
    match slot
    case Some(VendorArray(vs)) => vs
    case _ => []
  }

  /** Names are pairwise distinct. */
  predicate DistinctNames(list: seq<VendorRecord>)
  {
    forall i, j :: 0 <= i < j < |list| ==> NameOf(list[i]) != NameOf(list[j])
  }

  /** `findIndex(v => v.vendorName === name)`. */
  function IndexOfName(list: seq<VendorRecord>, name: string): (i: int)
    ensures -1 <= i < |list|
    ensures 0 <= i ==> NameIs(list[i], name) && forall j :: 0 <= j < i ==> !NameIs(list[j], name)
    ensures i == -1 <==> forall j :: 0 <= j < |list| ==> !NameIs(list[j], name)
  {
    Seqs.FirstIndex(list, (e: VendorRecord) => NameIs(e, name))
  }

  /** The list upsert of `handleSaveVendor`. */
  function UpsertVendor(list: seq<VendorRecord>, v: VendorRecord): seq<VendorRecord>
  {
    var i := IndexOfName(list, NameOf(v));
    if i > -1 then list[i := v] else list + [v]
  }

  /** The first entry with the name is at `i`, whatever `findIndex` would look at later. */
  lemma IndexOfNameIs(list: seq<VendorRecord>, name: string, i: int)
    requires 0 <= i < |list| && NameIs(list[i], name)
    requires forall j :: 0 <= j < i ==> !NameIs(list[j], name)
    ensures IndexOfName(list, name) == i
  {
  }

  /** An entry with exactly the same name is replaced at the first such index; nothing else moves. */
  lemma UpsertReplacesFirstMatch(list: seq<VendorRecord>, v: VendorRecord, i: int)
    requires 0 <= i < |list| && NameIs(list[i], NameOf(v))
    requires forall j :: 0 <= j < i ==> !NameIs(list[j], NameOf(v))
    ensures |UpsertVendor(list, v)| == |list|
    ensures UpsertVendor(list, v)[i] == v
    ensures forall j :: 0 <= j < |list| && j != i ==> UpsertVendor(list, v)[j] == list[j]
  {
    IndexOfNameIs(list, NameOf(v), i);
  }

  /** With no entry of that name the record goes at the end; earlier entries keep their order. */
  lemma UpsertAppendsNew(list: seq<VendorRecord>, v: VendorRecord)
    requires forall j :: 0 <= j < |list| ==> !NameIs(list[j], NameOf(v))
    ensures |UpsertVendor(list, v)| == |list| + 1
    ensures UpsertVendor(list, v)[..|list|] == list
    ensures UpsertVendor(list, v)[|list|] == v
  {
    assert IndexOfName(list, NameOf(v)) == -1;
    assert (list + [v])[..|list|] == list;
  }

  /** The saved record is in the list at the first entry with its name. */
  lemma UpsertPutsRecordFirst(list: seq<VendorRecord>, v: VendorRecord)
    ensures var r := UpsertVendor(list, v);
      IndexOfName(r, NameOf(v)) >= 0 && r[IndexOfName(r, NameOf(v))] == v
  {
    var i := IndexOfName(list, NameOf(v));
    var r := UpsertVendor(list, v);
    if i > -1 {
      UpsertReplacesFirstMatch(list, v, i);
      IndexOfNameIs(r, NameOf(v), i);
    } else {
      UpsertAppendsNew(list, v);
      forall j | 0 <= j < |list| ensures !NameIs(r[j], NameOf(v)) {
        assert r[j] == list[j];
      }
      IndexOfNameIs(r, NameOf(v), |list|);
    }
  }

  /** Saving the same form twice gives the list saving it once gives. */
  lemma UpsertIdempotent(list: seq<VendorRecord>, v: VendorRecord)
    ensures UpsertVendor(UpsertVendor(list, v), v) == UpsertVendor(list, v)
  {
    UpsertPutsRecordFirst(list, v);
    var r := UpsertVendor(list, v);
    var k := IndexOfName(r, NameOf(v));
    assert r[k := v] == r;
  }

  /** Distinct names stay distinct, and the saved record's name occurs exactly once, at the saved record. */
  lemma UpsertKeepsNamesDistinct(list: seq<VendorRecord>, v: VendorRecord)
    requires DistinctNames(list)
    ensures DistinctNames(UpsertVendor(list, v))
    ensures exists k :: 0 <= k < |UpsertVendor(list, v)| && UpsertVendor(list, v)[k] == v
    ensures forall k :: 0 <= k < |UpsertVendor(list, v)| && NameIs(UpsertVendor(list, v)[k], NameOf(v)) ==>
      UpsertVendor(list, v)[k] == v
  {
    var i := IndexOfName(list, NameOf(v));
    var r := UpsertVendor(list, v);
    if i > -1 {
      UpsertReplacesFirstMatch(list, v, i);
      forall a, b | 0 <= a < b < |r| ensures NameOf(r[a]) != NameOf(r[b]) {
        if a == i {
          assert NameOf(list[b]) != NameOf(list[i]);
        } else if b == i {
          assert NameOf(list[a]) != NameOf(list[i]);
        }
      }
    } else {
      UpsertAppendsNew(list, v);
      forall a, b | 0 <= a < b < |r| ensures NameOf(r[a]) != NameOf(r[b]) {
        if b == |list| {
          assert r[a] == list[a] && !NameIs(list[a], NameOf(v));
        } else {
          assert r[a] == list[a] && r[b] == list[b];
        }
      }
      assert r[|list|] == v;
    }
  }

  /** The browser's storage slot for the bank key. */
  class BankStorage {
    var slot: Option<BankJson>

    constructor (initial: Option<BankJson>)
      ensures slot == initial
    {
      slot := initial;
    }
  }

  /**
   * `handleSaveVendor`: refuse a blank name; otherwise read the stored
   * list, upsert the form into a copy, write the copy back and hand the
   * same list to `onVendorSaved` (`saved`).
   */
  method HandleSaveVendor(storage: BankStorage, formInputs: VendorRecord) returns (saved: Option<seq<VendorRecord>>)
    modifies storage
    ensures IsBlank(NameOf(formInputs)) ==> saved == None && storage.slot == old(storage.slot)
    ensures !IsBlank(NameOf(formInputs)) ==>
      saved == Some(UpsertVendor(StoredVendors(old(storage.slot)), formInputs))
      && storage.slot == Some(VendorArray(saved.value))
  {
    TrimEmptyIffBlank(NameOf(formInputs));
    if Trim(formInputs[VendorNameKey].s) == "" {
      return None;
    }
    var currentSavedVendors := StoredVendors(storage.slot);
    var existingVendorIndex := IndexOfName(currentSavedVendors, NameOf(formInputs));
    var updatedVendorsList: seq<VendorRecord>;
    if existingVendorIndex > -1 {
      updatedVendorsList := currentSavedVendors;
      updatedVendorsList := updatedVendorsList[existingVendorIndex := formInputs];
    } else {
      updatedVendorsList := currentSavedVendors + [formInputs];
    }
    storage.slot := Some(VendorArray(updatedVendorsList));
    saved := Some(updatedVendorsList);
  }
}
