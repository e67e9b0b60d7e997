/** The medication picker's search: a case-insensitive substring filter on
    name or generic name over a fixed catalogue. */
module MedicationSearch {
  import opened Wrappers
  import opened Types
  import opened Strings
  import opened Seqs

  /** The mock catalogue, in its source order. */
  const Catalogue: seq<Medication> := [
    Medication("med-001", "Amoxicillin", "Amoxicillin", "Capsule", "500 mg", "Pfizer",
               Some(ReferenceDose(250, 500, "mg", Some(true)))),
    Medication("med-002", "Lisinopril", "Lisinopril", "Tablet", "10 mg", "Merck",
               Some(ReferenceDose(5, 40, "mg", Some(false)))),
    Medication("med-003", "Ibuprofen", "Ibuprofen", "Tablet", "200 mg", "Johnson & Johnson",
               Some(ReferenceDose(200, 800, "mg", Some(false)))),
    Medication("med-004", "Metformin", "Metformin Hydrochloride", "Tablet", "500 mg", "GlaxoSmithKline",
               Some(ReferenceDose(500, 2000, "mg", Some(false)))),
    Medication("med-005", "Atorvastatin", "Atorvastatin Calcium", "Tablet", "20 mg", "Pfizer",
               Some(ReferenceDose(10, 80, "mg", Some(false))))
  ]

  /** The filter's test: the lower-cased term occurs in the lower-cased
      name or generic name. */
  predicate Matches(med: Medication, term: string) {
    Contains(Lower(med.name), Lower(term)) || Contains(Lower(med.genericName), Lower(term))
  }

  /** The filter over a list `meds`: the whole list for an empty term,
      otherwise exactly the matching entries in list order. */
  function SearchIn(meds: seq<Medication>, term: string): (r: seq<Medication>)
    ensures term == "" ==> r == meds
    ensures forall m :: m in r ==> m in meds && Matches(m, term)
    ensures forall i :: 0 <= i < |meds| && Matches(meds[i], term) ==> meds[i] in r
    ensures IsSubsequence(r, meds) && |r| <= |meds|
  {
    var p := (m: Medication) => Matches(m, term);
    FilterComplete(meds, p);
    FilterIsSubsequence(meds, p);
    SubsequenceReflexive(meds);
    if term != "" then Filter(meds, p) else meds
  }

  /** The list the picker shows for `term`. */
  function Search(term: string): seq<Medication> {
    SearchIn(Catalogue, term)
  }

  /** The empty-term branch is only a shortcut: filtering with the empty
      term would keep the whole list too. */
  lemma EmptyTermFilterKeepsAll(meds: seq<Medication>)
    ensures Filter(meds, (m: Medication) => Matches(m, "")) == meds
  {
    forall i | 0 <= i < |meds| ensures Matches(meds[i], "") {
      ContainsEmpty(Lower(meds[i].name));
    }
    FilterKeepsAll(meds, (m: Medication) => Matches(m, ""));
  }

  /** Every catalogue entry has a reference dose with `min <= max`. */
  lemma CatalogueDosesOrdered()
    ensures forall m :: m in Catalogue ==> m.referenceDose.Some? && m.referenceDose.value.min <= m.referenceDose.value.max
  {
  }

  /** Catalogue ids are pairwise distinct. */
  lemma CatalogueIdsDistinct()
    ensures forall i, j :: 0 <= i < j < |Catalogue| ==> Catalogue[i].id != Catalogue[j].id
  {
  }

  /** Matching ignores letter case: an upper-case term finds the same entries. */
  lemma SearchIgnoresCase(meds: seq<Medication>, term: string)
    ensures SearchIn(meds, term) == SearchIn(meds, Lower(term))
  {
    LowerIdempotent(term);
    FilterCongruent(meds, (m: Medication) => Matches(m, term), (m: Medication) => Matches(m, Lower(term)));
  }
}
