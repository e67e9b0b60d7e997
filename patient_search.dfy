/** Patient lookup by id or phone number over the mock patient list: the
    id is matched case-insensitively, the phone number verbatim, and a blank
    query is refused before the (simulated) request starts. */
module PatientLookup {
  import opened Wrappers
  import opened Types
  import opened Strings
  import opened Seqs

  const MockPatients: seq<Patient> := [
    Patient("pat-001", "John Smith", "1985-06-12", "Male", "555-123-4567", Some(75), Some(180),
            ["Penicillin", "Sulfa"],
            [MedicalRecord("med-001", "2023-01-15", "doc-123", "Dr. Jane Smith", "Hypertension",
                           "Patient presented with elevated blood pressure", "Prescribed Lisinopril 10mg daily")],
            [Prescription("rx-001", "pat-001", "doc-123", "Dr. Jane Smith", "med-002", "Lisinopril",
                          "10 mg", "daily", "30 days", "Take with food", "2023-01-15", "2023-02-15",
                          Active, None)]),
    Patient("pat-002", "Sarah Johnson", "1992-09-23", "Female", "555-987-6543", Some(65), Some(165),
            ["Latex"],
            [MedicalRecord("med-002", "2023-02-28", "doc-123", "Dr. Jane Smith", "Asthma",
                           "Recurrent asthma symptoms", "Prescribed albuterol inhaler")],
            [Prescription("rx-002", "pat-002", "doc-123", "Dr. Jane Smith", "med-005", "Albuterol",
                          "90 mcg", "as needed", "30 days", "Use inhaler when experiencing asthma symptoms",
                          "2023-02-28", "2023-03-28", Active, None)])
  ]

  /** The filter's test: the query occurs in the id (ignoring case) or in
      the phone number (as typed). */
  predicate PatientMatches(p: Patient, query: string) {
    Contains(Lower(p.id), Lower(query)) || Contains(p.phone, query)
  }

  /** The search over a patient list: exactly the matching patients, in
      list order. */
  function SearchIn(patients: seq<Patient>, query: string): (r: seq<Patient>)
    ensures forall p :: p in r ==> p in patients && PatientMatches(p, query)
    ensures forall i :: 0 <= i < |patients| && PatientMatches(patients[i], query) ==> patients[i] in r
    ensures IsSubsequence(r, patients) && |r| <= |patients|
  {
    var m := (p: Patient) => PatientMatches(p, query);
    FilterComplete(patients, m);
    FilterIsSubsequence(patients, m);
    Filter(patients, m)
  }

  /** Every active prescription in the mock data belongs to its patient. */
  lemma MockPrescriptionsBelongToOwner()
    ensures forall i, j :: 0 <= i < |MockPatients| && 0 <= j < |MockPatients[i].activePrescriptions|
              ==> MockPatients[i].activePrescriptions[j].patientId == MockPatients[i].id
  {
  }

  /** The query is not trimmed before matching: a query with a space in it
      passes the blank check but matches no mock patient, since no id or
      phone number contains a space. */
  lemma {:induction false} PaddedQueryFindsNothing(query: string)
    requires ' ' in query
    ensures SearchIn(MockPatients, query) == []
  {
    LowerKeepsNonLetter(query, ' ');
    forall i | 0 <= i < |MockPatients| ensures !PatientMatches(MockPatients[i], query) {
      var p := MockPatients[i];
      assert ' ' !in p.id && ' ' !in p.phone;
      LowerKeepsNonLetter(p.id, ' ');
      ContainsNeedsEveryChar(Lower(p.id), Lower(query), ' ');
      ContainsNeedsEveryChar(p.phone, query, ' ');
    }
    FilterKeepsNone(MockPatients, (p: Patient) => PatientMatches(p, query));
  }

  /** A query with a space is nonetheless not blank when it has another character. */
  lemma PaddedQueryPassesGuard()
    ensures !IsBlank(" pat-001") && ' ' in " pat-001"
  {
    assert !IsWhitespace(" pat-001"[1]);
  }

  /** The search box's state. */
  class PatientSearch {
    /** The list searched: the mock patients. */
    const patients: seq<Patient>
    var searchQuery: string
    var isSearching: bool
    var searchResults: seq<Patient>

    constructor ()
      ensures patients == MockPatients
      ensures searchQuery == "" && !isSearching && searchResults == []
    {
      patients := MockPatients;
      searchQuery := "";
      isSearching := false;
      searchResults := [];
    }

    method SetSearchQuery(q: string)
      modifies this`searchQuery
      ensures searchQuery == q
    {
      searchQuery := q;
    }

    /** `handleSearch` up to its delay. A blank query is refused and nothing
        changes; otherwise searching starts and the untrimmed query the
        callback will use is returned. */
    method StartSearch() returns (pending: Option<string>)
      modifies this
      ensures searchQuery == old(searchQuery) && searchResults == old(searchResults)
      ensures IsBlank(searchQuery) ==> pending.None? && isSearching == old(isSearching)
      ensures !IsBlank(searchQuery) ==> pending == Some(searchQuery) && isSearching && SearchDisabled()
    {
      TrimEmptyIffBlank(searchQuery);
      if Trim(searchQuery) == "" {
        return None;
      }
      isSearching := true;
      pending := Some(searchQuery);
    }

    /** The delayed callback: the results are stored, searching ends, and
        the "No Patients Found" notice is raised exactly when there are none. */
    method FinishSearch(query: string) returns (noPatientsFound: bool)
      modifies this
      ensures searchResults == SearchIn(patients, query) && !isSearching && !SearchDisabled()
      ensures searchQuery == old(searchQuery)
      ensures noPatientsFound <==> searchResults == []
    {
      var results := SearchIn(patients, query);
      searchResults := results;
      isSearching := false;
      noPatientsFound := |results| == 0;
    }

    /** The search button is disabled while searching. */
    function SearchDisabled(): (disabled: bool)
      reads this
      ensures disabled <==> isSearching
    {
      isSearching
    }
  }
}
