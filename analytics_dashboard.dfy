/** The analytics dashboard's figures: the summary cards are a sum, a first
    entry and a first match over the built-in data; the charts colour slices
    by cycling a palette and bars by verification status. */
module Analytics {
  import opened Wrappers
  import opened Types
  import opened Seqs

  const MockAnalyticsData: AnalyticsData := AnalyticsData(
    [MonthCount("Jan", 45), MonthCount("Feb", 52), MonthCount("Mar", 49),
     MonthCount("Apr", 62), MonthCount("May", 58), MonthCount("Jun", 71)],
    [MedicationCount("Amoxicillin", 87), MedicationCount("Lisinopril", 64),
     MedicationCount("Metformin", 53), MedicationCount("Atorvastatin", 49),
     MedicationCount("Albuterol", 38)],
    [StatusCount(Verified, 42), StatusCount(Pending, 15), StatusCount(Expired, 8)])

  /** `reduce((total, month) => total + month.count, acc)`: a left fold. */
  function Reduce(months: seq<MonthCount>, acc: nat): nat {
    if months == [] then acc else Reduce(months[1..], acc + months[0].count)
  }

  /** The monthly counts summed, defined from the right: the reference the
      fold is checked against. */
  function Sum(months: seq<MonthCount>): nat {
    if months == [] then 0 else months[0].count + Sum(months[1..])
  }

  /** The "Total Prescriptions" card. */
  function PrescriptionsTotal(data: AnalyticsData): nat {
    Reduce(data.prescriptionsPerMonth, 0)
  }

  lemma {:induction false} ReduceIsSum(months: seq<MonthCount>, acc: nat)
    ensures Reduce(months, acc) == acc + Sum(months)
    decreases |months|
  {
    if months != [] {
      ReduceIsSum(months[1..], acc + months[0].count);
    }
  }

  lemma {:induction false} SumAppend(months: seq<MonthCount>, m: MonthCount)
    ensures Sum(months + [m]) == Sum(months) + m.count
    decreases |months|
  {
    if months == [] {
      assert months + [m] == [m];
    } else {
      assert (months + [m])[1..] == months[1..] + [m];
      SumAppend(months[1..], m);
    }
  }

  /** The total is the sum of the monthly counts: 0 for no months, and one
      more month adds exactly its count. No single month exceeds it. */
  lemma TotalIsSumOfMonths(data: AnalyticsData, m: MonthCount)
    ensures PrescriptionsTotal(data) == Sum(data.prescriptionsPerMonth)
    ensures data.prescriptionsPerMonth == [] ==> PrescriptionsTotal(data) == 0
    ensures PrescriptionsTotal(data.(prescriptionsPerMonth := data.prescriptionsPerMonth + [m]))
         == PrescriptionsTotal(data) + m.count
  {
    ReduceIsSum(data.prescriptionsPerMonth, 0);
    ReduceIsSum(data.prescriptionsPerMonth + [m], 0);
    SumAppend(data.prescriptionsPerMonth, m);
  }

  lemma {:induction false} MonthWithinSum(months: seq<MonthCount>, i: nat)
    requires i < |months|
    ensures months[i].count <= Sum(months)
    decreases |months|
  {
    if i > 0 {
      MonthWithinSum(months[1..], i - 1);
    }
  }

  /** The built-in data totals 337. */
  lemma MockTotal()
    ensures PrescriptionsTotal(MockAnalyticsData) == 337
  {
    ReduceIsSum(MockAnalyticsData.prescriptionsPerMonth, 0);
  }

  /** The "Most Prescribed" card: the first entry's name, or "N/A" when there
      is none or its name is empty (`?.medication || 'N/A'`). */
  function MostCommonMedication(data: AnalyticsData): (name: string)
    ensures data.commonMedications != [] && data.commonMedications[0].medication != ""
            ==> name == data.commonMedications[0].medication
    ensures data.commonMedications == [] || data.commonMedications[0].medication == "" ==> name == "N/A"
    ensures name != ""
  {
    if data.commonMedications != [] && data.commonMedications[0].medication != "" then
      data.commonMedications[0].medication
    else "N/A"
  }

  /** The card shows the first entry, not the most prescribed one: with a
      list not sorted by count it names a medication that is outnumbered. */
  lemma MostCommonIsNotMaximum()
    ensures var data := AnalyticsData([], [MedicationCount("A", 1), MedicationCount("B", 2)], []);
            MostCommonMedication(data) == "A" && data.commonMedications[1].count > data.commonMedications[0].count
  {
  }

  /** Entries after the first never change the card, however large their
      counts: the card does not look for the maximum. */
  lemma MostCommonIgnoresLaterEntries(data: AnalyticsData, more: seq<MedicationCount>)
    requires data.commonMedications != []
    ensures MostCommonMedication(data.(commonMedications := data.commonMedications + more))
         == MostCommonMedication(data)
  {
    assert (data.commonMedications + more)[0] == data.commonMedications[0];
  }

  /** The built-in list is sorted by descending count, so on it the first
      entry is also the maximum. */
  lemma MockMostCommonIsMaximum()
    ensures MostCommonMedication(MockAnalyticsData) == "Amoxicillin"
    ensures forall i, j :: 0 <= i < j < |MockAnalyticsData.commonMedications| ==>
              MockAnalyticsData.commonMedications[i].count >= MockAnalyticsData.commonMedications[j].count
    ensures forall m :: m in MockAnalyticsData.commonMedications ==> m.count <= MockAnalyticsData.commonMedications[0].count
  {
  }

  /** The "Verified Doctors" card: the count of the first verified entry, or
      0 when there is none. */
  function VerifiedDoctorsCount(data: AnalyticsData): (count: nat)
    ensures (forall i :: 0 <= i < |data.verificationStats| ==> data.verificationStats[i].status != Verified) ==>
            count == 0
    ensures forall i :: (0 <= i < |data.verificationStats| && data.verificationStats[i].status == Verified &&
                         (forall j :: 0 <= j < i ==> data.verificationStats[j].status != Verified))
                        ==> count == data.verificationStats[i].count
    ensures count != 0 ==>
              exists i :: (0 <= i < |data.verificationStats| &&
                           data.verificationStats[i] == StatusCount(Verified, count) &&
                           forall j :: 0 <= j < i ==> data.verificationStats[j].status != Verified)
  {
    match FindFirst(data.verificationStats, (s: StatusCount) => s.status == Verified)
    case Some(i) => data.verificationStats[i].count
    case None => 0
  }

  /** A verified entry ahead of the others is the one counted, whatever
      follows it. */
  lemma VerifiedCountOfFirst(data: AnalyticsData, count: nat, rest: seq<StatusCount>)
    requires data.verificationStats == [StatusCount(Verified, count)] + rest
    ensures VerifiedDoctorsCount(data) == count
  {
  }

  /** Entries of other statuses ahead of the first verified one are
      skipped: putting one in front never changes the count. */
  lemma VerifiedCountSkipsOthers(data: AnalyticsData, other: StatusCount)
    requires other.status != Verified
    ensures VerifiedDoctorsCount(data.(verificationStats := [other] + data.verificationStats))
         == VerifiedDoctorsCount(data)
  {
    var stats := [other] + data.verificationStats;
    assert stats[1..] == data.verificationStats;
  }

  /** The built-in data counts 42 verified doctors. */
  lemma MockVerifiedCount()
    ensures VerifiedDoctorsCount(MockAnalyticsData) == 42
  {
    VerifiedCountOfFirst(MockAnalyticsData, 42, MockAnalyticsData.verificationStats[1..]);
  }

  const Colors: seq<string> := ["#0ea5e9", "#6366f1", "#f59e0b", "#ef4444", "#10b981"]

  /** The pie slice colour: `COLORS[index % COLORS.length]`. */
  function SliceColor(index: nat): (c: string)
    ensures c in Colors
  {
    Colors[index % |Colors|]
  }

  /** Colours repeat every five slices and neighbouring slices differ. */
  lemma SliceColorsCycle(index: nat)
    ensures SliceColor(index + 5) == SliceColor(index)
    ensures SliceColor(index + 1) != SliceColor(index)
    ensures index < 5 ==> SliceColor(index) == Colors[index]
  {
    assert (index + 5) % 5 == index % 5;
    assert (index + 1) % 5 == if index % 5 == 4 then 0 else index % 5 + 1;
  }

  /** Among any five consecutive slices no colour repeats. */
  lemma FiveSlicesDistinct(index: nat, i: nat, j: nat)
    requires i < j < 5
    ensures SliceColor(index + i) != SliceColor(index + j)
  {
    assert (index + i) % 5 != (index + j) % 5;
  }

  const Green: string := "#10b981"
  const Amber: string := "#f59e0b"
  const Red: string := "#ef4444"

  /** The bar colour: green for verified, amber for pending, red otherwise. */
  function BarColor(status: VerificationStatus): (c: string)
    ensures c == Green <==> status == Verified
    ensures c == Amber <==> status == Pending
    ensures c == Red <==> status == Expired
  {
    assert Green[1] == '1' && Amber[1] == 'f' && Red[1] == 'e';
    match status
    case Verified => Green
    case Pending => Amber
    case Expired => Red
  }

  /** The bar colours are palette colours: red, amber and green are its
      last three entries. */
  lemma BarColorsFromPalette(status: VerificationStatus)
    ensures BarColor(status) in Colors[2..]
  {
  }
}
