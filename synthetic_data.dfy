/** The record rules of the synthetic data generator. The random number
    generator is not modelled: every draw one record consumes is an input,
    and the rules that turn the draws into a record are modelled exactly,
    with the approval probability in integer hundredths. */
module SyntheticData {
  import opened Util

  const VisaTypes: seq<string> := ["Tourist", "Business", "Employment", "Student", "Medical", "Conference", "Research", "Entry"]
  const EducationLevels: seq<string> := ["10th Pass", "12th Pass", "Graduate", "Post Graduate", "Doctorate"]
  const Countries: seq<string> := [
    "USA", "UK", "Germany", "France", "Canada", "Australia", "Japan", "South Korea", "China", "Russia", "Brazil",
    "Bangladesh", "Nepal", "Sri Lanka", "UAE", "Singapore", "Thailand", "Malaysia", "South Africa", "Italy"]
  const ProcessingCenters: seq<string> := ["New Delhi", "Mumbai", "Chennai", "Kolkata", "Hyderabad", "Bengaluru", "Ahmedabad", "Pune"]
  const OccupationTypes: seq<string> := [
    "Professional", "Business Owner", "Student", "Retired", "Homemaker", "Government Employee", "Self Employed", "Academic"]
  const Genders: seq<string> := ["Male", "Female"]

  /** The visit purposes offered for each visa type. */
  function PurposesOf(visa: string): seq<string> {
    if visa == "Tourist" then ["Sightseeing", "Heritage Tour", "Wildlife Safari", "Beach Holiday", "Hill Station"]
    else if visa == "Business" then ["Client Meeting", "Conference", "Trade Fair", "Partnership Discussion", "Site Visit"]
    else if visa == "Employment" then ["IT Services", "Manufacturing", "Consulting", "Teaching", "Healthcare"]
    else if visa == "Student" then ["Undergraduate", "Postgraduate", "PhD Research", "Exchange Program", "Short Course"]
    else if visa == "Medical" then ["Surgery", "Treatment", "Consultation", "Follow-up", "Check-up"]
    else if visa == "Conference" then ["Tech Summit", "Business Conference", "Academic Conference", "Workshop", "Seminar"]
    else if visa == "Research" then ["Scientific Study", "Academic Research", "Field Work", "Collaboration", "Data Collection"]
    else ["Returning Resident", "PIO Visit", "OCI Holder", "Family Visit", "Emergency"]
  }

  /** The base processing days per visa type. */
  const BaseDays: map<string, int> := map[
    "Tourist" := 5, "Business" := 7, "Employment" := 15, "Student" := 12,
    "Medical" := 3, "Conference" := 5, "Research" := 20, "Entry" := 4]

  /** The inclusive bounds of `random.randint` for the age. */
  function AgeRange(visa: string): (int, int) {
    if visa == "Student" then (17, 35)
    else if visa == "Employment" then (22, 55)
    else if visa == "Medical" then (25, 75)
    else (20, 70)
  }

  function DurationChoices(visa: string): seq<int> {
    if visa == "Tourist" || visa == "Medical" then [30, 60, 90, 180]
    else if visa == "Business" then [30, 60, 90, 180, 365]
    else if visa == "Employment" then [365, 730, 1825]
    else if visa == "Student" then [365, 730, 1095, 1460]
    else [30, 60, 90]
  }

  /** Older applicants are more likely to have visited before. */
  function PreviousVisaChoices(age: int): seq<string> {
    if age > 35 then ["Yes", "Yes", "No"] else ["Yes", "No", "No"]
  }

  function FinancialRange(visa: string): (int, int) {
    if visa == "Employment" then (5000, 50000)
    else if visa == "Student" then (10000, 80000)
    else if visa == "Business" then (3000, 100000)
    else (1000, 30000)
  }

  function SponsorChoices(visa: string): seq<int> {
    if visa in ["Employment", "Business", "Conference"] then [1, 1, 1, 0]
    else if visa == "Student" then [1, 1, 0]
    else [1, 0, 0]
  }

  const DocumentChoices: seq<int> := [1, 1, 1, 1, 0]
  const ExpressChoices: seq<int> := [0, 0, 0, 1]
  const SlowCountries: seq<string> := ["China", "Russia", "Bangladesh"]
  const PeakMonths: seq<int> := [10, 11, 12, 1, 2, 3]

  /** The draws one record consumes, in the generator's order: a value for
      each `randint`, an index for each `choice`, and the `random()` that
      decides the status. Draws a record does not use are ignored. */
  datatype Draws = Draws(
    year: int, visaIndex: nat, age: int, genderIndex: nat, educationIndex: nat, countryIndex: nat,
    occupationIndex: nat, centerIndex: nat, purposeIndex: nat, durationIndex: nat, month: int,
    previousVisaIndex: nat, visits: int, financialProof: int, sponsorIndex: nat, documentsIndex: nat,
    expressIndex: nat, documentsDelay: int, countryDelay: int, peakDelay: int, variation: int, randVal: real)

  function VisaOf(d: Draws): string
    requires d.visaIndex < |VisaTypes|
  {
    VisaTypes[d.visaIndex]
  }

  /** Every draw lies in the range its call can return. */
  predicate WellFormed(d: Draws) {
    && 2020 <= d.year <= 2024
    && d.visaIndex < |VisaTypes|
    && AgeRange(VisaOf(d)).0 <= d.age <= AgeRange(VisaOf(d)).1
    && d.genderIndex < |Genders| && d.educationIndex < |EducationLevels| && d.countryIndex < |Countries|
    && d.occupationIndex < |OccupationTypes| && d.centerIndex < |ProcessingCenters|
    && d.purposeIndex < |PurposesOf(VisaOf(d))| && d.durationIndex < |DurationChoices(VisaOf(d))|
    && 1 <= d.month <= 12
    && d.previousVisaIndex < 3 && 1 <= d.visits <= 8
    && FinancialRange(VisaOf(d)).0 <= d.financialProof <= FinancialRange(VisaOf(d)).1
    && d.sponsorIndex < |SponsorChoices(VisaOf(d))|
    && d.documentsIndex < |DocumentChoices| && d.expressIndex < |ExpressChoices|
    && 5 <= d.documentsDelay <= 15 && 2 <= d.countryDelay <= 5 && 1 <= d.peakDelay <= 4
    && -2 <= d.variation <= 5
    && 0.0 <= d.randVal < 1.0
  }

  function PreviousVisaOf(d: Draws): string
    requires d.previousVisaIndex < 3
  {
    PreviousVisaChoices(d.age)[d.previousVisaIndex]
  }

  function VisitsOf(d: Draws): int
    requires d.previousVisaIndex < 3
  {
    if PreviousVisaOf(d) == "Yes" then d.visits else 0
  }

  function Max(a: int, b: int): int { if a >= b then a else b }
  function Min(a: int, b: int): int { if a <= b then a else b }

  /** `max(lo, min(x, hi))`. */
  function Clamp(x: int, lo: int, hi: int): (r: int)
    requires lo <= hi
    ensures lo <= r <= hi
    ensures lo <= x <= hi ==> r == x
  {
    Max(lo, Min(x, hi))
  }

  lemma VisaTypesHaveBaseDays(visa: string)
    requires visa in VisaTypes
    ensures visa in BaseDays && BaseDays[visa] >= 3
  {
  }

  /** The days before the adjustments: the base, lowered by express
      processing to `max(2, base - 3)`. */
  function StartDays(visa: string, express: int): (s: int)
    requires visa in BaseDays
  {
    if express != 0 then Max(2, BaseDays[visa] - 3) else BaseDays[visa]
  }

  /** The processing days as a sum of separate effects, before the final
      clamp to [2, 45]. */
  function UnclampedDays(d: Draws): int
    requires WellFormed(d)
  {
    var visa := VisaOf(d);
    VisaTypesHaveBaseDays(visa);
    StartDays(visa, ExpressChoices[d.expressIndex])
      + (if DocumentChoices[d.documentsIndex] == 0 then d.documentsDelay else 0)
      - (if PreviousVisaOf(d) == "Yes" && VisitsOf(d) > 2 then 1 else 0)
      + (if Countries[d.countryIndex] in SlowCountries then d.countryDelay else 0)
      + (if d.month in PeakMonths && visa == "Tourist" then d.peakDelay else 0)
      + d.variation
  }

  /** The approval probability in hundredths, before its clamp. */
  function UnclampedApproval(d: Draws): int
    requires WellFormed(d)
  {
    82
      - (if DocumentChoices[d.documentsIndex] == 0 then 25 else 0)
      + (if PreviousVisaOf(d) == "Yes" then 5 else 0)
      + (if d.financialProof > 20000 then 5 else 0)
      + (if SponsorChoices(VisaOf(d))[d.sponsorIndex] != 0 then 3 else 0)
      + (if EducationLevels[d.educationIndex] in ["Post Graduate", "Doctorate"] then 3 else 0)
  }

  /** The status a `random()` draw selects for an approval probability of
      p hundredths. */
  function StatusFor(p: int, randVal: real): (s: string)
    ensures s in ["Approved", "Pending", "Rejected"]
    ensures s == "Approved" <==> randVal < p as real / 100.0
    ensures s == "Rejected" <==> randVal >= p as real / 100.0 + 0.05
  {
    if randVal < p as real / 100.0 then "Approved"
    else if randVal < p as real / 100.0 + 0.05 then "Pending"
    else "Rejected"
  }

  /** `f"IND{app_year}{str(i+1).zfill(7)}"`. */
  function ApplicationId(year: nat, i: nat): string {
    "IND" + NatToString(year) + ZFill(NatToString(i + 1), 7)
  }

  datatype Record = Record(
    applicationId: string, visaType: string, applicantAge: int, gender: string, educationLevel: string,
    nationality: string, occupation: string, processingCenter: string, visitPurpose: string,
    durationRequestedDays: int, applicationMonth: int, applicationYear: int, previousVisa: string,
    numPreviousVisits: int, financialProofUsd: int, hasSponsor: int, documentsComplete: int,
    expressProcessing: int, processingTimeDays: int, visaStatus: string)

  /** The record the rules produce for record number i and its draws. */
  predicate RecordRules(i: nat, d: Draws, r: Record)
    requires WellFormed(d)
  {
    var visa := VisaOf(d);
    && r.applicationId == ApplicationId(d.year, i)
    && r.visaType == visa && r.applicantAge == d.age && r.gender == Genders[d.genderIndex]
    && r.educationLevel == EducationLevels[d.educationIndex] && r.nationality == Countries[d.countryIndex]
    && r.occupation == (if visa == "Student" then "Student" else OccupationTypes[d.occupationIndex])
    && r.processingCenter == ProcessingCenters[d.centerIndex] && r.visitPurpose == PurposesOf(visa)[d.purposeIndex]
    && r.durationRequestedDays == DurationChoices(visa)[d.durationIndex]
    && r.applicationMonth == d.month && r.applicationYear == d.year
    && r.previousVisa == PreviousVisaOf(d) && r.numPreviousVisits == VisitsOf(d)
    && r.financialProofUsd == d.financialProof && r.hasSponsor == SponsorChoices(visa)[d.sponsorIndex]
    && r.documentsComplete == DocumentChoices[d.documentsIndex] && r.expressProcessing == ExpressChoices[d.expressIndex]
    && r.processingTimeDays == Clamp(UnclampedDays(d), 2, 45)
    && r.visaStatus == StatusFor(Clamp(UnclampedApproval(d), 50, 95), d.randVal)
  }

  /** The processing days, adjusted step by step and clamped to [2, 45]. */
  method ProcessingDays(d: Draws) returns (processingDays: int)
    requires WellFormed(d)
    ensures processingDays == Clamp(UnclampedDays(d), 2, 45)
  {
    var visaType := VisaTypes[d.visaIndex];
    var prevVisa := PreviousVisaChoices(d.age)[d.previousVisaIndex];
    var numPrevVisits := if prevVisa == "Yes" then d.visits else 0;
    VisaTypesHaveBaseDays(visaType);
    processingDays := BaseDays[visaType];
    if ExpressChoices[d.expressIndex] != 0 {
      processingDays := Max(2, processingDays - 3);
    }
    assert processingDays == StartDays(visaType, ExpressChoices[d.expressIndex]);
    if DocumentChoices[d.documentsIndex] == 0 {
      processingDays := processingDays + d.documentsDelay;
    }
    if prevVisa == "Yes" && numPrevVisits > 2 {
      processingDays := processingDays - 1;
    }
    if Countries[d.countryIndex] in SlowCountries {
      processingDays := processingDays + d.countryDelay;
    }
    if d.month in PeakMonths && visaType == "Tourist" {
      processingDays := processingDays + d.peakDelay;
    }
    processingDays := processingDays + d.variation;
    processingDays := Max(2, Min(processingDays, 45));
  }

  /** The approval probability in hundredths, raised or lowered step by
      step and clamped to [50, 95]. */
  method ApprovalProbability(d: Draws) returns (approvalProb: int)
    requires WellFormed(d)
    ensures approvalProb == Clamp(UnclampedApproval(d), 50, 95)
  {
    var prevVisa := PreviousVisaChoices(d.age)[d.previousVisaIndex];
    approvalProb := 82;
    if DocumentChoices[d.documentsIndex] == 0 {
      approvalProb := approvalProb - 25;
    }
    if prevVisa == "Yes" {
      approvalProb := approvalProb + 5;
    }
    if d.financialProof > 20000 {
      approvalProb := approvalProb + 5;
    }
    if SponsorChoices(VisaTypes[d.visaIndex])[d.sponsorIndex] != 0 {
      approvalProb := approvalProb + 3;
    }
    if EducationLevels[d.educationIndex] in ["Post Graduate", "Doctorate"] {
      approvalProb := approvalProb + 3;
    }
    approvalProb := Min(95, Max(50, approvalProb));
  }

  /** One iteration of the generator's loop body. */
  method GenerateRecord(i: nat, d: Draws) returns (r: Record)
    requires WellFormed(d)
    ensures RecordRules(i, d, r)
    ensures r.applicationId == ApplicationId(d.year, i)
  {
    var appYear := d.year;
    var appId := "IND" + NatToString(appYear) + ZFill(NatToString(i + 1), 7);
    var visaType := VisaTypes[d.visaIndex];
    var age := d.age;
    var gender := Genders[d.genderIndex];
    var education := EducationLevels[d.educationIndex];
    var country := Countries[d.countryIndex];
    var occupation;
    if visaType == "Student" {
      occupation := "Student";
    } else {
      occupation := OccupationTypes[d.occupationIndex];
    }
    var center := ProcessingCenters[d.centerIndex];
    var purpose := PurposesOf(visaType)[d.purposeIndex];
    var duration := DurationChoices(visaType)[d.durationIndex];
    var appMonth := d.month;
    var prevVisa := PreviousVisaChoices(age)[d.previousVisaIndex];
    var numPrevVisits;
    if prevVisa == "Yes" {
      numPrevVisits := d.visits;
    } else {
      numPrevVisits := 0;
    }
    var financialProof := d.financialProof;
    var hasSponsor := SponsorChoices(visaType)[d.sponsorIndex];
    var docsComplete := DocumentChoices[d.documentsIndex];
    var expressProcessing := ExpressChoices[d.expressIndex];

    var processingDays := ProcessingDays(d);
    var approvalProb := ApprovalProbability(d);

    var status;
    if d.randVal < approvalProb as real / 100.0 {
      status := "Approved";
    } else if d.randVal < approvalProb as real / 100.0 + 0.05 {
      status := "Pending";
    } else {
      status := "Rejected";
    }

    r := Record(appId, visaType, age, gender, education, country, occupation, center, purpose, duration,
      appMonth, appYear, prevVisa, numPrevVisits, financialProof, hasSponsor, docsComplete, expressProcessing,
      processingDays, status);
  }

  /** `generate_visa_dataset`: exactly one record per requested record, in
      order, each following the rules for its number and draws, and no two
      with the same application ID. */
  method GenerateVisaDataset(numRecords: nat, draws: seq<Draws>) returns (data: seq<Record>)
    requires |draws| == numRecords && forall i :: 0 <= i < |draws| ==> WellFormed(draws[i])
    ensures |data| == numRecords
    ensures forall i :: 0 <= i < numRecords ==> RecordRules(i, draws[i], data[i])
    ensures forall i, j :: 0 <= i < j < numRecords ==> data[i].applicationId != data[j].applicationId
  {
    data := [];
    for i := 0 to numRecords
      invariant |data| == i
      invariant forall j :: 0 <= j < i ==> RecordRules(j, draws[j], data[j])
      invariant forall j :: 0 <= j < i ==> data[j].applicationId == ApplicationId(draws[j].year, j)
      invariant forall j, k :: 0 <= j < k < i ==> data[j].applicationId != data[k].applicationId
    {
      var record := GenerateRecord(i, draws[i]);
      AppendRecord(data, record, draws);
      data := data + [record];
    }
  }

  /** The loop step for the IDs: an ID for the next number keeps every ID
      so far distinct. */
  lemma AppendRecord(data: seq<Record>, record: Record, draws: seq<Draws>)
    requires |data| < |draws| && forall i :: 0 <= i < |draws| ==> 2020 <= draws[i].year <= 2024
    requires forall j :: 0 <= j < |data| ==> data[j].applicationId == ApplicationId(draws[j].year, j)
    requires forall j, k :: 0 <= j < k < |data| ==> data[j].applicationId != data[k].applicationId
    requires record.applicationId == ApplicationId(draws[|data|].year, |data|)
    ensures var next := data + [record];
      && (forall j :: 0 <= j < |next| ==> next[j].applicationId == ApplicationId(draws[j].year, j))
      && (forall j, k :: 0 <= j < k < |next| ==> next[j].applicationId != next[k].applicationId)
  {
    var next := data + [record];
    var i := |data|;
    forall j | 0 <= j < i ensures next[j].applicationId != record.applicationId {
      ApplicationIdInjective(draws[j].year, j, draws[i].year, i);
    }
  }

  // ---------------------------------------------------------------------
  // Properties of the rules

  /** The processing days always lie in [2, 45]; a first-time applicant has
      no previous visits and a returning one 1..8; a student always has the
      Student occupation and an age in 17..35; the status is one of three. */
  lemma RecordInvariants(i: nat, d: Draws, r: Record)
    requires WellFormed(d) && RecordRules(i, d, r)
    ensures 2 <= r.processingTimeDays <= 45
    ensures r.previousVisa in ["Yes", "No"]
    ensures r.previousVisa == "No" ==> r.numPreviousVisits == 0
    ensures r.previousVisa == "Yes" ==> 1 <= r.numPreviousVisits <= 8
    ensures r.visaType == "Student" ==> r.occupation == "Student" && 17 <= r.applicantAge <= 35
    ensures r.visaStatus in ["Approved", "Pending", "Rejected"]
  {
  }

  /** Express processing starts from max(2, base - 3), taking three days
      off every base of at least 5, and leaves the base alone otherwise. */
  lemma ExpressStart(visa: string)
    requires visa in VisaTypes
    ensures (VisaTypesHaveBaseDays(visa); StartDays(visa, 1) == Max(2, BaseDays[visa] - 3))
    ensures (VisaTypesHaveBaseDays(visa); StartDays(visa, 0) == BaseDays[visa])
    ensures (VisaTypesHaveBaseDays(visa); BaseDays[visa] >= 5 ==> StartDays(visa, 1) == BaseDays[visa] - 3)
  {
    VisaTypesHaveBaseDays(visa);
  }

  /** The peak-season delay matters only for a Tourist visa applied for in
      October..March: otherwise the days do not depend on that draw. */
  lemma PeakDelayOnlyForTouristsInPeak(d: Draws, peakDelay: int)
    requires WellFormed(d) && 1 <= peakDelay <= 4
    ensures var e := d.(peakDelay := peakDelay);
      WellFormed(e) &&
      (UnclampedDays(e) != UnclampedDays(d) ==> VisaOf(d) == "Tourist" && (d.month <= 3 || 10 <= d.month))
  {
  }

  /** The approval probability lies in [0.57, 0.95]. Its unclamped value is
      never below 0.57, so the lower clamp at 0.50 never changes it, while
      the upper clamp does for the best applicants (0.98). */
  lemma ApprovalRange(d: Draws)
    requires WellFormed(d)
    ensures 57 <= UnclampedApproval(d) <= 98
    ensures 57 <= Clamp(UnclampedApproval(d), 50, 95) <= 95
    ensures Clamp(UnclampedApproval(d), 50, 95) == Min(95, UnclampedApproval(d))
  {
  }

  /** The ID is "IND", the four digits of the year, then the record number
      zero-padded to seven digits; it has 14 characters while the number
      has at most seven digits. */
  lemma ApplicationIdShape(year: nat, i: nat)
    requires 2020 <= year <= 2024
    ensures var id := ApplicationId(year, i);
      && |id| >= 14 && id[..3] == "IND"
      && DigitsValue(id[3..7]) == year
      && AllDigits(id[3..])
      && DigitsValue(id[7..]) == i + 1
      && (i + 1 < Pow10(7) ==> |id| == 14)
  {
    var y := NatToString(year);
    var z := ZFill(NatToString(i + 1), 7);
    YearDigits(year);
    PaddedDigits(i + 1, 7);
    ThreeParts("IND", y, z);
    assert AllDigits(y + z) by { DigitsConcat(y, z); }
  }

  /** A year of the generator's range is four digits. */
  lemma YearDigits(year: nat)
    requires 2020 <= year <= 2024
    ensures var y := NatToString(year); |y| == 4 && AllDigits(y) && DigitsValue(y) == year
  {
    assert Pow10(3) == 1000 && Pow10(4) == 10000;
    NatToStringLength(year, 4);
    NatToStringRoundTrip(year);
  }

  /** `str(n).zfill(width)` is digits that read back as n, at least width
      of them, and exactly width while n has at most width digits. */
  lemma PaddedDigits(n: nat, width: nat)
    requires width >= 1
    ensures var z := ZFill(NatToString(n), width);
      && |z| >= width && AllDigits(z) && DigitsValue(z) == n
      && (n < Pow10(width) ==> |z| == width)
  {
    var s := NatToString(n);
    NatToStringRoundTrip(n);
    ZFillShape(s, width);
    var z := ZFill(s, width);
    var k := |z| - |s|;
    ZerosAllDigits(k);
    DigitsValueZeros(k, s);
    DigitsConcat(Zeros(k), s);
    if n < Pow10(width) {
      NatToStringShort(n, width);
    }
  }

  lemma DigitsConcat(a: string, b: string)
    requires AllDigits(a) && AllDigits(b)
    ensures AllDigits(a + b)
  {
    forall i | 0 <= i < |a + b| ensures '0' <= (a + b)[i] <= '9' {
      if i >= |a| { assert (a + b)[i] == b[i - |a|]; }
    }
  }

  lemma ThreeParts(a: string, b: string, c: string)
    ensures var s := a + b + c;
      && s[..|a|] == a && s[|a|..|a| + |b|] == b && s[|a| + |b|..] == c && s[|a|..] == b + c
  {
  }

  /** Different record numbers give different IDs, whatever the years. */
  lemma ApplicationIdInjective(year1: int, i: nat, year2: int, j: nat)
    requires 2020 <= year1 <= 2024 && 2020 <= year2 <= 2024 && i != j
    ensures ApplicationId(year1, i) != ApplicationId(year2, j)
  {
    ApplicationIdShape(year1, i);
    ApplicationIdShape(year2, j);
  }
}
