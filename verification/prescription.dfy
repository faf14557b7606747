/** The prescription reader: the demonstration record, the overlay of the
    fields found in recognised text on that record, the fallbacks of
    `extract_data` and the validation of a record.  The four pattern
    searches are inputs (the lists `re.findall` returns). */
module Prescription {
  import opened Wrappers
  import opened Text

  /** The keys of a prescription record. */
  datatype Field =
    | Medications | MedicationCount | Dosage | Frequency | DosageFrequency
    | Duration | Prescriber | Date | Extracted | ImageQuality

  /** The values a record holds. */
  datatype Value = Str(s: string) | Num(n: int) | Names(items: seq<string>) | Null

  type Record = map<Field, Value>

  /** Python truthiness of a value. */
  predicate Truthy(v: Value) {
    match v
    case Str(s) => s != ""
    case Num(n) => n != 0
    case Names(xs) => xs != []
    case Null => false
  }

  /** `data.get(field)`. */
  function Get(data: Record, f: Field): Value {
    if f in data then data[f] else Null
  }

  /** The record `extract_data` returns: the ten keys it always has. */
  datatype PrescriptionData = PrescriptionData(
    medications: seq<string>,
    medicationCount: int,
    dosage: string,
    frequency: string,
    dosageFrequency: int,
    duration: string,
    prescriber: string,
    date: string,
    extracted: string,
    imageQuality: string)

  const MockExtracted: string := "Mock data (for demo purposes)"
  const ImageBasedNote: string := "Image-based analysis (OCR not available)"

  /** `_get_mock_data`. */
  function MockData(): PrescriptionData {
    PrescriptionData(
      ["Metformin", "Aspirin"], 2, "500 mg", "2x daily", 2, "30 days",
      "Dr. Smith", "2025-10-25", MockExtracted, "Good")
  }

  /** The record as a dictionary, as it is returned to the client. */
  function ToRecord(d: PrescriptionData): Record {
    map[
      Medications := Names(d.medications),
      MedicationCount := Num(d.medicationCount),
      Dosage := Str(d.dosage),
      Frequency := Str(d.frequency),
      DosageFrequency := Num(d.dosageFrequency),
      Duration := Str(d.duration),
      Prescriber := Str(d.prescriber),
      Date := Str(d.date),
      Extracted := Str(d.extracted),
      ImageQuality := Str(d.imageQuality)]
  }

  // ---------------------------------------------------------------------
  // Parsing recognised text

  /** The matches of the medication, dosage, frequency and duration
      patterns, in text order (the captured group of each). */
  datatype Matches = Matches(
    medications: seq<string>,
    dosages: seq<string>,
    frequencies: seq<string>,
    durations: seq<string>)

  /** What the patterns guarantee: the number groups are runs of digits. */
  predicate FromPatterns(m: Matches) {
    (forall k :: 0 <= k < |m.dosages| ==> IsDigits(m.dosages[k]))
    && (forall k :: 0 <= k < |m.frequencies| ==> IsDigits(m.frequencies[k]))
    && (forall k :: 0 <= k < |m.durations| ==> IsDigits(m.durations[k]))
  }

  /** The first `n` elements, or all of them when there are fewer. */
  function Take(xs: seq<string>, n: nat): (r: seq<string>)
    ensures |r| <= n && |r| <= |xs| && r == xs[..|r|]
    ensures |xs| >= n ==> |r| == n
  {
    if |xs| <= n then xs else xs[..n]
  }

  /** The record parsing produces: each group of fields is rewritten when
      its pattern matched and keeps the demonstration value otherwise. */
  function Parsed(m: Matches): PrescriptionData
    requires FromPatterns(m)
  {
    var mock := MockData();
    var hasMeds := m.medications != [];
    var hasFreq := m.frequencies != [];
    mock.(
      medications := if hasMeds then Take(m.medications, 3) else mock.medications,
      medicationCount := if hasMeds then |m.medications| else mock.medicationCount,
      dosage := if m.dosages != [] then m.dosages[0] + " mg" else mock.dosage,
      frequency := if hasFreq then m.frequencies[0] + "x daily" else mock.frequency,
      dosageFrequency := if hasFreq then DigitsValue(m.frequencies[0]) else mock.dosageFrequency,
      duration := if m.durations != [] then m.durations[0] + " days" else mock.duration)
  }

  /** `_parse_prescription_text`: start from the demonstration record and
      overwrite the fields whose pattern matched. */
  method ParsePrescriptionText(m: Matches) returns (data: PrescriptionData)
    requires FromPatterns(m)
    ensures data == Parsed(m)
  {
    data := MockData();
    if m.medications != [] {
      data := data.(medications := Take(m.medications, 3));
      data := data.(medicationCount := |m.medications|);
    }
    if m.dosages != [] {
      data := data.(dosage := m.dosages[0] + " mg");
    }
    if m.frequencies != [] {
      data := data.(frequency := m.frequencies[0] + "x daily");
      data := data.(dosageFrequency := DigitsValue(m.frequencies[0]));
    }
    if m.durations != [] {
      data := data.(duration := m.durations[0] + " days");
    }
  }

  /** With no match at all the parsed record is the demonstration record;
      the prescriber, date, note and quality are never rewritten. */
  lemma ParsedKeepsMock(m: Matches)
    requires FromPatterns(m)
    ensures m.medications == [] ==>
      Parsed(m).medications == MockData().medications && Parsed(m).medicationCount == 2
    ensures m.dosages == [] ==> Parsed(m).dosage == MockData().dosage
    ensures m.frequencies == [] ==>
      Parsed(m).frequency == MockData().frequency && Parsed(m).dosageFrequency == 2
    ensures m.durations == [] ==> Parsed(m).duration == MockData().duration
    ensures Parsed(m).prescriber == MockData().prescriber && Parsed(m).date == MockData().date
    ensures Parsed(m).extracted == MockExtracted && Parsed(m).imageQuality == MockData().imageQuality
    ensures m == Matches([], [], [], []) ==> Parsed(m) == MockData()
  {
  }

  /** At most three medication names are kept, the first three found, but
      the count is the number of all matches. */
  lemma ParsedMedications(m: Matches)
    requires FromPatterns(m) && m.medications != []
    ensures var names := Parsed(m).medications;
      |names| <= 3 && names == m.medications[..|names|]
      && (|m.medications| >= 3 ==> |names| == 3)
      && (|m.medications| < 3 ==> names == m.medications)
    ensures Parsed(m).medicationCount == |m.medications|
  {
  }

  /** The dose frequency is the number of the first frequency match when
      there is one, and the frequency text is built from the same digits. */
  lemma ParsedDosageFrequency(m: Matches)
    requires FromPatterns(m) && m.frequencies != []
    ensures Parsed(m).dosageFrequency == DigitsValue(m.frequencies[0])
    ensures Parsed(m).frequency[..|m.frequencies[0]|] == m.frequencies[0]
  {
  }

  // ---------------------------------------------------------------------
  // extract_data

  /** What happened to the uploaded file: it is not there; the text
      recogniser read it (with the pattern matches of its text); the
      recogniser failed with an exception; or the recogniser is not
      installed, and the image either opened with a size or did not. */
  datatype Upload =
    | FileMissing
    | Recognised(matches: Matches)
    | RecogniserFailed
    | NoRecogniser(size: Option<ImageSize>)

  datatype ImageSize = ImageSize(width: int, height: int)

  predicate WellFormedUpload(u: Upload) {
    u.Recognised? ==> FromPatterns(u.matches)
  }

  /** `_analyze_image_properties`. */
  function ImageAnalysis(size: Option<ImageSize>): PrescriptionData {
    match size
    case None => MockData()
    case Some(ImageSize(w, h)) =>
      var shorter := if w < h then w else h;
      MockData().(imageQuality := if shorter > 800 then "Good" else "Fair", extracted := ImageBasedNote)
  }

  /** `extract_data`: every failure falls back to the demonstration record. */
  function ExtractData(u: Upload): PrescriptionData
    requires WellFormedUpload(u)
  {
    match u
    case FileMissing => MockData()
    case Recognised(m) => Parsed(m)
    case RecogniserFailed => MockData()
    case NoRecogniser(size) => ImageAnalysis(size)
  }

  /** A missing file and a failed recogniser give exactly the demonstration
      record; without a recogniser only the quality and the note can
      differ from it, the quality being "Good" exactly when the shorter
      side of an opened image exceeds 800. */
  lemma ExtractDataFallbacks(u: Upload)
    requires WellFormedUpload(u)
    ensures u.FileMissing? || u.RecogniserFailed? ==> ExtractData(u) == MockData()
    ensures u.NoRecogniser? ==>
      ExtractData(u).(imageQuality := "Good", extracted := MockExtracted) == MockData()
    ensures u.NoRecogniser? && u.size.Some? ==>
      (ExtractData(u).imageQuality == "Good" <==> u.size.value.width > 800 && u.size.value.height > 800)
  {
  }

  // ---------------------------------------------------------------------
  // Validation

  const NoMedicationsIssue: string := "No medications detected"
  const DosageIssue: string := "Dosage information missing"
  const FrequencyIssue: string := "Frequency information missing"

  datatype Validation = Validation(isValid: bool, issues: seq<string>)

  const RequiredFields: seq<Field> := [Medications, Dosage, Frequency]

  /** The issues of a record, one per falsy required field, in the order
      medications, dosage, frequency. */
  function Issues(data: Record): seq<string> {
    (if !Truthy(Get(data, Medications)) then [NoMedicationsIssue] else [])
    + (if !Truthy(Get(data, Dosage)) then [DosageIssue] else [])
    + (if !Truthy(Get(data, Frequency)) then [FrequencyIssue] else [])
  }

  /** The position of an issue in the fixed order. */
  function IssueRank(issue: string): nat {
    if issue == NoMedicationsIssue then 0 else if issue == DosageIssue then 1 else 2
  }

  /** `validate_prescription`: valid when the three keys are present, with
      one issue per falsy required field. */
  method ValidatePrescription(data: Record) returns (v: Validation)
    ensures v.isValid <==> Medications in data && Dosage in data && Frequency in data
    ensures v.issues == Issues(data)
  {
    var isValid := true;
    for k := 0 to |RequiredFields|
      invariant isValid <==> forall j :: 0 <= j < k ==> RequiredFields[j] in data
    {
      isValid := isValid && RequiredFields[k] in data;
    }
    assert RequiredFields[0] == Medications && RequiredFields[1] == Dosage && RequiredFields[2] == Frequency;
    var issues: seq<string> := [];
    if !Truthy(Get(data, Medications)) {
      issues := issues + [NoMedicationsIssue];
    }
    if !Truthy(Get(data, Dosage)) {
      issues := issues + [DosageIssue];
    }
    if !Truthy(Get(data, Frequency)) {
      issues := issues + [FrequencyIssue];
    }
    v := Validation(isValid, issues);
  }

  /** Each issue appears exactly when its field is falsy, at most once and
      in the fixed order. */
  lemma IssuesFacts(data: Record)
    ensures |Issues(data)| <= 3
    ensures NoMedicationsIssue in Issues(data) <==> !Truthy(Get(data, Medications))
    ensures DosageIssue in Issues(data) <==> !Truthy(Get(data, Dosage))
    ensures FrequencyIssue in Issues(data) <==> !Truthy(Get(data, Frequency))
    ensures forall i, j :: 0 <= i < j < |Issues(data)| ==> IssueRank(Issues(data)[i]) < IssueRank(Issues(data)[j])
  {
  }

  /** A required field that is present but empty counts as valid and still
      yields its issue. */
  lemma PresentButEmptyIsValidWithIssue()
    ensures var data := ToRecord(MockData().(dosage := ""));
      Medications in data && Dosage in data && Frequency in data
      && Issues(data) == [DosageIssue]
  {
  }

  /** Whatever happens to the upload, `extract_data` returns a record that
      is valid and has no issues. */
  lemma ExtractDataValidates(u: Upload)
    requires WellFormedUpload(u)
    ensures var data := ToRecord(ExtractData(u));
      Medications in data && Dosage in data && Frequency in data && Issues(data) == []
  {
  }
}
