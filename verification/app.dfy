/** The request-level rules of app.py: the upload filename check, the
    defaults and coercions of a prediction request, the under-two
    short-circuit of the interaction check, the analytics counts and the
    short-query rule of the medicine search.  Requests arrive as values;
    routing, files and JSON persistence are outside the model. */
module App {
  import opened Wrappers
  import opened Text
  import Predictor
  import DrugInteractions
  import MedicineDb

  // ---------------------------------------------------------------------
  // Upload filenames

  const AllowedExtensions: set<string> := {"png", "jpg", "jpeg", "pdf"}

  /** The position of the last '.' of `s`, if there is one. */
  function LastDot(s: string): (r: Option<nat>)
    ensures r.None? <==> forall i :: 0 <= i < |s| ==> s[i] != '.'
    ensures r.Some? ==> (r.value < |s| && s[r.value] == '.'
      && forall i :: r.value < i < |s| ==> s[i] != '.')
  {
    if s == [] then None
    else if s[|s| - 1] == '.' then Some(|s| - 1)
    else LastDot(s[..|s| - 1])
  }

  /** `i` is the position of the last '.' of `s`. */
  predicate IsLastDot(s: string, i: int) {
    0 <= i < |s| && s[i] == '.' && forall j :: i < j < |s| ==> s[j] != '.'
  }

  /** `allowed_file`: the name has a '.', and the text after the last one,
      lowercased, is one of the four extensions. */
  function AllowedFile(filename: string): (b: bool)
    ensures b <==> exists i :: IsLastDot(filename, i) && Lower(filename[i + 1..]) in AllowedExtensions
    ensures forall i :: IsLastDot(filename, i) ==> (b <==> Lower(filename[i + 1..]) in AllowedExtensions)
  {
    var dot := LastDot(filename);
    if dot.None? then
      assert forall i :: !IsLastDot(filename, i);
      false
    else
      var i := dot.value;
      assert IsLastDot(filename, i);
      assert forall j :: IsLastDot(filename, j) ==> j == i by {
        forall j | IsLastDot(filename, j) ensures j == i {
          LastDotUnique(filename, i, j);
        }
      }
      Lower(filename[i + 1..]) in AllowedExtensions
  }

  /** A name has at most one last '.'. */
  lemma LastDotUnique(s: string, i: int, j: int)
    requires IsLastDot(s, i) && IsLastDot(s, j)
    ensures i == j
  {
    assert !(i < j) && !(j < i);
  }

  /** Only the last extension counts, in any letter case: accepted names. */
  lemma AllowedFileAccepts()
    ensures AllowedFile("scan.PNG")
    ensures AllowedFile("report.v2.pdf")
  {
    assert IsLastDot("scan.PNG", 4) && Lower("PNG") == "png";
    assert IsLastDot("report.v2.pdf", 9) && Lower("pdf") == "pdf";
  }

  /** Rejected names: a final extension outside the list, and no '.' at all. */
  lemma AllowedFileRejects()
    ensures !AllowedFile("scan.png.exe")
    ensures !AllowedFile("pdf")
  {
    assert IsLastDot("scan.png.exe", 8) && "scan.png.exe"[9..] == "exe";
    assert Lower("exe") == "exe";
    assert forall i | 0 <= i < 3 :: "pdf"[i] != '.';
  }

  // ---------------------------------------------------------------------
  // Request values

  /** A value of a JSON request body. */
  datatype Json = Null | Bool(b: bool) | Int(i: int) | Str(s: string) | List(items: seq<Json>)

  /** Python truthiness. */
  predicate Truthy(v: Json) {
    match v
    case Null => false
    case Bool(b) => b
    case Int(i) => i != 0
    case Str(s) => s != ""
    case List(items) => items != []
  }

  /** `int(v)` raised: the value is not an integer or a numeral. */
  datatype ConversionError = NotAnInteger(v: Json)

  /** Python's `int(s)` on a string: surrounding whitespace, an optional
      sign, then one or more decimal digits. */
  function ParseInt(s: string): Option<int> {
    ParseNumeral(PyStrip(s))
  }

  /** The numeral part of `int(s)`, once the whitespace is stripped. */
  function ParseNumeral(t: string): Option<int> {
    if t != [] && (t[0] == '-' || t[0] == '+') then
      if IsDigits(t[1..]) then
        Some(if t[0] == '-' then -(DigitsValue(t[1..]) as int) else DigitsValue(t[1..]))
      else None
    else if IsDigits(t) then Some(DigitsValue(t))
    else None
  }

  /** Python's `int(v)`: integers pass, booleans become 0 or 1, strings are
      parsed, and anything else raises. */
  function ToInt(v: Json): Result<int, ConversionError> {
    match v
    case Int(i) => Ok(i)
    case Bool(b) => Ok(if b then 1 else 0)
    case Str(s) =>
      var n := ParseInt(s);
      if n.Some? then Ok(n.value) else Err(NotAnInteger(v))
    case _ => Err(NotAnInteger(v))
  }

  /** The decimal numeral of a natural number, as `str` writes it. */
  function Decimal(n: nat): (r: string)
    ensures IsDigits(r)
  {
    if n < 10 then [('0' as int + n) as char]
    else Decimal(n / 10) + [('0' as int + n % 10) as char]
  }

  /** The numeral of an integer, with a '-' when negative. */
  function Show(i: int): string {
    if i < 0 then "-" + Decimal(-i) else Decimal(i)
  }

  lemma {:induction false} DecimalValue(n: nat)
    ensures DigitsValue(Decimal(n)) == n
  {
    var d := ('0' as int + n % 10) as char;
    if n < 10 {
      DigitsValueAppend([], d);
    } else {
      DecimalValue(n / 10);
      DigitsValueAppend(Decimal(n / 10), d);
    }
  }

  /** A run of digits reads back as its value, and with a '-' in front as
      the negated value. */
  lemma ParseDigits(d: string)
    requires IsDigits(d)
    ensures ParseInt(d) == Some(DigitsValue(d) as int)
    ensures ParseInt("-" + d) == Some(-(DigitsValue(d) as int))
  {
    assert IsDigit(d[0]) && IsDigit(d[|d| - 1]);
    StripKeeps(d, IsPySpace);
    ParseNegative("-" + d, d);
  }

  /** `int` of a '-' followed by a run of digits. */
  lemma ParseNegative(m: string, d: string)
    requires IsDigits(d) && m == "-" + d
    ensures ParseInt(m) == Some(-(DigitsValue(d) as int))
  {
    assert m[1..] == d;
    assert IsDigit(m[|m| - 1]);
    StripKeeps(m, IsPySpace);
  }

  /** Reading back a written integer gives the integer, whether it comes as
      a numeral string or as a number. */
  lemma ParseIntShow(i: int)
    ensures ParseInt(Show(i)) == Some(i)
    ensures ToInt(Str(Show(i))) == ToInt(Int(i))
  {
    var n: nat := if i < 0 then -i else i;
    var d := Decimal(n);
    assert DigitsValue(d) == n by { DecimalValue(n); }
    ParseDigits(d);
  }

  /** A request body. */
  type Request = map<string, Json>

  /** `data.get(key, default)`. */
  function GetOr(req: Request, key: string, default: Json): Json {
    if key in req then req[key] else default
  }

  /** `int(data.get(key, default))`. */
  function IntField(req: Request, key: string, default: int): Result<int, ConversionError> {
    ToInt(GetOr(req, key, Int(default)))
  }

  /** `value` is what an integer field of the request gives: the default
      when the key is missing, the converted value when it is present. */
  predicate Defaulted(req: Request, key: string, default: int, value: int) {
    (key !in req ==> value == default) && (key in req ==> ToInt(req[key]) == Ok(value))
  }

  /** The request holds a value under `key` that `int` rejects. */
  predicate Unconvertible(req: Request, key: string) {
    key in req && ToInt(req[key]).Err?
  }

  /** The gender as the scorer receives it: a string passes through, a list
      is a value the gender map cannot hash, and a number, a boolean or null
      is hashable but not a key of that map. */
  function GenderOf(v: Json): (g: Predictor.GenderValue)
    ensures g.Named? <==> v.Str?
    ensures g.Unhashable? <==> v.List?
  {
    match v
    case Str(s) => Predictor.Named(s)
    case List(_) => Predictor.Unhashable
    case _ => Predictor.Unlisted
  }

  /** The 0/1 coercion of an optional flag. */
  function Flag(req: Request, key: string): (f: int)
    ensures f == 0 || f == 1
    ensures f == 1 <==> key in req && Truthy(req[key])
  {
    if Truthy(GetOr(req, key, Null)) then 1 else 0
  }

  /** The patient record `predict_adherence` builds: each integer field is
      converted or defaulted, the two flags are 0 or 1 by truthiness, and
      the first field that `int` rejects fails the request. */
  function PatientFromRequest(req: Request): (r: Result<Predictor.PatientData, ConversionError>)
    ensures r.Ok? ==> (Defaulted(req, "age", 0, r.value.age)
      && Defaulted(req, "medication_count", 1, r.value.medicationCount)
      && Defaulted(req, "dosage_frequency", 1, r.value.dosageFrequency)
      && Defaulted(req, "missed_doses_last_month", 0, r.value.missedDoses)
      && Defaulted(req, "comorbidities", 0, r.value.comorbidities)
      && Defaulted(req, "cost_concern", 1, r.value.costConcern))
    ensures r.Ok? ==> r.value.gender == (if "gender" in req then GenderOf(req["gender"]) else Predictor.Named("Other"))
    ensures r.Ok? ==> (r.value.reminderEnabled == Flag(req, "reminder_enabled")
      && r.value.sideEffects == Flag(req, "side_effects"))
  {
    var age := IntField(req, "age", 0);
    var meds := IntField(req, "medication_count", 1);
    var freq := IntField(req, "dosage_frequency", 1);
    var missed := IntField(req, "missed_doses_last_month", 0);
    var comorbid := IntField(req, "comorbidities", 0);
    var cost := IntField(req, "cost_concern", 1);
    if age.Err? then Err(age.error)
    else if meds.Err? then Err(meds.error)
    else if freq.Err? then Err(freq.error)
    else if missed.Err? then Err(missed.error)
    else if comorbid.Err? then Err(comorbid.error)
    else if cost.Err? then Err(cost.error)
    else
      Ok(Predictor.PatientData(
        age.value, GenderOf(GetOr(req, "gender", Str("Other"))), meds.value, freq.value,
        Flag(req, "reminder_enabled"), missed.value, comorbid.value,
        Flag(req, "side_effects"), cost.value))
  }

  /** The request fails exactly when one of the six integer fields holds
      a value that `int` rejects. */
  lemma PatientFromRequestFails(req: Request)
    ensures PatientFromRequest(req).Err? <==> (Unconvertible(req, "age") || Unconvertible(req, "medication_count")
      || Unconvertible(req, "dosage_frequency") || Unconvertible(req, "missed_doses_last_month")
      || Unconvertible(req, "comorbidities") || Unconvertible(req, "cost_concern"))
  {
  }

  /** An empty body gives the defaults, which the rule-based scorer rates
      85 (the under-30 and cost deductions only), a low risk. */
  lemma EmptyRequestDefaults()
    ensures PatientFromRequest(map[]) == Ok(Predictor.PatientData(0, Predictor.Named("Other"), 1, 1, 0, 0, 0, 0, 1))
    ensures Predictor.RulePrediction(Predictor.PatientData(0, Predictor.Named("Other"), 1, 1, 0, 0, 0, 0, 1)).adherenceScore == 85.0
    ensures Predictor.RulePrediction(Predictor.PatientData(0, Predictor.Named("Other"), 1, 1, 0, 0, 0, 0, 1)).riskLevel == Predictor.Low
  {
    var p := Predictor.PatientData(0, Predictor.Named("Other"), 1, 1, 0, 0, 0, 0, 1);
    assert Predictor.RawRuleScore(p) == 85;
  }

  /** What the prediction response carries: the score, the tier name, the
      recommendations and the confidence.  There is no colour field. */
  datatype PredictResponse = PredictResponse(
    adherenceScore: real,
    riskLevel: string,
    recommendations: seq<Predictor.Recommendation>,
    confidence: real)

  function Respond(p: Predictor.Prediction): PredictResponse {
    PredictResponse(p.adherenceScore, Predictor.LevelName(p.riskLevel), p.recommendations, p.confidence)
  }

  /** The two ways the handler answers 400. */
  datatype PredictError = BadField(cause: ConversionError) | BadEncoding(reason: Predictor.EncodingError)

  /** `predict_adherence`: build the record, run the predictor, and pass on
      the score, tier, recommendations and confidence. */
  method PredictAdherence(predictor: Predictor.AdherencePredictor, req: Request)
    returns (r: Result<PredictResponse, PredictError>)
    ensures PatientFromRequest(req).Err? ==> r == Err(BadField(PatientFromRequest(req).error))
    ensures PatientFromRequest(req).Ok? && predictor.model.None? ==>
      r == Ok(Respond(Predictor.RulePrediction(PatientFromRequest(req).value)))
    ensures PatientFromRequest(req).Ok? && predictor.model.Some? ==>
      var m := Predictor.ModelPredictionAsWritten(predictor.model.value,
        predictor.usesGenderDummies, predictor.featureNames, PatientFromRequest(req).value);
      r == (if m.Ok? then Ok(Respond(m.value)) else Err(BadEncoding(m.error)))
    ensures r.Ok? ==> (0.0 <= r.value.adherenceScore <= 100.0
      && r.value.riskLevel in ["Low", "Medium", "High"])
  {
    var patient := PatientFromRequest(req);
    if patient.Err? {
      return Err(BadField(patient.error));
    }
    var prediction := predictor.Predict(patient.value);
    if prediction.Err? {
      return Err(BadEncoding(prediction.error));
    }
    r := Ok(Respond(prediction.value));
  }

  // ---------------------------------------------------------------------
  // Interaction check

  const EmptySummary := DrugInteractions.Summary(0, 0, 0, 0, [])

  /** Why the interaction route answers 400: `len` of a number or of
      `True`, or `.lower()` of a listed medication that is not a string. */
  datatype CheckError = NoLength(v: Json) | NotAName(v: Json)

  /** `data.get('medications', [])`. */
  function MedicationsValue(medications: Option<Json>): Json {
    if medications.Some? then medications.value else List([])
  }

  /** Iterating a string gives its characters, each a one-character name. */
  function Characters(s: string): (names: seq<string>)
    ensures |names| == |s|
    ensures forall i :: 0 <= i < |s| ==> names[i] == [s[i]]
  {
    seq(|s|, i requires 0 <= i < |s| => [s[i]])
  }

  /** Every listed medication is a string. */
  predicate AllNames(items: seq<Json>) {
    forall k :: 0 <= k < |items| ==> items[k].Str?
  }

  /** The strings of a list of strings. */
  function Names(items: seq<Json>): (names: seq<string>)
    requires AllNames(items)
    ensures |names| == |items|
    ensures forall k :: 0 <= k < |items| ==> names[k] == items[k].s
  {
    seq(|items|, k requires 0 <= k < |items| => items[k].s)
  }

  /** The first listed medication that is not a string. */
  function FirstNonName(items: seq<Json>): (v: Json)
    requires !AllNames(items)
    ensures exists k :: 0 <= k < |items| && items[k] == v && !v.Str? && AllNames(items[..k])
  {
    if !items[0].Str? then
      assert AllNames(items[..0]);
      items[0]
    else
      var v := FirstNonName(items[1..]);
      assert exists k :: 0 <= k < |items| && items[k] == v && !v.Str? && AllNames(items[..k]) by {
        var k :| 0 <= k < |items[1..]| && items[1..][k] == v && !v.Str? && AllNames(items[1..][..k]);
        assert items[..k + 1] == [items[0]] + items[1..][..k];
      }
      v
  }

  /** `check_drug_interactions`: a falsy value (missing, null, false, 0, an
      empty string or list) answers the all-zero summary, as does a string or
      list shorter than two; a number or `True` has no length; a string is
      checked character by character; a list goes to the checker, which
      returns nothing for an empty table before reading the items, and
      otherwise fails on the first item that is not a string. */
  method CheckDrugInteractions(checker: DrugInteractions.DrugInteractionChecker,
                               medications: Option<Json>)
    returns (r: Result<DrugInteractions.Summary, CheckError>)
    ensures var m := MedicationsValue(medications);
      && (!Truthy(m) ==> r == Ok(EmptySummary))
      && (Truthy(m) && (m.Bool? || m.Int?) ==> r == Err(NoLength(m)))
      && (m.Str? && |m.s| < 2 ==> r == Ok(EmptySummary))
      && (m.Str? && |m.s| >= 2 ==>
            r.Ok? && r.value.interactions == DrugInteractions.Interactions(checker.rows, Characters(m.s)))
      && (m.List? && |m.items| < 2 ==> r == Ok(EmptySummary))
      && (m.List? && |m.items| >= 2 && checker.rows == [] ==> r == Ok(EmptySummary))
      && (m.List? && |m.items| >= 2 && checker.rows != [] && !AllNames(m.items) ==>
            r == Err(NotAName(FirstNonName(m.items))))
      && (m.List? && |m.items| >= 2 && AllNames(m.items) ==>
            r.Ok? && r.value.interactions == DrugInteractions.Interactions(checker.rows, Names(m.items)))
    ensures r.Ok? ==> (r.value.total == |r.value.interactions|
      && r.value.high + r.value.medium + r.value.low == r.value.total)
  {
    var m := MedicationsValue(medications);
    if !Truthy(m) {
      return Ok(EmptySummary);
    }
    match m {
      case Bool(_) => r := Err(NoLength(m));
      case Int(_) => r := Err(NoLength(m));
      case Null => r := Ok(EmptySummary);
      case Str(text) =>
        if |text| < 2 {
          r := Ok(EmptySummary);
        } else {
          var s := checker.GetInteractionSummary(Characters(text));
          r := Ok(s);
        }
      case List(items) =>
        if |items| < 2 {
          r := Ok(EmptySummary);
        } else if AllNames(items) {
          var s := checker.GetInteractionSummary(Names(items));
          r := Ok(s);
        } else if checker.rows == [] {
          r := Ok(EmptySummary);
        } else {
          r := Err(NotAName(FirstNonName(items)));
        }
    }
  }

  /** The short-circuit changes nothing: with fewer than two medications
      the checker would have found no interaction either. */
  lemma ShortCircuitAgrees(rows: seq<DrugInteractions.Row>, meds: seq<string>)
    requires |meds| < 2
    ensures DrugInteractions.Interactions(rows, meds) == []
  {
    DrugInteractions.InteractionsBound(rows, meds);
  }

  // ---------------------------------------------------------------------
  // Analytics

  /** The two fields of a stored patient the overview reads. */
  datatype StoredPatient = StoredPatient(riskLevel: Option<string>, adherenceScore: Option<real>)

  datatype Overview = Overview(total: nat, high: nat, medium: nat, low: nat, average: real)

  /** How many patients carry exactly the tier name `level`. */
  function CountLevel(ps: seq<StoredPatient>, level: string): (n: nat)
    ensures n == |set k | 0 <= k < |ps| && ps[k].riskLevel == Some(level)|
    ensures n <= |ps|
  {
    if ps == [] then 0
    else
      var init := ps[..|ps| - 1];
      var n := CountLevel(init, level) + (if ps[|ps| - 1].riskLevel == Some(level) then 1 else 0);
      assert (set k | 0 <= k < |ps| && ps[k].riskLevel == Some(level))
          == (set k | 0 <= k < |init| && init[k].riskLevel == Some(level))
             + (if ps[|ps| - 1].riskLevel == Some(level) then {|ps| - 1} else {});
      n
  }

  /** `p.get('adherence_score', 0)`. */
  function ScoreOf(p: StoredPatient): real {
    if p.adherenceScore.Some? then p.adherenceScore.value else 0.0
  }

  function SumScores(ps: seq<StoredPatient>): real {
    if ps == [] then 0.0 else SumScores(ps[..|ps| - 1]) + ScoreOf(ps[|ps| - 1])
  }

  /** A patient counts for at most one of three different tier names. */
  lemma {:induction false} LevelCountsBounded(ps: seq<StoredPatient>, a: string, b: string, c: string)
    requires a != b && b != c && a != c
    ensures CountLevel(ps, a) + CountLevel(ps, b) + CountLevel(ps, c) <= |ps|
  {
    if ps != [] {
      LevelCountsBounded(ps[..|ps| - 1], a, b, c);
    }
  }

  /** Scores within [lo, hi] sum to within `n` times those bounds. */
  lemma {:induction false} SumScoresBounds(ps: seq<StoredPatient>, lo: real, hi: real)
    requires forall k :: 0 <= k < |ps| ==> lo <= ScoreOf(ps[k]) <= hi
    ensures lo * |ps| as real <= SumScores(ps) <= hi * |ps| as real
  {
    if ps != [] {
      var init := ps[..|ps| - 1];
      var n := |init| as real;
      SumScoresBounds(init, lo, hi);
      assert lo <= ScoreOf(ps[|ps| - 1]) <= hi;
      assert lo * |ps| as real == lo * n + lo && hi * |ps| as real == hi * n + hi;
    }
  }

  /** A mean of values within [lo, hi] lies within [lo, hi]. */
  lemma MeanBounds(sum: real, n: real, lo: real, hi: real)
    requires n > 0.0 && lo * n <= sum <= hi * n
    ensures lo <= sum / n <= hi
  {
    var m := sum / n;
    assert m * n == sum;
  }

  /** `get_analytics_overview`: the patient count, the exact-name tier
      counts, and the mean score (0 for no patients). */
  function AnalyticsOverview(ps: seq<StoredPatient>): (o: Overview)
    ensures o.total == |ps|
    ensures o.high == CountLevel(ps, "High") && o.medium == CountLevel(ps, "Medium") && o.low == CountLevel(ps, "Low")
    ensures o.high + o.medium + o.low <= o.total
    ensures ps == [] ==> o.average == 0.0
    ensures ps != [] ==> o.average == SumScores(ps) / |ps| as real
    ensures (forall k :: 0 <= k < |ps| ==> 0.0 <= ScoreOf(ps[k]) <= 100.0) ==> 0.0 <= o.average <= 100.0
  {
    LevelCountsBounded(ps, "High", "Medium", "Low");
    AverageBounds(ps);
    Overview(|ps|, CountLevel(ps, "High"), CountLevel(ps, "Medium"), CountLevel(ps, "Low"),
      if ps == [] then 0.0 else SumScores(ps) / |ps| as real)
  }

  /** Scores within [0, 100] have a mean within [0, 100]. */
  lemma AverageBounds(ps: seq<StoredPatient>)
    ensures ps != [] && (forall k :: 0 <= k < |ps| ==> 0.0 <= ScoreOf(ps[k]) <= 100.0) ==>
      0.0 <= SumScores(ps) / |ps| as real <= 100.0
  {
    if ps != [] && forall k :: 0 <= k < |ps| ==> 0.0 <= ScoreOf(ps[k]) <= 100.0 {
      SumScoresBounds(ps, 0.0, 100.0);
      MeanBounds(SumScores(ps), |ps| as real, 0.0, 100.0);
    }
  }

  /** The counts compare names exactly: a lowercase tier is in no count. */
  lemma LowercaseTierUncounted()
    ensures var o := AnalyticsOverview([StoredPatient(Some("high"), Some(40.0))]);
      o.total == 1 && o.high == 0 && o.medium == 0 && o.low == 0 && o.average == 40.0
  {
    var ps := [StoredPatient(Some("high"), Some(40.0))];
    assert ps[..0] == [];
  }

  // ---------------------------------------------------------------------
  // Medicine search

  /** `int(request.args.get('limit', 10))`: the argument is a string. */
  function LimitArg(limit: Option<string>): (r: Result<int, ConversionError>)
    ensures limit.None? ==> r == Ok(10)
    ensures limit.Some? ==> (r.Ok? <==> ParseInt(limit.value).Some?)
    ensures limit.Some? && r.Ok? ==> Some(r.value) == ParseInt(limit.value)
  {
    if limit.Some? then ToInt(Str(limit.value)) else Ok(10)
  }

  /** An explicit `limit=10` is the same as leaving the limit out. */
  lemma ExplicitDefaultLimit()
    ensures LimitArg(Some("10")) == LimitArg(None) == Ok(10)
  {
    assert "10"[..1] == "1" && "1"[..0] == [];
    assert DigitsValue("10") == 10;
    ParseDigits("10");
  }

  /** `search_medicine`: the limit argument is converted first, then a
      query shorter than two characters (a missing one is empty) answers
      no results without consulting the database. */
  function SearchRoute(db: MedicineDb.MedicineDatabase, query: Option<string>, limit: Option<string>,
                       closeMatches: MedicineDb.CloseMatcher): (r: Result<seq<string>, ConversionError>)
    reads db
    ensures r.Err? <==> LimitArg(limit).Err?
    ensures r.Ok? && (query.None? || |query.value| < 2) ==> r.value == []
    ensures r.Ok? && query.Some? && |query.value| >= 2 ==>
      r.value == db.SearchMedicine(query.value, LimitArg(limit).value, closeMatches)
  {
    var q := if query.Some? then query.value else "";
    var lim := LimitArg(limit);
    if lim.Err? then Err(lim.error)
    else if q == [] || |q| < 2 then Ok([])
    else Ok(db.SearchMedicine(q, lim.value, closeMatches))
  }

  /** The results never exceed a non-negative limit. */
  lemma SearchRouteBound(db: MedicineDb.MedicineDatabase, query: Option<string>, limit: Option<string>,
                         closeMatches: MedicineDb.CloseMatcher)
    requires LimitArg(limit).Ok? && LimitArg(limit).value >= 0
    ensures |SearchRoute(db, query, limit, closeMatches).value| <= LimitArg(limit).value
  {
  }
}
