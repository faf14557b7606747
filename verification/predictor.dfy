/** The adherence scorer of model/predictor-2.py: the feature encoder, the
    rule-based fallback, the trained-model path (the regressor and the
    fitted scaler are abstract functions), the 80/60 risk tiers, the
    confidence formulas and the fixed-order recommendation list. */
module Predictor {
  import opened Wrappers

  /** The `gender` value as it reaches the scorer: a string, another
      hashable value (a number, a boolean or null, none of which is a key of
      the gender map), or a list, which the map lookup cannot hash. */
  datatype GenderValue = Named(name: string) | Unlisted | Unhashable

  /** The nine inputs the request handler builds; the two flags are 0 or 1
      there, and the scorer tests them by truthiness. */
  datatype PatientData = PatientData(
    age: int,
    gender: GenderValue,
    medicationCount: int,
    dosageFrequency: int,
    reminderEnabled: int,
    missedDoses: int,
    comorbidities: int,
    sideEffects: int,
    costConcern: int)

  /** Python truthiness of an integer. */
  predicate Truthy(x: int) { x != 0 }

  // ---------------------------------------------------------------------
  // Risk tiers

  datatype RiskLevel = Low | Medium | High
  datatype RiskColor = Success | Warning | Danger

  function LevelName(l: RiskLevel): string {
    match l
    case Low => "Low"
    case Medium => "Medium"
    case High => "High"
  }

  function ColorName(c: RiskColor): string {
    match c
    case Success => "success"
    case Warning => "warning"
    case Danger => "danger"
  }

  /** The colour that goes with each tier. */
  function TierColor(l: RiskLevel): RiskColor {
    match l
    case Low => Success
    case Medium => Warning
    case High => Danger
  }

  /** The three-way split used by both prediction paths. */
  function ClassifyRisk(score: real): (l: RiskLevel)
    ensures l == Low <==> score >= 80.0
    ensures l == Medium <==> 60.0 <= score < 80.0
    ensures l == High <==> score < 60.0
  {
    if score >= 80.0 then Low
    else if score >= 60.0 then Medium
    else High
  }

  function Severity(l: RiskLevel): nat {
    match l
    case Low => 0
    case Medium => 1
    case High => 2
  }

  /** A lower score never gives a less severe tier. */
  lemma ClassifyRiskMonotone(s1: real, s2: real)
    requires s1 <= s2
    ensures Severity(ClassifyRisk(s2)) <= Severity(ClassifyRisk(s1))
  {
  }

  /** `np.clip(x, lo, hi)`. */
  function Clip(x: real, lo: real, hi: real): (r: real)
    requires lo <= hi
    ensures lo <= r <= hi
    ensures lo <= x <= hi ==> r == x
    ensures x < lo ==> r == lo
    ensures x > hi ==> r == hi
  {
    if x < lo then lo else if x > hi then hi else x
  }

  function Min(a: real, b: real): real { if a <= b then a else b }

  // ---------------------------------------------------------------------
  // Recommendations

  datatype Recommendation = Recommendation(title: string, description: string, priority: string)

  /** The seven conditions the synthesizer tests. */
  datatype Trigger =
    | ReminderOff | FrequentMisses | ManyMedications | SideEffectsReported
    | CostConcern | FrequentDosing | LowScore

  const TriggerCount: nat := 7

  /** The trigger tested at step `k`: the order of the tests in the source. */
  function TriggerAt(k: nat): Trigger
    requires k < TriggerCount
  {
    if k == 0 then ReminderOff
    else if k == 1 then FrequentMisses
    else if k == 2 then ManyMedications
    else if k == 3 then SideEffectsReported
    else if k == 4 then CostConcern
    else if k == 5 then FrequentDosing
    else LowScore
  }

  /** The step at which a trigger is tested. */
  function Rank(t: Trigger): (k: nat)
    ensures k < TriggerCount && TriggerAt(k) == t
  {
    match t
    case ReminderOff => 0
    case FrequentMisses => 1
    case ManyMedications => 2
    case SideEffectsReported => 3
    case CostConcern => 4
    case FrequentDosing => 5
    case LowScore => 6
  }

  predicate Fires(t: Trigger, p: PatientData, score: real) {
    match t
    case ReminderOff => !Truthy(p.reminderEnabled)
    case FrequentMisses => p.missedDoses > 5
    case ManyMedications => p.medicationCount > 5
    case SideEffectsReported => Truthy(p.sideEffects)
    case CostConcern => p.costConcern > 3
    case FrequentDosing => p.dosageFrequency > 3
    case LowScore => score < 60.0
  }

  /** The record each trigger appends. */
  function Advice(t: Trigger): Recommendation {
    match t
    case ReminderOff => ReminderAdvice
    case FrequentMisses => FollowUpAdvice
    case ManyMedications => ReviewAdvice
    case SideEffectsReported => SideEffectsAdvice
    case CostConcern => FinancialAdvice
    case FrequentDosing => SimplifyAdvice
    case LowScore => SupportAdvice
  }

  const ReminderAdvice := Recommendation("Enable Medication Reminders",
    "Set up daily reminders to improve adherence by 20-30%", "high")
  const FollowUpAdvice := Recommendation("Schedule Follow-up Consultation",
    "Frequent missed doses detected. Consult with healthcare provider.", "high")
  const ReviewAdvice := Recommendation("Medication Review",
    "Consider simplifying medication regimen with your doctor", "medium")
  const SideEffectsAdvice := Recommendation("Discuss Side Effects",
    "Report side effects to your doctor for possible alternatives", "high")
  const FinancialAdvice := Recommendation("Financial Assistance",
    "Explore generic alternatives or patient assistance programs", "medium")
  const SimplifyAdvice := Recommendation("Simplify Dosage Schedule",
    "Ask about extended-release formulations for fewer daily doses", "medium")
  const SupportAdvice := Recommendation("Adherence Support Program",
    "Enroll in a medication adherence support program", "high")

  /** Distinct triggers give distinct records (their titles differ). */
  lemma AdviceInjective(t: Trigger, u: Trigger)
    requires Advice(t) == Advice(u)
    ensures t == u
  {
  }

  /** The triggers among the first `n` tests that fire, in testing order. */
  function FiredUpTo(n: nat, p: PatientData, score: real): seq<Trigger>
    requires n <= TriggerCount
  {
    if n == 0 then []
    else FiredUpTo(n - 1, p, score)
         + (if Fires(TriggerAt(n - 1), p, score) then [TriggerAt(n - 1)] else [])
  }

  function AdviceFor(ts: seq<Trigger>): (r: seq<Recommendation>)
    ensures |r| == |ts|
    ensures forall i :: 0 <= i < |ts| ==> r[i] == Advice(ts[i])
  {
    seq(|ts|, i requires 0 <= i < |ts| => Advice(ts[i]))
  }

  /** The recommendation list: one record per firing trigger, in testing order. */
  function Recommendations(p: PatientData, score: real): seq<Recommendation> {
    AdviceFor(FiredUpTo(TriggerCount, p, score))
  }

  /** The first `n` tests note each firing trigger once, in testing order,
      and nothing else. */
  lemma {:induction false} FiredUpToFacts(n: nat, p: PatientData, score: real)
    requires n <= TriggerCount
    ensures |FiredUpTo(n, p, score)| <= n
    ensures forall t :: t in FiredUpTo(n, p, score) <==> Rank(t) < n && Fires(t, p, score)
    ensures var f := FiredUpTo(n, p, score);
      forall i, j :: 0 <= i < j < |f| ==> Rank(f[i]) < Rank(f[j])
  {
    if n > 0 {
      FiredUpToFacts(n - 1, p, score);
      var f := FiredUpTo(n - 1, p, score);
      forall t | t in f ensures Rank(t) < n - 1 { }
      forall t ensures t == TriggerAt(n - 1) <==> Rank(t) == n - 1 { }
    }
  }

  /** Tests the seven triggers in the source's order, noting each one that
      fires, then renders one record per noted trigger. */
  method GenerateRecommendations(p: PatientData, score: real) returns (recs: seq<Recommendation>)
    ensures recs == Recommendations(p, score)
  {
    var fired: seq<Trigger> := [];
    if !Truthy(p.reminderEnabled) {
      fired := fired + [ReminderOff];
    }
    assert fired == FiredUpTo(1, p, score);
    if p.missedDoses > 5 {
      fired := fired + [FrequentMisses];
    }
    assert fired == FiredUpTo(2, p, score);
    if p.medicationCount > 5 {
      fired := fired + [ManyMedications];
    }
    assert fired == FiredUpTo(3, p, score);
    if Truthy(p.sideEffects) {
      fired := fired + [SideEffectsReported];
    }
    assert fired == FiredUpTo(4, p, score);
    if p.costConcern > 3 {
      fired := fired + [CostConcern];
    }
    assert fired == FiredUpTo(5, p, score);
    if p.dosageFrequency > 3 {
      fired := fired + [FrequentDosing];
    }
    assert fired == FiredUpTo(6, p, score);
    if score < 60.0 {
      fired := fired + [LowScore];
    }
    assert fired == FiredUpTo(7, p, score);
    recs := AdviceFor(fired);
  }

  /** At most one record per trigger, so at most seven; each trigger's record
      is present exactly when the trigger fires. */
  lemma RecommendationsPerTrigger(p: PatientData, score: real)
    ensures |Recommendations(p, score)| <= 7
    ensures forall t :: Advice(t) in Recommendations(p, score) <==> Fires(t, p, score)
  {
    FiredUpToFacts(TriggerCount, p, score);
    var f := FiredUpTo(TriggerCount, p, score);
    forall t ensures Advice(t) in AdviceFor(f) <==> t in f {
      if Advice(t) in AdviceFor(f) {
        var i :| 0 <= i < |f| && AdviceFor(f)[i] == Advice(t);
        AdviceInjective(f[i], t);
      }
      if t in f {
        var i :| 0 <= i < |f| && f[i] == t;
        assert AdviceFor(f)[i] == Advice(t);
      }
    }
  }

  /** The records appear in testing order, whatever their priority: the
      list is the advice of a sequence of triggers with increasing steps. */
  lemma RecommendationsInTestingOrder(p: PatientData, score: real)
    ensures exists ts: seq<Trigger> ::
      (forall i, j :: 0 <= i < j < |ts| ==> Rank(ts[i]) < Rank(ts[j]))
      && Recommendations(p, score) == AdviceFor(ts)
  {
    FiredUpToFacts(TriggerCount, p, score);
    var f := FiredUpTo(TriggerCount, p, score);
    assert Recommendations(p, score) == AdviceFor(f);
  }

  /** The list is empty exactly when no trigger fires. */
  lemma RecommendationsEmptyIff(p: PatientData, score: real)
    ensures Recommendations(p, score) == [] <==>
      Truthy(p.reminderEnabled) && p.missedDoses <= 5 && p.medicationCount <= 5
      && !Truthy(p.sideEffects) && p.costConcern <= 3 && p.dosageFrequency <= 3
      && score >= 60.0
  {
    FiredUpToFacts(TriggerCount, p, score);
    var f := FiredUpTo(TriggerCount, p, score);
    if f != [] {
      assert f[0] in f;
    } else {
      forall t ensures !Fires(t, p, score) {
        assert t !in f;
      }
      assert !Fires(ReminderOff, p, score) && !Fires(FrequentMisses, p, score)
        && !Fires(ManyMedications, p, score) && !Fires(SideEffectsReported, p, score)
        && !Fires(CostConcern, p, score) && !Fires(FrequentDosing, p, score)
        && !Fires(LowScore, p, score);
    }
  }

  // ---------------------------------------------------------------------
  // Predictions

  datatype Prediction = Prediction(
    adherenceScore: real,
    riskLevel: RiskLevel,
    riskColor: RiskColor,
    recommendations: seq<Recommendation>,
    confidence: real)

  /** The result record both paths build around a clipped score. */
  function Scored(p: PatientData, score: real, confidence: real): Prediction {
    var level := ClassifyRisk(score);
    Prediction(score, level, TierColor(level), Recommendations(p, score), confidence)
  }

  /** The additive rule score before clipping. */
  function RawRuleScore(p: PatientData): int {
    100
    - (if p.age > 70 then 10 else if p.age < 30 then 5 else 0)
    - 3 * p.medicationCount - 2 * p.dosageFrequency - 5 * p.missedDoses
    + (if Truthy(p.reminderEnabled) then 15 else 0)
    - 5 * p.comorbidities - (if Truthy(p.sideEffects) then 10 else 0)
    - 5 * p.costConcern
  }

  /** The fallback result: the score lies in [0, 100], equals the raw
      score when that is already in range, 0 below it and 100 above it,
      carries the shared tier and colour, the recommendations for that
      score and always confidence 75. */
  function RulePrediction(p: PatientData): (r: Prediction)
    ensures 0.0 <= r.adherenceScore <= 100.0
    ensures 0 <= RawRuleScore(p) <= 100 ==> r.adherenceScore == RawRuleScore(p) as real
    ensures RawRuleScore(p) < 0 ==> r.adherenceScore == 0.0
    ensures RawRuleScore(p) > 100 ==> r.adherenceScore == 100.0
    ensures r.confidence == 75.0
    ensures r.riskLevel == ClassifyRisk(r.adherenceScore)
    ensures r.riskColor == TierColor(r.riskLevel)
    ensures r.recommendations == Recommendations(p, r.adherenceScore)
  {
    Scored(p, Clip(RawRuleScore(p) as real, 0.0, 100.0), 75.0)
  }

  /** The fallback estimator, updating a running score step by step. */
  method RuleBasedPrediction(p: PatientData) returns (r: Prediction)
    ensures r == RulePrediction(p)
    ensures 0.0 <= r.adherenceScore <= 100.0 && r.confidence == 75.0
  {
    var score: real := 100.0;
    if p.age > 70 {
      score := score - 10.0;
    } else if p.age < 30 {
      score := score - 5.0;
    }
    score := score - (p.medicationCount * 3) as real;
    score := score - (p.dosageFrequency * 2) as real;
    score := score - (p.missedDoses * 5) as real;
    if Truthy(p.reminderEnabled) {
      score := score + 15.0;
    }
    score := score - (p.comorbidities * 5) as real;
    if Truthy(p.sideEffects) {
      score := score - 10.0;
    }
    score := score - (p.costConcern * 5) as real;
    assert score == RawRuleScore(p) as real;
    score := Clip(score, 0.0, 100.0);
    var level: RiskLevel, color: RiskColor;
    if score >= 80.0 {
      level, color := Low, Success;
    } else if score >= 60.0 {
      level, color := Medium, Warning;
    } else {
      level, color := High, Danger;
    }
    var recs := GenerateRecommendations(p, score);
    r := Prediction(score, level, color, recs, 75.0);
  }

  /** Worked example: an elderly patient with every risk factor scores 0
      and receives all seven recommendations, in trigger order. */
  lemma AllRiskFactorsExample()
    ensures var p := PatientData(75, Named("Other"), 6, 4, 0, 8, 3, 1, 5);
      RawRuleScore(p) == -26
      && RulePrediction(p).adherenceScore == 0.0
      && RulePrediction(p).riskLevel == High
      && RulePrediction(p).recommendations == AdviceFor(
           [ReminderOff, FrequentMisses, ManyMedications, SideEffectsReported,
            CostConcern, FrequentDosing, LowScore])
  {
    var p := PatientData(75, Named("Other"), 6, 4, 0, 8, 3, 1, 5);
  }

  // ---------------------------------------------------------------------
  // Feature encoding

  /** `{'Male': 0, 'Female': 1, 'Other': 2}.get(g, 2)` for a value the
      lookup can hash. */
  function GenderCode(g: GenderValue): (c: int)
    requires !g.Unhashable?
    ensures 0 <= c <= 2
    ensures c == 0 <==> g == Named("Male")
    ensures c == 1 <==> g == Named("Female")
  {
    if g == Named("Male") then 0 else if g == Named("Female") then 1 else 2
  }

  /** The 9-value layout used when the model was not fit on gender dummies. */
  function SimpleFeatures(p: PatientData): seq<real>
    requires !p.gender.Unhashable?
  {
    [p.age as real / 100.0, GenderCode(p.gender) as real,
     p.medicationCount as real, p.dosageFrequency as real, p.reminderEnabled as real,
     p.missedDoses as real, p.comorbidities as real, p.sideEffects as real,
     p.costConcern as real]
  }

  /** Column names of the one-hot record, in the order the record is built. */
  const OneHotColumns: seq<string> :=
    ["age", "medication_count", "dosage_frequency", "reminder_enabled",
     "missed_doses_last_month", "comorbidities", "side_effects", "cost_concern",
     "gender_0", "gender_1", "gender_2"]

  function Indicator(b: bool): real { if b then 1.0 else 0.0 }

  /** The one-hot record's values, aligned with `OneHotColumns`. */
  function OneHotValues(p: PatientData): (v: seq<real>)
    requires !p.gender.Unhashable?
    ensures |v| == |OneHotColumns|
  {
    var g := GenderCode(p.gender);
    [p.age as real, p.medicationCount as real, p.dosageFrequency as real,
     p.reminderEnabled as real, p.missedDoses as real, p.comorbidities as real,
     p.sideEffects as real, p.costConcern as real,
     Indicator(g == 0), Indicator(g == 1), Indicator(g == 2)]
  }

  /** Exactly one gender indicator is set, and it is the one for the
      gender's code; an unknown gender sets `gender_2`. */
  lemma OneHotGenderExactlyOne(p: PatientData)
    requires !p.gender.Unhashable?
    ensures var v := OneHotValues(p);
      v[8] + v[9] + v[10] == 1.0
      && v[8 + GenderCode(p.gender)] == 1.0
      && (p.gender != Named("Male") && p.gender != Named("Female") ==> v[10] == 1.0)
  {
  }

  /** Why `prepare_features` raises: a list as the gender is a `TypeError`
      in the map lookup, a recorded column the record lacks a `KeyError`. */
  datatype EncodingError = UnhashableGender | MissingColumn(name: string)

  /** Index of the first column called `name`. */
  function ColumnIndex(names: seq<string>, name: string): (r: Option<nat>)
    ensures r.None? <==> name !in names
    ensures r.Some? ==> r.value < |names| && names[r.value] == name && name !in names[..r.value]
  {
    if names == [] then None
    else if names[0] == name then Some(0)
    else match ColumnIndex(names[1..], name)
      case None => None
      case Some(i) =>
        assert names[1..][..i] == names[1..i + 1];
        Some(i + 1)
  }

  /** `df[wanted]`: picks the wanted columns in the wanted order; a name the
      record does not have is a `KeyError`. */
  function SelectColumns(names: seq<string>, values: seq<real>, wanted: seq<string>)
    : (r: Result<seq<real>, EncodingError>)
    requires |names| == |values|
    ensures r.Err? <==> exists k :: 0 <= k < |wanted| && wanted[k] !in names
    ensures r.Err? ==> r.error.MissingColumn? && r.error.name !in names
    ensures r.Ok? ==> (|r.value| == |wanted| &&
      forall k :: 0 <= k < |wanted| ==> r.value[k] == values[ColumnIndex(names, wanted[k]).value])
    decreases |wanted|
  {
    if wanted == [] then Ok([])
    else match ColumnIndex(names, wanted[0])
      case None => Err(MissingColumn(wanted[0]))
      case Some(i) =>
        match SelectColumns(names, values, wanted[1..])
        case Err(e) => Err(e)
        case Ok(rest) => Ok([values[i]] + rest)
  }

  /** The feature vector for the active model: the simple layout, or the
      one-hot record reordered to the recorded feature names when there are
      any (an absent or empty list skips the reordering).  Both layouts look
      the gender up before anything can fail, so an unhashable gender fails
      first. */
  function Encode(p: PatientData, usesGenderDummies: bool, featureNames: Option<seq<string>>)
    : (r: Result<seq<real>, EncodingError>)
    ensures r == Err(UnhashableGender) <==> p.gender.Unhashable?
    ensures r.Err? <==> (p.gender.Unhashable? || (usesGenderDummies && featureNames.Some?
      && exists k :: 0 <= k < |featureNames.value| && featureNames.value[k] !in OneHotColumns))
    ensures r.Ok? ==> |r.value| == (if usesGenderDummies && featureNames.Some? && featureNames.value != []
      then |featureNames.value| else if usesGenderDummies then |OneHotColumns| else 9)
  {
    if p.gender.Unhashable? then Err(UnhashableGender)
    else if !usesGenderDummies then Ok(SimpleFeatures(p))
    else if featureNames.Some? && featureNames.value != [] then
      SelectColumns(OneHotColumns, OneHotValues(p), featureNames.value)
    else Ok(OneHotValues(p))
  }

  /** The simple layout: nine values, normalised age first, then the gender
      code, then the seven other fields in their fixed order. */
  lemma SimpleLayout(p: PatientData, featureNames: Option<seq<string>>)
    requires !p.gender.Unhashable?
    ensures Encode(p, false, featureNames).Ok?
    ensures var v := Encode(p, false, featureNames).value;
      |v| == 9 && v[0] == p.age as real / 100.0 && v[1] == GenderCode(p.gender) as real
      && v[2..] == [p.medicationCount as real, p.dosageFrequency as real,
                    p.reminderEnabled as real, p.missedDoses as real,
                    p.comorbidities as real, p.sideEffects as real, p.costConcern as real]
  {
  }

  /** Selecting every column of a record with distinct names, in its own
      order, returns the record unchanged. */
  lemma SelectOwnOrder(names: seq<string>, values: seq<real>)
    requires |names| == |values|
    requires forall i, j :: 0 <= i < j < |names| ==> names[i] != names[j]
    ensures SelectColumns(names, values, names) == Ok(values)
  {
    forall k | 0 <= k < |names| ensures ColumnIndex(names, names[k]) == Some(k) {
    }
    assert forall k :: 0 <= k < |names| ==> names[k] in names;
    var r := SelectColumns(names, values, names);
    assert r.Ok?;
    assert r.value == values;
  }

  /** The column order training records (features first, dummies last) is
      the order the one-hot record is built in, so reordering to it changes
      nothing. */
  lemma TrainingOrderIsIdentity(p: PatientData)
    requires !p.gender.Unhashable?
    ensures Encode(p, true, Some(OneHotColumns)) == Ok(OneHotValues(p))
  {
    var c := OneHotColumns;
    assert forall i, j :: 0 <= i < j < |c| ==> c[i] != c[j];
    SelectOwnOrder(c, OneHotValues(p));
  }

  // ---------------------------------------------------------------------
  // The trained-model path

  /** The fitted ensemble, seen only through its output. */
  type Regressor = seq<real> -> real
  /** The fitted standard scaler's `transform`. */
  type Scaler = seq<real> -> seq<real>

  function ModelConfidence(score: real): real { Min(95.0, 70.0 + score / 5.0) }

  /** The model-path confidence: with a score in [0, 100] it is 70 + score/5,
      so it lies in [70, 90] and the cap of 95 never applies. */
  lemma ModelConfidenceRange(score: real)
    requires 0.0 <= score <= 100.0
    ensures ModelConfidence(score) == 70.0 + score / 5.0
    ensures 70.0 <= ModelConfidence(score) <= 90.0
  {
  }

  /** What a model-path result makes of the regressor's raw output `y`:
      the score is `y` clipped to [0, 100], the confidence is
      `min(95, 70 + score/5)`, which is `70 + score/5`, and the tier, colour
      and recommendations are those of the score. */
  predicate ScoresOutput(p: PatientData, y: real, r: Prediction) {
    && (0.0 <= y <= 100.0 ==> r.adherenceScore == y)
    && (y < 0.0 ==> r.adherenceScore == 0.0)
    && (y > 100.0 ==> r.adherenceScore == 100.0)
    && 0.0 <= r.adherenceScore <= 100.0
    && r.confidence == ModelConfidence(r.adherenceScore)
    && r.confidence == 70.0 + r.adherenceScore / 5.0
    && 70.0 <= r.confidence <= 90.0
    && r.riskLevel == ClassifyRisk(r.adherenceScore)
    && r.riskColor == TierColor(r.riskLevel)
    && r.recommendations == Recommendations(p, r.adherenceScore)
  }

  /** The result for a raw regressor output. */
  function FromModelOutput(p: PatientData, y: real): (r: Prediction)
    ensures ScoresOutput(p, y, r)
  {
    var score := Clip(y, 0.0, 100.0);
    ModelConfidenceRange(score);
    Scored(p, score, ModelConfidence(score))
  }

  /** `predict` with a loaded model, as the source writes it: the encoded
      vector goes to the regressor unscaled, although the regressor was fit
      on scaled vectors.  It fails exactly when the encoding fails, and
      otherwise scores the regressor's output on the unscaled vector. */
  function ModelPredictionAsWritten(model: Regressor, usesGenderDummies: bool,
                                    featureNames: Option<seq<string>>, p: PatientData)
    : (r: Result<Prediction, EncodingError>)
    ensures var e := Encode(p, usesGenderDummies, featureNames);
      && (r.Err? <==> e.Err?)
      && (r.Err? ==> r.error == e.error)
      && (r.Ok? ==> ScoresOutput(p, model(e.value), r.value))
  {
    match Encode(p, usesGenderDummies, featureNames)
    case Err(e) => Err(e)
    case Ok(v) => Ok(FromModelOutput(p, model(v)))
  }

  /** The model path as training implies it: encode, scale, predict, clip.
      The same promises hold, for the regressor's output on the scaled
      vector. */
  function ModelPrediction(model: Regressor, scaler: Scaler, usesGenderDummies: bool,
                           featureNames: Option<seq<string>>, p: PatientData)
    : (r: Result<Prediction, EncodingError>)
    ensures var e := Encode(p, usesGenderDummies, featureNames);
      && (r.Err? <==> e.Err?)
      && (r.Err? ==> r.error == e.error)
      && (r.Ok? ==> ScoresOutput(p, model(scaler(e.value)), r.value))
  {
    match Encode(p, usesGenderDummies, featureNames)
    case Err(e) => Err(e)
    case Ok(v) => Ok(FromModelOutput(p, model(scaler(v))))
  }

  /** A list as the gender fails the model path as written, whichever
      layout and column order the model uses. */
  lemma UnhashableGenderFailsModelPath(model: Regressor, usesGenderDummies: bool,
                                       featureNames: Option<seq<string>>, p: PatientData)
    requires p.gender.Unhashable?
    ensures ModelPredictionAsWritten(model, usesGenderDummies, featureNames, p) == Err(UnhashableGender)
  {
  }

  /** The triggers never read the gender. */
  lemma {:induction false} FiredIgnoresGender(n: nat, p: PatientData, g: GenderValue, score: real)
    requires n <= TriggerCount
    ensures FiredUpTo(n, p.(gender := g), score) == FiredUpTo(n, p, score)
  {
    if n > 0 {
      FiredIgnoresGender(n - 1, p, g, score);
    }
  }

  /** The rule-based path never reads the gender, so any value, a list
      included, gives the same result. */
  lemma RulePredictionIgnoresGender(p: PatientData, g: GenderValue)
    ensures RulePrediction(p.(gender := g)) == RulePrediction(p)
  {
    FiredIgnoresGender(TriggerCount, p, g, Clip(RawRuleScore(p) as real, 0.0, 100.0));
  }

  /** With the training-time column order and a gender the lookup can hash,
      neither model path fails. */
  lemma ModelPredictionTotalForTrainingOrder(model: Regressor, scaler: Scaler, p: PatientData)
    requires !p.gender.Unhashable?
    ensures ModelPredictionAsWritten(model, true, Some(OneHotColumns), p).Ok?
    ensures ModelPrediction(model, scaler, true, Some(OneHotColumns), p).Ok?
  {
    TrainingOrderIsIdentity(p);
  }

  /** Counterexample for the skipped scaler: with a standard scaler that
      centres age on 50 with spread 20, and a regressor that reads the first
      feature as a score, the source scores a 70-year-old at 70 where the
      model, fed what it was trained on, gives 1. */
  lemma ScalerSkippedChangesScore()
    ensures var p := PatientData(70, Named("Male"), 1, 1, 1, 0, 0, 0, 1);
      var model: Regressor := v => if |v| > 0 then v[0] else 0.0;
      var scaler: Scaler := v => if |v| > 0 then [(v[0] - 50.0) / 20.0] + v[1..] else v;
      ModelPredictionAsWritten(model, true, Some(OneHotColumns), p).value.adherenceScore == 70.0
      && ModelPrediction(model, scaler, true, Some(OneHotColumns), p).value.adherenceScore == 1.0
  {
    var p := PatientData(70, Named("Male"), 1, 1, 1, 0, 0, 0, 1);
    TrainingOrderIsIdentity(p);
  }

  /** The predictor object: what `__init__` and `load_model` leave in its
      fields decides which path `Predict` takes. */
  class AdherencePredictor {
    var model: Option<Regressor>
    var scaler: Scaler
    var usesGenderDummies: bool
    var featureNames: Option<seq<string>>

    /** No saved model: the rule-based path only. */
    constructor Untrained()
      ensures model == None && !usesGenderDummies && featureNames == None
    {
      model := None;
      scaler := v => v;
      usesGenderDummies := false;
      featureNames := None;
    }

    /** A loaded model with its scaler and recorded metadata. */
    constructor Loaded(model: Regressor, scaler: Scaler, usesGenderDummies: bool,
                       featureNames: Option<seq<string>>)
      ensures this.model == Some(model) && this.scaler == scaler
      ensures this.usesGenderDummies == usesGenderDummies && this.featureNames == featureNames
    {
      this.model := Some(model);
      this.scaler := scaler;
      this.usesGenderDummies := usesGenderDummies;
      this.featureNames := featureNames;
    }

    /** Builds the feature vector; the simple layout is appended field by field. */
    method PrepareFeatures(p: PatientData) returns (r: Result<seq<real>, EncodingError>)
      ensures r == Encode(p, usesGenderDummies, featureNames)
    {
      if p.gender.Unhashable? {
        r := Err(UnhashableGender);
      } else if usesGenderDummies {
        if featureNames.Some? && featureNames.value != [] {
          r := SelectColumns(OneHotColumns, OneHotValues(p), featureNames.value);
        } else {
          r := Ok(OneHotValues(p));
        }
      } else {
        var features: seq<real> := [];
        features := features + [p.age as real / 100.0];
        features := features + [GenderCode(p.gender) as real];
        features := features + [p.medicationCount as real];
        features := features + [p.dosageFrequency as real];
        features := features + [p.reminderEnabled as real];
        features := features + [p.missedDoses as real];
        features := features + [p.comorbidities as real];
        features := features + [p.sideEffects as real];
        features := features + [p.costConcern as real];
        assert features == SimpleFeatures(p);
        r := Ok(features);
      }
    }

    /** Rule-based when no model is loaded; otherwise the model path as the
        source writes it, with the unscaled features, which fails only when
        the encoding does. */
    method Predict(p: PatientData) returns (r: Result<Prediction, EncodingError>)
      ensures model.None? ==> r == Ok(RulePrediction(p))
      ensures model.Some? ==>
        r == ModelPredictionAsWritten(model.value, usesGenderDummies, featureNames, p)
      ensures r.Ok? ==> (0.0 <= r.value.adherenceScore <= 100.0
        && r.value.riskLevel == ClassifyRisk(r.value.adherenceScore)
        && r.value.recommendations == Recommendations(p, r.value.adherenceScore))
      ensures r.Ok? ==> r.value.confidence == (if model.None? then 75.0 else 70.0 + r.value.adherenceScore / 5.0)
    {
      if model.None? {
        var rule := RuleBasedPrediction(p);
        return Ok(rule);
      }
      var features := PrepareFeatures(p);
      if features.Err? {
        return Err(features.error);
      }
      var score := Clip(model.value(features.value), 0.0, 100.0);
      var level := ClassifyRisk(score);
      var recs := GenerateRecommendations(p, score);
      var confidence := Min(95.0, 70.0 + score / 5.0);
      r := Ok(Prediction(score, level, TierColor(level), recs, confidence));
    }
  }
}
