/** The synthetic training data: for each sample, a score built from the
    sampled attributes and random magnitudes, clipped to [10, 100], and the
    adherent label.  The random draws are inputs, one `Draw` per sample. */
module DataGenerator {
  import Predictor
  import opened Wrappers

  datatype Gender = Male | Female | Other

  /** `{'Male': 0, 'Female': 1, 'Other': 2}[gender]`. */
  function GenderCode(g: Gender): (code: int)
    ensures 0 <= code <= 2
    ensures code == 0 <==> g == Male
    ensures code == 1 <==> g == Female
  {
    match g
    case Male => 0
    case Female => 1
    case Other => 2
  }

  /** One sample's draws: the attributes, then the uniform magnitudes the
      score uses.  `agePenalty` is drawn only for ages above 70 or below 30. */
  datatype Draw = Draw(
    age: int,
    gender: Gender,
    medicationCount: int,
    dosageFrequency: int,
    reminderEnabled: int,
    missedDoses: int,
    comorbidities: int,
    sideEffects: int,
    costConcern: int,
    agePenalty: real,
    medicationRate: real,
    frequencyRate: real,
    reminderBoost: real,
    missedRate: real,
    comorbidityRate: real,
    sideEffectPenalty: real,
    costRate: real,
    noise: real)

  /** The ranges the generator draws from: `randint(lo, hi)` gives
      lo <= x < hi, `uniform(lo, hi)` gives lo <= x < hi, and the two-way
      choices give 0 or 1. */
  predicate InRange(d: Draw) {
    18 <= d.age < 85 && 1 <= d.medicationCount < 8 && 1 <= d.dosageFrequency < 5
    && 0 <= d.reminderEnabled <= 1 && 0 <= d.missedDoses < 15 && 0 <= d.comorbidities < 5
    && 0 <= d.sideEffects <= 1 && 1 <= d.costConcern < 6
    && (d.age > 70 ==> 5.0 <= d.agePenalty < 15.0)
    && (d.age < 30 ==> 0.0 <= d.agePenalty < 10.0)
    && 1.0 <= d.medicationRate < 4.0 && 1.0 <= d.frequencyRate < 3.0
    && 10.0 <= d.reminderBoost < 20.0 && 2.0 <= d.missedRate < 5.0
    && 2.0 <= d.comorbidityRate < 6.0 && 5.0 <= d.sideEffectPenalty < 15.0
    && 1.0 <= d.costRate < 4.0 && -5.0 <= d.noise < 5.0
  }

  /** The age term: a penalty only above 70 or below 30. */
  function AgeImpact(d: Draw): real {
    if d.age > 70 || d.age < 30 then d.agePenalty else 0.0
  }

  /** A count times its drawn per-unit magnitude. */
  function Weighted(count: int, rate: real): real {
    count as real * rate
  }

  /** The score before clipping: 90, less the age, complexity, missed-dose,
      health and cost terms, plus the reminder boost and the noise. */
  function RawScore(d: Draw): real {
    90.0 - AgeImpact(d)
    - Weighted(d.medicationCount, d.medicationRate)
    - Weighted(d.dosageFrequency, d.frequencyRate)
    + (if d.reminderEnabled != 0 then d.reminderBoost else 0.0)
    - Weighted(d.missedDoses, d.missedRate)
    - Weighted(d.comorbidities, d.comorbidityRate)
    - (if d.sideEffects != 0 then d.sideEffectPenalty else 0.0)
    - Weighted(d.costConcern, d.costRate)
    + d.noise
  }

  /** One row of the training table. */
  datatype Sample = Sample(
    age: int,
    gender: int,
    medicationCount: int,
    dosageFrequency: int,
    reminderEnabled: int,
    missedDoses: int,
    comorbidities: int,
    sideEffects: int,
    costConcern: int,
    adherenceScore: real,
    adherent: int)

  function LabelScore(d: Draw): real {
    Predictor.Clip(RawScore(d), 10.0, 100.0)
  }

  /** The row a draw produces: its score lies in [10, 100], and it is
      adherent exactly when that score is at least 80. */
  function SampleOf(d: Draw): (s: Sample)
    ensures 10.0 <= s.adherenceScore <= 100.0
    ensures s.adherent == 1 <==> s.adherenceScore >= 80.0
    ensures s.adherent == 0 || s.adherent == 1
    ensures s.adherenceScore == LabelScore(d)
  {
    var score := LabelScore(d);
    Sample(d.age, GenderCode(d.gender), d.medicationCount, d.dosageFrequency, d.reminderEnabled,
           d.missedDoses, d.comorbidities, d.sideEffects, d.costConcern,
           score, if score >= 80.0 then 1 else 0)
  }

  /** The body of the sample loop: the score is lowered and raised step by
      step, clipped, and labelled. */
  method GenerateSample(d: Draw) returns (s: Sample)
    ensures s == SampleOf(d)
  {
    var score: real := 90.0;
    if d.age > 70 {
      score := score - d.agePenalty;
    } else if d.age < 30 {
      score := score - d.agePenalty;
    }
    assert score == 90.0 - AgeImpact(d);
    score := score - Weighted(d.medicationCount, d.medicationRate);
    score := score - Weighted(d.dosageFrequency, d.frequencyRate);
    if d.reminderEnabled != 0 {
      score := score + d.reminderBoost;
    }
    score := score - Weighted(d.missedDoses, d.missedRate);
    score := score - Weighted(d.comorbidities, d.comorbidityRate);
    if d.sideEffects != 0 {
      score := score - d.sideEffectPenalty;
    }
    score := score - Weighted(d.costConcern, d.costRate);
    score := score + d.noise;
    assert score == RawScore(d);
    score := Predictor.Clip(score, 10.0, 100.0);
    var adherent := if score >= 80.0 then 1 else 0;
    s := Sample(d.age, GenderCode(d.gender), d.medicationCount, d.dosageFrequency, d.reminderEnabled,
                d.missedDoses, d.comorbidities, d.sideEffects, d.costConcern, score, adherent);
  }

  /** The sample count when none is given. */
  const DefaultSamples: nat := 1000

  /** Why generating fails: with no rows the data frame has no `adherent`
      column, and reading it for the summary raises `KeyError`. */
  datatype GenerateError = NoAdherentColumn

  /** `generate_sample_data(num_samples)`: one row per draw, for the first
      `num_samples` draws; a count of zero or less builds no rows and then
      fails on the summary. */
  method GenerateSampleData(numSamples: int, draws: seq<Draw>) returns (r: Result<seq<Sample>, GenerateError>)
    requires numSamples <= |draws|
    ensures r.Err? <==> numSamples <= 0
    ensures r.Err? ==> r.error == NoAdherentColumn
    ensures r.Ok? ==> |r.value| == numSamples
    ensures r.Ok? ==> forall k :: 0 <= k < |r.value| ==> r.value[k] == SampleOf(draws[k])
  {
    var rows: seq<Sample> := [];
    var k := 0;
    while k < numSamples
      invariant 0 <= k <= (if numSamples > 0 then numSamples else 0)
      invariant |rows| == k
      invariant forall j :: 0 <= j < k ==> rows[j] == SampleOf(draws[j])
    {
      var s := GenerateSample(draws[k]);
      rows := rows + [s];
      k := k + 1;
    }
    if rows == [] {
      return Err(NoAdherentColumn);
    }
    r := Ok(rows);
  }

  /** `generate_sample_data()`, as every caller invokes it: one row for each
      of the first 1000 draws. */
  method GenerateDefaultSampleData(draws: seq<Draw>) returns (rows: seq<Sample>)
    requires |draws| >= DefaultSamples
    ensures |rows| == 1000
    ensures forall k :: 0 <= k < 1000 ==> rows[k] == SampleOf(draws[k])
  {
    var r := GenerateSampleData(DefaultSamples, draws);
    rows := r.value;
  }

  /** Clipping keeps the order of its inputs. */
  lemma ClipMonotone(x: real, y: real, lo: real, hi: real)
    requires lo <= hi && x <= y
    ensures Predictor.Clip(x, lo, hi) <= Predictor.Clip(y, lo, hi)
  {
  }

  /** With draws in range, turning the reminder on raises the raw score by
      at least 10 and never lowers the label score. */
  lemma ReminderOnlyRaises(d: Draw)
    requires InRange(d)
    ensures RawScore(d.(reminderEnabled := 1)) >= RawScore(d.(reminderEnabled := 0)) + 10.0
    ensures LabelScore(d.(reminderEnabled := 1)) >= LabelScore(d.(reminderEnabled := 0))
  {
    var off, on := d.(reminderEnabled := 0), d.(reminderEnabled := 1);
    assert RawScore(on) == RawScore(off) + d.reminderBoost;
    ClipMonotone(RawScore(off), RawScore(on), 10.0, 100.0);
  }

  /** Ages from 30 to 70 all give the same score, whatever penalty was
      drawn; above 70 the score is lower than at such an age by the penalty,
      which in range is at least 5. */
  lemma AgeMattersOnlyAtTheEnds(d: Draw, otherAge: int, otherPenalty: real)
    requires 30 <= d.age <= 70 && 30 <= otherAge <= 70
    ensures LabelScore(d.(age := otherAge, agePenalty := otherPenalty)) == LabelScore(d)
    ensures RawScore(d.(age := 71, agePenalty := otherPenalty)) == RawScore(d) - otherPenalty
  {
    assert RawScore(d.(age := otherAge, agePenalty := otherPenalty)) == RawScore(d);
  }
}
