/**
 * The browser-side risk estimator, `calculatePrediction` in docs/script.js:
 * a base rate picked by the indicator, multiplied by table-driven
 * demographic factors, jittered by a random draw, clamped to [8, 65] and
 * turned into a tier, a condition label, a recommendation and a cosmetic
 * confidence. Numbers are reals; the two `Math.random()` draws are the
 * parameters `r1` (jitter) and `r2` (confidence).
 */
module ClientEstimator {
  import opened Wrappers
  import opened Advice
  import opened Conditions

  /** The form record: every field is the value of a select, "" when unset. */
  datatype Profile = Profile(
    indicator: string,
    ageGroup: string,
    sex: string,
    raceEthnicity: string,
    education: string,
    disability: string,
    genderIdentity: string,
    sexualOrientation: string,
    maritalStatus: string,
    employment: string,
    state: string)

  /** The object `calculatePrediction` returns. */
  datatype Assessment = Assessment(
    success: bool,
    prediction: real,
    riskLevel: string,
    riskClass: string,
    confidence: real,
    recommendation: string,
    conditionName: string,
    conditionDisplay: string,
    userInputs: Profile)

  // ---------------------------------------------------------------------
  // The factor tables: object literals keyed by the select values.
  // ---------------------------------------------------------------------

  /** The value stored under `key`, None when the table has no such key. */
  function Lookup(table: seq<(string, real)>, key: string): (r: Option<real>)
  {
    if table == [] then None
    else if table[0].0 == key then Some(table[0].1)
    else Lookup(table[1..], key)
  }

  /**
   * `Lookup` finds a key exactly when the table has an entry for it, and
   * what it returns is the value of such an entry.
   */
  lemma {:induction false} LookupFound(table: seq<(string, real)>, key: string)
    ensures Lookup(table, key).Some? <==> exists i :: 0 <= i < |table| && table[i].0 == key
    ensures Lookup(table, key).Some? ==> exists i :: 0 <= i < |table| && table[i] == (key, Lookup(table, key).value)
  {
    if table != [] && table[0].0 != key {
      LookupFound(table[1..], key);
      if Lookup(table, key).Some? {
        var i :| 0 <= i < |table[1..]| && table[1..][i] == (key, Lookup(table, key).value);
        assert table[i + 1] == table[1..][i];
      }
      forall i | 0 < i < |table| && table[i].0 == key
        ensures Lookup(table, key).Some?
      {
        assert table[1..][i - 1] == table[i];
      }
    }
  }

  const AgeFactors: seq<(string, real)> := [
    ("18 - 29 years", 1.35),
    ("30 - 39 years", 1.20),
    ("40 - 49 years", 1.10),
    ("50 - 59 years", 1.05),
    ("60 - 69 years", 0.85),
    ("70 - 79 years", 0.70),
    ("80 years and above", 0.60)]

  const RaceFactors: seq<(string, real)> := [
    ("Hispanic or Latino", 1.05),
    ("Non-Hispanic White, single race", 1.0),
    ("Non-Hispanic Black, single race", 1.08),
    ("Non-Hispanic Asian, single race", 0.75),
    ("Non-Hispanic, other races and multiple races", 1.25)]

  const EducationFactors: seq<(string, real)> := [
    ("Less than a high school diploma", 1.30),
    ("High school diploma or GED", 1.15),
    ("Some college/Associate's degree", 1.10),
    ("Bachelor's degree or higher", 0.80)]

  const MaritalFactors: seq<(string, real)> := [
    ("Married", 0.85),
    ("Never married", 1.10),
    ("Widowed/Divorced/Separated", 1.25)]

  const EmploymentFactors: seq<(string, real)> := [
    ("Employed", 0.90),
    ("Unemployed", 1.35),
    ("Not in workforce", 1.05)]

  const StateFactors: seq<(string, real)> := [
    ("West Virginia", 1.20),
    ("Kentucky", 1.15),
    ("Arkansas", 1.15),
    ("Oklahoma", 1.12),
    ("Tennessee", 1.10),
    ("Alabama", 1.08),
    ("California", 0.95),
    ("Hawaii", 0.85),
    ("Minnesota", 0.90),
    ("Utah", 0.88)]

  /** A table none of whose keys is "" yields nothing for "". */
  lemma {:induction false} NoEmptyKey(table: seq<(string, real)>)
    requires forall i :: 0 <= i < |table| ==> |table[i].0| > 0
    ensures Lookup(table, "") == None
  {
    if table != [] {
      NoEmptyKey(table[1..]);
    }
  }

  /** No table has an entry for the empty string, the value of an unset select. */
  lemma EmptyKeyAbsent()
    ensures Lookup(AgeFactors, "") == None && Lookup(RaceFactors, "") == None
    ensures Lookup(EducationFactors, "") == None && Lookup(MaritalFactors, "") == None
    ensures Lookup(EmploymentFactors, "") == None && Lookup(StateFactors, "") == None
  {
    NoEmptyKey(AgeFactors);
    NoEmptyKey(RaceFactors);
    NoEmptyKey(EducationFactors);
    NoEmptyKey(MaritalFactors);
    NoEmptyKey(EmploymentFactors);
    NoEmptyKey(StateFactors);
  }

  // ---------------------------------------------------------------------
  // Reference definition: the rate as the base rate times one factor per
  // field, applied in the estimator's order.
  // ---------------------------------------------------------------------

  function BaseRate(indicator: string): real {
    if indicator == AnxietyIndicator then 21.3
    else if indicator == DepressiveIndicator then 18.2
    else if indicator == EitherIndicator then 27.5
    else 22.5
  }

  function SexFactor(sex: string): real {
    if sex == "Female" then 1.15 else if sex == "Male" then 0.85 else 1.0
  }

  function DisabilityFactor(disability: string): real {
    if disability == "With disability" then 2.4
    else if disability == "Without disability" then 0.82
    else 1.0
  }

  function GenderIdentityFactor(genderIdentity: string): real {
    if genderIdentity == "Transgender" then 2.8
    else if genderIdentity == "Cis-gender male" then 0.95
    else 1.0
  }

  function OrientationFactor(orientation: string): real {
    if orientation == "Bisexual" then 2.2
    else if orientation == "Gay or lesbian" then 1.4
    else if orientation == "Straight" then 0.88
    else 1.0
  }

  /** The number of demographic adjustments the estimator applies. */
  const Adjustments: nat := 10

  /** The ten factors a profile contributes, one per adjustment. */
  datatype Multipliers = Multipliers(
    age: real,
    sex: real,
    race: real,
    education: real,
    disability: real,
    genderIdentity: real,
    orientation: real,
    marital: real,
    employment: real,
    state: real)
  {
    /** The factor of the `i`-th adjustment, counting from 1; 1.0 beyond the ten. */
    function At(i: nat): real {
      if i == 1 then age
      else if i == 2 then sex
      else if i == 3 then race
      else if i == 4 then education
      else if i == 5 then disability
      else if i == 6 then genderIdentity
      else if i == 7 then orientation
      else if i == 8 then marital
      else if i == 9 then employment
      else if i == 10 then state
      else 1.0
    }
  }

  /**
   * The factors of a profile. A value missing from a table counts as 1.0,
   * the source's `table[value] || 1.0`.
   */
  function MultipliersOf(d: Profile): Multipliers {
    Multipliers(
      Lookup(AgeFactors, d.ageGroup).GetOr(1.0),
      SexFactor(d.sex),
      Lookup(RaceFactors, d.raceEthnicity).GetOr(1.0),
      Lookup(EducationFactors, d.education).GetOr(1.0),
      DisabilityFactor(d.disability),
      GenderIdentityFactor(d.genderIdentity),
      OrientationFactor(d.sexualOrientation),
      Lookup(MaritalFactors, d.maritalStatus).GetOr(1.0),
      Lookup(EmploymentFactors, d.employment).GetOr(1.0),
      Lookup(StateFactors, d.state).GetOr(1.0))
  }

  /** One adjustment of the running rate: the source's `baseRate *= factor`. */
  function Scale(rate: real, factor: real): real {
    rate * factor
  }

  /** `rate` after the adjustments `lo + 1` up to `hi` with the factors `m`, in order. */
  function Adjusted(m: Multipliers, rate: real, lo: nat, hi: nat): real
    requires lo <= hi
    decreases hi
  {
    if hi == lo then rate else Scale(Adjusted(m, rate, lo, hi - 1), m.At(hi))
  }

  /** One more adjustment extends the range by one step. */
  lemma NextAdjustment(m: Multipliers, rate: real, lo: nat, n: nat, before: real, after: real)
    requires lo < n
    requires before == Adjusted(m, rate, lo, n - 1) && after == Scale(before, m.At(n))
    ensures after == Adjusted(m, rate, lo, n)
  {
  }

  /** Adjusting by `lo + 1..mid` and then by `mid + 1..hi` is adjusting by `lo + 1..hi`. */
  lemma {:induction false} AdjustedCompose(m: Multipliers, rate: real, lo: nat, mid: nat, hi: nat)
    requires lo <= mid <= hi
    ensures Adjusted(m, Adjusted(m, rate, lo, mid), mid, hi) == Adjusted(m, rate, lo, hi)
    decreases hi
  {
    if hi > mid {
      AdjustedCompose(m, rate, lo, mid, hi - 1);
    }
  }

  /** The rate before the random jitter: the base rate after all ten adjustments. */
  function Rate(d: Profile): real {
    Adjusted(MultipliersOf(d), BaseRate(d.indicator), 0, Adjustments)
  }

  /** `(Math.random() - 0.5) * 4` for the draw `r1`. */
  function Jitter(r1: real): real {
    (r1 - 0.5) * 4.0
  }

  function Min(a: real, b: real): real { if a <= b then a else b }

  function Max(a: real, b: real): real { if a >= b then a else b }

  /** `Math.max(8, Math.min(65, v))`. */
  function Clamp(v: real): real {
    Max(8.0, Min(65.0, v))
  }

  /** `92 + Math.random() * 6` for the draw `r2`. */
  function Confidence(r2: real): real {
    92.0 + r2 * 6.0
  }

  /**
   * What the estimator returns for the profile `d` once its adjusted rate is
   * `rate`, for the draws `r1` and `r2`.
   */
  function Assess(d: Profile, rate: real, r1: real, r2: real): Assessment {
    var p := Clamp(rate + Jitter(r1));
    var t := TierOf(p);
    var c := ClientCondition(d.indicator);
    Assessment(true, p, LevelName(t), ClassName(t), Confidence(r2),
               Recommendation(t, ConditionName(c)), ConditionName(c), ConditionDisplay(c), d)
  }

  /** What the estimator returns for the profile `d` and the draws `r1`, `r2`. */
  function Estimate(d: Profile, r1: real, r2: real): Assessment {
    Assess(d, Rate(d), r1, r2)
  }

  // ---------------------------------------------------------------------
  // The estimator itself, step by step on one running rate. Its body is
  // split along the source's own sections so that each proof stays small.
  // ---------------------------------------------------------------------

  /** The first four adjustments: age, sex, race/ethnicity, education. */
  method ApplyDemographics(data: Profile, rate: real) returns (baseRate: real)
    ensures baseRate == Adjusted(MultipliersOf(data), rate, 0, 4)
  {
    baseRate := rate;
    ghost var k: nat, step := 0, baseRate;

    baseRate := Scale(baseRate, Lookup(AgeFactors, data.ageGroup).GetOr(1.0));
    NextAdjustment(MultipliersOf(data), rate, 0, k + 1, step, baseRate);
    k, step := k + 1, baseRate;

    if data.sex == "Female" {
      baseRate := Scale(baseRate, 1.15);
    } else if data.sex == "Male" {
      baseRate := Scale(baseRate, 0.85);
    }
    NextAdjustment(MultipliersOf(data), rate, 0, k + 1, step, baseRate);
    k, step := k + 1, baseRate;

    baseRate := Scale(baseRate, Lookup(RaceFactors, data.raceEthnicity).GetOr(1.0));
    NextAdjustment(MultipliersOf(data), rate, 0, k + 1, step, baseRate);
    k, step := k + 1, baseRate;

    baseRate := Scale(baseRate, Lookup(EducationFactors, data.education).GetOr(1.0));
    NextAdjustment(MultipliersOf(data), rate, 0, k + 1, step, baseRate);
  }

  /** The major adjustments: disability, gender identity, sexual orientation. */
  method ApplyMajorFactors(data: Profile, rate: real) returns (baseRate: real)
    ensures baseRate == Adjusted(MultipliersOf(data), rate, 4, 7)
  {
    baseRate := rate;
    ghost var k: nat, step := 4, baseRate;

    if data.disability == "With disability" {
      baseRate := Scale(baseRate, 2.4);
    } else if data.disability == "Without disability" {
      baseRate := Scale(baseRate, 0.82);
    }
    NextAdjustment(MultipliersOf(data), rate, 4, k + 1, step, baseRate);
    k, step := k + 1, baseRate;

    if data.genderIdentity == "Transgender" {
      baseRate := Scale(baseRate, 2.8);
    } else if data.genderIdentity == "Cis-gender female" {
      baseRate := Scale(baseRate, 1.0);
    } else if data.genderIdentity == "Cis-gender male" {
      baseRate := Scale(baseRate, 0.95);
    }
    NextAdjustment(MultipliersOf(data), rate, 4, k + 1, step, baseRate);
    k, step := k + 1, baseRate;

    if data.sexualOrientation == "Bisexual" {
      baseRate := Scale(baseRate, 2.2);
    } else if data.sexualOrientation == "Gay or lesbian" {
      baseRate := Scale(baseRate, 1.4);
    } else if data.sexualOrientation == "Straight" {
      baseRate := Scale(baseRate, 0.88);
    }
    NextAdjustment(MultipliersOf(data), rate, 4, k + 1, step, baseRate);
  }

  /** The guarded adjustments: marital status, employment, state. */
  method ApplySocialFactors(data: Profile, rate: real) returns (baseRate: real)
    ensures baseRate == Adjusted(MultipliersOf(data), rate, 7, 10)
  {
    baseRate := rate;
    ghost var k: nat, step := 7, baseRate;
    assert Lookup(MaritalFactors, "") == None && Lookup(EmploymentFactors, "") == None by { EmptyKeyAbsent(); }

    if data.maritalStatus != "" && Lookup(MaritalFactors, data.maritalStatus).Some? {
      baseRate := Scale(baseRate, Lookup(MaritalFactors, data.maritalStatus).value);
    }
    NextAdjustment(MultipliersOf(data), rate, 7, k + 1, step, baseRate);
    k, step := k + 1, baseRate;

    if data.employment != "" && Lookup(EmploymentFactors, data.employment).Some? {
      baseRate := Scale(baseRate, Lookup(EmploymentFactors, data.employment).value);
    }
    NextAdjustment(MultipliersOf(data), rate, 7, k + 1, step, baseRate);
    k, step := k + 1, baseRate;

    if Lookup(StateFactors, data.state).Some? {
      baseRate := Scale(baseRate, Lookup(StateFactors, data.state).value);
    }
    NextAdjustment(MultipliersOf(data), rate, 7, k + 1, step, baseRate);
  }

  /** The base rate of the indicator, then the ten adjustments. */
  method AdjustedRate(data: Profile) returns (baseRate: real)
    ensures baseRate == Rate(data)
  {
    baseRate := 22.5;
    if data.indicator == AnxietyIndicator {
      baseRate := 21.3;
    } else if data.indicator == DepressiveIndicator {
      baseRate := 18.2;
    } else if data.indicator == EitherIndicator {
      baseRate := 27.5;
    }
    ghost var base := baseRate;
    baseRate := ApplyDemographics(data, baseRate);
    baseRate := ApplyMajorFactors(data, baseRate);
    AdjustedCompose(MultipliersOf(data), base, 0, 4, 7);
    baseRate := ApplySocialFactors(data, baseRate);
    AdjustedCompose(MultipliersOf(data), base, 0, 7, 10);
  }

  /**
   * The jitter, the clamp, the labels and the returned object, for the
   * adjusted rate `rate`.
   */
  method Report(data: Profile, rate: real, r1: real, r2: real) returns (a: Assessment)
    requires 0.0 <= r1 < 1.0 && 0.0 <= r2 < 1.0
    ensures a == Assess(data, rate, r1, r2)
    ensures 8.0 <= a.prediction <= 65.0
    ensures 92.0 <= a.confidence < 98.0
    ensures a.userInputs == data
  {
    var baseRate := rate;

    var randomVariation := (r1 - 0.5) * 4.0;
    baseRate := baseRate + randomVariation;

    baseRate := Max(8.0, Min(65.0, baseRate));

    var riskLevel, riskClass;
    if baseRate < 15.0 {
      riskLevel, riskClass := "Low", "low";
    } else if baseRate < 25.0 {
      riskLevel, riskClass := "Moderate", "moderate";
    } else {
      riskLevel, riskClass := "High", "high";
    }

    var conditionName, conditionDisplay;
    if data.indicator == DepressiveIndicator {
      conditionName, conditionDisplay := "depression", "depressive disorder";
    } else if data.indicator == AnxietyIndicator {
      conditionName, conditionDisplay := "anxiety", "anxiety disorder";
    } else {
      conditionName, conditionDisplay := "anxiety or depression", "anxiety or depressive disorder";
    }

    var recommendation;
    if riskLevel == "Low" {
      recommendation := Recommendation(Low, conditionName);
    } else if riskLevel == "Moderate" {
      recommendation := Recommendation(Moderate, conditionName);
    } else {
      recommendation := Recommendation(High, conditionName);
    }

    var confidence := 92.0 + r2 * 6.0;

    a := Assessment(true, baseRate, riskLevel, riskClass, confidence,
                    recommendation, conditionName, conditionDisplay, data);
  }

  /** The estimator: the adjusted rate, then the report built on it. */
  method CalculatePrediction(data: Profile, r1: real, r2: real) returns (a: Assessment)
    requires 0.0 <= r1 < 1.0 && 0.0 <= r2 < 1.0
    ensures a == Estimate(data, r1, r2)
    ensures 8.0 <= a.prediction <= 65.0
    ensures 92.0 <= a.confidence < 98.0
    ensures a.userInputs == data
  {
    var rate := AdjustedRate(data);
    a := Report(data, rate, r1, r2);
  }

  // ---------------------------------------------------------------------
  // Properties of the estimator.
  // ---------------------------------------------------------------------

  /** The clamp keeps a value inside [8, 65] and leaves it alone there. */
  lemma ClampBounds(v: real)
    ensures 8.0 <= Clamp(v) <= 65.0
    ensures 8.0 <= v <= 65.0 ==> Clamp(v) == v
    ensures v < 8.0 ==> Clamp(v) == 8.0
    ensures v > 65.0 ==> Clamp(v) == 65.0
  {
  }

  /** A draw in [0, 1) moves the rate by at least -2 and by less than +2. */
  lemma JitterBounds(r1: real)
    requires 0.0 <= r1 < 1.0
    ensures -2.0 <= Jitter(r1) < 2.0
  {
  }

  /**
   * The fields of an estimate hang together: the level is the tier of the
   * prediction, the class is the lower-cased level, and the recommendation
   * embeds the condition name right after the lead of that tier.
   */
  lemma EstimateConsistent(d: Profile, r1: real, r2: real)
    requires 0.0 <= r1 < 1.0 && 0.0 <= r2 < 1.0
    ensures var a := Estimate(d, r1, r2);
      a.success &&
      8.0 <= a.prediction <= 65.0 &&
      92.0 <= a.confidence < 98.0 &&
      a.riskLevel == LevelName(TierOf(a.prediction)) &&
      a.riskClass == Lower(a.riskLevel) &&
      a.conditionName == ConditionName(ClientCondition(d.indicator)) &&
      a.recommendation[|Lead(TierOf(a.prediction))|..|Lead(TierOf(a.prediction))| + |a.conditionName|]
        == a.conditionName &&
      a.userInputs == d
  {
    var a := Estimate(d, r1, r2);
    ClampBounds(Rate(d) + Jitter(r1));
    ClassIsLowerCaseLevel(TierOf(a.prediction));
    RecommendationEmbedsCondition(TierOf(a.prediction), a.conditionName);
  }

  /** Away from the clamp bounds the prediction is within two points of the rate. */
  lemma PredictionNearRate(d: Profile, r1: real, r2: real)
    requires 0.0 <= r1 < 1.0
    requires 10.0 <= Rate(d) <= 63.0
    ensures Rate(d) - 2.0 <= Estimate(d, r1, r2).prediction < Rate(d) + 2.0
  {
    JitterBounds(r1);
    ClampBounds(Rate(d) + Jitter(r1));
  }

  /** A larger first draw never lowers the prediction or its tier. */
  lemma JitterMonotone(d: Profile, r1: real, s1: real, r2: real)
    requires r1 <= s1
    ensures Estimate(d, r1, r2).prediction <= Estimate(d, s1, r2).prediction
    ensures Rank(TierOf(Estimate(d, r1, r2).prediction)) <= Rank(TierOf(Estimate(d, s1, r2).prediction))
  {
    TierMonotone(Estimate(d, r1, r2).prediction, Estimate(d, s1, r2).prediction);
  }

  /** The second draw moves only the confidence. */
  lemma ConfidenceIndependent(d: Profile, r1: real, r2: real, s2: real)
    ensures Estimate(d, r1, r2) == Estimate(d, r1, s2).(confidence := Confidence(r2))
  {
  }

  /** A disability factor of 2.4 instead of 1.0 multiplies the adjusted rate by 2.4. */
  lemma DisabilityScales(m: Multipliers, rate: real)
    ensures Adjusted(m.(disability := 2.4), rate, 0, Adjustments) == 2.4 * Adjusted(m.(disability := 1.0), rate, 0, Adjustments)
  {
  }

  /**
   * Setting the disability field to "With disability" multiplies the rate
   * before the jitter by exactly 2.4 against leaving the field unset.
   */
  lemma DisabilityMultiplies(d: Profile)
    ensures Rate(d.(disability := "With disability")) == 2.4 * Rate(d.(disability := ""))
  {
    var m := MultipliersOf(d);
    assert MultipliersOf(d.(disability := "With disability")) == m.(disability := 2.4);
    assert MultipliersOf(d.(disability := "")) == m.(disability := 1.0);
    DisabilityScales(m, BaseRate(d.indicator));
  }

  /** Whether a value is one the estimator's branches recognise. */
  predicate KnownSex(v: string) { v == "Female" || v == "Male" }
  predicate KnownDisability(v: string) { v == "With disability" || v == "Without disability" }
  predicate KnownGender(v: string) { v == "Transgender" || v == "Cis-gender female" || v == "Cis-gender male" }
  predicate KnownOrientation(v: string) { v == "Bisexual" || v == "Gay or lesbian" || v == "Straight" }

  /** `v` if the table has it, else "". */
  function KeepKnown(table: seq<(string, real)>, v: string): string {
    if Lookup(table, v).Some? then v else ""
  }

  /** The profile with every unrecognised demographic value replaced by "". */
  function Normalize(d: Profile): Profile {
    d.(ageGroup := KeepKnown(AgeFactors, d.ageGroup),
       sex := if KnownSex(d.sex) then d.sex else "",
       raceEthnicity := KeepKnown(RaceFactors, d.raceEthnicity),
       education := KeepKnown(EducationFactors, d.education),
       disability := if KnownDisability(d.disability) then d.disability else "",
       genderIdentity := if KnownGender(d.genderIdentity) then d.genderIdentity else "",
       sexualOrientation := if KnownOrientation(d.sexualOrientation) then d.sexualOrientation else "",
       maritalStatus := KeepKnown(MaritalFactors, d.maritalStatus),
       employment := KeepKnown(EmploymentFactors, d.employment),
       state := KeepKnown(StateFactors, d.state))
  }

  /** Replacing a value the table lacks by "" leaves its factor at 1.0. */
  lemma KeepKnownNeutral(table: seq<(string, real)>, v: string)
    requires Lookup(table, "") == None
    ensures Lookup(table, KeepKnown(table, v)).GetOr(1.0) == Lookup(table, v).GetOr(1.0)
  {
  }

  /** Normalising a profile changes none of its factors. */
  lemma NormalizeKeepsMultipliers(d: Profile)
    ensures MultipliersOf(Normalize(d)) == MultipliersOf(d)
  {
    EmptyKeyAbsent();
    KeepKnownNeutral(AgeFactors, d.ageGroup);
    KeepKnownNeutral(RaceFactors, d.raceEthnicity);
    KeepKnownNeutral(EducationFactors, d.education);
    KeepKnownNeutral(MaritalFactors, d.maritalStatus);
    KeepKnownNeutral(EmploymentFactors, d.employment);
    KeepKnownNeutral(StateFactors, d.state);
  }

  /** Two profiles with the same indicator and the same factors get the same estimate. */
  lemma SameFactorsSameEstimate(d1: Profile, d2: Profile, r1: real, r2: real)
    requires d1.indicator == d2.indicator && MultipliersOf(d1) == MultipliersOf(d2)
    ensures Estimate(d1, r1, r2) == Estimate(d2, r1, r2).(userInputs := d1)
  {
    assert Rate(d1) == Rate(d2);
  }

  /**
   * An unrecognised value in any demographic field gives the same factors,
   * hence the same estimate, as leaving that field unset: only the echoed
   * inputs differ.
   */
  lemma UnknownValuesAreNeutral(d: Profile, r1: real, r2: real)
    ensures MultipliersOf(Normalize(d)) == MultipliersOf(d)
    ensures Estimate(d, r1, r2) == Estimate(Normalize(d), r1, r2).(userInputs := d)
  {
    NormalizeKeepsMultipliers(d);
    SameFactorsSameEstimate(d, Normalize(d), r1, r2);
  }

  // ---------------------------------------------------------------------
  // Two worked examples.
  // ---------------------------------------------------------------------

  /** An adult woman aged 18 to 29, white, with a degree, optional fields unset. */
  const ExampleProfile: Profile := Profile(AnxietyIndicator, "18 - 29 years", "Female",
    "Non-Hispanic White, single race", "Bachelor's degree or higher", "", "", "", "", "", "")

  /** Her rate before the jitter is 21.3 * 1.35 * 1.15 * 1.0 * 0.80. */
  lemma ExampleRate()
    ensures Rate(ExampleProfile) == 26.4546
  {
    var m := Multipliers(1.35, 1.15, 1.0, 0.80, 1.0, 1.0, 1.0, 1.0, 1.0, 1.0);
    assert MultipliersOf(ExampleProfile) == m by {
      EmptyKeyAbsent();
      assert Lookup(AgeFactors, "18 - 29 years") == Some(1.35);
      assert Lookup(RaceFactors, "Non-Hispanic White, single race") == Some(1.0);
      assert Lookup(EducationFactors, "Bachelor's degree or higher") == Some(0.80);
    }
    assert Adjusted(m, 21.3, 0, 2) == 33.06825;
    assert Adjusted(m, 21.3, 0, 4) == 26.4546;
    assert Adjusted(m, 21.3, 0, 7) == 26.4546;
  }

  /**
   * Her tier is High unless the jitter pulls the rate below 25, which a
   * first draw below 0.13635 does; it is then Moderate.
   */
  lemma ExampleTier(r1: real, r2: real)
    requires 0.0 <= r1 < 1.0
    ensures Estimate(ExampleProfile, r1, r2).riskLevel == (if r1 >= 0.13635 then "High" else "Moderate")
  {
    ExampleRate();
  }

  /** With a disability her rate before the jitter becomes 26.4546 * 2.4. */
  lemma ExampleDisabilityRate()
    ensures Rate(ExampleProfile.(disability := "With disability")) == 63.49104
  {
    ExampleRate();
    DisabilityMultiplies(ExampleProfile);
    assert ExampleProfile.(disability := "") == ExampleProfile;
  }

  /**
   * With a disability she is always High, and the prediction reaches the
   * clamp at 65 exactly when the first draw is at least 0.87724.
   */
  lemma ExampleDisabilityTier(r1: real, r2: real)
    requires 0.0 <= r1 < 1.0
    ensures Estimate(ExampleProfile.(disability := "With disability"), r1, r2).riskLevel == "High"
    ensures Estimate(ExampleProfile.(disability := "With disability"), r1, r2).prediction == 65.0 <==> r1 >= 0.87724
  {
    ExampleDisabilityRate();
  }
}
