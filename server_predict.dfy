/**
 * The Flask side of the estimator, app.py: `create_feature_vector`, which
 * one-hot encodes a request for the trained model, and the tail of
 * `predict`, which labels the model's number. The model itself is opaque:
 * its column set `FEATURE_NAMES` is a parameter, and its prediction and
 * confidence are inputs.
 */
module ServerPredict {
  import opened Wrappers
  import opened Advice
  import opened Conditions
  import ClientEstimator

  /**
   * A request value as `data.get(key)` returns it: None when the key is
   * absent, the string otherwise.
   */
  type Field = Option<string>

  /** The JSON body of a request, an object of string values. */
  type Request = map<string, string>

  function Get(req: Request, key: string): Field {
    if key in req then Some(req[key]) else None
  }

  /** `data.get(key, '')`. */
  function GetOrEmpty(req: Request, key: string): string {
    if key in req then req[key] else ""
  }

  /** Python truthiness of a value: present and not the empty string. */
  predicate Truthy(f: Field) {
    f.Some? && f.value != ""
  }

  /** What an f-string makes of a value: `None` prints as "None". */
  function Text(f: Field): string {
    match f
    case None => "None"
    case Some(v) => v
  }

  /** The six values the encoder looks at. */
  datatype Selection = Selection(
    indicator: Field,
    ageGroup: Field,
    sex: Field,
    raceEthnicity: Field,
    education: Field,
    state: Field)

  function SelectionOf(req: Request): Selection {
    Selection(Get(req, "indicator"), Get(req, "age_group"), Get(req, "sex"),
              Get(req, "race_ethnicity"), Get(req, "education"), Get(req, "state"))
  }

  // ---------------------------------------------------------------------
  // Reference definition of the feature vector.
  // ---------------------------------------------------------------------

  /** The four time columns and the values they are always given. */
  const TimeDefaults: map<string, int> :=
    map["Year" := 2023, "Month" := 6, "Start_Day_of_Week" := 3, "Time_Period_Duration" := 14]

  const AgeGroupKey: string := "Group_By Age"
  const SexGroupKey: string := "Group_By Sex"
  const RaceGroupKey: string := "Group_By Race/Hispanic ethnicity"
  const EducationGroupKey: string := "Group_By Education"
  const StateGroupKey: string := "Group_By State"

  /** The value of `state` that selects no state grouping. */
  const Nationwide: string := "United States"

  predicate StateSelected(state: Field) {
    Truthy(state) && state.value != Nationwide
  }

  /** The `Group_By` columns a selection switches on. */
  function GroupKeys(s: Selection): set<string> {
    (if Truthy(s.ageGroup) then {AgeGroupKey} else {}) +
    (if StateSelected(s.state) then {StateGroupKey} else {}) +
    (if Truthy(s.sex) then {SexGroupKey} else {}) +
    (if Truthy(s.raceEthnicity) then {RaceGroupKey} else {}) +
    (if Truthy(s.education) then {EducationGroupKey} else {})
  }

  const IndicatorPrefix: string := "Indicator_"
  const SubgroupPrefix: string := "Subgroup_"
  const StatePrefix: string := "State_"

  /** The value columns a selection names; they are switched on only when the model has them. */
  function OneHotKeys(s: Selection): set<string> {
    {IndicatorPrefix + Text(s.indicator)} +
    (if Truthy(s.ageGroup) then {SubgroupPrefix + s.ageGroup.value} else {}) +
    (if StateSelected(s.state) then {StatePrefix + s.state.value} else {}) +
    (if Truthy(s.sex) then {SubgroupPrefix + s.sex.value} else {}) +
    (if Truthy(s.raceEthnicity) then {SubgroupPrefix + s.raceEthnicity.value} else {}) +
    (if Truthy(s.education) then {SubgroupPrefix + s.education.value} else {})
  }

  /** The value of column `k`. */
  function ColumnValue(names: set<string>, s: Selection, k: string): int {
    if k in TimeDefaults then TimeDefaults[k]
    else if k in GroupKeys(s) then 1
    else if k in names && k in OneHotKeys(s) then 1
    else 0
  }

  /**
   * The encoded request: every model column, the time columns and the
   * switched-on group columns, each with its value.
   */
  function FeatureVector(names: set<string>, s: Selection): map<string, int> {
    map k | k in names + TimeDefaults.Keys + GroupKeys(s) :: ColumnValue(names, s, k)
  }

  // ---------------------------------------------------------------------
  // The encoder, one guarded write at a time.
  // ---------------------------------------------------------------------

  /** Every column a grouping block can switch on unconditionally. */
  const GroupColumns: set<string> := {AgeGroupKey, StateGroupKey, SexGroupKey, RaceGroupKey, EducationGroupKey}

  /** A key under one of the three prefixes is never a time or group column. */
  lemma PrefixedNotReserved(p: string, x: string)
    requires p == IndicatorPrefix || p == SubgroupPrefix || p == StatePrefix
    ensures p + x !in TimeDefaults && p + x !in GroupColumns
  {
    assert (p + x)[0] == p[0];
    assert (p + x)[3] == p[3];
  }

  /**
   * The shape of the vector part way through the encoder: the model's
   * columns, the time columns and the group columns `groups` switched on so
   * far, with the value columns `values` switched on where the model has them.
   */
  ghost predicate Encoded(features: map<string, int>, names: set<string>, groups: set<string>, values: set<string>) {
    groups <= GroupColumns &&
    features.Keys == names + TimeDefaults.Keys + groups &&
    forall k :: k in features ==>
      features[k] == (if k in TimeDefaults then TimeDefaults[k]
                      else if k in groups then 1
                      else if k in names && k in values then 1
                      else 0)
  }

  /** What a grouping block adds to a set of switched-on columns. */
  function AddIf(keys: set<string>, selected: bool, key: string): set<string> {
    if selected then keys + {key} else keys
  }

  /**
   * One grouping block of the encoder: when the value is selected, switch
   * its group column on, and its value column too if the vector has it.
   */
  method MarkGroup(features: map<string, int>, ghost names: set<string>, ghost groups: set<string>,
                   ghost values: set<string>, selected: bool, groupKey: string, valueKey: string)
    returns (marked: map<string, int>)
    requires Encoded(features, names, groups, values)
    requires groupKey in GroupColumns && valueKey !in TimeDefaults && valueKey !in GroupColumns
    ensures Encoded(marked, names, AddIf(groups, selected, groupKey), AddIf(values, selected, valueKey))
  {
    marked := features;
    if selected {
      marked := marked[groupKey := 1];
      if valueKey in marked {
        marked := marked[valueKey := 1];
      }
    }
  }

  /** Once every block has run, the vector is the reference vector. */
  lemma EncodedComplete(features: map<string, int>, names: set<string>, s: Selection)
    requires Encoded(features, names, GroupKeys(s), OneHotKeys(s))
    ensures features == FeatureVector(names, s)
  {
  }

  /** The encoder: all columns at 0, the time defaults, the indicator, then the five groupings. */
  method CreateFeatureVector(names: set<string>, s: Selection) returns (features: map<string, int>)
    ensures features == FeatureVector(names, s)
  {
    features := map name | name in names :: 0;

    features := features["Year" := 2023];
    features := features["Month" := 6];
    features := features["Start_Day_of_Week" := 3];
    features := features["Time_Period_Duration" := 14];

    var indicatorFeature := IndicatorPrefix + Text(s.indicator);
    PrefixedNotReserved(IndicatorPrefix, Text(s.indicator));
    if indicatorFeature in features {
      features := features[indicatorFeature := 1];
    }
    ghost var g0: set<string>, v0 := {}, {indicatorFeature};
    assert Encoded(features, names, g0, v0);

    var age := Text(s.ageGroup);
    PrefixedNotReserved(SubgroupPrefix, age);
    features := MarkGroup(features, names, g0, v0, Truthy(s.ageGroup), AgeGroupKey, SubgroupPrefix + age);
    ghost var g1, v1 := AddIf(g0, Truthy(s.ageGroup), AgeGroupKey), AddIf(v0, Truthy(s.ageGroup), SubgroupPrefix + age);

    var state := Text(s.state);
    var stateSelected := Truthy(s.state) && s.state.value != Nationwide;
    assert stateSelected == StateSelected(s.state);
    PrefixedNotReserved(StatePrefix, state);
    features := MarkGroup(features, names, g1, v1, stateSelected, StateGroupKey, StatePrefix + state);
    ghost var g2, v2 := AddIf(g1, stateSelected, StateGroupKey), AddIf(v1, stateSelected, StatePrefix + state);

    var sex := Text(s.sex);
    PrefixedNotReserved(SubgroupPrefix, sex);
    features := MarkGroup(features, names, g2, v2, Truthy(s.sex), SexGroupKey, SubgroupPrefix + sex);
    ghost var g3, v3 := AddIf(g2, Truthy(s.sex), SexGroupKey), AddIf(v2, Truthy(s.sex), SubgroupPrefix + sex);

    var race := Text(s.raceEthnicity);
    PrefixedNotReserved(SubgroupPrefix, race);
    features := MarkGroup(features, names, g3, v3, Truthy(s.raceEthnicity), RaceGroupKey, SubgroupPrefix + race);
    ghost var g4, v4 := AddIf(g3, Truthy(s.raceEthnicity), RaceGroupKey), AddIf(v3, Truthy(s.raceEthnicity), SubgroupPrefix + race);

    var education := Text(s.education);
    PrefixedNotReserved(SubgroupPrefix, education);
    features := MarkGroup(features, names, g4, v4, Truthy(s.education), EducationGroupKey, SubgroupPrefix + education);
    ghost var g5, v5 := AddIf(g4, Truthy(s.education), EducationGroupKey), AddIf(v4, Truthy(s.education), SubgroupPrefix + education);

    AllBlocks(s, indicatorFeature, age, state, sex, race, education);
    EncodedComplete(features, names, s);
  }

  /** The five blocks together switch on exactly the reference columns. */
  lemma AllBlocks(s: Selection, indicatorFeature: string, age: string, state: string, sex: string, race: string, education: string)
    requires indicatorFeature == IndicatorPrefix + Text(s.indicator)
    requires age == Text(s.ageGroup) && state == Text(s.state) && sex == Text(s.sex)
    requires race == Text(s.raceEthnicity) && education == Text(s.education)
    ensures AddIf(AddIf(AddIf(AddIf(AddIf({}, Truthy(s.ageGroup), AgeGroupKey), StateSelected(s.state), StateGroupKey),
              Truthy(s.sex), SexGroupKey), Truthy(s.raceEthnicity), RaceGroupKey), Truthy(s.education), EducationGroupKey)
            == GroupKeys(s)
    ensures AddIf(AddIf(AddIf(AddIf(AddIf({indicatorFeature}, Truthy(s.ageGroup), SubgroupPrefix + age),
              StateSelected(s.state), StatePrefix + state), Truthy(s.sex), SubgroupPrefix + sex),
              Truthy(s.raceEthnicity), SubgroupPrefix + race), Truthy(s.education), SubgroupPrefix + education)
            == OneHotKeys(s)
  {
  }

  // ---------------------------------------------------------------------
  // Properties of the feature vector.
  // ---------------------------------------------------------------------

  /**
   * Every model column is present; the only columns added beyond them are
   * the time columns and the `Group_By` columns, which are written without
   * a membership check.
   */
  lemma FeatureColumns(names: set<string>, s: Selection)
    ensures names <= FeatureVector(names, s).Keys
    ensures FeatureVector(names, s).Keys - names <= TimeDefaults.Keys + GroupColumns
    ensures TimeDefaults.Keys <= FeatureVector(names, s).Keys
  {
  }

  /** The time columns always hold 2023, 6, 3 and 14; every other column holds 0 or 1. */
  lemma FeatureValues(names: set<string>, s: Selection)
    ensures var r := FeatureVector(names, s);
      r["Year"] == 2023 && r["Month"] == 6 && r["Start_Day_of_Week"] == 3 && r["Time_Period_Duration"] == 14
    ensures var r := FeatureVector(names, s);
      forall k :: k in r && k !in TimeDefaults ==> r[k] == 0 || r[k] == 1
  {
  }

  /** Whether column `k` is present and switched on. */
  predicate On(features: map<string, int>, k: string) {
    k in features && features[k] == 1
  }

  /** No value column is a time or group column. */
  lemma ValueColumnsApart(s: Selection)
    ensures OneHotKeys(s) !! TimeDefaults.Keys && OneHotKeys(s) !! GroupColumns
  {
    PrefixedNotReserved(IndicatorPrefix, Text(s.indicator));
    PrefixedNotReserved(SubgroupPrefix, Text(s.ageGroup));
    PrefixedNotReserved(StatePrefix, Text(s.state));
    PrefixedNotReserved(SubgroupPrefix, Text(s.sex));
    PrefixedNotReserved(SubgroupPrefix, Text(s.raceEthnicity));
    PrefixedNotReserved(SubgroupPrefix, Text(s.education));
  }

  /**
   * A `Group_By` column is on exactly when its value is present and not
   * empty; the state grouping also needs a state other than "United States".
   */
  lemma GroupColumnsOn(names: set<string>, s: Selection)
    ensures On(FeatureVector(names, s), AgeGroupKey) <==> Truthy(s.ageGroup)
    ensures On(FeatureVector(names, s), SexGroupKey) <==> Truthy(s.sex)
    ensures On(FeatureVector(names, s), RaceGroupKey) <==> Truthy(s.raceEthnicity)
    ensures On(FeatureVector(names, s), EducationGroupKey) <==> Truthy(s.education)
    ensures On(FeatureVector(names, s), StateGroupKey) <==> Truthy(s.state) && s.state.value != Nationwide
  {
    ValueColumnsApart(s);
  }

  /**
   * Any other column beyond the time columns is on exactly when the model
   * has it and the selection names it, so a value the model does not know
   * adds nothing.
   */
  lemma ValueColumnsOn(names: set<string>, s: Selection, k: string)
    requires k !in TimeDefaults && k !in GroupColumns
    ensures On(FeatureVector(names, s), k) <==> k in names && k in OneHotKeys(s)
  {
  }

  /** The indicator's column is on whenever the model has it, even for a missing indicator ("Indicator_None"). */
  lemma IndicatorColumnOn(names: set<string>, s: Selection)
    requires IndicatorPrefix + Text(s.indicator) in names
    ensures On(FeatureVector(names, s), IndicatorPrefix + Text(s.indicator))
  {
    PrefixedNotReserved(IndicatorPrefix, Text(s.indicator));
  }

  // ---------------------------------------------------------------------
  // The tail of `predict`: labelling the model's number.
  // ---------------------------------------------------------------------

  /** The `user_inputs` object: the request's values, the optional ones defaulting to "". */
  datatype UserInputs = UserInputs(
    indicator: Field,
    ageGroup: Field,
    sex: Field,
    raceEthnicity: Field,
    education: Field,
    disability: string,
    genderIdentity: string,
    sexualOrientation: string,
    maritalStatus: string,
    employment: string,
    state: Field)

  function UserInputsOf(req: Request): UserInputs {
    UserInputs(Get(req, "indicator"), Get(req, "age_group"), Get(req, "sex"),
               Get(req, "race_ethnicity"), Get(req, "education"),
               GetOrEmpty(req, "disability"), GetOrEmpty(req, "gender_identity"),
               GetOrEmpty(req, "sexual_orientation"), GetOrEmpty(req, "marital_status"),
               GetOrEmpty(req, "employment"), Get(req, "state"))
  }

  /** The JSON `predict` answers with: the labelled result, or the error of status 400. */
  datatype Response =
    | Success(
        prediction: real,
        riskLevel: string,
        riskClass: string,
        confidence: Option<real>,
        recommendation: string,
        conditionName: string,
        conditionDisplay: string,
        userInputs: UserInputs)
    | Failure

  /**
   * The answer to the request `req` once the model has returned
   * `prediction` and, if it supports it, `confidence`. A missing indicator
   * makes the substring test raise, which the handler turns into a failure.
   */
  function Predict(req: Request, prediction: real, confidence: Option<real>): Response {
    match Get(req, "indicator")
    case None => Failure
    case Some(indicator) =>
      var c := ServerCondition(indicator);
      var t := TierOf(prediction);
      Success(prediction, LevelName(t), ClassName(t), confidence,
              Recommendation(t, ConditionName(c)), ConditionName(c), ConditionDisplay(c), UserInputsOf(req))
  }

  /** The keys that reach the response but not the feature vector. */
  const OptionalKeys: set<string> := {"disability", "gender_identity", "sexual_orientation", "marital_status", "employment"}

  /** Changing an optional field leaves the encoder's input, hence the feature vector, unchanged. */
  lemma OptionalFieldsIgnored(names: set<string>, req: Request, key: string, v: string)
    requires key in OptionalKeys
    ensures SelectionOf(req[key := v]) == SelectionOf(req)
    ensures FeatureVector(names, SelectionOf(req[key := v])) == FeatureVector(names, SelectionOf(req))
  {
  }

  /** An optional field absent from the request is echoed as "". */
  lemma OptionalFieldsDefault(req: Request)
    requires OptionalKeys !! req.Keys
    ensures var u := UserInputsOf(req);
      u.disability == "" && u.genderIdentity == "" && u.sexualOrientation == "" &&
      u.maritalStatus == "" && u.employment == ""
  {
  }

  /** The handler fails exactly when the request has no indicator. */
  lemma PredictFailsIffNoIndicator(req: Request, prediction: real, confidence: Option<real>)
    ensures Predict(req, prediction, confidence).Failure? <==> "indicator" !in req
  {
  }

  /**
   * A successful answer carries the tier of the model's number, with the
   * thresholds at 15 and 25, its lower-case class, the recommendation of
   * that tier embedding the condition name, the model's confidence and the
   * echoed inputs.
   */
  lemma PredictLabels(req: Request, prediction: real, confidence: Option<real>)
    requires "indicator" in req
    ensures var r := Predict(req, prediction, confidence);
      r.Success? &&
      r.prediction == prediction &&
      (r.riskLevel == "Low" <==> prediction < 15.0) &&
      (r.riskLevel == "Moderate" <==> 15.0 <= prediction < 25.0) &&
      (r.riskLevel == "High" <==> 25.0 <= prediction) &&
      r.riskClass == Lower(r.riskLevel) &&
      r.conditionName == ConditionName(ServerCondition(req["indicator"])) &&
      r.recommendation == Recommendation(TierOf(prediction), r.conditionName) &&
      r.confidence == confidence &&
      r.userInputs == UserInputsOf(req)
  {
    TierThresholds(prediction);
    ClassIsLowerCaseLevel(TierOf(prediction));
  }

  // ---------------------------------------------------------------------
  // The server's labels against the browser's.
  // ---------------------------------------------------------------------

  /**
   * Handed the browser's number for one of the three indicators, the server
   * produces the browser's tier, class, condition and recommendation.
   */
  lemma ServerAgreesWithClient(d: ClientEstimator.Profile, r1: real, r2: real, req: Request, confidence: Option<real>)
    requires d.indicator in {AnxietyIndicator, DepressiveIndicator, EitherIndicator}
    requires Get(req, "indicator") == Some(d.indicator)
    ensures var a, r := ClientEstimator.Estimate(d, r1, r2), Predict(req, ClientEstimator.Estimate(d, r1, r2).prediction, confidence);
      r.Success? && r.riskLevel == a.riskLevel && r.riskClass == a.riskClass &&
      r.conditionName == a.conditionName && r.conditionDisplay == a.conditionDisplay &&
      r.recommendation == a.recommendation
  {
    ConditionsAgree(d.indicator);
  }
}
