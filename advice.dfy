/**
 * Risk tiers, condition labels and recommendation sentences. The browser
 * estimator (docs/script.js) and the Flask endpoint (app.py) use the same
 * thresholds and spell every one of these strings identically, so both
 * models share this module.
 */
module Advice {

  datatype Tier = Low | Moderate | High

  /** Below 15 percent is Low, below 25 Moderate, anything else High. */
  function TierOf(p: real): Tier {
    if p < 15.0 then Low else if p < 25.0 then Moderate else High
  }

  /** The position of a tier in the order Low < Moderate < High. */
  function Rank(t: Tier): nat {
    match t
    case Low => 0
    case Moderate => 1
    case High => 2
  }

  /** The `risk_level` string of a tier. */
  function LevelName(t: Tier): string {
    match t
    case Low => "Low"
    case Moderate => "Moderate"
    case High => "High"
  }

  /** The `risk_class` string of a tier: a CSS class name. */
  function ClassName(t: Tier): string {
    match t
    case Low => "low"
    case Moderate => "moderate"
    case High => "high"
  }

  function LowerChar(c: char): char {
    if 'A' <= c <= 'Z' then (c as int + 32) as char else c
  }

  /** ASCII lower-casing, character by character. */
  function Lower(s: string): (r: string)
    ensures |r| == |s|
    ensures forall i :: 0 <= i < |s| ==> r[i] == LowerChar(s[i])
  {
    if s == [] then [] else [LowerChar(s[0])] + Lower(s[1..])
  }

  datatype Condition = Depression | Anxiety | AnxietyOrDepression

  /** The `condition_name` string, the one embedded in the recommendation. */
  function ConditionName(c: Condition): string {
    match c
    case Depression => "depression"
    case Anxiety => "anxiety"
    case AnxietyOrDepression => "anxiety or depression"
  }

  /** The `condition_display` string. */
  function ConditionDisplay(c: Condition): string {
    match c
    case Depression => "depressive disorder"
    case Anxiety => "anxiety disorder"
    case AnxietyOrDepression => "anxiety or depressive disorder"
  }

  const Opening: string := "Your demographic group shows "

  /** The part of a recommendation before the condition name. */
  const LowLead: string := "Your demographic group shows relatively lower prevalence of "
  const ModerateLead: string := "Your demographic group shows moderate prevalence of "
  const HighLead: string := "Your demographic group shows higher prevalence of "
  function Lead(t: Tier): string {
    match t
    case Low => LowLead
    case Moderate => ModerateLead
    case High => HighLead
  }

  /** The part of a recommendation after the condition name. */
  const LowTail: string := " symptoms compared to the general population. However, continue monitoring your mental health and practice good self-care."
  const ModerateTail: string := " symptoms. If you're experiencing any concerning symptoms, we encourage you to speak with a healthcare professional for personalized guidance."
  const HighTail: string := " symptoms. This means a significant portion of people with similar demographics experience these conditions. If you have any symptoms or concerns, we strongly recommend consulting with a mental health professional."
  function Tail(t: Tier): string {
    match t
    case Low => LowTail
    case Moderate => ModerateTail
    case High => HighTail
  }

  /** The templated recommendation sentence for a tier and a condition name. */
  function Recommendation(t: Tier, conditionName: string): string {
    Lead(t) + conditionName + Tail(t)
  }

  /** The tier boundaries are inclusive below and exclusive above. */
  lemma TierThresholds(p: real)
    ensures TierOf(p) == Low <==> p < 15.0
    ensures TierOf(p) == Moderate <==> 15.0 <= p < 25.0
    ensures TierOf(p) == High <==> 25.0 <= p
  {
  }

  /** A higher percentage never lands in a lower tier. */
  lemma TierMonotone(p: real, q: real)
    requires p <= q
    ensures Rank(TierOf(p)) <= Rank(TierOf(q))
  {
  }

  /** `risk_class` is always the lower-case form of `risk_level`. */
  lemma ClassIsLowerCaseLevel(t: Tier)
    ensures ClassName(t) == Lower(LevelName(t))
  {
  }

  /** The three names are distinct, so a level name identifies its tier. */
  lemma LevelNameInjective(t1: Tier, t2: Tier)
    ensures LevelName(t1) == LevelName(t2) ==> t1 == t2
  {
  }

  /** Slicing a three-part concatenation gives back its parts. */
  lemma ConcatParts(a: string, b: string, c: string)
    ensures |a + b + c| == |a| + |b| + |c|
    ensures (a + b + c)[..|a|] == a
    ensures (a + b + c)[|a|..|a| + |b|] == b
    ensures (a + b + c)[|a| + |b|..] == c
  {
    var r := a + b + c;
    assert r == a + (b + c);
    assert r[|a|..] == b + c;
    assert (b + c)[..|b|] == b;
  }

  /** The condition name sits between the lead and the tail of the sentence. */
  lemma RecommendationEmbedsCondition(t: Tier, conditionName: string)
    ensures var r := Recommendation(t, conditionName);
      r[..|Lead(t)|] == Lead(t) &&
      r[|Lead(t)|..|Lead(t)| + |conditionName|] == conditionName &&
      r[|Lead(t)| + |conditionName|..] == Tail(t)
  {
    ConcatParts(Lead(t), conditionName, Tail(t));
  }

  /** All three leads start with the opening and differ at the character after it. */
  lemma LeadsDiffer(t1: Tier, t2: Tier)
    ensures |Opening| < |Lead(t1)| && |Opening| < |Lead(t2)|
    ensures Lead(t1)[..|Opening|] == Opening
    ensures Lead(t1)[|Opening|] == Lead(t2)[|Opening|] ==> t1 == t2
  {
  }

  /**
   * A recommendation determines both the tier that selected it and the
   * condition name embedded in it.
   */
  lemma RecommendationDetermines(t1: Tier, n1: string, t2: Tier, n2: string)
    requires Recommendation(t1, n1) == Recommendation(t2, n2)
    ensures t1 == t2 && n1 == n2
  {
    var r := Recommendation(t1, n1);
    RecommendationEmbedsCondition(t1, n1);
    RecommendationEmbedsCondition(t2, n2);
    LeadsDiffer(t1, t2);
    assert r[|Opening|] == Lead(t1)[|Opening|] == Lead(t2)[|Opening|];
    assert t1 == t2;
    assert |n1| == |n2|;
  }
}
