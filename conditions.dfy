/**
 * The two rules that name the condition an indicator is about: the
 * browser's exact comparison (docs/script.js) and the server's substring
 * tests (app.py), with the three indicator strings the forms offer.
 */
module Conditions {
  import opened Advice

  const AnxietyIndicator: string := "Symptoms of Anxiety Disorder"
  const DepressiveIndicator: string := "Symptoms of Depressive Disorder"
  const EitherIndicator: string := "Symptoms of Anxiety Disorder or Depressive Disorder"

  /** The label is chosen by exact comparison with two of the indicators. */
  function ClientCondition(indicator: string): Condition {
    if indicator == DepressiveIndicator then Depression
    else if indicator == AnxietyIndicator then Anxiety
    else AnxietyOrDepression
  }

  /** `sub` occurs in `s` starting at index `i`. */
  predicate OccursAt(s: string, sub: string, i: nat) {
    i + |sub| <= |s| && s[i..i + |sub|] == sub
  }

  /** Python's `sub in s` on strings: `sub` occurs at some index of `s`. */
  predicate Contains(s: string, sub: string) {
    exists i: nat | i <= |s| :: OccursAt(s, sub, i)
  }

  /** A string lacking one of the characters of `sub` does not contain `sub`. */
  lemma MissingCharExcludes(s: string, sub: string, j: nat)
    requires j < |sub| && forall i :: 0 <= i < |s| ==> s[i] != sub[j]
    ensures !Contains(s, sub)
  {
    forall i: nat | i + |sub| <= |s|
      ensures !OccursAt(s, sub, i)
    {
      assert s[i..i + |sub|][j] == s[i + j];
    }
  }

  /**
   * The server picks the label by substring tests: "Depressive Disorder"
   * without "Anxiety", or "Anxiety Disorder" without "Depressive".
   */
  function ServerCondition(indicator: string): Condition {
    if Contains(indicator, "Depressive Disorder") && !Contains(indicator, "Anxiety") then Depression
    else if Contains(indicator, "Anxiety Disorder") && !Contains(indicator, "Depressive") then Anxiety
    else AnxietyOrDepression
  }

  // ---------------------------------------------------------------------
  // The server's rule against the browser's.
  // ---------------------------------------------------------------------

  /** For the anxiety indicator the substring rule gives anxiety, as the exact match does. */
  lemma AnxietyConditionsAgree()
    ensures ServerCondition(AnxietyIndicator) == Anxiety
  {
    var indicator := AnxietyIndicator;
    assert OccursAt(indicator, "Anxiety Disorder", 12);
    assert !Contains(indicator, "Depressive Disorder") by {
      MissingCharExcludes(indicator, "Depressive Disorder", 8);
    }
    assert !Contains(indicator, "Depressive") by {
      MissingCharExcludes(indicator, "Depressive", 8);
    }
  }

  /** For the depressive indicator the substring rule gives depression, as the exact match does. */
  lemma DepressiveConditionsAgree()
    ensures ServerCondition(DepressiveIndicator) == Depression
  {
    var indicator := DepressiveIndicator;
    assert OccursAt(indicator, "Depressive Disorder", 12);
    assert !Contains(indicator, "Anxiety") by {
      MissingCharExcludes(indicator, "Anxiety", 2);
    }
  }

  /** For the combined indicator both substring tests fail, leaving the catch-all, as the exact match does. */
  lemma EitherConditionsAgree()
    ensures ServerCondition(EitherIndicator) == AnxietyOrDepression
  {
    var indicator := EitherIndicator;
    assert OccursAt(indicator, "Anxiety", 12) by {
      assert forall j :: 0 <= j < 7 ==> indicator[12 + j] == "Anxiety"[j];
    }
    assert OccursAt(indicator, "Depressive", 32);
  }

  /** On the three indicators the forms offer, the substring rule and the exact-match rule agree. */
  lemma ConditionsAgree(indicator: string)
    requires indicator in {AnxietyIndicator, DepressiveIndicator, EitherIndicator}
    ensures ServerCondition(indicator) == ClientCondition(indicator)
  {
    AnxietyConditionsAgree();
    DepressiveConditionsAgree();
    EitherConditionsAgree();
  }

  /** Elsewhere they can differ: the bare "Depressive Disorder" is depression here, the catch-all there. */
  lemma ConditionsDiffer()
    ensures ServerCondition("Depressive Disorder") == Depression
    ensures ClientCondition("Depressive Disorder") == AnxietyOrDepression
  {
    assert OccursAt("Depressive Disorder", "Depressive Disorder", 0);
    assert !Contains("Depressive Disorder", "Anxiety") by {
      MissingCharExcludes("Depressive Disorder", "Anxiety", 0);
    }
  }

}
