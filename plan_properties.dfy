/** What the plan promises, rule by rule, stated over `PlanFrom` (the plan
    for the parsed hours and the stored toxin) and proved from the rule table
    it runs. */
module PlanProperties {
  import opened Wrappers
  import opened PyText
  import opened Substrings
  import opened Dosing
  import opened ElapsedTime
  import opened PoisoningPlan

  /** The rules behind one plan, section by section. */
  lemma Sections(age: int, weightKg: real, hours: Option<real>, toxin: string,
                 symptoms: set<string>, intentional: bool)
    requires ValidAge(age) && ValidWeight(weightKg)
    ensures var rules := PlanRules(age, weightKg, hours, toxin, symptoms, intentional);
            && rules[..2] == Stabilization(age, weightKg, symptoms)
            && rules[2..4] == Decontamination(hours, weightKg, symptoms)
            && rules[4..13] == Antidotes(toxin, weightKg)
            && rules[13..16] == Disposition(toxin, symptoms, intentional)
            && (forall i :: 0 <= i < |rules| ==>
                  (Emits(PlanFrom(age, weightKg, hours, toxin, symptoms, intentional), rules[i].kind)
                   <==> rules[i].fires))
            && (forall i :: 0 <= i < |rules| ==>
                  DosesAre(PlanFrom(age, weightKg, hours, toxin, symptoms, intentional),
                           rules[i].kind, rules[i].doses))
  {
    var rules := PlanRules(age, weightKg, hours, toxin, symptoms, intentional);
    FiveParts(Stabilization(age, weightKg, symptoms),
              Decontamination(hours, weightKg, symptoms),
              Antidotes(toxin, weightKg),
              Disposition(toxin, symptoms, intentional),
              Counseling());
    EmittedFollowsRules(rules, 0);
  }

  /** Where each of five runs sits in their concatenation. */
  lemma FiveParts(s1: seq<Rule>, s2: seq<Rule>, s3: seq<Rule>, s4: seq<Rule>, s5: seq<Rule>)
    ensures var a := s1 + s2 + s3 + s4 + s5;
            var n1 := |s1|;
            var n2 := n1 + |s2|;
            var n3 := n2 + |s3|;
            var n4 := n3 + |s4|;
            && a[..n1] == s1 && a[n1..n2] == s2 && a[n2..n3] == s3 && a[n3..n4] == s4
  {
    var a := s1 + s2 + s3 + s4 + s5;
    assert a == (((s1 + s2) + s3) + s4) + s5;
    assert a[..|s1|] == s1;
    assert a[|s1|..|s1| + |s2|] == s2;
    assert a[|s1| + |s2|..|s1| + |s2| + |s3|] == s3;
    assert a[|s1| + |s2| + |s3|..|s1| + |s2| + |s3| + |s4|] == s4;
  }

  /** The dextrose bolus is shown exactly when "Hypoglycemia" (or the string
      "Altered consciousness") is selected, at 2.5 mL/kg under one year of
      age and 3.5 mL/kg from one year on, never clamped (main.py:64-69). */
  lemma DextroseRule(age: int, weightKg: real, hours: Option<real>, toxin: string,
                     symptoms: set<string>, intentional: bool)
    requires ValidAge(age) && ValidWeight(weightKg)
    ensures var plan := PlanFrom(age, weightKg, hours, toxin, symptoms, intentional);
            && (Emits(plan, DextroseBolus) <==>
                  "Hypoglycemia" in symptoms || "Altered consciousness" in symptoms)
            && (age < 1 ==> DosesAre(plan, DextroseBolus, [PerKg(2.5 * weightKg, 2.5, "mL D10W")]))
            && (age >= 1 ==> DosesAre(plan, DextroseBolus, [PerKg(3.5 * weightKg, 3.5, "mL D10W")]))
  {
    var plan := PlanFrom(age, weightKg, hours, toxin, symptoms, intentional);
    var rules := PlanRules(age, weightKg, hours, toxin, symptoms, intentional);
    var stabilization := Stabilization(age, weightKg, symptoms);
    Sections(age, weightKg, hours, toxin, symptoms, intentional);
    assert rules[1] == rules[..2][1] == stabilization[1];
    assert Emits(plan, DextroseBolus) <==> rules[1].fires;
    assert DosesAre(plan, DextroseBolus, rules[1].doses);
    assert DoseCalc(2.5, "mL D10W", None, None, false, weightKg) == PerKg(2.5 * weightKg, 2.5, "mL D10W");
    assert DoseCalc(3.5, "mL D10W", None, None, false, weightKg) == PerKg(3.5 * weightKg, 3.5, "mL D10W");
  }

  /** The test for "Altered consciousness" compares with a string that is
      not one of the options, so for any selection the form can make the
      bolus follows "Hypoglycemia" alone (main.py:22, 64). */
  lemma AlteredConsciousnessNeverMatches(age: int, weightKg: real, hours: Option<real>, toxin: string,
                                         symptoms: set<string>, intentional: bool)
    requires ValidAge(age) && ValidWeight(weightKg)
    requires symptoms <= SymptomOptions
    ensures Emits(PlanFrom(age, weightKg, hours, toxin, symptoms, intentional), DextroseBolus)
        <==> "Hypoglycemia" in symptoms
  {
    assert "Altered consciousness" !in SymptomOptions;
    DextroseRule(age, weightKg, hours, toxin, symptoms, intentional);
  }

  /** Charcoal is shown exactly within two hours of a known exposure with no
      corrosive or hydrocarbon selected, at 1 g/kg capped at 50 g; "not
      indicated" exactly when the time is unknown, unparsable or over two
      hours; and within two hours of a corrosive or hydrocarbon the section
      shows neither (main.py:74-84). */
  lemma CharcoalRule(age: int, weightKg: real, hours: Option<real>, toxin: string,
                     symptoms: set<string>, intentional: bool)
    requires ValidAge(age) && ValidWeight(weightKg)
    ensures var plan := PlanFrom(age, weightKg, hours, toxin, symptoms, intentional);
            var early := hours.Some? && hours.value <= 2.0;
            var contraindicated := "Corrosive ingestion" in symptoms || "Hydrocarbon ingestion" in symptoms;
            && (Emits(plan, ActivatedCharcoal) <==> early && !contraindicated)
            && (Emits(plan, CharcoalNotIndicated) <==> !early)
            && (early && contraindicated ==>
                  !Emits(plan, ActivatedCharcoal) && !Emits(plan, CharcoalNotIndicated))
            && DosesAre(plan, ActivatedCharcoal, [PerKg(Min(weightKg, 50.0), 1.0, "g")])
  {
    Sections(age, weightKg, hours, toxin, symptoms, intentional);
    var rules := PlanRules(age, weightKg, hours, toxin, symptoms, intentional);
    assert rules[2] == rules[2..4][0] && rules[3] == rules[2..4][1];
  }

  /** A time with no parsable hours ("unknown", empty, or a first field
      that is not a numeral, see `ParseHours`) leads to "not indicated",
      and the plan is still produced to its end (main.py:74-78, 83-84). */
  lemma UnparsedTimeIsNotIndicated(age: int, weightKg: real, timeText: string, toxinText: string,
                                   symptoms: set<string>, intentional: bool)
    requires ValidAge(age) && ValidWeight(weightKg)
    requires ParseHours(timeText).None?
    ensures var plan := Plan(age, weightKg, timeText, toxinText, symptoms, intentional);
            && Emits(plan, CharcoalNotIndicated) && !Emits(plan, ActivatedCharcoal)
            && Emits(plan, PreventionCounseling)
  {
    var plan := Plan(age, weightKg, timeText, toxinText, symptoms, intentional);
    CharcoalRule(age, weightKg, None, ToxinKey(toxinText), symptoms, intentional);
    assert plan[|plan| - 1].kind == PreventionCounseling;
  }

  /** Each antidote block is shown exactly when one of its keywords occurs in
      the stored toxin text; the checks are independent, so every match is
      shown (main.py:90-127). */
  lemma AntidoteRule(age: int, weightKg: real, hours: Option<real>, toxin: string,
                     symptoms: set<string>, intentional: bool)
    requires ValidAge(age) && ValidWeight(weightKg)
    ensures var plan := PlanFrom(age, weightKg, hours, toxin, symptoms, intentional);
            && (Emits(plan, Acetylcysteine) <==> Contains(toxin, "acetaminophen") || Contains(toxin, "paracetamol"))
            && (Emits(plan, Deferoxamine) <==> Contains(toxin, "iron"))
            && (Emits(plan, DigoxinFab) <==> Contains(toxin, "digoxin"))
            && (Emits(plan, InsulinCalcium) <==> Contains(toxin, "calcium channel") || Contains(toxin, "ccb"))
            && (Emits(plan, InsulinGlucagon) <==> Contains(toxin, "beta blocker"))
            && (Emits(plan, AtropinePralidoxime) <==> Contains(toxin, "organophosphate"))
            && (Emits(plan, Naloxone) <==> Contains(toxin, "opioid"))
            && (Emits(plan, Octreotide) <==> Contains(toxin, "sulfonylurea"))
            && (Emits(plan, Hydroxocobalamin) <==> Contains(toxin, "cyanide"))
  {
    Sections(age, weightKg, hours, toxin, symptoms, intentional);
    var rules := PlanRules(age, weightKg, hours, toxin, symptoms, intentional);
    var a := rules[4..13];
    assert rules[4] == a[0] && rules[5] == a[1] && rules[6] == a[2] && rules[7] == a[3] && rules[8] == a[4];
    assert rules[9] == a[5] && rules[10] == a[6] && rules[11] == a[7] && rules[12] == a[8];
  }

  /** The antidote doses: acetylcysteine 150, 50 and 100 mg/kg and
      deferoxamine 5 mg/kg/hr uncapped; insulin 1 unit/kg; calcium gluconate,
      glucagon, pralidoxime, naloxone, octreotide and hydroxocobalamin scaled
      by weight and capped (main.py:92-127). */
  lemma AntidoteDoses(age: int, weightKg: real, hours: Option<real>, toxin: string,
                      symptoms: set<string>, intentional: bool)
    requires ValidAge(age) && ValidWeight(weightKg)
    ensures var plan := PlanFrom(age, weightKg, hours, toxin, symptoms, intentional);
            && DosesAre(plan, Acetylcysteine, [PerKg(150.0 * weightKg, 150.0, "mg"),
                                               PerKg(50.0 * weightKg, 50.0, "mg"),
                                               PerKg(100.0 * weightKg, 100.0, "mg")])
            && DosesAre(plan, Deferoxamine, [PerKg(5.0 * weightKg, 5.0, "mg/hr")])
            && DosesAre(plan, DigoxinFab, [])
            && DosesAre(plan, InsulinCalcium, [PerKg(weightKg, 1.0, "units"),
                                               PerKg(Min(0.6 * weightKg, 20.0), 0.6, "mL")])
            && DosesAre(plan, InsulinGlucagon, [PerKg(Min(0.05 * weightKg, 5.0), 0.05, "mg")])
            && DosesAre(plan, AtropinePralidoxime, [PerKg(Min(30.0 * weightKg, 2000.0), 30.0, "mg")])
            && DosesAre(plan, Naloxone, [PerKg(Min(0.04 * weightKg, 2.0), 0.04, "mg")])
            && DosesAre(plan, Octreotide, [PerKg(Min(1.5 * weightKg, 100.0), 1.5, "mcg")])
            && DosesAre(plan, Hydroxocobalamin, [PerKg(Min(70.0 * weightKg, 5000.0), 70.0, "mg")])
  {
    assert DoseCalc(150.0, "mg", None, None, false, weightKg) == PerKg(150.0 * weightKg, 150.0, "mg");
    assert DoseCalc(50.0, "mg", None, None, false, weightKg) == PerKg(50.0 * weightKg, 50.0, "mg");
    assert DoseCalc(100.0, "mg", None, None, false, weightKg) == PerKg(100.0 * weightKg, 100.0, "mg");
    assert DoseCalc(5.0, "mg/hr", None, None, false, weightKg) == PerKg(5.0 * weightKg, 5.0, "mg/hr");
    assert DoseCalc(1.0, "units", None, None, false, weightKg) == PerKg(weightKg, 1.0, "units");
    assert DoseCalc(0.6, "mL", Some(20.0), None, false, weightKg) == PerKg(Min(0.6 * weightKg, 20.0), 0.6, "mL");
    assert DoseCalc(0.05, "mg", Some(5.0), None, false, weightKg) == PerKg(Min(0.05 * weightKg, 5.0), 0.05, "mg");
    assert DoseCalc(30.0, "mg", Some(2000.0), None, false, weightKg)
        == PerKg(Min(30.0 * weightKg, 2000.0), 30.0, "mg");
    assert DoseCalc(0.04, "mg", Some(2.0), None, false, weightKg) == PerKg(Min(0.04 * weightKg, 2.0), 0.04, "mg");
    assert DoseCalc(1.5, "mcg", Some(100.0), None, false, weightKg) == PerKg(Min(1.5 * weightKg, 100.0), 1.5, "mcg");
    assert DoseCalc(70.0, "mg", Some(5000.0), None, false, weightKg)
        == PerKg(Min(70.0 * weightKg, 5000.0), 70.0, "mg");
    Sections(age, weightKg, hours, toxin, symptoms, intentional);
    var rules := PlanRules(age, weightKg, hours, toxin, symptoms, intentional);
    var a := rules[4..13];
    assert rules[4] == a[0] && rules[5] == a[1] && rules[6] == a[2] && rules[7] == a[3] && rules[8] == a[4];
    assert rules[9] == a[5] && rules[10] == a[6] && rules[11] == a[7] && rules[12] == a[8];
  }

  /** Admission exactly when one of the four listed symptoms is selected or
      the stored toxin text is non-empty, observation otherwise; the
      psychiatric evaluation exactly for an intentional ingestion, whatever
      the disposition (main.py:131-137). */
  lemma DispositionRule(age: int, weightKg: real, hours: Option<real>, toxin: string,
                        symptoms: set<string>, intentional: bool)
    requires ValidAge(age) && ValidWeight(weightKg)
    ensures var plan := PlanFrom(age, weightKg, hours, toxin, symptoms, intentional);
            var admit := (exists k :: 0 <= k < |AdmitSymptoms| && AdmitSymptoms[k] in symptoms)
                         || toxin != [];
            && (Emits(plan, Admit) <==> admit)
            && (Emits(plan, Observe) <==> !admit)
            && (Emits(plan, PsychiatricEvaluation) <==> intentional)
  {
    Sections(age, weightKg, hours, toxin, symptoms, intentional);
    var rules := PlanRules(age, weightKg, hours, toxin, symptoms, intentional);
    assert rules[13] == rules[13..16][0] && rules[14] == rules[13..16][1] && rules[15] == rules[13..16][2];
  }

  /** Neither the intentional flag nor respiratory distress has any bearing
      on admission (main.py:131). */
  lemma DispositionIgnoresIntentAndBreathing(age: int, weightKg: real, hours: Option<real>, toxin: string,
                                             symptoms: set<string>, intentional: bool)
    requires ValidAge(age) && ValidWeight(weightKg)
    ensures Emits(PlanFrom(age, weightKg, hours, toxin, symptoms, intentional), Admit)
        <==> Emits(PlanFrom(age, weightKg, hours, toxin, symptoms - {"Respiratory distress"}, false), Admit)
  {
    var reduced := symptoms - {"Respiratory distress"};
    var plan := PlanFrom(age, weightKg, hours, toxin, symptoms, intentional);
    var plain := PlanFrom(age, weightKg, hours, toxin, reduced, false);
    assert Emits(plan, Admit) <==> Disposition(toxin, symptoms, intentional)[0].fires by {
      Sections(age, weightKg, hours, toxin, symptoms, intentional);
      var rules := PlanRules(age, weightKg, hours, toxin, symptoms, intentional);
      assert rules[13] == rules[13..16][0];
    }
    assert Emits(plain, Admit) <==> Disposition(toxin, reduced, false)[0].fires by {
      Sections(age, weightKg, hours, toxin, reduced, false);
      var rules := PlanRules(age, weightKg, hours, toxin, reduced, false);
      assert rules[13] == rules[13..16][0];
    }
    assert AnyPresent(AdmitSymptoms, symptoms) == AnyPresent(AdmitSymptoms, reduced) by {
      assert forall k :: 0 <= k < |AdmitSymptoms| ==> AdmitSymptoms[k] != "Respiratory distress";
    }
  }

  /** A blank toxin entry is stored as the empty string, which holds none of
      the keywords, so no antidote block is shown and only the symptoms can
      admit the child (main.py:17, 90-131). */
  lemma BlankToxinNoAntidote(age: int, weightKg: real, timeText: string, toxinText: string,
                             symptoms: set<string>, intentional: bool)
    requires ValidAge(age) && ValidWeight(weightKg) && AllSpace(toxinText)
    ensures var plan := Plan(age, weightKg, timeText, toxinText, symptoms, intentional);
            && !Emits(plan, Acetylcysteine) && !Emits(plan, Deferoxamine) && !Emits(plan, DigoxinFab)
            && !Emits(plan, InsulinCalcium) && !Emits(plan, InsulinGlucagon)
            && !Emits(plan, AtropinePralidoxime) && !Emits(plan, Naloxone)
            && !Emits(plan, Octreotide) && !Emits(plan, Hydroxocobalamin)
            && (Emits(plan, Admit) <==> exists k :: 0 <= k < |AdmitSymptoms| && AdmitSymptoms[k] in symptoms)
  {
    var hours := ParseHours(timeText);
    assert ToxinKey(toxinText) == [];
    AntidoteRule(age, weightKg, hours, [], symptoms, intentional);
    DispositionRule(age, weightKg, hours, [], symptoms, intentional);
  }
}
