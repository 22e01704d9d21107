/** Whole plans for particular form entries, derived from the rule lemmas. */
module PlanScenarios {
  import opened Wrappers
  import opened PyText
  import opened Substrings
  import opened Dosing
  import opened ElapsedTime
  import opened PoisoningPlan
  import opened PlanProperties

  /** The form as it first appears (main.py:13-38): age 5, 20 kg, time
      "unknown", no toxin, no symptoms. The plan is the checklist, "charcoal
      not indicated", observation and counseling. */
  lemma DefaultForm()
    ensures var plan := Plan(5, 20.0, "unknown", "", {}, false);
            forall kind :: Emits(plan, kind) <==>
              kind in {Abcd, CharcoalNotIndicated, Observe, PreventionCounseling}
  {
    BlankEntry(5, 20.0, "unknown", "", {}, false);
    QuietPlan(5, 20.0, {});
  }

  /** A time of "unknown" and an empty toxin field reach the plan as no
      hours and no toxin. */
  lemma BlankEntry(age: int, weightKg: real, timeText: string, toxinText: string,
                   symptoms: set<string>, intentional: bool)
    requires ValidAge(age) && ValidWeight(weightKg) && timeText == "unknown" && toxinText == ""
    ensures Plan(age, weightKg, timeText, toxinText, symptoms, intentional)
         == PlanFrom(age, weightKg, None, [], symptoms, intentional)
  {
    assert ToxinKey(toxinText) == [];
  }

  /** The plan of a blank entry holds exactly the checklist, "charcoal not
      indicated", observation and counseling, at any age and weight. */
  lemma QuietPlan(age: int, weightKg: real, symptoms: set<string>)
    requires ValidAge(age) && ValidWeight(weightKg) && symptoms == {}
    ensures var plan := PlanFrom(age, weightKg, None, [], symptoms, false);
            forall kind :: Emits(plan, kind) <==>
              kind in {Abcd, CharcoalNotIndicated, Observe, PreventionCounseling}
  {
    QuietBlocks(age, weightKg, symptoms);
  }

  /** With no time, no toxin and no symptom, only the unconditional blocks,
      "charcoal not indicated" and observation are shown, at any age and
      weight. */
  lemma QuietBlocks(age: int, weightKg: real, symptoms: set<string>)
    requires ValidAge(age) && ValidWeight(weightKg) && symptoms == {}
    ensures var plan := PlanFrom(age, weightKg, None, [], symptoms, false);
            && Emits(plan, Abcd) && !Emits(plan, DextroseBolus)
            && !Emits(plan, ActivatedCharcoal) && Emits(plan, CharcoalNotIndicated)
            && !Emits(plan, Acetylcysteine) && !Emits(plan, Deferoxamine) && !Emits(plan, DigoxinFab)
            && !Emits(plan, InsulinCalcium) && !Emits(plan, InsulinGlucagon)
            && !Emits(plan, AtropinePralidoxime) && !Emits(plan, Naloxone)
            && !Emits(plan, Octreotide) && !Emits(plan, Hydroxocobalamin)
            && !Emits(plan, Admit) && Emits(plan, Observe) && !Emits(plan, PsychiatricEvaluation)
            && Emits(plan, PreventionCounseling)
  {
    var plan := PlanFrom(age, weightKg, None, [], symptoms, false);
    assert Emits(plan, Abcd) && Emits(plan, PreventionCounseling);
    assert !Emits(plan, DextroseBolus) by {
      DextroseRule(age, weightKg, None, [], symptoms, false);
    }
    assert !Emits(plan, ActivatedCharcoal) && Emits(plan, CharcoalNotIndicated) by {
      CharcoalRule(age, weightKg, None, [], symptoms, false);
    }
    assert && !Emits(plan, Acetylcysteine) && !Emits(plan, Deferoxamine) && !Emits(plan, DigoxinFab)
           && !Emits(plan, InsulinCalcium) && !Emits(plan, InsulinGlucagon)
           && !Emits(plan, AtropinePralidoxime) && !Emits(plan, Naloxone)
           && !Emits(plan, Octreotide) && !Emits(plan, Hydroxocobalamin) by {
      AntidoteRule(age, weightKg, None, [], symptoms, false);
    }
    assert !Emits(plan, Admit) && Emits(plan, Observe) && !Emits(plan, PsychiatricEvaluation) by {
      DispositionRule(age, weightKg, None, [], symptoms, false);
    }
  }

  /** A word of small letters is stored as it was entered. */
  lemma SmallLettersKept(word: string)
    requires forall k :: 0 <= k < |word| ==> 'a' <= word[k] <= 'z' || word[k] == '-'
    ensures ToxinKey(word) == word
  {
    assert LeadingSpace(word) == 0;
    assert SkipSpaceBack(word, |word|) == |word|;
  }

  /** "acetaminophen" is stored as entered. */
  lemma AcetaminophenKey(toxin: string)
    requires toxin == "acetaminophen"
    ensures ToxinKey(toxin) == toxin
  {
    SmallLettersKept(toxin);
  }

  /** "iron" is stored as entered. */
  lemma IronKey(toxin: string)
    requires toxin == "iron"
    ensures ToxinKey(toxin) == toxin
  {
    SmallLettersKept(toxin);
  }

  /** "1 hour" is read as one hour. */
  lemma OneHour()
    ensures ParseHours("1 hour") == Some(1.0)
  {
    assert "1 hour" == "1" + " hour";
    LeadingNumeralDecides("1", " hour");
    assert NatText(1) == "1";
    WholeNumberRoundTrip(1);
  }

  /** "3 hours" is read as three hours. */
  lemma ThreeHours()
    ensures ParseHours("3 hours") == Some(3.0)
  {
    assert "3 hours" == "3" + " hours";
    LeadingNumeralDecides("3", " hours");
    assert NatText(3) == "3";
    WholeNumberRoundTrip(3);
  }

  /** "iron" matches its own keyword and none of the others. */
  lemma IronKeywords()
    ensures && Contains("iron", "iron")
            && !Contains("iron", "acetaminophen") && !Contains("iron", "paracetamol")
            && !Contains("iron", "digoxin") && !Contains("iron", "calcium channel")
            && !Contains("iron", "ccb") && !Contains("iron", "beta blocker")
            && !Contains("iron", "organophosphate") && !Contains("iron", "opioid")
            && !Contains("iron", "sulfonylurea") && !Contains("iron", "cyanide")
  {
    assert OccursAt("iron", "iron", 0);
    MissingCharNoMatch("iron", "ccb", 'c');
  }

  /** The example entry of the form's own hint: a five-year-old of 20 kg one
      hour after taking acetaminophen. Charcoal 20 g, the three
      acetylcysteine doses of 3000, 1000 and 2000 mg, and admission because a
      toxin was named. */
  lemma AcetaminophenWithinTheHour(symptoms: set<string>, intentional: bool)
    requires "Corrosive ingestion" !in symptoms && "Hydrocarbon ingestion" !in symptoms
    ensures var plan := Plan(5, 20.0, "1 hour", "acetaminophen", symptoms, intentional);
            && Emits(plan, ActivatedCharcoal) && !Emits(plan, CharcoalNotIndicated)
            && DosesAre(plan, ActivatedCharcoal, [PerKg(20.0, 1.0, "g")])
            && Emits(plan, Acetylcysteine)
            && DosesAre(plan, Acetylcysteine, [PerKg(3000.0, 150.0, "mg"),
                                               PerKg(1000.0, 50.0, "mg"),
                                               PerKg(2000.0, 100.0, "mg")])
            && Emits(plan, Admit) && !Emits(plan, Observe)
  {
    var plan := PlanFrom(5, 20.0, Some(1.0), "acetaminophen", symptoms, intentional);
    assert Plan(5, 20.0, "1 hour", "acetaminophen", symptoms, intentional) == plan by {
      OneHour();
      AcetaminophenKey("acetaminophen");
    }
    AcetaminophenBlocks(5, 20.0, 1.0, "acetaminophen", symptoms, intentional);
  }

  /** Acetaminophen within two hours, with neither corrosive nor hydrocarbon
      selected: charcoal 1 g/kg, the three acetylcysteine doses and
      admission, at any age and weight. */
  lemma AcetaminophenBlocks(age: int, weightKg: real, hours: real, toxin: string,
                            symptoms: set<string>, intentional: bool)
    requires ValidAge(age) && ValidWeight(weightKg) && hours <= 2.0
    requires toxin == "acetaminophen"
    requires "Corrosive ingestion" !in symptoms && "Hydrocarbon ingestion" !in symptoms
    ensures var plan := PlanFrom(age, weightKg, Some(hours), toxin, symptoms, intentional);
            && Emits(plan, ActivatedCharcoal) && !Emits(plan, CharcoalNotIndicated)
            && DosesAre(plan, ActivatedCharcoal, [PerKg(Min(weightKg, 50.0), 1.0, "g")])
            && Emits(plan, Acetylcysteine)
            && DosesAre(plan, Acetylcysteine, [PerKg(150.0 * weightKg, 150.0, "mg"),
                                               PerKg(50.0 * weightKg, 50.0, "mg"),
                                               PerKg(100.0 * weightKg, 100.0, "mg")])
            && Emits(plan, Admit) && !Emits(plan, Observe)
  {
    var plan := PlanFrom(age, weightKg, Some(hours), toxin, symptoms, intentional);
    assert Emits(plan, ActivatedCharcoal) && !Emits(plan, CharcoalNotIndicated)
        && DosesAre(plan, ActivatedCharcoal, [PerKg(Min(weightKg, 50.0), 1.0, "g")]) by {
      CharcoalRule(age, weightKg, Some(hours), toxin, symptoms, intentional);
    }
    assert Emits(plan, Acetylcysteine) by {
      assert OccursAt(toxin, "acetaminophen", 0);
      AntidoteRule(age, weightKg, Some(hours), toxin, symptoms, intentional);
    }
    assert DosesAre(plan, Acetylcysteine, [PerKg(150.0 * weightKg, 150.0, "mg"),
                                           PerKg(50.0 * weightKg, 50.0, "mg"),
                                           PerKg(100.0 * weightKg, 100.0, "mg")]) by {
      AntidoteDoses(age, weightKg, Some(hours), toxin, symptoms, intentional);
    }
    assert Emits(plan, Admit) && !Emits(plan, Observe) by {
      DispositionRule(age, weightKg, Some(hours), toxin, symptoms, intentional);
    }
  }

  /** A four-year-old of 20 kg, three hours after swallowing iron, vomiting:
      too late for charcoal, deferoxamine 100 mg/hr, admitted. The entry may
      be written in any way that is stored as "iron" (" Iron ", "IRON"). */
  lemma IronAfterThreeHours(toxinText: string)
    requires ToxinKey(toxinText) == "iron"
    ensures var plan := Plan(4, 20.0, "3 hours", toxinText, {"Vomiting / Aspiration risk"}, false);
            && (forall kind :: Emits(plan, kind) <==>
                  kind in {Abcd, CharcoalNotIndicated, Deferoxamine, Admit, PreventionCounseling})
            && DosesAre(plan, Deferoxamine, [PerKg(100.0, 5.0, "mg/hr")])
  {
    var symptoms := {"Vomiting / Aspiration risk"};
    var plan := PlanFrom(4, 20.0, Some(3.0), "iron", symptoms, false);
    assert Plan(4, 20.0, "3 hours", toxinText, symptoms, false) == plan by {
      ThreeHours();
    }
    IronBlocks(symptoms);
  }

  /** The blocks of the iron plan above, one by one. */
  lemma IronBlocks(symptoms: set<string>)
    requires symptoms == {"Vomiting / Aspiration risk"}
    ensures var plan := PlanFrom(4, 20.0, Some(3.0), "iron", symptoms, false);
            && Emits(plan, Abcd) && !Emits(plan, DextroseBolus)
            && !Emits(plan, ActivatedCharcoal) && Emits(plan, CharcoalNotIndicated)
            && Emits(plan, Deferoxamine)
            && !Emits(plan, Acetylcysteine) && !Emits(plan, DigoxinFab)
            && !Emits(plan, InsulinCalcium) && !Emits(plan, InsulinGlucagon)
            && !Emits(plan, AtropinePralidoxime) && !Emits(plan, Naloxone)
            && !Emits(plan, Octreotide) && !Emits(plan, Hydroxocobalamin)
            && Emits(plan, Admit) && !Emits(plan, Observe) && !Emits(plan, PsychiatricEvaluation)
            && Emits(plan, PreventionCounseling)
            && DosesAre(plan, Deferoxamine, [PerKg(100.0, 5.0, "mg/hr")])
  {
    var toxin := "iron";
    var plan := PlanFrom(4, 20.0, Some(3.0), toxin, symptoms, false);
    assert Emits(plan, Abcd) && Emits(plan, PreventionCounseling);
    assert !Emits(plan, DextroseBolus) by {
      DextroseRule(4, 20.0, Some(3.0), toxin, symptoms, false);
    }
    assert !Emits(plan, ActivatedCharcoal) && Emits(plan, CharcoalNotIndicated) by {
      CharcoalRule(4, 20.0, Some(3.0), toxin, symptoms, false);
    }
    assert && Emits(plan, Deferoxamine)
           && !Emits(plan, Acetylcysteine) && !Emits(plan, DigoxinFab)
           && !Emits(plan, InsulinCalcium) && !Emits(plan, InsulinGlucagon)
           && !Emits(plan, AtropinePralidoxime) && !Emits(plan, Naloxone)
           && !Emits(plan, Octreotide) && !Emits(plan, Hydroxocobalamin) by {
      IronKeywords();
      AntidoteRule(4, 20.0, Some(3.0), toxin, symptoms, false);
    }
    assert DosesAre(plan, Deferoxamine, [PerKg(100.0, 5.0, "mg/hr")]) by {
      AntidoteDoses(4, 20.0, Some(3.0), toxin, symptoms, false);
    }
    assert Emits(plan, Admit) && !Emits(plan, Observe) && !Emits(plan, PsychiatricEvaluation) by {
      DispositionRule(4, 20.0, Some(3.0), toxin, symptoms, false);
    }
  }

  /** A hypoglycaemic infant: the 2.5 mL/kg bolus (7.5 mL of D10W at 3 kg),
      and since hypoglycaemia is not one of the admitting symptoms and no
      toxin was named, the plan ends in observation. */
  lemma HypoglycaemicInfant(weightKg: real)
    requires ValidWeight(weightKg)
    ensures var plan := Plan(0, weightKg, "unknown", "", {"Hypoglycemia"}, false);
            && (forall kind :: Emits(plan, kind) <==>
                  kind in {Abcd, DextroseBolus, CharcoalNotIndicated, Observe, PreventionCounseling})
            && DosesAre(plan, DextroseBolus, [PerKg(2.5 * weightKg, 2.5, "mL D10W")])
  {
    var symptoms := {"Hypoglycemia"};
    BlankEntry(0, weightKg, "unknown", "", symptoms, false);
    InfantBlocks(0, weightKg, symptoms);
  }

  /** At 3 kg the infant bolus is 7.5 mL of D10W. */
  lemma InfantOfThreeKilos()
    ensures DosesAre(Plan(0, 3.0, "unknown", "", {"Hypoglycemia"}, false), DextroseBolus,
                     [PerKg(7.5, 2.5, "mL D10W")])
  {
    HypoglycaemicInfant(3.0);
    assert 2.5 * 3.0 == 7.5;
  }

  /** The blocks of the infant plan above, one by one. */
  lemma InfantBlocks(age: int, weightKg: real, symptoms: set<string>)
    requires ValidAge(age) && age < 1 && ValidWeight(weightKg) && symptoms == {"Hypoglycemia"}
    ensures var plan := PlanFrom(age, weightKg, None, [], symptoms, false);
            && Emits(plan, Abcd) && Emits(plan, DextroseBolus)
            && !Emits(plan, ActivatedCharcoal) && Emits(plan, CharcoalNotIndicated)
            && !Emits(plan, Acetylcysteine) && !Emits(plan, Deferoxamine) && !Emits(plan, DigoxinFab)
            && !Emits(plan, InsulinCalcium) && !Emits(plan, InsulinGlucagon)
            && !Emits(plan, AtropinePralidoxime) && !Emits(plan, Naloxone)
            && !Emits(plan, Octreotide) && !Emits(plan, Hydroxocobalamin)
            && !Emits(plan, Admit) && Emits(plan, Observe) && !Emits(plan, PsychiatricEvaluation)
            && Emits(plan, PreventionCounseling)
            && DosesAre(plan, DextroseBolus, [PerKg(2.5 * weightKg, 2.5, "mL D10W")])
  {
    var plan := PlanFrom(age, weightKg, None, [], symptoms, false);
    assert Emits(plan, Abcd) && Emits(plan, PreventionCounseling);
    assert Emits(plan, DextroseBolus)
        && DosesAre(plan, DextroseBolus, [PerKg(2.5 * weightKg, 2.5, "mL D10W")]) by {
      DextroseRule(age, weightKg, None, [], symptoms, false);
    }
    assert !Emits(plan, ActivatedCharcoal) && Emits(plan, CharcoalNotIndicated) by {
      CharcoalRule(age, weightKg, None, [], symptoms, false);
    }
    assert && !Emits(plan, Acetylcysteine) && !Emits(plan, Deferoxamine) && !Emits(plan, DigoxinFab)
           && !Emits(plan, InsulinCalcium) && !Emits(plan, InsulinGlucagon)
           && !Emits(plan, AtropinePralidoxime) && !Emits(plan, Naloxone)
           && !Emits(plan, Octreotide) && !Emits(plan, Hydroxocobalamin) by {
      AntidoteRule(age, weightKg, None, [], symptoms, false);
    }
    assert !Emits(plan, Admit) && Emits(plan, Observe) && !Emits(plan, PsychiatricEvaluation) by {
      HypoglycemiaDoesNotAdmit(symptoms);
      DispositionRule(age, weightKg, None, [], symptoms, false);
    }
  }

  /** Hypoglycaemia is not one of the symptoms that force admission. */
  lemma HypoglycemiaDoesNotAdmit(symptoms: set<string>)
    requires symptoms == {"Hypoglycemia"}
    ensures !exists k :: 0 <= k < |AdmitSymptoms| && AdmitSymptoms[k] in symptoms
  {
    forall k | 0 <= k < |AdmitSymptoms| ensures AdmitSymptoms[k] !in symptoms {
      assert AdmitSymptoms[k][0] != "Hypoglycemia"[0];
    }
  }

  /** Capitals and surrounding blanks in the entered toxin do not matter: the
      stored text is stripped and lowered before the checks. */
  lemma ShoutedToxinStillMatches(age: int, weightKg: real, timeText: string,
                                 symptoms: set<string>, intentional: bool)
    requires ValidAge(age) && ValidWeight(weightKg)
    ensures Emits(Plan(age, weightKg, timeText, " IRON ", symptoms, intentional), Deferoxamine)
  {
    ShoutedIron();
    MatchIgnoresPadding(" IRON ", "iron");
    AntidoteRule(age, weightKg, ParseHours(timeText), ToxinKey(" IRON "), symptoms, intentional);
  }

  /** Lowering " IRON " brings out "iron". */
  lemma ShoutedIron()
    ensures Contains(Lower(" IRON "), "iron")
  {
    assert Lower(" IRON ") == " iron ";
    assert " iron "[1..5] == "iron";
    assert OccursAt(" iron ", "iron", 1);
  }

  /** The checks look for the exact words: "beta-blocker", written with a
      hyphen, does not bring up the insulin and glucagon block. */
  lemma HyphenatedBetaBlockerMisses(age: int, weightKg: real, timeText: string,
                                    symptoms: set<string>, intentional: bool)
    requires ValidAge(age) && ValidWeight(weightKg)
    ensures !Emits(Plan(age, weightKg, timeText, "beta-blocker", symptoms, intentional), InsulinGlucagon)
  {
    var toxin := "beta-blocker";
    SmallLettersKept(toxin);
    MissingCharNoMatch(toxin, "beta blocker", ' ');
    AntidoteRule(age, weightKg, ParseHours(timeText), toxin, symptoms, intentional);
  }

  /** The checks match inside words: "environmental" holds "iron", so it
      brings up deferoxamine. */
  lemma IronInsideAnotherWord(age: int, weightKg: real, timeText: string,
                              symptoms: set<string>, intentional: bool)
    requires ValidAge(age) && ValidWeight(weightKg)
    ensures Emits(Plan(age, weightKg, timeText, "environmental", symptoms, intentional), Deferoxamine)
  {
    var toxin := "environmental";
    SmallLettersKept(toxin);
    assert toxin[3..7] == "iron";
    assert OccursAt(toxin, "iron", 3);
    AntidoteRule(age, weightKg, ParseHours(timeText), toxin, symptoms, intentional);
  }
}
