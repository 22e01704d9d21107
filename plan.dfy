/** The plan generated when "Generate Plan" is pressed (main.py:51-143): five
    sections emitted one after another, as an ordered sequence of
    recommendation kinds, each carrying the doses `dose_calc` computed for it. */
module PoisoningPlan {
  import opened Wrappers
  import opened PyText
  import opened Substrings
  import opened Dosing
  import opened ElapsedTime

  /** The age range the form's number input admits (main.py:13). */
  const MaxAge: int := 18

  predicate ValidAge(age: int) {
    0 <= age <= MaxAge
  }

  /** The options of the symptom multiselect (main.py:21-35). */
  const SymptomOptions: set<string> := {
    "Altered consciousness / GCS <15", "Seizures", "Hypoglycemia", "Respiratory distress",
    "Bradycardia / Hypotension", "Arrhythmias / AV block", "Hyperkalemia",
    "Excessive secretions / SLUDGE", "Miosis", "Mydriasis", "Vomiting / Aspiration risk",
    "Corrosive ingestion", "Hydrocarbon ingestion"
  }

  /** The symptoms whose presence forces admission, in the order `any` tests them (main.py:131). */
  const AdmitSymptoms: seq<string> := [
    "Altered consciousness / GCS <15", "Seizures", "Bradycardia / Hypotension", "Arrhythmias / AV block"
  ]

  /** The blocks the plan can show, in the order the code emits them. */
  datatype Kind =
    | Abcd                      // section 1 checklist
    | DextroseBolus             // D10W bolus
    | ActivatedCharcoal         // section 2
    | CharcoalNotIndicated
    | Acetylcysteine            // section 3, one per antidote check
    | Deferoxamine
    | DigoxinFab
    | InsulinCalcium            // HIET + calcium gluconate
    | InsulinGlucagon           // HIET + glucagon
    | AtropinePralidoxime
    | Naloxone
    | Octreotide
    | Hydroxocobalamin
    | Admit                     // section 4
    | Observe
    | PsychiatricEvaluation
    | PreventionCounseling      // section 5

  function Ordinal(kind: Kind): nat {
    match kind
    case Abcd => 0
    case DextroseBolus => 1
    case ActivatedCharcoal => 2
    case CharcoalNotIndicated => 3
    case Acetylcysteine => 4
    case Deferoxamine => 5
    case DigoxinFab => 6
    case InsulinCalcium => 7
    case InsulinGlucagon => 8
    case AtropinePralidoxime => 9
    case Naloxone => 10
    case Octreotide => 11
    case Hydroxocobalamin => 12
    case Admit => 13
    case Observe => 14
    case PsychiatricEvaluation => 15
    case PreventionCounseling => 16
  }

  /** One block of the rendered plan, its prose abstracted to its kind. */
  datatype Recommendation = Recommendation(kind: Kind, doses: seq<DoseText>)

  predicate Emits(plan: seq<Recommendation>, kind: Kind) {
    exists k :: 0 <= k < |plan| && plan[k].kind == kind
  }

  /** Every recommendation of `kind` in `plan` carries exactly `doses`. */
  predicate DosesAre(plan: seq<Recommendation>, kind: Kind, doses: seq<DoseText>) {
    forall k :: 0 <= k < |plan| && plan[k].kind == kind ==> plan[k].doses == doses
  }

  /** Blocks appear in emission order, each kind at most once. */
  predicate Ordered(plan: seq<Recommendation>) {
    forall i, j :: 0 <= i < j < |plan| ==> Ordinal(plan[i].kind) < Ordinal(plan[j].kind)
  }

  /** Every block's ordinal lies in `[lo, hi)`. */
  predicate Within(plan: seq<Recommendation>, lo: nat, hi: nat) {
    forall k :: 0 <= k < |plan| ==> lo <= Ordinal(plan[k].kind) < hi
  }

  /** One block the code can emit: the block, whether its condition
      holds for this patient, and the doses the block computes. */
  datatype Rule = Rule(kind: Kind, fires: bool, doses: seq<DoseText>)

  /** The rules list the kinds from ordinal `base` on, one each, in order. */
  predicate InOrder(rules: seq<Rule>, base: nat) {
    forall i :: 0 <= i < |rules| ==> Ordinal(rules[i].kind) == base + i
  }

  lemma InOrderConcat(a: seq<Rule>, b: seq<Rule>, base: nat)
    requires InOrder(a, base) && InOrder(b, base + |a|)
    ensures InOrder(a + b, base)
  {
    forall i | 0 <= i < |a + b| ensures Ordinal((a + b)[i].kind) == base + i {
      if i < |a| { assert (a + b)[i] == a[i]; } else { assert (a + b)[i] == b[i - |a|]; }
    }
  }

  /** Run the rules one after another: every rule whose condition holds
      emits its block; none stops a later one. */
  function Emitted(rules: seq<Rule>): (plan: seq<Recommendation>)
    ensures |plan| <= |rules|
  {
    if rules == [] then []
    else
      (if rules[0].fires then [Recommendation(rules[0].kind, rules[0].doses)] else [])
      + Emitted(rules[1..])
  }

  /** Every emitted block is the block of a rule whose condition holds,
      with that rule's doses: nothing is shown that no rule asked for. */
  lemma {:induction false} EmittedComesFromRules(rules: seq<Rule>)
    ensures forall k :: 0 <= k < |Emitted(rules)| ==>
              exists i :: 0 <= i < |rules| && rules[i].fires && rules[i].kind == Emitted(rules)[k].kind
                          && rules[i].doses == Emitted(rules)[k].doses
    decreases |rules|
  {
    if rules != [] {
      var head := if rules[0].fires then [Recommendation(rules[0].kind, rules[0].doses)] else [];
      var tail := rules[1..];
      var rest := Emitted(tail);
      EmittedComesFromRules(tail);
      assert Emitted(rules) == head + rest;
      forall k | 0 <= k < |Emitted(rules)|
        ensures exists i :: 0 <= i < |rules| && rules[i].fires && rules[i].kind == Emitted(rules)[k].kind
                            && rules[i].doses == Emitted(rules)[k].doses
      {
        if k < |head| {
          assert rules[0].fires && Emitted(rules)[k] == head[0];
        } else {
          var i :| 0 <= i < |tail| && tail[i].fires && tail[i].kind == rest[k - |head|].kind
                   && tail[i].doses == rest[k - |head|].doses;
          assert Emitted(rules)[k] == rest[k - |head|];
          assert rules[i + 1] == tail[i];
        }
      }
    } else {
      assert Emitted(rules) == [];
    }
  }

  /** Two runs of blocks, the second after the first. */
  lemma Join(a: seq<Recommendation>, b: seq<Recommendation>, lo: nat, mid: nat, hi: nat)
    requires Ordered(a) && Within(a, lo, mid)
    requires Ordered(b) && Within(b, mid, hi)
    ensures Ordered(a + b) && (lo <= mid <= hi ==> Within(a + b, lo, hi))
    ensures forall x :: Emits(a + b, x) <==> Emits(a, x) || Emits(b, x)
    ensures forall x, d :: DosesAre(a + b, x, d) <==> DosesAre(a, x, d) && DosesAre(b, x, d)
  {
    JoinOrdered(a, b, lo, mid, hi);
    JoinEmits(a, b);
    JoinDoses(a, b);
  }

  /** Blocks below `mid` followed by blocks from `mid` on stay in order. */
  lemma JoinOrdered(a: seq<Recommendation>, b: seq<Recommendation>, lo: nat, mid: nat, hi: nat)
    requires Ordered(a) && Within(a, lo, mid)
    requires Ordered(b) && Within(b, mid, hi)
    ensures Ordered(a + b) && (lo <= mid <= hi ==> Within(a + b, lo, hi))
  {
    var ab := a + b;
    forall i, j | 0 <= i < j < |ab| ensures Ordinal(ab[i].kind) < Ordinal(ab[j].kind) {
      if j < |a| {
        assert ab[i] == a[i] && ab[j] == a[j];
      } else if i >= |a| {
        assert ab[i] == b[i - |a|] && ab[j] == b[j - |a|];
      } else {
        assert ab[i] == a[i] && ab[j] == b[j - |a|];
      }
    }
    if lo <= mid <= hi {
      forall k | 0 <= k < |ab| ensures lo <= Ordinal(ab[k].kind) < hi {
        if k < |a| { assert ab[k] == a[k]; } else { assert ab[k] == b[k - |a|]; }
      }
    }
  }

  /** A block is shown by two runs exactly when one of them shows it. */
  lemma JoinEmits(a: seq<Recommendation>, b: seq<Recommendation>)
    ensures forall x :: Emits(a + b, x) <==> Emits(a, x) || Emits(b, x)
  {
    var ab := a + b;
    forall x ensures Emits(ab, x) <==> Emits(a, x) || Emits(b, x) {
      if Emits(ab, x) {
        var k :| 0 <= k < |ab| && ab[k].kind == x;
        if k < |a| { assert ab[k] == a[k]; } else { assert ab[k] == b[k - |a|]; }
      }
      if Emits(a, x) {
        var k :| 0 <= k < |a| && a[k].kind == x;
        assert ab[k] == a[k];
      }
      if Emits(b, x) {
        var k :| 0 <= k < |b| && b[k].kind == x;
        assert ab[k + |a|] == b[k];
      }
    }
  }

  /** Two runs carry the given doses for a block exactly when both do. */
  lemma JoinDoses(a: seq<Recommendation>, b: seq<Recommendation>)
    ensures forall x, d :: DosesAre(a + b, x, d) <==> DosesAre(a, x, d) && DosesAre(b, x, d)
  {
    var ab := a + b;
    forall x, d ensures DosesAre(ab, x, d) <==> DosesAre(a, x, d) && DosesAre(b, x, d) {
      if DosesAre(ab, x, d) {
        forall k | 0 <= k < |a| && a[k].kind == x ensures a[k].doses == d {
          assert ab[k] == a[k];
        }
        forall k | 0 <= k < |b| && b[k].kind == x ensures b[k].doses == d {
          assert ab[k + |a|] == b[k];
        }
      }
      if DosesAre(a, x, d) && DosesAre(b, x, d) {
        forall k | 0 <= k < |ab| && ab[k].kind == x ensures ab[k].doses == d {
          if k < |a| { assert ab[k] == a[k]; } else { assert ab[k] == b[k - |a|]; }
        }
      }
    }
  }

  /** Running rules listed in emission order shows each block exactly when
      its condition holds, with that rule's doses, in that order. */
  lemma {:induction false} EmittedFollowsRules(rules: seq<Rule>, base: nat)
    requires InOrder(rules, base)
    ensures Ordered(Emitted(rules)) && Within(Emitted(rules), base, base + |rules|)
    ensures forall i :: 0 <= i < |rules| ==> (Emits(Emitted(rules), rules[i].kind) <==> rules[i].fires)
    ensures forall i :: 0 <= i < |rules| ==> DosesAre(Emitted(rules), rules[i].kind, rules[i].doses)
    decreases |rules|
  {
    if rules != [] {
      var head := if rules[0].fires then [Recommendation(rules[0].kind, rules[0].doses)] else [];
      var tail := rules[1..];
      assert InOrder(tail, base + 1) by {
        forall i | 0 <= i < |tail| ensures Ordinal(tail[i].kind) == base + 1 + i {
          assert tail[i] == rules[i + 1];
        }
      }
      EmittedFollowsRules(tail, base + 1);
      assert head != [] ==> head[0].kind == rules[0].kind;
      Join(head, Emitted(tail), base, base + 1, base + |rules|);
      assert Emitted(rules) == head + Emitted(tail);
      forall i | 0 <= i < |rules|
        ensures Emits(Emitted(rules), rules[i].kind) <==> rules[i].fires
        ensures DosesAre(Emitted(rules), rules[i].kind, rules[i].doses)
      {
        if i == 0 {
          assert !Emits(Emitted(tail), rules[0].kind);
        } else {
          assert rules[i] == tail[i - 1];
          assert Ordinal(rules[i].kind) != Ordinal(rules[0].kind);
        }
      }
    }
  }

  /** `suspected_toxin` as the form stores it: `.strip().lower()` (main.py:17). */
  function ToxinKey(entered: string): (toxin: string)
    ensures toxin == [] <==> AllSpace(entered)
    ensures toxin != [] ==> !IsSpace(toxin[0]) && !IsSpace(toxin[|toxin| - 1])
    ensures forall k :: 0 <= k < |toxin| ==> !('A' <= toxin[k] <= 'Z')
  {
    Lower(Strip(entered))
  }

  /** Section 1 (main.py:56-70): the ABCD checklist, always; then a D10W
      bolus when "Hypoglycemia" or the string "Altered consciousness" is
      among the selected symptoms. */
  function Stabilization(age: int, weightKg: real, symptoms: set<string>): (rules: seq<Rule>)
    requires ValidAge(age) && ValidWeight(weightKg)
    ensures |rules| == 2 && InOrder(rules, 0)
  {
    [ Rule(Abcd, true, []),
      Rule(DextroseBolus, "Hypoglycemia" in symptoms || "Altered consciousness" in symptoms,
           if age < 1 then [DoseCalc(2.5, "mL D10W", None, None, false, weightKg)]
           else [DoseCalc(3.5, "mL D10W", None, None, false, weightKg)]) ]
  }

  /** Section 2 (main.py:74-84): within two hours of a known exposure,
      activated charcoal 1 g/kg capped at 50 g unless a corrosive or a
      hydrocarbon was ingested; otherwise "not indicated". */
  function Decontamination(hours: Option<real>, weightKg: real, symptoms: set<string>): (rules: seq<Rule>)
    requires ValidWeight(weightKg)
    ensures |rules| == 2 && InOrder(rules, 2)
  {
    var early := hours.Some? && hours.value <= 2.0;
    [ Rule(ActivatedCharcoal,
           early && "Corrosive ingestion" !in symptoms && "Hydrocarbon ingestion" !in symptoms,
           [DoseCalc(1.0, "g", Some(50.0), None, false, weightKg)]),
      Rule(CharcoalNotIndicated, !early, []) ]
  }

  /** Section 3 (main.py:88-127): nine independent substring checks on the
      toxin, in this order; every one that matches shows its block. */
  function Antidotes(toxin: string, weightKg: real): (rules: seq<Rule>)
    requires ValidWeight(weightKg)
    ensures |rules| == 9 && InOrder(rules, 4)
  {
    [ Rule(Acetylcysteine, Contains(toxin, "acetaminophen") || Contains(toxin, "paracetamol"),
           [DoseCalc(150.0, "mg", None, None, false, weightKg),
            DoseCalc(50.0, "mg", None, None, false, weightKg),
            DoseCalc(100.0, "mg", None, None, false, weightKg)]),
      Rule(Deferoxamine, Contains(toxin, "iron"),
           [DoseCalc(5.0, "mg/hr", None, None, false, weightKg)]),
      Rule(DigoxinFab, Contains(toxin, "digoxin"), []),
      Rule(InsulinCalcium, Contains(toxin, "calcium channel") || Contains(toxin, "ccb"),
           [DoseCalc(1.0, "units", None, None, false, weightKg),
            DoseCalc(0.6, "mL", Some(20.0), None, false, weightKg)]),
      Rule(InsulinGlucagon, Contains(toxin, "beta blocker"),
           [DoseCalc(0.05, "mg", Some(5.0), None, false, weightKg)]),
      Rule(AtropinePralidoxime, Contains(toxin, "organophosphate"),
           [DoseCalc(30.0, "mg", Some(2000.0), None, false, weightKg)]),
      Rule(Naloxone, Contains(toxin, "opioid"),
           [DoseCalc(0.04, "mg", Some(2.0), None, false, weightKg)]),
      Rule(Octreotide, Contains(toxin, "sulfonylurea"),
           [DoseCalc(1.5, "mcg", Some(100.0), None, false, weightKg)]),
      Rule(Hydroxocobalamin, Contains(toxin, "cyanide"),
           [DoseCalc(70.0, "mg", Some(5000.0), None, false, weightKg)]) ]
  }

  /** Python's `any(s in symptoms for s in candidates)`. */
  function AnyPresent(candidates: seq<string>, symptoms: set<string>): (b: bool)
    ensures b <==> exists k :: 0 <= k < |candidates| && candidates[k] in symptoms
  {
    if candidates == [] then false
    else
      var rest := AnyPresent(candidates[1..], symptoms);
      assert forall k :: 1 <= k < |candidates| ==> candidates[k] == candidates[1..][k - 1];
      candidates[0] in symptoms || rest
  }

  /** Section 4 (main.py:131-137): admit when one of the four listed
      symptoms is selected or a toxin was named, observe otherwise; and,
      separately, a psychiatric evaluation for an intentional ingestion. */
  function Disposition(toxin: string, symptoms: set<string>, intentional: bool): (rules: seq<Rule>)
    ensures |rules| == 3 && InOrder(rules, 13)
  {
    var admit := AnyPresent(AdmitSymptoms, symptoms) || toxin != [];
    [ Rule(Admit, admit, []),
      Rule(Observe, !admit, []),
      Rule(PsychiatricEvaluation, intentional, []) ]
  }

  /** Section 5 (main.py:139-140): caregiver counseling, always. */
  function Counseling(): (rules: seq<Rule>)
    ensures |rules| == 1 && InOrder(rules, 16)
  {
    [Rule(PreventionCounseling, true, [])]
  }

  /** Every rule of the plan, in emission order, for the parsed hours and
      the stored toxin. */
  function PlanRules(age: int, weightKg: real, hours: Option<real>, toxin: string,
                     symptoms: set<string>, intentional: bool): (rules: seq<Rule>)
    requires ValidAge(age) && ValidWeight(weightKg)
    ensures |rules| == 17 && InOrder(rules, 0)
    ensures rules[0] == Rule(Abcd, true, []) && rules[16] == Rule(PreventionCounseling, true, [])
  {
    var s1 := Stabilization(age, weightKg, symptoms);
    var s2 := Decontamination(hours, weightKg, symptoms);
    var s3 := Antidotes(toxin, weightKg);
    var s4 := Disposition(toxin, symptoms, intentional);
    var s5 := Counseling();
    InOrderConcat(s1, s2, 0);
    InOrderConcat(s1 + s2, s3, 0);
    InOrderConcat(s1 + s2 + s3, s4, 0);
    InOrderConcat(s1 + s2 + s3 + s4, s5, 0);
    s1 + s2 + s3 + s4 + s5
  }

  /** The plan for the parsed hours and the stored toxin: the blocks of the
      rules whose conditions hold, in emission order; the ABCD checklist
      opens it and counseling closes it. */
  function PlanFrom(age: int, weightKg: real, hours: Option<real>, toxin: string,
                    symptoms: set<string>, intentional: bool): (plan: seq<Recommendation>)
    requires ValidAge(age) && ValidWeight(weightKg)
    ensures Ordered(plan) && Within(plan, 0, 17)
    ensures plan != [] && plan[0].kind == Abcd && plan[|plan| - 1].kind == PreventionCounseling
  {
    var rules := PlanRules(age, weightKg, hours, toxin, symptoms, intentional);
    EmittedFollowsRules(rules, 0);
    var plan := Emitted(rules);
    assert Emits(plan, Abcd) && Emits(plan, PreventionCounseling);
    plan
  }

  /** The plan shown for one press of "Generate Plan" (main.py:51-143), from
      the raw form inputs: the time text read as in main.py:74-78 and the
      toxin stored as in main.py:17. */
  function Plan(age: int, weightKg: real, timeText: string, toxinText: string,
                symptoms: set<string>, intentional: bool): (plan: seq<Recommendation>)
    requires ValidAge(age) && ValidWeight(weightKg)
    ensures Ordered(plan) && Within(plan, 0, 17)
    ensures plan != [] && plan[0].kind == Abcd && plan[|plan| - 1].kind == PreventionCounseling
  {
    PlanFrom(age, weightKg, ParseHours(timeText), ToxinKey(toxinText), symptoms, intentional)
  }
}
