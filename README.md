# Pediatric poisoning management plan — a Dafny model

`main.py` is a Streamlit form for managing a child's poisoning. The clinician
enters the following:

- the age (whole years, 0–18);
- the weight (1.0–100.0 kg);
- the time since exposure, as free text;
- the suspected toxin, as free text;
- a set of symptoms;
- an "intentional ingestion" flag.

"Generate Plan" then prints a management plan in five sections:

1. ABCD stabilization, with a dextrose bolus banded by age.
2. Selective decontamination (activated charcoal, or "not indicated").
3. Antidotes chosen by keyword.
4. Disposition (admit or observe), with a psychiatric evaluation for intentional ingestions.
5. Prevention counseling.

Doses come from the weight-based calculator `dose_calc`.

This project models that decision core:

- **`Dosing`**: `dose_calc` as a function on reals, with the weight passed in.
  - The optional ceiling is applied first.
  - The optional floor is then applied as a separate step, not as an
    else-branch.
  - Both use Python truthiness, so 0 and None clamp nothing.
- **`PyText`**: the Python string operations the form applies to its text:
  - `isspace`, with the full Python 3 whitespace set;
  - `strip()`;
  - `lower()`;
  - the first field of `split()`.
- **`Substrings`**: Python's `sub in s`.
- **`ElapsedTime`**: the time parse of main.py:74-78:
  - "unknown" gives no hours;
  - otherwise the first whitespace-separated field is read as a decimal
    number;
  - every failure (no field, not a numeral) gives no hours, as the bare
    `except:` does.
- **`PoisoningPlan`**: the plan as an ordered sequence of recommendations.
  - Each recommendation has a kind and the doses `dose_calc` computed for it.
  - The plan comes from a table of seventeen rules: one rule per block the
    code can emit, in emission order.
  - Each rule records whether its condition holds and what doses its block
    shows.
  - `Emitted` runs the table: every rule whose condition holds adds its
    block, and no rule stops a later one.
  - `Plan` takes the raw inputs. It reads the time text and stores the toxin
    as `strip().lower()` (main.py:17).
  - `PlanFrom` takes the parsed hours and the stored toxin.
- **`PlanProperties`**: what the plan promises, rule by rule. It also covers
  three behaviours of the code as written:
  - the test for "Altered consciousness" never matches an option
    (`AlteredConsciousnessNeverMatches`);
  - within two hours of a corrosive or hydrocarbon ingestion, section 2
    shows nothing at all (`CharcoalRule`);
  - admission ignores both the intentional flag and respiratory distress
    (`DispositionIgnoresIntentAndBreathing`).
- **`PlanScenarios`**: whole plans for particular entries:
  - the form's defaults;
  - acetaminophen one hour after ingestion;
  - iron after three hours;
  - a hypoglycaemic infant;
  - keyword matching with capitals, a hyphen, or a keyword inside another
    word.

## Model

| member | source | states |
|---|---|---|
| `Substrings.Contains` | main.py:90-127 | Python's `sub in s`: the empty string occurs in every text, every text occurs in itself, and a keyword longer than the text never occurs |
| `Substrings.MissingCharNoMatch` | main.py:90-127 | a keyword holding a character the toxin text lacks never matches it |
| `Substrings.WindowMatch` | main.py:90-127 | when every occurrence of a keyword in a text lies inside a window, the keyword occurs in the window exactly when it occurs in the text |
| `PyText.IsSpace` | main.py:17 | `str.isspace` holds exactly for the 29 characters Python 3 counts as whitespace, listed one by one in `PyText.PythonWhitespace` |
| `PyText.SkipSpace` | main.py:17 | the index returned is the first non-whitespace index at or after the start, and everything skipped is whitespace |
| `PyText.SkipSpaceBack` | main.py:17 | the index returned is just past the last non-whitespace character before the end, and everything skipped is whitespace |
| `PyText.LeadingSpace` | main.py:17 | the length of the whitespace prefix: all of it is whitespace, and the character after it is not |
| `PyText.Strip` | main.py:17 | `strip()` gives the part between the leading and trailing whitespace. Everything outside it is whitespace, its ends are not, and it is empty exactly when the text is all whitespace |
| `PyText.LowerChar` | main.py:17 | ASCII capitals map to the small letter 32 code points higher, and every other character is kept |
| `PyText.Lower` | main.py:17 | `lower()` keeps the length and lowers each character in place |
| `PyText.WordEnd` | main.py:76 | the first whitespace index at or after the start, with nothing but non-whitespace before it |
| `PyText.FirstField` | main.py:76 | `split()[0]` is None (IndexError) exactly for all-whitespace text. Otherwise it is a non-empty run of non-whitespace that starts right after the leading whitespace and ends at whitespace or at the end |
| `PyText.LowerKeepsSpace` | main.py:17 | lowering never changes a whitespace character |
| `PyText.LowerSlice` | main.py:17 | lowering a slice gives the same slice of the lowered text |
| `PyText.StrippedLower` | main.py:17 | the stored toxin, `strip().lower()`, is the lowered text between the padding |
| `PyText.MatchAvoidsPadding` | main.py:17 | any occurrence of a keyword with non-space ends in the lowered text lies between the leading and the trailing whitespace |
| `PyText.MatchIgnoresPadding` | main.py:17 | stripping before lowering never changes whether such a keyword occurs |
| `Dosing.Truthy` | main.py:45-47 | Python truthiness of an optional clamp: false exactly for None and 0 |
| `Dosing.DoseCalc` | main.py:41-49 | fixed gives the rate and unit whatever the weight. Otherwise the rate is kept and: with no truthy clamp the total is rate × weight; with a ceiling alone it is min(rate × weight, ceiling); with a floor alone it is max(rate × weight, floor); a truthy floor is always met, even above a lower ceiling, where the total is the floor; with floor ≤ ceiling the total is the floor below it, the ceiling above it and rate × weight between them |
| `Dosing.ZeroClampIsNoClamp` | main.py:45-48 | a ceiling or floor of 0 behaves exactly like None, because 0 is falsy |
| `ElapsedTime.PointIndex` | main.py:76 | the index of the first '.', or the length when there is none |
| `ElapsedTime.ParseUnsigned` | main.py:76 | an unsigned numeral parses only if it follows the grammar `ElapsedTime.UnsignedNumeral` (digits, at most one point, at least one digit), and its value is never negative |
| `ElapsedTime.ParseFloat` | main.py:76-78 | `float` succeeds only on a numeral of the grammar `ElapsedTime.Numeral` (at most one leading sign before an unsigned numeral), and a negative value needs a leading '-' |
| `ElapsedTime.ParseHours` | main.py:74-78 | "unknown" and all-whitespace text give None, and any parsed value starts with a numeral character right after the leading whitespace |
| `ElapsedTime.NatText` | main.py:76 | the decimal rendering of a natural number is a non-empty string of digits |
| `ElapsedTime.NatTextValue` | main.py:76 | the digits of that rendering have the number's value |
| `ElapsedTime.WholeNumberRoundTrip` | main.py:76 | `float` reads back every whole number written in decimal, with or without a minus sign |
| `ElapsedTime.DecimalRoundTrip` | main.py:76 | `float` reads back a whole number, a point and fraction digits as the whole part plus the fraction |
| `ElapsedTime.UnsignedWithPoint` | main.py:76 | digits, a point and digits parse as the whole part plus the fraction, where either part may be empty but not both ("1.", ".5") |
| `ElapsedTime.UnsignedDigits` | main.py:76 | digits without a point read as their value ("01" is 1) |
| `ElapsedTime.SignedNumeral` | main.py:76 | a leading '+' keeps an unsigned numeral's value and a leading '-' negates it; a sign before a non-numeral fails |
| `ElapsedTime.UnsignedAcceptsExactlyNumerals` | main.py:76-78 | the unsigned parse succeeds exactly on the numerals of the grammar, so "1.2.3", "." and "1-2" give no hours |
| `ElapsedTime.FloatAcceptsExactlyNumerals` | main.py:76-78 | `float` succeeds exactly on a numeral with at most one leading sign, so "+-1" and "-" give no hours, as the `except:` of main.py:77-78 turns the ValueError into None |
| `ElapsedTime.UnknownIsJustANonNumeral` | main.py:76 | the comparison with "unknown" changes nothing: the parse always equals `float` of the first field, or None when there is none |
| `ElapsedTime.LeadingNumeralDecides` | main.py:76 | a field followed by whitespace is the first field, and the hours are that field's `float`, whatever follows |
| `ElapsedTime.WholeHours` | main.py:74-78 | "n hours", "n hrs" and the like read as n hours |
| `PoisoningPlan.InOrderConcat` | main.py:51-143 | two rule runs listed from consecutive ordinals join into one run in order |
| `PoisoningPlan.Join` | main.py:51-143 | two runs of blocks, the second placed after the first, stay in order. A block is in the joined run exactly when it is in one of the two, and a dose holds of the joined run exactly when it holds of both |
| `PoisoningPlan.JoinOrdered` | main.py:51-143 | blocks below a bound, followed by blocks from that bound on, stay in emission order |
| `PoisoningPlan.JoinEmits` | main.py:51-143 | two runs show a block exactly when one of them shows it |
| `PoisoningPlan.JoinDoses` | main.py:51-143 | two runs carry given doses for a block exactly when both do |
| `PoisoningPlan.Emitted` | main.py:51-143 | running the rules emits at most one block per rule |
| `PoisoningPlan.EmittedComesFromRules` | main.py:51-143 | every emitted block is the block of a rule whose condition holds, with that rule's doses |
| `PoisoningPlan.EmittedFollowsRules` | main.py:51-143 | running the rules in order shows each block exactly when its condition holds, with that rule's doses, in emission order: no check short-circuits another |
| `PoisoningPlan.ToxinKey` | main.py:17 | the stored toxin is empty exactly when the entry is all whitespace, has non-whitespace ends, and holds no capital letter |
| `PoisoningPlan.Stabilization` | main.py:56-70 | section 1 is two rules, ABCD and the dextrose bolus, at ordinals 0-1; what they fire on and dose is stated by `PlanProperties.DextroseRule` |
| `PoisoningPlan.Decontamination` | main.py:74-84 | section 2 is two rules, charcoal and "not indicated", at ordinals 2-3; their conditions and dose are stated by `PlanProperties.CharcoalRule` |
| `PoisoningPlan.Antidotes` | main.py:88-127 | section 3 is nine rules in the code's order, at ordinals 4-12; their conditions and doses are stated by `PlanProperties.AntidoteRule` and `PlanProperties.AntidoteDoses` |
| `PoisoningPlan.AnyPresent` | main.py:131 | `any(s in symptoms for s in candidates)` holds exactly when some candidate is selected |
| `PoisoningPlan.Disposition` | main.py:131-137 | admit, observe and psychiatric evaluation, at ordinals 13-15; their conditions are stated by `PlanProperties.DispositionRule` |
| `PoisoningPlan.Counseling` | main.py:139-140 | counseling, at ordinal 16 |
| `PoisoningPlan.PlanRules` | main.py:51-143 | the table has seventeen rules in emission order. The ABCD checklist comes first and counseling last, and both always fire |
| `PoisoningPlan.PlanFrom` | main.py:51-143 | every plan is in emission order with each block at most once. It opens with the ABCD checklist and closes with counseling |
| `PoisoningPlan.Plan` | main.py:51-143 | from the raw form inputs, the plan is in emission order with each block at most once, opens with the ABCD checklist and closes with counseling; what each block depends on is stated by the `PlanProperties` lemmas |
| `PlanProperties.Sections` | main.py:51-143 | the table is the five sections in order, and the plan shows each rule's block exactly when the rule fires, with its doses |
| `PlanProperties.DextroseRule` | main.py:64-69 | the bolus is shown exactly when "Hypoglycemia" or the string "Altered consciousness" is selected. It is 2.5 mL/kg under one year and 3.5 mL/kg from one year on, unclamped |
| `PlanProperties.AlteredConsciousnessNeverMatches` | main.py:22-24 | for any selection of the offered options, the bolus follows "Hypoglycemia" alone |
| `PlanProperties.CharcoalRule` | main.py:80-84 | charcoal exactly within two hours of a known time with neither corrosive nor hydrocarbon, at min(weight, 50) g. "Not indicated" exactly when the time is unknown or over two hours. Within two hours of a corrosive or hydrocarbon, neither is shown |
| `PlanProperties.UnparsedTimeIsNotIndicated` | main.py:74-84 | a time that does not parse leads to "not indicated", and the plan still runs to counseling |
| `PlanProperties.AntidoteRule` | main.py:88-127 | each antidote block is shown exactly when one of its keywords occurs in the stored toxin, independently of the others |
| `PlanProperties.AntidoteDoses` | main.py:92-127 | acetylcysteine 150/50/100 mg/kg and deferoxamine 5 mg/kg/hr, uncapped; insulin 1 unit/kg; calcium gluconate capped at 20 mL, glucagon at 5 mg, pralidoxime at 2000 mg, naloxone at 2 mg, octreotide at 100 mcg and hydroxocobalamin at 5000 mg; digoxin Fab has no computed dose |
| `PlanProperties.DispositionRule` | main.py:131-137 | admit exactly when one of the four listed symptoms is selected or the stored toxin is non-empty, observe otherwise; psychiatric evaluation exactly when intentional |
| `PlanProperties.DispositionIgnoresIntentAndBreathing` | main.py:131 | dropping "Respiratory distress" and clearing the intentional flag never changes admission |
| `PlanProperties.BlankToxinNoAntidote` | main.py:17 | a blank toxin entry shows no antidote, and only the symptoms can admit |
| `PlanScenarios.DefaultForm` | main.py:13-38 | the form's defaults give exactly ABCD, "not indicated", observation and counseling |
| `PlanScenarios.BlankEntry` | main.py:16-17 | time "unknown" and an empty toxin reach the plan as no hours and no toxin |
| `PlanScenarios.QuietPlan` | main.py:51-143 | with no time, toxin or symptom, the plan is exactly ABCD, "not indicated", observation and counseling, at any age and weight |
| `PlanScenarios.QuietBlocks` | main.py:51-143 | the same plan, block by block |
| `PlanScenarios.SmallLettersKept` | main.py:17 | a word of small letters and hyphens is stored as entered |
| `PlanScenarios.AcetaminophenKey` | main.py:17 | "acetaminophen" is stored as entered |
| `PlanScenarios.IronKey` | main.py:17 | "iron" is stored as entered |
| `PlanScenarios.OneHour` | main.py:76 | "1 hour" reads as 1.0 hours |
| `PlanScenarios.ThreeHours` | main.py:76 | "3 hours" reads as 3.0 hours |
| `PlanScenarios.IronKeywords` | main.py:90-127 | "iron" matches its own keyword and none of the other ten |
| `PlanScenarios.AcetaminophenWithinTheHour` | main.py:80-94 | the form's default age and weight, with the time and toxin its hints suggest: age 5, 20 kg, "1 hour", "acetaminophen". It gives charcoal 20 g, acetylcysteine 3000, 1000 and 2000 mg, and admission |
| `PlanScenarios.AcetaminophenBlocks` | main.py:80-94 | acetaminophen within two hours, with no corrosive or hydrocarbon: charcoal, the three acetylcysteine doses and admission, at any age and weight |
| `PlanScenarios.IronAfterThreeHours` | main.py:80-134 | iron after three hours with vomiting: exactly ABCD, "not indicated", deferoxamine 100 mg/hr at 20 kg, admission and counseling |
| `PlanScenarios.IronBlocks` | main.py:80-134 | the same plan, block by block |
| `PlanScenarios.HypoglycaemicInfant` | main.py:64-67 | an infant with hypoglycaemia: exactly ABCD, the 2.5 mL/kg bolus, "not indicated", observation and counseling |
| `PlanScenarios.InfantOfThreeKilos` | main.py:66-67 | at 3 kg the infant bolus is 7.5 mL of D10W |
| `PlanScenarios.InfantBlocks` | main.py:64-134 | the infant plan, block by block |
| `PlanScenarios.HypoglycemiaDoesNotAdmit` | main.py:131 | "Hypoglycemia" is not one of the symptoms that force admission |
| `PlanScenarios.ShoutedToxinStillMatches` | main.py:17 | " IRON " still brings up deferoxamine, because the entry is stripped and lowered first |
| `PlanScenarios.ShoutedIron` | main.py:17 | lowering " IRON " brings out "iron" |
| `PlanScenarios.HyphenatedBetaBlockerMisses` | main.py:111 | "beta-blocker", with a hyphen, does not match "beta blocker" |
| `PlanScenarios.IronInsideAnotherWord` | main.py:96 | "environmental" holds "iron", so it brings up deferoxamine |

## Left out

- The Streamlit interface is not modelled:
  - page set-up, widgets and layout (main.py:1-38);
  - the placeholder text (main.py:145-146);
  - the footer (main.py:148-161);
  - the urgency styling of each message.

  The widget bounds on age and weight appear as preconditions.
- The prose of each recommendation is not modelled. A block is a `Kind` plus
  its computed doses. The digoxin, atropine and infusion text has no
  `dose_calc` value and carries no dose.
- Dosing.DoseCalc: the `:.1f` rendering of the dose text is not modelled. The
  result keeps the total, the rate and the unit.
- Dosing.DoseCalc: floating-point rounding is not modelled. Doses are exact
  reals, so a product such as 0.6 × weight is the exact value and not the
  rounded double.
- ElapsedTime.ParseFloat: accepts only an optional sign, digits and one
  optional point. Python's `float` also accepts exponents, `inf`, `nan` and
  digit-group underscores, which the model reports as a parse failure.
  Whitespace around the token cannot occur, because `split()` already
  removed it.
- ElapsedTime.ParseFloat: reads only the ASCII digits 0-9. Python's `float`
  accepts any Unicode decimal digit, so "٢ hours" is 2.0 hours in Python
  (charcoal is shown) but no hours in the model ("not indicated").
- ElapsedTime.ParseFloat: the hours are the exact decimal value, not the
  nearest double. Python rounds "2.0000000000000001" to 2.0, so main.py:80
  takes the charcoal branch; the model reads a value above 2 and shows "not
  indicated".
- PyText.LowerChar: lowers only the ASCII capitals. Python's `str.lower`
  also lowers non-ASCII letters, which the model keeps unchanged.
- The time parse at main.py:76 runs inside a `try` with a bare `except:`.
  The model has no exceptions: every failure (IndexError, ValueError) is the
  `None` result of `ParseHours`.
- Python's `sub in s` is modelled as "some index where `sub` occurs"
  (`Substrings.Contains`), not as a search procedure.
- `dose_calc` is called only with a ceiling or with nothing in main.py. The
  floor and the fixed mode are modelled and proved in `Dosing.DoseCalc`, but
  no plan block uses them.
- Behaviour `main.py` does not have, which the model does not add:
  - a floor applied only when the ceiling was not (`dose_calc` applies both,
    one after the other);
  - a "capped" flag or any disclosure that a dose was capped;
  - rejecting weight ≤ 0 (the widget's minimum is 1.0);
  - a corrosive/hydrocarbon contraindication message (the code shows
    nothing in that case);
  - methanol, ethylene glycol and benzodiazepine antidotes;
  - a "no specific antidote" note;
  - counting respiratory distress or the intentional flag towards
    admission.
