# HLA donor-selection tool: donor risk evaluator

This project models the scoring core of the HLA compatibility evaluator, a
Streamlit tool for haematopoietic transplant teams. For each patient/donor
pair the form collects:

- the donor's age, sex and ABO group;
- the recipient's ABO group;
- the DSA level (donor-specific antibodies, in MFI);
- seven HLA checkboxes: mismatches at A, B, C, DRB1 and DQB1, a
  non-permissive DPB1 mismatch, and the HLA-B leader T/T polymorphism.

A chain of first-match-wins rules then gives:

- the GVHD, relapse and engraftment-failure risks ("Bajo", "Intermedio", "Alto");
- the DSA status;
- the ABO compatibility;
- a priority tier 1/2/3;
- one of four recommendations: avoid the donor, seek alternatives, evaluate
  in committee, or proceed.

The form loop evaluates the patients in order and appends one record per
patient to the patient list.

The same scoring block occurs twice: at the top level of
`hla_compatibility_app.py` (lines 93-155) and inside
`ejecutar_formulario_completo` in `hla_donor_core.py` (lines 30-92). The two
copies differ only in the wording of the "avoid" recommendation. The app's
text adds a sentence about desensitisation; the recommendation kind is the
same. The model defines the evaluator once:

- `donor_risk.dfy`, module `DonorRisk`: the value types, one function per
  scoring step, the whole evaluation `Evaluate`, and lemmas relating the
  outputs to the inputs and to each other.
- `patient_batch.dfy`, module `PatientBatch`: the form loop as a method
  `EvaluateForm` that appends to a sequence. It is proved against the
  function `EvaluateAll`, which gives one record per patient in input order.

Categorical values are enumerations. The risk, ABO and DSA-status strings of
the program are given by label functions, which are proved injective.
Priorities and recommendations are kinds; their bilingual texts are not
modelled. Python integers are unbounded, as are Dafny's `nat`, so no
wrap-around is involved.

Notes on what the code does:

- The DSA status ("Negativo" / "Positivo (>2000 MFI)") is computed but not
  stored in the appended record. It is the standalone function `DsaStatusOf`,
  and the record type `Row` has no field for it.
- The record keeps the patient code, donor age and DSA value next to the
  derived classifications, as the appended dictionary does.
- The "donor has children" answer is collected but never used. This is proved
  (`CodeAndChildrenOnlyCopied`).
- No evaluation-time error exists. The widgets bound the inputs: age in
  0..100, DSA >= 0, at least one patient. Age >= 0 and DSA >= 0 come from the
  `nat` type of those fields; age <= 100 and at least one patient are the
  preconditions of `EvaluateForm`.

Two consequences of the rule order are proved:

- The "avoid" rule's test "engraftment risk Alto" is redundant: the avoid
  recommendation is chosen exactly when DSA > 5000.
- The tier-1 test "not leader T/T" is redundant, because a low GVHD risk
  already rules out leader T/T (`OptimalIff`).

The priority tier is not monotone in GVHD risk. A donor over 50 with no
mismatch is tier 3, while the same donor with one HLA-A mismatch is tier 2
(`PriorityNotMonotoneInGvhd`). This is stated as a property of the rules as
written. Whether it is intended is not known, so it is not reported as a
defect.

## Model

| member | source | states |
|---|---|---|
| `DonorRisk.CountTrue` | hla_compatibility_app.py:94-96 | the `sum` of the locus flags is at most their number, is 0 exactly when no flag is set, and equals their number exactly when all are set |
| `DonorRisk.GvhdRisk` | hla_compatibility_app.py:93-97 | GVHD risk is Bajo exactly when none of the seven flags is set. It is Intermedio exactly when no escalator (B, DRB1, DPB1 non-permissive, leader T/T) is set and exactly one of A, C, DQB1 is. It is Alto exactly when an escalator is set or two or more of A, C, DQB1 are |
| `DonorRisk.GvhdByCount` | hla_compatibility_app.py:94-97 | one counted mismatch without escalators gives Intermedio; two or more counted mismatches give Alto, whichever loci they are |
| `DonorRisk.GvhdMonotone` | hla_compatibility_app.py:93-97 | adding mismatches never lowers GVHD risk |
| `DonorRisk.RelapseRisk` | hla_compatibility_app.py:99 | relapse risk is Bajo iff GVHD risk is Bajo; otherwise Intermedio iff age < 40 and Alto iff age >= 40 |
| `DonorRisk.RelapseMonotoneInAge` | hla_compatibility_app.py:99 | an older donor never has a lower relapse risk for the same GVHD risk |
| `DonorRisk.EngraftmentRisk` | hla_compatibility_app.py:101-107 | engraftment risk is Alto iff DSA > 5000 or (groups differ and age > 45); Intermedio iff DSA <= 5000, groups differ and age <= 45; Bajo iff DSA <= 5000 and groups are equal |
| `DonorRisk.DsaStatusOf` | hla_compatibility_app.py:109-111 | DSA status is positive iff DSA > 2000, so always positive when DSA > 5000 |
| `DonorRisk.AboOf` | hla_compatibility_app.py:152 | ABO is Compatible iff donor group equals recipient group |
| `DonorRisk.AboSymmetric` | hla_donor_core.py:89 | ABO compatibility is unchanged by swapping donor and recipient groups |
| `DonorRisk.Priority` | hla_compatibility_app.py:113-121 | DSA > 5000 forces tier 3. Tier 1 iff DSA <= 5000, GVHD Bajo, age <= 35, no leader T/T, equal groups and male donor. Tier 3 iff DSA > 5000 or (age > 50 and GVHD not Intermedio) |
| `DonorRisk.Recommend` | hla_compatibility_app.py:123-143 | avoid iff engraftment Alto and DSA > 5000. Otherwise: seek alternatives iff GVHD Alto, committee iff Intermedio, proceed iff Bajo |
| `DonorRisk.Evaluate` | hla_donor_core.py:30-92 | the record copies code, age and DSA. Its recommendation is "avoid" iff DSA > 5000, and then priority is 3 and engraftment Alto. A tier-1 record has recommendation "proceed", engraftment Bajo, relapse Bajo and ABO Compatible |
| `DonorRisk.OptimalIff` | hla_compatibility_app.py:93-121 | tier 1 iff DSA <= 5000, no HLA flag set, age <= 35, equal groups and male donor |
| `DonorRisk.OptimalIsFragile` | hla_compatibility_app.py:114-117 | from a tier-1 donor, raising age above 35, a female donor, a different donor group or leader T/T leaves tier 1; DSA > 5000 gives tier 3 |
| `DonorRisk.PriorityNotMonotoneInGvhd` | hla_donor_core.py:50-58 | a donor over 50 with no mismatch and DSA <= 5000 is tier 3; the same donor with an added HLA-A mismatch is GVHD Intermedio and tier 2 |
| `DonorRisk.CodeAndChildrenOnlyCopied` | hla_donor_core.py:14-92 | the "donor has children" answer does not affect the record; the patient code is only copied into it |
| `DonorRisk.LabelsInjective` | hla_compatibility_app.py:93-111 | distinct risk, DSA-status and ABO values have distinct labels, so the program's string comparisons are comparisons of the values |
| `PatientBatch.EvaluateAll` | hla_compatibility_app.py:70-155 | the patient list has one record per patient, and its i-th record is the evaluation of the i-th patient |
| `PatientBatch.EvaluateAllAppend` | hla_donor_core.py:82-92 | appending the next patient's record extends the list and leaves earlier records unchanged |
| `PatientBatch.EvaluateAllConcat` | hla_compatibility_app.py:75-155 | the records of a concatenated batch are the records of its parts, concatenated: no record depends on another patient |
| `PatientBatch.EvaluateForm` | hla_donor_core.py:7-92 | the loop over at least one patient within the widget bounds returns exactly the list `EvaluateAll` describes |
| `PatientBatch.ThreePatientBatch` | hla_donor_core.py:12-92 | a batch of a tier-1 donor, a DSA-6000 donor and a single-A-mismatch donor yields tiers 1, 3, 2 in that order |

## Left out

- Widget calls, page configuration, CSS and markdown output: UI input
  collection. Their bounds appear only as the `nat` types of age and DSA
  and as the preconditions of `EvaluateForm`.
- The language selector `T(es, en)` and the bilingual texts of priorities and
  recommendations. They are presentation; the model returns the kinds. The
  desensitisation sentence that only the app's "avoid" text carries is part
  of that text.
- Logo loading and base64 encoding: file I/O.
- PDF generation, the risk colour map, the `/tmp` file and the download link:
  presentation and I/O through a foreign library.
- The fixed evidence reference table of `hla_donor_core.py` and its rendering
  to PNG: static literature data with no computation, then file output.
- The pandas DataFrame construction and display: a library wrapper.
- The date string `fecha`: it depends only on the system clock.
