/**
 * The patient form loop: for each patient index in turn it collects the
 * inputs, runs the donor risk evaluator and appends one record to the
 * patient list, which is then shown and reported in input order.
 */
module PatientBatch {
  import opened DonorRisk

  /** Bounds the form widgets enforce on one patient: donor age in 0..100
      (DSA >= 0 is carried by its type). */
  predicate WithinWidgetBounds(p: Patient)
  {
    p.donorAge <= 100
  }

  /** The patient list the loop builds: one record per patient, in order. */
  function EvaluateAll(patients: seq<Patient>): (rows: seq<Row>)
    ensures |rows| == |patients|
    ensures forall i | 0 <= i < |patients| :: rows[i] == Evaluate(patients[i])
  {
    if patients == [] then []
    else [Evaluate(patients[0])] + EvaluateAll(patients[1..])
  }

  /** Evaluating one more patient extends the list and leaves the earlier
      records as they were. */
  lemma EvaluateAllAppend(patients: seq<Patient>, p: Patient)
    ensures EvaluateAll(patients + [p]) == EvaluateAll(patients) + [Evaluate(p)]
  {
  }

  /** Evaluating two batches one after the other gives the records of the
      concatenated batch: no record depends on another patient. */
  lemma EvaluateAllConcat(first: seq<Patient>, second: seq<Patient>)
    ensures EvaluateAll(first + second) == EvaluateAll(first) + EvaluateAll(second)
  {
  }

  /** The form loop: `num_pacientes` (at least 1) patients, each appended
      to the list after evaluation. */
  method EvaluateForm(patients: seq<Patient>) returns (rows: seq<Row>)
    requires |patients| >= 1
    requires forall i | 0 <= i < |patients| :: WithinWidgetBounds(patients[i])
    ensures rows == EvaluateAll(patients)
  {
    rows := [];
    for i := 0 to |patients|
      invariant rows == EvaluateAll(patients[..i])
    {
      var row := Evaluate(patients[i]);
      EvaluateAllAppend(patients[..i], patients[i]);
      assert patients[..i + 1] == patients[..i] + [patients[i]];
      rows := rows + [row];
    }
    assert patients[..|patients|] == patients;
  }

  /** A batch of a tier-1 donor, a donor with DSA above 5000 and a donor
      with a single HLA-A mismatch is reported as tiers 1, 3 and 2, in that
      order. */
  lemma ThreePatientBatch(code1: string, code2: string, code3: string)
    ensures
      var none := Mismatches(false, false, false, false, false, false, false);
      var p1 := Patient(code1, 30, A, A, Male, false, 0, none);
      var p2 := Patient(code2, 30, A, A, Male, false, 6000, none);
      var p3 := Patient(code3, 30, A, A, Male, false, 0, none.(a := true));
      var rows := EvaluateAll([p1, p2, p3]);
      |rows| == 3
      && TierNumber(rows[0].priority) == 1
      && TierNumber(rows[1].priority) == 3
      && TierNumber(rows[2].priority) == 2
  {
  }
}
