/**
 * Donor risk evaluator of the HLA donor-selection tool.
 *
 * For one patient/donor pair it derives, by first-match-wins rule chains,
 * the GVHD, relapse and engraftment-failure risks, the DSA status, the ABO
 * compatibility, a priority tier and one of four clinical recommendations.
 * The categorical values that the program keeps as strings ("Bajo",
 * "Intermedio", "Alto", "Compatible", ...) are enumerations here; the
 * strings themselves are recovered by the label functions at the end.
 */
module DonorRisk {

  /** The four ABO groups offered for donor and recipient. */
  datatype BloodGroup = A | B | AB | O

  /** Donor sex: "Masculino" or "Femenino". */
  datatype Sex = Male | Female

  /** A risk level, ordered "Bajo" < "Intermedio" < "Alto". */
  datatype Risk = Low | Intermediate | High

  /** "Negativo" or "Positivo (>2000 MFI)". */
  datatype DsaStatus = Negative | Positive

  datatype AboCompatibility = Compatible | Incompatible

  /** Priority 1 (optimal donor), 2 (acceptable donor), 3 (suboptimal donor). */
  datatype Tier = Optimal | Acceptable | Suboptimal

  /** The four recommendation texts, by kind: avoid this donor (high DSA),
      seek alternatives, evaluate in committee, proceed. */
  datatype Recommendation = Avoid | SeekAlternatives | Committee | Proceed

  /** The seven HLA checkboxes: mismatch at A, B, C, DRB1, DQB1, a
      non-permissive DPB1 mismatch, and the HLA-B leader T/T polymorphism. */
  datatype Mismatches = Mismatches(
    a: bool, b: bool, c: bool, drb1: bool, dqb1: bool,
    dpb1NonPermissive: bool, leaderTT: bool)

  /** What the form collects for one patient. Age and DSA (MFI) are
      non-negative integers; the age widget also caps the age at 100. */
  datatype Patient = Patient(
    code: string,
    donorAge: nat,
    donorGroup: BloodGroup,
    recipientGroup: BloodGroup,
    donorSex: Sex,
    donorHasChildren: bool,
    dsa: nat,
    hla: Mismatches)

  /** The record appended to the patient list: the code, age and DSA copied
      from the input, and the derived classifications. */
  datatype Row = Row(
    code: string,
    donorAge: nat,
    dsa: nat,
    gvhd: Risk,
    relapse: Risk,
    engraftment: Risk,
    abo: AboCompatibility,
    priority: Tier,
    recommendation: Recommendation)

  /** DSA above this MFI is reported positive. */
  const PositiveMfi := 2000
  /** DSA above this MFI makes engraftment risk high, priority 3 and the
      donor one to avoid. */
  const AvoidMfi := 5000

  /** Position of a risk level in the order Low < Intermediate < High. */
  function Rank(r: Risk): nat
  {
    match r
    case Low => 0
    case Intermediate => 1
    case High => 2
  }

  /** The number printed with the priority label. */
  function TierNumber(t: Tier): nat
  {
    match t
    case Optimal => 1
    case Acceptable => 2
    case Suboptimal => 3
  }

  /** Number of true flags, as Python's `sum` over a list of booleans. */
  function CountTrue(flags: seq<bool>): (n: nat)
    ensures n <= |flags|
    ensures n == 0 <==> forall i | 0 <= i < |flags| :: !flags[i]
    ensures n == |flags| <==> forall i | 0 <= i < |flags| :: flags[i]
  {
    if flags == [] then 0
    else
      var rest := CountTrue(flags[1..]);
      assert forall i | 1 <= i < |flags| :: flags[i] == flags[1..][i - 1];
      (if flags[0] then 1 else 0) + rest
  }

  /** The five loci whose mismatches are counted. */
  function LocusFlags(m: Mismatches): seq<bool>
  {
    [m.a, m.b, m.c, m.drb1, m.dqb1]
  }

  function Bit(x: bool): nat
  {
    if x then 1 else 0
  }

  lemma LocusCount(m: Mismatches)
    ensures CountTrue(LocusFlags(m)) == Bit(m.a) + Bit(m.b) + Bit(m.c) + Bit(m.drb1) + Bit(m.dqb1)
  {
    var s := LocusFlags(m);
    assert s[1..] == [m.b, m.c, m.drb1, m.dqb1];
    assert s[2..] == s[1..][1..] == [m.c, m.drb1, m.dqb1];
    assert s[3..] == s[2..][1..] == [m.drb1, m.dqb1];
    assert s[4..] == s[3..][1..] == [m.dqb1];
    assert CountTrue(s[4..]) == Bit(m.dqb1);
    assert CountTrue(s[3..]) == Bit(m.drb1) + Bit(m.dqb1);
    assert CountTrue(s[2..]) == Bit(m.c) + Bit(m.drb1) + Bit(m.dqb1);
    assert CountTrue(s[1..]) == Bit(m.b) + Bit(m.c) + Bit(m.drb1) + Bit(m.dqb1);
  }

  /** A mismatch that by itself makes GVHD risk high. */
  predicate HasEscalator(m: Mismatches)
  {
    m.b || m.drb1 || m.dpb1NonPermissive || m.leaderTT
  }

  predicate NoMismatch(m: Mismatches)
  {
    !m.a && !m.b && !m.c && !m.drb1 && !m.dqb1 && !m.dpb1NonPermissive && !m.leaderTT
  }

  /** GVHD risk. Since B and DRB1 are escalators, an intermediate
      risk can only come from a lone A, C or DQB1 mismatch. */
  function GvhdRisk(m: Mismatches): (r: Risk)
    ensures r == Low <==> NoMismatch(m)
    ensures r == Intermediate <==>
      !HasEscalator(m) && Bit(m.a) + Bit(m.c) + Bit(m.dqb1) == 1
    ensures r == High <==>
      HasEscalator(m) || Bit(m.a) + Bit(m.c) + Bit(m.dqb1) >= 2
  {
    var count := CountTrue(LocusFlags(m));
    LocusCount(m);
    if m.drb1 || m.b || m.dpb1NonPermissive || m.leaderTT || count >= 2 then High
    else if count == 1 then Intermediate
    else Low
  }

  /** Relapse risk, from GVHD risk and donor age. */
  function RelapseRisk(gvhd: Risk, donorAge: nat): (r: Risk)
    ensures r == Low <==> gvhd == Low
    ensures r == Intermediate <==> gvhd != Low && donorAge < 40
    ensures r == High <==> gvhd != Low && donorAge >= 40
  {
    if gvhd == Low then Low else if donorAge < 40 then Intermediate else High
  }

  /** Engraftment-failure risk. The DSA test comes first, so the
      blood-group and age tests only matter when DSA is at most 5000. */
  function EngraftmentRisk(dsa: nat, donorGroup: BloodGroup, recipientGroup: BloodGroup,
                           donorAge: nat): (r: Risk)
    ensures r == High <==> dsa > AvoidMfi || (donorGroup != recipientGroup && donorAge > 45)
    ensures r == Intermediate <==> dsa <= AvoidMfi && donorGroup != recipientGroup && donorAge <= 45
    ensures r == Low <==> dsa <= AvoidMfi && donorGroup == recipientGroup
  {
    if dsa > AvoidMfi then High
    else if donorGroup != recipientGroup && donorAge > 45 then High
    else if donorGroup != recipientGroup then Intermediate
    else Low
  }

  /** DSA status, independent of the engraftment risk. */
  function DsaStatusOf(dsa: nat): (s: DsaStatus)
    ensures s == Positive <==> dsa > PositiveMfi
    ensures dsa > AvoidMfi ==> s == Positive
  {
    if dsa > PositiveMfi then Positive else Negative
  }

  /** ABO compatibility, as written into the appended record. */
  function AboOf(donorGroup: BloodGroup, recipientGroup: BloodGroup): (c: AboCompatibility)
    ensures c == Compatible <==> donorGroup == recipientGroup
  {
    if donorGroup == recipientGroup then Compatible else Incompatible
  }

  /** Priority tier, first matching rule wins. Tier 3 arises only
      from a high DSA, or from an age above 50 (which also rules out tier 1)
      with a GVHD risk other than intermediate. */
  function Priority(dsa: nat, gvhd: Risk, donorAge: nat, leaderTT: bool,
                    donorGroup: BloodGroup, recipientGroup: BloodGroup, donorSex: Sex): (t: Tier)
    ensures dsa > AvoidMfi ==> t == Suboptimal
    ensures t == Optimal <==>
      dsa <= AvoidMfi && gvhd == Low && donorAge <= 35 && !leaderTT
      && donorGroup == recipientGroup && donorSex == Male
    ensures t == Suboptimal <==> dsa > AvoidMfi || (donorAge > 50 && gvhd != Intermediate)
  {
    if dsa > AvoidMfi then Suboptimal
    else if gvhd == Low && donorAge <= 35 && !leaderTT && donorGroup == recipientGroup && donorSex == Male then Optimal
    else if gvhd == Intermediate || donorAge <= 50 then Acceptable
    else Suboptimal
  }

  /** Recommendation kind, first matching rule wins. */
  function Recommend(engraftment: Risk, dsa: nat, gvhd: Risk): (r: Recommendation)
    ensures r == Avoid <==> engraftment == High && dsa > AvoidMfi
    ensures r != Avoid ==>
      (r == SeekAlternatives <==> gvhd == High)
      && (r == Committee <==> gvhd == Intermediate)
      && (r == Proceed <==> gvhd == Low)
  {
    if engraftment == High && dsa > AvoidMfi then Avoid
    else if gvhd == High then SeekAlternatives
    else if gvhd == Intermediate then Committee
    else assert gvhd == Low; Proceed
  }

  /** The whole scoring block for one patient: the record that is appended. */
  function Evaluate(p: Patient): (row: Row)
    ensures row.code == p.code && row.donorAge == p.donorAge && row.dsa == p.dsa
    ensures row.recommendation == Avoid <==> p.dsa > AvoidMfi
    ensures p.dsa > AvoidMfi ==> row.priority == Suboptimal && row.engraftment == High
    ensures row.priority == Optimal ==>
      row.recommendation == Proceed && row.engraftment == Low && row.relapse == Low
      && row.abo == Compatible
  {
    var gvhd := GvhdRisk(p.hla);
    var relapse := RelapseRisk(gvhd, p.donorAge);
    var engraftment := EngraftmentRisk(p.dsa, p.donorGroup, p.recipientGroup, p.donorAge);
    var priority := Priority(p.dsa, gvhd, p.donorAge, p.hla.leaderTT,
                             p.donorGroup, p.recipientGroup, p.donorSex);
    var recommendation := Recommend(engraftment, p.dsa, gvhd);
    Row(p.code, p.donorAge, p.dsa, gvhd, relapse, engraftment,
        AboOf(p.donorGroup, p.recipientGroup), priority, recommendation)
  }

  /** Tier 1 in terms of the inputs alone. The leader T/T condition of the
      tier-1 rule is already implied by a low GVHD risk. */
  lemma OptimalIff(p: Patient)
    ensures Evaluate(p).priority == Optimal <==>
      p.dsa <= AvoidMfi && NoMismatch(p.hla) && p.donorAge <= 35
      && p.donorGroup == p.recipientGroup && p.donorSex == Male
  {
  }

  /** Changing any single tier-1 condition of a tier-1 donor moves it out
      of tier 1. */
  lemma OptimalIsFragile(p: Patient, age: nat, sex: Sex, group: BloodGroup, dsa: nat)
    requires Evaluate(p).priority == Optimal
    ensures age > 35 ==> Evaluate(p.(donorAge := age)).priority != Optimal
    ensures sex != Male ==> Evaluate(p.(donorSex := sex)).priority != Optimal
    ensures group != p.recipientGroup ==> Evaluate(p.(donorGroup := group)).priority != Optimal
    ensures dsa > AvoidMfi ==> Evaluate(p.(dsa := dsa)).priority == Suboptimal
    ensures Evaluate(p.(hla := p.hla.(leaderTT := true))).priority != Optimal
  {
  }

  /** A single counted mismatch without escalators gives intermediate risk;
      any two counted mismatches give high risk, whichever loci they are. */
  lemma GvhdByCount(m: Mismatches)
    ensures !HasEscalator(m) && CountTrue(LocusFlags(m)) == 1 ==> GvhdRisk(m) == Intermediate
    ensures CountTrue(LocusFlags(m)) >= 2 ==> GvhdRisk(m) == High
  {
    LocusCount(m);
  }

  /** Flag-wise order on mismatch records: every mismatch of `m` is also
      one of `n`. */
  predicate SubsumedBy(m: Mismatches, n: Mismatches)
  {
    (m.a ==> n.a) && (m.b ==> n.b) && (m.c ==> n.c) && (m.drb1 ==> n.drb1)
    && (m.dqb1 ==> n.dqb1) && (m.dpb1NonPermissive ==> n.dpb1NonPermissive)
    && (m.leaderTT ==> n.leaderTT)
  }

  /** Adding mismatches never lowers GVHD risk. */
  lemma GvhdMonotone(m: Mismatches, n: Mismatches)
    requires SubsumedBy(m, n)
    ensures Rank(GvhdRisk(m)) <= Rank(GvhdRisk(n))
  {
  }

  /** An older donor never has a lower relapse risk. */
  lemma RelapseMonotoneInAge(gvhd: Risk, younger: nat, older: nat)
    requires younger <= older
    ensures Rank(RelapseRisk(gvhd, younger)) <= Rank(RelapseRisk(gvhd, older))
  {
  }

  /** ABO compatibility does not depend on which side is donor. */
  lemma AboSymmetric(x: BloodGroup, y: BloodGroup)
    ensures AboOf(x, y) == AboOf(y, x)
  {
  }

  /** The "donor has children" answer plays no part in the evaluation, and
      the patient code is only copied into the record. */
  lemma CodeAndChildrenOnlyCopied(p: Patient, code: string, hasChildren: bool)
    ensures Evaluate(p.(donorHasChildren := hasChildren)) == Evaluate(p)
    ensures Evaluate(p.(code := code)) == Evaluate(p).(code := code)
  {
  }

  /** The priority tier is not monotone in GVHD risk: a donor over 50 with
      no mismatch is tier 3, while the same donor with one extra HLA-A
      mismatch (GVHD intermediate) is tier 2. */
  lemma PriorityNotMonotoneInGvhd(p: Patient)
    requires p.dsa <= AvoidMfi && p.donorAge > 50 && NoMismatch(p.hla)
    ensures Evaluate(p).priority == Suboptimal
    ensures GvhdRisk(p.hla.(a := true)) == Intermediate
    ensures Evaluate(p.(hla := p.hla.(a := true))).priority == Acceptable
  {
  }

  /** The risk strings stored in the record and keyed in the colour map. */
  function RiskLabel(r: Risk): string
  {
    match r
    case Low => "Bajo"
    case Intermediate => "Intermedio"
    case High => "Alto"
  }

  function DsaStatusLabel(s: DsaStatus): string
  {
    match s
    case Negative => "Negativo"
    case Positive => "Positivo (>2000 MFI)"
  }

  function AboLabel(c: AboCompatibility): string
  {
    match c
    case Compatible => "Compatible"
    case Incompatible => "Incompatible"
  }

  /** Distinct values have distinct labels, so comparing labels (as the
      program does) is comparing the enumerated values. */
  lemma LabelsInjective(r1: Risk, r2: Risk, s1: DsaStatus, s2: DsaStatus,
                        c1: AboCompatibility, c2: AboCompatibility)
    ensures RiskLabel(r1) == RiskLabel(r2) ==> r1 == r2
    ensures DsaStatusLabel(s1) == DsaStatusLabel(s2) ==> s1 == s2
    ensures AboLabel(c1) == AboLabel(c2) ==> c1 == c2
  {
  }
}
