/** The client-side record store of the health-worker dashboard: the mother
    record, the additive risk score with its three-level label, and the two
    operations that replace the record list (adding a mother, and the bulk
    call simulation that re-derives every label after a call outcome). */
module Risk {
  import opened Common

  datatype RiskLabel = Red | Yellow | Green

  /** 'Answered' | 'Missed (1)' | 'Missed (2+)' | 'N/A' */
  datatype CallStatus = Answered | MissedOnce | MissedTwicePlus | NotCalled

  /** The fields the intake form collects (the record minus its derived and
      context-managed fields); the classifier reads five of them. Weight and
      height are whole numbers here. */
  datatype Details = Details(
    name: string,
    phoneNumber: string,
    age: int,
    lmp: string,
    pregnancyNumber: int,
    weight: int,
    medicalConditions: string,
    phoneType: string,
    previousComplications: string,
    alternateContact: string,
    familyMemberDetails: string,
    height: Option<int>,
    bloodGroup: string,
    specialNotes: string)

  datatype Mother = Mother(
    id: string,
    details: Details,
    edd: string,
    phone: string,
    address: string,
    lastAncDate: string,
    gestationWeeks: int,
    notes: string,
    flagged: bool,
    visited: bool,
    lastCallStatus: CallStatus,
    totalMissedCalls: int,
    riskLabel: RiskLabel)

  // ---------------------------------------------------------------------------
  // The classifier
  // ---------------------------------------------------------------------------

  /** The lower-cased conditions text mentions diabetes or blood pressure. */
  predicate HasMedicalRisk(conditions: string) {
    var c := ToLower(conditions);
    Contains(c, "diabetes") || Contains(c, "bp") || Contains(c, "high pressure")
  }

  function ConditionPoints(conditions: string): int {
    if HasMedicalRisk(conditions) then 3 else 0
  }

  function AgePoints(age: int): int {
    if age < 18 || age > 35 then 2 else 0
  }

  /** More than four pregnancies and a first pregnancy are exclusive cases. */
  function PregnancyPoints(pregnancyNumber: int): int {
    if pregnancyNumber > 4 then 2 else if pregnancyNumber == 1 then 1 else 0
  }

  function ComplicationPoints(previousComplications: string): int {
    if |previousComplications| > 5 then 2 else 0
  }

  function WeightPoints(weight: int): int {
    if weight < 40 || weight > 90 then 1 else 0
  }

  function MissedCallPoints(totalMissedCalls: int): int {
    if totalMissedCalls >= 2 then 2 else if totalMissedCalls == 1 then 1 else 0
  }

  /** Medical risk plus communication risk. */
  function Score(d: Details, totalMissedCalls: int): (r: int)
    ensures 0 <= r <= 12
  {
    ConditionPoints(d.medicalConditions) + AgePoints(d.age)
    + PregnancyPoints(d.pregnancyNumber) + ComplicationPoints(d.previousComplications)
    + WeightPoints(d.weight) + MissedCallPoints(totalMissedCalls)
  }

  /** The combined risk assessment (also exported to the intake form as its
      preview). */
  function DetermineRiskLabel(d: Details, totalMissedCalls: int): (r: RiskLabel)
    ensures r == Red <==> Score(d, totalMissedCalls) >= 4
    ensures r == Yellow <==> 2 <= Score(d, totalMissedCalls) < 4
    ensures r == Green <==> Score(d, totalMissedCalls) < 2
  {
    var score := Score(d, totalMissedCalls);
    if score >= 4 then Red else if score >= 2 then Yellow else Green
  }

  /** The label a full record should carry, given its own missed-call counter. */
  function GetUpdatedRiskLabel(m: Mother): (r: RiskLabel)
    ensures r == Red <==> Score(m.details, m.totalMissedCalls) >= 4
    ensures r == Green <==> Score(m.details, m.totalMissedCalls) < 2
    ensures m.totalMissedCalls >= 2 ==> r != Green
  {
    DetermineRiskLabel(m.details, m.totalMissedCalls)
  }

  /** A record is settled when its stored label is what the classifier gives. */
  predicate Settled(m: Mother) {
    m.riskLabel == GetUpdatedRiskLabel(m)
  }

  predicate AllSettled(ms: seq<Mother>) {
    forall i :: 0 <= i < |ms| ==> Settled(ms[i])
  }

  /** Severity order on labels: Green < Yellow < Red. */
  function Severity(l: RiskLabel): nat {
    match l
    case Green => 0
    case Yellow => 1
    case Red => 2
  }

  // ---------------------------------------------------------------------------
  // Properties of the classifier
  // ---------------------------------------------------------------------------

  /** Lower-casing commutes with taking a slice. */
  lemma {:induction false} ToLowerSlice(s: string, i: nat, j: nat)
    requires i <= j <= |s|
    ensures ToLower(s)[i..j] == ToLower(s[i..j])
  {
    var a, b := ToLower(s)[i..j], ToLower(s[i..j]);
    forall k | 0 <= k < |a| ensures a[k] == b[k] {
      assert a[k] == ToLower(s)[i + k] && s[i..j][k] == s[i + k];
    }
  }

  /** A risk token found at any offset, in any letter case, counts as medical
      risk. */
  lemma {:induction false} RiskTokenAnyCase(conditions: string, k: nat, token: string)
    requires token == "diabetes" || token == "bp" || token == "high pressure"
    requires k + |token| <= |conditions|
    requires ToLower(conditions[k..k + |token|]) == token
    ensures HasMedicalRisk(conditions)
  {
    ToLowerSlice(conditions, k, k + |token|);
    ContainsAt(ToLower(conditions), token, k);
  }

  /** Medical risk alone adds 3, so such a mother is never Green, whatever her
      call history. */
  lemma MedicalRiskNeverGreen(d: Details, totalMissedCalls: int)
    requires HasMedicalRisk(d.medicalConditions)
    ensures Score(d, totalMissedCalls) >= 3
    ensures DetermineRiskLabel(d, totalMissedCalls) != Green
  {
  }

  /** The age band is inclusive at both ends. */
  lemma AgeBoundaries()
    ensures AgePoints(18) == 0 && AgePoints(35) == 0
    ensures AgePoints(17) == 2 && AgePoints(36) == 2
  {
  }

  /** The label never becomes less severe as missed calls accumulate. */
  lemma MissedCallsMonotone(d: Details, a: int, b: int)
    requires a <= b
    ensures Severity(DetermineRiskLabel(d, a)) <= Severity(DetermineRiskLabel(d, b))
  {
  }

  /** The communication term saturates: two or more missed calls all score
      the same. */
  lemma MissedCallsSaturate(d: Details, n: int)
    requires n >= 2
    ensures MissedCallPoints(n) == 2
    ensures DetermineRiskLabel(d, n) == DetermineRiskLabel(d, 2)
  {
  }

  // ---------------------------------------------------------------------------
  // Record updates
  // ---------------------------------------------------------------------------

  /** One mother's record after one simulated call: an answer clears the
      missed-call counter, a miss increments it; the status follows the
      counter and the label is re-derived. Nothing else changes. */
  function AfterCall(m: Mother, didAnswer: bool): (r: Mother)
    ensures r == m.(totalMissedCalls := r.totalMissedCalls,
                    lastCallStatus := r.lastCallStatus, riskLabel := r.riskLabel)
    ensures didAnswer ==> r.totalMissedCalls == 0 && r.lastCallStatus == Answered
    ensures !didAnswer ==> r.totalMissedCalls == m.totalMissedCalls + 1
    ensures !didAnswer ==> (r.lastCallStatus == MissedTwicePlus <==> r.totalMissedCalls >= 2)
    ensures !didAnswer ==> (r.lastCallStatus == MissedOnce <==> r.totalMissedCalls < 2)
    ensures r.lastCallStatus != NotCalled
    ensures Settled(r)
  {
    var newTotalMissedCalls := if didAnswer then 0 else m.totalMissedCalls + 1;
    var newLastCallStatus :=
      if didAnswer then Answered
      else if newTotalMissedCalls >= 2 then MissedTwicePlus
      else MissedOnce;
    var updated := m.(totalMissedCalls := newTotalMissedCalls, lastCallStatus := newLastCallStatus);
    updated.(riskLabel := GetUpdatedRiskLabel(updated))
  }

  /** The record `addMother` builds from the intake details; `id` stands for
      the timestamp id, `edd` for the computed due date and `today` for the
      current date. */
  function NewMother(details: Details, id: string, edd: string, today: string): (r: Mother)
    ensures r.id == id && r.details == details && r.edd == edd
    ensures r.phone == details.phoneNumber
    ensures r.address == "Address needed" && r.lastAncDate == today
    ensures r.gestationWeeks == 12 && r.notes == ""
    ensures !r.flagged && !r.visited
    ensures r.lastCallStatus == NotCalled && r.totalMissedCalls == 0
    ensures r.riskLabel == DetermineRiskLabel(details, 0)
    ensures Settled(r)
  {
    Mother(id, details, edd, details.phoneNumber, "Address needed", today, 12, "",
           false, false, NotCalled, 0, DetermineRiskLabel(details, 0))
  }

  /** The initial records of the store, with the labels written into them. */
  function SeedMothers(): (r: seq<Mother>)
    ensures |r| == 3
  {
    [ Mother("m-1",
        Details("Priya Sharma", "9876543210", 28, "2025-05-01", 2, 65, "", "Smartphone", "",
                "9876543211", "Husband: Rajesh", Some(160), "O+", "Happy to walk."),
        "2026-02-08", "9876543210", "123 Gandhi St, Anna Nagar, Chennai", "2025-11-20", 28,
        "Patient has no major issues. Stable blood pressure.", false, true, Answered, 0, Green),
      Mother("m-2",
        Details("Lalita Devi", "8888877777", 36, "2025-04-10", 3, 78, "High BP, Diabetes", "Basic",
                "Pre-eclampsia in last pregnancy", "8888877778", "Mother: Sunita", Some(155), "A-",
                "Needs frequent check-ups."),
        "2026-01-17", "8888877777", "45/A, Nehru Colony, Adyar, Chennai", "2025-11-01", 34,
        "Struggling with medication adherence. Needs home visit ASAP.", true, false,
        MissedTwicePlus, 3, Red),
      Mother("m-3",
        Details("Geeta Singh", "7777766666", 22, "2025-06-15", 1, 42, "None", "Smartphone", "",
                "7777766667", "Sister: Aarti", Some(168), "B+", "First time mom, anxious."),
        "2026-03-22", "7777766666", "60, Market Road, T Nagar, Chennai", "2025-11-25", 24,
        "Weight is low, advised high protein diet.", false, true, Answered, 0, Yellow) ]
  }

  /** The seed record m-2 scores 3 + 2 + 0 + 2 + 0 + 2 = 9 and is Red. */
  lemma SeedLalitaRed()
    ensures Score(SeedMothers()[1].details, 3) == 9
    ensures Settled(SeedMothers()[1])
  {
    var m := SeedMothers()[1];
    var c := m.details.medicalConditions;
    assert HasMedicalRisk(c) by {
      assert c[5..7] == "BP";
      assert ToLower("BP") == "bp";
      RiskTokenAnyCase(c, 5, "bp");
    }
    assert Score(m.details, 3) == 9;
  }

  /** The seed record m-3 is stored as Yellow, but scores 1 (first pregnancy
      only) and so the classifier gives Green: the seed list does not satisfy
      the label invariant that every later update re-establishes. */
  lemma SeedGeetaUnsettled()
    ensures Score(SeedMothers()[2].details, 0) == 1
    ensures GetUpdatedRiskLabel(SeedMothers()[2]) == Green
    ensures !Settled(SeedMothers()[2])
  {
    var c := SeedMothers()[2].details.medicalConditions;
    assert ToLower(c) == "none";
    assert !HasMedicalRisk(c);
  }

  /** The store of mother records behind the dashboard. */
  class MotherStore {
    var mothers: seq<Mother>

    constructor ()
      ensures mothers == SeedMothers()
    {
      mothers := SeedMothers();
    }

    /** Appends one new record, labelled by the classifier with no missed
        calls. */
    method AddMother(details: Details, id: string, edd: string, today: string)
      modifies this
      ensures |mothers| == |old(mothers)| + 1
      ensures mothers[..|old(mothers)|] == old(mothers)
      ensures mothers[|old(mothers)|] == NewMother(details, id, edd, today)
      ensures Settled(mothers[|old(mothers)|])
    {
      var newMother := NewMother(details, id, edd, today);
      mothers := mothers + [newMother];
    }

    /** Calls every mother once; `answers[i]` is whether mother `i` picks up
        (the random draw of the source). Length and order are kept, every
        record is updated by `AfterCall`, and afterwards every label agrees
        with the classifier, including records that did not before. */
    method SimulateBulkCall(answers: seq<bool>)
      requires |answers| == |mothers|
      modifies this
      ensures |mothers| == |old(mothers)|
      ensures forall i :: 0 <= i < |mothers| ==> mothers[i] == AfterCall(old(mothers)[i], answers[i])
      ensures forall i :: 0 <= i < |mothers| ==> mothers[i].id == old(mothers)[i].id
      ensures AllSettled(mothers)
    {
      var updated: seq<Mother> := [];
      var i := 0;
      while i < |mothers|
        invariant 0 <= i <= |mothers|
        invariant |updated| == i
        invariant forall k :: 0 <= k < i ==> updated[k] == AfterCall(mothers[k], answers[k])
      {
        updated := updated + [AfterCall(mothers[i], answers[i])];
        i := i + 1;
      }
      mothers := updated;
    }
  }
}
