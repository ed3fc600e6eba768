/** Plans, records and reviews of the B/C study, with the checks that their
    constructors make. */
module QmsumPlan {
  import opened Outcome

  datatype Arm = B | C

  /** A question identity that has already been matched against the frozen form. */
  datatype QuestionId = QuestionId(meeting: string, query: nat)

  type Key = (QuestionId, Arm)

  /** What the context budget policy answers. */
  datatype Admission = Admission(available: int, estimated: int, truncated: bool, messages: nat)

  datatype PlannedArm = PlannedArm(arm: Arm, order: int, admitted: Admission, candidate: Option<string>)

  datatype CaseStatus =
    | BReadyCNotApplicable
    | BReadyCReady
    | BBlocked
    | CBlocked
    | CSummaryInvalid
    | Excluded

  datatype PlannedCase = PlannedCase(id: QuestionId, status: CaseStatus, arms: seq<PlannedArm>, reason: Option<string>)

  datatype ArmOrder = ArmOrder(id: QuestionId, first: Arm, second: Arm)

  datatype Plan = Plan(cases: seq<PlannedCase>, orders: seq<ArmOrder>)

  const QUESTION_COUNT := 12
  const COMMITTEE_REASON := "COMMITTEE_EXCLUDED_FROM_ONLINE_EXPERIMENT"

  predicate ValidArm(a: PlannedArm) {
    && a.order >= 1
    && (a.arm == B ==> a.candidate.None?)
    && (a.arm == C ==> a.candidate.Some? && a.candidate.value != "")
  }

  function ArmsOf(arms: seq<PlannedArm>): set<Arm> {
    set a | a in arms :: a.arm
  }

  function UpTo(n: nat): set<int> {
    if n == 0 then {} else UpTo(n - 1) + {n}
  }

  predicate HasReason(c: PlannedCase) {
    c.reason.Some? && c.reason.value != ""
  }

  /** The checks of a planned case, in the order of its constructor. */
  predicate ValidCase(c: PlannedCase) {
    var named := ArmsOf(c.arms);
    && (forall i :: 0 <= i < |c.arms| ==> ValidArm(c.arms[i]))
    && (match c.status
        case BReadyCNotApplicable => B in named && C !in named && c.reason.None?
        case BReadyCReady => B in named && C in named && c.reason.None?
        case CSummaryInvalid => c.arms == [] && HasReason(c)
        case Excluded => c.arms == [] && c.reason == Some(COMMITTEE_REASON)
        case BBlocked => HasReason(c) && c.arms == []
        case CBlocked => HasReason(c) && named == {B})
    && (c.arms != [] ==> named == {B} || named == {B, C})
    && |c.arms| == |named|
    && (set a | a in c.arms :: a.order) == UpTo(|c.arms|)
    && (forall i, j :: 0 <= i < j < |c.arms| ==> c.arms[i].order <= c.arms[j].order)
  }

  predicate DistinctIds(cases: seq<PlannedCase>) {
    forall i, j :: 0 <= i < j < |cases| ==> cases[i].id != cases[j].id
  }

  function OrderedIds(orders: seq<ArmOrder>): set<QuestionId> {
    set o | o in orders :: o.id
  }

  function CaseIds(cases: seq<PlannedCase>): set<QuestionId> {
    set c | c in cases :: c.id
  }

  /** A plan for any number of questions. */
  predicate LegalPlan(plan: Plan) {
    && (forall i :: 0 <= i < |plan.cases| ==> ValidCase(plan.cases[i]))
    && DistinctIds(plan.cases)
    && OrderedIds(plan.orders) == CaseIds(plan.cases)
  }

  predicate ValidPlan(plan: Plan) {
    LegalPlan(plan) && |plan.cases| == QUESTION_COUNT
  }

  // ------------------------------------------------------------ planned arms

  function CaseKeys(id: QuestionId, arms: seq<PlannedArm>): (keys: seq<Key>)
    ensures |keys| == |arms|
    ensures forall i :: 0 <= i < |arms| ==> keys[i] == (id, arms[i].arm)
  {
    if arms == [] then [] else [(id, arms[0].arm)] + CaseKeys(id, arms[1..])
  }

  /** The arms of a plan in the order in which they are executed. */
  function PlannedKeys(cases: seq<PlannedCase>): seq<Key> {
    if cases == [] then [] else CaseKeys(cases[0].id, cases[0].arms) + PlannedKeys(cases[1..])
  }

  function PlannedArms(cases: seq<PlannedCase>): seq<PlannedArm> {
    if cases == [] then [] else cases[0].arms + PlannedArms(cases[1..])
  }

  predicate NoRepeat<T(==)>(s: seq<T>) {
    forall i, j :: 0 <= i < j < |s| ==> s[i] != s[j]
  }

  /** At most two arms, and not the same one twice. */
  lemma {:induction false} CaseArms(c: PlannedCase)
    requires ValidCase(c)
    ensures |c.arms| <= 2
    ensures |c.arms| == 2 ==> c.arms[0].arm != c.arms[1].arm
  {
  }

  /** A valid case: its arms are numbered in order from one, B is among them if any is, and
      their number and the reason follow from its status. */
  lemma {:induction false} ValidCaseMeans(c: PlannedCase)
    requires ValidCase(c)
    ensures |c.arms| == match c.status
                        case BReadyCReady => 2
                        case BReadyCNotApplicable => 1
                        case CBlocked => 1
                        case _ => 0
    ensures forall i :: 0 <= i < |c.arms| ==> c.arms[i].order == i + 1
    ensures c.arms != [] ==> B in ArmsOf(c.arms)
    ensures c.reason.Some? <==> c.status != BReadyCReady && c.status != BReadyCNotApplicable
    ensures forall i :: 0 <= i < |c.arms| ==> (c.arms[i].candidate.Some? <==> c.arms[i].arm == C)
  {
    CaseArms(c);
    OrdersAre(c.arms);
    CaseSize(c);
  }

  lemma {:induction false} CaseSize(c: PlannedCase)
    requires ValidCase(c)
    ensures |c.arms| == match c.status
                        case BReadyCReady => 2
                        case BReadyCNotApplicable => 1
                        case CBlocked => 1
                        case _ => 0
  {
    var named := ArmsOf(c.arms);
    if c.arms != [] {
      assert named == {B} || named == {B, C};
      assert |{B}| == 1 && |{B, C}| == 2 && C !in {B} && C in {B, C};
    }
  }

  lemma {:induction false} OrdersAre(arms: seq<PlannedArm>)
    requires |arms| <= 2 && (set a | a in arms :: a.order) == UpTo(|arms|)
    requires forall i, j :: 0 <= i < j < |arms| ==> arms[i].order <= arms[j].order
    ensures forall i :: 0 <= i < |arms| ==> arms[i].order == i + 1
  {
    var orders := set a | a in arms :: a.order;
    assert UpTo(0) == {} && UpTo(1) == {1} && UpTo(2) == {1, 2};
    forall i | 0 <= i < |arms| ensures arms[i].order in UpTo(|arms|) { assert arms[i] in arms; }
    if |arms| == 2 {
      assert arms == [arms[0], arms[1]];
      assert orders == {arms[0].order, arms[1].order};
      assert 1 in orders && 2 in orders;
    }
  }

  lemma {:induction false} SubsetSize<T>(a: set<T>, b: set<T>)
    requires a <= b
    ensures |a| <= |b|
    decreases |a|
  {
    if a != {} {
      var x :| x in a;
      SubsetSize(a - {x}, b - {x});
    }
  }

  lemma {:induction false} PlannedKeysOf(cases: seq<PlannedCase>, k: Key)
    requires k in PlannedKeys(cases)
    ensures exists i :: 0 <= i < |cases| && cases[i].id == k.0 && k.1 in ArmsOf(cases[i].arms)
    decreases |cases|
  {
    var first := CaseKeys(cases[0].id, cases[0].arms);
    if k in first {
      var j :| 0 <= j < |first| && first[j] == k;
      assert cases[0].arms[j] in cases[0].arms;
    } else {
      PlannedKeysOf(cases[1..], k);
      var i :| 0 <= i < |cases[1..]| && cases[1..][i].id == k.0 && k.1 in ArmsOf(cases[1..][i].arms);
      assert cases[i + 1] == cases[1..][i];
    }
  }

  predicate LegalCases(cases: seq<PlannedCase>) {
    (forall i :: 0 <= i < |cases| ==> ValidCase(cases[i])) && DistinctIds(cases)
  }

  /** No arm is planned twice. */
  lemma {:induction false} PlannedKeysDistinct(cases: seq<PlannedCase>)
    requires LegalCases(cases)
    ensures NoRepeat(PlannedKeys(cases))
    decreases |cases|
  {
    if cases != [] {
      PlannedKeysDistinct(cases[1..]);
      CaseKeysDistinct(cases[0]);
      var first, rest := CaseKeys(cases[0].id, cases[0].arms), PlannedKeys(cases[1..]);
      forall k | k in rest ensures k !in first {
        PlannedKeysOf(cases[1..], k);
      }
      NoRepeatConcat(first, rest);
    }
  }

  /** No arm is planned twice. */
  predicate DistinctArms(plan: Plan) {
    NoRepeat(PlannedKeys(plan.cases))
  }

  lemma {:induction false} LegalIsDistinct(plan: Plan)
    requires LegalPlan(plan)
    ensures DistinctArms(plan)
  {
    PlannedKeysDistinct(plan.cases);
  }

  lemma {:induction false} CaseKeysDistinct(c: PlannedCase)
    requires ValidCase(c)
    ensures NoRepeat(CaseKeys(c.id, c.arms))
  {
    CaseArms(c);
  }

  lemma {:induction false} NoRepeatConcat<T>(a: seq<T>, b: seq<T>)
    requires NoRepeat(a) && NoRepeat(b) && forall x :: x in b ==> x !in a
    ensures NoRepeat(a + b)
  {
    var s := a + b;
    forall i, j | 0 <= i < j < |s| ensures s[i] != s[j] {
      if i < |a| <= j { assert b[j - |a|] in b && a[i] in a; }
    }
  }

  // ------------------------------------------------------------ observations

  datatype Measurements = Measurements(
    input: Option<nat>,
    output: Option<nat>,
    wall: Option<nat>,
    cost: Option<real>,
    identity: Option<string>)

  const UNMEASURED := Measurements(None, None, None, None, None)

  datatype Grade = Pass | Fail | NotEvaluable
  datatype ReviewerKind = Human | Agent

  datatype Review = Review(
    kind: ReviewerKind,
    protectiveFacts: Grade,
    sourceLegality: Grade,
    rolesTimeState: Grade,
    semanticCoverage: Grade,
    unsupportedClaims: Grade)

  predicate TaskQualified(r: Review) {
    r.protectiveFacts == r.sourceLegality == r.rolesTimeState == r.semanticCoverage == r.unsupportedClaims == Pass
  }

  datatype ObservationStatus = Observed | Failed | UnknownOutcome | UnverifiedResponse

  datatype ArmRecord = ArmRecord(
    id: QuestionId,
    arm: Arm,
    output: string,
    measurements: Measurements,
    review: Option<Review>,
    candidate: Option<string>,
    status: ObservationStatus)

  function KeyOf(r: ArmRecord): Key {
    (r.id, r.arm)
  }

  predicate Unresolved(r: ArmRecord) {
    r.status.UnknownOutcome? || r.status.UnverifiedResponse?
  }

  predicate Qualified(r: ArmRecord) {
    r.review.Some? && TaskQualified(r.review.value)
  }
}
