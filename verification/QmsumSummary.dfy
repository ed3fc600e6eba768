/** The descriptive summary of a set of records: every count it reports, and the
    proof that the cross-checks of its constructor cannot fail. */
module QmsumSummary {
  import opened Outcome
  import opened QmsumPlan
  import opened QmsumRecords

  function Count<T>(s: seq<T>, p: T -> bool): nat {
    if s == [] then 0 else (if p(s[0]) then 1 else 0) + Count(s[1..], p)
  }

  // ------------------------------------------------------------ pairs

  /** What was recorded for one question. */
  datatype Pair = Pair(b: Option<ArmRecord>, c: Option<ArmRecord>)

  function RowOf(rows: seq<ArmRecord>, k: Key): (r: Option<ArmRecord>)
    ensures r.Some? ==> r.value in rows && KeyOf(r.value) == k
    ensures r.None? ==> forall x :: x in rows ==> KeyOf(x) != k
  {
    if rows == [] then None else if KeyOf(rows[0]) == k then Some(rows[0]) else RowOf(rows[1..], k)
  }

  function PairOf(rows: seq<ArmRecord>, q: QuestionId): Pair {
    Pair(RowOf(rows, (q, B)), RowOf(rows, (q, C)))
  }

  function Size(p: Pair): nat {
    (if p.b.Some? then 1 else 0) + (if p.c.Some? then 1 else 0)
  }

  predicate HasStatus(p: Pair, s: ObservationStatus) {
    (p.b.Some? && p.b.value.status == s) || (p.c.Some? && p.c.value.status == s)
  }

  predicate Complete(p: Pair) {
    p.b.Some? && p.c.Some? && p.b.value.status == Observed && p.c.value.status == Observed
  }

  predicate Answerable(p: Pair) {
    Complete(p) && Qualified(p.b.value)
  }

  predicate BothQualified(p: Pair) {
    Complete(p) && Qualified(p.b.value) && Qualified(p.c.value)
  }

  /** The input budget of a question's B arm. */
  function BBudget(cases: seq<PlannedCase>, q: QuestionId): Option<int> {
    match Lookup(cases, (q, B))
    case None => None
    case Some(arm) => Some(arm.admitted.available)
  }

  /** Provider usage inside the 70% to below-85% band, as the summary filters it. */
  predicate UnderPressure(cases: seq<PlannedCase>, q: QuestionId, p: Pair) {
    && Answerable(p)
    && p.b.value.measurements.input.Some? && p.b.value.measurements.input.value > 0
    && p.c.value.measurements.input.Some?
    && BBudget(cases, q).Some?
    && var budget := BBudget(cases, q).value;
    && budget * 70 <= p.b.value.measurements.input.value * 100 < budget * 85
    && p.c.value.measurements.input.value * 100 < budget * 85
  }

  // ------------------------------------------------------------ counted predicates

  predicate IsExcluded(c: PlannedCase) { c.status == Excluded }
  predicate IsOnline(c: PlannedCase) { c.status != Excluded }
  predicate IsBBlocked(c: PlannedCase) { c.status == BBlocked }
  predicate IsSummaryInvalid(c: PlannedCase) { c.status == CSummaryInvalid }
  predicate PlansB(c: PlannedCase) { B in ArmsOf(c.arms) }
  predicate PlansC(c: PlannedCase) { C in ArmsOf(c.arms) }
  predicate PlansPair(c: PlannedCase) { ArmsOf(c.arms) == {B, C} }

  predicate IsObserved(r: ArmRecord) { r.status == Observed }
  predicate IsFailed(r: ArmRecord) { r.status == Failed }
  predicate IsUnknown(r: ArmRecord) { r.status == UnknownOutcome }
  predicate IsUnverified(r: ArmRecord) { r.status == UnverifiedResponse }
  predicate Reviewed(r: ArmRecord) { IsObserved(r) && r.review.Some? }
  predicate Unreviewed(r: ArmRecord) { IsObserved(r) && r.review.None? }
  predicate ReviewedByHuman(r: ArmRecord) { Reviewed(r) && r.review.value.kind == Human }
  predicate ReviewedByAgent(r: ArmRecord) { Reviewed(r) && r.review.value.kind == Agent }

  predicate QualifiedB(r: ArmRecord) { IsObserved(r) && r.arm == B && Qualified(r) }
  predicate QualifiedC(r: ArmRecord) { IsObserved(r) && r.arm == C && Qualified(r) }
  predicate HasUnsupported(r: ArmRecord) { IsObserved(r) && r.review.Some? && r.review.value.unsupportedClaims == Fail }
  predicate UnsupportedB(r: ArmRecord) { r.arm == B && HasUnsupported(r) }
  predicate UnsupportedC(r: ArmRecord) { r.arm == C && HasUnsupported(r) }

  // ------------------------------------------------------------ the summary

  datatype Summary = Summary(
    frozenQuestions: nat,
    onlineEligible: nat,
    committeeExcluded: nat,
    budgetBlocked: nat,
    plannedB: nat,
    plannedC: nat,
    observedQuestions: nat,
    observedArms: nat,
    answerablePairs: nat,
    reviewCount: nat,
    humanReviews: nat,
    agentReviews: nat,
    qualifiedB: nat,
    qualifiedC: nat,
    pairedQualified: nat,
    unsupportedB: nat,
    unsupportedC: nat,
    attemptedArms: nat,
    failedArms: nat,
    unknownArms: nat,
    unverifiedArms: nat,
    unattemptedPlannedArms: int,
    missingReviews: nat,
    failedPairs: nat,
    unknownPairs: nat,
    unverifiedPairs: nat,
    invalidSummaries: nat,
    plannedPairs: nat,
    completePairs: nat,
    partialPairs: nat,
    partialFailed: nat,
    partialUnknown: nat,
    partialUnverified: nat,
    notStartedPairs: nat,
    pressureValidPairs: nat)

  function Ids(rows: seq<ArmRecord>): set<QuestionId> {
    set r | r in rows :: r.id
  }

  function ObservedIds(rows: seq<ArmRecord>): set<QuestionId> {
    set r | r in rows && IsObserved(r) :: r.id
  }

  function PairIds(cases: seq<PlannedCase>): set<QuestionId> {
    set c | c in cases && PlansPair(c) :: c.id
  }

  function CompleteIds(rows: seq<ArmRecord>): set<QuestionId> {
    set q | q in Ids(rows) && Complete(PairOf(rows, q))
  }

  function PairedIds(rows: seq<ArmRecord>): set<QuestionId> {
    set q | q in Ids(rows) && BothQualified(PairOf(rows, q))
  }

  function PressureIds(cases: seq<PlannedCase>, rows: seq<ArmRecord>): set<QuestionId> {
    set q | q in Ids(rows) && UnderPressure(cases, q, PairOf(rows, q))
  }

  function WithStatus(cases: seq<PlannedCase>, rows: seq<ArmRecord>, s: ObservationStatus): set<QuestionId> {
    set q | q in PairIds(cases) && HasStatus(PairOf(rows, q), s)
  }

  function WithSize(cases: seq<PlannedCase>, rows: seq<ArmRecord>, n: nat): set<QuestionId> {
    set q | q in PairIds(cases) && Size(PairOf(rows, q)) == n
  }

  function Summarize(plan: Plan, rows: seq<ArmRecord>): Summary {
    var cases := plan.cases;
    var partial := WithSize(cases, rows, 1);
    Summary(
      frozenQuestions := |cases|,
      onlineEligible := Count(cases, IsOnline),
      committeeExcluded := Count(cases, IsExcluded),
      budgetBlocked := Count(cases, IsBBlocked),
      plannedB := Count(cases, PlansB),
      plannedC := Count(cases, PlansC),
      observedQuestions := |ObservedIds(rows)|,
      observedArms := Count(rows, IsObserved),
      answerablePairs := |set q | q in Ids(rows) && Answerable(PairOf(rows, q))|,
      reviewCount := Count(rows, Reviewed),
      humanReviews := Count(rows, ReviewedByHuman),
      agentReviews := Count(rows, ReviewedByAgent),
      qualifiedB := Count(rows, QualifiedB),
      qualifiedC := Count(rows, QualifiedC),
      pairedQualified := |PairedIds(rows)|,
      unsupportedB := Count(rows, UnsupportedB),
      unsupportedC := Count(rows, UnsupportedC),
      attemptedArms := |rows|,
      failedArms := Count(rows, IsFailed),
      unknownArms := Count(rows, IsUnknown),
      unverifiedArms := Count(rows, IsUnverified),
      unattemptedPlannedArms := |PlannedArms(cases)| - |rows|,
      missingReviews := Count(rows, Unreviewed),
      failedPairs := |WithStatus(cases, rows, Failed)|,
      unknownPairs := |WithStatus(cases, rows, UnknownOutcome)|,
      unverifiedPairs := |WithStatus(cases, rows, UnverifiedResponse)|,
      invalidSummaries := Count(cases, IsSummaryInvalid),
      plannedPairs := |PairIds(cases)|,
      completePairs := |CompleteIds(rows)|,
      partialPairs := |partial|,
      partialFailed := |partial * WithStatus(cases, rows, Failed)|,
      partialUnknown := |partial * WithStatus(cases, rows, UnknownOutcome)|,
      partialUnverified := |partial * WithStatus(cases, rows, UnverifiedResponse)|,
      notStartedPairs := |WithSize(cases, rows, 0)|,
      pressureValidPairs := |PressureIds(cases, rows)|)
  }

  /** Every check of the summary's constructor that its types do not already make. */
  predicate ValidSummary(s: Summary) {
    && s.unattemptedPlannedArms >= 0
    && s.frozenQuestions == s.onlineEligible + s.committeeExcluded
    && s.reviewCount == s.humanReviews + s.agentReviews
    && s.observedArms == s.reviewCount + s.missingReviews
    && s.attemptedArms == s.observedArms + s.failedArms + s.unknownArms + s.unverifiedArms
    && s.answerablePairs <= s.observedQuestions
    && s.plannedPairs <= s.plannedC
    && s.invalidSummaries <= s.onlineEligible
    && s.completePairs <= s.plannedPairs
    && s.partialPairs <= s.plannedPairs
    && s.notStartedPairs <= s.plannedPairs
    && s.partialPairs + s.notStartedPairs <= s.plannedPairs
    && s.partialFailed <= s.partialPairs && s.partialFailed <= s.failedPairs
    && s.partialUnknown <= s.partialPairs && s.partialUnknown <= s.unknownPairs
    && s.partialUnverified <= s.partialPairs && s.partialUnverified <= s.unverifiedPairs
    && s.partialFailed + s.partialUnknown + s.partialUnverified <= s.partialPairs
  }

  // ------------------------------------------------------------ counting lemmas

  lemma {:induction false} CaseCounts(cases: seq<PlannedCase>)
    ensures Count(cases, IsOnline) + Count(cases, IsExcluded) == |cases|
    ensures Count(cases, IsSummaryInvalid) <= Count(cases, IsOnline)
    decreases |cases|
  {
    if cases != [] { CaseCounts(cases[1..]); }
  }

  lemma {:induction false} PairIdCount(cases: seq<PlannedCase>)
    ensures |PairIds(cases)| <= Count(cases, PlansC)
    decreases |cases|
  {
    if cases == [] {
      assert PairIds(cases) == {};
    } else {
      var first, rest := cases[0], cases[1..];
      PairIdCount(rest);
      assert PairIds(cases) <= PairIds(rest) + {first.id} by { assert cases == [first] + rest; }
      SubsetSize(PairIds(cases), PairIds(rest) + {first.id});
      if PlansPair(first) {
        assert C in ArmsOf(first.arms);
      } else {
        assert PairIds(cases) <= PairIds(rest) by { assert cases == [first] + rest; }
        SubsetSize(PairIds(cases), PairIds(rest));
      }
    }
  }

  lemma {:induction false} RowCounts(rows: seq<ArmRecord>)
    ensures Count(rows, Reviewed) == Count(rows, ReviewedByHuman) + Count(rows, ReviewedByAgent)
    ensures Count(rows, IsObserved) == Count(rows, Reviewed) + Count(rows, Unreviewed)
    ensures |rows| == Count(rows, IsObserved) + Count(rows, IsFailed) + Count(rows, IsUnknown) + Count(rows, IsUnverified)
    decreases |rows|
  {
    if rows != [] { RowCounts(rows[1..]); }
  }

  lemma {:induction false} ArmTotals(cases: seq<PlannedCase>)
    ensures |PlannedArms(cases)| == |PlannedKeys(cases)|
    decreases |cases|
  {
    if cases != [] { ArmTotals(cases[1..]); }
  }

  /** A question with both arms recorded was planned with both. */
  lemma {:induction false} BothPlanned(cases: seq<PlannedCase>, q: QuestionId)
    requires DistinctIds(cases) && (q, B) in PlannedKeys(cases) && (q, C) in PlannedKeys(cases)
    ensures q in PairIds(cases)
  {
    PlannedKeysOf(cases, (q, B));
    var i :| 0 <= i < |cases| && cases[i].id == q && B in ArmsOf(cases[i].arms);
    PlannedKeysOf(cases, (q, C));
    var j :| 0 <= j < |cases| && cases[j].id == q && C in ArmsOf(cases[j].arms);
    assert i == j;
    PlansBoth(cases[i]);
    assert cases[i] in cases;
  }

  lemma {:induction false} PlansBoth(c: PlannedCase)
    requires PlansB(c) && PlansC(c)
    ensures PlansPair(c)
  {
    forall a: Arm ensures a in ArmsOf(c.arms) <==> a in {B, C} { assert a == B || a == C; }
  }

  lemma {:induction false} RecordedIsPlanned(plan: Plan, rows: seq<ArmRecord>, r: ArmRecord)
    requires Acceptable(plan, rows) && r in rows
    ensures KeyOf(r) in PlannedKeys(plan.cases)
  {
    SubsequenceMembers(PlannedKeys(plan.cases), KeysOf(rows));
    var i :| 0 <= i < |rows| && rows[i] == r;
    assert KeysOf(rows)[i] in KeysOf(rows);
  }

  lemma {:induction false} CompletePlanned(plan: Plan, rows: seq<ArmRecord>)
    requires LegalPlan(plan) && Acceptable(plan, rows)
    ensures CompleteIds(rows) <= PairIds(plan.cases)
  {
    forall q | q in CompleteIds(rows) ensures q in PairIds(plan.cases) {
      var p := PairOf(rows, q);
      RecordedIsPlanned(plan, rows, p.b.value);
      RecordedIsPlanned(plan, rows, p.c.value);
      BothPlanned(plan.cases, q);
    }
  }

  lemma {:induction false} PairCounts(plan: Plan, rows: seq<ArmRecord>)
    requires LegalPlan(plan) && Acceptable(plan, rows)
    ensures |set q | q in Ids(rows) && Answerable(PairOf(rows, q))| <= |ObservedIds(rows)|
    ensures |CompleteIds(rows)| <= |PairIds(plan.cases)|
  {
    var answerable := set q | q in Ids(rows) && Answerable(PairOf(rows, q));
    forall q | q in answerable ensures q in ObservedIds(rows) {
      assert PairOf(rows, q).b.value in rows;
    }
    SubsetSize(answerable, ObservedIds(rows));
    CompletePlanned(plan, rows);
    SubsetSize(CompleteIds(rows), PairIds(plan.cases));
  }

  lemma {:induction false} DisjointSize<T>(a: set<T>, b: set<T>, whole: set<T>)
    requires a !! b && a + b <= whole
    ensures |a| + |b| <= |whole|
  {
    assert |a + b| == |a| + |b|;
    SubsetSize(a + b, whole);
  }

  /** Planned pairs divide into those not started, partly and fully attempted. */
  lemma {:induction false} PairsDivide(cases: seq<PlannedCase>, rows: seq<ArmRecord>)
    ensures |WithSize(cases, rows, 0)| + |WithSize(cases, rows, 1)| + |WithSize(cases, rows, 2)| == |PairIds(cases)|
  {
    var none, one, both := WithSize(cases, rows, 0), WithSize(cases, rows, 1), WithSize(cases, rows, 2);
    assert none !! one && (none + one) !! both;
    assert none + one + both == PairIds(cases);
    assert |none + one| == |none| + |one|;
  }

  /** A pair with one recorded arm has one outcome. */
  lemma {:induction false} PartialOutcomes(cases: seq<PlannedCase>, rows: seq<ArmRecord>)
    ensures var partial := WithSize(cases, rows, 1);
            var failed := partial * WithStatus(cases, rows, Failed);
            var unknown := partial * WithStatus(cases, rows, UnknownOutcome);
            var unverified := partial * WithStatus(cases, rows, UnverifiedResponse);
            failed !! unknown && (failed + unknown) !! unverified && |failed| + |unknown| + |unverified| <= |partial|
  {
    var partial := WithSize(cases, rows, 1);
    OneOutcome(cases, rows, Failed, UnknownOutcome);
    OneOutcome(cases, rows, Failed, UnverifiedResponse);
    OneOutcome(cases, rows, UnknownOutcome, UnverifiedResponse);
    ThreeParts(partial * WithStatus(cases, rows, Failed), partial * WithStatus(cases, rows, UnknownOutcome),
               partial * WithStatus(cases, rows, UnverifiedResponse), partial);
  }

  lemma {:induction false} OneOutcome(cases: seq<PlannedCase>, rows: seq<ArmRecord>, s: ObservationStatus, t: ObservationStatus)
    requires s != t
    ensures (WithSize(cases, rows, 1) * WithStatus(cases, rows, s)) !! (WithSize(cases, rows, 1) * WithStatus(cases, rows, t))
  {
  }

  lemma {:induction false} ThreeParts<T>(a: set<T>, b: set<T>, c: set<T>, whole: set<T>)
    requires a !! b && a !! c && b !! c && a <= whole && b <= whole && c <= whole
    ensures (a + b) !! c && |a| + |b| + |c| <= |whole|
  {
    assert |a + b| == |a| + |b|;
    DisjointSize(a + b, c, whole);
  }

  lemma {:induction false} IntersectionSize<T>(a: set<T>, b: set<T>)
    ensures |a * b| <= |a| && |a * b| <= |b|
  {
    SubsetSize(a * b, a);
    SubsetSize(a * b, b);
  }

  /** For every legal plan and every acceptable record sequence the summary
      passes its own checks. */
  lemma {:induction false} SummaryPasses(plan: Plan, rows: seq<ArmRecord>)
    requires LegalPlan(plan) && Acceptable(plan, rows)
    ensures ValidSummary(Summarize(plan, rows))
  {
    var cases := plan.cases;
    CaseCounts(cases);
    PairIdCount(cases);
    RowCounts(rows);
    ArmTotals(cases);
    SubsequenceMembers(PlannedKeys(cases), KeysOf(rows));
    PairCounts(plan, rows);
    PairsDivide(cases, rows);
    PartialOutcomes(cases, rows);
    var partial := WithSize(cases, rows, 1);
    IntersectionSize(partial, WithStatus(cases, rows, Failed));
    IntersectionSize(partial, WithStatus(cases, rows, UnknownOutcome));
    IntersectionSize(partial, WithStatus(cases, rows, UnverifiedResponse));
  }

  lemma {:induction false} CountLast(rows: seq<ArmRecord>)
    requires forall i :: 0 <= i < |rows| - 1 ==> !Unresolved(rows[i])
    ensures Count(rows, IsUnknown) + Count(rows, IsUnverified) <= 1
    decreases |rows|
  {
    if |rows| > 1 { CountLast(rows[1..]); }
  }

  /** Because dispatching stops at the first unresolved call, a summary never
      counts more than one unknown or unverified arm. */
  lemma {:induction false} OneUnresolved(plan: Plan, rows: seq<ArmRecord>)
    requires LegalPlan(plan) && Acceptable(plan, rows)
    ensures Summarize(plan, rows).unknownArms + Summarize(plan, rows).unverifiedArms <= 1
  {
    CountLast(rows);
  }

  function IdsWith(rows: seq<ArmRecord>, p: ArmRecord -> bool): set<QuestionId> {
    set r | r in rows && p(r) :: r.id
  }

  lemma {:induction false} IdsWithCount(rows: seq<ArmRecord>, p: ArmRecord -> bool)
    ensures |IdsWith(rows, p)| <= Count(rows, p)
    decreases |rows|
  {
    if rows != [] {
      IdsWithCount(rows[1..], p);
      var rest := IdsWith(rows[1..], p);
      assert rows == [rows[0]] + rows[1..];
      assert IdsWith(rows, p) == if p(rows[0]) then rest + {rows[0].id} else rest;
    }
  }

  /** A question counted as qualified in both arms is counted in each; and no arm is counted
      both as qualified and as having unsupported claims. */
  lemma {:induction false} QualifiedCounts(plan: Plan, rows: seq<ArmRecord>)
    ensures var s := Summarize(plan, rows);
            s.pairedQualified <= s.qualifiedB && s.pairedQualified <= s.qualifiedC
    ensures var s := Summarize(plan, rows);
            s.qualifiedB + s.qualifiedC + s.unsupportedB + s.unsupportedC <= s.reviewCount
  {
    IdsWithCount(rows, QualifiedB);
    IdsWithCount(rows, QualifiedC);
    forall q | q in PairedIds(rows) ensures q in IdsWith(rows, QualifiedB) && q in IdsWith(rows, QualifiedC) {
      var p := PairOf(rows, q);
      assert p.b.value in rows && p.c.value in rows;
    }
    SubsetSize(PairedIds(rows), IdsWith(rows, QualifiedB));
    SubsetSize(PairedIds(rows), IdsWith(rows, QualifiedC));
    ReviewCounts(rows);
  }

  lemma {:induction false} ReviewCounts(rows: seq<ArmRecord>)
    ensures Count(rows, QualifiedB) + Count(rows, QualifiedC) + Count(rows, UnsupportedB) + Count(rows, UnsupportedC)
         <= Count(rows, Reviewed)
    decreases |rows|
  {
    if rows != [] { ReviewCounts(rows[1..]); }
  }

  /** Builds the summary of the records, if they are acceptable. */
  method SummarizeScoreRecords(plan: Plan, records: seq<ArmRecord>) returns (r: Result<Summary, RecordError>)
    requires LegalPlan(plan)
    ensures r.Ok? <==> Acceptable(plan, records)
    ensures r.Ok? ==> r.value == Summarize(plan, records) && ValidSummary(r.value)
  {
    LegalIsDistinct(plan);
    var rows := RecordObservations(plan, records);
    if rows.Err? {
      return Err(rows.error);
    }
    SummaryPasses(plan, records);
    r := Ok(Summarize(plan, rows.value));
  }
}
