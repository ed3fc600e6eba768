/** What each count of the score summary counts, said by positions of records and cases and
    without the predicates by which it is computed. */
module QmsumCounts {
  import opened Outcome
  import opened QmsumPlan
  import opened QmsumRecords
  import opened QmsumSummary

  // ------------------------------------------------------------ counting positions

  ghost function Places<T>(s: seq<T>, p: T -> bool): set<int> {
    set i | 0 <= i < |s| && p(s[i])
  }

  lemma {:induction false} CountSnoc<T>(s: seq<T>, x: T, p: T -> bool)
    ensures Count(s + [x], p) == Count(s, p) + if p(x) then 1 else 0
    decreases |s|
  {
    if s == [] {
      assert [] + [x] == [x] && [x][1..] == [];
    } else {
      assert (s + [x])[1..] == s[1..] + [x];
      CountSnoc(s[1..], x, p);
    }
  }

  lemma {:induction false} PlacesSnoc<T>(s: seq<T>, x: T, p: T -> bool, all: seq<T>)
    requires all == s + [x]
    ensures |Places(all, p)| == |Places(s, p)| + if p(x) then 1 else 0
  {
    PlacesAre(s, x, p, all);
    assert |s| !in Places(s, p);
  }

  lemma {:induction false} PlacesAre<T>(s: seq<T>, x: T, p: T -> bool, all: seq<T>)
    requires all == s + [x]
    ensures Places(all, p) == Places(s, p) + if p(x) then {|s|} else {}
  {
    var n := |s|;
    assert |all| == n + 1 && all[n] == x && forall i :: 0 <= i < n ==> all[i] == s[i];
  }

  /** A count is the number of positions. */
  lemma {:induction false} CountIsPlaces<T>(s: seq<T>, p: T -> bool)
    ensures Count(s, p) == |Places(s, p)|
    decreases |s|
  {
    if s == [] {
      assert Places(s, p) == {};
    } else {
      var before, x := s[..|s| - 1], s[|s| - 1];
      assert s == before + [x];
      CountIsPlaces(before, p);
      CountSnoc(before, x, p);
      PlacesSnoc(before, x, p, s);
    }
  }

  // ------------------------------------------------------------ records

  function Grades(r: Review): seq<Grade> {
    [r.protectiveFacts, r.sourceLegality, r.rolesTimeState, r.semanticCoverage, r.unsupportedClaims]
  }

  /** The record was reviewed, and nothing but a pass was given. */
  predicate AllPass(r: ArmRecord) {
    r.review.Some? && forall i :: 0 <= i < 5 ==> Grades(r.review.value)[i] == Pass
  }

  lemma {:induction false} QualifiedMeans(r: ArmRecord)
    ensures Qualified(r) <==> AllPass(r)
  {
    if r.review.Some? {
      var g := Grades(r.review.value);
      assert g[0] == r.review.value.protectiveFacts && g[1] == r.review.value.sourceLegality
          && g[2] == r.review.value.rolesTimeState && g[3] == r.review.value.semanticCoverage
          && g[4] == r.review.value.unsupportedClaims;
    }
  }

  /** Positions of the records with a status ... */
  ghost function RowsWith(rows: seq<ArmRecord>, status: ObservationStatus): set<int> {
    set i | 0 <= i < |rows| && rows[i].status == status
  }

  /** ... of the observed ones by a kind of reviewer ... */
  ghost function RowsBy(rows: seq<ArmRecord>, kind: ReviewerKind): set<int> {
    set i | 0 <= i < |rows| && rows[i].status == Observed && rows[i].review.Some? && rows[i].review.value.kind == kind
  }

  /** ... of the observed ones without a review ... */
  ghost function RowsUnreviewed(rows: seq<ArmRecord>): set<int> {
    set i | 0 <= i < |rows| && rows[i].status == Observed && rows[i].review.None?
  }

  /** ... of the observed ones of an arm with only passes ... */
  ghost function RowsPassing(rows: seq<ArmRecord>, arm: Arm): set<int> {
    set i | 0 <= i < |rows| && rows[i].arm == arm && rows[i].status == Observed && AllPass(rows[i])
  }

  /** ... and of the observed ones of an arm that fail for unsupported claims. */
  ghost function RowsUnsupported(rows: seq<ArmRecord>, arm: Arm): set<int> {
    set i | 0 <= i < |rows| && rows[i].arm == arm && rows[i].status == Observed
            && rows[i].review.Some? && rows[i].review.value.unsupportedClaims == Fail
  }

  lemma {:induction false} ObservedQuestions(rows: seq<ArmRecord>)
    ensures ObservedIds(rows) == set i | i in RowsWith(rows, Observed) :: rows[i].id
  {
    forall q | q in ObservedIds(rows) ensures q in (set i | i in RowsWith(rows, Observed) :: rows[i].id) {
      var r :| r in rows && IsObserved(r) && r.id == q;
      var i :| 0 <= i < |rows| && rows[i] == r;
      assert i in RowsWith(rows, Observed);
    }
    forall i | i in RowsWith(rows, Observed) ensures rows[i].id in ObservedIds(rows) { assert rows[i] in rows; }
  }

  lemma {:induction false} StatusCounts(plan: Plan, rows: seq<ArmRecord>)
    ensures var s := Summarize(plan, rows);
            && s.attemptedArms == |rows|
            && s.observedQuestions == |set i | i in RowsWith(rows, Observed) :: rows[i].id|
            && s.observedArms == |RowsWith(rows, Observed)| && s.failedArms == |RowsWith(rows, Failed)|
            && s.unknownArms == |RowsWith(rows, UnknownOutcome)| && s.unverifiedArms == |RowsWith(rows, UnverifiedResponse)|
  {
    ObservedQuestions(rows);
    CountIsPlaces(rows, IsObserved);
    CountIsPlaces(rows, IsFailed);
    CountIsPlaces(rows, IsUnknown);
    CountIsPlaces(rows, IsUnverified);
    assert Places(rows, IsObserved) == RowsWith(rows, Observed);
    assert Places(rows, IsFailed) == RowsWith(rows, Failed);
    assert Places(rows, IsUnknown) == RowsWith(rows, UnknownOutcome);
    assert Places(rows, IsUnverified) == RowsWith(rows, UnverifiedResponse);
  }

  lemma {:induction false} ReviewKindCounts(plan: Plan, rows: seq<ArmRecord>)
    ensures var s := Summarize(plan, rows);
            && s.humanReviews == |RowsBy(rows, Human)| && s.agentReviews == |RowsBy(rows, Agent)|
            && s.missingReviews == |RowsUnreviewed(rows)|
  {
    CountIsPlaces(rows, ReviewedByHuman);
    CountIsPlaces(rows, ReviewedByAgent);
    CountIsPlaces(rows, Unreviewed);
    assert Places(rows, ReviewedByHuman) == RowsBy(rows, Human);
    assert Places(rows, ReviewedByAgent) == RowsBy(rows, Agent);
    assert Places(rows, Unreviewed) == RowsUnreviewed(rows);
  }

  lemma {:induction false} PassingPlaces(rows: seq<ArmRecord>)
    ensures Places(rows, QualifiedB) == RowsPassing(rows, B) && Places(rows, QualifiedC) == RowsPassing(rows, C)
  {
    forall i | 0 <= i < |rows| ensures Qualified(rows[i]) <==> AllPass(rows[i]) { QualifiedMeans(rows[i]); }
  }

  /** Each arm's quality is counted under that arm. */
  lemma {:induction false} ArmCounts(plan: Plan, rows: seq<ArmRecord>)
    ensures var s := Summarize(plan, rows);
            && s.qualifiedB == |RowsPassing(rows, B)| && s.qualifiedC == |RowsPassing(rows, C)|
            && s.unsupportedB == |RowsUnsupported(rows, B)| && s.unsupportedC == |RowsUnsupported(rows, C)|
  {
    CountIsPlaces(rows, QualifiedB);
    CountIsPlaces(rows, QualifiedC);
    CountIsPlaces(rows, UnsupportedB);
    CountIsPlaces(rows, UnsupportedC);
    PassingPlaces(rows);
    assert Places(rows, UnsupportedB) == RowsUnsupported(rows, B);
    assert Places(rows, UnsupportedC) == RowsUnsupported(rows, C);
  }

  // ------------------------------------------------------------ cases

  ghost predicate HasArm(c: PlannedCase, arm: Arm) {
    exists i :: 0 <= i < |c.arms| && c.arms[i].arm == arm
  }

  lemma {:induction false} HasArmIs(c: PlannedCase, arm: Arm)
    ensures HasArm(c, arm) <==> arm in ArmsOf(c.arms)
  {
    if arm in ArmsOf(c.arms) {
      var a :| a in c.arms && a.arm == arm;
      var i :| 0 <= i < |c.arms| && c.arms[i] == a;
      assert c.arms[i].arm == arm;
    }
    if HasArm(c, arm) {
      var i :| 0 <= i < |c.arms| && c.arms[i].arm == arm;
      assert c.arms[i] in c.arms;
    }
  }

  ghost function CasesWith(cases: seq<PlannedCase>, status: CaseStatus): set<int> {
    set i | 0 <= i < |cases| && cases[i].status == status
  }

  ghost function CasesPlanning(cases: seq<PlannedCase>, arm: Arm): set<int> {
    set i | 0 <= i < |cases| && HasArm(cases[i], arm)
  }

  lemma {:induction false} PlanningPlaces(cases: seq<PlannedCase>)
    ensures Places(cases, PlansB) == CasesPlanning(cases, B) && Places(cases, PlansC) == CasesPlanning(cases, C)
  {
    forall i | 0 <= i < |cases|
      ensures (PlansB(cases[i]) <==> HasArm(cases[i], B)) && (PlansC(cases[i]) <==> HasArm(cases[i], C))
    {
      HasArmIs(cases[i], B);
      HasArmIs(cases[i], C);
    }
  }

  /** Each question is counted under its status and its planned arms. */
  lemma {:induction false} QuestionCounts(plan: Plan, rows: seq<ArmRecord>)
    ensures var s := Summarize(plan, rows);
            && s.frozenQuestions == |plan.cases|
            && s.committeeExcluded == |CasesWith(plan.cases, Excluded)|
            && s.budgetBlocked == |CasesWith(plan.cases, BBlocked)|
            && s.invalidSummaries == |CasesWith(plan.cases, CSummaryInvalid)|
            && s.plannedB == |CasesPlanning(plan.cases, B)| && s.plannedC == |CasesPlanning(plan.cases, C)|
            && s.unattemptedPlannedArms == |PlannedKeys(plan.cases)| - |rows|
  {
    var cases := plan.cases;
    CountIsPlaces(cases, IsExcluded);
    CountIsPlaces(cases, IsBBlocked);
    CountIsPlaces(cases, IsSummaryInvalid);
    CountIsPlaces(cases, PlansB);
    CountIsPlaces(cases, PlansC);
    assert Places(cases, IsExcluded) == CasesWith(cases, Excluded);
    assert Places(cases, IsBBlocked) == CasesWith(cases, BBlocked);
    assert Places(cases, IsSummaryInvalid) == CasesWith(cases, CSummaryInvalid);
    PlanningPlaces(cases);
    ArmTotals(cases);
  }

  // ------------------------------------------------------------ pairs

  /** An arm of a question has a record with this status ... */
  ghost predicate Recorded(rows: seq<ArmRecord>, q: QuestionId, arm: Arm, status: ObservationStatus) {
    exists i :: 0 <= i < |rows| && rows[i].id == q && rows[i].arm == arm && rows[i].status == status
  }

  /** ... has a record at all ... */
  ghost predicate Attempted(rows: seq<ArmRecord>, q: QuestionId, arm: Arm) {
    exists i :: 0 <= i < |rows| && rows[i].id == q && rows[i].arm == arm
  }

  /** ... was observed and has only passes. */
  ghost predicate Passed(rows: seq<ArmRecord>, q: QuestionId, arm: Arm) {
    exists i :: 0 <= i < |rows| && rows[i].id == q && rows[i].arm == arm && rows[i].status == Observed && AllPass(rows[i])
  }

  lemma {:induction false} RowOfIs(rows: seq<ArmRecord>, i: nat)
    requires NoRepeat(KeysOf(rows)) && i < |rows|
    ensures RowOf(rows, KeyOf(rows[i])) == Some(rows[i])
  {
    var found := RowOf(rows, KeyOf(rows[i]));
    assert rows[i] in rows;
    var j :| 0 <= j < |rows| && rows[j] == found.value;
    assert KeysOf(rows)[j] == KeysOf(rows)[i];
    assert j == i;
  }

  /** The one record of an arm decides all three. */
  lemma {:induction false} ArmIs(rows: seq<ArmRecord>, q: QuestionId, arm: Arm, status: ObservationStatus)
    requires NoRepeat(KeysOf(rows))
    ensures var r := RowOf(rows, (q, arm));
            && (Attempted(rows, q, arm) <==> r.Some?)
            && (Recorded(rows, q, arm, status) <==> r.Some? && r.value.status == status)
            && (Passed(rows, q, arm) <==> r.Some? && r.value.status == Observed && Qualified(r.value))
  {
    var r := RowOf(rows, (q, arm));
    if r.Some? {
      var i :| 0 <= i < |rows| && rows[i] == r.value;
      assert rows[i].id == q && rows[i].arm == arm;
      QualifiedMeans(r.value);
    }
    forall i | 0 <= i < |rows| && rows[i].id == q && rows[i].arm == arm ensures r == Some(rows[i]) {
      RowOfIs(rows, i);
    }
  }

  ghost function PairsPlanned(cases: seq<PlannedCase>): set<QuestionId> {
    set i | 0 <= i < |cases| && HasArm(cases[i], B) && HasArm(cases[i], C) :: cases[i].id
  }

  lemma {:induction false} PairIdsAre(cases: seq<PlannedCase>)
    ensures PairIds(cases) == PairsPlanned(cases)
  {
    forall q | q in PairIds(cases) ensures q in PairsPlanned(cases) {
      var c :| c in cases && PlansPair(c) && c.id == q;
      var i :| 0 <= i < |cases| && cases[i] == c;
      HasArmIs(c, B);
      HasArmIs(c, C);
    }
    forall q | q in PairsPlanned(cases) ensures q in PairIds(cases) {
      var i :| 0 <= i < |cases| && HasArm(cases[i], B) && HasArm(cases[i], C) && cases[i].id == q;
      HasArmIs(cases[i], B);
      HasArmIs(cases[i], C);
      PlansBoth(cases[i]);
      assert cases[i] in cases;
    }
  }

  /** Planned pairs with a recorded arm of a status ... */
  ghost function PairsWith(cases: seq<PlannedCase>, rows: seq<ArmRecord>, status: ObservationStatus): set<QuestionId> {
    set q | q in PairsPlanned(cases) && (Recorded(rows, q, B, status) || Recorded(rows, q, C, status))
  }

  /** ... with exactly one arm attempted ... */
  ghost function PairsPartial(cases: seq<PlannedCase>, rows: seq<ArmRecord>): set<QuestionId> {
    set q | q in PairsPlanned(cases) && Attempted(rows, q, B) != Attempted(rows, q, C)
  }

  /** ... with none. */
  ghost function PairsUntouched(cases: seq<PlannedCase>, rows: seq<ArmRecord>): set<QuestionId> {
    set q | q in PairsPlanned(cases) && !Attempted(rows, q, B) && !Attempted(rows, q, C)
  }

  lemma {:induction false} WithStatusIs(cases: seq<PlannedCase>, rows: seq<ArmRecord>, status: ObservationStatus)
    requires NoRepeat(KeysOf(rows))
    ensures WithStatus(cases, rows, status) == PairsWith(cases, rows, status)
  {
    PairIdsAre(cases);
    forall q ensures HasStatus(PairOf(rows, q), status) <==> Recorded(rows, q, B, status) || Recorded(rows, q, C, status) {
      ArmIs(rows, q, B, status);
      ArmIs(rows, q, C, status);
    }
  }

  lemma {:induction false} WithSizeIs(cases: seq<PlannedCase>, rows: seq<ArmRecord>)
    requires NoRepeat(KeysOf(rows))
    ensures WithSize(cases, rows, 1) == PairsPartial(cases, rows) && WithSize(cases, rows, 0) == PairsUntouched(cases, rows)
  {
    PairIdsAre(cases);
    forall q ensures (Size(PairOf(rows, q)) == 1 <==> Attempted(rows, q, B) != Attempted(rows, q, C))
                  && (Size(PairOf(rows, q)) == 0 <==> !Attempted(rows, q, B) && !Attempted(rows, q, C))
    {
      ArmIs(rows, q, B, Observed);
      ArmIs(rows, q, C, Observed);
    }
  }

  lemma {:induction false} RecordsDistinct(plan: Plan, rows: seq<ArmRecord>)
    requires LegalPlan(plan) && Acceptable(plan, rows)
    ensures NoRepeat(KeysOf(rows))
  {
    LegalIsDistinct(plan);
    SubsequenceAscends(PlannedKeys(plan.cases), KeysOf(rows));
  }

  /** Each planned pair is counted by what was attempted of it and how that ended. */
  lemma {:induction false} PlannedPairCounts(plan: Plan, rows: seq<ArmRecord>)
    requires LegalPlan(plan) && Acceptable(plan, rows)
    ensures var s := Summarize(plan, rows);
            var partial := PairsPartial(plan.cases, rows);
            && s.plannedPairs == |PairsPlanned(plan.cases)|
            && s.partialPairs == |partial| && s.notStartedPairs == |PairsUntouched(plan.cases, rows)|
            && s.failedPairs == |PairsWith(plan.cases, rows, Failed)|
            && s.unknownPairs == |PairsWith(plan.cases, rows, UnknownOutcome)|
            && s.unverifiedPairs == |PairsWith(plan.cases, rows, UnverifiedResponse)|
            && s.partialFailed == |partial * PairsWith(plan.cases, rows, Failed)|
            && s.partialUnknown == |partial * PairsWith(plan.cases, rows, UnknownOutcome)|
            && s.partialUnverified == |partial * PairsWith(plan.cases, rows, UnverifiedResponse)|
  {
    RecordsDistinct(plan, rows);
    PairIdsAre(plan.cases);
    WithSizeIs(plan.cases, rows);
    WithStatusIs(plan.cases, rows, Failed);
    WithStatusIs(plan.cases, rows, UnknownOutcome);
    WithStatusIs(plan.cases, rows, UnverifiedResponse);
  }

  /** The questions of the records. */
  ghost function Questions(rows: seq<ArmRecord>): set<QuestionId> {
    set i | 0 <= i < |rows| :: rows[i].id
  }

  ghost function PairsComplete(rows: seq<ArmRecord>): set<QuestionId> {
    set q | q in Questions(rows) && Recorded(rows, q, B, Observed) && Recorded(rows, q, C, Observed)
  }

  /** B has only passes and C was observed: the pair can be compared. */
  ghost function PairsAnswerable(rows: seq<ArmRecord>): set<QuestionId> {
    set q | q in Questions(rows) && Passed(rows, q, B) && Recorded(rows, q, C, Observed)
  }

  ghost function PairsPassing(rows: seq<ArmRecord>): set<QuestionId> {
    set q | q in Questions(rows) && Passed(rows, q, B) && Passed(rows, q, C)
  }

  function AnswerableIds(rows: seq<ArmRecord>): set<QuestionId> {
    set q | q in Ids(rows) && Answerable(PairOf(rows, q))
  }

  lemma {:induction false} IdsAre(rows: seq<ArmRecord>)
    ensures Ids(rows) == Questions(rows)
  {
    forall q | q in Ids(rows) ensures q in Questions(rows) {
      var r :| r in rows && r.id == q;
      var i :| 0 <= i < |rows| && rows[i] == r;
    }
    forall i | 0 <= i < |rows| ensures rows[i].id in Ids(rows) { assert rows[i] in rows; }
  }

  lemma {:induction false} PairIs(rows: seq<ArmRecord>, q: QuestionId)
    requires NoRepeat(KeysOf(rows))
    ensures var p := PairOf(rows, q);
            && (Complete(p) <==> Recorded(rows, q, B, Observed) && Recorded(rows, q, C, Observed))
            && (Answerable(p) <==> Passed(rows, q, B) && Recorded(rows, q, C, Observed))
            && (BothQualified(p) <==> Passed(rows, q, B) && Passed(rows, q, C))
  {
    ArmIs(rows, q, B, Observed);
    ArmIs(rows, q, C, Observed);
  }

  lemma {:induction false} PairSetsAre(rows: seq<ArmRecord>)
    requires NoRepeat(KeysOf(rows))
    ensures CompleteIds(rows) == PairsComplete(rows) && AnswerableIds(rows) == PairsAnswerable(rows)
    ensures PairedIds(rows) == PairsPassing(rows)
  {
    IdsAre(rows);
    forall q | q in Ids(rows)
      ensures (q in CompleteIds(rows) <==> q in PairsComplete(rows)) && (q in AnswerableIds(rows) <==> q in PairsAnswerable(rows))
      ensures q in PairedIds(rows) <==> q in PairsPassing(rows)
    {
      PairIs(rows, q);
    }
  }

  /** Each observed pair is counted by which of its arms passed. */
  lemma {:induction false} ObservedPairCounts(plan: Plan, rows: seq<ArmRecord>)
    requires LegalPlan(plan) && Acceptable(plan, rows)
    ensures var s := Summarize(plan, rows);
            && s.completePairs == |PairsComplete(rows)| && s.answerablePairs == |PairsAnswerable(rows)|
            && s.pairedQualified == |PairsPassing(rows)|
  {
    RecordsDistinct(plan, rows);
    PairSetsAre(rows);
    assert Summarize(plan, rows).answerablePairs == |AnswerableIds(rows)|;
  }

  // ------------------------------------------------------------ orderings between the counts

  /** Every comparable pair has a B arm with only passes, and every pair inside the band is comparable. */
  lemma {:induction false} AnswerableBounds(plan: Plan, rows: seq<ArmRecord>)
    ensures var s := Summarize(plan, rows);
            s.answerablePairs <= s.qualifiedB && s.pressureValidPairs <= s.answerablePairs
  {
    IdsWithCount(rows, QualifiedB);
    AnswerableAreQualified(rows);
    SubsetSize(AnswerableIds(rows), IdsWith(rows, QualifiedB));
    SubsetSize(PressureIds(plan.cases, rows), AnswerableIds(rows));
    assert Summarize(plan, rows).answerablePairs == |AnswerableIds(rows)|;
  }

  lemma {:induction false} AnswerableAreQualified(rows: seq<ArmRecord>)
    ensures AnswerableIds(rows) <= IdsWith(rows, QualifiedB)
  {
    forall q | q in AnswerableIds(rows) ensures q in IdsWith(rows, QualifiedB) {
      assert PairOf(rows, q).b.value in rows;
    }
  }

  /** The band is measured against the input budget of the question's own B arm. */
  lemma {:induction false} BudgetIs(plan: Plan, i: nat, j: nat)
    requires LegalPlan(plan) && i < |plan.cases| && j < |plan.cases[i].arms| && plan.cases[i].arms[j].arm == B
    ensures BBudget(plan.cases, plan.cases[i].id) == Some(plan.cases[i].arms[j].admitted.available)
  {
    CaseArms(plan.cases[i]);
    FindArmFinds(plan.cases[i].arms, j);
    LookupFinds(plan.cases, i, j);
  }

  lemma {:induction false} FindArmFinds(arms: seq<PlannedArm>, j: nat)
    requires j < |arms| && forall k :: 0 <= k < |arms| && k != j ==> arms[k].arm != arms[j].arm
    ensures FindArm(arms, arms[j].arm) == Some(arms[j])
    decreases |arms|
  {
    if j > 0 { FindArmFinds(arms[1..], j - 1); }
  }

  lemma {:induction false} LookupFinds(cases: seq<PlannedCase>, i: nat, j: nat)
    requires DistinctIds(cases) && i < |cases| && j < |cases[i].arms|
    requires FindArm(cases[i].arms, cases[i].arms[j].arm) == Some(cases[i].arms[j])
    ensures Lookup(cases, (cases[i].id, cases[i].arms[j].arm)) == Some(cases[i].arms[j])
    decreases |cases|
  {
    if i > 0 {
      var rest := cases[1..];
      assert cases[0].id != cases[i].id && rest[i - 1] == cases[i];
      LookupFinds(rest, i - 1, j);
    }
  }
}
