/** The study from end to end: what is planned is executed, and what was executed is summarised. */
module QmsumStudy {
  import opened Outcome
  import opened Text
  import opened QmsumPlan
  import opened QmsumPlanner
  import opened QmsumRecords
  import opened QmsumAnswers
  import opened QmsumSummary

  datatype Study =
    | NoPlan
    | Cancelled(plan: Plan, calls: nat)
    | Finished(plan: Plan, run: AnswerRun, summary: Summary)

  lemma {:induction false} KeyCount(cases: seq<PlannedCase>)
    requires forall i :: 0 <= i < |cases| ==> ValidCase(cases[i])
    ensures |PlannedKeys(cases)| <= 2 * |cases|
    decreases |cases|
  {
    if cases != [] {
      CaseArms(cases[0]);
      KeyCount(cases[1..]);
    }
  }

  /** A plan of the planner has a stated reason for every invalid summary. */
  lemma {:induction false} ReasonsStated(cases: seq<PlannedCase>, questions: seq<Question>, preferred: map<QuestionId, Arm>,
                                         candidates: map<QuestionId, Candidate>, invalid: map<QuestionId, string>, oracle: Oracle)
    requires |cases| == |questions| && forall q :: q in invalid ==> GoodReason(invalid[q])
    requires forall i :: 0 <= i < |questions| ==> Planned(cases[i], questions[i], preferred, candidates, invalid, oracle)
    ensures !BlankTerminal(cases)
  {
    forall i | 0 <= i < |cases| && cases[i].status.CSummaryInvalid? ensures Trim(ReasonText(cases[i])) != "" {
      assert Planned(cases[i], questions[i], preferred, candidates, invalid, oracle);
      assert questions[i].id in invalid;
    }
  }

  /** Without a reason to stop no arm is left, unknown or unverified. */
  lemma {:induction false} NothingLeft(plan: Plan, run: AnswerRun)
    requires LegalPlan(plan) && Faithful(plan, run) && run.stop.None?
    ensures var s := Summarize(plan, run.records);
            s.unattemptedPlannedArms == 0 && s.unknownArms == 0 && s.unverifiedArms == 0
  {
    ArmTotals(plan.cases);
    assert KeysOf(run.records) == PlannedKeys(plan.cases);
    ResolvedCounts(run.records);
  }

  lemma {:induction false} ResolvedCounts(rows: seq<ArmRecord>)
    requires forall i :: 0 <= i < |rows| ==> !Unresolved(rows[i])
    ensures Count(rows, IsUnknown) == 0 && Count(rows, IsUnverified) == 0
    decreases |rows|
  {
    if rows != [] { ResolvedCounts(rows[1..]); }
  }

  /** For all inputs and every behaviour of the dispatcher: a plan that is returned is executed
      without a complaint about it, and its records summarise to a valid summary. */
  method RunStudy(
    questions: seq<Question>,
    verified: bool,
    candidates: map<QuestionId, Candidate>,
    invalid: map<QuestionId, string>,
    oracle: Oracle,
    seed: int,
    dispatch: seq<Dispatch>) returns (r: Study)
    requires forall q :: q in candidates ==> ValidCandidate(candidates[q])
    requires |dispatch| >= 2 * |questions|
    ensures !r.NoPlan? <==>
            && verified && InputsAccepted(questions, candidates, invalid, oracle)
            && |questions| == QUESTION_COUNT && NoRepeat(QuestionIds(questions))
            && (forall i :: 0 <= i < |questions| ==>
                  !BlankView(questions[i], Get(invalid, questions[i].id), Get(candidates, questions[i].id), oracle))
    ensures !r.NoPlan? ==> ValidPlan(r.plan) && |r.plan.cases| == |questions|
    ensures r.Cancelled? ==> CutShort(Items(r.plan.cases), dispatch, r.calls)
    ensures r.Finished? ==>
              && Faithful(r.plan, r.run)
              && r.summary == Summarize(r.plan, r.run.records) && ValidSummary(r.summary)
              && (r.run.stop.None? ==>
                    r.summary.unattemptedPlannedArms == 0 && r.summary.unknownArms == 0 && r.summary.unverifiedArms == 0)
  {
    var planned := PlanOffline(questions, verified, candidates, invalid, oracle, seed);
    if planned.None? {
      return NoPlan;
    }
    KeyCount(planned.value.cases);
    ReasonsStated(planned.value.cases, questions, Preferred(planned.value.orders), candidates, invalid, oracle);
    LegalIsDistinct(planned.value);
    var execution, calls := ExecuteAnswerPlan(planned.value, dispatch);
    if execution.Interrupted? {
      return Study.Cancelled(planned.value, calls);
    }
    var run := execution.run;
    var summary := SummarizeScoreRecords(planned.value, run.records);
    if run.stop.None? {
      NothingLeft(planned.value, run);
    }
    r := Finished(planned.value, run, summary.value);
  }
}
