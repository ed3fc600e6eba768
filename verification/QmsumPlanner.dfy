/** Planning the study offline: admission of B, then of C against B, for every
    frozen question, and the plan that results. */
module QmsumPlanner {
  import opened Outcome
  import opened Text
  import opened QmsumPlan
  import opened QmsumOrders

  datatype Domain = Academic | Product | Committee

  datatype Question = Question(id: QuestionId, domain: Domain)

  /** A validated compressed view, with the size its source was declared to have. */
  datatype Candidate = Candidate(id: string, sources: seq<QuestionId>, sourceTokens: nat, view: string)

  predicate ValidCandidate(c: Candidate) {
    c.id != "" && c.sourceTokens > 0
  }

  /** What the budget policy does with a request. */
  datatype Admit = Admitted(admission: Admission) | NotAResult | HubError(code: string)

  /** The policy and the token counter, which may be any functions. */
  datatype Oracle = Oracle(admit: Key -> Admit, transcriptTokens: QuestionId -> nat, viewTokens: string -> nat)

  const ONLINE_MESSAGES := 3

  /** Below the hard threshold, nothing truncated and nothing dropped. */
  predicate Clean(a: Admission) {
    !a.truncated && a.messages == ONLINE_MESSAGES && a.estimated * 100 < a.available * 85
  }

  function RequireB(outcome: Admit): (r: Result<Admission, string>)
    ensures r.Ok? <==> outcome.Admitted? && Clean(outcome.admission)
    ensures r.Ok? ==> r.value == outcome.admission
    ensures r.Err? ==> r.error != ""
  {
    match outcome
    case HubError(code) => Err("B_BUDGET_REJECTED:" + code)
    case NotAResult => Err("budget policy returned an invalid admission result")
    case Admitted(a) =>
      if a.truncated then Err("B_BLOCKED: context admission truncated the transcript")
      else if a.messages != ONLINE_MESSAGES then Err("B_BLOCKED: context admission dropped input messages")
      else if a.estimated * 100 >= a.available * 85 then Err("B_BLOCKED: deterministic history reached its hard threshold")
      else Ok(a)
  }

  /** C is admitted only when complete, under B's budget and strictly smaller than B. */
  function RequireC(outcome: Admit, b: Admission, candidate: Candidate, viewTokens: nat): (r: Result<Admission, string>)
    ensures r.Ok? <==>
              && viewTokens < candidate.sourceTokens && !b.truncated
              && outcome.Admitted? && Clean(outcome.admission)
              && outcome.admission.available == b.available && outcome.admission.estimated < b.estimated
    ensures r.Ok? ==> r.value == outcome.admission
    ensures r.Err? ==> r.error != ""
  {
    if viewTokens >= candidate.sourceTokens
    then Err("C_BLOCKED: validated summary final view did not reduce the measured source view")
    else if b.truncated then Err("C requires a complete B admission")
    else
      match outcome
      case HubError(code) => Err("C_BUDGET_REJECTED:" + code)
      case NotAResult => Err("budget policy returned an invalid C admission result")
      case Admitted(a) => CompareC(a, b)
  }

  /** The admission of C against that of B. */
  function CompareC(a: Admission, b: Admission): (r: Result<Admission, string>)
    ensures r.Ok? <==> Clean(a) && a.available == b.available && a.estimated < b.estimated
    ensures r.Ok? ==> r.value == a
    ensures r.Err? ==> r.error != ""
  {
    if a.truncated then Err("C_BLOCKED: context admission truncated the candidate view")
    else if a.messages != ONLINE_MESSAGES then Err("C_BLOCKED: context admission dropped input messages")
    else if a.available != b.available then Err("C_BLOCKED: B and C must use the same input budget")
    else if a.estimated * 100 >= a.available * 85 then Err("C_BLOCKED: candidate reached the hard threshold")
    else if a.estimated >= b.estimated then Err("C_BLOCKED: validated candidate did not reduce admitted input tokens")
    else Ok(a)
  }

  // ------------------------------------------------------------ one case

  function ArmAt(arm: Arm, order: int, admitted: Admission, candidate: Option<string>): PlannedArm {
    PlannedArm(arm, order, admitted, candidate)
  }

  /** Both arms, the preferred one first. */
  function BothOrdered(b: Admission, c: Admission, candidate: string, first: Arm): seq<PlannedArm> {
    if first == B then [ArmAt(B, 1, b, None), ArmAt(C, 2, c, Some(candidate))]
    else [ArmAt(C, 1, c, Some(candidate)), ArmAt(B, 2, b, None)]
  }

  function PlanAdmitted(q: QuestionId, b: Admission, candidate: Candidate, first: Arm, oracle: Oracle): Result<PlannedCase, ()> {
    if Trim(candidate.view) == "" then Err(())
    else
      match RequireC((oracle.admit)((q, C)), b, candidate, (oracle.viewTokens)(candidate.view))
      case Err(reason) => Ok(PlannedCase(q, CBlocked, [ArmAt(B, 1, b, None)], Some(reason)))
      case Ok(c) => Ok(PlannedCase(q, BReadyCReady, BothOrdered(b, c, candidate.id, first), None))
  }

  /** The case of one question; a blank compressed view is the only way to fail. */
  function PlanCase(q: Question, first: Arm, invalid: Option<string>, candidate: Option<Candidate>, oracle: Oracle)
    : Result<PlannedCase, ()>
  {
    if q.domain == Committee then Ok(PlannedCase(q.id, Excluded, [], Some(COMMITTEE_REASON)))
    else if invalid.Some? then Ok(PlannedCase(q.id, CSummaryInvalid, [], invalid))
    else
      match RequireB((oracle.admit)((q.id, B)))
      case Err(reason) => Ok(PlannedCase(q.id, BBlocked, [], Some(reason)))
      case Ok(b) =>
        if candidate.None? then Ok(PlannedCase(q.id, BReadyCNotApplicable, [ArmAt(B, 1, b, None)], None))
        else PlanAdmitted(q.id, b, candidate.value, first, oracle)
  }

  /** What the gates guarantee of the arms of a case. */
  predicate Gated(c: PlannedCase, first: Arm) {
    && (forall a :: a in c.arms ==> Clean(a.admitted))
    && (|c.arms| == 2 ==>
          && c.arms[0].arm == first
          && var b, d := if first == B then c.arms[0] else c.arms[1], if first == B then c.arms[1] else c.arms[0];
          && b.arm == B && d.arm == C
          && d.admitted.available == b.admitted.available && d.admitted.estimated < b.admitted.estimated)
  }

  /** B is planned for every question whose B request the policy admits cleanly, unless it is
      excluded or its summary is invalid ... */
  predicate BReady(q: Question, invalid: Option<string>, oracle: Oracle) {
    var outcome := (oracle.admit)((q.id, B));
    q.domain != Committee && invalid.None? && outcome.Admitted? && Clean(outcome.admission)
  }

  /** ... and C when it has a candidate that is smaller than its source and is admitted
      cleanly under B's budget with a smaller estimate. */
  predicate CReady(q: Question, candidate: Option<Candidate>, oracle: Oracle) {
    var b, c := (oracle.admit)((q.id, B)), (oracle.admit)((q.id, C));
    && candidate.Some? && (oracle.viewTokens)(candidate.value.view) < candidate.value.sourceTokens
    && b.Admitted? && c.Admitted? && Clean(c.admission)
    && c.admission.available == b.admission.available && c.admission.estimated < b.admission.estimated
  }

  /** Exactly the arms that are ready are planned, with what the policy admitted. */
  predicate Follows(c: PlannedCase, q: Question, invalid: Option<string>, candidate: Option<Candidate>, oracle: Oracle) {
    && (B in ArmsOf(c.arms) <==> BReady(q, invalid, oracle))
    && (C in ArmsOf(c.arms) <==> BReady(q, invalid, oracle) && CReady(q, candidate, oracle))
    && (forall a :: a in c.arms ==>
          && (oracle.admit)((q.id, a.arm)) == Admitted(a.admitted)
          && (a.arm == C ==> candidate.Some? && a.candidate == Some(candidate.value.id)))
    && Reasoned(c, q, candidate, oracle)
  }

  /** A blocked arm is reported with what the gate said. */
  predicate Reasoned(c: PlannedCase, q: Question, candidate: Option<Candidate>, oracle: Oracle) {
    var b := RequireB((oracle.admit)((q.id, B)));
    && (c.status == BBlocked ==> b.Err? && c.reason == Some(b.error))
    && (c.status == CBlocked ==>
          && b.Ok? && candidate.Some?
          && var d := RequireC((oracle.admit)((q.id, C)), b.value, candidate.value, (oracle.viewTokens)(candidate.value.view));
          d.Err? && c.reason == Some(d.error))
  }

  lemma {:induction false} PlanCaseReasoned(q: Question, first: Arm, invalid: Option<string>, candidate: Option<Candidate>, oracle: Oracle)
    requires PlanCase(q, first, invalid, candidate, oracle).Ok?
    ensures Reasoned(PlanCase(q, first, invalid, candidate, oracle).value, q, candidate, oracle)
  {
  }

  lemma {:induction false} PlanCaseFollows(q: Question, first: Arm, invalid: Option<string>, candidate: Option<Candidate>, oracle: Oracle)
    requires PlanCase(q, first, invalid, candidate, oracle).Ok?
    ensures Follows(PlanCase(q, first, invalid, candidate, oracle).value, q, invalid, candidate, oracle)
  {
    var c := PlanCase(q, first, invalid, candidate, oracle).value;
    PlanCaseReasoned(q, first, invalid, candidate, oracle);
    if !BReady(q, invalid, oracle) {
      assert c.arms == [];
    } else {
      var b := (oracle.admit)((q.id, B)).admission;
      if candidate.Some? && CReady(q, candidate, oracle) {
        BothFollow(c, b, (oracle.admit)((q.id, C)).admission, candidate.value.id, first);
      } else {
        OnlyBFollows(c, b);
      }
    }
  }

  lemma {:induction false} OnlyBFollows(c: PlannedCase, b: Admission)
    requires c.arms == [ArmAt(B, 1, b, None)]
    ensures ArmsOf(c.arms) == {B} && forall a :: a in c.arms ==> a.arm == B && a.admitted == b
  {
  }

  lemma {:induction false} BothFollow(c: PlannedCase, b: Admission, d: Admission, candidate: string, first: Arm)
    requires c.arms == BothOrdered(b, d, candidate, first)
    ensures ArmsOf(c.arms) == {B, C}
    ensures forall a :: a in c.arms ==> if a.arm == B then a.admitted == b else a.admitted == d && a.candidate == Some(candidate)
  {
    var x, y := c.arms[0], c.arms[1];
    assert c.arms == [x, y] && x in c.arms && y in c.arms;
  }

  lemma {:induction false} OneArmValid(c: PlannedCase, b: Admission)
    requires c.arms == [ArmAt(B, 1, b, None)]
    requires (c.status == CBlocked && HasReason(c)) || (c.status == BReadyCNotApplicable && c.reason.None?)
    ensures ValidCase(c)
  {
    assert ArmsOf(c.arms) == {B};
    assert (set a | a in c.arms :: a.order) == {1} == UpTo(1) by { assert UpTo(0) == {}; }
  }

  lemma {:induction false} TwoArmsValid(c: PlannedCase, x: PlannedArm, y: PlannedArm)
    requires c.arms == [x, y] && c.status == BReadyCReady && c.reason.None?
    requires ValidArm(x) && ValidArm(y) && x.order == 1 && y.order == 2 && x.arm != y.arm
    ensures ValidCase(c)
  {
    assert ArmsOf(c.arms) == {x.arm, y.arm} == {B, C};
    assert UpTo(2) == {1, 2} by { assert UpTo(0) == {} && UpTo(1) == {1}; }
    assert (set a | a in c.arms :: a.order) == {x.order, y.order};
  }

  lemma {:induction false} NoArmsValid(c: PlannedCase)
    requires c.arms == []
    requires (c.status == Excluded && c.reason == Some(COMMITTEE_REASON))
             || ((c.status == CSummaryInvalid || c.status == BBlocked) && HasReason(c))
    ensures ValidCase(c)
  {
    assert ArmsOf(c.arms) == {};
    assert (set a | a in c.arms :: a.order) == {} == UpTo(0);
  }

  /** Every case that is built passes its own checks and the gates. */
  lemma {:induction false} PlanCaseValid(q: Question, first: Arm, invalid: Option<string>, candidate: Option<Candidate>, oracle: Oracle)
    requires PlanCase(q, first, invalid, candidate, oracle).Ok?
    requires invalid.Some? ==> invalid.value != ""
    requires candidate.Some? ==> ValidCandidate(candidate.value)
    ensures var c := PlanCase(q, first, invalid, candidate, oracle).value;
            && c.id == q.id && ValidCase(c) && Gated(c, first)
            && (c.status == Excluded <==> q.domain == Committee)
            && (q.domain != Committee ==> (c.status == CSummaryInvalid <==> invalid.Some?))
            && (c.status == CSummaryInvalid ==> c.reason == invalid)
  {
    var c := PlanCase(q, first, invalid, candidate, oracle).value;
    var admitted := RequireB((oracle.admit)((q.id, B)));
    if q.domain == Committee || invalid.Some? || admitted.Err? {
      NoArmsValid(c);
    } else if candidate.None? {
      OneArmValid(c, admitted.value);
    } else {
      PlanAdmittedValid(q.id, admitted.value, candidate.value, first, oracle);
    }
  }

  lemma {:induction false} PlanAdmittedValid(q: QuestionId, b: Admission, candidate: Candidate, first: Arm, oracle: Oracle)
    requires PlanAdmitted(q, b, candidate, first, oracle).Ok? && Clean(b) && ValidCandidate(candidate)
    ensures var c := PlanAdmitted(q, b, candidate, first, oracle).value;
            c.id == q && ValidCase(c) && Gated(c, first) && (c.status == CBlocked || c.status == BReadyCReady)
  {
    var c := PlanAdmitted(q, b, candidate, first, oracle).value;
    var admitted := RequireC((oracle.admit)((q, C)), b, candidate, (oracle.viewTokens)(candidate.view));
    if admitted.Err? {
      BlockedGated(c, b, first);
    } else {
      BothGated(c, b, admitted.value, candidate.id, first);
    }
  }

  lemma {:induction false} BlockedGated(c: PlannedCase, b: Admission, first: Arm)
    requires c.arms == [ArmAt(B, 1, b, None)] && c.status == CBlocked && HasReason(c) && Clean(b)
    ensures ValidCase(c) && Gated(c, first)
  {
    OneArmValid(c, b);
  }

  lemma {:induction false} BothGated(c: PlannedCase, b: Admission, d: Admission, candidate: string, first: Arm)
    requires c.arms == BothOrdered(b, d, candidate, first) && c.status == BReadyCReady && c.reason.None? && candidate != ""
    requires Clean(b) && Clean(d) && d.available == b.available && d.estimated < b.estimated
    ensures ValidCase(c) && Gated(c, first)
  {
    TwoArmsValid(c, c.arms[0], c.arms[1]);
  }

  // ------------------------------------------------------------ the plan

  predicate GoodReason(reason: string) {
    Trim(reason) != "" && Trim(reason) == reason && '\U{0}' !in reason
  }

  function DomainOf(questions: seq<Question>, q: QuestionId): Option<Domain> {
    if questions == [] then None else if questions[0].id == q then Some(questions[0].domain) else DomainOf(questions[1..], q)
  }

  predicate Frozen(questions: seq<Question>, q: QuestionId) {
    DomainOf(questions, q).Some?
  }

  /** The domain of a frozen question is its own; any other question has none. */
  lemma {:induction false} DomainIs(questions: seq<Question>, q: QuestionId)
    requires NoRepeat(QuestionIds(questions))
    ensures forall i :: 0 <= i < |questions| ==> DomainOf(questions, questions[i].id) == Some(questions[i].domain)
    ensures Frozen(questions, q) ==> exists i :: 0 <= i < |questions| && questions[i].id == q
  {
    forall i | 0 <= i < |questions| ensures DomainOf(questions, questions[i].id) == Some(questions[i].domain) {
      forall j | 0 <= j < i ensures questions[j].id != questions[i].id {
        assert QuestionIds(questions)[j] != QuestionIds(questions)[i];
      }
      DomainFound(questions, i);
    }
    FrozenFound(questions, q);
  }

  lemma {:induction false} DomainFound(questions: seq<Question>, i: nat)
    requires i < |questions| && forall j :: 0 <= j < i ==> questions[j].id != questions[i].id
    ensures DomainOf(questions, questions[i].id) == Some(questions[i].domain)
    decreases |questions|
  {
    if i > 0 {
      assert questions[0].id != questions[i].id;
      DomainFound(questions[1..], i - 1);
    }
  }

  lemma {:induction false} FrozenFound(questions: seq<Question>, q: QuestionId)
    ensures Frozen(questions, q) ==> exists i :: 0 <= i < |questions| && questions[i].id == q
    decreases |questions|
  {
    if questions != [] && questions[0].id != q {
      FrozenFound(questions[1..], q);
      if Frozen(questions, q) {
        var i :| 0 <= i < |questions| - 1 && questions[1..][i].id == q;
        assert questions[i + 1].id == q;
      }
    }
  }

  /** What is demanded of the candidates and of the reported invalid summaries. */
  predicate InputsAccepted(questions: seq<Question>, candidates: map<QuestionId, Candidate>, invalid: map<QuestionId, string>, oracle: Oracle) {
    && (forall q :: q in candidates ==>
          && Frozen(questions, q) && candidates[q].sources == [q]
          && candidates[q].sourceTokens == (oracle.transcriptTokens)(q))
    && (forall q :: q in invalid ==>
          && Frozen(questions, q) && GoodReason(invalid[q]) && q !in candidates
          && DomainOf(questions, q) != Some(Committee))
  }

  function Get<V>(m: map<QuestionId, V>, q: QuestionId): Option<V> {
    if q in m then Some(m[q]) else None
  }

  function QuestionIds(questions: seq<Question>): (ids: seq<QuestionId>)
    ensures |ids| == |questions|
    ensures forall i :: 0 <= i < |questions| ==> ids[i] == questions[i].id
  {
    if questions == [] then [] else QuestionIds(questions[..|questions| - 1]) + [questions[|questions| - 1].id]
  }

  function Preferred(orders: seq<ArmOrder>): map<QuestionId, Arm> {
    if orders == [] then map[] else Preferred(orders[..|orders| - 1])[orders[|orders| - 1].id := orders[|orders| - 1].first]
  }

  lemma {:induction false} PreferredKeys(orders: seq<ArmOrder>)
    ensures Preferred(orders).Keys == OrderedIds(orders)
    decreases |orders|
  {
    if orders != [] {
      PreferredKeys(orders[..|orders| - 1]);
      assert orders == orders[..|orders| - 1] + [orders[|orders| - 1]];
    }
  }

  lemma {:induction false} PreferredSnoc(orders: seq<ArmOrder>, o: ArmOrder)
    ensures Preferred(orders + [o]) == Preferred(orders)[o.id := o.first]
  {
    assert (orders + [o])[..|orders|] == orders;
  }

  /** A question's preferred arm is the first one of its own order. */
  lemma {:induction false} PreferredIs(orders: seq<ArmOrder>, i: nat)
    requires NoRepeat(OrderIds(orders)) && i < |orders|
    ensures orders[i].id in Preferred(orders) && Preferred(orders)[orders[i].id] == orders[i].first
    decreases |orders|
  {
    var before, last := orders[..|orders| - 1], orders[|orders| - 1];
    assert orders == before + [last];
    PreferredSnoc(before, last);
    if i < |before| {
      assert OrderIds(orders)[i] != OrderIds(orders)[|before|];
      IdsPrefix(orders, before);
      PreferredIs(before, i);
    }
  }

  lemma {:induction false} IdsPrefix(orders: seq<ArmOrder>, before: seq<ArmOrder>)
    requires orders != [] && before == orders[..|orders| - 1] && NoRepeat(OrderIds(orders))
    ensures NoRepeat(OrderIds(before))
  {
    forall i, j | 0 <= i < j < |before| ensures OrderIds(before)[i] != OrderIds(before)[j] {
      assert OrderIds(orders)[i] != OrderIds(orders)[j];
    }
  }

  lemma {:induction false} SameNoRepeat<T>(a: seq<T>, b: seq<T>)
    requires multiset(a) == multiset(b) && NoRepeat(a)
    ensures NoRepeat(b)
  {
    forall i, j | 0 <= i < j < |b| ensures b[i] != b[j] {
      OnceIn(a, b[i]);
      TwiceIn(b, i, j);
    }
  }

  lemma {:induction false} OnceIn<T>(s: seq<T>, x: T)
    requires NoRepeat(s)
    ensures multiset(s)[x] <= 1
    decreases |s|
  {
    if s != [] {
      var n := |s| - 1;
      assert s == s[..n] + [s[n]];
      OnceIn(s[..n], x);
      if s[n] == x {
        assert x !in s[..n];
        assert multiset(s[..n])[x] == 0;
      }
    }
  }

  lemma {:induction false} TwiceIn<T>(s: seq<T>, i: nat, j: nat)
    requires i < j < |s|
    ensures s[i] == s[j] ==> multiset(s)[s[i]] >= 2
  {
    assert s == s[..j] + [s[j]] + s[j + 1..];
    assert s[i] in s[..j];
  }

  /** Case `c` is the planned form of question `q`. */
  ghost predicate Planned(c: PlannedCase, q: Question, preferred: map<QuestionId, Arm>, candidates: map<QuestionId, Candidate>,
                          invalid: map<QuestionId, string>, oracle: Oracle)
  {
    && c.id == q.id && q.id in preferred && ValidCase(c) && Gated(c, preferred[q.id])
    && (c.status == Excluded <==> q.domain == Committee)
    && (q.domain != Committee ==> (c.status == CSummaryInvalid <==> q.id in invalid))
    && (c.status == CSummaryInvalid ==> c.reason == Get(invalid, q.id))
    && Follows(c, q, Get(invalid, q.id), Get(candidates, q.id), oracle)
  }

  /** A candidate whose compressed view is blank, for a question that gets as far as C. */
  predicate BlankView(q: Question, invalid: Option<string>, candidate: Option<Candidate>, oracle: Oracle) {
    && q.domain != Committee && invalid.None? && RequireB((oracle.admit)((q.id, B))).Ok?
    && candidate.Some? && Trim(candidate.value.view) == ""
  }

  lemma {:induction false} OrderIdSet(orders: seq<ArmOrder>)
    ensures forall q :: q in OrderedIds(orders) <==> q in OrderIds(orders)
  {
    var a := OrderIds(orders);
    forall q | q in a ensures q in OrderedIds(orders) {
      var i :| 0 <= i < |a| && a[i] == q;
      assert orders[i] in orders;
    }
    forall o | o in orders ensures o.id in a {
      var i :| 0 <= i < |orders| && orders[i] == o;
      assert a[i] == o.id;
    }
  }

  lemma {:induction false} CaseIdSet(questions: seq<Question>, cases: seq<PlannedCase>)
    requires |cases| == |questions| && forall i :: 0 <= i < |cases| ==> cases[i].id == questions[i].id
    ensures forall q :: q in CaseIds(cases) <==> q in QuestionIds(questions)
  {
    var b := QuestionIds(questions);
    forall q | q in b ensures q in CaseIds(cases) {
      var i :| 0 <= i < |b| && b[i] == q;
      assert cases[i] in cases;
    }
    forall c | c in cases ensures c.id in b {
      var i :| 0 <= i < |cases| && cases[i] == c;
      assert b[i] == c.id;
    }
  }

  lemma {:induction false} SameElements<T>(a: seq<T>, b: seq<T>)
    requires multiset(a) == multiset(b)
    ensures forall x :: x in a <==> x in b
  {
    forall x ensures x in a <==> x in b { assert x in a <==> x in multiset(a); assert x in b <==> x in multiset(b); }
  }

  lemma {:induction false} PreferredCovers(questions: seq<Question>, orders: seq<ArmOrder>, i: nat)
    requires multiset(OrderIds(orders)) == multiset(QuestionIds(questions)) && i < |questions|
    ensures questions[i].id in Preferred(orders)
  {
    SameElements(OrderIds(orders), QuestionIds(questions));
    OrderIdSet(orders);
    PreferredKeys(orders);
    assert QuestionIds(questions)[i] in QuestionIds(questions);
  }

  lemma {:induction false} OrdersCover(questions: seq<Question>, orders: seq<ArmOrder>, cases: seq<PlannedCase>)
    requires |cases| == |questions| && forall i :: 0 <= i < |cases| ==> cases[i].id == questions[i].id
    requires multiset(OrderIds(orders)) == multiset(QuestionIds(questions))
    ensures OrderedIds(orders) == CaseIds(cases)
  {
    SameElements(OrderIds(orders), QuestionIds(questions));
    OrderIdSet(orders);
    CaseIdSet(questions, cases);
    forall q ensures q in OrderedIds(orders) <==> q in CaseIds(cases) {}
  }

  lemma {:induction false} CasesDistinct(questions: seq<Question>, cases: seq<PlannedCase>)
    requires NoRepeat(QuestionIds(questions)) && |cases| == |questions|
    requires forall i :: 0 <= i < |cases| ==> cases[i].id == questions[i].id
    ensures DistinctIds(cases)
  {
    forall i, j | 0 <= i < j < |cases| ensures cases[i].id != cases[j].id {
      assert QuestionIds(questions)[i] != QuestionIds(questions)[j];
    }
  }

  /** The cases of all questions, in source order. */
  method BuildCases(
    questions: seq<Question>,
    preferred: map<QuestionId, Arm>,
    candidates: map<QuestionId, Candidate>,
    invalid: map<QuestionId, string>,
    oracle: Oracle) returns (r: Option<seq<PlannedCase>>)
    requires forall i :: 0 <= i < |questions| ==> questions[i].id in preferred
    requires forall q :: q in candidates ==> ValidCandidate(candidates[q])
    requires forall q :: q in invalid ==> invalid[q] != ""
    ensures r.Some? <==>
            forall i :: 0 <= i < |questions| ==>
              !BlankView(questions[i], Get(invalid, questions[i].id), Get(candidates, questions[i].id), oracle)
    ensures r.Some? ==>
              |r.value| == |questions|
              && forall i :: 0 <= i < |questions| ==> Planned(r.value[i], questions[i], preferred, candidates, invalid, oracle)
  {
    var cases: seq<PlannedCase> := [];
    for i := 0 to |questions|
      invariant |cases| == i
      invariant forall k :: 0 <= k < i ==> Planned(cases[k], questions[k], preferred, candidates, invalid, oracle)
      invariant forall k :: 0 <= k < i ==>
                  !BlankView(questions[k], Get(invalid, questions[k].id), Get(candidates, questions[k].id), oracle)
    {
      var q := questions[i];
      var c := PlanCase(q, preferred[q.id], Get(invalid, q.id), Get(candidates, q.id), oracle);
      if c.Err? {
        assert BlankView(q, Get(invalid, q.id), Get(candidates, q.id), oracle);
        return None;
      }
      PlanCaseValid(q, preferred[q.id], Get(invalid, q.id), Get(candidates, q.id), oracle);
      PlanCaseFollows(q, preferred[q.id], Get(invalid, q.id), Get(candidates, q.id), oracle);
      assert Planned(c.value, q, preferred, candidates, invalid, oracle);
      cases := cases + [c.value];
    }
    r := Some(cases);
  }

  lemma {:induction false} PlanIsValid(questions: seq<Question>, orders: seq<ArmOrder>, cases: seq<PlannedCase>)
    requires |cases| == |questions| == QUESTION_COUNT && NoRepeat(QuestionIds(questions))
    requires forall i :: 0 <= i < |questions| ==> ValidCase(cases[i]) && cases[i].id == questions[i].id
    requires multiset(OrderIds(orders)) == multiset(QuestionIds(questions))
    ensures ValidPlan(Plan(cases, orders))
  {
    OrdersCover(questions, orders, cases);
    CasesDistinct(questions, cases);
  }

  /** Every question has one order, and if both its arms are planned they come in it. */
  ghost predicate OwnOrder(plan: Plan) {
    && NoRepeat(OrderIds(plan.orders))
    && forall i, j :: 0 <= i < |plan.cases| && 0 <= j < |plan.orders| && plan.orders[j].id == plan.cases[i].id
                      && |plan.cases[i].arms| == 2 ==>
         plan.cases[i].arms[0].arm == plan.orders[j].first && plan.cases[i].arms[1].arm != plan.orders[j].first
  }

  lemma {:induction false} PlanOwnsOrders(questions: seq<Question>, orders: seq<ArmOrder>, cases: seq<PlannedCase>,
                                          candidates: map<QuestionId, Candidate>, invalid: map<QuestionId, string>, oracle: Oracle)
    requires |cases| == |questions| && NoRepeat(QuestionIds(questions))
    requires multiset(OrderIds(orders)) == multiset(QuestionIds(questions))
    requires forall i :: 0 <= i < |questions| ==> Planned(cases[i], questions[i], Preferred(orders), candidates, invalid, oracle)
    ensures OwnOrder(Plan(cases, orders))
  {
    SameNoRepeat(QuestionIds(questions), OrderIds(orders));
    forall i, j | 0 <= i < |cases| && 0 <= j < |orders| && orders[j].id == cases[i].id && |cases[i].arms| == 2
      ensures cases[i].arms[0].arm == orders[j].first && cases[i].arms[1].arm != orders[j].first
    {
      assert Planned(cases[i], questions[i], Preferred(orders), candidates, invalid, oracle);
      PreferredIs(orders, j);
      CaseArms(cases[i]);
    }
  }

  /** Plans the complete study; nothing is dispatched. */
  method PlanOffline(
    questions: seq<Question>,
    verified: bool,
    candidates: map<QuestionId, Candidate>,
    invalid: map<QuestionId, string>,
    oracle: Oracle,
    seed: int) returns (r: Option<Plan>)
    requires forall q :: q in candidates ==> ValidCandidate(candidates[q])
    ensures r.Some? <==>
            && verified && InputsAccepted(questions, candidates, invalid, oracle)
            && |questions| == QUESTION_COUNT && NoRepeat(QuestionIds(questions))
            && (forall i :: 0 <= i < |questions| ==>
                  !BlankView(questions[i], Get(invalid, questions[i].id), Get(candidates, questions[i].id), oracle))
    ensures r.Some? ==>
              && ValidPlan(r.value)
              && |r.value.cases| == |questions|
              && (forall i :: 0 <= i < |questions| ==>
                    Planned(r.value.cases[i], questions[i], Preferred(r.value.orders), candidates, invalid, oracle))
              && BothArms(r.value.orders) && BFirst(r.value.orders) == |questions| / 2
    ensures r.Some? ==> OwnOrder(r.value)
  {
    if !verified || !InputsAccepted(questions, candidates, invalid, oracle) {
      return None;
    }
    var balanced := BalancedArmOrders(QuestionIds(questions), seed);
    if balanced.None? {
      return None;
    }
    var orders := balanced.value;
    forall i | 0 <= i < |questions| ensures questions[i].id in Preferred(orders) {
      PreferredCovers(questions, orders, i);
    }
    var cases := BuildCases(questions, Preferred(orders), candidates, invalid, oracle);
    if cases.None? {
      return None;
    }
    forall i | 0 <= i < |questions| ensures ValidCase(cases.value[i]) && cases.value[i].id == questions[i].id {
      assert Planned(cases.value[i], questions[i], Preferred(orders), candidates, invalid, oracle);
    }
    PlanIsValid(questions, orders, cases.value);
    PlanOwnsOrders(questions, orders, cases.value, candidates, invalid, oracle);
    r := Some(Plan(cases.value, orders));
  }
}
