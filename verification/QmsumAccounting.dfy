/** The net cost of C against B: every compared pair pays for its summary call. */
module QmsumAccounting {
  import opened Outcome
  import opened QmsumPlan
  import opened QmsumRecords
  import opened QmsumSummary

  datatype SummaryStatus = Valid | Invalid | UnknownOutcome | NotDispatched | UnverifiedResponse | LocalValidationError

  /** A summary call; a cost or token count that could not be read is missing. */
  datatype SummaryObservation = SummaryObservation(
    id: QuestionId,
    status: SummaryStatus,
    candidate: Option<string>,
    identity: Option<string>,
    cost: Option<real>,
    input: Option<nat>,
    output: Option<nat>)

  datatype AccountingError = BadRecords(error: RecordError) | RepeatedSummary

  datatype Priced = Priced(baseline: real, candidate: real, baselineTokens: nat, candidateTokens: nat)

  datatype NetAccounting = NetAccounting(
    pressureEligiblePairs: nat,
    fullyPricedPairs: nat,
    baselineCost: Option<real>,
    candidateCost: Option<real>,
    costChange: Option<real>,
    baselineTokens: Option<nat>,
    candidateTokens: Option<nat>,
    unpairedAttempts: nat,
    unpairedCost: Option<real>)

  // ------------------------------------------------------------ specification

  /** The band test as the accounting makes it, written apart from the summary's. */
  predicate PressureEligible(cases: seq<PlannedCase>, q: QuestionId, p: Pair) {
    && p.b.Some? && p.c.Some?
    && p.b.value.status == Observed && p.c.value.status == Observed
    && p.b.value.review.Some? && TaskQualified(p.b.value.review.value)
    && p.b.value.measurements.input.Some? && p.c.value.measurements.input.Some?
    && BBudget(cases, q).Some?
    && var available := BBudget(cases, q).value;
    && 70 * available <= 100 * p.b.value.measurements.input.value < 85 * available
    && 100 * p.c.value.measurements.input.value < 85 * available
  }

  /** Question ids in the order in which they first appear. */
  function FirstIds(rows: seq<ArmRecord>): seq<QuestionId> {
    if rows == [] then []
    else
      var before := FirstIds(rows[..|rows| - 1]);
      if rows[|rows| - 1].id in before then before else before + [rows[|rows| - 1].id]
  }

  type RecordPair = (ArmRecord, ArmRecord)

  function Eligible(cases: seq<PlannedCase>, rows: seq<ArmRecord>, ids: seq<QuestionId>): seq<RecordPair> {
    if ids == [] then []
    else
      var q := ids[|ids| - 1];
      var p := PairOf(rows, q);
      Eligible(cases, rows, ids[..|ids| - 1])
      + if PressureEligible(cases, q, p) then [(p.b.value, p.c.value)] else []
  }

  function SummaryFor(summaries: seq<SummaryObservation>, q: QuestionId): (r: Option<SummaryObservation>)
    ensures r.Some? ==> r.value in summaries && r.value.id == q
  {
    if summaries == [] then None
    else if summaries[0].id == q then Some(summaries[0]) else SummaryFor(summaries[1..], q)
  }

  /** The summary call that produced the candidate of the pair's C arm. */
  function Paired(pair: RecordPair, summaries: seq<SummaryObservation>): Option<SummaryObservation> {
    match SummaryFor(summaries, pair.0.id)
    case None => None
    case Some(s) => if s.status.Valid? && s.candidate.Some? && s.candidate == pair.1.candidate then Some(s) else None
  }

  function PriceOf(pair: RecordPair, summaries: seq<SummaryObservation>): Option<Priced> {
    match Paired(pair, summaries)
    case None => None
    case Some(s) =>
      var b, c := pair.0.measurements, pair.1.measurements;
      if b.identity.None? || b.identity.value == "" || b.identity != c.identity || b.identity != s.identity then None
      else if s.cost.None? || b.cost.None? || c.cost.None? || s.input.None? || s.output.None?
              || b.output.None? || c.output.None? || b.input.None? || c.input.None? then None
      else Some(Priced(b.cost.value, s.cost.value + c.cost.value, b.input.value + b.output.value,
                       s.input.value + s.output.value + c.input.value + c.output.value))
  }

  function SummaryIds(pairs: seq<RecordPair>, summaries: seq<SummaryObservation>): set<QuestionId> {
    if pairs == [] then {}
    else
      var pair := pairs[|pairs| - 1];
      SummaryIds(pairs[..|pairs| - 1], summaries) + if Paired(pair, summaries).Some? then {pair.0.id} else {}
  }

  function PricedPairs(pairs: seq<RecordPair>, summaries: seq<SummaryObservation>): (r: seq<Priced>)
    ensures |r| <= |pairs|
  {
    if pairs == [] then []
    else
      var price := PriceOf(pairs[|pairs| - 1], summaries);
      PricedPairs(pairs[..|pairs| - 1], summaries) + if price.Some? then [price.value] else []
  }

  function BaselineTotal(rows: seq<Priced>): real {
    if rows == [] then 0.0 else BaselineTotal(rows[..|rows| - 1]) + rows[|rows| - 1].baseline
  }

  function CandidateTotal(rows: seq<Priced>): real {
    if rows == [] then 0.0 else CandidateTotal(rows[..|rows| - 1]) + rows[|rows| - 1].candidate
  }

  function BaselineTokens(rows: seq<Priced>): nat {
    if rows == [] then 0 else BaselineTokens(rows[..|rows| - 1]) + rows[|rows| - 1].baselineTokens
  }

  function CandidateTokens(rows: seq<Priced>): nat {
    if rows == [] then 0 else CandidateTokens(rows[..|rows| - 1]) + rows[|rows| - 1].candidateTokens
  }

  function Unpaired(summaries: seq<SummaryObservation>, paired: set<QuestionId>): seq<SummaryObservation> {
    if summaries == [] then []
    else (if summaries[0].id !in paired && !summaries[0].status.NotDispatched? then [summaries[0]] else [])
         + Unpaired(summaries[1..], paired)
  }

  predicate AllPriced(summaries: seq<SummaryObservation>) {
    forall i :: 0 <= i < |summaries| ==> summaries[i].cost.Some?
  }

  function CostOf(s: SummaryObservation): real {
    if s.cost.Some? then s.cost.value else 0.0
  }

  function CostTotal(summaries: seq<SummaryObservation>): real {
    if summaries == [] then 0.0 else CostOf(summaries[0]) + CostTotal(summaries[1..])
  }

  predicate DistinctSummaries(summaries: seq<SummaryObservation>) {
    forall i, j :: 0 <= i < j < |summaries| ==> summaries[i].id != summaries[j].id
  }

  /** The relative change of the cost; unknown without a baseline. */
  function Change(baseline: real, candidate: real): (r: Option<real>)
    ensures r.Some? <==> baseline > 0.0
    ensures r.Some? ==> baseline + r.value * baseline == candidate
  {
    if baseline > 0.0 then Some((candidate - baseline) / baseline) else None
  }

  function Account(eligible: seq<RecordPair>, summaries: seq<SummaryObservation>): NetAccounting {
    var priced := PricedPairs(eligible, summaries);
    var complete := eligible != [] && |priced| == |eligible|;
    var unpaired := Unpaired(summaries, SummaryIds(eligible, summaries));
    NetAccounting(
      |eligible|,
      |priced|,
      if complete then Some(BaselineTotal(priced)) else None,
      if complete then Some(CandidateTotal(priced)) else None,
      if complete then Change(BaselineTotal(priced), CandidateTotal(priced)) else None,
      if complete then Some(BaselineTokens(priced)) else None,
      if complete then Some(CandidateTokens(priced)) else None,
      |unpaired|,
      if AllPriced(unpaired) then Some(CostTotal(unpaired)) else None)
  }

  // ------------------------------------------------------------ the two filters agree

  /** A positive input is implied by the band, so both filters keep the same pairs. */
  lemma {:induction false} FiltersAgree(cases: seq<PlannedCase>, q: QuestionId, p: Pair)
    ensures PressureEligible(cases, q, p) <==> UnderPressure(cases, q, p)
  {
  }

  lemma {:induction false} FirstIdsOf(rows: seq<ArmRecord>)
    ensures NoRepeat(FirstIds(rows))
    ensures forall q :: q in FirstIds(rows) <==> q in Ids(rows)
    decreases |rows|
  {
    if rows != [] {
      FirstIdsOf(rows[..|rows| - 1]);
      assert rows == rows[..|rows| - 1] + [rows[|rows| - 1]];
    }
  }

  function Kept(cases: seq<PlannedCase>, rows: seq<ArmRecord>, ids: seq<QuestionId>): set<QuestionId> {
    set q | q in ids && PressureEligible(cases, q, PairOf(rows, q))
  }

  lemma {:induction false} KeptSnoc(cases: seq<PlannedCase>, rows: seq<ArmRecord>, ids: seq<QuestionId>, q: QuestionId)
    requires q !in ids
    ensures |Kept(cases, rows, ids + [q])|
            == |Kept(cases, rows, ids)| + if PressureEligible(cases, q, PairOf(rows, q)) then 1 else 0
  {
    KeptBehind(cases, rows, ids, q, ids + [q]);
    assert q !in Kept(cases, rows, ids);
  }

  lemma {:induction false} KeptBehind(cases: seq<PlannedCase>, rows: seq<ArmRecord>, ids: seq<QuestionId>, q: QuestionId, all: seq<QuestionId>)
    requires all == ids + [q]
    ensures Kept(cases, rows, all)
         == Kept(cases, rows, ids) + if PressureEligible(cases, q, PairOf(rows, q)) then {q} else {}
  {
    assert forall x :: x in all <==> x in ids || x == q;
  }

  lemma {:induction false} EligibleSnoc(cases: seq<PlannedCase>, rows: seq<ArmRecord>, ids: seq<QuestionId>, q: QuestionId)
    ensures |Eligible(cases, rows, ids + [q])|
            == |Eligible(cases, rows, ids)| + if PressureEligible(cases, q, PairOf(rows, q)) then 1 else 0
  {
    assert (ids + [q])[..|ids|] == ids;
  }

  /** One eligible pair for each question that passes the filter. */
  lemma {:induction false} EligibleCount(cases: seq<PlannedCase>, rows: seq<ArmRecord>, ids: seq<QuestionId>)
    requires NoRepeat(ids)
    ensures |Eligible(cases, rows, ids)| == |Kept(cases, rows, ids)|
    decreases |ids|
  {
    if ids == [] {
      assert Kept(cases, rows, ids) == {};
    } else {
      var before, q := ids[..|ids| - 1], ids[|ids| - 1];
      assert NoRepeat(before) && q !in before;
      EligibleCount(cases, rows, before);
      KeptSnoc(cases, rows, before, q);
      EligibleSnoc(cases, rows, before, q);
      assert ids == before + [q];
    }
  }

  predicate DistinctPairs(pairs: seq<RecordPair>) {
    forall i, j :: 0 <= i < j < |pairs| ==> pairs[i].0.id != pairs[j].0.id
  }

  lemma {:induction false} EligibleDistinct(cases: seq<PlannedCase>, rows: seq<ArmRecord>, ids: seq<QuestionId>)
    requires NoRepeat(ids)
    ensures forall i :: 0 <= i < |Eligible(cases, rows, ids)| ==> Eligible(cases, rows, ids)[i].0.id in ids
    ensures DistinctPairs(Eligible(cases, rows, ids))
    decreases |ids|
  {
    if ids != [] {
      var before, q := ids[..|ids| - 1], ids[|ids| - 1];
      EligibleDistinct(cases, rows, before);
      assert ids == before + [q];
    }
  }

  /** The accounting counts exactly the pairs that the summary counts. */
  lemma {:induction false} PressureCountsAgree(plan: Plan, rows: seq<ArmRecord>)
    ensures |Eligible(plan.cases, rows, FirstIds(rows))| == Summarize(plan, rows).pressureValidPairs
  {
    FirstIdsOf(rows);
    EligibleCount(plan.cases, rows, FirstIds(rows));
    forall q ensures q in Kept(plan.cases, rows, FirstIds(rows)) <==> q in PressureIds(plan.cases, rows) {
      FiltersAgree(plan.cases, q, PairOf(rows, q));
    }
    assert Kept(plan.cases, rows, FirstIds(rows)) == PressureIds(plan.cases, rows);
  }

  // ------------------------------------------------------------ conservation

  /** The cost of the summary calls whose question is in `ids`. */
  function CostIn(summaries: seq<SummaryObservation>, ids: set<QuestionId>): real {
    if summaries == [] then 0.0
    else (if summaries[0].id in ids then CostOf(summaries[0]) else 0.0) + CostIn(summaries[1..], ids)
  }

  function Dispatched(summaries: seq<SummaryObservation>): seq<SummaryObservation> {
    if summaries == [] then []
    else (if summaries[0].status.NotDispatched? then [] else [summaries[0]]) + Dispatched(summaries[1..])
  }

  function CTotal(pairs: seq<RecordPair>): real {
    if pairs == [] then 0.0
    else
      var cost := pairs[|pairs| - 1].1.measurements.cost;
      CTotal(pairs[..|pairs| - 1]) + if cost.Some? then cost.value else 0.0
  }

  lemma {:induction false} CostInAbsent(summaries: seq<SummaryObservation>, ids: set<QuestionId>, q: QuestionId)
    requires forall i :: 0 <= i < |summaries| ==> summaries[i].id != q
    ensures CostIn(summaries, ids + {q}) == CostIn(summaries, ids)
    decreases |summaries|
  {
    if summaries != [] { CostInAbsent(summaries[1..], ids, q); }
  }

  lemma {:induction false} CostInAdd(summaries: seq<SummaryObservation>, ids: set<QuestionId>, s: SummaryObservation)
    requires DistinctSummaries(summaries) && s in summaries && s.id !in ids
    ensures CostIn(summaries, ids + {s.id}) == CostIn(summaries, ids) + CostOf(s)
    decreases |summaries|
  {
    var i :| 0 <= i < |summaries| && summaries[i] == s;
    if i == 0 {
      CostInAbsent(summaries[1..], ids, s.id);
    } else {
      assert summaries[1..][i - 1] == s;
      CostInAdd(summaries[1..], ids, s);
    }
  }

  /** What was dispatched is what was paired and what was not. */
  lemma {:induction false} DispatchedDivides(summaries: seq<SummaryObservation>, ids: set<QuestionId>)
    requires forall i :: 0 <= i < |summaries| && summaries[i].id in ids ==> !summaries[i].status.NotDispatched?
    ensures CostTotal(Dispatched(summaries)) == CostIn(summaries, ids) + CostTotal(Unpaired(summaries, ids))
    decreases |summaries|
  {
    if summaries != [] {
      DispatchedDivides(summaries[1..], ids);
      var s, dispatched, unpaired := summaries[0], Dispatched(summaries[1..]), Unpaired(summaries[1..], ids);
      assert ([s] + dispatched)[1..] == dispatched && [] + dispatched == dispatched;
      assert ([s] + unpaired)[1..] == unpaired && [] + unpaired == unpaired;
    }
  }

  lemma {:induction false} SummaryIdsOf(pairs: seq<RecordPair>, summaries: seq<SummaryObservation>)
    ensures forall q :: q in SummaryIds(pairs, summaries) ==> exists i :: 0 <= i < |pairs| && pairs[i].0.id == q
    ensures forall q :: q in SummaryIds(pairs, summaries) ==>
              SummaryFor(summaries, q).Some? && SummaryFor(summaries, q).value.status.Valid?
    decreases |pairs|
  {
    if pairs != [] {
      SummaryIdsOf(pairs[..|pairs| - 1], summaries);
    }
  }

  /** With every pair priced, the candidate total is each pair's summary call and C call. */
  lemma {:induction false} CandidateDivides(pairs: seq<RecordPair>, summaries: seq<SummaryObservation>)
    requires DistinctPairs(pairs) && DistinctSummaries(summaries) && |PricedPairs(pairs, summaries)| == |pairs|
    ensures CandidateTotal(PricedPairs(pairs, summaries)) == CostIn(summaries, SummaryIds(pairs, summaries)) + CTotal(pairs)
    decreases |pairs|
  {
    if pairs == [] {
      CostInNone(summaries);
    } else {
      var before, pair := pairs[..|pairs| - 1], pairs[|pairs| - 1];
      var ids := SummaryIds(before, summaries);
      CandidateDivides(before, summaries);
      SummaryIdsOf(before, summaries);
      var s := Paired(pair, summaries).value;
      assert s.id !in ids;
      CostInAdd(summaries, ids, s);
      var price := PriceOf(pair, summaries).value;
      assert PricedPairs(pairs, summaries) == PricedPairs(before, summaries) + [price];
      assert (PricedPairs(before, summaries) + [price])[..|before|] == PricedPairs(before, summaries);
    }
  }

  lemma {:induction false} CostInNone(summaries: seq<SummaryObservation>)
    ensures CostIn(summaries, {}) == 0.0
    decreases |summaries|
  {
    if summaries != [] { CostInNone(summaries[1..]); }
  }

  lemma {:induction false} SummaryForUnique(summaries: seq<SummaryObservation>, i: nat)
    requires DistinctSummaries(summaries) && i < |summaries|
    ensures SummaryFor(summaries, summaries[i].id) == Some(summaries[i])
    decreases |summaries|
  {
    if i > 0 { SummaryForUnique(summaries[1..], i - 1); }
  }

  /** Candidate cost plus unpaired summary cost counts every dispatched summary
      call once and every eligible C call once. */
  lemma {:induction false} NothingLostOrDoubled(pairs: seq<RecordPair>, summaries: seq<SummaryObservation>)
    requires DistinctPairs(pairs) && DistinctSummaries(summaries)
    requires Account(pairs, summaries).candidateCost.Some? && Account(pairs, summaries).unpairedCost.Some?
    ensures Account(pairs, summaries).candidateCost.value + Account(pairs, summaries).unpairedCost.value
            == CostTotal(Dispatched(summaries)) + CTotal(pairs)
    ensures AllPriced(Dispatched(summaries))
  {
    var ids := SummaryIds(pairs, summaries);
    CandidateDivides(pairs, summaries);
    SummaryIdsOf(pairs, summaries);
    forall i | 0 <= i < |summaries| && summaries[i].id in ids ensures !summaries[i].status.NotDispatched? {
      SummaryForUnique(summaries, i);
    }
    DispatchedDivides(summaries, ids);
    DispatchedPriced(pairs, summaries, summaries);
  }

  lemma {:induction false} DispatchedPriced(pairs: seq<RecordPair>, all: seq<SummaryObservation>, summaries: seq<SummaryObservation>)
    requires |PricedPairs(pairs, all)| == |pairs| && AllPriced(Unpaired(summaries, SummaryIds(pairs, all)))
    requires DistinctSummaries(all) && forall i :: 0 <= i < |summaries| ==> summaries[i] in all
    ensures AllPriced(Dispatched(summaries))
    decreases |summaries|
  {
    if summaries != [] {
      var ids, s := SummaryIds(pairs, all), summaries[0];
      var rest := Unpaired(summaries[1..], ids);
      assert AllPriced(rest) by {
        var all' := Unpaired(summaries, ids);
        var d := |all'| - |rest|;
        forall i | 0 <= i < |rest| ensures rest[i].cost.Some? { assert all'[i + d] == rest[i]; }
      }
      DispatchedPriced(pairs, all, summaries[1..]);
      if s.id in ids {
        PairedIsPriced(pairs, all, s);
      } else if !s.status.NotDispatched? {
        assert Unpaired(summaries, ids)[0] == s;
      }
    }
  }

  lemma {:induction false} PairedIsPriced(pairs: seq<RecordPair>, summaries: seq<SummaryObservation>, s: SummaryObservation)
    requires |PricedPairs(pairs, summaries)| == |pairs| && DistinctSummaries(summaries)
    requires s in summaries && s.id in SummaryIds(pairs, summaries)
    ensures s.cost.Some?
    decreases |pairs|
  {
    var before, pair := pairs[..|pairs| - 1], pairs[|pairs| - 1];
    var i :| 0 <= i < |summaries| && summaries[i] == s;
    SummaryForUnique(summaries, i);
    if s.id in SummaryIds(before, summaries) {
      PairedIsPriced(before, summaries, s);
    } else {
      assert Paired(pair, summaries) == Some(s);
    }
  }

  // ------------------------------------------------------------ the method

  function Put(p: Pair, r: ArmRecord): Pair {
    if r.arm == B then p.(b := Some(r)) else p.(c := Some(r))
  }

  lemma {:induction false} RowOfSnoc(rows: seq<ArmRecord>, r: ArmRecord, k: Key)
    ensures RowOf(rows + [r], k)
            == if RowOf(rows, k).Some? then RowOf(rows, k) else if KeyOf(r) == k then Some(r) else None
    decreases |rows|
  {
    if rows == [] {
      assert [] + [r] == [r] && [r][1..] == [];
    } else {
      assert (rows + [r])[1..] == rows[1..] + [r];
      RowOfSnoc(rows[1..], r, k);
    }
  }

  /** Recording one more row changes one arm of one pair. */
  lemma {:induction false} PairOfSnoc(rows: seq<ArmRecord>, r: ArmRecord, q: QuestionId)
    requires RowOf(rows, KeyOf(r)).None?
    ensures PairOf(rows + [r], q) == if q == r.id then Put(PairOf(rows, q), r) else PairOf(rows, q)
  {
    RowOfSnoc(rows, r, (q, B));
    RowOfSnoc(rows, r, (q, C));
  }

  ghost predicate Grouped(rows: seq<ArmRecord>, order: seq<QuestionId>, byQuestion: map<QuestionId, Pair>) {
    && order == FirstIds(rows)
    && (forall q :: q in byQuestion <==> q in order)
    && (forall q :: q in byQuestion ==> byQuestion[q] == PairOf(rows, q))
  }

  lemma {:induction false} AbsentPair(rows: seq<ArmRecord>, q: QuestionId)
    requires q !in FirstIds(rows)
    ensures PairOf(rows, q) == Pair(None, None)
  {
    FirstIdsOf(rows);
    assert q !in Ids(rows);
  }

  function NextOrder(order: seq<QuestionId>, r: ArmRecord): seq<QuestionId> {
    if r.id in order then order else order + [r.id]
  }

  function NextGroups(byQuestion: map<QuestionId, Pair>, r: ArmRecord): map<QuestionId, Pair> {
    byQuestion[r.id := Put(if r.id in byQuestion then byQuestion[r.id] else Pair(None, None), r)]
  }

  lemma {:induction false} GroupOne(rows: seq<ArmRecord>, r: ArmRecord, after: seq<ArmRecord>,
                                    order: seq<QuestionId>, byQuestion: map<QuestionId, Pair>)
    requires Grouped(rows, order, byQuestion) && RowOf(rows, KeyOf(r)).None? && after == rows + [r]
    ensures Grouped(after, NextOrder(order, r), NextGroups(byQuestion, r))
  {
    assert after[..|rows|] == rows && after[|rows|] == r;
    if r.id !in order { AbsentPair(rows, r.id); }
    var groups := NextGroups(byQuestion, r);
    forall q | q in groups ensures groups[q] == PairOf(after, q) { PairOfSnoc(rows, r, q); }
  }

  lemma {:induction false} RowIsNew(rows: seq<ArmRecord>, i: nat)
    requires NoRepeat(KeysOf(rows)) && i < |rows|
    ensures RowOf(rows[..i], KeyOf(rows[i])).None?
  {
    forall x | x in rows[..i] ensures KeyOf(x) != KeyOf(rows[i]) {
      var j :| 0 <= j < i && rows[..i][j] == x;
      assert KeysOf(rows)[j] != KeysOf(rows)[i];
    }
  }

  /** The records by question, in the order of first appearance. */
  method GroupRows(rows: seq<ArmRecord>) returns (order: seq<QuestionId>, byQuestion: map<QuestionId, Pair>)
    requires NoRepeat(KeysOf(rows))
    ensures Grouped(rows, order, byQuestion)
  {
    order, byQuestion := [], map[];
    ghost var done: seq<ArmRecord> := [];
    for i := 0 to |rows|
      invariant done == rows[..i] && Grouped(done, order, byQuestion)
    {
      var row := rows[i];
      ghost var after := rows[..i + 1];
      RowIsNew(rows, i);
      assert after == done + [row];
      GroupOne(done, row, after, order, byQuestion);
      order, byQuestion, done := NextOrder(order, row), NextGroups(byQuestion, row), after;
    }
    assert done == rows;
  }

  lemma {:induction false} EligibleNext(cases: seq<PlannedCase>, rows: seq<ArmRecord>, order: seq<QuestionId>, i: nat, pair: Pair)
    requires i < |order| && pair == PairOf(rows, order[i])
    ensures Eligible(cases, rows, order[..i + 1])
            == Eligible(cases, rows, order[..i])
               + if PressureEligible(cases, order[i], pair) then [(pair.b.value, pair.c.value)] else []
  {
    assert order[..i + 1][..i] == order[..i];
  }

  /** The pairs inside the band. */
  method SelectEligible(cases: seq<PlannedCase>, ghost rows: seq<ArmRecord>, order: seq<QuestionId>, byQuestion: map<QuestionId, Pair>)
    returns (eligible: seq<RecordPair>)
    requires Grouped(rows, order, byQuestion)
    ensures eligible == Eligible(cases, rows, order)
  {
    eligible := [];
    for i := 0 to |order|
      invariant eligible == Eligible(cases, rows, order[..i])
    {
      var q := order[i];
      assert q in order;
      var pair := byQuestion[q];
      EligibleNext(cases, rows, order, i, pair);
      if PressureEligible(cases, q, pair) {
        eligible := eligible + [(pair.b.value, pair.c.value)];
      }
    }
    assert order[..|order|] == order;
  }

  /** The prices of the pairs that have one, and the questions whose summary was used. */
  method PricePairs(eligible: seq<RecordPair>, summaries: seq<SummaryObservation>)
    returns (priced: seq<Priced>, pairedIds: set<QuestionId>)
    ensures priced == PricedPairs(eligible, summaries) && pairedIds == SummaryIds(eligible, summaries)
  {
    priced, pairedIds := [], {};
    for i := 0 to |eligible|
      invariant priced == PricedPairs(eligible[..i], summaries)
      invariant pairedIds == SummaryIds(eligible[..i], summaries)
    {
      assert eligible[..i + 1][..i] == eligible[..i];
      var price := PriceOf(eligible[i], summaries);
      if Paired(eligible[i], summaries).Some? {
        pairedIds := pairedIds + {eligible[i].0.id};
      }
      if price.Some? {
        priced := priced + [price.value];
      }
    }
    assert eligible[..|eligible|] == eligible;
  }

  /** B against summary plus C over the pairs inside the band; what is not known
      stays unknown. */
  method AccountPressurePairs(plan: Plan, arms: seq<ArmRecord>, summaries: seq<SummaryObservation>)
    returns (r: Result<NetAccounting, AccountingError>)
    requires LegalPlan(plan)
    ensures r.Ok? <==> Acceptable(plan, arms) && DistinctSummaries(summaries)
    ensures r.Ok? ==> r.value == Account(Eligible(plan.cases, arms, FirstIds(arms)), summaries)
    ensures r.Ok? ==> r.value.pressureEligiblePairs == Summarize(plan, arms).pressureValidPairs
    ensures r.Ok? && r.value.candidateCost.Some? && r.value.unpairedCost.Some? ==>
              r.value.candidateCost.value + r.value.unpairedCost.value
              == CostTotal(Dispatched(summaries)) + CTotal(Eligible(plan.cases, arms, FirstIds(arms)))
  {
    LegalIsDistinct(plan);
    var recorded := RecordObservations(plan, arms);
    if recorded.Err? {
      return Err(BadRecords(recorded.error));
    }
    PlannedKeysDistinct(plan.cases);
    SubsequenceAscends(PlannedKeys(plan.cases), KeysOf(arms));
    var order, byQuestion := GroupRows(recorded.value);
    if !DistinctSummaries(summaries) {
      return Err(RepeatedSummary);
    }
    var eligible := SelectEligible(plan.cases, arms, order, byQuestion);
    var priced, pairedIds := PricePairs(eligible, summaries);
    var complete := eligible != [] && |priced| == |eligible|;
    var unpaired := Unpaired(summaries, pairedIds);
    r := Ok(NetAccounting(
              |eligible|,
              |priced|,
              if complete then Some(BaselineTotal(priced)) else None,
              if complete then Some(CandidateTotal(priced)) else None,
              if complete then Change(BaselineTotal(priced), CandidateTotal(priced)) else None,
              if complete then Some(BaselineTokens(priced)) else None,
              if complete then Some(CandidateTokens(priced)) else None,
              |unpaired|,
              if AllPriced(unpaired) then Some(CostTotal(unpaired)) else None));
    assert r.value == Account(eligible, summaries);
    AccountFacts(plan, arms, summaries);
  }

  lemma {:induction false} AccountFacts(plan: Plan, rows: seq<ArmRecord>, summaries: seq<SummaryObservation>)
    requires DistinctSummaries(summaries)
    ensures var pairs := Eligible(plan.cases, rows, FirstIds(rows));
            var net := Account(pairs, summaries);
            && net.pressureEligiblePairs == Summarize(plan, rows).pressureValidPairs
            && (net.candidateCost.Some? && net.unpairedCost.Some? ==>
                  net.candidateCost.value + net.unpairedCost.value == CostTotal(Dispatched(summaries)) + CTotal(pairs))
  {
    PressureCountsAgree(plan, rows);
    FirstIdsOf(rows);
    EligibleDistinct(plan.cases, rows, FirstIds(rows));
    var pairs := Eligible(plan.cases, rows, FirstIds(rows));
    var net := Account(pairs, summaries);
    if net.candidateCost.Some? && net.unpairedCost.Some? { NothingLostOrDoubled(pairs, summaries); }
  }

  // ------------------------------------------------------------ what the totals are

  function BTotal(pairs: seq<RecordPair>): real {
    if pairs == [] then 0.0
    else
      var cost := pairs[|pairs| - 1].0.measurements.cost;
      BTotal(pairs[..|pairs| - 1]) + if cost.Some? then cost.value else 0.0
  }

  function Measured(tokens: Option<nat>): nat {
    if tokens.Some? then tokens.value else 0
  }

  /** Everything a call read and wrote. */
  function TokensOf(r: ArmRecord): nat {
    Measured(r.measurements.input) + Measured(r.measurements.output)
  }

  function BTokens(pairs: seq<RecordPair>): nat {
    if pairs == [] then 0 else BTokens(pairs[..|pairs| - 1]) + TokensOf(pairs[|pairs| - 1].0)
  }

  function CTokens(pairs: seq<RecordPair>): nat {
    if pairs == [] then 0 else CTokens(pairs[..|pairs| - 1]) + TokensOf(pairs[|pairs| - 1].1)
  }

  function SummaryTokensOf(s: Option<SummaryObservation>): nat {
    if s.Some? then Measured(s.value.input) + Measured(s.value.output) else 0
  }

  /** The tokens of the summary calls of the pairs' questions. */
  function SummaryTokens(pairs: seq<RecordPair>, summaries: seq<SummaryObservation>): nat {
    if pairs == [] then 0
    else SummaryTokens(pairs[..|pairs| - 1], summaries) + SummaryTokensOf(SummaryFor(summaries, pairs[|pairs| - 1].0.id))
  }

  /** A pair has a price exactly when its question's summary call was valid, made the candidate
      that C used, all three calls have one price identity, and every figure is known. */
  lemma {:induction false} PricedIff(pair: RecordPair, summaries: seq<SummaryObservation>)
    ensures PriceOf(pair, summaries).Some? <==>
              && SummaryFor(summaries, pair.0.id).Some?
              && var b, c, s := pair.0.measurements, pair.1.measurements, SummaryFor(summaries, pair.0.id).value;
              && s.status == Valid && s.candidate.Some? && pair.1.candidate == s.candidate
              && (exists identity :: identity != "" && Some(identity) == b.identity == c.identity == s.identity)
              && b.cost.Some? && b.input.Some? && b.output.Some?
              && c.cost.Some? && c.input.Some? && c.output.Some?
              && s.cost.Some? && s.input.Some? && s.output.Some?
  {
    if SummaryFor(summaries, pair.0.id).Some? && pair.0.measurements.identity.Some? {
      var identity := pair.0.measurements.identity.value;
      assert Some(identity) == pair.0.measurements.identity;
    }
  }

  /** A known price is B's cost and tokens against those of the summary call and C together. */
  lemma {:induction false} PriceIs(pair: RecordPair, summaries: seq<SummaryObservation>)
    requires PriceOf(pair, summaries).Some?
    ensures var p, s := PriceOf(pair, summaries).value, SummaryFor(summaries, pair.0.id);
            && Some(p.baseline) == pair.0.measurements.cost && p.baselineTokens == TokensOf(pair.0)
            && s.Some? && s.value.cost.Some? && pair.1.measurements.cost.Some?
            && p.candidate == s.value.cost.value + pair.1.measurements.cost.value
            && p.candidateTokens == SummaryTokensOf(s) + TokensOf(pair.1)
  {
  }

  lemma {:induction false} PricedPairsLast(pairs: seq<RecordPair>, summaries: seq<SummaryObservation>)
    requires pairs != [] && |PricedPairs(pairs, summaries)| == |pairs|
    ensures var before, last := pairs[..|pairs| - 1], pairs[|pairs| - 1];
            && |PricedPairs(before, summaries)| == |before| && PriceOf(last, summaries).Some?
            && PricedPairs(pairs, summaries) == PricedPairs(before, summaries) + [PriceOf(last, summaries).value]
  {
  }

  lemma {:induction false} TotalsSnoc(rows: seq<Priced>, p: Priced)
    ensures BaselineTotal(rows + [p]) == BaselineTotal(rows) + p.baseline
    ensures BaselineTokens(rows + [p]) == BaselineTokens(rows) + p.baselineTokens
    ensures CandidateTokens(rows + [p]) == CandidateTokens(rows) + p.candidateTokens
  {
    assert (rows + [p])[..|rows|] == rows;
  }

  /** With every pair priced, the baseline is the B calls, and the tokens are those of the calls. */
  lemma {:induction false} TotalsAre(pairs: seq<RecordPair>, summaries: seq<SummaryObservation>)
    requires |PricedPairs(pairs, summaries)| == |pairs|
    ensures BaselineTotal(PricedPairs(pairs, summaries)) == BTotal(pairs)
    ensures BaselineTokens(PricedPairs(pairs, summaries)) == BTokens(pairs)
    ensures CandidateTokens(PricedPairs(pairs, summaries)) == SummaryTokens(pairs, summaries) + CTokens(pairs)
    decreases |pairs|
  {
    if pairs != [] {
      var before, last := pairs[..|pairs| - 1], pairs[|pairs| - 1];
      PricedPairsLast(pairs, summaries);
      TotalsAre(before, summaries);
      PriceIs(last, summaries);
      TotalsSnoc(PricedPairs(before, summaries), PriceOf(last, summaries).value);
    }
  }

  /** What is reported: costs and tokens are known exactly when there is a pair and every pair
      has a price, and then they are the totals of the calls themselves. */
  lemma {:induction false} AccountIs(pairs: seq<RecordPair>, summaries: seq<SummaryObservation>)
    ensures var net := Account(pairs, summaries);
            var known := pairs != [] && |PricedPairs(pairs, summaries)| == |pairs|;
            && net.baselineCost == (if known then Some(BTotal(pairs)) else None)
            && net.baselineTokens == (if known then Some(BTokens(pairs)) else None)
            && net.candidateTokens == (if known then Some(SummaryTokens(pairs, summaries) + CTokens(pairs)) else None)
            && (net.candidateCost.Some? <==> known)
            && net.costChange == if known then Change(BTotal(pairs), net.candidateCost.value) else None
  {
    if pairs != [] && |PricedPairs(pairs, summaries)| == |pairs| {
      TotalsAre(pairs, summaries);
    }
  }
}
