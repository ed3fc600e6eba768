/** Executing a plan: planned arms in order, one dispatch each, and nothing after
    a call whose outcome is not confirmed. */
module QmsumAnswers {
  import opened Outcome
  import opened Text
  import opened QmsumPlan
  import opened QmsumRecords

  const MODEL := "deepseek-v4.1-flash-1017"
  const PRICE_IDENTITY := "aliyun-beijing-deepseek-v4.1-flash-1017-peak-2-8-cny-v1"
  const INPUT_LIMIT := 32768
  const OUTPUT_LIMIT := 1024

  datatype Counter = NoCounter | Malformed | Tokens(tokens: int)

  /** What a dispatch hands back; a field of the wrong type is missing. */
  datatype Reply = Reply(
    content: Option<string>,
    model: string,
    costIdentity: string,
    input: Option<int>,
    output: Option<int>,
    elapsed: Option<int>,
    cost: Option<real>,
    counter: Counter,
    finishReason: string)

  datatype Dispatch =
    | Returned(reply: Reply)
    | ResumeUnverified
    | NotDispatched
    | Raised
    | Cancelled

  datatype StopReason =
    | ResumeIdentityUnverified
    | StoppedNotDispatched
    | StoppedUnknownOutcome
    | StoppedUnverifiedResponse
    | ProviderCounterMismatch

  datatype AnswerRun = AnswerRun(
    records: seq<ArmRecord>,
    unattempted: seq<Key>,
    stop: Option<StopReason>,
    measured: set<Key>,
    terminal: seq<QuestionId>)

  datatype Execution = Completed(run: AnswerRun) | BlankTerminalReason | Interrupted

  // ------------------------------------------------------------ one reply

  predicate UsageVerified(reply: Reply) {
    && reply.input.Some? && 0 <= reply.input.value <= INPUT_LIMIT
    && reply.output.Some? && 0 <= reply.output.value <= OUTPUT_LIMIT
    && reply.elapsed.Some? && reply.elapsed.value >= 0
  }

  function ExpectedCost(input: int, output: int): real {
    (input as real * 2.0 + output as real * 8.0) / 1000000.0
  }

  predicate CounterMatches(reply: Reply) {
    reply.counter.NoCounter? || (reply.counter.Tokens? && Some(reply.counter.tokens) == reply.input)
  }

  /** The record of a reply that can be trusted; nothing for one that cannot. */
  function ObservedRecord(id: QuestionId, arm: PlannedArm, reply: Reply): (r: Option<ArmRecord>)
    ensures r.Some? <==>
              && reply.content.Some? && reply.model == MODEL && reply.costIdentity == PRICE_IDENTITY
              && reply.input.Some? && 0 <= reply.input.value <= 32768
              && reply.output.Some? && 0 <= reply.output.value <= 1024
              && reply.elapsed.Some? && reply.elapsed.value >= 0
              && reply.cost.Some? && reply.cost.value * 1000000.0 == (2 * reply.input.value + 8 * reply.output.value) as real
              && !reply.counter.Malformed?
    ensures r.Some? ==>
              && KeyOf(r.value) == (id, arm.arm) && r.value.candidate == arm.candidate
              && (r.value.status == Observed || r.value.status == Failed)
              && (r.value.status == Observed <==>
                    && reply.finishReason == "stop" && Trim(r.value.output) != ""
                    && (reply.counter.Tokens? ==> reply.counter.tokens == reply.input.value))
              && Some(r.value.output) == reply.content && r.value.review.None?
              && r.value.measurements == Measurements(Some(reply.input.value), Some(reply.output.value),
                                                      Some(reply.elapsed.value), reply.cost, Some(PRICE_IDENTITY))
  {
    if reply.content.None? || reply.model != MODEL || reply.costIdentity != PRICE_IDENTITY then None
    else if !UsageVerified(reply) then None
    else if reply.cost.None? || reply.cost.value != ExpectedCost(reply.input.value, reply.output.value) then None
    else if reply.counter.Malformed? then None
    else
      var observed := reply.finishReason == "stop" && Trim(reply.content.value) != "" && CounterMatches(reply);
      Some(ArmRecord(
             id, arm.arm, reply.content.value,
             Measurements(Some(reply.input.value), Some(reply.output.value), Some(reply.elapsed.value), reply.cost,
                          Some(PRICE_IDENTITY)),
             None, arm.candidate, if observed then Observed else Failed))
  }

  function UnresolvedRecord(id: QuestionId, arm: PlannedArm, status: ObservationStatus): ArmRecord {
    ArmRecord(id, arm.arm, "", UNMEASURED, None, arm.candidate, status)
  }

  // ------------------------------------------------------------ items

  type Item = (QuestionId, PlannedArm)

  function CaseItems(id: QuestionId, arms: seq<PlannedArm>): (items: seq<Item>)
    ensures |items| == |arms|
  {
    if arms == [] then [] else [(id, arms[0])] + CaseItems(id, arms[1..])
  }

  function Items(cases: seq<PlannedCase>): seq<Item> {
    if cases == [] then [] else CaseItems(cases[0].id, cases[0].arms) + Items(cases[1..])
  }

  function ItemKeys(items: seq<Item>): (keys: seq<Key>)
    ensures |keys| == |items|
    ensures forall i :: 0 <= i < |items| ==> keys[i] == (items[i].0, items[i].1.arm)
  {
    if items == [] then [] else [(items[0].0, items[0].1.arm)] + ItemKeys(items[1..])
  }

  lemma {:induction false} ItemsAreKeys(cases: seq<PlannedCase>)
    ensures ItemKeys(Items(cases)) == PlannedKeys(cases)
    decreases |cases|
  {
    if cases != [] {
      ItemsAreKeys(cases[1..]);
      CaseItemKeys(cases[0].id, cases[0].arms);
      ItemKeysConcat(CaseItems(cases[0].id, cases[0].arms), Items(cases[1..]));
    }
  }

  lemma {:induction false} CaseItemKeys(id: QuestionId, arms: seq<PlannedArm>)
    ensures ItemKeys(CaseItems(id, arms)) == CaseKeys(id, arms)
    decreases |arms|
  {
    if arms != [] {
      CaseItemKeys(id, arms[1..]);
      assert CaseItems(id, arms)[1..] == CaseItems(id, arms[1..]);
    }
  }

  lemma {:induction false} ItemKeysConcat(a: seq<Item>, b: seq<Item>)
    ensures ItemKeys(a + b) == ItemKeys(a) + ItemKeys(b)
  {
  }

  lemma {:induction false} NoRepeatParts<T>(head: seq<T>, tail: seq<T>)
    requires NoRepeat(head + tail)
    ensures NoRepeat(head) && NoRepeat(tail)
    ensures forall i :: 0 <= i < |tail| ==> tail[i] !in head
  {
    var s := head + tail;
    forall i, j | 0 <= i < j < |head| ensures head[i] != head[j] { assert s[i] != s[j]; }
    forall i, j | 0 <= i < j < |tail| ensures tail[i] != tail[j] { assert s[|head| + i] != s[|head| + j]; }
    forall i | 0 <= i < |tail| ensures tail[i] !in head {
      forall j | 0 <= j < |head| ensures head[j] != tail[i] { assert s[j] != s[|head| + i]; }
    }
  }

  /** A key that is not among those of the first case is looked up in the others. */
  lemma {:induction false} LookupRest(cases: seq<PlannedCase>, k: Key)
    requires cases != [] && k !in CaseKeys(cases[0].id, cases[0].arms)
    ensures Lookup(cases, k) == Lookup(cases[1..], k)
  {
    FindArmAgrees(cases[0].id, cases[0].arms, k.1);
  }

  lemma {:induction false} HeadFound(cases: seq<PlannedCase>, i: nat)
    requires cases != [] && NoRepeat(CaseKeys(cases[0].id, cases[0].arms)) && i < |cases[0].arms|
    ensures CaseItems(cases[0].id, cases[0].arms)[i] == (cases[0].id, cases[0].arms[i])
    ensures Lookup(cases, (cases[0].id, cases[0].arms[i].arm)) == Some(cases[0].arms[i])
  {
    ArmFound(cases[0].id, cases[0].arms, i);
  }

  lemma {:induction false} ItemKey(cases: seq<PlannedCase>, i: nat)
    requires i < |Items(cases)|
    ensures i < |PlannedKeys(cases)| && PlannedKeys(cases)[i] == (Items(cases)[i].0, Items(cases)[i].1.arm)
  {
    ItemsAreKeys(cases);
  }

  lemma {:induction false} ItemFound(cases: seq<PlannedCase>, i: nat)
    requires NoRepeat(PlannedKeys(cases)) && i < |Items(cases)|
    ensures Lookup(cases, (Items(cases)[i].0, Items(cases)[i].1.arm)) == Some(Items(cases)[i].1)
    decreases |cases|
  {
    var id, arms, rest := cases[0].id, cases[0].arms, cases[1..];
    NoRepeatParts(CaseKeys(id, arms), PlannedKeys(rest));
    if i < |arms| {
      HeadFound(cases, i);
    } else {
      var j := i - |arms|;
      ItemFound(rest, j);
      ItemKey(rest, j);
      LookupRest(cases, PlannedKeys(rest)[j]);
    }
  }

  lemma {:induction false} ArmFound(id: QuestionId, arms: seq<PlannedArm>, i: nat)
    requires NoRepeat(CaseKeys(id, arms)) && i < |arms|
    ensures CaseItems(id, arms)[i] == (id, arms[i]) && FindArm(arms, arms[i].arm) == Some(arms[i])
    decreases |arms|
  {
    if i > 0 {
      assert CaseKeys(id, arms)[0] != CaseKeys(id, arms)[i];
      assert CaseKeys(id, arms)[1..] == CaseKeys(id, arms[1..]);
      assert NoRepeat(CaseKeys(id, arms[1..])) by {
        forall a, b | 0 <= a < b < |arms| - 1 ensures CaseKeys(id, arms)[1..][a] != CaseKeys(id, arms)[1..][b] {
          assert CaseKeys(id, arms)[a + 1] != CaseKeys(id, arms)[b + 1];
        }
      }
      ArmFound(id, arms[1..], i - 1);
    }
  }

  lemma {:induction false} PrefixIsSubsequence(keys: seq<Key>, i: nat)
    requires i <= |keys|
    ensures Subsequence(keys, keys[..i])
    decreases |keys|
  {
    if i > 0 {
      PrefixIsSubsequence(keys[1..], i - 1);
      assert keys[..i][1..] == keys[1..][..i - 1];
    }
  }

  // ------------------------------------------------------------ execution

  /** The records of the first arms, all of them resolved and citing the plan. */
  ghost predicate Following(plan: Plan, records: seq<ArmRecord>) {
    && |records| <= |PlannedKeys(plan.cases)|
    && KeysOf(records) == PlannedKeys(plan.cases)[..|records|]
    && (forall i :: 0 <= i < |records| ==> !Unresolved(records[i]) && CitesPlanned(plan, records[i]))
  }

  function MeasuredKeys(records: seq<ArmRecord>): set<Key> {
    set r | r in records && !Unresolved(r) :: KeyOf(r)
  }

  /** A record made for item `n` carries its key and cites its candidate. */
  lemma {:induction false} NextRecord(plan: Plan, n: nat, record: ArmRecord)
    requires DistinctArms(plan) && n < |Items(plan.cases)|
    requires KeyOf(record) == (Items(plan.cases)[n].0, Items(plan.cases)[n].1.arm)
    requires record.candidate == Items(plan.cases)[n].1.candidate
    ensures n < |PlannedKeys(plan.cases)| && PlannedKeys(plan.cases)[n] == KeyOf(record)
    ensures CitesPlanned(plan, record)
  {
    ItemsAreKeys(plan.cases);
    ItemFound(plan.cases, n);
  }

  /** One more record for the next planned arm is acceptable, resolved or not. */
  lemma {:induction false} FollowOne(plan: Plan, records: seq<ArmRecord>, record: ArmRecord)
    requires Following(plan, records) && |records| < |PlannedKeys(plan.cases)|
    requires PlannedKeys(plan.cases)[|records|] == KeyOf(record) && CitesPlanned(plan, record)
    ensures Acceptable(plan, records + [record])
    ensures KeysOf(records + [record]) + PlannedKeys(plan.cases)[|records| + 1..] == PlannedKeys(plan.cases)
    ensures !Unresolved(record) ==> Following(plan, records + [record])
  {
    var keys, n, after := PlannedKeys(plan.cases), |records|, records + [record];
    assert KeysOf(after) == KeysOf(records) + [KeyOf(record)];
    assert keys[..n + 1] == keys[..n] + [keys[n]];
    PrefixIsSubsequence(keys, n + 1);
    assert forall i :: 0 <= i < n ==> after[i] == records[i];
  }

  lemma {:induction false} FollowingAcceptable(plan: Plan, records: seq<ArmRecord>)
    requires Following(plan, records)
    ensures Acceptable(plan, records)
    ensures KeysOf(records) + PlannedKeys(plan.cases)[|records|..] == PlannedKeys(plan.cases)
  {
    PrefixIsSubsequence(PlannedKeys(plan.cases), |records|);
  }

  function TerminalIds(cases: seq<PlannedCase>): seq<QuestionId> {
    if cases == [] then []
    else (if cases[0].status.CSummaryInvalid? then [cases[0].id] else []) + TerminalIds(cases[1..])
  }

  /** The terminal cases are those whose summary is invalid. */
  lemma {:induction false} TerminalAre(cases: seq<PlannedCase>)
    ensures forall i :: 0 <= i < |cases| && cases[i].status == CSummaryInvalid ==> cases[i].id in TerminalIds(cases)
    ensures forall q :: q in TerminalIds(cases) ==> TerminalCase(cases, q)
    decreases |cases|
  {
    if cases != [] {
      TerminalAre(cases[1..]);
      forall q | q in TerminalIds(cases) ensures TerminalCase(cases, q) {
        if q in TerminalIds(cases[1..]) {
          var i :| 0 <= i < |cases| - 1 && cases[1..][i].id == q && cases[1..][i].status == CSummaryInvalid;
          assert cases[i + 1].id == q;
        } else {
          assert cases[0].id == q;
        }
      }
    }
  }

  ghost predicate TerminalCase(cases: seq<PlannedCase>, q: QuestionId) {
    exists i :: 0 <= i < |cases| && cases[i].id == q && cases[i].status == CSummaryInvalid
  }

  function ReasonText(c: PlannedCase): string {
    if c.reason.Some? then c.reason.value else ""
  }

  predicate BlankTerminal(cases: seq<PlannedCase>) {
    exists i :: 0 <= i < |cases| && cases[i].status.CSummaryInvalid? && Trim(ReasonText(cases[i])) == ""
  }

  /** What a completed run promises. */
  ghost predicate Faithful(plan: Plan, run: AnswerRun) {
    && Acceptable(plan, run.records)
    && KeysOf(run.records) + run.unattempted == PlannedKeys(plan.cases)
    && run.measured == MeasuredKeys(run.records)
    && run.terminal == TerminalIds(plan.cases)
    && (match run.stop
        case None => run.unattempted == [] && forall i :: 0 <= i < |run.records| ==> !Unresolved(run.records[i])
        case Some(StoppedNotDispatched) => run.unattempted != []
                                           && forall i :: 0 <= i < |run.records| ==> !Unresolved(run.records[i])
        case Some(StoppedUnknownOutcome) => run.records != [] && run.records[|run.records| - 1].status == UnknownOutcome
        case Some(ProviderCounterMismatch) => run.records != [] && run.records[|run.records| - 1].status == Failed
        case Some(_) => run.records != [] && run.records[|run.records| - 1].status == UnverifiedResponse)
  }

  /** The record an arm gets from what its dispatch did ... */
  function Made(item: Item, d: Dispatch): Option<ArmRecord> {
    match d
    case Returned(reply) =>
      var record := ObservedRecord(item.0, item.1, reply);
      Some(if record.Some? then record.value else UnresolvedRecord(item.0, item.1, UnverifiedResponse))
    case ResumeUnverified => Some(UnresolvedRecord(item.0, item.1, UnverifiedResponse))
    case Raised => Some(UnresolvedRecord(item.0, item.1, UnknownOutcome))
    case _ => None
  }

  /** ... and why the run stops there, if it does. */
  function Halt(item: Item, d: Dispatch): Option<StopReason> {
    match d
    case Returned(reply) =>
      if ObservedRecord(item.0, item.1, reply).None? then Some(StoppedUnverifiedResponse)
      else if !CounterMatches(reply) then Some(ProviderCounterMismatch) else None
    case ResumeUnverified => Some(ResumeIdentityUnverified)
    case NotDispatched => Some(StoppedNotDispatched)
    case Raised => Some(StoppedUnknownOutcome)
    case Cancelled => None
  }

  /** The first `n` dispatches gave `records` and no reason to stop. */
  ghost predicate Answered(items: seq<Item>, dispatch: seq<Dispatch>, records: seq<ArmRecord>, n: nat) {
    && n <= |items| && n <= |dispatch| && n <= |records|
    && forall i :: 0 <= i < n ==>
         Made(items[i], dispatch[i]) == Some(records[i]) && Halt(items[i], dispatch[i]).None?
  }

  /** The last of the dispatches was cancelled; each earlier one gave a record and no reason to stop. */
  ghost predicate CutShort(items: seq<Item>, dispatch: seq<Dispatch>, calls: nat) {
    && 0 < calls <= |items| && calls <= |dispatch| && dispatch[calls - 1].Cancelled?
    && forall i :: 0 <= i < calls - 1 ==> Made(items[i], dispatch[i]).Some? && Halt(items[i], dispatch[i]).None?
  }

  /** The run consists of what its dispatches gave, and ended with the first reason to stop. */
  ghost predicate Responds(items: seq<Item>, dispatch: seq<Dispatch>, run: AnswerRun, calls: nat) {
    if run.stop.None? then calls == |items| && |run.records| == calls && Answered(items, dispatch, run.records, calls)
    else
      && 0 < calls && Answered(items, dispatch, run.records, calls - 1) && calls <= |items| && calls <= |dispatch|
      && Halt(items[calls - 1], dispatch[calls - 1]) == run.stop
      && run.records[calls - 1..] == (match Made(items[calls - 1], dispatch[calls - 1])
                                      case Some(record) => [record]
                                      case None => [])
  }

  lemma {:induction false} AnsweredOne(items: seq<Item>, dispatch: seq<Dispatch>, records: seq<ArmRecord>, record: ArmRecord)
    requires Answered(items, dispatch, records, |records|) && |records| < |items| && |records| < |dispatch|
    requires Made(items[|records|], dispatch[|records|]) == Some(record)
    ensures Answered(items, dispatch, records + [record], |records|)
    ensures Halt(items[|records|], dispatch[|records|]).None? ==>
              Answered(items, dispatch, records + [record], |records| + 1)
  {
  }

  lemma {:induction false} RespondsMade(items: seq<Item>, dispatch: seq<Dispatch>, records: seq<ArmRecord>, run: AnswerRun)
    requires Answered(items, dispatch, records, |records|) && |records| < |items| && |records| < |dispatch|
    requires run.stop.Some? && Halt(items[|records|], dispatch[|records|]) == run.stop
    requires run.records == records + (match Made(items[|records|], dispatch[|records|])
                                       case Some(record) => [record]
                                       case None => [])
    ensures Responds(items, dispatch, run, |records| + 1)
  {
    assert forall i :: 0 <= i < |records| ==> run.records[i] == records[i];
  }

  /** Runs the planned arms in order against any behaviour of the dispatcher; it
      is not called again behind a reason to stop. */
  method ExecuteAnswerPlan(plan: Plan, dispatch: seq<Dispatch>) returns (r: Execution, calls: nat)
    requires DistinctArms(plan) && |dispatch| >= |PlannedKeys(plan.cases)|
    ensures r.BlankTerminalReason? <==> BlankTerminal(plan.cases)
    ensures r.BlankTerminalReason? ==> calls == 0
    ensures r.Completed? ==> Faithful(plan, r.run) && Responds(Items(plan.cases), dispatch, r.run, calls)
    ensures r.Interrupted? ==> CutShort(Items(plan.cases), dispatch, calls)
  {
    calls := 0;
    var items := Items(plan.cases);
    ItemsAreKeys(plan.cases);
    if BlankTerminal(plan.cases) {
      return BlankTerminalReason, 0;
    }
    var records: seq<ArmRecord> := [];
    var measured: set<Key> := {};
    for i := 0 to |items|
      invariant |records| == i == calls && Answered(items, dispatch, records, i)
      invariant Following(plan, records)
      invariant measured == MeasuredKeys(records)
    {
      calls := calls + 1;
      var ended, record := AnswerArm(plan, dispatch, records, measured);
      if ended.Some? {
        return ended.value, calls;
      }
      records := records + [record.value];
      measured := measured + {(items[i].0, items[i].1.arm)};
    }
    r := StopResolved(plan, records, measured, None);
  }

  /** One dispatch: ends the run, or gives the record of the next arm. */
  method AnswerArm(plan: Plan, dispatch: seq<Dispatch>, records: seq<ArmRecord>, measured: set<Key>)
    returns (ended: Option<Execution>, record: Option<ArmRecord>)
    requires DistinctArms(plan) && Following(plan, records) && measured == MeasuredKeys(records)
    requires |records| < |Items(plan.cases)| == |PlannedKeys(plan.cases)| <= |dispatch|
    requires Answered(Items(plan.cases), dispatch, records, |records|)
    ensures match ended
            case None =>
              var item := Items(plan.cases)[|records|];
              && record.Some? && Following(plan, records + [record.value])
              && Answered(Items(plan.cases), dispatch, records + [record.value], |records| + 1)
              && MeasuredKeys(records + [record.value]) == measured + {(item.0, item.1.arm)}
            case Some(Completed(run)) => Faithful(plan, run) && Responds(Items(plan.cases), dispatch, run, |records| + 1)
            case Some(Interrupted) => CutShort(Items(plan.cases), dispatch, |records| + 1)
            case Some(BlankTerminalReason) => false
  {
    ended, record := None, None;
    var items := Items(plan.cases);
    var n := |records|;
    var r: Execution;
    match dispatch[n] {
      case Cancelled =>
        return Some(Interrupted), None;
      case NotDispatched =>
        r := StopResolved(plan, records, measured, Some(StoppedNotDispatched));
        RespondsMade(items, dispatch, records, r.run);
        ended := Some(r);
      case ResumeUnverified =>
        r := StopUnresolved(plan, records, measured, UnverifiedResponse, ResumeIdentityUnverified);
        RespondsMade(items, dispatch, records, r.run);
        ended := Some(r);
      case Raised =>
        r := StopUnresolved(plan, records, measured, UnknownOutcome, StoppedUnknownOutcome);
        RespondsMade(items, dispatch, records, r.run);
        ended := Some(r);
      case Returned(reply) =>
        ended, record := TakeReply(plan, dispatch, records, measured, reply);
    }
  }

  method TakeReply(plan: Plan, ghost dispatch: seq<Dispatch>, records: seq<ArmRecord>, measured: set<Key>, reply: Reply)
    returns (ended: Option<Execution>, record: Option<ArmRecord>)
    requires DistinctArms(plan) && Following(plan, records) && measured == MeasuredKeys(records)
    requires |records| < |Items(plan.cases)| == |PlannedKeys(plan.cases)| <= |dispatch|
    requires Answered(Items(plan.cases), dispatch, records, |records|) && dispatch[|records|] == Returned(reply)
    ensures match ended
            case None =>
              var item := Items(plan.cases)[|records|];
              && record.Some? && Following(plan, records + [record.value])
              && Answered(Items(plan.cases), dispatch, records + [record.value], |records| + 1)
              && MeasuredKeys(records + [record.value]) == measured + {(item.0, item.1.arm)}
            case Some(Completed(run)) => Faithful(plan, run) && Responds(Items(plan.cases), dispatch, run, |records| + 1)
            case _ => false
  {
    var items := Items(plan.cases);
    var (id, arm) := items[|records|];
    ended, record := None, ObservedRecord(id, arm, reply);
    var r: Execution;
    if record.None? {
      r := StopUnresolved(plan, records, measured, UnverifiedResponse, StoppedUnverifiedResponse);
      RespondsMade(items, dispatch, records, r.run);
      return Some(r), None;
    }
    FollowResolved(plan, records, record.value);
    if reply.counter.Tokens? && Some(reply.counter.tokens) != reply.input {
      r := StopResolved(plan, records + [record.value], measured + {(id, arm.arm)}, Some(ProviderCounterMismatch));
      RespondsMade(items, dispatch, records, r.run);
      return Some(r), None;
    }
    AnsweredOne(items, dispatch, records, record.value);
  }

  lemma {:induction false} MeasuredSnoc(records: seq<ArmRecord>, record: ArmRecord)
    ensures MeasuredKeys(records + [record]) ==
            MeasuredKeys(records) + if Unresolved(record) then {} else {KeyOf(record)}
  {
  }

  lemma {:induction false} FollowResolved(plan: Plan, records: seq<ArmRecord>, record: ArmRecord)
    requires DistinctArms(plan) && Following(plan, records) && |records| < |Items(plan.cases)| && !Unresolved(record)
    requires KeyOf(record) == (Items(plan.cases)[|records|].0, Items(plan.cases)[|records|].1.arm)
    requires record.candidate == Items(plan.cases)[|records|].1.candidate
    ensures Following(plan, records + [record])
    ensures MeasuredKeys(records + [record]) == MeasuredKeys(records) + {KeyOf(record)}
  {
    NextRecord(plan, |records|, record);
    FollowOne(plan, records, record);
    MeasuredSnoc(records, record);
  }

  /** Ends a run whose records are all resolved: because the arms are used up, the
      dispatcher declined, or the usage of the last reply differs from the local count. */
  method StopResolved(plan: Plan, records: seq<ArmRecord>, measured: set<Key>, reason: Option<StopReason>)
    returns (r: Execution)
    requires DistinctArms(plan) && Following(plan, records) && measured == MeasuredKeys(records)
    requires || (reason == Some(ProviderCounterMismatch) && records != [] && records[|records| - 1].status == Failed)
             || (reason == Some(StoppedNotDispatched) && |records| < |PlannedKeys(plan.cases)|)
             || (reason == None && |records| == |PlannedKeys(plan.cases)|)
    ensures r.Completed? && Faithful(plan, r.run) && r.run.records == records && r.run.stop == reason
  {
    FollowingAcceptable(plan, records);
    ItemsAreKeys(plan.cases);
    if reason != Some(StoppedNotDispatched) {
      var accepted := RecordObservations(plan, records);
      assert accepted.Ok?;
    }
    var unattempted := ItemKeys(Items(plan.cases))[|records|..];
    r := Completed(AnswerRun(records, unattempted, reason, measured, TerminalIds(plan.cases)));
  }

  /** Records the next arm as unresolved and stops; the records are always accepted. */
  method StopUnresolved(plan: Plan, records: seq<ArmRecord>, measured: set<Key>, status: ObservationStatus, reason: StopReason)
    returns (r: Execution)
    requires DistinctArms(plan) && Following(plan, records) && |records| < |PlannedKeys(plan.cases)|
    requires measured == MeasuredKeys(records)
    requires (status == UnknownOutcome && reason == StoppedUnknownOutcome)
             || (status == UnverifiedResponse && (reason == ResumeIdentityUnverified || reason == StoppedUnverifiedResponse))
    ensures r.Completed? && Faithful(plan, r.run) && r.run.stop == Some(reason)
    ensures |records| < |Items(plan.cases)|
    ensures r.run.records == records + [UnresolvedRecord(Items(plan.cases)[|records|].0, Items(plan.cases)[|records|].1, status)]
  {
    var items := Items(plan.cases);
    ItemsAreKeys(plan.cases);
    var (id, arm) := items[|records|];
    var record := UnresolvedRecord(id, arm, status);
    NextRecord(plan, |records|, record);
    FollowOne(plan, records, record);
    MeasuredSnoc(records, record);
    var accepted := RecordObservations(plan, records + [record]);
    assert accepted.Ok?;
    r := Completed(AnswerRun(records + [record], ItemKeys(items)[|records| + 1..], Some(reason), measured, TerminalIds(plan.cases)));
  }
}
