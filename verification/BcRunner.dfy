/** The three-stage B/C coordinator. A live run asks a counter, a budget and a
    provider, whose answers are arbitrary, and persists its record around every
    one of those calls. The events of a run are fed to a monitor that states the
    protocol; every run of the coordinator is accepted by it. */
module BcRunner {
  import opened Outcome
  import opened Text
  import opened Decimals

  datatype Stage = Summary | B | C

  const ORDER: seq<Stage> := [Summary, B, C]

  function Rank(s: Stage): nat {
    match s case Summary => 0 case B => 1 case C => 2
  }

  datatype StageState =
    | Planned
    | Reserving
    | ReservedOrUnknown
    | UnknownOutcome
    | Settled
    | NotDispatched
    | NotDispatchedBudgetRejected
    | NotDispatchedSummaryCitationsInvalid

  datatype Status =
    | DryRun
    | PlannedLive
    | IneligibleFrozenPlan
    | ExactCountsRequired
    | SummaryUnusable
    | CGate
    | ExactCountUnavailable
    | CostGate
    | RequestIdentityInvalid
    | BudgetRejected
    | StoppedUnknownOutcome
    | UnverifiedReply
    | ProviderUsageMismatch
    | SettlementUnresolved
    | UsageMismatch
    | CSkippedSummaryInvalid
    | AwaitingReviewWithCitationIssues
    | AwaitingReview

  /** The parts of the persisted record that the protocol is about. */
  datatype Record = Record(status: Status, summary: StageState, b: StageState, c: StageState)

  function StateOf(r: Record, s: Stage): StageState {
    match s case Summary => r.summary case B => r.b case C => r.c
  }

  function With(r: Record, s: Stage, state: StageState): Record {
    match s case Summary => r.(summary := state) case B => r.(b := state) case C => r.(c := state)
  }

  /** What a stage's record notes about why it did not complete. */
  datatype Note =
    | ReserveExceedsBudget
    | CountUnavailable
    | ExceedsGate
    | ExceedsWorkset
    | BudgetError
    | DispatchError
    | UnverifiedProviderReply
    | InputUsageDiffers
    | SettlementError
    | ReservationRetained
    | NoRetry

  datatype Notes = Notes(summary: seq<Note>, b: seq<Note>, c: seq<Note>)

  const NO_NOTES := Notes([], [], [])

  function NotesOf(n: Notes, s: Stage): seq<Note> {
    match s case Summary => n.summary case B => n.b case C => n.c
  }

  function Noting(n: Notes, s: Stage, notes: seq<Note>): Notes {
    match s case Summary => n.(summary := notes) case B => n.(b := notes) case C => n.(c := notes)
  }

  // ------------------------------------------------------------ frozen inputs

  datatype Spec = Spec(
    workset: nat,
    contextLimit: nat,
    summaryCap: nat,
    bCap: nat,
    cCap: nat,
    inputPrice: real,
    outputPrice: real,
    priceIdentity: string,
    modelId: string,
    maxTotal: real,
    occupancyMin: real,
    occupancyMax: real,
    reduction: real,
    slack: nat,
    enforceOccupancy: bool,
    segments: set<string>)

  predicate ValidSpec(spec: Spec) {
    && 1024 <= spec.workset <= spec.contextLimit <= 32768
    && spec.summaryCap > 0 && spec.bCap > 0 && spec.cCap > 0
    && spec.inputPrice > 0.0 && spec.outputPrice > 0.0 && spec.priceIdentity != ""
    && 0.0 < spec.maxTotal <= 30.0
    && 0.0 < spec.occupancyMin <= spec.occupancyMax <= 1.0
    && 0.0 < spec.reduction < 1.0
    && spec.segments != {}
  }

  function Cap(spec: Spec, s: Stage): nat {
    match s case Summary => spec.summaryCap case B => spec.bCap case C => spec.cCap
  }

  function Price(spec: Spec, input: nat, output: nat): real {
    (input as real * spec.inputPrice + output as real * spec.outputPrice) / 1000000.0
  }

  /** Reserved against the declared admission ceiling, not against the counted input. */
  function ReservationCost(spec: Spec, s: Stage): real {
    Price(spec, spec.contextLimit, Cap(spec, s))
  }

  function Projected(spec: Spec): real {
    ReservationCost(spec, Summary) + ReservationCost(spec, B) + ReservationCost(spec, C)
  }

  /** Counts of the three frozen requests; C is counted with an empty summary. */
  datatype Counts = NoCounter | Counts(summary: nat, b: nat, c: nat)

  datatype Issue =
    | BOutsideOccupancy
    | SummaryExceedsWorkset
    | BExceedsWorkset
    | CSafeBoundExceedsWorkset
    | ProjectedCostExceedsBudget

  datatype Eligibility = Uncounted | Eligible | Ineligible

  datatype Plan = Plan(eligible: Eligibility, issues: seq<Issue>)

  predicate OccupancyMet(spec: Spec, b: nat)
    requires spec.workset > 0
  {
    spec.occupancyMin <= b as real / spec.workset as real <= spec.occupancyMax
  }

  function Flag(condition: bool, issue: Issue): seq<Issue> {
    if condition then [issue] else []
  }

  /** The dry part of a run: what the counts allow. */
  function BasePlan(spec: Spec, counts: Counts): Plan
    requires spec.workset > 0
  {
    match counts
    case NoCounter => Plan(Uncounted, [])
    case Counts(summary, b, c) =>
      var safe := c + spec.summaryCap + spec.slack;
      var fits := summary + spec.summaryCap <= spec.workset && b + spec.bCap <= spec.workset
                  && safe + spec.cCap <= spec.workset;
      var tooDear := Projected(spec) > spec.maxTotal;
      Plan(
        if fits && (OccupancyMet(spec, b) || !spec.enforceOccupancy) && !tooDear then Eligible else Ineligible,
        Flag(!OccupancyMet(spec, b), BOutsideOccupancy)
        + Flag(summary + spec.summaryCap > spec.workset, SummaryExceedsWorkset)
        + Flag(b + spec.bCap > spec.workset, BExceedsWorkset)
        + Flag(safe + spec.cCap > spec.workset, CSafeBoundExceedsWorkset)
        + Flag(tooDear, ProjectedCostExceedsBudget))
  }

  /** A counted plan is eligible exactly when no issue is raised but, unless it is
      enforced, the occupancy one. */
  lemma {:induction false} EligibleIff(spec: Spec, counts: Counts)
    requires spec.workset > 0 && counts.Counts?
    ensures BasePlan(spec, counts).eligible.Eligible? <==>
            forall i :: i in BasePlan(spec, counts).issues ==> i == BOutsideOccupancy && !spec.enforceOccupancy
  {
    var safe := counts.c + spec.summaryCap + spec.slack;
    FlagsRaised(!OccupancyMet(spec, counts.b), counts.summary + spec.summaryCap > spec.workset,
                counts.b + spec.bCap > spec.workset, safe + spec.cCap > spec.workset, Projected(spec) > spec.maxTotal,
                spec.enforceOccupancy);
  }

  lemma {:induction false} FlagsRaised(occupancy: bool, summary: bool, b: bool, c: bool, cost: bool, enforced: bool)
    ensures var issues := Flag(occupancy, BOutsideOccupancy) + Flag(summary, SummaryExceedsWorkset) + Flag(b, BExceedsWorkset)
                          + Flag(c, CSafeBoundExceedsWorkset) + Flag(cost, ProjectedCostExceedsBudget);
            (forall i :: i in issues ==> i == BOutsideOccupancy && !enforced)
            <==> !summary && !b && !c && !cost && (occupancy ==> !enforced)
  {
    var issues := Flag(occupancy, BOutsideOccupancy) + Flag(summary, SummaryExceedsWorkset) + Flag(b, BExceedsWorkset)
                  + Flag(c, CSafeBoundExceedsWorkset) + Flag(cost, ProjectedCostExceedsBudget);
    assert BOutsideOccupancy in issues <==> occupancy;
    assert SummaryExceedsWorkset in issues <==> summary;
    assert BExceedsWorkset in issues <==> b;
    assert CSafeBoundExceedsWorkset in issues <==> c;
    assert ProjectedCostExceedsBudget in issues <==> cost;
  }

  // ------------------------------------------------------------ replies

  /** A provider reply; `citations` are the segment ids its content cites, in order. A content
      that cannot be encoded has a lone surrogate. */
  datatype Reply = Reply(
    content: string,
    encodable: bool,
    citations: seq<string>,
    inputTokens: int,
    outputTokens: int,
    cost: Decimal,
    costIdentity: string,
    finishReason: string,
    cached: Option<int>,
    reasoning: Option<int>,
    model: Option<string>)

  predicate ValidReply(reply: Reply, spec: Spec) {
    && reply.inputTokens >= 0 && reply.outputTokens >= 0
    && reply.cost.Finite? && reply.cost.value >= 0.0
    && reply.costIdentity == spec.priceIdentity
    && (reply.model.None? || reply.model.value == spec.modelId)
    && reply.finishReason != ""
    && (reply.cached.None? || 0 <= reply.cached.value <= reply.inputTokens)
    && (reply.reasoning.None? || 0 <= reply.reasoning.value <= reply.outputTokens)
  }

  predicate AllCitationsResolve(reply: Reply, spec: Spec) {
    reply.citations != [] && forall c :: c in reply.citations ==> c in spec.segments
  }

  function Cited(reply: Reply, spec: Spec): set<string> {
    set c | c in reply.citations && c in spec.segments
  }

  /** A summary that may be sent on to C. */
  predicate Usable(reply: Reply, spec: Spec) {
    Trim(reply.content) != "" && reply.finishReason == "stop" && AllCitationsResolve(reply, spec)
  }

  /** The largest C request the reduction gate admits. */
  function CLimit(spec: Spec, b: nat): int {
    (b as real * spec.reduction).Floor
  }

  predicate CAdmitted(spec: Spec, b: nat, tokens: nat) {
    tokens <= CLimit(spec, b) && tokens + spec.cCap <= spec.workset
  }

  // ------------------------------------------------------------ the protocol

  datatype Event =
    | Created(record: Record)
    | CreateFailed
    | Wrote(record: Record)
    | Reserved(stage: Stage, cost: real)
    | Refused(stage: Stage)
    | Dispatched(stage: Stage, tokens: nat)
    | Answered(stage: Stage, reply: Reply)
    | SettledWith(stage: Stage)

  /** How many stages, in protocol order, were reserved, dispatched, answered and settled. */
  datatype Monitor = Monitor(
    disk: Option<Record>,
    reserved: nat,
    dispatched: nat,
    answered: nat,
    settled: nat,
    spent: real,
    summary: Option<Reply>)

  const IDLE := Monitor(None, 0, 0, 0, 0, 0.0, None)

  predicate AtRisk(state: StageState) {
    state == ReservedOrUnknown || state == UnknownOutcome || state == Settled
  }

  predicate TruthfulAt(m: Monitor, r: Record, s: Stage) {
    && (Rank(s) < m.dispatched ==> AtRisk(StateOf(r, s)))
    && (AtRisk(StateOf(r, s)) ==> Rank(s) < m.reserved)
    && (StateOf(r, s) == Settled ==> Rank(s) < m.settled)
  }

  /** A record that may be persisted: it never hides a dispatched stage, never
      claims a reservation that was not granted or a settlement that did not happen. */
  predicate Truthful(m: Monitor, r: Record) {
    TruthfulAt(m, r, Summary) && TruthfulAt(m, r, B) && TruthfulAt(m, r, C)
  }

  predicate OnDisk(m: Monitor, s: Stage, state: StageState) {
    m.disk.Some? && StateOf(m.disk.value, s) == state
  }

  /** The protocol, one event at a time; `b` is the counted size of the B request. */
  function Next(spec: Spec, b: nat, m: Monitor, e: Event): Option<Monitor> {
    match e
    case Created(r) =>
      if m.disk.None? && Truthful(m, r) then Some(m.(disk := Some(r))) else None
    case CreateFailed =>
      if m.disk.None? then Some(m) else None
    case Wrote(r) =>
      if m.disk.Some? && Truthful(m, r) then Some(m.(disk := Some(r))) else None
    case Reserved(s, cost) =>
      if && OnDisk(m, s, Reserving) && Rank(s) == m.reserved == m.dispatched == m.settled
         && cost == ReservationCost(spec, s)
      then Some(m.(reserved := m.reserved + 1)) else None
    case Refused(s) =>
      if OnDisk(m, s, Reserving) then Some(m) else None
    case Dispatched(s, tokens) =>
      if && OnDisk(m, s, ReservedOrUnknown) && Rank(s) == m.dispatched == m.settled && m.reserved == m.dispatched + 1
         && m.spent + ReservationCost(spec, s) <= spec.maxTotal
         && (s == C ==> m.summary.Some? && Usable(m.summary.value, spec) && CAdmitted(spec, b, tokens))
      then Some(m.(dispatched := m.dispatched + 1, spent := m.spent + ReservationCost(spec, s))) else None
    case Answered(s, reply) =>
      if Rank(s) == m.answered == m.settled && m.dispatched == m.answered + 1
      then Some(m.(answered := m.answered + 1, summary := if s == Summary then Some(reply) else m.summary)) else None
    case SettledWith(s) =>
      if Rank(s) == m.settled && m.answered == m.settled + 1 then Some(m.(settled := m.settled + 1)) else None
  }

  function Feed(spec: Spec, b: nat, trace: seq<Event>): Option<Monitor> {
    if trace == [] then Some(IDLE)
    else
      match Feed(spec, b, trace[..|trace| - 1])
      case None => None
      case Some(m) => Next(spec, b, m, trace[|trace| - 1])
  }

  lemma {:induction false} FeedSnoc(spec: Spec, b: nat, trace: seq<Event>, e: Event)
    requires Feed(spec, b, trace).Some?
    ensures Feed(spec, b, trace + [e]) == Next(spec, b, Feed(spec, b, trace).value, e)
  {
    assert (trace + [e])[..|trace|] == trace;
  }

  // ------------------------------------------------------------ one stage

  datatype Identity = IdentityValid | IdentityInvalid | IdentityRaises
  datatype ReserveOutcome = Granted | Rejected | ReserveInterrupted
  datatype DispatchOutcome = Raised | Replied(reply: Reply)
  datatype SettleOutcome = SettleDone | SettleRaised | SettleInterrupted

  /** What the adapters do in one stage; a counter that raises gives no count. */
  datatype StageEnv = StageEnv(
    count: Option<nat>,
    identity: Identity,
    reserve: ReserveOutcome,
    dispatch: DispatchOutcome,
    settle: SettleOutcome)

  /** `Stop` is a return with a persisted status, `Escape` an exception. */
  datatype Verdict = Continue(reply: Reply) | Stop(status: Status) | Escape

  /** How a settlement ends a stage, if every save succeeds ... */
  function SettleVerdict(reply: Reply, outcome: SettleOutcome): Verdict {
    match outcome
    case SettleDone => Continue(reply)
    case SettleRaised => Stop(SettlementUnresolved)
    case SettleInterrupted => Escape
  }

  /** ... and a reply ... */
  function ReceiveVerdict(spec: Spec, tokens: nat, reply: Reply, outcome: SettleOutcome): Verdict {
    if !ValidReply(reply, spec) then Stop(UnverifiedReply)
    else if !reply.encodable then Escape
    else if reply.inputTokens != tokens then Stop(ProviderUsageMismatch)
    else SettleVerdict(reply, outcome)
  }

  /** ... and a dispatch ... */
  function DispatchVerdict(spec: Spec, tokens: nat, env: StageEnv): Verdict {
    match env.dispatch
    case Raised => Stop(StoppedUnknownOutcome)
    case Replied(reply) => ReceiveVerdict(spec, tokens, reply, env.settle)
  }

  /** ... and a stage of an affordable plan. */
  function StageVerdict(spec: Spec, tokens: nat, env: StageEnv): Verdict {
    if env.identity.IdentityRaises? then Escape
    else if env.identity.IdentityInvalid? then Stop(RequestIdentityInvalid)
    else if env.reserve.ReserveInterrupted? then Escape
    else if env.reserve.Rejected? then Stop(BudgetRejected)
    else DispatchVerdict(spec, tokens, env)
  }

  /** The statuses with which a stage can stop a run behind its reservation ... */
  predicate LateStop(status: Status) {
    status.StoppedUnknownOutcome? || status.UnverifiedReply? || status.ProviderUsageMismatch? || status.SettlementUnresolved?
  }

  /** ... and before it. */
  predicate EarlyStop(status: Status) {
    status.ExactCountUnavailable? || status.CostGate? || status.RequestIdentityInvalid? || status.BudgetRejected?
  }

  class Session {
    const spec: Spec
    const b: nat
    const saves: seq<bool>
    var record: Record
    var issues: Notes
    var trace: seq<Event>
    var saveIndex: nat
    ghost var mon: Monitor

    constructor (spec: Spec, b: nat, saves: seq<bool>, record: Record)
      requires record.summary == record.b == record.c == Planned
      ensures Valid() && this.spec == spec && this.b == b && this.saves == saves && this.record == record
      ensures mon == IDLE.(disk := Some(record)) && trace == [Created(record)] && issues == NO_NOTES
    {
      this.spec, this.b, this.saves := spec, b, saves;
      this.record, issues, saveIndex := record, NO_NOTES, 0;
      trace := [Created(record)];
      mon := IDLE.(disk := Some(record));
      new;
      FeedSnoc(spec, b, [], Created(record));
      assert [] + [Created(record)] == [Created(record)];
    }

    ghost predicate Valid()
      reads this
    {
      Feed(spec, b, trace) == Some(mon) && mon.disk.Some?
    }

    method Emit(e: Event)
      requires Valid() && Next(spec, b, mon, e).Some? && Next(spec, b, mon, e).value.disk.Some?
      modifies this`trace, this`mon
      ensures Valid() && trace == old(trace) + [e] && mon == Next(spec, b, old(mon), e).value
    {
      FeedSnoc(spec, b, trace, e);
      mon := Next(spec, b, mon, e).value;
      trace := trace + [e];
    }

    /** Replaces the persisted record, unless the file system refuses. */
    method Write() returns (ok: bool)
      requires Valid() && Truthful(mon, record)
      modifies this`trace, this`mon, this`saveIndex
      ensures Valid()
      ensures ok ==> trace == old(trace) + [Wrote(record)] && mon == old(mon).(disk := Some(record))
      ensures !ok ==> trace == old(trace) && mon == old(mon) && false in saves
    {
      ok := saveIndex >= |saves| || saves[saveIndex];
      saveIndex := saveIndex + 1;
      if ok {
        Emit(Wrote(record));
      }
    }

    /** Sets the final status and the state of a stage, persists and returns. */
    method Finish(status: Status, s: Stage, state: StageState) returns (v: Verdict)
      requires Valid() && Truthful(mon, With(record, s, state))
      modifies this`record, this`trace, this`mon, this`saveIndex
      ensures Valid() && mon == old(mon).(disk := mon.disk)
      ensures v == Stop(status) || (v == Escape && false in saves)
      ensures v == Stop(status) ==> mon.disk == Some(With(old(record), s, state).(status := status))
    {
      record := With(record, s, state).(status := status);
      var ok := Write();
      v := if ok then Stop(status) else Escape;
    }

    /** Nothing is outstanding, and no stage has noted anything. */
    ghost predicate Quiet(done: nat)
      reads this
    {
      NothingOpen(done) && issues == NO_NOTES
    }

    /** Every stage that was reserved was dispatched and settled. */
    ghost predicate NothingOpen(done: nat)
      reads this
    {
      && Valid() && mon.reserved == mon.dispatched == mon.answered == mon.settled == done
      && record.summary == (if done > 0 then Settled else Planned)
      && record.b == (if done > 1 then Settled else Planned)
      && record.c == (if done > 2 then Settled else Planned)
    }

    /** Stage `s` was dispatched once and settled with `reply`. */
    ghost predicate Completed(s: Stage, before: Monitor, status: Status, tokens: Option<nat>, reply: Reply)
      reads this
    {
      && Quiet(Rank(s) + 1)
      && mon.spent == before.spent + ReservationCost(spec, s)
      && mon.summary == (if s == Summary then Some(reply) else before.summary)
      && record.status == status
      && ValidReply(reply, spec) && tokens == Some(reply.inputTokens)
    }

    /** The reservation of stage `s` was granted and is persisted. */
    ghost predicate Armed(s: Stage)
      reads this
    {
      && Valid() && Rank(s) == mon.dispatched == mon.answered == mon.settled && mon.reserved == mon.dispatched + 1
      && mon.disk == Some(record) && record == With(record, s, ReservedOrUnknown) && Around(s)
    }

    /** The intent to reserve stage `s` is persisted. */
    ghost predicate Asked(s: Stage)
      reads this
    {
      && Valid() && Rank(s) == mon.reserved == mon.dispatched == mon.answered == mon.settled
      && mon.disk == Some(record) && record == With(record, s, Reserving) && Around(s)
    }

    /** Stage `s` was dispatched and is not settled. */
    ghost predicate Open(s: Stage)
      reads this
    {
      && Valid() && Rank(s) == mon.settled && mon.reserved == mon.dispatched == mon.answered == mon.settled + 1
      && record == With(record, s, ReservedOrUnknown) && Around(s)
    }

    /** The stages before `s` are settled, those behind it untouched, and nothing is noted. */
    ghost predicate Around(s: Stage)
      reads this
    {
      && issues == NO_NOTES
      && (Rank(s) > 0 ==> record.summary == Settled)
      && (Rank(s) > 1 ==> record.b == Settled)
      && (Rank(s) < 1 ==> record.b == Planned)
      && (Rank(s) < 2 ==> record.c == Planned)
    }

    ghost predicate CReady(s: Stage, tokens: nat)
      reads this
    {
      s == C ==> mon.summary.Some? && Usable(mon.summary.value, spec) && CAdmitted(spec, b, tokens)
    }

    /** Reserve, dispatch once, check and settle. */
    method Attempt(s: Stage, tokens: Option<nat>, env: StageEnv) returns (v: Verdict)
      requires Quiet(Rank(s))
      requires ReservationCost(spec, s) <= spec.maxTotal ==> mon.spent + ReservationCost(spec, s) <= spec.maxTotal
      requires tokens.Some? ==> CReady(s, tokens.value)
      modifies this`record, this`issues, this`trace, this`mon, this`saveIndex
      ensures Valid()
      ensures v.Continue? ==> Completed(s, old(mon), old(record).status, tokens, v.reply)
      ensures v.Stop? ==> (EarlyStop(v.status) || LateStop(v.status)) && mon.disk.value.status == v.status
      ensures v == Stop(ExactCountUnavailable) ==> tokens.None?
      ensures v == Stop(CostGate) ==> ReservationCost(spec, s) > spec.maxTotal
      ensures tokens.Some? && ReservationCost(spec, s) <= spec.maxTotal ==>
                v == StageVerdict(spec, tokens.value, env) || (v == Escape && false in saves)
    {
      if tokens.None? {
        v := Finish(ExactCountUnavailable, s, NotDispatched);
        return;
      }
      if ReservationCost(spec, s) > spec.maxTotal {
        v := Abandon(CostGate, s, NotDispatched, [ReserveExceedsBudget]);
        return;
      }
      if env.identity.IdentityRaises? {
        return Escape;
      }
      if env.identity.IdentityInvalid? {
        v := Finish(RequestIdentityInvalid, s, NotDispatched);
        return;
      }
      var stopped := Reserve(s, env.reserve);
      if stopped.Some? {
        return stopped.value;
      }
      v := Dispatch(s, tokens.value, env);
    }

    /** Notes why a stage stops, sets its state and the final status, and persists. */
    method Abandon(status: Status, s: Stage, state: StageState, notes: seq<Note>) returns (v: Verdict)
      requires Valid() && Truthful(mon, With(record, s, state))
      modifies this`record, this`issues, this`trace, this`mon, this`saveIndex
      ensures Valid() && NotesOf(issues, s) == notes
      ensures v == Stop(status) || (v == Escape && false in saves)
      ensures v == Stop(status) ==> mon.disk == Some(With(old(record), s, state).(status := status))
    {
      issues := Noting(issues, s, notes);
      v := Finish(status, s, state);
    }

    /** Persist the intent, ask the budget, persist the grant. */
    method Reserve(s: Stage, outcome: ReserveOutcome) returns (stopped: Option<Verdict>)
      requires Quiet(Rank(s))
      modifies this`record, this`issues, this`trace, this`mon, this`saveIndex
      ensures Valid()
      ensures stopped.None? ==>
                && Armed(s) && mon.spent == old(mon).spent && mon.summary == old(mon).summary
                && record.status == old(record).status
      ensures stopped.Some? ==> stopped.value == Escape || stopped.value == Stop(BudgetRejected)
      ensures stopped == Some(Stop(BudgetRejected)) ==> mon.disk.value.status == BudgetRejected
      ensures stopped == Some(Escape) ==> outcome.ReserveInterrupted? || false in saves
      ensures stopped == Some(Stop(BudgetRejected)) ==> outcome.Rejected? && NotesOf(issues, s) != []
      ensures stopped.None? ==> outcome.Granted?
    {
      record := With(record, s, Reserving);
      var ok := Write();
      if !ok {
        return Some(Escape);
      }
      if outcome.ReserveInterrupted? {
        return Some(Escape);
      }
      if outcome.Rejected? {
        Emit(Refused(s));
        var v := Abandon(BudgetRejected, s, NotDispatchedBudgetRejected, [BudgetError]);
        return Some(v);
      }
      ok := Grant(s);
      stopped := if ok then None else Some(Escape);
    }

    /** The budget granted the reservation: persist that before anything else. */
    method Grant(s: Stage) returns (ok: bool)
      requires Asked(s)
      modifies this`record, this`trace, this`mon, this`saveIndex
      ensures Valid()
      ensures ok ==>
                && Armed(s) && mon.spent == old(mon).spent && mon.summary == old(mon).summary
                && record.status == old(record).status
      ensures !ok ==> false in saves
    {
      Emit(Reserved(s, ReservationCost(spec, s)));
      record := With(record, s, ReservedOrUnknown);
      ok := Write();
    }

    /** The single dispatch, behind the persisted reservation. */
    method Dispatch(s: Stage, tokens: nat, env: StageEnv) returns (v: Verdict)
      requires Armed(s) && CReady(s, tokens)
      requires mon.spent + ReservationCost(spec, s) <= spec.maxTotal
      modifies this`record, this`issues, this`trace, this`mon, this`saveIndex
      ensures Valid()
      ensures v.Continue? ==> Completed(s, old(mon), old(record).status, Some(tokens), v.reply)
      ensures v.Stop? ==> LateStop(v.status) && mon.disk.value.status == v.status && NotesOf(issues, s) != []
      ensures v == DispatchVerdict(spec, tokens, env) || (v == Escape && false in saves)
    {
      Emit(Dispatched(s, tokens));
      if env.dispatch.Raised? {
        v := Abandon(StoppedUnknownOutcome, s, UnknownOutcome, [DispatchError, NoRetry]);
        return;
      }
      Emit(Answered(s, env.dispatch.reply));
      v := Receive(s, tokens, env.dispatch.reply, env.settle);
    }

    /** The reply to the one dispatch: checked, then settled. */
    method Receive(s: Stage, tokens: nat, reply: Reply, outcome: SettleOutcome) returns (v: Verdict)
      requires Open(s)
      modifies this`record, this`issues, this`trace, this`mon, this`saveIndex
      ensures Valid()
      ensures v.Continue? ==>
                && v.reply == reply && Quiet(Rank(s) + 1) && ValidReply(reply, spec) && reply.inputTokens == tokens
                && mon.spent == old(mon).spent && mon.summary == old(mon).summary && record.status == old(record).status
      ensures v.Stop? ==> LateStop(v.status) && mon.disk.value.status == v.status && NotesOf(issues, s) != []
      ensures v == ReceiveVerdict(spec, tokens, reply, outcome) || (v == Escape && false in saves)
    {
      if !ValidReply(reply, spec) {
        v := Abandon(UnverifiedReply, s, UnknownOutcome, [UnverifiedProviderReply, NoRetry]);
        return;
      }
      if !reply.encodable {
        return Escape;
      }
      if reply.inputTokens != tokens {
        v := Abandon(ProviderUsageMismatch, s, UnknownOutcome, NotesOf(issues, s) + [InputUsageDiffers]);
        return;
      }
      v := Settle(s, reply, outcome);
    }

    /** Settle the reservation; only then is the stage recorded as settled. */
    method Settle(s: Stage, reply: Reply, outcome: SettleOutcome) returns (v: Verdict)
      requires Open(s)
      modifies this`record, this`issues, this`trace, this`mon, this`saveIndex
      ensures Valid()
      ensures v.Continue? ==>
                && v.reply == reply && Quiet(Rank(s) + 1)
                && mon.spent == old(mon).spent && mon.summary == old(mon).summary && record.status == old(record).status
      ensures v.Stop? ==>
                v.status == SettlementUnresolved && mon.disk.value.status == v.status && NotesOf(issues, s) != []
      ensures v == SettleVerdict(reply, outcome) || (v == Escape && false in saves)
    {
      if outcome.SettleInterrupted? {
        return Escape;
      }
      if outcome.SettleRaised? {
        v := Abandon(SettlementUnresolved, s, UnknownOutcome, NotesOf(issues, s) + [SettlementError, ReservationRetained]);
        return;
      }
      Emit(SettledWith(s));
      record := With(record, s, Settled);
      var ok := Write();
      if !ok {
        return Escape;
      }
      v := Continue(reply);
    }

    /** The gate in front of C: a usable summary and a count within the reduction. */
    method GateC(summaryText: Option<string>, tokens: Option<nat>) returns (stopped: Option<Verdict>)
      requires Quiet(2)
      modifies this`record, this`issues, this`trace, this`mon, this`saveIndex
      ensures Valid()
      ensures stopped.None? ==>
                && Quiet(2) && mon == old(mon) && record == old(record)
                && summaryText.Some? && tokens.Some? && CAdmitted(spec, b, tokens.value)
      ensures match stopped
              case Some(Continue(_)) => false
              case Some(Stop(status)) =>
                && mon.disk.value.status == status
                && (if status == SummaryUnusable then summaryText.None? || summaryText.value == ""
                    else status == CGate && (tokens.None? || !CAdmitted(spec, b, tokens.value)))
              case Some(Escape) => false in saves
              case None => true
    {
      if summaryText.None? || summaryText.value == "" {
        var v := Finish(SummaryUnusable, C, NotDispatched);
        return Some(v);
      }
      if tokens.None? || tokens.value > CLimit(spec, b) || tokens.value + spec.cCap > spec.workset {
        issues := Noting(issues, C, if tokens.None? then [CountUnavailable] else
                                    (if tokens.value > CLimit(spec, b) then [ExceedsGate] else [])
                                    + (if tokens.value + spec.cCap > spec.workset then [ExceedsWorkset] else []));
        var v := Finish(CGate, C, NotDispatched);
        return Some(v);
      }
      stopped := None;
    }

    /** Behind a settlement: stop, skip C, finish, or go on to the next stage. */
    method Conclude(s: Stage, summaryText: Option<string>, auditIssue: bool)
      returns (stopped: Option<Verdict>)
      requires NothingOpen(Rank(s) + 1)
      modifies this`record, this`trace, this`mon, this`saveIndex
      ensures Valid() && mon == old(mon).(disk := mon.disk)
      ensures stopped.None? ==> NotesOf(issues, s) == [] && NothingOpen(Rank(s) + 1) && (s == B ==> summaryText.Some?)
      ensures stopped.None? && s != C ==> mon == old(mon) && record == old(record)
      ensures stopped.None? && s == C ==>
                && record.status == (if auditIssue then AwaitingReviewWithCitationIssues else AwaitingReview)
                && mon.disk == Some(record)
      ensures match stopped
              case Some(Continue(_)) => false
              case Some(Stop(status)) =>
                && mon.disk.value.status == status
                && (if NotesOf(issues, s) != [] then status == UsageMismatch
                    else s == B && summaryText.None? && status == CSkippedSummaryInvalid)
              case Some(Escape) => false in saves
              case None => true
    {
      if NotesOf(issues, s) != [] {
        if s == Summary && record.b == Planned {
          record := record.(b := NotDispatched);
        }
        if record.c == Planned {
          record := record.(c := NotDispatched);
        }
        record := record.(status := UsageMismatch);
        var ok := Write();
        return Some(if ok then Stop(UsageMismatch) else Escape);
      }
      if s == B && summaryText.None? {
        var v := Finish(CSkippedSummaryInvalid, C, NotDispatchedSummaryCitationsInvalid);
        return Some(v);
      }
      if s == C {
        record := record.(status := if auditIssue then AwaitingReviewWithCitationIssues else AwaitingReview);
        var ok := Write();
        if !ok {
          return Some(Escape);
        }
      }
      stopped := None;
    }
  }

  // ------------------------------------------------------------ whole runs

  datatype Create = CreateDone | CreateFailsClean | CreateFailsPartly

  /** One invocation: its mode, its adapters and everything they will do. */
  datatype RunEnv = RunEnv(
    live: bool,
    hasBudget: bool,
    hasDispatcher: bool,
    adaptersAccept: bool,
    runIdValid: bool,
    counts: Option<Counts>, // missing when the counter raises
    create: Create,
    saves: seq<bool>,
    summary: StageEnv,
    b: StageEnv,
    c: StageEnv)

  function EnvOf(env: RunEnv, s: Stage): StageEnv {
    match s case Summary => env.summary case B => env.b case C => env.c
  }

  datatype End = Finished(status: Status) | Exception

  /** The statuses a live run can end with; the others the coordinator could
      write are behind conditions that cannot arise. */
  predicate LiveEnd(status: Status) {
    || status.IneligibleFrozenPlan? || status.CGate? || status.RequestIdentityInvalid? || status.BudgetRejected?
    || LateStop(status) || status.CSkippedSummaryInvalid?
    || status.AwaitingReviewWithCitationIssues? || status.AwaitingReview?
  }

  function EndOf(v: Verdict): End {
    match v
    case Stop(status) => Finished(status)
    case _ => Exception
  }

  /** How an eligible run ends if every save succeeds: with the first stage that does not
      settle, the gate that stops C, or a review. */
  function StagesEnd(spec: Spec, b: nat, env: RunEnv): End {
    if env.summary.count.None? then Exception
    else
      var summary := StageVerdict(spec, env.summary.count.value, env.summary);
      if !summary.Continue? then EndOf(summary)
      else if env.b.count.None? then Exception
      else
        var answer := StageVerdict(spec, env.b.count.value, env.b);
        if !answer.Continue? then EndOf(answer)
        else if !Usable(summary.reply, spec) then Finished(CSkippedSummaryInvalid)
        else CEnd(spec, b, env.c, summary.reply)
  }

  function CEnd(spec: Spec, b: nat, env: StageEnv, summary: Reply): End {
    if env.count.None? then Exception
    else if !CAdmitted(spec, b, env.count.value) then Finished(CGate)
    else
      var answer := StageVerdict(spec, env.count.value, env);
      if !answer.Continue? then EndOf(answer)
      else Finished(ReviewStatus(answer.reply, summary, spec))
  }

  /** C may cite only what the summary cited. */
  function ReviewStatus(reply: Reply, summary: Reply, spec: Spec): Status {
    if AllCitationsResolve(reply, spec) && Cited(reply, spec) <= Cited(summary, spec) then AwaitingReview
    else AwaitingReviewWithCitationIssues
  }

  predicate HasCounter(env: RunEnv) {
    env.counts != Some(NoCounter)
  }

  predicate Started(env: RunEnv, fileExists: bool) {
    && (env.live ==> HasCounter(env) && env.hasBudget && env.hasDispatcher && env.adaptersAccept)
    && env.runIdValid && env.counts.Some?
    && !fileExists && env.create.CreateDone?
  }

  /** How a run ends if every save succeeds. */
  function RunEnd(spec: Spec, env: RunEnv, fileExists: bool): End
    requires spec.workset > 0
  {
    if !Started(env, fileExists) then Exception
    else if !env.live then Finished(DryRun)
    else if BasePlan(spec, env.counts.value).eligible.Ineligible? then Finished(IneligibleFrozenPlan)
    else StagesEnd(spec, env.counts.value.b, env)
  }

  function SpentBefore(spec: Spec, done: nat): real {
    if done == 0 then 0.0
    else if done == 1 then ReservationCost(spec, Summary)
    else if done == 2 then ReservationCost(spec, Summary) + ReservationCost(spec, B)
    else Projected(spec)
  }

  lemma {:induction false} ReservationPositive(spec: Spec, s: Stage)
    requires ValidSpec(spec)
    ensures ReservationCost(spec, s) > 0.0
  {
    var input, output := spec.contextLimit as real * spec.inputPrice, Cap(spec, s) as real * spec.outputPrice;
    assert input > 0.0 && output > 0.0;
  }

  lemma {:induction false} StageAffordable(spec: Spec, s: Stage)
    requires ValidSpec(spec) && Projected(spec) <= spec.maxTotal
    ensures SpentBefore(spec, Rank(s)) + ReservationCost(spec, s) <= spec.maxTotal
    ensures ReservationCost(spec, s) <= spec.maxTotal
  {
    ReservationPositive(spec, Summary);
    ReservationPositive(spec, B);
    ReservationPositive(spec, C);
  }

  /** A dry run or a live run of one invocation, with the events it caused and
      whether the run file exists afterwards. */
  method RunExperiment(spec: Spec, env: RunEnv, fileExists: bool)
    returns (end: End, trace: seq<Event>, b: nat, exists': bool)
    requires ValidSpec(spec)
    ensures Feed(spec, b, trace).Some?
    ensures fileExists ==> exists' && trace == [] && end == Exception
    ensures trace != [] ==> exists'
    ensures !env.live ==> forall e :: e in trace ==> e.Created? || e.CreateFailed?
    ensures end == RunEnd(spec, env, fileExists) || (end == Exception && false in env.saves)
    ensures HasCounter(env) && Started(env, fileExists) ==> b == env.counts.value.b
    ensures end.Finished? ==> EndsOnDisk(spec, b, trace, env.live, end.status)
  {
    if env.live && !(HasCounter(env) && env.hasBudget && env.hasDispatcher && env.adaptersAccept) {
      return Exception, [], 0, fileExists;
    }
    if !env.runIdValid || env.counts.None? {
      return Exception, [], 0, fileExists;
    }
    var counts := env.counts.value;
    b := if counts.Counts? then counts.b else 0;
    if fileExists || env.create.CreateFailsClean? {
      return Exception, [], b, fileExists;
    }
    if env.create.CreateFailsPartly? {
      FeedSnoc(spec, b, [], CreateFailed);
      assert [] + [CreateFailed] == [CreateFailed];
      return Exception, [CreateFailed], b, true;
    }
    end, trace := Launch(spec, env, b);
    exists' := true;
  }

  /** The final status is on file, and a review means that all stages settled. */
  ghost predicate EndsOnDisk(spec: Spec, b: nat, trace: seq<Event>, live: bool, status: Status) {
    && Feed(spec, b, trace).Some?
    && var m := Feed(spec, b, trace).value;
    && m.disk.Some? && m.disk.value.status == status
    && (if live then LiveEnd(status) else status == DryRun)
    && (status.AwaitingReview? || status.AwaitingReviewWithCitationIssues? ==> m.settled == 3)
  }

  /** A run whose record could be created. */
  method Launch(spec: Spec, env: RunEnv, b: nat) returns (end: End, trace: seq<Event>)
    requires ValidSpec(spec) && Started(env, false)
    requires b == if env.counts.value.Counts? then env.counts.value.b else 0
    ensures trace != [] && Feed(spec, b, trace).Some?
    ensures !env.live ==> forall e :: e in trace ==> e.Created?
    ensures end == RunEnd(spec, env, false) || (end == Exception && false in env.saves)
    ensures end.Finished? ==> EndsOnDisk(spec, b, trace, env.live, end.status)
  {
    var session := new Session(spec, b, env.saves, Record(if env.live then PlannedLive else DryRun, Planned, Planned, Planned));
    if !env.live {
      return Finished(DryRun), session.trace;
    }
    end := Execute(session, BasePlan(spec, env.counts.value), env);
    trace := session.trace;
  }

  /** A live run behind the creation of its record. */
  method Execute(session: Session, plan: Plan, env: RunEnv) returns (end: End)
    requires session.Quiet(0) && session.mon.spent == 0.0 && session.mon.summary.None?
    requires ValidSpec(session.spec)
    requires plan.eligible.Eligible? ==> Projected(session.spec) <= session.spec.maxTotal
    modifies session
    ensures session.Valid()
    ensures var expected := match plan.eligible
                            case Ineligible => Finished(IneligibleFrozenPlan)
                            case Uncounted => Finished(ExactCountsRequired)
                            case Eligible => StagesEnd(session.spec, session.b, env);
            end == expected || (end == Exception && false in session.saves)
    ensures end.Finished? ==>
              && session.mon.disk.value.status == end.status
              && (LiveEnd(end.status) || (end.status == ExactCountsRequired && plan.eligible.Uncounted?))
              && (end.status.AwaitingReview? || end.status.AwaitingReviewWithCitationIssues? ==> session.mon.settled == 3)
  {
    if plan.eligible.Ineligible? {
      session.record := Record(IneligibleFrozenPlan, NotDispatched, NotDispatched, NotDispatched);
      var ok := session.Write();
      end := if ok then Finished(IneligibleFrozenPlan) else Exception;
      return;
    }
    if plan.eligible.Uncounted? {
      session.record := session.record.(status := ExactCountsRequired);
      var ok := session.Write();
      end := if ok then Finished(ExactCountsRequired) else Exception;
      return;
    }
    end := RunStages(session, env);
  }

  /** The summary settled, and what the coordinator kept of it. */
  ghost predicate SummaryDone(session: Session, env: RunEnv, text: Option<string>, cited: set<string>)
    reads session
  {
    && session.mon.summary.Some? && env.summary.count.Some?
    && StageVerdict(session.spec, env.summary.count.value, env.summary) == Continue(session.mon.summary.value)
    && text == (if Usable(session.mon.summary.value, session.spec) then Some(session.mon.summary.value.content) else None)
    && cited == Cited(session.mon.summary.value, session.spec)
  }

  /** The first `k` stages settled and nothing stopped the run. */
  ghost predicate Reached(session: Session, env: RunEnv, k: nat, text: Option<string>, cited: set<string>)
    reads session
  {
    && session.Quiet(k) && session.mon.spent == SpentBefore(session.spec, k)
    && (k > 0 ==> SummaryDone(session, env, text, cited))
    && (k > 1 ==> text.Some? && env.b.count.Some? && StageVerdict(session.spec, env.b.count.value, env.b).Continue?)
    && (k > 2 ==> EndsWell(session, env))
  }

  ghost predicate EndsWell(session: Session, env: RunEnv)
    reads session
  {
    && (session.record.status.AwaitingReview? || session.record.status.AwaitingReviewWithCitationIssues?)
    && session.mon.disk == Some(session.record)
    && Finished(session.record.status) == StagesEnd(session.spec, session.b, env)
  }

  /** How a live run may end. */
  ghost predicate Ended(session: Session, env: RunEnv, end: End)
    reads session
  {
    && session.Valid()
    && (end == StagesEnd(session.spec, session.b, env) || (end == Exception && false in session.saves))
    && (end.Finished? ==>
          && session.mon.disk.value.status == end.status && LiveEnd(end.status)
          && (end.status.AwaitingReview? || end.status.AwaitingReviewWithCitationIssues? ==> session.mon.settled == 3))
  }

  /** The stage loop of an eligible live run. */
  method RunStages(session: Session, env: RunEnv) returns (end: End)
    requires session.Quiet(0) && session.mon.spent == 0.0 && session.mon.summary.None?
    requires ValidSpec(session.spec) && Projected(session.spec) <= session.spec.maxTotal
    modifies session
    ensures Ended(session, env, end)
  {
    var summaryText: Option<string> := None;
    var summaryCited: set<string> := {};
    for k := 0 to 3
      invariant Reached(session, env, k, summaryText, summaryCited)
    {
      var ended;
      ended, summaryText, summaryCited := RunStage(session, env, ORDER[k], summaryText, summaryCited);
      if ended.Some? {
        return ended.value;
      }
    }
    end := Finished(session.record.status);
  }

  /** One stage of the loop: ends the run, or leaves it ready for the next one. */
  method RunStage(session: Session, env: RunEnv, s: Stage, text: Option<string>, cited: set<string>)
    returns (ended: Option<End>, text': Option<string>, cited': set<string>)
    requires Reached(session, env, Rank(s), text, cited)
    requires ValidSpec(session.spec) && Projected(session.spec) <= session.spec.maxTotal
    modifies session
    ensures ended.None? ==> Reached(session, env, Rank(s) + 1, text', cited')
    ensures ended.Some? ==> Ended(session, env, ended.value)
  {
    text', cited' := text, cited;
    var spec, stage := session.spec, EnvOf(env, s);
    if stage.count.None? {
      return Some(Exception), text', cited';
    }
    StageAffordable(spec, s);
    if s == C {
      var gated := session.GateC(text, stage.count);
      if gated.Some? {
        return Some(EndOf(gated.value)), text', cited';
      }
    }
    var v := session.Attempt(s, stage.count, stage);
    if !v.Continue? {
      return Some(EndOf(v)), text', cited';
    }
    ended, text', cited' := ConcludeStage(session, env, s, text, cited, v.reply);
  }

  /** Stage `s` settled with `reply`, behind everything that came before it. */
  ghost predicate JustSettled(session: Session, env: RunEnv, s: Stage, text: Option<string>, cited: set<string>, reply: Reply)
    reads session
  {
    && session.Quiet(Rank(s) + 1) && session.mon.spent == SpentBefore(session.spec, Rank(s) + 1)
    && EnvOf(env, s).count.Some?
    && StageVerdict(session.spec, EnvOf(env, s).count.value, EnvOf(env, s)) == Continue(reply)
    && (if s == Summary then session.mon.summary == Some(reply) else SummaryDone(session, env, text, cited))
    && (s == C ==>
          && text.Some? && env.b.count.Some? && StageVerdict(session.spec, env.b.count.value, env.b).Continue?
          && CAdmitted(session.spec, session.b, env.c.count.value))
  }

  /** Behind the settlement: keep what C will need of the summary, audit the citations, conclude. */
  method ConcludeStage(session: Session, env: RunEnv, s: Stage, text: Option<string>, cited: set<string>, reply: Reply)
    returns (ended: Option<End>, text': Option<string>, cited': set<string>)
    requires JustSettled(session, env, s, text, cited, reply)
    modifies session
    ensures ended.None? ==> Reached(session, env, Rank(s) + 1, text', cited')
    ensures ended.Some? ==> Ended(session, env, ended.value)
  {
    text', cited' := text, cited;
    var spec := session.spec;
    if s == Summary {
      cited' := Cited(reply, spec);
      text' := if Usable(reply, spec) then Some(reply.content) else None;
    }
    var auditIssue := !AllCitationsResolve(reply, spec) || !(Cited(reply, spec) <= cited');
    var stopped := session.Conclude(s, text', auditIssue);
    ended := if stopped.Some? then Some(EndOf(stopped.value)) else None;
  }

  // ------------------------------------------------------------ what every accepted trace keeps

  /** The record a reader of the run file would find. */
  function LastRecord(trace: seq<Event>): Option<Record> {
    if trace == [] then None
    else
      var e := trace[|trace| - 1];
      if e.Created? || e.Wrote? then Some(e.record) else LastRecord(trace[..|trace| - 1])
  }

  function DispatchedStages(trace: seq<Event>): seq<Stage> {
    if trace == [] then []
    else
      var e := trace[|trace| - 1];
      DispatchedStages(trace[..|trace| - 1]) + if e.Dispatched? then [e.stage] else []
  }

  function DispatchedCost(spec: Spec, trace: seq<Event>): real {
    if trace == [] then 0.0
    else
      var e := trace[|trace| - 1];
      DispatchedCost(spec, trace[..|trace| - 1]) + if e.Dispatched? then ReservationCost(spec, e.stage) else 0.0
  }

  /** What the monitor's counters say about the events it has seen ... */
  ghost predicate Counted(spec: Spec, trace: seq<Event>, m: Monitor) {
    && m.disk == LastRecord(trace)
    && m.settled <= m.answered <= m.dispatched <= m.reserved <= m.settled + 1 && m.reserved <= 3
    && DispatchedStages(trace) == ORDER[..m.dispatched]
    && m.spent == DispatchedCost(spec, trace) && (m.dispatched > 0 ==> m.spent <= spec.maxTotal)
    && (m.disk.Some? ==> Truthful(m, m.disk.value))
    && (m.disk.None? ==> m.reserved == 0)
  }

  /** ... and which events must have happened for it to have them. */
  ghost predicate Evidenced(spec: Spec, trace: seq<Event>, m: Monitor) {
    && (forall s :: Rank(s) < m.reserved ==> Reserved(s, ReservationCost(spec, s)) in trace)
    && (forall s :: Rank(s) < m.settled ==> SettledWith(s) in trace)
    && (m.summary.Some? ==> Answered(Summary, m.summary.value) in trace)
  }

  lemma {:induction false} TraceSnoc(spec: Spec, trace: seq<Event>, e: Event, after: seq<Event>)
    requires after == trace + [e]
    ensures LastRecord(after) == if e.Created? || e.Wrote? then Some(e.record) else LastRecord(trace)
    ensures DispatchedStages(after) == DispatchedStages(trace) + if e.Dispatched? then [e.stage] else []
    ensures DispatchedCost(spec, after)
         == DispatchedCost(spec, trace) + if e.Dispatched? then ReservationCost(spec, e.stage) else 0.0
  {
    assert after[..|after| - 1] == trace;
  }

  lemma {:induction false} CountedStep(spec: Spec, b: nat, trace: seq<Event>, m: Monitor, e: Event, after: seq<Event>)
    requires Counted(spec, trace, m) && Next(spec, b, m, e).Some? && after == trace + [e]
    ensures Counted(spec, after, Next(spec, b, m, e).value)
  {
    TraceSnoc(spec, trace, e, after);
    assert e.Dispatched? ==> ORDER[..m.dispatched] + [e.stage] == ORDER[..m.dispatched + 1];
  }

  lemma {:induction false} EvidencedStep(spec: Spec, b: nat, trace: seq<Event>, m: Monitor, e: Event, after: seq<Event>)
    requires Evidenced(spec, trace, m) && Next(spec, b, m, e).Some? && after == trace + [e]
    ensures Evidenced(spec, after, Next(spec, b, m, e).value)
  {
  }

  lemma {:induction false} FeedLast(spec: Spec, b: nat, trace: seq<Event>, before: seq<Event>, e: Event)
    requires Feed(spec, b, trace).Some? && trace != [] && before == trace[..|trace| - 1] && e == trace[|trace| - 1]
    ensures Feed(spec, b, before).Some? && trace == before + [e]
    ensures Next(spec, b, Feed(spec, b, before).value, e) == Feed(spec, b, trace)
  {
  }

  lemma {:induction false} MonitorMeans(spec: Spec, b: nat, trace: seq<Event>)
    requires Feed(spec, b, trace).Some?
    ensures Counted(spec, trace, Feed(spec, b, trace).value)
    ensures Evidenced(spec, trace, Feed(spec, b, trace).value)
    decreases |trace|
  {
    if trace == [] {
      assert Counted(spec, [], IDLE) && Evidenced(spec, [], IDLE);
    } else {
      var before, e := trace[..|trace| - 1], trace[|trace| - 1];
      FeedLast(spec, b, trace, before, e);
      MonitorMeans(spec, b, before);
      CountedStep(spec, b, before, Feed(spec, b, before).value, e, trace);
      EvidencedStep(spec, b, before, Feed(spec, b, before).value, e, trace);
    }
  }

  lemma {:induction false} FeedPrefix(spec: Spec, b: nat, trace: seq<Event>, k: nat)
    requires Feed(spec, b, trace).Some? && k <= |trace|
    ensures Feed(spec, b, trace[..k]).Some?
    decreases |trace|
  {
    if k < |trace| {
      FeedPrefix(spec, b, trace[..|trace| - 1], k);
      assert trace[..|trace| - 1][..k] == trace[..k];
    } else {
      assert trace[..k] == trace;
    }
  }

  /** The state in which the monitor accepted event `i`. */
  lemma {:induction false} MonitorAt(spec: Spec, b: nat, trace: seq<Event>, i: nat) returns (m: Monitor)
    requires Feed(spec, b, trace).Some? && i < |trace|
    ensures Counted(spec, trace[..i], m) && Evidenced(spec, trace[..i], m)
    ensures Next(spec, b, m, trace[i]).Some?
    ensures forall s :: s in DispatchedStages(trace[..i]) ==> Rank(s) < m.dispatched
  {
    m := AcceptedAt(spec, b, trace, i);
    MonitorMeans(spec, b, trace[..i]);
    RanksBelow(m.dispatched);
  }

  lemma {:induction false} AcceptedAt(spec: Spec, b: nat, trace: seq<Event>, i: nat) returns (m: Monitor)
    requires Feed(spec, b, trace).Some? && i < |trace|
    ensures Feed(spec, b, trace[..i]) == Some(m) && Next(spec, b, m, trace[i]).Some?
  {
    FeedPrefix(spec, b, trace, i + 1);
    var upto, before := trace[..i + 1], trace[..i];
    assert before == upto[..|upto| - 1] && upto[|upto| - 1] == trace[i];
    FeedLast(spec, b, upto, before, trace[i]);
    m := Feed(spec, b, before).value;
  }

  lemma {:induction false} RanksBelow(n: nat)
    requires n <= 3
    ensures forall s :: s in ORDER[..n] ==> Rank(s) < n
  {
    assert forall k :: 0 <= k < |ORDER| ==> Rank(ORDER[k]) == k;
  }

  /** At every moment of a run the stages dispatched so far are an initial part of
      summary, B, C without repetition, their reserves fit the budget, and whoever
      reads the run file finds each of them reserved, unknown or settled. */
  lemma {:induction false} CrashSafe(spec: Spec, b: nat, trace: seq<Event>, k: nat)
    requires Feed(spec, b, trace).Some? && k <= |trace|
    ensures DispatchedStages(trace[..k]) <= ORDER
    ensures DispatchedStages(trace[..k]) != [] ==> DispatchedCost(spec, trace[..k]) <= spec.maxTotal
    ensures forall s :: s in DispatchedStages(trace[..k]) ==>
              && LastRecord(trace[..k]).Some?
              && StateOf(LastRecord(trace[..k]).value, s) in {ReservedOrUnknown, UnknownOutcome, Settled}
    ensures forall s :: LastRecord(trace[..k]).Some? && StateOf(LastRecord(trace[..k]).value, s) == Settled ==>
              SettledWith(s) in trace[..k]
  {
    FeedPrefix(spec, b, trace, k);
    MonitorMeans(spec, b, trace[..k]);
    var m := Feed(spec, b, trace[..k]).value;
    forall s | s in ORDER[..m.dispatched] ensures m.disk.Some? && AtRisk(StateOf(m.disk.value, s)) {
      assert Rank(s) < m.dispatched;
      assert m.disk.Some? && TruthfulAt(m, m.disk.value, s);
    }
  }

  /** A dispatch follows its own granted reservation and a persisted record that
      says so, and the settlement of every earlier stage; C also follows a usable
      summary and stays within the reduction gate. */
  lemma {:induction false} DispatchDiscipline(spec: Spec, b: nat, trace: seq<Event>, i: nat)
    requires Feed(spec, b, trace).Some? && i < |trace| && trace[i].Dispatched?
    ensures var s := trace[i].stage;
            && Reserved(s, ReservationCost(spec, s)) in trace[..i]
            && LastRecord(trace[..i]).Some? && StateOf(LastRecord(trace[..i]).value, s) == ReservedOrUnknown
            && s !in DispatchedStages(trace[..i])
            && (forall t :: Rank(t) < Rank(s) ==> SettledWith(t) in trace[..i])
            && (s == C ==> exists reply :: Answered(Summary, reply) in trace[..i] && Usable(reply, spec))
            && (s == C ==> CAdmitted(spec, b, trace[i].tokens))
  {
    var m := MonitorAt(spec, b, trace, i);
    var s := trace[i].stage;
    assert Rank(s) == m.settled == m.dispatched;
    if s == C { assert Answered(Summary, m.summary.value) in trace[..i]; }
  }

  /** Invocations of one run id, one after the other: at most one of them causes
      any event, so no stage is ever replayed. */
  method RunSeries(specs: seq<Spec>, envs: seq<RunEnv>) returns (traces: seq<seq<Event>>, bs: seq<nat>)
    requires |specs| == |envs| && forall i :: 0 <= i < |specs| ==> ValidSpec(specs[i])
    ensures |traces| == |bs| == |specs|
    ensures forall i, j :: 0 <= i < j < |traces| ==> traces[i] == [] || traces[j] == []
    ensures forall i :: 0 <= i < |traces| ==> Feed(specs[i], bs[i], traces[i]).Some?
  {
    traces, bs := [], [];
    var fileExists := false;
    for i := 0 to |specs|
      invariant |traces| == |bs| == i
      invariant forall k :: 0 <= k < i && traces[k] != [] ==> fileExists
      invariant forall k, j :: 0 <= k < j < i ==> traces[k] == [] || traces[j] == []
      invariant forall k :: 0 <= k < i ==> Feed(specs[k], bs[k], traces[k]).Some?
    {
      var end, trace, b, exists' := RunExperiment(specs[i], envs[i], fileExists);
      traces, bs, fileExists := traces + [trace], bs + [b], exists';
    }
  }
}
