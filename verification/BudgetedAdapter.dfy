/** The provider adapter of the pilot: it reserves an upper bound before each
    call, settles what the call used, and halts for good after any failure that a handler
    of exceptions catches; an interrupt passes it by. */
module BudgetedAdapter {
  import opened Outcome
  import opened Decimals
  import opened TrialLedger

  /** 32000 input tokens at 2 and 800 output tokens at 8 per million. */
  const RESERVE: real := 0.0704
  const MODEL := "deepseek-flash"
  const MAX_OUTPUT := 800
  const MAX_INPUT := 32000
  const MAX_BODY := 16000

  datatype Usage = Usage(input: nat, output: nat)

  /** The provider raises an exception or is cancelled, is interrupted, or answers. */
  datatype Provider = Raised | Interrupted | Response(usage: Option<Usage>)

  /** Everything a call depends on that the adapter does not decide. */
  datatype Call = Call(
    model: string,
    maxTokens: int,
    bodyBytes: nat,
    attempt: string,
    reserveIo: SaveIo,
    provider: Provider,
    settleIo: SaveIo)

  datatype CallRecord = CallRecord(attempt: string, cost: real)

  datatype CallError =
    | Halted
    | InputOrModelBoundExceeded
    | ProviderFailed
    | ProviderInterrupted
    | UsageUnknown
    | UsageBoundExceeded
    | Ledger(error: Error)

  /** What the adapter's handler does not catch. */
  predicate Interrupts(e: CallError) {
    e == ProviderInterrupted || e == Ledger(Raise(Interrupt))
  }

  function Cost(u: Usage): real {
    (u.input as real * 2.0 + u.output as real * 8.0) / 1000000.0
  }

  predicate InBounds(u: Usage) {
    u.input <= MAX_INPUT && u.output <= MAX_OUTPUT
  }

  // ------------------------------------------------------------ specification

  /** The adapter with its ledger, and how many calls reached the provider. */
  datatype Adapter = Adapter(
    ledger: State,
    disk: Option<State>,
    calls: seq<CallRecord>,
    localFailures: seq<string>,
    halted: bool,
    dispatched: nat)

  function Settled(a: Adapter, call: Call, u: Usage): (Adapter, Result<real, CallError>) {
    match Settling(a.ledger, call.attempt, Finite(Cost(u), 0))
    case Err(e) => (a, Err(Ledger(e)))
    case Ok(next) =>
      var save := Saving(call.settleIo);
      var b := a.(ledger := if save.Refused? then a.ledger else next, disk := if Replaces(save) then Some(next) else a.disk);
      match Told(save)
      case Ok(_) => (b.(calls := a.calls + [CallRecord(call.attempt, Cost(u))]), Ok(Cost(u)))
      case Err(e) => (if e.OsError? then b.(localFailures := a.localFailures + [call.attempt]) else b, Err(Ledger(e)))
  }

  function Answered(a: Adapter, call: Call): (Adapter, Result<real, CallError>) {
    match call.provider
    case Raised => (a, Err(ProviderFailed))
    case Interrupted => (a, Err(ProviderInterrupted))
    case Response(None) => (a, Err(UsageUnknown))
    case Response(Some(u)) => if InBounds(u) then Settled(a, call, u) else (a, Err(UsageBoundExceeded))
  }

  function Bounded(a: Adapter, call: Call): (Adapter, Result<real, CallError>) {
    if call.model != MODEL || call.maxTokens > MAX_OUTPUT || call.bodyBytes > MAX_BODY
    then (a, Err(InputOrModelBoundExceeded))
    else
      match Reserving(a.ledger, call.attempt, Finite(RESERVE, -4))
      case Err(e) => (a, Err(Ledger(e)))
      case Ok(next) =>
        var save := Saving(call.reserveIo);
        var b := a.(ledger := next, disk := if Replaces(save) then Some(next) else a.disk);
        match Told(save)
        case Ok(_) => Answered(b.(dispatched := a.dispatched + 1), call)
        case Err(e) => (b, Err(Ledger(e)))
  }

  function Complete(a: Adapter, call: Call): (Adapter, Result<real, CallError>) {
    if a.halted then (a, Err(Halted))
    else
      var (b, r) := Bounded(a, call);
      (if r.Err? && !Interrupts(r.error) then b.(halted := true) else b, r)
  }

  // ------------------------------------------------------------ the object

  class BudgetedAdapter {
    const budget: TrialBudget
    var calls: seq<CallRecord>
    var localFailures: seq<string>
    var halted: bool
    ghost var dispatched: nat

    constructor (budget: TrialBudget)
      ensures this.budget == budget && View() == Adapter(budget.state, budget.path.content, [], [], false, 0)
    {
      this.budget := budget;
      calls, localFailures, halted, dispatched := [], [], false, 0;
    }

    ghost function View(): Adapter
      reads this, budget, budget.path
    {
      Adapter(budget.state, budget.path.content, calls, localFailures, halted, dispatched)
    }

    method CompleteCall(call: Call) returns (r: Result<real, CallError>)
      modifies this, budget, budget.path
      ensures (View(), r) == Complete(old(View()), call)
    {
      if halted {
        return Err(Halted);
      }
      r := CompleteBounded(call);
      if r.Err? && !Interrupts(r.error) {
        halted := true;
      }
    }

    method CompleteBounded(call: Call) returns (r: Result<real, CallError>)
      modifies this, budget, budget.path
      ensures (View(), r) == Bounded(old(View()), call)
    {
      if call.model != MODEL || call.maxTokens > MAX_OUTPUT || call.bodyBytes > MAX_BODY {
        return Err(InputOrModelBoundExceeded);
      }
      var reserved := budget.Reserve(call.attempt, Finite(RESERVE, -4), call.reserveIo);
      if reserved.Err? {
        return Err(Ledger(reserved.error));
      }
      dispatched := dispatched + 1;
      if call.provider.Raised? {
        return Err(ProviderFailed);
      }
      if call.provider.Interrupted? {
        return Err(ProviderInterrupted);
      }
      if call.provider.usage.None? {
        return Err(UsageUnknown);
      }
      var usage := call.provider.usage.value;
      if usage.input > MAX_INPUT || usage.output > MAX_OUTPUT {
        return Err(UsageBoundExceeded);
      }
      var cost := Cost(usage);
      var settled := budget.Settle(call.attempt, Finite(cost, 0), call.settleIo);
      if settled.Err? {
        if settled.error.OsError? {
          localFailures := localFailures + [call.attempt];
        }
        return Err(Ledger(settled.error));
      }
      calls := calls + [CallRecord(call.attempt, cost)];
      r := Ok(cost);
    }
  }

  // ------------------------------------------------------------ whole runs

  function Run(a: Adapter, calls: seq<Call>): Adapter
    decreases calls
  {
    if calls == [] then a else Run(Complete(a, calls[0]).0, calls[1..])
  }

  function Total(calls: seq<CallRecord>): real {
    if calls == [] then 0.0 else Total(calls[..|calls| - 1]) + calls[|calls| - 1].cost
  }

  /** What became of a row that a call reserved. */
  datatype Fate = Recorded(cost: real) | Unrecorded(cost: real) | LeftOpen

  /** A row, with whether the call that reserved it was interrupted. */
  datatype Entry = Entry(id: string, fate: Fate, cut: bool)

  /** The call reserves a row, at least in memory. */
  predicate Reserves(a: Adapter, call: Call) {
    && !a.halted && call.model == MODEL && call.maxTokens <= MAX_OUTPUT && call.bodyBytes <= MAX_BODY
    && Reserving(a.ledger, call.attempt, Finite(RESERVE, -4)).Ok?
  }

  /** The provider's answer is settled. */
  predicate Settles(call: Call) {
    && Saving(call.reserveIo).Landed? && call.provider.Response?
    && call.provider.usage.Some? && InBounds(call.provider.usage.value)
  }

  function FateOf(call: Call): Fate {
    if !Settles(call) then LeftOpen
    else
      match Saving(call.settleIo)
      case Landed => Recorded(Cost(call.provider.usage.value))
      case Refused => LeftOpen
      case _ => Unrecorded(Cost(call.provider.usage.value))
  }

  predicate RaisesInterrupt(save: Save) {
    save == Escaped(Interrupt) || save == EscapedAfter(Interrupt)
  }

  /** The call is interrupted while it saves, or while it waits for the provider. */
  predicate CutOff(call: Call) {
    || RaisesInterrupt(Saving(call.reserveIo))
    || (Saving(call.reserveIo).Landed? && call.provider.Interrupted?)
    || (Settles(call) && RaisesInterrupt(Saving(call.settleIo)))
  }

  function EntryOf(call: Call): Entry {
    Entry(call.attempt, FateOf(call), CutOff(call))
  }

  /** The rows that the calls reserve, in order. */
  function LogOf(a: Adapter, calls: seq<Call>): seq<Entry>
    decreases calls
  {
    if calls == [] then []
    else (if Reserves(a, calls[0]) then [EntryOf(calls[0])] else []) + LogOf(Complete(a, calls[0]).0, calls[1..])
  }

  function RowOf(e: Entry): Row {
    match e.fate
    case LeftOpen => Row(e.id, ReservedOrUnknown, RESERVE, RESERVE)
    case _ => Row(e.id, SettledEstimate, e.fate.cost, RESERVE)
  }

  function Rows(log: seq<Entry>): seq<Row> {
    if log == [] then [] else Rows(log[..|log| - 1]) + [RowOf(log[|log| - 1])]
  }

  function RecordsOf(log: seq<Entry>): seq<CallRecord> {
    if log == [] then []
    else
      var e := log[|log| - 1];
      RecordsOf(log[..|log| - 1]) + if e.fate.Recorded? then [CallRecord(e.id, e.fate.cost)] else []
  }

  /** Only the last call can have failed without being interrupted, and then the adapter is halted. */
  predicate FailsLast(log: seq<Entry>, halted: bool) {
    forall i :: 0 <= i < |log| && !log[i].fate.Recorded? && !log[i].cut ==> i == |log| - 1 && halted
  }

  /** The ledger is what it was when the adapter was built, plus the rows of the log. */
  ghost predicate Serial(base: seq<Row>, a: Adapter, log: seq<Entry>) {
    && Sound(a.ledger) && a.ledger.attempts == base + Rows(log)
    && a.calls == RecordsOf(log) && FailsLast(log, a.halted)
    && |a.calls| <= a.dispatched <= |log|
  }

  lemma {:induction false} CostFits(u: Usage)
    requires InBounds(u)
    ensures 0.0 <= Cost(u) <= RESERVE
  {
    assert u.input as real <= 32000.0 && u.output as real <= 800.0;
  }

  /** The reserve is exactly the largest usage; an input token costs 2 and an output token 8
      millionths, and no usage costs nothing. */
  lemma {:induction false} CostIs(u: Usage)
    ensures Cost(Usage(32000, 800)) == RESERVE && Cost(Usage(0, 0)) == 0.0
    ensures Cost(Usage(u.input + 1, u.output)) == Cost(u) + 0.000002
    ensures Cost(Usage(u.input, u.output + 1)) == Cost(u) + 0.000008
  {
  }

  lemma {:induction false} FindLast(rows: seq<Row>, row: Row)
    requires Distinct(rows + [row])
    ensures Find(rows + [row], row.id) == Some(|rows|)
  {
    var all := rows + [row];
    var i := Find(all, row.id);
    assert all[|rows|].id == row.id;
  }

  lemma {:induction false} LogSnoc(base: seq<Row>, log: seq<Entry>, e: Entry)
    ensures base + Rows(log + [e]) == base + Rows(log) + [RowOf(e)]
    ensures RecordsOf(log + [e]) == RecordsOf(log) + if e.fate.Recorded? then [CallRecord(e.id, e.fate.cost)] else []
  {
    assert (log + [e])[..|log|] == log;
  }

  /** Between reservation and settlement: the open row is the last one, so the
      settlement of a bounded usage finds it and is not refused. */
  lemma {:induction false} SettlesOpenRow(before: seq<Row>, s: State, id: string, u: Usage)
    requires Sound(s) && InBounds(u) && s.attempts == before + [Row(id, ReservedOrUnknown, RESERVE, RESERVE)]
    ensures var next := s.(attempts := before + [Row(id, SettledEstimate, Cost(u), RESERVE)]);
            Settling(s, id, Finite(Cost(u), 0)) == Ok(next) && Sound(next)
  {
    CostFits(u);
    var row := Row(id, ReservedOrUnknown, RESERVE, RESERVE);
    FindLast(before, row);
    var settled := Row(id, SettledEstimate, Cost(u), RESERVE);
    assert (before + [row])[|before| := settled] == before + [settled];
    var _ := SettlingSound(s, id, Finite(Cost(u), 0));
  }

  /** What a call that reserves a row gives. */
  ghost predicate Gives(before: seq<Row>, a: Adapter, call: Call, b: Adapter, r: Result<real, CallError>) {
    && Sound(b.ledger) && b.ledger.attempts == before + [RowOf(EntryOf(call))]
    && (r.Ok? <==> FateOf(call).Recorded?)
    && (r.Err? ==> (Interrupts(r.error) <==> CutOff(call)))
    && (r.Err? && r.error.Ledger? ==> r.error.error.OsError? || r.error.error.Raise?)
    && b.calls == a.calls + (if r.Ok? then [CallRecord(call.attempt, FateOf(call).cost)] else [])
    && a.dispatched <= b.dispatched <= a.dispatched + 1 && (r.Ok? ==> b.dispatched == a.dispatched + 1)
    && b.halted == a.halted
  }

  lemma {:induction false} SettledCall(before: seq<Row>, a: Adapter, open: Adapter, call: Call)
    requires Sound(open.ledger) && Settles(call)
    requires open.ledger.attempts == before + [Row(call.attempt, ReservedOrUnknown, RESERVE, RESERVE)]
    requires open == a.(ledger := open.ledger, disk := open.disk, dispatched := a.dispatched + 1)
    ensures var (b, r) := Settled(open, call, call.provider.usage.value);
            Gives(before, a, call, b, r)
  {
    SettlesOpenRow(before, open.ledger, call.attempt, call.provider.usage.value);
  }

  lemma {:induction false} AnsweredCall(before: seq<Row>, a: Adapter, open: Adapter, call: Call)
    requires Sound(open.ledger) && Saving(call.reserveIo).Landed?
    requires open.ledger.attempts == before + [Row(call.attempt, ReservedOrUnknown, RESERVE, RESERVE)]
    requires open == a.(ledger := open.ledger, disk := open.disk, dispatched := a.dispatched + 1)
    ensures var (b, r) := Answered(open, call);
            Gives(before, a, call, b, r)
  {
    if Settles(call) {
      SettledCall(before, a, open, call);
    }
  }

  lemma {:induction false} BoundedReserves(a: Adapter, call: Call, open: State)
    requires Reserves(a, call) && Reserving(a.ledger, call.attempt, Finite(RESERVE, -4)) == Ok(open)
    ensures var save := Saving(call.reserveIo);
            Bounded(a, call)
            == if save.Landed? then Answered(a.(ledger := open, disk := Some(open), dispatched := a.dispatched + 1), call)
               else (a.(ledger := open, disk := if Replaces(save) then Some(open) else a.disk), Err(Ledger(Told(save).error)))
  {
  }

  lemma {:induction false} ReservedCall(before: seq<Row>, a: Adapter, call: Call)
    requires Sound(a.ledger) && a.ledger.attempts == before && Reserves(a, call)
    ensures var (b, r) := Bounded(a, call);
            Gives(before, a, call, b, r)
  {
    var open := Reserving(a.ledger, call.attempt, Finite(RESERVE, -4)).value;
    ReservingSound(a.ledger, call.attempt, Finite(RESERVE, -4));
    BoundedReserves(a, call, open);
    assert open.attempts == before + [Row(call.attempt, ReservedOrUnknown, RESERVE, RESERVE)];
    if Saving(call.reserveIo).Landed? {
      AnsweredCall(before, a, a.(ledger := open, disk := Some(open), dispatched := a.dispatched + 1), call);
    }
  }

  /** The log behind one more call. */
  function Logged(a: Adapter, log: seq<Entry>, call: Call): seq<Entry> {
    log + if Reserves(a, call) then [EntryOf(call)] else []
  }

  /** One call of a serial run. The errors that would mean an overrun or a lost
      reservation are not among its outcomes. */
  lemma {:induction false} CompleteSerial(base: seq<Row>, a: Adapter, log: seq<Entry>, call: Call)
    requires Serial(base, a, log)
    ensures Serial(base, Complete(a, call).0, Logged(a, log, call))
    ensures a.halted ==> Complete(a, call).0 == a && !Reserves(a, call)
    ensures Complete(a, call).1.Err? && !Interrupts(Complete(a, call).1.error) ==> Complete(a, call).0.halted
    ensures match Complete(a, call).1
            case Err(Ledger(e)) => e.DuplicateOrEmptyAttempt? || e.TrialBudgetExhausted? || e.OsError? || e.Raise?
            case _ => true
  {
    if Reserves(a, call) {
      ReservedCall(base + Rows(log), a, call);
      LogSnoc(base, log, EntryOf(call));
    } else {
      assert Logged(a, log, call) == log;
    }
  }

  lemma {:induction false} RunHead(a: Adapter, log: seq<Entry>, calls: seq<Call>, b: Adapter)
    requires calls != [] && b == Complete(a, calls[0]).0
    ensures Run(a, calls) == Run(b, calls[1..])
    ensures log + LogOf(a, calls) == Logged(a, log, calls[0]) + LogOf(b, calls[1..])
  {
  }

  /** In every run the ledger is its start plus the rows of the log, the recorded calls are
      the recorded entries, and only the last entry can be a failure without an interrupt. */
  lemma {:induction false} RunSerial(base: seq<Row>, a: Adapter, log: seq<Entry>, calls: seq<Call>)
    requires Serial(base, a, log)
    ensures Serial(base, Run(a, calls), log + LogOf(a, calls))
    ensures a.halted ==> Run(a, calls) == a
    decreases |calls|
  {
    if calls == [] {
      assert log + [] == log;
    } else {
      var b := Complete(a, calls[0]).0;
      CompleteSerial(base, a, log, calls[0]);
      RunHead(a, log, calls, b);
      RunSerial(base, b, Logged(a, log, calls[0]), calls[1..]);
    }
  }

  // ------------------------------------------------------------ what a run leaves behind

  function OpenCount(log: seq<Entry>): nat {
    if log == [] then 0 else OpenCount(log[..|log| - 1]) + if log[|log| - 1].fate.LeftOpen? then 1 else 0
  }

  /** How many of the open rows belong to interrupted calls. */
  function OpenCuts(log: seq<Entry>): nat {
    if log == [] then 0
    else OpenCuts(log[..|log| - 1]) + if log[|log| - 1].fate.LeftOpen? && log[|log| - 1].cut then 1 else 0
  }

  /** What was settled in the ledger without a record, because the save raised something. */
  function UnrecordedTotal(log: seq<Entry>): real {
    if log == [] then 0.0
    else UnrecordedTotal(log[..|log| - 1]) + if log[|log| - 1].fate.Unrecorded? then log[|log| - 1].fate.cost else 0.0
  }

  function OpenRows(rows: seq<Row>): nat {
    if rows == [] then 0 else OpenRows(rows[..|rows| - 1]) + if rows[|rows| - 1].status == ReservedOrUnknown then 1 else 0
  }

  lemma {:induction false} OpenRowsOf(log: seq<Entry>)
    ensures |Rows(log)| == |log| && OpenRows(Rows(log)) == OpenCount(log)
    decreases |log|
  {
    if log != [] {
      var before := log[..|log| - 1];
      OpenRowsOf(before);
      assert Rows(log)[..|Rows(log)| - 1] == Rows(before);
    }
  }

  lemma {:induction false} AllCuts(log: seq<Entry>)
    requires forall i :: 0 <= i < |log| && log[i].fate.LeftOpen? ==> log[i].cut
    ensures OpenCount(log) == OpenCuts(log)
    decreases |log|
  {
    if log != [] { AllCuts(log[..|log| - 1]); }
  }

  /** The last call failed without an interrupt and left its row open. */
  predicate LastFailedOpen(log: seq<Entry>) {
    log != [] && log[|log| - 1].fate.LeftOpen? && !log[|log| - 1].cut
  }

  lemma {:induction false} OpenAreCuts(log: seq<Entry>, halted: bool)
    requires FailsLast(log, halted)
    ensures OpenCount(log) == OpenCuts(log) + if LastFailedOpen(log) then 1 else 0
    ensures LastFailedOpen(log) ==> halted
  {
    if log != [] {
      var before := log[..|log| - 1];
      forall i | 0 <= i < |before| && before[i].fate.LeftOpen? ensures before[i].cut { assert before[i] == log[i]; }
      AllCuts(before);
    }
  }

  lemma {:induction false} AllocatedConcat(a: seq<Row>, b: seq<Row>)
    ensures Allocated(a + b) == Allocated(a) + Allocated(b)
    decreases |a|
  {
    if a == [] {
      assert a + b == b;
    } else {
      AllocatedConcat(a[1..], b);
      assert (a + b)[1..] == a[1..] + b;
    }
  }

  lemma {:induction false} TotalSnoc(calls: seq<CallRecord>, c: CallRecord)
    ensures Total(calls + [c]) == Total(calls) + c.cost
  {
    assert (calls + [c])[..|calls|] == calls;
  }

  lemma {:induction false} AllocatedRows(log: seq<Entry>)
    ensures Allocated(Rows(log)) == Total(RecordsOf(log)) + UnrecordedTotal(log) + RESERVE * OpenCount(log) as real
    decreases |log|
  {
    if log != [] {
      var before, e := log[..|log| - 1], log[|log| - 1];
      AllocatedRows(before);
      AllocatedSnoc(Rows(before), RowOf(e));
      if e.fate.Recorded? {
        TotalSnoc(RecordsOf(before), CallRecord(e.id, e.fate.cost));
      } else {
        assert RecordsOf(log) == RecordsOf(before);
      }
    }
  }

  function Fresh(ledger: State, disk: Option<State>): Adapter {
    Adapter(ledger, disk, [], [], false, 0)
  }

  lemma {:induction false} FreshRun(ledger: State, disk: Option<State>, calls: seq<Call>)
    requires Sound(ledger)
    ensures Serial(ledger.attempts, Run(Fresh(ledger, disk), calls), LogOf(Fresh(ledger, disk), calls))
  {
    var start := Fresh(ledger, disk);
    assert ledger.attempts + Rows([]) == ledger.attempts;
    RunSerial(ledger.attempts, start, [], calls);
    assert [] + LogOf(start, calls) == LogOf(start, calls);
  }

  /** A whole run of a new adapter over a sound ledger: the ledger grew by the cost of the recorded
      calls, the cost of what was settled without a record, and one full reserve for each
      row left open. */
  lemma {:induction false} RunGrowth(ledger: State, disk: Option<State>, calls: seq<Call>)
    requires Sound(ledger)
    ensures var end, log := Run(Fresh(ledger, disk), calls), LogOf(Fresh(ledger, disk), calls);
            Allocated(end.ledger.attempts) - Allocated(ledger.attempts)
            == Total(end.calls) + UnrecordedTotal(log) + RESERVE * OpenCount(log) as real
  {
    var log := LogOf(Fresh(ledger, disk), calls);
    FreshRun(ledger, disk, calls);
    AllocatedConcat(ledger.attempts, Rows(log));
    AllocatedRows(log);
  }

  /** The rows it left open are those of interrupted calls, and at most one more, which
      means that it is halted. So at most one is open exactly when these are at most one. */
  lemma {:induction false} RunOpen(ledger: State, disk: Option<State>, calls: seq<Call>)
    requires Sound(ledger)
    ensures var end, log := Run(Fresh(ledger, disk), calls), LogOf(Fresh(ledger, disk), calls);
            var count := OpenCuts(log) + if LastFailedOpen(log) then 1 else 0;
            && end.ledger.attempts == ledger.attempts + Rows(log) && OpenRows(Rows(log)) == count
            && (LastFailedOpen(log) ==> end.halted)
            && (OpenRows(Rows(log)) <= 1 <==> count <= 1)
  {
    var end, log := Run(Fresh(ledger, disk), calls), LogOf(Fresh(ledger, disk), calls);
    FreshRun(ledger, disk, calls);
    OpenRowsOf(log);
    OpenAreCuts(log, end.halted);
  }

  lemma {:induction false} OpenCutsConcat(a: seq<Entry>, b: seq<Entry>)
    ensures OpenCuts(a + b) == OpenCuts(a) + OpenCuts(b)
    decreases |b|
  {
    if b == [] {
      assert a + b == a;
    } else {
      OpenCutsConcat(a, b[..|b| - 1]);
      assert (a + b)[..|a + b| - 1] == a + b[..|b| - 1];
    }
  }

  /** Without an interrupt no row is left open by one, so at most one is open at all. */
  lemma {:induction false} UninterruptedRun(a: Adapter, calls: seq<Call>)
    requires forall i :: 0 <= i < |calls| ==> !CutOff(calls[i])
    ensures OpenCuts(LogOf(a, calls)) == 0
    decreases |calls|
  {
    if calls != [] {
      var first := if Reserves(a, calls[0]) then [EntryOf(calls[0])] else [];
      UninterruptedRun(Complete(a, calls[0]).0, calls[1..]);
      OpenCutsConcat(first, LogOf(Complete(a, calls[0]).0, calls[1..]));
    }
  }

  lemma {:induction false} AllRecorded(log: seq<Entry>)
    requires forall i :: 0 <= i < |log| ==> log[i].fate.Recorded?
    ensures OpenCount(log) == 0 && UnrecordedTotal(log) == 0.0
    decreases |log|
  {
    if log != [] { AllRecorded(log[..|log| - 1]); }
  }

  /** What an entry leaves behind that is not recorded. */
  function LeftBehind(e: Entry): real {
    match e.fate
    case Recorded(_) => 0.0
    case Unrecorded(cost) => cost
    case LeftOpen => RESERVE
  }

  lemma {:induction false} OnlyLastLeaves(log: seq<Entry>, halted: bool)
    requires FailsLast(log, halted) && forall i :: 0 <= i < |log| ==> !log[i].cut
    ensures UnrecordedTotal(log) + RESERVE * OpenCount(log) as real
         == if log == [] then 0.0 else LeftBehind(log[|log| - 1])
    ensures log != [] && !log[|log| - 1].fate.Recorded? ==> halted
  {
    if log != [] {
      var before := log[..|log| - 1];
      forall i | 0 <= i < |before| ensures before[i].fate.Recorded? { assert before[i] == log[i]; }
      AllRecorded(before);
    }
  }

  lemma {:induction false} LeavesAtMostReserve(call: Call)
    ensures 0.0 <= LeftBehind(EntryOf(call)) <= RESERVE
  {
    if Settles(call) { CostFits(call.provider.usage.value); }
  }

  /** Every entry is that of one of the calls. */
  lemma {:induction false} LogFromCalls(a: Adapter, calls: seq<Call>)
    requires forall i :: 0 <= i < |calls| ==> !CutOff(calls[i])
    ensures forall i :: 0 <= i < |LogOf(a, calls)| ==>
              !LogOf(a, calls)[i].cut && 0.0 <= LeftBehind(LogOf(a, calls)[i]) <= RESERVE
    decreases |calls|
  {
    if calls != [] {
      LeavesAtMostReserve(calls[0]);
      LogFromCalls(Complete(a, calls[0]).0, calls[1..]);
    }
  }

  /** Without an interrupt the ledger grows by the recorded costs plus at most one full
      reserve, and by more than the recorded costs only if the adapter is halted. */
  lemma {:induction false} UninterruptedGrowth(ledger: State, disk: Option<State>, calls: seq<Call>)
    requires Sound(ledger) && forall i :: 0 <= i < |calls| ==> !CutOff(calls[i])
    ensures var end := Run(Fresh(ledger, disk), calls);
            var beyond := Allocated(end.ledger.attempts) - Allocated(ledger.attempts) - Total(end.calls);
            0.0 <= beyond <= RESERVE && (beyond > 0.0 ==> end.halted)
  {
    var end, log := Run(Fresh(ledger, disk), calls), LogOf(Fresh(ledger, disk), calls);
    RunGrowth(ledger, disk, calls);
    FreshRun(ledger, disk, calls);
    LogFromCalls(Fresh(ledger, disk), calls);
    OnlyLastLeaves(log, end.halted);
  }

  /** After the first call that fails without an interrupt nothing changes any more: no
      reservation, no dispatch, no record. */
  lemma {:induction false} NothingAfterFailure(ledger: State, disk: Option<State>, before: seq<Call>, call: Call, after: seq<Call>)
    requires Sound(ledger)
    requires var r := Complete(Run(Fresh(ledger, disk), before), call).1; r.Err? && !Interrupts(r.error)
    ensures var failed := Complete(Run(Fresh(ledger, disk), before), call).0;
            Run(failed, after) == failed
  {
    var a, log := Run(Fresh(ledger, disk), before), LogOf(Fresh(ledger, disk), before);
    FreshRun(ledger, disk, before);
    CompleteSerial(ledger.attempts, a, log, call);
    RunSerial(ledger.attempts, Complete(a, call).0, Logged(a, log, call), after);
  }

  /** A call that is interrupted while it waits for the provider. */
  function InterruptedCall(id: string): Call {
    var io := SaveIo(Written, [Replaced]);
    Call(MODEL, MAX_OUTPUT, 0, id, io, Interrupted, io)
  }

  /** Two interrupted calls leave two rows open, and the adapter is not halted. */
  lemma {:induction false} InterruptExample(a: Adapter, x: string, y: string)
    requires Sound(a.ledger) && !a.halted && x != "" && y != "" && x != y
    requires Find(a.ledger.attempts, x).None? && Find(a.ledger.attempts, y).None?
    requires Allocated(a.ledger.attempts) + RESERVE + RESERVE <= a.ledger.limit.value
    ensures LogOf(a, [InterruptedCall(x), InterruptedCall(y)]) == [Entry(x, LeftOpen, true), Entry(y, LeftOpen, true)]
    ensures !Run(a, [InterruptedCall(x), InterruptedCall(y)]).halted
  {
    var first, second := InterruptedCall(x), InterruptedCall(y);
    var rows := a.ledger.attempts;
    var b := Complete(a, first).0;
    InterruptedOnce(a, x);
    InterruptedOnce(b, y);
    assert [first, second][1..] == [second] && [second][1..] == [];
    assert LogOf(Complete(b, second).0, []) == [];
    assert LogOf(b, [second]) == [Entry(y, LeftOpen, true)];
    assert Run(b, [second]) == Run(Complete(b, second).0, []);
    assert Run(a, [first, second]) == Run(b, [second]);
  }

  lemma {:induction false} InterruptedOnce(a: Adapter, x: string)
    requires Sound(a.ledger) && !a.halted && x != "" && Find(a.ledger.attempts, x).None?
    requires Allocated(a.ledger.attempts) + RESERVE <= a.ledger.limit.value
    ensures var call := InterruptedCall(x);
            var b := Complete(a, call).0;
            && Reserves(a, call) && EntryOf(call) == Entry(x, LeftOpen, true) && !b.halted && Sound(b.ledger)
            && b.ledger.limit == a.ledger.limit
            && Allocated(b.ledger.attempts) == Allocated(a.ledger.attempts) + RESERVE
            && (forall y :: y != x && Find(a.ledger.attempts, y).None? ==> Find(b.ledger.attempts, y).None?)
  {
    var call := InterruptedCall(x);
    assert Saving(call.reserveIo) == Landed;
    ReservingSound(a.ledger, x, Finite(RESERVE, -4));
    var b := Complete(a, call).0;
    assert b.ledger.attempts == a.ledger.attempts + [Row(x, ReservedOrUnknown, RESERVE, RESERVE)];
  }
}
