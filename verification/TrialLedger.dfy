/** The durable ledger of a serial trial: reservations are stored before a call
    is dispatched, refunds only take effect when they are stored. The ledger is
    an object with a state in memory and a file it replaces; the file outlives
    the object. */
module TrialLedger {
  import opened Outcome
  import opened Text
  import opened Decimals

  datatype Status = ReservedOrUnknown | SettledEstimate

  datatype Row = Row(id: string, status: Status, charged: real, upper: real)

  datatype LimitChange = LimitChange(previous: Decimal, next: Decimal, authorization: string)

  datatype State = State(limit: Decimal, price: string, attempts: seq<Row>, changes: seq<LimitChange>)

  datatype Error =
    | InvalidTrialBudget
    | BudgetIdentityMismatch
    | InvalidBudgetIncrease
    | DuplicateOrEmptyAttempt
    | InvalidReservation
    | TrialBudgetExhausted
    | InvalidObservedCost
    | AttemptNotReserved
    | ObservedCostExceedsReservation
    | OsError
    | Raise(kind: Kind)

  /** What is raised besides operating-system errors: an exception that handlers of
      `Exception` catch, such as an encoding error, or an interrupt, which they do not. */
  datatype Kind = Ordinary | Interrupt

  const CEILING: real := 50.0

  /** How writing the temporary file ends. */
  datatype Write = Written | WriteOsError | WriteRaises(kind: Kind)

  /** How one attempt to replace the file ends, with the pause behind a denied one; something
      may be raised on either side of the replacement. */
  datatype Replace =
    | Replaced
    | PermissionDenied
    | OtherOsError
    | RaisesBefore(kind: Kind)
    | RaisesAfter(kind: Kind)

  /** What the file system does during a save, and what interrupts it. */
  datatype SaveIo = SaveIo(write: Write, renames: seq<Replace>)

  /** How a save ends for its caller: it returns, it raises an operating-system error, or it raises
      something else without or with the file replaced; or the process dies on either side
      of the replacement. */
  datatype Save =
    | Landed
    | Refused
    | Escaped(kind: Kind)
    | EscapedAfter(kind: Kind)
    | DiedBefore
    | DiedAfter

  const REPLACE_ATTEMPTS := 5

  function ReplaceAt(io: SaveIo, k: nat): Replace {
    if k < |io.renames| then io.renames[k] else OtherOsError
  }

  // ------------------------------------------------------------ specification

  function Allocated(rows: seq<Row>): real {
    if rows == [] then 0.0 else rows[0].charged + Allocated(rows[1..])
  }

  function Find(rows: seq<Row>, id: string): (r: Option<nat>)
    ensures r.Some? ==> r.value < |rows| && rows[r.value].id == id
    ensures r.None? ==> forall i :: 0 <= i < |rows| ==> rows[i].id != id
  {
    if rows == [] then None
    else if rows[0].id == id then Some(0)
    else match Find(rows[1..], id) case None => None case Some(i) => Some(i + 1)
  }

  predicate ValidLimit(limit: Decimal) {
    limit.Finite? && 0.0 < limit.value <= CEILING
  }

  function Empty(limit: Decimal, price: string): State {
    State(limit, price, [], [])
  }

  /** The state a reservation puts into memory, before it is saved. */
  function Reserving(s: State, id: string, cost: Decimal): Result<State, Error> {
    if id == "" || Find(s.attempts, id).Some? then Err(DuplicateOrEmptyAttempt)
    else if cost.NonFinite? || cost.value <= 0.0 then Err(InvalidReservation)
    else if s.limit.NonFinite? || Allocated(s.attempts) + cost.value > s.limit.value then Err(TrialBudgetExhausted)
    else Ok(s.(attempts := s.attempts + [Row(id, ReservedOrUnknown, cost.value, cost.value)]))
  }

  function Settling(s: State, id: string, cost: Decimal): Result<State, Error> {
    if cost.NonFinite? || cost.value < 0.0 then Err(InvalidObservedCost)
    else
      match Find(s.attempts, id)
      case None => Err(AttemptNotReserved)
      case Some(i) =>
        var row := s.attempts[i];
        if row.status != ReservedOrUnknown then Err(AttemptNotReserved)
        else if cost.value > row.upper then Err(ObservedCostExceedsReservation)
        else Ok(s.(attempts := s.attempts[i := row.(status := SettledEstimate, charged := cost.value)]))
  }

  function Increasing(s: State, limit: Decimal, authorization: string): Result<State, Error> {
    if limit.NonFinite? || s.limit.NonFinite? || !(s.limit.value < limit.value <= CEILING) || Trim(authorization) == ""
    then Err(InvalidBudgetIncrease)
    else Ok(s.(limit := limit, changes := s.changes + [LimitChange(s.limit, limit, authorization)]))
  }

  /** How the attempts from `attempt` on end: with the first that is not denied. */
  function Replacing(io: SaveIo, attempt: nat): Save
    requires attempt <= REPLACE_ATTEMPTS
    decreases REPLACE_ATTEMPTS - attempt
  {
    if attempt == REPLACE_ATTEMPTS then Refused
    else
      match ReplaceAt(io, attempt)
      case Replaced => Landed
      case PermissionDenied => Replacing(io, attempt + 1)
      case OtherOsError => Refused
      case RaisesBefore(kind) => Escaped(kind)
      case RaisesAfter(kind) => EscapedAfter(kind)
  }

  function Saving(io: SaveIo): Save {
    match io.write
    case Written => Replacing(io, 0)
    case WriteOsError => Refused
    case WriteRaises(kind) => Escaped(kind)
  }

  /** The file was replaced. */
  predicate Replaces(save: Save) {
    save.Landed? || save.EscapedAfter? || save.DiedAfter?
  }

  /** What a caller that lives on is told. */
  function Told(save: Save): Result<(), Error> {
    match save
    case Landed => Ok(())
    case Escaped(kind) => Err(Raise(kind))
    case EscapedAfter(kind) => Err(Raise(kind))
    case _ => Err(OsError)
  }

  // ------------------------------------------------------------ the object

  class File {
    var content: Option<State>

    constructor ()
      ensures content == None
    {
      content := None;
    }
  }

  class TrialBudget {
    const path: File
    var state: State

    constructor Over(path: File, state: State)
      ensures this.path == path && this.state == state
    {
      this.path := path;
      this.state := state;
    }

    /** Opens the ledger stored at `path`, or starts one there. */
    static method Open(path: File, limit: Decimal, price: string, io: SaveIo) returns (r: Result<TrialBudget, Error>)
      modifies path
      ensures !(ValidLimit(limit) && price != "") ==> r == Err(InvalidTrialBudget) && path.content == old(path.content)
      ensures ValidLimit(limit) && price != "" && old(path.content).Some? ==>
                var stored := old(path.content).value;
                && path.content == old(path.content)
                && (if stored.limit == limit && stored.price == price
                    then r.Ok? && fresh(r.value) && r.value.path == path && r.value.state == stored
                    else r == Err(BudgetIdentityMismatch))
      ensures ValidLimit(limit) && price != "" && old(path.content).None? ==>
                && path.content == (if Replaces(Saving(io)) then Some(Empty(limit, price)) else None)
                && (if Saving(io).Landed?
                    then r.Ok? && fresh(r.value) && r.value.path == path && r.value.state == Empty(limit, price)
                    else r.Err? && Err(r.error) == Told(Saving(io)))
    {
      if limit.NonFinite? || !(0.0 < limit.value <= CEILING) || price == "" {
        return Err(InvalidTrialBudget);
      }
      if path.content.Some? {
        var stored := path.content.value;
        if stored.limit != limit || stored.price != price {
          return Err(BudgetIdentityMismatch);
        }
        var budget := new TrialBudget.Over(path, stored);
        return Ok(budget);
      }
      var budget := new TrialBudget.Over(path, Empty(limit, price));
      var end := budget.Save(io);
      match Told(end) {
        case Ok(_) => r := Ok(budget);
        case Err(e) => r := Err(e);
      }
    }

    /** Writes a temporary file and replaces the ledger with it, retrying a
        denied replacement a bounded number of times. */
    method Save(io: SaveIo) returns (end: Save)
      modifies path
      ensures end == Saving(io)
      ensures path.content == if Replaces(end) then Some(state) else old(path.content)
    {
      if io.write.WriteOsError? {
        return Refused;
      }
      if io.write.WriteRaises? {
        return Escaped(io.write.kind);
      }
      var attempt := 0;
      while attempt < REPLACE_ATTEMPTS
        invariant attempt <= REPLACE_ATTEMPTS
        invariant Saving(io) == Replacing(io, attempt)
        invariant path.content == old(path.content)
      {
        match ReplaceAt(io, attempt) {
          case Replaced =>
            path.content := Some(state);
            return Landed;
          case PermissionDenied =>
            if attempt == REPLACE_ATTEMPTS - 1 {
              return Refused;
            }
          case OtherOsError =>
            return Refused;
          case RaisesBefore(kind) =>
            return Escaped(kind);
          case RaisesAfter(kind) =>
            path.content := Some(state);
            return EscapedAfter(kind);
        }
        attempt := attempt + 1;
      }
      end := Refused;
    }

    /** A reservation stays in memory even when it could not be stored. */
    method Reserve(id: string, cost: Decimal, io: SaveIo) returns (r: Result<(), Error>)
      modifies this`state, path
      ensures match Reserving(old(state), id, cost)
              case Err(e) => r == Err(e) && state == old(state) && path.content == old(path.content)
              case Ok(next) =>
                && state == next && r == Told(Saving(io))
                && path.content == (if Replaces(Saving(io)) then Some(next) else old(path.content))
    {
      if id == "" || Find(state.attempts, id).Some? {
        return Err(DuplicateOrEmptyAttempt);
      }
      if cost.NonFinite? || cost.value <= 0.0 {
        return Err(InvalidReservation);
      }
      if state.limit.NonFinite? || Allocated(state.attempts) + cost.value > state.limit.value {
        return Err(TrialBudgetExhausted);
      }
      state := state.(attempts := state.attempts + [Row(id, ReservedOrUnknown, cost.value, cost.value)]);
      var end := Save(io);
      r := Told(end);
    }

    /** A settlement is taken back in memory when storing it ends with an operating-system
        error, but not when something else is raised. */
    method Settle(id: string, cost: Decimal, io: SaveIo) returns (r: Result<(), Error>)
      modifies this`state, path
      ensures match Settling(old(state), id, cost)
              case Err(e) => r == Err(e) && state == old(state) && path.content == old(path.content)
              case Ok(next) =>
                && state == (if Saving(io).Refused? then old(state) else next) && r == Told(Saving(io))
                && path.content == (if Replaces(Saving(io)) then Some(next) else old(path.content))
    {
      if cost.NonFinite? || cost.value < 0.0 {
        return Err(InvalidObservedCost);
      }
      var found := Find(state.attempts, id);
      if found.None? || state.attempts[found.value].status != ReservedOrUnknown {
        return Err(AttemptNotReserved);
      }
      var previous := state.attempts[found.value];
      if cost.value > previous.upper {
        return Err(ObservedCostExceedsReservation);
      }
      var row := previous.(status := SettledEstimate, charged := cost.value);
      state := state.(attempts := state.attempts[found.value := row]);
      var end := Save(io);
      if end.Refused? {
        state := state.(attempts := state.attempts[found.value := previous]);
        assert state.attempts == old(state.attempts);
      }
      r := Told(end);
    }

    /** An increase is taken back in the same case only. */
    method IncreaseLimit(limit: Decimal, authorization: string, io: SaveIo) returns (r: Result<(), Error>)
      modifies this`state, path
      ensures match Increasing(old(state), limit, authorization)
              case Err(e) => r == Err(e) && state == old(state) && path.content == old(path.content)
              case Ok(next) =>
                && state == (if Saving(io).Refused? then old(state) else next) && r == Told(Saving(io))
                && path.content == (if Replaces(Saving(io)) then Some(next) else old(path.content))
    {
      if limit.NonFinite? || state.limit.NonFinite? || !(state.limit.value < limit.value <= CEILING)
         || Trim(authorization) == "" {
        return Err(InvalidBudgetIncrease);
      }
      var previous := state;
      state := state.(limit := limit, changes := state.changes + [LimitChange(state.limit, limit, authorization)]);
      var end := Save(io);
      if end.Refused? {
        state := previous;
      }
      r := Told(end);
    }
  }

  // ------------------------------------------------------------ the bounded retry

  lemma {:induction false} DeniedUpTo(io: SaveIo, k: nat)
    requires k <= 5 && k <= |io.renames| && forall i :: 0 <= i < k ==> io.renames[i] == PermissionDenied
    ensures Replacing(io, 0) == Replacing(io, k)
    decreases k
  {
    if k > 0 { DeniedUpTo(io, k - 1); }
  }

  /** Up to four denied replacements are followed by a further one, which decides; after five
      the save is refused. */
  lemma {:induction false} RetriesFour(io: SaveIo, k: nat)
    requires io.write == Written && k < |io.renames| && forall i :: 0 <= i < k ==> io.renames[i] == PermissionDenied
    ensures k <= 4 && io.renames[k] == Replaced ==> Saving(io) == Landed
    ensures k <= 4 && io.renames[k] == OtherOsError ==> Saving(io) == Refused
    ensures k == 4 && io.renames[k] == PermissionDenied ==> Saving(io) == Refused
    ensures k >= 5 ==> Saving(io) == Refused
  {
    DeniedUpTo(io, if k <= 4 then k else 5);
    if k == 4 && io.renames[k] == PermissionDenied { DeniedUpTo(io, 5); }
  }

  // ------------------------------------------------------------ sound states

  predicate SoundRow(row: Row) {
    && row.id != "" && 0.0 < row.upper && 0.0 <= row.charged <= row.upper
    && (row.status == ReservedOrUnknown ==> row.charged == row.upper)
  }

  predicate Distinct(rows: seq<Row>) {
    forall i, j :: 0 <= i < j < |rows| ==> rows[i].id != rows[j].id
  }

  predicate Sound(s: State) {
    && ValidLimit(s.limit)
    && Allocated(s.attempts) <= s.limit.value
    && (forall i :: 0 <= i < |s.attempts| ==> SoundRow(s.attempts[i]))
    && Distinct(s.attempts)
  }

  lemma {:induction false} AllocatedSnoc(rows: seq<Row>, row: Row)
    ensures Allocated(rows + [row]) == Allocated(rows) + row.charged
    decreases |rows|
  {
    if rows == [] {
      assert [] + [row] == [row] && [row][1..] == [];
    } else {
      AllocatedSnoc(rows[1..], row);
      assert (rows + [row])[1..] == rows[1..] + [row];
    }
  }

  lemma {:induction false} AllocatedUpdate(rows: seq<Row>, i: nat, row: Row)
    requires i < |rows|
    ensures Allocated(rows[i := row]) == Allocated(rows) - rows[i].charged + row.charged
    decreases i
  {
    if i == 0 {
      assert rows[0 := row][1..] == rows[1..];
    } else {
      AllocatedUpdate(rows[1..], i - 1, row);
      assert rows[i := row][1..] == rows[1..][i - 1 := row];
    }
  }

  /** A reservation adds one row and takes its full cost from what is left. */
  lemma {:induction false} ReservingSound(s: State, id: string, cost: Decimal)
    requires Sound(s) && Reserving(s, id, cost).Ok?
    ensures var next := Reserving(s, id, cost).value;
            && Sound(next) && !HasRow(s, id) && HasRow(next, id)
            && Allocated(next.attempts) == Allocated(s.attempts) + cost.value
  {
    var next := Reserving(s, id, cost).value;
    assert next.attempts[|s.attempts|].id == id;
    AllocatedSnoc(s.attempts, Row(id, ReservedOrUnknown, cost.value, cost.value));
  }

  /** A settlement changes one row, from reserved to settled, and gives back the difference. */
  lemma {:induction false} SettlingSound(s: State, id: string, cost: Decimal) returns (i: nat)
    requires Sound(s) && Settling(s, id, cost).Ok?
    ensures i < |s.attempts| && s.attempts[i].id == id && s.attempts[i].status == ReservedOrUnknown
    ensures var next := Settling(s, id, cost).value;
            && Sound(next) && next == s.(attempts := s.attempts[i := Row(id, SettledEstimate, cost.value, s.attempts[i].upper)])
            && Allocated(next.attempts) == Allocated(s.attempts) - s.attempts[i].upper + cost.value
  {
    i := Find(s.attempts, id).value;
    var row := s.attempts[i];
    assert SoundRow(row);
    AllocatedUpdate(s.attempts, i, row.(status := SettledEstimate, charged := cost.value));
  }

  // ------------------------------------------------------------ whole histories

  datatype Action =
    | Start(limit: Decimal, price: string, save: Save)
    | Reserve(id: string, cost: Decimal, save: Save)
    | Settle(id: string, cost: Decimal, save: Save)
    | Increase(limit: Decimal, authorization: string, save: Save)
    | Die

  /** The file, the process if one is running, and what has happened: the reservations that
      returned to the caller, the settlements that were stored, and those that the process
      keeps in memory although their save raised something. */
  datatype System = System(
    disk: Option<State>,
    memory: Option<State>,
    returned: map<string, real>,
    stored: map<string, real>,
    unsaved: map<string, real>)

  const NEW := System(None, None, map[], map[], map[])

  /** The file holds `next`, and with it every settlement of the process. */
  function Stored(sys: System, next: State, settlements: map<string, real>): System {
    sys.(disk := Some(next), memory := Some(next), stored := sys.stored + settlements, unsaved := map[])
  }

  /** After a save of `next`, in which the settlements of the process are `settlements`;
      `undone` is what memory holds if the save is refused. */
  function AfterSave(sys: System, next: State, settlements: map<string, real>, undone: State, save: Save): System {
    match save
    case Landed => Stored(sys, next, settlements)
    case EscapedAfter(_) => Stored(sys, next, settlements)
    case DiedAfter => Stored(sys, next, settlements).(memory := None)
    case Refused => sys.(memory := Some(undone))
    case Escaped(_) => sys.(memory := Some(next), unsaved := settlements)
    case DiedBefore => sys.(memory := None, unsaved := map[])
  }

  function Starting(sys: System, limit: Decimal, price: string, save: Save): System {
    if !ValidLimit(limit) || price == "" then sys
    else if sys.disk.Some? then
      (if sys.disk.value.limit == limit && sys.disk.value.price == price then sys.(memory := sys.disk) else sys)
    else if !Replaces(save) then sys
    else sys.(disk := Some(Empty(limit, price)), memory := if save.Landed? then Some(Empty(limit, price)) else None)
  }

  /** One step. A process that is not running only starts; a running one does not start again. */
  function Step(sys: System, a: Action): System {
    match sys.memory
    case None => if a.Start? then Starting(sys, a.limit, a.price, a.save) else sys
    case Some(m) =>
      match a
      case Start(_, _, _) => sys
      case Die => sys.(memory := None, unsaved := map[])
      case Reserve(id, cost, save) =>
        (match Reserving(m, id, cost)
         case Err(_) => sys
         case Ok(next) =>
           var after := AfterSave(sys, next, sys.unsaved, next, save);
           if save.Landed? then after.(returned := sys.returned[id := cost.value]) else after)
      case Settle(id, cost, save) =>
        (match Settling(m, id, cost)
         case Err(_) => sys
         case Ok(next) => AfterSave(sys, next, sys.unsaved[id := cost.value], m, save))
      case Increase(limit, authorization, save) =>
        (match Increasing(m, limit, authorization)
         case Err(_) => sys
         case Ok(next) => AfterSave(sys, next, sys.unsaved, m, save))
  }

  function Run(sys: System, actions: seq<Action>): System
    decreases actions
  {
    if actions == [] then sys else Run(Step(sys, actions[0]), actions[1..])
  }

  /** Disk is an equal prefix of memory; beyond it only unresolved rows. */
  predicate Behind(disk: State, memory: State) {
    && disk.limit == memory.limit && disk.price == memory.price && disk.changes == memory.changes
    && |disk.attempts| <= |memory.attempts| && memory.attempts[..|disk.attempts|] == disk.attempts
    && forall i :: |disk.attempts| <= i < |memory.attempts| ==> memory.attempts[i].status == ReservedOrUnknown
  }

  /** A stored row agrees with what has happened to its attempt. */
  predicate RowAgrees(row: Row, returned: map<string, real>, stored: map<string, real>) {
    && (row.id in returned ==> row.upper == returned[row.id])
    && (row.status == SettledEstimate <==> row.id in stored)
    && (row.id in stored ==> row.charged == stored[row.id])
  }

  ghost predicate HasRow(s: State, id: string) {
    exists i :: 0 <= i < |s.attempts| && s.attempts[i].id == id
  }

  ghost predicate Accounted(s: State, returned: map<string, real>, settled: map<string, real>) {
    && (forall id :: id in returned ==> HasRow(s, id))
    && (forall i :: 0 <= i < |s.attempts| ==> RowAgrees(s.attempts[i], returned, settled))
    && (forall id :: id in settled ==> HasRow(s, id))
  }

  /** What every history keeps: disk and memory are sound, and each accounts for what was
      returned and for the settlements it knows of. */
  ghost predicate Safe(sys: System) {
    && (sys.disk.None? ==> sys.memory.None? && sys.returned == map[] && sys.stored == map[])
    && (sys.disk.Some? ==> Sound(sys.disk.value) && Accounted(sys.disk.value, sys.returned, sys.stored))
    && (sys.memory.Some? ==>
          Sound(sys.memory.value) && Accounted(sys.memory.value, sys.returned, sys.stored + sys.unsaved))
    && (sys.memory.None? ==> sys.unsaved == map[])
  }

  /** Besides, a running process differs from its file only by unresolved rows. */
  ghost predicate Consistent(sys: System) {
    Safe(sys) && sys.unsaved == map[] && Agreeing(sys)
  }

  predicate Agreeing(sys: System) {
    sys.memory.Some? && sys.disk.Some? ==> Behind(sys.disk.value, sys.memory.value)
  }

  lemma {:induction false} ReserveAccounted(m: State, id: string, cost: Decimal, returned: map<string, real>, stored: map<string, real>)
    requires Sound(m) && Accounted(m, returned, stored) && Reserving(m, id, cost).Ok?
    ensures id !in returned
    ensures Accounted(Reserving(m, id, cost).value, returned, stored)
    ensures Accounted(Reserving(m, id, cost).value, returned[id := cost.value], stored)
  {
    var next := Reserving(m, id, cost).value;
    assert !HasRow(m, id);
    forall other | HasRow(m, other) ensures HasRow(next, other) {
      var i :| 0 <= i < |m.attempts| && m.attempts[i].id == other;
      assert next.attempts[i].id == other;
    }
    forall other | other in returned ensures HasRow(next, other) { assert HasRow(m, other); }
    forall other | other in stored ensures HasRow(next, other) { assert HasRow(m, other); }
    assert next.attempts[|m.attempts|].id == id;
    forall i | 0 <= i < |next.attempts|
      ensures RowAgrees(next.attempts[i], returned, stored) && RowAgrees(next.attempts[i], returned[id := cost.value], stored)
    {
      if i < |m.attempts| { assert next.attempts[i] == m.attempts[i] && RowAgrees(m.attempts[i], returned, stored); }
    }
  }

  lemma {:induction false} SettleAccounted(m: State, id: string, cost: Decimal, returned: map<string, real>, stored: map<string, real>)
    requires Sound(m) && Accounted(m, returned, stored) && Settling(m, id, cost).Ok?
    ensures id !in stored
    ensures Accounted(Settling(m, id, cost).value, returned, stored[id := cost.value])
  {
    var k := SettlingSound(m, id, cost);
    var next := Settling(m, id, cost).value;
    assert RowAgrees(m.attempts[k], returned, stored);
    forall other | HasRow(m, other) ensures HasRow(next, other) {
      var i :| 0 <= i < |m.attempts| && m.attempts[i].id == other;
      assert next.attempts[i].id == other;
    }
    forall other | other in returned ensures HasRow(next, other) { assert HasRow(m, other); }
    forall other | other in stored ensures HasRow(next, other) { assert HasRow(m, other); }
    assert next.attempts[k].id == id;
    forall i | 0 <= i < |next.attempts| ensures RowAgrees(next.attempts[i], returned, stored[id := cost.value]) {
      if i != k {
        assert next.attempts[i] == m.attempts[i] && RowAgrees(m.attempts[i], returned, stored);
        assert m.attempts[i].id != id by { assert Distinct(m.attempts); }
      }
    }
  }

  lemma {:induction false} BehindItself(s: State)
    ensures Behind(s, s)
  {
  }

  /** A reservation that is only in memory leaves the disk behind by unresolved rows. */
  lemma {:induction false} BehindReserving(disk: State, m: State, id: string, cost: Decimal)
    requires Behind(disk, m) && Reserving(m, id, cost).Ok?
    ensures Behind(disk, Reserving(m, id, cost).value)
  {
    var next := Reserving(m, id, cost).value;
    assert next.attempts[..|disk.attempts|] == m.attempts[..|disk.attempts|];
  }

  lemma {:induction false} IncreasingSound(s: State, limit: Decimal, authorization: string)
    requires Sound(s) && Increasing(s, limit, authorization).Ok?
    ensures Sound(Increasing(s, limit, authorization).value)
    ensures Increasing(s, limit, authorization).value.attempts == s.attempts
  {
  }

  /** What a save needs for the system to stay safe however it ends. */
  lemma {:induction false} SaveSafe(sys: System, next: State, settlements: map<string, real>, undone: State, save: Save)
    requires Safe(sys) && sys.disk.Some?
    requires Sound(next) && Accounted(next, sys.returned, sys.stored + settlements)
    requires Sound(undone) && Accounted(undone, sys.returned, sys.stored + sys.unsaved)
    ensures Safe(AfterSave(sys, next, settlements, undone, save))
  {
    StoredSafe(sys, next, settlements);
    match save {
      case Landed =>
      case EscapedAfter(_) =>
      case DiedAfter =>
      case Refused =>
      case Escaped(_) =>
      case DiedBefore =>
    }
  }

  lemma {:induction false} StoredSafe(sys: System, next: State, settlements: map<string, real>)
    requires Sound(next) && Accounted(next, sys.returned, sys.stored + settlements)
    ensures Safe(Stored(sys, next, settlements)) && Safe(Stored(sys, next, settlements).(memory := None))
  {
    var after := Stored(sys, next, settlements);
    assert after.stored + after.unsaved == after.stored;
  }

  lemma {:induction false} ReserveSafe(sys: System, next: State, id: string, cost: real, save: Save)
    requires Safe(sys) && sys.disk.Some? && Sound(next)
    requires Accounted(next, sys.returned, sys.stored + sys.unsaved)
    requires Accounted(next, sys.returned[id := cost], sys.stored + sys.unsaved)
    ensures var after := AfterSave(sys, next, sys.unsaved, next, save);
            Safe(if save.Landed? then after.(returned := sys.returned[id := cost]) else after)
  {
    if save.Landed? {
      StoredSafe(sys.(returned := sys.returned[id := cost]), next, sys.unsaved);
    } else {
      SaveSafe(sys, next, sys.unsaved, next, save);
    }
  }

  lemma {:induction false} StepReserve(sys: System, id: string, cost: Decimal, save: Save)
    requires Safe(sys) && sys.memory.Some?
    ensures Safe(Step(sys, Reserve(id, cost, save)))
    ensures Reserving(sys.memory.value, id, cost).Ok? ==> id !in sys.returned
  {
    var m := sys.memory.value;
    if Reserving(m, id, cost).Ok? {
      ReservingSound(m, id, cost);
      ReserveAccounted(m, id, cost, sys.returned, sys.stored + sys.unsaved);
      ReserveSafe(sys, Reserving(m, id, cost).value, id, cost.value, save);
    }
  }

  lemma {:induction false} SettleFacts(m: State, id: string, cost: Decimal, returned: map<string, real>,
                                       stored: map<string, real>, unsaved: map<string, real>)
    requires Sound(m) && Accounted(m, returned, stored + unsaved) && Settling(m, id, cost).Ok?
    ensures Sound(Settling(m, id, cost).value)
    ensures Accounted(Settling(m, id, cost).value, returned, stored + unsaved[id := cost.value])
  {
    SettleAccounted(m, id, cost, returned, stored + unsaved);
    assert (stored + unsaved)[id := cost.value] == stored + unsaved[id := cost.value];
    var _ := SettlingSound(m, id, cost);
  }

  lemma {:induction false} StepSettle(sys: System, id: string, cost: Decimal, save: Save)
    requires Safe(sys) && sys.memory.Some?
    ensures Safe(Step(sys, Settle(id, cost, save)))
  {
    var m := sys.memory.value;
    var settling := Settling(m, id, cost);
    if settling.Ok? {
      SettleFacts(m, id, cost, sys.returned, sys.stored, sys.unsaved);
      SaveSafe(sys, settling.value, sys.unsaved[id := cost.value], m, save);
    }
  }

  lemma {:induction false} StepIncrease(sys: System, limit: Decimal, authorization: string, save: Save)
    requires Safe(sys) && sys.memory.Some?
    ensures Safe(Step(sys, Increase(limit, authorization, save)))
  {
    var m := sys.memory.value;
    if Increasing(m, limit, authorization).Ok? {
      var next := Increasing(m, limit, authorization).value;
      IncreasingSound(m, limit, authorization);
      IncreaseAccounted(m, next, sys.returned, sys.stored + sys.unsaved);
      SaveSafe(sys, next, sys.unsaved, m, save);
    }
  }

  lemma {:induction false} IncreaseAccounted(m: State, next: State, returned: map<string, real>, settled: map<string, real>)
    requires Accounted(m, returned, settled) && next.attempts == m.attempts
    ensures Accounted(next, returned, settled)
  {
    forall id | HasRow(m, id) ensures HasRow(next, id) {}
  }

  lemma {:induction false} StartSafe(sys: System, limit: Decimal, price: string, save: Save)
    requires Safe(sys) && sys.memory.None?
    ensures Safe(Starting(sys, limit, price, save))
  {
    var after := Starting(sys, limit, price, save);
    assert after.stored + after.unsaved == after.stored;
  }

  /** Whatever a step does and however its save ends, safety is kept. */
  lemma {:induction false} StepSafe(sys: System, a: Action)
    requires Safe(sys)
    ensures Safe(Step(sys, a))
  {
    if sys.memory.None? {
      if a.Start? { StartSafe(sys, a.limit, a.price, a.save); }
    } else {
      match a {
        case Start(_, _, _) =>
        case Die =>
        case Reserve(id, cost, save) => StepReserve(sys, id, cost, save);
        case Settle(id, cost, save) => StepSettle(sys, id, cost, save);
        case Increase(limit, authorization, save) => StepIncrease(sys, limit, authorization, save);
      }
    }
  }

  /** Over every history of calls, failed or interrupted saves, deaths and restarts the disk
      and the memory are sound and account for everything that happened. */
  lemma {:induction false} RunSafe(sys: System, actions: seq<Action>)
    requires Safe(sys)
    ensures Safe(Run(sys, actions))
    decreases |actions|
  {
    if actions != [] {
      StepSafe(sys, actions[0]);
      RunSafe(Step(sys, actions[0]), actions[1..]);
    }
  }

  /** A settlement or an increase that passes its checks and whose save raises something other
      than an operating-system error before the file is replaced. */
  predicate Escapes(sys: System, a: Action) {
    sys.memory.Some? &&
    match a
    case Settle(id, cost, save) => save.Escaped? && Settling(sys.memory.value, id, cost).Ok?
    case Increase(limit, authorization, save) => save.Escaped? && Increasing(sys.memory.value, limit, authorization).Ok?
    case _ => false
  }

  lemma {:induction false} SettledAhead(disk: State, m: State, id: string, cost: Decimal)
    requires Sound(m) && Behind(disk, m) && Settling(m, id, cost).Ok?
    ensures !Behind(disk, Settling(m, id, cost).value)
  {
    var i := SettlingSound(m, id, cost);
    var next := Settling(m, id, cost).value;
    assert next.attempts[i].status == SettledEstimate && m.attempts[i].status == ReservedOrUnknown;
    if i < |disk.attempts| {
      assert m.attempts[..|disk.attempts|][i] == disk.attempts[i];
      assert next.attempts[..|disk.attempts|][i] != disk.attempts[i];
    }
  }

  lemma {:induction false} SaveAgrees(sys: System, next: State, settlements: map<string, real>, undone: State, save: Save)
    requires Consistent(sys) && sys.disk.Some? && Behind(sys.disk.value, undone)
    ensures !save.Escaped? ==> Agreeing(AfterSave(sys, next, settlements, undone, save))
    ensures !save.Escaped? ==> AfterSave(sys, next, settlements, undone, save).unsaved == map[]
  {
    BehindItself(next);
  }

  lemma {:induction false} ReserveAgrees(sys: System, id: string, cost: Decimal, save: Save)
    requires Consistent(sys) && sys.memory.Some?
    ensures Agreeing(Step(sys, Reserve(id, cost, save))) && Step(sys, Reserve(id, cost, save)).unsaved == map[]
  {
    var m, disk := sys.memory.value, sys.disk.value;
    if Reserving(m, id, cost).Ok? {
      var next := Reserving(m, id, cost).value;
      BehindReserving(disk, m, id, cost);
      SaveAgrees(sys, next, sys.unsaved, next, save);
    }
  }

  lemma {:induction false} SettleAgrees(sys: System, id: string, cost: Decimal, save: Save)
    requires Consistent(sys) && sys.memory.Some?
    ensures var after := Step(sys, Settle(id, cost, save));
            && (Agreeing(after) <==> !Escapes(sys, Settle(id, cost, save)))
            && (Agreeing(after) ==> after.unsaved == map[])
  {
    var m := sys.memory.value;
    if Settling(m, id, cost).Ok? {
      SettledAhead(sys.disk.value, m, id, cost);
      SaveAgrees(sys, Settling(m, id, cost).value, sys.unsaved[id := cost.value], m, save);
    }
  }

  lemma {:induction false} IncreaseAgrees(sys: System, limit: Decimal, authorization: string, save: Save)
    requires Consistent(sys) && sys.memory.Some?
    ensures var after := Step(sys, Increase(limit, authorization, save));
            && (Agreeing(after) <==> !Escapes(sys, Increase(limit, authorization, save)))
            && (Agreeing(after) ==> after.unsaved == map[])
  {
    var m := sys.memory.value;
    if Increasing(m, limit, authorization).Ok? {
      SaveAgrees(sys, Increasing(m, limit, authorization).value, sys.unsaved, m, save);
    }
  }

  lemma {:induction false} StepAgrees(sys: System, a: Action)
    requires Consistent(sys) && sys.memory.Some?
    ensures Agreeing(Step(sys, a)) <==> !Escapes(sys, a)
    ensures Agreeing(Step(sys, a)) ==> Step(sys, a).unsaved == map[]
  {
    match a {
      case Start(_, _, _) =>
      case Die =>
      case Reserve(id, cost, save) => ReserveAgrees(sys, id, cost, save);
      case Settle(id, cost, save) => SettleAgrees(sys, id, cost, save);
      case Increase(limit, authorization, save) => IncreaseAgrees(sys, limit, authorization, save);
    }
  }

  /** A step keeps file and memory agreeing exactly when it is not such an escape. */
  lemma {:induction false} StepConsistentIff(sys: System, a: Action)
    requires Consistent(sys)
    ensures Consistent(Step(sys, a)) <==> !Escapes(sys, a)
  {
    StepSafe(sys, a);
    if sys.memory.None? {
      if sys.disk.Some? { BehindItself(sys.disk.value); }
    } else {
      StepAgrees(sys, a);
    }
  }

  /** At every moment of the history file and memory agree. */
  ghost predicate AlwaysConsistent(sys: System, actions: seq<Action>)
    decreases actions
  {
    Consistent(sys) && (actions != [] ==> AlwaysConsistent(Step(sys, actions[0]), actions[1..]))
  }

  predicate NoEscape(sys: System, actions: seq<Action>)
    decreases actions
  {
    actions != [] ==> !Escapes(sys, actions[0]) && NoEscape(Step(sys, actions[0]), actions[1..])
  }

  /** Over every history, file and memory agree at every moment exactly when no settlement or
      increase escapes. */
  lemma {:induction false} RunConsistentIff(sys: System, actions: seq<Action>)
    requires Consistent(sys)
    ensures AlwaysConsistent(sys, actions) <==> NoEscape(sys, actions)
    decreases |actions|
  {
    if actions != [] {
      StepConsistentIff(sys, actions[0]);
      if !Escapes(sys, actions[0]) {
        RunConsistentIff(Step(sys, actions[0]), actions[1..]);
      }
    }
  }

  /** In particular they agree at its end. */
  lemma {:induction false} RunConsistent(sys: System, actions: seq<Action>)
    requires Consistent(sys) && NoEscape(sys, actions)
    ensures Consistent(Run(sys, actions))
    decreases |actions|
  {
    if actions != [] {
      StepConsistentIff(sys, actions[0]);
      RunConsistent(Step(sys, actions[0]), actions[1..]);
    }
  }

  /** A ledger of 50 with a stored reservation of 2. */
  function Reserved2(): System {
    var s := State(Finite(50.0, 0), "p", [Row("a", ReservedOrUnknown, 2.0, 2.0)], []);
    System(Some(s), Some(s), map["a" := 2.0], map[], map[])
  }

  lemma {:induction false} Reserved2Reached()
    ensures Run(NEW, [Start(Finite(50.0, 0), "p", Landed), Reserve("a", Finite(2.0, 0), Landed)]) == Reserved2()
  {
    var opens, reserves := Start(Finite(50.0, 0), "p", Landed), Reserve("a", Finite(2.0, 0), Landed);
    var empty := Step(NEW, opens);
    assert [opens, reserves][1..] == [reserves] && [reserves][1..] == [];
    assert Run(NEW, [opens, reserves]) == Run(empty, [reserves]);
    assert Run(empty, [reserves]) == Run(Step(empty, reserves), []);
    assert [] + [Row("a", ReservedOrUnknown, 2.0, 2.0)] == [Row("a", ReservedOrUnknown, 2.0, 2.0)];
  }

  /** Its settlement at 1 is interrupted: memory has the 1, the file still the 2. */
  lemma {:induction false} EscapeExample()
    ensures var start := Run(NEW, [Start(Finite(50.0, 0), "p", Landed), Reserve("a", Finite(2.0, 0), Landed)]);
            var end := Step(start, Settle("a", Finite(1.0, 0), Escaped(Interrupt)));
            && end.memory.Some? && end.memory.value.attempts == [Row("a", SettledEstimate, 1.0, 2.0)]
            && end.disk.Some? && end.disk.value.attempts == [Row("a", ReservedOrUnknown, 2.0, 2.0)] && !Agreeing(end)
  {
    Reserved2Reached();
    Reserved2Escapes();
  }

  lemma {:induction false} Reserved2Escapes()
    ensures var end := Step(Reserved2(), Settle("a", Finite(1.0, 0), Escaped(Interrupt)));
            && end.memory.Some? && end.memory.value.attempts == [Row("a", SettledEstimate, 1.0, 2.0)]
            && end.disk == Reserved2().disk && !Agreeing(end)
  {
    var m := Reserved2().memory.value;
    assert Find(m.attempts, "a") == Some(0);
    assert m.attempts[0 := Row("a", SettledEstimate, 1.0, 2.0)] == [Row("a", SettledEstimate, 1.0, 2.0)];
  }

  /** Every reservation that ever returned is on disk with its full reserve, or
      with the cost of a settlement that was stored. */
  lemma {:induction false} ReservationsSurvive(actions: seq<Action>, id: string) returns (row: Row)
    requires id in Run(NEW, actions).returned
    ensures var sys := Run(NEW, actions);
            && sys.disk.Some? && row in sys.disk.value.attempts && row.id == id
            && row.upper == sys.returned[id]
            && row.charged == (if id in sys.stored then sys.stored[id] else sys.returned[id])
            && Sound(sys.disk.value)
  {
    RunSafe(NEW, actions);
    var disk := Run(NEW, actions).disk.value;
    var i :| 0 <= i < |disk.attempts| && disk.attempts[i].id == id;
    row := disk.attempts[i];
    assert RowAgrees(row, Run(NEW, actions).returned, Run(NEW, actions).stored);
    assert SoundRow(row);
  }

  /** The step is a reservation that returns to its caller. */
  predicate Grants(sys: System, a: Action) {
    sys.memory.Some? && a.Reserve? && Reserving(sys.memory.value, a.id, a.cost).Ok? && a.save.Landed?
  }

  /** The ids whose reservation returned, in the order in which they did. */
  function Granted(sys: System, actions: seq<Action>): seq<string>
    decreases actions
  {
    if actions == [] then []
    else (if Grants(sys, actions[0]) then [actions[0].id] else []) + Granted(Step(sys, actions[0]), actions[1..])
  }

  lemma {:induction false} GrantIsNew(sys: System, a: Action)
    requires Safe(sys) && sys.memory.Some? && a.Reserve? && Reserving(sys.memory.value, a.id, a.cost).Ok?
    ensures a.id !in sys.returned
  {
    StepReserve(sys, a.id, a.cost, a.save);
  }

  lemma {:induction false} StepKeepsGrant(sys: System, a: Action, id: string)
    requires id in sys.returned
    requires sys.memory.Some? && a.Reserve? && Reserving(sys.memory.value, a.id, a.cost).Ok? ==> a.id != id
    ensures id in Step(sys, a).returned && Step(sys, a).returned[id] == sys.returned[id]
    ensures Grants(sys, a) ==> a.id != id
  {
  }

  lemma {:induction false} GrantKept(sys: System, a: Action, id: string, next: System)
    requires Safe(sys) && id in sys.returned && next == Step(sys, a)
    ensures Safe(next) && id in next.returned && next.returned[id] == sys.returned[id]
    ensures Grants(sys, a) ==> a.id != id
  {
    StepSafe(sys, a);
    if sys.memory.Some? && a.Reserve? && Reserving(sys.memory.value, a.id, a.cost).Ok? { GrantIsNew(sys, a); }
    StepKeepsGrant(sys, a, id);
  }

  lemma {:induction false} RunHead(sys: System, actions: seq<Action>, next: System)
    requires actions != [] && next == Step(sys, actions[0])
    ensures Run(sys, actions) == Run(next, actions[1..])
    ensures Granted(sys, actions) == (if Grants(sys, actions[0]) then [actions[0].id] else []) + Granted(next, actions[1..])
  {
  }

  /** What was granted stays granted, and is never granted again. */
  lemma {:induction false} NotGrantedAgain(sys: System, actions: seq<Action>, id: string)
    requires Safe(sys) && id in sys.returned
    ensures id !in Granted(sys, actions)
    ensures id in Run(sys, actions).returned && Run(sys, actions).returned[id] == sys.returned[id]
    decreases |actions|
  {
    if actions != [] {
      var next := Step(sys, actions[0]);
      GrantKept(sys, actions[0], id, next);
      RunHead(sys, actions, next);
      NotGrantedAgain(next, actions[1..], id);
    }
  }

  predicate NoRepeat(ids: seq<string>) {
    forall i, j :: 0 <= i < j < |ids| ==> ids[i] != ids[j]
  }

  /** No id is ever granted twice, whatever fails in between. */
  lemma {:induction false} GrantedOnce(sys: System, actions: seq<Action>)
    requires Safe(sys)
    ensures NoRepeat(Granted(sys, actions))
    decreases |actions|
  {
    if actions != [] {
      var a := actions[0];
      StepSafe(sys, a);
      GrantedOnce(Step(sys, a), actions[1..]);
      if Grants(sys, a) { NotGrantedAgain(Step(sys, a), actions[1..], a.id); }
    }
  }
}
