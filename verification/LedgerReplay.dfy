/** The ledger object driven through calls, refused saves, stops and reopens. It goes
    through exactly the states of the histories, so what holds of every history holds of
    the object and its file. */
module LedgerReplay {
  import opened Outcome
  import opened Decimals
  import opened TrialLedger

  /** What the owner of the ledger does, and what the file system does meanwhile. */
  datatype Request =
    | Opens(limit: Decimal, price: string, io: SaveIo)
    | Reserves(id: string, cost: Decimal, io: SaveIo)
    | Settles(id: string, cost: Decimal, io: SaveIo)
    | Increases(limit: Decimal, authorization: string, io: SaveIo)
    | Exits

  function ActionOf(r: Request): Action {
    match r
    case Opens(limit, price, io) => Start(limit, price, Saving(io))
    case Reserves(id, cost, io) => Reserve(id, cost, Saving(io))
    case Settles(id, cost, io) => Settle(id, cost, Saving(io))
    case Increases(limit, authorization, io) => Increase(limit, authorization, Saving(io))
    case Exits => Die
  }

  function ActionsOf(requests: seq<Request>): (actions: seq<Action>)
    ensures |actions| == |requests|
  {
    if requests == [] then [] else ActionsOf(requests[..|requests| - 1]) + [ActionOf(requests[|requests| - 1])]
  }

  /** The file holds what is on disk in `sys`, and the object, if there is one, what is in memory. */
  ghost predicate Mirrors(path: File, budget: Option<TrialBudget>, sys: System)
    reads path, if budget.Some? then {budget.value} else {}
  {
    && sys.disk == path.content
    && (budget.None? ==> sys.memory.None?)
    && (budget.Some? ==> budget.value.path == path && sys.memory == Some(budget.value.state))
  }

  /** A request without an object only opens one. */
  method ServeClosed(path: File, r: Request, ghost sys: System) returns (budget: Option<TrialBudget>)
    requires Mirrors(path, None, sys)
    modifies path
    ensures Mirrors(path, budget, Step(sys, ActionOf(r)))
    ensures budget.Some? ==> fresh(budget.value)
  {
    budget := None;
    if r.Opens? {
      var ledger := TrialBudget.Open(path, r.limit, r.price, r.io);
      if ledger.Ok? {
        budget := Some(ledger.value);
      }
    }
  }

  /** A request to a running object; it is told whether its reservation was granted. */
  method ServeOpen(path: File, open: TrialBudget, r: Request, ghost sys: System)
    returns (budget: Option<TrialBudget>, granted: bool)
    requires Mirrors(path, Some(open), sys)
    modifies path, open
    ensures Mirrors(path, budget, Step(sys, ActionOf(r)))
    ensures budget.Some? ==> budget.value == open
    ensures granted <==> Grants(sys, ActionOf(r))
  {
    budget, granted := Some(open), false;
    var done: Result<(), Error>;
    match r {
      case Opens(_, _, _) =>
      case Exits =>
        budget := None;
      case Reserves(id, cost, io) =>
        done := open.Reserve(id, cost, io);
        granted := done.Ok?;
      case Settles(id, cost, io) =>
        done := open.Settle(id, cost, io);
      case Increases(limit, authorization, io) =>
        done := open.IncreaseLimit(limit, authorization, io);
    }
  }

  lemma {:induction false} RunSnoc(sys: System, actions: seq<Action>, a: Action)
    ensures Run(sys, actions + [a]) == Step(Run(sys, actions), a)
    ensures Granted(sys, actions + [a]) == Granted(sys, actions) + if Grants(Run(sys, actions), a) then [a.id] else []
    decreases |actions|
  {
    if actions == [] {
      assert [] + [a] == [a] && [a][1..] == [];
    } else {
      assert (actions + [a])[1..] == actions[1..] + [a];
      RunSnoc(Step(sys, actions[0]), actions[1..], a);
    }
  }

  /** Any sequence of requests on a new file: object and file end as the history says, the
      history is safe, and no id was granted twice; if no settlement or increase escaped, file
      and object agree but for unresolved rows. */
  method Replay(path: File, requests: seq<Request>) returns (budget: Option<TrialBudget>, granted: seq<string>)
    requires path.content == None
    modifies path
    ensures var sys := Run(NEW, ActionsOf(requests));
            Mirrors(path, budget, sys) && Safe(sys) && granted == Granted(NEW, ActionsOf(requests))
    ensures NoEscape(NEW, ActionsOf(requests)) ==> Consistent(Run(NEW, ActionsOf(requests)))
    ensures NoRepeat(granted)
  {
    budget, granted := None, [];
    ghost var sys := NEW;
    for i := 0 to |requests|
      invariant sys == Run(NEW, ActionsOf(requests[..i])) && Mirrors(path, budget, sys)
      invariant granted == Granted(NEW, ActionsOf(requests[..i]))
      invariant budget.Some? ==> fresh(budget.value)
    {
      var r, before := requests[i], budget;
      assert requests[..i + 1][..i] == requests[..i];
      RunSnoc(NEW, ActionsOf(requests[..i]), ActionOf(r));
      if before.None? {
        budget := ServeClosed(path, r, sys);
      } else {
        var yes;
        budget, yes := ServeOpen(path, before.value, r, sys);
        granted := granted + if yes then [r.id] else [];
      }
      sys := Step(sys, ActionOf(r));
    }
    assert requests[..|requests|] == requests;
    RunSafe(NEW, ActionsOf(requests));
    if NoEscape(NEW, ActionsOf(requests)) {
      RunConsistent(NEW, ActionsOf(requests));
    }
    GrantedOnce(NEW, ActionsOf(requests));
  }
}
