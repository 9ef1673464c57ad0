/** The worker: it drives one governed execution per dispatch, restarting at will, and
    settles the custody row afterwards. */
module GenerationWorker {
  import opened Basics
  import opened Custody
  import opened CustodyInvariants
  import opened GenerationStores

  // ---------- Driving one execution ----------

  /** The program counter that an inspection reports. */
  datatype Counter =
    | ObservationRequired
    | ProposalRecorded
    | StandingRequired
    | AdmissiblePendingAuthorization
    | AuthorizationConsumed
    | Dispatched
    | ReconciliationRequired
    | SettledObservationRequired
    | Halted
    | Completed
    | Unsupported

  datatype Command = RecordProposal | RequireStanding | Decide | Authorize | DispatchCommand | Recover | Poll

  /** How one turn of the loop goes: the command may be refused, and the process may be
      killed before the marker is written, before the command is issued, or after it. */
  datatype Fate = Runs | Refused | KilledFirst | KilledBefore | KilledAfter

  datatype Turn = Turn(counter: Counter, fate: Fate)

  datatype Outcome = Returned(counter: Counter) | DriveFailed | Killed

  /** What survives a restart: the marker file and the issued commands. */
  datatype Durable = Durable(started: bool, issued: seq<Command>)

  function CommandFor(counter: Counter, started: bool): Option<Command> {
    match counter
    case ObservationRequired => Some(RecordProposal)
    case ProposalRecorded => Some(RequireStanding)
    case StandingRequired => Some(Decide)
    case AdmissiblePendingAuthorization => Some(Authorize)
    case AuthorizationConsumed => Some(if started then Recover else DispatchCommand)
    case Dispatched => Some(Poll)
    case ReconciliationRequired => Some(Recover)
    case _ => None
  }

  /** One turn: the marker is durable before the dispatch command is issued. */
  function TakeTurn(d: Durable, t: Turn): (Durable, Option<Outcome>) {
    var command := CommandFor(t.counter, d.started);
    if command.None? then (d, Some(if t.counter.Unsupported? then DriveFailed else Returned(t.counter)))
    else if t.fate.KilledFirst? then (d, Some(Killed))
    else
      var marked := d.(started := d.started || command.value.DispatchCommand?);
      if t.fate.KilledBefore? then (marked, Some(Killed))
      else
        var issued := marked.(issued := marked.issued + [command.value]);
        (issued,
         match t.fate
         case Refused => Some(DriveFailed)
         case Runs => if t.counter.ReconciliationRequired? then Some(Returned(t.counter)) else None
         case _ => Some(Killed))
  }

  /** One process, until it returns, fails or is killed. */
  function DriveAll(d: Durable, turns: seq<Turn>): (Durable, Outcome)
    decreases |turns|
  {
    if turns == [] then (d, Killed)
    else
      var (e, outcome) := TakeTurn(d, turns[0]);
      if outcome.Some? then (e, outcome.value) else DriveAll(e, turns[1..])
  }

  class GovernedGeneration {
    var started: bool
    var issued: seq<Command>

    ghost function State(): Durable
      reads this
    {
      Durable(started, issued)
    }

    constructor ()
      ensures State() == Durable(false, [])
    {
      started, issued := false, [];
    }

    method Drive(turns: seq<Turn>) returns (r: Outcome)
      modifies this
      ensures (State(), r) == DriveAll(old(State()), turns)
    {
      for i := 0 to |turns|
        invariant DriveAll(State(), turns[i..]) == DriveAll(old(State()), turns)
      {
        assert turns[i..][1..] == turns[i + 1..];
        var counter, fate := turns[i].counter, turns[i].fate;
        var command;
        match counter {
          case ObservationRequired => command := RecordProposal;
          case ProposalRecorded => command := RequireStanding;
          case StandingRequired => command := Decide;
          case AdmissiblePendingAuthorization => command := Authorize;
          case AuthorizationConsumed =>
            command := if started then Recover else DispatchCommand;
          case Dispatched => command := Poll;
          case ReconciliationRequired => command := Recover;
          case Unsupported => return DriveFailed;
          case _ => return Returned(counter);
        }
        if fate.KilledFirst? { return Killed; }
        if command.DispatchCommand? { started := true; }
        if fate.KilledBefore? { return Killed; }
        issued := issued + [command];
        if fate.KilledAfter? { return Killed; }
        if fate.Refused? { return DriveFailed; }
        if counter.ReconciliationRequired? { return Returned(counter); }
      }
      return Killed;
    }
  }

  /** The command of each counter, when nothing interferes. Only a consumed authorization
      depends on the marker: without it the dispatch is issued, with it only recovery is. */
  lemma CommandOfEachCounter(d: Durable, t: Turn)
    requires t.fate.Runs? || t.fate.Refused? || t.fate.KilledAfter?
    ensures var e := TakeTurn(d, t).0;
            match t.counter
            case ObservationRequired => e == d.(issued := d.issued + [RecordProposal])
            case ProposalRecorded => e == d.(issued := d.issued + [RequireStanding])
            case StandingRequired => e == d.(issued := d.issued + [Decide])
            case AdmissiblePendingAuthorization => e == d.(issued := d.issued + [Authorize])
            case AuthorizationConsumed =>
              e == if d.started then d.(issued := d.issued + [Recover]) else Durable(true, d.issued + [DispatchCommand])
            case Dispatched => e == d.(issued := d.issued + [Poll])
            case ReconciliationRequired => e == d.(issued := d.issued + [Recover])
            case _ => e == d
  {
  }

  /** When a turn ends the process, and how. */
  lemma TurnEnds(d: Durable, t: Turn)
    ensures var outcome := TakeTurn(d, t).1;
            match t.counter
            case Unsupported => outcome == Some(DriveFailed)
            case SettledObservationRequired => outcome == Some(Returned(t.counter))
            case Halted => outcome == Some(Returned(t.counter))
            case Completed => outcome == Some(Returned(t.counter))
            case _ =>
              match t.fate
              case Runs => outcome == if t.counter.ReconciliationRequired? then Some(Returned(t.counter)) else None
              case Refused => outcome == Some(DriveFailed)
              case _ => outcome == Some(Killed)
  {
  }

  /** This turn writes the marker and ends before the command. */
  predicate LosesDispatch(d: Durable, t: Turn) {
    t.counter.AuthorizationConsumed? && !d.started && t.fate.KilledBefore?
  }

  function Lost(d: Durable, turns: seq<Turn>): nat
    decreases |turns|
  {
    if turns == [] then 0
    else
      var (e, outcome) := TakeTurn(d, turns[0]);
      (if LosesDispatch(d, turns[0]) then 1 else 0) + (if outcome.Some? then 0 else Lost(e, turns[1..]))
  }

  function LostIn(processes: seq<seq<Turn>>): nat {
    if processes == [] then 0
    else
      var before := processes[..|processes| - 1];
      LostIn(before) + Lost(Restarted(before), processes[|processes| - 1])
  }

  /** What one turn does to the balance of marker, command and loss. */
  lemma TurnConserves(d: Durable, t: Turn)
    requires Balanced(d)
    ensures var e := TakeTurn(d, t).0;
            && Balanced(e) && (d.started ==> e.started)
            && Weight(e) == Weight(d) - (if LosesDispatch(d, t) then 1 else 0)
  {
    var command := CommandFor(t.counter, d.started);
    if command.Some? { assert (d.issued + [command.value])[..|d.issued|] == d.issued; }
  }

  predicate Balanced(d: Durable) {
    Dispatches(d.issued) <= 1 && (!d.started ==> Dispatches(d.issued) == 0)
  }

  /** Commands issued less markers written. */
  function Weight(d: Durable): int {
    Dispatches(d.issued) - (if d.started then 1 else 0)
  }

  lemma {:induction false} DriveConserves(d: Durable, turns: seq<Turn>)
    requires Balanced(d)
    ensures Weight(DriveAll(d, turns).0) == Weight(d) - Lost(d, turns)
    decreases |turns|
  {
    hide TakeTurn, Balanced, Weight, LosesDispatch;
    if turns != [] {
      var (e, outcome) := TakeTurn(d, turns[0]);
      TurnConserves(d, turns[0]);
      if outcome.None? { DriveConserves(e, turns[1..]); }
    }
  }

  /** Once the marker is written, over any number of restarts, the dispatch command has been
      issued exactly once, unless a process was killed exactly between the two. */
  lemma {:induction false} MarkerMeansDispatched(processes: seq<seq<Turn>>)
    ensures var d := Restarted(processes);
            Dispatches(d.issued) + LostIn(processes) == if d.started then 1 else 0
  {
    if processes != [] {
      var before := processes[..|processes| - 1];
      MarkerMeansDispatched(before);
      DispatchedAtMostOnce(before);
      DriveConserves(Restarted(before), processes[|processes| - 1]);
    }
  }

  function Dispatches(issued: seq<Command>): nat {
    if issued == [] then 0
    else Dispatches(issued[..|issued| - 1]) + (if issued[|issued| - 1].DispatchCommand? then 1 else 0)
  }

  ghost predicate Once(d: Durable) {
    Dispatches(d.issued) <= 1 && (Dispatches(d.issued) == 1 ==> d.started)
  }

  lemma TurnKeepsOnce(d: Durable, t: Turn)
    requires Once(d)
    ensures Once(TakeTurn(d, t).0)
  {
    var command := CommandFor(t.counter, d.started);
    if command.Some? {
      assert (d.issued + [command.value])[..|d.issued|] == d.issued;
    }
  }

  lemma {:induction false} DriveKeepsOnce(d: Durable, turns: seq<Turn>)
    requires Once(d)
    ensures Once(DriveAll(d, turns).0)
    decreases |turns|
  {
    if turns != [] {
      TurnKeepsOnce(d, turns[0]);
      if TakeTurn(d, turns[0]).1.None? { DriveKeepsOnce(TakeTurn(d, turns[0]).0, turns[1..]); }
    }
  }

  /** What is durable after any number of restarts. */
  function Restarted(processes: seq<seq<Turn>>): Durable {
    if processes == [] then Durable(false, [])
    else DriveAll(Restarted(processes[..|processes| - 1]), processes[|processes| - 1]).0
  }

  /** However often the worker is killed and restarted, whatever the counters say, the
      dispatch command is issued at most once for one dispatch. */
  lemma {:induction false} DispatchedAtMostOnce(processes: seq<seq<Turn>>)
    ensures Once(Restarted(processes))
  {
    if processes != [] {
      DispatchedAtMostOnce(processes[..|processes| - 1]);
      DriveKeepsOnce(Restarted(processes[..|processes| - 1]), processes[|processes| - 1]);
    }
  }

  // ---------- Settling the custody row ----------

  datatype WorkerError = StoreRefused(error: StoreError) | NonFailedPrior

  class Worker {
    const store: GenerationStore

    constructor (store: GenerationStore)
      ensures this.store == store
    {
      this.store := store;
    }

    /** The dispatch to drive: the last one, or the first reservation of a new request.
        The check of the earlier dispatches never fails. */
    method SelectDispatch(id: RequestId) returns (r: Result<DispatchId, WorkerError>)
      requires store.Valid() && id in store.requests
      modifies store
      ensures store.Valid()
      ensures r.Err? ==> !r.error.NonFailedPrior?
      ensures var s := old(store.Snapshot());
              var n := |s.requests[id].dispatches|;
              if n > 0 then r == Ok(DispatchId(id, n - 1)) && store.Snapshot() == s
              else match Reserve(s, id, None, false)
                   case Commit(db, d) => r == Ok(d) && d == DispatchId(id, 0) && store.Snapshot() == db
                   case Abort(e) => r == Err(StoreRefused(e)) && store.Snapshot() == s
    {
      hide Coupled;
      var dispatches := store.requests[id].dispatches;
      if dispatches == [] {
        var reserved := store.ReserveDispatch(id, None, false);
        r := match reserved case Ok(d) => Ok(d) case Err(e) => Err(StoreRefused(e));
        return;
      }
      StatusDetermined(store.Snapshot(), id);
      for i := 0 to |dispatches| - 1 {
        if dispatches[i].status != DispatchStatus.Failed { return Err(NonFailedPrior); }
      }
      return Ok(DispatchId(id, |dispatches| - 1));
    }

    /** After a drive that settled nothing, an open dispatch becomes unknown, and only an
        open one; the mark is never refused. */
    method Settle(d: DispatchId, outcome: Outcome)
      requires store.Valid()
      modifies store
      ensures store.Valid()
      ensures var s := old(store.Snapshot());
              if outcome in {DriveFailed, Returned(ReconciliationRequired)}
                 && HasDispatch(s, d) && GetDispatch(s, d).status in {Reserved, Executing}
              then Commit(store.Snapshot(), ()) == MarkUnknown(s, d)
              else store.Snapshot() == s
      ensures outcome in {DriveFailed, Returned(ReconciliationRequired)} && HasDispatch(store.Snapshot(), d) ==>
                GetDispatch(store.Snapshot(), d).status !in {Reserved, Executing}
    {
      hide Coupled;
      if outcome != DriveFailed && outcome != Returned(ReconciliationRequired) { return; }
      if d.request !in store.requests || d.ordinal >= |store.requests[d.request].dispatches| { return; }
      if store.requests[d.request].dispatches[d.ordinal].status in {Reserved, Executing} {
        var marked := store.MarkDispatchUnknown(d);
      }
    }

    /** A failed request is given its next authorized route exactly when one is left and
        dispatching is enabled; the reservation is then never refused. */
    method Fallback(id: RequestId) returns (r: Option<Result<DispatchId, StoreError>>)
      requires store.Valid() && id in store.requests && store.requests[id].status == LogicalStatus.Failed
      modifies store
      ensures store.Valid()
      ensures var s := old(store.Snapshot());
              var q := s.requests[id];
              if |q.dispatches| < RouteCount(q.frozen) && q.frozen.projectId in s.enabled
              then r == Some(Ok(DispatchId(id, |q.dispatches|)))
                   && Commit(store.Snapshot(), DispatchId(id, |q.dispatches|)) == Reserve(s, id, None, true)
              else r.None? && store.Snapshot() == s
    {
      hide Coupled;
      var request := store.requests[id];
      var used := |request.dispatches|;
      var available := 1 + |request.frozen.fallbacks|;
      if used >= available || request.frozen.projectId !in store.enabled { return None; }
      var reserved := store.ReserveDispatch(id, None, true);
      return Some(reserved);
    }
  }
}
