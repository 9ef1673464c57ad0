/** The custody store itself. Each method follows the guards of its transaction in the
    source's order and is proved to be the simpler atomic transaction of `Custody`:
    under the coupling invariant several of those guards can never fire. */
module GenerationStores {
  import opened Basics
  import opened Custody
  import opened CustodyInvariants

  /** How a method result reports a transaction. */
  ghost predicate Reports<T>(tx: Tx<T>, before: Db, after: Db, r: Result<T, StoreError>) {
    match tx
    case Commit(db, v) => after == db && r == Ok(v)
    case Abort(e) => after == before && r == Err(e)
  }

  class GenerationStore {
    var enabled: set<Name>
    var requests: map<RequestId, LogicalRequest>
    var candidates: map<CandidateId, CandidateRow>
    var events: seq<Event>

    ghost function Snapshot(): Db
      reads this
    {
      Db(enabled, requests, candidates, events)
    }

    ghost predicate Valid()
      reads this
    {
      Coupled(Snapshot())
    }

    constructor ()
      ensures Valid() && Snapshot() == EMPTY_DB
    {
      enabled, requests, candidates, events := {}, map[], map[], [];
    }

    method SetDispatchEnabled(project: Name, on: bool)
      requires Valid()
      modifies this
      ensures Valid() && Snapshot() == Enable(old(Snapshot()), project, on)
    {
      EnableIsStep(Snapshot(), project, on);
      if on {
        enabled := enabled + {project};
      } else {
        enabled := enabled - {project};
      }
    }

    method CreateRequest(frozen: Frozen, id: RequestId) returns (r: Result<RequestId, StoreError>)
      requires Valid() && id !in requests
      modifies this
      ensures Valid()
      ensures Reports(Create(old(Snapshot()), frozen, id), old(Snapshot()), Snapshot(), r)
    {
      hide RowsCoupled, RowsLinked, CandidatesCoupled, ClientsDistinct, Evolves, RequestStep;
      ghost var before := Snapshot();
      var bound := set k | k in requests && requests[k].frozen.projectId == frozen.projectId
                                         && requests[k].frozen.clientRequestId == frozen.clientRequestId;
      assert bound == BoundTo(before, frozen.projectId, frozen.clientRequestId);
      if bound != {} {
        var existing :| existing in bound;
        forall k | k in bound ensures k == existing {
          OneRequestPerClient(before, k, existing);
        }
        if requests[existing].frozen != frozen {
          return Err(Conflict);
        }
        return Ok(existing);
      }
      CreateIsStep(before, frozen, id);
      requests := requests[id := LogicalRequest(frozen, Queued, None, None, [])];
      events := events + [Event(id, RequestCreated)];
      return Ok(id);
    }

    method ReserveDispatch(id: RequestId, choice: Option<Route>, fallback: bool)
        returns (r: Result<DispatchId, StoreError>)
      requires Valid()
      modifies this
      ensures Valid()
      ensures Reports(Reserve(old(Snapshot()), id, choice, fallback), old(Snapshot()), Snapshot(), r)
    {
      hide RowsCoupled, RowsLinked, CandidatesCoupled, ClientsDistinct, Evolves, RequestStep;
      ghost var before := Snapshot();
      if id !in requests { return Err(NotFound); }
      var request := requests[id];
      StatusDetermined(before, id);
      if request.frozen.projectId !in enabled { return Err(Disabled); }
      if request.status != (if fallback then LogicalStatus.Failed else Queued) { return Err(IllegalTransition); }
      var prior := |request.dispatches|;
      var authorized := [request.frozen.original] + request.frozen.fallbacks;
      if fallback {
        // A failed request has a last dispatch, and it failed: neither guard fires.
        if prior == 0 { return Err(IllegalTransition); }
        if request.dispatches[prior - 1].status != DispatchStatus.Failed { return Err(IllegalTransition); }
      }
      if prior >= |authorized| { return Err(IllegalTransition); }
      var selected := if choice.Some? then choice.value else authorized[prior];
      if selected !in authorized || (prior == 0 && selected != authorized[0]) { return Err(IllegalTransition); }
      if selected != authorized[prior] { return Err(IllegalTransition); }
      ReserveIsStep(before, id, choice, fallback);
      var row := Dispatch(selected, DispatchDigest(request.frozen, prior, selected), Reserved, None, None);
      requests := requests[id := request.(status := Dispatching, dispatches := request.dispatches + [row])];
      events := events + [Event(id, if fallback then FallbackReserved else DispatchReserved)];
      return Ok(DispatchId(id, prior));
    }

    method DispatchTransition(d: DispatchId, allowed: set<DispatchStatus>, to: DispatchStatus, logical: LogicalStatus,
                              kind: EventType, execution: Option<AttemptId>)
      returns (r: Result<(), StoreError>)
      requires Valid()
      requires allowed <= {Reserved, Executing} && to in {Executing, DispatchStatus.Unknown, DispatchStatus.Failed}
      requires to.Executing? ==> Executing !in allowed
      requires logical == Mirror(to)
      modifies this
      ensures Valid()
      ensures Reports(Move(old(Snapshot()), d, allowed, to, kind, execution), old(Snapshot()), Snapshot(), r)
    {
      hide RowsCoupled, RowsLinked, CandidatesCoupled, ClientsDistinct, Evolves, RequestStep;
      ghost var before := Snapshot();
      if d.request !in requests || d.ordinal >= |requests[d.request].dispatches| { return Err(NotFound); }
      var request := requests[d.request];
      var row := request.dispatches[d.ordinal];
      if row.status !in allowed { return Err(IllegalTransition); }
      MoveIsStep(before, d, allowed, to, kind, execution);
      row := row.(status := to, executionId := if execution.Some? then execution else row.executionId);
      request := request.(status := logical, dispatches := request.dispatches[d.ordinal := row]);
      requests := requests[d.request := request];
      events := events + [Event(d.request, kind)];
      return Ok(());
    }

    method MarkDispatchExecuting(d: DispatchId, attempt: Option<AttemptId>) returns (r: Result<(), StoreError>)
      requires Valid()
      modifies this
      ensures Valid()
      ensures Reports(MarkExecuting(old(Snapshot()), d, attempt), old(Snapshot()), Snapshot(), r)
    {
      r := DispatchTransition(d, {Reserved}, Executing, Dispatching, DispatchStarted, attempt);
    }

    method MarkDispatchUnknown(d: DispatchId) returns (r: Result<(), StoreError>)
      requires Valid()
      modifies this
      ensures Valid()
      ensures Reports(MarkUnknown(old(Snapshot()), d), old(Snapshot()), Snapshot(), r)
    {
      r := DispatchTransition(d, {Reserved, Executing}, DispatchStatus.Unknown, LogicalStatus.Unknown,
          OutcomeUnknown, None);
    }

    method MarkDispatchFailed(d: DispatchId) returns (r: Result<(), StoreError>)
      requires Valid()
      modifies this
      ensures Valid()
      ensures Reports(MarkFailed(old(Snapshot()), d), old(Snapshot()), Snapshot(), r)
    {
      r := DispatchTransition(d, {Reserved, Executing}, DispatchStatus.Failed, LogicalStatus.Failed, DispatchFailed,
          None);
    }

    method RecordDispatchCandidate(d: DispatchId, response: Response, evidence: EvidenceRef)
      returns (r: Result<CandidateId, StoreError>)
      requires Valid()
      modifies this
      ensures Valid()
      ensures Reports(RecordCandidate(old(Snapshot()), d, response, evidence), old(Snapshot()), Snapshot(), r)
    {
      hide RowsCoupled, RowsLinked, CandidatesCoupled, ClientsDistinct, Evolves, RequestStep;
      ghost var before := Snapshot();
      if d.request !in requests || d.ordinal >= |requests[d.request].dispatches| { return Err(NotFound); }
      var request := requests[d.request];
      var row := request.dispatches[d.ordinal];
      var c := CandidateId(d, response);
      if c in candidates { return Ok(c); }
      if row.status !in {Executing, DispatchStatus.Unknown} { return Err(IllegalTransition); }
      var conflicting := set e | e in candidates && e.dispatch == d;
      OpenHasNoCandidate(before, d);
      if conflicting != {} { return Err(IllegalTransition); }
      RecordCandidateIsStep(before, d, response, evidence);
      candidates := candidates[c := CandidateRow(evidence, None)];
      row := row.(status := DispatchStatus.Candidate, candidateId := Some(c));
      requests := requests[d.request := request.(status := LogicalStatus.Candidate, candidateId := Some(c),
                                                 dispatches := request.dispatches[d.ordinal := row])];
      events := events + [Event(d.request, CandidateRecorded)];
      return Ok(c);
    }

    method AcceptCandidate(c: CandidateId, m: MessageId) returns (r: Result<(), StoreError>)
      requires Valid()
      modifies this
      ensures Valid()
      ensures Reports(Accept(old(Snapshot()), c, m), old(Snapshot()), Snapshot(), r)
    {
      hide RowsCoupled, RowsLinked, CandidatesCoupled, ClientsDistinct, Evolves, RequestStep;
      ghost var before := Snapshot();
      if c !in candidates { return Err(NotFound); }
      CandidateHome(before, c);
      var candidate := candidates[c];
      var request := requests[c.dispatch.request];
      if candidate.acceptedMessageId.Some? {
        if candidate.acceptedMessageId.value != m { return Err(IllegalTransition); }
        return Ok(());
      }
      if request.acceptedCandidateId !in {None, Some(c)} { return Err(IllegalTransition); }
      AcceptIsStep(before, c, m);
      candidates := candidates[c := candidate.(acceptedMessageId := Some(m))];
      requests := requests[c.dispatch.request := request.(status := Accepted, acceptedCandidateId := Some(c))];
      events := events + [Event(c.dispatch.request, CandidateAccepted)];
      return Ok(());
    }

    method BlockCandidate(c: CandidateId) returns (r: Result<(), StoreError>)
      requires Valid()
      modifies this
      ensures Valid()
      ensures Reports(Block(old(Snapshot()), c), old(Snapshot()), Snapshot(), r)
    {
      hide RowsCoupled, RowsLinked, CandidatesCoupled, ClientsDistinct, Evolves, RequestStep;
      ghost var before := Snapshot();
      if c !in candidates { return Err(NotFound); }
      CandidateHome(before, c);
      var request := requests[c.dispatch.request];
      if request.acceptedCandidateId.Some? { return Err(IllegalTransition); }
      BlockIsStep(before, c);
      var row := request.dispatches[c.dispatch.ordinal].(status := DispatchStatus.Blocked);
      requests := requests[c.dispatch.request := request.(status := LogicalStatus.Blocked,
                                                         dispatches := request.dispatches[c.dispatch.ordinal := row])];
      events := events + [Event(c.dispatch.request, CandidateBlocked)];
      return Ok(());
    }
  }
}
