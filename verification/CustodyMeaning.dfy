/** Each custody transaction by its exact conditions and its exact effect on the rows. */
module CustodyMeaning {
  import opened Basics
  import opened Custody
  import opened CustodyInvariants

  /** Only request `r` and its dispatches change, and the log gains one event about it. */
  ghost predicate OnlyRequest(s: Db, t: Db, r: RequestId, kind: EventType) {
    && t.enabled == s.enabled
    && t.requests.Keys == s.requests.Keys
    && (forall q | q in s.requests && q != r :: t.requests[q] == s.requests[q])
    && t.events == s.events + [Event(r, kind)]
  }

  /** Besides, of its dispatches only `d` changes, and the frozen work stays. */
  ghost predicate OnlyDispatch(s: Db, t: Db, d: DispatchId, kind: EventType) {
    && OnlyRequest(s, t, d.request, kind)
    && HasDispatch(s, d) && HasDispatch(t, d)
    && t.requests[d.request].frozen == s.requests[d.request].frozen
    && |t.requests[d.request].dispatches| == |s.requests[d.request].dispatches|
    && (forall k | 0 <= k < |s.requests[d.request].dispatches| && k != d.ordinal ::
          t.requests[d.request].dispatches[k] == s.requests[d.request].dispatches[k])
    && GetDispatch(t, d).route == GetDispatch(s, d).route && GetDispatch(t, d).digest == GetDispatch(s, d).digest
  }

  // ---------- Requests ----------

  /** A stored request with this project and client id. */
  ghost predicate Known(s: Db, f: Frozen, r: RequestId) {
    && r in s.requests
    && s.requests[r].frozen.projectId == f.projectId
    && s.requests[r].frozen.clientRequestId == f.clientRequestId
  }

  /** Creating is idempotent: identical frozen work is answered with the stored request and
      changes nothing, other work under the same client id is a conflict, and only unknown
      work becomes a new queued request. */
  lemma CreateAnswers(s: Db, f: Frozen, id: RequestId)
    requires Coupled(s) && id !in s.requests
    ensures forall r | r in s.requests && s.requests[r].frozen == f :: Create(s, f, id) == Commit(s, r)
    ensures Create(s, f, id) == Abort(Conflict) <==> exists r: RequestId :: Known(s, f, r) && s.requests[r].frozen != f
    ensures (forall r: RequestId :: !Known(s, f, r)) ==>
              var t := s.(requests := s.requests[id := LogicalRequest(f, Queued, None, None, [])],
                          events := s.events + [Event(id, RequestCreated)]);
              Create(s, f, id) == Commit(t, id)
  {
    hide RowsCoupled, RowsLinked, CandidatesCoupled;
    var bound := BoundTo(s, f.projectId, f.clientRequestId);
    forall r: RequestId ensures r in bound <==> Known(s, f, r) {}
    forall r, q | r in bound && q in bound ensures r == q { OneRequestPerClient(s, r, q); }
    forall r | r in bound ensures bound == {r} {}
    forall r | r in s.requests && s.requests[r].frozen == f ensures Create(s, f, id) == Commit(s, r) {
      assert Known(s, f, r);
    }
    forall r: RequestId | Known(s, f, r) && s.requests[r].frozen != f ensures Create(s, f, id) == Abort(Conflict) {
      assert bound == {r};
    }
    if bound == {} {
      assert forall r: RequestId :: !Known(s, f, r);
    }
  }

  lemma CreateThenCreate(s: Db, f: Frozen, id: RequestId, again: RequestId)
    requires Coupled(s) && id !in s.requests && Create(s, f, id).Commit?
    requires again !in Create(s, f, id).db.requests
    ensures var made := Create(s, f, id); Create(made.db, f, again) == Commit(made.db, made.value)
  {
    CreateIsStep(s, f, id);
    CreateAnswers(s, f, id);
    var made := Create(s, f, id);
    hide Create;
    if exists r: RequestId :: Known(s, f, r) {
      var r: RequestId :| Known(s, f, r);
      CreatedAs(s, f, id, r);
    }
    StepGives(s, made.db);
    CreateAnswers(made.db, f, again);
  }

  lemma CreatedAs(s: Db, f: Frozen, id: RequestId, r: RequestId)
    requires Coupled(s) && id !in s.requests && Create(s, f, id).Commit? && Known(s, f, r)
    ensures s.requests[r].frozen == f && Create(s, f, id) == Commit(s, r)
  {
    CreateAnswers(s, f, id);
  }

  // ---------- Dispatching on and off ----------

  /** Only this project's switch moves, and it ends where it was put. */
  lemma EnableExactly(s: Db, project: Name, on: bool)
    ensures var t := Enable(s, project, on);
            && (project in t.enabled <==> on)
            && (forall other | other != project :: other in t.enabled <==> other in s.enabled)
            && t.requests == s.requests && t.candidates == s.candidates && t.events == s.events
  {
  }

  // ---------- Reservation ----------

  /** Exactly when a route is reserved, and which: the next one of the frozen list. */
  lemma ReserveExactly(s: Db, r: RequestId, choice: Option<Route>, fallback: bool)
    requires Coupled(s)
    ensures Reserve(s, r, choice, fallback).Commit? <==>
              && r in s.requests
              && var q := s.requests[r];
                 var n := |q.dispatches|;
                 && q.frozen.projectId in s.enabled
                 && q.status == (if fallback then LogicalStatus.Failed else Queued)
                 && n <= |q.frozen.fallbacks|
                 && (choice.Some? ==> choice.value == if n == 0 then q.frozen.original else q.frozen.fallbacks[n - 1])
    ensures Reserve(s, r, choice, fallback).Commit? ==>
              var t := Reserve(s, r, choice, fallback).db;
              var q, q' := s.requests[r], t.requests[r];
              var n := |q.dispatches|;
              var route := if n == 0 then q.frozen.original else q.frozen.fallbacks[n - 1];
              && Reserve(s, r, choice, fallback).value == DispatchId(r, n)
              && OnlyRequest(s, t, r, if fallback then FallbackReserved else DispatchReserved)
              && t.candidates == s.candidates
              && (n > 0 <==> fallback)
              && q' == q.(status := Dispatching,
                          dispatches := q.dispatches + [Dispatch(route, DispatchDigest(q.frozen, n, route), Reserved,
                              None, None)])
  {
    if r in s.requests { StatusDetermined(s, r); }
  }

  // ---------- Transitions of one dispatch ----------

  /** The request status that goes with the status of its last dispatch. */
  ghost predicate Agrees(dispatch: DispatchStatus, request: LogicalStatus) {
    match dispatch
    case Reserved => request == Dispatching
    case Executing => request == Dispatching
    case Candidate => request == LogicalStatus.Candidate
    case Blocked => request == LogicalStatus.Blocked
    case Unknown => request == LogicalStatus.Unknown
    case Failed => request == LogicalStatus.Failed
  }

  /** An unaccepted request says what its last dispatch says, an accepted one is ACCEPTED,
      and one without dispatches is QUEUED. */
  lemma StatusTable(s: Db, r: RequestId)
    requires Coupled(s) && r in s.requests
    ensures var q := s.requests[r];
            var n := |q.dispatches|;
            && (n == 0 <==> q.status == Queued)
            && (q.acceptedCandidateId.Some? <==> q.status == LogicalStatus.Accepted)
            && (n > 0 && q.acceptedCandidateId.None? ==> Agrees(q.dispatches[n - 1].status, q.status))
  {
    StatusDetermined(s, r);
  }

  ghost predicate Becomes(s: Db, t: Db, d: DispatchId, to: DispatchStatus, execution: Option<AttemptId>,
      kind: EventType) {
    && OnlyDispatch(s, t, d, kind) && t.candidates == s.candidates
    && GetDispatch(t, d).status == to
    && GetDispatch(t, d).executionId == execution
    && GetDispatch(t, d).candidateId == GetDispatch(s, d).candidateId
    && Agrees(to, t.requests[d.request].status)
    && t.requests[d.request].candidateId == s.requests[d.request].candidateId
    && t.requests[d.request].acceptedCandidateId == s.requests[d.request].acceptedCandidateId
  }

  /** A reserved dispatch starts executing under the given attempt, and nothing else does. */
  lemma ExecutingExactly(s: Db, d: DispatchId, attempt: Option<AttemptId>)
    requires HasDispatch(s, d)
    ensures MarkExecuting(s, d, attempt).Commit? <==> GetDispatch(s, d).status == Reserved
    ensures MarkExecuting(s, d, attempt).Commit? ==>
              var execution := if attempt.Some? then attempt else GetDispatch(s, d).executionId;
              Becomes(s, MarkExecuting(s, d, attempt).db, d, Executing, execution, DispatchStarted)
  {
  }

  lemma UnknownExactly(s: Db, d: DispatchId)
    requires HasDispatch(s, d)
    ensures MarkUnknown(s, d).Commit? <==> GetDispatch(s, d).status in {Reserved, Executing}
    ensures MarkUnknown(s, d).Commit? ==>
              Becomes(s, MarkUnknown(s, d).db, d, DispatchStatus.Unknown, GetDispatch(s, d).executionId, OutcomeUnknown)
  {
  }

  lemma FailedExactly(s: Db, d: DispatchId)
    requires HasDispatch(s, d)
    ensures MarkFailed(s, d).Commit? <==> GetDispatch(s, d).status in {Reserved, Executing}
    ensures MarkFailed(s, d).Commit? ==>
              Becomes(s, MarkFailed(s, d).db, d, DispatchStatus.Failed, GetDispatch(s, d).executionId, DispatchFailed)
  {
  }

  // ---------- Candidates ----------

  /** The same response again is answered with its candidate and changes nothing; a first
      response makes an unaccepted candidate with its evidence, named by dispatch and
      request, both of which become CANDIDATE. */
  lemma RecordExactly(s: Db, d: DispatchId, response: Response, evidence: EvidenceRef)
    requires Coupled(s) && HasDispatch(s, d)
    ensures var c := CandidateId(d, response);
            var r := RecordCandidate(s, d, response, evidence);
            && (r.Commit? <==> c in s.candidates || GetDispatch(s, d).status in {Executing, DispatchStatus.Unknown})
            && (r.Commit? ==> r.value == c)
            && (c in s.candidates ==> r == Commit(s, c))
            && (r.Commit? && c !in s.candidates ==>
                  && OnlyDispatch(s, r.db, d, CandidateRecorded)
                  && r.db.candidates == s.candidates[c := CandidateRow(evidence, None)]
                  && GetDispatch(r.db, d).status == DispatchStatus.Candidate
                  && GetDispatch(r.db, d).candidateId == Some(c)
                  && GetDispatch(r.db, d).executionId == GetDispatch(s, d).executionId
                  && r.db.requests[d.request].status == LogicalStatus.Candidate
                  && r.db.requests[d.request].candidateId == Some(c)
                  && r.db.requests[d.request].acceptedCandidateId == s.requests[d.request].acceptedCandidateId)
  {
  }

  /** Recording an acceptance touches only the candidate's mark and its request's status. */
  lemma AcceptExactly(s: Db, c: CandidateId, m: MessageId)
    requires Coupled(s) && c in s.candidates
    ensures Accept(s, c, m).Commit? <==> s.candidates[c].acceptedMessageId in {None, Some(m)}
    ensures s.candidates[c].acceptedMessageId == Some(m) ==> Accept(s, c, m) == Commit(s, ())
    ensures s.candidates[c].acceptedMessageId.None? ==>
              var t := Accept(s, c, m).db;
              && OnlyRequest(s, t, c.dispatch.request, CandidateAccepted)
              && t.candidates == s.candidates[c := s.candidates[c].(acceptedMessageId := Some(m))]
              && t.requests[c.dispatch.request]
                 == s.requests[c.dispatch.request].(status := LogicalStatus.Accepted, acceptedCandidateId := Some(c))
  {
    CandidateHome(s, c);
  }

  /** Blocking touches the statuses of the dispatch and the request, and keeps the candidate. */
  lemma BlockExactly(s: Db, c: CandidateId)
    requires Coupled(s) && c in s.candidates
    ensures Block(s, c).Commit? <==> s.candidates[c].acceptedMessageId.None?
    ensures Block(s, c).Commit? ==>
              var t := Block(s, c).db;
              && OnlyDispatch(s, t, c.dispatch, CandidateBlocked) && t.candidates == s.candidates
              && GetDispatch(t, c.dispatch) == GetDispatch(s, c.dispatch).(status := DispatchStatus.Blocked)
              && t.requests[c.dispatch.request].status == LogicalStatus.Blocked
              && t.requests[c.dispatch.request].candidateId == Some(c)
              && t.requests[c.dispatch.request].acceptedCandidateId.None?
  {
    CandidateHome(s, c);
  }
}
