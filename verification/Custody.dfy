/** The SQLite custody index: one logical request, its provider dispatches and the
    candidates they returned. Every transaction is one atomic step on a `Db`. */
module Custody {
  import opened Basics

  type RequestId = nat
  type SessionId = nat
  type AttemptId = nat
  type MessageId = nat

  // ---------- Rows ----------

  datatype LogicalStatus = Queued | Dispatching | Candidate | Accepted | Blocked | Unknown | Failed

  datatype DispatchStatus = Reserved | Executing | Candidate | Blocked | Unknown | Failed

  datatype Route = Route(model: Name, provider: Name)

  /** Everything the request digest covers. Digests are injective, so a digest is
      modelled by the value it digests. */
  datatype Frozen = Frozen(
    clientRequestId: Name,
    projectId: Name,
    sessionId: SessionId,
    expectedRevision: nat,
    canon: Name,
    guidance: Name,
    original: Route,
    fallbacks: seq<Route>,
    prompts: seq<Prompt>)

  /** A dispatch row is identified by its unique key: owning request and ordinal. */
  datatype DispatchId = DispatchId(request: RequestId, ordinal: nat)

  datatype DispatchDigest = DispatchDigest(request: Frozen, ordinal: nat, route: Route)

  datatype Dispatch = Dispatch(
    route: Route,
    digest: DispatchDigest,
    status: DispatchStatus,
    executionId: Option<AttemptId>,
    candidateId: Option<CandidateId>)

  /** A request row together with the dispatch rows that reference it, by ordinal. */
  datatype LogicalRequest = LogicalRequest(
    frozen: Frozen,
    status: LogicalStatus,
    candidateId: Option<CandidateId>,
    acceptedCandidateId: Option<CandidateId>,
    dispatches: seq<Dispatch>)

  /** A provider response, as the governor classifies it. */
  datatype Response =
    | Authored(content: string)
    | NeedsReview(note: string)
    | Malformed(text: string)

  datatype EvidenceRef = EvidenceRef(dispatch: DispatchId, attempt: AttemptId, response: Response)

  /** The digest of one dispatch and one response. */
  datatype CandidateId = CandidateId(dispatch: DispatchId, response: Response)

  datatype CandidateRow = CandidateRow(evidence: EvidenceRef, acceptedMessageId: Option<MessageId>)

  datatype EventType =
    | RequestCreated
    | DispatchReserved
    | FallbackReserved
    | DispatchStarted
    | CandidateRecorded
    | OutcomeUnknown
    | DispatchFailed
    | CandidateAccepted
    | CandidateBlocked

  datatype Event = Event(request: RequestId, kind: EventType)

  /** A committed snapshot of the database. */
  datatype Db = Db(
    enabled: set<Name>,
    requests: map<RequestId, LogicalRequest>,
    candidates: map<CandidateId, CandidateRow>,
    events: seq<Event>)

  datatype StoreError = NotFound | Conflict | Disabled | IllegalTransition

  /** A transaction either commits a new snapshot or rolls back. */
  datatype Tx<+T> = Commit(db: Db, value: T) | Abort(error: StoreError)

  const EMPTY_DB := Db({}, map[], map[], [])

  // ---------- Queries ----------

  /** The authorized routes in order: the original selection, then the fallbacks. */
  function RouteCount(f: Frozen): nat {
    1 + |f.fallbacks|
  }

  function RouteAt(f: Frozen, k: nat): Route
    requires k < RouteCount(f)
  {
    if k == 0 then f.original else f.fallbacks[k - 1]
  }

  predicate HasDispatch(s: Db, d: DispatchId) {
    d.request in s.requests && d.ordinal < |s.requests[d.request].dispatches|
  }

  function GetDispatch(s: Db, d: DispatchId): Dispatch
    requires HasDispatch(s, d)
  {
    s.requests[d.request].dispatches[d.ordinal]
  }

  function BoundTo(s: Db, project: Name, client: Name): set<RequestId> {
    set r | r in s.requests && s.requests[r].frozen.projectId == project
        && s.requests[r].frozen.clientRequestId == client
  }

  /** The request status that mirrors a dispatch status. */
  function Mirror(st: DispatchStatus): LogicalStatus {
    match st
    case Reserved => Dispatching
    case Executing => Dispatching
    case Candidate => LogicalStatus.Candidate
    case Blocked => LogicalStatus.Blocked
    case Unknown => LogicalStatus.Unknown
    case Failed => LogicalStatus.Failed
  }

  // ---------- Transactions ----------

  function Put(s: Db, r: RequestId, q: LogicalRequest, kind: EventType): Db {
    s.(requests := s.requests[r := q], events := s.events + [Event(r, kind)])
  }

  function Enable(s: Db, project: Name, on: bool): Db {
    s.(enabled := if on then s.enabled + {project} else s.enabled - {project})
  }

  /** A client request id already bound in the project is replayed when the frozen
      work is identical and refused otherwise. */
  ghost function Create(s: Db, f: Frozen, id: RequestId): Tx<RequestId> {
    var bound := BoundTo(s, f.projectId, f.clientRequestId);
    if bound == {} then
      Commit(Put(s, id, LogicalRequest(f, Queued, None, None, []), RequestCreated), id)
    else
      var r :| r in bound;
      if s.requests[r].frozen == f then Commit(s, r) else Abort(Conflict)
  }

  /** Reserve the next authorized route, for a queued request or (as a fallback) for
      a failed one. */
  function Reserve(s: Db, r: RequestId, choice: Option<Route>, fallback: bool): Tx<DispatchId> {
    if r !in s.requests then Abort(NotFound)
    else
      var q := s.requests[r];
      var n := |q.dispatches|;
      if q.frozen.projectId !in s.enabled then Abort(Disabled)
      else if q.status != (if fallback then LogicalStatus.Failed else Queued) then Abort(IllegalTransition)
      else if n >= RouteCount(q.frozen) || (choice.Some? && choice.value != RouteAt(q.frozen, n))
          then Abort(IllegalTransition)
      else
        var route := RouteAt(q.frozen, n);
        var row := Dispatch(route, DispatchDigest(q.frozen, n, route), Reserved, None, None);
        Commit(Put(s, r, q.(status := Dispatching, dispatches := q.dispatches + [row]),
                   if fallback then FallbackReserved else DispatchReserved),
               DispatchId(r, n))
  }

  /** The shared dispatch transition: move one dispatch and mirror it on its request. */
  function Move(s: Db, d: DispatchId, allowed: set<DispatchStatus>, to: DispatchStatus,
                kind: EventType, execution: Option<AttemptId>): Tx<()>
  {
    if !HasDispatch(s, d) then Abort(NotFound)
    else
      var row := GetDispatch(s, d);
      var q := s.requests[d.request];
      if row.status !in allowed then Abort(IllegalTransition)
      else
        var moved := row.(status := to, executionId := if execution.Some? then execution else row.executionId);
        Commit(Put(s, d.request, q.(status := Mirror(to), dispatches := q.dispatches[d.ordinal := moved]), kind), ())
  }

  function MarkExecuting(s: Db, d: DispatchId, attempt: Option<AttemptId>): Tx<()> {
    Move(s, d, {Reserved}, Executing, DispatchStarted, attempt)
  }

  function MarkUnknown(s: Db, d: DispatchId): Tx<()> {
    Move(s, d, {Reserved, Executing}, DispatchStatus.Unknown, OutcomeUnknown, None)
  }

  function MarkFailed(s: Db, d: DispatchId): Tx<()> {
    Move(s, d, {Reserved, Executing}, DispatchStatus.Failed, DispatchFailed, None)
  }

  function RecordCandidate(s: Db, d: DispatchId, response: Response, evidence: EvidenceRef): Tx<CandidateId> {
    if !HasDispatch(s, d) then Abort(NotFound)
    else
      var row := GetDispatch(s, d);
      var q := s.requests[d.request];
      var c := CandidateId(d, response);
      if c in s.candidates then Commit(s, c)
      else if row.status !in {Executing, DispatchStatus.Unknown} then Abort(IllegalTransition)
      else
        var moved := row.(status := DispatchStatus.Candidate, candidateId := Some(c));
        var q' := q.(status := LogicalStatus.Candidate, candidateId := Some(c),
                     dispatches := q.dispatches[d.ordinal := moved]);
        var s' := Put(s, d.request, q', CandidateRecorded);
        Commit(s'.(candidates := s.candidates[c := CandidateRow(evidence, None)]), c)
  }

  /** Records a session insertion. It does not look at the dispatch status, so a
      blocked candidate can still be accepted. */
  function Accept(s: Db, c: CandidateId, m: MessageId): Tx<()> {
    if c !in s.candidates || c.dispatch.request !in s.requests then Abort(NotFound)
    else
      var row := s.candidates[c];
      var q := s.requests[c.dispatch.request];
      if row.acceptedMessageId.Some? then
        if row.acceptedMessageId.value == m then Commit(s, ()) else Abort(IllegalTransition)
      else
        var s' := Put(s, c.dispatch.request, q.(status := Accepted, acceptedCandidateId := Some(c)), CandidateAccepted);
        Commit(s'.(candidates := s.candidates[c := row.(acceptedMessageId := Some(m))]), ())
  }

  function Block(s: Db, c: CandidateId): Tx<()> {
    if c !in s.candidates || !HasDispatch(s, c.dispatch) then Abort(NotFound)
    else
      var q := s.requests[c.dispatch.request];
      if q.acceptedCandidateId.Some? then Abort(IllegalTransition)
      else
        var blocked := GetDispatch(s, c.dispatch).(status := DispatchStatus.Blocked);
        Commit(Put(s, c.dispatch.request,
                   q.(status := LogicalStatus.Blocked, dispatches := q.dispatches[c.dispatch.ordinal := blocked]),
                   CandidateBlocked),
               ())
  }

  // ---------- The coupling invariant ----------

  /** Nothing in the store checks this: it emerges from the transitions. */
  ghost predicate Coupled(s: Db) {
    RowsCoupled(s) && RowsLinked(s) && CandidatesCoupled(s) && ClientsDistinct(s)
  }

  ghost predicate RowsCoupled(s: Db) {
    forall r | r in s.requests :: RequestCoupled(s.requests[r])
  }

  ghost predicate RowsLinked(s: Db) {
    forall r | r in s.requests :: Linked(s.candidates, r, s.requests[r])
  }

  ghost predicate CandidatesCoupled(s: Db) {
    forall c | c in s.candidates :: CandidateCoupled(s, c)
  }

  ghost predicate ClientsDistinct(s: Db) {
    forall r, q | r in s.requests && q in s.requests && r != q ::
        !SameClient(s.requests[r].frozen, s.requests[q].frozen)
  }

  predicate SameClient(f: Frozen, g: Frozen) {
    f.projectId == g.projectId && f.clientRequestId == g.clientRequestId
  }

  /** Routes are taken in frozen order; every dispatch but the last has failed, and
      the last one (or the acceptance mark) determines the request status. */
  ghost predicate RequestCoupled(q: LogicalRequest) {
    var n := |q.dispatches|;
    && n <= RouteCount(q.frozen)
    && (forall k | 0 <= k < n :: DispatchCoupled(q, k))
    && (n == 0 ==> q == LogicalRequest(q.frozen, Queued, None, None, []))
    && (n > 0 ==> LastCoupled(q, q.dispatches[n - 1]))
  }

  ghost predicate DispatchCoupled(q: LogicalRequest, k: nat)
    requires k < |q.dispatches| <= RouteCount(q.frozen)
  {
    var row := q.dispatches[k];
    && row.route == RouteAt(q.frozen, k)
    && row.digest == DispatchDigest(q.frozen, k, row.route)
    && (k + 1 < |q.dispatches| ==> row.status == DispatchStatus.Failed)
    && (row.candidateId.Some? <==> row.status in {DispatchStatus.Candidate, DispatchStatus.Blocked})
  }

  ghost predicate LastCoupled(q: LogicalRequest, last: Dispatch) {
    && q.candidateId == last.candidateId
    && if q.acceptedCandidateId.Some?
       then q.status == Accepted && q.acceptedCandidateId == last.candidateId
       else q.status == Mirror(last.status)
  }

  /** The candidate a dispatch names exists and names that dispatch. */
  ghost predicate Linked(candidates: map<CandidateId, CandidateRow>, r: RequestId, q: LogicalRequest) {
    forall k | 0 <= k < |q.dispatches| && q.dispatches[k].candidateId.Some? ::
      && q.dispatches[k].candidateId.value in candidates
      && q.dispatches[k].candidateId.value.dispatch == DispatchId(r, k)
  }

  ghost predicate CandidateCoupled(s: Db, c: CandidateId)
    requires c in s.candidates
  {
    c.dispatch.request in s.requests && Fits(s.requests[c.dispatch.request], c, s.candidates[c])
  }

  /** A candidate row belongs to the dispatch that names it, and is marked accepted
      exactly when its request is. */
  ghost predicate Fits(q: LogicalRequest, c: CandidateId, row: CandidateRow) {
    && c.dispatch.ordinal < |q.dispatches|
    && q.dispatches[c.dispatch.ordinal].candidateId == Some(c)
    && (row.acceptedMessageId.Some? <==> q.acceptedCandidateId == Some(c))
  }
}
