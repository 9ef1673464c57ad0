/** Every transaction of the custody index keeps the coupling invariant, only moves
    rows forward, and uses up a bounded potential. */
module CustodyInvariants {
  import opened Basics
  import opened Custody

  // ---------- What the coupling says ----------

  /** Every dispatch but the last failed, and the request status, candidate and
      acceptance mark are read off the last one. */
  lemma StatusDetermined(s: Db, r: RequestId)
    requires Coupled(s) && r in s.requests
    ensures var q := s.requests[r]; |q.dispatches| <= RouteCount(q.frozen)
    ensures var q := s.requests[r];
            forall k | 0 <= k < |q.dispatches| :: q.dispatches[k].route == RouteAt(q.frozen, k)
    ensures var q := s.requests[r];
            forall k | 0 <= k < |q.dispatches| - 1 :: q.dispatches[k].status == DispatchStatus.Failed
    ensures var q := s.requests[r];
            var n := |q.dispatches|;
            q.status == (if n == 0 then Queued
                         else if q.acceptedCandidateId.Some? then Accepted
                         else Mirror(q.dispatches[n - 1].status))
    ensures var q := s.requests[r]; q.status == Accepted <==> q.acceptedCandidateId.Some?
  {
    var q := s.requests[r];
    assert RequestCoupled(q);
    forall k | 0 <= k < |q.dispatches|
      ensures q.dispatches[k].route == RouteAt(q.frozen, k)
      ensures k < |q.dispatches| - 1 ==> q.dispatches[k].status == DispatchStatus.Failed
    {
      assert DispatchCoupled(q, k);
    }
  }

  /** A request has at most one candidate, whichever dispatch returned it. */
  lemma AtMostOneCandidate(s: Db, c: CandidateId, e: CandidateId)
    requires Coupled(s) && c in s.candidates && e in s.candidates
    requires c.dispatch.request == e.dispatch.request
    ensures c == e
  {
    var q := s.requests[c.dispatch.request];
    assert CandidateCoupled(s, c) && CandidateCoupled(s, e);
    assert DispatchCoupled(q, c.dispatch.ordinal) && DispatchCoupled(q, e.dispatch.ordinal);
  }

  /** A client request id names one request of its project. */
  lemma OneRequestPerClient(s: Db, r: RequestId, q: RequestId)
    requires Coupled(s) && r in s.requests && q in s.requests
    requires SameClient(s.requests[r].frozen, s.requests[q].frozen)
    ensures r == q
  {
  }

  /** A dispatch that is still open has no candidate row, so none can conflict. */
  lemma OpenHasNoCandidate(s: Db, d: DispatchId)
    requires Coupled(s) && HasDispatch(s, d)
    requires GetDispatch(s, d).status !in {DispatchStatus.Candidate, DispatchStatus.Blocked}
    ensures forall e | e in s.candidates :: e.dispatch != d
  {
    assert DispatchCoupled(s.requests[d.request], d.ordinal);
    forall e | e in s.candidates ensures e.dispatch != d { assert CandidateCoupled(s, e); }
  }

  /** A candidate's dispatch exists, is the last of its request, and is a candidate or
      blocked; its request can have accepted nothing but this candidate. */
  lemma CandidateHome(s: Db, c: CandidateId)
    requires Coupled(s) && c in s.candidates
    ensures HasDispatch(s, c.dispatch)
    ensures c.dispatch.ordinal == |s.requests[c.dispatch.request].dispatches| - 1
    ensures GetDispatch(s, c.dispatch).status in {DispatchStatus.Candidate, DispatchStatus.Blocked}
    ensures s.requests[c.dispatch.request].candidateId == Some(c)
    ensures s.requests[c.dispatch.request].acceptedCandidateId
            == (if s.candidates[c].acceptedMessageId.Some? then Some(c) else None)
  {
    var q := s.requests[c.dispatch.request];
    assert CandidateCoupled(s, c);
    assert RequestCoupled(q) && DispatchCoupled(q, c.dispatch.ordinal);
  }

  // ---------- Forward motion ----------

  ghost predicate Moves(a: DispatchStatus, b: DispatchStatus) {
    || a == b
    || a.Reserved?
    || (a.Executing? && !b.Reserved?)
    || (a.Unknown? && (b.Candidate? || b.Blocked?))
    || (a.Candidate? && b.Blocked?)
  }

  ghost predicate SameDispatch(a: Dispatch, b: Dispatch) {
    && a.route == b.route && a.digest == b.digest
    && Moves(a.status, b.status)
    && (a.candidateId.Some? ==> a.candidateId == b.candidateId)
  }

  /** A request is never rewritten, and gets a further dispatch only once all its
      earlier ones have failed. */
  ghost predicate RequestEvolves(a: LogicalRequest, b: LogicalRequest) {
    && a.frozen == b.frozen
    && (a.candidateId.Some? ==> a.candidateId == b.candidateId)
    && (a.acceptedCandidateId.Some? ==> a.acceptedCandidateId == b.acceptedCandidateId)
    && |a.dispatches| <= |b.dispatches|
    && (forall k | 0 <= k < |a.dispatches| :: SameDispatch(a.dispatches[k], b.dispatches[k]))
    && (|a.dispatches| < |b.dispatches| ==>
          forall k | 0 <= k < |a.dispatches| :: b.dispatches[k].status == DispatchStatus.Failed)
  }

  ghost predicate CandidateEvolves(a: CandidateRow, b: CandidateRow) {
    && a.evidence == b.evidence
    && (a.acceptedMessageId.Some? ==> a.acceptedMessageId == b.acceptedMessageId)
  }

  /** What any number of transactions may do. */
  ghost predicate Evolves(a: Db, b: Db) {
    && (forall r | r in a.requests :: r in b.requests && RequestEvolves(a.requests[r], b.requests[r]))
    && (forall c | c in a.candidates :: c in b.candidates && CandidateEvolves(a.candidates[c], b.candidates[c]))
  }

  lemma RequestEvolvesTransitive(a: LogicalRequest, b: LogicalRequest, c: LogicalRequest)
    requires RequestEvolves(a, b) && RequestEvolves(b, c)
    ensures RequestEvolves(a, c)
  {
    forall k | 0 <= k < |a.dispatches|
      ensures SameDispatch(a.dispatches[k], c.dispatches[k])
      ensures |a.dispatches| < |c.dispatches| ==> c.dispatches[k].status == DispatchStatus.Failed
    {
      assert SameDispatch(a.dispatches[k], b.dispatches[k]) && SameDispatch(b.dispatches[k], c.dispatches[k]);
    }
  }

  lemma EvolvesTransitive(a: Db, b: Db, c: Db)
    requires Evolves(a, b) && Evolves(b, c)
    ensures Evolves(a, c)
  {
    forall r | r in a.requests ensures r in c.requests && RequestEvolves(a.requests[r], c.requests[r]) {
      RequestEvolvesTransitive(a.requests[r], b.requests[r], c.requests[r]);
    }
  }

  // ---------- Potential ----------

  function Rank(st: DispatchStatus): nat {
    match st
    case Reserved => 5
    case Executing => 4
    case Unknown => 3
    case Failed => 3
    case Candidate => 2
    case Blocked => 1
  }

  /** Three per route not yet reserved, plus the rank of the last dispatch. */
  function Potential(q: LogicalRequest): int {
    var n := |q.dispatches|;
    3 * (RouteCount(q.frozen) - n) +
    (if n == 0 then 3 else if q.acceptedCandidateId.Some? then 0 else Rank(q.dispatches[n - 1].status))
  }

  /** The status of the request or of one of its dispatches changes. */
  ghost predicate Changes(a: LogicalRequest, b: LogicalRequest) {
    || a.status != b.status
    || |a.dispatches| != |b.dispatches|
    || exists k :: 0 <= k < |a.dispatches| && a.dispatches[k].status != b.dispatches[k].status
  }

  ghost predicate Descends(a: LogicalRequest, b: LogicalRequest) {
    && 0 <= Potential(b) <= Potential(a)
    && (Changes(a, b) ==> Potential(b) < Potential(a))
  }

  /** What one transaction does to one request row. */
  ghost predicate RequestStep(a: LogicalRequest, b: LogicalRequest) {
    RequestCoupled(b) && RequestEvolves(a, b) && Descends(a, b)
  }

  ghost predicate Step(a: Db, b: Db) {
    && Coupled(b)
    && Evolves(a, b)
    && forall r | r in a.requests :: RequestStep(a.requests[r], b.requests[r])
  }

  lemma StepGives(a: Db, b: Db)
    requires Step(a, b)
    ensures Coupled(b) && Evolves(a, b)
  {
  }

  lemma SameRow(q: LogicalRequest)
    requires RequestCoupled(q)
    ensures RequestStep(q, q)
  {
    if |q.dispatches| > 0 { assert DispatchCoupled(q, |q.dispatches| - 1); }
  }

  lemma StayIsStep(s: Db)
    requires Coupled(s)
    ensures Step(s, s)
  {
    hide RequestCoupled, RequestEvolves, Descends;
    forall r | r in s.requests ensures RequestStep(s.requests[r], s.requests[r]) { SameRow(s.requests[r]); }
  }

  // ---------- Database steps from row steps ----------

  /** Rewriting one request row by a row step, with its candidates, is a step. */
  lemma PutIsStep(s: Db, r: RequestId, q: LogicalRequest, kind: EventType, cs: map<CandidateId, CandidateRow>)
    requires Coupled(s) && r in s.requests
    requires RequestStep(s.requests[r], q) && q.frozen == s.requests[r].frozen
    requires Linked(cs, r, q)
    requires forall c | c in s.candidates :: c in cs && CandidateEvolves(s.candidates[c], cs[c])
    requires forall c | c in cs ::
               if c.dispatch.request == r then Fits(q, c, cs[c]) else c in s.candidates && cs[c] == s.candidates[c]
    ensures Step(s, Put(s, r, q, kind).(candidates := cs))
  {
    hide RequestCoupled, RequestEvolves, Descends, Linked, Fits;
    var t := Put(s, r, q, kind).(candidates := cs);
    forall p | p in s.requests ensures RequestStep(s.requests[p], t.requests[p]) && Linked(cs, p, t.requests[p]) {
      if p != r {
        SameRow(s.requests[p]);
        LinkedGrows(s.candidates, cs, p, s.requests[p]);
      }
    }
    forall c | c in cs ensures CandidateCoupled(t, c) {
      if c.dispatch.request != r { assert CandidateCoupled(s, c); }
    }
  }

  lemma LinkedGrows(cs: map<CandidateId, CandidateRow>, ds: map<CandidateId, CandidateRow>, r: RequestId,
      q: LogicalRequest)
    requires Linked(cs, r, q) && cs.Keys <= ds.Keys
    ensures Linked(ds, r, q)
  {
  }

  /** When no candidate row changes, the old ones still fit. */
  lemma StillFits(s: Db, r: RequestId, q: LogicalRequest)
    requires CandidatesCoupled(s) && r in s.requests
    requires RequestEvolves(s.requests[r], q)
    requires q.acceptedCandidateId == s.requests[r].acceptedCandidateId
    ensures forall c | c in s.candidates && c.dispatch.request == r :: Fits(q, c, s.candidates[c])
  {
    forall c | c in s.candidates && c.dispatch.request == r ensures Fits(q, c, s.candidates[c]) {
      assert CandidateCoupled(s, c);
      assert SameDispatch(s.requests[r].dispatches[c.dispatch.ordinal], q.dispatches[c.dispatch.ordinal]);
    }
  }

  // ---------- Row steps ----------

  /** Only the last dispatch can be in a status that a transition starts from. */
  lemma OpenIsLast(q: LogicalRequest, k: nat)
    requires RequestCoupled(q) && k < |q.dispatches|
    requires q.dispatches[k].status != DispatchStatus.Failed
    ensures k == |q.dispatches| - 1
    ensures LastCoupled(q, q.dispatches[k])
  {
    assert DispatchCoupled(q, k);
  }

  lemma AppendRow(q: LogicalRequest, row: Dispatch)
    requires RequestCoupled(q) && |q.dispatches| < RouteCount(q.frozen)
    requires q.status in {Queued, LogicalStatus.Failed}
    requires row.route == RouteAt(q.frozen, |q.dispatches|)
    requires row == Dispatch(row.route, DispatchDigest(q.frozen, |q.dispatches|, row.route), Reserved, None, None)
    ensures RequestStep(q, q.(status := Dispatching, dispatches := q.dispatches + [row]))
  {
    var n := |q.dispatches|;
    var q' := q.(status := Dispatching, dispatches := q.dispatches + [row]);
    forall k | 0 <= k < n ensures q.dispatches[k].status == DispatchStatus.Failed && DispatchCoupled(q', k) {
      assert DispatchCoupled(q, k);
    }
    assert DispatchCoupled(q', n);
  }

  /** Rewriting the last dispatch forward, together with what the request row says. */
  lemma AdvanceRow(q: LogicalRequest, k: nat, row: Dispatch, q': LogicalRequest)
    requires RequestCoupled(q) && k < |q.dispatches|
    requires q.dispatches[k].status != DispatchStatus.Failed && q.acceptedCandidateId.None?
    requires row.status != q.dispatches[k].status ==> Rank(row.status) < Rank(q.dispatches[k].status)
    requires SameDispatch(q.dispatches[k], row)
    requires row.candidateId.Some? <==> row.status in {DispatchStatus.Candidate, DispatchStatus.Blocked}
    requires q' == q.(status := Mirror(row.status), candidateId := row.candidateId,
                      dispatches := q.dispatches[k := row])
    ensures RequestStep(q, q')
  {
    OpenIsLast(q, k);
    assert DispatchCoupled(q, k);
    forall i | 0 <= i < |q'.dispatches| ensures DispatchCoupled(q', i) { assert DispatchCoupled(q, i); }
  }

  // ---------- Transactions ----------

  lemma EnableIsStep(s: Db, project: Name, on: bool)
    requires Coupled(s)
    ensures Step(s, Enable(s, project, on))
  {
    var t := Enable(s, project, on);
    StayIsStep(s);
    forall c | c in s.candidates ensures CandidateCoupled(t, c) { assert CandidateCoupled(s, c); }
  }

  lemma NewRow(f: Frozen, id: RequestId, cs: map<CandidateId, CandidateRow>)
    ensures RequestCoupled(LogicalRequest(f, Queued, None, None, []))
    ensures Linked(cs, id, LogicalRequest(f, Queued, None, None, []))
  {
  }

  lemma CreateIsStep(s: Db, f: Frozen, id: RequestId)
    requires Coupled(s) && id !in s.requests
    requires Create(s, f, id).Commit?
    ensures Step(s, Create(s, f, id).db)
  {
    hide RequestCoupled, RequestEvolves, Descends, Linked, Fits;
    StayIsStep(s);
    NewRow(f, id, s.candidates);
    var t := Create(s, f, id).db;
    if BoundTo(s, f.projectId, f.clientRequestId) == {} {
      forall c | c in s.candidates ensures CandidateCoupled(t, c) { assert CandidateCoupled(s, c); }
      forall r | r in s.requests ensures !SameClient(s.requests[r].frozen, f) {
        assert r !in BoundTo(s, f.projectId, f.clientRequestId);
      }
    }
  }

  lemma ReserveIsStep(s: Db, r: RequestId, choice: Option<Route>, fallback: bool)
    requires Coupled(s)
    requires Reserve(s, r, choice, fallback).Commit?
    ensures Step(s, Reserve(s, r, choice, fallback).db)
  {
    var q := s.requests[r];
    var q' := Reserve(s, r, choice, fallback).db.requests[r];
    AppendRow(q, q'.dispatches[|q.dispatches|]);
    StillFits(s, r, q');
    PutIsStep(s, r, q', if fallback then FallbackReserved else DispatchReserved, s.candidates);
  }

  lemma MoveIsStep(s: Db, d: DispatchId, allowed: set<DispatchStatus>, to: DispatchStatus, kind: EventType,
      execution: Option<AttemptId>)
    requires Coupled(s)
    requires allowed <= {Reserved, Executing} && to in {Executing, DispatchStatus.Unknown, DispatchStatus.Failed}
    requires to.Executing? ==> Executing !in allowed
    requires Move(s, d, allowed, to, kind, execution).Commit?
    ensures Step(s, Move(s, d, allowed, to, kind, execution).db)
  {
    var q := s.requests[d.request];
    var q' := Move(s, d, allowed, to, kind, execution).db.requests[d.request];
    OpenIsLast(q, d.ordinal);
    assert DispatchCoupled(q, d.ordinal);
    AdvanceRow(q, d.ordinal, q'.dispatches[d.ordinal], q');
    StillFits(s, d.request, q');
    PutIsStep(s, d.request, q', kind, s.candidates);
  }

  /** The rows a recorded candidate leaves behind. */
  lemma RecordRow(s: Db, d: DispatchId, response: Response, evidence: EvidenceRef)
    requires Coupled(s) && CandidateId(d, response) !in s.candidates
    requires RecordCandidate(s, d, response, evidence).Commit?
    ensures var t := RecordCandidate(s, d, response, evidence).db;
            var q, q' := s.requests[d.request], t.requests[d.request];
            && q'.frozen == q.frozen
            && RequestStep(q, q')
            && Linked(t.candidates, d.request, q')
            && Fits(q', CandidateId(d, response), t.candidates[CandidateId(d, response)])
            && forall c | c in s.candidates && c.dispatch.request == d.request :: Fits(q', c, s.candidates[c])
  {
    var t := RecordCandidate(s, d, response, evidence).db;
    var q, q' := s.requests[d.request], t.requests[d.request];
    OpenIsLast(q, d.ordinal);
    assert DispatchCoupled(q, d.ordinal);
    AdvanceRow(q, d.ordinal, q'.dispatches[d.ordinal], q');
    StillFits(s, d.request, q');
    LinkedGrows(s.candidates, t.candidates, d.request, q);
  }

  lemma RecordCandidateIsStep(s: Db, d: DispatchId, response: Response, evidence: EvidenceRef)
    requires Coupled(s)
    requires RecordCandidate(s, d, response, evidence).Commit?
    ensures Step(s, RecordCandidate(s, d, response, evidence).db)
  {
    hide RequestStep, Linked, Fits, Coupled;
    if CandidateId(d, response) in s.candidates {
      StayIsStep(s);
    } else {
      var t := RecordCandidate(s, d, response, evidence).db;
      RecordRow(s, d, response, evidence);
      PutIsStep(s, d.request, t.requests[d.request], CandidateRecorded, t.candidates);
    }
  }

  lemma AcceptRow(q: LogicalRequest, c: CandidateId)
    requires RequestCoupled(q) && c.dispatch.ordinal < |q.dispatches|
    requires q.dispatches[c.dispatch.ordinal].candidateId == Some(c)
    requires q.acceptedCandidateId != Some(c)
    ensures q.acceptedCandidateId.None?
    ensures RequestStep(q, q.(status := Accepted, acceptedCandidateId := Some(c)))
  {
    var q' := q.(status := Accepted, acceptedCandidateId := Some(c));
    assert DispatchCoupled(q, c.dispatch.ordinal);
    OpenIsLast(q, c.dispatch.ordinal);
    forall i | 0 <= i < |q.dispatches| ensures DispatchCoupled(q', i) { assert DispatchCoupled(q, i); }
  }

  lemma AcceptIsStep(s: Db, c: CandidateId, m: MessageId)
    requires Coupled(s)
    requires Accept(s, c, m).Commit?
    ensures Step(s, Accept(s, c, m).db)
  {
    assert CandidateCoupled(s, c);
    if s.candidates[c].acceptedMessageId.Some? {
      StayIsStep(s);
    } else {
      var t := Accept(s, c, m).db;
      var r := c.dispatch.request;
      var q, q' := s.requests[r], t.requests[r];
      AcceptRow(q, c);
      forall e | e in s.candidates && e.dispatch.request == r ensures e == c { AtMostOneCandidate(s, c, e); }
      LinkedGrows(s.candidates, t.candidates, r, q);
      PutIsStep(s, r, q', CandidateAccepted, t.candidates);
    }
  }

  lemma BlockIsStep(s: Db, c: CandidateId)
    requires Coupled(s)
    requires Block(s, c).Commit?
    ensures Step(s, Block(s, c).db)
  {
    var k := c.dispatch.ordinal;
    var q := s.requests[c.dispatch.request];
    var q' := Block(s, c).db.requests[c.dispatch.request];
    assert CandidateCoupled(s, c);
    assert DispatchCoupled(q, k);
    OpenIsLast(q, k);
    AdvanceRow(q, k, q'.dispatches[k], q');
    StillFits(s, c.dispatch.request, q');
    PutIsStep(s, c.dispatch.request, q', CandidateBlocked, s.candidates);
  }
}
