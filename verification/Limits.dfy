/** Where the custody promises stop, exactly: what the protocol does not bound or does
    not treat as final, and when. */
module Limits {
  import opened Basics
  import opened Custody
  import opened CustodyInvariants
  import opened Attempts
  import opened AcceptanceProofs
  import E = Executor
  import A = Acceptance

  // ---------- Provider calls per dispatch ----------

  lemma ExecutorStep(p: E.Process, w: E.World, i: E.Input, q: E.Process, v: E.World)
    requires E.Advance(p, w, i) == (q, v) && E.Left(q.phase) < E.Left(p.phase)
    ensures E.Complete(p, w, i) == E.Complete(q, v, i)
  {
    hide E.Advance;
  }

  /** Past the call, a process never calls again. */
  lemma {:induction false} NoFurtherCall(p: E.Process, w: E.World, i: E.Input)
    requires E.Left(p.phase) <= 4
    ensures E.Complete(p, w, i).1.calls == w.calls
    decreases E.Left(p.phase)
  {
    hide MarkFailed, MarkUnknown, RecordCandidate, FinishAttempt;
    var (q, v) := E.Advance(p, w, i);
    if E.Left(q.phase) < E.Left(p.phase) { NoFurtherCall(q, v, i); }
  }

  ghost predicate Fresh(docket: DocketDispatch, j: Journal) {
    docket.attempt !in j && !MarkerUsed(j, docket.marker)
  }

  /** From the loading of the durable dispatch to the end. */
  lemma LoadedCall(p: E.Process, w: E.World, i: E.Input)
    requires p.phase.Loading? && HasDispatch(w.db, p.plan.dispatch)
    ensures E.Complete(p, w, i).1.calls
         == w.calls + (if GetDispatch(w.db, p.plan.dispatch).status
                          in {Custody.DispatchStatus.Reserved, Custody.DispatchStatus.Executing}
                       then [p.docket.attempt] else [])
  {
    hide E.Complete;
    var (q, v) := E.Advance(p, w, i);
    ExecutorStep(p, w, i, q, v);
    if q.phase.Refused? {
      NoFurtherCall(q, v, i);
    } else {
      var calling := E.To(p, E.Calling);
      var marked := w;
      if q.phase.Marking? {
        marked := E.Advance(q, v, i).1;
        ExecutorStep(q, v, i, calling, marked);
      }
      var (r, x) := E.Advance(calling, marked, i);
      ExecutorStep(calling, marked, i, r, x);
      NoFurtherCall(r, x, i);
    }
  }

  /** An execution of a fresh valid attempt calls the provider once if its dispatch is
      reserved or already executing, and otherwise not at all. Only the attempt is
      called at most once: the dispatch is not. */
  lemma FreshAttemptCalls(p: E.Process, w: E.World, i: E.Input)
    requires p.phase.Validating? && E.Validates(p, w.db) && Fresh(p.docket, w.journal)
    ensures E.Complete(p, w, i).1.calls
         == w.calls + (if GetDispatch(w.db, p.plan.dispatch).status
                          in {Custody.DispatchStatus.Reserved, Custody.DispatchStatus.Executing}
                       then [p.docket.attempt] else [])
  {
    hide E.Complete, E.Validates;
    var j1 := ReserveAttempt(w.journal, p.docket).journal;
    var j2 := BeginAttempt(j1, p.docket).journal;
    var w1, w2 := w.(journal := j1), w.(journal := j2);
    ExecutorStep(p, w, i, E.To(p, E.Reserving), w);
    ExecutorStep(E.To(p, E.Reserving), w, i, E.To(p, E.Checking), w1);
    ExecutorStep(E.To(p, E.Checking), w1, i, E.To(p, E.Beginning), w1);
    ExecutorStep(E.To(p, E.Beginning), w1, i, E.To(p, E.Loading), w2);
    assert HasDispatch(w.db, p.plan.dispatch) by { ValidatesHas(p, w.db); }
    LoadedCall(E.To(p, E.Loading), w2, i);
  }

  lemma ValidatesHas(p: E.Process, db: Db)
    requires E.Validates(p, db)
    ensures HasDispatch(db, p.plan.dispatch)
  {
  }

  /** So a dispatch whose first executor crashed right after its provider call is called
      a second time by the next attempt. */
  lemma DispatchCalledTwice(first: E.Process, second: E.Process, w: E.World, i: E.Input)
    requires first.phase.Calling? && second.phase.Validating? && second.plan == first.plan
    requires first.docket.attempt != second.docket.attempt
    requires E.Validates(second, w.db) && Fresh(second.docket, w.journal)
    requires GetDispatch(w.db, first.plan.dispatch).status == Custody.DispatchStatus.Executing
    ensures var crashed := E.Advance(first, w, i).1;
            E.Complete(second, crashed, i).1.calls == w.calls + [first.docket.attempt, second.docket.attempt]
  {
    hide E.Complete;
    var crashed := E.Advance(first, w, i).1;
    FreshAttemptCalls(second, crashed, i);
    assert w.calls + [first.docket.attempt] + [second.docket.attempt]
        == w.calls + [first.docket.attempt, second.docket.attempt];
  }

  // ---------- What is final in the store ----------

  /** Acceptance is refused only against another recorded message, and blocking only
      after acceptance. In particular a blocked candidate can still be accepted. */
  lemma AcceptAndBlockCommit(s: Db, c: CandidateId, m: MessageId)
    requires Coupled(s) && c in s.candidates
    ensures Accept(s, c, m).Commit? <==> s.candidates[c].acceptedMessageId in {None, Some(m)}
    ensures Block(s, c).Commit? <==> s.candidates[c].acceptedMessageId.None?
  {
    CandidateHome(s, c);
  }

  lemma BlockedThenAccepted(s: Db, c: CandidateId, m: MessageId)
    requires Coupled(s) && c in s.candidates && s.candidates[c].acceptedMessageId.None?
    ensures Block(s, c).Commit? && Accept(Block(s, c).db, c, m).Commit?
    ensures var t := Accept(Block(s, c).db, c, m).db;
            && t.requests[c.dispatch.request].status == LogicalStatus.Accepted
            && HasDispatch(t, c.dispatch) && GetDispatch(t, c.dispatch).status == DispatchStatus.Blocked
  {
    hide Coupled;
    CandidateHome(s, c);
  }

  /** A dispatch can be marked failed exactly while it is reserved or executing, so an
      unknown one never is; a candidate can be recorded for it while executing or
      unknown, or again if it is already there. */
  lemma UnknownNeverFails(s: Db, d: DispatchId, response: Response, e: EvidenceRef)
    requires Coupled(s) && HasDispatch(s, d)
    ensures MarkFailed(s, d).Commit? <==>
              GetDispatch(s, d).status in {Custody.DispatchStatus.Reserved, Custody.DispatchStatus.Executing}
    ensures RecordCandidate(s, d, response, e).Commit?
       <==> GetDispatch(s, d).status in {Custody.DispatchStatus.Executing, DispatchStatus.Unknown}
            || GetDispatch(s, d).candidateId == Some(CandidateId(d, response))
  {
    var c := CandidateId(d, response);
    assert RequestCoupled(s.requests[d.request]) && DispatchCoupled(s.requests[d.request], d.ordinal);
    assert Linked(s.candidates, d.request, s.requests[d.request]);
    if c in s.candidates { CandidateHome(s, c); assert CandidateCoupled(s, c); }
  }

  // ---------- Acceptance without the conversation ----------

  /** If the conversation has been deleted, a call blocks an open candidate and fails for
      an accepted one: the only case where the store refuses to block. */
  lemma GoneCall(k: A.Caller, db: Db, lib: A.Library, i: A.Input)
    requires Callable(k, db) && Coupled(db)
    requires A.Target(k.candidate, db) !in lib.sessions
    ensures var (l, db', lib') := A.Complete(k, db, lib, i);
            && lib' == lib
            && if db.candidates[k.candidate].acceptedMessageId.Some?
               then l.phase.Errored? && db' == db
               else l.phase == A.Finished(A.Verdict.Blocked(A.SessionGone)) && Commit(db', ()) == Block(db, k.candidate)
  {
    hide Coupled, A.Complete;
    var c := k.candidate;
    var judging, blocking := k.(phase := A.Judging), k.(phase := A.Blocking(A.SessionGone));
    CandidateHome(db, c);
    AcceptAndBlockCommit(db, c, 0);
    Entering(k, db, lib, i);
    OneStep(k.(phase := A.Looking), db, lib, i, judging, db, lib);
    OneStep(judging, db, lib, i, blocking, db, lib);
    var (l, db', lib') := A.Advance(blocking, db, lib, i);
    OneStep(blocking, db, lib, i, l, db', lib');
    Ended(l, db', lib', i);
  }

  lemma Ended(k: A.Caller, db: Db, lib: A.Library, i: A.Input)
    requires || k.phase.Errored?
             || (k.phase.Finished? && k.candidate in db.candidates && HasDispatch(db, k.candidate.dispatch))
    ensures var (l, db', lib') := A.Complete(k, db, lib, i); l.phase == k.phase && db' == db && lib' == lib
  {
  }
}
