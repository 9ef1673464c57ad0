/** What an execution amounts to: which reply of the provider ends in which outcome, and
    when an execution does nothing at all. */
module ExecutorMeaning {
  import opened Basics
  import opened Custody
  import opened CustodyInvariants
  import opened Attempts
  import opened Limits
  import E = Executor

  /** The docket dispatch is for exactly the sealed plan of a stored dispatch. */
  ghost predicate Matches(p: E.Process, db: Db) {
    && p.docket.work == p.plan && p.docket.subject == p.plan.subject && p.docket.scope == p.plan.scope
    && HasDispatch(db, p.plan.dispatch) && GetDispatch(db, p.plan.dispatch).digest == p.plan.digest
  }

  lemma ValidatesExactly(p: E.Process, db: Db)
    ensures E.Validates(p, db) <==> Matches(p, db)
  {
  }

  /** Neither the attempt nor its marker was ever used. */
  ghost predicate Unused(docket: DocketDispatch, j: Journal) {
    docket.attempt !in j && forall a | a in j :: j[a].docket.marker != docket.marker
  }

  ghost predicate BothAre(db: Db, d: DispatchId, dispatch: DispatchStatus, request: LogicalStatus) {
    && HasDispatch(db, d)
    && GetDispatch(db, d).status == dispatch
    && db.requests[d.request].status == request
  }

  function Called(p: E.Process, w: E.World, db: Db): E.World {
    var row := AttemptRow(p.docket, AttemptState.Executing, None);
    E.World(db, w.journal[p.docket.attempt := row], w.evidence, w.calls)
  }

  /** Across the boundary of the journal. */
  lemma ReachesLoading(p: E.Process, w: E.World, i: E.Input)
    requires p.phase.Validating? && Matches(p, w.db) && Unused(p.docket, w.journal)
    ensures E.Complete(p, w, i) == E.Complete(E.To(p, E.Loading), Called(p, w, w.db), i)
  {
    hide E.Complete, HasDispatch;
    var j1 := w.journal[p.docket.attempt := AttemptRow(p.docket, AttemptState.Reserved, None)];
    var w1 := w.(journal := j1);
    ExecutorStep(p, w, i, E.To(p, E.Reserving), w);
    ExecutorStep(E.To(p, E.Reserving), w, i, E.To(p, E.Checking), w1);
    ExecutorStep(E.To(p, E.Checking), w1, i, E.To(p, E.Beginning), w1);
    var row := AttemptRow(p.docket, AttemptState.Executing, None);
    assert j1[p.docket.attempt := row] == w.journal[p.docket.attempt := row];
    ExecutorStep(E.To(p, E.Beginning), w1, i, E.To(p, E.Loading), Called(p, w, w.db));
  }

  /** Up to the provider call. */
  lemma ReachesCall(p: E.Process, w: E.World, i: E.Input) returns (db: Db)
    requires Coupled(w.db) && p.phase.Validating? && Matches(p, w.db) && Unused(p.docket, w.journal)
    requires GetDispatch(w.db, p.plan.dispatch).status
               in {Custody.DispatchStatus.Reserved, Custody.DispatchStatus.Executing}
    ensures E.Complete(p, w, i) == E.Complete(E.To(p, E.Calling), Called(p, w, db), i)
    ensures Coupled(db) && db.candidates == w.db.candidates
    ensures BothAre(db, p.plan.dispatch, Custody.DispatchStatus.Executing, Dispatching)
  {
    ReachesLoading(p, w, i);
    assert HasDispatch(w.db, p.plan.dispatch);
    hide E.Complete, E.Advance, Coupled, Evolves, Matches, Unused;
    if GetDispatch(w.db, p.plan.dispatch).status == Custody.DispatchStatus.Reserved {
      db := MarkedForCall(p, w, i);
    } else {
      db := w.db;
      ExecutingDispatch(db, p.plan.dispatch);
      LoadsExecuting(p, Called(p, w, db), i);
      ExecutorStep(E.To(p, E.Loading), Called(p, w, db), i, E.To(p, E.Calling), Called(p, w, db));
    }
  }

  lemma LoadsExecuting(p: E.Process, w: E.World, i: E.Input)
    requires HasDispatch(w.db, p.plan.dispatch)
    requires GetDispatch(w.db, p.plan.dispatch).status == Custody.DispatchStatus.Executing
    ensures E.Advance(E.To(p, E.Loading), w, i) == (E.To(p, E.Calling), w)
  {
  }

  /** A reserved dispatch is marked executing on the way. */
  lemma MarkedForCall(p: E.Process, w: E.World, i: E.Input) returns (db: Db)
    requires Coupled(w.db) && HasDispatch(w.db, p.plan.dispatch)
    requires GetDispatch(w.db, p.plan.dispatch).status == Custody.DispatchStatus.Reserved
    ensures E.Complete(E.To(p, E.Loading), Called(p, w, w.db), i)
         == E.Complete(E.To(p, E.Calling), Called(p, w, db), i)
    ensures Coupled(db) && db.candidates == w.db.candidates
    ensures BothAre(db, p.plan.dispatch, Custody.DispatchStatus.Executing, Dispatching)
  {
    hide E.Complete, Coupled, Step, Evolves;
    var d, at := p.plan.dispatch, Called(p, w, w.db);
    db := MarkExecuting(w.db, d, Some(p.docket.attempt)).db;
    ExecutorStep(E.To(p, E.Loading), at, i, E.To(p, E.Marking), at);
    ExecutorStep(E.To(p, E.Marking), at, i, E.To(p, E.Calling), Called(p, w, db));
    MoveIsStep(w.db, d, {Custody.DispatchStatus.Reserved}, Custody.DispatchStatus.Executing, DispatchStarted,
        Some(p.docket.attempt));
    StepGives(w.db, db);
  }

  lemma ExecutingDispatch(db: Db, d: DispatchId)
    requires Coupled(db) && HasDispatch(db, d)
    requires GetDispatch(db, d).status == Custody.DispatchStatus.Executing
    ensures db.requests[d.request].status == Dispatching
  {
    OpenIsLast(db.requests[d.request], d.ordinal);
    assert DispatchCoupled(db.requests[d.request], d.ordinal);
  }

  /** What the world looks like at the end, given the reply. */
  ghost predicate EndsAs(p: E.Process, w: E.World, reply: E.Reply, q: E.Process, v: E.World) {
    var d, a := p.plan.dispatch, p.docket.attempt;
    && v.calls == w.calls + [a]
    && q.phase.Done? && q.phase.outcome.attempt == a && q.phase.outcome.marker == p.docket.marker
    && v.journal == w.journal[a := AttemptRow(p.docket, q.phase.outcome.outcome, Some(q.phase.outcome))]
    && match reply
       case DefinitiveFailure =>
         && q.phase.outcome.outcome == AttemptState.Failure
         && BothAre(v.db, d, DispatchStatus.Failed, LogicalStatus.Failed)
         && v.evidence == w.evidence && v.db.candidates == w.db.candidates
       case CallRaised =>
         && q.phase.outcome.outcome == AttemptState.Indeterminate
         && BothAre(v.db, d, DispatchStatus.Unknown, LogicalStatus.Unknown)
         && v.evidence == w.evidence && v.db.candidates == w.db.candidates
       case Answered(x) =>
         var kept := EvidenceRef(d, a, x);
         && q.phase.outcome.outcome == AttemptState.Success
         && q.phase.outcome.receipt == SuccessReceipt(a, CandidateId(d, x), kept)
         && BothAre(v.db, d, DispatchStatus.Candidate, LogicalStatus.Candidate)
         && v.evidence == w.evidence + {kept}
         && v.db.candidates == w.db.candidates[CandidateId(d, x) := CandidateRow(kept, None)]
  }

  /** One uninterrupted execution of an unused attempt. A definitive refusal by the provider
      is a failure, an exception is indeterminate, and an answer is a success with its
      evidence and its candidate in custody; dispatch and request say the same. */
  lemma ReplyDecidesOutcome(p: E.Process, w: E.World, reply: E.Reply)
    requires Coupled(w.db) && p.phase.Validating? && Matches(p, w.db) && Unused(p.docket, w.journal)
    requires GetDispatch(w.db, p.plan.dispatch).status
               in {Custody.DispatchStatus.Reserved, Custody.DispatchStatus.Executing}
    ensures var (q, v) := E.Complete(p, w, E.Input(reply, E.NoFault)); EndsAs(p, w, reply, q, v)
  {
    hide E.Complete, Coupled, Matches, Unused;
    var i := E.Input(reply, E.NoFault);
    var db := ReachesCall(p, w, i);
    var at := Called(p, w, db);
    assert p.docket.attempt in at.journal;
    match reply
    case DefinitiveFailure => CallRefused(p, at, i);
    case CallRaised => CallFailed(p, at, i);
    case Answered(x) => CallAnswered(p, at, i, x);
  }

  /** At the provider call, with the attempt begun. */
  ghost predicate AtCall(p: E.Process, w: E.World) {
    && p.docket.attempt in w.journal
    && w.journal[p.docket.attempt] == AttemptRow(p.docket, AttemptState.Executing, None)
    && BothAre(w.db, p.plan.dispatch, Custody.DispatchStatus.Executing, Dispatching)
  }

  lemma CallRefused(p: E.Process, w: E.World, i: E.Input)
    requires AtCall(p, w) && i == E.Input(E.DefinitiveFailure, E.NoFault)
    ensures var (q, v) := E.Complete(E.To(p, E.Calling), w, i); EndsAs(p, w, i.reply, q, v)
  {
    hide E.Complete;
    var called := w.(calls := w.calls + [p.docket.attempt]);
    var failed := called.(db := MarkFailed(w.db, p.plan.dispatch).db);
    var o := E.Failure(p);
    ExecutorStep(E.To(p, E.Calling), w, i, E.To(p, E.Failing), called);
    ExecutorStep(E.To(p, E.Failing), called, i, E.To(p, E.Finishing(o)), failed);
    LastStep(p, failed, i, o);
  }

  lemma CallFailed(p: E.Process, w: E.World, i: E.Input)
    requires AtCall(p, w) && i == E.Input(E.CallRaised, E.NoFault)
    ensures var (q, v) := E.Complete(E.To(p, E.Calling), w, i); EndsAs(p, w, i.reply, q, v)
  {
    hide E.Complete;
    var called := w.(calls := w.calls + [p.docket.attempt]);
    var unknown := called.(db := MarkUnknown(w.db, p.plan.dispatch).db);
    var o := E.Indeterminate(p);
    ExecutorStep(E.To(p, E.Calling), w, i, E.To(p, E.MarkingUnknown), called);
    ExecutorStep(E.To(p, E.MarkingUnknown), called, i, E.To(p, E.Finishing(o)), unknown);
    LastStep(p, unknown, i, o);
  }

  lemma CallAnswered(p: E.Process, w: E.World, i: E.Input, x: Response)
    requires Coupled(w.db) && AtCall(p, w) && i == E.Input(E.Answered(x), E.NoFault)
    ensures var (q, v) := E.Complete(E.To(p, E.Calling), w, i); EndsAs(p, w, i.reply, q, v)
  {
    OpenHasNoCandidate(w.db, p.plan.dispatch);
    hide E.Complete, Coupled;
    var d := p.plan.dispatch;
    var kept := E.Evidence(p, x);
    var called := w.(calls := w.calls + [p.docket.attempt]);
    var stored := called.(evidence := w.evidence + {kept});
    var recorded := stored.(db := RecordCandidate(w.db, d, x, kept).db);
    var o := E.Success(p, CandidateId(d, x), x);
    ExecutorStep(E.To(p, E.Calling), w, i, E.To(p, E.Storing(x)), called);
    ExecutorStep(E.To(p, E.Storing(x)), called, i, E.To(p, E.Recording(x)), stored);
    ExecutorStep(E.To(p, E.Recording(x)), stored, i, E.To(p, E.Finishing(o)), recorded);
    LastStep(p, recorded, i, o);
  }

  /** The outcome is stored and returned. */
  lemma LastStep(p: E.Process, w: E.World, i: E.Input, o: ExecutorOutcome)
    requires o.attempt == p.docket.attempt && o.marker == p.docket.marker && i.fault.NoFault?
    requires p.docket.attempt in w.journal
    requires w.journal[p.docket.attempt] == AttemptRow(p.docket, AttemptState.Executing, None)
    ensures E.Complete(E.To(p, E.Finishing(o)), w, i)
         == (E.To(p, E.Done(o)), w.(journal := w.journal[p.docket.attempt := AttemptRow(p.docket, o.outcome, Some(o))]))
  {
  }

  // ---------- With operations that raise ----------

  /** Whatever raises after an answer or an exception, the dispatch does not end failed: it
      may still have been executed. Only a definitive refusal ends it so. */
  lemma FailedExactlyWhenRefused(p: E.Process, w: E.World, i: E.Input)
    requires Coupled(w.db) && p.phase.Validating? && Matches(p, w.db) && Unused(p.docket, w.journal)
    requires GetDispatch(w.db, p.plan.dispatch).status
               in {Custody.DispatchStatus.Reserved, Custody.DispatchStatus.Executing}
    ensures var v := E.Complete(p, w, i).1;
            HasDispatch(v.db, p.plan.dispatch)
            && (GetDispatch(v.db, p.plan.dispatch).status == DispatchStatus.Failed <==> i.reply.DefinitiveFailure?)
  {
    var db := ReachesCall(p, w, i);
    hide E.Complete, Coupled, Matches, Unused;
    var at := Called(p, w, db);
    assert AtCall(p, at);
    hide AtCall, BothAre, Called;
    if i.reply.DefinitiveFailure? { RefusedFails(p, at, i); } else { OthersNeverFail(p, at, i); }
  }

  lemma OthersNeverFail(p: E.Process, w: E.World, i: E.Input)
    requires AtCall(p, w) && !i.reply.DefinitiveFailure?
    ensures var v := E.Complete(E.To(p, E.Calling), w, i).1;
            HasDispatch(v.db, p.plan.dispatch) && GetDispatch(v.db, p.plan.dispatch).status != DispatchStatus.Failed
  {
    hide E.Complete;
    var called := w.(calls := w.calls + [p.docket.attempt]);
    var next := if i.reply.CallRaised? then E.MarkingUnknown else E.Storing(i.reply.response);
    ExecutorStep(E.To(p, E.Calling), w, i, E.To(p, next), called);
    NeverFails(E.To(p, next), called, i);
  }

  lemma RefusedFails(p: E.Process, w: E.World, i: E.Input)
    requires AtCall(p, w) && i.reply.DefinitiveFailure?
    ensures var v := E.Complete(E.To(p, E.Calling), w, i).1;
            HasDispatch(v.db, p.plan.dispatch) && GetDispatch(v.db, p.plan.dispatch).status == DispatchStatus.Failed
  {
    hide E.Complete;
    var called := w.(calls := w.calls + [p.docket.attempt]);
    var failed := called.(db := MarkFailed(w.db, p.plan.dispatch).db);
    ExecutorStep(E.To(p, E.Calling), w, i, E.To(p, E.Failing), called);
    ExecutorStep(E.To(p, E.Failing), called, i, E.To(p, E.Finishing(E.Failure(p))), failed);
    StaysAsIs(E.To(p, E.Finishing(E.Failure(p))), failed, i);
  }

  lemma StaysAsIs(p: E.Process, w: E.World, i: E.Input)
    requires p.phase.Finishing? && !p.phase.outcome.outcome.Success?
    ensures E.Complete(p, w, i).1.db == w.db
  {
  }

  /** After the call, and outside the handler of a definitive refusal. */
  predicate Settling(phase: E.Phase) {
    phase.Storing? || phase.Recording? || phase.MarkingUnknown? || phase.Finishing? || phase.Done? || phase.Refused?
  }

  lemma {:induction false} NeverFails(p: E.Process, w: E.World, i: E.Input)
    requires Settling(p.phase) && HasDispatch(w.db, p.plan.dispatch)
    requires GetDispatch(w.db, p.plan.dispatch).status != DispatchStatus.Failed
    ensures var v := E.Complete(p, w, i).1;
            HasDispatch(v.db, p.plan.dispatch) && GetDispatch(v.db, p.plan.dispatch).status != DispatchStatus.Failed
    decreases E.Left(p.phase)
  {
    hide FinishAttempt;
    var (q, v) := E.Advance(p, w, i);
    if E.Left(q.phase) < E.Left(p.phase) { NeverFails(q, v, i); }
  }

  /** Storing the evidence raises. The answer is not used: dispatch and request end UNKNOWN
      without a candidate, and the evidence is kept if it was written before the error. */
  lemma StoringFaultIsUnknown(p: E.Process, w: E.World, i: E.Input, x: Response)
    requires AtCall(p, w) && !i.fault.NoFault?
    ensures var v := E.Complete(E.To(p, E.Storing(x)), w, i).1;
            && BothAre(v.db, p.plan.dispatch, DispatchStatus.Unknown, LogicalStatus.Unknown)
            && v.db.candidates == w.db.candidates && v.calls == w.calls
            && v.evidence == w.evidence
                 + (if i.fault.RaisesAfter? then {EvidenceRef(p.plan.dispatch, p.docket.attempt, x)} else {})
  {
    hide E.Complete;
    var stored := if i.fault.RaisesAfter? then w.(evidence := w.evidence + {E.Evidence(p, x)}) else w;
    ExecutorStep(E.To(p, E.Storing(x)), w, i, E.To(p, E.MarkingUnknown), stored);
    MarkedUnknown(p, stored, i);
  }

  lemma MarkedUnknown(p: E.Process, w: E.World, i: E.Input)
    requires AtCall(p, w)
    ensures var v := E.Complete(E.To(p, E.MarkingUnknown), w, i).1;
            && BothAre(v.db, p.plan.dispatch, DispatchStatus.Unknown, LogicalStatus.Unknown)
            && v.db.candidates == w.db.candidates && v.calls == w.calls && v.evidence == w.evidence
  {
    hide E.Complete;
    var unknown := w.(db := MarkUnknown(w.db, p.plan.dispatch).db);
    var o := E.Indeterminate(p);
    ExecutorStep(E.To(p, E.MarkingUnknown), w, i, E.To(p, E.Finishing(o)), unknown);
    FinishingKeeps(p, unknown, i, o);
  }

  lemma FinishingKeeps(p: E.Process, w: E.World, i: E.Input, o: ExecutorOutcome)
    requires !o.outcome.Success?
    ensures var v := E.Complete(E.To(p, E.Finishing(o)), w, i).1;
            v.db == w.db && v.calls == w.calls && v.evidence == w.evidence
  {
  }

  /** Recording the candidate raises. If the error came first, dispatch and request end
      UNKNOWN; if the candidate was committed, both stay CANDIDATE. Nothing is returned. */
  lemma RecordingFaultKeepsTruth(p: E.Process, w: E.World, i: E.Input, x: Response)
    requires Coupled(w.db) && AtCall(p, w) && !i.fault.NoFault?
    ensures var (q, v) := E.Complete(E.To(p, E.Recording(x)), w, i);
            && q.phase.Refused? && v.calls == w.calls && v.evidence == w.evidence
            && if i.fault.RaisesBefore?
               then BothAre(v.db, p.plan.dispatch, DispatchStatus.Unknown, LogicalStatus.Unknown)
                    && v.db.candidates == w.db.candidates
               else BothAre(v.db, p.plan.dispatch, DispatchStatus.Candidate, LogicalStatus.Candidate)
                    && CandidateId(p.plan.dispatch, x) in v.db.candidates
                    && v.journal == w.journal
  {
    OpenHasNoCandidate(w.db, p.plan.dispatch);
    hide E.Complete, Coupled;
    if i.fault.RaisesBefore? {
      ExecutorStep(E.To(p, E.Recording(x)), w, i, E.To(p, E.MarkingUnknown), w);
      MarkedUnknown(p, w, i);
      UnknownThenRefused(p, w, i);
    } else {
      var recorded := w.(db := RecordCandidate(w.db, p.plan.dispatch, x, E.Evidence(p, x)).db);
      ExecutorStep(E.To(p, E.Recording(x)), w, i, E.To(p, E.MarkingUnknown), recorded);
      OneStep(E.To(p, E.MarkingUnknown), recorded, i);
      OneStep(E.To(p, E.Refused), recorded, i);
    }
  }

  lemma UnknownThenRefused(p: E.Process, w: E.World, i: E.Input)
    requires AtCall(p, w) && i.fault.RaisesBefore?
    ensures E.Complete(E.To(p, E.MarkingUnknown), w, i).0.phase.Refused?
  {
  }

  // ---------- Executions that do nothing ----------

  lemma OneStep(p: E.Process, w: E.World, i: E.Input)
    ensures var (q, v) := E.Advance(p, w, i);
            E.Complete(p, w, i) == if E.Left(q.phase) < E.Left(p.phase) then E.Complete(q, v, i) else (q, v)
  {
    hide E.Advance;
  }

  /** A docket dispatch for anything but the sealed plan of a stored dispatch is refused
      and leaves no trace. */
  lemma MismatchChangesNothing(p: E.Process, w: E.World, i: E.Input)
    requires p.phase.Validating? && !Matches(p, w.db)
    ensures E.Complete(p, w, i) == (E.To(p, E.Refused), w)
  {
  }

  /** An attempt id or marker that was used for other facts is refused, and so is an
      attempt that crossed the boundary and stored no outcome; neither leaves a trace. */
  lemma UsedChangesNothing(p: E.Process, w: E.World, i: E.Input)
    requires p.phase.Validating? && Matches(p, w.db)
    requires || (p.docket.attempt in w.journal && w.journal[p.docket.attempt].docket != p.docket)
             || (p.docket.attempt !in w.journal &&
                 exists a :: a in w.journal && w.journal[a].docket.marker == p.docket.marker)
             || (p.docket.attempt in w.journal && w.journal[p.docket.attempt].outcome.None?
                 && w.journal[p.docket.attempt].state != AttemptState.Reserved)
    ensures E.Complete(p, w, i) == (E.To(p, E.Refused), w)
  {
    hide E.Complete;
    ExecutorStep(p, w, i, E.To(p, E.Reserving), w);
    OneStep(E.To(p, E.Reserving), w, i);
    OneStep(E.To(p, E.Checking), w, i);
    OneStep(E.To(p, E.Refused), w, i);
  }

  /** On a settled dispatch an unused attempt is begun and then refused: no call, no
      evidence, no change of custody. */
  lemma SettledDispatchRefused(p: E.Process, w: E.World, i: E.Input)
    requires p.phase.Validating? && Matches(p, w.db) && Unused(p.docket, w.journal)
    requires GetDispatch(w.db, p.plan.dispatch).status
               !in {Custody.DispatchStatus.Reserved, Custody.DispatchStatus.Executing}
    ensures E.Complete(p, w, i) == (E.To(p, E.Refused), Called(p, w, w.db))
  {
    ReachesLoading(p, w, i);
    hide E.Complete;
    OneStep(E.To(p, E.Loading), Called(p, w, w.db), i);
    OneStep(E.To(p, E.Refused), Called(p, w, w.db), i);
  }
}
