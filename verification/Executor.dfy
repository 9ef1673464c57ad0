/** One executor process as a sequence of atomic steps over the durable stores, and the
    invariant that survives any interleaving of such processes, crashes and replays. */
module Executor {
  import opened Basics
  import opened Custody
  import opened CustodyInvariants
  import opened Attempts

  /** The stores an executor reads and writes. `evidence` holds the references written
      (a reference determines its response); `calls` logs every provider call. */
  datatype World = World(db: Db, journal: Journal, evidence: set<EvidenceRef>, calls: seq<AttemptId>)

  datatype Phase =
    | Validating
    | Reserving
    | Checking
    | Beginning
    | Loading
    | Marking
    | Calling
    | Storing(response: Response)
    | Recording(response: Response)
    | Finishing(outcome: ExecutorOutcome)
    | Failing
    | MarkingUnknown
    | Done(outcome: ExecutorOutcome)
    | Refused

  datatype Process = Process(plan: ExecutorPlan, docket: DocketDispatch, phase: Phase)

  /** What the provider call does: answer, fail with qualified evidence, or raise. */
  datatype Reply = Answered(response: Response) | DefinitiveFailure | CallRaised

  /** An operation inside the guarded block may raise before or after its write commits. */
  datatype Fault = NoFault | RaisesBefore | RaisesAfter

  datatype Input = Input(reply: Reply, fault: Fault)

  // ---------- The process ----------

  function To(p: Process, phase: Phase): Process {
    p.(phase := phase)
  }

  function Evidence(p: Process, response: Response): EvidenceRef {
    EvidenceRef(p.plan.dispatch, p.docket.attempt, response)
  }

  function Success(p: Process, c: CandidateId, response: Response): ExecutorOutcome {
    ExecutorOutcome(p.docket.attempt, p.docket.marker, SuccessReceipt(p.docket.attempt, c, Evidence(p, response)),
        AttemptState.Success)
  }

  function Failure(p: Process): ExecutorOutcome {
    ExecutorOutcome(p.docket.attempt, p.docket.marker, FailureReceipt(p.docket.attempt), AttemptState.Failure)
  }

  function Indeterminate(p: Process): ExecutorOutcome {
    ExecutorOutcome(p.docket.attempt, p.docket.marker, IndeterminateReceipt(p.docket.attempt),
        AttemptState.Indeterminate)
  }

  /** The read-only check made by both execute and reconcile. */
  predicate Validates(p: Process, db: Db) {
    && p.docket.work == p.plan
    && p.docket.subject == p.plan.subject && p.docket.scope == p.plan.scope
    && HasDispatch(db, p.plan.dispatch)
    && GetDispatch(db, p.plan.dispatch).digest == p.plan.digest
  }

  /** One atomic step: at most one store commits, and the process moves on. */
  function Advance(p: Process, w: World, i: Input): (Process, World) {
    match p.phase
    case Validating => (To(p, if Validates(p, w.db) then Reserving else Refused), w)
    case Reserving =>
      (match ReserveAttempt(w.journal, p.docket)
       case Raised => (To(p, Refused), w)
       case Written(j, o) => (To(p, if o.Some? then Done(o.value) else Checking), w.(journal := j)))
    case Checking =>
      // A prior process crossed the boundary: execute must not call again.
      var uncrossed := p.docket.attempt in w.journal && w.journal[p.docket.attempt].state.Reserved?;
      (To(p, if uncrossed then Beginning else Refused), w)
    case Beginning =>
      (match BeginAttempt(w.journal, p.docket)
       case Raised => (To(p, Refused), w)
       case Written(j, _) => (To(p, Loading), w.(journal := j)))
    case Loading =>
      if !HasDispatch(w.db, p.plan.dispatch) then (To(p, Refused), w)
      else
        (match GetDispatch(w.db, p.plan.dispatch).status
         case Reserved => (To(p, Marking), w)
         case Executing => (To(p, Calling), w)
         case _ => (To(p, Refused), w))
    case Marking =>
      (match MarkExecuting(w.db, p.plan.dispatch, Some(p.docket.attempt))
       case Abort(_) => (To(p, Refused), w)
       case Commit(db, _) => (To(p, Calling), w.(db := db)))
    case Calling =>
      var w' := w.(calls := w.calls + [p.docket.attempt]);
      (match i.reply
       case Answered(response) => (To(p, Storing(response)), w')
       case DefinitiveFailure => (To(p, Failing), w')
       case CallRaised => (To(p, MarkingUnknown), w'))
    case Storing(response) =>
      var w' := w.(evidence := w.evidence + {Evidence(p, response)});
      (match i.fault
       case NoFault => (To(p, Recording(response)), w')
       case RaisesBefore => (To(p, MarkingUnknown), w)
       case RaisesAfter => (To(p, MarkingUnknown), w'))
    case Recording(response) =>
      if i.fault.RaisesBefore? then (To(p, MarkingUnknown), w)
      else
        (match RecordCandidate(w.db, p.plan.dispatch, response, Evidence(p, response))
         case Abort(_) => (To(p, MarkingUnknown), w)
         case Commit(db, c) =>
           (To(p, if i.fault.RaisesAfter? then MarkingUnknown else Finishing(Success(p, c, response))), w.(db := db)))
    case Finishing(o) =>
      // Storing a success happens inside the guarded block; the other two do not.
      var handler := if o.outcome.Success? then MarkingUnknown else Refused;
      if i.fault.RaisesBefore? then (To(p, handler), w)
      else
        (match FinishAttempt(w.journal, p.docket, o)
         case Raised => (To(p, handler), w)
         case Written(j, prior) => (To(p, if i.fault.RaisesAfter? then handler else Done(prior)), w.(journal := j)))
    case Failing =>
      (match MarkFailed(w.db, p.plan.dispatch)
       case Abort(_) => (To(p, Refused), w)
       case Commit(db, _) => (To(p, Finishing(Failure(p))), w.(db := db)))
    case MarkingUnknown =>
      (match MarkUnknown(w.db, p.plan.dispatch)
       case Abort(_) => (To(p, Refused), w)
       case Commit(db, _) => (To(p, Finishing(Indeterminate(p))), w.(db := db)))
    case Done(_) => (p, w)
    case Refused => (p, w)
  }

  function Left(phase: Phase): nat {
    match phase
    case Validating => 11
    case Reserving => 10
    case Checking => 9
    case Beginning => 8
    case Loading => 7
    case Marking => 6
    case Calling => 5
    case Storing(_) => 4
    case Recording(_) => 3
    case Finishing(o) => if o.outcome.Success? then 2 else 0
    case Failing => 1
    case MarkingUnknown => 1
    case Done(_) => 0
    case Refused => 0
  }

  /** The process run to its end with nobody else stepping. */
  function Complete(p: Process, w: World, i: Input): (Process, World)
    decreases Left(p.phase)
  {
    var (q, v) := Advance(p, w, i);
    if Left(q.phase) < Left(p.phase) then Complete(q, v, i) else (q, v)
  }

  // ---------- The invariant ----------

  /** The process is past `begin`, so it owns its attempt. */
  predicate Owns(p: Process) {
    match p.phase
    case Validating => false
    case Reserving => false
    case Checking => false
    case Beginning => false
    case Done(_) => false
    case Refused => false
    case _ => true
  }

  predicate BeforeCall(p: Process) {
    p.phase in {Loading, Marking, Calling}
  }

  /** What a stored or pending outcome says about the plan's dispatch. */
  ghost predicate Backed(db: Db, evidence: set<EvidenceRef>, d: DispatchId, o: ExecutorOutcome) {
    && HasDispatch(db, d)
    && match o.outcome
       case Success =>
         && o.receipt.SuccessReceipt?
         && o.receipt.candidate in db.candidates
         && o.receipt.candidate.dispatch == d
         && o.receipt.evidence in evidence
         && o.receipt.evidence.response == o.receipt.candidate.response
       case Failure => GetDispatch(db, d).status == DispatchStatus.Failed
       case Indeterminate =>
         GetDispatch(db, d).status in {DispatchStatus.Unknown, DispatchStatus.Candidate, DispatchStatus.Blocked}
       case _ => false
  }

  /** Every candidate row was written after the evidence of its own response. */
  ghost predicate Evidenced(db: Db, evidence: set<EvidenceRef>) {
    forall c | c in db.candidates ::
      && db.candidates[c].evidence in evidence
      && db.candidates[c].evidence.dispatch == c.dispatch
      && db.candidates[c].evidence.response == c.response
  }

  ghost predicate OutcomesBacked(w: World) {
    forall a | a in w.journal && w.journal[a].outcome.Some? ::
      Backed(w.db, w.evidence, w.journal[a].docket.work.dispatch, w.journal[a].outcome.value)
  }

  /** At most one provider call per Docket attempt, and none before it began. */
  ghost predicate CalledOnce(journal: Journal, calls: seq<AttemptId>) {
    && (forall i, j | 0 <= i < j < |calls| :: calls[i] != calls[j])
    && (forall a | a in calls :: a in journal && !journal[a].state.Reserved?)
  }

  ghost predicate Sound(w: World) {
    && Coupled(w.db)
    && JournalSound(w.journal)
    && Evidenced(w.db, w.evidence)
    && OutcomesBacked(w)
    && CalledOnce(w.journal, w.calls)
  }

  ghost predicate ProcessSound(p: Process, w: World) {
    && (!p.phase.Validating? && !p.phase.Refused? && !p.phase.Done? ==>
          p.docket.work == p.plan && HasDispatch(w.db, p.plan.dispatch))
    && (p.phase.Beginning? || p.phase.Checking? || p.phase.Done? ==>
          p.docket.attempt in w.journal && w.journal[p.docket.attempt].docket == p.docket)
    && (Owns(p) ==> Owning(p, w))
    && (p.phase.Done? ==> w.journal[p.docket.attempt].outcome == Some(p.phase.outcome))
  }

  ghost predicate Owning(p: Process, w: World) {
    var a := p.docket.attempt;
    && a in w.journal && w.journal[a].docket == p.docket
    && !w.journal[a].state.Reserved?
    && (w.journal[a].outcome.Some? ==> p.phase.MarkingUnknown? && w.journal[a].outcome.value.outcome.Success?)
    && (BeforeCall(p) ==> a !in w.calls)
    && (p.phase.Recording? ==> Evidence(p, p.phase.response) in w.evidence)
    && (p.phase.Finishing? ==>
          && p.phase.outcome.attempt == a && p.phase.outcome.marker == p.docket.marker
          && Terminal(p.phase.outcome.outcome)
          && Backed(w.db, w.evidence, p.plan.dispatch, p.phase.outcome))
  }

  /** What any step of the system, by whichever process, leaves true of the world. */
  ghost predicate WorldEvolves(w: World, v: World) {
    && Evolves(w.db, v.db)
    && JournalEvolves(w.journal, v.journal)
    && w.evidence <= v.evidence
  }

  // ---------- Stability ----------

  lemma BackedStable(d: DispatchId, o: ExecutorOutcome, a: Db, e: set<EvidenceRef>, b: Db, f: set<EvidenceRef>)
    requires Backed(a, e, d, o) && Evolves(a, b) && e <= f
    ensures Backed(b, f, d, o)
  {
    assert RequestEvolves(a.requests[d.request], b.requests[d.request]);
    assert SameDispatch(GetDispatch(a, d), GetDispatch(b, d));
  }

  /** Interference: the journal row, outcome and call log of this process' own attempt
      are left alone by everybody else. */
  lemma ProcessStable(p: Process, w: World, v: World)
    requires ProcessSound(p, w) && WorldEvolves(w, v)
    requires Owns(p) ==> v.journal[p.docket.attempt] == w.journal[p.docket.attempt]
    requires BeforeCall(p) ==> (p.docket.attempt in v.calls ==> p.docket.attempt in w.calls)
    ensures ProcessSound(p, v)
  {
    if HasDispatch(w.db, p.plan.dispatch) {
      assert RequestEvolves(w.db.requests[p.plan.dispatch.request], v.db.requests[p.plan.dispatch.request]);
    }
    if Owns(p) && p.phase.Finishing? {
      BackedStable(p.plan.dispatch, p.phase.outcome, w.db, w.evidence, v.db, v.evidence);
    }
  }

  /** A change of the database by somebody else keeps the whole world sound. */
  lemma DatabaseStep(w: World, db: Db)
    requires Sound(w) && Step(w.db, db)
    requires forall c | c in db.candidates :: c in w.db.candidates
    ensures Sound(w.(db := db)) && WorldEvolves(w, w.(db := db))
  {
    hide Step, Coupled, Backed, CandidateEvolves, RequestEvolves, RequestStep;
    assert Coupled(db) && Evolves(w.db, db) by { StepGives(w.db, db); }
    forall a | a in w.journal && w.journal[a].outcome.Some?
      ensures Backed(db, w.evidence, w.journal[a].docket.work.dispatch, w.journal[a].outcome.value)
    {
      BackedStable(w.journal[a].docket.work.dispatch, w.journal[a].outcome.value, w.db, w.evidence, db, w.evidence);
    }
    forall c | c in db.candidates ensures db.candidates[c].evidence == w.db.candidates[c].evidence {
      SameEvidence(w.db, db, c);
    }
  }

  lemma SameEvidence(a: Db, b: Db, c: CandidateId)
    requires Evolves(a, b) && c in a.candidates
    ensures c in b.candidates && b.candidates[c].evidence == a.candidates[c].evidence
  {
  }

  // ---------- Every step keeps the invariant ----------

  /** What one step of a process guarantees. `Mine` says it writes nobody else's row. */
  ghost predicate StepSound(p: Process, w: World, q: Process, v: World) {
    && q.plan == p.plan && q.docket == p.docket
    && Sound(v) && WorldEvolves(w, v)
    && ProcessSound(q, v)
    && (Owns(q) && !Owns(p) ==>
          p.phase.Beginning? && p.docket.attempt in w.journal && w.journal[p.docket.attempt].state.Reserved?)
    && Mine(p, w, v)
  }

  ghost predicate Mine(p: Process, w: World, v: World) {
    && (forall a | a in w.journal && !w.journal[a].state.Reserved? ::
          a in v.journal && (v.journal[a] == w.journal[a] || (a == p.docket.attempt && Owns(p))))
    && (forall a | a in v.calls :: a in w.calls || (a == p.docket.attempt && BeforeCall(p)))
  }

  lemma ValidatingStep(p: Process, w: World, i: Input)
    requires Sound(w) && ProcessSound(p, w) && p.phase.Validating?
    ensures StepSound(p, w, Advance(p, w, i).0, Advance(p, w, i).1)
  {
    hide Sound;
    WorldStays(w);
  }

  lemma WorldStays(w: World)
    requires Sound(w)
    ensures WorldEvolves(w, w)
  {
    hide RequestEvolves, RequestStep;
    StayIsStep(w.db);
    StepGives(w.db, w.db);
  }

  /** A journal write by this process keeps the world sound. */
  lemma JournalStep(w: World, j: Journal)
    requires Sound(w) && JournalSound(j) && JournalEvolves(w.journal, j)
    requires forall a | a in j && j[a].outcome.Some? && !(a in w.journal && w.journal[a].outcome.Some?) ::
               Backed(w.db, w.evidence, j[a].docket.work.dispatch, j[a].outcome.value)
    ensures Sound(w.(journal := j)) && WorldEvolves(w, w.(journal := j))
  {
    hide Coupled, Backed, Evolves, RowSound, Evidenced;
    WorldStays(w);
  }

  lemma ReservingStep(p: Process, w: World, i: Input)
    requires Sound(w) && ProcessSound(p, w) && p.phase.Reserving?
    ensures StepSound(p, w, Advance(p, w, i).0, Advance(p, w, i).1)
  {
    hide Coupled, Evidenced, Evolves;
    WorldStays(w);
    if ReserveAttempt(w.journal, p.docket).Written? {
      ReserveAttemptSound(w.journal, p.docket);
      JournalStep(w, ReserveAttempt(w.journal, p.docket).journal);
    }
  }

  lemma BeginningStep(p: Process, w: World, i: Input)
    requires Sound(w) && ProcessSound(p, w) && p.phase.Beginning?
    ensures StepSound(p, w, Advance(p, w, i).0, Advance(p, w, i).1)
  {
    hide Coupled, Evidenced, Evolves;
    WorldStays(w);
    if BeginAttempt(w.journal, p.docket).Written? {
      BeginAttemptSound(w.journal, p.docket);
      JournalStep(w, BeginAttempt(w.journal, p.docket).journal);
    }
  }

  lemma FinishingStep(p: Process, w: World, i: Input)
    requires Sound(w) && ProcessSound(p, w) && p.phase.Finishing?
    ensures StepSound(p, w, Advance(p, w, i).0, Advance(p, w, i).1)
  {
    hide Coupled, Evidenced, Evolves, Backed, CalledOnce, OutcomesBacked, RowSound;
    WorldStays(w);
    if FinishAttempt(w.journal, p.docket, p.phase.outcome).Written? {
      FinishAttemptSound(w.journal, p.docket, p.phase.outcome);
      JournalStep(w, FinishAttempt(w.journal, p.docket, p.phase.outcome).journal);
    }
  }

  lemma ReadingStep(p: Process, w: World, i: Input)
    requires Sound(w) && ProcessSound(p, w) && (p.phase.Checking? || p.phase.Loading? || p.phase.Done?
             || p.phase.Refused?)
    ensures StepSound(p, w, Advance(p, w, i).0, Advance(p, w, i).1)
  {
    hide Sound, Evolves;
    WorldStays(w);
  }

  lemma CallingStep(p: Process, w: World, i: Input)
    requires Sound(w) && ProcessSound(p, w) && p.phase.Calling?
    ensures StepSound(p, w, Advance(p, w, i).0, Advance(p, w, i).1)
  {
    hide Coupled, Evidenced, Evolves, JournalSound;
    WorldStays(w);
  }

  lemma StoringStep(p: Process, w: World, i: Input)
    requires Sound(w) && ProcessSound(p, w) && p.phase.Storing?
    ensures StepSound(p, w, Advance(p, w, i).0, Advance(p, w, i).1)
  {
    hide Coupled, Evolves, JournalSound;
    WorldStays(w);
  }

  /** A dispatch transition that commits, seen from the whole world. */
  lemma TransitionStep(w: World, d: DispatchId, allowed: set<DispatchStatus>, to: DispatchStatus, kind: EventType,
      execution: Option<AttemptId>)
    requires Sound(w)
    requires allowed <= {Custody.DispatchStatus.Reserved, Custody.DispatchStatus.Executing}
    requires to in {Custody.DispatchStatus.Executing, DispatchStatus.Unknown, DispatchStatus.Failed}
    requires to.Executing? ==> Custody.DispatchStatus.Executing !in allowed
    requires Move(w.db, d, allowed, to, kind, execution).Commit?
    ensures var v := w.(db := Move(w.db, d, allowed, to, kind, execution).db);
            Sound(v) && WorldEvolves(w, v) && HasDispatch(v.db, d) && GetDispatch(v.db, d).status == to
  {
    hide Step;
    MoveIsStep(w.db, d, allowed, to, kind, execution);
    DatabaseStep(w, Move(w.db, d, allowed, to, kind, execution).db);
  }

  lemma MarkingStep(p: Process, w: World, i: Input)
    requires Sound(w) && ProcessSound(p, w) && p.phase.Marking?
    ensures StepSound(p, w, Advance(p, w, i).0, Advance(p, w, i).1)
  {
    hide Sound, Evolves;
    WorldStays(w);
    if MarkExecuting(w.db, p.plan.dispatch, Some(p.docket.attempt)).Commit? {
      TransitionStep(w, p.plan.dispatch, {Custody.DispatchStatus.Reserved}, Custody.DispatchStatus.Executing,
          DispatchStarted, Some(p.docket.attempt));
    }
  }

  lemma FailingStep(p: Process, w: World, i: Input)
    requires Sound(w) && ProcessSound(p, w) && p.phase.Failing?
    ensures StepSound(p, w, Advance(p, w, i).0, Advance(p, w, i).1)
  {
    hide Sound, Evolves;
    WorldStays(w);
    if MarkFailed(w.db, p.plan.dispatch).Commit? {
      TransitionStep(w, p.plan.dispatch, {Custody.DispatchStatus.Reserved, Custody.DispatchStatus.Executing},
          DispatchStatus.Failed, DispatchFailed, None);
    }
  }

  lemma MarkingUnknownStep(p: Process, w: World, i: Input)
    requires Sound(w) && ProcessSound(p, w) && p.phase.MarkingUnknown?
    ensures StepSound(p, w, Advance(p, w, i).0, Advance(p, w, i).1)
  {
    hide Sound, Evolves;
    WorldStays(w);
    if MarkUnknown(w.db, p.plan.dispatch).Commit? {
      TransitionStep(w, p.plan.dispatch, {Custody.DispatchStatus.Reserved, Custody.DispatchStatus.Executing},
          DispatchStatus.Unknown, OutcomeUnknown, None);
      if w.journal[p.docket.attempt].outcome.Some? { SuccessClosed(p, w); }
    }
  }

  /** Once a success is stored, its dispatch can no longer be marked unknown. */
  lemma SuccessClosed(p: Process, w: World)
    requires Sound(w) && Owning(p, w) && p.docket.work == p.plan
    requires w.journal[p.docket.attempt].outcome.Some?
    ensures HasDispatch(w.db, p.plan.dispatch)
    ensures GetDispatch(w.db, p.plan.dispatch).status in {DispatchStatus.Candidate, DispatchStatus.Blocked}
  {
    hide Coupled, Evidenced, JournalSound, CalledOnce;
    var a := p.docket.attempt;
    assert Backed(w.db, w.evidence, w.journal[a].docket.work.dispatch, w.journal[a].outcome.value);
    CandidateHome(w.db, w.journal[a].outcome.value.receipt.candidate);
  }

  lemma RecordingStep(p: Process, w: World, i: Input)
    requires Sound(w) && ProcessSound(p, w) && p.phase.Recording?
    ensures StepSound(p, w, Advance(p, w, i).0, Advance(p, w, i).1)
  {
    hide Sound, Evolves, Move, FinishAttempt, BeginAttempt, ReserveAttempt, RecordCandidate;
    WorldStays(w);
    var d := p.plan.dispatch;
    var e := Evidence(p, p.phase.response);
    if RecordCandidate(w.db, d, p.phase.response, e).Commit? { RecordStep(w, d, p.phase.response, e); }
  }

  /** The recorded candidate backs the success that is about to be stored. */
  lemma RecordStep(w: World, d: DispatchId, response: Response, e: EvidenceRef)
    requires Sound(w) && e in w.evidence && e.dispatch == d && e.response == response
    requires RecordCandidate(w.db, d, response, e).Commit?
    ensures var v := w.(db := RecordCandidate(w.db, d, response, e).db);
            var c := RecordCandidate(w.db, d, response, e).value;
            && Sound(v) && WorldEvolves(w, v) && HasDispatch(v.db, d)
            && c == CandidateId(d, response) && c in v.db.candidates
  {
    hide Step, Coupled, Backed, Evolves;
    RecordCandidateIsStep(w.db, d, response, e);
    var db := RecordCandidate(w.db, d, response, e).db;
    StepGives(w.db, db);
    forall a | a in w.journal && w.journal[a].outcome.Some?
      ensures Backed(db, w.evidence, w.journal[a].docket.work.dispatch, w.journal[a].outcome.value)
    {
      BackedStable(w.journal[a].docket.work.dispatch, w.journal[a].outcome.value, w.db, w.evidence, db, w.evidence);
    }
  }

  /** Every step of an executor process, whatever the provider does and wherever the
      guarded block raises, keeps the world and the process sound. */
  lemma AdvanceSound(p: Process, w: World, i: Input)
    requires Sound(w) && ProcessSound(p, w)
    ensures StepSound(p, w, Advance(p, w, i).0, Advance(p, w, i).1)
  {
    hide Sound, ProcessSound, StepSound, Advance;
    match p.phase
    case Validating => ValidatingStep(p, w, i);
    case Reserving => ReservingStep(p, w, i);
    case Checking => ReadingStep(p, w, i);
    case Beginning => BeginningStep(p, w, i);
    case Loading => ReadingStep(p, w, i);
    case Marking => MarkingStep(p, w, i);
    case Calling => CallingStep(p, w, i);
    case Storing(_) => StoringStep(p, w, i);
    case Recording(_) => RecordingStep(p, w, i);
    case Finishing(_) => FinishingStep(p, w, i);
    case Failing => FailingStep(p, w, i);
    case MarkingUnknown => MarkingUnknownStep(p, w, i);
    case Done(_) => ReadingStep(p, w, i);
    case Refused => ReadingStep(p, w, i);
  }
}
