/** The executor as the source writes it: one straight-line method over two stores.
    Run alone, it is exactly the process of `Executor` stepped to its end. */
module GenerationExecutors {
  import opened Basics
  import opened Custody
  import opened Attempts
  import opened Executor
  import opened GenerationStores

  class GenerationExecutor {
    const plan: ExecutorPlan
    const attempts: ExecutorAttemptStore
    const generations: GenerationStore
    var evidence: set<EvidenceRef>
    var calls: seq<AttemptId>

    ghost predicate Valid()
      reads this, attempts, generations
    {
      attempts.Valid() && generations.Valid()
    }

    ghost function Here(): World
      reads this, attempts, generations
    {
      World(generations.Snapshot(), attempts.rows, evidence, calls)
    }

    constructor (plan: ExecutorPlan, attempts: ExecutorAttemptStore, generations: GenerationStore)
      requires attempts.Valid() && generations.Valid()
      ensures Valid() && Here() == World(generations.Snapshot(), attempts.rows, {}, [])
    {
      this.plan, this.attempts, this.generations := plan, attempts, generations;
      evidence, calls := {}, [];
    }

    method Validate(docket: DocketDispatch) returns (ok: bool)
      requires Valid()
      ensures ok == Validates(Process(plan, docket, Validating), generations.Snapshot())
    {
      if docket.work != plan { return false; }
      if docket.subject != plan.subject || docket.scope != plan.scope { return false; }
      var d := plan.dispatch;
      if d.request !in generations.requests
          || d.ordinal >= |generations.requests[d.request].dispatches| { return false; }
      ok := generations.requests[d.request].dispatches[d.ordinal].digest == plan.digest;
    }

    /** `reply` is what the provider call does. */
    method Execute(docket: DocketDispatch, reply: Reply) returns (r: Option<ExecutorOutcome>)
      requires Valid()
      modifies this, attempts, generations
      ensures Valid()
      ensures var (p, w) := Complete(Process(plan, docket, Validating), old(Here()), Input(reply, NoFault));
              Here() == w && r == (if p.phase.Done? then Some(p.phase.outcome) else None)
    {
      hide Validates, ReserveAttempt, BeginAttempt, FinishAttempt, Move, RecordCandidate, Coupled, JournalSound,
          JournalEvolves;
      ghost var i := Input(reply, NoFault);
      ghost var p := Process(plan, docket, Validating);
      ghost var start := Complete(p, Here(), i);
      var valid := Validate(docket);
      if !valid { return None; }
      p := To(p, Phase.Reserving);
      assert start == Complete(p, Here(), i);
      var replay := attempts.Reserve(docket);
      if replay.Raised? { return None; }
      if replay.value.Some? { return replay.value; }
      assert start == Complete(To(p, Checking), Here(), i);
      r := Cross(docket, reply, To(p, Checking));
    }

    /** From the reserved attempt across the provider boundary of the journal. */
    method Cross(docket: DocketDispatch, reply: Reply, ghost p0: Process) returns (r: Option<ExecutorOutcome>)
      requires Valid() && p0 == Process(plan, docket, Checking)
      modifies this, attempts, generations
      ensures Valid()
      ensures var (q, w) := Complete(p0, old(Here()), Input(reply, NoFault));
              Here() == w && r == (if q.phase.Done? then Some(q.phase.outcome) else None)
    {
      hide Validates, BeginAttempt, FinishAttempt, Move, RecordCandidate, Coupled, JournalSound, JournalEvolves;
      ghost var i := Input(reply, NoFault);
      ghost var p := p0;
      ghost var start := Complete(p, Here(), i);
      var current := attempts.State(docket.attempt);
      BeginsWhenReserved(attempts.rows, docket);
      if current != Some(AttemptState.Reserved) {
        // A prior process crossed the boundary: only reconciliation is legal.
        assert start == Complete(To(p, Refused), Here(), i);
        return None;
      }
      p := To(p, Beginning);
      assert start == Complete(p, Here(), i);
      var began := attempts.Begin(docket);
      if began.Raised? { return None; }
      p := To(p, Loading);
      assert start == Complete(p, Here(), i);
      r := Launch(docket, reply, p);
    }

    /** From the durable dispatch to the provider boundary. */
    method Launch(docket: DocketDispatch, reply: Reply, ghost p0: Process) returns (r: Option<ExecutorOutcome>)
      requires Valid() && p0 == Process(plan, docket, Loading)
      modifies this, attempts, generations
      ensures Valid()
      ensures var (q, w) := Complete(p0, old(Here()), Input(reply, NoFault));
              Here() == w && r == (if q.phase.Done? then Some(q.phase.outcome) else None)
    {
      hide Move, RecordCandidate, Coupled, JournalSound, JournalEvolves;
      ghost var i := Input(reply, NoFault);
      ghost var p := p0;
      ghost var start := Complete(p, Here(), i);
      var d := plan.dispatch;
      if d.request !in generations.requests
          || d.ordinal >= |generations.requests[d.request].dispatches| { return None; }
      var durable := generations.requests[d.request].dispatches[d.ordinal];
      if durable.status == Custody.DispatchStatus.Reserved {
        p := To(p, Marking);
        assert start == Complete(p, Here(), i);
        var marked := generations.MarkDispatchExecuting(d, Some(docket.attempt));
        if marked.Err? {
          assert start == Complete(To(p, Refused), Here(), i);
          return None;
        }
      } else if durable.status != Custody.DispatchStatus.Executing {
        return None;
      }
      p := To(p, Calling);
      assert start == Complete(p, Here(), i);
      r := CallProvider(docket, reply, p);
    }

    /** The guarded block and its two handlers. */
    method CallProvider(docket: DocketDispatch, reply: Reply, ghost p: Process) returns (r: Option<ExecutorOutcome>)
      requires Valid() && p == Process(plan, docket, Calling)
      modifies this, attempts, generations
      ensures Valid()
      ensures var (q, w) := Complete(p, old(Here()), Input(reply, NoFault));
              Here() == w && r == (if q.phase.Done? then Some(q.phase.outcome) else None)
    {
      hide FinishAttempt, ReserveAttempt, BeginAttempt, Validates, Move, MarkExecuting, RecordCandidate, Coupled,
          JournalSound, JournalEvolves;
      ghost var i := Input(reply, NoFault);
      ghost var start := Complete(p, Here(), i);
      calls := calls + [docket.attempt];
      match reply {
        case DefinitiveFailure =>
          assert start == Complete(To(p, Failing), Here(), i);
          r := HandleFailure(docket, To(p, Failing), i);
        case CallRaised =>
          assert start == Complete(To(p, MarkingUnknown), Here(), i);
          r := HandleUnknown(docket, To(p, MarkingUnknown), i);
        case Answered(response) =>
          assert start == Complete(To(p, Storing(response)), Here(), i);
          var reference := EvidenceRef(plan.dispatch, docket.attempt, response);
          evidence := evidence + {reference};
          assert start == Complete(To(p, Recording(response)), Here(), i);
          var candidate := generations.RecordDispatchCandidate(plan.dispatch, response, reference);
          if candidate.Err? {
            assert start == Complete(To(p, MarkingUnknown), Here(), i);
            r := HandleUnknown(docket, To(p, MarkingUnknown), i);
            return;
          }
          var outcome := ExecutorOutcome(docket.attempt, docket.marker,
                                         SuccessReceipt(docket.attempt, candidate.value, reference),
                                             AttemptState.Success);
          assert start == Complete(To(p, Finishing(outcome)), Here(), i);
          var finished := attempts.Finish(docket, outcome);
          if finished.Raised? {
            assert start == Complete(To(p, MarkingUnknown), Here(), i);
            r := HandleUnknown(docket, To(p, MarkingUnknown), i);
            return;
          }
          assert start == Complete(To(p, Done(finished.value)), Here(), i);
          r := Some(finished.value);
      }
    }

    method HandleFailure(docket: DocketDispatch, ghost p: Process, ghost i: Input) returns (r: Option<ExecutorOutcome>)
      requires Valid() && p == Process(plan, docket, Failing) && i.fault.NoFault?
      modifies this, attempts, generations
      ensures Valid()
      ensures var (q, w) := Complete(p, old(Here()), i);
              Here() == w && r == (if q.phase.Done? then Some(q.phase.outcome) else None)
    {
      hide FinishAttempt, Move, Coupled, JournalSound, JournalEvolves;
      ghost var start := Complete(p, Here(), i);
      var marked := generations.MarkDispatchFailed(plan.dispatch);
      if marked.Err? { return None; }
      var outcome := ExecutorOutcome(docket.attempt, docket.marker, FailureReceipt(docket.attempt),
          AttemptState.Failure);
      assert start == Complete(To(p, Finishing(outcome)), Here(), i);
      var finished := attempts.Finish(docket, outcome);
      r := if finished.Raised? then None else Some(finished.value);
    }

    method HandleUnknown(docket: DocketDispatch, ghost p: Process, ghost i: Input) returns (r: Option<ExecutorOutcome>)
      requires Valid() && p == Process(plan, docket, MarkingUnknown) && i.fault.NoFault?
      modifies this, attempts, generations
      ensures Valid()
      ensures var (q, w) := Complete(p, old(Here()), i);
              Here() == w && r == (if q.phase.Done? then Some(q.phase.outcome) else None)
    {
      hide FinishAttempt, Move, Coupled, JournalSound, JournalEvolves;
      ghost var start := Complete(p, Here(), i);
      var marked := generations.MarkDispatchUnknown(plan.dispatch);
      if marked.Err? { return None; }
      var outcome := ExecutorOutcome(docket.attempt, docket.marker, IndeterminateReceipt(docket.attempt),
          AttemptState.Indeterminate);
      assert start == Complete(To(p, Finishing(outcome)), Here(), i);
      var finished := attempts.Finish(docket, outcome);
      r := if finished.Raised? then None else Some(finished.value);
    }

    /** Validation, then durable evidence: no provider call and no write. */
    method Reconcile(docket: DocketDispatch) returns (r: Option<ExecutorOutcome>)
      requires Valid()
      ensures r == if Validates(Process(plan, docket, Validating), generations.Snapshot())
                   then ReconcileAttempt(attempts.rows, docket) else None
    {
      var valid := Validate(docket);
      if !valid { return None; }
      r := attempts.Reconcile(docket);
    }
  }
}
