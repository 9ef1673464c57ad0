/** Over whole runs, a dispatch is FAILED only because the provider refused it definitively:
    no exception, crash, lost reply or reconciliation ever makes it so. */
module FailureRuns {
  import opened Basics
  import opened Custody
  import opened CustodyInvariants
  import opened Attempts
  import opened Sessions
  import opened System
  import opened Runs
  import E = Executor
  import A = Acceptance

  /** In this step an executor of the dispatch hears a definitive refusal. */
  ghost predicate RefusalAt(s: Sys, a: Action, d: DispatchId) {
    && a.StepExecutor? && a.pid in s.executors
    && s.executors[a.pid].phase.Calling? && s.executors[a.pid].plan.dispatch == d
    && a.execution.reply.DefinitiveFailure?
  }

  ghost predicate RefusedBefore(states: seq<Sys>, actions: seq<Action>, n: nat, d: DispatchId)
    requires n <= |actions| && n <= |states|
  {
    exists i :: 0 <= i < n && RefusalAt(states[i], actions[i], d)
  }

  ghost predicate IsFailed(db: Db, d: DispatchId) {
    HasDispatch(db, d) && GetDispatch(db, d).status == DispatchStatus.Failed
  }

  ghost predicate IsFailing(s: Sys, pid: Pid, d: DispatchId) {
    pid in s.executors && s.executors[pid].phase.Failing? && s.executors[pid].plan.dispatch == d
  }

  lemma ExecutorFails(p: E.Process, w: E.World, i: E.Input, d: DispatchId)
    requires IsFailed(E.Advance(p, w, i).1.db, d) && !IsFailed(w.db, d)
    ensures p.phase.Failing? && p.plan.dispatch == d
  {
    hide ReserveAttempt, BeginAttempt, FinishAttempt, Mirror;
  }

  lemma CallerFailsNothing(k: A.Caller, db: Db, lib: A.Library, i: A.Input, d: DispatchId)
    requires IsFailed(A.Advance(k, db, lib, i).1, d)
    ensures IsFailed(db, d)
  {
    hide A.Judge, InsertCandidate;
  }

  lemma StoreFailsNothing(s: Sys, a: Action, d: DispatchId)
    requires a.SetEnabled? || a.CreateRequest? || a.ReserveDispatch? || a.WorkerUnknown?
    requires IsFailed(Next(s, a).world.db, d)
    ensures IsFailed(s.world.db, d)
  {
    hide BoundTo, A.Observed, Mirror;
  }

  lemma FailedBy(s: Sys, a: Action, d: DispatchId)
    requires IsFailed(Next(s, a).world.db, d) && !IsFailed(s.world.db, d)
    ensures a.StepExecutor? && IsFailing(s, a.pid, d)
  {
    match a
    case SetEnabled(_, _) => StoreFailsNothing(s, a, d);
    case CreateRequest(_, _) => StoreFailsNothing(s, a, d);
    case ReserveDispatch(_, _, _) => StoreFailsNothing(s, a, d);
    case WorkerUnknown(_) => StoreFailsNothing(s, a, d);
    case StepExecutor(pid, i) =>
      hide IsFailed, E.Advance;
      if pid in s.executors { ExecutorFails(s.executors[pid], s.world, i, d); }
    case StepCaller(pid, i) =>
      hide IsFailed, A.Advance;
      if pid in s.callers { CallerFailsNothing(s.callers[pid], s.world.db, s.library, i, d); }
    case _ => hide IsFailed;
  }

  lemma HearsRefusal(p: E.Process, w: E.World, i: E.Input)
    ensures var q := E.Advance(p, w, i).0;
            q.plan == p.plan && (q.phase.Failing? ==> p.phase.Calling? && i.reply.DefinitiveFailure?)
  {
    hide ReserveAttempt, BeginAttempt, FinishAttempt, Move, RecordCandidate;
  }

  lemma FailingBy(s: Sys, a: Action, pid: Pid, d: DispatchId)
    requires IsFailing(Next(s, a), pid, d)
    ensures IsFailing(s, pid, d) || RefusalAt(s, a, d)
  {
    hide E.Advance, A.Advance, BoundTo, A.Observed;
    match a
    case StepExecutor(x, i) => if x in s.executors { HearsRefusal(s.executors[x], s.world, i); }
    case _ =>
  }

  lemma {:induction false} FailingWasRefused(states: seq<Sys>, actions: seq<Action>, n: nat, pid: Pid, d: DispatchId)
    requires Run(states, actions) && n < |states| && IsFailing(states[n], pid, d)
    ensures RefusedBefore(states, actions, n, d)
  {
    hide Next, IsFailing, RefusalAt, Initial;
    if n == 0 {
      NothingYet(states[0], pid, d);
    } else {
      FailingBy(states[n - 1], actions[n - 1], pid, d);
      if IsFailing(states[n - 1], pid, d) { FailingWasRefused(states, actions, n - 1, pid, d); }
    }
  }

  lemma NothingYet(s: Sys, pid: Pid, d: DispatchId)
    requires Initial(s)
    ensures !IsFailing(s, pid, d) && !IsFailed(s.world.db, d)
  {
  }

  /** Every failed dispatch of every state of every run was refused by the provider before. */
  lemma {:induction false} FailedWasRefused(states: seq<Sys>, actions: seq<Action>, n: nat, d: DispatchId)
    requires Run(states, actions) && n < |states|
    requires HasDispatch(states[n].world.db, d)
    requires GetDispatch(states[n].world.db, d).status == DispatchStatus.Failed
    ensures exists i :: 0 <= i < n && RefusalAt(states[i], actions[i], d)
  {
    hide Next, IsFailing, RefusalAt, Initial;
    if n == 0 {
      NothingYet(states[0], 0, d);
    } else if IsFailed(states[n - 1].world.db, d) {
      FailedWasRefused(states, actions, n - 1, d);
    } else {
      FailedBy(states[n - 1], actions[n - 1], d);
      FailingWasRefused(states, actions, n - 1, actions[n - 1].pid, d);
    }
  }
}
