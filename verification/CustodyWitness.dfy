/** A run, from the empty system, in which one dispatch is called twice: its first executor
    crashes right after the provider call, and a second attempt finds it executing. */
module CustodyWitness {
  import opened Basics
  import opened Custody
  import opened Attempts
  import opened Sessions
  import opened System
  import opened Runs
  import E = Executor
  import A = Acceptance

  // ---------- Runs as lists of actions ----------

  /** The states a list of actions goes through. */
  ghost function Trace(s: Sys, actions: seq<Action>): seq<Sys> {
    if actions == [] then [s]
    else
      var before := Trace(s, actions[..|actions| - 1]);
      before + [Next(before[|before| - 1], actions[|actions| - 1])]
  }

  ghost function End(s: Sys, actions: seq<Action>): Sys {
    if actions == [] then s else Next(End(s, actions[..|actions| - 1]), actions[|actions| - 1])
  }

  lemma {:induction false} TraceRuns(s: Sys, actions: seq<Action>)
    requires Initial(s)
    ensures Run(Trace(s, actions), actions)
    ensures Trace(s, actions)[|actions|] == End(s, actions)
  {
    hide Initial, Next;
    if actions != [] {
      var init := actions[..|actions| - 1];
      TraceRuns(s, init);
      assert forall i | 0 <= i < |init| :: init[i] == actions[i];
    }
  }

  lemma {:induction false} EndAppend(s: Sys, a: seq<Action>, b: seq<Action>)
    ensures End(s, a + b) == End(End(s, a), b)
  {
    hide Next;
    if b == [] {
      assert a + b == a;
    } else {
      assert (a + b)[..|a + b| - 1] == a + b[..|b| - 1];
      EndAppend(s, a, b[..|b| - 1]);
    }
  }

  lemma EndOne(s: Sys, a: Action)
    ensures End(s, [a]) == Next(s, a)
  {
    hide Next;
    assert [a][..0] == [];
  }

  // ---------- Stepping one executor ----------

  function Steps(pid: Pid, n: nat, i: E.Input): seq<Action> {
    seq(n, k => StepExecutor(pid, i))
  }

  function Iterated(p: E.Process, w: E.World, n: nat, i: E.Input): (E.Process, E.World) {
    if n == 0 then (p, w) else var (q, v) := Iterated(p, w, n - 1, i); E.Advance(q, v, i)
  }

  lemma {:induction false} StepsIterate(s: Sys, pid: Pid, n: nat, i: E.Input)
    requires pid in s.executors
    ensures var (q, v) := Iterated(s.executors[pid], s.world, n, i);
            End(s, Steps(pid, n, i)) == s.(world := v, executors := s.executors[pid := q])
  {
    hide E.Advance;
    if n == 0 {
      assert s.executors[pid := s.executors[pid]] == s.executors;
    } else {
      assert Steps(pid, n, i)[..n - 1] == Steps(pid, n - 1, i);
      StepsIterate(s, pid, n - 1, i);
    }
  }

  const FAILS := E.Input(E.CallRaised, E.NoFault)

  ghost predicate Startable(p: E.Process, w: E.World) {
    && p.phase.Validating? && E.Validates(p, w.db)
    && p.docket.attempt !in w.journal && !MarkerUsed(w.journal, p.docket.marker)
  }

  function Called(p: E.Process, w: E.World, db: Db): E.World {
    w.(db := db, calls := w.calls + [p.docket.attempt],
       journal := w.journal[p.docket.attempt := AttemptRow(p.docket, AttemptState.Executing, None)])
  }

  /** Four steps take a startable process to the loading of its durable dispatch. */
  lemma ReachesDispatch(p: E.Process, w: E.World, i: E.Input)
    requires Startable(p, w)
    ensures var row := AttemptRow(p.docket, AttemptState.Executing, None);
            Iterated(p, w, 4, i) == (E.To(p, E.Loading), w.(journal := w.journal[p.docket.attempt := row]))
    ensures HasDispatch(w.db, p.plan.dispatch)
  {
    hide E.Validates, MarkExecuting;
    assert HasDispatch(w.db, p.plan.dispatch) by { ValidHas(p, w.db); }
    var reserved := w.journal[p.docket.attempt := AttemptRow(p.docket, AttemptState.Reserved, None)];
    assert Iterated(p, w, 1, i) == (E.To(p, E.Reserving), w);
    assert Iterated(p, w, 2, i) == (E.To(p, E.Checking), w.(journal := reserved));
    assert Iterated(p, w, 3, i) == (E.To(p, E.Beginning), w.(journal := reserved));
    assert reserved[p.docket.attempt := AttemptRow(p.docket, AttemptState.Executing, None)]
        == w.journal[p.docket.attempt := AttemptRow(p.docket, AttemptState.Executing, None)];
  }

  lemma ValidHas(p: E.Process, db: Db)
    requires E.Validates(p, db)
    ensures HasDispatch(db, p.plan.dispatch)
  {
  }

  /** On a reserved dispatch the provider has been called after seven steps. */
  lemma CallsReserved(p: E.Process, w: E.World)
    requires Startable(p, w)
    requires HasDispatch(w.db, p.plan.dispatch)
    requires GetDispatch(w.db, p.plan.dispatch).status == Custody.DispatchStatus.Reserved
    ensures MarkExecuting(w.db, p.plan.dispatch, Some(p.docket.attempt)).Commit?
    ensures Iterated(p, w, 7, FAILS)
         == (E.To(p, E.MarkingUnknown), Called(p, w, MarkExecuting(w.db, p.plan.dispatch, Some(p.docket.attempt)).db))
  {
    hide E.Validates;
    ReachesDispatch(p, w, FAILS);
    hide ReserveAttempt, BeginAttempt;
    var row := AttemptRow(p.docket, AttemptState.Executing, None);
    var begun := w.(journal := w.journal[p.docket.attempt := row]);
    assert Iterated(p, w, 5, FAILS) == (E.To(p, E.Marking), begun);
    assert Iterated(p, w, 6, FAILS)
        == (E.To(p, E.Calling), begun.(db := MarkExecuting(w.db, p.plan.dispatch, Some(p.docket.attempt)).db));
  }

  /** On an executing one, after six. */
  lemma CallsExecuting(p: E.Process, w: E.World)
    requires Startable(p, w)
    requires HasDispatch(w.db, p.plan.dispatch)
    requires GetDispatch(w.db, p.plan.dispatch).status == Custody.DispatchStatus.Executing
    ensures Iterated(p, w, 6, FAILS) == (E.To(p, E.MarkingUnknown), Called(p, w, w.db))
  {
    hide E.Validates;
    ReachesDispatch(p, w, FAILS);
    hide ReserveAttempt, BeginAttempt, MarkExecuting;
    var row := AttemptRow(p.docket, AttemptState.Executing, None);
    assert Iterated(p, w, 5, FAILS) == (E.To(p, E.Calling), w.(journal := w.journal[p.docket.attempt := row]));
  }

  // ---------- The run ----------

  function Setup(f: Frozen): seq<Action> {
    [SetEnabled(f.projectId, true), NewSession(0, f.canon, f.canon), CreateRequest(f, 0),
        ReserveDispatch(0, None, false)]
  }

  function FirstDispatch(f: Frozen): Dispatch {
    Dispatch(f.original, DispatchDigest(f, 0, f.original), Custody.DispatchStatus.Reserved, None, None)
  }

  lemma SetupReaches(s: Sys, f: Frozen)
    requires Initial(s) && f.sessionId == 0 && f.expectedRevision == 0
    ensures var t := End(s, Setup(f));
            && t.executors == map[] && t.callers == map[] && t.lock.None?
            && t.world.journal == map[] && t.world.calls == [] && t.world.db.candidates == map[]
            && t.library.sessions == map[0 := ChatSession(f.canon, f.canon, 0, [])]
            && t.library.canon == s.library.canon && t.library.guidance == s.library.guidance
            && t.world.db.requests == map[0 := LogicalRequest(f, Dispatching, None, None, [FirstDispatch(f)])]
  {
    var all := Setup(f);
    assert all[..1][..0] == [] && all[..2][..1] == all[..1] && all[..3][..2] == all[..2] && all[..4] == all;
    var s1, s2, s3 := End(s, all[..1]), End(s, all[..2]), End(s, all[..3]);
    assert all[..1] == [all[0]];
    EndOne(s, all[0]);
    assert s2 == Next(s1, all[1]) && s3 == Next(s2, all[2]) && End(s, all) == Next(s3, all[3]);
    hide End;
    assert s1 == WithDb(s, Enable(EMPTY_DB, f.projectId, true));
    assert s2.world == s1.world && s2.library.history == map[0 := [[]]];
    assert BoundTo(s2.world.db, f.projectId, f.clientRequestId) == {};
    assert s3.world.db.requests == map[0 := LogicalRequest(f, Queued, None, None, [])];
    assert f.projectId in s3.world.db.enabled;
    ReserveFirst(s3.world.db, f);
  }

  lemma ReserveFirst(db: Db, f: Frozen)
    requires db.requests == map[0 := LogicalRequest(f, Queued, None, None, [])] && f.projectId in db.enabled
    ensures var r := Reserve(db, 0, None, false);
            r.Commit? && r.db.candidates == db.candidates
            && r.db.requests == map[0 := LogicalRequest(f, Dispatching, None, None, [FirstDispatch(f)])]
  {
    assert [] + [FirstDispatch(f)] == [FirstDispatch(f)];
  }

  /** One executor started and stepped, from any state that does not know its process. */
  lemma Launches(s: Sys, pid: Pid, plan: ExecutorPlan, docket: DocketDispatch, n: nat, i: E.Input)
    requires pid !in s.executors
    ensures var (q, v) := Iterated(E.Process(plan, docket, E.Validating), s.world, n, i);
            End(s, [StartExecutor(pid, plan, docket)] + Steps(pid, n, i))
              == s.(world := v, executors := s.executors[pid := q])
  {
    hide E.Advance, Iterated;
    var p := E.Process(plan, docket, E.Validating);
    EndAppend(s, [StartExecutor(pid, plan, docket)], Steps(pid, n, i));
    EndOne(s, StartExecutor(pid, plan, docket));
    var t := s.(executors := s.executors[pid := p]);
    StepsIterate(t, pid, n, i);
    var (q, v) := Iterated(p, s.world, n, i);
    assert t.executors[pid := q] == s.executors[pid := q];
  }

  function Plan(f: Frozen, subject: Name): ExecutorPlan {
    ExecutorPlan(DispatchId(0, 0), DispatchDigest(f, 0, f.original), subject, subject)
  }

  function Docket(f: Frozen, subject: Name, attempt: AttemptId, marker: Name): DocketDispatch {
    DocketDispatch(attempt, marker, Plan(f, subject), subject, subject)
  }

  function Attempt(pid: Pid, f: Frozen, subject: Name, marker: Name, n: nat): seq<Action> {
    [StartExecutor(pid, Plan(f, subject), Docket(f, subject, pid, marker))] + Steps(pid, n, FAILS)
  }

  /** The first attempt, up to and including its provider call. */
  lemma FirstAttempt(s: Sys, f: Frozen, subject: Name, marker: Name)
    requires s.executors == map[] && s.world.journal == map[] && s.world.calls == []
    requires s.world.db.requests == map[0 := LogicalRequest(f, Dispatching, None, None, [FirstDispatch(f)])]
    ensures var t := End(s, Attempt(0, f, subject, marker, 7));
            && t.executors.Keys == {0} && t.world.calls == [0]
            && t.world.journal == map[0 := AttemptRow(Docket(f, subject, 0, marker), AttemptState.Executing, None)]
            && HasDispatch(t.world.db, DispatchId(0, 0))
            && GetDispatch(t.world.db, DispatchId(0, 0)).digest == DispatchDigest(f, 0, f.original)
            && GetDispatch(t.world.db, DispatchId(0, 0)).status == Custody.DispatchStatus.Executing
  {
    var p := E.Process(Plan(f, subject), Docket(f, subject, 0, marker), E.Validating);
    Launches(s, 0, p.plan, p.docket, 7, FAILS);
    hide End, Next, Iterated, E.Advance;
    CallsReserved(p, s.world);
  }

  lemma SecondAttempt(s: Sys, f: Frozen, subject: Name, first: Name, second: Name)
    requires first != second && 1 !in s.executors && s.world.calls == [0]
    requires s.world.journal == map[0 := AttemptRow(Docket(f, subject, 0, first), AttemptState.Executing, None)]
    requires HasDispatch(s.world.db, DispatchId(0, 0))
    requires GetDispatch(s.world.db, DispatchId(0, 0)).digest == DispatchDigest(f, 0, f.original)
    requires GetDispatch(s.world.db, DispatchId(0, 0)).status == Custody.DispatchStatus.Executing
    ensures var t := End(s, Attempt(1, f, subject, second, 6));
            && t.world.calls == [0, 1]
            && t.world.journal.Keys == {0, 1}
            && forall a | a in t.world.journal :: t.world.journal[a].docket.work.dispatch == DispatchId(0, 0)
  {
    var p := E.Process(Plan(f, subject), Docket(f, subject, 1, second), E.Validating);
    Launches(s, 1, p.plan, p.docket, 6, FAILS);
    hide End, Next, Iterated, E.Advance;
    CallsExecuting(p, s.world);
  }

  function TwoCalls(f: Frozen, subject: Name, first: Name, second: Name): seq<Action> {
    Setup(f) + Attempt(0, f, subject, first, 7) + [CrashExecutor(0)] + Attempt(1, f, subject, second, 6)
  }

  /** From the empty system, and with nobody else acting, the call log comes to hold two
      attempts of one and the same dispatch. */
  lemma DispatchCalledTwiceInRun(s: Sys, f: Frozen, subject: Name, first: Name, second: Name)
    requires Initial(s) && f.sessionId == 0 && f.expectedRevision == 0 && first != second
    ensures var actions := TwoCalls(f, subject, first, second);
            var states := Trace(s, actions);
            && Run(states, actions)
            && var w := states[|actions|].world;
               && w.calls == [0, 1] && w.journal.Keys == {0, 1}
               && forall a | a in w.journal :: w.journal[a].docket.work.dispatch == DispatchId(0, 0)
  {
    hide Initial, Run, Next, End, Attempt, Setup;
    var actions := TwoCalls(f, subject, first, second);
    TraceRuns(s, actions);
    var a, b, d := Setup(f), Attempt(0, f, subject, first, 7), Attempt(1, f, subject, second, 6);
    EndAppend(s, a + b + [CrashExecutor(0)], d);
    EndAppend(s, a + b, [CrashExecutor(0)]);
    EndAppend(s, a, b);
    SetupReaches(s, f);
    FirstAttempt(End(s, a), f, subject, first);
    var called := End(End(s, a), b);
    EndOne(called, CrashExecutor(0));
    Crashed(called);
    SecondAttempt(Next(called, CrashExecutor(0)), f, subject, first, second);
  }

  lemma Crashed(s: Sys)
    requires s.executors.Keys == {0}
    ensures var t := Next(s, CrashExecutor(0)); t.world == s.world && 1 !in t.executors
  {
  }
}
