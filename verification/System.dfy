/** All the processes of one project together: executors, acceptance callers, the
    worker, the API and conversation writers, interleaved one atomic step at a time,
    with a crash possible between any two of them. */
module System {
  import opened Basics
  import opened Custody
  import opened CustodyInvariants
  import opened Attempts
  import opened Sessions
  import opened AcceptanceProofs
  import E = Executor
  import A = Acceptance

  type Pid = nat

  datatype Sys = Sys(
    world: E.World,
    library: A.Library,
    executors: map<Pid, E.Process>,
    callers: map<Pid, A.Caller>,
    lock: Option<Pid>)

  datatype Action =
    | SetEnabled(project: Name, on: bool)
    | CreateRequest(frozen: Frozen, id: RequestId)
    | ReserveDispatch(request: RequestId, choice: Option<Route>, fallback: bool)
    | WorkerUnknown(dispatch: DispatchId)
    | StartExecutor(pid: Pid, plan: ExecutorPlan, docket: DocketDispatch)
    | StepExecutor(pid: Pid, execution: E.Input)
    | CrashExecutor(pid: Pid)
    | StartCaller(pid: Pid, project: Name, candidate: CandidateId)
    | StepCaller(pid: Pid, call: A.Input)
    | CrashCaller(pid: Pid)
    | WriteSession(session: SessionId, messages: seq<Message>)
    | RenameSession(session: SessionId, title: Name, model: Name)
    | NewSession(session: SessionId, title: Name, model: Name)
    | ForkSession(from: SessionId, upTo: nat, session: SessionId, title: Name, model: Name)
    | DeleteSession(session: SessionId)
    | EditProject(canon: Name, guidance: Name)

  function WithDb(s: Sys, db: Db): Sys {
    s.(world := s.world.(db := db))
  }

  function Commits<T>(s: Sys, tx: Tx<T>): Sys {
    match tx
    case Commit(db, _) => WithDb(s, db)
    case Abort(_) => s
  }

  /** The lock follows its holder and is released when the call ends or crashes. */
  function Relock(lock: Option<Pid>, pid: Pid, k: A.Caller): Option<Pid> {
    if A.HoldsLock(k) then Some(pid) else if lock == Some(pid) then None else lock
  }

  /** One action. An action that is not possible changes nothing. */
  ghost function Next(s: Sys, a: Action): Sys {
    match a
    case SetEnabled(project, on) => WithDb(s, Enable(s.world.db, project, on))
    case CreateRequest(f, id) =>
      // The request is frozen against a revision that was read from the conversation.
      if id in s.world.db.requests || !A.Observed(f, s.library) then s else Commits(s, Create(s.world.db, f, id))
    case ReserveDispatch(r, choice, fallback) => Commits(s, Reserve(s.world.db, r, choice, fallback))
    case WorkerUnknown(d) => Commits(s, MarkUnknown(s.world.db, d))
    case StartExecutor(pid, plan, docket) =>
      if pid in s.executors then s else s.(executors := s.executors[pid := E.Process(plan, docket, E.Validating)])
    case StepExecutor(pid, i) =>
      if pid !in s.executors then s
      else var (p, w) := E.Advance(s.executors[pid], s.world, i); s.(world := w, executors := s.executors[pid := p])
    case CrashExecutor(pid) => s.(executors := s.executors - {pid})
    case StartCaller(pid, project, c) =>
      if pid in s.callers then s else s.(callers := s.callers[pid := A.Caller(project, c, A.Opening)])
    case StepCaller(pid, i) =>
      if pid !in s.callers || (s.callers[pid].phase.Waiting? && s.lock.Some?) then s
      else
        var (k, db, lib) := A.Advance(s.callers[pid], s.world.db, s.library, i);
        WithDb(s, db).(library := lib, callers := s.callers[pid := k], lock := Relock(s.lock, pid, k))
    case CrashCaller(pid) => s.(callers := s.callers - {pid}, lock := if s.lock == Some(pid) then None else s.lock)
    case WriteSession(id, messages) =>
      if id !in s.library.sessions || !Plain(messages) then s
      else s.(library := Push(s.library, id, Appended(s.library.sessions[id], messages)))
    case RenameSession(id, title, model) =>
      if id !in s.library.sessions then s
      else s.(library := Push(s.library, id, Appended(s.library.sessions[id], []).(title := title, model := model)))
    case NewSession(id, title, model) =>
      if id in s.library.history then s else s.(library := Started(s.library, id, ChatSession(title, model, 0, [])))
    case ForkSession(from, k, id, title, model) =>
      if id in s.library.history || from !in s.library.sessions || k > |s.library.sessions[from].messages| then s
      else s.(library := Started(s.library, id, ChatSession(title, model, 0, s.library.sessions[from].messages[..k])))
    case DeleteSession(id) => s.(library := s.library.(sessions := s.library.sessions - {id}))
    case EditProject(canon, guidance) =>
      if s.lock.Some? then s else s.(library := s.library.(canon := canon, guidance := guidance))
  }

  /** Only an acceptance writes a message bound to a candidate. */
  predicate Plain(messages: seq<Message>) {
    forall i | 0 <= i < |messages| :: messages[i].candidate.None?
  }

  ghost predicate Initial(s: Sys) {
    s.world == E.World(EMPTY_DB, map[], {}, []) && s.executors == map[] && s.callers == map[] && s.lock.None?
    && s.library.sessions == map[] && s.library.history == map[]
  }

  // ---------- The global invariant ----------

  ghost predicate SysSound(s: Sys) {
    && E.Sound(s.world)
    && A.Sound(s.world.db, s.library)
    && ExecutorsSound(s)
    && CallersSound(s)
  }

  /** Each attempt is owned by at most one process past `begin`. */
  ghost predicate ExecutorsSound(s: Sys) {
    && (forall p | p in s.executors :: E.ProcessSound(s.executors[p], s.world))
    && (forall p, q | p in s.executors && q in s.executors && p != q
                      && E.Owns(s.executors[p]) && E.Owns(s.executors[q]) ::
          s.executors[p].docket.attempt != s.executors[q].docket.attempt)
  }

  ghost predicate CallersSound(s: Sys) {
    forall p | p in s.callers ::
      A.CallerSound(s.callers[p], s.world.db, s.library) && (A.HoldsLock(s.callers[p]) ==> s.lock == Some(p))
  }

  /** What any number of actions leaves of an earlier state. */
  ghost predicate SysEvolves(s: Sys, t: Sys) {
    E.WorldEvolves(s.world, t.world) && A.LibraryEvolves(s.library, t.library)
  }

  ghost predicate SysStep(s: Sys, t: Sys) {
    && SysSound(t)
    && SysEvolves(s, t)
    && Step(s.world.db, t.world.db)
  }

  lemma InitialSound(s: Sys)
    requires Initial(s)
    ensures SysSound(s)
  {
  }

  lemma SoundStays(s: Sys)
    requires SysSound(s)
    ensures SysStep(s, s)
  {
    hide A.Sound, ExecutorsSound, CallersSound, Evolves, Coupled, Step;
    E.WorldStays(s.world);
    StayIsStep(s.world.db);
  }

  // ---------- Actions on the database ----------

  /** A transaction by the API or the worker. */
  lemma DatabaseAction(s: Sys, db: Db)
    requires SysSound(s) && Step(s.world.db, db)
    requires db.candidates == s.world.db.candidates
    requires NewRequestsObserved(s.world.db, db, s.library)
    ensures SysStep(s, WithDb(s, db))
  {
    hide Step, Evolves, Coupled, A.Sound, E.Sound, E.ProcessSound, A.CallerSound, A.LibraryEvolves;
    var t := WithDb(s, db);
    E.DatabaseStep(s.world, db);
    StepGives(s.world.db, db);
    assert Coupled(s.world.db) by { SoundParts(s); }
    DatabaseKeepsSound(s.world.db, db, s.library);
    SoundParts(s);
    LibraryStays(s.library);
    forall p | p in s.executors ensures E.ProcessSound(s.executors[p], t.world) {
      E.ProcessStable(s.executors[p], s.world, t.world);
    }
    forall p | p in s.callers ensures A.CallerSound(s.callers[p], db, s.library) {
      CallerStable(s.callers[p], s.world.db, db, s.library, s.library);
    }
  }

  lemma SoundParts(s: Sys)
    requires SysSound(s)
    ensures Coupled(s.world.db) && A.SessionsSound(s.library)
  {
  }

  lemma LibraryStays(lib: A.Library)
    ensures A.LibraryEvolves(lib, lib) && NothingCarried(lib, lib)
  {
  }

  // ---------- Actions of an executor ----------

  /** An executor never accepts a candidate and never creates a request. */
  lemma ExecutorKeepsMarks(p: E.Process, w: E.World, i: E.Input)
    ensures var v := E.Advance(p, w, i).1; MarksKept(w.db, v.db) && v.db.requests.Keys == w.db.requests.Keys
  {
    hide ReserveAttempt, BeginAttempt, FinishAttempt, Mirror;
  }

  /** A database commit made by an executor step is one custody step. */
  lemma ExecutorDatabaseStep(p: E.Process, w: E.World, i: E.Input)
    requires Coupled(w.db)
    ensures Step(w.db, E.Advance(p, w, i).1.db)
  {
    hide Step, Coupled;
    StayIsStep(w.db);
    var d := p.plan.dispatch;
    match p.phase
    case Marking =>
      if MarkExecuting(w.db, d, Some(p.docket.attempt)).Commit? {
        MoveIsStep(w.db, d, {Custody.DispatchStatus.Reserved}, Custody.DispatchStatus.Executing, DispatchStarted,
            Some(p.docket.attempt));
      }
    case Failing =>
      if MarkFailed(w.db, d).Commit? {
        MoveIsStep(w.db, d, {Custody.DispatchStatus.Reserved, Custody.DispatchStatus.Executing},
            DispatchStatus.Failed, DispatchFailed, None);
      }
    case MarkingUnknown =>
      if MarkUnknown(w.db, d).Commit? {
        MoveIsStep(w.db, d, {Custody.DispatchStatus.Reserved, Custody.DispatchStatus.Executing},
            DispatchStatus.Unknown, OutcomeUnknown, None);
      }
    case Recording(response) =>
      if RecordCandidate(w.db, d, response, E.Evidence(p, response)).Commit? {
        RecordCandidateIsStep(w.db, d, response, E.Evidence(p, response));
      }
    case _ =>
  }

  lemma ExecutorAction(s: Sys, pid: Pid, i: E.Input)
    requires SysSound(s) && pid in s.executors
    ensures SysStep(s, Next(s, StepExecutor(pid, i)))
  {
    hide Step, Evolves, Coupled, A.Sound, E.Sound, E.ProcessSound, A.CallerSound, A.LibraryEvolves, E.Advance,
        A.SessionsSound;
    var p := s.executors[pid];
    var (q, w) := E.Advance(p, s.world, i);
    var t := Next(s, StepExecutor(pid, i));
    SoundParts(s);
    E.AdvanceSound(p, s.world, i);
    ExecutorKeepsMarks(p, s.world, i);
    ExecutorDatabaseStep(p, s.world, i);
    DatabaseKeepsSound(s.world.db, w.db, s.library);
    LibraryStays(s.library);
    forall x | x in t.executors && x != pid ensures E.ProcessSound(t.executors[x], w) {
      OtherExecutor(s, pid, x, q, w);
    }
    forall x | x in s.callers ensures A.CallerSound(s.callers[x], w.db, s.library) {
      CallerStable(s.callers[x], s.world.db, w.db, s.library, s.library);
    }
    assert ExecutorsSound(t) by { StillExclusive(s, pid, q, w); }
  }

  lemma OtherExecutor(s: Sys, pid: Pid, x: Pid, q: E.Process, w: E.World)
    requires ExecutorsSound(s) && pid in s.executors && x in s.executors && x != pid
    requires E.StepSound(s.executors[pid], s.world, q, w)
    ensures E.ProcessSound(s.executors[x], w)
  {
    hide E.Sound, Evolves, JournalEvolves;
    assert E.ProcessSound(s.executors[x], s.world);
    E.ProcessStable(s.executors[x], s.world, w);
  }

  lemma StillExclusive(s: Sys, pid: Pid, q: E.Process, w: E.World)
    requires ExecutorsSound(s) && pid in s.executors
    requires E.StepSound(s.executors[pid], s.world, q, w)
    ensures forall x | x in s.executors && x != pid && E.Owns(s.executors[x]) && E.Owns(q) ::
              s.executors[x].docket.attempt != q.docket.attempt
  {
    hide E.Sound, Evolves, JournalEvolves;
    forall x | x in s.executors && x != pid && E.Owns(s.executors[x]) && E.Owns(q)
      ensures s.executors[x].docket.attempt != q.docket.attempt
    {
      assert E.ProcessSound(s.executors[x], s.world);
    }
  }

  // ---------- Actions of an acceptance caller ----------

  lemma CallerAction(s: Sys, pid: Pid, i: A.Input)
    requires SysSound(s) && pid in s.callers && !(s.callers[pid].phase.Waiting? && s.lock.Some?)
    ensures SysStep(s, Next(s, StepCaller(pid, i)))
  {
    hide Step, Evolves, Coupled, A.Sound, E.Sound, E.ProcessSound, A.CallerSound, A.LibraryEvolves, A.Advance,
        A.SessionsSound;
    var k := s.callers[pid];
    var (l, db, lib) := A.Advance(k, s.world.db, s.library, i);
    var t := Next(s, StepCaller(pid, i));
    SoundParts(s);
    AdvanceSound(k, s.world.db, s.library, i);
    SameEvidenceStep(s.world, db);
    forall x | x in s.executors ensures E.ProcessSound(s.executors[x], t.world) {
      E.ProcessStable(s.executors[x], s.world, t.world);
    }
    forall x | x in t.callers
      ensures A.CallerSound(t.callers[x], db, lib) && (A.HoldsLock(t.callers[x]) ==> t.lock == Some(x))
    {
      if x != pid {
        AloneInside(s, pid, x, i);
        if A.HoldsLock(k) { NotHolding(s.callers[x], db, lib); }
      }
    }
  }

  lemma SameEvidenceStep(w: E.World, db: Db)
    requires E.Sound(w) && Step(w.db, db) && db.candidates.Keys == w.db.candidates.Keys
    ensures E.Sound(w.(db := db)) && E.WorldEvolves(w, w.(db := db))
  {
    hide Step, Evolves, Coupled;
    E.DatabaseStep(w, db);
  }

  lemma NotHolding(k: A.Caller, db: Db, lib: A.Library)
    requires !A.HoldsLock(k)
    ensures A.CallerSound(k, db, lib)
  {
  }

  /** While one caller steps under the lock, nobody else is inside. */
  lemma AloneInside(s: Sys, pid: Pid, x: Pid, i: A.Input)
    requires CallersSound(s) && pid in s.callers && x in s.callers && x != pid
    requires !(s.callers[pid].phase.Waiting? && s.lock.Some?)
    ensures A.HoldsLock(s.callers[pid]) ==> !A.HoldsLock(s.callers[x])
    ensures var (l, db, lib) := A.Advance(s.callers[pid], s.world.db, s.library, i);
            && (A.HoldsLock(l) ==> !A.HoldsLock(s.callers[x]))
            && (!A.HoldsLock(s.callers[pid]) ==> db == s.world.db && lib == s.library)
  {
    hide A.CallerSound;
  }

  // ---------- Actions on the conversations and the project ----------

  lemma LibraryAction(s: Sys, lib: A.Library)
    requires SysSound(s) && A.Sound(s.world.db, lib)
    requires A.LibraryEvolves(s.library, lib) && NothingCarried(s.library, lib)
    ensures SysStep(s, s.(library := lib))
  {
    hide Step, Evolves, Coupled, E.ProcessSound, A.CallerSound, A.LibraryEvolves, E.Sound, NothingCarried;
    E.WorldStays(s.world);
    SoundParts(s);
    StayIsStep(s.world.db);
    SessionsOf(s.world.db, lib);
    StepGives(s.world.db, s.world.db);
    forall p | p in s.callers ensures A.CallerSound(s.callers[p], s.world.db, lib) {
      CallerStable(s.callers[p], s.world.db, s.world.db, s.library, lib);
    }
  }

  lemma SessionsOf(db: Db, lib: A.Library)
    requires A.Sound(db, lib)
    ensures A.SessionsSound(lib)
  {
  }

  lemma SessionAction(s: Sys, a: Action)
    requires SysSound(s)
    requires a.WriteSession? || a.RenameSession? || a.NewSession? || a.ForkSession? || a.DeleteSession?
             || a.EditProject?
    ensures SysStep(s, Next(s, a))
  {
    hide SysSound, SysStep, A.Sound, A.LibraryEvolves, NothingCarried;
    var db, lib := s.world.db, s.library;
    LibrarySound(s);
    SoundStays(s);
    match a
    case WriteSession(id, messages) =>
      if id in lib.sessions && Plain(messages) {
        WriteKeepsSound(db, lib, id, Appended(lib.sessions[id], messages), messages);
        LibraryAction(s, Push(lib, id, Appended(lib.sessions[id], messages)));
      }
    case RenameSession(id, title, model) =>
      if id in lib.sessions {
        var renamed := Appended(lib.sessions[id], []).(title := title, model := model);
        WriteKeepsSound(db, lib, id, renamed, []);
        LibraryAction(s, Push(lib, id, renamed));
      }
    case NewSession(id, title, model) =>
      if id !in lib.history {
        StartKeepsSound(db, lib, id, ChatSession(title, model, 0, []), id, 0);
        LibraryAction(s, Started(lib, id, ChatSession(title, model, 0, [])));
      }
    case ForkSession(from, k, id, title, model) =>
      if id !in lib.history && from in lib.sessions && k <= |lib.sessions[from].messages| {
        var fork := ChatSession(title, model, 0, lib.sessions[from].messages[..k]);
        StartKeepsSound(db, lib, id, fork, from, k);
        LibraryAction(s, Started(lib, id, fork));
      }
    case DeleteSession(id) =>
      DeleteKeepsSound(db, lib, id);
      LibraryAction(s, lib.(sessions := lib.sessions - {id}));
    case EditProject(canon, guidance) =>
      if s.lock.None? {
        EditKeepsSound(db, lib, canon, guidance);
        LibraryAction(s, lib.(canon := canon, guidance := guidance));
      }
    case _ =>
  }

  lemma LibrarySound(s: Sys)
    requires SysSound(s)
    ensures A.Sound(s.world.db, s.library)
  {
  }

  /** Starting and crashing a process touches no store. */
  lemma ProcessAction(s: Sys, a: Action)
    requires SysSound(s)
    requires a.StartExecutor? || a.CrashExecutor? || a.StartCaller? || a.CrashCaller?
    ensures SysStep(s, Next(s, a))
  {
    hide E.Sound, A.Sound, Step, Evolves, A.LibraryEvolves, Coupled, E.ProcessSound, A.CallerSound, JournalEvolves;
    SoundStays(s);
    FreshProcess(a, s);
  }

  /** A process that has done nothing knows nothing yet. */
  lemma FreshProcess(a: Action, s: Sys)
    ensures a.StartExecutor? ==> E.ProcessSound(E.Process(a.plan, a.docket, E.Validating), s.world)
    ensures a.StartCaller? ==> A.CallerSound(A.Caller(a.project, a.candidate, A.Opening), s.world.db, s.library)
  {
  }

  lemma StoreAction(s: Sys, a: Action)
    requires SysSound(s)
    requires a.SetEnabled? || a.CreateRequest? || a.ReserveDispatch? || a.WorkerUnknown?
    ensures SysStep(s, Next(s, a))
  {
    hide SysSound, SysStep, Step, Coupled;
    var db := s.world.db;
    assert Coupled(db) by { CoupledPart(s); }
    SoundStays(s);
    match a
    case SetEnabled(project, on) =>
      EnableIsStep(db, project, on);
      DatabaseAction(s, Enable(db, project, on));
    case CreateRequest(f, id) =>
      if id !in db.requests && A.Observed(f, s.library) && Create(db, f, id).Commit? {
        CreateIsStep(db, f, id);
        DatabaseAction(s, Create(db, f, id).db);
      }
    case ReserveDispatch(r, choice, fallback) =>
      if Reserve(db, r, choice, fallback).Commit? {
        ReserveIsStep(db, r, choice, fallback);
        DatabaseAction(s, Reserve(db, r, choice, fallback).db);
      }
    case WorkerUnknown(d) =>
      if MarkUnknown(db, d).Commit? {
        MoveIsStep(db, d, {Custody.DispatchStatus.Reserved, Custody.DispatchStatus.Executing},
            DispatchStatus.Unknown, OutcomeUnknown, None);
        DatabaseAction(s, MarkUnknown(db, d).db);
      }
    case _ =>
  }

  lemma CoupledPart(s: Sys)
    requires SysSound(s)
    ensures Coupled(s.world.db)
  {
  }

  /** Every action, by whatever process and at whatever moment, keeps the system sound. */
  lemma NextSound(s: Sys, a: Action)
    requires SysSound(s)
    ensures SysStep(s, Next(s, a))
  {
    hide SysSound, SysStep;
    match a
    case StepExecutor(pid, i) =>
      if pid in s.executors { ExecutorAction(s, pid, i); } else { SoundStays(s); }
    case StepCaller(pid, i) =>
      if pid in s.callers && !(s.callers[pid].phase.Waiting? && s.lock.Some?) {
        CallerAction(s, pid, i);
      } else {
        SoundStays(s);
      }
    case StartExecutor(_, _, _) => ProcessAction(s, a);
    case CrashExecutor(_) => ProcessAction(s, a);
    case StartCaller(_, _, _) => ProcessAction(s, a);
    case CrashCaller(_) => ProcessAction(s, a);
    case SetEnabled(_, _) => StoreAction(s, a);
    case CreateRequest(_, _) => StoreAction(s, a);
    case ReserveDispatch(_, _, _) => StoreAction(s, a);
    case WorkerUnknown(_) => StoreAction(s, a);
    case _ => SessionAction(s, a);
  }
}
