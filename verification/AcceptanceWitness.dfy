/** A run, from the empty system, in which a blocked request is accepted: two status polls
    see the same candidate, canon is edited before the first one judges it, and the edit is
    undone before the second one does. */
module AcceptanceWitness {
  import opened Basics
  import opened Custody
  import opened CustodyInvariants
  import opened Attempts
  import opened Sessions
  import opened System
  import opened Runs
  import opened CustodyWitness
  import E = Executor
  import A = Acceptance

  // ---------- Reaching a candidate ----------

  function Answer(content: string): E.Input {
    E.Input(E.Answered(Authored(content)), E.NoFault)
  }

  function TheCandidate(content: string): CandidateId {
    CandidateId(DispatchId(0, 0), Authored(content))
  }

  /** The candidate waits in custody, and nobody has polled for it. */
  ghost predicate Waiting(s: Sys, f: Frozen, c: CandidateId) {
    && s.callers == map[] && s.lock.None?
    && s.library.sessions == map[0 := ChatSession(f.canon, f.canon, 0, [])]
    && s.library.canon == f.canon && s.library.guidance == f.guidance
    && Open(s.world.db, f, c)
    && s.world.db.requests[0].status == LogicalStatus.Candidate
    && GetDispatch(s.world.db, c.dispatch).status == DispatchStatus.Candidate
  }

  /** A recorded candidate that has not been accepted. */
  ghost predicate Open(db: Db, f: Frozen, c: CandidateId) {
    && c.dispatch == DispatchId(0, 0)
    && c in db.candidates && db.candidates[c].acceptedMessageId.None?
    && HasDispatch(db, c.dispatch)
    && db.requests[0].frozen == f && db.requests[0].acceptedCandidateId.None?
  }

  /** Nine steps take a startable executor to a recorded candidate. */
  lemma Records(p: E.Process, w: E.World, content: string)
    requires Startable(p, w) && HasDispatch(w.db, p.plan.dispatch)
    requires GetDispatch(w.db, p.plan.dispatch).status == Custody.DispatchStatus.Reserved
    requires CandidateId(p.plan.dispatch, Authored(content)) !in w.db.candidates
    ensures var d, r := p.plan.dispatch, Authored(content);
            var executing := MarkExecuting(w.db, d, Some(p.docket.attempt));
            && executing.Commit?
            && RecordCandidate(executing.db, d, r, E.Evidence(p, r)).Commit?
            && Iterated(p, w, 9, Answer(content)).1.db == RecordCandidate(executing.db, d, r, E.Evidence(p, r)).db
  {
    hide E.Validates;
    var i, r := Answer(content), Authored(content);
    ReachesDispatch(p, w, i);
    hide ReserveAttempt, BeginAttempt, FinishAttempt;
    var row := AttemptRow(p.docket, AttemptState.Executing, None);
    var begun := w.(journal := w.journal[p.docket.attempt := row]);
    var marked := begun.(db := MarkExecuting(w.db, p.plan.dispatch, Some(p.docket.attempt)).db);
    var called := marked.(calls := w.calls + [p.docket.attempt]);
    assert Iterated(p, w, 5, i) == (E.To(p, E.Marking), begun);
    assert Iterated(p, w, 6, i) == (E.To(p, E.Calling), marked);
    assert Iterated(p, w, 7, i) == (E.To(p, E.Storing(r)), called);
    assert Iterated(p, w, 8, i) == (E.To(p, E.Recording(r)), called.(evidence := w.evidence + {E.Evidence(p, r)}));
  }

  function Produce(f: Frozen, subject: Name, marker: Name, content: string): seq<Action> {
    [StartExecutor(0, Plan(f, subject), Docket(f, subject, 0, marker))] + Steps(0, 9, Answer(content))
  }

  lemma Produces(s: Sys, f: Frozen, subject: Name, marker: Name, content: string)
    requires s.executors == map[] && s.callers == map[] && s.lock.None?
    requires s.world.journal == map[] && s.world.db.candidates == map[]
    requires s.world.db.requests == map[0 := LogicalRequest(f, Dispatching, None, None, [FirstDispatch(f)])]
    requires s.library.sessions == map[0 := ChatSession(f.canon, f.canon, 0, [])]
    requires s.library.canon == f.canon && s.library.guidance == f.guidance
    ensures Waiting(End(s, Produce(f, subject, marker, content)), f, TheCandidate(content))
  {
    var p := E.Process(Plan(f, subject), Docket(f, subject, 0, marker), E.Validating);
    Launches(s, 0, p.plan, p.docket, 9, Answer(content));
    hide End, Next, Iterated, E.Advance;
    Records(p, s.world, content);
  }

  // ---------- Stepping one caller ----------

  function CallerSteps(pid: Pid, n: nat, i: A.Input): seq<Action> {
    seq(n, k => StepCaller(pid, i))
  }

  function IteratedCaller(k: A.Caller, db: Db, lib: A.Library, n: nat, i: A.Input): (A.Caller, Db, A.Library) {
    if n == 0 then (k, db, lib)
    else var (l, db', lib') := IteratedCaller(k, db, lib, n - 1, i); A.Advance(l, db', lib', i)
  }

  function HeldBy(pid: Pid, k: A.Caller): Option<Pid> {
    if A.HoldsLock(k) then Some(pid) else None
  }

  /** With nobody else at the lock, a caller is only ever stopped by its own end. */
  lemma {:induction false} CallerIterates(s: Sys, pid: Pid, n: nat, i: A.Input)
    requires pid in s.callers && s.lock == HeldBy(pid, s.callers[pid])
    ensures var (l, db, lib) := IteratedCaller(s.callers[pid], s.world.db, s.library, n, i);
            End(s, CallerSteps(pid, n, i))
              == WithDb(s, db).(library := lib, callers := s.callers[pid := l], lock := HeldBy(pid, l))
  {
    hide A.Advance;
    if n == 0 {
      assert s.callers[pid := s.callers[pid]] == s.callers;
    } else {
      assert CallerSteps(pid, n, i)[..n - 1] == CallerSteps(pid, n - 1, i);
      CallerIterates(s, pid, n - 1, i);
    }
  }

  /** The conversation is as the request saw it, and does not carry the candidate. */
  ghost predicate Untouched(lib: A.Library, f: Frozen) {
    && f.sessionId == 0 && 0 in lib.sessions
    && lib.sessions[0].messages == [] && lib.sessions[0].revision == f.expectedRevision
  }

  /** From the lock to a block, when canon has changed. */
  lemma BlocksOnCanon(k: A.Caller, db: Db, lib: A.Library, f: Frozen, i: A.Input)
    requires k.phase.Waiting? && Open(db, f, k.candidate) && Untouched(lib, f) && lib.canon != f.canon
    ensures Block(db, k.candidate).Commit?
    ensures IteratedCaller(k, db, lib, 4, i)
         == (k.(phase := A.Finished(A.Verdict.Blocked(A.CanonChanged))), Block(db, k.candidate).db, lib)
  {
    assert IteratedCaller(k, db, lib, 1, i) == (k.(phase := A.Looking), db, lib);
    assert IteratedCaller(k, db, lib, 2, i) == (k.(phase := A.Judging), db, lib);
    assert IteratedCaller(k, db, lib, 3, i) == (k.(phase := A.Blocking(A.CanonChanged)), db, lib);
  }

  /** From the lock to a recorded acceptance, when everything frozen holds. The status of
      the dispatch and of the request does not matter. */
  lemma AcceptsWhatHolds(k: A.Caller, db: Db, lib: A.Library, f: Frozen, i: A.Input, prompt: string, content: string)
    requires k.phase.Waiting? && Open(db, f, k.candidate) && Untouched(lib, f)
    requires lib.canon == f.canon && lib.guidance == f.guidance && i.readable
    requires k.candidate.response == Authored(content)
    requires A.PendingUser(f.prompts) == Some(prompt) && !A.Blank(prompt)
    ensures Accept(db, k.candidate, i.assistantId).Commit?
    ensures var (l, db', lib') := IteratedCaller(k, db, lib, 5, i);
            && l == k.(phase := A.Finished(A.Verdict.Accepted(i.assistantId)))
            && db' == Accept(db, k.candidate, i.assistantId).db
            && 0 in lib'.sessions
            && lib'.sessions[0].messages == Turn(i.userId, prompt, i.assistantId, content, k.candidate)
  {
    hide A.Blank, A.PendingUser, Accept;
    var turn := Turn(i.userId, prompt, i.assistantId, content, k.candidate);
    TurnMatches(i.userId, prompt, i.assistantId, content, k.candidate);
    assert IteratedCaller(k, db, lib, 1, i) == (k.(phase := A.Looking), db, lib);
    assert IteratedCaller(k, db, lib, 2, i) == (k.(phase := A.Judging), db, lib);
    assert IteratedCaller(k, db, lib, 3, i) == (k.(phase := A.Appending(prompt, content)), db, lib);
    var (l, db', lib') := IteratedCaller(k, db, lib, 4, i);
    assert [] + turn == turn;
    assert l == k.(phase := A.Recording(A.Verdict.Accepted(i.assistantId))) && db' == db;
    assert lib'.sessions[0].messages == turn;
    Commits(db, f, k.candidate, i.assistantId);
  }

  lemma Commits(db: Db, f: Frozen, c: CandidateId, m: MessageId)
    requires Open(db, f, c)
    ensures Accept(db, c, m).Commit?
  {
  }

  // ---------- The run ----------

  /** One status poll, up to the project lock. */
  function Poll(pid: Pid, f: Frozen, c: CandidateId, i: A.Input): seq<Action> {
    [StartCaller(pid, f.projectId, c), StepCaller(pid, i)]
  }

  lemma Polls(s: Sys, pid: Pid, f: Frozen, c: CandidateId, i: A.Input)
    requires pid !in s.callers && s.lock.None? && Open(s.world.db, f, c)
    ensures End(s, Poll(pid, f, c, i)) == s.(callers := s.callers[pid := A.Caller(f.projectId, c, A.Phase.Waiting)])
  {
    hide A.Advance;
    var entered := s.(callers := s.callers[pid := A.Caller(f.projectId, c, A.Opening)]);
    assert Poll(pid, f, c, i) == [StartCaller(pid, f.projectId, c)] + [StepCaller(pid, i)];
    EndAppend(s, [StartCaller(pid, f.projectId, c)], [StepCaller(pid, i)]);
    EndOne(s, StartCaller(pid, f.projectId, c));
    EndOne(entered, StepCaller(pid, i));
    Opens(entered, pid, f, c, i);
    hide End;
    assert entered.callers[pid := A.Caller(f.projectId, c, A.Phase.Waiting)]
        == s.callers[pid := A.Caller(f.projectId, c, A.Phase.Waiting)];
  }

  lemma Opens(s: Sys, pid: Pid, f: Frozen, c: CandidateId, i: A.Input)
    requires pid in s.callers && s.callers[pid] == A.Caller(f.projectId, c, A.Opening)
    requires s.lock.None? && Open(s.world.db, f, c)
    ensures Next(s, StepCaller(pid, i)) == s.(callers := s.callers[pid := A.Caller(f.projectId, c, A.Phase.Waiting)])
  {
    hide A.Judge, InsertCandidate, Accept, Block;
  }

  /** Two polls, an edit of canon, and the first poll to its end. */
  function ToBlock(f: Frozen, c: CandidateId, other: Name, i: A.Input): seq<Action> {
    Poll(0, f, c, i) + Poll(1, f, c, i) + [EditProject(other, f.guidance)] + CallerSteps(0, 4, i)
  }

  /** The edit undone, and the second poll to its end. */
  function ToAccept(f: Frozen, i: A.Input): seq<Action> {
    [EditProject(f.canon, f.guidance)] + CallerSteps(1, 5, i)
  }

  lemma BlockedFirst(s: Sys, f: Frozen, c: CandidateId, other: Name, i: A.Input)
    requires Waiting(s, f, c) && f.sessionId == 0 && f.expectedRevision == 0 && other != f.canon
    ensures var t := End(s, ToBlock(f, c, other, i));
            && Open(t.world.db, f, c) && Untouched(t.library, f) && t.lock.None?
            && 1 in t.callers && t.callers[1] == A.Caller(f.projectId, c, A.Phase.Waiting)
            && t.world.db.requests[0].status == LogicalStatus.Blocked
            && GetDispatch(t.world.db, c.dispatch).status == DispatchStatus.Blocked
  {
    hide A.Advance;
    var waiting := A.Caller(f.projectId, c, A.Phase.Waiting);
    var a, b, edit, steps := Poll(0, f, c, i), Poll(1, f, c, i), EditProject(other, f.guidance), CallerSteps(0, 4, i);
    EndAppend(s, a + b + [edit], steps);
    EndAppend(s, a + b, [edit]);
    EndAppend(s, a, b);
    hide End, Poll, CallerSteps;
    Polls(s, 0, f, c, i);
    var s1 := End(s, a);
    Polls(s1, 1, f, c, i);
    var s2 := End(s1, b);
    EndOne(s2, edit);
    var s3 := Next(s2, edit);
    CallerIterates(s3, 0, 4, i);
    hide Next, IteratedCaller;
    BlocksOnCanon(waiting, s3.world.db, s3.library, f, i);
  }

  lemma AcceptedAfter(s: Sys, f: Frozen, c: CandidateId, i: A.Input, prompt: string, content: string)
    requires Open(s.world.db, f, c) && Untouched(s.library, f) && s.lock.None?
    requires 1 in s.callers && s.callers[1] == A.Caller(f.projectId, c, A.Phase.Waiting)
    requires GetDispatch(s.world.db, c.dispatch).status == DispatchStatus.Blocked
    requires i.readable && c.response == Authored(content)
    requires A.PendingUser(f.prompts) == Some(prompt) && !A.Blank(prompt)
    ensures var t := End(s, ToAccept(f, i));
            && 0 in t.world.db.requests && t.world.db.requests[0].status == LogicalStatus.Accepted
            && HasDispatch(t.world.db, c.dispatch)
            && GetDispatch(t.world.db, c.dispatch).status == DispatchStatus.Blocked
            && c in t.world.db.candidates
            && t.world.db.candidates[c].acceptedMessageId == Some(i.assistantId)
            && 0 in t.library.sessions
            && t.library.sessions[0].messages == Turn(i.userId, prompt, i.assistantId, content, c)
  {
    hide A.Advance, A.PendingUser, A.Blank;
    var edit := EditProject(f.canon, f.guidance);
    EndAppend(s, [edit], CallerSteps(1, 5, i));
    EndOne(s, edit);
    hide End, CallerSteps;
    var t := Next(s, edit);
    CallerIterates(t, 1, 5, i);
    hide Next, IteratedCaller;
    AcceptsWhatHolds(t.callers[1], t.world.db, t.library, f, i, prompt, content);
  }

  lemma {:induction false} TraceAt(s: Sys, actions: seq<Action>, n: nat)
    requires n <= |actions|
    ensures |Trace(s, actions)| == |actions| + 1 && Trace(s, actions)[n] == End(s, actions[..n])
  {
    hide Next;
    if n == |actions| {
      assert actions[..n] == actions;
      if actions != [] {
        TraceAt(s, actions[..n - 1], n - 1);
        assert actions[..n - 1][..n - 1] == actions[..n - 1];
      }
    } else {
      TraceAt(s, actions[..|actions| - 1], n);
      assert actions[..|actions| - 1][..n] == actions[..n];
    }
  }

  function ToCandidate(f: Frozen, subject: Name, marker: Name, content: string): seq<Action> {
    Setup(f) + Produce(f, subject, marker, content)
  }

  /** The request is BLOCKED in one state of the run and ACCEPTED in a later one, with the
      turn in the conversation and the dispatch still BLOCKED. */
  lemma BlockedThenAcceptedInRun(
    s: Sys, f: Frozen, subject: Name, marker: Name, content: string, other: Name, i: A.Input, prompt: string)
    requires Initial(s) && s.library.canon == f.canon && s.library.guidance == f.guidance
    requires f.sessionId == 0 && f.expectedRevision == 0 && other != f.canon && i.readable
    requires A.PendingUser(f.prompts) == Some(prompt) && !A.Blank(prompt)
    ensures var c := TheCandidate(content);
            var before := ToCandidate(f, subject, marker, content) + ToBlock(f, c, other, i);
            var actions := before + ToAccept(f, i);
            var states := Trace(s, actions);
            && Run(states, actions)
            && var blocked, accepted := states[|before|], states[|actions|];
               && 0 in blocked.world.db.requests && blocked.world.db.requests[0].status == LogicalStatus.Blocked
               && 0 in accepted.world.db.requests && accepted.world.db.requests[0].status == LogicalStatus.Accepted
               && HasDispatch(accepted.world.db, c.dispatch)
               && GetDispatch(accepted.world.db, c.dispatch).status == DispatchStatus.Blocked
               && 0 in accepted.library.sessions
               && accepted.library.sessions[0].messages == Turn(i.userId, prompt, i.assistantId, content, c)
  {
    hide Initial, Run, Next, End, A.PendingUser, A.Blank, Setup, Produce, ToBlock, ToAccept;
    var c := TheCandidate(content);
    var a, b, d, e := Setup(f), Produce(f, subject, marker, content), ToBlock(f, c, other, i), ToAccept(f, i);
    var before := ToCandidate(f, subject, marker, content) + d;
    assert before == a + b + d;
    var actions := before + e;
    TraceRuns(s, actions);
    TraceAt(s, actions, |before|);
    assert actions[..|before|] == before;
    EndAppend(s, before, e);
    EndAppend(s, a + b, d);
    EndAppend(s, a, b);
    SetupReaches(s, f);
    Produces(End(s, a), f, subject, marker, content);
    BlockedFirst(End(s, a + b), f, c, other, i);
    AcceptedAfter(End(s, before), f, c, i, prompt, content);
  }
}
