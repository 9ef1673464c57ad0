/** Theorems about whole runs: any interleaving of executors, acceptance callers, the
    worker, the API and conversation writers, with crashes anywhere. */
module Runs {
  import opened Basics
  import opened Custody
  import opened CustodyInvariants
  import opened CustodyMeaning
  import opened Attempts
  import opened Sessions
  import opened System
  import opened AcceptanceProofs
  import opened ContextBudget
  import opened Summaries
  import opened Admission
  import E = Executor
  import A = Acceptance

  ghost predicate Run(states: seq<Sys>, actions: seq<Action>) {
    && |states| == |actions| + 1
    && Initial(states[0])
    && forall i | 0 <= i < |actions| :: states[i + 1] == Next(states[i], actions[i])
  }

  lemma {:induction false} AlwaysSound(states: seq<Sys>, actions: seq<Action>, i: nat)
    requires Run(states, actions) && i < |states|
    ensures SysSound(states[i])
  {
    hide SysSound, Next, SysEvolves;
    if i == 0 {
      InitialSound(states[0]);
    } else {
      AlwaysSound(states, actions, i - 1);
      NextSound(states[i - 1], actions[i - 1]);
      StepParts(states[i - 1], states[i]);
    }
  }

  lemma StepParts(s: Sys, t: Sys)
    requires SysStep(s, t)
    ensures SysSound(t) && SysEvolves(s, t) && Step(s.world.db, t.world.db)
  {
  }

  lemma {:induction false} AlwaysForward(states: seq<Sys>, actions: seq<Action>, i: nat, j: nat)
    requires Run(states, actions) && i <= j < |states|
    ensures SysEvolves(states[i], states[j])
  {
    hide SysSound, Next, SysEvolves, Step;
    AlwaysSound(states, actions, i);
    if i == j {
      SoundStays(states[i]);
      StepParts(states[i], states[i]);
    } else {
      AlwaysForward(states, actions, i, j - 1);
      AlwaysSound(states, actions, j - 1);
      NextSound(states[j - 1], actions[j - 1]);
      StepParts(states[j - 1], states[j]);
      EvolveTransitive(states[i], states[j - 1], states[j]);
    }
  }

  lemma EvolveTransitive(s: Sys, t: Sys, u: Sys)
    requires SysEvolves(s, t) && SysEvolves(t, u)
    ensures SysEvolves(s, u)
  {
    hide RequestEvolves, CandidateEvolves;
    EvolvesTransitive(s.world.db, t.world.db, u.world.db);
    JournalEvolvesTransitive(s.world.journal, t.world.journal, u.world.journal);
  }

  lemma Parts(s: Sys)
    requires SysSound(s)
    ensures E.Sound(s.world) && A.Sound(s.world.db, s.library) && Coupled(s.world.db) && JournalSound(s.world.journal)
  {
  }

  lemma EvolveParts(s: Sys, t: Sys)
    requires SysEvolves(s, t)
    ensures E.WorldEvolves(s.world, t.world) && Evolves(s.world.db, t.world.db)
    ensures JournalEvolves(s.world.journal, t.world.journal) && A.LibraryEvolves(s.library, t.library)
  {
  }

  // ---------- The executor's promises ----------

  /** The call log never holds one Docket attempt twice, across replays, concurrent
      executors and crashes. */
  lemma CallsAtMostOnce(states: seq<Sys>, actions: seq<Action>, i: nat, m: nat, n: nat)
    requires Run(states, actions) && i < |states|
    requires m < n < |states[i].world.calls|
    ensures states[i].world.calls[m] != states[i].world.calls[n]
  {
    hide SysSound, Next, Run, Coupled, JournalSound, E.Evidenced, E.OutcomesBacked, A.Sound;
    AlwaysSound(states, actions, i);
    Parts(states[i]);
  }

  /** A stored outcome stays what it is in every later state, is what any later execute
      or reconcile returns, and stays backed by the custody rows and the evidence. */
  lemma OutcomeForever(states: seq<Sys>, actions: seq<Action>, i: nat, j: nat, docket: DocketDispatch,
      o: ExecutorOutcome)
    requires Run(states, actions) && i <= j < |states|
    requires var a := docket.attempt; var w := states[i].world;
             a in w.journal && w.journal[a].docket == docket && w.journal[a].outcome == Some(o)
    ensures var w := states[j].world;
            && E.Backed(w.db, w.evidence, docket.work.dispatch, o)
            && ReserveAttempt(w.journal, docket) == Written(w.journal, Some(o))
            && ReconcileAttempt(w.journal, docket) == Some(o)
            && forall p :: FinishAttempt(w.journal, docket, p).Written? ==> p == o
  {
    hide SysSound, Next, SysEvolves, Run, Coupled, A.Sound, A.LibraryEvolves, Evolves, JournalSound, E.Backed,
        E.CalledOnce, E.Evidenced;
    AlwaysSound(states, actions, j);
    AlwaysForward(states, actions, i, j);
    Parts(states[j]);
    EvolveParts(states[i], states[j]);
    StoredOutcomeIsFinal(states[i].world.journal, states[j].world.journal, docket, o);
  }

  /** What a terminal outcome says about its dispatch for the rest of the run. */
  lemma OutcomeMeaning(states: seq<Sys>, actions: seq<Action>, i: nat, j: nat, docket: DocketDispatch,
      o: ExecutorOutcome)
    requires Run(states, actions) && i <= j < |states|
    requires var a := docket.attempt; var w := states[i].world;
             a in w.journal && w.journal[a].docket == docket && w.journal[a].outcome == Some(o)
    ensures var d := docket.work.dispatch;
            var now, later := states[i].world, states[j].world;
            && HasDispatch(now.db, d) && HasDispatch(later.db, d)
            && match o.outcome
               case Success =>
                 exists c ::
                   && c in later.db.candidates && c.dispatch == d
                   && later.db.candidates[c].evidence in later.evidence
                   && later.db.candidates[c].evidence.response == c.response
               case Failure => GetDispatch(later.db, d).status == DispatchStatus.Failed
               case Indeterminate =>
                 && GetDispatch(later.db, d).status
                      in {DispatchStatus.Unknown, DispatchStatus.Candidate, DispatchStatus.Blocked}
                 && |later.db.requests[d.request].dispatches| == |now.db.requests[d.request].dispatches|
               case _ => false
  {
    hide SysSound, Next, SysEvolves, Run, Coupled, A.Sound, A.LibraryEvolves, JournalSound, JournalEvolves,
        E.CalledOnce, E.OutcomesBacked;
    OutcomeForever(states, actions, i, i, docket, o);
    OutcomeForever(states, actions, i, j, docket, o);
    AlwaysSound(states, actions, j);
    AlwaysForward(states, actions, i, j);
    Parts(states[j]);
    EvolveParts(states[i], states[j]);
    var d := docket.work.dispatch;
    assert RequestEvolves(states[i].world.db.requests[d.request], states[j].world.db.requests[d.request]);
    assert o.outcome.Success? ==> o.receipt.candidate in states[j].world.db.candidates;
  }

  /** A later execution of the same sealed work returns the stored outcome, without a
      provider call and without changing any store. */
  lemma LaterExecuteReturns(states: seq<Sys>, actions: seq<Action>, i: nat, j: nat, p: E.Process, o: ExecutorOutcome,
      input: E.Input)
    requires Run(states, actions) && i <= j < |states|
    requires var a := p.docket.attempt; var w := states[i].world;
             a in w.journal && w.journal[a].docket == p.docket && w.journal[a].outcome == Some(o)
    requires p.phase.Validating? && E.Validates(p, states[j].world.db)
    ensures E.Complete(p, states[j].world, input) == (p.(phase := E.Done(o)), states[j].world)
  {
    OutcomeForever(states, actions, i, j, p.docket, o);
    hide Run, E.Validates, E.Backed, FinishAttempt, ReserveAttempt, ReconcileAttempt;
    var w := states[j].world;
    var reserving, done := p.(phase := E.Reserving), p.(phase := E.Done(o));
    assert E.Complete(p, w, input) == E.Complete(reserving, w, input);
    assert E.Complete(reserving, w, input) == E.Complete(done, w, input);
  }

  // ---------- Routing ----------

  /** In every state the dispatches are the frozen routes in order, every one but the
      last has failed, and the worker's "non-failed prior dispatch" guard cannot fire. */
  lemma RoutesInOrder(states: seq<Sys>, actions: seq<Action>, i: nat, r: RequestId)
    requires Run(states, actions) && i < |states| && r in states[i].world.db.requests
    ensures var q := states[i].world.db.requests[r];
            && |q.dispatches| <= 1 + |q.frozen.fallbacks|
            && (|q.dispatches| > 0 ==> q.dispatches[0].route == q.frozen.original)
            && (forall k | 0 < k < |q.dispatches| :: q.dispatches[k].route == q.frozen.fallbacks[k - 1])
            && forall k | 0 <= k < |q.dispatches| ::
                 q.dispatches[k].route == RouteAt(q.frozen, k)
                     && (k + 1 < |q.dispatches| ==> q.dispatches[k].status == DispatchStatus.Failed)
  {
    hide SysSound, Next, Run, Coupled, A.Sound, E.Sound;
    AlwaysSound(states, actions, i);
    Parts(states[i]);
    StatusDetermined(states[i].world.db, r);
  }

  /** Once a dispatch is unknown, no further dispatch is ever reserved for its request. */
  lemma UnknownIsNeverRerouted(states: seq<Sys>, actions: seq<Action>, i: nat, j: nat, d: DispatchId)
    requires Run(states, actions) && i <= j < |states|
    requires HasDispatch(states[i].world.db, d) && GetDispatch(states[i].world.db, d).status == DispatchStatus.Unknown
    ensures HasDispatch(states[j].world.db, d)
    ensures GetDispatch(states[j].world.db, d).status
              in {DispatchStatus.Unknown, DispatchStatus.Candidate, DispatchStatus.Blocked}
    ensures |states[j].world.db.requests[d.request].dispatches| == |states[i].world.db.requests[d.request].dispatches|
  {
    hide SysSound, Next, SysEvolves, Run, JournalEvolves, A.LibraryEvolves;
    AlwaysForward(states, actions, i, j);
    EvolveParts(states[i], states[j]);
    assert RequestEvolves(states[i].world.db.requests[d.request], states[j].world.db.requests[d.request]);
  }

  /** The number of dispatches of a request does not change in this step. */
  ghost predicate SameCounts(a: Db, b: Db) {
    forall r | r in a.requests && r in b.requests :: |b.requests[r].dispatches| == |a.requests[r].dispatches|
  }

  lemma ExecutorReservesNothing(p: E.Process, w: E.World, i: E.Input)
    ensures SameCounts(w.db, E.Advance(p, w, i).1.db)
  {
    hide Evolves, ReserveAttempt, BeginAttempt, FinishAttempt, Mirror;
  }

  lemma CallerReservesNothing(k: A.Caller, db: Db, lib: A.Library, i: A.Input)
    ensures SameCounts(db, A.Advance(k, db, lib, i).1)
  {
    hide A.Judge, InsertCandidate;
  }

  lemma OnlyReserveReserves(s: Sys, a: Action, r: RequestId)
    requires r in s.world.db.requests && r in Next(s, a).world.db.requests
    requires |Next(s, a).world.db.requests[r].dispatches| != |s.world.db.requests[r].dispatches|
    ensures a.ReserveDispatch? && a.request == r
  {
    hide A.Advance, E.Advance, BoundTo, A.Observed;
    match a
    case StepExecutor(pid, i) =>
      if pid in s.executors { ExecutorReservesNothing(s.executors[pid], s.world, i); }
    case StepCaller(pid, i) =>
      if pid in s.callers { CallerReservesNothing(s.callers[pid], s.world.db, s.library, i); }
    case _ =>
  }

  /** A dispatch is reserved only by the reservation step, for the next frozen route,
      with dispatching enabled for the project and all earlier dispatches failed. */
  lemma ReservedOnlyWhenAuthorized(s: Sys, a: Action, r: RequestId)
    requires r in s.world.db.requests && r in Next(s, a).world.db.requests
    requires |Next(s, a).world.db.requests[r].dispatches| != |s.world.db.requests[r].dispatches|
    requires SysSound(s)
    ensures var q, p := s.world.db.requests[r], Next(s, a).world.db.requests[r];
            var n := |q.dispatches|;
            && a.ReserveDispatch? && a.request == r
            && q.frozen.projectId in s.world.db.enabled
            && |p.dispatches| == n + 1 && p.dispatches[..n] == q.dispatches
            && n < RouteCount(q.frozen) && p.dispatches[n].route == RouteAt(q.frozen, n)
            && (a.fallback <==> n > 0)
            && (forall k | 0 <= k < n :: q.dispatches[k].status == DispatchStatus.Failed)
  {
    hide SysSound, Coupled, A.Sound, E.Sound, JournalSound, A.Advance, E.Advance, BoundTo, A.Observed;
    Parts(s);
    OnlyReserveReserves(s, a, r);
    StatusDetermined(s.world.db, r);
  }

  /** A client request id names one request of its project, over the whole run. */
  lemma OneRequestPerClientEver(states: seq<Sys>, actions: seq<Action>, i: nat, j: nat, r: RequestId, q: RequestId)
    requires Run(states, actions) && i <= j < |states|
    requires r in states[i].world.db.requests && q in states[j].world.db.requests
    requires SameClient(states[i].world.db.requests[r].frozen, states[j].world.db.requests[q].frozen)
    ensures r == q && states[j].world.db.requests[r].frozen == states[i].world.db.requests[r].frozen
  {
    hide SysSound, Next, SysEvolves, Run, JournalEvolves, A.LibraryEvolves, Coupled, A.Sound, E.Sound;
    AlwaysSound(states, actions, j);
    AlwaysForward(states, actions, i, j);
    Parts(states[j]);
    EvolveParts(states[i], states[j]);
    assert RequestEvolves(states[i].world.db.requests[r], states[j].world.db.requests[r]);
    OneRequestPerClient(states[j].world.db, r, q);
  }

  /** A create that is sent again, at any later time, is answered with the request it made
      and changes nothing; other work under the same client id is refused. */
  lemma CreateReplaysForever(states: seq<Sys>, actions: seq<Action>, i: nat, j: nat, r: RequestId, f: Frozen,
      id: RequestId)
    requires Run(states, actions) && i <= j < |states|
    requires r in states[i].world.db.requests && SameClient(states[i].world.db.requests[r].frozen, f)
    requires id !in states[j].world.db.requests
    ensures var db := states[j].world.db;
            Create(db, f, id) == if states[i].world.db.requests[r].frozen == f then Commit(db, r) else Abort(Conflict)
  {
    hide SysSound, Next, SysEvolves, Run, JournalEvolves, A.LibraryEvolves, Coupled, A.Sound, E.Sound, Create;
    AlwaysSound(states, actions, j);
    AlwaysForward(states, actions, i, j);
    Parts(states[j]);
    EvolveParts(states[i], states[j]);
    assert RequestEvolves(states[i].world.db.requests[r], states[j].world.db.requests[r]);
    CreateAnswers(states[j].world.db, f, id);
    assert Known(states[j].world.db, f, r);
  }

  // ---------- Termination of custody ----------

  /** How many steps change the status of request `r` or of one of its dispatches. */
  ghost function StatusChanges(states: seq<Sys>, r: RequestId): nat {
    if |states| < 2 then 0
    else
      var last := |states| - 1;
      var a, b := states[last - 1].world.db, states[last].world.db;
      var changed := r in a.requests && r in b.requests && Changes(a.requests[r], b.requests[r]);
      StatusChanges(states[..last], r) + (if changed then 1 else 0)
  }

  /** Every change of a request uses up potential: with k fallbacks a request changes
      status at most 3k + 6 times, in any run. */
  lemma {:induction false} CustodyTerminates(states: seq<Sys>, actions: seq<Action>, r: RequestId)
    requires Run(states, actions) && r in states[|states| - 1].world.db.requests
    ensures var q := states[|states| - 1].world.db.requests[r];
            && StatusChanges(states, r) + Potential(q) <= 3 * |q.frozen.fallbacks| + 6
            && Potential(q) >= 0
  {
    hide SysSound, Next, SysEvolves, Coupled, Evolves;
    var last := |states| - 1;
    if last > 0 {
      var before := states[..last];
      AlwaysSound(states, actions, last - 1);
      NextSound(states[last - 1], actions[last - 1]);
      StepParts(states[last - 1], states[last]);
      assert before[|before| - 1] == states[last - 1];
      if r in states[last - 1].world.db.requests {
        CustodyTerminates(before, actions[..last - 1], r);
      } else {
        assert StatusChanges(before, r) == 0 by { NotYetThere(before, actions[..last - 1], r); }
        NewRequest(states[last - 1], actions[last - 1], r);
      }
    }
  }

  /** Requests are never deleted. */
  lemma {:induction false} NotYetThere(states: seq<Sys>, actions: seq<Action>, r: RequestId)
    requires Run(states, actions) && r !in states[|states| - 1].world.db.requests
    ensures StatusChanges(states, r) == 0
  {
    hide SysSound, Next, SysEvolves;
    var last := |states| - 1;
    if last > 0 {
      var before := states[..last];
      assert before[|before| - 1] == states[last - 1];
      AlwaysForward(states, actions, last - 1, last);
      EvolveParts(states[last - 1], states[last]);
      NotYetThere(before, actions[..last - 1], r);
    }
  }

  lemma ExecutorCreatesNothing(p: E.Process, w: E.World, i: E.Input)
    ensures E.Advance(p, w, i).1.db.requests.Keys == w.db.requests.Keys
  {
    hide ReserveAttempt, BeginAttempt, FinishAttempt;
  }

  lemma CallerCreatesNothing(k: A.Caller, db: Db, lib: A.Library, i: A.Input)
    ensures A.Advance(k, db, lib, i).1.requests.Keys == db.requests.Keys
  {
    hide A.Judge, InsertCandidate;
  }

  lemma NewRequest(s: Sys, a: Action, r: RequestId)
    requires r !in s.world.db.requests && r in Next(s, a).world.db.requests
    ensures var q := Next(s, a).world.db.requests[r]; q == LogicalRequest(q.frozen, Queued, None, None, [])
  {
    hide A.Advance, E.Advance, BoundTo;
    match a
    case StepExecutor(pid, i) =>
      if pid in s.executors { ExecutorCreatesNothing(s.executors[pid], s.world, i); }
    case StepCaller(pid, i) =>
      if pid in s.callers { CallerCreatesNothing(s.callers[pid], s.world.db, s.library, i); }
    case _ =>
  }

  // ---------- Exactly-once acceptance ----------

  lemma AcceptedInside(db: Db, lib: A.Library, c: CandidateId)
    requires A.Sound(db, lib) && c in db.candidates && db.candidates[c].acceptedMessageId.Some?
    ensures c.dispatch.request in db.requests && A.Target(c, db) in lib.history
    ensures A.Inside(lib.history[A.Target(c, db)], c, db.candidates[c].acceptedMessageId.value)
  {
    assert A.AcceptanceSound(db, lib, c);
  }

  lemma InsideMatches(lib: A.Library, s: SessionId, c: CandidateId, m: MessageId)
    requires A.SessionsSound(lib) && s in lib.sessions && s in lib.history && A.Inside(lib.history[s], c, m)
    ensures Matches(lib.sessions[s].messages, c) == [m]
  {
    LatestIsCurrent(lib, s);
    var i :| 0 <= i < |lib.sessions[s].messages| && lib.sessions[s].messages[i].candidate == Some(c)
        && lib.sessions[s].messages[i].id == m;
    MatchesOne(lib.sessions[s].messages, c, i);
  }

  /** Acceptance is permanent and names the one message that carries the candidate:
      the request stays accepted with this candidate, the message id never changes, and
      while the conversation exists it holds that message exactly once. */
  lemma AcceptedForever(states: seq<Sys>, actions: seq<Action>, i: nat, j: nat, c: CandidateId, m: MessageId)
    requires Run(states, actions) && i <= j < |states|
    requires c in states[i].world.db.candidates && states[i].world.db.candidates[c].acceptedMessageId == Some(m)
    ensures var db, lib := states[j].world.db, states[j].library;
            && c in db.candidates && db.candidates[c].acceptedMessageId == Some(m)
            && c.dispatch.request in db.requests
            && db.requests[c.dispatch.request].status == LogicalStatus.Accepted
            && db.requests[c.dispatch.request].acceptedCandidateId == Some(c)
            && (A.Target(c, db) in lib.sessions ==> Matches(lib.sessions[A.Target(c, db)].messages, c) == [m])
  {
    hide SysSound, Next, SysEvolves, Run, Coupled, A.Sound, E.Sound, A.LibraryEvolves, JournalEvolves, JournalSound,
        A.Inside, RequestEvolves;
    AlwaysSound(states, actions, j);
    AlwaysForward(states, actions, i, j);
    Parts(states[j]);
    EvolveParts(states[i], states[j]);
    var db, lib := states[j].world.db, states[j].library;
    assert CandidateEvolves(states[i].world.db.candidates[c], db.candidates[c]);
    CandidateHome(db, c);
    StatusDetermined(db, c.dispatch.request);
    AcceptedInside(db, lib, c);
    SessionsOf(db, lib);
    if A.Target(c, db) in lib.sessions { InsideMatches(lib, A.Target(c, db), c, m); }
  }

  /** In every state of every run no conversation holds a candidate twice. */
  lemma AtMostOneInsertion(states: seq<Sys>, actions: seq<Action>, i: nat, s: SessionId, c: CandidateId)
    requires Run(states, actions) && i < |states| && s in states[i].library.sessions
    ensures |Matches(states[i].library.sessions[s].messages, c)| <= 1
  {
    hide SysSound, Next, Run, Coupled, A.Sound, E.Sound, A.HistorySound;
    AlwaysSound(states, actions, i);
    Parts(states[i]);
    SoundGives(states[i].world.db, states[i].library, s);
    var messages := states[i].library.sessions[s].messages;
    MatchesEmpty(messages, c);
    if Carries(messages, c) {
      var k :| 0 <= k < |messages| && messages[k].candidate == Some(c);
      MatchesOne(messages, c, k);
    }
  }

  // ---------- Linearized commits ----------

  lemma CurrentOf(lib: A.Library, s: SessionId)
    requires A.SessionsSound(lib) && s in lib.sessions
    ensures s in lib.history && |lib.history[s]| == lib.sessions[s].revision + 1
    ensures lib.history[s][lib.sessions[s].revision] == lib.sessions[s].messages
    ensures forall v, w | 0 <= v <= w < |lib.history[s]| :: lib.history[s][v] <= lib.history[s][w]
  {
  }

  /** While a conversation exists its revision never decreases, its messages are only
      extended, and an equal revision means an equal message list. */
  lemma RevisionsLinear(states: seq<Sys>, actions: seq<Action>, i: nat, j: nat, s: SessionId)
    requires Run(states, actions) && i <= j < |states|
    requires s in states[i].library.sessions && s in states[j].library.sessions
    ensures var a, b := states[i].library.sessions[s], states[j].library.sessions[s];
            && a.revision <= b.revision
            && a.messages <= b.messages
            && (a.revision == b.revision ==> a.messages == b.messages)
  {
    hide SysSound, Next, SysEvolves, Run, Coupled, A.Sound, E.Sound, E.WorldEvolves, JournalSound, A.SessionsSound;
    AlwaysSound(states, actions, i);
    AlwaysSound(states, actions, j);
    AlwaysForward(states, actions, i, j);
    Parts(states[i]);
    Parts(states[j]);
    SessionsOf(states[i].world.db, states[i].library);
    SessionsOf(states[j].world.db, states[j].library);
    EvolveParts(states[i], states[j]);
    CurrentOf(states[i].library, s);
    CurrentOf(states[j].library, s);
    var h, g := states[i].library.history[s], states[j].library.history[s];
    assert h <= g;
    assert g[states[i].library.sessions[s].revision] == states[i].library.sessions[s].messages;
  }

  lemma PlacedOf(db: Db, lib: A.Library, s: SessionId, k: nat, c: CandidateId)
    requires A.Sound(db, lib) && s in lib.sessions
    requires k < |lib.sessions[s].messages| && lib.sessions[s].messages[k].candidate == Some(c)
    ensures s in lib.history && c in db.candidates && c.dispatch.request in db.requests
    ensures A.Target(c, db) == s ==>
              var f := db.requests[c.dispatch.request].frozen;
              A.Placed(lib.history[s], f.expectedRevision, k) && A.FrozenTurn(f, c, lib.sessions[s].messages, k)
  {
    LatestIsCurrent(lib, s);
    assert A.InsertionsSound(db, s, lib.history[s]);
    assert A.InsertionSound(db, s, lib.history[s], k, c);
  }

  /** An inserted turn extends exactly the history its request was frozen against: the
      messages before it are those the conversation had, in whatever earlier or later
      state `i`, at the expected revision. */
  lemma InsertedAfterFrozenHistory(states: seq<Sys>, actions: seq<Action>, i: nat, j: nat, s: SessionId, k: nat,
      c: CandidateId)
    requires Run(states, actions) && i <= j < |states|
    requires s in states[i].library.sessions && s in states[j].library.sessions
    requires k < |states[j].library.sessions[s].messages|
    requires states[j].library.sessions[s].messages[k].candidate == Some(c)
    requires c.dispatch.request in states[j].world.db.requests && A.Target(c, states[j].world.db) == s
    requires states[i].library.sessions[s].revision
             == states[j].world.db.requests[c.dispatch.request].frozen.expectedRevision
    ensures k == |states[i].library.sessions[s].messages| + 1
    ensures states[j].library.sessions[s].messages[..k - 1] == states[i].library.sessions[s].messages
    ensures states[j].library.sessions[s].revision > states[i].library.sessions[s].revision
  {
    hide SysSound, Next, SysEvolves, Run, Coupled, A.Sound, E.Sound, E.WorldEvolves, JournalSound, A.SessionsSound;
    AlwaysSound(states, actions, i);
    AlwaysSound(states, actions, j);
    AlwaysForward(states, actions, i, j);
    Parts(states[i]);
    Parts(states[j]);
    SessionsOf(states[i].world.db, states[i].library);
    SessionsOf(states[j].world.db, states[j].library);
    EvolveParts(states[i], states[j]);
    CurrentOf(states[i].library, s);
    CurrentOf(states[j].library, s);
    PlacedOf(states[j].world.db, states[j].library, s, k, c);
    var h, g := states[i].library.history[s], states[j].library.history[s];
    assert h <= g;
    assert g[states[i].library.sessions[s].revision] == states[i].library.sessions[s].messages;
  }

  /** An inserted turn is the writer's: right before the response stands a user message with
      the pending prompt, whenever the request froze what admission composed for it. The
      response is the authored content that the candidate names. */
  lemma InsertedTurnIsWriters(states: seq<Sys>, actions: seq<Action>, i: nat, s: SessionId, k: nat, c: CandidateId,
      history: seq<Message>, fixed: seq<Prompt>, pending: string, p: Policy, counter: Counter,
      summary: Option<Summary>)
    requires Run(states, actions) && i < |states| && s in states[i].library.sessions
    requires k < |states[i].library.sessions[s].messages|
    requires states[i].library.sessions[s].messages[k].candidate == Some(c)
    requires c.dispatch.request in states[i].world.db.requests && A.Target(c, states[i].world.db) == s
    requires var outcome := Admit(history, fixed, pending, p, counter, summary);
             outcome.Ready? && outcome.messages == states[i].world.db.requests[c.dispatch.request].frozen.prompts
    ensures var messages := states[i].library.sessions[s].messages;
            && k > 0
            && messages[k - 1].role.User? && messages[k - 1].content == pending
            && messages[k].role.Assistant? && c.response == Authored(messages[k].content)
  {
    hide SysSound, Next, Run, Coupled, A.Sound, E.Sound, JournalSound, Admit;
    AlwaysSound(states, actions, i);
    Parts(states[i]);
    PlacedOf(states[i].world.db, states[i].library, s, k, c);
    ReadyEndsWithPrompt(history, fixed, pending, p, counter, summary);
  }

  /** Of all requests frozen at one conversation and revision, at most one is inserted. */
  lemma OneInsertionPerRevision(states: seq<Sys>, actions: seq<Action>, i: nat, s: SessionId, c: CandidateId,
      e: CandidateId)
    requires Run(states, actions) && i < |states| && s in states[i].library.sessions
    requires Carries(states[i].library.sessions[s].messages, c) && Carries(states[i].library.sessions[s].messages, e)
    requires var db := states[i].world.db;
             && c.dispatch.request in db.requests && e.dispatch.request in db.requests
             && A.Target(c, db) == s && A.Target(e, db) == s
             && db.requests[c.dispatch.request].frozen.expectedRevision
                == db.requests[e.dispatch.request].frozen.expectedRevision
    ensures c == e
  {
    hide SysSound, Next, Run, Coupled, A.Sound, E.Sound, JournalSound;
    AlwaysSound(states, actions, i);
    Parts(states[i]);
    var messages := states[i].library.sessions[s].messages;
    var k :| 0 <= k < |messages| && messages[k].candidate == Some(c);
    var l :| 0 <= l < |messages| && messages[l].candidate == Some(e);
    PlacedOf(states[i].world.db, states[i].library, s, k, c);
    PlacedOf(states[i].world.db, states[i].library, s, l, e);
  }
}
