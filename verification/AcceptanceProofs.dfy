/** Exactly-once acceptance: every step of a caller, and every step of anybody else,
    keeps the conversations, the custody records and the revisions in agreement. */
module AcceptanceProofs {
  import opened Basics
  import opened Custody
  import opened CustodyInvariants
  import opened Sessions
  import opened Acceptance

  // ---------- Interference through the database ----------

  /** What every transaction other than an acceptance does to the acceptance marks. */
  ghost predicate MarksKept(a: Db, b: Db) {
    forall c | c in b.candidates && b.candidates[c].acceptedMessageId.Some? ::
      c in a.candidates && a.candidates[c].acceptedMessageId == b.candidates[c].acceptedMessageId
  }

  ghost predicate NewRequestsObserved(a: Db, b: Db, lib: Library) {
    forall r | r in b.requests && r !in a.requests :: Observed(b.requests[r].frozen, lib)
  }

  lemma SameFrozen(a: Db, b: Db, r: RequestId)
    requires Evolves(a, b) && r in a.requests
    ensures r in b.requests && b.requests[r].frozen == a.requests[r].frozen
  {
    assert RequestEvolves(a.requests[r], b.requests[r]);
  }

  lemma SameRow(a: Db, b: Db, c: CandidateId)
    requires Evolves(a, b) && c in a.candidates
    ensures c in b.candidates
    ensures HasDispatch(a, c.dispatch) ==> HasDispatch(b, c.dispatch) && Target(c, b) == Target(c, a)
  {
    if c.dispatch.request in a.requests {
      assert RequestEvolves(a.requests[c.dispatch.request], b.requests[c.dispatch.request]);
    }
  }

  lemma DatabaseKeepsSound(a: Db, b: Db, lib: Library)
    requires Sound(a, lib) && Coupled(a) && Evolves(a, b) && MarksKept(a, b) && NewRequestsObserved(a, b, lib)
    ensures Sound(b, lib)
  {
    DatabaseKeepsRows(a, b, lib);
    hide Coupled, Evolves, SessionsSound, InsertionsSound, Inside;
    forall c | c in b.candidates && b.candidates[c].acceptedMessageId.Some? ensures AcceptanceSound(b, lib, c) {
      assert AcceptanceSound(a, lib, c);
      SameFrozen(a, b, c.dispatch.request);
    }
  }

  lemma DatabaseKeepsRows(a: Db, b: Db, lib: Library)
    requires Sound(a, lib) && Evolves(a, b) && NewRequestsObserved(a, b, lib)
    ensures MessagesSound(b, lib) && RequestsObserved(b, lib)
  {
    hide Evolves, SessionsSound, Placed, AcceptancesSound;
    forall r | r in b.requests ensures Observed(b.requests[r].frozen, lib) {
      if r in a.requests { SameFrozen(a, b, r); }
    }
    forall s | s in lib.history && lib.history[s] != [] ensures InsertionsSound(b, s, lib.history[s]) {
      assert InsertionsSound(a, s, lib.history[s]);
      InsertionsCarryOver(a, b, s, lib.history[s]);
    }
  }

  lemma InsertionsCarryOver(a: Db, b: Db, s: SessionId, h: seq<seq<Message>>)
    requires h != [] && InsertionsSound(a, s, h) && Evolves(a, b)
    ensures InsertionsSound(b, s, h)
  {
    hide Evolves, Placed, FrozenTurn;
    forall i | 0 <= i < |Latest(h)| && Latest(h)[i].candidate.Some?
      ensures InsertionSound(b, s, h, i, Latest(h)[i].candidate.value)
    {
      var c := Latest(h)[i].candidate.value;
      assert InsertionSound(a, s, h, i, c);
      SameRow(a, b, c);
      SameFrozen(a, b, c.dispatch.request);
    }
  }

  lemma CallerStable(k: Caller, a: Db, b: Db, lib: Library, after: Library)
    requires CallerSound(k, a, lib) && Evolves(a, b) && LibraryEvolves(lib, after)
    requires SessionsSound(lib) && SessionsSound(after) && NothingCarried(lib, after)
    ensures CallerSound(k, b, after)
  {
    hide Evolves, Inside, Current;
    if HoldsLock(k) {
      SameRow(a, b, k.candidate);
      SameFrozen(a, b, k.candidate.dispatch.request);
      var s := Target(k.candidate, a);
      assert HistorySound(after.history[s]);
      if k.phase.Recording? { InsideGrows(lib.history[s], after.history[s], k.candidate, k.phase.verdict.id); }
    }
  }

  /** Nobody but an acceptance adds a candidate to an existing conversation. */
  ghost predicate NothingCarried(a: Library, b: Library) {
    forall s, c | s in a.sessions && s in b.sessions ::
      Carries(b.sessions[s].messages, c) ==> Carries(a.sessions[s].messages, c)
  }

  lemma InsideGrows(g: seq<seq<Message>>, h: seq<seq<Message>>, c: CandidateId, m: MessageId)
    requires Inside(g, c, m) && g <= h && (forall v, w | 0 <= v <= w < |h| :: h[v] <= h[w])
    ensures Inside(h, c, m)
  {
    var i :| 0 <= i < |Latest(g)| && Latest(g)[i].candidate == Some(c) && Latest(g)[i].id == m;
    assert h[|g| - 1] == Latest(g);
    assert h[|g| - 1] <= Latest(h);
    assert Latest(h)[i] == Latest(g)[i];
  }

  // ---------- Interference through the conversations ----------

  /** One committed write: the next revision of a conversation. */
  function Push(lib: Library, s: SessionId, session: ChatSession): Library {
    lib.(sessions := lib.sessions[s := session],
         history := lib.history[s := (if s in lib.history then lib.history[s] else []) + [session.messages]])
  }

  lemma PushSessions(lib: Library, s: SessionId, session: ChatSession)
    requires SessionsSound(lib) && s in lib.sessions
    requires session.revision == lib.sessions[s].revision + 1
    requires lib.sessions[s].messages <= session.messages && CandidatesDistinct(session.messages)
    ensures SessionsSound(Push(lib, s, session)) && LibraryEvolves(lib, Push(lib, s, session))
  {
    hide CandidatesDistinct;
    var h := lib.history[s];
    var h' := h + [session.messages];
    assert Current(lib.sessions[s], h) && HistorySound(h);
    forall v, w | 0 <= v <= w < |h'| ensures h'[v] <= h'[w] {
      assert w < |h| ==> h[v] <= h[w];
      assert v < |h| ==> h[v] <= Latest(h);
    }
    assert Latest(h') == session.messages;
    assert HistorySound(h');
    forall t | t in Push(lib, s, session).sessions
      ensures Current(Push(lib, s, session).sessions[t], Push(lib, s, session).history[t])
    {
      if t != s { assert Current(lib.sessions[t], lib.history[t]); }
    }
  }

  /** A revision pushed on a conversation keeps every earlier placement. */
  lemma PushInsertions(db: Db, lib: Library, s: SessionId, session: ChatSession)
    requires MessagesSound(db, lib) && RequestsObserved(db, lib) && AcceptancesSound(db, lib)
    requires SessionsSound(lib) && SessionsSound(Push(lib, s, session)) && LibraryEvolves(lib, Push(lib, s, session))
    requires s in lib.history && lib.history[s] != [] && Latest(lib.history[s]) <= session.messages
    requires forall i | |Latest(lib.history[s])| <= i < |session.messages| && session.messages[i].candidate.Some? ::
               InsertionSound(db, s, lib.history[s] + [session.messages], i, session.messages[i].candidate.value)
    ensures Sound(db, Push(lib, s, session))
  {
    hide SessionsSound, CandidatesDistinct, FrozenTurn;
    var h := lib.history[s];
    var h' := h + [session.messages];
    forall i | 0 <= i < |Latest(h')| && Latest(h')[i].candidate.Some?
      ensures InsertionSound(db, s, h', i, Latest(h')[i].candidate.value)
    {
      if i < |Latest(h)| {
        assert Latest(h)[i] == session.messages[i];
        var c := Latest(h)[i].candidate.value;
        assert InsertionSound(db, s, h, i, c);
        assert Latest(h') == session.messages;
        if Target(c, db) == s { TurnGrows(db.requests[c.dispatch.request].frozen, c, Latest(h), session.messages, i); }
      }
    }
    assert InsertionsSound(db, s, h');
    ObservedGrows(db, lib, Push(lib, s, session));
    AcceptancesGrow(db, lib, Push(lib, s, session));
  }

  lemma TurnGrows(f: Frozen, c: CandidateId, before: seq<Message>, after: seq<Message>, i: nat)
    requires FrozenTurn(f, c, before, i) && before <= after
    ensures FrozenTurn(f, c, after, i)
  {
    hide PendingUser;
    assert after[i - 1] == before[i - 1] && after[i] == before[i];
  }

  lemma LatestIsCurrent(lib: Library, s: SessionId)
    requires SessionsSound(lib) && s in lib.sessions
    ensures s in lib.history && lib.history[s] != []
    ensures |lib.history[s]| == lib.sessions[s].revision + 1
    ensures Latest(lib.history[s]) == lib.sessions[s].messages && CandidatesDistinct(lib.sessions[s].messages)
  {
    assert Current(lib.sessions[s], lib.history[s]) && HistorySound(lib.history[s]);
  }

  lemma ObservedGrows(db: Db, a: Library, b: Library)
    requires RequestsObserved(db, a) && LibraryEvolves(a, b)
    ensures RequestsObserved(db, b)
  {
    forall r | r in db.requests ensures Observed(db.requests[r].frozen, b) {
      assert Observed(db.requests[r].frozen, a);
    }
  }

  lemma AcceptancesGrow(db: Db, a: Library, b: Library)
    requires AcceptancesSound(db, a) && LibraryEvolves(a, b) && SessionsSound(b)
    ensures AcceptancesSound(db, b)
  {
    hide Inside, CandidatesDistinct, Current;
    forall c | c in db.candidates && db.candidates[c].acceptedMessageId.Some? ensures AcceptanceSound(db, b, c) {
      assert AcceptanceSound(db, a, c);
      var s := Target(c, db);
      assert HistorySound(b.history[s]);
      InsideGrows(a.history[s], b.history[s], c, db.candidates[c].acceptedMessageId.value);
    }
  }

  lemma DistinctAppend(old_: seq<Message>, more: seq<Message>)
    requires CandidatesDistinct(old_) && (forall i | 0 <= i < |more| :: more[i].candidate.None?)
    ensures CandidatesDistinct(old_ + more)
    ensures forall c :: Carries(old_ + more, c) ==> Carries(old_, c)
  {
    forall c | Carries(old_ + more, c) ensures Carries(old_, c) {
      var i :| 0 <= i < |old_ + more| && (old_ + more)[i].candidate == Some(c);
      assert old_[i].candidate == Some(c);
    }
  }

  /** A writer that is not an acceptance: append plain messages, or rename. */
  lemma WriteKeepsSound(db: Db, lib: Library, s: SessionId, session: ChatSession, more: seq<Message>)
    requires Sound(db, lib) && s in lib.sessions
    requires session.revision == lib.sessions[s].revision + 1
    requires session.messages == lib.sessions[s].messages + more
    requires forall i | 0 <= i < |more| :: more[i].candidate.None?
    ensures Sound(db, Push(lib, s, session))
    ensures LibraryEvolves(lib, Push(lib, s, session)) && NothingCarried(lib, Push(lib, s, session))
  {
    hide MessagesSound, SessionsSound, RequestsObserved, AcceptancesSound, InsertionSound, LibraryEvolves,
        CandidatesDistinct, Carries;
    LatestIsCurrent(lib, s);
    DistinctAppend(lib.sessions[s].messages, more);
    PushSessions(lib, s, session);
    assert forall i | |lib.sessions[s].messages| <= i < |session.messages| ::
        session.messages[i] == more[i - |lib.sessions[s].messages|];
    PushInsertions(db, lib, s, session);
  }

  /** A new conversation, empty or forked from a prefix of another one. */
  function Started(lib: Library, s: SessionId, session: ChatSession): Library {
    lib.(sessions := lib.sessions[s := session], history := lib.history[s := [session.messages]])
  }

  lemma StartKeepsSound(db: Db, lib: Library, s: SessionId, session: ChatSession, from: SessionId, k: nat)
    requires Sound(db, lib) && s !in lib.history && session.revision == 0
    requires session.messages == [] || (from in lib.sessions && k <= |lib.sessions[from].messages|
             && session.messages == lib.sessions[from].messages[..k])
    ensures Sound(db, Started(lib, s, session))
    ensures LibraryEvolves(lib, Started(lib, s, session)) && NothingCarried(lib, Started(lib, s, session))
  {
    var b := Started(lib, s, session);
    var h := [session.messages];
    assert s !in lib.sessions by { assert SessionsSound(lib); }
    StartedSessions(lib, s, session, from, k);
    assert InsertionsSound(db, s, h) by { StartedInsertions(db, lib, s, session, from, k); }
    hide InsertionsSound, InsertionSound, Current, HistorySound, Inside;
    ObservedGrows(db, lib, b);
    AcceptancesGrow(db, lib, b);
  }

  lemma StartedSessions(lib: Library, s: SessionId, session: ChatSession, from: SessionId, k: nat)
    requires SessionsSound(lib) && s !in lib.history && session.revision == 0
    requires session.messages == [] || (from in lib.sessions && k <= |lib.sessions[from].messages|
             && session.messages == lib.sessions[from].messages[..k])
    ensures SessionsSound(Started(lib, s, session)) && LibraryEvolves(lib, Started(lib, s, session))
  {
    if session.messages != [] {
      assert Current(lib.sessions[from], lib.history[from]) && HistorySound(lib.history[from]);
    }
    assert HistorySound([session.messages]);
  }

  lemma StartedInsertions(db: Db, lib: Library, s: SessionId, session: ChatSession, from: SessionId, k: nat)
    requires Sound(db, lib) && s !in lib.history
    requires session.messages == [] || (from in lib.sessions && k <= |lib.sessions[from].messages|
             && session.messages == lib.sessions[from].messages[..k])
    ensures InsertionsSound(db, s, [session.messages])
  {
    hide AcceptancesSound, CandidatesDistinct, Placed, FrozenTurn;
    var h := [session.messages];
    forall i | 0 <= i < |Latest(h)| && Latest(h)[i].candidate.Some?
      ensures InsertionSound(db, s, h, i, Latest(h)[i].candidate.value)
    {
      var g := lib.history[from];
      assert Current(lib.sessions[from], g) && InsertionsSound(db, from, g);
      assert InsertionSound(db, from, g, i, Latest(g)[i].candidate.value);
      // Its request observed a conversation that already existed.
      assert Observed(db.requests[Latest(h)[i].candidate.value.dispatch.request].frozen, lib);
    }
  }

  lemma DeleteKeepsSound(db: Db, lib: Library, s: SessionId)
    requires Sound(db, lib)
    ensures var b := lib.(sessions := lib.sessions - {s});
            Sound(db, b) && LibraryEvolves(lib, b) && NothingCarried(lib, b)
  {
    hide InsertionsSound, Current, HistorySound, Inside;
  }

  lemma EditKeepsSound(db: Db, lib: Library, canon: Name, guidance: Name)
    requires Sound(db, lib)
    ensures var b := lib.(canon := canon, guidance := guidance);
            Sound(db, b) && LibraryEvolves(lib, b) && NothingCarried(lib, b)
  {
    hide InsertionsSound, Current, HistorySound, Inside;
  }

  // ---------- The steps of a caller ----------

  ghost predicate CallerStep(k: Caller, db: Db, lib: Library, l: Caller, db': Db, lib': Library) {
    && l.candidate == k.candidate && l.project == k.project
    && Step(db, db') && db'.candidates.Keys == db.candidates.Keys && db'.requests.Keys == db.requests.Keys
    && (forall c | c in db.candidates :: db'.candidates[c].evidence == db.candidates[c].evidence)
    && Sound(db', lib') && LibraryEvolves(lib, lib')
    && CallerSound(l, db', lib')
  }

  /** Steps that only read. */
  lemma ReadStep(k: Caller, db: Db, lib: Library, i: Input)
    requires Coupled(db) && Sound(db, lib) && CallerSound(k, db, lib)
    requires k.phase.Opening? || k.phase.Waiting? || k.phase.Judging? || k.phase.Finished? || k.phase.Errored?
    ensures var (l, db', lib') := Advance(k, db, lib, i); CallerStep(k, db, lib, l, db', lib')
  {
    hide Coupled, Step, InsertionsSound, AcceptanceSound, Current, HistorySound, Carries;
    StayIsStep(db);
    if k.candidate in db.candidates && HasDispatch(db, k.candidate.dispatch) {
      assert Observed(db.requests[k.candidate.dispatch.request].frozen, lib);
    }
  }

  /** The lookup that must precede every check: a prior insertion decides. */
  lemma LookingStep(k: Caller, db: Db, lib: Library, i: Input)
    requires Coupled(db) && Sound(db, lib) && CallerSound(k, db, lib) && k.phase.Looking?
    ensures var (l, db', lib') := Advance(k, db, lib, i); CallerStep(k, db, lib, l, db', lib') && !l.phase.Errored?
  {
    hide Coupled, Step, InsertionsSound, AcceptanceSound, CandidatesDistinct, Current, HistorySound;
    StayIsStep(db);
    var s := Target(k.candidate, db);
    if s in lib.sessions {
      LatestIsCurrent(lib, s);
      var messages := lib.sessions[s].messages;
      MatchesEmpty(messages, k.candidate);
      if Carries(messages, k.candidate) {
        var j :| 0 <= j < |messages| && messages[j].candidate == Some(k.candidate);
        MatchesOne(messages, k.candidate, j);
        assert Inside(lib.history[s], k.candidate, messages[j].id);
      }
    }
  }

  lemma DistinctTurn(old_: seq<Message>, turn: seq<Message>, c: CandidateId)
    requires CandidatesDistinct(old_) && !Carries(old_, c)
    requires |turn| == 2 && turn[0].candidate.None? && turn[1].candidate == Some(c)
    ensures CandidatesDistinct(old_ + turn)
  {
  }

  lemma AppendingStep(k: Caller, db: Db, lib: Library, i: Input)
    requires Coupled(db) && Sound(db, lib) && CallerSound(k, db, lib) && k.phase.Appending?
    ensures var (l, db', lib') := Advance(k, db, lib, i); CallerStep(k, db, lib, l, db', lib') && !l.phase.Errored?
  {
    hide Coupled, Step, MessagesSound, RequestsObserved, AcceptancesSound, CandidatesDistinct, SessionsSound, Inside;
    StayIsStep(db);
    var c := k.candidate;
    var s := Target(c, db);
    var f := db.requests[c.dispatch.request].frozen;
    var turn := Turn(i.userId, k.phase.prompt, i.assistantId, k.phase.content, c);
    TurnMatches(i.userId, k.phase.prompt, i.assistantId, k.phase.content, c);
    if s in lib.sessions {
      var session := lib.sessions[s];
      MatchesEmpty(session.messages, c);
      if session.revision == f.expectedRevision {
        var h := lib.history[s];
        var next := Appended(session, turn);
        LatestIsCurrent(lib, s);
        DistinctTurn(session.messages, turn, c);
        PushSessions(lib, s, next);
        assert Placed(h + [next.messages], f.expectedRevision, |session.messages| + 1);
        assert FrozenTurn(f, c, next.messages, |session.messages| + 1) && Latest(h + [next.messages]) == next.messages;
        PushInsertions(db, lib, s, next);
        InsideNow(h, next.messages, c, i.assistantId, |session.messages| + 1);
      }
    }
  }

  lemma InsideNow(h: seq<seq<Message>>, messages: seq<Message>, c: CandidateId, m: MessageId, i: nat)
    requires i < |messages| && messages[i].candidate == Some(c) && messages[i].id == m
    ensures Inside(h + [messages], c, m)
  {
    assert Latest(h + [messages]) == messages;
  }

  /** Recording never refuses: the message inside is the one already recorded, if any. */
  lemma RecordingStep(k: Caller, db: Db, lib: Library, i: Input)
    requires k.phase.Recording? && Coupled(db) && Sound(db, lib) && CallerSound(k, db, lib)
    ensures var (l, db', lib') := Advance(k, db, lib, i);
            CallerStep(k, db, lib, l, db', lib') && l.phase == Finished(k.phase.verdict) && lib' == lib
    ensures RecordedAs(Advance(k, db, lib, i).1, k.candidate, k.phase.verdict.id)
  {
    hide Coupled, Step, MessagesSound, RequestsObserved, InsertionsSound, HistorySound, Current;
    var c, m := k.candidate, k.phase.verdict.id;
    var s := Target(c, db);
    if db.candidates[c].acceptedMessageId.Some? {
      assert AcceptanceSound(db, lib, c);
      assert HistorySound(lib.history[s]);
      InsideUnique(lib.history[s], c, m, db.candidates[c].acceptedMessageId.value);
      CandidateHome(db, c);
      StatusDetermined(db, c.dispatch.request);
      StayIsStep(db);
    } else {
      AcceptIsStep(db, c, m);
      AcceptedSound(db, lib, c, m);
    }
  }

  /** The custody store has recorded the acceptance. */
  ghost predicate RecordedAs(db: Db, c: CandidateId, m: MessageId) {
    && c in db.candidates && db.candidates[c].acceptedMessageId == Some(m)
    && c.dispatch.request in db.requests && db.requests[c.dispatch.request].status == LogicalStatus.Accepted
  }

  lemma InsideUnique(h: seq<seq<Message>>, c: CandidateId, m: MessageId, n: MessageId)
    requires HistorySound(h) && Inside(h, c, m) && Inside(h, c, n)
    ensures m == n
  {
    var i :| 0 <= i < |Latest(h)| && Latest(h)[i].candidate == Some(c) && Latest(h)[i].id == m;
    var j :| 0 <= j < |Latest(h)| && Latest(h)[j].candidate == Some(c) && Latest(h)[j].id == n;
  }

  lemma AcceptedSound(db: Db, lib: Library, c: CandidateId, m: MessageId)
    requires Coupled(db) && Sound(db, lib) && c in db.candidates && HasDispatch(db, c.dispatch)
    requires db.candidates[c].acceptedMessageId.None?
    requires Target(c, db) in lib.history && Inside(lib.history[Target(c, db)], c, m)
    requires Accept(db, c, m).Commit? && Step(db, Accept(db, c, m).db)
    ensures Sound(Accept(db, c, m).db, lib)
  {
    hide Coupled, SessionsSound, Inside;
    var b := Accept(db, c, m).db;
    DatabaseKeepsRows(db, b, lib);
    forall e | e in b.candidates && b.candidates[e].acceptedMessageId.Some? ensures AcceptanceSound(b, lib, e) {
      if e != c { assert AcceptanceSound(db, lib, e); }
    }
  }

  /** The store refuses to block an accepted candidate. While the target conversation
      exists, the caller never runs into that refusal. */
  lemma BlockNeverRefused(k: Caller, db: Db, lib: Library)
    requires Coupled(db) && Sound(db, lib) && CallerSound(k, db, lib) && k.phase.Blocking?
    requires Target(k.candidate, db) in lib.sessions
    ensures Block(db, k.candidate).Commit?
  {
    hide Coupled, MessagesSound, RequestsObserved, HistorySound, CandidatesDistinct;
    CandidateHome(db, k.candidate);
    if db.candidates[k.candidate].acceptedMessageId.Some? {
      assert AcceptanceSound(db, lib, k.candidate);
      LatestIsCurrent(lib, Target(k.candidate, db));
    }
  }

  lemma BlockingStep(k: Caller, db: Db, lib: Library, i: Input)
    requires Coupled(db) && Sound(db, lib) && CallerSound(k, db, lib) && k.phase.Blocking?
    ensures var (l, db', lib') := Advance(k, db, lib, i);
            CallerStep(k, db, lib, l, db', lib') && lib' == lib
            && (Target(k.candidate, db) in lib.sessions ==> l.phase == Finished(Verdict.Blocked(k.phase.reason)))
  {
    hide Coupled, Sound, Advance, Block, Step, Evolves, LibraryEvolves;
    StayIsStep(db);
    BlockEffect(k, db, lib, i);
    SameLibrary(lib);
    if Block(db, k.candidate).Commit? {
      var db' := Block(db, k.candidate).db;
      BlockIsStep(db, k.candidate);
      StepGives(db, db');
      DatabaseKeepsSound(db, db', lib);
    }
    if Target(k.candidate, db) in lib.sessions { BlockNeverRefused(k, db, lib); }
  }

  lemma SameLibrary(lib: Library)
    ensures LibraryEvolves(lib, lib)
  {
  }

  /** What a blocking step does, and what it leaves alone. */
  lemma BlockEffect(k: Caller, db: Db, lib: Library, i: Input)
    requires k.phase.Blocking? && k.candidate in db.candidates && HasDispatch(db, k.candidate.dispatch)
    ensures Advance(k, db, lib, i) ==
              match Block(db, k.candidate)
              case Abort(_) => (k.(phase := Errored), db, lib)
              case Commit(db', _) => (k.(phase := Finished(Verdict.Blocked(k.phase.reason))), db', lib)
    ensures Block(db, k.candidate).Commit? ==>
              var db' := Block(db, k.candidate).db;
              db'.candidates == db.candidates && db'.requests.Keys == db.requests.Keys
              && MarksKept(db, db') && NewRequestsObserved(db, db', lib)
  {
  }

  lemma AdvanceSound(k: Caller, db: Db, lib: Library, i: Input)
    requires Coupled(db) && Sound(db, lib) && CallerSound(k, db, lib)
    ensures var (l, db', lib') := Advance(k, db, lib, i); CallerStep(k, db, lib, l, db', lib')
  {
    hide Coupled, Sound, CallerSound, CallerStep, Advance;
    match k.phase
    case Looking => LookingStep(k, db, lib, i);
    case Appending(_, _) => AppendingStep(k, db, lib, i);
    case Recording(_) => RecordingStep(k, db, lib, i);
    case Blocking(_) => BlockingStep(k, db, lib, i);
    case _ => ReadStep(k, db, lib, i);
  }

  // ---------- Whole calls ----------

  lemma OneStep(k: Caller, db: Db, lib: Library, i: Input, l: Caller, db': Db, lib': Library)
    requires Advance(k, db, lib, i) == (l, db', lib') && Left(l.phase) < Left(k.phase)
    ensures Complete(k, db, lib, i) == Complete(l, db', lib', i)
  {
  }

  ghost predicate Callable(k: Caller, db: Db) {
    && k.phase.Opening?
    && k.candidate in db.candidates && HasDispatch(db, k.candidate.dispatch)
    && db.requests[k.candidate.dispatch.request].frozen.projectId == k.project
  }

  lemma Entering(k: Caller, db: Db, lib: Library, i: Input)
    requires Callable(k, db)
    ensures Complete(k, db, lib, i) == Complete(k.(phase := Looking), db, lib, i)
  {
    hide Complete;
    OneStep(k, db, lib, i, k.(phase := Waiting), db, lib);
    OneStep(k.(phase := Waiting), db, lib, i, k.(phase := Looking), db, lib);
  }

  /** Crash recovery. Once the message is in the conversation, a new call for the same
      candidate ends with that message and an untouched conversation, whatever has
      happened since to canon, guidance, the revision or the evidence. */
  lemma Recovery(k: Caller, db: Db, lib: Library, i: Input, j: nat, m: MessageId)
    requires Callable(k, db) && Target(k.candidate, db) in lib.sessions
    requires j < |lib.sessions[Target(k.candidate, db)].messages|
    requires lib.sessions[Target(k.candidate, db)].messages[j].candidate == Some(k.candidate)
    requires m == lib.sessions[Target(k.candidate, db)].messages[j].id
    requires Coupled(db) && Sound(db, lib)
    ensures Complete(k, db, lib, i).0.phase == Finished(AlreadyAccepted(m))
    ensures Complete(k, db, lib, i).2 == lib
    ensures RecordedAs(Complete(k, db, lib, i).1, k.candidate, m)
  {
    hide Coupled, Sound, Complete, CandidatesDistinct, RecordedAs, Advance, HistorySound, Inside, Matches, Step,
        Accept, Carries, CallerStep, SessionsSound;
    var s := Target(k.candidate, db);
    var k3 := k.(phase := Recording(AlreadyAccepted(m)));
    SoundGives(db, lib, s);
    MatchesOne(lib.sessions[s].messages, k.candidate, j);
    InsideOf(lib, s, k.candidate, m);
    Entering(k, db, lib, i);
    Found(k.(phase := Looking), db, lib, i, m);
    OneStep(k.(phase := Looking), db, lib, i, k3, db, lib);
    RecordingStep(k3, db, lib, i);
    var (k4, db4, lib4) := Advance(k3, db, lib, i);
    OneStep(k3, db, lib, i, k4, db4, lib4);
    CallerStepGives(k3, db, lib, k4, db4, lib4);
    Stopped(k4, db4, lib4, i);
  }

  lemma Found(k: Caller, db: Db, lib: Library, i: Input, m: MessageId)
    requires k.phase.Looking? && k.candidate in db.candidates && HasDispatch(db, k.candidate.dispatch)
    requires Target(k.candidate, db) in lib.sessions
    requires Matches(lib.sessions[Target(k.candidate, db)].messages, k.candidate) == [m]
    ensures Advance(k, db, lib, i) == (k.(phase := Recording(AlreadyAccepted(m))), db, lib)
  {
  }

  /** Nothing found: the request is judged. */
  lemma Judged(k: Caller, db: Db, lib: Library, i: Input)
    requires Callable(k, db) && Target(k.candidate, db) in lib.sessions
    requires Matches(lib.sessions[Target(k.candidate, db)].messages, k.candidate) == []
    requires !Judge(k.candidate, db, lib, i).Errored?
    ensures Complete(k, db, lib, i) == Complete(k.(phase := Judge(k.candidate, db, lib, i)), db, lib, i)
  {
    hide Complete, Judge, Matches;
    var k3, k4 := k.(phase := Judging), k.(phase := Judge(k.candidate, db, lib, i));
    JudgeMoves(k.candidate, db, lib, i);
    Entering(k, db, lib, i);
    OneStep(k.(phase := Looking), db, lib, i, k3, db, lib);
    OneStep(k3, db, lib, i, k4, db, lib);
  }

  lemma JudgeMoves(c: CandidateId, db: Db, lib: Library, i: Input)
    requires c.dispatch.request in db.requests
    ensures var p := Judge(c, db, lib, i); p.Appending? || p.Blocking? || p.Errored?
  {
  }

  lemma Stopped(k: Caller, db: Db, lib: Library, i: Input)
    requires k.phase.Finished? && k.candidate in db.candidates && HasDispatch(db, k.candidate.dispatch)
    ensures Complete(k, db, lib, i) == (k, db, lib)
  {
  }

  lemma InsideOf(lib: Library, s: SessionId, c: CandidateId, m: MessageId)
    requires SessionsSound(lib) && s in lib.sessions && Matches(lib.sessions[s].messages, c) == [m]
    ensures s in lib.history && Inside(lib.history[s], c, m)
  {
    LatestIsCurrent(lib, s);
    var messages := lib.sessions[s].messages;
    MatchesEmpty(messages, c);
    var j :| 0 <= j < |messages| && messages[j].candidate == Some(c);
    MatchesOne(messages, c, j);
  }

  lemma SoundGives(db: Db, lib: Library, s: SessionId)
    requires Sound(db, lib) && s in lib.sessions
    ensures SessionsSound(lib) && s in lib.history && CandidatesDistinct(lib.sessions[s].messages)
  {
    LatestIsCurrent(lib, s);
  }

  /** Everything the request was frozen against still holds, and the response is
      authored output for a real user turn. */
  ghost predicate StillApplies(c: CandidateId, db: Db, lib: Library)
    requires c.dispatch.request in db.requests
  {
    var f := db.requests[c.dispatch.request].frozen;
    && f.sessionId in lib.sessions && lib.sessions[f.sessionId].revision == f.expectedRevision
    && lib.canon == f.canon && lib.guidance == f.guidance
    && c.response.Authored?
    && PendingUser(f.prompts).Some? && !Blank(PendingUser(f.prompts).value)
  }

  /** A first, uninterrupted call inserts exactly one turn when the request still
      applies, and otherwise blocks and leaves the conversation alone. */
  lemma FirstCall(k: Caller, db: Db, lib: Library, i: Input)
    requires Callable(k, db) && i.readable
    requires Target(k.candidate, db) in lib.sessions
    requires !Carries(lib.sessions[Target(k.candidate, db)].messages, k.candidate)
    requires Coupled(db) && Sound(db, lib)
    ensures var (l, db', lib') := Complete(k, db, lib, i);
            var f := db.requests[k.candidate.dispatch.request].frozen;
            if StillApplies(k.candidate, db, lib) then
              && l.phase == Finished(Verdict.Accepted(i.assistantId))
              && RecordedAs(db', k.candidate, i.assistantId)
              && lib'.sessions == lib.sessions[f.sessionId := Appended(lib.sessions[f.sessionId],
                   Turn(i.userId, PendingUser(f.prompts).value, i.assistantId, k.candidate.response.content,
                       k.candidate))]
            else
              l.phase.Finished? && l.phase.verdict.Blocked? && lib' == lib
  {
    hide Coupled, Sound, Complete, CandidatesDistinct, RecordedAs, Carries, Blank, PendingUser, Advance,
        HistorySound, Matches, Step, Block;
    var s := Target(k.candidate, db);
    SoundGives(db, lib, s);
    MatchesEmpty(lib.sessions[s].messages, k.candidate);
    var k4 := k.(phase := Judge(k.candidate, db, lib, i));
    Judged(k, db, lib, i);
    assert CallerSound(k4, db, lib);
    if StillApplies(k.candidate, db, lib) {
      Inserting(k4, db, lib, i);
    } else {
      BlockingStep(k4, db, lib, i);
      var (k5, db5, lib5) := Advance(k4, db, lib, i);
      OneStep(k4, db, lib, i, k5, db5, lib5);
      CallerStepGives(k4, db, lib, k5, db5, lib5);
      Stopped(k5, db5, lib5, i);
    }
  }

  /** From the append to the recorded acceptance. */
  lemma Inserting(k: Caller, db: Db, lib: Library, i: Input)
    requires k.phase.Appending? && k.candidate in db.candidates && HasDispatch(db, k.candidate.dispatch)
    requires Target(k.candidate, db) in lib.sessions
    requires lib.sessions[Target(k.candidate, db)].revision
             == db.requests[k.candidate.dispatch.request].frozen.expectedRevision
    requires Coupled(db) && Sound(db, lib) && CallerSound(k, db, lib)
    ensures var (l, db', lib') := Complete(k, db, lib, i);
            var s := Target(k.candidate, db);
            && l.phase == Finished(Verdict.Accepted(i.assistantId))
            && RecordedAs(db', k.candidate, i.assistantId)
            && lib'.sessions == lib.sessions[s := Appended(lib.sessions[s],
                 Turn(i.userId, k.phase.prompt, i.assistantId, k.phase.content, k.candidate))]
  {
    hide Coupled, Sound, Complete, RecordedAs, Advance, Matches, CallerStep, CallerSound, Step, Accept, Carries;
    assert !Carries(lib.sessions[Target(k.candidate, db)].messages, k.candidate) by { AppendingFree(k, db, lib); }
    AppendingStep(k, db, lib, i);
    AppendingInserts(k, db, lib, i);
    var (k5, db5, lib5) := Advance(k, db, lib, i);
    OneStep(k, db, lib, i, k5, db5, lib5);
    CallerStepGives(k, db, lib, k5, db5, lib5);
    RecordingStep(k5, db5, lib5, i);
    var (k6, db6, lib6) := Advance(k5, db5, lib5, i);
    OneStep(k5, db5, lib5, i, k6, db6, lib6);
    CallerStepGives(k5, db5, lib5, k6, db6, lib6);
    Stopped(k6, db6, lib6, i);
  }

  lemma AppendingFree(k: Caller, db: Db, lib: Library)
    requires k.phase.Appending? && CallerSound(k, db, lib) && Target(k.candidate, db) in lib.sessions
    ensures !Carries(lib.sessions[Target(k.candidate, db)].messages, k.candidate)
  {
  }

  lemma AppendingInserts(k: Caller, db: Db, lib: Library, i: Input)
    requires k.phase.Appending? && k.candidate in db.candidates && HasDispatch(db, k.candidate.dispatch)
    requires Target(k.candidate, db) in lib.sessions
    requires !Carries(lib.sessions[Target(k.candidate, db)].messages, k.candidate)
    requires lib.sessions[Target(k.candidate, db)].revision
             == db.requests[k.candidate.dispatch.request].frozen.expectedRevision
    ensures var (l, db', lib') := Advance(k, db, lib, i);
            var s := Target(k.candidate, db);
            && l.phase == Recording(Verdict.Accepted(i.assistantId)) && db' == db
            && lib'.sessions == lib.sessions[s := Appended(lib.sessions[s],
                 Turn(i.userId, k.phase.prompt, i.assistantId, k.phase.content, k.candidate))]
  {
    MatchesEmpty(lib.sessions[Target(k.candidate, db)].messages, k.candidate);
    TurnMatches(i.userId, k.phase.prompt, i.assistantId, k.phase.content, k.candidate);
  }

  lemma CallerStepGives(k: Caller, db: Db, lib: Library, l: Caller, db': Db, lib': Library)
    requires CallerStep(k, db, lib, l, db', lib')
    requires k.candidate in db.candidates && HasDispatch(db, k.candidate.dispatch)
    ensures Coupled(db') && Sound(db', lib') && CallerSound(l, db', lib')
    ensures l.candidate == k.candidate && l.candidate in db'.candidates && HasDispatch(db', l.candidate.dispatch)
  {
    hide Coupled, Sound, CallerSound;
    assert RequestStep(db.requests[k.candidate.dispatch.request], db'.requests[k.candidate.dispatch.request]);
  }
}
