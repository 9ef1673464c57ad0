/** Inserting a candidate into its conversation: one caller as a sequence of atomic
    steps under the project lock, and the invariant that makes it exactly once. */
module Acceptance {
  import opened Basics
  import opened Custody
  import opened Sessions

  /** The application side of one project. `history` keeps, for every conversation ever
      created, the message list at each revision. */
  datatype Library = Library(
    sessions: map<SessionId, ChatSession>,
    canon: Name,
    guidance: Name,
    history: map<SessionId, seq<seq<Message>>>)

  datatype Reason =
    | SessionGone
    | RevisionChanged
    | CanonChanged
    | GuidanceChanged
    | NotAuthored
    | ReviewRequired
    | NoUserTurn

  datatype Verdict = Accepted(id: MessageId) | AlreadyAccepted(id: MessageId) | Blocked(reason: Reason)

  datatype Phase =
    | Opening
    | Waiting
    | Looking
    | Judging
    | Appending(prompt: string, content: string)
    | Recording(verdict: Verdict)
    | Blocking(reason: Reason)
    | Finished(verdict: Verdict)
    | Errored

  datatype Caller = Caller(project: Name, candidate: CandidateId, phase: Phase)

  /** Fresh message ids, and whether the evidence body can still be read. */
  datatype Input = Input(userId: MessageId, assistantId: MessageId, readable: bool)

  // ---------- The caller ----------

  /** The characters that stripping a string removes. */
  predicate Whitespace(ch: char) {
    || '\t' <= ch <= '\r'
    || '\U{1C}' <= ch <= ' '
    || ch == '\U{85}' || ch == '\U{A0}' || ch == '\U{1680}'
    || '\U{2000}' <= ch <= '\U{200A}'
    || ch == '\U{2028}' || ch == '\U{2029}' || ch == '\U{202F}' || ch == '\U{205F}' || ch == '\U{3000}'
  }

  predicate Blank(s: string) {
    forall i | 0 <= i < |s| :: Whitespace(s[i])
  }

  /** The last user turn of the frozen request. */
  function PendingUser(prompts: seq<Prompt>): Option<string> {
    if prompts == [] then None
    else
      var last := prompts[|prompts| - 1];
      if last.role.User? then Some(last.content) else PendingUser(prompts[..|prompts| - 1])
  }

  function Target(c: CandidateId, db: Db): SessionId
    requires c.dispatch.request in db.requests
  {
    db.requests[c.dispatch.request].frozen.sessionId
  }

  /** The checks that decide between appending and blocking, in the source's order. */
  function Judge(c: CandidateId, db: Db, lib: Library, i: Input): Phase
    requires c.dispatch.request in db.requests
  {
    var f := db.requests[c.dispatch.request].frozen;
    if f.sessionId !in lib.sessions then Blocking(SessionGone)
    else if lib.sessions[f.sessionId].revision != f.expectedRevision then Blocking(RevisionChanged)
    else if lib.canon != f.canon then Blocking(CanonChanged)
    else if lib.guidance != f.guidance then Blocking(GuidanceChanged)
    else if !i.readable then Errored
    else match c.response
      case Malformed(_) => Blocking(NotAuthored)
      case NeedsReview(_) => Blocking(ReviewRequired)
      case Authored(content) =>
        var prompt := PendingUser(f.prompts);
        if prompt.None? || Blank(prompt.value) then Blocking(NoUserTurn) else Appending(prompt.value, content)
  }

  /** Opening precedes the project lock; every later step holds it. */
  function Advance(k: Caller, db: Db, lib: Library, i: Input): (Caller, Db, Library) {
    var c := k.candidate;
    if c !in db.candidates || !HasDispatch(db, c.dispatch) then (k.(phase := Errored), db, lib)
    else
      var s := Target(c, db);
      match k.phase
      case Opening =>
        var mine := db.requests[c.dispatch.request].frozen.projectId == k.project;
        (k.(phase := if mine then Waiting else Errored), db, lib)
      case Waiting => (k.(phase := Looking), db, lib)
      case Looking =>
        var found := if s in lib.sessions then Matches(lib.sessions[s].messages, c) else [];
        (k.(phase := if |found| > 1 then Errored
                     else if |found| == 1 then Recording(AlreadyAccepted(found[0]))
                     else Judging), db, lib)
      case Judging => (k.(phase := Judge(c, db, lib, i)), db, lib)
      case Appending(prompt, content) =>
        if s !in lib.sessions then (k.(phase := Blocking(SessionGone)), db, lib)
        else
          var f := db.requests[c.dispatch.request].frozen;
          var (r, session) := InsertCandidate(lib.sessions[s], f.expectedRevision, c,
              Turn(i.userId, prompt, i.assistantId, content, c));
          (match r
           case Inserted(m) =>
             (k.(phase := Recording(Verdict.Accepted(m))), db,
              lib.(sessions := lib.sessions[s := session],
                   history := lib.history[s := (if s in lib.history then lib.history[s] else []) + [session.messages]]))
           case AlreadyInserted(m) => (k.(phase := Recording(AlreadyAccepted(m))), db, lib)
           case Stale => (k.(phase := Blocking(RevisionChanged)), db, lib)
           case _ => (k.(phase := Errored), db, lib))
      case Recording(verdict) =>
        if verdict.Blocked? then (k.(phase := Errored), db, lib)
        else
          (match Accept(db, c, verdict.id)
           case Abort(_) => (k.(phase := Errored), db, lib)
           case Commit(db', _) => (k.(phase := Finished(verdict)), db', lib))
      case Blocking(reason) =>
        (match Block(db, c)
         case Abort(_) => (k.(phase := Errored), db, lib)
         case Commit(db', _) => (k.(phase := Finished(Verdict.Blocked(reason))), db', lib))
      case Finished(_) => (k, db, lib)
      case Errored => (k, db, lib)
  }

  function Left(phase: Phase): nat {
    match phase
    case Opening => 6
    case Waiting => 5
    case Looking => 4
    case Judging => 3
    case Appending(_, _) => 2
    case Recording(_) => 1
    case Blocking(_) => 1
    case Finished(_) => 0
    case Errored => 0
  }

  /** The caller run to its end with nobody else stepping. */
  function Complete(k: Caller, db: Db, lib: Library, i: Input): (Caller, Db, Library)
    decreases Left(k.phase)
  {
    var (l, db', lib') := Advance(k, db, lib, i);
    if Left(l.phase) < Left(k.phase) then Complete(l, db', lib', i) else (l, db', lib')
  }

  predicate HoldsLock(k: Caller) {
    match k.phase
    case Opening => false
    case Waiting => false
    case Finished(_) => false
    case Errored => false
    case _ => true
  }

  // ---------- The invariant ----------

  function Latest(h: seq<seq<Message>>): seq<Message>
    requires h != []
  {
    h[|h| - 1]
  }

  /** The revision determines the message list, and messages are only ever appended. */
  ghost predicate HistorySound(h: seq<seq<Message>>) {
    && h != []
    && (forall v, w | 0 <= v <= w < |h| :: h[v] <= h[w])
    && CandidatesDistinct(Latest(h))
  }

  ghost predicate SessionsSound(lib: Library) {
    && (forall s | s in lib.history :: HistorySound(lib.history[s]))
    && (forall s | s in lib.sessions :: s in lib.history && Current(lib.sessions[s], lib.history[s]))
  }

  ghost predicate Current(session: ChatSession, h: seq<seq<Message>>) {
    |h| == session.revision + 1 && h[session.revision] == session.messages
  }

  /** The message at `i` was inserted, as the end of a two-message turn, by the write
      that followed revision `e`. */
  ghost predicate Placed(h: seq<seq<Message>>, e: nat, i: nat) {
    e + 1 < |h| && i == |h[e]| + 1 && |h[e + 1]| == |h[e]| + 2
  }

  ghost predicate MessagesSound(db: Db, lib: Library) {
    forall s | s in lib.history && lib.history[s] != [] :: InsertionsSound(db, s, lib.history[s])
  }

  /** Candidates in a conversation exist, and the ones that target it were inserted
      right after the revision their request was frozen at. */
  ghost predicate InsertionsSound(db: Db, s: SessionId, h: seq<seq<Message>>)
    requires h != []
  {
    forall i | 0 <= i < |Latest(h)| && Latest(h)[i].candidate.Some? ::
        InsertionSound(db, s, h, i, Latest(h)[i].candidate.value)
  }

  ghost predicate InsertionSound(db: Db, s: SessionId, h: seq<seq<Message>>, i: nat, c: CandidateId)
    requires h != []
  {
    && c in db.candidates
    && c.dispatch.request in db.requests
    && var f := db.requests[c.dispatch.request].frozen;
       (f.sessionId == s ==> Placed(h, f.expectedRevision, i) && FrozenTurn(f, c, Latest(h), i))
  }

  /** The two messages up to `i` are the frozen user turn and the authored response to it. */
  ghost predicate FrozenTurn(f: Frozen, c: CandidateId, messages: seq<Message>, i: nat) {
    && 0 < i < |messages|
    && messages[i - 1].role.User? && messages[i].role.Assistant?
    && PendingUser(f.prompts) == Some(messages[i - 1].content)
    && c.response == Authored(messages[i].content)
  }

  /** A request was frozen at a revision its conversation really had. */
  ghost predicate RequestsObserved(db: Db, lib: Library) {
    forall r | r in db.requests :: Observed(db.requests[r].frozen, lib)
  }

  ghost predicate Observed(f: Frozen, lib: Library) {
    f.sessionId in lib.history && f.expectedRevision < |lib.history[f.sessionId]|
  }

  /** The conversation carries the candidate in the message with this id. */
  ghost predicate Inside(h: seq<seq<Message>>, c: CandidateId, m: MessageId) {
    h != [] && exists i :: 0 <= i < |Latest(h)| && Latest(h)[i].candidate == Some(c) && Latest(h)[i].id == m
  }

  ghost predicate AcceptancesSound(db: Db, lib: Library) {
    forall c | c in db.candidates && db.candidates[c].acceptedMessageId.Some? :: AcceptanceSound(db, lib, c)
  }

  ghost predicate AcceptanceSound(db: Db, lib: Library, c: CandidateId)
    requires c in db.candidates && db.candidates[c].acceptedMessageId.Some?
  {
    && c.dispatch.request in db.requests
    && Target(c, db) in lib.history
    && Inside(lib.history[Target(c, db)], c, db.candidates[c].acceptedMessageId.value)
  }

  ghost predicate Sound(db: Db, lib: Library) {
    && SessionsSound(lib)
    && MessagesSound(db, lib)
    && RequestsObserved(db, lib)
    && AcceptancesSound(db, lib)
  }

  /** What the holder of the project lock knows. */
  ghost predicate CallerSound(k: Caller, db: Db, lib: Library) {
    HoldsLock(k) ==>
      && k.candidate in db.candidates
      && HasDispatch(db, k.candidate.dispatch)
      && Target(k.candidate, db) in lib.history
      && (k.phase.Judging? || k.phase.Appending? || k.phase.Blocking? ==>
            Target(k.candidate, db) in lib.sessions ==>
              !Carries(lib.sessions[Target(k.candidate, db)].messages, k.candidate))
      && (k.phase.Appending? ==>
            && PendingUser(db.requests[k.candidate.dispatch.request].frozen.prompts) == Some(k.phase.prompt)
            && k.candidate.response == Authored(k.phase.content))
      && (k.phase.Recording? ==>
            !k.phase.verdict.Blocked? && Inside(lib.history[Target(k.candidate, db)], k.candidate, k.phase.verdict.id))
  }

  /** Conversations only grow: a revision keeps its message list for ever. */
  ghost predicate LibraryEvolves(a: Library, b: Library) {
    && (forall s | s in a.history :: s in b.history && a.history[s] <= b.history[s])
    && (forall s | s in b.sessions && s in a.history :: s in a.sessions)
  }
}
