/** Conversation records: revision-checked appends, and appends bound to a candidate. */
module Sessions {
  import opened Basics
  import opened Custody

  datatype Message = Message(id: MessageId, role: Role, content: string, candidate: Option<CandidateId>)

  datatype ChatSession = ChatSession(title: Name, model: Name, revision: nat, messages: seq<Message>)

  datatype SessionWriteResult = Committed | SessionMissing | RevisionConflict

  datatype CandidateWrite =
    | Inserted(id: MessageId)
    | AlreadyInserted(id: MessageId)
    | NoSession
    | Stale
    | Corrupt
    | NotBound

  // ---------- Specification ----------

  /** The messages bound to a candidate, in order. */
  function Matches(messages: seq<Message>, c: CandidateId): seq<MessageId> {
    if messages == [] then []
    else
      var rest := Matches(messages[..|messages| - 1], c);
      var last := messages[|messages| - 1];
      if last.candidate == Some(c) then rest + [last.id] else rest
  }

  function Appended(s: ChatSession, messages: seq<Message>): ChatSession {
    s.(messages := s.messages + messages, revision := s.revision + 1)
  }

  /** A prior insertion wins over revision drift. */
  function InsertCandidate(s: ChatSession, expected: nat, c: CandidateId, messages: seq<Message>)
    : (CandidateWrite, ChatSession)
  {
    var prior := Matches(s.messages, c);
    if |Matches(messages, c)| != 1 then (NotBound, s)
    else if |prior| > 1 then (Corrupt, s)
    else if |prior| == 1 then (AlreadyInserted(prior[0]), s)
    else if s.revision != expected then (Stale, s)
    else (Inserted(Matches(messages, c)[0]), Appended(s, messages))
  }

  /** One turn bound to one candidate is inserted exactly when no message carries the
      candidate and the revision is the expected one; a conversation that carries it once
      answers with that message, and in every other case nothing changes. */
  lemma InsertExactly(s: ChatSession, expected: nat, c: CandidateId, messages: seq<Message>, m: MessageId)
    requires Matches(messages, c) == [m]
    ensures var (r, after) := InsertCandidate(s, expected, c, messages);
            var prior := Matches(s.messages, c);
            && (r == Inserted(m) <==> prior == [] && s.revision == expected)
            && (r == Stale <==> prior == [] && s.revision != expected)
            && (r == Corrupt <==> |prior| > 1)
            && (|prior| == 1 ==> r == AlreadyInserted(prior[0]))
            && after == if prior == [] && s.revision == expected
                        then ChatSession(s.title, s.model, s.revision + 1, s.messages + messages) else s
  {
  }

  // ---------- Candidate identity within one conversation ----------

  /** No two messages carry the same candidate. */
  ghost predicate CandidatesDistinct(messages: seq<Message>) {
    forall i, j | 0 <= i < j < |messages| && messages[i].candidate.Some? ::
        messages[i].candidate != messages[j].candidate
  }

  ghost predicate Carries(messages: seq<Message>, c: CandidateId) {
    exists i :: 0 <= i < |messages| && messages[i].candidate == Some(c)
  }

  lemma {:induction false} MatchesEmpty(messages: seq<Message>, c: CandidateId)
    ensures Matches(messages, c) == [] <==> !Carries(messages, c)
  {
    if messages != [] {
      var init := messages[..|messages| - 1];
      MatchesEmpty(init, c);
      if Carries(init, c) {
        var i :| 0 <= i < |init| && init[i].candidate == Some(c);
        assert messages[i].candidate == Some(c);
      } else if messages[|messages| - 1].candidate != Some(c) {
        forall i | 0 <= i < |messages| ensures messages[i].candidate != Some(c) {
          if i < |init| { assert init[i] == messages[i]; }
        }
      }
    }
  }

  /** With distinct candidates a lookup finds exactly the message that carries it. */
  lemma {:induction false} MatchesOne(messages: seq<Message>, c: CandidateId, i: nat)
    requires CandidatesDistinct(messages)
    requires i < |messages| && messages[i].candidate == Some(c)
    ensures Matches(messages, c) == [messages[i].id]
  {
    var init := messages[..|messages| - 1];
    if i == |messages| - 1 {
      MatchesEmpty(init, c);
      forall j | 0 <= j < |init| ensures init[j].candidate != Some(c) { assert init[j] == messages[j]; }
    } else {
      MatchesOne(init, c, i);
    }
  }

  /** The turn an acceptance appends. */
  function Turn(u: MessageId, prompt: string, m: MessageId, content: string, c: CandidateId): seq<Message> {
    [Message(u, User, prompt, None), Message(m, Assistant, content, Some(c))]
  }

  lemma TurnMatches(u: MessageId, prompt: string, m: MessageId, content: string, c: CandidateId)
    ensures Matches(Turn(u, prompt, m, content, c), c) == [m]
  {
    var turn := Turn(u, prompt, m, content, c);
    assert CandidatesDistinct(turn);
    MatchesOne(turn, c, 1);
  }

  // ---------- The store ----------

  class SessionStore {
    var sessions: map<SessionId, ChatSession>

    constructor ()
      ensures sessions == map[]
    {
      sessions := map[];
    }

    method UpdateTitle(id: SessionId, title: Name) returns (ok: bool)
      modifies this
      ensures ok == (id in old(sessions))
      ensures var s := old(sessions);
              sessions == if ok then s[id := s[id].(title := title, revision := s[id].revision + 1)] else s
    {
      if id !in sessions { return false; }
      var session := sessions[id];
      session := session.(title := title);
      session := session.(revision := session.revision + 1);
      sessions := sessions[id := session];
      return true;
    }

    method UpdateModel(id: SessionId, model: Name) returns (ok: bool)
      modifies this
      ensures ok == (id in old(sessions))
      ensures var s := old(sessions);
              sessions == if ok then s[id := s[id].(model := model, revision := s[id].revision + 1)] else s
    {
      if id !in sessions { return false; }
      var session := sessions[id];
      session := session.(model := model);
      session := session.(revision := session.revision + 1);
      sessions := sessions[id := session];
      return true;
    }

    method AppendMessages(id: SessionId, messages: seq<Message>) returns (ok: bool)
      modifies this
      ensures ok == (id in old(sessions))
      ensures sessions == if ok then old(sessions)[id := Appended(old(sessions)[id], messages)] else old(sessions)
    {
      if id !in sessions { return false; }
      AppendToSession(id, messages);
      return true;
    }

    method AppendToSession(id: SessionId, messages: seq<Message>)
      requires id in sessions
      modifies this
      ensures sessions == old(sessions)[id := Appended(old(sessions)[id], messages)]
    {
      var session := sessions[id];
      session := session.(messages := session.messages + messages);
      session := session.(revision := session.revision + 1);
      sessions := sessions[id := session];
    }

    /** Of two writers that observed one revision, only the first commits: a commit
        moves the revision past what either expected. */
    method AppendMessagesIfRevision(id: SessionId, expected: nat, messages: seq<Message>)
        returns (r: SessionWriteResult)
      modifies this
      ensures r == (if id !in old(sessions) then SessionMissing
                    else if old(sessions)[id].revision != expected then RevisionConflict else Committed)
      ensures sessions == if r.Committed? then old(sessions)[id := Appended(old(sessions)[id], messages)]
              else old(sessions)
      ensures r.Committed? ==> sessions[id].revision > expected && old(sessions)[id].messages <= sessions[id].messages
    {
      if id !in sessions { return SessionMissing; }
      if sessions[id].revision != expected { return RevisionConflict; }
      AppendToSession(id, messages);
      return Committed;
    }

    method CandidateMessageId(id: SessionId, c: CandidateId) returns (r: Result<Option<MessageId>, ()>)
      ensures id !in sessions ==> r == Ok(None)
      ensures id in sessions ==>
                var found := Matches(sessions[id].messages, c);
                r == (if |found| > 1 then Err(()) else if |found| == 1 then Ok(Some(found[0])) else Ok(None))
    {
      if id !in sessions { return Ok(None); }
      var found := Matches(sessions[id].messages, c);
      if |found| > 1 { return Err(()); }
      return Ok(if found != [] then Some(found[0]) else None);
    }

    method AppendCandidateIfRevision(id: SessionId, expected: nat, c: CandidateId, messages: seq<Message>)
      returns (r: CandidateWrite)
      modifies this
      ensures id !in old(sessions) ==>
                r == (if |Matches(messages, c)| == 1 then NoSession else NotBound) && sessions == old(sessions)
      ensures id in old(sessions) ==>
                r == InsertCandidate(old(sessions)[id], expected, c, messages).0
                && sessions == old(sessions)[id := InsertCandidate(old(sessions)[id], expected, c, messages).1]
    {
      var bound := Matches(messages, c);
      assert id in sessions ==> sessions == sessions[id := sessions[id]];
      if |bound| != 1 { return NotBound; }
      if id !in sessions { return NoSession; }
      var session := sessions[id];
      var prior := Matches(session.messages, c);
      if |prior| > 1 { return Corrupt; }
      if prior != [] { return AlreadyInserted(prior[0]); }
      if session.revision != expected { return Stale; }
      AppendToSession(id, messages);
      return Inserted(bound[0]);
    }
  }
}
