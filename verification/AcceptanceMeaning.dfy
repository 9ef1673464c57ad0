/** What one uninterrupted acceptance amounts to, for every state of the conversation, the
    project and the response. */
module AcceptanceMeaning {
  import opened Basics
  import opened Custody
  import opened CustodyInvariants
  import opened Sessions
  import opened Acceptance
  import opened AcceptanceProofs

  /** The user turn at `k` is the last one. */
  ghost predicate LastUserTurn(prompts: seq<Prompt>, k: nat) {
    k < |prompts| && prompts[k].role.User? && forall j | k < j < |prompts| :: !prompts[j].role.User?
  }

  lemma {:induction false} PendingAt(prompts: seq<Prompt>)
    ensures match PendingUser(prompts)
            case None => forall k | 0 <= k < |prompts| :: !prompts[k].role.User?
            case Some(text) => exists k: nat :: LastUserTurn(prompts, k) && prompts[k].content == text
  {
    if prompts != [] {
      var init, n := prompts[..|prompts| - 1], |prompts| - 1;
      assert forall k | 0 <= k < n :: init[k] == prompts[k];
      if prompts[n].role.User? {
        assert LastUserTurn(prompts, n);
      } else {
        PendingAt(init);
        if PendingUser(init).Some? {
          var k: nat :| LastUserTurn(init, k) && init[k].content == PendingUser(init).value;
          assert LastUserTurn(prompts, k);
        }
      }
    }
  }

  lemma PendingIsLast(prompts: seq<Prompt>)
    ensures PendingUser(prompts).None? <==> forall k | 0 <= k < |prompts| :: !prompts[k].role.User?
    ensures forall k: nat | LastUserTurn(prompts, k) :: PendingUser(prompts) == Some(prompts[k].content)
    ensures PendingUser(prompts).Some? ==> exists k: nat :: LastUserTurn(prompts, k)
  {
    hide PendingUser;
    PendingAt(prompts);
    forall k: nat | LastUserTurn(prompts, k) ensures PendingUser(prompts) == Some(prompts[k].content) {
      if PendingUser(prompts).Some? {
        var l: nat :| LastUserTurn(prompts, l) && prompts[l].content == PendingUser(prompts).value;
        assert l == k;
      }
    }
  }

  /** Some character is visible. */
  ghost predicate Visible(s: string) {
    exists i :: 0 <= i < |s| && !Whitespace(s[i])
  }

  /** Among the first 128 characters exactly the ten that Python strips are whitespace; in
      particular no letter, digit or punctuation mark is. */
  lemma WhitespaceInAscii(ch: char)
    requires ch < '\U{80}'
    ensures Whitespace(ch) <==>
              ch in {'\t', '\n', '\U{0B}', '\U{0C}', '\r', '\U{1C}', '\U{1D}', '\U{1E}', '\U{1F}', ' '}
    ensures '!' <= ch <= '~' ==> !Whitespace(ch)
  {
  }

  /** A caller that can be let in, for a candidate its conversation does not carry. */
  ghost predicate Pending(k: Caller, db: Db, lib: Library) {
    && Coupled(db) && Sound(db, lib) && Callable(k, db)
    && Target(k.candidate, db) in lib.sessions
    && !Carries(lib.sessions[Target(k.candidate, db)].messages, k.candidate)
  }

  /** The conversation, canon and guidance are those the request was frozen against. */
  ghost predicate Unchanged(f: Frozen, lib: Library) {
    && f.sessionId in lib.sessions && lib.sessions[f.sessionId].revision == f.expectedRevision
    && lib.canon == f.canon && lib.guidance == f.guidance
  }

  /** Exactly one turn is inserted when everything frozen still holds, the response is
      authored, and the last user turn has a visible character. */
  lemma VisiblePromptIsInserted(k: Caller, db: Db, lib: Library, i: Input, at: nat, content: string)
    requires Pending(k, db, lib) && i.readable
    requires Unchanged(db.requests[k.candidate.dispatch.request].frozen, lib)
    requires k.candidate.response == Authored(content)
    requires LastUserTurn(db.requests[k.candidate.dispatch.request].frozen.prompts, at)
    requires Visible(db.requests[k.candidate.dispatch.request].frozen.prompts[at].content)
    ensures var (l, db', lib') := Complete(k, db, lib, i);
            var f := db.requests[k.candidate.dispatch.request].frozen;
            var before := lib.sessions[f.sessionId];
            && l.phase == Finished(Verdict.Accepted(i.assistantId))
            && lib'.sessions == lib.sessions[f.sessionId := before.(
                 revision := before.revision + 1,
                 messages := before.messages + [
                   Message(i.userId, User, f.prompts[at].content, None),
                   Message(i.assistantId, Assistant, content, Some(k.candidate))])]
            && k.candidate in db'.candidates
            && db'.candidates[k.candidate].acceptedMessageId == Some(i.assistantId)
            && k.candidate.dispatch.request in db'.requests
            && db'.requests[k.candidate.dispatch.request].status == LogicalStatus.Accepted
  {
    hide Coupled, Sound, Complete, Carries, PendingUser;
    PendingIsLast(db.requests[k.candidate.dispatch.request].frozen.prompts);
    FirstCall(k, db, lib, i);
  }

  /** Why a call that inserts nothing blocks, the earliest reason first. */
  ghost predicate BlockedFor(f: Frozen, c: CandidateId, lib: Library, reason: Reason) {
    var revision := f.sessionId in lib.sessions && lib.sessions[f.sessionId].revision == f.expectedRevision;
    match reason
    case SessionGone => f.sessionId !in lib.sessions
    case RevisionChanged => f.sessionId in lib.sessions && !revision
    case CanonChanged => revision && lib.canon != f.canon
    case GuidanceChanged => revision && lib.canon == f.canon && lib.guidance != f.guidance
    case NotAuthored => Unchanged(f, lib) && c.response.Malformed?
    case ReviewRequired => Unchanged(f, lib) && c.response.NeedsReview?
    case NoUserTurn =>
      && Unchanged(f, lib) && c.response.Authored?
      && forall at: nat | LastUserTurn(f.prompts, at) :: !Visible(f.prompts[at].content)
  }

  /** Every other readable call blocks for exactly the reason that applies, in custody only. */
  lemma OtherwiseBlocked(k: Caller, db: Db, lib: Library, i: Input, reason: Reason)
    requires Pending(k, db, lib) && i.readable
    requires BlockedFor(db.requests[k.candidate.dispatch.request].frozen, k.candidate, lib, reason)
    ensures var (l, db', lib') := Complete(k, db, lib, i);
            && l.phase == Finished(Verdict.Blocked(reason)) && lib' == lib
            && HasDispatch(db', k.candidate.dispatch)
            && GetDispatch(db', k.candidate.dispatch).status == DispatchStatus.Blocked
            && db'.requests[k.candidate.dispatch.request].status == LogicalStatus.Blocked
  {
    hide Coupled, Sound, Complete, Carries, PendingUser, Advance, Matches;
    var f := db.requests[k.candidate.dispatch.request].frozen;
    PendingIsLast(f.prompts);
    JudgedFor(k.candidate, db, lib, i, reason);
    MatchesEmpty(lib.sessions[Target(k.candidate, db)].messages, k.candidate);
    Judged(k, db, lib, i);
    Blocks(k.(phase := Blocking(reason)), db, lib, i, reason);
  }

  lemma JudgedFor(c: CandidateId, db: Db, lib: Library, i: Input, reason: Reason)
    requires c.dispatch.request in db.requests && i.readable
    requires BlockedFor(db.requests[c.dispatch.request].frozen, c, lib, reason)
    ensures Judge(c, db, lib, i) == Blocking(reason)
  {
    var f := db.requests[c.dispatch.request].frozen;
    hide PendingUser, LastUserTurn;
    PendingIsLast(f.prompts);
    if PendingUser(f.prompts).Some? {
      var at: nat :| LastUserTurn(f.prompts, at);
    }
  }

  lemma BlockedRows(db: Db, c: CandidateId)
    requires c in db.candidates && HasDispatch(db, c.dispatch)
    ensures Block(db, c).Commit? ==>
              var t := Block(db, c).db;
              && HasDispatch(t, c.dispatch) && GetDispatch(t, c.dispatch).status == DispatchStatus.Blocked
              && t.requests[c.dispatch.request].status == LogicalStatus.Blocked
  {
    hide Coupled;
  }

  lemma Blocks(k: Caller, db: Db, lib: Library, i: Input, reason: Reason)
    requires k.phase == Blocking(reason) && Coupled(db) && Sound(db, lib)
    requires k.candidate in db.candidates && HasDispatch(db, k.candidate.dispatch)
    requires Target(k.candidate, db) in lib.sessions
    requires !Carries(lib.sessions[Target(k.candidate, db)].messages, k.candidate)
    ensures var (l, db', lib') := Complete(k, db, lib, i);
            && l.phase == Finished(Verdict.Blocked(reason)) && lib' == lib
            && HasDispatch(db', k.candidate.dispatch)
            && GetDispatch(db', k.candidate.dispatch).status == DispatchStatus.Blocked
            && db'.requests[k.candidate.dispatch.request].status == LogicalStatus.Blocked
  {
    BlockedRows(db, k.candidate);
    BlockingKnows(k, db, lib);
    hide Coupled, Sound, Complete, Carries, Block, CallerSound;
    BlockNeverRefused(k, db, lib);
    BlockCompletes(k, db, lib, i, Block(db, k.candidate).db);
  }

  lemma BlockCompletes(k: Caller, db: Db, lib: Library, i: Input, db': Db)
    requires k.phase.Blocking? && k.candidate in db.candidates && HasDispatch(db, k.candidate.dispatch)
    requires Block(db, k.candidate) == Commit(db', ())
    ensures Complete(k, db, lib, i) == (k.(phase := Finished(Verdict.Blocked(k.phase.reason))), db', lib)
  {
    BlockedRows(db, k.candidate);
    hide Complete, Advance;
    BlockEffect(k, db, lib, i);
    hide Block, HasDispatch;
    var l := k.(phase := Finished(Verdict.Blocked(k.phase.reason)));
    OneStep(k, db, lib, i, l, db', lib);
    Stopped(l, db', lib, i);
  }

  lemma BlockingKnows(k: Caller, db: Db, lib: Library)
    requires k.phase.Blocking? && Sound(db, lib)
    requires k.candidate in db.candidates && HasDispatch(db, k.candidate.dispatch)
    requires Target(k.candidate, db) in lib.sessions
    requires !Carries(lib.sessions[Target(k.candidate, db)].messages, k.candidate)
    ensures CallerSound(k, db, lib)
  {
    hide Sound, Carries;
    SoundGives(db, lib, Target(k.candidate, db));
  }

  /** An unknown candidate, or one of another project, is refused and changes nothing. */
  lemma ForeignRefused(k: Caller, db: Db, lib: Library, i: Input)
    requires k.phase.Opening?
    requires || k.candidate !in db.candidates
             || !HasDispatch(db, k.candidate.dispatch)
             || db.requests[k.candidate.dispatch.request].frozen.projectId != k.project
    ensures Complete(k, db, lib, i) == (k.(phase := Errored), db, lib)
  {
    ErroredStays(k.(phase := Errored), db, lib, i);
  }

  /** If the evidence cannot be read, an otherwise insertable candidate is left as it is. */
  lemma UnreadableChangesNothing(k: Caller, db: Db, lib: Library, i: Input)
    requires Pending(k, db, lib) && !i.readable
    requires Unchanged(db.requests[k.candidate.dispatch.request].frozen, lib)
    ensures Complete(k, db, lib, i) == (k.(phase := Errored), db, lib)
  {
    hide Coupled, Sound, Complete, Carries, Advance, Matches;
    MatchesEmpty(lib.sessions[Target(k.candidate, db)].messages, k.candidate);
    var k3, k4 := k.(phase := Judging), k.(phase := Errored);
    Entering(k, db, lib, i);
    LooksThenErrs(k, db, lib, i);
    OneStep(k.(phase := Looking), db, lib, i, k3, db, lib);
    OneStep(k3, db, lib, i, k4, db, lib);
    ErroredStays(k4, db, lib, i);
  }

  lemma LooksThenErrs(k: Caller, db: Db, lib: Library, i: Input)
    requires Callable(k, db) && !i.readable
    requires Unchanged(db.requests[k.candidate.dispatch.request].frozen, lib)
    requires Target(k.candidate, db) in lib.sessions
    requires Matches(lib.sessions[Target(k.candidate, db)].messages, k.candidate) == []
    ensures Advance(k.(phase := Looking), db, lib, i) == (k.(phase := Judging), db, lib)
    ensures Advance(k.(phase := Judging), db, lib, i) == (k.(phase := Errored), db, lib)
  {
  }

  lemma ErroredStays(k: Caller, db: Db, lib: Library, i: Input)
    requires k.phase.Errored?
    ensures Complete(k, db, lib, i) == (k, db, lib)
  {
  }
}
