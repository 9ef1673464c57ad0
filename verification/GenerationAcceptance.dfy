/** Candidate acceptance as the source writes it, over the two stores. Run alone, it is
    exactly the caller of `Acceptance` stepped to its end. */
module GenerationAcceptances {
  import opened Basics
  import opened Custody
  import opened CustodyInvariants
  import opened GenerationStores
  import opened Sessions
  import opened Acceptance
  import opened AcceptanceProofs

  class GenerationAcceptance {
    const generations: GenerationStore
    const store: SessionStore
    var canon: Name
    var guidance: Name

    ghost function Here(): Library
      reads this, store
    {
      Library(store.sessions, canon, guidance, map[])
    }

    constructor (generations: GenerationStore, store: SessionStore, canon: Name, guidance: Name)
      ensures this.generations == generations && this.store == store
      ensures this.canon == canon && this.guidance == guidance
    {
      this.generations, this.store := generations, store;
      this.canon, this.guidance := canon, guidance;
    }

    /** What a call that ran to its end reports and leaves behind. */
    ghost predicate Ends(t: (Caller, Db, Library), r: Option<Verdict>)
      reads this, generations, store
    {
      && generations.Snapshot() == t.1 && store.sessions == t.2.sessions
      && r == (if t.0.phase.Finished? then Some(t.0.phase.verdict) else None)
    }

    /** `None` is a raised error. The project lock is held from the lookup on. */
    method AcceptCandidate(project: Name, c: CandidateId, i: Input) returns (r: Option<Verdict>)
      requires generations.Valid()
      modifies generations, store
      ensures generations.Valid()
      ensures Ends(Complete(Caller(project, c, Opening), old(generations.Snapshot()), old(Here()), i), r)
    {
      hide Coupled, Accept, Block, Matches, Judge;
      ghost var k := Caller(project, c, Opening);
      ghost var db := generations.Snapshot();
      if c !in generations.candidates { return None; }
      CandidateHome(db, c);
      var request := generations.requests[c.dispatch.request];
      if request.frozen.projectId != project { return None; }
      Entering(k, db, Here(), i);
      hide Complete;
      k := k.(phase := Looking);
      var prior := store.CandidateMessageId(request.frozen.sessionId, c);
      if prior.Err? {
        Raises(k, db, Here(), i);
        return None;
      }
      if prior.value.Some? {
        var verdict := AlreadyAccepted(prior.value.value);
        OneStep(k, db, Here(), i, k.(phase := Recording(verdict)), db, Here());
        r := Record(c, verdict, k.(phase := Recording(verdict)), Here(), i);
        return;
      }
      OneStep(k, db, Here(), i, k.(phase := Judging), db, Here());
      r := JudgeAndAppend(c, k.(phase := Judging), i);
    }

    method JudgeAndAppend(c: CandidateId, ghost k: Caller, i: Input) returns (r: Option<Verdict>)
      requires generations.Valid() && c in generations.candidates
      requires k.phase.Judging? && k.candidate == c
      modifies generations, store
      ensures generations.Valid()
      ensures Ends(Complete(k, old(generations.Snapshot()), old(Here()), i), r)
    {
      hide Coupled, Complete;
      ghost var db := generations.Snapshot();
      CandidateHome(db, c);
      var f := generations.requests[c.dispatch.request].frozen;
      var pending := PendingUser(f.prompts);
      var reason := None;
      if f.sessionId !in store.sessions {
        reason := Some(SessionGone);
      } else if store.sessions[f.sessionId].revision != f.expectedRevision {
        reason := Some(RevisionChanged);
      } else if canon != f.canon {
        reason := Some(CanonChanged);
      } else if guidance != f.guidance {
        reason := Some(GuidanceChanged);
      } else if !i.readable {
        Raises(k, db, Here(), i);
        return None;
      } else if c.response.Malformed? {
        reason := Some(NotAuthored);
      } else if c.response.NeedsReview? {
        reason := Some(ReviewRequired);
      } else if pending.None? || Blank(pending.value) {
        reason := Some(NoUserTurn);
      }
      if reason.Some? {
        OneStep(k, db, Here(), i, k.(phase := Blocking(reason.value)), db, Here());
        r := BlockWith(c, reason.value, k.(phase := Blocking(reason.value)), Here(), i);
        return;
      }
      ghost var next := k.(phase := Appending(pending.value, c.response.content));
      OneStep(k, db, Here(), i, next, db, Here());
      r := Append(c, f, pending.value, c.response.content, next, i);
    }

    method Append(c: CandidateId, f: Frozen, prompt: string, content: string, ghost k: Caller, i: Input)
      returns (r: Option<Verdict>)
      requires generations.Valid() && c in generations.candidates
      requires c.dispatch.request in generations.requests && f == generations.requests[c.dispatch.request].frozen
      requires k.phase == Appending(prompt, content) && k.candidate == c
      modifies generations, store
      ensures generations.Valid()
      ensures Ends(Complete(k, old(generations.Snapshot()), old(Here()), i), r)
    {
      hide Coupled, Complete, Matches;
      ghost var db := generations.Snapshot();
      ghost var lib := Here();
      CandidateHome(db, c);
      var turn := Turn(i.userId, prompt, i.assistantId, content, c);
      TurnMatches(i.userId, prompt, i.assistantId, content, c);
      ghost var next := Advance(k, db, lib, i);
      var written := store.AppendCandidateIfRevision(f.sessionId, f.expectedRevision, c, turn);
      match written {
        case Stale =>
          OneStep(k, db, lib, i, next.0, db, next.2);
          r := BlockWith(c, RevisionChanged, next.0, next.2, i);
        case NoSession =>
          OneStep(k, db, lib, i, next.0, db, next.2);
          r := BlockWith(c, SessionGone, next.0, next.2, i);
        case Inserted(m) =>
          OneStep(k, db, lib, i, next.0, db, next.2);
          r := Record(c, Verdict.Accepted(m), next.0, next.2, i);
        case AlreadyInserted(m) =>
          OneStep(k, db, lib, i, next.0, db, next.2);
          r := Record(c, AlreadyAccepted(m), next.0, next.2, i);
        case _ =>
          Raises(k, db, lib, i);
          r := None;
      }
    }

    method Record(c: CandidateId, verdict: Verdict, ghost k: Caller, ghost lib: Library, i: Input)
        returns (r: Option<Verdict>)
      requires generations.Valid() && c in generations.candidates && !verdict.Blocked?
      requires k.phase == Recording(verdict) && k.candidate == c
      modifies generations
      ensures generations.Valid()
      ensures var t := Complete(k, old(generations.Snapshot()), lib, i);
              && t.2 == lib && generations.Snapshot() == t.1
              && r == (if t.0.phase.Finished? then Some(t.0.phase.verdict) else None)
    {
      hide Coupled;
      CandidateHome(generations.Snapshot(), c);
      LastStep(k, generations.Snapshot(), lib, i);
      var recorded := generations.AcceptCandidate(c, verdict.id);
      r := if recorded.Ok? then Some(verdict) else None;
    }

    method BlockWith(c: CandidateId, reason: Reason, ghost k: Caller, ghost lib: Library, i: Input)
        returns (r: Option<Verdict>)
      requires generations.Valid() && c in generations.candidates
      requires k.phase == Blocking(reason) && k.candidate == c
      modifies generations
      ensures generations.Valid()
      ensures var t := Complete(k, old(generations.Snapshot()), lib, i);
              && t.2 == lib && generations.Snapshot() == t.1
              && r == (if t.0.phase.Finished? then Some(t.0.phase.verdict) else None)
    {
      hide Coupled;
      CandidateHome(generations.Snapshot(), c);
      LastStep(k, generations.Snapshot(), lib, i);
      var blocked := generations.BlockCandidate(c);
      r := if blocked.Ok? then Some(Verdict.Blocked(reason)) else None;
    }
  }

  /** Recording and blocking are the last steps of a call. */
  lemma LastStep(k: Caller, db: Db, lib: Library, i: Input)
    requires k.phase.Recording? || k.phase.Blocking?
    requires k.candidate in db.candidates && HasDispatch(db, k.candidate.dispatch)
    ensures Complete(k, db, lib, i) == Advance(k, db, lib, i)
  {
    var (l, db', lib') := Advance(k, db, lib, i);
    assert Complete(l, db', lib', i) == (l, db', lib');
  }

  lemma Raises(k: Caller, db: Db, lib: Library, i: Input)
    requires Advance(k, db, lib, i) == (k.(phase := Errored), db, lib) && Left(k.phase) > 0
    ensures Complete(k, db, lib, i) == (k.(phase := Errored), db, lib)
  {
  }
}
