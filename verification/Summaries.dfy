/** Derived summaries: a cache over an exact prefix of the durable conversation, usable
    only while that prefix is unchanged. */
module Summaries {
  import opened Basics
  import opened Custody
  import opened Sessions

  datatype Fact = Fact(text: string, evidence: seq<MessageId>)

  /** The facts of all six sections, in order. */
  datatype Sections = Sections(facts: seq<Fact>)

  function EvidenceIds(s: Sections): set<MessageId> {
    set f, m | f in s.facts && m in f.evidence :: m
  }

  /** What a prefix digest covers of one message. Digests are injective, so a digest is
      modelled by the value it digests. */
  datatype Line = Line(id: MessageId, role: Role, content: string)

  function Lines(ms: seq<Message>): (r: seq<Line>)
    ensures |r| == |ms|
  {
    seq(|ms|, i requires 0 <= i < |ms| => Line(ms[i].id, ms[i].role, ms[i].content))
  }

  function Ids(ms: seq<Message>): (r: seq<MessageId>)
    ensures |r| == |ms|
  {
    seq(|ms|, i requires 0 <= i < |ms| => ms[i].id)
  }

  datatype Source = Source(session: SessionId, context: Name, revision: nat, covered: seq<MessageId>, digest: seq<Line>)

  /** `text` is what the sections render to. */
  datatype Summary = Summary(source: Source, sections: Sections, text: string)

  function SourceFor(session: SessionId, context: Name, revision: nat, ms: seq<Message>): Source {
    Source(session, context, revision, Ids(ms), Lines(ms))
  }

  predicate EvidenceCovered(s: Summary) {
    forall m | m in EvidenceIds(s.sections) :: m in s.source.covered
  }

  /** Loading re-derives the identifiers and the digest from the current messages. */
  predicate Loads(s: Summary, session: SessionId, context: Name, ms: seq<Message>) {
    var k := |s.source.covered|;
    var prefix := if k <= |ms| then ms[..k] else ms;
    && s.source.session == session && s.source.context == context
    && Ids(prefix) == s.source.covered
    && Lines(prefix) == s.source.digest
  }

  /** A summary loads exactly for the conversation it names while the covered messages are,
      one by one, those it was made from. */
  lemma LoadsExactly(s: Summary, session: SessionId, context: Name, ms: seq<Message>)
    ensures Loads(s, session, context, ms) <==>
              var k := |s.source.covered|;
              && s.source.session == session && s.source.context == context
              && k <= |ms| && |s.source.digest| == k
              && forall i | 0 <= i < k ::
                   ms[i].id == s.source.covered[i]
                   && s.source.digest[i] == Line(ms[i].id, ms[i].role, ms[i].content)
  {
    var k := |s.source.covered|;
    var prefix := if k <= |ms| then ms[..k] else ms;
    if Loads(s, session, context, ms) {
      assert |Ids(prefix)| == k && |Lines(prefix)| == |s.source.digest|;
      forall i | 0 <= i < k ensures Ids(prefix)[i] == ms[i].id
          && Lines(prefix)[i] == Line(ms[i].id, ms[i].role, ms[i].content) {}
    } else if k <= |ms| && |s.source.digest| == k {
      if forall i | 0 <= i < k :: ms[i].id == s.source.covered[i]
                                  && s.source.digest[i] == Line(ms[i].id, ms[i].role, ms[i].content) {
        assert Ids(prefix) == s.source.covered && Lines(prefix) == s.source.digest;
      }
    }
  }

  /** A loaded summary covers exactly a prefix of the conversation. */
  lemma LoadedCoversPrefix(s: Summary, session: SessionId, context: Name, ms: seq<Message>)
    requires Loads(s, session, context, ms)
    ensures |s.source.covered| <= |ms|
    ensures s.source.digest == Lines(ms[..|s.source.covered|])
  {
    var k := |s.source.covered|;
    var prefix := if k <= |ms| then ms[..k] else ms;
    assert |Ids(prefix)| == k;
  }

  /** A fresh summary of a prefix loads from the conversation it was made from. */
  lemma FreshLoads(session: SessionId, context: Name, revision: nat, ms: seq<Message>, k: nat, sections: Sections,
      text: string)
    requires k <= |ms|
    ensures Loads(Summary(SourceFor(session, context, revision, ms[..k]), sections, text), session, context, ms)
  {
  }

  /** Conversations only grow, so a summary that loads keeps loading; conversely it loads
      from no conversation whose covered prefix differs. */
  lemma LoadsWhilePrefixKept(s: Summary, session: SessionId, context: Name, ms: seq<Message>, later: seq<Message>)
    requires Loads(s, session, context, ms)
    ensures Loads(s, session, context, later) <==>
              |s.source.covered| <= |later| && Lines(later[..|s.source.covered|]) == Lines(ms[..|s.source.covered|])
  {
    var k := |s.source.covered|;
    LoadedCoversPrefix(s, session, context, ms);
    if k <= |later| && Lines(later[..k]) == Lines(ms[..k]) {
      assert Ids(later[..k]) == Ids(ms[..k]) by {
        forall i | 0 <= i < k ensures later[..k][i].id == ms[..k][i].id {
          assert Lines(later[..k])[i] == Lines(ms[..k])[i];
        }
      }
    }
    if Loads(s, session, context, later) { LoadedCoversPrefix(s, session, context, later); }
  }
}
