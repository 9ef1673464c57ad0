/** Resumable maintenance: summarise the chunks in batches, then merge the summaries in
    pairs, saving the checkpoint after every success. */
module Maintenance {
  import opened Basics
  import opened Custody
  import opened Sessions
  import opened ContextBudget
  import opened Summaries
  import opened Chunking
  import opened MergeTrees

  /** Why a run stopped. `Killed` is not an exception: the process ended there. */
  datatype Failure = TooLarge | Unusable | CallFailed | Killed

  /** What becomes of a provider call: a reply, an exception, or the end of the process
      before the reply is saved. */
  datatype Reply = Replied(content: string) | CallRaised | ProcessEnds

  datatype Mode = Plain | Repair | Aggressive | Rebalance

  const MERGED_MAX_FACTS := 60
  const MERGED_MAX_TEXT_CHARS := 300
  const MERGED_MAX_EVIDENCE_IDS := 4
  const DENSE_CHILD_MAX_FACTS := 32
  const DENSE_CHILD_MAX_TEXT_CHARS := 300
  const DENSE_CHILD_MAX_EVIDENCE_IDS := 4

  predicate Within(s: Sections, facts: nat, text: nat, evidence: nat) {
    |s.facts| <= facts && forall f | f in s.facts :: |f.text| <= text && |f.evidence| <= evidence
  }

  function FactCount(n: Node): nat {
    |n.sections.facts|
  }

  /** At most `bound` further calls, none for a key in `known`. */
  ghost predicate Spent(before: seq<Digest>, after: seq<Digest>, bound: nat, known: set<Digest>) {
    && |before| <= |after| <= |before| + bound
    && after[..|before|] == before
    && forall i | |before| <= i < |after| :: after[i] !in known
  }

  lemma SpentTransitive(a: seq<Digest>, b: seq<Digest>, c: seq<Digest>, m: nat, n: nat, known: set<Digest>,
      more: set<Digest>)
    requires Spent(a, b, m, known) && Spent(b, c, n, more) && known <= more
    ensures Spent(a, c, m + n, known)
  {
    assert c[..|a|] == b[..|a|];
    forall i | |a| <= i < |c| ensures c[i] !in known {
      if i < |b| { assert c[..|b|][i] == b[i]; }
    }
  }

  /** What the merge phase moves: the checkpoint, the keys it can look up, the call log,
      the keys whose calls succeeded, and the nodes it has used with their keys. */
  datatype Progress = Progress(
    work: Work,
    known: set<Digest>,
    calls: seq<Digest>,
    succeeded: set<Digest>,
    used: set<Digest>,
    listed: set<Node>)

  ghost predicate Advances(s: Progress, t: Progress, bound: nat) {
    && t.work == s.work.(merges := t.work.merges)
    && s.known <= t.known
    && s.succeeded <= t.succeeded
    && t.known <= s.known + t.succeeded
    && s.used <= t.used && s.listed <= t.listed
    && Spent(s.calls, t.calls, bound, s.known)
    && forall i | |s.calls| <= i < |t.calls| :: !t.calls[i].Leaf?
  }

  lemma AdvancesTransitive(s: Progress, t: Progress, u: Progress, m: nat, n: nat)
    requires Advances(s, t, m) && Advances(t, u, n)
    ensures Advances(s, u, m + n)
  {
    hide Spent;
    SpentTransitive(s.calls, t.calls, u.calls, m, n, s.known, t.known);
    SpentGives(t.calls, u.calls, n, t.known);
    forall i | |s.calls| <= i < |u.calls| ensures !u.calls[i].Leaf? {
      if i < |t.calls| { assert u.calls[..|t.calls|][i] == t.calls[i]; }
    }
  }

  lemma SpentGives(a: seq<Digest>, b: seq<Digest>, m: nat, known: set<Digest>)
    requires Spent(a, b, m, known)
    ensures |a| <= |b| <= |a| + m && b[..|a|] == a
  {
  }

  lemma AdvancesWithin(s: Progress, t: Progress, m: nat, n: nat)
    requires Advances(s, t, m) && m <= n
    ensures Advances(s, t, n)
  {
  }

  // ---------- Leaf results by index ----------

  ghost predicate ResolvedSound(resolved: map<nat, Node>, chunks: seq<seq<Message>>) {
    forall i | i in resolved :: i < |chunks| && resolved[i].digest == LeafKey(chunks[i]) && NodeSound(resolved[i])
  }

  function Sorted(resolved: map<nat, Node>, n: nat): seq<Node> {
    if n == 0 then [] else Sorted(resolved, n - 1) + (if n - 1 in resolved then [resolved[n - 1]] else [])
  }

  lemma {:induction false} SortedHas(resolved: map<nat, Node>, n: nat)
    ensures forall m :: m in Sorted(resolved, n) <==> exists i :: 0 <= i < n && i in resolved && resolved[i] == m
  {
    if n > 0 { SortedHas(resolved, n - 1); }
  }

  lemma {:induction false} SortedAll(resolved: map<nat, Node>, n: nat)
    requires forall i | 0 <= i < n :: i in resolved
    ensures |Sorted(resolved, n)| == n && forall i | 0 <= i < n :: Sorted(resolved, n)[i] == resolved[i]
  {
    if n > 0 { SortedAll(resolved, n - 1); }
  }

  function Missing(keys: seq<Digest>, known: set<Digest>): nat {
    if keys == [] then 0 else Missing(keys[..|keys| - 1], known) + (if keys[|keys| - 1] in known then 0 else 1)
  }

  // ---------- The maintainer ----------

  /** What the n-th provider call returns, how its text parses, what sections render to,
      and the token counts of the prompts. */
  datatype Model = Model(
    replies: nat -> Reply,
    parse: string -> Option<Sections>,
    render: Sections -> string,
    leafCost: seq<Message> -> int,
    mergeCost: (seq<Node>, Mode) -> int)

  function Unanswered(reply: Reply): Failure {
    if reply.CallRaised? then CallFailed else Killed
  }

  /** The checks on one leaf reply: the raw text is bounded, it parses, and it cites only
      its own chunk. */
  function CheckLeaf(content: string, chunk: seq<Message>, policy: Policy, counter: Counter,
      model: Model): (r: Result<Sections, Failure>)
    ensures r.Ok? ==> EvidenceIds(r.value) <= IdSet(Ids(chunk))
  {
    if CountText(counter, content) > policy.summaryMax then Err(TooLarge)
    else
      var sections := model.parse(content);
      if sections.None? || !(EvidenceIds(sections.value) <= IdSet(Ids(chunk))) then Err(Unusable)
      else Ok(sections.value)
  }

  /** The checks on one merge reply, which also bound its facts. */
  function CheckMerge(content: string, ids: seq<MessageId>, policy: Policy, counter: Counter,
      model: Model): (r: Result<Sections, Failure>)
    ensures r.Ok? ==> EvidenceIds(r.value) <= IdSet(ids)
  {
    if CountText(counter, content) > policy.summaryMax then Err(TooLarge)
    else
      var sections := model.parse(content);
      if sections.None? || !Within(sections.value, MERGED_MAX_FACTS, MERGED_MAX_TEXT_CHARS, MERGED_MAX_EVIDENCE_IDS)
      then Err(Unusable)
      else if !(EvidenceIds(sections.value) <= IdSet(ids)) then Err(Unusable)
      else Ok(sections.value)
  }

  /** The checks on one compacted child. */
  function CheckDense(content: string, ids: seq<MessageId>, policy: Policy, counter: Counter,
      model: Model): (r: Result<Sections, Failure>)
    ensures r.Ok? ==> EvidenceIds(r.value) <= IdSet(ids)
  {
    if CountText(counter, content) > policy.summaryMax then Err(TooLarge)
    else
      var sections := model.parse(content);
      if sections.None? then Err(Unusable)
      else if !Within(sections.value, DENSE_CHILD_MAX_FACTS, DENSE_CHILD_MAX_TEXT_CHARS, DENSE_CHILD_MAX_EVIDENCE_IDS)
      then Err(Unusable)
      else if !(EvidenceIds(sections.value) <= IdSet(ids)) then Err(Unusable)
      else Ok(sections.value)
  }

  /** A reply that may become the node of this key: it parses, cites only what the key
      covers, and is as compact as a merge or a compacted child has to be. */
  ghost predicate Acceptable(key: Digest, content: string, model: Model) {
    && model.parse(content).Some?
    && var facts := model.parse(content).value.facts;
       && (forall f, m | f in facts && m in f.evidence :: m in IdsOf(key))
       && match key
          case Leaf(_) => true
          case Merge(_, _) => |facts| <= 60 && forall f | f in facts :: |f.text| <= 300 && |f.evidence| <= 4
          case Dense(_) => |facts| <= 32 && forall f | f in facts :: |f.text| <= 300 && |f.evidence| <= 4
  }

  /** The node carries the reply to one call of this run that was made under its key. */
  ghost predicate MadeBy(n: Node, calls: seq<Digest>, first: nat, policy: Policy, counter: Counter, model: Model) {
    exists i :: first <= i < |calls| && calls[i] == n.digest && MadeFrom(n, model.replies(i), policy, counter, model)
  }

  ghost predicate MadeFrom(n: Node, reply: Reply, policy: Policy, counter: Counter, model: Model) {
    && reply.Replied?
    && CountText(counter, reply.content) <= policy.summaryMax
    && Acceptable(n.digest, reply.content, model)
    && model.parse(reply.content) == Some(n.sections)
  }

  /** A run fails only for a reason: a call that raised or ended the process, a reply that is
      too long or unacceptable, or a merge prompt beyond the budget. */
  ghost predicate Excused(e: Failure, calls: seq<Digest>, first: nat, nodes: set<Node>, policy: Policy,
      counter: Counter, model: Model)
  {
    match e
    case CallFailed => exists i :: first <= i < |calls| && model.replies(i).CallRaised?
    case Killed => exists i :: first <= i < |calls| && model.replies(i).ProcessEnds?
    case Unusable =>
      exists i :: first <= i < |calls| && model.replies(i).Replied?
          && !Acceptable(calls[i], model.replies(i).content, model)
    case TooLarge =>
      || (exists i :: first <= i < |calls| && model.replies(i).Replied?
                      && CountText(counter, model.replies(i).content) > policy.summaryMax)
      || exists ns: seq<Node>, mode: Mode ::
           (forall n | n in ns :: n in nodes) && model.mergeCost(ns, mode) > Application(policy)
  }

  lemma MadeGrows(n: Node, a: seq<Digest>, b: seq<Digest>, first: nat, policy: Policy, counter: Counter, model: Model)
    requires MadeBy(n, a, first, policy, counter, model) && |a| <= |b| && b[..|a|] == a
    ensures MadeBy(n, b, first, policy, counter, model)
  {
    hide MadeFrom;
    var i :| first <= i < |a| && a[i] == n.digest && MadeFrom(n, model.replies(i), policy, counter, model);
    assert b[..|a|][i] == b[i];
  }

  lemma ExcusedGrows(e: Failure, a: seq<Digest>, b: seq<Digest>, first: nat, c: set<Node>, d: set<Node>,
      policy: Policy, counter: Counter, model: Model)
    requires Excused(e, a, first, c, policy, counter, model) && |a| <= |b| && b[..|a|] == a && c <= d
    ensures Excused(e, b, first, d, policy, counter, model)
  {
    hide Acceptable, CountText;
    assert forall i | 0 <= i < |a| :: b[..|a|][i] == b[i];
    if e.Unusable? {
      var i :| first <= i < |a| && model.replies(i).Replied? && !Acceptable(a[i], model.replies(i).content, model);
      assert !Acceptable(b[i], model.replies(i).content, model);
    }
  }

  /** The checks accept a reply exactly when it is short enough and acceptable for its key. */
  lemma LeafChecked(content: string, chunk: seq<Message>, policy: Policy, counter: Counter, model: Model)
    ensures var r := CheckLeaf(content, chunk, policy, counter, model);
            && (r == Err(TooLarge) <==> CountText(counter, content) > policy.summaryMax)
            && (r.Ok? <==>
                  CountText(counter, content) <= policy.summaryMax && Acceptable(LeafKey(chunk), content, model))
            && (r.Ok? ==> model.parse(content) == Some(r.value))
            && (r.Err? ==> r.error in {TooLarge, Unusable})
  {
    assert IdsOf(LeafKey(chunk)) == Ids(chunk);
    hide CountText;
    if model.parse(content).Some? { EvidenceInside(model.parse(content).value, Ids(chunk)); }
  }

  lemma MergeChecked(content: string, key: Digest, policy: Policy, counter: Counter, model: Model)
    requires key.Merge?
    ensures var r := CheckMerge(content, IdsOf(key), policy, counter, model);
            && (r == Err(TooLarge) <==> CountText(counter, content) > policy.summaryMax)
            && (r.Ok? <==> CountText(counter, content) <= policy.summaryMax && Acceptable(key, content, model))
            && (r.Ok? ==> model.parse(content) == Some(r.value))
            && (r.Err? ==> r.error in {TooLarge, Unusable})
  {
    hide CountText, IdsOf;
    if model.parse(content).Some? { EvidenceInside(model.parse(content).value, IdsOf(key)); }
  }

  lemma DenseChecked(content: string, key: Digest, policy: Policy, counter: Counter, model: Model)
    requires key.Dense?
    ensures var r := CheckDense(content, IdsOf(key), policy, counter, model);
            && (r == Err(TooLarge) <==> CountText(counter, content) > policy.summaryMax)
            && (r.Ok? <==> CountText(counter, content) <= policy.summaryMax && Acceptable(key, content, model))
            && (r.Ok? ==> model.parse(content) == Some(r.value))
            && (r.Err? ==> r.error in {TooLarge, Unusable})
  {
    hide CountText, IdsOf;
    if model.parse(content).Some? { EvidenceInside(model.parse(content).value, IdsOf(key)); }
  }

  lemma EvidenceInside(s: Sections, ids: seq<MessageId>)
    ensures EvidenceIds(s) <= IdSet(ids) <==> forall f, m | f in s.facts && m in f.evidence :: m in ids
  {
    if EvidenceIds(s) <= IdSet(ids) {
      forall f, m | f in s.facts && m in f.evidence ensures m in ids { assert m in EvidenceIds(s); }
    }
  }

  /** One conversation's maintainer together with the two files it keeps and the log of
      its provider calls, each under the key it is made for. */
  class ContextMaintainer {
    const policy: Policy
    const counter: Counter
    const maker: Maker
    const width: nat
    const model: Model

    var disk: Option<Work>
    var summary: Option<Summary>
    var calls: seq<Digest>
    var work: Work
    var completed: map<Digest, Node>
    var saved: seq<Node>
    var used: seq<Node>
    ghost var succeeded: set<Digest>
    /** The nodes found on disk, those made since, and where this run's calls begin. */
    ghost var origin: set<Node>
    ghost var made: set<Node>
    ghost var first: nat

    constructor (policy: Policy, counter: Counter, maker: Maker, concurrency: int, model: Model, disk: Option<Work>)
      requires maker.model in maker.compatible && (disk.Some? ==> WorkSound(disk.value))
      ensures Valid() && calls == [] && this.disk == disk && this.maker == maker
    {
      this.policy, this.counter, this.maker, this.model, this.disk := policy, counter, maker, model, disk;
      width := if concurrency < 1 then 1 else concurrency;
      summary, calls, completed, saved, used, succeeded := None, [], map[], [], [], {};
      origin, made, first := {}, {}, 0;
      work := Work(Source(0, maker.model, 0, [], []), maker.model, maker.counter, [], []);
    }

    ghost predicate Valid()
      reads this`disk
    {
      && width >= 1
      && maker.model in maker.compatible
      && (disk.Some? ==> WorkSound(disk.value))
    }

    /** Every node made in this run carries the reply logged under its key. */
    ghost predicate MadeSound()
      reads this`made, this`calls, this`first
    {
      first <= |calls| && forall n | n in made :: MadeBy(n, calls, first, policy, counter, model)
    }

    /** This failure has its reason in this run. */
    ghost predicate HasReason(e: Failure)
      reads this`origin, this`made, this`calls, this`first
    {
      Excused(e, calls, first, origin + made, policy, counter, model)
    }

    /** Between two steps of the merge phase. */
    ghost predicate Ready()
      reads this`disk, this`work, this`completed, this`saved, this`used, this`succeeded, this`origin, this`made
    {
      && disk == Some(work) && work.merges == saved && WorkSound(work)
      && completed == Lookup(saved)
      && (forall n | n in used :: n in saved)
      && (forall n | n in work.chunks || n in saved :: n in origin || n in made)
      && (forall k | k in succeeded :: k in Digests(work.chunks) || k in Digests(used))
    }

    ghost function Here(): Progress
      reads this`work, this`completed, this`calls, this`succeeded, this`used
    {
      Progress(work, completed.Keys, calls, succeeded, Digests(used), Listed())
    }

    /** The leaves, and the merges and compacted children in use. */
    ghost function Listed(): set<Node>
      reads this`work, this`used
    {
      (set n | n in work.chunks) + (set n | n in used)
    }

    method Generate(key: Digest) returns (r: Reply)
      requires MadeSound()
      modifies this`calls
      ensures MadeSound() && first < |calls|
      ensures forall e | old(HasReason(e)) :: HasReason(e)
      ensures calls == old(calls) + [key] && r == model.replies(|old(calls)|)
    {
      hide MadeBy, Excused;
      r := model.replies(|calls|);
      forall e | HasReason(e) ensures Excused(e, calls + [key], first, origin + made, policy, counter, model) {
        ExcusedGrows(e, calls, calls + [key], first, origin + made, origin + made, policy, counter, model);
      }
      forall n | n in made ensures MadeBy(n, calls + [key], first, policy, counter, model) {
        MadeGrows(n, calls, calls + [key], first, policy, counter, model);
      }
      calls := calls + [key];
    }

    /** A reply that was not one, or was not good enough, is a reason to fail. */
    lemma LastReplyExcuses(e: Failure)
      requires |calls| > first
      requires var reply := model.replies(|calls| - 1);
               || (!reply.Replied? && e == Unanswered(reply))
               || (reply.Replied? && e == TooLarge && CountText(counter, reply.content) > policy.summaryMax)
               || (reply.Replied? && e == Unusable && !Acceptable(calls[|calls| - 1], reply.content, model))
      ensures HasReason(e)
    {
      hide Acceptable, CountText;
    }

    lemma PromptExcuses(ns: seq<Node>, mode: Mode)
      requires forall n | n in ns :: n in origin || n in made
      requires model.mergeCost(ns, mode) > Application(policy)
      ensures HasReason(TooLarge)
    {
    }

    lemma LastReplyMakes(n: Node)
      requires |calls| > first && calls[|calls| - 1] == n.digest
      requires MadeFrom(n, model.replies(|calls| - 1), policy, counter, model)
      ensures MadeBy(n, calls, first, policy, counter, model)
    {
      hide MadeFrom;
    }

    lemma ReadyGives()
      requires Ready()
      ensures completed.Keys == Digests(saved)
      ensures forall d | d in completed :: completed[d].digest == d && NodeSound(completed[d]) && !d.Leaf?
      ensures forall d | d in completed :: completed[d] in saved
      ensures forall n | n in Listed() :: n in origin || n in made
    {
      LookupSound(saved);
      LookupInside(saved);
      forall d | d in completed ensures !d.Leaf? {
        var n :| n in saved && n.digest == d;
        assert n in work.merges;
      }
    }

    /** A merge that has been paid for is saved at once. */
    method Keep(n: Node)
      requires Ready() && NodeSound(n) && !n.digest.Leaf?
      requires MadeSound() && MadeBy(n, calls, first, policy, counter, model)
      modifies this`disk, this`work, this`completed, this`saved, this`used, this`succeeded, this`made
      ensures Ready() && MadeSound() && old(made) <= made
      ensures Here() == old(Here()).(work := work, known := old(completed.Keys) + {n.digest},
                                     succeeded := old(succeeded) + {n.digest},
                                     used := Digests(old(used)) + {n.digest},
                                     listed := old(Listed()) + {n})
      ensures work == old(work).(merges := work.merges)
    {
      hide NodeSound, Lookup, Digests, MadeBy, WorkSound;
      WorkSoundPush(work, n);
      LookupPush(saved, n);
      UsedPush(saved, n);
      UsedPush(used, n);
      completed := completed[n.digest := n];
      saved := saved + [n];
      used := used + [n];
      work := work.(merges := saved);
      disk := Some(work);
      succeeded := succeeded + {n.digest};
      made := made + {n};
      assert Listed() == old(Listed()) + {n};
    }

    method Reuse(n: Node)
      requires Ready() && n in saved
      modifies this`used
      ensures Ready()
      ensures Here() == old(Here()).(used := Digests(old(used)) + {n.digest}, listed := old(Listed()) + {n})
    {
      hide NodeSound, Lookup, Digests;
      UsedPush(used, n);
      used := used + [n];
      assert Listed() == old(Listed()) + {n};
    }

    /** Compact a child that is too dense for a bounded parent merge. */
    method Reduce(child: Node) returns (r: Result<Node, Failure>)
      requires |child.sections.facts| > 32
      requires Ready() && NodeSound(child) && Held(child.digest, Here().used)
      requires MadeSound() && child in Listed()
      modifies this`disk, this`work, this`completed, this`saved, this`used, this`succeeded, this`calls, this`made
      ensures Ready() && Advances(old(Here()), Here(), 1) && MadeSound() && old(made) <= made
      ensures r.Err? ==> HasReason(r.error)
      ensures r.Ok? ==> r.value in Listed()
      ensures calls != old(calls) ==> model.mergeCost([child], Rebalance) <= Application(policy)
      ensures r.Ok? ==> r.value.digest == if |child.sections.facts| <= 32 then child.digest else Dense(child.digest)
      ensures r.Ok? ==> NodeSound(r.value) && r.value.ids == child.ids && Leaves(r.value.digest) == Leaves(child.digest)
      ensures r.Ok? ==> Held(r.value.digest, Here().used)
    {
      hide Lookup, WorkSound, Digests, Ready, CountText, MadeSound, CheckDense, Acceptable, EvidenceIds, IdSet, Listed,
          HasReason;
      var key := Dense(child.digest);
      ReadyGives();
      HeldGrows(child.digest, Here().used, Here().used + {key});
      if key in completed && completed[key].ids == child.ids {
        var cached := completed[key];
        if !(EvidenceIds(cached.sections) <= IdSet(child.ids)) { return Err(Unusable); }
        Reuse(cached);
        return Ok(cached);
      }
      if model.mergeCost([child], Rebalance) > Application(policy) {
        PromptExcuses([child], Rebalance);
        return Err(TooLarge);
      }
      var reply := Generate(key);
      if !reply.Replied? {
        LastReplyExcuses(Unanswered(reply));
        return Err(Unanswered(reply));
      }
      var verdict := CheckDense(reply.content, child.ids, policy, counter, model);
      DenseChecked(reply.content, key, policy, counter, model);
      if verdict.Err? {
        LastReplyExcuses(verdict.error);
        return Err(verdict.error);
      }
      var item := Node(key, child.ids, verdict.value);
      LastReplyMakes(item);
      Keep(item);
      return Ok(item);
    }

    /** One attempt at a merge. It is final if the prompt is too long or gets no reply. */
    method Attempt(left: Node, right: Node, key: Digest, ids: seq<MessageId>, mode: Mode)
        returns (r: Result<Node, Failure>, final: bool)
      requires MadeSound() && key.Merge? && ids == IdsOf(key)
      requires forall n | n in [left, right] :: n in origin || n in made
      modifies this`calls
      ensures MadeSound()
      ensures if model.mergeCost([left, right], mode) <= Application(policy) then calls == old(calls) + [key]
              else calls == old(calls) && final && r == Err(TooLarge)
      ensures final ==> r.Err?
      ensures r.Err? ==> HasReason(r.error)
      ensures r.Ok? ==> r.value.digest == key && NodeSound(r.value)
      ensures r.Ok? ==> MadeBy(r.value, calls, first, policy, counter, model)
    {
      hide MadeSound, HasReason, CheckMerge, Acceptable, CountText, MadeBy, EvidenceIds, IdSet;
      if model.mergeCost([left, right], mode) > Application(policy) {
        PromptExcuses([left, right], mode);
        return Err(TooLarge), true;
      }
      var reply := Generate(key);
      if !reply.Replied? {
        LastReplyExcuses(Unanswered(reply));
        return Err(Unanswered(reply)), true;
      }
      MergeChecked(reply.content, key, policy, counter, model);
      var verdict := CheckMerge(reply.content, ids, policy, counter, model);
      if verdict.Err? {
        LastReplyExcuses(verdict.error);
        return Err(verdict.error), false;
      }
      LastReplyMakes(Node(key, ids, verdict.value));
      return Ok(Node(key, ids, verdict.value)), false;
    }

    /** One or two attempts at a merge; the second one asks for a tighter result. */
    method Combine(left: Node, right: Node, key: Digest, ids: seq<MessageId>) returns (r: Result<Node, Failure>)
      requires Ready() && key !in completed && key.Merge? && ids == IdsOf(key)
      requires MadeSound() && left in Listed() && right in Listed()
      modifies this`disk, this`work, this`completed, this`saved, this`used, this`succeeded, this`calls, this`made
      ensures Ready() && Advances(old(Here()), Here(), 2) && MadeSound() && old(made) <= made
      ensures r.Err? ==> HasReason(r.error)
      ensures r.Ok? ==> r.value in Listed()
      ensures r.Ok? ==> NodeSound(r.value) && r.value.digest == key && key in completed && key in succeeded
      ensures r.Ok? ==> key in Here().used
    {
      hide Lookup, WorkSound, Ready, MadeSound, HasReason, NodeSound, MadeBy, Spent, Advances;
      ghost var s := Here();
      SpentNothing(calls, s.known);
      assert forall n | n in [left, right] :: n in origin || n in made by { ReadyGives(); }
      var aggressive := FactCount(left) + FactCount(right) > MERGED_MAX_FACTS;
      var modes := if aggressive then [false] else [false, true];
      for i := 0 to |modes|
        invariant i < |modes| && Ready() && key !in completed && MadeSound() && made == old(made)
        invariant Here() == s.(calls := calls) && Spent(s.calls, calls, i, s.known)
        invariant forall j | |s.calls| <= j < |calls| :: calls[j] == key
      {
        var repair := modes[i];
        var mode := if repair then Repair else if aggressive then Aggressive else Plain;
        var final;
        ghost var before := calls;
        r, final := Attempt(left, right, key, ids, mode);
        AttemptSpends(s.calls, before, calls, i, key, s.known);
        CallsAdvance(s, Here(), i + 1, key);
        AdvancesWithin(s, Here(), i + 1, 2);
        if r.Ok? {
          ghost var t := Here();
          Keep(r.value);
          KeptAdvances(s, t, Here(), r.value);
          return;
        }
        if final || repair || aggressive { return; }
      }
      assert false;
    }

    method Balance(child: Node) returns (r: Result<Node, Failure>)
      requires Ready() && NodeSound(child) && Held(child.digest, Here().used)
      requires MadeSound() && child in Listed()
      modifies this`disk, this`work, this`completed, this`saved, this`used, this`succeeded, this`calls, this`made
      ensures Ready() && Advances(old(Here()), Here(), 1) && MadeSound() && old(made) <= made
      ensures r.Err? ==> HasReason(r.error)
      ensures r.Ok? ==> r.value in Listed()
      ensures calls != old(calls) ==> model.mergeCost([child], Rebalance) <= Application(policy)
      ensures r.Ok? ==> r.value.digest == if |child.sections.facts| <= 32 then child.digest else Dense(child.digest)
      ensures r.Ok? ==> NodeSound(r.value) && r.value.ids == child.ids && Leaves(r.value.digest) == Leaves(child.digest)
      ensures r.Ok? ==> Held(r.value.digest, Here().used)
    {
      hide Ready, MadeSound, HasReason;
      if FactCount(child) <= DENSE_CHILD_MAX_FACTS { return Ok(child); }
      r := Reduce(child);
    }

    /** A node found under its key and ids. The evidence check on it cannot fail. */
    method Cached(key: Digest, ids: seq<MessageId>) returns (r: Option<Result<Node, Failure>>)
      requires Ready() && ids == IdsOf(key)
      modifies this`used
      ensures Ready() && Here() == old(Here()).(used := Here().used, listed := Here().listed)
      ensures old(Here()).used <= Here().used
      ensures r.Some? ==> key in Here().used && r.value.Ok? && r.value.value in Listed()
      ensures old(Here()).listed <= Here().listed
      ensures r.None? <==> key !in completed
      ensures r.Some? ==> r.value.Ok? && NodeSound(r.value.value) && r.value.value.digest == key
    {
      hide Ready;
      ReadyGives();
      if key in completed && completed[key].ids == ids {
        var cached := completed[key];
        if !(EvidenceIds(cached.sections) <= IdSet(ids)) { return Some(Err(Unusable)); }
        Reuse(cached);
        return Some(Ok(cached));
      }
      return None;
    }

    method MergePair(left: Node, right: Node) returns (r: Result<Node, Failure>)
      requires Ready() && NodeSound(left) && NodeSound(right)
      requires Held(left.digest, Here().used) && Held(right.digest, Here().used)
      requires MadeSound() && left in Listed() && right in Listed()
      modifies this`disk, this`work, this`completed, this`saved, this`used, this`succeeded, this`calls, this`made
      ensures Ready() && Advances(old(Here()), Here(), 4) && MadeSound() && old(made) <= made
      ensures r.Err? ==> HasReason(r.error)
      ensures r.Ok? ==> r.value in Listed()
      ensures r.Ok? && (Merge(left.digest, right.digest) in old(completed)
                        || |left.sections.facts| + |right.sections.facts| <= 60) ==>
                r.value.digest == Merge(left.digest, right.digest)
      ensures r.Ok? && Merge(left.digest, right.digest) !in old(completed)
              && |left.sections.facts| + |right.sections.facts| > 60 ==>
                r.value.digest == Merge(if |left.sections.facts| <= 32 then left.digest else Dense(left.digest),
                                        if |right.sections.facts| <= 32 then right.digest else Dense(right.digest))
      ensures r.Ok? ==> NodeSound(r.value) && Leaves(r.value.digest) == Leaves(left.digest) + Leaves(right.digest)
      ensures r.Ok? ==> Held(r.value.digest, Here().used)
    {
      hide Ready, Advances, Digests, MadeSound, HasReason;
      ghost var s := Here();
      var ids := left.ids + right.ids;
      Stays(s);
      var hit := Cached(Merge(left.digest, right.digest), ids);
      Looked(s, Here());
      HeldGrows(left.digest, s.used, Here().used);
      HeldGrows(right.digest, s.used, Here().used);
      if hit.Some? { return hit.value; }
      var a, b := left, right;
      if FactCount(left) + FactCount(right) > MERGED_MAX_FACTS {
        ghost var u := Here();
        var x := Balance(left);
        ghost var t := Here();
        AdvancesTransitive(s, u, t, 0, 1);
        AdvancesWithin(s, t, 1, 4);
        if x.Err? { return x; }
        UsedGrows(u, t, 1);
        HeldGrows(right.digest, u.used, t.used);
        var y := Balance(right);
        ghost var v := Here();
        AdvancesTransitive(s, t, v, 1, 1);
        AdvancesWithin(s, v, 2, 4);
        if y.Err? { return y; }
        UsedGrows(t, v, 1);
        HeldGrows(x.value.digest, t.used, v.used);
        a, b := x.value, y.value;
        var again := Cached(Merge(a.digest, b.digest), ids);
        Looked(v, Here());
        AdvancesTransitive(s, v, Here(), 2, 0);
        AdvancesWithin(s, Here(), 2, 4);
        HeldGrows(a.digest, v.used, Here().used);
        HeldGrows(b.digest, v.used, Here().used);
        if again.Some? { return again.value; }
      } else {
        AdvancesWithin(s, Here(), 0, 2);
      }
      ghost var u := Here();
      r := Combine(a, b, Merge(a.digest, b.digest), ids);
      UsedGrows(u, Here(), 2);
      HeldGrows(a.digest, u.used, Here().used);
      HeldGrows(b.digest, u.used, Here().used);
      AdvancesTransitive(s, u, Here(), 2, 2);
    }

    /** One level of pair merges; an odd last node moves up unchanged. */
    method MergeLevel(level: seq<Node>) returns (r: Result<seq<Node>, Failure>)
      requires Ready() && NodesSound(level) && NodesHeld(level, Here().used)
      requires MadeSound() && forall n | n in level :: n in Listed()
      modifies this`disk, this`work, this`completed, this`saved, this`used, this`succeeded, this`calls, this`made
      ensures Ready() && Advances(old(Here()), Here(), 4 * (|level| / 2)) && MadeSound() && old(made) <= made
      ensures r.Err? ==> HasReason(r.error)
      ensures r.Ok? ==> forall n | n in r.value :: n in Listed()
      ensures r.Ok? ==>
                && |r.value| == |level| - |level| / 2 && NodesSound(r.value)
                && LevelLeaves(r.value) == LevelLeaves(level) && NodesHeld(r.value, Here().used)
    {
      hide Ready, Advances, NodeSound, Leaves, LevelLeaves, Held, Digests, MadeSound, HasReason, Listed;
      var next: seq<Node> := [];
      var offset := 0;
      ghost var s := Here();
      Stays(s);
      assert level[..0] == [];
      while offset < |level|
        invariant 0 <= offset <= |level| && (offset % 2 == 0 || offset == |level|)
        invariant |next| == offset - offset / 2
        invariant Ready() && Advances(s, Here(), 4 * (offset / 2))
        invariant NodesSound(next) && LevelLeaves(next) == LevelLeaves(level[..offset])
        invariant NodesHeld(level, Here().used) && NodesHeld(next, Here().used)
        invariant MadeSound() && old(made) <= made && (forall n | n in level || n in next :: n in Listed())
        decreases |level| - offset
      {
        if offset + 1 == |level| {
          assert level[..offset + 1] == level[..offset] + [level[offset]];
          LevelPush(level[..offset], level[offset]);
          LevelPush(next, level[offset]);
          next := next + [level[offset]];
          offset := offset + 1;
        } else {
          ghost var t := Here();
          var merged := MergePair(level[offset], level[offset + 1]);
          AdvancesTransitive(s, t, Here(), 4 * (offset / 2), 4);
          AdvancesWithin(s, Here(), 4 * (offset / 2) + 4, 4 * (|level| / 2));
          if merged.Err? { return Err(merged.error); }
          UsedGrows(t, Here(), 4);
          NodesHeldGrow(level, t.used, Here().used);
          NodesHeldGrow(next, t.used, Here().used);
          LevelPair(level, offset, next, merged.value);
          next := next + [merged.value];
          offset := offset + 2;
        }
      }
      assert level[..offset] == level;
      return Ok(next);
    }

    /** Level by level down to one node over all the chunks, in at most four calls per
        pair merge. */
    method MergeAll(ordered: seq<Node>) returns (r: Result<Node, Failure>)
      requires Ready() && NodesSound(ordered) && NodesHeld(ordered, Here().used) && ordered != []
      requires MadeSound() && forall n | n in ordered :: n in Listed()
      modifies this`disk, this`work, this`completed, this`saved, this`used, this`succeeded, this`calls, this`made
      ensures Ready() && Advances(old(Here()), Here(), 4 * (|ordered| - 1)) && MadeSound() && old(made) <= made
      ensures r.Err? ==> HasReason(r.error)
      ensures r.Ok? ==> r.value in Listed()
      ensures r.Ok? ==> NodeSound(r.value) && Leaves(r.value.digest) == LevelLeaves(ordered)
      ensures r.Ok? ==> Held(r.value.digest, Here().used)
    {
      hide Ready, Advances, NodeSound, Leaves, LevelLeaves, Held, Digests, MadeSound, HasReason, Listed;
      var level := ordered;
      ghost var s := Here();
      Stays(s);
      while |level| > 1
        invariant 1 <= |level| <= |ordered|
        invariant Ready() && Advances(s, Here(), 4 * (|ordered| - |level|))
        invariant MadeSound() && old(made) <= made && forall n | n in level :: n in Listed()
        invariant NodesSound(level) && LevelLeaves(level) == LevelLeaves(ordered) && NodesHeld(level, Here().used)
        decreases |level|
      {
        ghost var t := Here();
        var next := MergeLevel(level);
        AdvancesTransitive(s, t, Here(), 4 * (|ordered| - |level|), 4 * (|level| / 2));
        AdvancesWithin(s, Here(), 4 * (|ordered| - |level|) + 4 * (|level| / 2), 4 * (|ordered| - 1));
        if next.Err? { return Err(next.error); }
        level := next.value;
      }
      SingleLevel(level[0]);
      assert level == [level[0]];
      return Ok(level[0]);
    }

    // ---------- Leaf chunks ----------

    method Summarize(chunk: seq<Message>) returns (r: Result<Node, Failure>)
      requires MadeSound()
      modifies this`calls
      ensures MadeSound()
      ensures forall e | old(HasReason(e)) :: HasReason(e)
      ensures r.Err? ==> HasReason(r.error)
      ensures r.Ok? ==> MadeBy(r.value, calls, first, policy, counter, model)
      ensures calls == old(calls) + [LeafKey(chunk)]
      ensures r.Ok? ==> NodeSound(r.value) && r.value.digest == LeafKey(chunk)
      ensures var reply := model.replies(|old(calls)|);
              r == if !reply.Replied? then Err(Unanswered(reply))
                   else match CheckLeaf(reply.content, chunk, policy, counter, model)
                        case Err(e) => Err(e)
                        case Ok(sections) => Ok(Node(LeafKey(chunk), Ids(chunk), sections))
    {
      hide MadeSound, HasReason, Acceptable, CountText, MadeBy;
      var reply := Generate(LeafKey(chunk));
      if !reply.Replied? {
        LastReplyExcuses(Unanswered(reply));
        return Err(Unanswered(reply));
      }
      LeafChecked(reply.content, chunk, policy, counter, model);
      var verdict := CheckLeaf(reply.content, chunk, policy, counter, model);
      if verdict.Err? {
        LastReplyExcuses(verdict.error);
        return Err(verdict.error);
      }
      assert LineIds(Lines(chunk)) == Ids(chunk);
      LastReplyMakes(Node(LeafKey(chunk), Ids(chunk), verdict.value));
      return Ok(Node(LeafKey(chunk), Ids(chunk), verdict.value));
    }

    /** Every call of the batch is made; the first failure in batch order is reported. If
        the process ends among them, nothing of the batch is kept. */
    method RunBatch(chunks: seq<seq<Message>>, batch: seq<nat>, start: map<nat, Node>, ghost known: set<Digest>)
      returns (resolved: map<nat, Node>, failure: Option<Failure>)
      requires ResolvedSound(start, chunks) && MadeSound() && Sourced(start, origin + made)
      requires forall o | o in batch :: o < |chunks| && LeafKey(chunks[o]) !in known
      modifies this`calls, this`succeeded, this`made
      ensures MadeSound() && old(made) <= made && Sourced(resolved, origin + made)
      ensures failure.Some? ==> HasReason(failure.value)
      ensures ResolvedSound(resolved, chunks) && start.Keys <= resolved.Keys
      ensures Spent(old(calls), calls, |batch|, known)
      ensures |calls| == |old(calls)| + |batch|
      ensures forall i | 0 <= i < |batch| ::
                batch[i] < |chunks| && calls[|old(calls)| + i] == LeafKey(chunks[batch[i]])
      ensures old(succeeded) <= succeeded
      ensures forall i | i in resolved && i !in start :: i < |chunks| && LeafKey(chunks[i]) in succeeded
      ensures forall k | k in succeeded && k !in old(succeeded) :: FromChunk(k, resolved, chunks)
      ensures failure.None? ==>
                forall o | o in batch :: o in resolved && o < |chunks| && LeafKey(chunks[o]) in succeeded
      ensures resolved == map[] ==> succeeded == old(succeeded)
      ensures failure == Some(Killed) ==> resolved == start && succeeded == old(succeeded)
    {
      hide NodeSound, LeafKey, MadeSound, HasReason, CheckLeaf, MadeBy;
      resolved, failure := start, None;
      var killed := false;
      for i := 0 to |batch|
        invariant ResolvedSound(resolved, chunks) && start.Keys <= resolved.Keys
        invariant Spent(old(calls), calls, i, known) && old(succeeded) <= succeeded
        invariant |calls| == |old(calls)| + i
        invariant forall j | 0 <= j < i ::
                    batch[j] < |chunks| && calls[|old(calls)| + j] == LeafKey(chunks[batch[j]])
        invariant forall j | j in resolved && j !in start :: j < |chunks| && LeafKey(chunks[j]) in succeeded
        invariant forall k | k in succeeded && k !in old(succeeded) :: FromChunk(k, resolved, chunks)
        invariant failure.None? ==>
                    forall j | 0 <= j < i :: batch[j] in resolved && LeafKey(chunks[batch[j]]) in succeeded
        invariant resolved == map[] ==> succeeded == old(succeeded)
        invariant failure == Some(Killed) ==> killed
        invariant MadeSound() && old(made) <= made && Sourced(resolved, origin + made)
        invariant (failure.Some? ==> HasReason(failure.value)) && (killed ==> HasReason(Killed))
      {
        assert batch[i] in batch;
        var outcome := Summarize(chunks[batch[i]]);
        match outcome {
          case Err(e) =>
            killed := killed || e.Killed?;
            failure := if failure.Some? then failure else Some(e);
          case Ok(item) =>
            StillFromChunk(resolved, resolved[batch[i] := item], chunks);
            AddMade(item);
            resolved := resolved[batch[i] := item];
            succeeded := succeeded + {item.digest};
        }
      }
      if killed {
        resolved, failure := start, Some(Killed);
        succeeded := old(succeeded);
      }
    }

    /** A node that carries a reply of this run joins those made in it. */
    ghost method AddMade(n: Node)
      requires MadeSound() && MadeBy(n, calls, first, policy, counter, model)
      modifies this`made
      ensures MadeSound() && made == old(made) + {n}
      ensures forall e | old(HasReason(e)) :: HasReason(e)
    {
      hide MadeBy, Excused;
      forall e | HasReason(e) ensures Excused(e, calls, first, origin + (made + {n}), policy, counter, model) {
        assert calls[..|calls|] == calls;
        ExcusedGrows(e, calls, calls, first, origin + made, origin + (made + {n}), policy, counter, model);
      }
      made := made + {n};
    }

    method SaveChunks(resolved: map<nat, Node>, n: nat)
      modifies this`disk, this`work
      ensures if resolved == map[] then disk == old(disk) && work == old(work)
              else work == old(work).(chunks := Sorted(resolved, n)) && disk == Some(work)
    {
      if resolved != map[] {
        work := work.(chunks := Sorted(resolved, n));
        disk := Some(work);
      }
    }

    /** Bounded batches in order, stopping after the first batch with a failure. Whatever
        succeeded is in the checkpoint when this returns; if the process ends, at most the
        last batch, which is no wider than `width`, is missing from it. */
    method RunBatches(chunks: seq<seq<Message>>, outstanding: seq<nat>, start: map<nat, Node>, ghost known: set<Digest>)
      returns (resolved: map<nat, Node>, failure: Option<Failure>)
      requires width >= 1 && succeeded == {} && ResolvedSound(start, chunks)
      requires MadeSound() && Sourced(start, origin + made)
      requires forall o | o in outstanding :: o < |chunks| && LeafKey(chunks[o]) !in known
      modifies this`disk, this`work, this`calls, this`succeeded, this`made
      ensures MadeSound() && old(made) <= made && Sourced(resolved, origin + made)
      ensures failure.Some? ==> HasReason(failure.value)
      ensures ResolvedSound(resolved, chunks) && start.Keys <= resolved.Keys
      ensures Spent(old(calls), calls, |outstanding|, known)
      ensures forall k | k in succeeded :: FromChunk(k, resolved, chunks)
      ensures work == old(work).(chunks := work.chunks)
      ensures forall i | i in resolved && i !in start :: i < |chunks| && LeafKey(chunks[i]) in succeeded
      ensures failure.None? ==> forall o | o in outstanding :: o in resolved
      ensures failure.Some? ==>
                || (disk == old(disk) && succeeded == {})
                || (disk == Some(work) && work.chunks == Sorted(resolved, |chunks|))
      ensures failure == Some(Killed) ==>
                forall i | |old(calls)| <= i < |calls| - width :: calls[i] in succeeded
    {
      hide ResolvedSound, Spent, LeafKey, Sorted, FromChunk, MadeSound, HasReason, Sourced;
      resolved, failure := start, None;
      var offset := 0;
      SpentNothing(calls, known);
      while offset < |outstanding|
        invariant offset <= |outstanding| && failure.None?
        invariant ResolvedSound(resolved, chunks) && start.Keys <= resolved.Keys
        invariant Spent(old(calls), calls, offset, known) && |calls| >= |old(calls)|
        invariant forall k | k in succeeded :: FromChunk(k, resolved, chunks)
        invariant forall i | i in resolved && i !in start :: i < |chunks| && LeafKey(chunks[i]) in succeeded
        invariant work == old(work).(chunks := work.chunks)
        invariant forall j | 0 <= j < offset :: outstanding[j] in resolved
        invariant || (disk == old(disk) && succeeded == {})
                  || (disk == Some(work) && work.chunks == Sorted(resolved, |chunks|))
        invariant forall i | |old(calls)| <= i < |calls| :: calls[i] in succeeded
        invariant MadeSound() && old(made) <= made && Sourced(resolved, origin + made)
        decreases |outstanding| - offset
      {
        var end := if offset + width < |outstanding| then offset + width else |outstanding|;
        ghost var mid, kept, was := calls, resolved, succeeded;
        var batch := outstanding[offset..end];
        BatchMembers(outstanding, offset, end);
        resolved, failure := RunBatch(chunks, batch, resolved, known);
        SpentGives(mid, calls, |batch|, known);
        SpentTransitive(old(calls), mid, calls, offset, |batch|, known, known);
        SpentWithin(old(calls), calls, end, |outstanding|, known);
        AllFromChunks(was, succeeded, kept, resolved, chunks);
        if failure == Some(Killed) {
          SameCalls(mid, calls);
          return;
        }
        SaveChunks(resolved, |chunks|);
        if failure.Some? { return; }
        AllPaid(|old(calls)|, mid, calls, was, succeeded, batch, chunks);
        offset := end;
      }
    }

    /** Take up the checkpoint if it is reusable for this source, else start afresh. */
    method Resume(source: Source, ms: seq<Message>)
      requires Valid()
      modifies this`work
      ensures work == Resumed(disk, maker, source, ms)
    {
      if disk.Some? && Reusable(disk.value, maker, source, ms) {
        var loaded := disk.value;
        var counting := if maker.counter.Some? then maker.counter else loaded.counter;
        work := loaded.(source := source, model := maker.model, counter := counting);
      } else {
        work := Work(source, maker.model, maker.counter, [], []);
      }
    }

    /** Chunks found in the checkpoint, and the indices still to be summarised. */
    method Resolve(chunks: seq<seq<Message>>, ghost known: set<Digest>)
        returns (resolved: map<nat, Node>, outstanding: seq<nat>)
      requires WorkSound(work)
      requires forall k | k in LeafKeys(chunks) :: k in known <==> k in Digests(work.chunks)
      ensures ResolvedSound(resolved, chunks)
      ensures forall i | 0 <= i < |chunks| :: LeafKey(chunks[i]) in known ==> i in resolved
      ensures forall i | 0 <= i < |chunks| :: i in resolved || i in outstanding
      ensures forall o | o in outstanding :: o < |chunks| && LeafKey(chunks[o]) !in known
      ensures |outstanding| == Missing(LeafKeys(chunks), known)
      ensures forall i | i in resolved :: resolved[i] in work.chunks
    {
      hide NodeSound, LeafKey, Lookup;
      var done := Lookup(work.chunks);
      LookupSound(work.chunks);
      LookupInside(work.chunks);
      ghost var keys := LeafKeys(chunks);
      resolved, outstanding := map[], [];
      for i := 0 to |chunks|
        invariant ResolvedSound(resolved, chunks)
        invariant forall j | 0 <= j < i :: LeafKey(chunks[j]) in known ==> j in resolved
        invariant forall j | 0 <= j < i :: j in resolved || j in outstanding
        invariant forall o | o in outstanding :: o < i && LeafKey(chunks[o]) !in known
        invariant |outstanding| == Missing(keys[..i], known)
        invariant forall j | j in resolved :: resolved[j] in work.chunks
      {
        assert keys[..i + 1][..i] == keys[..i];
        assert keys[i] == LeafKey(chunks[i]) && keys[i] in keys;
        var digest := LeafKey(chunks[i]);
        if digest in done {
          CachedIds(done[digest], chunks[i]);
        }
        if digest in done && done[digest].ids == Ids(chunks[i]) {
          resolved := resolved[i := done[digest]];
        } else {
          outstanding := outstanding + [i];
        }
      }
      assert keys[..|chunks|] == keys;
    }

    /** Everything up to the first merge: either the leaves are complete, or a failure
        with all paid-for leaves in the checkpoint. */
    method LeafPhase(source: Source, ms: seq<Message>, chunks: seq<seq<Message>>, ghost known: set<Digest>)
        returns (failure: Option<Failure>)
      requires Valid() && succeeded == {} && ms != []
      requires MadeSound() && FromDisk(disk, origin)
      requires source == SourceFor(source.session, source.context, source.revision, ms)
      requires known == Known(disk, maker, source, ms, chunks)
      modifies this`disk, this`work, this`calls, this`succeeded, this`made
      ensures MadeSound() && old(made) <= made && FromDisk(disk, origin + made)
      ensures failure.Some? ==>
                HasReason(failure.value) || (failure.value.TooLarge? && LeafTooLong(chunks, policy, model))
      ensures MissingTooLong(chunks, known, policy, model) ==>
                failure == Some(TooLarge) && calls == old(calls) && disk == old(disk)
      ensures Valid()
      ensures Spent(old(calls), calls, Missing(LeafKeys(chunks), known), known)
      ensures known + succeeded <= Known(disk, maker, source, ms, chunks) && forall k | k in succeeded :: k.Leaf?
      ensures failure.None? ==>
                && disk == Some(work) && OwnWork(work, maker, source)
                && |work.chunks| == |chunks| && NodesSound(work.chunks)
                && forall i | 0 <= i < |chunks| :: work.chunks[i].digest == LeafKey(chunks[i])
    {
      hide Spent, ResolvedSound, Reusable, NodeSound, LeafKey, Sorted, Missing, Resumed, Known, Digests, MadeSound,
          HasReason, FromDisk, Sourced, MissingTooLong;
      Resume(source, ms);
      ResumedFrom(disk, maker, source, ms, origin);
      ResumedSound(disk, maker, source, ms, chunks);
      var resolved, outstanding := Resolve(chunks, known);
      SpentNothing(calls, known);
      SpentWithin(calls, calls, 0, |outstanding|, known);
      for i := 0 to |outstanding|
        invariant forall j | 0 <= j < i ::
                    outstanding[j] < |chunks| && model.leafCost(chunks[outstanding[j]]) <= Application(policy)
      {
        assert outstanding[i] in outstanding;
        if model.leafCost(chunks[outstanding[i]]) > Application(policy) {
          StillFromDisk(disk, origin, origin + made);
          return Some(TooLarge);
        }
      }
      AllSized(chunks, resolved, outstanding, work, known, policy, model);
      StartsSourced(resolved, work, origin, made);
      ghost var initial, before := work, disk;
      resolved, failure := RunBatches(chunks, outstanding, resolved, known);
      StillFromDisk(before, origin, origin + made);
      LeavesFromDisk(initial, resolved, |chunks|, origin, made);
      if failure.Some? {
        if disk != before || succeeded != {} {
          LeavesSaved(initial, work, resolved, chunks, maker, source, ms, succeeded, known);
        }
        return;
      }
      work := work.(chunks := Sorted(resolved, |chunks|));
      disk := Some(work);
      SortedAll(resolved, |chunks|);
      ResolvedAt(resolved, chunks);
      LeavesSaved(initial, work, resolved, chunks, maker, source, ms, succeeded, known);
    }

    /** All the merges, from complete leaves to one root. */
    method MergePhase(source: Source, ms: seq<Message>, chunks: seq<seq<Message>>, ghost known: set<Digest>)
        returns (r: Result<Node, Failure>)
      requires Valid() && ms != [] && chunks != [] && Concat(chunks) == ms
      requires source == SourceFor(source.session, source.context, source.revision, ms)
      requires disk == Some(work) && OwnWork(work, maker, source)
      requires |work.chunks| == |chunks| && NodesSound(work.chunks)
      requires forall i | 0 <= i < |chunks| :: work.chunks[i].digest == LeafKey(chunks[i])
      requires known <= Known(disk, maker, source, ms, chunks)
      requires succeeded <= Known(disk, maker, source, ms, chunks) && forall k | k in succeeded :: k.Leaf?
      requires MadeSound() && FromDisk(disk, origin + made)
      modifies this`disk, this`work, this`completed, this`saved, this`used, this`succeeded, this`calls, this`made
      ensures Valid() && Spent(old(calls), calls, 4 * (|chunks| - 1), known)
      ensures MadeSound() && old(made) <= made && FromDisk(disk, origin + made)
      ensures r.Err? ==> HasReason(r.error)
      ensures r.Ok? ==> disk.Some? && (r.value in disk.value.chunks || r.value in disk.value.merges)
      ensures r.Err? ==> known + succeeded <= Known(disk, maker, source, ms, chunks)
      ensures r.Ok? ==> succeeded <= Known(disk, maker, source, ms, chunks)
      ensures r.Ok? ==> EvidenceIds(r.value.sections) <= IdSet(Ids(ms)) && PairMerges(r.value.digest) == |chunks| - 1
                        && Leaves(r.value.digest) == LeafKeys(chunks) && r.value.ids == Ids(ms)
      ensures r.Ok? ==> disk.Some? && WholeTree(disk.value, chunks)
    {
      hide Ready, Reusable, NodeSound, Advances, Spent, EvidenceIds, Lookup, Known, Leaves, LevelLeaves, PairMerges,
          IdSet, Digests, Held, WholeTree, MadeSound, HasReason, FromDisk, Listed, OwnWork;
      OwnWorkSound(work, maker, source);
      completed := Lookup(work.merges);
      saved := work.merges;
      used := [];
      StartsReady(work, maker, source, ms, chunks, succeeded);
      assert Ready() by { MakesReady(); }
      LeafLevel(work.chunks, LeafKeys(chunks));
      LookupKeys(work.merges, work);
      ghost var s := Here();
      ghost var kept := work;
      LeavesHeld(work.chunks, s.used);
      ChunksListed();
      r := MergeAll(work.chunks);
      AdvancesGives(s, Here(), 4 * (|chunks| - 1), known);
      assert work == kept.(merges := work.merges);
      ReadySaved(maker, source, ms, chunks, kept, s.known);
      ReadySourced();
      OwnWorkSound(work, maker, source);
      if r.Ok? {
        OwnWorkSound(work.(merges := used), maker, source);
        RootCoversSource(r.value, chunks);
        work := work.(merges := used);
        disk := Some(work);
        TreeKept(work, chunks, r.value.digest);
        KnownOf(work, maker, source, ms, chunks);
      }
    }

    lemma MakesReady()
      requires disk == Some(work) && WorkSound(work) && saved == work.merges && completed == Lookup(saved) && used == []
      requires forall k | k in succeeded :: k in Digests(work.chunks)
      requires FromDisk(disk, origin + made)
      ensures Ready()
    {
    }

    lemma ChunksListed()
      ensures forall n | n in work.chunks :: n in Listed()
    {
    }

    lemma ReadySourced()
      requires Ready()
      ensures disk == Some(work) && FromDisk(disk, origin + made)
              && FromDisk(Some(work.(merges := used)), origin + made)
      ensures forall n | n in Listed() :: n in work.chunks || n in used
    {
    }

    /** What the checkpoint holds whenever the merge phase stops. */
    lemma ReadySaved(m: Maker, source: Source, ms: seq<Message>, chunks: seq<seq<Message>>, before: Work,
        keys: set<Digest>)
      requires Ready() && ms != [] && m.model in m.compatible
      requires source == SourceFor(source.session, source.context, source.revision, ms)
      requires OwnWork(before, m, source) && work == before.(merges := work.merges)
      requires forall n | n in before.chunks :: n.digest in LeafKeys(chunks)
      requires keys <= completed.Keys
      ensures disk == Some(work) && OwnWork(work, m, source) && OwnWork(work.(merges := used), m, source)
      ensures Digests(before.chunks) + keys + succeeded <= Known(disk, m, source, ms, chunks)
      ensures succeeded <= Digests(work.chunks) + Digests(used)
    {
      hide Reusable, NodeSound, Lookup;
      ReadyGives();
      forall n | n in used ensures !n.digest.Leaf? {
        assert n.digest in Digests(saved);
      }
      assert Digests(used) <= Digests(saved) by {
        forall d | d in Digests(used) ensures d in Digests(saved) {
          var n :| n in used && n.digest == d;
        }
      }
      KnownOf(work, m, source, ms, chunks);
    }

    /** Leaves, then merges, to the root. */
    method SummariseAll(source: Source, ms: seq<Message>, chunks: seq<seq<Message>>, ghost known: set<Digest>)
        returns (r: Result<Node, Failure>)
      requires Valid() && succeeded == {} && ms != [] && chunks != [] && Concat(chunks) == ms
      requires MadeSound() && FromDisk(disk, origin)
      requires source == SourceFor(source.session, source.context, source.revision, ms)
      requires known == Known(disk, maker, source, ms, chunks)
      modifies this`disk, this`work, this`completed, this`saved, this`used, this`succeeded, this`calls, this`made
      ensures Valid() && Spent(old(calls), calls, CallBound(chunks, known), known)
      ensures MadeSound() && old(made) <= made && FromDisk(disk, origin + made)
      ensures r.Err? ==> HasReason(r.error) || (r.error.TooLarge? && LeafTooLong(chunks, policy, model))
      ensures MissingTooLong(chunks, known, policy, model) ==>
                r == Err(TooLarge) && calls == old(calls) && disk == old(disk)
      ensures r.Err? ==> known + succeeded <= Known(disk, maker, source, ms, chunks)
      ensures r.Ok? ==> succeeded <= Known(disk, maker, source, ms, chunks)
      ensures r.Ok? ==> EvidenceIds(r.value.sections) <= IdSet(Ids(ms)) && Leaves(r.value.digest) == LeafKeys(chunks)
      ensures r.Ok? ==> disk.Some? && WholeTree(disk.value, chunks)
      ensures r.Ok? ==> disk.Some? && (r.value in disk.value.chunks || r.value in disk.value.merges)
    {
      hide Spent, Known, Reusable, Leaves, LeafKeys, PairMerges, EvidenceIds, IdSet, WholeTree, MadeSound, HasReason,
          FromDisk, LeafTooLong, OwnWork, Missing, Concat, MissingTooLong;
      ghost var before := calls;
      var failure := LeafPhase(source, ms, chunks, known);
      ghost var mid := calls;
      ghost var missing := Missing(LeafKeys(chunks), known);
      SpentWithin(before, mid, missing, CallBound(chunks, known), known);
      if failure.Some? { return Err(failure.value); }
      r := MergePhase(source, ms, chunks, known);
      SpentTransitive(before, mid, calls, missing, 4 * (|chunks| - 1), known, known);
    }

    /** One run. It makes at most one call per missing leaf and four per pair merge, none
        for a key in the checkpoint it resumed; if it fails, or if the process ends at any
        call, everything it resumed from and everything that succeeded is in the checkpoint
        it leaves, where the replies of a batch that the process ended in do not count. If
        it succeeds, the checkpoint it leaves, before the summary itself is written, holds
        the whole tree, and the summary is what its root says: it covers exactly the source
        and cites nothing outside it. Every node is one that was found or carries a reply of
        this run, and a failure has its reason in this run. */
    method Maintain(session: SessionId, context: Name, revision: nat, ms: seq<Message>)
        returns (r: Result<Summary, Failure>)
      requires Valid()
      modifies this
      ensures Valid()
      ensures var source, chunks := SourceFor(session, context, revision, ms), Chunks(ms, counter, policy.chunk);
              var known := Known(old(disk), maker, source, ms, chunks);
              && Spent(old(calls), calls, CallBound(chunks, known), known)
              && (r.Err? ==> known + succeeded <= Known(disk, maker, source, ms, chunks))
              && (r.Ok? ==> succeeded <= Known(disk, maker, source, ms, chunks))
              && (r.Ok? ==> r.value.source == source && disk.Some? && WholeTree(disk.value, chunks))
      ensures r.Ok? ==> summary == Some(r.value) && EvidenceCovered(r.value) && Loads(r.value, session, context, ms)
      ensures r.Ok? ==> forall f, m | f in r.value.sections.facts && m in f.evidence :: m in Ids(ms)
      ensures r.Ok? ==> disk.Some? && RootGives(disk.value, Chunks(ms, counter, policy.chunk), r.value, model)
      ensures r.Err? ==> summary == old(summary)
      ensures (ms == [] || exists i :: 0 <= i < |ms| && Count(counter, AsPrompts([ms[i]])) > policy.chunk) ==>
                r.Err? && calls == old(calls) && disk == old(disk)
      ensures var source, chunks := SourceFor(session, context, revision, ms), Chunks(ms, counter, policy.chunk);
              MissingTooLong(chunks, Known(old(disk), maker, source, ms, chunks), policy, model) ==>
                r == Err(TooLarge) && calls == old(calls) && disk == old(disk)
      ensures first == |old(calls)| && MadeSound() && origin == DiskNodes(old(disk)) && FromDisk(disk, origin + made)
      ensures r.Err? ==>
                || HasReason(r.error)
                || (r.error.Unusable? && ms == [])
                || (r.error.TooLarge? && exists i :: 0 <= i < |ms| && Count(counter, AsPrompts([ms[i]])) > policy.chunk)
                || (r.error.TooLarge? && LeafTooLong(Chunks(ms, counter, policy.chunk), policy, model))
    {
      hide Spent, Known, Reusable, Chunks, Leaves, LeafKeys, PairMerges, EvidenceIds, WholeTree, MadeSound, HasReason,
          FromDisk, LeafTooLong, RootGives, Count, EvidenceCovered, Loads, CallBound, OwnWork, MissingTooLong;
      origin, made, first, succeeded := DiskNodes(disk), {}, |calls|, {};
      assert MadeSound() by { NothingMade(); }
      DiskNodesAll(disk, made);
      ghost var all := Chunks(ms, counter, policy.chunk);
      var source := SourceFor(session, context, revision, ms);
      ghost var known := Known(disk, maker, source, ms, all);
      SpentNothing(calls, known);
      SpentWithin(calls, calls, 0, CallBound(all, known), known);
      if ms == [] {
        NoLeafMissing(counter, policy.chunk, known, policy, model);
        return Err(Unusable);
      }
      var cut := CutIntoChunks(ms, counter, policy.chunk);
      if cut.None? { return Err(TooLarge); }
      var chunks := cut.value;
      NoneOversized(ms, counter, policy.chunk);
      ChunksPartition(ms, counter, policy.chunk);
      var root := SummariseAll(source, ms, chunks, known);
      if root.Err? { return Err(root.error); }
      var result := Summary(source, root.value.sections, model.render(root.value.sections));
      Covered(result, ms);
      EvidenceInside(root.value.sections, Ids(ms));
      RootIs(disk.value, chunks, root.value, result, model);
      summary := Some(result);
      assert ms[..|ms|] == ms;
      FreshLoads(session, context, revision, ms, |ms|, result.sections, result.text);
      return Ok(result);
    }

    lemma NothingMade()
      requires made == {} && first == |calls|
      ensures MadeSound()
    {
    }

    /** Four attempts at most; a structural refusal is not retried, and the end of the
        process ends the loop. No attempt calls again for a key that succeeded in an
        earlier one. */
    method MaintainWithRetries(session: SessionId, context: Name, revision: nat, ms: seq<Message>)
      returns (r: Result<Summary, Failure>, ghost starts: seq<nat>, ghost wins: seq<set<Digest>>)
      requires Valid()
      modifies this
      ensures Valid()
      ensures 1 <= |starts| == |wins| <= MAX_ATTEMPTS
      ensures forall a, b, i | 0 <= a < b < |starts| && starts[b] <= i < |calls| :: calls[i] !in wins[a]
      ensures |starts| < MAX_ATTEMPTS ==> r.Ok? || r.error.TooLarge? || r.error.Killed?
      ensures r.Ok? ==> summary == Some(r.value) && r.value.source == SourceFor(session, context, revision, ms)
      ensures r.Ok? ==> disk.Some? && RootGives(disk.value, Chunks(ms, counter, policy.chunk), r.value, model)
      ensures r.Err? ==>
                || HasReason(r.error)
                || (r.error.Unusable? && ms == [])
                || (r.error.TooLarge? && exists i :: 0 <= i < |ms| && Count(counter, AsPrompts([ms[i]])) > policy.chunk)
                || (r.error.TooLarge? && LeafTooLong(Chunks(ms, counter, policy.chunk), policy, model))
    {
      hide Chunks, Known, EvidenceCovered, Loads, Reusable, WholeTree, MadeSound, HasReason, FromDisk, RootGives,
          LeafTooLong, Count;
      ghost var source, chunks := SourceFor(session, context, revision, ms), Chunks(ms, counter, policy.chunk);
      starts, wins := [], [];
      r := Err(Unusable);
      for attempt := 0 to MAX_ATTEMPTS
        invariant Valid() && |starts| == |wins| == attempt
        invariant r.Err?
        invariant attempt > 0 ==>
                    || HasReason(r.error)
                    || (r.error.Unusable? && ms == [])
                    || (r.error.TooLarge? &&
                      exists i :: 0 <= i < |ms| && Count(counter, AsPrompts([ms[i]])) > policy.chunk)
                    || (r.error.TooLarge? && LeafTooLong(Chunks(ms, counter, policy.chunk), policy, model))
        invariant forall a | 0 <= a < |wins| :: wins[a] <= Known(disk, maker, source, ms, chunks)
        invariant forall a | 0 <= a < |starts| :: starts[a] <= |calls|
        invariant forall a, b, i | 0 <= a < b < |starts| && starts[b] <= i < |calls| :: calls[i] !in wins[a]
      {
        ghost var before := calls;
        ghost var known := Known(disk, maker, source, ms, chunks);
        r := Maintain(session, context, revision, ms);
        assert calls[..|before|] == before;
        starts, wins := starts + [|before|], wins + [succeeded];
        if r.Ok? || r.error.TooLarge? || r.error.Killed? { return; }
      }
    }
  }

  ghost function DiskNodes(disk: Option<Work>): set<Node> {
    if disk.None? then {} else (set n | n in disk.value.chunks) + (set n | n in disk.value.merges)
  }

  lemma DiskNodesAll(disk: Option<Work>, made: set<Node>)
    ensures FromDisk(disk, DiskNodes(disk)) && FromDisk(disk, DiskNodes(disk) + made)
  {
  }

  /** The summary is what one node of the checkpoint over all the chunks says. */
  ghost predicate RootGives(w: Work, chunks: seq<seq<Message>>, s: Summary, model: Model) {
    exists n: Node ::
      && (n in w.chunks || n in w.merges)
      && Leaves(n.digest) == LeafKeys(chunks)
      && s.sections == n.sections && s.text == model.render(n.sections)
  }

  lemma RootIs(w: Work, chunks: seq<seq<Message>>, n: Node, s: Summary, model: Model)
    requires n in w.chunks || n in w.merges
    requires Leaves(n.digest) == LeafKeys(chunks)
    requires s.sections == n.sections && s.text == model.render(n.sections)
    ensures RootGives(w, chunks, s, model)
  {
    hide Leaves, LeafKeys;
  }

  /** Every node of a checkpoint is one of these. */
  ghost predicate FromDisk(disk: Option<Work>, nodes: set<Node>) {
    disk.Some? ==> forall n | n in disk.value.chunks || n in disk.value.merges :: n in nodes
  }

  ghost predicate Sourced(resolved: map<nat, Node>, nodes: set<Node>) {
    forall i | i in resolved :: resolved[i] in nodes
  }

  ghost predicate LeafTooLong(chunks: seq<seq<Message>>, policy: Policy, model: Model) {
    exists i :: 0 <= i < |chunks| && model.leafCost(chunks[i]) > Application(policy)
  }

  /** Some leaf still to be summarised has a prompt beyond the budget. */
  ghost predicate MissingTooLong(chunks: seq<seq<Message>>, known: set<Digest>, policy: Policy, model: Model) {
    exists i ::
      0 <= i < |chunks| && LeafKey(chunks[i]) !in known && model.leafCost(chunks[i]) > Application(policy)
  }

  lemma AllSized(chunks: seq<seq<Message>>, resolved: map<nat, Node>, outstanding: seq<nat>, w: Work,
      known: set<Digest>,
      policy: Policy, model: Model)
    requires ResolvedSound(resolved, chunks) && forall i | i in resolved :: resolved[i] in w.chunks
    requires forall k | k in LeafKeys(chunks) :: k in known <==> k in Digests(w.chunks)
    requires forall i | 0 <= i < |chunks| :: i in resolved || i in outstanding
    requires forall j | 0 <= j < |outstanding| ::
               outstanding[j] < |chunks| && model.leafCost(chunks[outstanding[j]]) <= Application(policy)
    ensures !MissingTooLong(chunks, known, policy, model)
  {
    hide LeafKey, NodeSound;
    forall i | 0 <= i < |chunks|
        && LeafKey(chunks[i]) !in known ensures model.leafCost(chunks[i]) <= Application(policy) {
      assert LeafKeys(chunks)[i] == LeafKey(chunks[i]);
    }
  }

  lemma NoLeafMissing(c: Counter, max: nat, known: set<Digest>, policy: Policy, model: Model)
    ensures !MissingTooLong(Chunks([], c, max), known, policy, model)
  {
  }

  lemma ResumedFrom(disk: Option<Work>, m: Maker, source: Source, ms: seq<Message>, origin: set<Node>)
    requires FromDisk(disk, origin)
    ensures FromDisk(Some(Resumed(disk, m, source, ms)), origin)
  {
    hide Reusable;
  }

  lemma StillFromDisk(disk: Option<Work>, a: set<Node>, b: set<Node>)
    requires FromDisk(disk, a) && a <= b
    ensures FromDisk(disk, b)
  {
  }

  lemma StartsSourced(resolved: map<nat, Node>, w: Work, origin: set<Node>, made: set<Node>)
    requires FromDisk(Some(w), origin) && forall i | i in resolved :: resolved[i] in w.chunks
    ensures Sourced(resolved, origin + made)
  {
  }

  lemma LeavesFromDisk(w: Work, resolved: map<nat, Node>, n: nat, origin: set<Node>, made: set<Node>)
    requires FromDisk(Some(w), origin) && Sourced(resolved, origin + made)
    ensures FromDisk(Some(w.(chunks := Sorted(resolved, n))), origin + made)
  {
    SortedHas(resolved, n);
  }

  lemma WorkSoundPush(w: Work, n: Node)
    requires WorkSound(w) && NodeSound(n) && !n.digest.Leaf?
    ensures WorkSound(w.(merges := w.merges + [n]))
  {
    hide NodeSound;
  }

  /** The checkpoint holds every leaf, and every merge and compacted child of one tree over
      all of them. */
  ghost predicate WholeTree(w: Work, chunks: seq<seq<Message>>) {
    && (forall k | k in LeafKeys(chunks) :: k in Digests(w.chunks))
    && exists d: Digest :: Leaves(d) == LeafKeys(chunks) && Held(d, Digests(w.merges))
  }

  lemma LeavesHeld(ns: seq<Node>, keys: set<Digest>)
    requires forall i | 0 <= i < |ns| :: ns[i].digest.Leaf?
    ensures NodesHeld(ns, keys)
  {
  }

  lemma TreeKept(w: Work, chunks: seq<seq<Message>>, d: Digest)
    requires |w.chunks| == |chunks| && forall i | 0 <= i < |chunks| :: w.chunks[i].digest == LeafKey(chunks[i])
    requires Leaves(d) == LeafKeys(chunks) && Held(d, Digests(w.merges))
    ensures WholeTree(w, chunks)
  {
    hide Leaves, Held;
    forall k | k in LeafKeys(chunks) ensures k in Digests(w.chunks) {
      var i :| 0 <= i < |chunks| && LeafKeys(chunks)[i] == k;
      assert w.chunks[i] in w.chunks;
    }
  }

  const MAX_ATTEMPTS := 4

  ghost function CallBound(chunks: seq<seq<Message>>, known: set<Digest>): nat {
    if chunks == [] then 0 else Missing(LeafKeys(chunks), known) + 4 * (|chunks| - 1)
  }

  lemma {:induction false} MissingSplit(keys: seq<Digest>, n: nat, known: set<Digest>)
    requires n <= |keys|
    ensures Missing(keys[..n], known) <= Missing(keys, known) <= Missing(keys[..n], known) + (|keys| - n)
    decreases |keys|
  {
    if n == |keys| {
      assert keys[..n] == keys;
    } else {
      var init := keys[..|keys| - 1];
      MissingSplit(init, n, known);
      assert init[..n] == keys[..n];
    }
  }

  lemma {:induction false} MissingSame(keys: seq<Digest>, a: set<Digest>, b: set<Digest>)
    requires forall i | 0 <= i < |keys| :: keys[i] in a <==> keys[i] in b
    ensures Missing(keys, a) == Missing(keys, b)
  {
    if keys != [] { MissingSame(keys[..|keys| - 1], a, b); }
  }

  /** What growth costs a run that resumes any checkpoint of the shorter source: the leaves
      that were missing anyway, one regenerated leaf, and the new ones. */
  lemma GrowthCost(
    w: Work, m: Maker, a: seq<Message>, more: seq<Message>, s: Source, t: Source, c: Counter, max: nat)
    requires a != [] && forall i | 0 <= i < |a| :: !Oversized(c, max, a[i])
    requires w.model in m.compatible && CounterMatches(m.counter, w.counter) && w.source == s
    requires s == SourceFor(s.session, s.context, s.revision, a)
    requires t == SourceFor(s.session, s.context, t.revision, a + more)
    ensures var kept, grown := Chunks(a, c, max), Chunks(a + more, c, max);
            var missing := Missing(LeafKeys(kept), Known(Some(w), m, s, a, kept));
            && |kept| <= |grown|
            && CallBound(grown, Known(Some(w), m, t, a + more, grown))
               <= missing + 1 + (|grown| - |kept|) + 4 * (|grown| - 1)
  {
    hide Chunks, Known, LeafKey;
    GrowthRegeneratesOne(w, m, a, more, s, t, c, max);
    var kept, grown := Chunks(a, c, max), Chunks(a + more, c, max);
    var before, after := Known(Some(w), m, s, a, kept), Known(Some(w), m, t, a + more, grown);
    var n := |kept| - 1;
    MissingSplit(LeafKeys(kept), n, before);
    MissingSplit(LeafKeys(grown), n, after);
    assert LeafKeys(kept)[..n] == LeafKeys(grown)[..n];
    MissingSame(LeafKeys(grown)[..n], before, after);
  }

  /** The validator on a new summary cannot fail. */
  lemma Covered(s: Summary, ms: seq<Message>)
    requires s.source.covered == Ids(ms) && EvidenceIds(s.sections) <= IdSet(Ids(ms))
    ensures EvidenceCovered(s)
  {
  }

  /** A checkpoint of this very source is known in full. */
  lemma KnownOf(w: Work, m: Maker, source: Source, ms: seq<Message>, chunks: seq<seq<Message>>)
    requires OwnWork(w, m, source) && m.model in m.compatible && ms != []
    requires source == SourceFor(source.session, source.context, source.revision, ms)
    requires forall n | n in w.chunks :: n.digest in LeafKeys(chunks)
    ensures Known(Some(w), m, source, ms, chunks) == Digests(w.chunks) + Digests(w.merges)
  {
    hide Reusable, NodeSound;
    OwnWorkReusable(w, m, source, ms);
  }

  lemma StartsReady(w: Work, m: Maker, source: Source, ms: seq<Message>, chunks: seq<seq<Message>>,
      succeeded: set<Digest>)
    requires OwnWork(w, m, source) && m.model in m.compatible && ms != []
    requires source == SourceFor(source.session, source.context, source.revision, ms)
    requires |w.chunks| == |chunks|
    requires forall i | 0 <= i < |chunks| :: w.chunks[i].digest == LeafKey(chunks[i])
    requires succeeded <= Known(Some(w), m, source, ms, chunks) && forall k | k in succeeded :: k.Leaf?
    ensures forall n | n in w.chunks :: n.digest in LeafKeys(chunks)
    ensures Known(Some(w), m, source, ms, chunks) == Digests(w.chunks) + Digests(w.merges)
    ensures forall k | k in succeeded :: k in Digests(w.chunks)
    ensures forall k | k in Digests(w.chunks) :: k.Leaf?
  {
    hide Reusable, NodeSound;
    forall n | n in w.chunks ensures n.digest in LeafKeys(chunks) {
      var i :| 0 <= i < |w.chunks| && w.chunks[i] == n;
      assert LeafKeys(chunks)[i] == n.digest;
    }
    KnownOf(w, m, source, ms, chunks);
  }

  lemma LookupKeys(merges: seq<Node>, w: Work)
    requires WorkSound(w) && w.merges == merges
    ensures Lookup(merges).Keys == Digests(merges)
  {
    LookupSound(merges);
  }

  /** Merge calls are never for a known key: they are not leaf keys, and not keys that
      could be looked up. */
  lemma AdvancesGives(s: Progress, t: Progress, bound: nat, known: set<Digest>)
    requires Advances(s, t, bound)
    requires forall k | k in known :: k.Leaf? || k in s.known
    ensures Spent(s.calls, t.calls, bound, known)
    ensures t.work == s.work.(merges := t.work.merges) && s.known <= t.known && s.succeeded <= t.succeeded
  {
  }

  ghost predicate FromChunk(k: Digest, resolved: map<nat, Node>, chunks: seq<seq<Message>>) {
    exists i :: i in resolved && i < |chunks| && LeafKey(chunks[i]) == k
  }

  lemma StillFromChunk(a: map<nat, Node>, b: map<nat, Node>, chunks: seq<seq<Message>>)
    requires a.Keys <= b.Keys
    ensures forall k | FromChunk(k, a, chunks) :: FromChunk(k, b, chunks)
  {
  }

  lemma AllFromChunks(
    was: set<Digest>, now: set<Digest>, a: map<nat, Node>, b: map<nat, Node>, chunks: seq<seq<Message>>)
    requires a.Keys <= b.Keys && forall k | k in was :: FromChunk(k, a, chunks)
    requires forall k | k in now && k !in was :: FromChunk(k, b, chunks)
    ensures forall k | k in now :: FromChunk(k, b, chunks)
  {
    StillFromChunk(a, b, chunks);
  }

  lemma BatchMembers(outstanding: seq<nat>, offset: nat, end: nat)
    requires offset <= end <= |outstanding|
    ensures forall o | o in outstanding[offset..end] :: o in outstanding
    ensures forall j | offset <= j < end :: outstanding[j] in outstanding[offset..end]
  {
    var batch := outstanding[offset..end];
    forall j | offset <= j < end ensures outstanding[j] in batch {
      assert batch[j - offset] == outstanding[j];
    }
  }

  lemma AllPaid(
    start: nat, mid: seq<Digest>, after: seq<Digest>, was: set<Digest>, now: set<Digest>, batch: seq<nat>,
    chunks: seq<seq<Message>>)
    requires start <= |mid| && |after| == |mid| + |batch| && after[..|mid|] == mid && was <= now
    requires forall i | start <= i < |mid| :: mid[i] in was
    requires forall i | 0 <= i < |batch| :: batch[i] < |chunks| && after[|mid| + i] == LeafKey(chunks[batch[i]])
    requires forall o | o in batch :: o < |chunks| && LeafKey(chunks[o]) in now
    ensures forall i | start <= i < |after| :: after[i] in now
  {
    hide LeafKey;
    forall i | start <= i < |after| ensures after[i] in now {
      if i < |mid| {
        assert after[..|mid|][i] == mid[i];
      } else {
        assert batch[i - |mid|] in batch && after[|mid| + (i - |mid|)] == LeafKey(chunks[batch[i - |mid|]]);
      }
    }
  }

  lemma SameCalls(a: seq<Digest>, b: seq<Digest>)
    requires |a| <= |b| && b[..|a|] == a
    ensures forall i | 0 <= i < |a| :: b[i] == a[i]
  {
  }

  lemma ResolvedAt(resolved: map<nat, Node>, chunks: seq<seq<Message>>)
    requires ResolvedSound(resolved, chunks)
    ensures forall i | i in resolved && i < |chunks| ::
              resolved[i].digest == LeafKey(chunks[i]) && NodeSound(resolved[i])
  {
  }

  lemma CachedIds(n: Node, chunk: seq<Message>)
    requires NodeSound(n) && n.digest == LeafKey(chunk)
    ensures n.ids == Ids(chunk)
  {
    assert LineIds(Lines(chunk)) == Ids(chunk);
  }

  function Resumed(disk: Option<Work>, m: Maker, source: Source, ms: seq<Message>): Work {
    if disk.Some? && Reusable(disk.value, m, source, ms)
    then disk.value.(source := source, model := m.model,
                     counter := if m.counter.Some? then m.counter else disk.value.counter)
    else Work(source, m.model, m.counter, [], [])
  }

  ghost predicate OwnWork(w: Work, m: Maker, source: Source) {
    WorkSound(w) && w.source == source && w.model == m.model && CounterMatches(m.counter, w.counter)
  }

  lemma OwnWorkSound(w: Work, m: Maker, source: Source)
    requires OwnWork(w, m, source)
    ensures WorkSound(w)
  {
  }

  lemma OwnWorkReusable(w: Work, m: Maker, source: Source, ms: seq<Message>)
    requires OwnWork(w, m, source) && m.model in m.compatible && ms != []
    requires source == SourceFor(source.session, source.context, source.revision, ms)
    ensures Reusable(w, m, source, ms)
  {
    assert ms[..|ms|] == ms;
  }

  lemma ResumedSound(disk: Option<Work>, m: Maker, source: Source, ms: seq<Message>, chunks: seq<seq<Message>>)
    requires disk.Some? ==> WorkSound(disk.value)
    ensures var w := Resumed(disk, m, source, ms);
            var known := Known(disk, m, source, ms, chunks);
            && OwnWork(w, m, source)
            && (forall k | k in LeafKeys(chunks) :: k in known <==> k in Digests(w.chunks))
            && (forall k | k in known :: k in LeafKeys(chunks) || k in Digests(w.merges))
            && (forall k | k in Digests(w.merges) :: k in known && !k.Leaf?)
  {
    hide Reusable, NodeSound;
  }

  /** The checkpoint written after leaf work holds all it could be resumed from before,
      and all that succeeded since. */
  lemma LeavesSaved(before: Work, after: Work, resolved: map<nat, Node>, chunks: seq<seq<Message>>, m: Maker,
      source: Source, ms: seq<Message>,
                    succeeded: set<Digest>, known: set<Digest>)
    requires OwnWork(before, m, source) && m.model in m.compatible && ms != []
    requires source == SourceFor(source.session, source.context, source.revision, ms)
    requires ResolvedSound(resolved, chunks)
    requires after == before.(chunks := Sorted(resolved, |chunks|))
    requires forall k | k in succeeded :: FromChunk(k, resolved, chunks)
    requires forall k | k in known :: k in LeafKeys(chunks) || k in Digests(before.merges)
    requires forall i | 0 <= i < |chunks| :: LeafKey(chunks[i]) in known ==> i in resolved
    ensures OwnWork(after, m, source)
    ensures known + succeeded <= Known(Some(after), m, source, ms, chunks)
    ensures forall k | k in succeeded :: k.Leaf?
  {
    hide Reusable, NodeSound;
    SortedHas(resolved, |chunks|);
    OwnWorkReusable(after, m, source, ms);
    forall i | i in resolved ensures LeafKey(chunks[i]) in Known(Some(after), m, source, ms, chunks) {
      assert resolved[i] in after.chunks;
      assert LeafKeys(chunks)[i] == LeafKey(chunks[i]);
    }
    forall k | k in known && k in LeafKeys(chunks) ensures k in Known(Some(after), m, source, ms, chunks) {
      var i :| 0 <= i < |chunks| && LeafKeys(chunks)[i] == k;
      assert LeafKey(chunks[i]) == k;
    }
  }

  lemma SpentNothing(a: seq<Digest>, known: set<Digest>)
    ensures Spent(a, a, 0, known)
  {
  }

  lemma SpentWithin(a: seq<Digest>, b: seq<Digest>, m: nat, n: nat, known: set<Digest>)
    requires Spent(a, b, m, known) && m <= n
    ensures Spent(a, b, n, known)
  {
  }

  lemma SingleLevel(n: Node)
    ensures LevelLeaves([n]) == Leaves(n.digest)
  {
    LevelPush([], n);
    assert [] + [n] == [n];
  }

  lemma AttemptSpends(a: seq<Digest>, b: seq<Digest>, c: seq<Digest>, n: nat, key: Digest, known: set<Digest>)
    requires Spent(a, b, n, known) && (c == b || c == b + [key]) && key !in known
    ensures Spent(a, c, n + 1, known)
  {
    if c == b + [key] {
      assert c[..|a|] == b[..|a|];
      assert forall i | |a| <= i < |b| :: c[i] == b[i];
    }
  }

  lemma CallsAdvance(s: Progress, t: Progress, bound: nat, key: Digest)
    requires t == s.(calls := t.calls) && Spent(s.calls, t.calls, bound, s.known) && !key.Leaf?
    requires forall j | |s.calls| <= j < |t.calls| :: t.calls[j] == key
    ensures Advances(s, t, bound)
  {
    hide Spent;
  }

  lemma KeptAdvances(s: Progress, t: Progress, u: Progress, n: Node)
    requires Advances(s, t, 2)
    requires u == t.(work := t.work.(merges := u.work.merges), known := t.known + {n.digest},
                     succeeded := t.succeeded + {n.digest}, used := t.used + {n.digest}, listed := t.listed + {n})
    ensures Advances(s, u, 2)
  {
    hide Spent;
  }

  /** A lookup moves nothing but the keys in use. */
  lemma Looked(s: Progress, t: Progress)
    requires t == s.(used := t.used, listed := t.listed) && s.used <= t.used && s.listed <= t.listed
    ensures Advances(s, t, 0) && Advances(s, t, 4)
  {
  }

  lemma UsedGrows(s: Progress, t: Progress, bound: nat)
    requires Advances(s, t, bound)
    ensures s.used <= t.used && s.listed <= t.listed
  {
  }

  lemma Stays(s: Progress)
    ensures Advances(s, s, 0) && Advances(s, s, 4)
  {
  }

  lemma UsedPush(used: seq<Node>, n: Node)
    ensures Digests(used + [n]) == Digests(used) + {n.digest}
    ensures forall m :: m in used + [n] <==> m in used || m == n
  {
    LookupPush(used, n);
  }
}
