/** Checkpointed summary nodes: each is keyed by the digest of what it summarises, and a
    merge is keyed by the digests of its two children. */
module MergeTrees {
  import opened Basics
  import opened Custody
  import opened Sessions
  import opened ContextBudget
  import opened Summaries
  import opened Chunking

  /** Digests are injective and tagged by what they cover. */
  datatype Digest = Leaf(lines: seq<Line>) | Merge(left: Digest, right: Digest) | Dense(child: Digest)

  datatype Node = Node(digest: Digest, ids: seq<MessageId>, sections: Sections)

  /** The checkpoint of one conversation. */
  datatype Work = Work(source: Source, model: Name, counter: Option<Name>, chunks: seq<Node>, merges: seq<Node>)

  // ---------- Trees ----------

  function LineIds(lines: seq<Line>): seq<MessageId> {
    seq(|lines|, i requires 0 <= i < |lines| => lines[i].id)
  }

  function IdsOf(d: Digest): seq<MessageId> {
    match d
    case Leaf(lines) => LineIds(lines)
    case Merge(a, b) => IdsOf(a) + IdsOf(b)
    case Dense(e) => IdsOf(e)
  }

  /** The leaf chunks below a node, in order. */
  function Leaves(d: Digest): seq<Digest> {
    match d
    case Leaf(_) => [d]
    case Merge(a, b) => Leaves(a) + Leaves(b)
    case Dense(e) => Leaves(e)
  }

  function PairMerges(d: Digest): nat {
    match d
    case Leaf(_) => 0
    case Merge(a, b) => 1 + PairMerges(a) + PairMerges(b)
    case Dense(e) => PairMerges(e)
  }

  /** A tree over n chunks holds exactly n - 1 pair merges, however it was rebalanced. */
  lemma {:induction false} OneMergeLessThanLeaves(d: Digest)
    ensures PairMerges(d) == |Leaves(d)| - 1
  {
    match d
    case Leaf(_) =>
    case Merge(a, b) => OneMergeLessThanLeaves(a); OneMergeLessThanLeaves(b);
    case Dense(e) => OneMergeLessThanLeaves(e);
  }

  /** Every merge and every compacted child inside a tree is under one of these keys. */
  predicate Held(d: Digest, keys: set<Digest>) {
    match d
    case Leaf(_) => true
    case Merge(a, b) => d in keys && Held(a, keys) && Held(b, keys)
    case Dense(e) => d in keys && Held(e, keys)
  }

  lemma {:induction false} HeldGrows(d: Digest, a: set<Digest>, b: set<Digest>)
    requires Held(d, a) && a <= b
    ensures Held(d, b)
  {
    match d
    case Leaf(_) =>
    case Merge(l, r) => HeldGrows(l, a, b); HeldGrows(r, a, b);
    case Dense(e) => HeldGrows(e, a, b);
  }

  ghost predicate NodesHeld(ns: seq<Node>, keys: set<Digest>) {
    forall i | 0 <= i < |ns| :: Held(ns[i].digest, keys)
  }

  lemma NodesHeldGrow(ns: seq<Node>, a: set<Digest>, b: set<Digest>)
    requires NodesHeld(ns, a) && a <= b
    ensures NodesHeld(ns, b)
  {
    forall i | 0 <= i < |ns| ensures Held(ns[i].digest, b) { HeldGrows(ns[i].digest, a, b); }
  }

  function AllIds(ds: seq<Digest>): seq<MessageId> {
    if ds == [] then [] else AllIds(ds[..|ds| - 1]) + IdsOf(ds[|ds| - 1])
  }

  lemma {:induction false} AllIdsAppend(a: seq<Digest>, b: seq<Digest>)
    ensures AllIds(a + b) == AllIds(a) + AllIds(b)
  {
    if b == [] {
      assert a + b == a;
    } else {
      assert (a + b)[..|a + b| - 1] == a + b[..|b| - 1];
      AllIdsAppend(a, b[..|b| - 1]);
    }
  }

  lemma {:induction false} IdsOfLeaves(d: Digest)
    ensures IdsOf(d) == AllIds(Leaves(d))
  {
    match d
    case Leaf(_) => assert AllIds([d][..0]) == [];
    case Merge(a, b) => IdsOfLeaves(a); IdsOfLeaves(b); AllIdsAppend(Leaves(a), Leaves(b));
    case Dense(e) => IdsOfLeaves(e);
  }

  function LeafKey(chunk: seq<Message>): Digest {
    Leaf(Lines(chunk))
  }

  function LeafKeys(chunks: seq<seq<Message>>): (r: seq<Digest>)
    ensures |r| == |chunks|
  {
    seq(|chunks|, i requires 0 <= i < |chunks| => LeafKey(chunks[i]))
  }

  /** The ids below all the chunks are the ids of the source, in order. */
  lemma {:induction false} ChunkIds(chunks: seq<seq<Message>>)
    ensures AllIds(LeafKeys(chunks)) == Ids(Concat(chunks))
  {
    if chunks != [] {
      var init, last := chunks[..|chunks| - 1], chunks[|chunks| - 1];
      ChunkIds(init);
      assert LeafKeys(chunks)[..|chunks| - 1] == LeafKeys(init);
      assert LineIds(Lines(last)) == Ids(last);
      assert Ids(Concat(init) + last) == Ids(Concat(init)) + Ids(last);
    }
  }

  // ---------- Nodes ----------

  function IdSet(ids: seq<MessageId>): set<MessageId> {
    set m | m in ids
  }

  /** A node summarises exactly what its digest covers and cites nothing outside it. */
  predicate NodeSound(n: Node) {
    n.ids == IdsOf(n.digest) && EvidenceIds(n.sections) <= IdSet(n.ids)
  }

  ghost predicate NodesSound(ns: seq<Node>) {
    forall i | 0 <= i < |ns| :: NodeSound(ns[i])
  }

  function LevelLeaves(level: seq<Node>): seq<Digest> {
    if level == [] then [] else LevelLeaves(level[..|level| - 1]) + Leaves(level[|level| - 1].digest)
  }

  lemma LevelPush(level: seq<Node>, n: Node)
    ensures LevelLeaves(level + [n]) == LevelLeaves(level) + Leaves(n.digest)
  {
    assert (level + [n])[..|level|] == level;
  }

  /** Replacing two neighbours by their merge keeps the leaves below. */
  lemma LevelPair(level: seq<Node>, k: nat, next: seq<Node>, n: Node)
    requires k + 2 <= |level|
    requires LevelLeaves(next) == LevelLeaves(level[..k])
    requires Leaves(n.digest) == Leaves(level[k].digest) + Leaves(level[k + 1].digest)
    ensures LevelLeaves(next + [n]) == LevelLeaves(level[..k + 2])
  {
    hide Leaves;
    assert level[..k + 2] == level[..k] + [level[k]] + [level[k + 1]];
    LevelPush(level[..k], level[k]);
    LevelPush(level[..k] + [level[k]], level[k + 1]);
    LevelPush(next, n);
  }

  lemma {:induction false} LeafLevel(level: seq<Node>, keys: seq<Digest>)
    requires |level| == |keys|
    requires forall i | 0 <= i < |level| :: level[i].digest == keys[i] && keys[i].Leaf?
    ensures LevelLeaves(level) == keys
  {
    if level != [] {
      LeafLevel(level[..|level| - 1], keys[..|keys| - 1]);
    }
  }

  /** Every message id below a node over all the chunks is one of the source, in order. */
  lemma RootCoversSource(root: Node, chunks: seq<seq<Message>>)
    requires NodeSound(root) && Leaves(root.digest) == LeafKeys(chunks)
    ensures root.ids == Ids(Concat(chunks))
    ensures EvidenceIds(root.sections) <= IdSet(Ids(Concat(chunks)))
    ensures PairMerges(root.digest) == |chunks| - 1
  {
    IdsOfLeaves(root.digest);
    ChunkIds(chunks);
    OneMergeLessThanLeaves(root.digest);
  }

  // ---------- Lookup ----------

  function Digests(ns: seq<Node>): set<Digest> {
    set n | n in ns :: n.digest
  }

  /** The last node with a digest wins. */
  function Lookup(ns: seq<Node>): map<Digest, Node> {
    if ns == [] then map[] else Lookup(ns[..|ns| - 1])[ns[|ns| - 1].digest := ns[|ns| - 1]]
  }

  lemma LookupPush(ns: seq<Node>, n: Node)
    ensures Lookup(ns + [n]) == Lookup(ns)[n.digest := n]
    ensures Digests(ns + [n]) == Digests(ns) + {n.digest}
  {
    assert (ns + [n])[..|ns|] == ns;
    assert forall m :: m in ns + [n] <==> m in ns || m == n;
  }

  lemma {:induction false} LookupSound(ns: seq<Node>)
    requires NodesSound(ns)
    ensures Lookup(ns).Keys == Digests(ns)
    ensures forall d | d in Lookup(ns) :: Lookup(ns)[d].digest == d && NodeSound(Lookup(ns)[d])
  {
    hide NodeSound;
    if ns != [] {
      var init, last := ns[..|ns| - 1], ns[|ns| - 1];
      LookupSound(init);
      LookupPush(init, last);
      assert ns == init + [last];
    }
  }

  lemma {:induction false} LookupInside(ns: seq<Node>)
    ensures forall d | d in Lookup(ns) :: Lookup(ns)[d] in ns
  {
    if ns != [] {
      LookupInside(ns[..|ns| - 1]);
      assert ns == ns[..|ns| - 1] + [ns[|ns| - 1]];
    }
  }

  // ---------- Reusing a checkpoint ----------

  /** Which models may continue each other's work, and which counter sized it. */
  datatype Maker = Maker(model: Name, compatible: set<Name>, counter: Option<Name>)

  function CounterMatches(a: Option<Name>, b: Option<Name>): bool {
    a.None? || b.None? || a == b
  }

  /** A checkpoint whose source overlaps the new one on identical messages. When it reaches
      past the new source only the identifiers of the overlap are compared. */
  predicate Reusable(w: Work, m: Maker, source: Source, ms: seq<Message>) {
    var covered := w.source.covered;
    var overlap := if |covered| < |ms| then |covered| else |ms|;
    && w.model in m.compatible
    && CounterMatches(m.counter, w.counter)
    && w.source.session == source.session && w.source.context == source.context
    && overlap > 0
    && Ids(ms[..overlap]) == covered[..overlap]
    && (|covered| <= |ms| ==> Lines(ms[..overlap]) == w.source.digest)
  }

  predicate WorkSound(w: Work) {
    && (forall n | n in w.chunks :: NodeSound(n) && n.digest.Leaf?)
    && (forall n | n in w.merges :: NodeSound(n) && !n.digest.Leaf?)
  }

  /** The keys a run over these chunks never calls the provider for. */
  ghost function Known(disk: Option<Work>, m: Maker, source: Source, ms: seq<Message>,
      chunks: seq<seq<Message>>): set<Digest> {
    if disk.Some? && Reusable(disk.value, m, source, ms)
    then (set d | d in Digests(disk.value.chunks) && d in LeafKeys(chunks)) + Digests(disk.value.merges)
    else {}
  }

  /** A checkpoint is taken up only for the same conversation, by a compatible model, under
      no different counter, and while the messages it shares with the new source are the
      same; if it does not reach past the source, their contents are the same too. */
  lemma ReusableExactly(w: Work, m: Maker, source: Source, ms: seq<Message>)
    ensures Reusable(w, m, source, ms) <==>
              && w.source.session == source.session && w.source.context == source.context
              && w.model in m.compatible
              && (m.counter.None? || w.counter.None? || m.counter == w.counter)
              && w.source.covered != [] && ms != []
              && (forall i | 0 <= i < |ms| && i < |w.source.covered| :: ms[i].id == w.source.covered[i])
              && (|w.source.covered| <= |ms| ==> w.source.digest == Lines(ms[..|w.source.covered|]))
  {
    var covered := w.source.covered;
    var overlap := if |covered| < |ms| then |covered| else |ms|;
    var ids := Ids(ms[..overlap]);
    assert forall i | 0 <= i < overlap :: ids[i] == ms[i].id && covered[..overlap][i] == covered[i];
    if forall i | 0 <= i < |ms| && i < |covered| :: ms[i].id == covered[i] { assert ids == covered[..overlap]; }
    if ids == covered[..overlap] {
      forall i | 0 <= i < |ms| && i < |covered| ensures ms[i].id == covered[i] {
        assert ids[i] == covered[..overlap][i];
      }
    }
  }

  /** The checkpoint of a finished source is reusable for every extension of it, and the
      checkpoint of a longer source for every non-empty prefix. */
  lemma ReusableAcrossGrowth(w: Work, m: Maker, a: seq<Message>, b: seq<Message>, s: Source, t: Source)
    requires a != [] && a <= b
    requires w.model in m.compatible && CounterMatches(m.counter, w.counter)
    requires s == SourceFor(s.session, s.context, s.revision, a) && t == SourceFor(s.session, s.context, t.revision, b)
    ensures w.source == s ==> Reusable(w, m, t, b)
    ensures w.source == t ==> Reusable(w, m, s, a)
  {
    assert b[..|a|] == a && a[..|a|] == a;
    assert Ids(b)[..|a|] == Ids(a);
    if |a| == |b| { assert a == b; }
  }

  /** When the source only grows, at most one completed leaf chunk is regenerated, whatever
      part of the leaves the checkpoint holds: every chunk of the old source but its last is
      a chunk of the longer one, and known for it if and only if it was known before. */
  lemma GrowthRegeneratesOne(
    w: Work, m: Maker, a: seq<Message>, more: seq<Message>, s: Source, t: Source, c: Counter, max: nat)
    requires a != [] && forall i | 0 <= i < |a| :: !Oversized(c, max, a[i])
    requires w.model in m.compatible && CounterMatches(m.counter, w.counter) && w.source == s
    requires s == SourceFor(s.session, s.context, s.revision, a)
    requires t == SourceFor(s.session, s.context, t.revision, a + more)
    ensures var kept, grown := Chunks(a, c, max), Chunks(a + more, c, max);
            && 1 <= |kept| <= |grown|
            && forall i | 0 <= i < |kept| - 1 ::
                 && grown[i] == kept[i]
                 && (LeafKey(kept[i]) in Known(Some(w), m, s, a, kept) <==>
                       LeafKey(grown[i]) in Known(Some(w), m, t, a + more, grown))
                 && (LeafKey(kept[i]) in Digests(w.chunks) ==>
                    LeafKey(grown[i]) in Known(Some(w), m, t, a + more, grown))
  {
    hide Chunks, Reusable, LeafKey, Digests;
    assert Chunks(a, c, max) != [] by { ChunksPartition(a, c, max); }
    ChunksPrefixStable(a, more, c, max);
    ReusableAcrossGrowth(w, m, a, a, s, s);
    ReusableAcrossGrowth(w, m, a, a + more, s, t);
    var kept, grown := Chunks(a, c, max), Chunks(a + more, c, max);
    forall i | 0 <= i < |kept| - 1
      ensures grown[i] == kept[i] && LeafKey(kept[i]) in LeafKeys(kept) && LeafKey(grown[i]) in LeafKeys(grown)
    {
      assert grown[..|kept| - 1][i] == kept[..|kept| - 1][i];
      assert LeafKeys(grown)[i] == LeafKey(grown[i]) && LeafKeys(kept)[i] == LeafKey(kept[i]);
    }
  }
}
