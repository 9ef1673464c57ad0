/** Reader order: nodes by the positions on their path from the root. */
module ReadingOrder {
  import opened Basics
  import opened Forest

  ghost predicate Inside(nodes: Nodes, p: Option<Id>) {
    p.None? || p.value in nodes
  }

  /** The sibling positions from the root down. */
  ghost function Path(nodes: Nodes, rank: map<Id, nat>, p: Option<Id>): seq<nat>
    requires Ranked(nodes, rank) && Inside(nodes, p)
    decreases if p.None? then 0 else rank[p.value] + 1
  {
    if p.None? then [] else Path(nodes, rank, nodes[p.value].parent) + [nodes[p.value].position]
  }

  ghost predicate Below(base: seq<nat>, path: seq<nat>) {
    |base| < |path| && path[..|base|] == base
  }

  /** Lexicographic order: an ancestor first, else by the first differing position. */
  ghost predicate Precedes(a: seq<nat>, b: seq<nat>) {
    Below(a, b) || exists k :: 0 <= k < |a| && k < |b| && a[..k] == b[..k] && a[k] < b[k]
  }

  ghost predicate Sorted(nodes: Nodes, rank: map<Id, nat>, ids: seq<Id>)
    requires Ranked(nodes, rank)
  {
    && (forall i | 0 <= i < |ids| :: ids[i] in nodes)
    && (forall i, j | 0 <= i < j < |ids| :: Precedes(Path(nodes, rank, Some(ids[i])), Path(nodes, rank, Some(ids[j]))))
  }

  /** Every node, in reader order. */
  ghost predicate InReadingOrder(nodes: Nodes, rank: map<Id, nat>, ids: seq<Id>)
    requires Ranked(nodes, rank)
  {
    Sorted(nodes, rank, ids) && forall id :: id in ids <==> id in nodes
  }

  lemma PrecedesAsymmetric(a: seq<nat>, b: seq<nat>)
    requires Precedes(a, b)
    ensures !Precedes(b, a) && a != b
  {
    if !Below(a, b) {
      var k :| 0 <= k < |a| && k < |b| && a[..k] == b[..k] && a[k] < b[k];
      assert forall l | 0 <= l < |b| && l < |a| && b[..l] == a[..l] && b[l] < a[l] :: l < k ==> a[..k][l] == b[..k][l];
      assert forall l | k < l <= |a| && l <= |b| :: a[..l][k] != b[..l][k];
    } else {
      assert forall l | 0 <= l < |a| :: b[..|a|][l] == a[l];
    }
  }

  /** Reader order is unique: two walks that both list every node in it are equal. */
  lemma {:induction false} OneReadingOrder(nodes: Nodes, rank: map<Id, nat>, a: seq<Id>, b: seq<Id>)
    requires Ranked(nodes, rank) && Sorted(nodes, rank, a) && Sorted(nodes, rank, b)
    requires forall x :: x in a <==> x in b
    ensures a == b
  {
    hide Precedes, Path;
    Inhabited(a);
    Inhabited(b);
    if a != [] {
      LastAgree(nodes, rank, a, b);
      var m, n := a[..|a| - 1], b[..|b| - 1];
      LastSplit(a);
      LastSplit(b);
      NotBefore(nodes, rank, a);
      NotBefore(nodes, rank, b);
      forall z ensures z in m <==> z in n { assert z in a <==> z in b; }
      OneReadingOrder(nodes, rank, m, n);
    }
  }

  /** Each node once. */
  lemma NotBefore(nodes: Nodes, rank: map<Id, nat>, a: seq<Id>)
    requires Ranked(nodes, rank) && Sorted(nodes, rank, a) && a != []
    ensures a[|a| - 1] !in a[..|a| - 1]
  {
    hide Precedes, Path;
    var last := a[|a| - 1];
    forall i | 0 <= i < |a| - 1 ensures a[i] != last {
      PrecedesAsymmetric(Path(nodes, rank, Some(a[i])), Path(nodes, rank, Some(last)));
    }
  }

  lemma LastAgree(nodes: Nodes, rank: map<Id, nat>, a: seq<Id>, b: seq<Id>)
    requires Ranked(nodes, rank) && Sorted(nodes, rank, a) && Sorted(nodes, rank, b) && a != [] && b != []
    requires forall x :: x in a <==> x in b
    ensures a[|a| - 1] == b[|b| - 1]
  {
    hide Precedes, Path;
    var x, y := a[|a| - 1], b[|b| - 1];
    assert x in b && y in a;
    var i :| 0 <= i < |a| && a[i] == y;
    var j :| 0 <= j < |b| && b[j] == x;
    if i < |a| - 1 {
      PrecedesAsymmetric(Path(nodes, rank, Some(y)), Path(nodes, rank, Some(x)));
    }
  }

  /** In reader order a parent precedes its children, and siblings follow their positions. */
  lemma ParentsFirst(nodes: Nodes, rank: map<Id, nat>, ids: seq<Id>, i: nat, j: nat)
    requires Ranked(nodes, rank) && InReadingOrder(nodes, rank, ids)
    requires i < |ids| && j < |ids|
    requires nodes[ids[j]].parent == Some(ids[i])
             || (nodes[ids[i]].parent == nodes[ids[j]].parent && nodes[ids[i]].position < nodes[ids[j]].position)
    ensures i < j
  {
    hide Precedes, Path;
    var a, b := Path(nodes, rank, Some(ids[i])), Path(nodes, rank, Some(ids[j]));
    assert Precedes(a, b) by {
      FamilyOrder(nodes, rank, ids[i], ids[j]);
    }
    PrecedesAsymmetric(a, b);
  }

  lemma FamilyOrder(nodes: Nodes, rank: map<Id, nat>, a: Id, b: Id)
    requires Ranked(nodes, rank) && a in nodes && b in nodes
    requires nodes[b].parent == Some(a) || (nodes[a].parent == nodes[b].parent && nodes[a].position < nodes[b].position)
    ensures Precedes(Path(nodes, rank, Some(a)), Path(nodes, rank, Some(b)))
  {
    var p, q := Path(nodes, rank, Some(a)), Path(nodes, rank, Some(b));
    if nodes[b].parent == Some(a) {
      assert q == p + [nodes[b].position];
    } else {
      var base := Path(nodes, rank, nodes[a].parent);
      Diverge(base, nodes[a].position, [], nodes[b].position, []);
      assert p == base + [nodes[a].position] + [] && q == base + [nodes[b].position] + [];
    }
  }

  lemma Diverge(base: seq<nat>, i: nat, x: seq<nat>, j: nat, y: seq<nat>)
    requires i < j
    ensures Precedes(base + [i] + x, base + [j] + y)
  {
    var a, b, k := base + [i] + x, base + [j] + y, |base|;
    assert a[..k] == base && b[..k] == base && a[k] == i && b[k] == j;
  }

  // ---------- Paths identify nodes ----------

  lemma {:induction false} PathInjective(nodes: Nodes, kids: Kids, rank: map<Id, nat>, p: Option<Id>, q: Option<Id>)
    requires IsForest(nodes, kids, rank) && Inside(nodes, p) && Inside(nodes, q)
    requires Path(nodes, rank, p) == Path(nodes, rank, q)
    ensures p == q
    decreases |Path(nodes, rank, p)|
  {
    if p.Some? && q.Some? {
      var u, v := nodes[p.value].parent, nodes[q.value].parent;
      var a, b := Path(nodes, rank, u), Path(nodes, rank, v);
      var i, j := nodes[p.value].position, nodes[q.value].position;
      assert a == (a + [i])[..|a|] && b == (b + [j])[..|b|];
      assert (a + [i])[|a|] == (b + [j])[|b|];
      PathInjective(nodes, kids, rank, u, v);
      assert Children(nodes, u, kids[u]);
    }
  }

  /** Every non-empty prefix of a path is the path of an ancestor. */
  lemma {:induction false} AncestorAt(nodes: Nodes, rank: map<Id, nat>, id: Id, n: nat) returns (a: Id)
    requires Ranked(nodes, rank) && id in nodes && n < |Path(nodes, rank, Some(id))|
    ensures a in nodes && Path(nodes, rank, Some(a)) == Path(nodes, rank, Some(id))[..n + 1]
    decreases rank[id]
  {
    var path := Path(nodes, rank, Some(id));
    if n + 1 == |path| {
      a := id;
      assert path[..n + 1] == path;
    } else {
      var up := nodes[id].parent;
      assert path == Path(nodes, rank, up) + [nodes[id].position];
      a := AncestorAt(nodes, rank, up.value, n);
    }
  }

  // ---------- Walking one node's subtree ----------

  /** The nodes strictly below `base` whose next position is under `limit`, in order. */
  ghost predicate Walked(nodes: Nodes, rank: map<Id, nat>, base: seq<nat>, limit: nat, ids: seq<Id>)
    requires Ranked(nodes, rank)
  {
    && Sorted(nodes, rank, ids)
    && forall id | id in nodes :: id in ids <==> Reached(Path(nodes, rank, Some(id)), base, limit)
  }

  ghost predicate Reached(path: seq<nat>, base: seq<nat>, limit: nat) {
    Below(base, path) && path[|base|] < limit
  }

  /** The whole subtree strictly below a node. */
  ghost predicate Subtree(nodes: Nodes, rank: map<Id, nat>, base: seq<nat>, ids: seq<Id>)
    requires Ranked(nodes, rank)
  {
    && Sorted(nodes, rank, ids)
    && forall id | id in nodes :: id in ids <==> Below(base, Path(nodes, rank, Some(id)))
  }

  /** After the first `i` children with their subtrees come child `i` and its subtree. */
  lemma WalkOneMore(nodes: Nodes, kids: Kids, rank: map<Id, nat>, base: seq<nat>, i: nat, done: seq<Id>, c: Id,
      below: seq<Id>)
    requires IsForest(nodes, kids, rank) && c in nodes
    requires Path(nodes, rank, Some(c)) == base + [i]
    requires Walked(nodes, rank, base, i, done) && Subtree(nodes, rank, base + [i], below)
    ensures Walked(nodes, rank, base, i + 1, done + [c] + below)
  {
    hide Shaped, Path, Precedes, Ranked;
    var ids := done + [c] + below;
    forall id | id in nodes ensures id in ids <==> Reached(Path(nodes, rank, Some(id)), base, i + 1) {
      var path := Path(nodes, rank, Some(id));
      if Below(base, path) && path[|base|] == i { NextIsChild(nodes, kids, rank, base, i, c, id); }
      if id == c { assert (base + [i])[..|base|] == base; }
      if Below(base + [i], path) { BelowChild(base, i, path); }
    }
    forall k, l | 0 <= k < l < |ids|
      ensures ids[k] in nodes && ids[l] in nodes
      ensures Precedes(Path(nodes, rank, Some(ids[k])), Path(nodes, rank, Some(ids[l])))
    {
      WalkOrder(nodes, rank, base, i, done, c, below, k, l);
    }
    Members(nodes, rank, base, i, done, c, below);
  }

  lemma Members(nodes: Nodes, rank: map<Id, nat>, base: seq<nat>, i: nat, done: seq<Id>, c: Id, below: seq<Id>)
    requires Ranked(nodes, rank) && c in nodes
    requires Walked(nodes, rank, base, i, done) && Subtree(nodes, rank, base + [i], below)
    ensures forall k | 0 <= k < |done + [c] + below| :: (done + [c] + below)[k] in nodes
  {
  }

  lemma BelowChild(base: seq<nat>, i: nat, path: seq<nat>)
    requires Below(base + [i], path)
    ensures Below(base, path) && path[|base|] == i
  {
    assert path[..|base| + 1][..|base|] == base && path[..|base| + 1][|base|] == i;
  }

  lemma NextIsChild(nodes: Nodes, kids: Kids, rank: map<Id, nat>, base: seq<nat>, i: nat, c: Id, id: Id)
    requires IsForest(nodes, kids, rank) && c in nodes && id in nodes
    requires Path(nodes, rank, Some(c)) == base + [i]
    requires Below(base, Path(nodes, rank, Some(id))) && Path(nodes, rank, Some(id))[|base|] == i
    ensures id == c || Below(base + [i], Path(nodes, rank, Some(id)))
  {
    var path := Path(nodes, rank, Some(id));
    assert path[..|base| + 1] == base + [i];
    if |path| == |base| + 1 {
      assert path == base + [i];
      PathInjective(nodes, kids, rank, Some(id), Some(c));
    }
  }

  lemma WalkOrder(nodes: Nodes, rank: map<Id, nat>, base: seq<nat>, i: nat, done: seq<Id>, c: Id, below: seq<Id>,
      k: nat, l: nat)
    requires Ranked(nodes, rank) && c in nodes && Path(nodes, rank, Some(c)) == base + [i]
    requires Walked(nodes, rank, base, i, done) && Subtree(nodes, rank, base + [i], below)
    requires k < l < |done + [c] + below|
    ensures var ids := done + [c] + below;
            && ids[k] in nodes && ids[l] in nodes
            && Precedes(Path(nodes, rank, Some(ids[k])), Path(nodes, rank, Some(ids[l])))
  {
    hide Path, Ranked;
    var ids := done + [c] + below;
    var x, y := ids[k], ids[l];
    assert x in nodes && y in nodes;
    if k < |done| <= l {
      var p, q := Path(nodes, rank, Some(x)), Path(nodes, rank, Some(y));
      assert x in done && Reached(p, base, i);
      if l > |done| { assert y in below; BelowChild(base, i, q); } else { assert q == base + [i]; }
      assert p[..|base|] == q[..|base|] && p[|base|] < q[|base|];
    } else if k == |done| {
      assert y in below;
    }
  }

  /** When all children have been walked, the whole subtree has. */
  lemma WalkedAll(nodes: Nodes, kids: Kids, rank: map<Id, nat>, p: Option<Id>, ids: seq<Id>)
    requires IsForest(nodes, kids, rank) && Inside(nodes, p)
    requires Walked(nodes, rank, Path(nodes, rank, p), |kids[p]|, ids)
    ensures Subtree(nodes, rank, Path(nodes, rank, p), ids)
  {
    var base := Path(nodes, rank, p);
    forall id | id in nodes && Below(base, Path(nodes, rank, Some(id)))
      ensures Reached(Path(nodes, rank, Some(id)), base, |kids[p]|)
    {
      FirstStep(nodes, kids, rank, p, id);
    }
  }

  lemma FirstStep(nodes: Nodes, kids: Kids, rank: map<Id, nat>, p: Option<Id>, id: Id)
    requires IsForest(nodes, kids, rank) && Inside(nodes, p) && id in nodes
    requires Below(Path(nodes, rank, p), Path(nodes, rank, Some(id)))
    ensures p in kids && Path(nodes, rank, Some(id))[|Path(nodes, rank, p)|] < |kids[p]|
  {
    hide Shaped, Path;
    var base, path := Path(nodes, rank, p), Path(nodes, rank, Some(id));
    var a := AncestorAt(nodes, rank, id, |base|);
    ParentPath(nodes, rank, a, base, path);
    PathInjective(nodes, kids, rank, nodes[a].parent, p);
    PositionListed(nodes, kids, rank, a);
  }

  lemma ParentPath(nodes: Nodes, rank: map<Id, nat>, a: Id, base: seq<nat>, path: seq<nat>)
    requires Ranked(nodes, rank) && a in nodes && Below(base, path)
    requires Path(nodes, rank, Some(a)) == path[..|base| + 1]
    ensures Inside(nodes, nodes[a].parent) && Path(nodes, rank, nodes[a].parent) == base
    ensures nodes[a].position == path[|base|]
  {
    var up := Path(nodes, rank, nodes[a].parent);
    var full := path[..|base| + 1];
    assert full == up + [nodes[a].position];
    assert full[..|base|] == base && full[..|up|] == up && full[|base|] == path[|base|];
  }

  lemma PositionListed(nodes: Nodes, kids: Kids, rank: map<Id, nat>, a: Id)
    requires IsForest(nodes, kids, rank) && a in nodes
    ensures nodes[a].parent in kids && nodes[a].position < |kids[nodes[a].parent]|
  {
  }

  lemma ChildPath(nodes: Nodes, kids: Kids, rank: map<Id, nat>, p: Option<Id>, i: nat)
    requires IsForest(nodes, kids, rank) && Inside(nodes, p) && i < |kids[p]|
    ensures kids[p][i] in nodes && nodes[kids[p][i]].parent == p
    ensures Path(nodes, rank, Some(kids[p][i])) == Path(nodes, rank, p) + [i]
  {
    assert Children(nodes, p, kids[p]);
  }

  /** The subtree below the root is the whole manuscript. */
  lemma RootSubtree(nodes: Nodes, rank: map<Id, nat>, ids: seq<Id>)
    requires Ranked(nodes, rank) && Subtree(nodes, rank, [], ids)
    ensures InReadingOrder(nodes, rank, ids)
  {
    forall id | id in nodes ensures Below([], Path(nodes, rank, Some(id))) {
      assert Path(nodes, rank, Some(id))[..0] == [];
    }
    forall id | id in ids ensures id in nodes {
      var i :| 0 <= i < |ids| && ids[i] == id;
    }
  }

  /** Ranks are bounded, so descending ends. */
  lemma {:induction false} RankBound(ids: set<Id>, rank: map<Id, nat>) returns (bound: nat)
    requires forall id | id in ids :: id in rank
    ensures forall id | id in ids :: rank[id] < bound
  {
    if ids == {} {
      bound := 0;
    } else {
      var id :| id in ids;
      var rest := RankBound(ids - {id}, rank);
      bound := if rest > rank[id] then rest else rank[id] + 1;
      forall x | x in ids ensures rank[x] < bound { assert x == id || x in ids - {id}; }
    }
  }
}
