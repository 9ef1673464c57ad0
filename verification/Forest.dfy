/** The manuscript as a flat node map with parent pointers and sibling positions, and the
    forest it must describe. */
module Forest {
  import opened Basics

  type Id = nat

  /** `created` breaks ties in one sort order; `body` is everything else. */
  datatype Node = Node(parent: Option<Id>, position: nat, created: nat, body: Name)

  type Nodes = map<Id, Node>
  type Kids = map<Option<Id>, seq<Id>>

  /** Under `p` the children are exactly `ks`, numbered from zero in that order. */
  ghost predicate Children(nodes: Nodes, p: Option<Id>, ks: seq<Id>) {
    && (forall i | 0 <= i < |ks| :: ks[i] in nodes && nodes[ks[i]].parent == p && nodes[ks[i]].position == i)
    && (forall id | id in nodes && nodes[id].parent == p :: nodes[id].position < |ks| && ks[nodes[id].position] == id)
  }

  /** Parents exist and every parent chain climbs strictly down in rank, so it ends. */
  ghost predicate Ranked(nodes: Nodes, rank: map<Id, nat>) {
    forall id | id in nodes ::
      && id in rank
      && (nodes[id].parent.Some? ==>
            nodes[id].parent.value in nodes && nodes[id].parent.value in rank
                && rank[nodes[id].parent.value] < rank[id])
  }

  ghost predicate Shaped(nodes: Nodes, kids: Kids) {
    && (forall p :: p in kids <==> p.None? || p.value in nodes)
    && (forall p | p in kids :: Children(nodes, p, kids[p]))
  }

  ghost predicate IsForest(nodes: Nodes, kids: Kids, rank: map<Id, nat>) {
    Ranked(nodes, rank) && Shaped(nodes, kids)
  }

  // ---------- Sequences of ids ----------

  ghost predicate Distinct(ids: seq<Id>) {
    forall i, j | 0 <= i < j < |ids| :: ids[i] != ids[j]
  }

  function Without(ids: seq<Id>, id: Id): seq<Id> {
    if ids == [] then []
    else Without(ids[..|ids| - 1], id) + (if ids[|ids| - 1] == id then [] else [ids[|ids| - 1]])
  }

  function InsertAt(ids: seq<Id>, k: nat, id: Id): seq<Id>
    requires k <= |ids|
  {
    ids[..k] + [id] + ids[k..]
  }

  function Clamp(position: int, n: nat): nat {
    if position < 0 then 0 else if position < n then position else n
  }

  lemma {:induction false} WithoutMembers(ids: seq<Id>, id: Id)
    ensures forall x :: x in Without(ids, id) <==> x in ids && x != id
    ensures |Without(ids, id)| <= |ids|
  {
    if ids != [] {
      WithoutMembers(ids[..|ids| - 1], id);
      assert ids == ids[..|ids| - 1] + [ids[|ids| - 1]];
    }
  }

  lemma {:induction false} WithoutAbsent(ids: seq<Id>, id: Id)
    requires id !in ids
    ensures Without(ids, id) == ids
  {
    if ids != [] { WithoutAbsent(ids[..|ids| - 1], id); }
  }

  /** Removing keeps the relative order of everything else. */
  lemma {:induction false} WithoutOrdered(ids: seq<Id>, id: Id, nodes: Nodes)
    requires Increasing(nodes, ids)
    ensures Increasing(nodes, Without(ids, id))
  {
    if ids != [] {
      var init, last := ids[..|ids| - 1], ids[|ids| - 1];
      WithoutOrdered(init, id, nodes);
      WithoutMembers(init, id);
      var rest := Without(init, id);
      forall i | 0 <= i < |rest| ensures nodes[rest[i]].position < nodes[last].position {
        assert rest[i] in rest;
      }
    }
  }

  /** Listed in strictly increasing position. */
  ghost predicate Increasing(nodes: Nodes, ids: seq<Id>) {
    && (forall i | 0 <= i < |ids| :: ids[i] in nodes)
    && (forall i, j | 0 <= i < j < |ids| :: nodes[ids[i]].position < nodes[ids[j]].position)
  }

  /** Listed in non-decreasing position, each id once. */
  ghost predicate Ascending(nodes: Nodes, ids: seq<Id>) {
    && Distinct(ids)
    && (forall i | 0 <= i < |ids| :: ids[i] in nodes)
    && (forall i, j | 0 <= i < j < |ids| :: nodes[ids[i]].position <= nodes[ids[j]].position)
  }

  /** However ties are broken, sorting distinct positions has one result. */
  lemma {:induction false} OneOrder(nodes: Nodes, a: seq<Id>, b: seq<Id>)
    requires Ascending(nodes, a) && Increasing(nodes, b)
    requires forall x :: x in a <==> x in b
    ensures a == b
  {
    Inhabited(a);
    Inhabited(b);
    if a != [] {
      LastAgrees(nodes, a, b);
      LastSplit(a);
      LastSplit(b);
      Missing(a);
      MissingIncreasing(nodes, b);
      hide Ascending, Increasing;
      var m, n := a[..|a| - 1], b[..|b| - 1];
      assert Ascending(nodes, m) && Increasing(nodes, n) by { InitOrdered(nodes, a, b); }
      forall z ensures z in m <==> z in n { assert z in a <==> z in b; }
      OneOrder(nodes, m, n);
    }
  }

  lemma Inhabited(a: seq<Id>)
    ensures a == [] || a[0] in a
  {
  }

  lemma InitOrdered(nodes: Nodes, a: seq<Id>, b: seq<Id>)
    requires Ascending(nodes, a) && Increasing(nodes, b) && a != [] && b != []
    ensures Ascending(nodes, a[..|a| - 1]) && Increasing(nodes, b[..|b| - 1])
  {
  }

  lemma LastSplit(a: seq<Id>)
    requires a != []
    ensures a == a[..|a| - 1] + [a[|a| - 1]]
    ensures forall z :: z in a <==> z in a[..|a| - 1] || z == a[|a| - 1]
  {
    assert a == a[..|a| - 1] + [a[|a| - 1]];
  }

  lemma Missing(a: seq<Id>)
    requires Distinct(a) && a != []
    ensures a[|a| - 1] !in a[..|a| - 1]
  {
  }

  lemma MissingIncreasing(nodes: Nodes, b: seq<Id>)
    requires Increasing(nodes, b) && b != []
    ensures b[|b| - 1] !in b[..|b| - 1]
  {
  }

  lemma LastAgrees(nodes: Nodes, a: seq<Id>, b: seq<Id>)
    requires Ascending(nodes, a) && Increasing(nodes, b) && a != [] && b != []
    requires forall x :: x in a <==> x in b
    ensures a[|a| - 1] == b[|b| - 1]
  {
    var x, y := a[|a| - 1], b[|b| - 1];
    assert x in b && y in a;
    var i :| 0 <= i < |a| && a[i] == y;
    var j :| 0 <= j < |b| && b[j] == x;
    assert nodes[y].position <= nodes[x].position;
  }

  // ---------- Renumbering ----------

  function IndexOf(ids: seq<Id>, id: Id): (k: nat)
    requires id in ids
    ensures k < |ids| && ids[k] == id
  {
    if ids[|ids| - 1] == id then |ids| - 1 else IndexOf(ids[..|ids| - 1], id)
  }

  function Renumbered(nodes: Nodes, p: Option<Id>, ids: seq<Id>): Nodes {
    map id | id in nodes :: if id in ids then nodes[id].(parent := p, position := IndexOf(ids, id)) else nodes[id]
  }

  // ---------- Create and delete ----------

  lemma CreateKeepsForest(nodes: Nodes, kids: Kids, rank: map<Id, nat>, id: Id, node: Node)
    requires IsForest(nodes, kids, rank) && id !in nodes
    requires node.parent in kids && node.position == |kids[node.parent]|
    ensures var r := if node.parent.None? then 0 else rank[node.parent.value] + 1;
            IsForest(nodes[id := node], kids[node.parent := kids[node.parent] + [id]][Some(id) := []], rank[id := r])
  {
    hide Children;
    var p := node.parent;
    var nodes', kids' := nodes[id := node], kids[p := kids[p] + [id]][Some(id) := []];
    forall q | q in kids' ensures Children(nodes', q, kids'[q]) {
      if q == Some(id) {
        LeafGroup(nodes', id);
      } else if q == p {
        JoinedGroup(nodes, p, kids[p], id, node);
      } else {
        OtherGroup(nodes, nodes', q, kids[q]);
      }
    }
  }

  lemma LeafGroup(nodes: Nodes, id: Id)
    requires forall x | x in nodes :: nodes[x].parent != Some(id)
    ensures Children(nodes, Some(id), [])
  {
  }

  lemma JoinedGroup(nodes: Nodes, p: Option<Id>, ks: seq<Id>, id: Id, node: Node)
    requires Children(nodes, p, ks) && id !in nodes && node.parent == p && node.position == |ks|
    ensures Children(nodes[id := node], p, ks + [id])
  {
  }

  function DeletedKids(kids: Kids, p: Option<Id>, id: Id): Kids
    requires p in kids
  {
    (kids - {Some(id)})[p := Without(kids[p], id)]
  }

  lemma DeleteKeepsForest(nodes: Nodes, kids: Kids, rank: map<Id, nat>, id: Id)
    requires IsForest(nodes, kids, rank) && id in nodes && kids[Some(id)] == []
    ensures var p := nodes[id].parent;
            p in kids && IsForest(Renumbered(nodes - {id}, p, Without(kids[p], id)), DeletedKids(kids, p, id), rank)
  {
    hide Children, Without, Renumbered, DeletedKids;
    var p := nodes[id].parent;
    ParentListed(nodes, kids, rank, id);
    var t := Renumbered(nodes - {id}, p, Without(kids[p], id));
    var kids' := DeletedKids(kids, p, id);
    DeletedFields(nodes, kids, id);
    DeletedListed(nodes, kids, p, id);
    forall q | q in kids' ensures Children(t, q, kids'[q]) { DeletedGroup(nodes, kids, id, q); }
  }

  lemma DeletedListed(nodes: Nodes, kids: Kids, p: Option<Id>, id: Id)
    requires p in kids && p != Some(id)
    ensures forall q :: q in DeletedKids(kids, p, id) <==> q in kids && q != Some(id)
    ensures forall q | q in kids && q != Some(id) ::
              DeletedKids(kids, p, id)[q] == if q == p then Without(kids[p], id) else kids[q]
  {
    hide Without;
  }

  lemma DeletedFields(nodes: Nodes, kids: Kids, id: Id)
    requires Shaped(nodes, kids) && id in nodes && nodes[id].parent in kids && kids[Some(id)] == []
    ensures var t := Renumbered(nodes - {id}, nodes[id].parent, Without(kids[nodes[id].parent], id));
            && t.Keys == nodes.Keys - {id}
            && (forall x | x in t :: t[x] == nodes[x].(position := t[x].position) && t[x].parent != Some(id))
  {
    hide Without, IndexOf, Increasing, Distinct;
    GroupWithout(nodes, kids, nodes[id].parent, id);
    NoChild(nodes, id);
  }

  lemma DeletedGroup(nodes: Nodes, kids: Kids, id: Id, q: Option<Id>)
    requires Shaped(nodes, kids) && id in nodes && nodes[id].parent in kids && kids[Some(id)] == []
    requires q in kids && q != Some(id)
    ensures var p := nodes[id].parent;
            var rest := Without(kids[p], id);
            Children(Renumbered(nodes - {id}, p, rest), q, if q == p then rest else kids[q])
  {
    hide Shaped, Without, Distinct, Increasing, IndexOf;
    var p := nodes[id].parent;
    var rest := Without(kids[p], id);
    GroupWithout(nodes, kids, p, id);
    GroupOf(nodes, kids, q);
    if q == p {
      RenumberedGroup(nodes - {id}, p, rest, p, rest);
    } else {
      OtherGroup(nodes, Renumbered(nodes - {id}, p, rest), q, kids[q]);
    }
  }

  /** Putting the deleted node back at its place gives the old list: its siblings keep their
      order, and no other list changes. */
  lemma DeleteCloses(nodes: Nodes, kids: Kids, rank: map<Id, nat>, id: Id)
    requires IsForest(nodes, kids, rank) && id in nodes && kids[Some(id)] == []
    ensures var p, k := nodes[id].parent, nodes[id].position;
            p in kids
            && var after := DeletedKids(kids, p, id);
               && after.Keys == kids.Keys - {Some(id)}
               && p in after && k <= |after[p]| && kids[p] == after[p][..k] + [id] + after[p][k..]
               && (forall q | q in kids && q != p && q != Some(id) :: q in after && after[q] == kids[q])
  {
    hide Without, Increasing;
    var p := nodes[id].parent;
    ParentListed(nodes, kids, rank, id);
    GroupWithout(nodes, kids, p, id);
    GroupOf(nodes, kids, p);
    OwnList(nodes, p, kids[p]);
    InsertRestores(kids[p], nodes[id].position, id);
    NoChild(nodes, id);
  }

  lemma NoChild(nodes: Nodes, id: Id)
    requires Children(nodes, Some(id), [])
    ensures forall x | x in nodes :: nodes[x].parent != Some(id)
  {
  }

  lemma WithoutDistinct(nodes: Nodes, p: Option<Id>, ks: seq<Id>, id: Id)
    requires Children(nodes, p, ks)
    ensures Increasing(nodes, ks) && Increasing(nodes, Without(ks, id)) && Distinct(Without(ks, id))
  {
    WithoutOrdered(ks, id, nodes);
  }

  lemma {:induction false} IndexOfDistinct(ids: seq<Id>, i: nat)
    requires Distinct(ids) && i < |ids|
    ensures ids[i] in ids && IndexOf(ids, ids[i]) == i
  {
    var k := IndexOf(ids, ids[i]);
  }

  /** A group that was renumbered as a whole is numbered from zero in the new order. */
  lemma RenumberedGroup(nodes: Nodes, p: Option<Id>, ids: seq<Id>, q: Option<Id>, ks: seq<Id>)
    requires q == p && ks == ids && Distinct(ids)
    requires forall i | 0 <= i < |ids| :: ids[i] in nodes
    requires forall x | x in nodes && nodes[x].parent == p :: x in ids
    ensures Children(Renumbered(nodes, p, ids), q, ks)
  {
    var t := Renumbered(nodes, p, ids);
    forall i | 0 <= i < |ids| ensures t[ids[i]].parent == p && t[ids[i]].position == i { IndexOfDistinct(ids, i); }
  }

  /** A group none of whose members changed, and that nobody joined or left. */
  lemma OtherGroup(nodes: Nodes, t: Nodes, q: Option<Id>, ks: seq<Id>)
    requires Children(nodes, q, ks)
    requires forall x | x in nodes && nodes[x].parent == q :: x in t && t[x] == nodes[x]
    requires forall x | x in t && t[x].parent == q :: x in nodes && nodes[x].parent == q
    ensures Children(t, q, ks)
  {
  }

  // ---------- Move ----------

  /** `id` is `x` or lies below it. */
  ghost predicate Under(nodes: Nodes, rank: map<Id, nat>, id: Id, x: Id)
    requires Ranked(nodes, rank) && id in nodes
    decreases rank[id]
  {
    id == x || (nodes[id].parent.Some? && Under(nodes, rank, nodes[id].parent.value, x))
  }

  /** Ranks after `id` moves below `p`: the moved subtree is lifted above the new parent. */
  ghost function Lifted(nodes: Nodes, rank: map<Id, nat>, id: Id, p: Option<Id>): map<Id, nat>
    requires Ranked(nodes, rank) && (p.Some? ==> p.value in nodes)
  {
    var lift := if p.None? then 0 else rank[p.value] + 1;
    map x | x in nodes :: if Under(nodes, rank, x, id) then rank[x] + lift else rank[x]
  }

  lemma LiftedRanks(nodes: Nodes, rank: map<Id, nat>, id: Id, p: Option<Id>, t: Nodes)
    requires Ranked(nodes, rank) && id in nodes
    requires p.Some? ==> p.value in nodes && !Under(nodes, rank, p.value, id)
    requires t.Keys == nodes.Keys && t[id].parent == p
    requires forall x | x in nodes && x != id :: t[x].parent == nodes[x].parent
    ensures Ranked(t, Lifted(nodes, rank, id, p))
  {
    var up := Lifted(nodes, rank, id, p);
    forall x | x in t && t[x].parent.Some?
      ensures t[x].parent.value in t && up[t[x].parent.value] < up[x]
    {
      if x == id {
        assert Under(nodes, rank, id, id);
      } else {
        assert Under(nodes, rank, x, id) == Under(nodes, rank, nodes[x].parent.value, id);
      }
    }
  }

  /** The child lists after a move: the node leaves its old parent and appears at the
      clamped index under the new one. No other list is touched. */
  function MovedKids(kids: Kids, id: Id, from: Option<Id>, to: Option<Id>, position: int): Kids
    requires from in kids && to in kids
  {
    var rest := Without(kids[to], id);
    kids[from := Without(kids[from], id)][to := InsertAt(rest, Clamp(position, |rest|), id)]
  }

  /** The node map after both renumberings. */
  function MovedNodes(nodes: Nodes, kids: Kids, id: Id, to: Option<Id>, position: int): Nodes
    requires id in nodes && nodes[id].parent in kids && to in kids
  {
    var rest := Without(kids[to], id);
    Renumbered(Renumbered(nodes, nodes[id].parent, Without(kids[nodes[id].parent], id)), to,
        InsertAt(rest, Clamp(position, |rest|), id))
  }

  lemma InsertedMembers(ids: seq<Id>, k: nat, id: Id)
    requires k <= |ids| && Distinct(ids) && id !in ids
    ensures Distinct(InsertAt(ids, k, id)) && InsertAt(ids, k, id)[k] == id
    ensures forall x :: x in InsertAt(ids, k, id) <==> x in ids || x == id
  {
    assert ids == ids[..k] + ids[k..];
  }

  /** Only the moved node gets another parent, and nothing but parents and positions changes. */
  lemma MovedFields(nodes: Nodes, kids: Kids, id: Id, to: Option<Id>, position: int)
    requires Shaped(nodes, kids) && id in nodes && nodes[id].parent in kids && to in kids
    ensures var t := MovedNodes(nodes, kids, id, to, position);
            && t.Keys == nodes.Keys && t[id].parent == to
            && forall x | x in nodes :: t[x].created == nodes[x].created && t[x].body == nodes[x].body
                                        && (x != id ==> t[x].parent == nodes[x].parent)
  {
    hide Shaped, Without, InsertAt, Distinct, Increasing, IndexOf;
    GroupWithout(nodes, kids, nodes[id].parent, id);
    GroupWithout(nodes, kids, to, id);
    var rest := Without(kids[to], id);
    InsertedMembers(rest, Clamp(position, |rest|), id);
  }

  lemma MoveKeepsShape(nodes: Nodes, kids: Kids, id: Id, to: Option<Id>, position: int)
    requires Shaped(nodes, kids) && id in nodes && nodes[id].parent in kids && to in kids
    ensures Shaped(MovedNodes(nodes, kids, id, to, position), MovedKids(kids, id, nodes[id].parent, to, position))
  {
    hide Children, MovedNodes;
    MovedFields(nodes, kids, id, to, position);
    var kids' := MovedKids(kids, id, nodes[id].parent, to, position);
    forall q | q in kids' ensures Children(MovedNodes(nodes, kids, id, to, position), q, kids'[q]) {
      MovedGroup(nodes, kids, id, to, position, q);
    }
  }

  /** A move to a place that is not inside the moved subtree keeps the forest. */
  lemma MoveKeepsForest(nodes: Nodes, kids: Kids, rank: map<Id, nat>, id: Id, to: Option<Id>, position: int)
    requires IsForest(nodes, kids, rank) && id in nodes && to in kids
    requires to.Some? ==> !Under(nodes, rank, to.value, id)
    ensures nodes[id].parent in kids
    ensures IsForest(MovedNodes(nodes, kids, id, to, position), MovedKids(kids, id, nodes[id].parent, to, position),
            Lifted(nodes, rank, id, to))
  {
    hide Children, MovedNodes, MovedKids, Lifted, Ranked;
    assert nodes[id].parent in kids by { ParentListed(nodes, kids, rank, id); }
    MoveKeepsShape(nodes, kids, id, to, position);
    MovedFields(nodes, kids, id, to, position);
    LiftedRanks(nodes, rank, id, to, MovedNodes(nodes, kids, id, to, position));
  }

  lemma ParentListed(nodes: Nodes, kids: Kids, rank: map<Id, nat>, id: Id)
    requires IsForest(nodes, kids, rank) && id in nodes
    ensures nodes[id].parent in kids
  {
  }

  lemma GroupWithout(nodes: Nodes, kids: Kids, p: Option<Id>, id: Id)
    requires Shaped(nodes, kids) && p in kids
    ensures Distinct(Without(kids[p], id))
    ensures forall x :: x in Without(kids[p], id) <==> x in nodes && nodes[x].parent == p && x != id
    ensures Increasing(nodes, Without(kids[p], id))
  {
    assert Children(nodes, p, kids[p]);
    WithoutDistinct(nodes, p, kids[p], id);
    WithoutMembers(kids[p], id);
  }

  lemma MovedGroup(nodes: Nodes, kids: Kids, id: Id, to: Option<Id>, position: int, q: Option<Id>)
    requires Shaped(nodes, kids) && id in nodes && nodes[id].parent in kids && to in kids && q in kids
    ensures Children(MovedNodes(nodes, kids, id, to, position), q,
            MovedKids(kids, id, nodes[id].parent, to, position)[q])
  {
    hide Shaped, Distinct, Increasing, Without, InsertAt;
    var from := nodes[id].parent;
    var left, rest := Without(kids[from], id), Without(kids[to], id);
    var k := Clamp(position, |rest|);
    var ids := InsertAt(rest, k, id);
    var mid := Renumbered(nodes, from, left);
    var t := MovedNodes(nodes, kids, id, to, position);
    GroupWithout(nodes, kids, from, id);
    GroupWithout(nodes, kids, to, id);
    InsertedMembers(rest, k, id);
    if q == to {
      RenumberedGroup(mid, to, ids, q, ids);
    } else if q == from {
      RenumberedGroup(nodes - {id}, from, left, q, left);
      OtherGroup(Renumbered(nodes - {id}, from, left), t, q, left);
    } else {
      assert Children(nodes, q, kids[q]) by { GroupOf(nodes, kids, q); }
      OtherGroup(nodes, t, q, kids[q]);
    }
  }

  // ---------- What a move means ----------

  lemma {:induction false} WithoutAppend(a: seq<Id>, b: seq<Id>, id: Id)
    ensures Without(a + b, id) == Without(a, id) + Without(b, id)
  {
    if b == [] {
      assert a + b == a;
    } else {
      assert (a + b)[..|a + b| - 1] == a + b[..|b| - 1];
      WithoutAppend(a, b[..|b| - 1], id);
    }
  }

  lemma WithoutInserted(ids: seq<Id>, k: nat, id: Id)
    requires k <= |ids| && id !in ids
    ensures Without(InsertAt(ids, k, id), id) == ids
  {
    hide Without;
    var a, b := ids[..k], ids[k..];
    assert ids == a + b;
    WithoutAppend(a + [id], b, id);
    WithoutAppend(a, [id], id);
    WithoutAbsent(a, id);
    WithoutAbsent(b, id);
    WithoutSelf(id);
  }

  lemma WithoutSelf(id: Id)
    ensures Without([id], id) == []
  {
    assert Without([id][..0], id) == [];
  }

  lemma InsertRestores(ids: seq<Id>, k: nat, id: Id)
    requires Distinct(ids) && k < |ids| && ids[k] == id
    ensures |Without(ids, id)| == |ids| - 1 && InsertAt(Without(ids, id), k, id) == ids
  {
    var a, b := ids[..k], ids[k + 1..];
    assert ids == InsertAt(a + b, k, id);
    assert id !in a + b;
    WithoutInserted(a + b, k, id);
  }

  /** The node sits at the clamped index under its new parent; apart from it, every child
      list keeps its members in their order, and uninvolved lists are untouched. */
  lemma MovePlaces(nodes: Nodes, kids: Kids, id: Id, to: Option<Id>, position: int)
    requires Shaped(nodes, kids) && id in nodes && nodes[id].parent in kids && to in kids
    ensures var from := nodes[id].parent;
            var after := MovedKids(kids, id, from, to, position);
            var k := Clamp(position, |Without(kids[to], id)|);
            && after.Keys == kids.Keys
            && k < |after[to]| && after[to][k] == id
            && (forall p | p in kids :: Without(after[p], id) == Without(kids[p], id))
            && (forall p | p in kids && p != to :: id !in after[p])
            && (forall p | p in kids && p != from && p != to :: after[p] == kids[p])
  {
    hide Without, InsertAt, Distinct, Increasing;
    var from := nodes[id].parent;
    var after := MovedKids(kids, id, from, to, position);
    var rest := Without(kids[to], id);
    GroupWithout(nodes, kids, from, id);
    GroupWithout(nodes, kids, to, id);
    InsertedMembers(rest, Clamp(position, |rest|), id);
    InsertedLength(rest, Clamp(position, |rest|), id);
    WithoutInserted(rest, Clamp(position, |rest|), id);
    forall p | p in kids && p != to ensures id !in after[p] && Without(after[p], id) == Without(kids[p], id) {
      if p == from { WithoutAbsent(after[p], id); } else { NotThere(nodes, kids, id, p); }
    }
  }

  /** Where the node lands, position by position: too small a position means first, too large
      a one means last, and any other is taken as it is. */
  lemma MoveIndex(nodes: Nodes, kids: Kids, id: Id, to: Option<Id>, position: int)
    requires Shaped(nodes, kids) && id in nodes && nodes[id].parent in kids && to in kids
    ensures var after := MovedKids(kids, id, nodes[id].parent, to, position)[to];
            && |after| >= 1
            && (position <= 0 ==> after[0] == id)
            && (position >= |after| - 1 ==> after[|after| - 1] == id)
            && (0 <= position < |after| ==> after[position] == id)
  {
    hide Without, InsertAt;
    var rest := Without(kids[to], id);
    GroupWithout(nodes, kids, to, id);
    InsertedMembers(rest, Clamp(position, |rest|), id);
    InsertedLength(rest, Clamp(position, |rest|), id);
  }

  lemma InsertedLength(ids: seq<Id>, k: nat, id: Id)
    requires k <= |ids|
    ensures |InsertAt(ids, k, id)| == |ids| + 1
  {
  }

  lemma NotThere(nodes: Nodes, kids: Kids, id: Id, p: Option<Id>)
    requires Shaped(nodes, kids) && id in nodes && p in kids && p != nodes[id].parent
    ensures id !in kids[p]
  {
    GroupOf(nodes, kids, p);
  }

  /** Moving a node and then moving it back to its old parent and position restores every
      child list. */
  lemma MoveBackRestores(nodes: Nodes, kids: Kids, id: Id, to: Option<Id>, position: int)
    requires Shaped(nodes, kids) && id in nodes && nodes[id].parent in kids && to in kids
    ensures var from := nodes[id].parent;
            var after := MovedKids(kids, id, from, to, position);
            from in after && to in after && MovedKids(after, id, to, from, nodes[id].position) == kids
  {
    hide Without, InsertAt, Increasing, Distinct, Shaped;
    var from := nodes[id].parent;
    var rest := Without(kids[to], id);
    GroupWithout(nodes, kids, from, id);
    GroupWithout(nodes, kids, to, id);
    GroupOf(nodes, kids, from);
    OwnList(nodes, from, kids[from]);
    InsertRestores(kids[from], nodes[id].position, id);
    WithoutInserted(rest, Clamp(position, |rest|), id);
    WithoutAbsent(Without(kids[from], id), id);
    if to != from {
      NotThere(nodes, kids, id, to);
      WithoutAbsent(kids[to], id);
    }
  }

  lemma OwnList(nodes: Nodes, p: Option<Id>, ks: seq<Id>)
    requires Children(nodes, p, ks)
    ensures Distinct(ks)
  {
  }

  lemma GroupOf(nodes: Nodes, kids: Kids, q: Option<Id>)
    requires Shaped(nodes, kids) && q in kids
    ensures Children(nodes, q, kids[q])
  {
  }
}
