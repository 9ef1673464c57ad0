/** The manuscript store: create, move and delete keep the forest, and the two walks that
    read it agree. */
module ManuscriptStores {
  import opened Basics
  import opened Forest
  import opened ReadingOrder

  datatype Problem = NotFound | Cycle | HasChildren

  class ManuscriptStore {
    var nodes: Nodes
    var version: nat
    /** The child list of every parent, and a height for every node. */
    ghost var kids: Kids
    ghost var rank: map<Id, nat>

    ghost predicate Valid()
      reads this`nodes, this`kids, this`rank
    {
      IsForest(nodes, kids, rank)
    }

    constructor ()
      ensures Valid() && nodes == map[] && version == 1 && kids == map[None := []]
    {
      nodes, version, kids, rank := map[], 1, map[None := []], map[];
    }

    // ---------- Siblings ----------

    /** The sort key of the store is (position, created, id); the export leaves out the
        middle part. */
    predicate Before(a: Id, b: Id, byCreation: bool)
      reads this`nodes
      requires a in nodes && b in nodes
    {
      var x, y := nodes[a], nodes[b];
      x.position < y.position
      || (x.position == y.position
          && if byCreation && x.created != y.created then x.created < y.created else a < b)
    }

    method Sort(ids: seq<Id>, byCreation: bool) returns (sorted: seq<Id>)
      requires Distinct(ids) && forall i | 0 <= i < |ids| :: ids[i] in nodes
      ensures Ascending(nodes, sorted) && forall x :: x in sorted <==> x in ids
    {
      sorted := [];
      for i := 0 to |ids|
        invariant Ascending(nodes, sorted)
        invariant forall x :: x in sorted <==> x in ids[..i]
      {
        assert ids[..i + 1] == ids[..i] + [ids[i]];
        NewMember(ids, i);
        sorted := Place(sorted, ids[i], byCreation);
      }
      assert ids[..|ids|] == ids;
    }

    method Place(sorted: seq<Id>, id: Id, byCreation: bool) returns (r: seq<Id>)
      requires Ascending(nodes, sorted) && id in nodes && id !in sorted
      ensures Ascending(nodes, r) && forall x :: x in r <==> x in sorted || x == id
    {
      var k := |sorted|;
      while k > 0 && Before(id, sorted[k - 1], byCreation)
        invariant 0 <= k <= |sorted|
        invariant k < |sorted| ==> nodes[id].position <= nodes[sorted[k]].position
      {
        k := k - 1;
      }
      Placed(nodes, sorted, k, id);
      r := InsertAt(sorted, k, id);
    }

    method Siblings(parent: Option<Id>, ghost others: seq<Id>, ghost except: Id) returns (r: seq<Id>)
      requires Increasing(nodes, others)
      requires forall x :: x in others <==> x in nodes && nodes[x].parent == parent && x != except
      ensures Without(r, except) == others
      ensures (except in nodes ==> nodes[except].parent != parent) ==> r == others
    {
      var ids: seq<Id> := [];
      var rest := nodes.Keys;
      while rest != {}
        invariant rest <= nodes.Keys && Distinct(ids)
        invariant forall x :: x in ids <==> x in nodes && x !in rest && nodes[x].parent == parent
        decreases |rest|
      {
        var id :| id in rest;
        rest := rest - {id};
        if nodes[id].parent == parent { ids := ids + [id]; }
      }
      r := Sort(ids, true);
      SortedSiblings(nodes, parent, r, others, except);
    }

    // ---------- Mutations ----------

    method Renumber(parent: Option<Id>, ids: seq<Id>)
      requires Distinct(ids) && forall i | 0 <= i < |ids| :: ids[i] in nodes
      modifies this`nodes
      ensures nodes == Renumbered(old(nodes), parent, ids)
    {
      ghost var before := nodes;
      for position := 0 to |ids|
        invariant nodes.Keys == before.Keys
        invariant forall i | 0 <= i < position :: nodes[ids[i]] == before[ids[i]].(parent := parent, position := i)
        invariant forall x | x in nodes && x !in ids[..position] :: nodes[x] == before[x]
      {
        NewMember(ids, position);
        assert ids[..position + 1] == ids[..position] + [ids[position]];
        nodes := nodes[ids[position] := nodes[ids[position]].(parent := parent, position := position)];
      }
      assert ids[..|ids|] == ids;
      forall x | x in nodes ensures nodes[x] == Renumbered(before, parent, ids)[x] {
        if x in ids { IndexOfDistinct(ids, IndexOf(ids, x)); }
      }
    }

    /** A new node goes after the existing children of its parent. */
    method Create(id: Id, parent: Option<Id>, created: nat, body: Name) returns (r: Result<Node, Problem>)
      requires Valid() && id !in nodes
      modifies this
      ensures Valid()
      ensures r.Ok? <==> (parent.None? || parent.value in old(nodes))
      ensures r.Ok? ==> r.value == Node(parent, |old(kids)[parent]|, created, body)
                        && nodes == old(nodes)[id := r.value] && version == old(version) + 1
                        && kids == old(kids)[parent := old(kids)[parent] + [id]][Some(id) := []]
      ensures r.Err? ==> r.error == NotFound && nodes == old(nodes) && kids == old(kids) && version == old(version)
    {
      hide IsForest, Without;
      if parent.Some? && parent.value !in nodes { return Err(NotFound); }
      GroupFacts(nodes, kids, rank, parent, id);
      var siblings := Siblings(parent, kids[parent], id);
      var node := Node(parent, |siblings|, created, body);
      CreateKeepsForest(nodes, kids, rank, id, node);
      RankOf(nodes, kids, rank, parent);
      rank := rank[id := if parent.None? then 0 else rank[parent.value] + 1];
      kids := kids[parent := kids[parent] + [id]][Some(id) := []];
      nodes := nodes[id := node];
      version := version + 1;
      return Ok(node);
    }

    /** The walk up from the new parent; it ends because ranks decrease. */
    method InsideSubtree(start: Option<Id>, id: Id) returns (found: bool)
      requires Valid() && (start.Some? ==> start.value in nodes)
      ensures found <==> Ranked(nodes, rank) && start.Some? && Under(nodes, rank, start.value, id)
    {
      hide Shaped;
      var ancestor := start;
      while ancestor != None
        invariant ancestor.Some? ==> ancestor.value in nodes
        invariant start.Some? && Under(nodes, rank, start.value, id) <==>
                  ancestor.Some? && Under(nodes, rank, ancestor.value, id)
        decreases if ancestor.None? then 0 else rank[ancestor.value] + 1
      {
        if ancestor.value == id { return true; }
        ancestor := nodes[ancestor.value].parent;
      }
      return false;
    }

    /** The node ends at the clamped index under its new parent. Every other child keeps
        its parent and its order, and other parents' lists are untouched. */
    method Move(id: Id, to: Option<Id>, position: int) returns (r: Result<Node, Problem>)
      requires Valid()
      modifies this
      ensures Valid()
      ensures r.Err? ==> nodes == old(nodes) && kids == old(kids) && version == old(version)
      ensures r == Err(NotFound) <==> id !in old(nodes) || (to.Some? && to.value !in old(nodes))
      ensures id in old(nodes) && (to.Some? ==> to.value in old(nodes)) ==>
                (r == Err(Cycle) <==>
                   Ranked(old(nodes), old(rank)) && to.Some? && Under(old(nodes), old(rank), to.value, id))
      ensures r.Ok? ==>
                && id in old(nodes) && old(nodes)[id].parent in old(kids) && to in old(kids)
                && kids == MovedKids(old(kids), id, old(nodes)[id].parent, to, position)
                && nodes == MovedNodes(old(nodes), old(kids), id, to, position)
                && r.value == nodes[id] && version == old(version) + 1
      ensures r.Err? ==> r.error != HasChildren
    {
      hide IsForest, Without, InsertAt, Increasing, Distinct, Renumbered, Ranked, Under;
      if id !in nodes { return Err(NotFound); }
      if to.Some? && to.value !in nodes { return Err(NotFound); }
      RankedPart(nodes, kids, rank);
      if to == Some(id) {
        UnderSelf(nodes, rank, id);
        return Err(Cycle);
      }
      var cyclic := InsideSubtree(to, id);
      if cyclic { return Err(Cycle); }
      GroupFacts(nodes, kids, rank, to, id);
      GroupFacts(nodes, kids, rank, nodes[id].parent, id);
      ghost var before := nodes;
      var from := nodes[id].parent;
      var oldSiblings := Siblings(from, Without(kids[from], id), id);
      var oldIds := Without(oldSiblings, id);
      Renumber(from, oldIds);
      MidGroup(before, kids, rank, id, to);
      var siblings := Siblings(to, Without(kids[to], id), id);
      var targetIds := Without(siblings, id);
      var insertion := Clamp(position, |targetIds|);
      WithoutFree(targetIds, siblings, id);
      InsertedMembers(targetIds, insertion, id);
      Renumber(to, InsertAt(targetIds, insertion, id));
      MoveKeepsForest(before, kids, rank, id, to, position);
      MovedFieldsOf(before, kids, rank, id, to, position);
      version := version + 1;
      rank := Lifted(before, rank, id, to);
      kids := MovedKids(kids, id, from, to, position);
      return Ok(nodes[id]);
    }

    /** Only a node without children is deleted; its siblings close the gap in order. */
    method Delete(id: Id) returns (r: Result<bool, Problem>)
      requires Valid()
      modifies this
      ensures Valid()
      ensures r == Ok(false) <==> id !in old(nodes)
      ensures r == Err(HasChildren) <==> id in old(nodes) && Some(id) in old(kids) && old(kids)[Some(id)] != []
      ensures r.Err? ==> r.error == HasChildren
      ensures r != Ok(true) ==> nodes == old(nodes) && kids == old(kids) && version == old(version)
      ensures r == Ok(true) ==>
                && old(nodes)[id].parent in old(kids)
                && kids == DeletedKids(old(kids), old(nodes)[id].parent, id)
                && nodes == Renumbered(old(nodes) - {id}, old(nodes)[id].parent, kids[old(nodes)[id].parent])
                && version == old(version) + 1
    {
      hide IsForest, Without, Increasing, Distinct, Renumbered, DeletedKids;
      if id !in nodes { return Ok(false); }
      ChildrenOf(nodes, kids, rank, id);
      if exists x | x in nodes :: nodes[x].parent == Some(id) { return Err(HasChildren); }
      var parent := nodes[id].parent;
      GroupFacts(nodes, kids, rank, parent, id);
      DeleteKeepsForest(nodes, kids, rank, id);
      DeletedListedOf(nodes, kids, rank, parent, id);
      ghost var rest := Without(kids[parent], id);
      nodes := nodes - {id};
      var siblings := Siblings(parent, rest, id);
      Renumber(parent, siblings);
      kids := DeletedKids(kids, parent, id);
      version := version + 1;
      return Ok(true);
    }

    // ---------- Walks ----------

    method Collect() returns (children: map<Option<Id>, seq<Id>>)
      ensures forall p | p in children :: Distinct(children[p]) && children[p] != []
      ensures forall p, x | p in children :: x in children[p] <==> x in nodes && nodes[x].parent == p
      ensures forall x | x in nodes :: nodes[x].parent in children
    {
      children := map[];
      var rest := nodes.Keys;
      while rest != {}
        invariant rest <= nodes.Keys
        invariant forall p | p in children :: Distinct(children[p]) && children[p] != []
        invariant forall p, x | p in children :: x in children[p] <==> x in nodes && x !in rest && nodes[x].parent == p
        invariant forall x | x in nodes && x !in rest :: nodes[x].parent in children
        decreases |rest|
      {
        var id :| id in rest;
        rest := rest - {id};
        var p := nodes[id].parent;
        children := children[p := (if p in children then children[p] else []) + [id]];
      }
    }

    /** Children grouped by parent, each group sorted. */
    method Grouped(byCreation: bool) returns (children: map<Option<Id>, seq<Id>>)
      requires Valid()
      ensures forall p :: p in children <==> p in kids && kids[p] != []
      ensures forall p | p in children :: children[p] == kids[p]
    {
      hide IsForest, Distinct, Ascending;
      children := Collect();
      GroupKeys(nodes, kids, rank, children);
      ghost var start := children;
      var parents := children.Keys;
      while parents != {}
        invariant parents <= children.Keys == start.Keys
        invariant forall p | p in parents :: children[p] == start[p]
        invariant forall p | p in children && p !in parents :: children[p] == kids[p]
        decreases |parents|
      {
        var p :| p in parents;
        parents := parents - {p};
        GroupInside(nodes, p, children[p]);
        var sorted := Sort(children[p], byCreation);
        GroupIs(nodes, kids, rank, p, sorted);
        children := children[p := sorted];
      }
    }

    method Visit(children: map<Option<Id>, seq<Id>>, parent: Option<Id>, ordered: seq<Id>, ghost bound: nat)
        returns (r: seq<Id>)
      requires Valid() && Inside(nodes, parent)
      requires forall p :: p in children <==> p in kids && kids[p] != []
      requires forall p | p in children :: children[p] == kids[p]
      requires forall id | id in nodes :: id in rank && rank[id] < bound
      ensures ordered <= r && Ranked(nodes, rank) && Subtree(nodes, rank, Path(nodes, rank, parent), r[|ordered|..])
      decreases if parent.None? then bound + 1 else bound - rank[parent.value]
    {
      hide IsForest, Ranked, Path, Subtree, Walked;
      RankedPart(nodes, kids, rank);
      InsideListed(nodes, kids, rank, parent);
      ghost var base := Path(nodes, rank, parent);
      r := ordered;
      NothingWalked(nodes, rank, base);
      assert r[|ordered|..] == [];
      var group := if parent in children then children[parent] else [];
      for i := 0 to |group|
        invariant ordered <= r && Walked(nodes, rank, base, i, r[|ordered|..])
      {
        ChildPath(nodes, kids, rank, parent, i);
        RankBelow(nodes, rank, group[i], parent);
        ghost var done := r[|ordered|..];
        var next := Visit(children, Some(group[i]), r + [group[i]], bound);
        assert next == ordered + done + [group[i]] + next[|r| + 1..];
        WalkOneMore(nodes, kids, rank, base, i, done, group[i], next[|r| + 1..]);
        assert next[|ordered|..] == done + [group[i]] + next[|r| + 1..];
        r := next;
      }
      WalkedAll(nodes, kids, rank, parent, r[|ordered|..]);
    }

    /** Terminates and lists every node exactly once, in reader order. */
    method OrderedDepthFirst() returns (ordered: seq<Id>, atVersion: nat)
      requires Valid()
      ensures Ranked(nodes, rank) && InReadingOrder(nodes, rank, ordered) && atVersion == version
    {
      ordered := Walk(true);
      atVersion := version;
    }

    /** The export's own walk, over groups sorted without the creation time. */
    method RenderManuscript() returns (ordered: seq<Id>)
      requires Valid()
      ensures Ranked(nodes, rank) && InReadingOrder(nodes, rank, ordered)
    {
      ordered := Walk(false);
    }

    method Walk(byCreation: bool) returns (ordered: seq<Id>)
      requires Valid()
      ensures Ranked(nodes, rank) && InReadingOrder(nodes, rank, ordered)
    {
      hide IsForest, Subtree, InReadingOrder;
      var children := Grouped(byCreation);
      RankedPart(nodes, kids, rank);
      ghost var bound := RankBound(nodes.Keys, rank);
      ordered := Visit(children, None, [], bound);
      assert ordered[0..] == ordered;
      RootSubtree(nodes, rank, ordered);
    }
  }

  /** One manuscript read both ways: the reading view and the export see the same order,
      although their sort keys differ. */
  method BothWalks(store: ManuscriptStore) returns (shown: seq<Id>, exported: seq<Id>)
    requires store.Valid()
    ensures shown == exported
    ensures Ranked(store.nodes, store.rank) && InReadingOrder(store.nodes, store.rank, shown)
  {
    hide IsForest, Sorted;
    var version;
    shown, version := store.OrderedDepthFirst();
    exported := store.RenderManuscript();
    WalksAgree(store.nodes, store.rank, shown, exported);
  }

  lemma WalksAgree(nodes: Nodes, rank: map<Id, nat>, a: seq<Id>, b: seq<Id>)
    requires Ranked(nodes, rank) && InReadingOrder(nodes, rank, a) && InReadingOrder(nodes, rank, b)
    ensures a == b
  {
    hide Sorted, Ranked;
    OneReadingOrder(nodes, rank, a, b);
  }

  // ---------- Lemmas for the methods ----------

  lemma NewMember(ids: seq<Id>, i: nat)
    requires Distinct(ids) && i < |ids|
    ensures ids[i] !in ids[..i]
  {
  }

  lemma Placed(nodes: Nodes, sorted: seq<Id>, k: nat, id: Id)
    requires Ascending(nodes, sorted) && id in nodes && id !in sorted && k <= |sorted|
    requires k < |sorted| ==> nodes[id].position <= nodes[sorted[k]].position
    requires k > 0 ==> nodes[sorted[k - 1]].position <= nodes[id].position
    ensures Ascending(nodes, InsertAt(sorted, k, id))
    ensures forall x :: x in InsertAt(sorted, k, id) <==> x in sorted || x == id
  {
    InsertedMembers(sorted, k, id);
  }

  /** The sorted siblings without one node are exactly the others in order. */
  lemma SortedSiblings(nodes: Nodes, parent: Option<Id>, r: seq<Id>, others: seq<Id>, except: Id)
    requires Ascending(nodes, r) && forall x :: x in r <==> x in nodes && nodes[x].parent == parent
    requires Increasing(nodes, others)
    requires forall x :: x in others <==> x in nodes && nodes[x].parent == parent && x != except
    ensures Without(r, except) == others
    ensures (except in nodes ==> nodes[except].parent != parent) ==> r == others
  {
    WithoutMembers(r, except);
    WithoutAscending(nodes, r, except);
    OneOrder(nodes, Without(r, except), others);
    if except in nodes ==> nodes[except].parent != parent { WithoutAbsent(r, except); }
  }

  lemma {:induction false} WithoutAscending(nodes: Nodes, ids: seq<Id>, id: Id)
    requires Ascending(nodes, ids)
    ensures Ascending(nodes, Without(ids, id))
  {
    if ids != [] {
      var init, last := ids[..|ids| - 1], ids[|ids| - 1];
      WithoutAscending(nodes, init, id);
      WithoutMembers(init, id);
      var rest := Without(init, id);
      forall i | 0 <= i < |rest| ensures rest[i] != last && nodes[rest[i]].position <= nodes[last].position {
        assert rest[i] in rest;
      }
    }
  }

  lemma GroupFacts(nodes: Nodes, kids: Kids, rank: map<Id, nat>, p: Option<Id>, id: Id)
    requires IsForest(nodes, kids, rank) && Inside(nodes, p)
    ensures p in kids && Distinct(Without(kids[p], id)) && Increasing(nodes, Without(kids[p], id))
    ensures forall x :: x in Without(kids[p], id) <==> x in nodes && nodes[x].parent == p && x != id
    ensures id !in nodes ==> Without(kids[p], id) == kids[p]
    ensures id in nodes ==> Inside(nodes, nodes[id].parent)
  {
    GroupWithout(nodes, kids, p, id);
    GroupOf(nodes, kids, p);
    if id !in nodes { WithoutAbsent(kids[p], id); }
  }

  lemma RankOf(nodes: Nodes, kids: Kids, rank: map<Id, nat>, p: Option<Id>)
    requires IsForest(nodes, kids, rank) && Inside(nodes, p)
    ensures p.Some? ==> p.value in rank
  {
  }

  lemma RankedPart(nodes: Nodes, kids: Kids, rank: map<Id, nat>)
    requires IsForest(nodes, kids, rank)
    ensures Ranked(nodes, rank) && forall id | id in nodes :: id in rank
  {
  }

  lemma UnderSelf(nodes: Nodes, rank: map<Id, nat>, id: Id)
    requires Ranked(nodes, rank) && id in nodes
    ensures Under(nodes, rank, id, id)
  {
  }

  /** After the old siblings are renumbered, the target's other children are still in
      their order, even when the node has not left that very list yet. */
  lemma MidGroup(nodes: Nodes, kids: Kids, rank: map<Id, nat>, id: Id, to: Option<Id>)
    requires IsForest(nodes, kids, rank) && id in nodes && Inside(nodes, to) && nodes[id].parent in kids
    ensures to in kids
    ensures var mid := Renumbered(nodes, nodes[id].parent, Without(kids[nodes[id].parent], id));
            && mid.Keys == nodes.Keys && Increasing(mid, Without(kids[to], id))
            && forall x :: x in Without(kids[to], id) <==> x in mid && mid[x].parent == to && x != id
  {
    hide IsForest, Without, Distinct, Increasing, Renumbered;
    var from := nodes[id].parent;
    var left := Without(kids[from], id);
    GroupFacts(nodes, kids, rank, to, id);
    GroupFacts(nodes, kids, rank, from, id);
    MidFields(nodes, from, left);
    var mid := Renumbered(nodes, from, left);
    if to == from { MidSame(nodes, from, left); } else { MidOther(nodes, mid, Without(kids[to], id)); }
  }

  lemma MidFields(nodes: Nodes, p: Option<Id>, ids: seq<Id>)
    requires forall x | x in ids :: x in nodes && nodes[x].parent == p
    ensures var mid := Renumbered(nodes, p, ids);
            && mid.Keys == nodes.Keys
            && forall x | x in nodes :: mid[x].parent == nodes[x].parent && (x !in ids ==> mid[x] == nodes[x])
  {
    hide IndexOf;
  }

  lemma MidSame(nodes: Nodes, p: Option<Id>, ids: seq<Id>)
    requires Distinct(ids) && Increasing(nodes, ids)
    ensures Increasing(Renumbered(nodes, p, ids), ids)
  {
    forall i | 0 <= i < |ids| ensures IndexOf(ids, ids[i]) == i { IndexOfDistinct(ids, i); }
  }

  lemma MidOther(nodes: Nodes, mid: Nodes, ids: seq<Id>)
    requires Increasing(nodes, ids) && forall x | x in ids :: x in mid && mid[x] == nodes[x]
    ensures Increasing(mid, ids)
  {
    forall i | 0 <= i < |ids| ensures ids[i] in mid && mid[ids[i]] == nodes[ids[i]] { assert ids[i] in ids; }
  }

  lemma WithoutFree(target: seq<Id>, siblings: seq<Id>, id: Id)
    requires target == Without(siblings, id)
    ensures id !in target
  {
    WithoutMembers(siblings, id);
  }

  lemma MovedFieldsOf(nodes: Nodes, kids: Kids, rank: map<Id, nat>, id: Id, to: Option<Id>, position: int)
    requires IsForest(nodes, kids, rank) && id in nodes && nodes[id].parent in kids && to in kids
    ensures MovedNodes(nodes, kids, id, to, position).Keys == nodes.Keys
  {
    MovedFields(nodes, kids, id, to, position);
  }

  lemma ChildrenOf(nodes: Nodes, kids: Kids, rank: map<Id, nat>, id: Id)
    requires IsForest(nodes, kids, rank) && id in nodes
    ensures Some(id) in kids && Inside(nodes, nodes[id].parent)
    ensures kids[Some(id)] != [] <==> exists x :: x in nodes && nodes[x].parent == Some(id)
  {
    GroupOf(nodes, kids, Some(id));
    if kids[Some(id)] != [] { assert nodes[kids[Some(id)][0]].parent == Some(id); }
  }

  lemma DeletedListedOf(nodes: Nodes, kids: Kids, rank: map<Id, nat>, p: Option<Id>, id: Id)
    requires IsForest(nodes, kids, rank) && id in nodes && p == nodes[id].parent && p in kids
    ensures p in DeletedKids(kids, p, id) && DeletedKids(kids, p, id)[p] == Without(kids[p], id)
    ensures Distinct(Without(kids[p], id)) && Increasing(nodes - {id}, Without(kids[p], id))
  {
    GroupWithout(nodes, kids, p, id);
    DeletedListed(nodes, kids, p, id);
    WithoutMembers(kids[p], id);
  }

  lemma GroupKeys(nodes: Nodes, kids: Kids, rank: map<Id, nat>, children: map<Option<Id>, seq<Id>>)
    requires IsForest(nodes, kids, rank)
    requires forall p | p in children :: children[p] != []
    requires forall p, x | p in children :: x in children[p] <==> x in nodes && nodes[x].parent == p
    requires forall x | x in nodes :: nodes[x].parent in children
    ensures forall p :: p in children <==> p in kids && kids[p] != []
  {
    forall p ensures p in children <==> p in kids && kids[p] != [] {
      if p in children {
        assert children[p][0] in children[p];
        ParentListed(nodes, kids, rank, children[p][0]);
        GroupOf(nodes, kids, p);
      }
      if p in kids && kids[p] != [] {
        GroupOf(nodes, kids, p);
        assert nodes[kids[p][0]].parent == p;
      }
    }
  }

  lemma GroupInside(nodes: Nodes, p: Option<Id>, ids: seq<Id>)
    requires forall x :: x in ids <==> x in nodes && nodes[x].parent == p
    ensures forall i | 0 <= i < |ids| :: ids[i] in nodes
  {
    forall i | 0 <= i < |ids| ensures ids[i] in nodes { assert ids[i] in ids; }
  }

  lemma GroupIs(nodes: Nodes, kids: Kids, rank: map<Id, nat>, p: Option<Id>, sorted: seq<Id>)
    requires IsForest(nodes, kids, rank) && p in kids && Ascending(nodes, sorted)
    requires forall x :: x in sorted <==> x in nodes && nodes[x].parent == p
    ensures sorted == kids[p]
  {
    GroupOf(nodes, kids, p);
    forall x ensures x in sorted <==> x in kids[p] {
      if x in kids[p] {
        var i :| 0 <= i < |kids[p]| && kids[p][i] == x;
      }
    }
    OneOrder(nodes, sorted, kids[p]);
  }

  lemma InsideListed(nodes: Nodes, kids: Kids, rank: map<Id, nat>, p: Option<Id>)
    requires IsForest(nodes, kids, rank) && Inside(nodes, p)
    ensures p in kids
  {
  }

  lemma NothingWalked(nodes: Nodes, rank: map<Id, nat>, base: seq<nat>)
    requires Ranked(nodes, rank)
    ensures Walked(nodes, rank, base, 0, [])
  {
  }

  lemma RankBelow(nodes: Nodes, rank: map<Id, nat>, id: Id, parent: Option<Id>)
    requires Ranked(nodes, rank) && id in nodes && nodes[id].parent == parent
    ensures parent.Some? ==> parent.value in rank && rank[parent.value] < rank[id]
  {
  }
}
