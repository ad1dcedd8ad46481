/** The worktree tree of the sidebar: flat rows hung under their parents.
  *
  * A node is named by its worktree's id; `children` says what hangs off each.
  * Labels are compared by a collation, any total preorder on strings, and the
  * built-in array sort is the stable one.
  */
module WorktreeForest {
  import opened Basics
  import Seqs

  datatype Id = Id(text: string)

  datatype Worktree = Worktree(id: Id, parentId: Option<Id>, isMain: bool, title: Option<string>, branch: string)

  /** A map by id that remembers the order in which its keys were first set. */
  datatype Index = Index(order: seq<Id>, nodes: map<Id, Worktree>)

  ghost predicate IndexOk(w: Index) {
    Seqs.NoDuplicates(w.order) && (forall id :: id in w.order <==> id in w.nodes)
  }

  function Indexed(worktrees: seq<Worktree>): (w: Index)
    ensures IndexOk(w)
  {
    if worktrees == [] then Index([], map[])
    else
      var last := worktrees[|worktrees| - 1];
      var before := Indexed(worktrees[..|worktrees| - 1]);
      Index(if last.id in before.nodes then before.order else before.order + [last.id], before.nodes[last.id := last])
  }

  ghost predicate DistinctIds(worktrees: seq<Worktree>) {
    forall i, j :: 0 <= i < j < |worktrees| ==> worktrees[i].id != worktrees[j].id
  }

  /** With distinct ids every worktree is a node, in the order given. */
  lemma {:induction false} DistinctIdsAreAllKept(worktrees: seq<Worktree>)
    requires DistinctIds(worktrees)
    ensures |Indexed(worktrees).order| == |worktrees|
    ensures forall i :: 0 <= i < |worktrees| ==>
      var w := Indexed(worktrees);
      w.order[i] == worktrees[i].id && w.order[i] in w.nodes && w.nodes[w.order[i]] == worktrees[i]
  {
    if worktrees != [] {
      var n := |worktrees| - 1;
      DistinctIdsAreAllKept(worktrees[..n]);
      var before := Indexed(worktrees[..n]);
      assert worktrees[n].id !in before.order;
    }
  }

  /** The node `id` hangs off, if it names one that is known and not the main worktree. */
  function Parent(w: Index, id: Id): Option<Id>
    requires id in w.nodes
  {
    var p := w.nodes[id].parentId;
    if p.Some? && p.value.text != "" && p.value in w.nodes && !w.nodes[p.value].isMain then p else None
  }

  /** What hangs off `p`, or the roots, among `ids` and in that order. */
  function HungAmong(w: Index, ids: seq<Id>, p: Option<Id>): seq<Id>
    requires forall id <- ids :: id in w.nodes
  {
    if ids == [] then []
    else
      var n := |ids| - 1;
      HungAmong(w, ids[..n], p) + (if Parent(w, ids[n]) == p then [ids[n]] else [])
  }

  function Hung(w: Index, p: Option<Id>): seq<Id>
    requires IndexOk(w)
  {
    HungAmong(w, w.order, p)
  }

  lemma {:induction false} HungAmongHas(w: Index, ids: seq<Id>, p: Option<Id>)
    requires (forall id <- ids :: id in w.nodes) && Seqs.NoDuplicates(ids)
    ensures forall id :: id in HungAmong(w, ids, p) <==> id in ids && Parent(w, id) == p
    ensures Seqs.NoDuplicates(HungAmong(w, ids, p))
  {
    if ids != [] {
      var n := |ids| - 1;
      HungAmongHas(w, ids[..n], p);
      assert ids == ids[..n] + [ids[n]];
    }
  }

  // ----- sorting -----

  type Collation = (string, string) -> bool

  ghost predicate TotalPreorder(leq: Collation) {
    && (forall a, b :: leq(a, b) || leq(b, a))
    && (forall a, b, c :: leq(a, b) && leq(b, c) ==> leq(a, c))
  }

  function Label(w: Worktree): string {
    if w.title.Some? then w.title.value else w.branch
  }

  /** Whether `a` compares at most equal to `b`. */
  predicate AtMost(leq: Collation, a: Worktree, b: Worktree) {
    if a.isMain != b.isMain then a.isMain else leq(Label(a), Label(b))
  }

  function Insert(w: Index, leq: Collation, id: Id, sorted: seq<Id>): seq<Id>
    requires id in w.nodes && forall x <- sorted :: x in w.nodes
  {
    if sorted == [] then [id]
    else if AtMost(leq, w.nodes[id], w.nodes[sorted[0]]) then [id] + sorted
    else [sorted[0]] + Insert(w, leq, id, sorted[1..])
  }

  function Sort(w: Index, leq: Collation, ids: seq<Id>): (r: seq<Id>)
    requires forall id <- ids :: id in w.nodes
    ensures multiset(r) == multiset(ids)
    ensures forall id :: id in r <==> id in ids
  {
    if ids == [] then []
    else
      assert ids == [ids[0]] + ids[1..];
      var rest := Sort(w, leq, ids[1..]);
      InsertAdds(w, leq, ids[0], rest);
      Insert(w, leq, ids[0], rest)
  }

  lemma {:induction false} InsertAdds(w: Index, leq: Collation, id: Id, sorted: seq<Id>)
    requires id in w.nodes && forall x <- sorted :: x in w.nodes
    ensures multiset(Insert(w, leq, id, sorted)) == multiset{id} + multiset(sorted)
    ensures forall x :: x in Insert(w, leq, id, sorted) <==> x == id || x in sorted
  {
    if sorted != [] {
      assert sorted == [sorted[0]] + sorted[1..];
      InsertAdds(w, leq, id, sorted[1..]);
    }
  }

  ghost predicate Sorted(w: Index, leq: Collation, ids: seq<Id>)
    requires forall id <- ids :: id in w.nodes
  {
    forall i, j :: 0 <= i < j < |ids| ==> AtMost(leq, w.nodes[ids[i]], w.nodes[ids[j]])
  }

  lemma HeadIsLeast(w: Index, leq: Collation, ids: seq<Id>, x: Id)
    requires (forall x <- ids :: x in w.nodes) && Sorted(w, leq, ids) && ids != [] && x in ids[1..]
    ensures AtMost(leq, w.nodes[ids[0]], w.nodes[x])
  {
    var k :| 0 <= k < |ids[1..]| && ids[1..][k] == x;
    assert ids[k + 1] == x;
  }

  lemma SortedCons(w: Index, leq: Collation, head: Id, rest: seq<Id>)
    requires (forall x <- rest :: x in w.nodes) && Sorted(w, leq, rest) && head in w.nodes
    requires forall x <- rest :: AtMost(leq, w.nodes[head], w.nodes[x])
    ensures (forall x <- [head] + rest :: x in w.nodes) && Sorted(w, leq, [head] + rest)
  {
    forall j | 0 <= j < |rest|
      ensures AtMost(leq, w.nodes[head], w.nodes[rest[j]])
    {
      assert rest[j] in rest;
    }
  }

  lemma AtMostIsPreorder(leq: Collation, a: Worktree, b: Worktree, c: Worktree)
    requires TotalPreorder(leq)
    ensures AtMost(leq, a, b) || AtMost(leq, b, a)
    ensures AtMost(leq, a, b) && AtMost(leq, b, c) ==> AtMost(leq, a, c)
  {
  }

  lemma {:induction false} InsertSorts(w: Index, leq: Collation, id: Id, ids: seq<Id>)
    requires TotalPreorder(leq) && id in w.nodes && (forall x <- ids :: x in w.nodes) && Sorted(w, leq, ids)
    ensures (forall x <- Insert(w, leq, id, ids) :: x in w.nodes) && Sorted(w, leq, Insert(w, leq, id, ids))
  {
    InsertAdds(w, leq, id, ids);
    if ids != [] {
      var head := ids[0];
      AtMostIsPreorder(leq, w.nodes[id], w.nodes[head], w.nodes[head]);
      forall x | x in ids[1..]
        ensures AtMost(leq, w.nodes[head], w.nodes[x])
        ensures AtMost(leq, w.nodes[id], w.nodes[head]) ==> AtMost(leq, w.nodes[id], w.nodes[x])
      {
        HeadIsLeast(w, leq, ids, x);
        AtMostIsPreorder(leq, w.nodes[id], w.nodes[head], w.nodes[x]);
      }
      if AtMost(leq, w.nodes[id], w.nodes[head]) {
        hide AtMost, TotalPreorder;
        assert ids == [head] + ids[1..];
        SortedCons(w, leq, id, ids);
      } else {
        InsertSorts(w, leq, id, ids[1..]);
        InsertAdds(w, leq, id, ids[1..]);
        hide AtMost, TotalPreorder;
        SortedCons(w, leq, head, Insert(w, leq, id, ids[1..]));
      }
    }
  }

  predicate Tied(leq: Collation, a: Worktree, b: Worktree) {
    AtMost(leq, a, b) && AtMost(leq, b, a)
  }

  /** What `ids` holds that compares equal to `x`, in order. */
  function Ties(w: Index, leq: Collation, ids: seq<Id>, x: Worktree): seq<Id>
    requires forall id <- ids :: id in w.nodes
  {
    if ids == [] then []
    else
      (if Tied(leq, w.nodes[ids[0]], x) then [ids[0]] else [])
      + Ties(w, leq, ids[1..], x)
  }

  lemma {:induction false} InsertIsStable(w: Index, leq: Collation, id: Id, ids: seq<Id>, x: Worktree)
    requires TotalPreorder(leq) && id in w.nodes && (forall x <- ids :: x in w.nodes)
    requires forall x <- Insert(w, leq, id, ids) :: x in w.nodes
    ensures Ties(w, leq, Insert(w, leq, id, ids), x) == Ties(w, leq, [id] + ids, x)
  {
    if ids != [] && !AtMost(leq, w.nodes[id], w.nodes[ids[0]]) {
      InsertAdds(w, leq, id, ids[1..]);
      InsertIsStable(w, leq, id, ids[1..], x);
      TiesSwap(w, leq, id, ids, x);
    } else {
      assert Insert(w, leq, id, ids) == [id] + ids;
    }
  }

  lemma TiesPush(w: Index, leq: Collation, id: Id, ids: seq<Id>, x: Worktree)
    requires id in w.nodes && forall y <- ids :: y in w.nodes
    ensures forall y <- [id] + ids :: y in w.nodes
    ensures Ties(w, leq, [id] + ids, x)
         == if Tied(leq, w.nodes[id], x) then [id] + Ties(w, leq, ids, x) else Ties(w, leq, ids, x)
  {
    assert ([id] + ids)[1..] == ids;
    assert [] + Ties(w, leq, ids, x) == Ties(w, leq, ids, x);
  }

  lemma NotBothTied(leq: Collation, a: Worktree, b: Worktree, x: Worktree)
    requires TotalPreorder(leq) && !AtMost(leq, a, b)
    ensures !(Tied(leq, a, x) && Tied(leq, b, x))
  {
    AtMostIsPreorder(leq, a, x, b);
    hide AtMost, TotalPreorder;
  }

  lemma TiesSwap(w: Index, leq: Collation, id: Id, ids: seq<Id>, x: Worktree)
    requires TotalPreorder(leq) && id in w.nodes && (forall x <- ids :: x in w.nodes)
    requires ids != [] && !AtMost(leq, w.nodes[id], w.nodes[ids[0]])
    requires forall x <- Insert(w, leq, id, ids[1..]) :: x in w.nodes
    requires Ties(w, leq, Insert(w, leq, id, ids[1..]), x) == Ties(w, leq, [id] + ids[1..], x)
    ensures Ties(w, leq, [ids[0]] + Insert(w, leq, id, ids[1..]), x) == Ties(w, leq, [id] + ids, x)
  {
    hide Ties, Insert, TotalPreorder, AtMost, Tied;
    assert ids == [ids[0]] + ids[1..];
    NotBothTied(leq, w.nodes[id], w.nodes[ids[0]], x);
    TiesPush(w, leq, ids[0], Insert(w, leq, id, ids[1..]), x);
    TiesPush(w, leq, id, ids[1..], x);
    TiesPush(w, leq, id, ids, x);
    TiesPush(w, leq, ids[0], ids[1..], x);
  }

  /** Sorting gives the one sorted rearrangement that keeps the order of ties. */
  lemma {:induction false} SortIsStable(w: Index, leq: Collation, ids: seq<Id>, x: Worktree)
    requires TotalPreorder(leq) && forall id <- ids :: id in w.nodes
    ensures Sorted(w, leq, Sort(w, leq, ids))
    ensures Ties(w, leq, Sort(w, leq, ids), x) == Ties(w, leq, ids, x)
  {
    if ids != [] {
      var rest := Sort(w, leq, ids[1..]);
      SortIsStable(w, leq, ids[1..], x);
      InsertSorts(w, leq, ids[0], rest);
      InsertIsStable(w, leq, ids[0], rest, x);
      assert ([ids[0]] + rest)[1..] == rest;
    }
  }

  // ----- parent chains -----

  function End(path: seq<Id>): Option<Id> {
    if path == [] then None else Some(path[|path| - 1])
  }

  /** From a root down, each under the one before. */
  ghost predicate Chain(w: Index, c: seq<Id>) {
    forall i :: 0 <= i < |c| ==> c[i] in w.nodes && Parent(w, c[i]) == End(c[..i])
  }

  /** Following parents from `id` comes to an end. */
  ghost predicate Rooted(w: Index, id: Id) {
    exists c :: Chain(w, c) && End(c) == Some(id)
  }

  lemma {:induction false} ChainsAgree(w: Index, c: seq<Id>, d: seq<Id>)
    requires Chain(w, c) && Chain(w, d) && End(c) == End(d)
    ensures c == d
    decreases |c|
  {
    if c != [] {
      var m, n := |c| - 1, |d| - 1;
      assert c[m] == d[n];
      ChainTake(w, c, m);
      ChainTake(w, d, n);
      ChainsAgree(w, c[..m], d[..n]);
      assert c == c[..m] + [c[m]] && d == d[..n] + [d[n]];
    }
  }

  lemma ChainTake(w: Index, c: seq<Id>, n: nat)
    requires Chain(w, c) && n <= |c|
    ensures Chain(w, c[..n])
  {
    forall i | 0 <= i < n
      ensures Parent(w, c[i]) == End(c[..n][..i])
    {
      assert c[..n][..i] == c[..i];
    }
  }

  ghost function Unvisited(w: Index, path: seq<Id>): set<Id> {
    w.nodes.Keys - (set id | id in path)
  }

  lemma ChainAppend(w: Index, path: seq<Id>, id: Id)
    requires Chain(w, path) && id in w.nodes && Parent(w, id) == End(path)
    ensures Chain(w, path + [id])
  {
    var more := path + [id];
    forall i | 0 <= i < |more|
      ensures more[i] in w.nodes && Parent(w, more[i]) == End(more[..i])
    {
      if i < |path| {
        assert more[..i] == path[..i];
      } else {
        assert more[..i] == path;
      }
    }
  }

  /** A node hung off the end of a chain extends it and is new to it. */
  lemma ChainExtends(w: Index, path: seq<Id>, id: Id)
    requires Chain(w, path) && id in w.nodes && Parent(w, id) == End(path)
    ensures Chain(w, path + [id]) && id !in path
    ensures Unvisited(w, path + [id]) < Unvisited(w, path)
  {
    var more := path + [id];
    ChainAppend(w, path, id);
    if id in path {
      var i :| 0 <= i < |path| && path[i] == id;
      ChainTake(w, path, i + 1);
      ChainsAgree(w, path[..i + 1], more);
      assert false;
    }
    assert id in Unvisited(w, path) && id !in Unvisited(w, more);
  }

  // ----- the tree, in place -----

  /** The roots, and what hangs off each node. */
  datatype Lists = Lists(roots: seq<Id>, children: map<Id, seq<Id>>)

  function ListOf(lists: Lists, p: Option<Id>): seq<Id> {
    if p.None? then lists.roots else if p.value in lists.children then lists.children[p.value] else []
  }

  lemma HungHas(w: Index, p: Option<Id>)
    requires IndexOk(w)
    ensures forall id :: id in Hung(w, p) <==> id in w.nodes && Parent(w, id) == p
    ensures Seqs.NoDuplicates(Hung(w, p))
  {
    HungAmongHas(w, w.order, p);
  }

  ghost predicate Exactly(w: Index, ids: seq<Id>, p: Option<Id>) {
    (forall id :: id in ids <==> id in w.nodes && Parent(w, id) == p) && Seqs.NoDuplicates(ids)
  }

  /** What hangs off `p`, in display order. */
  function Siblings(w: Index, leq: Collation, p: Option<Id>): (r: seq<Id>)
    requires IndexOk(w)
    ensures forall id :: id in r <==> id in w.nodes && Parent(w, id) == p
  {
    HungHas(w, p);
    Sort(w, leq, Hung(w, p))
  }

  /** `id` lies at or below the end of `path`. */
  ghost predicate Under(w: Index, path: seq<Id>, id: Id) {
    exists c :: Chain(w, c) && path <= c && End(c) == Some(id)
  }

  lemma UnderOneChild(w: Index, path: seq<Id>, a: Id, b: Id, id: Id)
    requires Under(w, path + [a], id) && Under(w, path + [b], id)
    ensures a == b
  {
    var c :| Chain(w, c) && path + [a] <= c && End(c) == Some(id);
    var d :| Chain(w, d) && path + [b] <= d && End(d) == Some(id);
    ChainsAgree(w, c, d);
    assert c[|path|] == a && d[|path|] == b;
  }

  lemma UnderNotItself(w: Index, path: seq<Id>, a: Id)
    requires path != []
    ensures !Under(w, path + [a], path[|path| - 1]) || !Chain(w, path)
  {
    if Under(w, path + [a], path[|path| - 1]) && Chain(w, path) {
      var c :| Chain(w, c) && path + [a] <= c && End(c) == Some(path[|path| - 1]);
      ChainsAgree(w, c, path);
      assert false;
    }
  }

  lemma LongerPrefix(path: seq<Id>, c: seq<Id>)
    requires path <= c && End(path) != End(c)
    ensures |path| < |c|
  {
    assert |path| == |c| ==> path == c;
  }

  lemma UnderVia(w: Index, path: seq<Id>, c: seq<Id>, id: Id)
    requires Chain(w, c) && path <= c && End(c) == Some(id)
    ensures Under(w, path, id)
  {
  }

  lemma StepAfter(w: Index, path: seq<Id>, c: seq<Id>)
    requires Chain(w, c) && path <= c && |path| < |c|
    ensures path + [c[|path|]] <= c && c[|path|] in w.nodes && Parent(w, c[|path|]) == End(path)
  {
    assert c[..|path|] == path;
  }

  lemma UnderChild(w: Index, path: seq<Id>, id: Id) returns (k: Id)
    requires Under(w, path, id) && End(path) != Some(id)
    ensures k in w.nodes && Parent(w, k) == End(path) && Under(w, path + [k], id)
  {
    var c :| Chain(w, c) && path <= c && End(c) == Some(id);
    LongerPrefix(path, c);
    hide Under, Chain, Parent, End;
    StepAfter(w, path, c);
    k := c[|path|];
    UnderVia(w, path + [k], c, id);
  }

  lemma UnderParent(w: Index, path: seq<Id>, k: Id, id: Id)
    requires Under(w, path + [k], id)
    ensures Under(w, path, id)
  {
    var c :| Chain(w, c) && path + [k] <= c && End(c) == Some(id);
    assert path <= c;
  }

  /** The first `ids` nodes have been hung. */
  ghost predicate Linked(w: Index, lists: Lists, ids: seq<Id>) {
    && (forall id <- ids :: id in w.nodes)
    && lists.roots == HungAmong(w, ids, None)
    && lists.children.Keys == w.nodes.Keys
    && forall q <- lists.children :: lists.children[q] == HungAmong(w, ids, Some(q))
  }

  function Link(lists: Lists, id: Id, parent: Option<Id>): Lists
    requires parent.Some? ==> parent.value in lists.children
  {
    if parent.Some? then
      Lists(lists.roots, lists.children[parent.value := lists.children[parent.value] + [id]])
    else
      Lists(lists.roots + [id], lists.children)
  }

  lemma ParentIsKnown(w: Index, id: Id)
    requires id in w.nodes
    ensures Parent(w, id).Some? ==> Parent(w, id).value in w.nodes
  {
  }

  lemma OrderIsKnown(w: Index, i: nat)
    requires IndexOk(w) && i < |w.order|
    ensures w.order[i] in w.nodes
    ensures Parent(w, w.order[i]).Some? ==> Parent(w, w.order[i]).value in w.nodes
  {
    assert w.order[i] in w.order;
    ParentIsKnown(w, w.order[i]);
  }

  ghost predicate Childless(w: Index, children: map<Id, seq<Id>>) {
    children.Keys == w.nodes.Keys && forall id <- children :: children[id] == []
  }

  lemma NoneLinked(w: Index, lists: Lists, order: seq<Id>)
    requires Childless(w, lists.children) && lists.roots == []
    ensures lists.children.Keys == w.nodes.Keys && Linked(w, lists, order[..0])
  {
  }

  lemma LinkStep(w: Index, lists: Lists, ids: seq<Id>, i: nat)
    requires i < |ids| && ids[i] in w.nodes && Linked(w, lists, ids[..i])
    ensures Linked(w, Link(lists, ids[i], Parent(w, ids[i])), ids[..i + 1])
  {
    var id := ids[i];
    assert ids[..i + 1][..i] == ids[..i] && ids[..i + 1] == ids[..i] + [id];
    var next := Link(lists, id, Parent(w, id));
    forall q | q in next.children
      ensures next.children[q] == HungAmong(w, ids[..i + 1], Some(q))
    {
      assert HungAmong(w, ids[..i + 1], Some(q))
          == HungAmong(w, ids[..i], Some(q)) + (if Parent(w, id) == Some(q) then [id] else []);
    }
  }

  ghost function Below(w: Index, path: seq<Id>): set<Id> {
    set id | id in w.nodes && Under(w, path, id)
  }

  /** The end of `path`, and what lies below its first `n` children. */
  ghost function Done(w: Index, path: seq<Id>, nodes: seq<Id>, n: nat): set<Id>
    requires n <= |nodes|
  {
    if n == 0 then (if path == [] then {} else {path[|path| - 1]})
    else Done(w, path, nodes, n - 1) + Below(w, path + [nodes[n - 1]])
  }

  ghost predicate Unsorted(w: Index, children: map<Id, seq<Id>>, ids: set<Id>)
    requires IndexOk(w)
  {
    forall q <- ids :: q in children && children[q] == Hung(w, Some(q))
  }

  /** The children of `ids` are in display order; the others are as before. */
  ghost predicate SortedWithin(w: Index, leq: Collation, before: map<Id, seq<Id>>, after: map<Id, seq<Id>>, ids: set<Id>)
    requires IndexOk(w)
  {
    && after.Keys == before.Keys
    && forall q <- after :: after[q] == if q in ids then Siblings(w, leq, Some(q)) else before[q]
  }

  lemma SortedTogether(w: Index, leq: Collation, a: map<Id, seq<Id>>, b: map<Id, seq<Id>>, c: map<Id, seq<Id>>,
                       ids: set<Id>, more: set<Id>)
    requires IndexOk(w) && SortedWithin(w, leq, a, b, ids) && SortedWithin(w, leq, b, c, more)
    ensures SortedWithin(w, leq, a, c, ids + more)
  {
    hide Siblings;
  }

  lemma EndIsBelow(w: Index, path: seq<Id>)
    requires Chain(w, path)
    ensures path != [] ==> path[|path| - 1] in Below(w, path)
  {
    if path != [] {
      assert path <= path && Under(w, path, path[|path| - 1]);
    }
  }

  lemma SiblingsAre(w: Index, leq: Collation, p: Option<Id>)
    requires IndexOk(w)
    ensures (forall id <- Hung(w, p) :: id in w.nodes) && Siblings(w, leq, p) == Sort(w, leq, Hung(w, p))
  {
    HungHas(w, p);
  }

  lemma {:induction false} DoneIsApart(w: Index, path: seq<Id>, nodes: seq<Id>, n: nat, i: nat, id: Id)
    requires n <= i < |nodes| && Chain(w, path) && Seqs.NoDuplicates(nodes) && Under(w, path + [nodes[i]], id)
    ensures id !in Done(w, path, nodes, n)
  {
    hide Under, Chain;
    if n == 0 {
      if path != [] {
        UnderNotItself(w, path, nodes[i]);
      }
    } else {
      DoneIsApart(w, path, nodes, n - 1, i, id);
      if id in Below(w, path + [nodes[n - 1]]) {
        UnderOneChild(w, path, nodes[n - 1], nodes[i], id);
        assert false;
      }
    }
  }

  lemma NotYetDone(w: Index, leq: Collation, path: seq<Id>, nodes: seq<Id>, i: nat,
                   before: map<Id, seq<Id>>, after: map<Id, seq<Id>>)
    requires IndexOk(w) && i < |nodes| && Chain(w, path) && Exactly(w, nodes, End(path))
    requires Unsorted(w, before, Below(w, path)) && SortedWithin(w, leq, before, after, Done(w, path, nodes, i))
    ensures Unsorted(w, after, Below(w, path + [nodes[i]]))
  {
    hide Hung, Siblings;
    forall id | id in Below(w, path + [nodes[i]])
      ensures id in after && after[id] == Hung(w, Some(id))
    {
      UnderParent(w, path, nodes[i], id);
      assert id in Below(w, path);
      DoneIsApart(w, path, nodes, i, i, id);
    }
  }

  ghost predicate UnderFirst(w: Index, path: seq<Id>, nodes: seq<Id>, n: nat, id: Id)
    requires n <= |nodes|
  {
    exists i :: 0 <= i < n && Under(w, path + [nodes[i]], id)
  }

  lemma {:induction false} DoneHas(w: Index, path: seq<Id>, nodes: seq<Id>, n: nat, id: Id)
    requires n <= |nodes|
    ensures id in Done(w, path, nodes, n) <==> End(path) == Some(id) || (id in w.nodes && UnderFirst(w, path, nodes, n, id))
  {
    if n > 0 {
      DoneHas(w, path, nodes, n - 1, id);
      UnderFirstStep(w, path, nodes, n, id);
      hide Under, UnderFirst, End;
    }
  }

  lemma UnderFirstStep(w: Index, path: seq<Id>, nodes: seq<Id>, n: nat, id: Id)
    requires 0 < n <= |nodes|
    ensures UnderFirst(w, path, nodes, n, id)
       <==> UnderFirst(w, path, nodes, n - 1, id) || Under(w, path + [nodes[n - 1]], id)
  {
    hide Under;
  }

  lemma {:induction false} Counts(ids: seq<Id>)
    ensures Seqs.NoDuplicates(ids) <==> forall x :: multiset(ids)[x] <= 1
  {
    if ids != [] {
      Counts(ids[1..]);
      assert ids == [ids[0]] + ids[1..];
      assert multiset(ids) == multiset{ids[0]} + multiset(ids[1..]);
      if Seqs.NoDuplicates(ids) {
        assert ids[0] !in ids[1..];
      } else if forall x :: multiset(ids)[x] <= 1 {
        assert multiset(ids)[ids[0]] <= 1;
        assert ids[0] !in multiset(ids[1..]);
        forall x ensures multiset(ids[1..])[x] <= 1 { assert multiset(ids)[x] <= 1; }
        assert false;
      }
    }
  }

  lemma SiblingsDistinct(w: Index, leq: Collation, p: Option<Id>)
    requires IndexOk(w)
    ensures Seqs.NoDuplicates(Siblings(w, leq, p))
  {
    HungHas(w, p);
    Counts(Hung(w, p));
    Counts(Siblings(w, leq, p));
  }

  lemma DoneStep(w: Index, path: seq<Id>, nodes: seq<Id>, i: nat)
    requires i < |nodes|
    ensures Done(w, path, nodes, i + 1) == Done(w, path, nodes, i) + Below(w, path + [nodes[i]])
  {
  }

  lemma FirstDone(w: Index, leq: Collation, path: seq<Id>, nodes: seq<Id>, before: map<Id, seq<Id>>)
    requires IndexOk(w) && (path != [] ==> path[|path| - 1] in before)
    ensures SortedWithin(w, leq, before,
                         if path == [] then before else before[path[|path| - 1] := Siblings(w, leq, End(path))],
                         Done(w, path, nodes, 0))
  {
    hide Siblings;
  }

  lemma AllDone(w: Index, path: seq<Id>, nodes: seq<Id>)
    requires Chain(w, path) && Exactly(w, nodes, End(path))
    ensures Done(w, path, nodes, |nodes|) == Below(w, path)
  {
    forall id
      ensures id in Done(w, path, nodes, |nodes|) <==> id in Below(w, path)
    {
      DoneHas(w, path, nodes, |nodes|, id);
      EndIsBelow(w, path);
      hide Under, Chain, Done;
      if id in Below(w, path) && End(path) != Some(id) {
        var k := UnderChild(w, path, id);
        var i :| 0 <= i < |nodes| && nodes[i] == k;
      }
      if i :| 0 <= i < |nodes| && Under(w, path + [nodes[i]], id) {
        UnderParent(w, path, nodes[i], id);
      }
    }
  }

  lemma StartSorting(w: Index, leq: Collation, lists: Lists, path: seq<Id>)
    requires IndexOk(w) && Chain(w, path) && lists.children.Keys == w.nodes.Keys
    requires Unsorted(w, lists.children, Below(w, path)) && (path == [] ==> lists.roots == Hung(w, None))
    ensures forall id <- ListOf(lists, End(path)) :: id in w.nodes
    ensures var nodes := Sort(w, leq, ListOf(lists, End(path)));
      && nodes == Siblings(w, leq, End(path)) && Exactly(w, nodes, End(path))
      && (path != [] ==> path[|path| - 1] in lists.children)
      && SortedWithin(w, leq, lists.children,
                      if path == [] then lists.children else lists.children[path[|path| - 1] := nodes], Done(w, path, nodes, 0))
  {
    EndIsBelow(w, path);
    assert ListOf(lists, End(path)) == Hung(w, End(path));
    hide Hung, Chain, Below, ListOf;
    SiblingsAre(w, leq, End(path));
    SiblingsDistinct(w, leq, End(path));
    FirstDone(w, leq, path, Siblings(w, leq, End(path)), lists.children);
  }

  lemma StepInto(w: Index, path: seq<Id>, nodes: seq<Id>, i: nat)
    requires Chain(w, path) && Exactly(w, nodes, End(path)) && i < |nodes|
    ensures nodes[i] in w.nodes && Chain(w, path + [nodes[i]]) && End(path + [nodes[i]]) == Some(nodes[i])
    ensures Unvisited(w, path + [nodes[i]]) < Unvisited(w, path)
  {
    assert nodes[i] in nodes;
    ChainExtends(w, path, nodes[i]);
  }

  class Tree {
    var index: Index
    var roots: seq<Id>
    var children: map<Id, seq<Id>>

    constructor ()
      ensures index == Index([], map[]) && roots == [] && children == map[]
    {
      index, roots, children := Index([], map[]), [], map[];
    }

    function View(): Lists
      reads this
    {
      Lists(roots, children)
    }

    method LinkRoots()
      requires IndexOk(index) && roots == []
      requires Childless(index, children)
      modifies this`roots, this`children
      ensures Linked(index, View(), index.order)
    {
      var order := index.order;
      NoneLinked(index, View(), order);
      hide Childless, Linked, Link, Parent, IndexOk;
      for i := 0 to |order|
        invariant children.Keys == index.nodes.Keys
        invariant Linked(index, View(), order[..i])
      {
        OrderIsKnown(index, i);
        LinkStep(index, View(), order, i);
        LinkNode(order[i]);
      }
      assert order[..|order|] == order;
    }

    /** The body of that loop. */
    method LinkNode(id: Id)
      requires id in index.nodes && children.Keys == index.nodes.Keys
      requires Parent(index, id).Some? ==> Parent(index, id).value in index.nodes
      modifies this`roots, this`children
      ensures View() == Link(old(View()), id, Parent(index, id)) && children.Keys == index.nodes.Keys
    {
      var parent := Parent(index, id);
      if parent.Some? {
        children := children[parent.value := children[parent.value] + [id]];
      } else {
        roots := roots + [id];
      }
    }

    /** Sorts what hangs off the end of `path`, and everything below it. `of` names
      * the array: the roots, or a node's children. */
    method SortNodes(leq: Collation, of: Option<Id>, ghost path: seq<Id>)
      requires IndexOk(index) && Chain(index, path) && of == End(path)
      requires children.Keys == index.nodes.Keys
      requires Unsorted(index, children, Below(index, path))
      requires of.None? ==> roots == Hung(index, None)
      modifies this`roots, this`children
      ensures children.Keys == old(children).Keys
      ensures SortedWithin(index, leq, old(children), children, Below(index, path))
      ensures roots == if of.None? then Siblings(index, leq, None) else old(roots)
      decreases Unvisited(index, path), 1
    {
      StartSorting(index, leq, View(), path);
      hide Hung, Siblings, Sort, Below, Chain, Parent, Unvisited, Done, Unsorted, Under, IndexOk, ListOf, Exactly, SortedWithin;
      var nodes := Sort(index, leq, ListOf(View(), of));
      if of.None? {
        roots := nodes;
      } else {
        children := children[of.value := nodes];
      }
      SortBelow(leq, nodes, path, old(children));
    }

    /** The loop of `SortNodes`, over the array it has just sorted. */
    method SortBelow(leq: Collation, nodes: seq<Id>, ghost path: seq<Id>, ghost before: map<Id, seq<Id>>)
      requires IndexOk(index) && Chain(index, path) && children.Keys == index.nodes.Keys
      requires Unsorted(index, before, Below(index, path)) && Exactly(index, nodes, End(path))
      requires SortedWithin(index, leq, before, children, Done(index, path, nodes, 0))
      modifies this`roots, this`children
      ensures children.Keys == old(children).Keys && roots == old(roots)
      ensures SortedWithin(index, leq, before, children, Below(index, path))
      decreases Unvisited(index, path), 0
    {
      hide Hung, Siblings, Below, Chain, Parent, Unvisited, Done, Unsorted, Under, IndexOk, Exactly, SortedWithin;
      for i := 0 to |nodes|
        invariant children.Keys == index.nodes.Keys && roots == old(roots)
        invariant SortedWithin(index, leq, before, children, Done(index, path, nodes, i))
      {
        StepInto(index, path, nodes, i);
        NotYetDone(index, leq, path, nodes, i, before, children);
        ghost var between := children;
        SortNodes(leq, Some(nodes[i]), path + [nodes[i]]);
        SortedTogether(index, leq, before, between, children, Done(index, path, nodes, i), Below(index, path + [nodes[i]]));
        DoneStep(index, path, nodes, i);
      }
      AllDone(index, path, nodes);
    }

    /** Builds the whole tree; terminates whatever the parents are, cycles included. */
    method Build(worktrees: seq<Worktree>, leq: Collation)
      requires index == Index([], map[]) && roots == [] && children == map[]
      modifies this
      ensures index == Indexed(worktrees) && Built(index, leq, View())
    {
      hide Built, Linked, SortedWithin, Unsorted, Below, Childless, Indexed, IndexOk;
      NoneIndexed(worktrees);
      for i := 0 to |worktrees|
        invariant index == Indexed(worktrees[..i]) && roots == [] && Childless(index, children)
      {
        var worktree := worktrees[i];
        IndexedStep(worktrees, i);
        ChildlessStep(index, children, worktree);
        index := Index(if worktree.id in index.nodes then index.order else index.order + [worktree.id],
                       index.nodes[worktree.id := worktree]);
        children := children[worktree.id := []];
      }
      assert worktrees[..|worktrees|] == worktrees;
      LinkRoots();
      LinkedIsUnsorted(index, View());
      ghost var linked := View();
      SortNodes(leq, None, []);
      SortedIsBuilt(index, leq, linked, View());
    }
  }

  lemma IndexedStep(worktrees: seq<Worktree>, i: nat)
    requires i < |worktrees|
    ensures var w, last := Indexed(worktrees[..i]), worktrees[i];
      Indexed(worktrees[..i + 1])
        == Index(if last.id in w.nodes then w.order else w.order + [last.id], w.nodes[last.id := last])
  {
    assert worktrees[..i + 1][..i] == worktrees[..i];
  }

  lemma NoneIndexed(worktrees: seq<Worktree>)
    ensures Indexed(worktrees[..0]) == Index([], map[]) && Childless(Index([], map[]), map[])
  {
  }

  lemma ChildlessStep(w: Index, children: map<Id, seq<Id>>, last: Worktree)
    requires Childless(w, children)
    ensures Childless(Index(if last.id in w.nodes then w.order else w.order + [last.id], w.nodes[last.id := last]),
                      children[last.id := []])
  {
  }

  lemma LinkedIsUnsorted(w: Index, lists: Lists)
    requires IndexOk(w) && Linked(w, lists, w.order)
    ensures lists.roots == Hung(w, None) && lists.children.Keys == w.nodes.Keys
    ensures Chain(w, []) && Unsorted(w, lists.children, Below(w, []))
  {
  }

  lemma SortedIsBuilt(w: Index, leq: Collation, linked: Lists, lists: Lists)
    requires IndexOk(w) && Linked(w, linked, w.order)
    requires lists.roots == Siblings(w, leq, None) && SortedWithin(w, leq, linked.children, lists.children, Below(w, []))
    ensures Built(w, leq, lists)
  {
    BelowTheRoots(w);
    hide Siblings, Rooted, Below;
  }

  /** Every list that can be reached from the roots is in display order. */
  ghost predicate Built(w: Index, leq: Collation, lists: Lists) {
    && IndexOk(w) && lists.roots == Siblings(w, leq, None) && lists.children.Keys == w.nodes.Keys
    && forall q <- lists.children :: lists.children[q] == if Rooted(w, q) then Siblings(w, leq, Some(q)) else Hung(w, Some(q))
  }

  lemma BelowTheRoots(w: Index)
    ensures forall q <- w.nodes :: q in Below(w, []) <==> Rooted(w, q)
  {
    forall q | q in w.nodes
      ensures Under(w, [], q) <==> Rooted(w, q)
    {
      if c :| Chain(w, c) && End(c) == Some(q) {
        assert [] <= c;
      }
    }
  }

  // ----- the forest as the sidebar lists it -----

  /** What hangs off each chain's end is listed there, once. */
  ghost predicate Arranged(w: Index, lists: Lists) {
    forall c :: Chain(w, c) ==> Exactly(w, ListOf(lists, End(c)), End(c))
  }

  ghost predicate HangAll(w: Index, ids: seq<Id>, p: Option<Id>) {
    forall id <- ids :: id in w.nodes && Parent(w, id) == p
  }

  /** Each node followed by all below it. */
  ghost function Flat(w: Index, lists: Lists, path: seq<Id>, ids: seq<Id>): seq<Id>
    requires Arranged(w, lists) && Chain(w, path) && HangAll(w, ids, End(path))
    decreases Unvisited(w, path), |ids|
  {
    if ids == [] then []
    else
      ChainExtends(w, path, ids[0]);
      var more := path + [ids[0]];
      assert Exactly(w, ListOf(lists, End(more)), End(more));
      [ids[0]] + Flat(w, lists, more, ListOf(lists, End(more))) + Flat(w, lists, path, ids[1..])
  }

  ghost predicate UnderAny(w: Index, path: seq<Id>, ids: seq<Id>, id: Id) {
    exists k :: k in ids && Under(w, path + [k], id)
  }

  lemma UnderHead(w: Index, path: seq<Id>, id: Id)
    requires Chain(w, path) && path != []
    ensures Under(w, path, path[|path| - 1])
  {
    assert path <= path;
  }

  lemma UnderAnyCons(w: Index, path: seq<Id>, ids: seq<Id>, id: Id)
    requires ids != []
    ensures UnderAny(w, path, ids, id) <==> Under(w, path + [ids[0]], id) || UnderAny(w, path, ids[1..], id)
  {
    hide Under;
    assert ids == [ids[0]] + ids[1..];
  }

  lemma {:induction false} FlatHas(w: Index, lists: Lists, path: seq<Id>, ids: seq<Id>, id: Id)
    requires Arranged(w, lists) && Chain(w, path) && HangAll(w, ids, End(path))
    ensures id in Flat(w, lists, path, ids) <==> UnderAny(w, path, ids, id)
    decreases Unvisited(w, path), |ids|
  {
    if ids != [] {
      var k := ids[0];
      var more := path + [k];
      ChainExtends(w, path, k);
      var below := ListOf(lists, End(more));
      assert Exactly(w, below, End(more));
      FlatCons(w, lists, path, ids);
      hide Under, UnderAny, Chain, Arranged, Exactly, Parent, Flat, HangAll, Unvisited, Seqs.NoDuplicates;
      FlatHas(w, lists, more, below, id);
      FlatHas(w, lists, path, ids[1..], id);
      UnderIs(w, more, below, id);
      EndOfMore(path, k);
      UnderAnyCons(w, path, ids, id);
    }
  }

  lemma EndOfMore(path: seq<Id>, id: Id)
    ensures End(path + [id]) == Some(id)
  {
  }

  lemma FlatCons(w: Index, lists: Lists, path: seq<Id>, ids: seq<Id>)
    requires Arranged(w, lists) && Chain(w, path) && HangAll(w, ids, End(path)) && ids != []
    ensures var more := path + [ids[0]];
      && Chain(w, more) && HangAll(w, ListOf(lists, End(more)), End(more)) && HangAll(w, ids[1..], End(path))
      && Flat(w, lists, path, ids)
         == [ids[0]] + Flat(w, lists, more, ListOf(lists, End(more))) + Flat(w, lists, path, ids[1..])
  {
    hide Parent, ListOf, Unvisited, Seqs.NoDuplicates;
    ChainExtends(w, path, ids[0]);
  }

  lemma UnderIs(w: Index, path: seq<Id>, ids: seq<Id>, id: Id)
    requires Chain(w, path) && Exactly(w, ids, End(path))
    ensures Under(w, path, id) <==> End(path) == Some(id) || UnderAny(w, path, ids, id)
  {
    if End(path) == Some(id) {
      UnderHead(w, path, id);
    } else if Under(w, path, id) {
      var k := UnderChild(w, path, id);
    }
    if k :| k in ids && Under(w, path + [k], id) {
      UnderParent(w, path, k, id);
    }
  }

  lemma DistinctJoin(a: seq<Id>, b: seq<Id>)
    requires Seqs.NoDuplicates(a) && Seqs.NoDuplicates(b) && forall id :: id in a ==> id !in b
    ensures Seqs.NoDuplicates(a + b)
  {
    forall i, j | 0 <= i < j < |a + b|
      ensures (a + b)[i] != (a + b)[j]
    {
      if i < |a| <= j {
        assert a[i] in a && b[j - |a|] in b;
      }
    }
  }

  lemma {:induction false} FlatOnce(w: Index, lists: Lists, path: seq<Id>, ids: seq<Id>)
    requires Arranged(w, lists) && Chain(w, path) && HangAll(w, ids, End(path)) && Seqs.NoDuplicates(ids)
    ensures Seqs.NoDuplicates(Flat(w, lists, path, ids))
    decreases Unvisited(w, path), |ids|
  {
    if ids != [] {
      var k := ids[0];
      var more := path + [k];
      ChainExtends(w, path, k);
      var below := ListOf(lists, End(more));
      assert Exactly(w, below, End(more));
      FlatCons(w, lists, path, ids);
      assert Seqs.NoDuplicates(ids[1..]) && Seqs.NoDuplicates(below);
      hide Flat, Arranged, Exactly, Parent, HangAll, Chain, Under, UnderAny, Unvisited, Seqs.NoDuplicates;
      FlatOnce(w, lists, more, below);
      FlatOnce(w, lists, path, ids[1..]);
      var here, rest := Flat(w, lists, more, below), Flat(w, lists, path, ids[1..]);
      forall id | id == k || id in here
        ensures id !in rest && (id == k ==> id !in here)
      {
        FlatHas(w, lists, more, below, id);
        FlatHas(w, lists, path, ids[1..], id);
        HereAndThere(w, path, ids, below, id);
      }
      OneIsDistinct(k);
      DistinctJoin([k], here);
      DistinctJoin([k] + here, rest);
    }
  }

  lemma OneIsDistinct(id: Id)
    ensures Seqs.NoDuplicates([id])
  {
  }

  lemma HereAndThere(w: Index, path: seq<Id>, ids: seq<Id>, below: seq<Id>, id: Id)
    requires ids != [] && Seqs.NoDuplicates(ids) && Chain(w, path + [ids[0]])
    ensures id == ids[0] || UnderAny(w, path + [ids[0]], below, id) ==> !UnderAny(w, path, ids[1..], id)
    ensures id == ids[0] ==> !UnderAny(w, path + [ids[0]], below, id)
  {
    var k := ids[0];
    var more := path + [k];
    UnderHead(w, more, k);
    if j :| j in below && Under(w, more + [j], id) {
      UnderParent(w, more, j, id);
      if id == k {
        UnderNotItself(w, more, j);
      }
    }
    hide Under, Chain;
    if (id == k || UnderAny(w, more, below, id)) && UnderAny(w, path, ids[1..], id) {
      var other :| other in ids[1..] && Under(w, path + [other], id);
      UnderOneChild(w, path, k, other, id);
      assert false;
    }
  }

  /** Whatever a chain leads to has its siblings in its list. */
  lemma ListsAreSiblings(w: Index, leq: Collation, lists: Lists, c: seq<Id>)
    requires Built(w, leq, lists) && Chain(w, c)
    ensures c != [] ==> c[|c| - 1] in w.nodes
    ensures ListOf(lists, End(c)) == Siblings(w, leq, End(c))
  {
    hide Siblings;
    if c != [] {
      assert c[|c| - 1] in w.nodes && Rooted(w, c[|c| - 1]);
    }
  }

  lemma BuiltIsArranged(w: Index, leq: Collation, lists: Lists)
    requires Built(w, leq, lists)
    ensures Arranged(w, lists)
  {
    forall c | Chain(w, c)
      ensures Exactly(w, ListOf(lists, End(c)), End(c))
    {
      hide Built, Siblings, Hung, Rooted, Chain, ListOf, Exactly;
      ListsAreSiblings(w, leq, lists, c);
      BuiltSiblings(w, leq, lists, End(c));
    }
  }

  lemma BuiltSiblings(w: Index, leq: Collation, lists: Lists, p: Option<Id>)
    requires Built(w, leq, lists)
    ensures Exactly(w, Siblings(w, leq, p), p)
  {
    SiblingsDistinct(w, leq, p);
    hide Siblings, Hung, Rooted;
  }

  /** The list shown: every node whose parents come to an end, each once, and no
    * other; so every node if there is no cycle of parents. */
  lemma ForestHoldsExactlyTheRooted(w: Index, leq: Collation, lists: Lists)
    requires Built(w, leq, lists)
    ensures Arranged(w, lists) && HangAll(w, lists.roots, None)
    ensures forall id :: id in Flat(w, lists, [], lists.roots) <==> id in w.nodes && Rooted(w, id)
    ensures Seqs.NoDuplicates(Flat(w, lists, [], lists.roots))
    ensures (forall id <- w.nodes :: Rooted(w, id)) ==> multiset(Flat(w, lists, [], lists.roots)) == multiset(w.order)
  {
    BuiltIsArranged(w, leq, lists);
    assert Chain(w, []) && Exactly(w, ListOf(lists, End([])), End([]));
    FlatOnce(w, lists, [], lists.roots);
    var flat := Flat(w, lists, [], lists.roots);
    forall id
      ensures id in flat <==> id in w.nodes && Rooted(w, id)
    {
      FlatHas(w, lists, [], lists.roots, id);
      UnderIs(w, [], lists.roots, id);
      RootedIsUnder(w, id);
    }
    if forall id <- w.nodes :: Rooted(w, id) {
      hide Flat, Rooted;
      SameMembers(flat, w.order);
    }
  }

  lemma RootedIsUnder(w: Index, id: Id)
    ensures Under(w, [], id) <==> Rooted(w, id)
    ensures Rooted(w, id) ==> id in w.nodes
  {
    if c :| Chain(w, c) && End(c) == Some(id) {
      assert [] <= c;
      assert c[|c| - 1] in w.nodes;
    }
  }

  lemma SameMembers(a: seq<Id>, b: seq<Id>)
    requires Seqs.NoDuplicates(a) && Seqs.NoDuplicates(b) && forall id :: id in a <==> id in b
    ensures multiset(a) == multiset(b)
  {
    Counts(a);
    Counts(b);
    forall id
      ensures multiset(a)[id] == multiset(b)[id]
    {
      assert id in a <==> id in multiset(a);
      assert id in b <==> id in multiset(b);
    }
  }

  /** Parents never form a cycle: `height` falls from child to parent. */
  ghost predicate Acyclic(w: Index, height: Id -> nat) {
    forall id <- w.nodes :: Parent(w, id).Some? ==> height(Parent(w, id).value) < height(id)
  }

  lemma {:induction false} AcyclicIsRooted(w: Index, height: Id -> nat, id: Id) returns (c: seq<Id>)
    requires Acyclic(w, height) && id in w.nodes
    ensures Chain(w, c) && End(c) == Some(id) && Rooted(w, id)
    decreases height(id)
  {
    var before: seq<Id> := [];
    if Parent(w, id).Some? {
      before := AcyclicIsRooted(w, height, Parent(w, id).value);
    }
    ChainExtends(w, before, id);
    c := before + [id];
  }

  /** Without cycles nothing is lost: the list is a rearrangement of the nodes. */
  lemma AcyclicForestIsAPermutation(w: Index, leq: Collation, lists: Lists, height: Id -> nat)
    requires Built(w, leq, lists) && Acyclic(w, height)
    ensures Arranged(w, lists) && HangAll(w, lists.roots, None)
    ensures multiset(Flat(w, lists, [], lists.roots)) == multiset(w.order)
  {
    forall id | id in w.nodes
      ensures Rooted(w, id)
    {
      var _ := AcyclicIsRooted(w, height, id);
    }
    ForestHoldsExactlyTheRooted(w, leq, lists);
  }

  /** Siblings are in order, main first, and ties as they came; nothing hangs off main. */
  lemma SiblingsAreInOrder(w: Index, leq: Collation, lists: Lists, c: seq<Id>, x: Worktree)
    requires Built(w, leq, lists) && TotalPreorder(leq) && Chain(w, c)
    ensures var ids := ListOf(lists, End(c));
      && (forall id <- ids :: id in w.nodes) && (forall id <- Hung(w, End(c)) :: id in w.nodes)
      && multiset(ids) == multiset(Hung(w, End(c)))
      && Sorted(w, leq, ids) && Ties(w, leq, ids, x) == Ties(w, leq, Hung(w, End(c)), x)
      && (forall i, j :: 0 <= i < j < |ids| && w.nodes[ids[j]].isMain ==> w.nodes[ids[i]].isMain)
      && (c != [] && w.nodes[c[|c| - 1]].isMain ==> ids == [])
  {
    hide Hung, Sort, Siblings, Ties, TotalPreorder, Chain, Rooted, Sorted, ListOf;
    var hung := Hung(w, End(c));
    HungHas(w, End(c));
    SortIsStable(w, leq, hung, x);
    SiblingsAre(w, leq, End(c));
    ListsAreSiblings(w, leq, lists, c);
    MainComesFirst(w, leq, Sort(w, leq, hung));
    if c != [] && w.nodes[c[|c| - 1]].isMain {
      MainHasNone(w, leq, c[|c| - 1]);
    }
  }

  lemma MainComesFirst(w: Index, leq: Collation, ids: seq<Id>)
    requires (forall id <- ids :: id in w.nodes) && Sorted(w, leq, ids)
    ensures forall i, j :: 0 <= i < j < |ids| && w.nodes[ids[j]].isMain ==> w.nodes[ids[i]].isMain
  {
  }

  lemma HeadIn(ids: seq<Id>)
    requires ids != []
    ensures ids[0] in ids
  {
  }

  lemma MainHasNone(w: Index, leq: Collation, id: Id)
    requires IndexOk(w) && id in w.nodes && w.nodes[id].isMain
    ensures Siblings(w, leq, Some(id)) == []
  {
    var ids := Siblings(w, leq, Some(id));
    if ids != [] {
      HeadIn(ids);
      assert false;
    }
  }
}
