/** What the accessibility tree is: the first-visit depth-first order of the raw graph,
    less the dropped nodes, each under its nearest kept ancestor; and what a walk of it
    sees. (src/page/a11y.ts, src/page/a11y-types.ts) */
module AxTreeOrder {
  import opened Collections
  import opened Json
  import opened AxTree

  /** A raw node as it is come upon: by which path, how deep, and its nearest kept
      ancestor. */
  datatype Visit = Visit(raw: Raw, path: Path, depth: nat, anchor: Id)

  /** An entry of the output, in pre-order. */
  datatype Line = Line(id: Id, key: KeyInput, ref: nat, parent: Id)

  // ---------- depth-first order by a worklist ----------

  function ChildVisits(g: Graph, cids: seq<Id>, path: Path, depth: nat, i: nat, anchor: Id): seq<Visit>
    requires Keyed(g)
  {
    if cids == [] then []
    else if cids[0] !in g then ChildVisits(g, cids[1..], path, depth, i, anchor)
    else [Visit(g[cids[0]], ChildPath(path, g[cids[0]], i), depth + 1, anchor)]
         + ChildVisits(g, cids[1..], path, depth, i + 1, anchor)
  }

  /** The nearest kept ancestor of what is below. */
  function Anchor(v: Visit): Id { if Dropped(v.raw) then v.anchor else v.raw.id }

  function Below(g: Graph, v: Visit): seq<Visit>
    requires Keyed(g)
  {
    if v.depth >= MAX_WALK_DEPTH then []
    else ChildVisits(g, v.raw.childIds, v.path, v.depth, 0, Anchor(v))
  }

  /** The visits still to come: the first of the list unless it was met, then what is
      below it, then the rest. */
  function Dfs(g: Graph, todo: seq<Visit>, seen: set<Id>): seq<Visit>
    requires Keyed(g)
    decreases |g.Keys - seen|, |todo|
  {
    if todo == [] then []
    else if todo[0].raw.id in seen || todo[0].raw.id !in g then Dfs(g, todo[1..], seen)
    else
      LeftShrinks(g, seen, todo[0].raw.id);
      [todo[0]] + Dfs(g, Below(g, todo[0]) + todo[1..], seen + {todo[0].raw.id})
  }

  function Ids(vs: seq<Visit>): set<Id> { set v | v in vs :: v.raw.id }

  lemma IdsJoin(a: seq<Visit>, b: seq<Visit>)
    ensures Ids(a + b) == Ids(a) + Ids(b)
  {
  }

  /** One step of the worklist, with more of it after. */
  lemma DfsNext(g: Graph, v: Visit, rest: seq<Visit>, seen: set<Id>)
    requires Keyed(g)
    ensures Dfs(g, [v] + rest, seen) ==
            if v.raw.id in seen || v.raw.id !in g then Dfs(g, rest, seen)
            else [v] + Dfs(g, Below(g, v) + rest, seen + {v.raw.id})
  {
    assert ([v] + rest)[1..] == rest;
  }

  /** What is below and after the first of a list comes before what is appended. */
  ghost predicate Splits(g: Graph, a: seq<Visit>, b: seq<Visit>, seen: set<Id>)
    requires Keyed(g)
  {
    Dfs(g, a + b, seen) == Dfs(g, a, seen) + Dfs(g, b, seen + Ids(Dfs(g, a, seen)))
  }

  lemma {:induction false} DfsSplits(g: Graph, a: seq<Visit>, b: seq<Visit>, seen: set<Id>)
    requires Keyed(g)
    ensures Splits(g, a, b, seen)
    decreases |g.Keys - seen|, |a|
  {
    if a == [] {
      SplitsNothing(g, b, seen);
    } else {
      assert a == [a[0]] + a[1..];
      if a[0].raw.id in seen || a[0].raw.id !in g {
        DfsSplits(g, a[1..], b, seen);
        SplitsSkipping(g, a[0], a[1..], b, seen);
      } else {
        LeftShrinks(g, seen, a[0].raw.id);
        DfsSplits(g, Below(g, a[0]) + a[1..], b, seen + {a[0].raw.id});
        SplitsAfter(g, a[0], a[1..], b, seen);
      }
    }
  }

  lemma SplitsNothing(g: Graph, b: seq<Visit>, seen: set<Id>)
    requires Keyed(g)
    ensures Splits(g, [], b, seen)
  {
    assert [] + b == b && seen + Ids([]) == seen;
  }

  lemma SplitsSkipping(g: Graph, v: Visit, rest: seq<Visit>, b: seq<Visit>, seen: set<Id>)
    requires Keyed(g) && (v.raw.id in seen || v.raw.id !in g) && Splits(g, rest, b, seen)
    ensures Splits(g, [v] + rest, b, seen)
  {
    DfsNext(g, v, rest, seen);
    DfsNext(g, v, rest + b, seen);
    Regroup([v], rest, b);
  }

  lemma SplitsAfter(g: Graph, v: Visit, rest: seq<Visit>, b: seq<Visit>, seen: set<Id>)
    requires Keyed(g) && v.raw.id in g && v.raw.id !in seen
    requires Splits(g, Below(g, v) + rest, b, seen + {v.raw.id})
    ensures Splits(g, [v] + rest, b, seen)
  {
    var met := seen + {v.raw.id};
    var d := Dfs(g, Below(g, v) + rest, met);
    DfsNext(g, v, rest, seen);
    DfsNext(g, v, rest + b, seen);
    Regroup([v], rest, b);
    Regroup(Below(g, v), rest, b);
    MetSplits(seen, v, d);
    Regroup([v], d, Dfs(g, b, met + Ids(d)));
  }

  lemma MetSplits(seen: set<Id>, v: Visit, d: seq<Visit>)
    ensures seen + Ids([v] + d) == (seen + {v.raw.id}) + Ids(d)
  {
    IdsJoin([v], d);
  }

  // ---------- the output as lines ----------

  function Flat(nodes: seq<Node>, parent: Id): seq<Line> {
    if nodes == [] then []
    else [Line(nodes[0].id, nodes[0].key, nodes[0].ref, parent)] + Flat(nodes[0].children, nodes[0].id)
         + Flat(nodes[1..], parent)
  }

  lemma {:induction false} FlatJoins(a: seq<Node>, b: seq<Node>, parent: Id)
    ensures Flat(a + b, parent) == Flat(a, parent) + Flat(b, parent)
  {
    if a == [] {
      assert a + b == b;
    } else {
      FlatJoins(a[1..], b, parent);
      assert (a + b)[0] == a[0] && (a + b)[1..] == a[1..] + b;
      var first := [Line(a[0].id, a[0].key, a[0].ref, parent)] + Flat(a[0].children, a[0].id);
      Regroup(first, Flat(a[1..], parent), Flat(b, parent));
    }
  }

  /** The registry once the kept visits have their refs, in order. */
  function Mint(reg: Registry, keys: Keys, vs: seq<Visit>): Registry
    decreases |vs|
  {
    if vs == [] then reg
    else Mint(if Dropped(vs[0].raw) then reg else ForKey(reg, keys(KeyOf(vs[0].raw, vs[0].path))), keys, vs[1..])
  }

  /** The kept visits, each with its ref and under its nearest kept ancestor. */
  function Lines(reg: Registry, keys: Keys, vs: seq<Visit>): seq<Line>
    decreases |vs|
  {
    if vs == [] then []
    else if Dropped(vs[0].raw) then Lines(reg, keys, vs[1..])
    else
      var key := KeyOf(vs[0].raw, vs[0].path);
      [Line(vs[0].raw.id, key, RefOf(reg, keys(key)), vs[0].anchor)] + Lines(ForKey(reg, keys(key)), keys, vs[1..])
  }

  lemma {:induction false} LinesJoin(reg: Registry, keys: Keys, a: seq<Visit>, b: seq<Visit>)
    ensures Mint(reg, keys, a + b) == Mint(Mint(reg, keys, a), keys, b)
    ensures Lines(reg, keys, a + b) == Lines(reg, keys, a) + Lines(Mint(reg, keys, a), keys, b)
    decreases |a|
  {
    if a == [] {
      assert a + b == b;
    } else {
      LinesJoin(if Dropped(a[0].raw) then reg else ForKey(reg, keys(KeyOf(a[0].raw, a[0].path))), keys, a[1..], b);
      assert (a + b)[0] == a[0] && (a + b)[1..] == a[1..] + b;
    }
  }

  // ---------- the recursion is the worklist, filtered ----------

  /** What the recursion gave is the lines of these visits, met and minted in order. */
  ghost predicate Renders(keys: Keys, c: Carry, vs: seq<Visit>, anchor: Id, nodes: seq<Node>, d: Carry) {
    && Flat(nodes, anchor) == Lines(c.reg, keys, vs)
    && d == Carry(c.seen + Ids(vs), Mint(c.reg, keys, vs))
  }

  lemma RendersJoin(keys: Keys, c: Carry, vs: seq<Visit>, nodes: seq<Node>, d: Carry,
                    ws: seq<Visit>, more: seq<Node>, e: Carry, anchor: Id)
    requires Renders(keys, c, vs, anchor, nodes, d) && Renders(keys, d, ws, anchor, more, e)
    ensures Renders(keys, c, vs + ws, anchor, nodes + more, e)
  {
    FlatJoins(nodes, more, anchor);
    LinesJoin(c.reg, keys, vs, ws);
    IdsJoin(vs, ws);
  }

  /** What is carried below a node just met. */
  function Entered(keys: Keys, v: Visit, c: Carry): Carry {
    Carry(c.seen + {v.raw.id}, if Dropped(v.raw) then c.reg else ForKey(c.reg, keys(KeyOf(v.raw, v.path))))
  }

  function Contribution(keys: Keys, v: Visit, c: Carry, children: seq<Node>): seq<Node> {
    if Dropped(v.raw) then children
    else [Node(v.raw.id, KeyOf(v.raw, v.path), RefOf(c.reg, keys(KeyOf(v.raw, v.path))), children)]
  }

  lemma RenderOne(keys: Keys, v: Visit, c: Carry, below: seq<Visit>, children: seq<Node>, d: Carry)
    requires Renders(keys, Entered(keys, v, c), below, Anchor(v), children, d)
    ensures Renders(keys, c, [v] + below, v.anchor, Contribution(keys, v, c, children), d)
  {
    MetSplits(c.seen, v, below);
    assert ([v] + below)[1..] == below;
  }

  lemma {:induction false} ConvertRenders(g: Graph, keys: Keys, v: Visit, c: Carry)
    requires Keyed(g) && v.raw.id in g
    ensures var r := Convert(g, keys, v.raw, v.path, v.depth, c);
            Renders(keys, c, Dfs(g, [v], c.seen), v.anchor, r.0, r.1)
    decreases Left(g, c), 0
  {
    if v.raw.id in c.seen {
      assert c.seen + Ids([]) == c.seen;
    } else if v.depth < MAX_WALK_DEPTH {
      LeftShrinks(g, c.seen, v.raw.id);
      DfsNext(g, v, [], c.seen);
      assert [v] + [] == [v] && Below(g, v) + [] == Below(g, v);
      var inner := Entered(keys, v, c);
      ChildrenRender(g, keys, v.raw.childIds, v.path, v.depth, 0, Anchor(v), inner);
      RenderOne(keys, v, c, Dfs(g, Below(g, v), inner.seen),
                ConvertChildren(g, keys, v.raw.childIds, v.path, v.depth, 0, inner).0,
                ConvertChildren(g, keys, v.raw.childIds, v.path, v.depth, 0, inner).1);
    } else {
      CapRenders(g, keys, v, c);
    }
  }

  /** A node at the cap, with nothing looked at below it. */
  lemma CapRenders(g: Graph, keys: Keys, v: Visit, c: Carry)
    requires Keyed(g) && v.raw.id in g && v.raw.id !in c.seen && v.depth >= MAX_WALK_DEPTH
    ensures var r := Convert(g, keys, v.raw, v.path, v.depth, c);
            Renders(keys, c, Dfs(g, [v], c.seen), v.anchor, r.0, r.1)
  {
    DfsNext(g, v, [], c.seen);
    assert [v] + [] == [v] && Below(g, v) + [] == Below(g, v);
    var inner := Entered(keys, v, c);
    assert inner.seen + Ids([]) == inner.seen;
    RenderOne(keys, v, c, [], [], inner);
  }

  lemma {:induction false} ChildrenRender(
    g: Graph, keys: Keys, cids: seq<Id>, path: Path, depth: nat, i: nat, anchor: Id, c: Carry)
    requires Keyed(g)
    ensures var r := ConvertChildren(g, keys, cids, path, depth, i, c);
            Renders(keys, c, Dfs(g, ChildVisits(g, cids, path, depth, i, anchor), c.seen), anchor, r.0, r.1)
    decreases Left(g, c), |cids|
  {
    if cids == [] {
      assert c.seen + Ids([]) == c.seen;
    } else if cids[0] !in g {
      ChildrenRender(g, keys, cids[1..], path, depth, i, anchor, c);
    } else {
      var v := Visit(g[cids[0]], ChildPath(path, g[cids[0]], i), depth + 1, anchor);
      var rest := ChildVisits(g, cids[1..], path, depth, i + 1, anchor);
      ConvertRenders(g, keys, v, c);
      var (nodes, d) := Convert(g, keys, v.raw, v.path, v.depth, c);
      LeftOrder(g, c.seen, d.seen);
      ChildrenRender(g, keys, cids[1..], path, depth, i + 1, anchor, d);
      var (more, e) := ConvertChildren(g, keys, cids[1..], path, depth, i + 1, d);
      DfsSplits(g, [v], rest, c.seen);
      RendersJoin(keys, c, Dfs(g, [v], c.seen), nodes, d, Dfs(g, rest, d.seen), more, e, anchor);
    }
  }

  // ---------- the tree of a page ----------

  /** The nodes met below the root, in order. The root is kept whatever it is. */
  function Visits(nodes: seq<Raw>): seq<Visit>
    requires nodes != []
  {
    var g, root := ById(nodes), RootOf(ById(nodes), nodes);
    Dfs(g, ChildVisits(g, root.childIds, RootPath(root), 0, 0, root.id), {root.id})
  }

  function RootKey(nodes: seq<Raw>): KeyInput
    requires nodes != []
  {
    var root := RootOf(ById(nodes), nodes);
    KeyOf(root, RootPath(root))
  }

  function RootId(nodes: seq<Raw>): Id
    requires nodes != []
  {
    RootOf(ById(nodes), nodes).id
  }

  /** The tree in pre-order is the root and then the kept visits, in the order of first
      visit, each under its nearest kept ancestor and with the ref that minting in that
      order gives. */
  lemma TreeIsTheKeptVisits(nodes: seq<Raw>, keys: Keys, reg: Registry)
    requires nodes != []
    ensures var key := keys(RootKey(nodes));
            var (tree, reg') := Tree(nodes, keys, reg);
            && tree.Some? && tree.value.id == RootId(nodes)
            && tree.value.key == RootKey(nodes) && tree.value.ref == RefOf(reg, key)
            && Flat(tree.value.children, RootId(nodes)) == Lines(ForKey(reg, key), keys, Visits(nodes))
            && reg' == Mint(ForKey(reg, key), keys, Visits(nodes))
  {
    var g, root := ById(nodes), RootOf(ById(nodes), nodes);
    ChildrenRender(g, keys, root.childIds, RootPath(root), 0, 0, root.id,
                   Carry({root.id}, ForKey(reg, keys(RootKey(nodes)))));
  }

  // ---------- each once, and under its parent ----------

  /** Every node met is of the graph, not met before, and met once. */
  ghost predicate Fresh(g: Graph, d: seq<Visit>, seen: set<Id>) {
    && (forall k :: 0 <= k < |d| ==> d[k].raw.id in g && d[k].raw.id !in seen)
    && (forall j, k :: 0 <= j < k < |d| ==> d[j].raw.id != d[k].raw.id)
  }

  lemma FreshNext(g: Graph, v: Visit, d: seq<Visit>, seen: set<Id>)
    requires Fresh(g, d, seen + {v.raw.id}) && v.raw.id in g && v.raw.id !in seen
    ensures Fresh(g, [v] + d, seen)
  {
    forall k | 0 < k < |[v] + d| ensures ([v] + d)[k] == d[k - 1] {}
  }

  lemma {:induction false} EachIsMetOnce(g: Graph, todo: seq<Visit>, seen: set<Id>)
    requires Keyed(g)
    ensures Fresh(g, Dfs(g, todo, seen), seen)
    decreases |g.Keys - seen|, |todo|
  {
    if todo != [] {
      var v := todo[0];
      if v.raw.id in seen || v.raw.id !in g {
        EachIsMetOnce(g, todo[1..], seen);
      } else {
        LeftShrinks(g, seen, v.raw.id);
        var rest := Below(g, v) + todo[1..];
        EachIsMetOnce(g, rest, seen + {v.raw.id});
        FreshNext(g, v, Dfs(g, rest, seen + {v.raw.id}), seen);
      }
    }
  }

  /** The visit was waiting at the start, or is below one met before it. */
  ghost predicate HasParent(g: Graph, todo: seq<Visit>, d: seq<Visit>, k: nat)
    requires Keyed(g) && k < |d|
  {
    d[k] in todo || exists j :: 0 <= j < k && d[k] in Below(g, d[j])
  }

  lemma {:induction false} EachHasItsParent(g: Graph, todo: seq<Visit>, seen: set<Id>, k: nat)
    requires Keyed(g) && k < |Dfs(g, todo, seen)|
    ensures HasParent(g, todo, Dfs(g, todo, seen), k)
    decreases |g.Keys - seen|, |todo|
  {
    var v, d := todo[0], Dfs(g, todo, seen);
    if v.raw.id in seen || v.raw.id !in g {
      EachHasItsParent(g, todo[1..], seen, k);
    } else {
      LeftShrinks(g, seen, v.raw.id);
      var rest := Below(g, v) + todo[1..];
      if k > 0 {
        EachHasItsParent(g, rest, seen + {v.raw.id}, k - 1);
        var e := Dfs(g, rest, seen + {v.raw.id});
        assert d[k] == e[k - 1];
        if e[k - 1] in rest {
          assert e[k - 1] in Below(g, d[0]) || e[k - 1] in todo[1..];
        } else {
          var j :| 0 <= j < k - 1 && e[k - 1] in Below(g, e[j]);
          assert d[j + 1] == e[j];
        }
      }
    }
  }

  // ---------- nothing is lost ----------

  /** A way down from the root that does not come back to it. */
  ghost predicate Chain(g: Graph, root: Raw, p: seq<Id>) {
    && p != [] && p[0] in root.childIds
    && (forall k :: 0 <= k < |p| ==> p[k] in g && p[k] != root.id)
    && (forall k :: 0 < k < |p| ==> p[k] in g[p[k - 1]].childIds)
  }

  ghost predicate Reachable(g: Graph, root: Raw, id: Id) {
    exists p :: Chain(g, root, p) && p[|p| - 1] == id
  }

  lemma {:induction false} ChildVisitsAre(g: Graph, cids: seq<Id>, path: Path, depth: nat, i: nat, anchor: Id)
    requires Keyed(g)
    ensures forall v :: v in ChildVisits(g, cids, path, depth, i, anchor) ==>
              v.raw.id in cids && v.raw.id in g && v.raw == g[v.raw.id] && v.depth == depth + 1 && v.anchor == anchor
    ensures forall id :: id in cids && id in g ==> id in Ids(ChildVisits(g, cids, path, depth, i, anchor))
  {
    if cids != [] {
      if cids[0] !in g {
        ChildVisitsAre(g, cids[1..], path, depth, i, anchor);
      } else {
        ChildVisitsAre(g, cids[1..], path, depth, i + 1, anchor);
        var first := [Visit(g[cids[0]], ChildPath(path, g[cids[0]], i), depth + 1, anchor)];
        IdsJoin(first, ChildVisits(g, cids[1..], path, depth, i + 1, anchor));
      }
    }
  }

  /** What waits is the root again or can be reached, and is the graph's own node. */
  ghost predicate Waiting(g: Graph, root: Raw, v: Visit) {
    v.raw.id in g && v.raw == g[v.raw.id] && (v.raw.id == root.id || Reachable(g, root, v.raw.id))
  }

  lemma BelowWaits(g: Graph, root: Raw, v: Visit)
    requires Keyed(g) && Waiting(g, root, v) && v.raw.id != root.id
    ensures forall w :: w in Below(g, v) ==> Waiting(g, root, w)
  {
    ChildVisitsAre(g, v.raw.childIds, v.path, v.depth, 0, Anchor(v));
    var p :| Chain(g, root, p) && p[|p| - 1] == v.raw.id;
    forall w | w in Below(g, v) ensures Waiting(g, root, w) {
      if w.raw.id != root.id { assert Chain(g, root, p + [w.raw.id]); }
    }
  }

  lemma {:induction false} OnlyTheReachable(g: Graph, root: Raw, todo: seq<Visit>, seen: set<Id>)
    requires Keyed(g) && root.id in seen && forall v :: v in todo ==> Waiting(g, root, v)
    ensures forall v :: v in Dfs(g, todo, seen) ==> Waiting(g, root, v) && v.raw.id != root.id
    decreases |g.Keys - seen|, |todo|
  {
    if todo != [] {
      var v := todo[0];
      if v.raw.id in seen || v.raw.id !in g {
        OnlyTheReachable(g, root, todo[1..], seen);
      } else {
        LeftShrinks(g, seen, v.raw.id);
        BelowWaits(g, root, v);
        OnlyTheReachable(g, root, Below(g, v) + todo[1..], seen + {v.raw.id});
      }
    }
  }

  /** Every node below a visited one ends up visited, but for nodes at the cap. */
  ghost predicate Closed(g: Graph, d: seq<Visit>, met: set<Id>) {
    forall v, id :: v in d && v.depth < MAX_WALK_DEPTH && id in v.raw.childIds && id in g ==> id in met
  }

  lemma {:induction false} AllTheReachable(g: Graph, todo: seq<Visit>, seen: set<Id>)
    requires Keyed(g)
    ensures var d := Dfs(g, todo, seen);
            && Closed(g, d, seen + Ids(d))
            && (forall v :: v in todo && v.raw.id in g ==> v.raw.id in seen + Ids(d))
    decreases |g.Keys - seen|, |todo|
  {
    if todo != [] {
      var v := todo[0];
      if v.raw.id in seen || v.raw.id !in g {
        AllTheReachable(g, todo[1..], seen);
      } else {
        LeftShrinks(g, seen, v.raw.id);
        var rest, met := Below(g, v) + todo[1..], seen + {v.raw.id};
        AllTheReachable(g, rest, met);
        MetSplits(seen, v, Dfs(g, rest, met));
        if v.depth < MAX_WALK_DEPTH { AllBelow(g, v, rest, met); }
      }
    }
  }

  lemma AllBelow(g: Graph, v: Visit, rest: seq<Visit>, met: set<Id>)
    requires Keyed(g) && v.depth < MAX_WALK_DEPTH && Below(g, v) <= rest
    requires forall w :: w in rest && w.raw.id in g ==> w.raw.id in met + Ids(Dfs(g, rest, met))
    ensures forall id :: id in v.raw.childIds && id in g ==> id in met + Ids(Dfs(g, rest, met))
  {
    ChildVisitsAre(g, v.raw.childIds, v.path, v.depth, 0, Anchor(v));
    forall id | id in v.raw.childIds && id in g ensures id in met + Ids(Dfs(g, rest, met)) {
      var w :| w in Below(g, v) && w.raw.id == id;
      assert w in rest;
    }
  }

  /** No node at the cap has a child that is met nowhere. */
  ghost predicate NothingCutOff(g: Graph, root: Raw, d: seq<Visit>) {
    forall v, id :: v in d && v.depth >= MAX_WALK_DEPTH && id in v.raw.childIds && id in g ==>
      id in {root.id} + Ids(d)
  }

  lemma {:induction false} ChainIsMet(g: Graph, root: Raw, p: seq<Id>, d: seq<Visit>, k: nat)
    requires Keyed(g) && Chain(g, root, p) && k < |p|
    requires Closed(g, d, {root.id} + Ids(d)) && NothingCutOff(g, root, d)
    requires forall v :: v in d ==> v.raw.id in g && v.raw == g[v.raw.id]
    requires forall id :: id in root.childIds && id in g ==> id in {root.id} + Ids(d)
    ensures p[k] in Ids(d)
  {
    if k > 0 {
      ChainIsMet(g, root, p, d, k - 1);
      var v :| v in d && v.raw.id == p[k - 1];
      assert p[k] in v.raw.childIds;
    }
  }

  /** The nodes met can be reached; what is below them is met too, short of the cap. */
  lemma VisitsAre(nodes: seq<Raw>)
    requires nodes != []
    ensures var g, root, d := ById(nodes), RootOf(ById(nodes), nodes), Visits(nodes);
            && (forall v :: v in d ==> Waiting(g, root, v) && v.raw.id != root.id)
            && Closed(g, d, {root.id} + Ids(d))
            && (forall id :: id in root.childIds && id in g ==> id in {root.id} + Ids(d))
  {
    var g, root := ById(nodes), RootOf(ById(nodes), nodes);
    var todo := ChildVisits(g, root.childIds, RootPath(root), 0, 0, root.id);
    ChildVisitsAre(g, root.childIds, RootPath(root), 0, 0, root.id);
    forall v | v in todo ensures Waiting(g, root, v) {
      if v.raw.id != root.id { assert Chain(g, root, [v.raw.id]); }
    }
    OnlyTheReachable(g, root, todo, {root.id});
    AllTheReachable(g, todo, {root.id});
    forall c | c in root.childIds && c in g ensures c in {root.id} + Ids(Visits(nodes)) {
      var w :| w in todo && w.raw.id == c;
    }
  }

  /** On any graph, cyclic or not, the nodes met are exactly those that can be reached
      from the root, if and only if no node at the cap has a child that is met nowhere. */
  lemma {:induction false} NothingIsLostExactly(nodes: seq<Raw>)
    requires nodes != []
    ensures var g, root, d := ById(nodes), RootOf(ById(nodes), nodes), Visits(nodes);
            (forall id :: id in Ids(d) <==> Reachable(g, root, id)) <==> NothingCutOff(g, root, d)
  {
    var g, root, d := ById(nodes), RootOf(ById(nodes), nodes), Visits(nodes);
    VisitsAre(nodes);
    if NothingCutOff(g, root, d) {
      forall id ensures id in Ids(d) <==> Reachable(g, root, id) {
        if p :| Chain(g, root, p) && p[|p| - 1] == id { ChainIsMet(g, root, p, d, |p| - 1); }
      }
    }
    if forall id :: id in Ids(d) <==> Reachable(g, root, id) {
      forall v, id | v in d && id in v.raw.childIds && id in g ensures id in {root.id} + Ids(d) {
        if id != root.id { OneMoreStep(g, root, v, id); }
      }
    }
  }

  lemma OneMoreStep(g: Graph, root: Raw, v: Visit, id: Id)
    requires Waiting(g, root, v) && v.raw.id != root.id && id in v.raw.childIds && id in g && id != root.id
    ensures Reachable(g, root, id)
  {
    var p :| Chain(g, root, p) && p[|p| - 1] == v.raw.id;
    assert Chain(g, root, p + [id]);
  }

  // ---------- small graphs, and one that is not ----------

  /** One node more than there are levels allowed at the most, and nothing waits deeper
      than nodes were met. */
  ghost predicate Shallow(g: Graph, todo: seq<Visit>, seen: set<Id>) {
    |g| <= MAX_WALK_DEPTH + 1 && seen <= g.Keys && forall v :: v in todo ==> v.depth <= |seen|
  }

  ghost predicate AtTheCap(d: seq<Visit>) { exists v :: v in d && v.depth >= MAX_WALK_DEPTH }

  /** On a small graph a node at the cap is the last there is. */
  lemma {:induction false} CapComesLast(g: Graph, todo: seq<Visit>, seen: set<Id>)
    requires Keyed(g) && Shallow(g, todo, seen)
    ensures AtTheCap(Dfs(g, todo, seen)) ==> g.Keys <= seen + Ids(Dfs(g, todo, seen))
    decreases |g.Keys - seen|, |todo|
  {
    if todo != [] {
      var v := todo[0];
      if v.raw.id in seen || v.raw.id !in g {
        CapComesLast(g, todo[1..], seen);
      } else {
        var met, rest := seen + {v.raw.id}, Below(g, v) + todo[1..];
        LeftShrinks(g, seen, v.raw.id);
        ChildVisitsAre(g, v.raw.childIds, v.path, v.depth, 0, Anchor(v));
        CapComesLast(g, rest, met);
        MetSplits(seen, v, Dfs(g, rest, met));
        if v.depth >= MAX_WALK_DEPTH { SubsetSize(met, g.Keys); }
      }
    }
  }

  /** With at most 2001 nodes nothing is ever lost. */
  lemma SmallGraphsAreWhole(nodes: seq<Raw>, id: Id)
    requires nodes != [] && |ById(nodes)| <= MAX_WALK_DEPTH + 1
    ensures id in Ids(Visits(nodes)) <==> Reachable(ById(nodes), RootOf(ById(nodes), nodes), id)
  {
    var g, root := ById(nodes), RootOf(ById(nodes), nodes);
    var todo := ChildVisits(g, root.childIds, RootPath(root), 0, 0, root.id);
    ChildVisitsAre(g, root.childIds, RootPath(root), 0, 0, root.id);
    CapComesLast(g, todo, {root.id});
    NothingIsLostExactly(nodes);
    if exists v, c :: v in Visits(nodes) && v.depth >= MAX_WALK_DEPTH && c in v.raw.childIds && c in g {
      assert AtTheCap(Visits(nodes));
    }
  }

  function Name(k: nat): Id { seq(k + 1, _ => 'n') }

  /** The node at place `k` of a chain, with the next one below it. */
  function ChainNode(k: nat): Raw {
    Raw(Name(k), if k == 0 then None else Some(Name(k - 1)), false, None, None, [Name(k + 1)])
  }

  function ChainOf(n: nat): seq<Raw> { seq(n, k requires 0 <= k < n => ChainNode(k)) }

  /** The graph holds the node of place `k`, or that place is past its end. */
  predicate HoldsPlace(g: Graph, n: nat, k: nat) {
    (k < n <==> Name(k) in g) && (Name(k) in g ==> g[Name(k)] == ChainNode(k))
  }

  /** The graph is the chain of `n` nodes. */
  ghost predicate IsChain(g: Graph, n: nat) { Keyed(g) && forall k: nat :: HoldsPlace(g, n, k) }

  lemma NamesDiffer(j: nat, k: nat)
    ensures Name(j) == Name(k) ==> j == k
  {
    assert |Name(j)| == j + 1 && |Name(k)| == k + 1;
  }

  lemma {:induction false} ChainById(n: nat)
    ensures IsChain(ById(ChainOf(n)), n)
  {
    if n > 0 {
      ChainById(n - 1);
      assert ChainOf(n)[..n - 1] == ChainOf(n - 1) && ChainOf(n)[n - 1] == ChainNode(n - 1);
      forall k: nat ensures HoldsPlace(ById(ChainOf(n)), n, k) {
        assert HoldsPlace(ById(ChainOf(n - 1)), n - 1, k);
        NamesDiffer(k, n - 1);
      }
    }
  }

  lemma ChainIsReachable(g: Graph, n: nat, m: nat)
    requires IsChain(g, n) && 0 < m < n
    ensures Reachable(g, ChainNode(0), Name(m))
  {
    var p := seq(m, k requires 0 <= k < m => Name(k + 1));
    forall k | 0 <= k < m ensures p[k] in g && p[k] != Name(0) {
      assert HoldsPlace(g, n, k + 1);
      NamesDiffer(k + 1, 0);
    }
    forall k | 0 < k < m ensures p[k] in g[p[k - 1]].childIds {
      assert HoldsPlace(g, n, k) && p[k - 1] == Name(k) && p[k] == Name(k + 1);
    }
    assert p[0] == Name(1) && Name(1) in ChainNode(0).childIds;
    assert Chain(g, ChainNode(0), p) && p[|p| - 1] == Name(m);
  }

  /** Each node is met at the depth that is its place, none of them below the cap. */
  ghost predicate InPlace(d: seq<Visit>) {
    forall v :: v in d ==> v.depth <= MAX_WALK_DEPTH && v.raw == ChainNode(v.depth)
  }

  lemma BelowInPlace(g: Graph, n: nat, v: Visit)
    requires IsChain(g, n) && v.raw == ChainNode(v.depth)
    ensures InPlace(Below(g, v))
  {
    ChildVisitsAre(g, v.raw.childIds, v.path, v.depth, 0, Anchor(v));
    forall w | w in Below(g, v) ensures w.depth <= MAX_WALK_DEPTH && w.raw == ChainNode(w.depth) {
      assert w.raw.id == Name(v.depth + 1) && HoldsPlace(g, n, v.depth + 1);
    }
  }

  lemma {:induction false} AllInPlace(g: Graph, n: nat, todo: seq<Visit>, seen: set<Id>)
    requires IsChain(g, n) && InPlace(todo)
    ensures InPlace(Dfs(g, todo, seen))
    decreases |g.Keys - seen|, |todo|
  {
    if todo != [] {
      var v := todo[0];
      if v.raw.id in seen || v.raw.id !in g {
        AllInPlace(g, n, todo[1..], seen);
      } else {
        LeftShrinks(g, seen, v.raw.id);
        BelowInPlace(g, n, v);
        AllInPlace(g, n, Below(g, v) + todo[1..], seen + {v.raw.id});
      }
    }
  }

  /** A chain of 2002 nodes or more: the node at depth 2001 can be reached and is not met. */
  lemma {:induction false} LongChainsAreCut(n: nat)
    requires n >= MAX_WALK_DEPTH + 2
    ensures var nodes, lost := ChainOf(n), Name(MAX_WALK_DEPTH + 1);
            && Reachable(ById(nodes), RootOf(ById(nodes), nodes), lost)
            && lost !in Ids(Visits(nodes))
  {
    var nodes, lost := ChainOf(n), Name(MAX_WALK_DEPTH + 1);
    var g := ById(nodes);
    ChainById(n);
    var root := RootOf(g, nodes);
    assert nodes[0] == ChainNode(0) && root == ChainNode(0);
    ChainIsReachable(g, n, MAX_WALK_DEPTH + 1);
    BelowInPlace(g, n, Visit(root, RootPath(root), 0, root.id));
    AllInPlace(g, n, ChildVisits(g, root.childIds, RootPath(root), 0, 0, root.id), {root.id});
    forall v | v in Visits(nodes) ensures v.raw.id != lost {
      NamesDiffer(v.depth, MAX_WALK_DEPTH + 1);
    }
  }
}
