/** Refs across snapshots: a node's key does not depend on what is ignored, so its ref
    holds while wrappers flip. (src/page/a11y.ts, src/page/refs.ts) */
module AxTreeRefs {
  import opened Json
  import opened AxTree
  import opened AxTreeOrder

  // ---------- what a line says ----------

  /** A registry with every ref the first has. */
  predicate Extends(reg: Registry, more: Registry) {
    forall k :: k in reg.refByKey ==> k in more.refByKey && more.refByKey[k] == reg.refByKey[k]
  }

  lemma {:induction false} MintExtends(reg: Registry, keys: Keys, vs: seq<Visit>)
    ensures Extends(reg, Mint(reg, keys, vs))
    decreases |vs|
  {
    if vs != [] {
      MintExtends(if Dropped(vs[0].raw) then reg else ForKey(reg, keys(KeyOf(vs[0].raw, vs[0].path))), keys, vs[1..]);
    }
  }

  /** The line is of this kept visit. */
  predicate Of(l: Line, v: Visit) {
    !Dropped(v.raw) && l.id == v.raw.id && l.key == KeyOf(v.raw, v.path) && l.parent == v.anchor
  }

  predicate Recorded(reg: Registry, keys: Keys, l: Line) {
    keys(l.key) in reg.refByKey && reg.refByKey[keys(l.key)] == l.ref
  }

  lemma {:induction false} LinesAreTheKept(reg: Registry, keys: Keys, vs: seq<Visit>)
    ensures forall l :: l in Lines(reg, keys, vs) ==>
              Recorded(Mint(reg, keys, vs), keys, l) && exists v :: v in vs && Of(l, v)
    ensures forall v :: v in vs && !Dropped(v.raw) ==> exists l :: l in Lines(reg, keys, vs) && Of(l, v)
    decreases |vs|
  {
    if vs != [] {
      var v, key := vs[0], keys(KeyOf(vs[0].raw, vs[0].path));
      var next := if Dropped(v.raw) then reg else ForKey(reg, key);
      var rest := Lines(next, keys, vs[1..]);
      LinesAreTheKept(next, keys, vs[1..]);
      MintExtends(next, keys, vs[1..]);
      assert vs == [v] + vs[1..];
      if !Dropped(v.raw) {
        var l := Line(v.raw.id, KeyOf(v.raw, v.path), RefOf(reg, key), v.anchor);
        assert Lines(reg, keys, vs) == [l] + rest && Of(l, v);
        assert l in Lines(reg, keys, vs) && forall m :: m in rest ==> m in Lines(reg, keys, vs);
      }
    }
  }

  /** The tree in pre-order, the root under itself. */
  function TreeLines(nodes: seq<Raw>, keys: Keys, reg: Registry): seq<Line>
    requires nodes != []
  {
    var tree := Tree(nodes, keys, reg).0.value;
    [Line(tree.id, tree.key, tree.ref, tree.id)] + Flat(tree.children, tree.id)
  }

  /** A line is the root's or a kept visit's, and its ref is the one on record. */
  lemma TreeLinesAre(nodes: seq<Raw>, keys: Keys, reg: Registry, l: Line)
    requires nodes != [] && l in TreeLines(nodes, keys, reg)
    ensures Recorded(Tree(nodes, keys, reg).1, keys, l)
    ensures (l.id == RootId(nodes) && l.key == RootKey(nodes)) || exists v :: v in Visits(nodes) && Of(l, v)
  {
    TreeIsTheKeptVisits(nodes, keys, reg);
    var key := keys(RootKey(nodes));
    LinesAreTheKept(ForKey(reg, key), keys, Visits(nodes));
    MintExtends(ForKey(reg, key), keys, Visits(nodes));
  }

  /** A node other than the root has an entry exactly when it was met and is not dropped. */
  lemma KeptExactly(nodes: seq<Raw>, keys: Keys, reg: Registry, id: Id)
    requires nodes != [] && id != RootId(nodes)
    ensures (exists l :: l in TreeLines(nodes, keys, reg) && l.id == id)
            <==> exists v :: v in Visits(nodes) && v.raw.id == id && !Dropped(v.raw)
  {
    TreeIsTheKeptVisits(nodes, keys, reg);
    LinesAreTheKept(ForKey(reg, keys(RootKey(nodes))), keys, Visits(nodes));
    var lines := Lines(ForKey(reg, keys(RootKey(nodes))), keys, Visits(nodes));
    forall l | l in TreeLines(nodes, keys, reg) && l.id == id
      ensures exists v :: v in Visits(nodes) && v.raw.id == id && !Dropped(v.raw)
    {
      assert l in lines;
    }
    forall v | v in Visits(nodes) && v.raw.id == id && !Dropped(v.raw)
      ensures exists l :: l in TreeLines(nodes, keys, reg) && l.id == id
    {
      var l :| l in lines && Of(l, v);
      assert l in TreeLines(nodes, keys, reg);
    }
  }

  // ---------- graphs that differ in what is ignored ----------

  predicate Same(r: Raw, q: Raw) { r.(ignored := q.ignored) == q }

  ghost predicate SameGraph(g: Graph, h: Graph) { g.Keys == h.Keys && forall id :: id in g ==> Same(g[id], h[id]) }

  predicate SameNodes(a: seq<Raw>, b: seq<Raw>) {
    |a| == |b| && forall k :: 0 <= k < |a| ==> Same(a[k], b[k])
  }

  lemma {:induction false} ByIdSame(a: seq<Raw>, b: seq<Raw>)
    requires SameNodes(a, b)
    ensures SameGraph(ById(a), ById(b))
  {
    if a != [] {
      ByIdSame(a[..|a| - 1], b[..|b| - 1]);
      assert Same(a[|a| - 1], b[|b| - 1]);
    }
  }

  lemma {:induction false} FirstRootSame(g: Graph, h: Graph, a: seq<Raw>, b: seq<Raw>, x: Raw, y: Raw)
    requires SameGraph(g, h) && SameNodes(a, b) && Same(x, y)
    ensures Same(FirstRoot(g, a, x), FirstRoot(h, b, y))
  {
    if a != [] {
      assert Same(a[0], b[0]);
      FirstRootSame(g, h, a[1..], b[1..], x, y);
    }
  }

  predicate Twin(v: Visit, w: Visit) { Same(v.raw, w.raw) && v.path == w.path && v.depth == w.depth }

  predicate Twins(a: seq<Visit>, b: seq<Visit>) {
    |a| == |b| && forall k :: 0 <= k < |a| ==> Twin(a[k], b[k])
  }

  lemma {:induction false} ChildVisitsTwins(
    g: Graph, h: Graph, cids: seq<Id>, path: Path, depth: nat, i: nat, x: Id, y: Id)
    requires Keyed(g) && Keyed(h) && SameGraph(g, h)
    ensures Twins(ChildVisits(g, cids, path, depth, i, x), ChildVisits(h, cids, path, depth, i, y))
  {
    if cids != [] {
      if cids[0] !in g { ChildVisitsTwins(g, h, cids[1..], path, depth, i, x, y); }
      else { ChildVisitsTwins(g, h, cids[1..], path, depth, i + 1, x, y); }
    }
  }

  lemma TwinsJoin(a: seq<Visit>, b: seq<Visit>, c: seq<Visit>, d: seq<Visit>)
    requires Twins(a, b) && Twins(c, d)
    ensures Twins(a + c, b + d)
  {
  }

  lemma {:induction false} DfsTwins(g: Graph, h: Graph, a: seq<Visit>, b: seq<Visit>, seen: set<Id>)
    requires Keyed(g) && Keyed(h) && SameGraph(g, h) && Twins(a, b)
    ensures Twins(Dfs(g, a, seen), Dfs(h, b, seen))
    decreases |g.Keys - seen|, |a|
  {
    if a != [] {
      var v, w := a[0], b[0];
      assert Twin(v, w);
      if v.raw.id in seen || v.raw.id !in g {
        DfsTwins(g, h, a[1..], b[1..], seen);
      } else {
        LeftShrinks(g, seen, v.raw.id);
        ChildVisitsTwins(g, h, v.raw.childIds, v.path, v.depth, 0, Anchor(v), Anchor(w));
        TwinsJoin(Below(g, v), Below(h, w), a[1..], b[1..]);
        DfsTwins(g, h, Below(g, v) + a[1..], Below(h, w) + b[1..], seen + {v.raw.id});
        TwinsJoin([v], [w], Dfs(g, Below(g, v) + a[1..], seen + {v.raw.id}),
                  Dfs(h, Below(h, w) + b[1..], seen + {v.raw.id}));
      }
    }
  }

  /** The nodes are met in the same order, by the same paths, whatever is ignored. */
  lemma VisitsTwins(a: seq<Raw>, b: seq<Raw>)
    requires a != [] && SameNodes(a, b)
    ensures Twins(Visits(a), Visits(b)) && RootId(a) == RootId(b) && RootKey(a) == RootKey(b)
  {
    var g, h := ById(a), ById(b);
    ByIdSame(a, b);
    assert Same(a[0], b[0]);
    FirstRootSame(g, h, a, b, a[0], b[0]);
    var r, q := RootOf(g, a), RootOf(h, b);
    ChildVisitsTwins(g, h, r.childIds, RootPath(r), 0, 0, r.id, q.id);
    DfsTwins(g, h, ChildVisits(g, r.childIds, RootPath(r), 0, 0, r.id),
             ChildVisits(h, q.childIds, RootPath(q), 0, 0, q.id), {r.id});
  }

  /** Every node below the root is met once, and the root not again. */
  lemma MetOnce(nodes: seq<Raw>)
    requires nodes != []
    ensures Fresh(ById(nodes), Visits(nodes), {RootId(nodes)})
  {
    var g, root := ById(nodes), RootOf(ById(nodes), nodes);
    EachIsMetOnce(g, ChildVisits(g, root.childIds, RootPath(root), 0, 0, root.id), {root.id});
  }

  lemma TwinKeys(g: Graph, a: seq<Visit>, b: seq<Visit>, seen: set<Id>, v: Visit, w: Visit)
    requires Twins(a, b) && Fresh(g, b, seen) && v in a && w in b && v.raw.id == w.raw.id
    ensures KeyOf(v.raw, v.path) == KeyOf(w.raw, w.path)
  {
    var i :| 0 <= i < |a| && a[i] == v;
    var j :| 0 <= j < |b| && b[j] == w;
    assert Twin(a[i], b[i]);
    assert b[i].raw.id == b[j].raw.id;
  }

  lemma SameKey(a: seq<Raw>, b: seq<Raw>, keys: Keys, reg: Registry, later: Registry, l: Line, m: Line)
    requires a != [] && SameNodes(a, b)
    requires l in TreeLines(a, keys, reg) && m in TreeLines(b, keys, later) && l.id == m.id
    ensures l.key == m.key
  {
    TreeLinesAre(a, keys, reg, l);
    TreeLinesAre(b, keys, later, m);
    VisitsTwins(a, b);
    MetOnce(a);
    MetOnce(b);
    if l.id != RootId(a) {
      var v :| v in Visits(a) && Of(l, v);
      var w :| w in Visits(b) && Of(m, w);
      TwinKeys(ById(b), Visits(a), Visits(b), {RootId(b)}, v, w);
    }
  }

  lemma TreeExtends(nodes: seq<Raw>, keys: Keys, reg: Registry)
    requires nodes != []
    ensures Extends(reg, Tree(nodes, keys, reg).1)
  {
    TreeIsTheKeptVisits(nodes, keys, reg);
    MintExtends(ForKey(reg, keys(RootKey(nodes))), keys, Visits(nodes));
  }

  lemma SameRef(a: seq<Raw>, b: seq<Raw>, keys: Keys, reg: Registry, later: Registry, l: Line, m: Line)
    requires a != [] && b != [] && l.key == m.key && Extends(Tree(a, keys, reg).1, later)
    requires l in TreeLines(a, keys, reg) && m in TreeLines(b, keys, later)
    ensures l.ref == m.ref
  {
    TreeLinesAre(a, keys, reg, l);
    TreeLinesAre(b, keys, later, m);
    TreeExtends(b, keys, later);
  }

  lemma BothHold(a: seq<Raw>, b: seq<Raw>, keys: Keys, reg: Registry, later: Registry, l: Line, m: Line)
    requires a != [] && SameNodes(a, b) && Extends(Tree(a, keys, reg).1, later)
    requires l in TreeLines(a, keys, reg) && m in TreeLines(b, keys, later) && l.id == m.id
    ensures l.key == m.key && l.ref == m.ref
  {
    SameKey(a, b, keys, reg, later, l, m);
    SameRef(a, b, keys, reg, later, l, m);
  }

  /** Two snapshots of graphs that differ only in what is ignored give a node that both
      show the same key, and the same ref, however many snapshots came between. */
  lemma {:induction false} RefsHoldWhileWrappersFlip(
    a: seq<Raw>, b: seq<Raw>, keys: Keys, reg: Registry, later: Registry, l: Line, m: Line)
    requires a != [] && SameNodes(a, b)
    ensures Extends(Tree(a, keys, reg).1, later) && l.id == m.id
            && l in TreeLines(a, keys, reg) && m in TreeLines(b, keys, later) ==>
              l.key == m.key && l.ref == m.ref
  {
    if Extends(Tree(a, keys, reg).1, later) && l.id == m.id
       && l in TreeLines(a, keys, reg) && m in TreeLines(b, keys, later) {
      BothHold(a, b, keys, reg, later, l, m);
    }
  }

  // ---------- refs tell keys apart ----------

  /** No ref beyond the counter, and none for two keys. */
  ghost predicate Sound(reg: Registry) {
    && (forall k :: k in reg.refByKey ==> 0 < reg.refByKey[k] <= reg.counter)
    && (forall j, k :: j in reg.refByKey && k in reg.refByKey && j != k ==> reg.refByKey[j] != reg.refByKey[k])
  }

  lemma {:induction false} MintStaysSound(reg: Registry, keys: Keys, vs: seq<Visit>)
    requires Sound(reg)
    ensures Sound(Mint(reg, keys, vs))
    decreases |vs|
  {
    if vs != [] {
      MintStaysSound(if Dropped(vs[0].raw) then reg else ForKey(reg, keys(KeyOf(vs[0].raw, vs[0].path))),
                     keys, vs[1..]);
    }
  }

  /** Two entries share a ref exactly when their keys are the same. */
  lemma RefsTellKeysApart(nodes: seq<Raw>, keys: Keys, reg: Registry, l: Line, m: Line)
    requires nodes != [] && Sound(reg) && l in TreeLines(nodes, keys, reg) && m in TreeLines(nodes, keys, reg)
    ensures l.ref == m.ref <==> keys(l.key) == keys(m.key)
    ensures Sound(Tree(nodes, keys, reg).1)
  {
    TreeIsTheKeptVisits(nodes, keys, reg);
    MintStaysSound(ForKey(reg, keys(RootKey(nodes))), keys, Visits(nodes));
    TreeLinesAre(nodes, keys, reg, l);
    TreeLinesAre(nodes, keys, reg, m);
  }
}
