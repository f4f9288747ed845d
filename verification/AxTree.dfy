/** The accessibility tree: an arbitrary graph of raw nodes becomes a tree with the
    ignored ones spliced out, each kept node with a ref that holds across snapshots.
    (src/page/a11y.ts, src/page/a11y-types.ts) */
module AxTree {
  import opened Collections
  import opened Json

  type Id = string

  datatype Raw = Raw(
    id: Id, parent: Option<Id>, ignored: bool, role: Option<string>, name: Option<string>, childIds: seq<Id>)

  type Graph = map<Id, Raw>

  /** A role and the place among the siblings that exist; the root has no place. */
  datatype Segment = Segment(role: string, place: Option<nat>)

  type Path = seq<Segment>

  /** What `elementKey` is given. */
  datatype KeyInput = KeyInput(role: string, name: Option<string>, path: Path)

  /** `elementKey`: some function, which may give two inputs one key. */
  type Keys = KeyInput -> string

  /** The refs given out, `eN` by its number. */
  datatype Registry = Registry(counter: nat, refByKey: map<string, nat>)

  datatype Node = Node(id: Id, key: KeyInput, ref: nat, children: seq<Node>)

  const MAX_WALK_DEPTH := 2000

  /** A node that adds no entry of its own. */
  predicate Dropped(raw: Raw) { raw.ignored || raw.role == Some("InlineTextBox") }

  function Or(role: Option<string>, otherwise: string): string { if role.Some? then role.value else otherwise }

  function KeyOf(raw: Raw, path: Path): KeyInput { KeyInput(Or(raw.role, "generic"), raw.name, path) }

  /** `RefRegistry.forKey`: a key that has a ref keeps it. */
  function ForKey(reg: Registry, key: string): Registry {
    if key in reg.refByKey then reg else Registry(reg.counter + 1, reg.refByKey[key := reg.counter + 1])
  }

  function RefOf(reg: Registry, key: string): nat { if key in reg.refByKey then reg.refByKey[key] else reg.counter + 1 }

  /** The last node with an id is the one found by it. */
  function ById(nodes: seq<Raw>): (g: Graph)
    ensures forall id :: id in g ==> g[id].id == id
    ensures forall raw :: raw in nodes ==> raw.id in g
  {
    if nodes == [] then map[]
    else
      var last := nodes[|nodes| - 1];
      ById(nodes[..|nodes| - 1])[last.id := last]
  }

  /** Of the nodes with one id the last is found by it, and an id with no node finds none. */
  lemma {:induction false} LastOneIsFound(nodes: seq<Raw>, id: Id)
    ensures id in ById(nodes) <==> exists i :: 0 <= i < |nodes| && nodes[i].id == id
    ensures id in ById(nodes) ==>
              exists i :: 0 <= i < |nodes| && nodes[i].id == id && ById(nodes)[id] == nodes[i]
                          && forall j :: i < j < |nodes| ==> nodes[j].id != id
  {
    if nodes != [] {
      LastOneIsFound(nodes[..|nodes| - 1], id);
      assert nodes[|nodes| - 1] in nodes;
    }
  }

  predicate IsRoot(g: Graph, raw: Raw) { raw.parent.None? || raw.parent.value == "" || raw.parent.value !in g }

  /** The first node with no parent here, and without one the first. */
  function RootOf(g: Graph, nodes: seq<Raw>): (root: Raw)
    requires nodes != []
    ensures root in nodes
  {
    FirstRoot(g, nodes, nodes[0])
  }

  function FirstRoot(g: Graph, nodes: seq<Raw>, otherwise: Raw): (root: Raw)
    ensures root in nodes || root == otherwise
  {
    if nodes == [] then otherwise
    else if IsRoot(g, nodes[0]) then nodes[0]
    else FirstRoot(g, nodes[1..], otherwise)
  }

  lemma {:induction false} FirstRootIs(g: Graph, nodes: seq<Raw>, otherwise: Raw)
    ensures || (FirstRoot(g, nodes, otherwise) == otherwise && forall raw :: raw in nodes ==> !IsRoot(g, raw))
            || exists i :: 0 <= i < |nodes| && FirstRoot(g, nodes, otherwise) == nodes[i] && IsRoot(g, nodes[i])
                           && forall j :: 0 <= j < i ==> !IsRoot(g, nodes[j])
  {
    if nodes != [] && !IsRoot(g, nodes[0]) {
      FirstRootIs(g, nodes[1..], otherwise);
      var rest := nodes[1..];
      if exists i :: 0 <= i < |rest| && FirstRoot(g, rest, otherwise) == rest[i] && IsRoot(g, rest[i])
                     && forall j :: 0 <= j < i ==> !IsRoot(g, rest[j]) {
        var i :| 0 <= i < |rest| && FirstRoot(g, rest, otherwise) == rest[i] && IsRoot(g, rest[i])
                 && forall j :: 0 <= j < i ==> !IsRoot(g, rest[j]);
        forall j | 0 <= j < i + 1 ensures !IsRoot(g, nodes[j]) {
          if j > 0 { assert nodes[j] == rest[j - 1]; }
        }
        assert nodes[i + 1] == rest[i];
      }
    }
  }

  /** The root is the first node with no parent among these, or the first of all when
      every node has one. */
  lemma RootIsTheFirst(g: Graph, nodes: seq<Raw>)
    requires nodes != []
    ensures || (RootOf(g, nodes) == nodes[0] && forall raw :: raw in nodes ==> !IsRoot(g, raw))
            || exists i :: 0 <= i < |nodes| && RootOf(g, nodes) == nodes[i] && IsRoot(g, nodes[i])
                           && forall j :: 0 <= j < i ==> !IsRoot(g, nodes[j])
  {
    FirstRootIs(g, nodes, nodes[0]);
  }

  // ---------- the recursion ----------

  ghost predicate Keyed(g: Graph) { forall id :: id in g ==> g[id].id == id }

  /** What the recursion carries along: the ids it met and the refs it gave. */
  datatype Carry = Carry(seen: set<Id>, reg: Registry)

  function Left(g: Graph, c: Carry): nat { |g.Keys - c.seen| }

  lemma LeftShrinks(g: Graph, seen: set<Id>, id: Id)
    requires id in g && id !in seen
    ensures |g.Keys - (seen + {id})| < |g.Keys - seen|
  {
    assert g.Keys - seen == (g.Keys - (seen + {id})) + {id};
  }

  lemma LeftOrder(g: Graph, seen: set<Id>, more: set<Id>)
    requires seen <= more
    ensures |g.Keys - more| <= |g.Keys - seen|
  {
    SubsetSize(g.Keys - more, g.Keys - seen);
  }

  function Convert(g: Graph, keys: Keys, raw: Raw, path: Path, depth: nat, c: Carry): (r: (seq<Node>, Carry))
    requires Keyed(g) && raw.id in g
    ensures c.seen <= r.1.seen
    decreases Left(g, c), 0
  {
    if raw.id in c.seen then ([], c)
    else
      LeftShrinks(g, c.seen, raw.id);
      var met := c.(seen := c.seen + {raw.id});
      if Dropped(raw) then
        if depth >= MAX_WALK_DEPTH then ([], met) else ConvertChildren(g, keys, raw.childIds, path, depth, 0, met)
      else
        var key := keys(KeyOf(raw, path));
        var minted := met.(reg := ForKey(met.reg, key));
        var (children, d) := if depth >= MAX_WALK_DEPTH then ([], minted)
                             else ConvertChildren(g, keys, raw.childIds, path, depth, 0, minted);
        ([Node(raw.id, KeyOf(raw, path), RefOf(met.reg, key), children)], d)
  }

  function ConvertChildren(g: Graph, keys: Keys, cids: seq<Id>, path: Path, depth: nat, i: nat, c: Carry)
    : (r: (seq<Node>, Carry))
    requires Keyed(g)
    ensures c.seen <= r.1.seen
    decreases Left(g, c), |cids|
  {
    if cids == [] then ([], c)
    else if cids[0] !in g then ConvertChildren(g, keys, cids[1..], path, depth, i, c)
    else
      var (nodes, d) := Convert(g, keys, g[cids[0]], ChildPath(path, g[cids[0]], i), depth + 1, c);
      LeftOrder(g, c.seen, d.seen);
      var (rest, e) := ConvertChildren(g, keys, cids[1..], path, depth, i + 1, d);
      (nodes + rest, e)
  }

  lemma ChildStep(g: Graph, keys: Keys, cids: seq<Id>, k: nat, path: Path, depth: nat, i: nat, c: Carry)
    requires Keyed(g) && k < |cids|
    ensures var r, tail := ConvertChildren(g, keys, cids[k..], path, depth, i, c), cids[k + 1..];
            if cids[k] !in g then r == ConvertChildren(g, keys, tail, path, depth, i, c)
            else
              var child := Convert(g, keys, g[cids[k]], ChildPath(path, g[cids[k]], i), depth + 1, c);
              var rest := ConvertChildren(g, keys, tail, path, depth, i + 1, child.1);
              r == (child.0 + rest.0, rest.1)
  {
    assert cids[k..][0] == cids[k] && cids[k..][1..] == cids[k + 1..];
  }

  function ChildPath(path: Path, child: Raw, i: nat): Path { path + [Segment(Or(child.role, "generic"), Some(i))] }

  function RootPath(root: Raw): Path { [Segment(Or(root.role, "root"), None)] }

  /** The tree of a page, and the registry once its refs are given. */
  function Tree(nodes: seq<Raw>, keys: Keys, reg: Registry): (Option<Node>, Registry) {
    if nodes == [] then (None, reg)
    else
      var g := ById(nodes);
      var root := RootOf(g, nodes);
      var key := keys(KeyOf(root, RootPath(root)));
      var (children, c) := ConvertChildren(g, keys, root.childIds, RootPath(root), 0, 0,
                                           Carry({root.id}, ForKey(reg, key)));
      (Some(Node(root.id, KeyOf(root, RootPath(root)), RefOf(reg, key), children)), c.reg)
  }

  // ---------- the code ----------

  class TreeBuilder {
    const keys: Keys
    var byId: Graph
    var seen: set<Id>
    var reg: Registry

    ghost function St(): Carry
      reads this
    {
      Carry(seen, reg)
    }

    constructor (keys: Keys, reg: Registry)
      ensures this.keys == keys && this.reg == reg && seen == {} && byId == map[]
    {
      this.keys, this.reg, seen, byId := keys, reg, {}, map[];
    }

    /** The node with no children yet; its ref is given before theirs. */
    method Materialise(raw: Raw, path: Path) returns (node: Node)
      modifies this`reg
      ensures reg == ForKey(old(reg), keys(KeyOf(raw, path)))
      ensures node == Node(raw.id, KeyOf(raw, path), RefOf(old(reg), keys(KeyOf(raw, path))), [])
    {
      var key := keys(KeyOf(raw, path));
      node := Node(raw.id, KeyOf(raw, path), RefOf(reg, key), []);
      reg := ForKey(reg, key);
    }

    method ConvertNode(raw: Raw, path: Path, depth: nat) returns (out: seq<Node>)
      requires Keyed(byId) && raw.id in byId
      modifies this`seen, this`reg
      ensures (out, St()) == Convert(byId, keys, raw, path, depth, old(St()))
      decreases |byId.Keys - seen|, 0
    {
      out := [];
      if raw.id !in seen {
        LeftShrinks(byId, seen, raw.id);
        seen := seen + {raw.id};
        if Dropped(raw) {
          if depth < MAX_WALK_DEPTH { out := ConvertNodes(raw.childIds, path, depth); }
        } else {
          var node := Materialise(raw, path);
          if depth < MAX_WALK_DEPTH {
            var children := ConvertNodes(raw.childIds, path, depth);
            node := node.(children := children);
          }
          out := [node];
        }
      }
    }

    method ConvertNodes(cids: seq<Id>, path: Path, depth: nat) returns (out: seq<Node>)
      requires Keyed(byId)
      modifies this`seen, this`reg
      ensures (out, St()) == ConvertChildren(byId, keys, cids, path, depth, 0, old(St()))
      decreases |byId.Keys - seen|, 1
    {
      out := [];
      var i := 0;
      ghost var was, goal := seen, ConvertChildren(byId, keys, cids, path, depth, 0, St());
      assert cids[0..] == cids;
      for k := 0 to |cids|
        invariant was <= seen
        invariant out + ConvertChildren(byId, keys, cids[k..], path, depth, i, St()).0 == goal.0
        invariant ConvertChildren(byId, keys, cids[k..], path, depth, i, St()).1 == goal.1
      {
        ChildStep(byId, keys, cids, k, path, depth, i, St());
        if cids[k] in byId {
          LeftOrder(byId, was, seen);
          var c := byId[cids[k]];
          ghost var done := out;
          var nodes := ConvertNode(c, ChildPath(path, c, i), depth + 1);
          out := out + nodes;
          i := i + 1;
          Regroup(done, nodes, ConvertChildren(byId, keys, cids[k + 1..], path, depth, i, St()).0);
        }
      }
      assert cids[|cids|..] == [] && out + [] == out;
      assert goal == (goal.0, goal.1) == (out, St());
    }

    method GetTree(nodes: seq<Raw>) returns (tree: Option<Node>)
      modifies this
      ensures (tree, reg) == Tree(nodes, keys, old(reg))
    {
      tree := None;
      if nodes != [] {
        byId := ById(nodes);
        var root := RootOf(byId, nodes);
        seen := {root.id};
        var node := Materialise(root, RootPath(root));
        var children := ConvertNodes(root.childIds, RootPath(root), 0);
        tree := Some(node.(children := children));
      }
    }
  }
}
