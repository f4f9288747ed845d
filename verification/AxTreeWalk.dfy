/** The walk over a tree, by an explicit stack and no deeper than the cap, and what it
    sees of the trees built here. (src/page/a11y-types.ts) */
module AxTreeWalk {
  import opened Collections
  import opened Json
  import opened AxTree
  import opened AxTreeOrder
  import opened AxTreeRefs

  /** A node and how deep it is. */
  type Stop = (Node, nat)

  /** Pre-order down to the cap: a node at the cap is seen, and nothing below it. */
  function PreOrder(nodes: seq<Node>, depth: nat): seq<Stop>
    decreases nodes
  {
    if nodes == [] then [] else From(nodes[0], depth) + PreOrder(nodes[1..], depth)
  }

  function From(node: Node, depth: nat): seq<Stop>
    decreases node, 1
  {
    [(node, depth)] + Under(node, depth)
  }

  function Under(node: Node, depth: nat): seq<Stop>
    decreases node, 0
  {
    if depth >= MAX_WALK_DEPTH then [] else PreOrder(node.children, depth + 1)
  }

  /** What the stack still holds, its top at the end. */
  function Unstacked(stack: seq<Stop>): seq<Stop> {
    if stack == [] then []
    else From(stack[|stack| - 1].0, stack[|stack| - 1].1) + Unstacked(stack[..|stack| - 1])
  }

  lemma PushOne(stack: seq<Stop>, node: Node, depth: nat)
    ensures Unstacked(stack + [(node, depth)]) == From(node, depth) + Unstacked(stack)
  {
    assert (stack + [(node, depth)])[..|stack|] == stack;
  }

  /** The children are pushed last first, so that the first is popped next. */
  method PushChildren(stack: seq<Stop>, nodes: seq<Node>, depth: nat) returns (pushed: seq<Stop>)
    ensures Unstacked(pushed) == PreOrder(nodes, depth) + Unstacked(stack)
  {
    pushed := stack;
    for i := |nodes| downto 0
      invariant Unstacked(pushed) == PreOrder(nodes[i..], depth) + Unstacked(stack)
    {
      assert nodes[i..][0] == nodes[i] && nodes[i..][1..] == nodes[i + 1..];
      PushOne(pushed, nodes[i], depth);
      Regroup(From(nodes[i], depth), PreOrder(nodes[i + 1..], depth), Unstacked(stack));
      pushed := pushed + [(nodes[i], depth)];
    }
    assert nodes[0..] == nodes;
  }

  lemma PopOne(stack: seq<Stop>, rest: seq<Stop>, node: Node, depth: nat)
    requires stack == rest + [(node, depth)]
    ensures Unstacked(stack) == [(node, depth)] + (Under(node, depth) + Unstacked(rest))
  {
    PushOne(rest, node, depth);
    Regroup([(node, depth)], Under(node, depth), Unstacked(rest));
  }

  /** The stack's order is pre-order. */
  method Walk(root: Node) returns (seen: seq<Stop>)
    ensures seen == PreOrder([root], 0)
  {
    var stack: seq<Stop> := [(root, 0)];
    seen := [];
    assert stack[..0] == [];
    while |stack| > 0
      invariant seen + Unstacked(stack) == PreOrder([root], 0)
      decreases |Unstacked(stack)|
    {
      ghost var was, held := seen, stack;
      var next := stack[|stack| - 1];
      stack := stack[..|stack| - 1];
      PopOne(held, stack, next.0, next.1);
      seen := seen + [next];
      if next.1 < MAX_WALK_DEPTH {
        stack := PushChildren(stack, next.0.children, next.1 + 1);
      }
      assert Unstacked(held) == [next] + Unstacked(stack);
      Regroup(was, [next], Unstacked(stack));
    }
  }

  // ---------- the cap is never met on these trees ----------

  /** No more than `k` levels. */
  predicate Fits(nodes: seq<Node>, k: nat) {
    nodes == [] || (k > 0 && Fits(nodes[0].children, k - 1) && Fits(nodes[1..], k))
  }

  lemma {:induction false} FitsMore(nodes: seq<Node>, k: nat)
    requires Fits(nodes, k)
    ensures Fits(nodes, k + 1)
  {
    if nodes != [] {
      FitsMore(nodes[0].children, k - 1);
      FitsMore(nodes[1..], k);
    }
  }

  lemma {:induction false} FitsJoin(a: seq<Node>, b: seq<Node>, k: nat)
    requires Fits(a, k) && Fits(b, k)
    ensures Fits(a + b, k)
  {
    if a == [] {
      assert a + b == b;
    } else {
      FitsJoin(a[1..], b, k);
      assert (a + b)[0] == a[0] && (a + b)[1..] == a[1..] + b;
    }
  }

  lemma {:induction false} ConvertFits(g: Graph, keys: Keys, raw: Raw, path: Path, depth: nat, c: Carry)
    requires Keyed(g) && raw.id in g && depth <= MAX_WALK_DEPTH
    ensures Fits(Convert(g, keys, raw, path, depth, c).0, MAX_WALK_DEPTH - depth + 1)
    decreases Left(g, c), 0
  {
    if raw.id !in c.seen {
      LeftShrinks(g, c.seen, raw.id);
      var met := c.(seen := c.seen + {raw.id});
      var r := Convert(g, keys, raw, path, depth, c).0;
      if Dropped(raw) {
        if depth < MAX_WALK_DEPTH {
          ChildrenFit(g, keys, raw.childIds, path, depth, 0, met);
          FitsMore(r, MAX_WALK_DEPTH - depth);
        }
      } else {
        var minted := met.(reg := ForKey(met.reg, keys(KeyOf(raw, path))));
        if depth < MAX_WALK_DEPTH { ChildrenFit(g, keys, raw.childIds, path, depth, 0, minted); }
        OneFits(r[0], MAX_WALK_DEPTH - depth);
        assert r == [r[0]];
      }
    }
  }

  lemma OneFits(node: Node, k: nat)
    requires Fits(node.children, k)
    ensures Fits([node], k + 1)
  {
    assert [node][1..] == [];
  }

  lemma {:induction false} ChildrenFit(g: Graph, keys: Keys, cids: seq<Id>, path: Path, depth: nat, i: nat, c: Carry)
    requires Keyed(g) && depth < MAX_WALK_DEPTH
    ensures Fits(ConvertChildren(g, keys, cids, path, depth, i, c).0, MAX_WALK_DEPTH - depth)
    decreases Left(g, c), |cids|
  {
    if cids == [] {
    } else if cids[0] !in g {
      ChildrenFit(g, keys, cids[1..], path, depth, i, c);
    } else {
      var (nodes, d) := Convert(g, keys, g[cids[0]], ChildPath(path, g[cids[0]], i), depth + 1, c);
      ConvertFits(g, keys, g[cids[0]], ChildPath(path, g[cids[0]], i), depth + 1, c);
      LeftOrder(g, c.seen, d.seen);
      ChildrenFit(g, keys, cids[1..], path, depth, i + 1, d);
      FitsJoin(nodes, ConvertChildren(g, keys, cids[1..], path, depth, i + 1, d).0, MAX_WALK_DEPTH - depth);
    }
  }

  /** What a list of stops shows, without whose child each is. */
  function Shown(stops: seq<Stop>): seq<(Id, KeyInput, nat)> {
    seq(|stops|, k requires 0 <= k < |stops| => (stops[k].0.id, stops[k].0.key, stops[k].0.ref))
  }

  function Entries(lines: seq<Line>): seq<(Id, KeyInput, nat)> {
    seq(|lines|, k requires 0 <= k < |lines| => (lines[k].id, lines[k].key, lines[k].ref))
  }

  lemma {:induction false} PreOrderIsFlat(nodes: seq<Node>, depth: nat, parent: Id)
    requires depth <= MAX_WALK_DEPTH + 1 && Fits(nodes, MAX_WALK_DEPTH - depth + 1)
    ensures Shown(PreOrder(nodes, depth)) == Entries(Flat(nodes, parent))
  {
    if nodes != [] {
      PreOrderIsFlat(nodes[0].children, depth + 1, nodes[0].id);
      PreOrderIsFlat(nodes[1..], depth, parent);
      var below := Under(nodes[0], depth);
      assert Shown(below) == Entries(Flat(nodes[0].children, nodes[0].id));
      ShownJoins([(nodes[0], depth)] + below, PreOrder(nodes[1..], depth));
      ShownJoins([(nodes[0], depth)], below);
      var line := Line(nodes[0].id, nodes[0].key, nodes[0].ref, parent);
      EntriesJoin([line] + Flat(nodes[0].children, nodes[0].id), Flat(nodes[1..], parent));
      EntriesJoin([line], Flat(nodes[0].children, nodes[0].id));
    }
  }

  lemma ShownJoins(a: seq<Stop>, b: seq<Stop>)
    ensures Shown(a + b) == Shown(a) + Shown(b)
  {
  }

  lemma EntriesJoin(a: seq<Line>, b: seq<Line>)
    ensures Entries(a + b) == Entries(a) + Entries(b)
  {
  }

  /** A walk over a tree built here leaves nothing out: it sees the root and every kept
      node, in the order in which they were met and got their refs. */
  lemma WalkOmitsNothing(nodes: seq<Raw>, keys: Keys, reg: Registry)
    requires nodes != []
    ensures Shown(PreOrder([Tree(nodes, keys, reg).0.value], 0)) == Entries(TreeLines(nodes, keys, reg))
  {
    var tree, root := Tree(nodes, keys, reg).0.value, RootOf(ById(nodes), nodes);
    ChildrenFit(ById(nodes), keys, root.childIds, RootPath(root), 0, 0,
                Carry({root.id}, ForKey(reg, keys(RootKey(nodes)))));
    assert Fits([tree], MAX_WALK_DEPTH + 1);
    PreOrderIsFlat([tree], 0, tree.id);
    assert Flat([tree], tree.id) == TreeLines(nodes, keys, reg);
  }
}
