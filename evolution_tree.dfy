/**
 * The evolution tree panel: a forest (in practice one root) of lifeform
 * nodes, the node count and maximum generation it displays, and the two
 * buttons that add an evolved node under the root's first child or reset the
 * tree to a lone root.
 */
module EvolutionTree {
  import opened Common
  import opened JsText

  datatype Traits = Traits(color: CssColor, size: real, speed: real, pattern: string)

  /** A tree node; `parent` and `children` are optional fields in the source. */
  datatype Node = Node(
    id: string,
    parent: Option<string>,
    generation: int,
    traits: Traits,
    birthTime: int,
    children: ChildList)

  /** The optional `children` array: absent, or present (possibly empty). */
  datatype ChildList = Absent | Present(nodes: seq<Node>)

  function Children(n: Node): seq<Node> {
    match n.children
    case Present(cs) => cs
    case Absent => []
  }

  // ------------------------------------------------------------ statistics

  /** `countNodes`: one for the node plus the counts of its children. */
  function CountNodes(n: Node): (r: nat)
    ensures r >= 1
    decreases n, 1
  {
    match n.children
    case Absent => 1
    case Present(cs) => 1 + CountForest(cs)
  }

  /** The `reduce` over the children: the sum of their counts. */
  function CountForest(cs: seq<Node>): (r: nat)
    ensures |cs| > 0 ==> r >= |cs|
    decreases cs, 0
  {
    if cs == [] then 0 else CountNodes(cs[0]) + CountForest(cs[1..])
  }

  /** `getMaxGeneration`: `Math.max` of the node's generation and its children's maxima. */
  function MaxGeneration(n: Node): (r: int)
    ensures r >= n.generation
    decreases n, 1
  {
    match n.children
    case Absent => n.generation
    case Present(cs) => MaxForest(cs, n.generation)
  }

  /** The largest of `m` and the children's maxima. */
  function MaxForest(cs: seq<Node>, m: int): (r: int)
    ensures r >= m
    ensures forall k :: 0 <= k < |cs| ==> r >= MaxGeneration(cs[k])
    decreases cs, 0
  {
    if cs == [] then m
    else
      var rest := MaxForest(cs[1..], m);
      var here := MaxGeneration(cs[0]);
      var r := if here >= rest then here else rest;
      assert forall k :: 1 <= k < |cs| ==> cs[k] == cs[1..][k - 1];
      r
  }

  // -------------------------------------------- independent reference view

  /** The generations of all nodes, in preorder. */
  function Generations(n: Node): seq<int>
    decreases n, 1
  {
    match n.children
    case Absent => [n.generation]
    case Present(cs) => [n.generation] + ForestGenerations(cs)
  }

  function ForestGenerations(cs: seq<Node>): seq<int>
    decreases cs, 0
  {
    if cs == [] then [] else Generations(cs[0]) + ForestGenerations(cs[1..])
  }

  /** `countNodes` counts every node of the tree exactly once. */
  lemma {:induction false} CountIsSize(n: Node)
    ensures |Generations(n)| == CountNodes(n)
    decreases n, 1
  {
    match n.children
    case Absent =>
    case Present(cs) => ForestCountIsSize(cs);
  }

  lemma {:induction false} ForestCountIsSize(cs: seq<Node>)
    ensures |ForestGenerations(cs)| == CountForest(cs)
    decreases cs, 0
  {
    if cs != [] {
      CountIsSize(cs[0]);
      ForestCountIsSize(cs[1..]);
    }
  }

  /** `getMaxGeneration` is the largest generation in the tree, and one that occurs. */
  lemma {:induction false} MaxIsMaximum(n: Node)
    ensures forall g :: g in Generations(n) ==> g <= MaxGeneration(n)
    ensures MaxGeneration(n) in Generations(n)
    decreases n, 1
  {
    match n.children
    case Absent =>
    case Present(cs) => ForestMaxIsMaximum(cs, n.generation);
  }

  lemma {:induction false} ForestMaxIsMaximum(cs: seq<Node>, m: int)
    ensures forall g :: g in ForestGenerations(cs) ==> g <= MaxForest(cs, m)
    ensures MaxForest(cs, m) == m || MaxForest(cs, m) in ForestGenerations(cs)
    decreases cs, 0
  {
    if cs != [] {
      MaxIsMaximum(cs[0]);
      ForestMaxIsMaximum(cs[1..], m);
    }
  }

  // ------------------------------------------------------------ operations

  /**
   * The node `addEvolution` creates at time `now` from four `Math.random()`
   * draws: hue, size, speed and pattern.
   */
  function NewLifeform(now: nat, hue: real, size: real, speed: real, pattern: real): (n: Node)
    requires 0.0 <= hue < 1.0 && 0.0 <= size < 1.0 && 0.0 <= speed < 1.0 && 0.0 <= pattern < 1.0
    ensures n.id == "evolution_" + NatToString(now) && n.birthTime == now
    ensures n.parent == Some("child1") && n.generation == 2 && n.children == Absent
    ensures n.traits.color.Hsl? && 0.0 <= n.traits.color.hue < 360.0
    ensures 0.5 <= n.traits.size < 2.0 && 0.5 <= n.traits.speed < 2.5
    ensures n.traits.pattern == "wave" <==> pattern > 0.5
    ensures n.traits.pattern == "wave" || n.traits.pattern == "spiral"
    ensures CountNodes(n) == 1 && MaxGeneration(n) == 2
  {
    Node("evolution_" + NatToString(now), Some("child1"), 2,
         Traits(Hsl(hue * 360.0, 70, 60), 0.5 + size * 1.5, 0.5 + speed * 2.0,
                if pattern > 0.5 then "wave" else "spiral"),
         now, Absent)
  }

  predicate HasFirstChild(tree: seq<Node>)
    requires |tree| >= 1
  {
    |Children(tree[0])| >= 1
  }

  /**
   * The state update of `addEvolution`: when the root has a first child,
   * `node` goes at the end of that child's children (created if absent);
   * otherwise the tree is returned as it was.
   */
  function WithEvolution(tree: seq<Node>, node: Node): (r: seq<Node>)
    requires |tree| >= 1
    ensures |r| == |tree| && r[1..] == tree[1..]
    ensures !HasFirstChild(tree) ==> r == tree
    ensures HasFirstChild(tree) ==>
              var root, root' := tree[0], r[0];
              && root' == root.(children := root'.children)
              && |Children(root')| == |Children(root)|
              && Children(root')[1..] == Children(root)[1..]
              && Children(root')[0] == Children(root)[0].(children := Present(Children(Children(root)[0]) + [node]))
  {
    var root := tree[0];
    match root.children
    case Present(cs) =>
      if |cs| >= 1 then
        var child := cs[0];
        var child' := child.(children := Present(Children(child) + [node]));
        [root.(children := Present(cs[0 := child']))] + tree[1..]
      else
        tree
    case Absent => tree
  }

  lemma {:induction false} CountForestAppend(cs: seq<Node>, y: Node)
    ensures CountForest(cs + [y]) == CountForest(cs) + CountNodes(y)
    decreases |cs|
  {
    if cs != [] {
      assert (cs + [y])[1..] == cs[1..] + [y];
      CountForestAppend(cs[1..], y);
    }
  }

  lemma CountForestReplaceFirst(cs: seq<Node>, x: Node)
    requires |cs| >= 1
    ensures CountForest(cs[0 := x]) == CountForest(cs) - CountNodes(cs[0]) + CountNodes(x)
  {
    assert cs[0 := x][1..] == cs[1..];
  }

  /** Adding an evolution adds exactly the new node's count to the tree when it has a first child. */
  lemma AddEvolutionCount(tree: seq<Node>, node: Node)
    requires |tree| >= 1
    ensures HasFirstChild(tree) ==> CountNodes(WithEvolution(tree, node)[0]) == CountNodes(tree[0]) + CountNodes(node)
    ensures !HasFirstChild(tree) ==> CountNodes(WithEvolution(tree, node)[0]) == CountNodes(tree[0])
  {
    if HasFirstChild(tree) {
      var cs := Children(tree[0]);
      var child := cs[0];
      var child' := child.(children := Present(Children(child) + [node]));
      CountForestAppend(Children(child), node);
      assert CountNodes(child') == CountNodes(child) + CountNodes(node);
      CountForestReplaceFirst(cs, child');
    }
  }

  lemma {:induction false} MaxForestAppend(cs: seq<Node>, m: int, y: Node)
    ensures MaxForest(cs + [y], m) == Max(MaxForest(cs, m), MaxGeneration(y))
    decreases |cs|
  {
    if cs == [] {
      assert [y][1..] == [];
    } else {
      assert (cs + [y])[1..] == cs[1..] + [y];
      MaxForestAppend(cs[1..], m, y);
    }
  }

  lemma MaxForestReplaceFirst(cs: seq<Node>, m: int, x: Node, y: Node)
    requires |cs| >= 1 && MaxGeneration(x) == Max(MaxGeneration(cs[0]), MaxGeneration(y))
    ensures MaxForest(cs[0 := x], m) == Max(MaxForest(cs, m), MaxGeneration(y))
  {
    assert cs[0 := x][1..] == cs[1..];
  }

  function Max(a: int, b: int): int {
    if a >= b then a else b
  }

  /** After an evolution, the maximum generation is the larger of the old one and the new node's. */
  lemma AddEvolutionMaxGeneration(tree: seq<Node>, node: Node)
    requires |tree| >= 1 && HasFirstChild(tree)
    ensures MaxGeneration(WithEvolution(tree, node)[0]) == Max(MaxGeneration(tree[0]), MaxGeneration(node))
  {
    var cs := Children(tree[0]);
    var child := cs[0];
    var child' := child.(children := Present(Children(child) + [node]));
    MaxForestAppend(Children(child), child.generation, node);
    assert MaxGeneration(child') == Max(MaxGeneration(child), MaxGeneration(node));
    MaxForestReplaceFirst(cs, tree[0].generation, child', node);
  }

  /** `resetTree`'s tree: a lone root of generation 0 with an empty children list. */
  function ResetTreeData(now: int): (r: seq<Node>)
    ensures |r| == 1 && r[0].id == "root" && r[0].parent == None
    ensures CountNodes(r[0]) == 1 && MaxGeneration(r[0]) == 0
  {
    [Node("root", None, 0, Traits(Hex("#ffffff"), 1.0, 1.0, "wave"), now, Present([]))]
  }

  /** The tree the panel starts with: a root and two first-generation children. */
  function InitialTree(now: int): (r: seq<Node>)
    ensures |r| == 1 && HasFirstChild(r) && Children(r[0])[0].id == "child1"
    ensures CountNodes(r[0]) == 3 && MaxGeneration(r[0]) == 1
  {
    var child1 := Node("child1", Some("root"), 1, Traits(Hex("#ff6b6b"), 1.2, 1.1, "spiral"), now + 1000, Absent);
    var child2 := Node("child2", Some("root"), 1, Traits(Hex("#4ecdc4"), 0.8, 1.3, "wave"), now + 2000, Absent);
    assert [child1, child2][1..] == [child2];
    assert [child2][1..] == [];
    assert CountForest([child2]) == 1;
    assert CountForest([child1, child2]) == 2;
    assert MaxForest([child2], 0) == 1;
    assert MaxForest([child1, child2], 0) == 1;
    [Node("root", None, 0, Traits(Hex("#ffffff"), 1.0, 1.0, "wave"), now, Present([child1, child2]))]
  }

  /** From the initial tree, one evolution gives four nodes and maximum generation 2. */
  lemma FirstEvolution(now: nat, hue: real, size: real, speed: real, pattern: real)
    requires 0.0 <= hue < 1.0 && 0.0 <= size < 1.0 && 0.0 <= speed < 1.0 && 0.0 <= pattern < 1.0
    ensures var t := WithEvolution(InitialTree(now), NewLifeform(now, hue, size, speed, pattern));
            CountNodes(t[0]) == 4 && MaxGeneration(t[0]) == 2
  {
    var node := NewLifeform(now, hue, size, speed, pattern);
    AddEvolutionCount(InitialTree(now), node);
    AddEvolutionMaxGeneration(InitialTree(now), node);
  }

  /** The component's state: the forest and the selected node. */
  class Panel {
    var treeData: seq<Node>
    var selectedNode: Option<Node>

    predicate Valid()
      reads this
    {
      |treeData| >= 1
    }

    constructor(now: int)
      ensures Valid() && treeData == InitialTree(now) && selectedNode == None
    {
      treeData := InitialTree(now);
      selectedNode := None;
    }

    method AddEvolution(now: nat, hue: real, size: real, speed: real, pattern: real)
      requires Valid()
      requires 0.0 <= hue < 1.0 && 0.0 <= size < 1.0 && 0.0 <= speed < 1.0 && 0.0 <= pattern < 1.0
      modifies this
      ensures Valid()
      ensures treeData == WithEvolution(old(treeData), NewLifeform(now, hue, size, speed, pattern))
      ensures selectedNode == old(selectedNode)
    {
      var node := NewLifeform(now, hue, size, speed, pattern);
      treeData := WithEvolution(treeData, node);
    }

    method ResetTree(now: int)
      modifies this
      ensures Valid() && treeData == ResetTreeData(now) && selectedNode == None
    {
      treeData := ResetTreeData(now);
      selectedNode := None;
    }
  }
}
