/**
 The heap of JSON handles as a forest.

 A node owns the nodes its array or object refers to. `parent` says who owns whom
 and `rank` falls from owner to owned, so ownership has no cycle. `Tree` is one
 node with everything below it.
 */
module JsonForest {
  import opened JsonValues

  type Ptr = nat

  const NULL: Ptr := 0

  datatype Node =
    | NullNode
    | BoolNode(b: bool)
    | NumberNode(x: Double)
    | StringNode(s: string)
    | ArrayNode(items: seq<Ptr>)
    | ObjectNode(fields: map<string, Ptr>)

  type Heap = map<Ptr, Node>

  datatype Forest = Forest(live: Heap, parent: map<Ptr, Ptr>, rank: map<Ptr, nat>)

  function Kids(n: Node): set<Ptr> {
    match n
    case ArrayNode(items) => set i | 0 <= i < |items| :: items[i]
    case ObjectNode(fields) => fields.Values
    case _ => {}
  }

  /** No handle in two places of the same node. */
  ghost predicate Single(n: Node) {
    match n
    case ArrayNode(items) => forall i, j :: 0 <= i < j < |items| ==> items[i] != items[j]
    case ObjectNode(fields) => forall j, k :: j in fields && k in fields && fields[j] == fields[k] ==> j == k
    case _ => true
  }

  /** x owns c. */
  predicate Owns(live: Heap, x: Ptr, c: Ptr) { x in live && c in Kids(live[x]) }

  /** Every handle a live node refers to is live and has that node as its one parent; no node is below itself. */
  ghost predicate IsForest(f: Forest) {
    && NULL !in f.live && f.rank.Keys == f.live.Keys && f.parent.Keys <= f.live.Keys
    && (forall x :: x in f.live ==> Single(f.live[x]))
    && (forall x, c :: Owns(f.live, x, c) ==> c in f.parent && f.parent[c] == x && f.rank[c] < f.rank[x])
    && (forall c :: c in f.parent ==> Owns(f.live, f.parent[c], c))
  }

  /** L is p and everything below it. */
  ghost predicate IsSubtree(f: Forest, p: Ptr, L: set<Ptr>) {
    && p in L && L <= f.live.Keys
    && (forall x, c :: x in L && Owns(f.live, x, c) ==> c in L)
    && (forall x :: x in L && x != p ==> x in f.parent && f.parent[x] in L)
  }

  // ----- what the operations do to a forest -----

  /** `value`, with everything below it, goes below `json`, whose node becomes `node`. */
  function Attached(f: Forest, json: Ptr, node: Node, value: Ptr, L: set<Ptr>): Forest
    requires value in f.rank
  {
    Forest(f.live[json := node], f.parent[value := json],
           map x | x in f.rank :: if x in L then f.rank[x] else f.rank[x] + f.rank[value] + 1)
  }

  /** `old` is let go by `json`, whose node becomes `node`. */
  function Detached(f: Forest, json: Ptr, node: Node, old': Ptr): Forest {
    Forest(f.live[json := node], f.parent - {old'}, f.rank)
  }

  function Pruned(f: Forest, L: set<Ptr>): Forest {
    Forest(f.live - L, f.parent - L, f.rank - L)
  }

  function Created(f: Forest, p: Ptr, node: Node): Forest {
    Forest(f.live[p := node], f.parent, f.rank[p := 0])
  }

  lemma CreatedIsForest(f: Forest, p: Ptr, node: Node)
    requires IsForest(f) && p != NULL && p !in f.live && Kids(node) == {} && Single(node)
    ensures IsForest(Created(f, p, node))
  {
    var f' := Created(f, p, node);
    assert forall x, c :: Owns(f'.live, x, c) ==> Owns(f.live, x, c);
    forall c | c in f'.parent
      ensures Owns(f'.live, f'.parent[c], c)
    {
      assert Owns(f.live, f.parent[c], c);
    }
  }

  lemma AttachedIsForest(f: Forest, json: Ptr, node: Node, value: Ptr, L: set<Ptr>)
    requires IsForest(f) && IsSubtree(f, value, L)
    requires json in f.live && json !in L && value !in f.parent
    requires Kids(node) == Kids(f.live[json]) + {value} && Single(node)
    ensures IsForest(Attached(f, json, node, value, L))
  {
    var f' := Attached(f, json, node, value, L);
    forall x, c | Owns(f'.live, x, c)
      ensures c in f'.parent && f'.parent[c] == x && f'.rank[c] < f'.rank[x]
    {
      if x != json || c != value {
        assert Owns(f.live, x, c);
      }
    }
    forall c | c in f'.parent
      ensures Owns(f'.live, f'.parent[c], c)
    {
      if c != value {
        assert Owns(f.live, f.parent[c], c);
      }
    }
  }

  lemma DetachedIsForest(f: Forest, json: Ptr, node: Node, old': Ptr)
    requires IsForest(f) && Owns(f.live, json, old')
    requires Kids(node) == Kids(f.live[json]) - {old'} && Single(node)
    ensures IsForest(Detached(f, json, node, old'))
  {
    var f' := Detached(f, json, node, old');
    assert forall x, c :: Owns(f'.live, x, c) ==> Owns(f.live, x, c) && c != old';
    forall c | c in f'.parent
      ensures Owns(f'.live, f'.parent[c], c)
    {
      assert Owns(f.live, f.parent[c], c);
    }
  }

  lemma PrunedIsForest(f: Forest, p: Ptr, L: set<Ptr>)
    requires IsForest(f) && p !in f.parent && IsSubtree(f, p, L)
    ensures IsForest(Pruned(f, L))
  {
    var f' := Pruned(f, L);
    forall x, c | Owns(f'.live, x, c)
      ensures c in f'.parent && f'.parent[c] == x && f'.rank[c] < f'.rank[x]
    {
      assert Owns(f.live, x, c);
    }
    forall c | c in f'.parent
      ensures Owns(f'.live, f'.parent[c], c)
    {
      assert Owns(f.live, f.parent[c], c);
    }
  }

  // ----- trees -----

  /** A node and everything below it. */
  datatype Tree =
    | Leaf(p: Ptr, node: Node)
    | ArrayTree(p: Ptr, kids: seq<Tree>)
    | ObjectTree(p: Ptr, fields: map<string, Tree>)

  function Labels(t: Tree): set<Ptr> {
    match t
    case Leaf(p, _) => {p}
    case ArrayTree(p, kids) => {p} + set i, x | 0 <= i < |kids| && x in Labels(kids[i]) :: x
    case ObjectTree(p, fields) => {p} + set k, x | k in fields && x in Labels(fields[k]) :: x
  }

  /** The tree lies in the heap. */
  ghost predicate Holds(h: Heap, t: Tree) {
    t.p in h &&
    match t
    case Leaf(p, node) => h[p] == node && !node.ArrayNode? && !node.ObjectNode?
    case ArrayTree(p, kids) =>
      h[p] == ArrayNode(seq(|kids|, i requires 0 <= i < |kids| => kids[i].p)) && forall i ::
        0 <= i < |kids| ==> Holds(h, kids[i])
    case ObjectTree(p, fields) =>
      h[p] == ObjectNode(map k | k in fields :: fields[k].p) && forall k :: k in fields ==> Holds(h, fields[k])
  }

  /** No label twice. */
  ghost predicate Proper(t: Tree) {
    match t
    case Leaf(_, _) => true
    case ArrayTree(p, kids) =>
      && (forall i :: 0 <= i < |kids| ==> Proper(kids[i]) && p !in Labels(kids[i]))
      && (forall i, j :: 0 <= i < j < |kids| ==> Labels(kids[i]) !! Labels(kids[j]))
    case ObjectTree(p, fields) =>
      && (forall k :: k in fields ==> Proper(fields[k]) && p !in Labels(fields[k]))
      && (forall j, k :: j in fields && k in fields && j != k ==> Labels(fields[j]) !! Labels(fields[k]))
  }

  /** The value a tree of handles stands for. */
  function TreeValue(t: Tree): Json {
    match t
    case Leaf(_, node) => NodeValue(node)
    case ArrayTree(_, kids) => JArray(seq(|kids|, i requires 0 <= i < |kids| => TreeValue(kids[i])))
    case ObjectTree(_, fields) => JObject(map k | k in fields :: TreeValue(fields[k]))
  }

  function NodeValue(n: Node): Json {
    match n
    case BoolNode(b) => JBool(b)
    case NumberNode(x) => JFloat(x)
    case StringNode(s) => JString(s)
    case ArrayNode(_) => JArray([])
    case ObjectNode(_) => JObject(map[])
    case NullNode => JNull
  }

  /** A tree stays where the nodes it is made of stay. */
  lemma {:induction false} HoldsFrame(h: Heap, h': Heap, t: Tree)
    requires Holds(h, t)
    requires forall x :: x in Labels(t) ==> x in h' && x in h && h'[x] == h[x]
    ensures Holds(h', t)
  {
    match t
    case Leaf(_, _) =>
    case ArrayTree(_, kids) =>
      forall i | 0 <= i < |kids| ensures Holds(h', kids[i]) {
        HoldsFrame(h, h', kids[i]);
      }
    case ObjectTree(_, fields) =>
      forall k | k in fields ensures Holds(h', fields[k]) {
        HoldsFrame(h, h', fields[k]);
      }
  }

  lemma {:induction false} LabelsLive(h: Heap, t: Tree)
    requires Holds(h, t)
    ensures Labels(t) <= h.Keys && t.p in Labels(t)
  {
    match t
    case Leaf(_, _) =>
    case ArrayTree(_, kids) =>
      forall i | 0 <= i < |kids| ensures Labels(kids[i]) <= h.Keys { LabelsLive(h, kids[i]); }
    case ObjectTree(_, fields) =>
      forall k | k in fields ensures Labels(fields[k]) <= h.Keys { LabelsLive(h, fields[k]); }
  }

  /** The tree below a live node of a forest. */
  ghost function TreeOf(f: Forest, p: Ptr): (t: Tree)
    requires IsForest(f) && p in f.live
    ensures t.p == p
    decreases f.rank[p]
  {
    match f.live[p]
    case ArrayNode(items) =>
      assert forall i :: 0 <= i < |items| ==> Owns(f.live, p, items[i]);
      ArrayTree(p, seq(|items|, i requires 0 <= i < |items| => TreeOf(f, items[i])))
    case ObjectNode(fields) =>
      assert forall k :: k in fields ==> Owns(f.live, p, fields[k]);
      ObjectTree(p, map k | k in fields :: TreeOf(f, fields[k]))
    case node => Leaf(p, node)
  }

  lemma {:induction false} TreeOfHolds(f: Forest, p: Ptr)
    requires IsForest(f) && p in f.live
    ensures Holds(f.live, TreeOf(f, p))
    decreases f.rank[p]
  {
    match f.live[p]
    case ArrayNode(items) =>
      forall i | 0 <= i < |items| ensures Holds(f.live, TreeOf(f, items[i])) {
        assert Owns(f.live, p, items[i]);
        TreeOfHolds(f, items[i]);
      }
    case ObjectNode(fields) =>
      forall k | k in fields ensures Holds(f.live, TreeOf(f, fields[k])) {
        assert Owns(f.live, p, fields[k]);
        TreeOfHolds(f, fields[k]);
      }
    case _ =>
  }

  /** The labels of a kid's tree are among the labels of the tree, and with the root they are all of them. */
  lemma LabelsOf(f: Forest, p: Ptr)
    requires IsForest(f) && p in f.live
    ensures forall x :: x in Labels(TreeOf(f, p)) <==>
              x == p || exists c :: Owns(f.live, p, c) && x in Labels(TreeOf(f, c))
  {
    var t := TreeOf(f, p);
    match f.live[p]
    case ArrayNode(items) =>
      forall c, x | Owns(f.live, p, c) && x in Labels(TreeOf(f, c)) ensures x in Labels(t) {
        var i :| 0 <= i < |items| && items[i] == c;
        assert t.kids[i] == TreeOf(f, c);
      }
      forall x | x in Labels(t) && x != p ensures exists c :: Owns(f.live, p, c) && x in Labels(TreeOf(f, c)) {
        var i :| 0 <= i < |items| && x in Labels(t.kids[i]);
        assert Owns(f.live, p, items[i]);
      }
    case ObjectNode(fields) =>
      forall c, x | Owns(f.live, p, c) && x in Labels(TreeOf(f, c)) ensures x in Labels(t) {
        var k :| k in fields && fields[k] == c;
        assert t.fields[k] == TreeOf(f, c);
      }
      forall x | x in Labels(t) && x != p ensures exists c :: Owns(f.live, p, c) && x in Labels(TreeOf(f, c)) {
        var k :| k in fields && x in Labels(t.fields[k]);
        assert Owns(f.live, p, fields[k]);
      }
    case _ =>
  }

  /** The labels of a node's tree are the node and everything below it, and rank no higher. */
  lemma {:induction false} TreeOfSubtree(f: Forest, p: Ptr)
    requires IsForest(f) && p in f.live
    ensures IsSubtree(f, p, Labels(TreeOf(f, p)))
    ensures forall x :: x in Labels(TreeOf(f, p)) ==> f.rank[x] <= f.rank[p]
    decreases f.rank[p]
  {
    LabelsOf(f, p);
    forall c | Owns(f.live, p, c)
      ensures IsSubtree(f, c, Labels(TreeOf(f, c)))
      ensures forall x :: x in Labels(TreeOf(f, c)) ==> f.rank[x] <= f.rank[c]
    {
      TreeOfSubtree(f, c);
    }
    var L := Labels(TreeOf(f, p));
    forall x | x in L
      ensures x in f.live && f.rank[x] <= f.rank[p]
      ensures x != p ==> x in f.parent && f.parent[x] in L
      ensures forall c :: Owns(f.live, x, c) ==> c in L
    {
      if x == p {
        forall c | Owns(f.live, p, c) ensures c in L {
          assert c in Labels(TreeOf(f, c));
        }
      } else {
        var c :| Owns(f.live, p, c) && x in Labels(TreeOf(f, c));
        if x == c {
          assert f.parent[c] == p;
        }
      }
    }
  }

  /** Two subtrees that meet: one contains the top of the other. */
  lemma {:induction false} SubtreesNest(f: Forest, a: Ptr, A: set<Ptr>, b: Ptr, B: set<Ptr>, x: Ptr)
    requires IsForest(f) && IsSubtree(f, a, A) && IsSubtree(f, b, B) && x in A && x in B
    requires forall y :: y in A ==> f.rank[y] <= f.rank[a]
    ensures a in B || b in A
    decreases f.rank[a] - f.rank[x]
  {
    if x != a && x != b {
      assert Owns(f.live, f.parent[x], x);
      SubtreesNest(f, a, A, b, B, f.parent[x]);
    }
  }

  /** Kids of one node have nothing below them in common. */
  lemma KidsApart(f: Forest, p: Ptr, a: Ptr, b: Ptr)
    requires IsForest(f) && Owns(f.live, p, a) && Owns(f.live, p, b) && a != b
    ensures Labels(TreeOf(f, a)) !! Labels(TreeOf(f, b))
  {
    var A, B := Labels(TreeOf(f, a)), Labels(TreeOf(f, b));
    TreeOfSubtree(f, a);
    TreeOfSubtree(f, b);
    forall x | x in A && x in B ensures false {
      SubtreesNest(f, a, A, b, B, x);
    }
  }

  lemma {:induction false} TreeOfProper(f: Forest, p: Ptr)
    requires IsForest(f) && p in f.live
    ensures Proper(TreeOf(f, p))
    decreases f.rank[p]
  {
    forall c | Owns(f.live, p, c) ensures Proper(TreeOf(f, c)) && p !in Labels(TreeOf(f, c)) {
      TreeOfProper(f, c);
      TreeOfSubtree(f, c);
    }
    match f.live[p]
    case ArrayNode(items) =>
      assert forall i :: 0 <= i < |items| ==> Owns(f.live, p, items[i]);
      forall i, j | 0 <= i < j < |items| ensures Labels(TreeOf(f, items[i])) !! Labels(TreeOf(f, items[j])) {
        KidsApart(f, p, items[i], items[j]);
      }
    case ObjectNode(fields) =>
      assert forall k :: k in fields ==> Owns(f.live, p, fields[k]);
      forall j, k | j in fields && k in fields && j != k ensures Labels(TreeOf(f, fields[j])) !! Labels(TreeOf(f,
          fields[k])) {
        KidsApart(f, p, fields[j], fields[k]);
      }
    case _ =>
  }
}
