/**
 Converting JSON values to C handles and back.

 Allocation always succeeds here; the addresses it gives are arbitrary.
 */
module JsonConverter {
  import opened JsonValues
  import opened JsonForest
  import opened JsonHeaps
  import opened JsonApi

  // ----- facts about trees in a forest -----

  /** A forest holds one tree per node. */
  lemma {:induction false} TreeUnique(f: Forest, t: Tree)
    requires IsForest(f) && Holds(f.live, t)
    ensures TreeOf(f, t.p) == t
  {
    match t
    case Leaf(_, _) =>
    case ArrayTree(p, kids) =>
      var items := f.live[p].items;
      forall i | 0 <= i < |kids| ensures items[i] in f.live && TreeOf(f, items[i]) == kids[i] {
        TreeUnique(f, kids[i]);
      }
      assert TreeOf(f, p).kids == kids;
    case ObjectTree(p, fields) =>
      var ptrs := f.live[p].fields;
      forall k | k in fields ensures ptrs[k] in f.live && TreeOf(f, ptrs[k]) == fields[k] {
        TreeUnique(f, fields[k]);
      }
      assert TreeOf(f, p).fields == fields;
  }

  /** Of two nodes that nobody owns, neither is below the other. */
  lemma RootsApart(f: Forest, a: Ptr, b: Ptr)
    requires IsForest(f) && a in f.live && b in f.live && a != b && a !in f.parent
    ensures a !in Below(f, b)
  {
    TreeOfSubtree(f, b);
  }

  /** An array's tree with one more kid. */
  lemma ArrayGrows(h: Heap, h': Heap, t: Tree, kid: Tree)
    requires Holds(h, t) && t.ArrayTree? && Proper(t) && Holds(h, kid) && Labels(t) !! Labels(kid)
    requires h' == h[t.p := ArrayNode(h[t.p].items + [kid.p])]
    ensures Holds(h', ArrayTree(t.p, t.kids + [kid]))
  {
    var kids := t.kids + [kid];
    forall i | 0 <= i < |kids| ensures Holds(h', kids[i]) {
      LabelsLive(h, kids[i]);
      HoldsFrame(h, h', kids[i]);
    }
    assert h'[t.p].items == seq(|kids|, i requires 0 <= i < |kids| => kids[i].p);
  }

  lemma ArrayLabels(t: Tree, kid: Tree)
    requires t.ArrayTree? && Proper(t) && Proper(kid) && Labels(t) !! Labels(kid)
    ensures Proper(ArrayTree(t.p, t.kids + [kid]))
    ensures Labels(ArrayTree(t.p, t.kids + [kid])) == Labels(t) + Labels(kid)
  {
    var t' := ArrayTree(t.p, t.kids + [kid]);
    forall i, x | 0 <= i < |t.kids| && x in Labels(t.kids[i]) ensures x in Labels(t') {
      assert t'.kids[i] == t.kids[i];
    }
    forall x | x in Labels(kid) ensures x in Labels(t') {
      assert t'.kids[|t.kids|] == kid;
    }
  }

  /** An object's tree with a field set, when the tree that was there is gone. */
  lemma ObjectGrows(h: Heap, h': Heap, t: Tree, key: string, kid: Tree)
    requires Holds(h, t) && t.ObjectTree? && Proper(t) && Holds(h, kid) && Labels(t) !! Labels(kid)
    requires var gone := if key in t.fields then Labels(t.fields[key]) else {};
             h' == (h - gone)[t.p := ObjectNode(h[t.p].fields[key := kid.p])]
    ensures Holds(h', ObjectTree(t.p, t.fields[key := kid]))
  {
    var fields := t.fields[key := kid];
    forall k | k in fields ensures Holds(h', fields[k]) {
      LabelsLive(h, fields[k]);
      HoldsFrame(h, h', fields[k]);
    }
    assert h'[t.p].fields == map k | k in fields :: fields[k].p;
  }

  lemma ObjectProper(t: Tree, key: string, kid: Tree)
    requires t.ObjectTree? && Proper(t) && Labels(t) !! Labels(kid) && Proper(kid)
    ensures Proper(ObjectTree(t.p, t.fields[key := kid]))
  {
    var fields := t.fields[key := kid];
    assert forall k :: k in fields && k != key ==> k in t.fields && fields[k] == t.fields[k];
    assert forall k :: k in t.fields ==> Labels(t.fields[k]) <= Labels(t);
  }

  lemma ObjectLabels(t: Tree, key: string, kid: Tree)
    requires t.ObjectTree? && Proper(t) && Labels(t) !! Labels(kid)
    ensures Labels(ObjectTree(t.p, t.fields[key := kid]))
            == Labels(t) - (if key in t.fields then Labels(t.fields[key]) else {}) + Labels(kid)
  {
    var fields := t.fields[key := kid];
    assert key in fields && forall k :: k in fields && k != key ==> k in t.fields && fields[k] == t.fields[k];
  }

  /** The value of an object's tree with one field set. */
  lemma FieldValue(t: Tree, t': Tree, key: string, value: Json)
    requires t.ObjectTree? && t'.ObjectTree? && t'.fields.Keys == t.fields.Keys + {key}
    requires TreeValue(t'.fields[key]) == value
    requires forall j :: j in t.fields && j != key ==> t'.fields[j] == t.fields[j]
    ensures TreeValue(t') == JObject(TreeValue(t).fields[key := value])
  {
    assert TreeValue(t').fields == TreeValue(t).fields[key := value];
  }

  /** Walking one key more: it is the last so far, so it wins its C string. */
  lemma FieldsNext(v: Json, done: set<string>, k: string)
    requires v.JObject? && done <= v.fields.Keys && k in v.fields && k !in done
    requires forall j :: j in done ==> Before(j, k)
    ensures HandledFields(v, done + {k}) == HandledFields(v, done)[CString(k) := Handled(v.fields[k])]
  {
    hide Before, CString, Handled, Cuts;
    var all := done + {k};
    CutsNext(done, k);
    forall c | c in Cuts(all)
      ensures WinnerIn(v, all, c) == if c == CString(k) then k else WinnerIn(v, done, c)
    {
      WinnerNext(v, done, k, c);
    }
  }

  lemma CutsNext(done: set<string>, k: string)
    ensures Cuts(done + {k}) == Cuts(done) + {CString(k)}
  {
  }

  lemma WinnerNext(v: Json, done: set<string>, k: string, c: string)
    requires v.JObject? && done <= v.fields.Keys && k in v.fields && k !in done
    requires forall j :: j in done ==> Before(j, k)
    requires c in Cuts(done + {k})
    ensures c != CString(k) ==> c in Cuts(done)
    ensures WinnerIn(v, done + {k}, c) == if c == CString(k) then k else WinnerIn(v, done, c)
  {
    hide Before, CString;
    var all := done + {k};
    if c == CString(k) {
      assert IsLast(KeysFor(all, c), k);
      LastUnique(KeysFor(all, c), WinnerIn(v, all, c), k);
    } else {
      assert KeysFor(all, c) == KeysFor(done, c);
      LastUnique(KeysFor(all, c), WinnerIn(v, all, c), WinnerIn(v, done, c));
    }
  }

  lemma {:induction false} FreshExists(used: set<Ptr>)
    ensures exists p: Ptr :: p != NULL && p !in used
  {
    var top := Bound(used);
    assert top + 1 != NULL && top + 1 !in used;
  }

  ghost function Bound(used: set<Ptr>): (top: nat)
    ensures forall p :: p in used ==> p <= top
  {
    if used == {} then 0
    else
      var p :| p in used;
      var rest := Bound(used - {p});
      assert forall q :: q in used ==> q == p || q in used - {p};
      if p <= rest then rest else p
  }

  // ----- to handles -----

  /** What a conversion leaves alone: every node that was there, and whether it is owned. */
  ghost predicate Untouched(before: Forest, after: Forest) {
    && (forall x :: x in before.live ==> x in after.live && after.live[x] == before.live[x])
    && (forall x :: x in before.live ==> (x in after.parent <==> x in before.parent))
  }

  /** The heap is what it was and, on top, one tree nobody owns. */
  ghost predicate Added(before: Forest, after: Forest, t: Tree) {
    && Untouched(before, after)
    && Holds(after.live, t) && Proper(t) && t.p !in after.parent
    && Labels(t) !! before.live.Keys && after.live.Keys == before.live.Keys + Labels(t)
  }

  /** The tree of a new node. */
  function NewTree(p: Ptr, node: Node): Tree {
    match node
    case ArrayNode(_) => ArrayTree(p, [])
    case ObjectNode(_) => ObjectTree(p, map[])
    case _ => Leaf(p, node)
  }

  lemma CreatedAdded(f: Forest, p: Ptr, node: Node)
    requires IsForest(f) && p != NULL && p !in f.live && Kids(node) == {}
    requires node.ArrayNode? ==> node.items == []
    requires node.ObjectNode? ==> node.fields == map[]
    ensures Added(f, Created(f, p, node), NewTree(p, node))
  {
    assert p !in f.parent;
    hide IsForest;
    assert Labels(NewTree(p, node)) == {p};
  }

  method Allocate(heap: JsonHeap, node: Node) returns (json: Ptr, ghost t: Tree)
    requires heap.Valid() && Kids(node) == {} && Single(node)
    requires node.ArrayNode? ==> node.items == []
    requires node.ObjectNode? ==> node.fields == map[]
    modifies heap
    ensures heap.Valid() && t.p == json && Added(old(heap.forest), heap.forest, t)
    ensures heap.forest.live[json] == node && heap.deleted == old(heap.deleted)
    ensures t == NewTree(json, node)
  {
    hide IsForest, Added;
    FreshExists(heap.live.Keys);
    var mem: Ptr :| mem != NULL && mem !in heap.live;
    t := NewTree(mem, node);
    CreatedAdded(heap.forest, mem, node);
    json := heap.Create(mem, node);
  }

  method ConvertToHandle(heap: JsonHeap, v: Json) returns (json: Ptr, ghost t: Tree)
    requires heap.Valid()
    modifies heap
    ensures heap.Valid() && t.p == json && Added(old(heap.forest), heap.forest, t)
    ensures TreeValue(t) == Handled(v)
    decreases v, 1
  {
    match v
    case JNull => json, t := Allocate(heap, NullNode);
    case JBool(b) => json, t := Allocate(heap, BoolNode(b));
    case JInteger(i) => json, t := Allocate(heap, NumberNode(Finite(Rounded(AsInt64(i)) as real)));
    case JFloat(x) => json, t := Allocate(heap, NumberNode(x));
    case JString(s) => json, t := Allocate(heap, StringNode(CString(s)));
    case JArray(items) => json, t := ConvertArray(heap, v);
    case JObject(fields) => json, t := ConvertObject(heap, v);
  }

  method ConvertArray(heap: JsonHeap, v: Json) returns (json: Ptr, ghost t: Tree)
    requires heap.Valid() && v.JArray?
    modifies heap
    ensures heap.Valid() && t.p == json && Added(old(heap.forest), heap.forest, t)
    ensures TreeValue(t) == Handled(v)
    decreases v, 0
  {
    hide IsForest, Added;
    json, t := Allocate(heap, ArrayNode([]));
    for i := 0 to |v.items|
      invariant heap.Valid() && Added(old(heap.forest), heap.forest, t)
      invariant t.ArrayTree? && t.p == json && |t.kids| == i
      invariant forall k :: 0 <= k < i ==> TreeValue(t.kids[k]) == Handled(v.items[k])
    {
      t := AppendConverted(heap, v, json, t, i, old(heap.forest));
    }
  }

  /** A value under construction and, apart from it, the value converted next. */
  ghost predicate Ready(before: Forest, f: Forest, t: Tree, kid: Tree) {
    && IsForest(f) && Untouched(before, f)
    && Holds(f.live, t) && Proper(t) && Holds(f.live, kid) && Proper(kid)
    && Labels(t) !! Labels(kid) && Labels(t) !! before.live.Keys && Labels(kid) !! before.live.Keys
    && f.live.Keys == before.live.Keys + Labels(t) + Labels(kid)
    && t.p !in f.parent && Attachable(f, t.p, kid.p)
  }

  /** Converting the next value leaves the one under construction as it was, and apart from it. */
  lemma AfterConvert(before: Forest, middle: Forest, f: Forest, t: Tree, kid: Tree)
    requires IsForest(middle) && IsForest(f)
    requires Added(before, middle, t) && Added(middle, f, kid)
    ensures Ready(before, f, t, kid)
    ensures t.p != NULL && kid.p != NULL && t.p in f.live
    ensures (t.ArrayTree? ==> f.live[t.p].ArrayNode?) && (t.ObjectTree? ==> f.live[t.p].ObjectNode?)
  {
    hide Labels, Proper, Below, TreeOf, IsForest, Holds;
    LabelsLive(middle.live, t);
    LabelsLive(f.live, kid);
    HoldsFrame(middle.live, f.live, t);
    RootsApart(f, t.p, kid.p);
    HoldsShape(f, t);
    HoldsShape(f, kid);
  }

  lemma HoldsShape(f: Forest, t: Tree)
    requires IsForest(f) && Holds(f.live, t)
    ensures t.p != NULL && t.p in f.live
    ensures t.ArrayTree? ==> f.live[t.p].ArrayNode? && |f.live[t.p].items| == |t.kids|
    ensures t.ObjectTree? ==> f.live[t.p].ObjectNode? && f.live[t.p].fields.Keys == t.fields.Keys
  {
  }

  method AppendConverted(heap: JsonHeap, v: Json, json: Ptr, ghost t: Tree, i: nat,
      ghost before: Forest) returns (ghost t': Tree)
    requires heap.Valid() && v.JArray? && i < |v.items|
    requires Added(before, heap.forest, t) && t.ArrayTree? && t.p == json
    modifies heap
    ensures heap.Valid() && Added(before, heap.forest, t')
    ensures t'.ArrayTree? && t'.p == json && |t'.kids| == |t.kids| + 1 && t'.kids[..|t.kids|] == t.kids
    ensures TreeValue(t'.kids[|t.kids|]) == Handled(v.items[i])
    decreases v, 0, 0
  {
    hide IsForest, Added, AppendForest, Attachable;
    ghost var middle := heap.forest;
    var elem;
    ghost var kid;
    elem, kid := ConvertToHandle(heap, v.items[i]);
    AfterConvert(before, middle, heap.forest, t, kid);
    ghost var f := heap.forest;
    assert Attachable(f, json, elem);
    var status := heap.ArrayAppend(json, elem);
    t' := ArrayTree(json, t.kids + [kid]);
    AppendAdded(before, f, t, kid);
  }

  lemma AppendAdded(before: Forest, f: Forest, t: Tree, kid: Tree)
    requires Ready(before, f, t, kid) && t.ArrayTree? && f.live[t.p].ArrayNode?
    ensures Added(before, AppendForest(f, t.p, kid.p), ArrayTree(t.p, t.kids + [kid]))
  {
    hide Labels, Holds, Proper, Below, IsForest;
    var after := AppendForest(f, t.p, kid.p);
    LabelsLive(f.live, t);
    LabelsLive(f.live, kid);
    ArrayLabels(t, kid);
    ArrayGrows(f.live, after.live, t, kid);
    assert after.live.Keys == f.live.Keys;
  }

  /** The fields are walked in ascending order of their keys. */
  method ConvertObject(heap: JsonHeap, v: Json) returns (json: Ptr, ghost t: Tree)
    requires heap.Valid() && v.JObject?
    modifies heap
    ensures heap.Valid() && t.p == json && Added(old(heap.forest), heap.forest, t)
    ensures TreeValue(t) == Handled(v)
    decreases v, 0
  {
    hide IsForest, Added, Before, CString, Handled, HandledFields, TreeValue;
    json, t := Allocate(heap, ObjectNode(map[]));
    var todo := v.fields.Keys;
    ghost var done: set<string> := {};
    ObjectEnds(v, json);
    while todo != {}
      invariant heap.Valid() && Added(old(heap.forest), heap.forest, t)
      invariant t.ObjectTree? && t.p == json
      invariant todo <= v.fields.Keys && done == v.fields.Keys - todo
      invariant forall j, k :: j in done && k in todo ==> Before(j, k)
      invariant TreeValue(t) == JObject(HandledFields(v, done))
      decreases todo
    {
      EndsExist(todo);
      var k :| k in todo && forall j :: j in todo ==> j == k || Before(k, j);
      t := ConvertField(heap, v, json, t, k, done, old(heap.forest));
      todo, done := todo - {k}, done + {k};
    }
    assert done == v.fields.Keys;
  }

  lemma ObjectEnds(v: Json, p: Ptr)
    requires v.JObject?
    ensures TreeValue(ObjectTree(p, map[])) == JObject(HandledFields(v, {}))
    ensures Handled(v) == JObject(HandledFields(v, v.fields.Keys))
  {
  }

  method ConvertField(heap: JsonHeap, v: Json, json: Ptr, ghost t: Tree, k: string, ghost done: set<string>,
      ghost before: Forest)
    returns (ghost t': Tree)
    requires heap.Valid() && v.JObject? && done <= v.fields.Keys && k in v.fields && k !in done
    requires forall j :: j in done ==> Before(j, k)
    requires Added(before, heap.forest, t) && t.ObjectTree? && t.p == json
    requires TreeValue(t) == JObject(HandledFields(v, done))
    modifies heap
    ensures heap.Valid() && Added(before, heap.forest, t') && t'.ObjectTree? && t'.p == json
    ensures TreeValue(t') == JObject(HandledFields(v, done + {k}))
    decreases v, 0, 1
  {
    hide IsForest, Added, Before, CString, Handled, HandledFields, TreeValue;
    FieldsNext(v, done, k);
    t' := SetConverted(heap, v, json, t, k, before);
    FieldValue(t, t', CString(k), Handled(v.fields[k]));
  }

  method SetConverted(heap: JsonHeap, v: Json, json: Ptr, ghost t: Tree, k: string,
      ghost before: Forest) returns (ghost t': Tree)
    requires heap.Valid() && v.JObject? && k in v.fields
    requires Added(before, heap.forest, t) && t.ObjectTree? && t.p == json
    modifies heap
    ensures heap.Valid() && Added(before, heap.forest, t')
    ensures t'.ObjectTree? && t'.p == json && t'.fields.Keys == t.fields.Keys + {CString(k)}
    ensures TreeValue(t'.fields[CString(k)]) == Handled(v.fields[k])
    ensures forall j :: j in t.fields && j != CString(k) ==> t'.fields[j] == t.fields[j]
    decreases v, 0, 0
  {
    hide IsForest, Added, SetForest, Attachable;
    ghost var middle := heap.forest;
    var value;
    ghost var kid;
    value, kid := ConvertToHandle(heap, v.fields[k]);
    AfterConvert(before, middle, heap.forest, t, kid);
    ghost var f := heap.forest;
    assert Attachable(f, json, value);
    var status := heap.ObjectSet(json, Chars(CString(k)), value);
    t' := ObjectTree(json, t.fields[CString(k) := kid]);
    SetAdded(before, f, t, CString(k), kid);
  }

  lemma SetAdded(before: Forest, f: Forest, t: Tree, key: string, kid: Tree)
    requires Ready(before, f, t, kid) && t.ObjectTree? && f.live[t.p].ObjectNode?
    ensures Added(before, SetForest(f, t.p, key, kid.p), ObjectTree(t.p, t.fields[key := kid]))
  {
    hide Labels, Holds, Proper, Below, IsForest, SetForest, Replaced;
    var after := SetForest(f, t.p, key, kid.p);
    HoldsShape(f, t);
    LabelsLive(f.live, kid);
    LabelsLive(f.live, t);
    ReplacedLabels(f, t, key);
    SetKeys(f, t.p, key, kid.p);
    SetParents(f, t.p, key, kid.p);
    ObjectGrows(f.live, after.live, t, key, kid);
    ObjectLabels(t, key, kid);
    ObjectProper(t, key, kid);
  }

  /** What replacing a key deletes are the labels of the field's tree. */
  lemma ReplacedLabels(f: Forest, t: Tree, key: string)
    requires IsForest(f) && Holds(f.live, t) && Proper(t) && t.ObjectTree?
    ensures key in t.fields ==>
              Replaced(f, t.p, key) == Labels(t.fields[key]) && Labels(t.fields[key]) <= Labels(t) - {t.p}
  {
    if key in t.fields {
      TreeUnique(f, t.fields[key]);
    }
  }

  /** Setting a key takes the replaced values out of ownership and puts the new one into it. */
  lemma SetParents(f: Forest, json: Ptr, key: string, value: Ptr)
    requires Attachable(f, json, value) && f.live[json].ObjectNode?
    ensures var gone := if key in f.live[json].fields then Replaced(f, json, key) else {};
            forall x :: x in SetForest(f, json, key, value).parent <==> x == value || (x in f.parent && x !in gone)
  {
    if key in f.live[json].fields {
      assert Owns(f.live, json, f.live[json].fields[key]);
      TreeOfSubtree(f, f.live[json].fields[key]);
    }
  }

  // ----- from handles -----

  /** The value of a handle; a null pointer reads as null. */
  method ConvertFromCApi(heap: JsonHeap, json: Ptr, ghost t: Tree) returns (v: Json)
    requires heap.Valid() && (json == NULL || (t.p == json && Holds(heap.live, t)))
    ensures v == if json == NULL then JNull else TreeValue(t)
    decreases t, 1
  {
    if json == NULL {
      return JNull;
    }
    match heap.live[json]
    case NullNode => v := JNull;
    case BoolNode(b) => v := JBool(b);
    case NumberNode(x) => v := JFloat(x);
    case StringNode(s) => v := JString(s);
    case ArrayNode(items) => v := ReadArray(heap, items, t);
    case ObjectNode(fields) => v := ReadObject(heap, fields, t);
  }

  method ReadArray(heap: JsonHeap, items: seq<Ptr>, ghost t: Tree) returns (v: Json)
    requires heap.Valid() && Holds(heap.live, t) && t.ArrayTree? && heap.live[t.p] == ArrayNode(items)
    ensures v == TreeValue(t)
    decreases t, 0
  {
    hide IsForest;
    var values: seq<Json> := [];
    for i := 0 to |items|
      invariant |values| == i
      invariant forall k :: 0 <= k < i ==> values[k] == TreeValue(t.kids[k])
    {
      KidNotNull(heap.forest, t.kids[i]);
      var value := ConvertFromCApi(heap, items[i], t.kids[i]);
      values := values + [value];
    }
    v := JArray(values);
    assert TreeValue(t).items == values;
  }

  method ReadObject(heap: JsonHeap, fields: map<string, Ptr>, ghost t: Tree) returns (v: Json)
    requires heap.Valid() && Holds(heap.live, t) && t.ObjectTree? && heap.live[t.p] == ObjectNode(fields)
    ensures v == TreeValue(t)
    decreases t, 0
  {
    FieldsOf(heap.live, t);
    hide IsForest, Holds;
    var values: map<string, Json> := map[];
    var todo := fields.Keys;
    while todo != {}
      invariant todo <= fields.Keys && values.Keys == fields.Keys - todo
      invariant forall k :: k in values ==> values[k] == TreeValue(t.fields[k])
      decreases todo
    {
      var k :| k in todo;
      KidNotNull(heap.forest, t.fields[k]);
      var value := ConvertFromCApi(heap, fields[k], t.fields[k]);
      values := values[k := value];
      todo := todo - {k};
    }
    v := JObject(values);
    assert TreeValue(t).fields == values;
  }

  lemma FieldsOf(h: Heap, t: Tree)
    requires Holds(h, t) && t.ObjectTree?
    ensures h[t.p].fields.Keys == t.fields.Keys
    ensures forall k :: k in t.fields ==> h[t.p].fields[k] == t.fields[k].p && Holds(h, t.fields[k])
  {
  }

  lemma KidNotNull(f: Forest, t: Tree)
    requires IsForest(f) && Holds(f.live, t)
    ensures t.p != NULL
  {
    HoldsShape(f, t);
  }

  /** Freeing what was added gives the heap back. */
  lemma AddedBack(before: Forest, after: Forest, t: Tree)
    requires IsForest(after) && Added(before, after, t)
    ensures t.p in after.live && t.p !in after.parent && t.p != NULL && Holds(after.live, t)
    ensures FreeForest(after, t.p).live == before.live
  {
    hide Labels, Holds, Proper;
    HoldsShape(after, t);
    TreeUnique(after, t);
  }

  /**
   Converting a value to handles, reading it back and freeing the handle: the value
   has become what the handles can hold, and the heap is what it was.
   */
  method RoundTrip(heap: JsonHeap, v: Json) returns (w: Json)
    requires heap.Valid()
    modifies heap
    ensures heap.Valid() && w == Handled(v)
    ensures heap.live == old(heap.live)
  {
    hide IsForest, Added, Holds, Handled, TreeValue;
    var json;
    ghost var t;
    json, t := ConvertToHandle(heap, v);
    AddedBack(old(heap.forest), heap.forest, t);
    w := ConvertFromCApi(heap, json, t);
    heap.Free(json);
  }
}
