/**
 The JSON value calls of the C API, on a heap of live nodes.

 `live` maps the addresses in use to their nodes and `deleted` lists every address
 given back, in order. The ghost field `forest` adds who owns whom.
 */
module JsonApi {
  import opened JsonValues
  import opened JsonForest
  import opened JsonHeaps

  /** `after` is `before` and then every element of L once. */
  ghost predicate DeletedOnce(before: seq<Ptr>, after: seq<Ptr>, L: set<Ptr>) {
    before <= after && multiset(after) == multiset(before) + multiset(L)
  }

  lemma DeletedBoth(a: seq<Ptr>, b: seq<Ptr>, c: seq<Ptr>, L: set<Ptr>, M: set<Ptr>)
    requires DeletedOnce(a, b, L) && DeletedOnce(b, c, M) && L !! M
    ensures DeletedOnce(a, c, L + M)
  {
    assert multiset(L + M) == multiset(L) + multiset(M);
  }

  /** The labels of the first trees of an array, and of an object's trees under some keys. */
  function LabelsUpTo(kids: seq<Tree>, n: nat): set<Ptr>
    requires n <= |kids|
  {
    set i, x | 0 <= i < n && x in Labels(kids[i]) :: x
  }

  function LabelsUnder(fields: map<string, Tree>, keys: set<string>): set<Ptr>
    requires keys <= fields.Keys
  {
    set k, x | k in keys && x in Labels(fields[k]) :: x
  }

  lemma UpToNext(t: Tree, i: nat)
    requires t.ArrayTree? && Proper(t) && i < |t.kids|
    ensures LabelsUpTo(t.kids, i + 1) == LabelsUpTo(t.kids, i) + Labels(t.kids[i])
    ensures LabelsUpTo(t.kids, i) !! Labels(t.kids[i]) && t.p !in LabelsUpTo(t.kids, i + 1)
    ensures LabelsUpTo(t.kids, 0) == {}
  {
  }

  lemma UnderNext(t: Tree, keys: set<string>, k: string)
    requires t.ObjectTree? && Proper(t) && keys <= t.fields.Keys && k in t.fields && k !in keys
    ensures LabelsUnder(t.fields, keys + {k}) == LabelsUnder(t.fields, keys) + Labels(t.fields[k])
    ensures LabelsUnder(t.fields, keys) !! Labels(t.fields[k]) && t.p !in LabelsUnder(t.fields, keys + {k})
  {
  }

  lemma ObjectParts(h: Heap, t: Tree)
    requires Holds(h, t) && Proper(t) && t.ObjectTree?
    ensures h[t.p].fields.Keys == t.fields.Keys
    ensures forall k :: k in t.fields ==>
              h[t.p].fields[k] == t.fields[k].p && Holds(h, t.fields[k]) && Proper(t.fields[k])
  {
  }

  lemma LabelsSplit(t: Tree)
    requires Proper(t)
    ensures t.Leaf? ==> Labels(t) == {t.p}
    ensures t.ArrayTree? ==> Labels(t) == LabelsUpTo(t.kids, |t.kids|) + {t.p} && t.p !in LabelsUpTo(t.kids, |t.kids|)
    ensures t.ObjectTree? ==>
              Labels(t) == LabelsUnder(t.fields, t.fields.Keys) + {t.p} && t.p !in LabelsUnder(t.fields, t.fields.Keys)
  {
  }

  class JsonHeap {
    var live: Heap
    var deleted: seq<Ptr>
    ghost var forest: Forest

    ghost predicate Valid()
      reads this
    {
      IsForest(forest) && forest.live == live
    }

    constructor ()
      ensures Valid() && live == map[] && deleted == [] && forest == Forest(map[], map[], map[])
    {
      live, deleted := map[], [];
      forest := Forest(map[], map[], map[]);
    }

    // ----- creation -----

    /** A new node at the address the allocator gave; none when there was no memory. */
    method Create(mem: Ptr, node: Node) returns (json: Ptr)
      requires Valid() && mem !in live && Kids(node) == {} && Single(node)
      modifies this
      ensures Valid() && json == mem && deleted == old(deleted)
      ensures forest == if mem == NULL then old(forest) else Created(old(forest), mem, node)
    {
      if mem == NULL {
        return NULL;
      }
      CreatedIsForest(forest, mem, node);
      live := live[mem := node];
      forest := Created(forest, mem, node);
      return mem;
    }

    method CreateString(mem: Ptr, value: Chars) returns (json: Ptr)
      requires Valid() && mem !in live && (value.Chars? ==> '\0' !in value.text)
      modifies this
      ensures Valid() && deleted == old(deleted)
      ensures json == if value.NoChars? then NULL else mem
      ensures forest == if json == NULL then old(forest) else Created(old(forest), mem, StringNode(value.text))
    {
      if value.NoChars? {
        return NULL;
      }
      json := Create(mem, StringNode(value.text));
    }

    // ----- freeing -----

    method Delete(p: Ptr)
      requires p in live
      modifies this`live, this`deleted
      ensures live == old(live) - {p} && DeletedOnce(old(deleted), deleted, {p})
    {
      live := live - {p};
      deleted := deleted + [p];
    }

    /** Deletes a value, which nobody owns, and everything below it, each node once. */
    method Free(json: Ptr)
      requires Valid() && (json == NULL || (json in live && json !in forest.parent))
      modifies this
      ensures Valid()
      ensures forest == if json == NULL then old(forest) else FreeForest(old(forest), json)
      ensures DeletedOnce(old(deleted), deleted, if json == NULL then {} else Below(old(forest), json))
    {
      if json == NULL {
        return;
      }
      TreeOfHolds(forest, json);
      TreeOfProper(forest, json);
      FreeIsForest(forest, json);
      FreeTree(json, TreeOf(forest, json));
      forest := FreeForest(forest, json);
    }

    /** The recursion of Free: what is below first, then the node itself. */
    method FreeTree(json: Ptr, ghost t: Tree)
      requires Holds(live, t) && Proper(t) && t.p == json
      modifies this`live, this`deleted
      ensures live == old(live) - Labels(t)
      ensures DeletedOnce(old(deleted), deleted, Labels(t))
      decreases t, 2
    {
      LabelsSplit(t);
      if t.ObjectTree? {
        ObjectParts(live, t);
      }
      hide Labels, LabelsUpTo, LabelsUnder, DeletedOnce, Proper;
      match live[json]
      case ArrayNode(items) =>
        FreeItems(items, t);
        ghost var before := deleted;
        Delete(json);
        DeletedBoth(old(deleted), before, deleted, LabelsUpTo(t.kids, |t.kids|), {json});
      case ObjectNode(fields) =>
        FreeFields(fields, t);
        ghost var before := deleted;
        Delete(json);
        DeletedBoth(old(deleted), before, deleted, LabelsUnder(t.fields, t.fields.Keys), {json});
      case _ =>
        Delete(json);
    }

    method FreeItems(items: seq<Ptr>, ghost t: Tree)
      requires Holds(live, t) && Proper(t) && t.ArrayTree? && live[t.p] == ArrayNode(items)
      modifies this`live, this`deleted
      ensures live == old(live) - LabelsUpTo(t.kids, |t.kids|)
      ensures DeletedOnce(old(deleted), deleted, LabelsUpTo(t.kids, |t.kids|))
      decreases t, 0
    {
      ghost var h := live;
      assert LabelsUpTo(t.kids, 0) == {};
      for i := 0 to |items|
        invariant live == h - LabelsUpTo(t.kids, i)
        invariant DeletedOnce(old(deleted), deleted, LabelsUpTo(t.kids, i))
      {
        ghost var kid, before := t.kids[i], deleted;
        UpToNext(t, i);
        LabelsLive(h, kid);
        HoldsFrame(h, live, kid);
        hide Labels, LabelsUpTo, DeletedOnce;
        FreeTree(items[i], kid);
        DeletedBoth(old(deleted), before, deleted, LabelsUpTo(t.kids, i), Labels(kid));
      }
    }

    method FreeFields(fields: map<string, Ptr>, ghost t: Tree)
      requires t.ObjectTree? && Proper(t) && fields.Keys == t.fields.Keys
      requires forall k :: k in fields ==> fields[k] == t.fields[k].p && Holds(live, t.fields[k])
      modifies this`live, this`deleted
      ensures live == old(live) - LabelsUnder(t.fields, t.fields.Keys)
      ensures DeletedOnce(old(deleted), deleted, LabelsUnder(t.fields, t.fields.Keys))
      decreases t, 1
    {
      hide Holds, Proper;
      ghost var h := live;
      var todo := fields.Keys;
      ghost var done: set<string> := {};
      assert LabelsUnder(t.fields, {}) == {} && DeletedOnce(deleted, deleted, {});
      hide Labels, LabelsUnder, DeletedOnce;
      while todo != {}
        invariant todo <= fields.Keys && done == fields.Keys - todo
        invariant live == h - LabelsUnder(t.fields, done)
        invariant DeletedOnce(old(deleted), deleted, LabelsUnder(t.fields, done))
        decreases todo
      {
        var k :| k in todo;
        FreeNext(fields[k], k, h, t, done, old(deleted));
        todo, done := todo - {k}, done + {k};
      }
    }

    method FreeNext(value: Ptr, ghost k: string, ghost h: Heap, ghost t: Tree, ghost done: set<string>,
        ghost start: seq<Ptr>)
      requires t.ObjectTree? && Proper(t) && k in t.fields && k !in done && done <= t.fields.Keys
               && t.fields[k].p == value
      requires Holds(h, t.fields[k]) && live == h - LabelsUnder(t.fields, done)
      requires DeletedOnce(start, deleted, LabelsUnder(t.fields, done))
      modifies this`live, this`deleted
      ensures live == h - LabelsUnder(t.fields, done + {k})
      ensures DeletedOnce(start, deleted, LabelsUnder(t.fields, done + {k}))
      decreases t, 0
    {
      ghost var kid, before := t.fields[k], deleted;
      UnderNext(t, done, k);
      assert Proper(kid);
      hide Labels, LabelsUnder, DeletedOnce, Proper, Holds;
      LabelsLive(h, kid);
      HoldsFrame(h, live, kid);
      FreeTree(value, kid);
      DeletedBoth(start, before, deleted, LabelsUnder(t.fields, done), Labels(kid));
    }

    // ----- attaching -----

    method ArrayAppend(json: Ptr, value: Ptr) returns (status: Status)
      requires Valid() && (json == NULL || json in live)
      requires json != NULL && live[json].ArrayNode? && value != NULL ==> Attachable(forest, json, value)
      modifies this
      ensures Valid() && deleted == old(deleted)
      ensures status == if json == NULL || !old(live)[json].ArrayNode? || value == NULL then InvalidArgument else Ok
      ensures forest == if status == Ok then AppendForest(old(forest), json, value) else old(forest)
    {
      if json == NULL || !live[json].ArrayNode? || value == NULL {
        return InvalidArgument;
      }
      AppendIsForest(forest, json, value);
      live := live[json := ArrayNode(live[json].items + [value])];
      forest := AppendForest(forest, json, value);
      return Ok;
    }

    /** Sets a key; what was under it is freed with everything below it. */
    method ObjectSet(json: Ptr, key: Chars, value: Ptr) returns (status: Status)
      requires Valid() && (json == NULL || json in live)
      requires json != NULL && live[json].ObjectNode? && key.Chars? && value != NULL ==> Attachable(forest, json, value)
      modifies this
      ensures Valid()
      ensures status == if json == NULL || !old(live)[json].ObjectNode? || key.NoChars? || value == NULL
                        then InvalidArgument else Ok
      ensures forest == if status == Ok then SetForest(old(forest), json, key.text, value) else old(forest)
      ensures DeletedOnce(old(deleted), deleted,
                          if status == Ok && key.text in old(live)[json].fields
                              then Replaced(old(forest), json, key.text) else {})
    {
      if json == NULL || !live[json].ObjectNode? || key.NoChars? || value == NULL {
        return InvalidArgument;
      }
      var fields := live[json].fields;
      SetIsForest(forest, json, key.text, value);
      SetKeys(forest, json, key.text, value);
      DropKeepsValue(forest, json, key.text, value);
      if key.text in fields {
        ghost var old' := fields[key.text];
        assert Owns(live, json, old');
        TreeOfHolds(forest, old');
        TreeOfProper(forest, old');
        FreeTree(fields[key.text], TreeOf(forest, old'));
      }
      live := live[json := ObjectNode(fields[key.text := value])];
      forest := SetForest(forest, json, key.text, value);
      return Ok;
    }
  }
}
