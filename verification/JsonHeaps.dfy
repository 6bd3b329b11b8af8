/**
 The JSON value functions of the C API on their heap.

 Handles are addresses. A call that attaches a value takes over its ownership,
 replacing a key frees what was there, and freeing a value frees everything below
 it. An allocation either fails or gives an address that is not in use.
 */
module JsonHeaps {
  import opened JsonValues
  import opened JsonForest

  datatype Status = Ok | InvalidArgument

  /** A `const char*`: null or a C string. */
  datatype Chars = NoChars | Chars(text: string)

  // ----- the operations on forests -----

  ghost function Below(f: Forest, p: Ptr): set<Ptr>
    requires IsForest(f) && p in f.live
  {
    Labels(TreeOf(f, p))
  }

  /** The value may be attached: it is live, nobody owns it, and `json` is not part of it. */
  ghost predicate Attachable(f: Forest, json: Ptr, value: Ptr) {
    IsForest(f) && json in f.live && value in f.live && value !in f.parent && json !in Below(f, value)
  }

  ghost function AppendForest(f: Forest, json: Ptr, value: Ptr): Forest
    requires Attachable(f, json, value) && f.live[json].ArrayNode?
  {
    Attached(f, json, ArrayNode(f.live[json].items + [value]), value, Below(f, value))
  }

  /** The object without the key, and without everything that was below it. */
  ghost function DropForest(f: Forest, json: Ptr, key: string): Forest
    requires IsForest(f) && json in f.live && f.live[json].ObjectNode? && key in f.live[json].fields
  {
    var old' := f.live[json].fields[key];
    assert Owns(f.live, json, old');
    Pruned(Detached(f, json, ObjectNode(f.live[json].fields - {key}), old'), Below(f, old'))
  }

  ghost function SetForest(f: Forest, json: Ptr, key: string, value: Ptr): (f': Forest)
    requires Attachable(f, json, value) && f.live[json].ObjectNode?
  {
    var fields := f.live[json].fields;
    DropKeepsValue(f, json, key, value);
    Attached(if key in fields then DropForest(f, json, key) else f,
             json, ObjectNode(fields[key := value]), value, Below(f, value))
  }

  ghost function FreeForest(f: Forest, p: Ptr): Forest
    requires IsForest(f) && p in f.live
  {
    Pruned(f, Below(f, p))
  }

  lemma AppendIsForest(f: Forest, json: Ptr, value: Ptr)
    requires Attachable(f, json, value) && f.live[json].ArrayNode?
    ensures IsForest(AppendForest(f, json, value))
  {
    var items := f.live[json].items;
    TreeOfSubtree(f, value);
    forall i | 0 <= i < |items| ensures items[i] != value {
      assert Owns(f.live, json, items[i]);
    }
    var node := ArrayNode(items + [value]);
    assert Kids(node) == Kids(f.live[json]) + {value} by {
      assert forall i :: 0 <= i < |items| ==> (items + [value])[i] == items[i];
      assert (items + [value])[|items|] == value;
    }
    AttachedIsForest(f, json, node, value, Below(f, value));
  }

  /** The old value under a key and the new one have nothing in common, and `json` is in neither. */
  lemma DropKeepsValue(f: Forest, json: Ptr, key: string, value: Ptr)
    requires Attachable(f, json, value) && f.live[json].ObjectNode?
    ensures key in f.live[json].fields ==>
              var old' := f.live[json].fields[key];
              old' in f.live && json !in Below(f, old') && Below(f, old') !! Below(f, value)
              && value in DropForest(f, json, key).live
  {
    var fields := f.live[json].fields;
    if key in fields {
      var old' := fields[key];
      assert Owns(f.live, json, old');
      TreeOfSubtree(f, old');
      TreeOfSubtree(f, value);
      forall x | x in Below(f, old') && x in Below(f, value) ensures false {
        SubtreesNest(f, old', Below(f, old'), value, Below(f, value), x);
      }
    }
  }

  lemma DropIsForest(f: Forest, json: Ptr, key: string, value: Ptr)
    requires Attachable(f, json, value) && f.live[json].ObjectNode? && key in f.live[json].fields
    ensures IsForest(DropForest(f, json, key))
    ensures IsSubtree(DropForest(f, json, key), value, Below(f, value))
    ensures json in DropForest(f, json, key).live && value !in DropForest(f, json, key).parent
    ensures DropForest(f, json, key).live[json] == ObjectNode(f.live[json].fields - {key})
  {
    var fields := f.live[json].fields;
    var old' := fields[key];
    var node := ObjectNode(fields - {key});
    assert Owns(f.live, json, old');
    assert Kids(node) == Kids(f.live[json]) - {old'} by {
      forall c | c in Kids(f.live[json]) && c != old' ensures c in Kids(node) {
        var k :| k in fields && fields[k] == c;
        assert k in fields - {key} && (fields - {key})[k] == c;
      }
    }
    DetachedIsForest(f, json, node, old');
    var f1 := Detached(f, json, node, old');
    var L := Below(f, old');
    TreeOfSubtree(f, old');
    TreeOfSubtree(f, value);
    DropKeepsValue(f, json, key, value);
    forall x, c | Owns(f1.live, x, c) ensures Owns(f.live, x, c) {
    }
    assert IsSubtree(f1, old', L);
    PrunedIsForest(f1, old', L);
    forall x, c | Owns(DropForest(f, json, key).live, x, c) ensures Owns(f.live, x, c) {
    }
  }

  lemma FieldSet(fields: map<string, Ptr>, key: string, value: Ptr)
    requires Single(ObjectNode(fields - {key})) && value !in (fields - {key}).Values
    ensures Kids(ObjectNode(fields[key := value])) == Kids(ObjectNode(fields - {key})) + {value}
    ensures Single(ObjectNode(fields[key := value]))
  {
    var rest, all := fields - {key}, fields[key := value];
    assert key in all && forall k :: k in rest ==> k in all && all[k] == rest[k];
    forall k | k in all && k != key ensures all[k] in rest.Values {
      assert k in rest && rest[k] == all[k];
    }
  }

  lemma SetIsForest(f: Forest, json: Ptr, key: string, value: Ptr)
    requires Attachable(f, json, value) && f.live[json].ObjectNode?
    ensures IsForest(SetForest(f, json, key, value))
  {
    var fields := f.live[json].fields;
    var rest := fields - {key};
    TreeOfSubtree(f, value);
    if key in fields {
      DropIsForest(f, json, key, value);
    } else {
      assert rest == fields;
    }
    forall k | k in rest ensures rest[k] != value {
      assert Owns(f.live, json, rest[k]);
    }
    FieldSet(fields, key, value);
    AttachedIsForest(if key in fields then DropForest(f, json, key) else f,
                     json, ObjectNode(fields[key := value]), value, Below(f, value));
  }

  lemma FreeIsForest(f: Forest, p: Ptr)
    requires IsForest(f) && p in f.live && p !in f.parent
    ensures IsForest(FreeForest(f, p))
  {
    TreeOfSubtree(f, p);
    PrunedIsForest(f, p, Below(f, p));
  }

  // ----- runs of calls -----

  /** Calls that do something; an address given to a creation is what the allocator answered. */
  datatype Call =
    | Create(p: Ptr, node: Node)
    | Append(json: Ptr, value: Ptr)
    | Set(json: Ptr, key: string, value: Ptr)
    | Free(p: Ptr)

  /** The heap, every node ever created, and every node deleted, with multiplicity. */
  datatype World = World(f: Forest, created: multiset<Ptr>, deleted: multiset<Ptr>)

  /** What a correct caller keeps to: live values, each owned once, never inside themselves, freed by their owner. */
  ghost predicate Allowed(f: Forest, c: Call) {
    IsForest(f) &&
    match c
    case Create(p, node) => p != NULL && p !in f.live && Kids(node) == {} && Single(node)
    case Append(json, value) => Attachable(f, json, value) && f.live[json].ArrayNode?
    case Set(json, key, value) => Attachable(f, json, value) && f.live[json].ObjectNode?
    case Free(p) => p in f.live && p !in f.parent
  }

  ghost function CallStep(w: World, c: Call): World
    requires Allowed(w.f, c)
  {
    match c
    case Create(p, node) => World(Created(w.f, p, node), w.created + multiset{p}, w.deleted)
    case Append(json, value) => w.(f := AppendForest(w.f, json, value))
    case Set(json, key, value) =>
      var fields := w.f.live[json].fields;
      var gone := if key in fields then Replaced(w.f, json, key) else {};
      w.(f := SetForest(w.f, json, key, value), deleted := w.deleted + multiset(gone))
    case Free(p) => w.(f := FreeForest(w.f, p), deleted := w.deleted + multiset(Below(w.f, p)))
  }

  /** Everything that replacing a key deletes. */
  ghost function Replaced(f: Forest, json: Ptr, key: string): set<Ptr>
    requires IsForest(f) && json in f.live && f.live[json].ObjectNode? && key in f.live[json].fields
  {
    assert Owns(f.live, json, f.live[json].fields[key]);
    Below(f, f.live[json].fields[key])
  }

  ghost predicate AllowedRun(w: World, cs: seq<Call>)
    decreases |cs|
  {
    cs == [] || (Allowed(w.f, cs[0]) && AllowedRun(CallStep(w, cs[0]), cs[1..]))
  }

  ghost function RunCalls(w: World, cs: seq<Call>): World
    requires AllowedRun(w, cs)
    decreases |cs|
  {
    if cs == [] then w else RunCalls(CallStep(w, cs[0]), cs[1..])
  }

  /** A node created is live or was deleted, and not both: none leaks out of sight, none is deleted twice. */
  ghost predicate Accounted(w: World) {
    w.created == multiset(w.f.live.Keys) + w.deleted
  }

  lemma SplitSet(a: set<Ptr>, b: set<Ptr>)
    requires b <= a
    ensures multiset(a) == multiset(a - b) + multiset(b)
  {
  }

  lemma CreateKeeps(w: World, p: Ptr, node: Node)
    requires Allowed(w.f, Create(p, node)) && Accounted(w)
    ensures IsForest(CallStep(w, Create(p, node)).f) && Accounted(CallStep(w, Create(p, node)))
  {
    CreatedIsForest(w.f, p, node);
    assert w.f.live[p := node].Keys == w.f.live.Keys + {p};
  }

  lemma AppendKeeps(w: World, json: Ptr, value: Ptr)
    requires Allowed(w.f, Append(json, value)) && Accounted(w)
    ensures IsForest(CallStep(w, Append(json, value)).f) && Accounted(CallStep(w, Append(json, value)))
  {
    AppendIsForest(w.f, json, value);
    assert AppendForest(w.f, json, value).live.Keys == w.f.live.Keys;
  }

  lemma SetKeeps(w: World, json: Ptr, key: string, value: Ptr)
    requires Allowed(w.f, Set(json, key, value)) && Accounted(w)
    ensures IsForest(CallStep(w, Set(json, key, value)).f) && Accounted(CallStep(w, Set(json, key, value)))
  {
    SetIsForest(w.f, json, key, value);
    SetKeys(w.f, json, key, value);
  }

  lemma FreeKeeps(w: World, p: Ptr)
    requires Allowed(w.f, Free(p)) && Accounted(w)
    ensures IsForest(CallStep(w, Free(p)).f) && Accounted(CallStep(w, Free(p)))
  {
    FreeIsForest(w.f, p);
    TreeOfSubtree(w.f, p);
    SplitSet(w.f.live.Keys, Below(w.f, p));
    assert FreeForest(w.f, p).live.Keys == w.f.live.Keys - Below(w.f, p);
  }

  lemma CallKeepsForest(w: World, c: Call)
    requires Allowed(w.f, c) && Accounted(w)
    ensures IsForest(CallStep(w, c).f) && Accounted(CallStep(w, c))
  {
    hide CallStep, IsForest, Accounted;
    match c
    case Create(p, node) => CreateKeeps(w, p, node);
    case Append(json, value) => AppendKeeps(w, json, value);
    case Set(json, key, value) => SetKeeps(w, json, key, value);
    case Free(p) => FreeKeeps(w, p);
  }

  /** Setting a key takes exactly the replaced value and everything below it off the heap. */
  lemma SetKeys(f: Forest, json: Ptr, key: string, value: Ptr)
    requires Attachable(f, json, value) && f.live[json].ObjectNode?
    ensures var gone := if key in f.live[json].fields then Replaced(f, json, key) else {};
            && SetForest(f, json, key, value).live
               == (f.live - gone)[json := ObjectNode(f.live[json].fields[key := value])]
            && SetForest(f, json, key, value).live.Keys == f.live.Keys - gone
            && multiset(f.live.Keys) == multiset(SetForest(f, json, key, value).live.Keys) + multiset(gone)
  {
    DropKeepsValue(f, json, key, value);
    if key in f.live[json].fields {
      var gone := Replaced(f, json, key);
      assert Owns(f.live, json, f.live[json].fields[key]);
      TreeOfSubtree(f, f.live[json].fields[key]);
      SplitSet(f.live.Keys, gone);
      assert SetForest(f, json, key, value).live.Keys == f.live.Keys - gone;
    } else {
      assert SetForest(f, json, key, value).live.Keys == f.live.Keys;
    }
  }

  /** In every state that allowed calls reach, the live nodes are a forest and every node is accounted for. */
  lemma {:induction false} RunKeepsForest(w: World, cs: seq<Call>)
    requires IsForest(w.f) && Accounted(w) && AllowedRun(w, cs)
    ensures IsForest(RunCalls(w, cs).f) && Accounted(RunCalls(w, cs))
    decreases |cs|
  {
    if cs != [] {
      CallKeepsForest(w, cs[0]);
      RunKeepsForest(CallStep(w, cs[0]), cs[1..]);
    }
  }
}
