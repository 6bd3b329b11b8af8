/**
 Bringing a filter-chain configuration into its normal form, in place.

 The configuration is a reference to a JSON value. Erasing a key through such a
 reference acts on the reference's own storage; where the reference is a view into
 a larger value, that storage is null and erasing from it throws. The filters of a
 chain are always reached through views, so `OwnNull` is what the chain meets;
 `TheValue` is what normalizing the typed config of a value of one's own meets, and
 what the chain would do if erasing reached the value referred to.
 */
module FilterConfig {
  import opened JsonValues
  import opened Decimals

  /** What erase works on: the value referred to, or a view's own null, as for the filters of a chain. */
  datatype EraseTarget = TheValue | OwnNull

  datatype Error =
    | NotAnObject
    | MissingFilters
    | FiltersNotAnArray
    | FilterNotAnObject(index: nat)
    | MissingType(index: nat)
    | EraseFromNull

  datatype Result = Ok(count: nat) | Threw(error: Error)

  /** The value after a call, and what the call returned. */
  datatype After<T> = After(value: T, result: Result)

  predicate HasString(v: Json, key: string) {
    v.JObject? && key in v.fields && v.fields[key].JString?
  }

  predicate HasObject(v: Json, key: string) {
    v.JObject? && key in v.fields && v.fields[key].JObject?
  }

  function WithField(v: Json, key: string, x: Json): Json
    requires v.JObject?
  {
    JObject(v.fields[key := x])
  }

  const EMPTY_OBJECT := JObject(map[])

  /** A typed config becomes the config, without its type; counted as one when it was there. */
  function TypedConfig(filter: Json, erase: EraseTarget): After<Json> {
    if !HasObject(filter, "typed_config") then After(filter, Ok(0))
    else
      var typed := filter.fields["typed_config"];
      var moved := WithField(filter, "config", JObject(typed.fields - {"@type"}));
      match erase
      case TheValue => After(JObject(moved.fields - {"typed_config"}), Ok(1))
      case OwnNull => After(moved, Threw(EraseFromNull))
  }

  function FallbackName(filterType: string, index: nat): string { filterType + ":" + Decimal(index) }

  predicate HasName(v: Json) { HasString(v, "name") && v.fields["name"].s != "" }

  /** The defaults of one filter, in their order. */
  function Defaults(filter: Json, index: nat): Json
    requires HasString(filter, "type")
  {
    var f1 := if HasName(filter) then filter
              else WithField(filter, "name", JString(FallbackName(filter.fields["type"].s, index)));
    var f2 := if HasObject(f1, "config") then f1 else WithField(f1, "config", EMPTY_OBJECT);
    var f3 := if "enabled" in f2.fields then f2 else WithField(f2, "enabled", JBool(true));
    if "enabled_when" in f3.fields then f3 else WithField(f3, "enabled_when", EMPTY_OBJECT)
  }

  function Filter(filter: Json, index: nat, erase: EraseTarget): After<Json> {
    if !filter.JObject? then After(filter, Threw(FilterNotAnObject(index)))
    else
      var typed := TypedConfig(filter, erase);
      if typed.result.Threw? then typed
      else if !HasString(typed.value, "type") then After(typed.value, Threw(MissingType(index)))
      else After(Defaults(typed.value, index), typed.result)
  }

  /** The filters from `from` on; the first one that throws ends it. */
  function Filters(items: seq<Json>, from: nat, erase: EraseTarget): After<seq<Json>>
    requires from <= |items|
    decreases |items| - from
  {
    if from == |items| then After(items, Ok(0))
    else
      var one := Filter(items[from], from, erase);
      var changed := items[from := one.value];
      if one.result.Threw? then After(changed, one.result)
      else
        var rest := Filters(changed, from + 1, erase);
        if rest.result.Threw? then rest else After(rest.value, Ok(one.result.count + rest.result.count))
  }

  /** The defaults of the configuration itself. */
  function Head(config: Json): Json
    requires config.JObject?
  {
    var c1 := if HasString(config, "name") then config else WithField(config, "name", JString("default"));
    if HasString(c1, "transport_type") then c1 else WithField(c1, "transport_type", JString("tcp"))
  }

  function Chain(config: Json, erase: EraseTarget): After<Json> {
    if !config.JObject? then After(config, Threw(NotAnObject))
    else
      var head := Head(config);
      if "filters" !in head.fields then After(head, Threw(MissingFilters))
      else if !head.fields["filters"].JArray? then After(head, Threw(FiltersNotAnArray))
      else
        var filters := Filters(head.fields["filters"].items, 0, erase);
        After(WithField(head, "filters", JArray(filters.value)), filters.result)
  }

  // ----- in place -----

  class Configuration {
    var value: Json
    /** What erase works on for the references into this value. */
    const erase: EraseTarget

    constructor (value: Json, erase: EraseTarget)
      ensures this.value == value && this.erase == erase
    {
      this.value, this.erase := value, erase;
    }

    /** Normalizes the whole chain; an exception leaves what was changed before it. */
    method NormalizeFilterChain() returns (result: Result)
      modifies this
      ensures After(value, result) == Chain(old(value), erase)
    {
      if !value.JObject? {
        return Threw(NotAnObject);
      }
      if !HasString(value, "name") {
        value := WithField(value, "name", JString("default"));
      }
      if !HasString(value, "transport_type") {
        value := WithField(value, "transport_type", JString("tcp"));
      }
      if "filters" !in value.fields {
        return Threw(MissingFilters);
      }
      if !value.fields["filters"].JArray? {
        return Threw(FiltersNotAnArray);
      }
      result := NormalizeFilters();
    }

    /** The loop over the filters. */
    method NormalizeFilters() returns (result: Result)
      requires HasArray(value, "filters")
      modifies this
      ensures var all := Filters(old(value).fields["filters"].items, 0, erase);
              value == WithField(old(value), "filters", JArray(all.value)) && result == all.result
    {
      hide Filter;
      ghost var head := value;
      ghost var all := Filters(head.fields["filters"].items, 0, erase);
      var count: nat := 0;
      var i, size := 0, |value.fields["filters"].items|;
      WithFieldSame(head, "filters");
      while i < size
        invariant 0 <= i <= size
        invariant HasArray(value, "filters") && |value.fields["filters"].items| == size
        invariant value == WithField(head, "filters", value.fields["filters"])
        invariant all == Counted(count, Filters(value.fields["filters"].items, i, erase))
      {
        ghost var before := value;
        FiltersStep(before.fields["filters"].items, i, erase);
        var one := NormalizeFilter(i);
        WithFieldTwice(head, "filters", before.fields["filters"], value.fields["filters"]);
        if one.Threw? {
          return one;
        }
        count := count + one.count;
        i := i + 1;
      }
      return Ok(count);
    }

    /** The loop body: one filter, checked and completed. */
    method NormalizeFilter(index: nat) returns (result: Result)
      requires HasArray(value, "filters") && index < |value.fields["filters"].items|
      modifies this
      ensures HasArray(value, "filters")
      ensures value == WithField(old(value), "filters", value.fields["filters"])
      ensures var items := old(value).fields["filters"].items;
              value.fields["filters"].items == items[index := Filter(items[index], index, erase).value]
              && result == Filter(items[index], index, erase).result
    {
      if !value.fields["filters"].items[index].JObject? {
        return Threw(FilterNotAnObject(index));
      }
      var typed := NormalizeTypedConfig(index);
      if typed.Threw? {
        return typed;
      }
      var filter := value.fields["filters"].items[index];
      if !HasString(filter, "type") {
        return Threw(MissingType(index));
      }
      if !HasName(filter) {
        filter := WithField(filter, "name", JString(FallbackName(filter.fields["type"].s, index)));
      }
      if !HasObject(filter, "config") {
        filter := WithField(filter, "config", EMPTY_OBJECT);
      }
      if "enabled" !in filter.fields {
        filter := WithField(filter, "enabled", JBool(true));
      }
      if "enabled_when" !in filter.fields {
        filter := WithField(filter, "enabled_when", EMPTY_OBJECT);
      }
      SetFilter(index, filter);
      return typed;
    }

    /** Moves a filter's typed config to its config. */
    method NormalizeTypedConfig(index: nat) returns (result: Result)
      requires HasArray(value, "filters") && index < |value.fields["filters"].items|
      modifies this
      ensures HasArray(value, "filters")
      ensures value == WithField(old(value), "filters", value.fields["filters"])
      ensures var items := old(value).fields["filters"].items;
              value.fields["filters"].items == items[index := TypedConfig(items[index], erase).value]
              && result == TypedConfig(items[index], erase).result
    {
      var filter := value.fields["filters"].items[index];
      if !HasObject(filter, "typed_config") {
        return Ok(0);
      }
      var typed := filter.fields["typed_config"];
      if "@type" in typed.fields {
        typed := JObject(typed.fields - {"@type"});
      }
      assert typed.fields == filter.fields["typed_config"].fields - {"@type"};
      filter := WithField(filter, "config", typed);
      SetFilter(index, filter);
      if erase == OwnNull {
        return Threw(EraseFromNull);
      }
      SetFilter(index, JObject(filter.fields - {"typed_config"}));
      return Ok(1);
    }

    method SetFilter(index: nat, filter: Json)
      requires HasArray(value, "filters") && index < |value.fields["filters"].items|
      modifies this
      ensures HasArray(value, "filters")
      ensures value == WithField(old(value), "filters", value.fields["filters"])
      ensures value.fields["filters"].items == old(value).fields["filters"].items[index := filter]
    {
      value := WithField(value, "filters", JArray(value.fields["filters"].items[index := filter]));
    }
  }

  predicate HasArray(v: Json, key: string) {
    v.JObject? && key in v.fields && v.fields[key].JArray?
  }

  /** The outcome of the remaining filters when `count` were counted before. */
  function Counted(count: nat, rest: After<seq<Json>>): After<seq<Json>> {
    if rest.result.Threw? then rest else After(rest.value, Ok(count + rest.result.count))
  }

  lemma WithFieldSame(v: Json, key: string)
    requires v.JObject? && key in v.fields
    ensures WithField(v, key, v.fields[key]) == v
  {
    assert v.fields[key := v.fields[key]] == v.fields;
  }

  lemma WithFieldTwice(v: Json, key: string, x: Json, y: Json)
    requires v.JObject?
    ensures WithField(WithField(v, key, x), key, y) == WithField(v, key, y)
  {
    assert v.fields[key := x][key := y] == v.fields[key := y];
  }

  /** What the loop body does to the outcome that remains. */
  lemma FiltersStep(items: seq<Json>, i: nat, erase: EraseTarget)
    requires i < |items|
    ensures var one := Filter(items[i], i, erase);
            Filters(items, i, erase)
            == if one.result.Threw? then After(items[i := one.value], one.result)
               else Counted(one.result.count, Filters(items[i := one.value], i + 1, erase))
  {
  }

  // ----- the normal form -----

  ghost predicate NormalFilter(f: Json) {
    HasString(f, "type") && HasName(f) && HasObject(f, "config")
    && "enabled" in f.fields && "enabled_when" in f.fields && !HasObject(f, "typed_config")
  }

  ghost predicate NormalChain(c: Json) {
    HasString(c, "name") && HasString(c, "transport_type") && HasArray(c, "filters")
    && forall i :: 0 <= i < |c.fields["filters"].items| ==> NormalFilter(c.fields["filters"].items[i])
  }

  /** A filter that can be normalized: an object with a type, and nothing to erase through a view. */
  ghost predicate Acceptable(f: Json, erase: EraseTarget) {
    HasString(f, "type") && (HasObject(f, "typed_config") ==> erase == TheValue)
  }

  /** The keys a normalization may write. */
  const WRITTEN := {"name", "config", "enabled", "enabled_when", "typed_config"}

  /** A field is the one there was, or what is filled in where there was none. */
  ghost predicate KeptOr(f: Json, f': Json, key: string, kept: bool, filled: Json)
    requires f.JObject? && (kept ==> key in f.fields)
  {
    f'.JObject? && key in f'.fields && f'.fields[key] == if kept then f.fields[key] else filled
  }

  /** What a normalization makes of an acceptable filter, field by field. */
  ghost predicate Completed(f: Json, f': Json, index: nat)
    requires HasString(f, "type")
  {
    && Leaves(f, f')
    && KeptOr(f, f', "name", HasString(f, "name") && f.fields["name"].s != "",
           JString(f.fields["type"].s + ":" + Decimal(index)))
    && KeptOr(f, f', "enabled", "enabled" in f.fields, JBool(true))
    && KeptOr(f, f', "enabled_when", "enabled_when" in f.fields, JObject(map[]))
    && (if HasObject(f, "typed_config") then
          "typed_config" !in f'.fields && "config" in f'.fields
          && f'.fields["config"] == JObject(f.fields["typed_config"].fields - {"@type"})
        else
          && KeptOr(f, f', "config", HasObject(f, "config"), JObject(map[]))
          && ("typed_config" in f'.fields <==> "typed_config" in f.fields)
          && ("typed_config" in f.fields ==> f'.fields["typed_config"] == f.fields["typed_config"]))
  }

  /** f' has the fields of f, but for those a normalization may write. */
  ghost predicate Leaves(f: Json, f': Json) {
    f.JObject? && f'.JObject?
    && (forall k :: k in f.fields && k !in WRITTEN ==> k in f'.fields && f'.fields[k] == f.fields[k])
    && (forall k :: k in f'.fields && k !in WRITTEN ==> k in f.fields)
  }

  lemma TypedConfigMeaning(f: Json, erase: EraseTarget)
    requires f.JObject?
    ensures var after := TypedConfig(f, erase);
            && Leaves(f, after.value) && (HasString(after.value, "type") <==> HasString(f, "type"))
            && (after.result.Ok? <==> (HasObject(f, "typed_config") ==> erase == TheValue))
            && (HasName(after.value) <==> HasName(f)) && (HasName(f) ==> after.value.fields["name"] == f.fields["name"])
            && (after.result.Ok? ==>
                  && after.result.count == (if HasObject(f, "typed_config") then 1 else 0)
                  && !HasObject(after.value, "typed_config")
                  && (HasObject(f, "typed_config") ==>
                        HasObject(after.value, "config")
                        && after.value.fields["config"] == JObject(f.fields["typed_config"].fields - {"@type"})))
            && (HasString(f, "type") ==> after.value.fields["type"] == f.fields["type"])
            && (after.result.Ok? && !HasObject(f, "typed_config") ==> after.value == f)
            && (after.result.Ok? && HasObject(f, "typed_config") ==> "typed_config" !in after.value.fields)
            && (forall k :: k in {"enabled", "enabled_when"} ==>
                  (k in after.value.fields <==> k in f.fields)
                  && (k in f.fields ==> after.value.fields[k] == f.fields[k]))
  {
  }

  lemma DefaultsMeaning(f: Json, index: nat)
    requires HasString(f, "type") && !HasObject(f, "typed_config")
    ensures Completed(f, Defaults(f, index), index) && NormalFilter(Defaults(f, index))
  {
    hide Decimal, FallbackName;
    var d := Defaults(f, index);
    DefaultsLeave(f, index);
    hide Defaults, Leaves;
    assert FallbackName(f.fields["type"].s, index) == f.fields["type"].s + ":" + Decimal(index) by {
      FallbackIs(f.fields["type"].s, index);
    }
  }

  lemma FallbackIs(filterType: string, index: nat)
    ensures FallbackName(filterType, index) == filterType + ":" + Decimal(index)
  {
  }

  lemma DefaultsLeave(f: Json, index: nat)
    requires HasString(f, "type") && !HasObject(f, "typed_config")
    ensures var d := Defaults(f, index);
            && Leaves(f, d) && HasString(d, "type") && !HasObject(d, "typed_config")
            && KeptOr(f, d, "name", HasName(f), JString(FallbackName(f.fields["type"].s, index)))
            && KeptOr(f, d, "config", HasObject(f, "config"), JObject(map[]))
            && KeptOr(f, d, "enabled", "enabled" in f.fields, JBool(true))
            && KeptOr(f, d, "enabled_when", "enabled_when" in f.fields, JObject(map[]))
            && ("typed_config" in d.fields <==> "typed_config" in f.fields)
            && ("typed_config" in f.fields ==> d.fields["typed_config"] == f.fields["typed_config"])
            && FallbackName(f.fields["type"].s, index) != ""
  {
  }

  /** One filter: when it succeeds, what it makes and what it leaves. */
  lemma FilterMeaning(f: Json, index: nat, erase: EraseTarget)
    ensures var after := Filter(f, index, erase);
            && (after.result.Ok? <==> Acceptable(f, erase))
            && (after.result.Ok? ==>
                  && NormalFilter(after.value) && Completed(f, after.value, index)
                  && after.result.count == if HasObject(f, "typed_config") then 1 else 0)
  {
    hide Defaults, TypedConfig, Decimal;
    if f.JObject? {
      TypedConfigMeaning(f, erase);
      if Acceptable(f, erase) {
        DefaultsMeaning(TypedConfig(f, erase).value, index);
      }
    }
  }

  /** What is left of a filter that is not: the first thing wrong with it, and its typed config moved already. */
  lemma FilterRefused(f: Json, index: nat, erase: EraseTarget)
    requires !Acceptable(f, erase)
    ensures var after := Filter(f, index, erase);
            if !f.JObject? then after == After(f, Threw(FilterNotAnObject(index)))
            else if !HasObject(f, "typed_config") then after == After(f, Threw(MissingType(index)))
            else
              var moved := f.fields["config" := JObject(f.fields["typed_config"].fields - {"@type"})];
              after == if erase == OwnNull then After(JObject(moved), Threw(EraseFromNull))
                       else After(JObject(moved - {"typed_config"}), Threw(MissingType(index)))
  {
  }

  lemma NormalFilterUnchanged(f: Json, index: nat, erase: EraseTarget)
    requires NormalFilter(f)
    ensures Filter(f, index, erase) == After(f, Ok(0))
  {
  }

  lemma {:induction false} FiltersMeaning(items: seq<Json>, from: nat, erase: EraseTarget)
    requires from <= |items|
    requires forall i :: 0 <= i < from ==> NormalFilter(items[i])
    ensures var after := Filters(items, from, erase);
            && |after.value| == |items|
            && (after.result.Ok? <==> forall i :: from <= i < |items| ==> Acceptable(items[i], erase))
            && (after.result.Ok? ==>
                  && (forall i :: 0 <= i < from ==> after.value[i] == items[i])
                  && (forall i :: from <= i < |items| ==> after.value[i] == Filter(items[i], i, erase).value)
                  && (forall i :: 0 <= i < |items| ==> NormalFilter(after.value[i])))
    decreases |items| - from
  {
    hide Filter, Acceptable, NormalFilter;
    if from < |items| {
      FilterMeaning(items[from], from, erase);
      var one := Filter(items[from], from, erase);
      if one.result.Ok? {
        var changed := items[from := one.value];
        FiltersMeaning(changed, from + 1, erase);
        assert forall i :: from < i < |items| ==> changed[i] == items[i];
        assert forall i :: from < i < |items| ==> (Acceptable(items[i], erase) <==> Acceptable(changed[i], erase));
      }
    }
  }

  lemma {:induction false} NormalFiltersUnchanged(items: seq<Json>, from: nat, erase: EraseTarget)
    requires from <= |items| && forall i :: 0 <= i < |items| ==> NormalFilter(items[i])
    ensures Filters(items, from, erase) == After(items, Ok(0))
    decreases |items| - from
  {
    if from < |items| {
      NormalFilterUnchanged(items[from], from, erase);
      assert items[from := items[from]] == items;
      NormalFiltersUnchanged(items, from + 1, erase);
    }
  }

  /** A name and a transport type where there was no string, and all else but the filters as it was. */
  ghost predicate HeadDone(c: Json, c': Json)
    requires c.JObject?
  {
    && KeptOr(c, c', "name", HasString(c, "name"), JString("default"))
    && KeptOr(c, c', "transport_type", HasString(c, "transport_type"), JString("tcp"))
    && c'.fields.Keys == c.fields.Keys + {"name", "transport_type"}
    && (forall k :: k in c.fields && k !in {"name", "transport_type", "filters"} ==> c'.fields[k] == c.fields[k])
  }

  /** The filters in front of one are completed, and those behind it are as they were. */
  ghost predicate DoneUpTo(items: seq<Json>, items': seq<Json>, upTo: nat) {
    && upTo <= |items| == |items'|
    && (forall i :: 0 <= i < upTo ==> HasString(items[i], "type") && Completed(items[i], items'[i], i))
    && (forall i :: upTo < i < |items| ==> items'[i] == items[i])
  }

  lemma HeadMeaning(c: Json)
    requires c.JObject?
    ensures HeadDone(c, Head(c)) && ("filters" in Head(c).fields <==> "filters" in c.fields)
    ensures "filters" in c.fields ==> Head(c).fields["filters"] == c.fields["filters"]
  {
  }

  /** Normalizing succeeds exactly for an object with an array of acceptable filters, and then gives the normal form. */
  lemma ChainMeaning(config: Json, erase: EraseTarget)
    ensures var after := Chain(config, erase);
            && (after.result.Ok? <==>
                  (HasArray(config, "filters")
                   && forall i :: 0 <= i < |config.fields["filters"].items| ==>
                        Acceptable(config.fields["filters"].items[i], erase)))
            && (after.result.Ok? ==>
                  && NormalChain(after.value) && HeadDone(config, after.value)
                  && after.result.count == TypedCount(config.fields["filters"].items)
                  && (var items, items' := config.fields["filters"].items, after.value.fields["filters"].items;
                      DoneUpTo(items, items', |items|)))
  {
    hide Head, HeadDone, Filters, Filter, Completed, NormalFilter;
    if HasArray(config, "filters") {
      var items := config.fields["filters"].items;
      HeadMeaning(config);
      FiltersMeaning(items, 0, erase);
      HeadAside(config, Head(config), JArray(Filters(items, 0, erase).value));
      if Filters(items, 0, erase).result.Ok? {
        AllDone(items, erase);
        CountOfTyped(items, 0, erase);
        assert items[0..] == items;
      }
    } else if config.JObject? {
      HeadMeaning(config);
    }
  }

  lemma HeadAside(c: Json, head: Json, filters: Json)
    requires c.JObject? && "filters" in c.fields && HeadDone(c, head)
    ensures HeadDone(c, WithField(head, "filters", filters))
    ensures HasString(head, "name") && HasString(head, "transport_type")
  {
  }

  lemma AllDone(items: seq<Json>, erase: EraseTarget)
    requires Filters(items, 0, erase).result.Ok?
    ensures DoneUpTo(items, Filters(items, 0, erase).value, |items|)
  {
    hide Filters, Filter, Completed, NormalFilter;
    FiltersMeaning(items, 0, erase);
    forall i | 0 <= i < |items|
      ensures HasString(items[i], "type") && Completed(items[i], Filters(items, 0, erase).value[i], i)
    {
      FilterMeaning(items[i], i, erase);
    }
  }

  function TypedCount(items: seq<Json>): nat {
    if items == [] then 0 else (if HasObject(items[0], "typed_config") then 1 else 0) + TypedCount(items[1..])
  }

  /** One is counted for each typed config moved. */
  lemma {:induction false} CountOfTyped(items: seq<Json>, from: nat, erase: EraseTarget)
    requires from <= |items| && Filters(items, from, erase).result.Ok?
    ensures Filters(items, from, erase).result.count == TypedCount(items[from..])
    decreases |items| - from
  {
    hide Filter, Completed, NormalFilter;
    if from < |items| {
      var one := Filter(items[from], from, erase);
      FilterMeaning(items[from], from, erase);
      CountOfTyped(items[from := one.value], from + 1, erase);
      assert items[from := one.value][from + 1..] == items[from..][1..];
    }
  }

  /** What a refused configuration is left as, and the first thing found wrong with it. */
  lemma ChainRefused(config: Json, erase: EraseTarget)
    requires Chain(config, erase).result.Threw?
    ensures var after := Chain(config, erase);
            if !config.JObject? then after == After(config, Threw(NotAnObject))
            else
              && HeadDone(config, after.value)
              && (if "filters" !in config.fields then after.result == Threw(MissingFilters)
                  else if !config.fields["filters"].JArray? then
                    after.result == Threw(FiltersNotAnArray)
                    && after.value.fields["filters"] == config.fields["filters"]
                  else
                    var items := config.fields["filters"].items;
                    HasArray(after.value, "filters")
                    && exists j: nat :: FirstRefused(items, erase, j)
                         && DoneUpTo(items, after.value.fields["filters"].items, j)
                         && After(after.value.fields["filters"].items[j], after.result) == Filter(items[j], j, erase))
  {
    hide Head, HeadDone, Filters, Filter, Completed, NormalFilter, DoneUpTo, FirstRefused;
    if config.JObject? {
      HeadMeaning(config);
      if HasArray(config, "filters") {
        var items := config.fields["filters"].items;
        HeadAside(config, Head(config), JArray(Filters(items, 0, erase).value));
        var j := FiltersRefused(items, items, 0, erase);
      }
    }
  }

  ghost predicate FirstRefused(items: seq<Json>, erase: EraseTarget, j: nat) {
    j < |items| && !Acceptable(items[j], erase) && forall i :: 0 <= i < j ==> Acceptable(items[i], erase)
  }

  lemma {:induction false} FiltersRefused(given: seq<Json>, items: seq<Json>, from: nat, erase: EraseTarget)
    returns (j: nat)
    requires from <= |items| == |given| && Filters(items, from, erase).result.Threw?
    requires forall i :: from <= i < |items| ==> items[i] == given[i]
    requires forall i :: 0 <= i < from ==> Acceptable(given[i], erase) && Completed(given[i], items[i], i)
    ensures FirstRefused(given, erase, j)
    ensures var after := Filters(items, from, erase);
            && DoneUpTo(given, after.value, j)
            && After(after.value[j], after.result) == Filter(given[j], j, erase)
    decreases |items| - from
  {
    hide Filter, Completed, NormalFilter;
    var one := Filter(items[from], from, erase);
    FilterMeaning(items[from], from, erase);
    if one.result.Threw? {
      j := from;
    } else {
      j := FiltersRefused(given, items[from := one.value], from + 1, erase);
    }
  }

  /** A second run after a successful one changes nothing and counts nothing. */
  lemma ChainIdempotent(config: Json, erase: EraseTarget, again: EraseTarget)
    requires Chain(config, erase).result.Ok?
    ensures Chain(Chain(config, erase).value, again) == After(Chain(config, erase).value, Ok(0))
  {
    ChainMeaning(config, erase);
    var c := Chain(config, erase).value;
    NormalFiltersUnchanged(c.fields["filters"].items, 0, again);
    assert WithField(c, "filters", c.fields["filters"]) == c;
  }

  /** With filters that are views, a typed config makes the whole normalization throw. */
  lemma TypedConfigInView()
    ensures var typed := JObject(map["type" := JString("json_rpc"), "typed_config" := EMPTY_OBJECT]);
            var config := JObject(map["filters" := JArray([typed])]);
            Chain(config, OwnNull).result == Threw(EraseFromNull) && Chain(config, TheValue).result == Ok(1)
  {
    var typed := JObject(map["type" := JString("json_rpc"), "typed_config" := EMPTY_OBJECT]);
    var config := JObject(map["filters" := JArray([typed])]);
    assert HasArray(config, "filters") && Head(config).fields["filters"] == config.fields["filters"];
    assert HasString(typed, "type") && HasObject(typed, "typed_config");
    FilterMeaning(typed, 0, TheValue);
    FilterMeaning(typed, 0, OwnNull);
    assert Filter(typed, 0, OwnNull).result == Threw(EraseFromNull);
    var one := Filter(typed, 0, TheValue);
    assert Filters([typed][0 := one.value], 1, TheValue).result == Ok(0);
    assert Filters([typed], 0, TheValue).result == Ok(1);
  }

  // ----- the fallback names -----

  lemma SuffixApart(a: string, b: string, d: string, e: string)
    requires ':' !in d && ':' !in e && a + ":" + d == b + ":" + e
    ensures d == e
  {
    var s := a + ":" + d;
    assert s[|a|] == ':' && forall k :: |a| < k < |s| ==> s[k] == d[k - |a| - 1];
    var s' := b + ":" + e;
    assert s'[|b|] == ':' && forall k :: |b| < k < |s'| ==> s'[k] == e[k - |b| - 1];
    assert |a| == |b|;
    assert d == s[|a| + 1..] && e == s'[|b| + 1..];
  }

  /** Fallback names of different filters differ, whatever their types. */
  lemma FallbackNamesDistinct(typeA: string, i: nat, typeB: string, j: nat)
    ensures FallbackName(typeA, i) == FallbackName(typeB, j) ==> i == j
  {
    if FallbackName(typeA, i) == FallbackName(typeB, j) {
      SuffixApart(typeA, typeB, Decimal(i), Decimal(j));
      NumeralOfDecimal(i);
      NumeralOfDecimal(j);
    }
  }
}
