/**
 JSON values, and what passing one through C handles makes of it.

 A handle holds numbers as doubles and strings as C strings, so integers are
 rounded, after those of 2^63 and more have wrapped to negative ones, and every
 string and key ends at its first NUL.
 */
module JsonValues {
  datatype Double = Finite(value: real) | Infinite(negative: bool) | NotANumber

  /** An integer of a JSON value: signed or unsigned, in 64 bits. */
  type JsonInt = i: int | -INT64_LIMIT <= i < 2 * INT64_LIMIT

  const INT64_LIMIT: int := 0x8000_0000_0000_0000 // 2^63

  datatype Json =
    | JNull
    | JBool(b: bool)
    | JInteger(i: JsonInt)
    | JFloat(x: Double)
    | JString(s: string)
    | JArray(items: seq<Json>)
    | JObject(fields: map<string, Json>)

  // ----- C strings -----

  /** What is left of a string that is passed as a C string. */
  function CString(s: string): (c: string)
    ensures '\0' !in c
    ensures c <= s && (|c| < |s| ==> s[|c|] == '\0')
  {
    if s == [] || s[0] == '\0' then [] else [s[0]] + CString(s[1..])
  }

  lemma {:induction false} CStringTwice(s: string)
    requires '\0' !in s
    ensures CString(s) == s
  {
    if s != [] {
      CStringTwice(s[1..]);
    }
  }

  // ----- integers as doubles -----

  const EXACT_LIMIT: nat := 0x20_0000_0000_0000 // 2^53

  /** The spacing of doubles around a: the power of two u with a <= 2^53 * u. */
  function Spacing(a: nat, u: nat): (s: nat)
    requires u > 0
    ensures s > 0 && a <= EXACT_LIMIT * s
    decreases a - EXACT_LIMIT * u
  {
    if a <= EXACT_LIMIT * u then u else Spacing(a, 2 * u)
  }

  /** The nearest multiple of u, the even one on a tie. */
  function NearestMultiple(a: nat, u: nat): nat
    requires u > 0
  {
    var q, r := a / u, a % u;
    if 2 * r < u || (2 * r == u && q % 2 == 0) then q * u else (q + 1) * u
  }

  /** The integer value of the double an integer is converted to. */
  function Rounded(i: int): int {
    if i < 0 then 0 - NearestMultiple(-i, Spacing(-i, 1)) else NearestMultiple(i, Spacing(i, 1))
  }

  lemma MultipleExact(a: nat, u: nat)
    requires u > 0
    ensures NearestMultiple(a, u) == a <==> a % u == 0
    ensures 0 - u <= 2 * (NearestMultiple(a, u) - a) <= u
  {
    var q, r := a / u, a % u;
    assert a == q * u + r;
    assert (q + 1) * u == q * u + u;
  }

  /** A multiple of u as near as any, and on a tie the even one. */
  lemma NearestMeaning(a: nat, u: nat)
    requires u > 0
    ensures exists m: nat :: NearestMultiple(a, u) == m * u && (2 * (a % u) == u ==> m % 2 == 0)
    ensures 0 - u <= 2 * (NearestMultiple(a, u) - a) <= u
  {
    MultipleExact(a, u);
    var q, r := a / u, a % u;
    var m: nat := if 2 * r < u || (2 * r == u && q % 2 == 0) then q else q + 1;
    assert NearestMultiple(a, u) == m * u;
  }

  lemma RoundedMultiple(i: int)
    ensures var a := if i < 0 then -i else i;
            (Rounded(i) == i <==> a % Spacing(a, 1) == 0) && (a <= EXACT_LIMIT ==> Rounded(i) == i)
  {
    var a: nat := if i < 0 then -i else i;
    MultipleExact(a, Spacing(a, 1));
  }

  /** What an integer is read as: an unsigned one of 2^63 or more wraps. */
  function AsInt64(i: JsonInt): (r: int)
    ensures -INT64_LIMIT <= r < INT64_LIMIT && (r - i) % (2 * INT64_LIMIT) == 0
  {
    if i < INT64_LIMIT then i else i - 2 * INT64_LIMIT
  }

  /** The integer value of the double a handle holds for an integer. */
  function Held(i: JsonInt): int { Rounded(AsInt64(i)) }

  lemma {:induction false} SpacingBelow(a: nat, u: nat)
    requires 0 < u <= a
    ensures Spacing(a, u) <= a
    decreases a - EXACT_LIMIT * u
  {
    if a > EXACT_LIMIT * u {
      SpacingBelow(a, 2 * u);
    }
  }

  lemma RoundedSign(i: int)
    ensures i > 0 ==> Rounded(i) > 0
    ensures i < 0 ==> Rounded(i) < 0
  {
    var a: nat := if i < 0 then -i else i;
    if a > 0 {
      SpacingBelow(a, 1);
      MultipleExact(a, Spacing(a, 1));
    }
  }

  /** A handle holds the double nearest to an integer exactly when the integer is below 2^63. */
  lemma OwnDouble(i: JsonInt)
    ensures Held(i) == Rounded(i) <==> i < INT64_LIMIT
  {
    RoundedSign(i);
    RoundedSign(AsInt64(i));
  }

  /** The largest integer is held as -1. */
  lemma LargestWraps()
    ensures Held(2 * INT64_LIMIT - 1) == -1 && Handled(JInteger(2 * INT64_LIMIT - 1)) == JFloat(Finite(-1.0))
  {
    RoundedMultiple(-1);
  }

  /**
   An integer keeps its value exactly when it is below 2^63 and the spacing of doubles
   at its size divides it; every one of at most 2^53 in size does.
   */
  lemma RoundedExact(i: JsonInt)
    ensures var a: nat := if i < 0 then -i else i;
            && (Held(i) == i <==> i < INT64_LIMIT && a % Spacing(a, 1) == 0)
            && (a <= EXACT_LIMIT ==> Held(i) == i)
  {
    RoundedMultiple(i);
    RoundedSign(AsInt64(i));
  }

  /** 2^53 + 1 is the first integer to change: it becomes 2^53. */
  lemma FirstInexact()
    ensures Held(EXACT_LIMIT + 1) == EXACT_LIMIT
  {
    var a := EXACT_LIMIT + 1;
    assert Spacing(a, 1) == Spacing(a, 2) == 2;
    assert a / 2 == 0x10_0000_0000_0000 && a % 2 == 1;
  }

  // ----- the order of keys -----

  /** Objects are walked in ascending order of their keys. */
  predicate Before(a: string, b: string) {
    b != [] && (a == [] || a[0] < b[0] || (a[0] == b[0] && Before(a[1..], b[1..])))
  }

  lemma {:induction false} BeforeTotal(a: string, b: string)
    ensures Before(a, b) || a == b || Before(b, a)
    ensures !(Before(a, b) && Before(b, a)) && !Before(a, a)
  {
    if a != [] && b != [] {
      BeforeTotal(a[1..], b[1..]);
      BeforeTotal(a[1..], a[1..]);
      assert a == [a[0]] + a[1..] && b == [b[0]] + b[1..];
    } else if a != [] {
      BeforeTotal(a[1..], a[1..]);
    }
  }

  lemma {:induction false} BeforeTransitive(a: string, b: string, c: string)
    requires Before(a, b) && Before(b, c)
    ensures Before(a, c)
  {
    if a != [] && a[0] == b[0] == c[0] {
      BeforeTransitive(a[1..], b[1..], c[1..]);
    }
  }

  ghost predicate IsLast(keys: set<string>, k: string) {
    k in keys && forall j :: j in keys ==> j == k || Before(j, k)
  }

  ghost predicate IsFirst(keys: set<string>, k: string) {
    k in keys && forall j :: j in keys ==> j == k || Before(k, j)
  }

  /** A set of keys has a first and a last one. */
  lemma {:induction false} EndsExist(keys: set<string>)
    requires keys != {}
    ensures exists k :: IsFirst(keys, k)
    ensures exists k :: IsLast(keys, k)
  {
    var k :| k in keys;
    var rest := keys - {k};
    if rest == {} {
      assert keys == {k};
      assert IsFirst(keys, k) && IsLast(keys, k);
    } else {
      EndsExist(rest);
      var first :| IsFirst(rest, first);
      var last :| IsLast(rest, last);
      BeforeTotal(k, first);
      BeforeTotal(k, last);
      assert IsFirst(keys, if Before(k, first) then k else first) by {
        forall j | j in rest && Before(k, first) && j != first
          ensures Before(k, j)
        {
          BeforeTransitive(k, first, j);
        }
      }
      assert IsLast(keys, if Before(last, k) then k else last) by {
        forall j | j in rest && Before(last, k) && j != last
          ensures Before(j, k)
        {
          BeforeTransitive(j, last, k);
        }
      }
    }
  }

  lemma LastUnique(keys: set<string>, a: string, b: string)
    requires IsLast(keys, a) && IsLast(keys, b)
    ensures a == b
  {
    BeforeTotal(a, b);
  }

  // ----- through the handles -----

  /** The keys that become c as C strings. */
  function KeysFor(keys: set<string>, c: string): set<string> {
    set k | k in keys && CString(k) == c
  }

  /** Of the keys that become c, the one walked last, whose value wins. */
  ghost function Winner(keys: set<string>, c: string): (k: string)
    requires KeysFor(keys, c) != {}
    ensures IsLast(KeysFor(keys, c), k)
  {
    EndsExist(KeysFor(keys, c));
    var k :| IsLast(KeysFor(keys, c), k);
    k
  }

  function Cuts(keys: set<string>): set<string> { set k | k in keys :: CString(k) }

  /** What a value is after a trip through handles. */
  ghost function Handled(v: Json): Json {
    match v
    case JInteger(i) => JFloat(Finite(Held(i) as real))
    case JString(s) => JString(CString(s))
    case JArray(items) => JArray(seq(|items|, i requires 0 <= i < |items| => Handled(items[i])))
    case JObject(fields) => JObject(HandledFields(v, fields.Keys))
    case _ => v
  }

  /** The fields after the keys of a set have been passed on. */
  ghost function HandledFields(v: Json, keys: set<string>): (m: map<string, Json>)
    requires v.JObject? && keys <= v.fields.Keys
    ensures m.Keys == Cuts(keys)
    decreases v, 0
  {
    map c | c in Cuts(keys) :: Handled(v.fields[WinnerIn(v, keys, c)])
  }

  ghost function WinnerIn(v: Json, keys: set<string>, c: string): (k: string)
    requires v.JObject? && keys <= v.fields.Keys && c in Cuts(keys)
    ensures k in v.fields && IsLast(KeysFor(keys, c), k)
  {
    var k :| k in keys && CString(k) == c;
    assert k in KeysFor(keys, c);
    Winner(keys, c)
  }

  /** No integer anywhere in the value, and no NUL in any string or key. */
  ghost predicate Plain(v: Json) {
    match v
    case JInteger(_) => false
    case JString(s) => '\0' !in s
    case JArray(items) => forall i :: 0 <= i < |items| ==> Plain(items[i])
    case JObject(fields) => forall k :: k in fields ==> '\0' !in k && Plain(fields[k])
    case _ => true
  }

  lemma {:induction false} HandledPlain(v: Json)
    ensures Plain(Handled(v))
  {
    match v
    case JArray(items) =>
      forall i | 0 <= i < |items| ensures Plain(Handled(items[i])) { HandledPlain(items[i]); }
    case JObject(fields) =>
      forall c | c in Cuts(fields.Keys) ensures '\0' !in c && Plain(HandledFields(v, fields.Keys)[c]) {
        HandledPlain(fields[WinnerIn(v, fields.Keys, c)]);
      }
    case _ =>
  }

  lemma {:induction false} PlainUnchanged(v: Json)
    requires Plain(v)
    ensures Handled(v) == v
  {
    match v
    case JString(s) => CStringTwice(s);
    case JArray(items) =>
      forall i | 0 <= i < |items| ensures Handled(items[i]) == items[i] { PlainUnchanged(items[i]); }
    case JObject(fields) =>
      forall k | k in fields ensures k in Cuts(fields.Keys) && CString(k) == k && Handled(fields[k]) == fields[k] {
        CStringTwice(k);
        PlainUnchanged(fields[k]);
      }
      assert Cuts(fields.Keys) == fields.Keys;
    case _ =>
  }

  /** A second trip changes nothing. */
  lemma HandledTwice(v: Json)
    ensures Handled(Handled(v)) == Handled(v)
  {
    HandledPlain(v);
    PlainUnchanged(Handled(v));
  }

  /** No two keys of an object become the same C string, here and below. */
  ghost predicate KeysStayApart(v: Json) {
    match v
    case JArray(items) => forall i :: 0 <= i < |items| ==> KeysStayApart(items[i])
    case JObject(fields) =>
      && (forall j, k :: j in fields && k in fields && CString(j) == CString(k) ==> j == k)
      && (forall k :: k in fields ==> KeysStayApart(fields[k]))
    case _ => true
  }

  /** `w` is `v` with integers replaced and strings and keys cut, field by field. */
  ghost predicate SameButCut(v: Json, w: Json) {
    match v
    case JInteger(i) => w == JFloat(Finite(Held(i) as real))
    case JString(s) => w == JString(CString(s))
    case JArray(items) =>
      w.JArray? && |w.items| == |items| && forall i :: 0 <= i < |items| ==> SameButCut(items[i], w.items[i])
    case JObject(fields) =>
      w.JObject? && w.fields.Keys == Cuts(fields.Keys)
      && forall k :: k in fields ==> CString(k) in w.fields && SameButCut(fields[k], w.fields[CString(k)])
    case _ => w == v
  }

  /** While keys stay apart, the trip loses nothing but precision and what is behind a NUL. */
  lemma {:induction false} HandledSameButCut(v: Json)
    requires KeysStayApart(v)
    ensures SameButCut(v, Handled(v))
  {
    match v
    case JArray(items) =>
      forall i | 0 <= i < |items| ensures SameButCut(items[i], Handled(items[i])) { HandledSameButCut(items[i]); }
    case JObject(fields) =>
      forall k | k in fields
        ensures CString(k) in Cuts(fields.Keys) && SameButCut(fields[k], HandledFields(v, fields.Keys)[CString(k)])
      {
        assert WinnerIn(v, fields.Keys, CString(k)) == k;
        HandledSameButCut(fields[k]);
      }
    case _ =>
  }

  /** No two of the keys become the same C string. */
  ghost predicate CutsApart(keys: set<string>) {
    forall j, k :: j in keys && k in keys && CString(j) == CString(k) ==> j == k
  }

  /** An object keeps all its fields exactly when no two of its keys become the same C string. */
  lemma FieldsKept(v: Json)
    requires v.JObject?
    ensures |Handled(v).fields| == |v.fields| <==> CutsApart(v.fields.Keys)
  {
    CutsSize(v.fields.Keys);
    assert |Handled(v).fields| == |Handled(v).fields.Keys| && |v.fields| == |v.fields.Keys|;
  }

  lemma {:induction false} CutsSize(keys: set<string>)
    ensures |Cuts(keys)| <= |keys|
    ensures |Cuts(keys)| == |keys| <==> CutsApart(keys)
  {
    if keys != {} {
      var k :| k in keys;
      var rest := keys - {k};
      CutsSize(rest);
      CutsGrow(keys, k);
    }
  }

  lemma CutsGrow(keys: set<string>, k: string)
    requires k in keys
    ensures Cuts(keys) == Cuts(keys - {k}) + {CString(k)}
    ensures CutsApart(keys) <==> CutsApart(keys - {k}) && CString(k) !in Cuts(keys - {k})
  {
    hide CString;
    var rest := keys - {k};
    if CString(k) in Cuts(rest) {
      var j :| j in rest && CString(j) == CString(k);
      assert j in keys && j != k;
    } else {
      assert forall j :: j in rest ==> CString(j) in Cuts(rest);
    }
  }
}
