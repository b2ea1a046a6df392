/** Decoded JSON documents, as the validator receives them from a JSON decoder,
    and the few Python dict and truthiness operations the validator relies on. */
module JsonValue {

  datatype Option<T> = None | Some(value: T)

  /** A decoded JSON value. Numbers are integers only. An object is the list of
      its members in iteration order, so that the order in which a validator
      visits them (and so which failure it reports first) is part of the value. */
  datatype Json =
    | JNull
    | JBool(b: bool)
    | JInt(i: int)
    | JString(s: string)
    | JArray(items: seq<Json>)
    | JObject(members: Members)

  type Members = seq<(string, Json)>

  /** The keys of an object in iteration order (`list(schema)`). */
  function Keys(m: Members): (ks: seq<string>)
    ensures |ks| == |m|
    ensures forall i :: 0 <= i < |m| ==> ks[i] == m[i].0
  {
    if m == [] then [] else [m[0].0] + Keys(m[1..])
  }

  /** No element of `ks` occurs twice. */
  predicate Distinct(ks: seq<string>) {
    ks == [] || (ks[0] !in ks[1..] && Distinct(ks[1..]))
  }

  /** The elements of a sequence as a set (`set(...)`). */
  function ElemSet(ks: seq<string>): (s: set<string>)
    ensures forall k :: k in s <==> k in ks
  {
    if ks == [] then {} else {ks[0]} + ElemSet(ks[1..])
  }

  /** The keys of an object as a set (`set(schema)`). */
  function KeySet(m: Members): (s: set<string>)
    ensures forall k :: k in s <==> k in Keys(m)
  {
    ElemSet(Keys(m))
  }

  /** A set built from a sequence is never larger than it, and is exactly as
      large when the sequence has no repeated element. */
  lemma {:induction false} ElemSetCardinality(ks: seq<string>)
    ensures |ElemSet(ks)| <= |ks|
    ensures |ElemSet(ks)| == |ks| <==> Distinct(ks)
  {
    if ks != [] {
      var rest := ks[1..];
      ElemSetCardinality(rest);
      assert ElemSet(ks) == {ks[0]} + ElemSet(rest);
      if ks[0] in rest {
        assert ElemSet(ks) == ElemSet(rest);
      } else {
        assert ks[0] !in ElemSet(rest);
        assert |ElemSet(ks)| == |ElemSet(rest)| + 1;
      }
    }
  }

  /** No element of `ks` occurs twice exactly when no two positions of `ks`
      hold the same element. */
  lemma {:induction false} DistinctPairwise(ks: seq<string>)
    ensures Distinct(ks) <==> forall i, j :: 0 <= i < j < |ks| ==> ks[i] != ks[j]
  {
    if ks != [] {
      var rest := ks[1..];
      DistinctPairwise(rest);
      if ks[0] in rest {
        var j :| 0 <= j < |rest| && rest[j] == ks[0];
        assert ks[0] == ks[j + 1];
      } else if Distinct(rest) {
        forall i, j | 0 <= i < j < |ks| ensures ks[i] != ks[j] {
          if i == 0 {
            assert ks[j] == rest[j - 1];
          } else {
            assert ks[i] == rest[i - 1] && ks[j] == rest[j - 1];
          }
        }
      } else {
        var i, j :| 0 <= i < j < |rest| && rest[i] == rest[j];
        assert ks[i + 1] == ks[j + 1];
      }
    }
  }

  /** The position of the first member named `k`, if any. */
  function IndexOf(m: Members, k: string): (r: Option<nat>)
    ensures r.Some? ==> r.value < |m| && m[r.value].0 == k
    ensures r.Some? ==> forall i :: 0 <= i < r.value ==> m[i].0 != k
    ensures r.None? <==> k !in Keys(m)
  {
    if m == [] then None
    else if m[0].0 == k then Some(0)
    else
      assert Keys(m) == [m[0].0] + Keys(m[1..]);
      match IndexOf(m[1..], k)
      case None => None
      case Some(i) => Some(i + 1)
  }

  /** In an object without repeated keys, every member is the one its key finds. */
  lemma {:induction false} IndexOfDistinct(m: Members, i: nat)
    requires Distinct(Keys(m)) && i < |m|
    ensures IndexOf(m, m[i].0) == Some(i)
  {
    var ks := Keys(m);
    DistinctPairwise(ks);
    var r := IndexOf(m, m[i].0);
    assert ks[i] == m[i].0;
    assert m[i].0 in ks;
    var j := r.value;
    assert ks[j] == m[j].0 == m[i].0;
  }

  /** `m.get(k)`: the value of the first member named `k`, if any. */
  function Get(m: Members, k: string): (r: Option<Json>)
    ensures r.None? <==> k !in Keys(m)
  {
    match IndexOf(m, k)
    case Some(i) => Some(m[i].1)
    case None => None
  }

  /** What `m.get(k)` finds is a member of `m`; without repeated keys it is
      the value of the one member named `k`. */
  lemma GetFindsMember(m: Members, k: string)
    ensures Get(m, k).Some? ==> (k, Get(m, k).value) in m
    ensures Distinct(Keys(m)) ==>
              forall i :: 0 <= i < |m| && m[i].0 == k ==> Get(m, k) == Some(m[i].1)
  {
    match IndexOf(m, k)
    case Some(j) =>
      assert m[j] == (k, Get(m, k).value);
      if Distinct(Keys(m)) {
        forall i | 0 <= i < |m| && m[i].0 == k
          ensures Get(m, k) == Some(m[i].1)
        {
          IndexOfDistinct(m, i);
        }
      }
    case None =>
  }

  /** `m.get(k, default)`. */
  function GetOr(m: Members, k: string, default: Json): (r: Json)
    ensures k !in Keys(m) ==> r == default
    ensures k in Keys(m) ==> Get(m, k) == Some(r)
  {
    match Get(m, k)
    case Some(v) => v
    case None => default
  }

  /** Python truthiness: exactly `None`, `False`, `0`, `""`, `[]` and `{}` are false. */
  predicate Truthy(v: Json): (r: bool)
    ensures !r <==> v in {JNull, JBool(false), JInt(0), JString(""), JArray([]), JObject([])}
  {
    match v
    case JNull => false
    case JBool(b) => b
    case JInt(n) => n != 0
    case JString(s) => s != ""
    case JArray(items) => items != []
    case JObject(members) => members != []
  }

  /** `isinstance(v, int)`: Python's `bool` is a subclass of `int`, so of the
      JSON values only `null`, strings, lists and mappings are not ints. */
  predicate IsInt(v: Json): (r: bool)
    ensures r <==> !(v.JNull? || v.JString? || v.JArray? || v.JObject?)
  {
    v.JInt? || v.JBool?
  }

  /** The integer a Python `int` (or `bool`) stands for in a comparison: a
      `bool` is 0 or 1, and the value is non-zero exactly when it is truthy. */
  function IntValue(v: Json): (r: int)
    requires IsInt(v)
    ensures v.JInt? ==> r == v.i
    ensures 0 <= r <= 1 || v.JInt?
    ensures r != 0 <==> Truthy(v)
  {
    match v
    case JInt(n) => n
    case JBool(b) => if b then 1 else 0
  }
}
