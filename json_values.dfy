/**
 * JSON values as the registry's store holds them after `json.load`, and the
 * few pieces of Python's object semantics the registry relies on: truthiness
 * (`if x:`), dictionary lookup, iteration and `str()` formatting.
 *
 * A JSON object is kept as the sequence of its (key, value) insertions. Read
 * as a Python dict, a key maps to the value of its LAST insertion and the keys
 * iterate in the order of their FIRST insertion, which is what `json.load`
 * produces for an object with repeated keys and what a dict literal produces
 * otherwise.
 */
module JsonValues {

  datatype Json =
    | JNull
    | JBool(b: bool)
    | JInt(i: int)
    | JString(s: string)
    | JArray(items: seq<Json>)
    | JObject(members: seq<(string, Json)>)

  datatype Option<T> = None | Some(value: T)

  /** Python truthiness of a JSON value: null, false, 0, "", [] and {} are falsy. */
  predicate Truthy(v: Json)
  {
    match v
    case JNull => false
    case JBool(b) => b
    case JInt(i) => i != 0
    case JString(s) => s != ""
    case JArray(items) => items != []
    case JObject(members) => members != []
  }

  /** The keys inserted into an object, as a set. */
  function KeySet(members: seq<(string, Json)>): set<string>
  {
    set p | p in members :: p.0
  }

  /** `d.get(k)` for the dict that `members` denotes: the last value stored under `k`. */
  function Get(members: seq<(string, Json)>, k: string): (r: Option<Json>)
    ensures r.Some? <==> k in KeySet(members)
    ensures r.Some? ==> (k, r.value) in members
  {
    if members == [] then None
    else if members[|members| - 1].0 == k then Some(members[|members| - 1].1)
    else
      var r := Get(members[..|members| - 1], k);
      assert forall p :: p in members <==> p in members[..|members| - 1] || p == members[|members| - 1];
      r
  }

  /** The keys of the dict that `members` denotes, in iteration order. */
  function Keys(members: seq<(string, Json)>): (ks: seq<string>)
    ensures forall k :: k in ks <==> k in KeySet(members)
    ensures forall i, j :: 0 <= i < j < |ks| ==> ks[i] != ks[j]
  {
    if members == [] then []
    else
      var front := members[..|members| - 1];
      var last := members[|members| - 1];
      assert forall p :: p in members <==> p in front || p == last;
      var ks := Keys(front);
      if last.0 in ks then ks else ks + [last.0]
  }

  /** A later insertion under k overrides every earlier one; other keys read as before. */
  lemma GetAppend(members: seq<(string, Json)>, k: string, v: Json, q: string)
    ensures Get(members + [(k, v)], q) == if q == k then Some(v) else Get(members, q)
  {
    assert (members + [(k, v)])[..|members|] == members;
  }

  lemma KeySetAppend(members: seq<(string, Json)>, k: string, v: Json)
    ensures KeySet(members + [(k, v)]) == KeySet(members) + {k}
  {
    assert forall p :: p in members + [(k, v)] <==> p in members || p == (k, v);
  }

  /** Decimal text of an integer, as Python's `str()` writes it. */
  function DecimalText(n: int): (t: string)
    ensures t != []
    decreases if n < 0 then 1 - n else n
  {
    if n < 0 then "-" + DecimalText(-n)
    else if n < 10 then [Digit(n)]
    else DecimalText(n / 10) + [Digit(n % 10)]
  }

  function Digit(d: int): char
    requires 0 <= d < 10
  {
    "0123456789"[d]
  }

  /** Python's `str()` of a value: a string is its own text. */
  function PyStr(v: Json): (t: string)
    ensures v.JString? ==> t == v.s
  {
    if v.JString? then v.s else PyRepr(v)
  }

  /**
   * Python's `repr()` of a value, used for the elements of a list or dict
   * when it is formatted. Strings are quoted with single quotes; the escapes
   * Python's repr applies to quotes, backslashes and unprintable characters
   * are not reproduced.
   */
  function PyRepr(v: Json): string
    decreases v, 1, 0
  {
    match v
    case JNull => "None"
    case JBool(b) => if b then "True" else "False"
    case JInt(i) => DecimalText(i)
    case JString(s) => "'" + s + "'"
    case JArray(items) => "[" + ReprItems(v, items) + "]"
    case JObject(members) => "{" + ReprMembers(v, members, Keys(members)) + "}"
  }

  function ReprItems(parent: Json, items: seq<Json>): string
    requires forall x :: x in items ==> x < parent
    decreases parent, 0, |items|
  {
    if items == [] then ""
    else
      assert items[0] in items && forall x :: x in items[1..] ==> x in items;
      if |items| == 1 then PyRepr(items[0])
      else PyRepr(items[0]) + ", " + ReprItems(parent, items[1..])
  }

  function ReprMembers(parent: Json, members: seq<(string, Json)>, ks: seq<string>): string
    requires parent == JObject(members)
    decreases parent, 0, |ks|
  {
    if ks == [] then ""
    else
      var entry := "'" + ks[0] + "': " + ReprValue(parent, members, ks[0]);
      if |ks| == 1 then entry else entry + ", " + ReprMembers(parent, members, ks[1..])
  }

  function ReprValue(parent: Json, members: seq<(string, Json)>, k: string): string
    requires parent == JObject(members)
    decreases parent, 0, 0
  {
    match Get(members, k)
    case None => ""
    case Some(x) =>
      assert (k, x) in members;
      PyRepr(x)
  }

  /**
   * Iterating a value with `for x in v`: a list yields its items, a string its
   * characters (as one-character strings), a dict its keys; numbers, booleans
   * and null are not iterable and raise TypeError (None here).
   */
  function Iterate(v: Json): (r: Option<seq<Json>>)
    ensures r.None? <==> v.JNull? || v.JBool? || v.JInt?
    ensures v.JArray? ==> r == Some(v.items)
    ensures v.JString? ==> r.Some? && |r.value| == |v.s| && forall i :: 0 <= i < |v.s| ==> r.value[i] == JString([v.s[i]])
    ensures v.JObject? ==>
      r.Some? && |r.value| == |Keys(v.members)| && forall i :: 0 <= i < |r.value| ==> r.value[i] == JString(Keys(v.members)[i])
  {
    if v.JArray? then Some(v.items)
    else if v.JString? then Some(seq(|v.s|, i requires 0 <= i < |v.s| => JString([v.s[i]])))
    else if v.JObject? then
      var ks := Keys(v.members);
      Some(seq(|ks|, i requires 0 <= i < |ks| => JString(ks[i])))
    else None
  }
}
