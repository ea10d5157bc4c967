/**
 * JSON values as Python's `json.loads` hands them to the documentation
 * transformer, and the few dynamic operations the transformer performs on them:
 * `dict.get`, `key in dict`, truthiness, iteration and `str()`.
 */
module Json {
  import opened Text

  /**
   * A JSON value. An object keeps its members in insertion order, as a Python
   * dict does; a dict built by Python never repeats a key (see `UniqueKeys`).
   */
  datatype Json =
    | JNull
    | JBool(b: bool)
    | JInt(n: int)
    | JStr(s: string)
    | JArr(items: seq<Json>)
    | JObj(fields: seq<(string, Json)>)

  /**
   * The outcome of one of the transformer's functions: a value, or an exception
   * that Python raises and the function does not catch (an AttributeError or a
   * TypeError when the input has an unexpected shape).
   */
  datatype Result<+T> = Ok(value: T) | Raised {
    predicate IsFailure() {
      Raised?
    }

    function PropagateFailure<U>(): Result<U>
      requires Raised?
    {
      Raised
    }

    function Extract(): T
      requires Ok?
    {
      value
    }
  }

  /** The sum of a sequence of naturals. */
  function Sum(xs: seq<nat>): nat {
    if xs == [] then 0 else xs[0] + Sum(xs[1..])
  }

  lemma {:induction false} SumBoundsElement(xs: seq<nat>, i: nat)
    requires i < |xs|
    ensures xs[i] <= Sum(xs)
  {
    if i > 0 {
      SumBoundsElement(xs[1..], i - 1);
    }
  }

  /** A size measure for JSON values; it shrinks from a container to anything inside it. */
  function Size(j: Json): (n: nat)
    ensures n >= 1
  {
    match j
    case JArr(items) => 2 + Sum(seq(|items|, i requires 0 <= i < |items| => Size(items[i])))
    case JObj(fields) => 2 + Sum(seq(|fields|, i requires 0 <= i < |fields| => Size(fields[i].1)))
    case _ => 1
  }

  lemma ItemSmaller(items: seq<Json>, i: nat)
    requires i < |items|
    ensures Size(items[i]) < Size(JArr(items))
  {
    SumBoundsElement(seq(|items|, k requires 0 <= k < |items| => Size(items[k])), i);
  }

  lemma FieldSmaller(fields: seq<(string, Json)>, i: nat)
    requires i < |fields|
    ensures Size(fields[i].1) < Size(JObj(fields))
  {
    SumBoundsElement(seq(|fields|, k requires 0 <= k < |fields| => Size(fields[k].1)), i);
  }

  /** The keys of an object's members, in order. */
  function Keys<T>(fields: seq<(string, T)>): (ks: seq<string>)
    ensures |ks| == |fields|
    ensures forall i :: 0 <= i < |fields| ==> ks[i] == fields[i].0
  {
    seq(|fields|, i requires 0 <= i < |fields| => fields[i].0)
  }

  /** No key occurs twice: true of every dict Python builds. */
  predicate UniqueKeys<T>(fields: seq<(string, T)>) {
    forall i, j :: 0 <= i < j < |fields| ==> fields[i].0 != fields[j].0
  }

  /** The index of the member with key `k`, or -1 when there is none. */
  function IndexOfKey<T>(fields: seq<(string, T)>, k: string): (i: int)
    ensures -1 <= i < |fields|
    ensures i >= 0 ==> fields[i].0 == k && forall j :: 0 <= j < i ==> fields[j].0 != k
    ensures i == -1 <==> k !in Keys(fields)
  {
    if fields == [] then -1
    else if fields[0].0 == k then 0
    else
      var i := IndexOfKey(fields[1..], k);
      assert Keys(fields) == [fields[0].0] + Keys(fields[1..]);
      if i == -1 then -1 else i + 1
  }

  /** Python's `k in d` for a dict `d`. */
  predicate HasKey(d: Json, k: string)
    requires d.JObj?
  {
    IndexOfKey(d.fields, k) != -1
  }

  /**
   * Python's `d.get(k, default)` for a dict `d`: the value stored under `k`, or
   * `default` when `k` is absent.
   */
  function Get(d: Json, k: string, default: Json): (v: Json)
    requires d.JObj?
    ensures !HasKey(d, k) ==> v == default
    ensures HasKey(d, k) ==> v == d.fields[IndexOfKey(d.fields, k)].1
  {
    var i := IndexOfKey(d.fields, k);
    if i == -1 then default else d.fields[i].1
  }

  /** A value found in a dict is smaller than the dict. */
  lemma GetSmaller(d: Json, k: string, default: Json)
    requires d.JObj?
    ensures HasKey(d, k) ==> Size(Get(d, k, default)) < Size(d)
  {
    if HasKey(d, k) {
      FieldSmaller(d.fields, IndexOfKey(d.fields, k));
    }
  }

  /**
   * In a dict, the value found under the key of its `i`-th member is that
   * member's value, provided no earlier member has the same key (as in every
   * dict Python builds).
   */
  lemma GetField(d: Json, i: nat, default: Json)
    requires d.JObj? && i < |d.fields|
    requires forall j :: 0 <= j < i ==> d.fields[j].0 != d.fields[i].0
    ensures HasKey(d, d.fields[i].0) && Get(d, d.fields[i].0, default) == d.fields[i].1
  {
    assert Keys(d.fields)[i] == d.fields[i].0;
  }

  /** Python's truthiness of a JSON value: null, false, 0 and empty containers are falsy. */
  predicate Truthy(j: Json) {
    match j
    case JNull => false
    case JBool(b) => b
    case JInt(n) => n != 0
    case JStr(s) => s != []
    case JArr(items) => items != []
    case JObj(fields) => fields != []
  }

  /**
   * What Python yields when iterating over a JSON value: the items of a list,
   * the keys of a dict, the characters of a string. Iterating over None, a bool
   * or an int raises TypeError.
   */
  function Iterate(j: Json): (r: Result<seq<Json>>)
    ensures r.Ok? <==> (j.JArr? || j.JObj? || j.JStr?)
    ensures j.JArr? ==> r == Ok(j.items)
  {
    match j
    case JArr(items) => Ok(items)
    case JObj(fields) => Ok(seq(|fields|, i requires 0 <= i < |fields| => JStr(fields[i].0)))
    case JStr(s) => Ok(seq(|s|, i requires 0 <= i < |s| => JStr([s[i]])))
    case _ => Raised
  }

  /** Python's `str(v)`, which is also what an f-string inserts for `{v}`. */
  function Str(j: Json): (r: string)
    ensures j.JStr? ==> r == j.s
  {
    match j
    case JStr(s) => s
    case _ => Repr(j)
  }

  /** Python's `repr(v)`; strings are quoted without escaping (see the README). */
  function Repr(j: Json): string {
    match j
    case JNull => "None"
    case JBool(b) => if b then "True" else "False"
    case JInt(n) => IntToString(n)
    case JStr(s) => "'" + s + "'"
    case JArr(items) =>
      "[" + Join(", ", seq(|items|, i requires 0 <= i < |items| => Repr(items[i]))) + "]"
    case JObj(fields) =>
      "{" + Join(", ", seq(|fields|, i requires 0 <= i < |fields| =>
                             "'" + fields[i].0 + "': " + Repr(fields[i].1))) + "}"
  }
}
