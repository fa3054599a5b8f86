/**
 * JSON-like values as Python holds them after `json.load` or from literal tables:
 * `None`, booleans, integers, strings, lists and insertion-ordered dicts.
 */
module Json {
  import opened Wrappers

  datatype Json =
    | Null
    | Bool(b: bool)
    | Int(i: int)
    | Str(s: string)
    | List(items: seq<Json>)
    | Object(fields: seq<(string, Json)>)

  /** A Python `dict` with string keys, in insertion order. */
  type Dict = seq<(string, Json)>

  function Keys(d: Dict): seq<string> {
    if d == [] then [] else [d[0].0] + Keys(d[1..])
  }

  lemma {:induction false} KeysAt(d: Dict)
    ensures |Keys(d)| == |d|
    ensures forall i :: 0 <= i < |d| ==> Keys(d)[i] == d[i].0
  {
    if d != [] {
      KeysAt(d[1..]);
    }
  }

  lemma {:induction false} KeysAppend(a: Dict, b: Dict)
    ensures Keys(a + b) == Keys(a) + Keys(b)
  {
    if a != [] {
      KeysAppend(a[1..], b);
      assert (a + b)[1..] == a[1..] + b;
    } else {
      assert a + b == b;
    }
  }

  /** Every key occurs once, as in any Python dict. */
  predicate UniqueKeys(d: Dict) {
    forall i, j :: 0 <= i < j < |d| ==> d[i].0 != d[j].0
  }

  /** Every dict inside the value has unique keys. */
  predicate WellFormed(j: Json) {
    match j
    case List(xs) => forall i :: 0 <= i < |xs| ==> WellFormed(xs[i])
    case Object(f) => UniqueKeys(f) && forall i :: 0 <= i < |f| ==> WellFormed(f[i].1)
    case _ => true
  }

  /** `d.get(k)`. */
  function Get(d: Dict, k: string): (r: Option<Json>)
    ensures r.Some? <==> k in Keys(d)
  {
    if d == [] then None else if d[0].0 == k then Some(d[0].1) else Get(d[1..], k)
  }

  /** A key that `Get` finds is the key of one of the entries. */
  lemma {:induction false} GetIn(d: Dict, k: string)
    requires Get(d, k).Some?
    ensures (k, Get(d, k).value) in d
  {
    if d[0].0 != k {
      GetIn(d[1..], k);
    }
  }

  /** In a dict with unique keys, `Get` finds the one entry with that key. */
  lemma {:induction false} GetUnique(d: Dict, i: nat)
    requires UniqueKeys(d) && i < |d|
    ensures Get(d, d[i].0) == Some(d[i].1)
  {
    if i > 0 {
      GetUnique(d[1..], i - 1);
    }
  }

  lemma {:induction false} GetAppendLeft(a: Dict, b: Dict, k: string)
    requires k in Keys(a)
    ensures Get(a + b, k) == Get(a, k)
  {
    if a[0].0 != k {
      GetAppendLeft(a[1..], b, k);
      assert (a + b)[1..] == a[1..] + b;
    }
  }

  /** `d[k] = v`: an existing key keeps its place and takes the new value; a new key goes last. */
  function Put(d: Dict, k: string, v: Json): (r: Dict)
    ensures Keys(r) == if k in Keys(d) then Keys(d) else Keys(d) + [k]
    ensures Get(r, k) == Some(v)
    ensures forall k' :: k' != k ==> Get(r, k') == Get(d, k')
  {
    if d == [] then [(k, v)]
    else if d[0].0 == k then
      var r := [(k, v)] + d[1..];
      assert r[1..] == d[1..];
      r
    else
      var rest := Put(d[1..], k, v);
      var r := [d[0]] + rest;
      assert r[1..] == rest;
      assert Keys(r) == [d[0].0] + Keys(rest);
      assert Keys(d) == [d[0].0] + Keys(d[1..]);
      r
  }

  /** Adding a key the dict lacks appends the entry. */
  lemma {:induction false} PutNewKey(d: Dict, k: string, v: Json)
    requires k !in Keys(d)
    ensures Put(d, k, v) == d + [(k, v)]
  {
    if d != [] {
      assert Keys(d) == [d[0].0] + Keys(d[1..]);
      calc {
        Put(d, k, v);
        [d[0]] + Put(d[1..], k, v);
        { PutNewKey(d[1..], k, v); }
        [d[0]] + (d[1..] + [(k, v)]);
        { assert [d[0]] + d[1..] == d; }
        d + [(k, v)];
      }
    }
  }

  /** `for x in j`: a list yields its items, a dict its keys, a string its characters. */
  function Iter(j: Json): (r: Option<seq<Json>>)
    ensures r.Some? <==> j.List? || j.Object? || j.Str?
    ensures j.List? ==> r == Some(j.items)
  {
    match j
    case List(xs) => Some(xs)
    case Object(f) => Some(seq(|f|, i requires 0 <= i < |f| => Str(f[i].0)))
    case Str(s) => Some(seq(|s|, i requires 0 <= i < |s| => Str([s[i]])))
    case _ => None
  }
}
