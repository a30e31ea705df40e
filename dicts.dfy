/** Python's `dict`: a key keeps the position of its first insertion, a later
    assignment to the same key replaces its value in place. */
module Dicts {
  import opened Outcomes

  type Items<V> = seq<(string, V)>

  function KeysOf<V>(d: Items<V>): (ks: seq<string>)
    ensures |ks| == |d| && forall i :: 0 <= i < |d| ==> ks[i] == d[i].0
  {
    seq(|d|, i requires 0 <= i < |d| => d[i].0)
  }

  predicate KeysDistinct<V>(d: Items<V>) {
    forall i, j :: 0 <= i < j < |d| ==> d[i].0 != d[j].0
  }

  /** The position of the first `k` in `keys`. */
  function Find(keys: seq<string>, k: string): (r: Option<nat>)
    ensures r.Some? ==> r.value < |keys| && keys[r.value] == k
    ensures r.Some? ==> forall j :: 0 <= j < r.value ==> keys[j] != k
    ensures r.None? <==> k !in keys
  {
    if keys == [] then None
    else if keys[0] == k then Some(0)
    else match Find(keys[1..], k)
      case Some(i) => Some(i + 1)
      case None => None
  }

  lemma FindFirst(keys: seq<string>, k: string, i: nat)
    requires i < |keys| && keys[i] == k
    requires forall j :: 0 <= j < i ==> keys[j] != k
    ensures Find(keys, k) == Some(i)
  {
  }

  /** `d.get(k)`. */
  function Get<V>(d: Items<V>, k: string): Option<V> {
    match Find(KeysOf(d), k)
    case Some(i) => Some(d[i].1)
    case None => None
  }

  /** `d[k]`: a `KeyError` for an absent key. */
  function Lookup<V>(d: Items<V>, k: string): (r: Result<V>)
    ensures r.Failure? <==> Get(d, k).None?
    ensures r.Failure? ==> r.error == KeyError(k)
    ensures r.Success? ==> Get(d, k) == Some(r.value)
  {
    match Get(d, k)
    case Some(v) => Success(v)
    case None => Failure(KeyError(k))
  }

  /** `d[k] = v`. */
  function Put<V>(d: Items<V>, k: string, v: V): (r: Items<V>)
    requires KeysDistinct(d)
    ensures KeysDistinct(r)
    ensures Get(r, k) == Some(v)
    ensures forall k' :: k' != k ==> Get(r, k') == Get(d, k')
    ensures KeysOf(r) == if k in KeysOf(d) then KeysOf(d) else KeysOf(d) + [k]
  {
    match Find(KeysOf(d), k)
    case Some(i) =>
      var r := d[i := (k, v)];
      assert KeysOf(r) == KeysOf(d);
      r
    case None =>
      var r := d + [(k, v)];
      assert KeysOf(r) == KeysOf(d) + [k];
      AppendKeepsGet(d, k, v);
      FindFirst(KeysOf(r), k, |d|);
      r
  }

  lemma AppendKeepsGet<V>(d: Items<V>, k: string, v: V)
    requires k !in KeysOf(d)
    ensures forall k' :: k' != k ==> Get(d + [(k, v)], k') == Get(d, k')
  {
    var r := d + [(k, v)];
    assert KeysOf(r) == KeysOf(d) + [k];
    forall k' | k' != k ensures Get(r, k') == Get(d, k') {
      match Find(KeysOf(d), k')
      case Some(i) => FindFirst(KeysOf(r), k', i);
      case None =>
    }
  }

  /** The dict built from key/value pairs in order, a repeated key keeping its
      first position and its last value (`dict(pairs)`, and the JSON decoder's objects). */
  function FromPairs<V>(ps: seq<(string, V)>): (r: Items<V>)
    ensures KeysDistinct(r)
  {
    if ps == [] then [] else Put(FromPairs(ps[..|ps| - 1]), ps[|ps| - 1].0, ps[|ps| - 1].1)
  }

  /** The value of the last pair with key `k`. */
  function LastValue<V>(ps: seq<(string, V)>, k: string): Option<V> {
    if ps == [] then None
    else if ps[|ps| - 1].0 == k then Some(ps[|ps| - 1].1)
    else LastValue(ps[..|ps| - 1], k)
  }

  /** Every key of the pairs is in the dict, holding its last value. */
  lemma {:induction false} FromPairsLastWins<V>(ps: seq<(string, V)>, k: string)
    ensures Get(FromPairs(ps), k) == LastValue(ps, k)
  {
    if ps != [] {
      FromPairsLastWins(ps[..|ps| - 1], k);
    }
  }

  /** Building a dict from pairs whose keys are already distinct changes nothing. */
  lemma {:induction false} FromPairsDistinct<V>(ps: seq<(string, V)>)
    requires KeysDistinct(ps)
    ensures FromPairs(ps) == ps
  {
    if ps != [] {
      var front := ps[..|ps| - 1];
      var last := ps[|ps| - 1];
      assert KeysDistinct(front);
      FromPairsDistinct(front);
      assert last.0 !in KeysOf(front) by {
        forall j | 0 <= j < |front|
          ensures KeysOf(front)[j] != last.0
        {
          assert front[j] == ps[j];
        }
      }
      assert FromPairs(ps) == Put(front, last.0, last.1);
      assert Find(KeysOf(front), last.0) == None;
      SplitLast(ps);
    }
  }

  lemma SplitLast<T>(s: seq<T>)
    requires s != []
    ensures s == s[..|s| - 1] + [s[|s| - 1]]
  {
  }

  /** With distinct keys, a pair of the dict is what `d[k]` finds. */
  lemma GetMember<V>(d: Items<V>, k: string, v: V)
    requires KeysDistinct(d) && (k, v) in d
    ensures Get(d, k) == Some(v)
  {
    var j :| 0 <= j < |d| && d[j] == (k, v);
    FindFirst(KeysOf(d), k, j);
  }

  /** The pairs with every value passed through `f`, keys and order kept. */
  function MapValues<V>(ps: seq<(string, V)>, f: V -> V): (r: seq<(string, V)>)
    ensures |r| == |ps| && forall i :: 0 <= i < |ps| ==> r[i] == (ps[i].0, f(ps[i].1))
  {
    seq(|ps|, i requires 0 <= i < |ps| => (ps[i].0, f(ps[i].1)))
  }

  lemma MapValuesAppend<V>(ps: seq<(string, V)>, p: (string, V), f: V -> V)
    ensures MapValues(ps + [p], f) == MapValues(ps, f) + [(p.0, f(p.1))]
  {
  }

  /** Mapping the values commutes with an assignment. */
  lemma PutMapValues<V>(d: Items<V>, k: string, v: V, f: V -> V)
    requires KeysDistinct(d)
    ensures KeysDistinct(MapValues(d, f))
    ensures Put(MapValues(d, f), k, f(v)) == MapValues(Put(d, k, v), f)
  {
    var md := MapValues(d, f);
    assert KeysOf(md) == KeysOf(d);
    match Find(KeysOf(d), k)
    case Some(i) =>
      assert Put(md, k, f(v)) == md[i := (k, f(v))];
      assert md[i := (k, f(v))] == MapValues(d[i := (k, v)], f);
    case None =>
      assert Put(md, k, f(v)) == md + [(k, f(v))];
      assert md + [(k, f(v))] == MapValues(d + [(k, v)], f);
  }

  /** Mapping the values commutes with building the dict: a repeated key's last value is
      mapped either way. */
  lemma {:induction false} FromPairsMapValues<V>(ps: seq<(string, V)>, f: V -> V)
    ensures FromPairs(MapValues(ps, f)) == MapValues(FromPairs(ps), f)
  {
    if ps != [] {
      var front := ps[..|ps| - 1];
      var last := ps[|ps| - 1];
      assert MapValues(ps, f)[..|ps| - 1] == MapValues(front, f);
      FromPairsMapValues(front, f);
      PutMapValues(FromPairs(front), last.0, last.1, f);
    }
  }
}
