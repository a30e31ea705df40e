/** The NumPy and Python sequence operations the name table relies on: Python
    indexing (negative positions count from the end), `np.unique`, boolean-mask
    selection `vals[keys == k]` and `np.repeat`. */
module NumPy {
  import opened Outcomes
  import opened PyStr

  /** A Python index `i` is valid for a sequence of length `n` when `-n <= i < n`. */
  predicate InRange(i: int, n: nat) {
    -(n as int) <= i < n
  }

  /** The position a valid Python index `i` denotes. */
  function Wrap(i: int, n: nat): (p: nat)
    requires InRange(i, n)
    ensures p < n
  {
    if i < 0 then i + n else i
  }

  /** `s[i]` in Python: an `IndexError` outside `-|s| <= i < |s|`. */
  function At<T>(s: seq<T>, i: int): (r: Result<T>)
    ensures r.Success? <==> InRange(i, |s|)
  {
    if InRange(i, |s|) then Success(s[Wrap(i, |s|)]) else Failure(IndexError)
  }

  /** Index -1 is the last element and -|s| the first. */
  lemma AtNegative<T>(s: seq<T>)
    requires |s| > 0
    ensures At(s, -1) == Success(s[|s| - 1]) && At(s, -|s|) == Success(s[0])
  {
  }

  predicate StrictlySorted(s: seq<string>) {
    forall i, j :: 0 <= i < j < |s| ==> Below(s[i], s[j])
  }

  lemma StrictlySortedDistinct(s: seq<string>, i: nat, j: nat)
    requires StrictlySorted(s) && i < j < |s|
    ensures s[i] != s[j]
  {
    BelowIrreflexive(s[i]);
  }

  /** Adds `x` to a strictly sorted sequence, keeping it strictly sorted. */
  function Insert(x: string, s: seq<string>): (r: seq<string>)
    requires StrictlySorted(s)
    ensures StrictlySorted(r)
    ensures forall y :: y in r <==> y == x || y in s
  {
    if s == [] then [x]
    else if x == s[0] then s
    else if Below(x, s[0]) then
      assert forall j :: 0 < j < |s| ==> Below(x, s[j]) by {
        forall j | 0 < j < |s| ensures Below(x, s[j]) {
          BelowTransitive(x, s[0], s[j]);
        }
      }
      [x] + s
    else
      BelowTotal(x, s[0]);
      var rest := Insert(x, s[1..]);
      assert forall y :: y in rest ==> Below(s[0], y);
      [s[0]] + rest
  }

  /** `np.unique(s)`: the distinct elements of `s`, sorted. */
  function Unique(s: seq<string>): (r: seq<string>)
    ensures StrictlySorted(r)
    ensures forall y :: y in r <==> y in s
  {
    if s == [] then [] else Insert(s[|s| - 1], Unique(s[..|s| - 1]))
  }

  /** The positions `p` with `keys[p] == k`, in ascending order. */
  function Positions(keys: seq<string>, k: string): (r: seq<nat>)
    ensures forall i :: 0 <= i < |r| ==> r[i] < |keys| && keys[r[i]] == k
    ensures forall i, j :: 0 <= i < j < |r| ==> r[i] < r[j]
    ensures forall p :: 0 <= p < |keys| && keys[p] == k ==> p in r
  {
    if keys == [] then []
    else
      var n := |keys| - 1;
      var front := Positions(keys[..n], k);
      front + if keys[n] == k then [n] else []
  }

  /** The values at the given positions, in that order. */
  function Pick<T>(vals: seq<T>, ps: seq<nat>): (r: seq<T>)
    requires forall i :: 0 <= i < |ps| ==> ps[i] < |vals|
    ensures |r| == |ps|
    ensures forall i :: 0 <= i < |r| ==> r[i] == vals[ps[i]]
  {
    seq(|ps|, i requires 0 <= i < |ps| => vals[ps[i]])
  }

  /** NumPy's boolean-mask selection `vals[keys == k]` over two parallel arrays. */
  function Masked<T>(vals: seq<T>, keys: seq<string>, k: string): seq<T>
    requires |vals| == |keys|
  {
    Pick(vals, Positions(keys, k))
  }

  /** The mask keeps exactly the values that stand beside the key `k`. */
  lemma MaskedMembers<T>(vals: seq<T>, keys: seq<string>, k: string)
    requires |vals| == |keys|
    ensures forall x :: x in Masked(vals, keys, k) <==> exists p :: 0 <= p < |keys| && keys[p] == k && vals[p] == x
  {
    var ps := Positions(keys, k);
    var r := Masked(vals, keys, k);
    forall x ensures x in r <==> exists p :: 0 <= p < |keys| && keys[p] == k && vals[p] == x {
      if x in r {
        var i :| 0 <= i < |r| && r[i] == x;
        assert keys[ps[i]] == k && vals[ps[i]] == x;
      }
      if exists p :: 0 <= p < |keys| && keys[p] == k && vals[p] == x {
        var p :| 0 <= p < |keys| && keys[p] == k && vals[p] == x;
        var i :| 0 <= i < |ps| && ps[i] == p;
        assert r[i] == x;
      }
    }
  }

  /** Where each selected value is its own position, the mask lists the positions
      holding `k`, in ascending order. */
  lemma MaskedSelfIndexed(vals: seq<int>, keys: seq<string>, k: string)
    requires |vals| == |keys|
    requires forall p :: 0 <= p < |keys| && keys[p] == k ==> vals[p] == p
    ensures var r := Masked(vals, keys, k);
      && (forall i, j :: 0 <= i < j < |r| ==> r[i] < r[j])
      && (forall p :: 0 <= p < |keys| ==> (keys[p] == k <==> p in r))
  {
    var ps := Positions(keys, k);
    var r := Masked(vals, keys, k);
    assert forall i :: 0 <= i < |r| ==> r[i] == ps[i];
  }

  /** `np.repeat(s, k)`: each element of `s` in turn, `k` times. */
  function Repeat<T>(s: seq<T>, k: nat): (r: seq<T>)
    ensures |r| == |s| * k
  {
    if s == [] then [] else seq(k, _ => s[0]) + Repeat(s[1..], k)
  }

  /** Copy `m` of element `j` stands at position `j * k + m`. */
  lemma {:induction false} RepeatAt<T>(s: seq<T>, k: nat, j: nat, m: nat)
    requires j < |s| && m < k
    ensures j * k + m < |Repeat(s, k)| && Repeat(s, k)[j * k + m] == s[j]
  {
    if j > 0 {
      RepeatAt(s[1..], k, j - 1, m);
      assert j * k + m == k + ((j - 1) * k + m);
    }
  }
}
