/** The setpoint-conversion window: it loads quadrupole strengths from lattice files and
    power-supply values from value files into dictionaries, and scales the reference
    supply values by the change of strength of each quadrupole. */
module QuadConversion {
  import opened Outcomes
  import opened Dicts
  import opened NameConversion

  /** A decoded JSON document; an object keeps its members in file order, repeats included. */
  datatype Json =
    | JNull
    | JBool(b: bool)
    | JNumber(n: real)
    | JString(s: string)
    | JArray(items: seq<Json>)
    | JObject(members: seq<(string, Json)>)

  /** The Python dict of a JSON object: a repeated member keeps its first position and its last value. */
  function Fields(j: Json): Items<Json>
    requires j.JObject?
  {
    FromPairs(j.members)
  }

  /** `j[k]` on a decoded value: only an object takes a string subscript. */
  function Subscript(j: Json, k: string): Result<Json> {
    if j.JObject? then Lookup(Fields(j), k) else Failure(TypeError)
  }

  /** What opening and decoding the chosen file gives. */
  datatype FileContent = Unopenable | Malformed | Parsed(doc: Json)

  // The lattice filter: each quadrupole element of `elements` gives its `k1` under the
  // EPICS name the table holds for its short name; the table is a parameter.

  /** The element is an object whose `type` member is the string `Quad`. */
  predicate IsQuad(attributes: Json) {
    attributes.JObject? && Get(Fields(attributes), "type") == Some(JString("Quad"))
  }

  /** The element passes the comprehension: it has a `type`, and a quadrupole has a known
      name and a `k1`. */
  predicate Convertible(table: Items<string>, short: string, attributes: Json) {
    attributes.JObject? && Get(Fields(attributes), "type").Some? &&
    (IsQuad(attributes) ==> Get(table, short).Some? && Get(Fields(attributes), "k1").Some?)
  }

  /** The pair one element contributes, if it is a quadrupole; the type test comes first,
      then the key, then the value. */
  function QuadItem(table: Items<string>, short: string, attributes: Json): Result<seq<(string, Json)>> {
    var kind :- Subscript(attributes, "type");
    if kind != JString("Quad") then Success([])
    else
      var epics :- Lookup(table, short);
      var k1 :- Subscript(attributes, "k1");
      Success([(epics, k1)])
  }

  /** What each element gives the comprehension, in element order. */
  function Contributions(table: Items<string>, items: Items<Json>): (rs: seq<Result<seq<(string, Json)>>>)
    ensures |rs| == |items|
    ensures forall i :: 0 <= i < |items| ==> rs[i] == QuadItem(table, items[i].0, items[i].1)
  {
    seq(|items|, i requires 0 <= i < |items| => QuadItem(table, items[i].0, items[i].1))
  }

  /** The pairs of the results in order; the first failure ends the evaluation. */
  function Chain<P>(rs: seq<Result<seq<P>>>): Result<seq<P>>
    decreases |rs|
  {
    if rs == [] then Success([])
    else
      var p :- rs[0];
      var rest :- Chain(rs[1..]);
      Success(p + rest)
  }

  /** The pairs of the comprehension, in element order; the first failing element ends it. */
  function QuadPairs(table: Items<string>, items: Items<Json>): Result<seq<(string, Json)>> {
    Chain(Contributions(table, items))
  }

  /** The dictionary a lattice file yields: `doc["elements"]`, filtered by the comprehension. */
  function LatticeQuads(table: Items<string>, doc: Json): (r: Result<Items<Json>>)
    ensures r.Success? ==> KeysDistinct(r.value)
  {
    var elements :- Subscript(doc, "elements");
    if !elements.JObject? then Failure(AttributeError("items"))
    else
      var ps :- QuadPairs(table, Fields(elements));
      Success(FromPairs(ps))
  }

  // `dictionary.update(json_dict)`: a dict is merged in full; anything else is iterated,
  // each element inserted as a key/value pair in turn, so the pairs before a bad element
  // stay in the dictionary.

  /** One element of the sequence `update` iterates: an iterable of two items is a pair,
      another length a `ValueError`, a value that is not iterable or an unhashable key a
      `TypeError`. A string iterates over its characters, an object over its keys. */
  function UpdatePair(e: Json): (r: Result<(string, Json)>)
    ensures e.JArray? && |e.items| == 2 && e.items[0].JString? ==> r == Success((e.items[0].s, e.items[1]))
    ensures e.JString? ==> r == if |e.s| == 2 then Success(([e.s[0]], JString([e.s[1]]))) else Failure(ValueError)
    ensures (e.JNull? || e.JBool? || e.JNumber?) ==> r == Failure(TypeError)
    ensures r.Failure? && r.error == ValueError ==> Length(e).Some? && Length(e).value != 2
  {
    match e
    case JString(s) => if |s| == 2 then Success(([s[0]], JString([s[1]]))) else Failure(ValueError)
    case JArray(xs) =>
      if |xs| != 2 then Failure(ValueError)
      else
        (match xs[0]
         case JString(k) => Success((k, xs[1]))
         case JArray(_) => Failure(TypeError)
         case JObject(_) => Failure(TypeError)
         case _ => Failure(NonStringKey))
    case JObject(_) =>
      var keys := KeysOf(Fields(e));
      if |keys| == 2 then Success((keys[0], JString(keys[1]))) else Failure(ValueError)
    case _ => Failure(TypeError)
  }

  /** `len` of a decoded value, for the values that are iterable. */
  function Length(e: Json): Option<nat> {
    match e
    case JString(s) => Some(|s|)
    case JArray(xs) => Some(|xs|)
    case JObject(_) => Some(|Fields(e)|)
    case _ => None
  }

  /** The pairs `update` inserts from the elements, in order, up to the first element that
      is not a pair, and the exception that element raises. */
  function UpdatePairs(es: seq<Json>): (r: (seq<(string, Json)>, Option<Error>))
    ensures |r.0| <= |es|
    ensures forall i :: 0 <= i < |r.0| ==> UpdatePair(es[i]) == Success(r.0[i])
    ensures r.1.None? ==> |r.0| == |es|
    ensures r.1.Some? ==> |r.0| < |es| && UpdatePair(es[|r.0|]) == Failure(r.1.value)
  {
    if es == [] then ([], None)
    else
      match UpdatePair(es[0])
      case Failure(err) => ([], Some(err))
      case Success(p) =>
        var (ps, err) := UpdatePairs(es[1..]);
        ([p] + ps, err)
  }

  /** The one-character strings iterating a string gives. */
  function Characters(s: string): (cs: seq<Json>)
    ensures |cs| == |s| && forall i :: 0 <= i < |s| ==> cs[i] == JString([s[i]])
  {
    seq(|s|, i requires 0 <= i < |s| => JString([s[i]]))
  }

  /** What the cleared dictionary holds after the file is decoded, filtered and passed to
      `update`, and the exception that ended the load, if any. */
  function Filled(file: FileContent, latticeFile: bool): (r: (Items<Json>, Option<Error>))
    requires !file.Unopenable?
    ensures KeysDistinct(r.0)
  {
    match file
    case Malformed => ([], Some(ValueError))
    case Parsed(doc) =>
      if latticeFile then
        match LatticeQuads(Short2Epics(), doc)
        case Success(d) => (d, None)
        case Failure(err) => ([], Some(err))
      else
        match doc
        case JObject(_) => (Fields(doc), None)
        case JArray(xs) =>
          var (ps, err) := UpdatePairs(xs);
          (FromPairs(ps), err)
        case JString(s) =>
          var (ps, err) := UpdatePairs(Characters(s));
          (FromPairs(ps), err)
        case _ => ([], Some(TypeError))
  }

  /** The dictionary a chosen file yields, or the exception that ends the load. */
  function Loaded(file: FileContent, latticeFile: bool): (r: Result<Items<Json>>)
    ensures file.Unopenable? ==> r == Failure(OSError)
    ensures !file.Unopenable? ==> (r.Success? <==> Filled(file, latticeFile).1.None?)
    ensures r.Success? ==> KeysDistinct(r.value)
  {
    if file.Unopenable? then Failure(OSError)
    else
      var (d, err) := Filled(file, latticeFile);
      if err.Some? then Failure(err.value) else Success(d)
  }

  /** A chain succeeds exactly when every result does. */
  lemma {:induction false} ChainSucceeds<P>(rs: seq<Result<seq<P>>>)
    ensures Chain(rs).Success? <==> forall i :: 0 <= i < |rs| ==> rs[i].Success?
    decreases |rs|
  {
    if rs != [] {
      ChainSucceeds(rs[1..]);
      assert forall i :: 1 <= i < |rs| ==> rs[i] == rs[1..][i - 1];
    }
  }

  /** A pair of one of the results is in the chain. */
  lemma {:induction false} ChainIncludes<P>(rs: seq<Result<seq<P>>>, i: nat, p: P)
    requires Chain(rs).Success? && i < |rs|
    ensures rs[i].Success?
    ensures p in rs[i].value ==> p in Chain(rs).value
    decreases |rs|
  {
    ChainSucceeds(rs);
    if i > 0 {
      assert rs[i] == rs[1..][i - 1];
      ChainIncludes(rs[1..], i - 1, p);
    }
  }

  /** A pair of the chain comes from one of the results. */
  lemma {:induction false} ChainMember<P>(rs: seq<Result<seq<P>>>, p: P)
    requires Chain(rs).Success? && p in Chain(rs).value
    ensures exists i :: 0 <= i < |rs| && rs[i].Success? && p in rs[i].value
    decreases |rs|
  {
    var rest := rs[1..];
    assert Chain(rs).value == rs[0].value + Chain(rest).value;
    if p !in rs[0].value {
      ChainMember(rest, p);
      var i :| 0 <= i < |rest| && rest[i].Success? && p in rest[i].value;
      assert rest[i] == rs[i + 1];
    }
  }

  /** A successful chain of dictionaries whose keys differ within and across results has
      distinct keys. */
  lemma {:induction false} ChainDistinct<V>(rs: seq<Result<Items<V>>>)
    requires Chain(rs).Success?
    requires forall i :: 0 <= i < |rs| && rs[i].Success? ==> KeysDistinct(rs[i].value)
    requires forall i, j, p, q ::
      (0 <= i < j < |rs| && rs[i].Success? && rs[j].Success? && p in rs[i].value && q in rs[j].value) ==> p.0 != q.0
    ensures KeysDistinct(Chain(rs).value)
    decreases |rs|
  {
    if rs != [] {
      var rest := rs[1..];
      assert forall i :: 1 <= i < |rs| ==> rs[i] == rest[i - 1];
      ChainDistinct(rest);
      var head := rs[0].value;
      var tail := Chain(rest).value;
      forall x, y | x in head && y in tail
        ensures x.0 != y.0
      {
        ChainMember(rest, y);
        var i :| 0 <= i < |rest| && rest[i].Success? && y in rest[i].value;
        assert rest[i] == rs[i + 1];
      }
      AppendDistinct(head, tail);
    }
  }

  lemma AppendDistinct<V>(a: Items<V>, b: Items<V>)
    requires KeysDistinct(a) && KeysDistinct(b)
    requires forall x, y :: x in a && y in b ==> x.0 != y.0
    ensures KeysDistinct(a + b)
  {
    forall i, j | 0 <= i < j < |a + b|
      ensures (a + b)[i].0 != (a + b)[j].0
    {
      if i < |a| && |a| <= j {
        assert (a + b)[i] in a && (a + b)[j] in b;
      }
    }
  }

  /** One element passes exactly when it is convertible, and then gives its pair if it is a
      quadrupole and nothing otherwise. */
  lemma QuadItemSucceeds(table: Items<string>, short: string, attributes: Json)
    ensures QuadItem(table, short, attributes).Success? <==> Convertible(table, short, attributes)
    ensures QuadItem(table, short, attributes).Success? ==>
      QuadItem(table, short, attributes).value == if IsQuad(attributes) then [QuadPair(table, short, attributes)] else []
  {
  }

  /** The pair a quadrupole element contributes: its EPICS name and its `k1`. */
  function QuadPair(table: Items<string>, short: string, attributes: Json): (string, Json)
    requires Convertible(table, short, attributes) && IsQuad(attributes)
  {
    (Get(table, short).value, Get(Fields(attributes), "k1").value)
  }

  /** The comprehension succeeds exactly when every element passes it. */
  lemma QuadPairsSucceeds(table: Items<string>, items: Items<Json>)
    ensures QuadPairs(table, items).Success? <==>
      forall i :: 0 <= i < |items| ==> Convertible(table, items[i].0, items[i].1)
  {
    var rs := Contributions(table, items);
    ChainSucceeds(rs);
    forall i | 0 <= i < |items|
      ensures rs[i].Success? <==> Convertible(table, items[i].0, items[i].1)
    {
      QuadItemSucceeds(table, items[i].0, items[i].1);
    }
  }

  /** The name table sends different short names to different EPICS names. */
  ghost predicate Injective(table: Items<string>) {
    forall s1, s2 :: Get(table, s1).Some? && Get(table, s2).Some? && s1 != s2 ==>
      Get(table, s1).value != Get(table, s2).value
  }

  /** With an injective table, elements with different names give pairs with different keys. */
  lemma QuadPairsDistinct(table: Items<string>, items: Items<Json>)
    requires Injective(table) && KeysDistinct(items) && QuadPairs(table, items).Success?
    ensures KeysDistinct(QuadPairs(table, items).value)
  {
    var rs := Contributions(table, items);
    forall i | 0 <= i < |rs| && rs[i].Success?
      ensures KeysDistinct(rs[i].value)
    {
      QuadItemSucceeds(table, items[i].0, items[i].1);
    }
    forall i, j, p, q | 0 <= i < j < |rs| && rs[i].Success? && rs[j].Success? && p in rs[i].value && q in rs[j].value
      ensures p.0 != q.0
    {
      QuadItemSucceeds(table, items[i].0, items[i].1);
      QuadItemSucceeds(table, items[j].0, items[j].1);
      assert items[i].0 != items[j].0;
    }
    ChainDistinct(rs);
  }

  /** Every quadrupole element's `k1` is in the comprehension under its EPICS name. */
  lemma QuadPairsLookup(table: Items<string>, items: Items<Json>, i: nat)
    requires Injective(table) && KeysDistinct(items) && QuadPairs(table, items).Success?
    requires i < |items| && IsQuad(items[i].1)
    ensures Get(table, items[i].0).Some?
    ensures Get(QuadPairs(table, items).value, Get(table, items[i].0).value) == Get(Fields(items[i].1), "k1")
  {
    var rs := Contributions(table, items);
    ChainSucceeds(rs);
    QuadItemSucceeds(table, items[i].0, items[i].1);
    var p := QuadPair(table, items[i].0, items[i].1);
    assert p in rs[i].value;
    ChainIncludes(rs, i, p);
    QuadPairsDistinct(table, items);
    GetMember(QuadPairs(table, items).value, p.0, p.1);
  }

  /** Every key of the comprehension is the EPICS name of a quadrupole element. */
  lemma QuadPairsKeys(table: Items<string>, items: Items<Json>, k: string)
    requires QuadPairs(table, items).Success? && k in KeysOf(QuadPairs(table, items).value)
    ensures exists i :: 0 <= i < |items| && IsQuad(items[i].1) && Get(table, items[i].0) == Some(k)
  {
    var rs := Contributions(table, items);
    var ps := QuadPairs(table, items).value;
    var j :| 0 <= j < |ps| && ps[j].0 == k;
    ChainMember(rs, ps[j]);
    var i :| 0 <= i < |rs| && rs[i].Success? && ps[j] in rs[i].value;
    QuadItemKey(table, items[i].0, items[i].1, ps[j]);
  }

  /** A pair contributed by one element comes from a quadrupole, under its EPICS name. */
  lemma QuadItemKey(table: Items<string>, short: string, attributes: Json, p: (string, Json))
    requires QuadItem(table, short, attributes).Success? && p in QuadItem(table, short, attributes).value
    ensures IsQuad(attributes) && Get(table, short) == Some(p.0)
  {
    QuadItemSucceeds(table, short, attributes);
  }

  /** A lattice file that loads gives each quadrupole element's `k1` under the EPICS name
      of the element, and holds nothing else. */
  lemma LatticeQuadsContent(table: Items<string>, doc: Json)
    requires Injective(table) && LatticeQuads(table, doc).Success?
    ensures doc.JObject? && Get(Fields(doc), "elements").Some? && Get(Fields(doc), "elements").value.JObject?
    ensures var items := Fields(Get(Fields(doc), "elements").value);
      forall i :: 0 <= i < |items| && IsQuad(items[i].1) ==>
        Get(table, items[i].0).Some? &&
        Get(LatticeQuads(table, doc).value, Get(table, items[i].0).value) == Get(Fields(items[i].1), "k1")
    ensures var items := Fields(Get(Fields(doc), "elements").value);
      forall k :: k in KeysOf(LatticeQuads(table, doc).value) ==>
        exists i :: 0 <= i < |items| && IsQuad(items[i].1) && Get(table, items[i].0) == Some(k)
  {
    var items := Fields(Get(Fields(doc), "elements").value);
    QuadPairsDistinct(table, items);
    FromPairsDistinct(QuadPairs(table, items).value);
    assert LatticeQuads(table, doc).value == QuadPairs(table, items).value;
    forall i | 0 <= i < |items| && IsQuad(items[i].1)
      ensures Get(table, items[i].0).Some?
      ensures Get(QuadPairs(table, items).value, Get(table, items[i].0).value) == Get(Fields(items[i].1), "k1")
    {
      QuadPairsLookup(table, items, i);
    }
    forall k | k in KeysOf(QuadPairs(table, items).value)
      ensures exists i :: 0 <= i < |items| && IsQuad(items[i].1) && Get(table, items[i].0) == Some(k)
    {
      QuadPairsKeys(table, items, k);
    }
  }

  /** How loading a lattice file fails: not an object, no `elements`, `elements` not an
      object, or an element the comprehension cannot take. */
  lemma LatticeQuadsErrors(table: Items<string>, doc: Json)
    ensures !doc.JObject? ==> LatticeQuads(table, doc) == Failure(TypeError)
    ensures doc.JObject? && Get(Fields(doc), "elements").None? ==>
      LatticeQuads(table, doc) == Failure(KeyError("elements"))
    ensures doc.JObject? && Get(Fields(doc), "elements").Some? && !Get(Fields(doc), "elements").value.JObject? ==>
      LatticeQuads(table, doc) == Failure(AttributeError("items"))
    ensures doc.JObject? && Get(Fields(doc), "elements").Some? && Get(Fields(doc), "elements").value.JObject? ==>
      var items := Fields(Get(Fields(doc), "elements").value);
      (LatticeQuads(table, doc).Success? <==> forall i :: 0 <= i < |items| ==> Convertible(table, items[i].0, items[i].1))
  {
    if doc.JObject? && Get(Fields(doc), "elements").Some? && Get(Fields(doc), "elements").value.JObject? {
      QuadPairsSucceeds(table, Fields(Get(Fields(doc), "elements").value));
    }
  }

  /** The conversion table of the tool sends different short names to different EPICS names. */
  lemma Short2EpicsIsInjective()
    ensures Injective(Short2Epics())
  {
    forall s1, s2 | Get(Short2Epics(), s1).Some? && Get(Short2Epics(), s2).Some? && s1 != s2
      ensures Get(Short2Epics(), s1).value != Get(Short2Epics(), s2).value
    {
      Short2EpicsInjective(s1, s2);
    }
  }

  /** A quadrupole element whose name the table lacks makes the lattice filter fail. */
  lemma UnknownNameFails(table: Items<string>, doc: Json, i: nat)
    requires doc.JObject? && Get(Fields(doc), "elements").Some? && Get(Fields(doc), "elements").value.JObject?
    requires i < |Fields(Get(Fields(doc), "elements").value)|
    requires IsQuad(Fields(Get(Fields(doc), "elements").value)[i].1)
    requires Get(table, Fields(Get(Fields(doc), "elements").value)[i].0).None?
    ensures LatticeQuads(table, doc).Failure?
  {
    var items := Fields(Get(Fields(doc), "elements").value);
    QuadPairsSucceeds(table, items);
    assert !Convertible(table, items[i].0, items[i].1);
  }

  /** A quadrupole element whose name is not in `quadlist_short` makes a lattice file
      fail to load. */
  lemma UnknownQuadFails(doc: Json, i: nat)
    requires doc.JObject? && Get(Fields(doc), "elements").Some? && Get(Fields(doc), "elements").value.JObject?
    requires i < |Fields(Get(Fields(doc), "elements").value)|
    requires IsQuad(Fields(Get(Fields(doc), "elements").value)[i].1)
    requires Fields(Get(Fields(doc), "elements").value)[i].0 !in QuadlistShort
    ensures LatticeQuads(Short2Epics(), doc).Failure?
  {
    var items := Fields(Get(Fields(doc), "elements").value);
    Short2EpicsTable();
    assert Get(Short2Epics(), items[i].0).None?;
    UnknownNameFails(Short2Epics(), doc, i);
  }

  /** A value file that is a JSON object loads as its members, a repeated member keeping
      its first position and its last value. */
  lemma ValueFileContent(doc: Json, k: string)
    requires doc.JObject?
    ensures Loaded(Parsed(doc), false).Success?
    ensures Get(Loaded(Parsed(doc), false).value, k) == LastValue(doc.members, k)
    ensures forall k' :: k' in KeysOf(Loaded(Parsed(doc), false).value) <==> exists j :: 0 <= j < |doc.members| && doc.members[j].0 == k'
  {
    assert Filled(Parsed(doc), false) == (Fields(doc), None);
    var d := Loaded(Parsed(doc), false).value;
    FromPairsLastWins(doc.members, k);
    forall k' ensures k' in KeysOf(d) <==> exists j :: 0 <= j < |doc.members| && doc.members[j].0 == k' {
      FromPairsLastWins(doc.members, k');
      LastValueSome(doc.members, k');
    }
  }

  /** A value file that is a JSON list loads exactly when every element is a pair; the
      dictionary then holds each pair's key with its last value. When an element is not a
      pair, its exception ends the load and the dictionary keeps the pairs before it. */
  lemma ListValueFile(xs: seq<Json>, k: string)
    ensures var (d, err) := Filled(Parsed(JArray(xs)), false);
      var ps := UpdatePairs(xs).0;
      && (err.None? <==> forall i :: 0 <= i < |xs| ==> UpdatePair(xs[i]).Success?)
      && (err.Some? ==> |ps| < |xs| && UpdatePair(xs[|ps|]) == Failure(err.value))
      && (forall i :: 0 <= i < |ps| ==> UpdatePair(xs[i]) == Success(ps[i]))
      && Get(d, k) == LastValue(ps, k)
  {
    FromPairsLastWins(UpdatePairs(xs).0, k);
  }

  /** A value file that is a JSON string is iterated by character, and a single character
      is no pair: the empty string loads as `{}`, any other string is a `ValueError`. */
  lemma StringValueFile(s: string)
    ensures Filled(Parsed(JString(s)), false) == ([], if s == [] then None else Some(ValueError))
  {
    var cs := Characters(s);
    if s != [] {
      assert UpdatePair(cs[0]) == Failure(ValueError);
    }
  }

  /** A value file that is a number, `true`, `false` or `null` is not iterable: the load
      ends in a `TypeError` with the dictionary empty. */
  lemma ScalarValueFile(doc: Json)
    requires doc.JNumber? || doc.JBool? || doc.JNull?
    ensures Filled(Parsed(doc), false) == ([], Some(TypeError))
    ensures Loaded(Parsed(doc), false) == Failure(TypeError)
  {
  }

  lemma {:induction false} LastValueSome<V>(ps: seq<(string, V)>, k: string)
    ensures LastValue(ps, k).Some? <==> exists j :: 0 <= j < |ps| && ps[j].0 == k
  {
    if ps != [] {
      LastValueSome(ps[..|ps| - 1], k);
      assert forall j :: 0 <= j < |ps| - 1 ==> ps[..|ps| - 1][j] == ps[j];
    }
  }

  /** A dictionary the window fills from a file (`new_quad_values`, `ref_quad_values`,
      `ref_PS_values`), with the path its label shows. */
  class LoadedValues {
    var values: Items<Json>
    var path: string

    ghost predicate Valid()
      reads this
    {
      KeysDistinct(values)
    }

    constructor()
      ensures Valid() && values == [] && path == ""
    {
      values := [];
      path := "";
    }

    /** `update_dict_from_file`: a file that cannot be opened changes nothing; otherwise the
        dictionary is cleared and filled as far as the load gets, and the path is shown
        only if the file loads. */
    method UpdateFromFile(newPath: string, file: FileContent, latticeFile: bool) returns (r: Result<()>)
      requires Valid()
      modifies this
      ensures Valid()
      ensures file.Unopenable? ==> r == Failure(OSError) && values == old(values) && path == old(path)
      ensures !file.Unopenable? ==> values == Filled(file, latticeFile).0
      ensures !file.Unopenable? && Filled(file, latticeFile).1.Some? ==>
        r == Failure(Filled(file, latticeFile).1.value) && path == old(path)
      ensures r.Success? <==> Loaded(file, latticeFile).Success?
      ensures r.Success? ==> values == Loaded(file, latticeFile).value && path == newPath
    {
      if file.Unopenable? {
        return Failure(OSError);
      }
      values := [];
      var (filled, err) := Filled(file, latticeFile);
      values := filled;
      if err.Some? {
        return Failure(err.value);
      }
      path := newPath;
      r := Success(());
    }
  }

  // `compute_new_PS_values`: every magnet whose strength changed gets the reference supply
  // value scaled by new strength over reference strength.

  /** `new * ref_PS / ref` on decoded values: anything but numbers is a `TypeError`, a zero
      reference strength a `ZeroDivisionError`. */
  function NewPsValue(n: Json, p: Json, q: Json): (v: Result<real>)
    ensures v.Success? <==> n.JNumber? && p.JNumber? && q.JNumber? && q.n != 0.0
    ensures v.Failure? ==> v.error == if n.JNumber? && p.JNumber? && q.JNumber? then ZeroDivisionError else TypeError
    ensures v.Success? ==> v.value * q.n == n.n * p.n
  {
    if !(n.JNumber? && p.JNumber? && q.JNumber?) then Failure(TypeError)
    else if q.n == 0.0 then Failure(ZeroDivisionError)
    else Success(n.n * p.n / q.n)
  }

  /** What the loop body decides for `key`: `None` when the two strengths agree, so nothing
      is written, and the new supply value otherwise. */
  function NewValueFor(newQuad: Items<Json>, refQuad: Items<Json>, refPs: Items<Json>, key: string): Result<Option<real>>
  {
    var n :- Lookup(newQuad, key);
    var q :- Lookup(refQuad, key);
    if n == q then Success(None)
    else
      var p :- Lookup(refPs, key);
      var v :- NewPsValue(n, p, q);
      Success(Some(v))
  }

  /** A missing magnet is a `KeyError`; equal strengths write nothing; otherwise the
      reference supply value is needed and the new value keeps the ratio of strengths. */
  lemma NewValueForCases(newQuad: Items<Json>, refQuad: Items<Json>, refPs: Items<Json>, key: string)
    ensures Get(newQuad, key).None? || Get(refQuad, key).None? ==> NewValueFor(newQuad, refQuad, refPs, key) == Failure(KeyError(key))
    ensures NewValueFor(newQuad, refQuad, refPs, key) == Success(None) <==> Get(newQuad, key).Some? && Get(newQuad, key) == Get(refQuad, key)
    ensures Get(newQuad, key).Some? && Get(refQuad, key).Some? && Get(newQuad, key) != Get(refQuad, key) ==>
      if Get(refPs, key).None? then NewValueFor(newQuad, refQuad, refPs, key) == Failure(KeyError(key))
      else NewValueFor(newQuad, refQuad, refPs, key).Success? <==> NewPsValue(Get(newQuad, key).value, Get(refPs, key).value, Get(refQuad, key).value).Success?
    ensures NewValueFor(newQuad, refQuad, refPs, key).Success? && NewValueFor(newQuad, refQuad, refPs, key).value.Some? ==>
      Get(newQuad, key).value.JNumber? && Get(refQuad, key).value.JNumber? && Get(refPs, key).value.JNumber? &&
      NewValueFor(newQuad, refQuad, refPs, key).value.value * Get(refQuad, key).value.n == Get(newQuad, key).value.n * Get(refPs, key).value.n
  {
  }

  /** What the loop body decides for each magnet of `keys`, in loop order. */
  function Decisions(keys: seq<string>, newQuad: Items<Json>, refQuad: Items<Json>, refPs: Items<Json>): (ds: seq<Result<Option<real>>>)
    ensures |ds| == |keys|
    ensures forall i :: 0 <= i < |keys| ==> ds[i] == NewValueFor(newQuad, refQuad, refPs, keys[i])
  {
    seq(|keys|, i requires 0 <= i < |keys| => NewValueFor(newQuad, refQuad, refPs, keys[i]))
  }

  /** The new supply values after the loop has run over `keys` with decisions `ds`, and the
      exception that ended it early, if any; entries written before the exception stay. */
  datatype Scaled = Scaled(values: Items<Json>, error: Option<Error>)

  function Scaling(keys: seq<string>, ds: seq<Result<Option<real>>>, ps: Items<Json>): (r: Scaled)
    requires |ds| == |keys| && KeysDistinct(ps)
    ensures KeysDistinct(r.values)
    decreases |keys|
  {
    if keys == [] then Scaled(ps, None)
    else
      var before := Scaling(keys[..|keys| - 1], ds[..|ds| - 1], ps);
      if before.error.Some? then before
      else
        match ds[|ds| - 1]
        case Failure(e) => Scaled(before.values, Some(e))
        case Success(None) => before
        case Success(Some(v)) => Scaled(Put(before.values, keys[|keys| - 1], JNumber(v)), None)
  }

  /** The last magnet of a run without an exception changes only its own entry, and the
      run before it had no exception either. */
  lemma {:induction false} ScalingLast(keys: seq<string>, ds: seq<Result<Option<real>>>, ps: Items<Json>, k: string)
    requires |ds| == |keys| > 0 && KeysDistinct(ps) && Scaling(keys, ds, ps).error.None?
    ensures var n := |keys| - 1;
      var before := Scaling(keys[..n], ds[..n], ps);
      before.error.None? && ds[n].Success? &&
      Get(Scaling(keys, ds, ps).values, k) ==
        if k == keys[n] && ds[n].value.Some? then Some(JNumber(ds[n].value.value)) else Get(before.values, k)
  {
    var n := |keys| - 1;
    var before := Scaling(keys[..n], ds[..n], ps);
    var r := Scaling(keys, ds, ps);
    assert before.error.None? && ds[n].Success?;
    match ds[n].value {
      case None =>
        assert r == before;
      case Some(v) =>
        assert r.values == Put(before.values, keys[n], JNumber(v));
    }
  }


  /** After a run without an exception, a magnet whose decision is a value holds it. */
  lemma {:induction false} ScalingWrites(keys: seq<string>, ds: seq<Result<Option<real>>>, ps: Items<Json>, i: nat)
    requires |ds| == |keys| && KeysDistinct(ps) && Distinct(keys) && i < |keys|
    requires Scaling(keys, ds, ps).error.None? && ds[i].Success? && ds[i].value.Some?
    ensures Get(Scaling(keys, ds, ps).values, keys[i]) == Some(JNumber(ds[i].value.value))
    decreases |keys|
  {
    var n := |keys| - 1;
    var before := Scaling(keys[..n], ds[..n], ps);
    ScalingLast(keys, ds, ps, keys[i]);
    if i < n {
      assert keys[..n][i] == keys[i] && ds[..n][i] == ds[i];
      assert Distinct(keys[..n]);
      ScalingWrites(keys[..n], ds[..n], ps, i);
      assert keys[n] != keys[i];
      assert Get(Scaling(keys, ds, ps).values, keys[i]) == Get(before.values, keys[i]);
    } else {
      assert i == n;
    }
  }

  /** A run never changes a magnet outside `keys`. */
  lemma {:induction false} ScalingUnlisted(keys: seq<string>, ds: seq<Result<Option<real>>>, ps: Items<Json>, k: string)
    requires |ds| == |keys| && KeysDistinct(ps) && k !in keys
    ensures Get(Scaling(keys, ds, ps).values, k) == Get(ps, k)
    decreases |keys|
  {
    if keys != [] {
      var n := |keys| - 1;
      assert k != keys[n];
      ScalingUnlisted(keys[..n], ds[..n], ps, k);
    }
  }

  /** After a run without an exception, a magnet whose strengths agree keeps its entry. */
  lemma {:induction false} ScalingSkips(keys: seq<string>, ds: seq<Result<Option<real>>>, ps: Items<Json>, i: nat)
    requires |ds| == |keys| && KeysDistinct(ps) && Distinct(keys) && i < |keys|
    requires Scaling(keys, ds, ps).error.None? && ds[i] == Success(None)
    ensures Get(Scaling(keys, ds, ps).values, keys[i]) == Get(ps, keys[i])
    decreases |keys|
  {
    var n := |keys| - 1;
    var before := Scaling(keys[..n], ds[..n], ps);
    ScalingLast(keys, ds, ps, keys[i]);
    assert Get(Scaling(keys, ds, ps).values, keys[i]) == Get(before.values, keys[i]);
    if i < n {
      assert keys[..n][i] == keys[i] && ds[..n][i] == ds[i];
      assert Distinct(keys[..n]);
      ScalingSkips(keys[..n], ds[..n], ps, i);
    } else {
      assert keys[i] !in keys[..n];
      ScalingUnlisted(keys[..n], ds[..n], ps, keys[i]);
    }
  }

  /** The run never removes an entry nor moves one, and adds only listed magnets. */
  lemma {:induction false} ScalingKeys(keys: seq<string>, ds: seq<Result<Option<real>>>, ps: Items<Json>)
    requires |ds| == |keys| && KeysDistinct(ps)
    ensures KeysOf(ps) <= KeysOf(Scaling(keys, ds, ps).values)
    ensures forall k :: k in KeysOf(Scaling(keys, ds, ps).values) ==> k in KeysOf(ps) || k in keys
    decreases |keys|
  {
    if keys != [] {
      var n := |keys| - 1;
      ScalingKeys(keys[..n], ds[..n], ps);
      assert keys == keys[..n] + [keys[n]];
    }
  }

  /** The run ends without an exception exactly when every decision is one. */
  lemma {:induction false} ScalingSucceeds(keys: seq<string>, ds: seq<Result<Option<real>>>, ps: Items<Json>)
    requires |ds| == |keys| && KeysDistinct(ps)
    ensures Scaling(keys, ds, ps).error.None? <==> forall i :: 0 <= i < |ds| ==> ds[i].Success?
    decreases |keys|
  {
    if keys != [] {
      var n := |keys| - 1;
      var front := ds[..n];
      ScalingSucceeds(keys[..n], front, ps);
      assert ds == front + [ds[n]];
      assert (forall i :: 0 <= i < |ds| ==> ds[i].Success?) <==>
             (forall i :: 0 <= i < n ==> front[i].Success?) && ds[n].Success?;
    }
  }

  /** An exception is the one of the first failing decision, and the entries hold what the
      run over the magnets before it wrote. */
  lemma {:induction false} ScalingStopsAt(keys: seq<string>, ds: seq<Result<Option<real>>>, ps: Items<Json>)
    requires |ds| == |keys| && KeysDistinct(ps) && Scaling(keys, ds, ps).error.Some?
    ensures exists i :: (0 <= i < |keys| &&
                         (forall j :: 0 <= j < i ==> ds[j].Success?) &&
                         ds[i] == Failure(Scaling(keys, ds, ps).error.value) &&
                         Scaling(keys, ds, ps).values == Scaling(keys[..i], ds[..i], ps).values)
    decreases |keys|
  {
    var n := |keys| - 1;
    var before := Scaling(keys[..n], ds[..n], ps);
    var r := Scaling(keys, ds, ps);
    if before.error.Some? {
      ScalingStopsAt(keys[..n], ds[..n], ps);
      var i :| 0 <= i < n &&
        (forall j :: 0 <= j < i ==> ds[..n][j].Success?) &&
        ds[..n][i] == Failure(before.error.value) &&
        before.values == Scaling(keys[..n][..i], ds[..n][..i], ps).values;
      assert r == before;
      assert keys[..n][..i] == keys[..i] && ds[..n][..i] == ds[..i];
      assert forall j :: 0 <= j <= i ==> ds[..n][j] == ds[j];
    } else {
      ScalingSucceeds(keys[..n], ds[..n], ps);
      assert forall j :: 0 <= j < n ==> ds[..n][j] == ds[j];
      assert ds[n] == Failure(r.error.value);
      assert r.values == before.values;
    }
  }

  /** The run over one more magnet takes one more step. */
  lemma {:induction false} ScalingExtend(keys: seq<string>, ds: seq<Result<Option<real>>>, ps: Items<Json>, i: nat)
    requires |ds| == |keys| && KeysDistinct(ps) && i < |keys|
    ensures var before := Scaling(keys[..i], ds[..i], ps);
      Scaling(keys[..i + 1], ds[..i + 1], ps) ==
        if before.error.Some? then before
        else match ds[i]
          case Failure(e) => Scaled(before.values, Some(e))
          case Success(None) => before
          case Success(Some(v)) => Scaled(Put(before.values, keys[i], JNumber(v)), None)
  {
    assert keys[..i + 1][..i] == keys[..i] && ds[..i + 1][..i] == ds[..i];
  }

  /** Once the run over a prefix has raised, the rest of the magnets are not visited. */
  lemma {:induction false} ScalingRaisedPrefix(keys: seq<string>, ds: seq<Result<Option<real>>>, ps: Items<Json>, i: nat)
    requires |ds| == |keys| && KeysDistinct(ps) && i <= |keys| && Scaling(keys[..i], ds[..i], ps).error.Some?
    ensures Scaling(keys, ds, ps) == Scaling(keys[..i], ds[..i], ps)
    decreases |keys| - i
  {
    if i < |keys| {
      assert keys[..i + 1][..i] == keys[..i] && ds[..i + 1][..i] == ds[..i];
      ScalingRaisedPrefix(keys, ds, ps, i + 1);
    } else {
      assert keys[..i] == keys && ds[..i] == ds;
    }
  }

  /** `self.new_quad_values.keys() == self.ref_quad_values.keys()`: the same magnets, in any order. */
  predicate SameKeys(a: Items<Json>, b: Items<Json>) {
    (set k | k in KeysOf(a)) == (set k | k in KeysOf(b))
  }

  // The example files the constructor loads when `DEBUG` is set.
  const NewQuadExample := "example_values/Q5T2off_turn_off.json"
  const RefQuadExample := "example_values/BII_2017-08-04_23-42_LOCOFitByPS_noID_ActualUserMode.json"
  const RefPsExample := "example_values/BII_2017-08-04_23-42_LOCOFitByPS_noID_ActualUserMode.values"

  /** The conversion window's state: the three loaded dictionaries and the computed
      supply values. */
  class Gui {
    const newQuad: LoadedValues
    const refQuad: LoadedValues
    const refPs: LoadedValues
    var newPsValues: Items<Json>

    ghost predicate Valid()
      reads this, newQuad, refQuad, refPs
    {
      KeysDistinct(newPsValues) && newQuad.Valid() && refQuad.Valid() && refPs.Valid() &&
      newQuad != refQuad && newQuad != refPs && refQuad != refPs
    }

    constructor()
      ensures Valid() && fresh(newQuad) && fresh(refQuad) && fresh(refPs)
      ensures newQuad.values == [] && refQuad.values == [] && refPs.values == [] && newPsValues == []
    {
      newQuad := new LoadedValues();
      refQuad := new LoadedValues();
      refPs := new LoadedValues();
      newPsValues := [];
    }

    /** The constructor's `DEBUG` step: the example new lattice, reference lattice and
        reference supply values are loaded in that order; an exception ends it. */
    method LoadDebugFiles(newFile: FileContent, refFile: FileContent, psFile: FileContent) returns (r: Result<()>)
      requires Valid()
      modifies newQuad, refQuad, refPs
      ensures Valid()
      ensures r.Success? <==> Loaded(newFile, true).Success? && Loaded(refFile, true).Success? && Loaded(psFile, false).Success?
      ensures r.Success? ==>
        newQuad.values == Loaded(newFile, true).value && refQuad.values == Loaded(refFile, true).value &&
        refPs.values == Loaded(psFile, false).value
    {
      r := newQuad.UpdateFromFile(NewQuadExample, newFile, true);
      if r.Failure? {
        return;
      }
      r := refQuad.UpdateFromFile(RefQuadExample, refFile, true);
      if r.Failure? {
        return;
      }
      r := refPs.UpdateFromFile(RefPsExample, psFile, false);
    }

    /** `compute_new_PS_values`: with different magnets nothing happens; otherwise the loop
        over the new lattice's magnets, in order, updates the supply values until the
        first exception. */
    method ComputeNewPsValues() returns (error: Option<Error>)
      requires Valid()
      modifies this
      ensures Valid()
      ensures !SameKeys(newQuad.values, refQuad.values) ==> error.None? && newPsValues == old(newPsValues)
      ensures SameKeys(newQuad.values, refQuad.values) ==>
        var keys := KeysOf(newQuad.values);
        Scaled(newPsValues, error) ==
        Scaling(keys, Decisions(keys, newQuad.values, refQuad.values, refPs.values), old(newPsValues))
    {
      if !SameKeys(newQuad.values, refQuad.values) {
        return None;
      }
      var keys := KeysOf(newQuad.values);
      ghost var ds := Decisions(keys, newQuad.values, refQuad.values, refPs.values);
      var i := 0;
      while i < |keys|
        invariant 0 <= i <= |keys|
        invariant KeysDistinct(newPsValues)
        invariant Scaling(keys[..i], ds[..i], old(newPsValues)) == Scaled(newPsValues, None)
      {
        var key := keys[i];
        ScalingExtend(keys, ds, old(newPsValues), i);
        match NewValueFor(newQuad.values, refQuad.values, refPs.values, key) {
          case Failure(e) =>
            ScalingRaisedPrefix(keys, ds, old(newPsValues), i + 1);
            return Some(e);
          case Success(None) =>
          case Success(Some(v)) =>
            newPsValues := Put(newPsValues, key, JNumber(v));
        }
        i := i + 1;
      }
      assert keys[..i] == keys && ds[..i] == ds;
      error := None;
    }
  }
}
