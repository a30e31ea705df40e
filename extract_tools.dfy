/** `extract_quad_values/mmltools.py`: `ATRingWithAO` loads a LOCO file, fills its
    name table, and lists magnet strengths by power supply as
    `{name: {"type": "Quad", "length", "k1"}}` or `{name: {"type": "Sext", "length", "k2"}}`,
    reading the machine from the `ad.Maschine` field. */
module ExtractTools {
  import opened Outcomes
  import opened PyStr
  import opened NumPy
  import opened Dicts
  import opened LocoFile
  import opened NameMaps
  import opened Strengths
  import opened Machines

  /** What the `length` entry of a sextupole record holds. */
  datatype LengthField = Metres(metres: real) | Table(table: Items<real>)

  /** One magnet record of the result. */
  datatype Magnet = Quad(length: real, k1: real) | Sext(sextLength: LengthField, k2: real)

  /** The strength a record stands for: `k1` of a quadrupole; for a sextupole with its
      length in metres, `k2` times the length, halved. */
  function ReadBack(m: Magnet): Option<real> {
    match m
    case Quad(_, k1) => Some(k1)
    case Sext(length, k2) => if length.Metres? then Some(k2 * length.metres / 2.0) else None
  }

  const UnknownMachine: string := "Unkown Maschine."
  const NotImplemented: string := "Method not implemented."

  /** `_get_magnet_strength`, with the sextupole length recorded in metres: `None` for a
      type other than QUAD and SEXT. */
  function MagnetStrength(machine: string, name: string, strength: real, atType: string): (r: Result<Option<(string, Magnet)>>)
    ensures MachineOf(machine).None? ==> r == Failure(Raised(UnknownMachine))
    ensures MachineOf(machine).Some? && atType != "QUAD" && atType != "SEXT" ==> r == Success(None)
    ensures r.Success? && r.value.Some? ==> r.value.value.0 == Rename(MachineOf(machine).value, name)
  {
    match MachineOf(machine)
    case None => Failure(Raised(UnknownMachine))
    case Some(m) =>
      var n := Rename(m, name);
      if atType == "QUAD" then
        var l :- Lookup(QuadLengths(m), Head(n, 2));
        Success(Some((n, Quad(l, strength))))
      else if atType == "SEXT" then
        var l :- Lookup(SextLengths(m), Head(n, 2));
        LookupPositive(SextLengths(m), Head(n, 2));
        Success(Some((n, Sext(Metres(l), strength / l * 2.0))))
      else Success(None)
  }

  /** The record the code as written stores in place of a corrected one: a sextupole's
      `length` is the machine's whole table of sextupole lengths. */
  function AsWrittenRecord(machine: string, mg: Magnet): Magnet {
    match MachineOf(machine)
    case Some(m) => if mg.Sext? then Sext(Table(SextLengths(m)), mg.k2) else mg
    case None => mg
  }

  function AsWritten(machine: string): Magnet -> Magnet {
    mg => AsWrittenRecord(machine, mg)
  }

  /** `_get_magnet_strength` as written: quadrupoles, other types and failures as in the
      corrected version, a sextupole record with the table as its length. */
  function MagnetStrengthAsWritten(machine: string, name: string, strength: real, atType: string): (r: Result<Option<(string, Magnet)>>)
    ensures atType != "SEXT" ==> r == MagnetStrength(machine, name, strength, atType)
    ensures r.Failure? <==> MagnetStrength(machine, name, strength, atType).Failure?
  {
    var e :- MagnetStrength(machine, name, strength, atType);
    match e
    case Some((n, mg)) => Success(Some((n, AsWrittenRecord(machine, mg))))
    case None => Success(None)
  }

  /** A quadrupole keeps its strength as `k1` and gets the length listed for the first
      two characters of its rewritten name; a missing entry is a `KeyError` on them. */
  lemma QuadRecord(machine: string, name: string, strength: real)
    requires MachineOf(machine).Some?
    ensures var m := MachineOf(machine).value;
      var n := Rename(m, name);
      var r := MagnetStrength(machine, name, strength, "QUAD");
      match Get(QuadLengths(m), Head(n, 2))
      case None => r == Failure(KeyError(Head(n, 2)))
      case Some(l) => r == Success(Some((n, Quad(l, strength))))
  {
  }

  /** A sextupole's `k2` is twice its strength per metre: multiplying back by the length
      and halving gives the strength again (`ReadBack`). A missing entry is a `KeyError`. */
  lemma SextRecord(machine: string, name: string, strength: real)
    requires MachineOf(machine).Some?
    ensures var m := MachineOf(machine).value;
      var n := Rename(m, name);
      var r := MagnetStrength(machine, name, strength, "SEXT");
      match Get(SextLengths(m), Head(n, 2))
      case None => r == Failure(KeyError(Head(n, 2)))
      case Some(l) =>
        (l > 0.0 && r.Success? && r.value.Some? && r.value.value.0 == n
         && r.value.value.1.Sext? && r.value.value.1.sextLength == Metres(l)
         && ReadBack(r.value.value.1) == Some(strength))
  {
    var m := MachineOf(machine).value;
    var n := Rename(m, name);
    if Get(SextLengths(m), Head(n, 2)).Some? {
      var l := Get(SextLengths(m), Head(n, 2)).value;
      LookupPositive(SextLengths(m), Head(n, 2));
      ReadBackSext(strength, l);
    }
  }

  lemma ReadBackSext(strength: real, l: real)
    requires l > 0.0
    ensures ReadBack(Sext(Metres(l), strength / l * 2.0)) == Some(strength)
  {
    var k := strength / l;
    assert k * l == strength;
    var k2 := k * 2.0;
    assert k2 * l == (k * l) * 2.0;
    assert k2 * l / 2.0 == strength;
    var m := Sext(Metres(l), k2);
    assert m.sextLength.metres == l;
    assert ReadBack(m).Some? && ReadBack(m).value == strength;
  }

  /** Every BESSY II sextupole record, as written, holds the four-entry table where the
      length belongs, while the corrected record holds 0.21 m for `S1`. */
  lemma SextLengthAsWrittenIsTable()
    ensures MagnetStrengthAsWritten("BESSYII", "S1", 0.42, "SEXT") ==
      Success(Some(("S1", Sext(Table(SextLengths(BessyII)), 4.0))))
    ensures MagnetStrength("BESSYII", "S1", 0.42, "SEXT") == Success(Some(("S1", Sext(Metres(0.21), 4.0))))
  {
    assert Replace("S1", "PR", "") == "S1";
    assert Replace("S1", "PD", "D") == "S1";
    assert Replace("S1", "PT", "T") == "S1";
    assert Replace("S1", "PQ", "Q") == "S1";
    assert Replace("S1", "R", "") == "S1";
    assert Head("S1", 2) == "S1";
    assert Lookup(SextLengths(BessyII), "S1") == Success(0.21);
  }

  /** As written, every sextupole record found holds the whole table where its length
      belongs, so the record itself reads back no strength; looking its name up in that
      table again gives the length that recovers the strength. A missing entry is the
      same `KeyError` as in the corrected record. */
  lemma SextRecordAsWritten(machine: string, name: string, strength: real)
    requires MachineOf(machine).Some?
    ensures var m := MachineOf(machine).value;
      var n := Rename(m, name);
      var r := MagnetStrengthAsWritten(machine, name, strength, "SEXT");
      match Get(SextLengths(m), Head(n, 2))
      case None => r == Failure(KeyError(Head(n, 2)))
      case Some(l) =>
        && r == Success(Some((n, Sext(Table(SextLengths(m)), strength / l * 2.0))))
        && ReadBack(r.value.value.1) == None
        && ReadBack(Sext(Metres(Get(r.value.value.1.sextLength.table, Head(n, 2)).value), r.value.value.1.k2)) == Some(strength)
  {
    SextRecord(machine, name, strength);
    var m := MachineOf(machine).value;
    var n := Rename(m, name);
    if Get(SextLengths(m), Head(n, 2)).Some? {
      var l := Get(SextLengths(m), Head(n, 2)).value;
      LookupPositive(SextLengths(m), Head(n, 2));
      ReadBackSext(strength, l);
    }
  }

  /** The AT index and supply name of every ring position, as the name table holds them. */
  datatype SupplyColumns = SupplyColumns(atIndices: seq<int>, psNames: seq<string>)
  type Supplies = s: SupplyColumns | |s.atIndices| == |s.psNames| witness SupplyColumns([], [])

  function SuppliesOf(nm: NameMap): (r: Supplies)
    requires nm.Valid()
    reads nm.atIndices, nm.psNames
    ensures |r.atIndices| == nm.n
  {
    SupplyColumns(nm.atIndices[..], nm.psNames[..])
  }

  /** `get_at_indices_by_ps_names(name)` on those columns. */
  function SupplyIndices(sp: Supplies, name: string): seq<int> {
    Masked(sp.atIndices, sp.psNames, name)
  }

  /** One pass of the loop body: the mean strength on supply `name`, turned into its
      record; a type without a record is the `TypeError` of unpacking `None`. */
  function SupplyEntry(machine: string, ring: Ring, sp: Supplies, atType: string, g: Getter, name: string): Result<(string, Magnet)>
  {
    var mean :- Mean(ring, SupplyIndices(sp, name), g);
    var e :- MagnetStrength(machine, name, mean, atType);
    match e
    case None => Failure(TypeError)
    case Some(entry) => Success(entry)
  }

  /** The strength read for each supply in turn: the `(name, record)` pairs that
      `elements.update` receives, or the first exception. */
  function Entries(machine: string, ring: Ring, sp: Supplies, atType: string, g: Getter, names: seq<string>): Result<seq<(string, Magnet)>>
  {
    if names == [] then Success([])
    else
      var front :- Entries(machine, ring, sp, atType, g, names[..|names| - 1]);
      var entry :- SupplyEntry(machine, ring, sp, atType, g, names[|names| - 1]);
      Success(front + [entry])
  }

  /** `get_magnet_strength(at_type, fit_iteration, method)`. */
  function MagnetStrengths(machine: string, rings: seq<Ring>, nm: NameMap, atType: string, fitIteration: int, methodName: string): Result<Items<Magnet>>
    requires nm.Valid()
    reads nm.atIndices, nm.atTypes, nm.psNames
  {
    var ring :- At(rings, fitIteration);
    var g :- if atType == "QUAD" then Success(K) else if atType == "SEXT" then Success(PolynomB2) else Failure(KeyError(atType));
    if methodName != "byPowerSupply" then Failure(Raised(NotImplemented))
    else
      var es :- Entries(machine, ring, SuppliesOf(nm), atType, g, nm.GetPsNames(atType));
      Success(FromPairs(es))
  }

  /** The loop body as written: the same mean, stored in the as-written record. */
  function SupplyEntryAsWritten(machine: string, ring: Ring, sp: Supplies, atType: string, g: Getter, name: string): Result<(string, Magnet)>
  {
    var mean :- Mean(ring, SupplyIndices(sp, name), g);
    var e :- MagnetStrengthAsWritten(machine, name, mean, atType);
    match e
    case None => Failure(TypeError)
    case Some(entry) => Success(entry)
  }

  function EntriesAsWritten(machine: string, ring: Ring, sp: Supplies, atType: string, g: Getter, names: seq<string>): Result<seq<(string, Magnet)>>
  {
    if names == [] then Success([])
    else
      var front :- EntriesAsWritten(machine, ring, sp, atType, g, names[..|names| - 1]);
      var entry :- SupplyEntryAsWritten(machine, ring, sp, atType, g, names[|names| - 1]);
      Success(front + [entry])
  }

  /** `get_magnet_strength` as written: the sextupole records hold the length table. */
  function MagnetStrengthsAsWritten(machine: string, rings: seq<Ring>, nm: NameMap, atType: string, fitIteration: int, methodName: string): Result<Items<Magnet>>
    requires nm.Valid()
    reads nm.atIndices, nm.atTypes, nm.psNames
  {
    var ring :- At(rings, fitIteration);
    var g :- if atType == "QUAD" then Success(K) else if atType == "SEXT" then Success(PolynomB2) else Failure(KeyError(atType));
    if methodName != "byPowerSupply" then Failure(Raised(NotImplemented))
    else
      var es :- EntriesAsWritten(machine, ring, SuppliesOf(nm), atType, g, nm.GetPsNames(atType));
      Success(FromPairs(es))
  }

  lemma SupplyEntryAsWrittenMap(machine: string, ring: Ring, sp: Supplies, atType: string, g: Getter, name: string)
    ensures var e := SupplyEntry(machine, ring, sp, atType, g, name);
      SupplyEntryAsWritten(machine, ring, sp, atType, g, name) ==
        if e.Failure? then Failure(e.error) else Success((e.value.0, AsWrittenRecord(machine, e.value.1)))
  {
  }

  /** Both loops take the last supply after the ones before it. */
  lemma EntriesLast(machine: string, ring: Ring, sp: Supplies, atType: string, g: Getter, names: seq<string>)
    requires names != []
    ensures var front := names[..|names| - 1];
      var last := names[|names| - 1];
      && Entries(machine, ring, sp, atType, g, names) ==
        (var fs := Entries(machine, ring, sp, atType, g, front);
         var e := SupplyEntry(machine, ring, sp, atType, g, last);
         if fs.Failure? then Failure(fs.error) else if e.Failure? then Failure(e.error) else Success(fs.value + [e.value]))
      && EntriesAsWritten(machine, ring, sp, atType, g, names) ==
        (var fs := EntriesAsWritten(machine, ring, sp, atType, g, front);
         var e := SupplyEntryAsWritten(machine, ring, sp, atType, g, last);
         if fs.Failure? then Failure(fs.error) else if e.Failure? then Failure(e.error) else Success(fs.value + [e.value]))
  {
  }

  /** The entries as written are the corrected entries with every record passed through
      `AsWrittenRecord`, and they fail where those fail. */
  lemma {:induction false} EntriesAsWrittenMap(machine: string, ring: Ring, sp: Supplies, atType: string, g: Getter, names: seq<string>)
    ensures var es := Entries(machine, ring, sp, atType, g, names);
      EntriesAsWritten(machine, ring, sp, atType, g, names) ==
        if es.Failure? then Failure(es.error) else Success(MapValues(es.value, AsWritten(machine)))
  {
    if names != [] {
      var front := names[..|names| - 1];
      var last := names[|names| - 1];
      EntriesAsWrittenMap(machine, ring, sp, atType, g, front);
      SupplyEntryAsWrittenMap(machine, ring, sp, atType, g, last);
      EntriesLast(machine, ring, sp, atType, g, names);
      var fs := Entries(machine, ring, sp, atType, g, front);
      var e := SupplyEntry(machine, ring, sp, atType, g, last);
      if fs.Success? && e.Success? {
        MapValuesAppend(fs.value, e.value, AsWritten(machine));
      }
    }
  }

  /** The listing as written is the corrected listing with every sextupole's length
      replaced by the table: the same supplies in the same order, the same `k2`, the
      same exceptions. */
  lemma ListingAsWritten(machine: string, rings: seq<Ring>, nm: NameMap, atType: string, fitIteration: int, methodName: string)
    requires nm.Valid()
    ensures var d := MagnetStrengths(machine, rings, nm, atType, fitIteration, methodName);
      MagnetStrengthsAsWritten(machine, rings, nm, atType, fitIteration, methodName) ==
        if d.Failure? then Failure(d.error) else Success(MapValues(d.value, AsWritten(machine)))
  {
    if InRange(fitIteration, |rings|) && atType in {"QUAD", "SEXT"} && methodName == "byPowerSupply" {
      var ring := rings[Wrap(fitIteration, |rings|)];
      var g := if atType == "QUAD" then K else PolynomB2;
      var names := nm.GetPsNames(atType);
      EntriesAsWrittenMap(machine, ring, SuppliesOf(nm), atType, g, names);
      var es := Entries(machine, ring, SuppliesOf(nm), atType, g, names);
      if es.Success? {
        FromPairsMapValues(es.value, AsWritten(machine));
      }
    }
  }

  lemma EntriesStep(machine: string, ring: Ring, sp: Supplies, atType: string, g: Getter, names: seq<string>, i: nat, es: seq<(string, Magnet)>, e: (string, Magnet))
    requires i < |names|
    requires Entries(machine, ring, sp, atType, g, names[..i]) == Success(es)
    requires SupplyEntry(machine, ring, sp, atType, g, names[i]) == Success(e)
    ensures Entries(machine, ring, sp, atType, g, names[..i + 1]) == Success(es + [e])
  {
    assert names[..i + 1][..i] == names[..i] && names[..i + 1][i] == names[i];
  }

  /** One pass of the supply loop: a failing supply ends the listing with its exception,
      a record extends the entries and is assigned into the dictionary. */
  lemma LoopStep(machine: string, ring: Ring, sp: Supplies, atType: string, g: Getter, names: seq<string>, i: nat, es: seq<(string, Magnet)>, e: Result<(string, Magnet)>)
    requires i < |names|
    requires Entries(machine, ring, sp, atType, g, names[..i]) == Success(es)
    requires e == SupplyEntry(machine, ring, sp, atType, g, names[i])
    ensures e.Failure? ==> Entries(machine, ring, sp, atType, g, names) == Failure(e.error)
    ensures e.Success? ==> Entries(machine, ring, sp, atType, g, names[..i + 1]) == Success(es + [e.value])
    ensures e.Success? ==> FromPairs(es + [e.value]) == Put(FromPairs(es), e.value.0, e.value.1)
  {
    if e.Failure? {
      EntriesStopAt(machine, ring, sp, atType, g, names, i, es);
    } else {
      EntriesStep(machine, ring, sp, atType, g, names, i, es, e.value);
      FromPairsStep(es, e.value);
    }
  }

  /** Past the ring, the getter and the method checks, the listing is the dictionary
      built from the entries. */
  lemma ListingByEntries(machine: string, rings: seq<Ring>, nm: NameMap, atType: string, fitIteration: int, g: Getter)
    requires nm.Valid() && InRange(fitIteration, |rings|)
    requires g == (if atType == "QUAD" then K else PolynomB2) && atType in {"QUAD", "SEXT"}
    ensures var es := Entries(machine, rings[Wrap(fitIteration, |rings|)], SuppliesOf(nm), atType, g, nm.GetPsNames(atType));
      MagnetStrengths(machine, rings, nm, atType, fitIteration, "byPowerSupply") ==
        if es.Failure? then Failure(es.error) else Success(FromPairs(es.value))
  {
  }

  /** The first supply whose entry fails ends the listing with that failure. */
  lemma EntriesStopAt(machine: string, ring: Ring, sp: Supplies, atType: string, g: Getter, names: seq<string>, i: nat, es: seq<(string, Magnet)>)
    requires i < |names|
    requires Entries(machine, ring, sp, atType, g, names[..i]) == Success(es)
    requires SupplyEntry(machine, ring, sp, atType, g, names[i]).Failure?
    ensures Entries(machine, ring, sp, atType, g, names) == Failure(SupplyEntry(machine, ring, sp, atType, g, names[i]).error)
  {
    assert names[..i + 1][..i] == names[..i] && names[..i + 1][i] == names[i];
    EntriesPrefixFails(machine, ring, sp, atType, g, names, i + 1);
  }

  lemma FromPairsStep(es: seq<(string, Magnet)>, e: (string, Magnet))
    ensures FromPairs(es + [e]) == Put(FromPairs(es), e.0, e.1)
  {
    assert (es + [e])[..|es|] == es;
  }

  lemma {:induction false} EntriesPrefixFails(machine: string, ring: Ring, sp: Supplies, atType: string, g: Getter, names: seq<string>, k: nat)
    requires k <= |names|
    requires Entries(machine, ring, sp, atType, g, names[..k]).Failure?
    ensures Entries(machine, ring, sp, atType, g, names) == Entries(machine, ring, sp, atType, g, names[..k])
  {
    if k < |names| {
      var front := names[..|names| - 1];
      assert front[..k] == names[..k];
      EntriesPrefixFails(machine, ring, sp, atType, g, front, k);
    } else {
      assert names[..k] == names;
    }
  }

  /** What a record made from `strength` holds: the rewritten name, a quadrupole or a
      sextupole as the type asks, and `strength` read back from it. */
  predicate Holds(machine: string, name: string, strength: real, atType: string, e: (string, Magnet)) {
    && MachineOf(machine).Some?
    && e.0 == Rename(MachineOf(machine).value, name)
    && (atType == "QUAD" ==> e.1.Quad?)
    && (atType == "SEXT" ==> e.1.Sext?)
    && ReadBack(e.1) == Some(strength)
  }

  lemma MagnetStrengthHolds(machine: string, name: string, strength: real, atType: string)
    requires MagnetStrength(machine, name, strength, atType).Success?
    requires MagnetStrength(machine, name, strength, atType).value.Some?
    ensures Holds(machine, name, strength, atType, MagnetStrength(machine, name, strength, atType).value.value)
  {
    if atType == "QUAD" {
      QuadRecord(machine, name, strength);
      assert MagnetStrength(machine, name, strength, atType) == MagnetStrength(machine, name, strength, "QUAD");
    } else if atType == "SEXT" {
      SextRecord(machine, name, strength);
      assert MagnetStrength(machine, name, strength, atType) == MagnetStrength(machine, name, strength, "SEXT");
    }
  }

  /** The record of supply `name` holds the mean strength of every position on it. */
  ghost predicate IsRecord(machine: string, ring: Ring, sp: Supplies, atType: string, g: Getter, name: string, e: (string, Magnet))
  {
    var mean := Mean(ring, SupplyIndices(sp, name), g);
    mean.Success? && Holds(machine, name, mean.value, atType, e)
  }

  lemma SupplyEntryIsRecord(machine: string, ring: Ring, sp: Supplies, atType: string, g: Getter, name: string)
    requires SupplyEntry(machine, ring, sp, atType, g, name).Success?
    ensures IsRecord(machine, ring, sp, atType, g, name, SupplyEntry(machine, ring, sp, atType, g, name).value)
  {
    var mean := Mean(ring, SupplyIndices(sp, name), g).value;
    MagnetStrengthHolds(machine, name, mean, atType);
  }

  /** Entry `i` is the record of supply `i`, in the order the supplies are listed:
      together with `SupplyEntryIsRecord`, it holds the mean strength of that supply. */
  lemma {:induction false} EntriesAreRecords(machine: string, ring: Ring, sp: Supplies, atType: string, g: Getter, names: seq<string>)
    requires Entries(machine, ring, sp, atType, g, names).Success?
    ensures var es := Entries(machine, ring, sp, atType, g, names).value;
      && |es| == |names|
      && forall i :: 0 <= i < |names| ==> SupplyEntry(machine, ring, sp, atType, g, names[i]) == Success(es[i])
  {
    if names != [] {
      var front := names[..|names| - 1];
      var last := names[|names| - 1];
      EntriesAreRecords(machine, ring, sp, atType, g, front);
      EntriesLast(machine, ring, sp, atType, g, names);
      var es := Entries(machine, ring, sp, atType, g, names).value;
      var frontEs := Entries(machine, ring, sp, atType, g, front).value;
      var entry := SupplyEntry(machine, ring, sp, atType, g, last);
      assert entry.Success? && es == frontEs + [entry.value];
      forall i | 0 <= i < |names|
        ensures SupplyEntry(machine, ring, sp, atType, g, names[i]) == Success(es[i])
      {
        if i < |front| {
          assert names[i] == front[i] && es[i] == frontEs[i];
          assert SupplyEntry(machine, ring, sp, atType, g, front[i]) == Success(frontEs[i]);
        } else {
          assert i == |front| == |frontEs|;
          assert names[i] == last;
          assert es[i] == entry.value;
        }
      }
    }
  }

  /** A supply whose rewritten name repeats an earlier one overwrites its record: each
      name holds the record of the last supply that maps to it. */
  lemma LaterSupplyWins(machine: string, rings: seq<Ring>, nm: NameMap, atType: string, fitIteration: int, k: string)
    requires nm.Valid() && MagnetStrengths(machine, rings, nm, atType, fitIteration, "byPowerSupply").Success?
    ensures var ring := rings[Wrap(fitIteration, |rings|)];
      var g := if atType == "QUAD" then K else PolynomB2;
      var es := Entries(machine, ring, SuppliesOf(nm), atType, g, nm.GetPsNames(atType));
      && es.Success?
      && MagnetStrengths(machine, rings, nm, atType, fitIteration, "byPowerSupply") == Success(FromPairs(es.value))
      && Get(FromPairs(es.value), k) == LastValue(es.value, k)
  {
    var ring := rings[Wrap(fitIteration, |rings|)];
    var g := if atType == "QUAD" then K else PolynomB2;
    FromPairsLastWins(Entries(machine, ring, SuppliesOf(nm), atType, g, nm.GetPsNames(atType)).value, k);
  }

  /** An unknown machine goes unnoticed while no supply has the requested type, and
      fails the listing as soon as one has. */
  lemma {:induction false} UnknownMachineNeedsSupplies(machine: string, ring: Ring, sp: Supplies, atType: string, g: Getter, names: seq<string>)
    requires MachineOf(machine).None?
    ensures Entries(machine, ring, sp, atType, g, names).Success? <==> names == []
  {
    if names != [] {
      UnknownMachineNeedsSupplies(machine, ring, sp, atType, g, names[..|names| - 1]);
    }
  }

  /** A type other than QUAD and SEXT is a `KeyError` from the getter table, and a
      method other than `byPowerSupply` is refused; both before any strength is read. */
  lemma ListingRefusals(machine: string, rings: seq<Ring>, nm: NameMap, atType: string, fitIteration: int, methodName: string)
    requires nm.Valid() && InRange(fitIteration, |rings|)
    ensures atType != "QUAD" && atType != "SEXT" ==>
      MagnetStrengths(machine, rings, nm, atType, fitIteration, methodName) == Failure(KeyError(atType))
    ensures atType in {"QUAD", "SEXT"} && methodName != "byPowerSupply" ==>
      MagnetStrengths(machine, rings, nm, atType, fitIteration, methodName) == Failure(Raised(NotImplemented))
  {
  }

  /** What `ATRingWithAO.__init__` ends in: the filled table, or the exception. */
  function Opened(file: Loco): Result<seq<Slot>> {
    if |file.rings| == 0 then Failure(IndexError)
    else if "Maschine" !in file.ad then Failure(AttributeError("Maschine"))
    else Build(file.ao, file.rings[0])
  }

  /** The loaded file with its name table. */
  class AtRing {
    const maschine: string
    const rings: seq<Ring>
    const nameMap: NameMap

    predicate Valid() {
      nameMap.Valid() && |rings| > 0 && nameMap.n == |rings[0]|
    }

    constructor (maschine: string, rings: seq<Ring>, nameMap: NameMap)
      requires nameMap.Valid() && |rings| > 0 && nameMap.n == |rings[0]|
      ensures Valid() && this.maschine == maschine && this.rings == rings && this.nameMap == nameMap
    {
      this.maschine := maschine;
      this.rings := rings;
      this.nameMap := nameMap;
    }

    /** `ATRingWithAO(filename)` on the loaded file: the first ring sizes the table,
        the machine field must exist, then the table is filled. */
    static method Open(file: Loco) returns (r: Result<AtRing>)
      ensures r.Success? <==> Opened(file).Success?
      ensures r.Failure? ==> r.error == Opened(file).error
      ensures r.Success? ==> r.value.Valid() && fresh(r.value.nameMap)
      ensures r.Success? ==> r.value.maschine == file.ad["Maschine"] && r.value.rings == file.rings
      ensures r.Success? ==> r.value.nameMap.Table() == Opened(file).value
    {
      if |file.rings| == 0 {
        return Failure(IndexError);
      }
      if "Maschine" !in file.ad {
        return Failure(AttributeError("Maschine"));
      }
      var nm := Fill(file.ao, file.rings[0]);
      if nm.Failure? {
        return Failure(nm.error);
      }
      var a := new AtRing(file.ad["Maschine"], file.rings, nm.value);
      return Success(a);
    }

    /** The body of the supply loop of `get_magnet_strength` for one supply. */
    static method ReadSupply(maschine: string, ring: Ring, sp: Supplies, atType: string, g: Getter, name: string) returns (r: Result<(string, Magnet)>)
      ensures r == SupplyEntry(maschine, ring, sp, atType, g, name)
    {
      var mean := AverageStrength(ring, SupplyIndices(sp, name), g);
      if mean.Failure? {
        return Failure(mean.error);
      }
      var e := MagnetStrength(maschine, name, mean.value, atType);
      if e.Failure? {
        return Failure(e.error);
      }
      if e.value.None? {
        return Failure(TypeError);
      }
      return Success(e.value.value);
    }

    /** The supply loop of `get_magnet_strength`: one record per supply, later
        supplies overwriting earlier ones of the same rewritten name. */
    static method ListSupplies(maschine: string, ring: Ring, sp: Supplies, atType: string, g: Getter, names: seq<string>) returns (r: Result<Items<Magnet>>)
      ensures var es := Entries(maschine, ring, sp, atType, g, names);
        r == if es.Failure? then Failure(es.error) else Success(FromPairs(es.value))
    {
      ghost var entries: seq<(string, Magnet)> := [];
      var elements: Items<Magnet> := [];
      var i := 0;
      while i < |names|
        invariant 0 <= i <= |names|
        invariant Entries(maschine, ring, sp, atType, g, names[..i]) == Success(entries)
        invariant elements == FromPairs(entries)
      {
        var e := ReadSupply(maschine, ring, sp, atType, g, names[i]);
        LoopStep(maschine, ring, sp, atType, g, names, i, entries, e);
        if e.Failure? {
          return Failure(e.error);
        }
        var entry := e.value;
        elements := Put(elements, entry.0, entry.1);
        entries := entries + [entry];
        i := i + 1;
      }
      assert names[..i] == names;
      return Success(elements);
    }

    /** `get_magnet_strength`: the records by power supply, in sorted supply order. */
    method GetMagnetStrength(atType: string, fitIteration: int, methodName: string) returns (r: Result<Items<Magnet>>)
      requires Valid()
      ensures r == MagnetStrengths(maschine, rings, nameMap, atType, fitIteration, methodName)
    {
      if !InRange(fitIteration, |rings|) {
        return Failure(IndexError);
      }
      var ring := rings[if fitIteration < 0 then fitIteration + |rings| else fitIteration];
      var g;
      if atType == "QUAD" {
        g := K;
      } else if atType == "SEXT" {
        g := PolynomB2;
      } else {
        return Failure(KeyError(atType));
      }
      if methodName != "byPowerSupply" {
        return Failure(Raised(NotImplemented));
      }
      var names := nameMap.GetPsNames(atType);
      var sp := SuppliesOf(nameMap);
      ListingByEntries(maschine, rings, nameMap, atType, fitIteration, g);
      r := ListSupplies(maschine, ring, sp, atType, g, names);
    }
  }
}
