/** `bessy2tools/extract_quad_values/mmltools.py`: the BESSY II copy of `ATRingWithAO`.
    It reads the machine from `ad.Machine` only when listing, records every magnet as
    `{"type", "length", "strength"}`, and can hand out a ring snapshot. */
module Bessy2Tools {
  import opened Outcomes
  import opened PyStr
  import opened NumPy
  import opened Dicts
  import opened LocoFile
  import opened NameMaps
  import opened Strengths
  import opened Machines
  import ExtractTools

  /** One magnet record: the AT type, the length in metres and the strength (for a
      sextupole, twice the strength per metre). */
  datatype Record = Record(atType: string, length: real, strength: real)

  const UnknownMachine: string := "Unkown Machine."
  const TypeNotImplemented: string := "at_type not implemented."
  const NotImplemented: string := "Method not implemented."

  /** The quadrupole table as written: the BESSY II `QI` entry is keyed `PQIT6R`. */
  function QuadLengthsAsWritten(m: Machine): (d: Items<real>)
    ensures KeysDistinct(d) && Positive(d)
  {
    match m
    case BessyII => [("Q1", 0.25), ("Q2", 0.20), ("Q3", 0.25), ("Q4", 0.50), ("Q5", 0.20), ("PQIT6R", 0.122)]
    case Mls => QuadLengths(Mls)
  }

  /** `_get_magnet_strength` over a given quadrupole table: a type other than QUAD and
      SEXT never binds `length`. */
  function Resolve(quads: Machine -> Items<real>, machine: string, name: string, strength: real, atType: string): (r: Result<(string, Record)>)
    ensures MachineOf(machine).None? ==> r == Failure(Raised(UnknownMachine))
    ensures MachineOf(machine).Some? && atType != "QUAD" && atType != "SEXT" ==> r == Failure(UnboundLocalError("length"))
    ensures r.Success? ==> r.value.0 == Rename(MachineOf(machine).value, name) && r.value.1.atType == atType
  {
    match MachineOf(machine)
    case None => Failure(Raised(UnknownMachine))
    case Some(m) =>
      var n := Rename(m, name);
      if atType == "SEXT" then
        var l :- Lookup(SextLengths(m), Head(n, 2));
        LookupPositive(SextLengths(m), Head(n, 2));
        Success((n, Record(atType, l, strength / l * 2.0)))
      else if atType == "QUAD" then
        var l :- Lookup(quads(m), Head(n, 2));
        Success((n, Record(atType, l, strength)))
      else Failure(UnboundLocalError("length"))
  }

  /** `_get_magnet_strength` as written. */
  function MagnetStrengthAsWritten(machine: string, name: string, strength: real, atType: string): Result<(string, Record)> {
    Resolve(QuadLengthsAsWritten, machine, name, strength, atType)
  }

  /** `_get_magnet_strength` with the `QI` quadrupoles found under `QI`. */
  function MagnetStrength(machine: string, name: string, strength: real, atType: string): Result<(string, Record)> {
    Resolve(QuadLengths, machine, name, strength, atType)
  }

  /** The strength a record stands for: a quadrupole's as it is; a sextupole's times its
      length, halved. */
  function ReadBack(e: Record): real {
    if e.atType == "SEXT" then e.strength * e.length / 2.0 else e.strength
  }

  lemma ReadBackSext(strength: real, l: real)
    requires l > 0.0
    ensures ReadBack(Record("SEXT", l, strength / l * 2.0)) == strength
  {
    var k := strength / l;
    assert k * l == strength;
    var k2 := k * 2.0;
    assert k2 * l == (k * l) * 2.0;
    assert k2 * l / 2.0 == strength;
  }

  /** Every record found carries the length of its table entry, and reading it back gives
      the strength it was made from. */
  lemma {:induction false} MagnetStrengthReadsBack(machine: string, name: string, strength: real, atType: string)
    requires MagnetStrength(machine, name, strength, atType).Success?
    ensures var m := MachineOf(machine).value;
      var n := Rename(m, name);
      var e := MagnetStrength(machine, name, strength, atType).value.1;
      && ReadBack(e) == strength
      && Lookup(if atType == "QUAD" then QuadLengths(m) else SextLengths(m), Head(n, 2)) == Success(e.length)
  {
    var m := MachineOf(machine).value;
    var n := Rename(m, name);
    if atType == "SEXT" {
      var l := Lookup(SextLengths(m), Head(n, 2)).value;
      LookupPositive(SextLengths(m), Head(n, 2));
      ReadBackSext(strength, l);
    }
  }

  /** As written, every BESSY II quadrupole whose rewritten name starts with `QI` fails:
      the table has no `QI` key, while the corrected table gives it 0.122 m. */
  lemma QiQuadrupolesAsWritten(name: string, strength: real)
    requires Head(Rename(BessyII, name), 2) == "QI"
    ensures MagnetStrengthAsWritten("BESSYII", name, strength, "QUAD") == Failure(KeyError("QI"))
    ensures MagnetStrength("BESSYII", name, strength, "QUAD") ==
      Success((Rename(BessyII, name), Record("QUAD", 0.122, strength)))
  {
    var keys := KeysOf(QuadLengthsAsWritten(BessyII));
    assert keys == ["Q1", "Q2", "Q3", "Q4", "Q5", "PQIT6R"];
    assert "QI" !in keys;
    var good := KeysOf(QuadLengths(BessyII));
    assert good == ["Q1", "Q2", "Q3", "Q4", "Q5", "QI"];
    FindFirst(good, "QI", 5);
  }

  /** The supply named in the file, `PQIT6R`, is one of them. */
  lemma PqitSupplyAsWritten(strength: real)
    ensures MagnetStrengthAsWritten("BESSYII", "PQIT6R", strength, "QUAD") == Failure(KeyError("QI"))
    ensures MagnetStrength("BESSYII", "PQIT6R", strength, "QUAD") == Success(("QIT6", Record("QUAD", 0.122, strength)))
  {
    RenamePQabcR("PQIT6R", 'I', 'T', '6');
    assert Rename(BessyII, "PQIT6R") == "QIT6";
    assert Head("QIT6", 2) == "QI";
    QiQuadrupolesAsWritten("PQIT6R", strength);
  }

  /** Every key but `QI` and `PQIT6R` finds the same length in both quadrupole tables. */
  lemma QuadTablesAgree(k: string)
    requires k != "QI" && k != "PQIT6R"
    ensures Get(QuadLengthsAsWritten(BessyII), k) == Get(QuadLengths(BessyII), k)
  {
    var a := QuadLengthsAsWritten(BessyII);
    var b := QuadLengths(BessyII);
    assert KeysOf(a) == ["Q1", "Q2", "Q3", "Q4", "Q5", "PQIT6R"];
    assert KeysOf(b) == ["Q1", "Q2", "Q3", "Q4", "Q5", "QI"];
    match Find(KeysOf(a), k)
    case Some(i) =>
      FindFirst(KeysOf(b), k, i);
    case None =>
      assert k !in KeysOf(b);
  }

  /** For every input, the code as written and the corrected code give the same record or
      the same exception, except for a BESSY II quadrupole whose rewritten name starts with
      `QI`: that one fails as written with `KeyError('QI')`. */
  lemma AsWrittenDiffersOnlyAtQi(machine: string, name: string, strength: real, atType: string)
    ensures MagnetStrengthAsWritten(machine, name, strength, atType) ==
      if machine == "BESSYII" && atType == "QUAD" && Head(Rename(BessyII, name), 2) == "QI"
      then Failure(KeyError("QI"))
      else MagnetStrength(machine, name, strength, atType)
  {
    if machine == "BESSYII" && atType == "QUAD" {
      var k := Head(Rename(BessyII, name), 2);
      if k == "QI" {
        QiQuadrupolesAsWritten(name, strength);
      } else {
        assert |k| <= 2;
        QuadTablesAgree(k);
      }
    }
  }

  /** `r[i]` with `i` a NumPy float: the name table as written holds its AT indices in a
      float array, and NumPy refuses a float as an index. */
  function FloatIndexRead(ring: Ring, i: real, g: Getter): Result<real> {
    Failure(IndexError)
  }

  /** One pass of the supply loop: the mean strength on supply `name`, turned into its
      record. */
  function SupplyEntry(machine: string, ring: Ring, sp: ExtractTools.Supplies, atType: string, g: Getter, name: string): Result<(string, Record)> {
    var mean :- Mean(ring, ExtractTools.SupplyIndices(sp, name), g);
    MagnetStrength(machine, name, mean, atType)
  }

  /** The same pass as written: `get_strength(at_indices[0])` indexes the ring with a float. */
  function SupplyEntryAsWritten(machine: string, ring: Ring, sp: ExtractTools.Supplies, atType: string, g: Getter, name: string): Result<(string, Record)> {
    var idxs := ExtractTools.SupplyIndices(sp, name);
    if idxs == [] then Failure(IndexError)
    else match FloatIndexRead(ring, idxs[0] as real, g)
      case Failure(e) => Failure(e)
      case Success(_) => SupplyEntry(machine, ring, sp, atType, g, name)
  }

  /** The records of the supplies in turn, or the first exception. */
  function Entries(machine: string, ring: Ring, sp: ExtractTools.Supplies, atType: string, g: Getter, names: seq<string>): Result<seq<(string, Record)>> {
    if names == [] then Success([])
    else
      var front :- Entries(machine, ring, sp, atType, g, names[..|names| - 1]);
      var entry :- SupplyEntry(machine, ring, sp, atType, g, names[|names| - 1]);
      Success(front + [entry])
  }

  function EntriesAsWritten(machine: string, ring: Ring, sp: ExtractTools.Supplies, atType: string, g: Getter, names: seq<string>): Result<seq<(string, Record)>> {
    if names == [] then Success([])
    else
      var front :- EntriesAsWritten(machine, ring, sp, atType, g, names[..|names| - 1]);
      var entry :- SupplyEntryAsWritten(machine, ring, sp, atType, g, names[|names| - 1]);
      Success(front + [entry])
  }

  /** What `get_magnet_strength` does before the supply loop: the machine field, the ring
      snapshot, the strength getter and the method, in that order. */
  function Prelude(ad: map<string, string>, rings: seq<Ring>, atType: string, fitIteration: int, methodName: string): (r: Result<(string, Ring, Getter)>)
    ensures r.Success? <==> "Machine" in ad && InRange(fitIteration, |rings|) && atType in {"QUAD", "SEXT"} && methodName == "byPowerSupply"
    ensures r.Success? ==> r.value.0 == ad["Machine"] && r.value.1 == rings[Wrap(fitIteration, |rings|)]
  {
    if "Machine" !in ad then Failure(AttributeError("Machine"))
    else
      var ring :- At(rings, fitIteration);
      if atType == "QUAD" || atType == "SEXT" then
        if methodName == "byPowerSupply" then Success((ad["Machine"], ring, if atType == "QUAD" then K else PolynomB2))
        else Failure(Raised(NotImplemented))
      else Failure(Raised(TypeNotImplemented))
  }

  /** `get_magnet_strength(at_type, fit_iteration, method)` with integer AT indices. */
  function MagnetStrengths(ad: map<string, string>, rings: seq<Ring>, nm: NameMap, atType: string, fitIteration: int, methodName: string): Result<Items<Record>>
    requires nm.Valid()
    reads nm.atIndices, nm.atTypes, nm.psNames
  {
    var (machine, ring, g) :- Prelude(ad, rings, atType, fitIteration, methodName);
    var es :- Entries(machine, ring, ExtractTools.SuppliesOf(nm), atType, g, nm.GetPsNames(atType));
    Success(FromPairs(es))
  }

  /** `get_magnet_strength` as written, with float AT indices. */
  function MagnetStrengthsAsWritten(ad: map<string, string>, rings: seq<Ring>, nm: NameMap, atType: string, fitIteration: int, methodName: string): Result<Items<Record>>
    requires nm.Valid()
    reads nm.atIndices, nm.atTypes, nm.psNames
  {
    var (machine, ring, g) :- Prelude(ad, rings, atType, fitIteration, methodName);
    var es :- EntriesAsWritten(machine, ring, ExtractTools.SuppliesOf(nm), atType, g, nm.GetPsNames(atType));
    Success(FromPairs(es))
  }

  /** As written, the listing reaches no strength at all: the first supply raises. */
  lemma {:induction false} EntriesAsWrittenFail(machine: string, ring: Ring, sp: ExtractTools.Supplies, atType: string, g: Getter, names: seq<string>)
    ensures EntriesAsWritten(machine, ring, sp, atType, g, names) == if names == [] then Success([]) else Failure(IndexError)
  {
    if names != [] {
      EntriesAsWrittenFail(machine, ring, sp, atType, g, names[..|names| - 1]);
    }
  }

  /** As written, a listing with any supply of the type fails with `IndexError`, while the
      corrected listing goes on to the strengths; with no supply both give `{}`. */
  lemma ListingAsWritten(ad: map<string, string>, rings: seq<Ring>, nm: NameMap, atType: string, fitIteration: int, methodName: string)
    requires nm.Valid() && Prelude(ad, rings, atType, fitIteration, methodName).Success?
    ensures nm.GetPsNames(atType) != [] ==> MagnetStrengthsAsWritten(ad, rings, nm, atType, fitIteration, methodName) == Failure(IndexError)
    ensures nm.GetPsNames(atType) == [] ==>
      MagnetStrengthsAsWritten(ad, rings, nm, atType, fitIteration, methodName) == Success([]) &&
      MagnetStrengths(ad, rings, nm, atType, fitIteration, methodName) == Success([])
  {
    var (machine, ring, g) := Prelude(ad, rings, atType, fitIteration, methodName).value;
    EntriesAsWrittenFail(machine, ring, ExtractTools.SuppliesOf(nm), atType, g, nm.GetPsNames(atType));
  }

  lemma EntriesStep(machine: string, ring: Ring, sp: ExtractTools.Supplies, atType: string, g: Getter, names: seq<string>, i: nat, es: seq<(string, Record)>, e: (string, Record))
    requires i < |names|
    requires Entries(machine, ring, sp, atType, g, names[..i]) == Success(es)
    requires SupplyEntry(machine, ring, sp, atType, g, names[i]) == Success(e)
    ensures Entries(machine, ring, sp, atType, g, names[..i + 1]) == Success(es + [e])
  {
    assert names[..i + 1][..i] == names[..i] && names[..i + 1][i] == names[i];
  }

  lemma {:induction false} EntriesPrefixFails(machine: string, ring: Ring, sp: ExtractTools.Supplies, atType: string, g: Getter, names: seq<string>, k: nat)
    requires k <= |names|
    requires Entries(machine, ring, sp, atType, g, names[..k]).Failure?
    ensures Entries(machine, ring, sp, atType, g, names) == Entries(machine, ring, sp, atType, g, names[..k])
  {
    if k < |names| {
      var front := names[..|names| - 1];
      assert front[..k] == names[..k];
      EntriesPrefixFails(machine, ring, sp, atType, g, front, k);
    } else {
      assert names[..k] == names;
    }
  }

  lemma EntriesStopAt(machine: string, ring: Ring, sp: ExtractTools.Supplies, atType: string, g: Getter, names: seq<string>, i: nat, es: seq<(string, Record)>)
    requires i < |names|
    requires Entries(machine, ring, sp, atType, g, names[..i]) == Success(es)
    requires SupplyEntry(machine, ring, sp, atType, g, names[i]).Failure?
    ensures Entries(machine, ring, sp, atType, g, names) == Failure(SupplyEntry(machine, ring, sp, atType, g, names[i]).error)
  {
    assert names[..i + 1][..i] == names[..i] && names[..i + 1][i] == names[i];
    EntriesPrefixFails(machine, ring, sp, atType, g, names, i + 1);
  }

  lemma FromPairsStep(es: seq<(string, Record)>, e: (string, Record))
    ensures FromPairs(es + [e]) == Put(FromPairs(es), e.0, e.1)
  {
    assert (es + [e])[..|es|] == es;
  }

  /** Entry `i` is the record of supply `i`: its rewritten name, and the mean strength
      on it read back from the record. */
  lemma {:induction false} EntriesAreMeans(machine: string, ring: Ring, sp: ExtractTools.Supplies, atType: string, g: Getter, names: seq<string>)
    requires Entries(machine, ring, sp, atType, g, names).Success?
    ensures var es := Entries(machine, ring, sp, atType, g, names).value;
      && |es| == |names|
      && forall i :: 0 <= i < |names| ==> SupplyEntry(machine, ring, sp, atType, g, names[i]) == Success(es[i])
  {
    if names != [] {
      var front := names[..|names| - 1];
      var last := names[|names| - 1];
      EntriesAreMeans(machine, ring, sp, atType, g, front);
      var es := Entries(machine, ring, sp, atType, g, names).value;
      var frontEs := Entries(machine, ring, sp, atType, g, front).value;
      var entry := SupplyEntry(machine, ring, sp, atType, g, last);
      assert entry.Success? && es == frontEs + [entry.value];
      forall i | 0 <= i < |names|
        ensures SupplyEntry(machine, ring, sp, atType, g, names[i]) == Success(es[i])
      {
        if i < |front| {
          assert names[i] == front[i] && es[i] == frontEs[i];
          assert SupplyEntry(machine, ring, sp, atType, g, front[i]) == Success(frontEs[i]);
        } else {
          assert i == |front| == |frontEs|;
          assert names[i] == last;
          assert es[i] == entry.value;
        }
      }
    }
  }

  /** A supply's record holds its rewritten name and, read back, the mean strength of the
      positions on it. */
  lemma SupplyEntryReadsBack(machine: string, ring: Ring, sp: ExtractTools.Supplies, atType: string, g: Getter, name: string)
    requires SupplyEntry(machine, ring, sp, atType, g, name).Success?
    ensures var mean := Mean(ring, ExtractTools.SupplyIndices(sp, name), g);
      var e := SupplyEntry(machine, ring, sp, atType, g, name).value;
      && mean.Success?
      && e.0 == Rename(MachineOf(machine).value, name)
      && e.1.atType == atType
      && ReadBack(e.1) == mean.value
  {
    var mean := Mean(ring, ExtractTools.SupplyIndices(sp, name), g).value;
    MagnetStrengthReadsBack(machine, name, mean, atType);
  }

  /** The body of the supply loop for one supply. */
  method ReadSupply(machine: string, ring: Ring, sp: ExtractTools.Supplies, atType: string, g: Getter, name: string) returns (r: Result<(string, Record)>)
    ensures r == SupplyEntry(machine, ring, sp, atType, g, name)
  {
    var mean := AverageStrength(ring, ExtractTools.SupplyIndices(sp, name), g);
    if mean.Failure? {
      return Failure(mean.error);
    }
    r := MagnetStrength(machine, name, mean.value, atType);
  }

  /** The records of the supplies in turn, folded into the dictionary. */
  method ListSupplies(machine: string, ring: Ring, sp: ExtractTools.Supplies, atType: string, g: Getter, names: seq<string>) returns (r: Result<Items<Record>>)
    ensures var es := Entries(machine, ring, sp, atType, g, names);
      r == if es.Failure? then Failure(es.error) else Success(FromPairs(es.value))
  {
    ghost var entries: seq<(string, Record)> := [];
    var elements: Items<Record> := [];
    var i := 0;
    while i < |names|
      invariant 0 <= i <= |names|
      invariant Entries(machine, ring, sp, atType, g, names[..i]) == Success(entries)
      invariant elements == FromPairs(entries)
    {
      var e := ReadSupply(machine, ring, sp, atType, g, names[i]);
      if e.Failure? {
        EntriesStopAt(machine, ring, sp, atType, g, names, i, entries);
        return Failure(e.error);
      }
      var entry := e.value;
      EntriesStep(machine, ring, sp, atType, g, names, i, entries, entry);
      FromPairsStep(entries, entry);
      elements := Put(elements, entry.0, entry.1);
      entries := entries + [entry];
      i := i + 1;
    }
    assert names[..i] == names;
    return Success(elements);
  }

  /** What `ATRingWithAO.__init__` ends in here: the machine field is not read. */
  function Opened(file: Loco): Result<seq<Slot>> {
    if |file.rings| == 0 then Failure(IndexError) else Build(file.ao, file.rings[0])
  }

  /** The loaded file with its name table. */
  class AtRing {
    const ad: map<string, string>
    const rings: seq<Ring>
    const nameMap: NameMap

    predicate Valid() {
      nameMap.Valid() && |rings| > 0 && nameMap.n == |rings[0]|
    }

    constructor (ad: map<string, string>, rings: seq<Ring>, nameMap: NameMap)
      requires nameMap.Valid() && |rings| > 0 && nameMap.n == |rings[0]|
      ensures Valid() && this.ad == ad && this.rings == rings && this.nameMap == nameMap
    {
      this.ad := ad;
      this.rings := rings;
      this.nameMap := nameMap;
    }

    /** `ATRingWithAO(filename)` on the loaded file. */
    static method Open(file: Loco) returns (r: Result<AtRing>)
      ensures r.Success? <==> Opened(file).Success?
      ensures r.Failure? ==> r.error == Opened(file).error
      ensures r.Success? ==> r.value.Valid() && fresh(r.value.nameMap)
      ensures r.Success? ==> r.value.ad == file.ad && r.value.rings == file.rings
      ensures r.Success? ==> r.value.nameMap.Table() == Opened(file).value
    {
      if |file.rings| == 0 {
        return Failure(IndexError);
      }
      var nm := Fill(file.ao, file.rings[0]);
      if nm.Failure? {
        return Failure(nm.error);
      }
      var a := new AtRing(file.ad, file.rings, nm.value);
      return Success(a);
    }

    /** `get_ring(fit_iteration)`: the snapshot of that fit iteration, counted from the
        end when negative. */
    method GetRing(fitIteration: int) returns (r: Result<Ring>)
      ensures r.Success? <==> -|rings| <= fitIteration < |rings|
      ensures r.Success? ==> r.value == rings[if fitIteration < 0 then |rings| + fitIteration else fitIteration]
    {
      if fitIteration < -|rings| || fitIteration >= |rings| {
        return Failure(IndexError);
      }
      return Success(rings[if fitIteration < 0 then |rings| + fitIteration else fitIteration]);
    }

    /** `get_magnet_strength`, with integer AT indices. */
    method GetMagnetStrength(atType: string, fitIteration: int, methodName: string) returns (r: Result<Items<Record>>)
      requires Valid()
      ensures r == MagnetStrengths(ad, rings, nameMap, atType, fitIteration, methodName)
    {
      if "Machine" !in ad {
        return Failure(AttributeError("Machine"));
      }
      if !InRange(fitIteration, |rings|) {
        return Failure(IndexError);
      }
      var ring := rings[if fitIteration < 0 then fitIteration + |rings| else fitIteration];
      var g;
      if atType == "QUAD" {
        g := K;
      } else if atType == "SEXT" {
        g := PolynomB2;
      } else {
        return Failure(Raised(TypeNotImplemented));
      }
      if methodName != "byPowerSupply" {
        return Failure(Raised(NotImplemented));
      }
      var names := nameMap.GetPsNames(atType);
      var sp := ExtractTools.SuppliesOf(nameMap);
      r := ListSupplies(ad["Machine"], ring, sp, atType, g, names);
    }
  }
}
