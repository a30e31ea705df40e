/** The `NameMap` table of `mmltools.py` and the way `ATRingWithAO.__init__` fills it:
    six parallel arrays over the N ring positions (AT index, AO index, AT type, AT
    family name, AO common name, power-supply name), written family by family from
    the 1-based `ATIndex` matrices of the `ao` structure, then given the ring's
    family names, then checked for dipoles on unknown supplies. Both copies of the
    script fill the table the same way. */
module NameMaps {
  import opened Outcomes
  import opened PyStr
  import opened NumPy
  import opened LocoFile

  /** A NumPy `U40` array keeps at most the first 40 characters of a string stored in it. */
  function Fit(s: string): (r: string)
    ensures r <= s && |r| <= 40
    ensures |s| <= 40 ==> r == s
  {
    Head(s, 40)
  }

  /** Families the fill loop skips. */
  const Skipped: set<string> := {"TUNE", "DCCT"}

  /** The supplies a `BEND` element may be powered by. */
  const BendSupplies: set<string> := {"PB1ID6R", "PB2ID6R", "PB3ID6R", "BPR", "BPRP"}

  const BrokenFile: string := "ERROR : BROKEN FILE!!! Probable cause: init and AT file incompatible!!!"

  /** One row of the table: the six arrays at one position. */
  datatype Slot = Slot(atIndex: int, aoIndex: int, atType: string, atName: string, aoName: string, psName: string)

  /** What `NameMap(N)` puts everywhere: index 0 and empty strings. */
  const Blank: Slot := Slot(0, 0, "", "", "", "")

  function Blanks(n: nat): (t: seq<Slot>)
    ensures |t| == n && forall i :: 0 <= i < n ==> t[i] == Blank
  {
    seq(n, _ => Blank)
  }

  /** The common names a family's rows read; the `RF` family repeats each one once per row. */
  function AoNames(f: Family): seq<string> {
    if f.name == "RF" then Repeat(f.commonNames, f.atIndex.rows) else f.commonNames
  }

  /** The channel names a family's rows read, repeated like `AoNames` for `RF`. */
  function PsNames(f: Family): seq<string> {
    if f.name == "RF" then Repeat(f.channelNames, f.atIndex.rows) else f.channelNames
  }

  /** One pass of the fill loop's body: position `j` (the matrix entry minus one, so a
      Python index) receives row `row` of a family of type `atType` whose name lists
      are `aoNames` and `psNames`. */
  datatype Write = Write(j: int, row: nat, atType: string, aoNames: seq<string>, psNames: seq<string>)

  /** The write raises no `IndexError` on a table of `n` positions. */
  predicate Ok(w: Write, n: nat) {
    InRange(w.j, n) && w.row < |w.aoNames| && w.row < |w.psNames|
  }

  predicate AllOk(ws: seq<Write>, n: nat) {
    forall i :: 0 <= i < |ws| ==> Ok(ws[i], n)
  }

  /** The inner loop over the rows of one column of the index matrix. */
  function ColumnWrites(col: seq<int>, atType: string, aoNames: seq<string>, psNames: seq<string>): (ws: seq<Write>)
    ensures |ws| == |col|
    ensures forall r :: 0 <= r < |col| ==> ws[r] == Write(col[r] - 1, r, atType, aoNames, psNames)
  {
    seq(|col|, r requires 0 <= r < |col| => Write(col[r] - 1, r, atType, aoNames, psNames))
  }

  /** The outer loop over the columns of the index matrix. */
  function MatrixWrites(cols: seq<seq<int>>, atType: string, aoNames: seq<string>, psNames: seq<string>): seq<Write> {
    if cols == [] then []
    else MatrixWrites(cols[..|cols| - 1], atType, aoNames, psNames) + ColumnWrites(cols[|cols| - 1], atType, aoNames, psNames)
  }

  /** The writes of one family, none for a skipped one. */
  function FamilyWrites(f: Family): seq<Write> {
    if f.name in Skipped then [] else MatrixWrites(f.atIndex.columns, f.atType, AoNames(f), PsNames(f))
  }

  /** Every write of the fill loop, in loop order: family, then column, then row. */
  function Writes(ao: seq<Family>): seq<Write> {
    if ao == [] then [] else Writes(ao[..|ao| - 1]) + FamilyWrites(ao[|ao| - 1])
  }

  /** A slot after a write: five columns are set, the AT name is left alone. */
  function Written(s: Slot, w: Write): Slot
    requires w.row < |w.aoNames| && w.row < |w.psNames|
  {
    Slot(w.j, w.row, Fit(w.atType), s.atName, Fit(w.aoNames[w.row]), Fit(BeforeColon(w.psNames[w.row])))
  }

  /** The table after the writes, each landing where Python's indexing puts it. */
  function Apply(t: seq<Slot>, ws: seq<Write>): (r: seq<Slot>)
    requires AllOk(ws, |t|)
    ensures |r| == |t|
  {
    if ws == [] then t
    else
      var w := ws[|ws| - 1];
      var front := Apply(t, ws[..|ws| - 1]);
      var p := Wrap(w.j, |t|);
      front[p := Written(front[p], w)]
  }

  /** The loop over the ring storing each element's family name. */
  function Named(t: seq<Slot>, ring: Ring): (r: seq<Slot>)
    requires |t| == |ring|
    ensures |r| == |t| && forall i :: 0 <= i < |t| ==> r[i] == t[i].(atName := Fit(ring[i].famName))
  {
    seq(|t|, i requires 0 <= i < |t| => t[i].(atName := Fit(ring[i].famName)))
  }

  /** The consistency check: every `BEND` position is on an allowed supply. */
  predicate BendOk(t: seq<Slot>) {
    forall i :: 0 <= i < |t| && t[i].atName == "BEND" ==> t[i].psName in BendSupplies
  }

  /** The table `ATRingWithAO.__init__` builds for ring `ring`, or the exception it raises. */
  function Build(ao: seq<Family>, ring: Ring): (r: Result<seq<Slot>>)
    ensures r.Success? ==> |r.value| == |ring| && BendOk(r.value)
    ensures r.Success? ==> forall i :: 0 <= i < |ring| ==> r.value[i].atName == Fit(ring[i].famName)
    ensures r.Failure? ==> r.error in {IndexError, Raised(BrokenFile)}
  {
    var ws := Writes(ao);
    if !AllOk(ws, |ring|) then Failure(IndexError)
    else
      var t := Named(Apply(Blanks(|ring|), ws), ring);
      if BendOk(t) then Success(t) else Failure(Raised(BrokenFile))
  }

  /** The position in `ws` of the last write landing on position `p`. */
  function LastTo(ws: seq<Write>, p: nat, n: nat): (r: Option<nat>)
    requires AllOk(ws, n)
    ensures r.Some? ==> r.value < |ws| && Wrap(ws[r.value].j, n) == p
    ensures r.Some? ==> forall i :: r.value < i < |ws| ==> Wrap(ws[i].j, n) != p
    ensures r.None? ==> forall i :: 0 <= i < |ws| ==> Wrap(ws[i].j, n) != p
  {
    if ws == [] then None
    else if Wrap(ws[|ws| - 1].j, n) == p then Some(|ws| - 1)
    else LastTo(ws[..|ws| - 1], p, n)
  }

  /** The last write to a position decides it; a position nothing writes keeps its slot. */
  lemma {:induction false} ApplyAt(t: seq<Slot>, ws: seq<Write>, p: nat)
    requires AllOk(ws, |t|) && p < |t|
    ensures LastTo(ws, p, |t|).None? ==> Apply(t, ws)[p] == t[p]
    ensures LastTo(ws, p, |t|).Some? ==> Apply(t, ws)[p] == Written(t[p], ws[LastTo(ws, p, |t|).value])
  {
    if ws != [] {
      ApplyAt(t, ws[..|ws| - 1], p);
    }
  }

  lemma {:induction false} ApplyConcat(t: seq<Slot>, a: seq<Write>, b: seq<Write>)
    requires AllOk(a + b, |t|)
    ensures AllOk(a, |t|) && AllOk(b, |Apply(t, a)|)
    ensures Apply(t, a + b) == Apply(Apply(t, a), b)
  {
    assert forall i :: 0 <= i < |a| ==> (a + b)[i] == a[i];
    assert forall i :: 0 <= i < |b| ==> (a + b)[|a| + i] == b[i];
    if b != [] {
      var front := b[..|b| - 1];
      assert (a + b)[..|a + b| - 1] == a + front;
      ApplyConcat(t, a, front);
    } else {
      assert a + b == a;
    }
  }

  /** A table built from the file: a position the fill loop writes holds its last write
      (the AT index is the position itself when the matrix entry is 1..N, and wraps
      to position N-1 for an entry of 0); a position nothing writes keeps index 0 and
      empty names. Every position has its ring element's family name. */
  lemma {:induction false} BuildSlot(ao: seq<Family>, ring: Ring, p: nat)
    requires Build(ao, ring).Success? && p < |ring|
    ensures AllOk(Writes(ao), |ring|)
    ensures var t := Build(ao, ring).value;
      match LastTo(Writes(ao), p, |ring|)
      case None => t[p] == Blank.(atName := Fit(ring[p].famName))
      case Some(i) =>
        var w := Writes(ao)[i];
        && t[p] == Slot(w.j, w.row, Fit(w.atType), Fit(ring[p].famName), Fit(w.aoNames[w.row]), Fit(BeforeColon(w.psNames[w.row])))
        && (w.j >= 0 ==> t[p].atIndex == p)
        && (w.j < 0 ==> t[p].atIndex == p - |ring|)
  {
    ApplyAt(Blanks(|ring|), Writes(ao), p);
  }

  /** A `BEND` element that no family writes keeps an empty supply name, so the check fails. */
  lemma {:induction false} UnwrittenBendFails(ao: seq<Family>, ring: Ring, p: nat)
    requires AllOk(Writes(ao), |ring|) && p < |ring|
    requires ring[p].famName == "BEND" && LastTo(Writes(ao), p, |ring|).None?
    ensures Build(ao, ring) == Failure(Raised(BrokenFile))
  {
    ApplyAt(Blanks(|ring|), Writes(ao), p);
    assert "" !in BendSupplies;
    var t := Named(Apply(Blanks(|ring|), Writes(ao)), ring);
    assert t[p].atName == "BEND" && t[p].psName == "";
  }

  /** The families other than `TUNE` and `DCCT`. */
  function Kept(ao: seq<Family>): (r: seq<Family>)
    ensures forall f :: f in r <==> f in ao && f.name !in Skipped
  {
    if ao == [] then []
    else Kept(ao[..|ao| - 1]) + if ao[|ao| - 1].name in Skipped then [] else [ao[|ao| - 1]]
  }

  /** `TUNE` and `DCCT` write nothing: the table is the one built without them. */
  lemma {:induction false} SkippedWriteNothing(ao: seq<Family>)
    ensures Writes(ao) == Writes(Kept(ao))
  {
    if ao != [] {
      var front := ao[..|ao| - 1];
      var f := ao[|ao| - 1];
      SkippedWriteNothing(front);
      if f.name in Skipped {
        assert Kept(ao) == Kept(front);
      } else {
        assert Kept(ao)[..|Kept(ao)| - 1] == Kept(front);
      }
    }
  }

  lemma {:induction false} SkippedFamiliesIgnored(ao: seq<Family>, ring: Ring)
    ensures Build(ao, ring) == Build(Kept(ao), ring)
  {
    SkippedWriteNothing(ao);
  }

  lemma {:induction false} MatrixWritesShape(cols: seq<seq<int>>, atType: string, aoNames: seq<string>, psNames: seq<string>, rows: nat)
    requires forall c :: 0 <= c < |cols| ==> |cols[c]| == rows
    ensures forall w :: w in MatrixWrites(cols, atType, aoNames, psNames) ==>
      w.row < rows && w.atType == atType && w.aoNames == aoNames && w.psNames == psNames
  {
    if cols != [] {
      MatrixWritesShape(cols[..|cols| - 1], atType, aoNames, psNames, rows);
    }
  }

  /** The inner loop over one more row applies that row's write. */
  lemma {:induction false} ColumnExtend(t: seq<Slot>, col: seq<int>, r: nat, atType: string, aoNames: seq<string>, psNames: seq<string>)
    requires r < |col|
    requires AllOk(ColumnWrites(col[..r], atType, aoNames, psNames), |t|)
    requires Ok(Write(col[r] - 1, r, atType, aoNames, psNames), |t|)
    ensures AllOk(ColumnWrites(col[..r + 1], atType, aoNames, psNames), |t|)
    ensures var before := Apply(t, ColumnWrites(col[..r], atType, aoNames, psNames));
      var w := Write(col[r] - 1, r, atType, aoNames, psNames);
      var p := Wrap(w.j, |t|);
      Apply(t, ColumnWrites(col[..r + 1], atType, aoNames, psNames)) == before[p := Written(before[p], w)]
  {
    var done := ColumnWrites(col[..r + 1], atType, aoNames, psNames);
    assert done[..r] == ColumnWrites(col[..r], atType, aoNames, psNames);
    assert done[r] == Write(col[r] - 1, r, atType, aoNames, psNames);
  }

  /** Two runs of writes that each raise nothing make one that raises nothing. */
  lemma AllOkConcat(a: seq<Write>, b: seq<Write>, n: nat)
    requires AllOk(a, n) && AllOk(b, n)
    ensures AllOk(a + b, n)
  {
    forall k | 0 <= k < |a + b|
      ensures Ok((a + b)[k], n)
    {
      if k < |a| {
        assert (a + b)[k] == a[k];
      } else {
        assert (a + b)[k] == b[k - |a|];
      }
    }
  }

  /** The outer loop over one more column applies that column's writes. */
  lemma {:induction false} MatrixExtend(t: seq<Slot>, cols: seq<seq<int>>, c: nat, atType: string, aoNames: seq<string>, psNames: seq<string>)
    requires c < |cols|
    requires AllOk(MatrixWrites(cols[..c], atType, aoNames, psNames), |t|)
    requires AllOk(ColumnWrites(cols[c], atType, aoNames, psNames), |t|)
    ensures AllOk(MatrixWrites(cols[..c + 1], atType, aoNames, psNames), |t|)
    ensures Apply(t, MatrixWrites(cols[..c + 1], atType, aoNames, psNames)) ==
      Apply(Apply(t, MatrixWrites(cols[..c], atType, aoNames, psNames)), ColumnWrites(cols[c], atType, aoNames, psNames))
  {
    var before := MatrixWrites(cols[..c], atType, aoNames, psNames);
    var column := ColumnWrites(cols[c], atType, aoNames, psNames);
    assert cols[..c + 1][..c] == cols[..c];
    assert MatrixWrites(cols[..c + 1], atType, aoNames, psNames) == before + column;
    AllOkConcat(before, column, |t|);
    ApplyConcat(t, before, column);
  }

  /** The loop over one more family applies that family's writes. */
  lemma {:induction false} WritesExtend(t: seq<Slot>, ao: seq<Family>, i: nat)
    requires i < |ao|
    requires AllOk(Writes(ao[..i]), |t|) && AllOk(FamilyWrites(ao[i]), |t|)
    ensures AllOk(Writes(ao[..i + 1]), |t|)
    ensures Apply(t, Writes(ao[..i + 1])) == Apply(Apply(t, Writes(ao[..i])), FamilyWrites(ao[i]))
  {
    var before := Writes(ao[..i]);
    var family := FamilyWrites(ao[i]);
    assert ao[..i + 1][..i] == ao[..i];
    assert Writes(ao[..i + 1]) == before + family;
    AllOkConcat(before, family, |t|);
    ApplyConcat(t, before, family);
  }

  lemma {:induction false} MatrixHas(cols: seq<seq<int>>, atType: string, aoNames: seq<string>, psNames: seq<string>, c: nat, r: nat)
    requires c < |cols| && r < |cols[c]|
    ensures Write(cols[c][r] - 1, r, atType, aoNames, psNames) in MatrixWrites(cols, atType, aoNames, psNames)
  {
    var w := Write(cols[c][r] - 1, r, atType, aoNames, psNames);
    if c == |cols| - 1 {
      assert ColumnWrites(cols[c], atType, aoNames, psNames)[r] == w;
    } else {
      MatrixHas(cols[..|cols| - 1], atType, aoNames, psNames, c, r);
    }
  }

  lemma {:induction false} WritesHas(ao: seq<Family>, i: nat, w: Write)
    requires i < |ao| && w in FamilyWrites(ao[i])
    ensures w in Writes(ao)
  {
    if i < |ao| - 1 {
      WritesHas(ao[..|ao| - 1], i, w);
    }
  }

  /** Each `RF` element, whatever its row, gets the family's first common and channel
      name: the names are repeated once per row before the rows index them. */
  lemma {:induction false} RfWritesFirstNames(f: Family, w: Write)
    requires f.name == "RF" && w in FamilyWrites(f) && w.row < |w.aoNames| && w.row < |w.psNames|
    ensures f.commonNames != [] && w.aoNames[w.row] == f.commonNames[0]
    ensures f.channelNames != [] && w.psNames[w.row] == f.channelNames[0]
  {
    var m := f.atIndex;
    MatrixWritesShape(m.columns, f.atType, AoNames(f), PsNames(f), m.rows);
    RepeatAt(f.commonNames, m.rows, 0, w.row);
    RepeatAt(f.channelNames, m.rows, 0, w.row);
  }

  /** The table as the program holds it: six arrays of length `n`. */
  class NameMap {
    const n: nat
    const atIndices: array<int>
    const aoIndices: array<int>
    const atTypes: array<string>
    const atNames: array<string>
    const aoNames: array<string>
    const psNames: array<string>

    predicate Valid() {
      && atIndices.Length == n && aoIndices.Length == n && atTypes.Length == n
      && atNames.Length == n && aoNames.Length == n && psNames.Length == n
      && atIndices != aoIndices
      && atTypes != atNames && atTypes != aoNames && atTypes != psNames
      && atNames != aoNames && atNames != psNames && aoNames != psNames
    }

    /** The table's contents, one slot per position. */
    function Table(): (t: seq<Slot>)
      requires Valid()
      reads atIndices, aoIndices, atTypes, atNames, aoNames, psNames
      ensures |t| == n
      ensures forall i :: 0 <= i < n ==>
        t[i] == Slot(atIndices[i], aoIndices[i], atTypes[i], atNames[i], aoNames[i], psNames[i])
    {
      seq(n, i requires 0 <= i < n reads atIndices, aoIndices, atTypes, atNames, aoNames, psNames =>
        Slot(atIndices[i], aoIndices[i], atTypes[i], atNames[i], aoNames[i], psNames[i]))
    }

    /** `NameMap(N)`: zero indices and empty names. */
    constructor (N: nat)
      ensures Valid() && n == N && Table() == Blanks(N)
      ensures fresh(atIndices) && fresh(aoIndices) && fresh(atTypes)
      ensures fresh(atNames) && fresh(aoNames) && fresh(psNames)
    {
      n := N;
      atIndices := new int[N](_ => 0);
      aoIndices := new int[N](_ => 0);
      atTypes := new string[N](_ => "");
      atNames := new string[N](_ => "");
      aoNames := new string[N](_ => "");
      psNames := new string[N](_ => "");
    }

    /** `get_at_indices_by_ao_names`: the AT indices beside AO name `name`. */
    function GetAtIndicesByAoNames(name: string): (r: seq<int>)
      requires Valid()
      reads atIndices, aoNames
      ensures forall x :: x in r <==> exists p :: 0 <= p < n && aoNames[p] == name && atIndices[p] == x
    {
      MaskedMembers(atIndices[..], aoNames[..], name);
      Masked(atIndices[..], aoNames[..], name)
    }

    /** `get_at_indices_by_ps_names`: the AT indices beside supply name `name`. */
    function GetAtIndicesByPsNames(name: string): (r: seq<int>)
      requires Valid()
      reads atIndices, psNames
      ensures forall x :: x in r <==> exists p :: 0 <= p < n && psNames[p] == name && atIndices[p] == x
    {
      MaskedMembers(atIndices[..], psNames[..], name);
      Masked(atIndices[..], psNames[..], name)
    }

    /** `get_at_indices_by_at_names`: the AT indices beside family name `name`. */
    function GetAtIndicesByAtNames(name: string): (r: seq<int>)
      requires Valid()
      reads atIndices, atNames
      ensures forall x :: x in r <==> exists p :: 0 <= p < n && atNames[p] == name && atIndices[p] == x
    {
      MaskedMembers(atIndices[..], atNames[..], name);
      Masked(atIndices[..], atNames[..], name)
    }

    /** `get_ps_names`: the distinct supply names of the positions of type `atType`, sorted. */
    function GetPsNames(atType: string): (r: seq<string>)
      requires Valid()
      reads psNames, atTypes
      ensures StrictlySorted(r)
      ensures forall y :: y in r <==> exists p :: 0 <= p < n && atTypes[p] == atType && psNames[p] == y
    {
      MaskedMembers(psNames[..], atTypes[..], atType);
      Unique(Masked(psNames[..], atTypes[..], atType))
    }

    /** `get_ao_names`: the distinct AO names of the positions of type `atType`, sorted. */
    function GetAoNames(atType: string): (r: seq<string>)
      requires Valid()
      reads aoNames, atTypes
      ensures StrictlySorted(r)
      ensures forall y :: y in r <==> exists p :: 0 <= p < n && atTypes[p] == atType && aoNames[p] == y
    {
      MaskedMembers(aoNames[..], atTypes[..], atType);
      Unique(Masked(aoNames[..], atTypes[..], atType))
    }

    /** `get_at_names`: the distinct family names of the positions of type `atType`, sorted. */
    function GetAtNames(atType: string): (r: seq<string>)
      requires Valid()
      reads atNames, atTypes
      ensures StrictlySorted(r)
      ensures forall y :: y in r <==> exists p :: 0 <= p < n && atTypes[p] == atType && atNames[p] == y
    {
      MaskedMembers(atNames[..], atTypes[..], atType);
      Unique(Masked(atNames[..], atTypes[..], atType))
    }

    /** The body of the fill loop: five arrays receive one write at `j`. */
    method Store(w: Write)
      requires Valid() && Ok(w, n)
      modifies atIndices, aoIndices, atTypes, aoNames, psNames
      ensures Valid()
      ensures var p := Wrap(w.j, n); Table() == old(Table())[p := Written(old(Table())[p], w)]
    {
      var p := if w.j < 0 then w.j + n else w.j;
      atIndices[p] := w.j;
      aoIndices[p] := w.row;
      atTypes[p] := Fit(w.atType);
      aoNames[p] := Fit(w.aoNames[w.row]);
      psNames[p] := Fit(BeforeColon(w.psNames[w.row]));
    }

    /** The inner fill loop over the rows of one column: `false` at the first write
        that raises. */
    method StoreColumn(col: seq<int>, atType: string, aos: seq<string>, pss: seq<string>) returns (ok: bool)
      requires Valid()
      modifies atIndices, aoIndices, atTypes, aoNames, psNames
      ensures Valid()
      ensures ok <==> AllOk(ColumnWrites(col, atType, aos, pss), n)
      ensures ok ==> Table() == Apply(old(Table()), ColumnWrites(col, atType, aos, pss))
    {
      ghost var t0 := Table();
      var r := 0;
      while r < |col|
        invariant 0 <= r <= |col| && Valid()
        invariant AllOk(ColumnWrites(col[..r], atType, aos, pss), n)
        invariant Table() == Apply(t0, ColumnWrites(col[..r], atType, aos, pss))
      {
        var w := Write(col[r] - 1, r, atType, aos, pss);
        if !Ok(w, n) {
          assert ColumnWrites(col, atType, aos, pss)[r] == w;
          return false;
        }
        Store(w);
        ColumnExtend(t0, col, r, atType, aos, pss);
        r := r + 1;
      }
      assert col[..r] == col;
      return true;
    }

    /** The fill loop over one family: `false` at the first write that raises. */
    method StoreFamily(f: Family) returns (ok: bool)
      requires Valid()
      modifies atIndices, aoIndices, atTypes, aoNames, psNames
      ensures Valid()
      ensures ok <==> AllOk(FamilyWrites(f), n)
      ensures ok ==> Table() == Apply(old(Table()), FamilyWrites(f))
    {
      if f.name in Skipped {
        return true;
      }
      var aos, pss := AoNames(f), PsNames(f);
      var cols := f.atIndex.columns;
      ghost var t0 := Table();
      var c := 0;
      while c < |cols|
        invariant 0 <= c <= |cols| && Valid()
        invariant AllOk(MatrixWrites(cols[..c], f.atType, aos, pss), n)
        invariant Table() == Apply(t0, MatrixWrites(cols[..c], f.atType, aos, pss))
      {
        ghost var column := ColumnWrites(cols[c], f.atType, aos, pss);
        ok := StoreColumn(cols[c], f.atType, aos, pss);
        if !ok {
          ghost var r :| 0 <= r < |cols[c]| && !Ok(column[r], n);
          MatrixHas(cols, f.atType, aos, pss, c, r);
          return false;
        }
        MatrixExtend(t0, cols, c, f.atType, aos, pss);
        c := c + 1;
      }
      assert cols[..c] == cols;
      return true;
    }

    /** The fill loop over every family: `false` at the first write that raises. */
    method StoreAll(ao: seq<Family>) returns (ok: bool)
      requires Valid()
      modifies atIndices, aoIndices, atTypes, aoNames, psNames
      ensures Valid()
      ensures ok <==> AllOk(Writes(ao), n)
      ensures ok ==> Table() == Apply(old(Table()), Writes(ao))
    {
      ghost var t0 := Table();
      var i := 0;
      while i < |ao|
        invariant 0 <= i <= |ao| && Valid()
        invariant AllOk(Writes(ao[..i]), n)
        invariant Table() == Apply(t0, Writes(ao[..i]))
      {
        ghost var family := FamilyWrites(ao[i]);
        ok := StoreFamily(ao[i]);
        if !ok {
          ghost var k :| 0 <= k < |family| && !Ok(family[k], n);
          WritesHas(ao, i, family[k]);
          return false;
        }
        WritesExtend(t0, ao, i);
        i := i + 1;
      }
      assert ao[..i] == ao;
      return true;
    }

    /** The loop over the ring storing each element's family name. */
    method StoreNames(ring: Ring)
      requires Valid() && |ring| == n
      modifies atNames
      ensures Valid() && Table() == Named(old(Table()), ring)
    {
      var i := 0;
      while i < n
        invariant 0 <= i <= n && Valid()
        invariant forall q :: 0 <= q < i ==> atNames[q] == Fit(ring[q].famName)
        invariant forall q :: i <= q < n ==> atNames[q] == old(atNames[q])
      {
        atNames[i] := Fit(ring[i].famName);
        i := i + 1;
      }
    }

    /** The consistency loop over the `at_names` and `ps_names` columns. */
    method CheckBends() returns (ok: bool)
      requires Valid()
      ensures ok == BendOk(Table())
    {
      var q := 0;
      while q < n
        invariant 0 <= q <= n
        invariant forall p :: 0 <= p < q && atNames[p] == "BEND" ==> psNames[p] in BendSupplies
      {
        if atNames[q] == "BEND" && psNames[q] !in BendSupplies {
          assert Table()[q].atName == "BEND";
          return false;
        }
        q := q + 1;
      }
      return true;
    }
  }

  /** With every matrix entry in 1..N, the AT indices listed for a non-empty supply name
      are exactly the positions carrying that name, in ascending order. */
  lemma {:induction false} IndicesByPsNameAscending(nm: NameMap, ao: seq<Family>, ring: Ring, name: string)
    requires nm.Valid() && Build(ao, ring) == Success(nm.Table())
    requires forall i :: 0 <= i < |Writes(ao)| ==> Writes(ao)[i].j >= 0
    requires name != ""
    ensures var r := nm.GetAtIndicesByPsNames(name);
      && (forall i, k :: 0 <= i < k < |r| ==> r[i] < r[k])
      && (forall p :: 0 <= p < nm.n ==> (nm.psNames[p] == name <==> p in r))
  {
    forall p | 0 <= p < nm.n && nm.psNames[p] == name
      ensures nm.atIndices[p] == p
    {
      BuildSlot(ao, ring, p);
    }
    MaskedSelfIndexed(nm.atIndices[..], nm.psNames[..], name);
  }

  /** Every supply `get_ps_names` lists stands at some position, so `at_indices[0]`
      cannot raise in `get_magnet_strength`. */
  lemma SupplyGroupNonEmpty(nm: NameMap, atType: string, name: string)
    requires nm.Valid() && name in nm.GetPsNames(atType)
    ensures nm.GetAtIndicesByPsNames(name) != []
  {
    var p :| 0 <= p < nm.n && nm.atTypes[p] == atType && nm.psNames[p] == name;
    assert nm.atIndices[p] in nm.GetAtIndicesByPsNames(name);
  }

  /** `ATRingWithAO.__init__` from the name table on: the fill loop, the family names
      and the `BEND` check, on a table sized to the ring. */
  method Fill(ao: seq<Family>, ring: Ring) returns (r: Result<NameMap>)
    ensures r.Success? <==> Build(ao, ring).Success?
    ensures r.Failure? ==> r.error == Build(ao, ring).error
    ensures r.Success? ==> fresh(r.value) && r.value.Valid() && r.value.n == |ring|
    ensures r.Success? ==> r.value.Table() == Build(ao, ring).value
  {
    var nm := new NameMap(|ring|);
    var ok := nm.StoreAll(ao);
    if !ok {
      return Failure(IndexError);
    }
    nm.StoreNames(ring);
    ok := nm.CheckBends();
    if !ok {
      return Failure(Raised(BrokenFile));
    }
    return Success(nm);
  }
}
