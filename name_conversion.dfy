/** The quadrupole name table of the setpoint-conversion tool: the EPICS power-supply
    names of the 52 BESSY II quadrupole circuits, their short lattice names in the same
    order, and the two dictionaries that zip the lists together. The short name of a
    circuit is what the BESSY II rewrite of the magnet-strength extraction makes of its
    supply name. */
module NameConversion {
  import opened Outcomes
  import opened PyStr
  import opened Dicts
  import opened Machines

  // `quadlist_epics`, in the rows of eight in which it is written
  const EpicsRow1: seq<string> := ["PQIT6R", "Q1PDR", "Q2PDR", "Q3P1T1R", "Q3P1T6R", "Q3P1T8R", "Q3P2T1R", "Q3P2T6R"]
  const EpicsRow2: seq<string> := ["Q3P2T8R", "Q3PD1R", "Q3PD2R", "Q3PD3R", "Q3PD4R", "Q3PD5R", "Q3PD6R", "Q3PD7R"]
  const EpicsRow3: seq<string> := ["Q3PD8R", "Q3PT2R", "Q3PT3R", "Q3PT4R", "Q3PT5R", "Q3PT7R", "Q4P1T1R", "Q4P1T6R"]
  const EpicsRow4: seq<string> := ["Q4P1T8R", "Q4P2T1R", "Q4P2T6R", "Q4P2T8R", "Q4PD1R", "Q4PD2R", "Q4PD3R", "Q4PD4R"]
  const EpicsRow5: seq<string> := ["Q4PD5R", "Q4PD6R", "Q4PD7R", "Q4PD8R", "Q4PT2R", "Q4PT3R", "Q4PT4R", "Q4PT5R"]
  const EpicsRow6: seq<string> := ["Q4PT7R", "Q5P1T1R", "Q5P1T6R", "Q5P1T8R", "Q5P2T1R", "Q5P2T6R", "Q5P2T8R", "Q5PT2R"]
  const EpicsRow7: seq<string> := ["Q5PT3R", "Q5PT4R", "Q5PT5R", "Q5PT7R"]

  const QuadlistEpics: seq<string> := EpicsRow1 + EpicsRow2 + EpicsRow3 + EpicsRow4 + EpicsRow5 + EpicsRow6 + EpicsRow7

  // `quadlist_short`, grouped in the same rows of eight so that row k of both lists pairs up
  const ShortRow1: seq<string> := ["QIT6", "Q1D", "Q2D", "Q3P1T1", "Q3P1T6", "Q3P1T8", "Q3P2T1", "Q3P2T6"]
  const ShortRow2: seq<string> := ["Q3P2T8", "Q3D1", "Q3D2", "Q3D3", "Q3D4", "Q3D5", "Q3D6", "Q3D7"]
  const ShortRow3: seq<string> := ["Q3D8", "Q3T2", "Q3T3", "Q3T4", "Q3T5", "Q3T7", "Q4P1T1", "Q4P1T6"]
  const ShortRow4: seq<string> := ["Q4P1T8", "Q4P2T1", "Q4P2T6", "Q4P2T8", "Q4D1", "Q4D2", "Q4D3", "Q4D4"]
  const ShortRow5: seq<string> := ["Q4D5", "Q4D6", "Q4D7", "Q4D8", "Q4T2", "Q4T3", "Q4T4", "Q4T5"]
  const ShortRow6: seq<string> := ["Q4T7", "Q5P1T1", "Q5P1T6", "Q5P1T8", "Q5P2T1", "Q5P2T6", "Q5P2T8", "Q5T2"]
  const ShortRow7: seq<string> := ["Q5T3", "Q5T4", "Q5T5", "Q5T7"]

  const QuadlistShort: seq<string> := ShortRow1 + ShortRow2 + ShortRow3 + ShortRow4 + ShortRow5 + ShortRow6 + ShortRow7

  /** Python's `zip(a, b)`: the pairs of equal positions, up to the shorter list. */
  function Zip(a: seq<string>, b: seq<string>): (r: seq<(string, string)>)
    ensures |r| == if |a| < |b| then |a| else |b|
    ensures forall i :: 0 <= i < |r| ==> r[i] == (a[i], b[i])
  {
    seq(if |a| < |b| then |a| else |b|, i requires 0 <= i < |a| && i < |b| => (a[i], b[i]))
  }

  /** `short2epics`: the comprehension over `zip(quadlist_short, quadlist_epics)` keyed by the short name. */
  function Short2Epics(): Items<string> {
    FromPairs(Zip(QuadlistShort, QuadlistEpics))
  }

  /** `epics2short`: the pairs of the same zip keyed by the EPICS name. */
  function Epics2Short(): Items<string> {
    FromPairs(Zip(QuadlistEpics, QuadlistShort))
  }

  predicate Distinct(s: seq<string>) {
    forall i, j :: 0 <= i < j < |s| ==> s[i] != s[j]
  }

  /** Every name of `es` becomes the name at the same position of `ss` under the BESSY II rewrite. */
  predicate RenamesTo(es: seq<string>, ss: seq<string>) {
    |es| == |ss| && forall i :: 0 <= i < |es| ==> BessyRename(es[i]) == ss[i]
  }

  // Distinctness of the literal list, checked against all earlier names four names at a time.

  lemma ShortFresh1()
    ensures forall i, j :: 0 <= i < j && 0 <= j < 4 ==> QuadlistShort[i] != QuadlistShort[j]
  {
  }

  lemma ShortFresh2()
    ensures forall i, j :: 0 <= i < j && 4 <= j < 8 ==> QuadlistShort[i] != QuadlistShort[j]
  {
  }

  lemma ShortFresh3()
    ensures forall i, j :: 0 <= i < j && 8 <= j < 12 ==> QuadlistShort[i] != QuadlistShort[j]
  {
  }

  lemma ShortFresh4()
    ensures forall i, j :: 0 <= i < j && 12 <= j < 16 ==> QuadlistShort[i] != QuadlistShort[j]
  {
  }

  lemma ShortFresh5()
    ensures forall i, j :: 0 <= i < j && 16 <= j < 20 ==> QuadlistShort[i] != QuadlistShort[j]
  {
  }

  lemma ShortFresh6()
    ensures forall i, j :: 0 <= i < j && 20 <= j < 24 ==> QuadlistShort[i] != QuadlistShort[j]
  {
  }

  lemma ShortFresh7()
    ensures forall i, j :: 0 <= i < j && 24 <= j < 28 ==> QuadlistShort[i] != QuadlistShort[j]
  {
  }

  lemma ShortFresh8()
    ensures forall i, j :: 0 <= i < j && 28 <= j < 32 ==> QuadlistShort[i] != QuadlistShort[j]
  {
  }

  lemma ShortFresh9()
    ensures forall i, j :: 0 <= i < j && 32 <= j < 34 ==> QuadlistShort[i] != QuadlistShort[j]
  {
  }

  lemma ShortFresh10()
    ensures forall i, j :: 0 <= i < j && 34 <= j < 36 ==> QuadlistShort[i] != QuadlistShort[j]
  {
  }

  lemma ShortFresh11()
    ensures forall i, j :: 0 <= i < j && 36 <= j < 38 ==> QuadlistShort[i] != QuadlistShort[j]
  {
  }

  lemma ShortFresh12()
    ensures forall i, j :: 0 <= i < j && 38 <= j < 40 ==> QuadlistShort[i] != QuadlistShort[j]
  {
  }

  lemma ShortFresh13()
    ensures forall i, j :: 0 <= i < j && 40 <= j < 42 ==> QuadlistShort[i] != QuadlistShort[j]
  {
  }

  lemma ShortFresh14()
    ensures forall i, j :: 0 <= i < j && 42 <= j < 44 ==> QuadlistShort[i] != QuadlistShort[j]
  {
  }

  lemma ShortFresh15()
    ensures forall i, j :: 0 <= i < j && 44 <= j < 46 ==> QuadlistShort[i] != QuadlistShort[j]
  {
  }

  lemma ShortFresh16()
    ensures forall i, j :: 0 <= i < j && 46 <= j < 48 ==> QuadlistShort[i] != QuadlistShort[j]
  {
  }

  lemma ShortFresh17()
    ensures forall i, j :: 0 <= i < j && 48 <= j < 50 ==> QuadlistShort[i] != QuadlistShort[j]
  {
  }

  lemma ShortFresh18()
    ensures forall i, j :: 0 <= i < j && 50 <= j < 52 ==> QuadlistShort[i] != QuadlistShort[j]
  {
  }

  /** `quadlist_short` has no repeated name. */
  lemma ShortDistinct()
    ensures Distinct(QuadlistShort)
  {
    ShortFresh1();
    ShortFresh2();
    ShortFresh3();
    ShortFresh4();
    ShortFresh5();
    ShortFresh6();
    ShortFresh7();
    ShortFresh8();
    ShortFresh9();
    ShortFresh10();
    ShortFresh11();
    ShortFresh12();
    ShortFresh13();
    ShortFresh14();
    ShortFresh15();
    ShortFresh16();
    ShortFresh17();
    ShortFresh18();
  }


  lemma RenameRow1()
    ensures forall i :: 0 <= i < |EpicsRow1| ==> BessyRename(EpicsRow1[i]) == ShortRow1[i]
  {
    forall i | 0 <= i < |EpicsRow1| ensures BessyRename(EpicsRow1[i]) == ShortRow1[i] {
      if i == 0 {
        RenamePQabcR(EpicsRow1[i], 'I', 'T', '6');
      } else if i == 1 {
        RenameQnPDR(EpicsRow1[i], '1');
      } else if i == 2 {
        RenameQnPDR(EpicsRow1[i], '2');
      } else if i == 3 {
        RenameQnPmTkR(EpicsRow1[i], '3', '1', '1');
      } else if i == 4 {
        RenameQnPmTkR(EpicsRow1[i], '3', '1', '6');
      } else if i == 5 {
        RenameQnPmTkR(EpicsRow1[i], '3', '1', '8');
      } else if i == 6 {
        RenameQnPmTkR(EpicsRow1[i], '3', '2', '1');
      } else {
        RenameQnPmTkR(EpicsRow1[i], '3', '2', '6');
      }
    }
  }



  lemma RenameRow2()
    ensures forall i :: 0 <= i < |EpicsRow2| ==> BessyRename(EpicsRow2[i]) == ShortRow2[i]
  {
    forall i | 0 <= i < |EpicsRow2| ensures BessyRename(EpicsRow2[i]) == ShortRow2[i] {
      if i == 0 {
        RenameQnPmTkR(EpicsRow2[i], '3', '2', '8');
      } else if i == 1 {
        RenameQnPDkR(EpicsRow2[i], '3', '1');
      } else if i == 2 {
        RenameQnPDkR(EpicsRow2[i], '3', '2');
      } else if i == 3 {
        RenameQnPDkR(EpicsRow2[i], '3', '3');
      } else if i == 4 {
        RenameQnPDkR(EpicsRow2[i], '3', '4');
      } else if i == 5 {
        RenameQnPDkR(EpicsRow2[i], '3', '5');
      } else if i == 6 {
        RenameQnPDkR(EpicsRow2[i], '3', '6');
      } else {
        RenameQnPDkR(EpicsRow2[i], '3', '7');
      }
    }
  }



  lemma RenameRow3()
    ensures forall i :: 0 <= i < |EpicsRow3| ==> BessyRename(EpicsRow3[i]) == ShortRow3[i]
  {
    forall i | 0 <= i < |EpicsRow3| ensures BessyRename(EpicsRow3[i]) == ShortRow3[i] {
      if i == 0 {
        RenameQnPDkR(EpicsRow3[i], '3', '8');
      } else if i == 1 {
        RenameQnPTkR(EpicsRow3[i], '3', '2');
      } else if i == 2 {
        RenameQnPTkR(EpicsRow3[i], '3', '3');
      } else if i == 3 {
        RenameQnPTkR(EpicsRow3[i], '3', '4');
      } else if i == 4 {
        RenameQnPTkR(EpicsRow3[i], '3', '5');
      } else if i == 5 {
        RenameQnPTkR(EpicsRow3[i], '3', '7');
      } else if i == 6 {
        RenameQnPmTkR(EpicsRow3[i], '4', '1', '1');
      } else {
        RenameQnPmTkR(EpicsRow3[i], '4', '1', '6');
      }
    }
  }



  lemma RenameRow4()
    ensures forall i :: 0 <= i < |EpicsRow4| ==> BessyRename(EpicsRow4[i]) == ShortRow4[i]
  {
    forall i | 0 <= i < |EpicsRow4| ensures BessyRename(EpicsRow4[i]) == ShortRow4[i] {
      if i == 0 {
        RenameQnPmTkR(EpicsRow4[i], '4', '1', '8');
      } else if i == 1 {
        RenameQnPmTkR(EpicsRow4[i], '4', '2', '1');
      } else if i == 2 {
        RenameQnPmTkR(EpicsRow4[i], '4', '2', '6');
      } else if i == 3 {
        RenameQnPmTkR(EpicsRow4[i], '4', '2', '8');
      } else if i == 4 {
        RenameQnPDkR(EpicsRow4[i], '4', '1');
      } else if i == 5 {
        RenameQnPDkR(EpicsRow4[i], '4', '2');
      } else if i == 6 {
        RenameQnPDkR(EpicsRow4[i], '4', '3');
      } else {
        RenameQnPDkR(EpicsRow4[i], '4', '4');
      }
    }
  }



  lemma RenameRow5()
    ensures forall i :: 0 <= i < |EpicsRow5| ==> BessyRename(EpicsRow5[i]) == ShortRow5[i]
  {
    forall i | 0 <= i < |EpicsRow5| ensures BessyRename(EpicsRow5[i]) == ShortRow5[i] {
      if i == 0 {
        RenameQnPDkR(EpicsRow5[i], '4', '5');
      } else if i == 1 {
        RenameQnPDkR(EpicsRow5[i], '4', '6');
      } else if i == 2 {
        RenameQnPDkR(EpicsRow5[i], '4', '7');
      } else if i == 3 {
        RenameQnPDkR(EpicsRow5[i], '4', '8');
      } else if i == 4 {
        RenameQnPTkR(EpicsRow5[i], '4', '2');
      } else if i == 5 {
        RenameQnPTkR(EpicsRow5[i], '4', '3');
      } else if i == 6 {
        RenameQnPTkR(EpicsRow5[i], '4', '4');
      } else {
        RenameQnPTkR(EpicsRow5[i], '4', '5');
      }
    }
  }



  lemma RenameRow6()
    ensures forall i :: 0 <= i < |EpicsRow6| ==> BessyRename(EpicsRow6[i]) == ShortRow6[i]
  {
    forall i | 0 <= i < |EpicsRow6| ensures BessyRename(EpicsRow6[i]) == ShortRow6[i] {
      if i == 0 {
        RenameQnPTkR(EpicsRow6[i], '4', '7');
      } else if i == 1 {
        RenameQnPmTkR(EpicsRow6[i], '5', '1', '1');
      } else if i == 2 {
        RenameQnPmTkR(EpicsRow6[i], '5', '1', '6');
      } else if i == 3 {
        RenameQnPmTkR(EpicsRow6[i], '5', '1', '8');
      } else if i == 4 {
        RenameQnPmTkR(EpicsRow6[i], '5', '2', '1');
      } else if i == 5 {
        RenameQnPmTkR(EpicsRow6[i], '5', '2', '6');
      } else if i == 6 {
        RenameQnPmTkR(EpicsRow6[i], '5', '2', '8');
      } else {
        RenameQnPTkR(EpicsRow6[i], '5', '2');
      }
    }
  }



  lemma RenameRow7()
    ensures forall i :: 0 <= i < |EpicsRow7| ==> BessyRename(EpicsRow7[i]) == ShortRow7[i]
  {
    forall i | 0 <= i < |EpicsRow7| ensures BessyRename(EpicsRow7[i]) == ShortRow7[i] {
      if i == 0 {
        RenameQnPTkR(EpicsRow7[i], '5', '3');
      } else if i == 1 {
        RenameQnPTkR(EpicsRow7[i], '5', '4');
      } else if i == 2 {
        RenameQnPTkR(EpicsRow7[i], '5', '5');
      } else {
        RenameQnPTkR(EpicsRow7[i], '5', '7');
      }
    }
  }

  /** The BESSY II rewrite of the magnet-strength extraction turns every EPICS name of
      the list into the short name at the same position. */
  lemma RenameChain()
    ensures RenamesTo(QuadlistEpics, QuadlistShort)
  {
    RenameRow1();
    RenameRow2();
    RenameRow3();
    RenameRow4();
    RenameRow5();
    RenameRow6();
    RenameRow7();
    forall i | 0 <= i < |QuadlistEpics|
      ensures BessyRename(QuadlistEpics[i]) == QuadlistShort[i]
    {
      if i < 8 {
        assert QuadlistEpics[i] == EpicsRow1[i] && QuadlistShort[i] == ShortRow1[i];
      } else if i < 16 {
        assert QuadlistEpics[i] == EpicsRow2[i - 8] && QuadlistShort[i] == ShortRow2[i - 8];
      } else if i < 24 {
        assert QuadlistEpics[i] == EpicsRow3[i - 16] && QuadlistShort[i] == ShortRow3[i - 16];
      } else if i < 32 {
        assert QuadlistEpics[i] == EpicsRow4[i - 24] && QuadlistShort[i] == ShortRow4[i - 24];
      } else if i < 40 {
        assert QuadlistEpics[i] == EpicsRow5[i - 32] && QuadlistShort[i] == ShortRow5[i - 32];
      } else if i < 48 {
        assert QuadlistEpics[i] == EpicsRow6[i - 40] && QuadlistShort[i] == ShortRow6[i - 40];
      } else {
        assert QuadlistEpics[i] == EpicsRow7[i - 48] && QuadlistShort[i] == ShortRow7[i - 48];
      }
    }
  }

  /** Distinct EPICS names: two equal ones would rewrite to equal short names. */
  lemma EpicsDistinct()
    ensures Distinct(QuadlistEpics)
  {
    ShortDistinct();
    RenameChain();
    forall i, j | 0 <= i < j < |QuadlistEpics|
      ensures QuadlistEpics[i] != QuadlistEpics[j]
    {
      assert BessyRename(QuadlistEpics[i]) == QuadlistShort[i] != QuadlistShort[j] == BessyRename(QuadlistEpics[j]);
    }
  }

  /** A comprehension over `zip(ks, vs)` with distinct keys keeps every pair, in order:
      `ks[i]` maps to `vs[i]` and any other key is missing. */
  lemma ZipTable(ks: seq<string>, vs: seq<string>)
    requires |ks| == |vs| && Distinct(ks)
    ensures KeysOf(FromPairs(Zip(ks, vs))) == ks
    ensures forall i :: 0 <= i < |ks| ==> Lookup(FromPairs(Zip(ks, vs)), ks[i]) == Success(vs[i])
    ensures forall k :: k !in ks ==> Lookup(FromPairs(Zip(ks, vs)), k) == Failure(KeyError(k))
  {
    var z := Zip(ks, vs);
    FromPairsDistinct(z);
    assert KeysOf(z) == ks;
    forall i | 0 <= i < |ks|
      ensures Lookup(z, ks[i]) == Success(vs[i])
    {
      FindFirst(ks, ks[i], i);
    }
  }

  /** Both lists have 52 names, so `zip` pairs them all; `short2epics` has the short names
      as keys, in list order, each mapped to the EPICS name at its position. */
  lemma Short2EpicsTable()
    ensures |QuadlistShort| == |QuadlistEpics| == 52
    ensures KeysOf(Short2Epics()) == QuadlistShort
    ensures forall i :: 0 <= i < 52 ==> Lookup(Short2Epics(), QuadlistShort[i]) == Success(QuadlistEpics[i])
    ensures forall s :: s !in QuadlistShort ==> Lookup(Short2Epics(), s) == Failure(KeyError(s))
  {
    ShortDistinct();
    ZipTable(QuadlistShort, QuadlistEpics);
  }

  /** `epics2short` has the EPICS names as keys, in list order, each mapped to the short
      name at its position. */
  lemma Epics2ShortTable()
    ensures KeysOf(Epics2Short()) == QuadlistEpics
    ensures forall i :: 0 <= i < 52 ==> Lookup(Epics2Short(), QuadlistEpics[i]) == Success(QuadlistShort[i])
    ensures forall e :: e !in QuadlistEpics ==> Lookup(Epics2Short(), e) == Failure(KeyError(e))
  {
    EpicsDistinct();
    ZipTable(QuadlistEpics, QuadlistShort);
  }

  /** The dictionaries over `zip(ks, vs)` and `zip(vs, ks)` undo each other when both
      lists are free of repeats. */
  lemma ZipInverse(ks: seq<string>, vs: seq<string>)
    requires |ks| == |vs| && Distinct(ks) && Distinct(vs)
    ensures forall k :: k in ks ==>
      Lookup(FromPairs(Zip(ks, vs)), k).Success? &&
      Lookup(FromPairs(Zip(vs, ks)), Lookup(FromPairs(Zip(ks, vs)), k).value) == Success(k)
  {
    ZipTable(ks, vs);
    ZipTable(vs, ks);
    forall k | k in ks
      ensures Lookup(FromPairs(Zip(vs, ks)), Lookup(FromPairs(Zip(ks, vs)), k).value) == Success(k)
    {
      var i :| 0 <= i < |ks| && ks[i] == k;
    }
  }

  /** The two dictionaries undo each other on every name of the lists. */
  lemma RoundTrips()
    ensures forall s :: s in QuadlistShort ==>
      Lookup(Short2Epics(), s).Success? && Lookup(Epics2Short(), Lookup(Short2Epics(), s).value) == Success(s)
    ensures forall e :: e in QuadlistEpics ==>
      Lookup(Epics2Short(), e).Success? && Lookup(Short2Epics(), Lookup(Epics2Short(), e).value) == Success(e)
  {
    ShortDistinct();
    EpicsDistinct();
    ZipInverse(QuadlistShort, QuadlistEpics);
    ZipInverse(QuadlistEpics, QuadlistShort);
  }

  /** A dictionary over `zip(es, ss)` in which each `ss[i]` is the rewrite of `es[i]` maps
      every name of `es` to its rewrite. */
  lemma ZipRenamed(es: seq<string>, ss: seq<string>)
    requires Distinct(es) && RenamesTo(es, ss)
    ensures forall e :: e in es ==> Lookup(FromPairs(Zip(es, ss)), e) == Success(BessyRename(e))
  {
    ZipTable(es, ss);
    forall e | e in es
      ensures Lookup(FromPairs(Zip(es, ss)), e) == Success(BessyRename(e))
    {
      var i :| 0 <= i < |es| && es[i] == e;
    }
  }

  /** `epics2short` gives every EPICS name of the list the name the BESSY II rewrite of
      the magnet-strength extraction makes of it. */
  lemma Epics2ShortIsRename()
    ensures forall e :: e in QuadlistEpics ==> Lookup(Epics2Short(), e) == Success(BessyRename(e))
  {
    EpicsDistinct();
    RenameChain();
    ZipRenamed(QuadlistEpics, QuadlistShort);
  }

  /** `short2epics` sends different short names to different EPICS names. */
  lemma Short2EpicsInjective(s1: string, s2: string)
    requires Lookup(Short2Epics(), s1).Success? && Lookup(Short2Epics(), s2).Success? && s1 != s2
    ensures Lookup(Short2Epics(), s1).value != Lookup(Short2Epics(), s2).value
  {
    Short2EpicsTable();
    EpicsDistinct();
    var i :| 0 <= i < 52 && QuadlistShort[i] == s1;
    var j :| 0 <= j < 52 && QuadlistShort[j] == s2;
  }
}
