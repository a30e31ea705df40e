/** The two storage rings the scripts know, BESSY II and the MLS: how each rewrites a
    power-supply name into a magnet name, and the magnet lengths it looks up by the
    first two characters of that name. */
module Machines {
  import opened Outcomes
  import opened PyStr
  import opened Dicts

  datatype Machine = BessyII | Mls

  /** The machine named by the file's `ad` record, if it is one of the two. */
  function MachineOf(s: string): (r: Option<Machine>)
    ensures r == Some(BessyII) <==> s == "BESSYII"
    ensures r == Some(Mls) <==> s == "MLS"
    ensures r.None? <==> s != "BESSYII" && s != "MLS"
  {
    if s == "BESSYII" then Some(BessyII) else if s == "MLS" then Some(Mls) else None
  }

  /** The BESSY II rewrite: drop `PR`, then `PD`→`D`, `PT`→`T`, `PQ`→`Q`, then drop every `R`. */
  function BessyRename(name: string): string {
    Replace(Replace(Replace(Replace(Replace(name, "PR", ""), "PD", "D"), "PT", "T"), "PQ", "Q"), "R", "")
  }

  // The BESSY II rewrite on the five shapes of supply name in the list.

  predicate Digit(c: char) {
    '0' <= c <= '9'
  }

  /** `Q<n>PDR` becomes `Q<n>D`. */
  lemma RenameQnPDR(e: string, n: char)
    requires e == ['Q', n, 'P', 'D', 'R']
    requires Digit(n)
    ensures BessyRename(e) == ['Q', n, 'D']
  {
    ReplaceNoPair(e, 'P', 'R', "");
    assert e == ['Q', n] + ['P', 'D'] + ['R'];
    ReplaceFirstPair(['Q', n], ['R'], 'P', 'D', "D");
    ReplaceNoPair(['R'], 'P', 'D', "D");
    var e2 := ['Q', n, 'D', 'R'];
    assert Replace(e, "PD", "D") == e2;
    ReplaceNoPair(e2, 'P', 'T', "T");
    ReplaceNoPair(e2, 'P', 'Q', "Q");
    assert e2 == ['Q', n, 'D'] + ['R'];
    ReplaceDropLast(['Q', n, 'D'], 'R');
  }

  /** `Q<n>P<m>T<k>R` only loses its `R`. */
  lemma RenameQnPmTkR(e: string, n: char, m: char, k: char)
    requires e == ['Q', n, 'P', m, 'T', k, 'R']
    requires Digit(n) && Digit(m) && Digit(k)
    ensures BessyRename(e) == ['Q', n, 'P', m, 'T', k]
  {
    ReplaceNoPair(e, 'P', 'R', "");
    ReplaceNoPair(e, 'P', 'D', "D");
    ReplaceNoPair(e, 'P', 'T', "T");
    ReplaceNoPair(e, 'P', 'Q', "Q");
    assert e == ['Q', n, 'P', m, 'T', k] + ['R'];
    ReplaceDropLast(['Q', n, 'P', m, 'T', k], 'R');
  }

  /** `Q<n>PD<k>R` becomes `Q<n>D<k>`. */
  lemma RenameQnPDkR(e: string, n: char, k: char)
    requires e == ['Q', n, 'P', 'D', k, 'R']
    requires Digit(n) && Digit(k)
    ensures BessyRename(e) == ['Q', n, 'D', k]
  {
    ReplaceNoPair(e, 'P', 'R', "");
    assert e == ['Q', n] + ['P', 'D'] + [k, 'R'];
    ReplaceFirstPair(['Q', n], [k, 'R'], 'P', 'D', "D");
    ReplaceNoPair([k, 'R'], 'P', 'D', "D");
    var e2 := ['Q', n, 'D', k, 'R'];
    assert Replace(e, "PD", "D") == e2;
    ReplaceNoPair(e2, 'P', 'T', "T");
    ReplaceNoPair(e2, 'P', 'Q', "Q");
    assert e2 == ['Q', n, 'D', k] + ['R'];
    ReplaceDropLast(['Q', n, 'D', k], 'R');
  }

  /** `Q<n>PT<k>R` becomes `Q<n>T<k>`. */
  lemma RenameQnPTkR(e: string, n: char, k: char)
    requires e == ['Q', n, 'P', 'T', k, 'R']
    requires Digit(n) && Digit(k)
    ensures BessyRename(e) == ['Q', n, 'T', k]
  {
    ReplaceNoPair(e, 'P', 'R', "");
    ReplaceNoPair(e, 'P', 'D', "D");
    assert e == ['Q', n] + ['P', 'T'] + [k, 'R'];
    ReplaceFirstPair(['Q', n], [k, 'R'], 'P', 'T', "T");
    ReplaceNoPair([k, 'R'], 'P', 'T', "T");
    var e2 := ['Q', n, 'T', k, 'R'];
    assert Replace(e, "PT", "T") == e2;
    ReplaceNoPair(e2, 'P', 'Q', "Q");
    assert e2 == ['Q', n, 'T', k] + ['R'];
    ReplaceDropLast(['Q', n, 'T', k], 'R');
  }

  /** `PQ<a><b><c>R` becomes `Q<a><b><c>` when none of the three is a `P` or an `R`. */
  lemma RenamePQabcR(e: string, a: char, b: char, c: char)
    requires e == ['P', 'Q', a, b, c, 'R']
    requires a !in "PR" && b !in "PR" && c !in "PR"
    ensures BessyRename(e) == ['Q', a, b, c]
  {
    ReplaceNoPair(e, 'P', 'R', "");
    ReplaceNoPair(e, 'P', 'D', "D");
    ReplaceNoPair(e, 'P', 'T', "T");
    assert e == [] + ['P', 'Q'] + [a, b, c, 'R'];
    ReplaceFirstPair([], [a, b, c, 'R'], 'P', 'Q', "Q");
    ReplaceNoPair([a, b, c, 'R'], 'P', 'Q', "Q");
    assert Replace(e, "PQ", "Q") == ['Q', a, b, c] + ['R'];
    ReplaceDropLast(['Q', a, b, c], 'R');
  }

  /** The supply-name rewrite of `_get_magnet_strength`; the MLS one drops every `RP`. */
  function Rename(m: Machine, name: string): string {
    match m
    case BessyII => BessyRename(name)
    case Mls => Replace(name, "RP", "")
  }

  predicate Positive(d: Items<real>) {
    forall i :: 0 <= i < |d| ==> d[i].1 > 0.0
  }

  /** The quadrupole lengths in metres, by the first two characters of the magnet name. */
  function QuadLengths(m: Machine): (d: Items<real>)
    ensures KeysDistinct(d) && Positive(d)
  {
    match m
    case BessyII => [("Q1", 0.25), ("Q2", 0.20), ("Q3", 0.25), ("Q4", 0.50), ("Q5", 0.20), ("QI", 0.122)]
    case Mls => [("Q1", 0.2), ("Q2", 0.2), ("Q3", 0.2)]
  }

  /** The sextupole lengths in metres, by the first two characters of the magnet name. */
  function SextLengths(m: Machine): (d: Items<real>)
    ensures KeysDistinct(d) && Positive(d)
  {
    match m
    case BessyII => [("S1", 0.21), ("S2", 0.16), ("S3", 0.16), ("S4", 0.16)]
    case Mls => [("S1", 0.1), ("S2", 0.1), ("S3", 0.1)]
  }

  /** A length found in a table of positive lengths is positive, so dividing by it is safe. */
  lemma LookupPositive(d: Items<real>, k: string)
    requires Positive(d) && Lookup(d, k).Success?
    ensures Lookup(d, k).value > 0.0
  {
    var i := Find(KeysOf(d), k).value;
    assert Lookup(d, k).value == d[i].1;
  }

  /** The BESSY II rewrite leaves no `R`: its last step removes them all. */
  lemma BessyRenameHasNoR(name: string)
    ensures 'R' !in Rename(BessyII, name)
  {
    var before := Replace(Replace(Replace(Replace(name, "PR", ""), "PD", "D"), "PT", "T"), "PQ", "Q");
    ReplaceRemovesChar(before, 'R', "");
  }

  /** The MLS rewrite leaves a name without `RP` as it is. */
  lemma MlsRenameKeepsOthers(name: string)
    requires !Occurs(name, "RP")
    ensures Rename(Mls, name) == name
  {
    ReplaceAbsent(name, "RP", "");
  }

  /** The MLS rewrite is one left-to-right pass: removing `RP` from `RRPP` leaves a new `RP`. */
  lemma MlsRenameSinglePass()
    ensures Rename(Mls, "RRPP") == "RP"
  {
    assert MatchesAt("RRPP", 1, "RP");
    assert !MatchesAt("RRPP", 0, "RP");
    assert ReplaceFrom("RRPP", 3, "RP", "") == "P";
    assert ReplaceFrom("RRPP", 1, "RP", "") == "P";
  }
}
