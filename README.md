# BESSY II / MLS quadrupole tools in Dafny

This project models the core of a set of accelerator-physics scripts for the BESSY II
and MLS storage rings.

**Strength extraction (`ATRingWithAO`).** It reads a LOCO fit file, which holds:

- the accelerator-object families (`ao`);
- the accelerator data (`ad`);
- one AT ring snapshot per fit iteration.

From these it builds a name table over the ring positions (`NameMap`). It then lists the
magnet strength of every power supply of a requested type, quadrupole or sextupole. The
listing is the average over the elements on that supply, recorded under the magnet name
the machine's renaming rule makes of the supply name, with the magnet length looked up
by the first two characters of that name.

There are two copies of this extraction:

- `extract_quad_values/mmltools.py` reads the machine from `ad.Maschine` and writes
  `{"type": "Quad", "length", "k1"}` and `{"type": "Sext", "length", "k2"}` records.
- `bessy2tools/extract_quad_values/mmltools.py` reads `ad.Machine` only when listing,
  writes `{"type", "length", "strength"}` records, and can hand out one ring snapshot.

**Setpoint conversion (`quad_conversion`).** This window loads:

- quadrupole strengths from two lattice files, keyed through the 52-entry table between
  short lattice names and EPICS supply names;
- reference supply values from a value file.

It then scales each reference supply value by the ratio of new to reference strength.

The modules are:

- `Outcomes`: Python exceptions as `Failure` results.
- `PyStr`: `str.replace`, `split`, slicing and the string order.
- `NumPy`: Python indexing, `np.unique`, mask selection and `np.repeat`.
- `Dicts`: the insertion-ordered `dict`.
- `LocoFile`: the loaded `.mat` content.
- `Machines`: the renaming rules and the length tables.
- `NameMaps`: the `NameMap` class and the fill in `__init__`, which both copies share.
- `Strengths`: strength reading and averaging.
- `ExtractTools` and `Bessy2Tools`: the two copies of `ATRingWithAO`.
- `NameConversion`: the name lists and the two dictionaries zipped from them.
- `QuadConversion`: file loading and `compute_new_PS_values`.

Where the code has an evident bug, listed under Findings, the listing members use the
corrected behaviour. The behaviour as written is modelled beside them, with a lemma that
says for every input how the two differ, and "## Left out" names each member that uses the
correction. Elsewhere, where the intended behaviour of the tools and their code differ, the
model follows the code:

- The lattice exchange format is meant to be `{type, length, k1 | k2}` per magnet. The
  BESSY II copy writes `type`, `length` and `strength` instead, and its `type` is the AT
  type (`QUAD`/`SEXT`), not `Quad`/`Sext`.
- An unknown machine is meant to be a fatal error. In both copies it is raised only from
  inside the supply loop, so a listing with no supply of the requested type returns `{}`
  (`ExtractTools.UnknownMachineNeedsSupplies`).
- In the first copy, a type other than QUAD and SEXT never reaches `_get_magnet_strength`:
  the getter dictionary raises a `KeyError` on it first.

## Model

| member | source | states |
|---|---|---|
| PyStr.ReplaceAbsent | extract_quad_values/mmltools.py:138 | `str.replace` leaves a string that does not contain the pattern unchanged |
| PyStr.ReplaceRemovesChar | extract_quad_values/mmltools.py:138 | replacing a character by text without it leaves no copy of it (the final `replace('R', '')`) |
| PyStr.ReplaceNoPair | extract_quad_values/mmltools.py:138 | a string without the two-character pattern comes out of `str.replace` unchanged |
| PyStr.ReplaceFirstPair | extract_quad_values/mmltools.py:138 | the first occurrence of a two-character pattern is replaced and the scan resumes after it |
| PyStr.ReplaceDropLast | extract_quad_values/mmltools.py:138 | removing a character that occurs only at the end drops just that end |
| PyStr.MatchesAtIsSlice | extract_quad_values/mmltools.py:138 | the pattern test of the replace scan agrees with slice equality |
| PyStr.Head | extract_quad_values/mmltools.py:147 | `name[:2]` is a prefix of length min(2, len), never an error |
| PyStr.BeforeColon | extract_quad_values/mmltools.py:123 | `split(':')[0]` is a colon-free prefix followed by a colon whenever it is shorter |
| PyStr.BelowIrreflexive | extract_quad_values/mmltools.py:32 | the string order `np.unique` sorts by is irreflexive |
| PyStr.BelowTransitive | extract_quad_values/mmltools.py:32 | the string order is transitive |
| PyStr.BelowTotal | extract_quad_values/mmltools.py:32 | any two different strings are ordered one way or the other |
| PyStr.BelowAsymmetric | extract_quad_values/mmltools.py:32 | the string order is asymmetric |
| NumPy.Wrap | extract_quad_values/mmltools.py:157 | a valid Python index, negative ones counted from the end, denotes a position below the length |
| NumPy.At | extract_quad_values/mmltools.py:157 | `s[i]` succeeds exactly when `-len(s) <= i < len(s)` |
| NumPy.AtNegative | extract_quad_values/mmltools.py:157 | index -1 is the last element and `-len` the first (the default `fit_iteration=-1`) |
| NumPy.Insert | extract_quad_values/mmltools.py:32 | inserting into a strictly sorted list keeps it strictly sorted and adds exactly the new element |
| NumPy.Unique | extract_quad_values/mmltools.py:32 | `np.unique` gives a strictly sorted list with exactly the elements of its input |
| NumPy.Positions | extract_quad_values/mmltools.py:26 | the positions holding a key, ascending, and all of them |
| NumPy.Pick | extract_quad_values/mmltools.py:26 | selecting positions gives the values at those positions in that order |
| NumPy.StrictlySortedDistinct | extract_quad_values/mmltools.py:32 | a strictly sorted list has no repeats |
| NumPy.MaskedMembers | extract_quad_values/mmltools.py:26 | `vals[keys == k]` holds exactly the values beside key `k` |
| NumPy.MaskedSelfIndexed | extract_quad_values/mmltools.py:26 | where each value is its own position, the mask gives the positions of `k`, ascending |
| NumPy.Repeat | extract_quad_values/mmltools.py:113 | `np.repeat(s, k)` has `len(s) * k` elements |
| NumPy.RepeatAt | extract_quad_values/mmltools.py:113-114 | copy `m` of element `j` stands at position `j * k + m` |
| Dicts.KeysOf | extract_quad_values/mmltools.py:176 | the keys of a dict in insertion order |
| Dicts.Find | extract_quad_values/mmltools.py:147 | the first position of a key, absent exactly when the key is not there |
| Dicts.FindFirst | extract_quad_values/mmltools.py:147 | a position with no earlier copy of the key is the one found |
| Dicts.Lookup | extract_quad_values/mmltools.py:147 | `d[k]` is the stored value, or `KeyError(k)` exactly when the key is absent |
| Dicts.Put | quad_conversion/quad_conversion.py:117 | `d[k] = v` makes `k` map to `v`, changes no other key, keeps keys distinct, and appends a new key at the end |
| Dicts.AppendKeepsGet | extract_quad_values/mmltools.py:176 | appending a fresh key changes no other lookup |
| Dicts.FromPairs | extract_quad_values/mmltools.py:176 | a dict built from pairs has distinct keys |
| Dicts.FromPairsLastWins | extract_quad_values/mmltools.py:176 | each key of the pairs holds the value of its last pair |
| Dicts.FromPairsDistinct | quad_conversion/name_conversion.py:15 | pairs with distinct keys become the dict unchanged, in order |
| Dicts.GetMember | extract_quad_values/mmltools.py:176 | with distinct keys, a stored pair is what `d[k]` finds |
| Dicts.MapValues | extract_quad_values/mmltools.py:176 | every pair keeps its key and position, with its value passed through the function |
| Dicts.MapValuesAppend | extract_quad_values/mmltools.py:176 | mapping one more pair appends its mapped pair |
| Dicts.PutMapValues | extract_quad_values/mmltools.py:176 | assigning a mapped value to a mapped dict is mapping the dict after the assignment |
| Dicts.FromPairsMapValues | extract_quad_values/mmltools.py:176 | building the dict from mapped pairs is mapping the dict built from the pairs |
| Machines.MachineOf | extract_quad_values/mmltools.py:135-144 | exactly `BESSYII` and `MLS` are known machines, and nothing else |
| Machines.QuadLengths | extract_quad_values/mmltools.py:136 | the quadrupole tables have distinct keys and positive lengths |
| Machines.SextLengths | extract_quad_values/mmltools.py:137 | the sextupole tables have distinct keys and positive lengths |
| Machines.LookupPositive | extract_quad_values/mmltools.py:151-152 | a length found in those tables is positive, so the sextupole division cannot fail |
| Machines.BessyRenameHasNoR | extract_quad_values/mmltools.py:138 | the BESSY II rewrite leaves no `R` in any name |
| Machines.MlsRenameKeepsOthers | extract_quad_values/mmltools.py:142 | the MLS rewrite leaves a name without `RP` unchanged |
| Machines.MlsRenameSinglePass | extract_quad_values/mmltools.py:142 | the MLS rewrite is one pass: `RRPP` becomes `RP`, not the empty name |
| Machines.RenameQnPDR | extract_quad_values/mmltools.py:138 | a `Q<n>PDR` supply becomes magnet `Q<n>D` |
| Machines.RenameQnPmTkR | extract_quad_values/mmltools.py:138 | a `Q<n>P<m>T<k>R` supply only loses its `R` |
| Machines.RenameQnPDkR | extract_quad_values/mmltools.py:138 | a `Q<n>PD<k>R` supply becomes `Q<n>D<k>` |
| Machines.RenameQnPTkR | extract_quad_values/mmltools.py:138 | a `Q<n>PT<k>R` supply becomes `Q<n>T<k>` |
| Machines.RenamePQabcR | extract_quad_values/mmltools.py:138 | a `PQ<a><b><c>R` supply becomes `Q<a><b><c>` |
| NameMaps.Fit | extract_quad_values/mmltools.py:17-20 | a `U40` array entry is the stored string cut to at most 40 characters, unchanged if it is short enough |
| NameMaps.Blanks | extract_quad_values/mmltools.py:13-20 | a fresh table holds index 0 and empty names at every position |
| NameMaps.ColumnWrites | extract_quad_values/mmltools.py:117-123 | row `r` of an index column writes position `entry - 1` with row `r`'s names |
| NameMaps.Apply | extract_quad_values/mmltools.py:118-123 | the writes keep the table's length |
| NameMaps.Named | extract_quad_values/mmltools.py:126-127 | each position gets its ring element's family name and nothing else changes |
| NameMaps.Build | extract_quad_values/mmltools.py:102-132 | a table that is built has one slot per ring element, passes the `BEND` check and carries the family names; failure is only `IndexError` or the broken-file exception |
| NameMaps.LastTo | extract_quad_values/mmltools.py:118 | the last write landing on a position, or none |
| NameMaps.ApplyAt | extract_quad_values/mmltools.py:118-123 | the last write to a position decides it, and a position nothing writes keeps its slot |
| NameMaps.ApplyConcat | extract_quad_values/mmltools.py:102-123 | running two runs of writes in turn is running them together |
| NameMaps.BuildSlot | extract_quad_values/mmltools.py:102-127 | a written position holds its last write, with the AT index the position itself (or wrapped from the end for an entry of 0); an unwritten one keeps index 0 and empty names |
| NameMaps.UnwrittenBendFails | extract_quad_values/mmltools.py:130-132 | a `BEND` element no family writes makes the load fail with the broken-file exception |
| NameMaps.Kept | extract_quad_values/mmltools.py:104-105 | the families kept are those in the file other than `TUNE` and `DCCT` |
| NameMaps.SkippedWriteNothing | extract_quad_values/mmltools.py:104-105 | `TUNE` and `DCCT` contribute no write |
| NameMaps.SkippedFamiliesIgnored | extract_quad_values/mmltools.py:104-105 | the table is the same with or without `TUNE` and `DCCT` |
| NameMaps.MatrixWritesShape | extract_quad_values/mmltools.py:115-123 | every write of a family carries its type and names and a row below the matrix height |
| NameMaps.ColumnExtend | extract_quad_values/mmltools.py:117-123 | one more row of the inner loop applies that row's write |
| NameMaps.AllOkConcat | extract_quad_values/mmltools.py:116-123 | two runs of writes that raise nothing make one that raises nothing |
| NameMaps.MatrixExtend | extract_quad_values/mmltools.py:116-123 | one more column applies that column's writes |
| NameMaps.WritesExtend | extract_quad_values/mmltools.py:102-123 | one more family applies that family's writes |
| NameMaps.MatrixHas | extract_quad_values/mmltools.py:116-118 | every matrix entry gives a write |
| NameMaps.WritesHas | extract_quad_values/mmltools.py:102-123 | every family's write is among all the writes |
| NameMaps.RfWritesFirstNames | extract_quad_values/mmltools.py:112-114 | every `RF` element gets the family's first common and channel name |
| NameMaps.NameMap.Table | extract_quad_values/mmltools.py:13-20 | the six arrays, read position by position |
| NameMaps.NameMap.constructor | extract_quad_values/mmltools.py:13-20 | `NameMap(N)` has `N` blank positions in six fresh arrays |
| NameMaps.NameMap.GetAtIndicesByAoNames | extract_quad_values/mmltools.py:22-23 | exactly the AT indices stored beside AO name `name` |
| NameMaps.NameMap.GetAtIndicesByPsNames | extract_quad_values/mmltools.py:25-26 | exactly the AT indices stored beside supply name `name` |
| NameMaps.NameMap.GetAtIndicesByAtNames | extract_quad_values/mmltools.py:28-29 | exactly the AT indices stored beside family name `name` |
| NameMaps.NameMap.GetPsNames | extract_quad_values/mmltools.py:31-32 | the supply names of the positions of a type, sorted and each once |
| NameMaps.NameMap.GetAoNames | extract_quad_values/mmltools.py:34-35 | the AO names of the positions of a type, sorted and each once |
| NameMaps.NameMap.GetAtNames | extract_quad_values/mmltools.py:37-38 | the family names of the positions of a type, sorted and each once |
| NameMaps.NameMap.Store | extract_quad_values/mmltools.py:118-123 | the loop body changes one slot, at the Python position of `j`, in five columns |
| NameMaps.NameMap.StoreColumn | extract_quad_values/mmltools.py:117-123 | the inner loop succeeds exactly when no write raises, and then applies the column's writes |
| NameMaps.NameMap.StoreFamily | extract_quad_values/mmltools.py:106-123 | the loop over one family succeeds exactly when none of its writes raises, and then applies them |
| NameMaps.NameMap.StoreAll | extract_quad_values/mmltools.py:102-123 | the fill loop succeeds exactly when no write raises, and then the table is the writes applied in loop order |
| NameMaps.NameMap.StoreNames | extract_quad_values/mmltools.py:126-127 | the family-name loop gives the table `Named` describes |
| NameMaps.NameMap.CheckBends | extract_quad_values/mmltools.py:130-132 | the check passes exactly when every `BEND` position is on an allowed supply |
| NameMaps.IndicesByPsNameAscending | extract_quad_values/mmltools.py:25-26 | with matrix entries in 1..N, a supply's AT indices are exactly its positions, ascending |
| NameMaps.SupplyGroupNonEmpty | extract_quad_values/mmltools.py:166-168 | every supply `get_ps_names` lists has an AT index, so `at_indices[0]` cannot raise |
| NameMaps.Fill | extract_quad_values/mmltools.py:97-132 | the constructor's table work succeeds exactly when `Build` does, giving a fresh table with `Build`'s contents, or its exception |
| Strengths.StrengthAt | extract_quad_values/mmltools.py:159 | an index out of range is `IndexError`; a read value is the element's `K` or `PolynomB[2]` |
| Strengths.SumPrefixFails | extract_quad_values/mmltools.py:170-174 | a failure on the first elements is the failure of the whole sum |
| Strengths.SumSucceeds | extract_quad_values/mmltools.py:170-174 | the running total exists exactly when every read succeeds |
| Strengths.SumFirstError | extract_quad_values/mmltools.py:170-174 | a failing sum carries the error of the first failing read |
| Strengths.SumLast | extract_quad_values/mmltools.py:174 | one more element adds its strength |
| Strengths.SumOfEqual | extract_quad_values/mmltools.py:170-174 | equal strengths `v` sum to `v` times their number |
| Strengths.AddOnce | extract_quad_values/mmltools.py:174 | adding `v` once more is multiplying by one more |
| Strengths.MeanOfEqual | extract_quad_values/mmltools.py:168-175 | when all elements on a supply read `v`, the average is `v`, so the warning never changes the result |
| Strengths.Cancel | extract_quad_values/mmltools.py:175 | dividing a product by its positive factor gives back the other factor |
| Strengths.SumBounds | extract_quad_values/mmltools.py:170-174 | the running total lies between the lowest and highest strength times the count |
| Strengths.AddedUpIsProduct | extract_quad_values/mmltools.py:174 | adding `c` `m` times gives `c * m` |
| Strengths.SumBetween | extract_quad_values/mmltools.py:170-174 | the total lies between `lo` and `hi` added once per element |
| Strengths.MeanBounds | extract_quad_values/mmltools.py:168-175 | the average lies between the smallest and largest member strength |
| Strengths.Scale | extract_quad_values/mmltools.py:175 | dividing by a positive count keeps the order |
| Strengths.AverageStrength | extract_quad_values/mmltools.py:168-175 | the averaging loop computes the mean of the strengths on one supply, or the first read error |
| ExtractTools.MagnetStrength | extract_quad_values/mmltools.py:134-154 | an unknown machine raises, another type gives `None`, and a record is keyed by the rewritten supply name |
| ExtractTools.QuadRecord | extract_quad_values/mmltools.py:146-147 | a quadrupole keeps its strength as `k1` with the length of its two-character prefix, or `KeyError` on that prefix |
| ExtractTools.SextRecord | extract_quad_values/mmltools.py:148-152 | a sextupole records a positive length in metres and a `k2` that gives the strength back, or `KeyError` on the prefix |
| ExtractTools.ReadBackSext | extract_quad_values/mmltools.py:151-152 | `k2 = strength / length * 2`, times the length and halved, is the strength |
| ExtractTools.MagnetStrengthAsWritten | extract_quad_values/mmltools.py:134-154 | as written, every type but SEXT gives what the corrected version gives, and it fails exactly where that fails |
| ExtractTools.SextLengthAsWrittenIsTable | extract_quad_values/mmltools.py:151-152 | as written, sextupole `S1` records the whole length table where the corrected record has 0.21 m |
| ExtractTools.SextRecordAsWritten | extract_quad_values/mmltools.py:148-152 | as written, every sextupole record found holds the whole table as its length and reads back no strength; the table entry for its prefix gives the strength back; a missing entry is `KeyError` on the prefix |
| ExtractTools.SuppliesOf | extract_quad_values/mmltools.py:167 | the AT index and supply columns cover every ring position |
| ExtractTools.EntriesStep | extract_quad_values/mmltools.py:166-176 | one more supply adds its record to the entries |
| ExtractTools.ListingByEntries | extract_quad_values/mmltools.py:156-177 | once the ring, the getter and the method are accepted, the listing is the dict of the supply records, or the first supply's exception |
| ExtractTools.EntriesStopAt | extract_quad_values/mmltools.py:166-176 | the first failing supply ends the listing with its exception |
| ExtractTools.SupplyEntryAsWrittenMap | extract_quad_values/mmltools.py:166-176 | as written, a supply gives the corrected record passed through `AsWrittenRecord`, or the same exception |
| ExtractTools.EntriesLast | extract_quad_values/mmltools.py:166-176 | both loops, corrected and as written, take the last supply after the ones before it, stopping at the first exception |
| ExtractTools.EntriesAsWrittenMap | extract_quad_values/mmltools.py:166-176 | as written, the entries are the corrected entries with each record's sextupole length replaced by the table, failing where those fail |
| ExtractTools.ListingAsWritten | extract_quad_values/mmltools.py:156-177 | as written, the listing is the corrected listing with the same supplies in the same order and the same exceptions, each sextupole's length replaced by the table |
| ExtractTools.LoopStep | extract_quad_values/mmltools.py:166-176 | one pass of the loop: a failing supply ends the listing with its exception; a record extends the entries and is one more assignment |
| ExtractTools.FromPairsStep | extract_quad_values/mmltools.py:176 | `elements.update` with one more record is one more assignment |
| ExtractTools.EntriesPrefixFails | extract_quad_values/mmltools.py:166-176 | a failure among the first supplies is the listing's failure |
| ExtractTools.MagnetStrengthHolds | extract_quad_values/mmltools.py:134-152 | a record is a quadrupole or sextupole as asked, under the rewritten name, and reads back to the strength it was made from |
| ExtractTools.SupplyEntryIsRecord | extract_quad_values/mmltools.py:166-176 | a supply's record holds the mean strength of every position on that supply |
| ExtractTools.EntriesAreRecords | extract_quad_values/mmltools.py:166-176 | entry `i` is the record of the `i`-th supply in sorted order |
| ExtractTools.LaterSupplyWins | extract_quad_values/mmltools.py:176 | when two supplies rename to the same magnet, the later record overwrites the earlier |
| ExtractTools.UnknownMachineNeedsSupplies | extract_quad_values/mmltools.py:143-144 | an unknown machine goes unnoticed exactly while no supply of the type exists |
| ExtractTools.ListingRefusals | extract_quad_values/mmltools.py:159 | another type is `KeyError` on it, and another method the not-implemented exception, before any strength is read |
| ExtractTools.AtRing.constructor | extract_quad_values/mmltools.py:86-97 | the object holds the machine field, the rings and its name table |
| ExtractTools.AtRing.Open | extract_quad_values/mmltools.py:86-132 | opening succeeds exactly when the file has a ring, the machine field exists and the table builds, and then holds that table; otherwise it gives the same exception |
| ExtractTools.AtRing.ReadSupply | extract_quad_values/mmltools.py:167-176 | one pass of the supply loop gives that supply's record or exception |
| ExtractTools.AtRing.ListSupplies | extract_quad_values/mmltools.py:165-177 | the supply loop gives the dict of the records in order, or the first exception |
| ExtractTools.AtRing.GetMagnetStrength | extract_quad_values/mmltools.py:156-179 | `get_magnet_strength` gives the listing `MagnetStrengths` describes |
| Bessy2Tools.QuadLengthsAsWritten | bessy2tools/extract_quad_values/mmltools.py:132 | the table as written still has distinct keys and positive lengths |
| Bessy2Tools.Resolve | bessy2tools/extract_quad_values/mmltools.py:130-151 | an unknown machine raises, another type is `UnboundLocalError` on `length`, and a record carries the rewritten name and the AT type |
| Bessy2Tools.ReadBackSext | bessy2tools/extract_quad_values/mmltools.py:143-144 | the stored sextupole strength, times the length and halved, is the averaged strength |
| Bessy2Tools.MagnetStrengthReadsBack | bessy2tools/extract_quad_values/mmltools.py:130-151 | a record carries the length of its prefix's table entry and reads back to its strength |
| Bessy2Tools.QiQuadrupolesAsWritten | bessy2tools/extract_quad_values/mmltools.py:132 | as written, every quadrupole whose name starts `QI` is `KeyError('QI')`; the corrected table gives it 0.122 m |
| Bessy2Tools.QuadTablesAgree | bessy2tools/extract_quad_values/mmltools.py:132 | every key other than `QI` and `PQIT6R` finds the same length in the table as written and in the corrected table |
| Bessy2Tools.AsWrittenDiffersOnlyAtQi | bessy2tools/extract_quad_values/mmltools.py:130-151 | for every input, the code as written gives the corrected record or exception, except a BESSY II quadrupole whose rewritten name starts `QI`, which is `KeyError('QI')` |
| Bessy2Tools.PqitSupplyAsWritten | bessy2tools/extract_quad_values/mmltools.py:132-134 | supply `PQIT6R` is one of them: `KeyError('QI')` as written, `QIT6` with 0.122 m corrected |
| Bessy2Tools.Prelude | bessy2tools/extract_quad_values/mmltools.py:153-164 | the listing gets past its start exactly when the machine field exists, the fit iteration is in range, the type is QUAD or SEXT and the method is `byPowerSupply` |
| Bessy2Tools.EntriesAsWrittenFail | bessy2tools/extract_quad_values/mmltools.py:171 | as written, the first supply read indexes the ring with a float and raises `IndexError` |
| Bessy2Tools.ListingAsWritten | bessy2tools/extract_quad_values/mmltools.py:14 | as written, a listing with any supply of the type is `IndexError`; with none, both versions give `{}` |
| Bessy2Tools.EntriesStep | bessy2tools/extract_quad_values/mmltools.py:169-178 | one more supply adds its record |
| Bessy2Tools.EntriesPrefixFails | bessy2tools/extract_quad_values/mmltools.py:169-178 | a failure among the first supplies is the listing's failure |
| Bessy2Tools.EntriesStopAt | bessy2tools/extract_quad_values/mmltools.py:169-178 | the first failing supply ends the listing with its exception |
| Bessy2Tools.FromPairsStep | bessy2tools/extract_quad_values/mmltools.py:178 | `elements.update` with one more record is one more assignment |
| Bessy2Tools.EntriesAreMeans | bessy2tools/extract_quad_values/mmltools.py:169-178 | entry `i` is the record of the `i`-th supply |
| Bessy2Tools.SupplyEntryReadsBack | bessy2tools/extract_quad_values/mmltools.py:170-178 | a supply's record holds the rewritten name, the AT type, and reads back to the mean strength on that supply |
| Bessy2Tools.ReadSupply | bessy2tools/extract_quad_values/mmltools.py:170-178 | one pass of the supply loop gives that supply's record or exception |
| Bessy2Tools.ListSupplies | bessy2tools/extract_quad_values/mmltools.py:168-179 | the supply loop gives the dict of the records in order, or the first exception |
| Bessy2Tools.AtRing.constructor | bessy2tools/extract_quad_values/mmltools.py:81-92 | the object holds the `ad` fields, the rings and its name table |
| Bessy2Tools.AtRing.Open | bessy2tools/extract_quad_values/mmltools.py:81-125 | opening succeeds exactly when the file has a ring and the table builds, without reading the machine field; the object holds that table |
| Bessy2Tools.AtRing.GetRing | bessy2tools/extract_quad_values/mmltools.py:127-128 | `get_ring` succeeds exactly for a fit iteration in range and gives that snapshot, counted from the end when negative |
| Bessy2Tools.AtRing.GetMagnetStrength | bessy2tools/extract_quad_values/mmltools.py:153-181 | `get_magnet_strength`, with integer AT indices, gives the listing `MagnetStrengths` describes |
| NameConversion.Zip | quad_conversion/name_conversion.py:15 | `zip` pairs equal positions up to the shorter list |
| NameConversion.ShortDistinct | quad_conversion/name_conversion.py:9-13 | `quadlist_short` has no repeated name |
| NameConversion.RenameChain | quad_conversion/name_conversion.py:1-13 | every EPICS name of the list becomes the short name at its position under the BESSY II rewrite |
| NameConversion.EpicsDistinct | quad_conversion/name_conversion.py:1-7 | `quadlist_epics` has no repeated name |
| NameConversion.ZipTable | quad_conversion/name_conversion.py:15-16 | a dict over `zip(ks, vs)` with distinct keys maps each `ks[i]` to `vs[i]` in order and lacks every other key |
| NameConversion.Short2EpicsTable | quad_conversion/name_conversion.py:15 | both lists have 52 names; `short2epics` maps each short name to the EPICS name at its position and lacks every other key |
| NameConversion.Epics2ShortTable | quad_conversion/name_conversion.py:16 | `epics2short` maps each EPICS name to the short name at its position and lacks every other key |
| NameConversion.ZipInverse | quad_conversion/name_conversion.py:15-16 | dicts over `zip(ks, vs)` and `zip(vs, ks)` undo each other when both lists are repeat-free |
| NameConversion.RoundTrips | quad_conversion/name_conversion.py:15-16 | `epics2short[short2epics[s]] == s` and `short2epics[epics2short[e]] == e` for every listed name |
| NameConversion.ZipRenamed | quad_conversion/name_conversion.py:16 | a dict zipping names with their rewrites maps each name to its rewrite |
| NameConversion.Epics2ShortIsRename | quad_conversion/name_conversion.py:16 | `epics2short` agrees with the extraction's BESSY II renaming rule on every listed name |
| NameConversion.Short2EpicsInjective | quad_conversion/name_conversion.py:15 | `short2epics` sends different short names to different EPICS names |
| QuadConversion.Contributions | quad_conversion/quad_conversion.py:109 | each element contributes what the comprehension makes of it, in element order |
| QuadConversion.LatticeQuads | quad_conversion/quad_conversion.py:108-109 | a lattice file's dict has distinct keys |
| QuadConversion.UpdatePair | quad_conversion/quad_conversion.py:110 | a two-item list with a string key is that pair; a two-character string is its two characters; a number, boolean or null is `TypeError`; `ValueError` only for an iterable of another length than two |
| QuadConversion.UpdatePairs | quad_conversion/quad_conversion.py:110 | the pairs inserted are the elements' pairs in order; with an exception, it is the one of the first element that is no pair, and exactly the elements before it were inserted |
| QuadConversion.Characters | quad_conversion/quad_conversion.py:110 | iterating a string gives its characters as one-character strings, in order |
| QuadConversion.Filled | quad_conversion/quad_conversion.py:104-110 | what the cleared dictionary holds after the load, with distinct keys |
| QuadConversion.Loaded | quad_conversion/quad_conversion.py:104-110 | an unopenable file is `OSError`; otherwise the load succeeds exactly when the fill raises nothing, and its dict has distinct keys |
| QuadConversion.ChainSucceeds | quad_conversion/quad_conversion.py:109 | the comprehension succeeds exactly when every element does |
| QuadConversion.ChainIncludes | quad_conversion/quad_conversion.py:109 | every element's pair is in the result |
| QuadConversion.ChainMember | quad_conversion/quad_conversion.py:109 | every pair of the result comes from an element |
| QuadConversion.ChainDistinct | quad_conversion/quad_conversion.py:109 | pieces whose keys differ within and across give a result with distinct keys |
| QuadConversion.AppendDistinct | quad_conversion/quad_conversion.py:109 | joining dicts with disjoint distinct keys keeps the keys distinct |
| QuadConversion.QuadItemSucceeds | quad_conversion/quad_conversion.py:109 | an element passes exactly when it has a `type` and, as a quadrupole, a known name and a `k1`; only a quadrupole gives a pair |
| QuadConversion.QuadPairsSucceeds | quad_conversion/quad_conversion.py:109 | the filter succeeds exactly when every element passes |
| QuadConversion.QuadPairsDistinct | quad_conversion/quad_conversion.py:109 | with an injective name table, the filter's keys are distinct |
| QuadConversion.QuadPairsLookup | quad_conversion/quad_conversion.py:109 | each quadrupole element's `k1` is under its EPICS name |
| QuadConversion.QuadPairsKeys | quad_conversion/quad_conversion.py:109 | every key is the EPICS name of some quadrupole element |
| QuadConversion.QuadItemKey | quad_conversion/quad_conversion.py:109 | a pair an element gives comes from a quadrupole, under the EPICS name of its short name |
| QuadConversion.LatticeQuadsContent | quad_conversion/quad_conversion.py:107-109 | a lattice file that loads holds each quadrupole's `k1` under its EPICS name, and nothing else |
| QuadConversion.LatticeQuadsErrors | quad_conversion/quad_conversion.py:106-109 | a non-object, a missing `elements`, a non-object `elements` or an element the filter cannot take each fail, and nothing else does |
| QuadConversion.Short2EpicsIsInjective | quad_conversion/quad_conversion.py:109 | the tool's own table is injective, so no two quadrupoles collide |
| QuadConversion.UnknownNameFails | quad_conversion/quad_conversion.py:109 | a quadrupole whose name the table lacks fails the load |
| QuadConversion.UnknownQuadFails | quad_conversion/quad_conversion.py:109 | a quadrupole not in `quadlist_short` fails the load |
| QuadConversion.ValueFileContent | quad_conversion/quad_conversion.py:106-110 | a value file that is an object loads as its members, each key once with its last value |
| QuadConversion.ListValueFile | quad_conversion/quad_conversion.py:110 | a value file that is a list loads exactly when every element is a pair; each key holds its last pair's value; an element that is no pair ends the load with its exception, keeping the pairs before it |
| QuadConversion.StringValueFile | quad_conversion/quad_conversion.py:110 | a value file that is a string loads as `{}` when empty and is `ValueError` otherwise, the dict staying empty |
| QuadConversion.ScalarValueFile | quad_conversion/quad_conversion.py:110 | a value file that is a number, boolean or null is `TypeError`, the dict staying empty |
| QuadConversion.LastValueSome | quad_conversion/quad_conversion.py:110 | a key has a last value exactly when some member carries it |
| QuadConversion.LoadedValues.constructor | quad_conversion/quad_conversion.py:40-44 | a new dictionary is empty, with no path shown |
| QuadConversion.LoadedValues.UpdateFromFile | quad_conversion/quad_conversion.py:103-111 | an unopenable file changes nothing; otherwise the dict is cleared, then holds what the load filled in up to any exception, and the path is shown exactly when the file loads |
| QuadConversion.NewPsValue | quad_conversion/quad_conversion.py:117 | the new value keeps the ratio `new / ref = new_PS / ref_PS`; non-numbers are `TypeError`, a zero reference `ZeroDivisionError` |
| QuadConversion.NewValueForCases | quad_conversion/quad_conversion.py:116-117 | a missing magnet is `KeyError`; equal strengths write nothing; otherwise the reference supply value is needed and the ratio is kept |
| QuadConversion.Decisions | quad_conversion/quad_conversion.py:115-117 | one decision per magnet, in loop order |
| QuadConversion.Scaling | quad_conversion/quad_conversion.py:115-117 | the supply values after the loop have distinct keys |
| QuadConversion.ScalingLast | quad_conversion/quad_conversion.py:117 | the last magnet of a run without exception changes only its own entry |
| QuadConversion.ScalingWrites | quad_conversion/quad_conversion.py:116-117 | after a run without exception, each magnet with a new value holds it |
| QuadConversion.ScalingUnlisted | quad_conversion/quad_conversion.py:115-117 | a magnet outside the loop keeps its earlier value |
| QuadConversion.ScalingSkips | quad_conversion/quad_conversion.py:116 | a magnet whose strengths agree keeps its earlier value |
| QuadConversion.ScalingKeys | quad_conversion/quad_conversion.py:117 | no entry is removed, and only looped magnets are added |
| QuadConversion.ScalingSucceeds | quad_conversion/quad_conversion.py:115-117 | the loop ends without exception exactly when every magnet's step does |
| QuadConversion.ScalingStopsAt | quad_conversion/quad_conversion.py:115-117 | an exception is the first failing magnet's, and the values written before it stay |
| QuadConversion.ScalingExtend | quad_conversion/quad_conversion.py:115-117 | one more magnet takes one more loop step |
| QuadConversion.ScalingRaisedPrefix | quad_conversion/quad_conversion.py:115-117 | once the loop has raised, the remaining magnets are not visited |
| QuadConversion.Gui.constructor | quad_conversion/quad_conversion.py:40-44 | the window starts with empty dictionaries |
| QuadConversion.Gui.LoadDebugFiles | quad_conversion/quad_conversion.py:29-32 | the three example files are loaded in order, succeeding exactly when all three load |
| QuadConversion.Gui.ComputeNewPsValues | quad_conversion/quad_conversion.py:113-120 | with different magnets nothing changes; otherwise the new supply values are the loop over the new lattice's magnets, until the first exception |

## Left out

- Reading the `.mat` file (`scipy.io.loadmat`) is not modelled. `LocoFile.Loco` is the already-loaded content, given as a parameter.
- The struct-field `AttributeError`s of a malformed `ao` family are not modelled, because families are typed records.
- `PrintATRing`, `NameMap.print_name_map` and `getArchiverScalar` are not modelled: they are diagnostics and archiver network access.
- `print` output, including the warning about differing strengths on one supply and the `S1` note, is left out; it does not change any result.
- Strengths are modelled as exact reals, not IEEE doubles. Rounding, NaN (for which `!=` is always true) and infinities are not modelled.
- Strengths.AverageStrength: averages in exact arithmetic; the source's float sum may differ by rounding.
- Python's mixing of `bool` and `int` or `float` in the JSON arithmetic is not modelled; such a value is a `TypeError` here.
- JSON text decoding is not modelled. `QuadConversion.FileContent` says whether the file opens, decodes, and to what value.
- QuadConversion.UpdatePair: a list pair whose key is a number, `true`, `false` or `null` is stored by Python under that key. The model's dictionaries have string keys only, so the load stops there with `NonStringKey`, which is not a Python exception.
- QuadConversion.Loaded: follows `QuadConversion.UpdatePair` for a value file that is a list with such a pair.
- JSON values are compared structurally in `compute_new_PS_values`. So `true` differs from `1`, and objects whose members come in another order differ. Python's `==` treats both pairs as equal.
- The Tk window, tree view, `update_tree_view` (with `caget`), the file dialog `open_json_from_file`, `grid_configure`, and the empty `set_new_PS_values` and `set_ref_PS_values` are not modelled. They are user interface and EPICS channel access.
- `DEBUG` is `True` in the source. Its three loads are `QuadConversion.Gui.LoadDebugFiles`, with the file contents as parameters.
- ExtractTools.MagnetStrength: stores a sextupole's length in metres, the correction of line 152 (Finding 1). The code as written is `ExtractTools.MagnetStrengthAsWritten`, which `ExtractTools.SextRecordAsWritten` states for every sextupole.
- ExtractTools.MagnetStrengthHolds: the read-back holds for the corrected record; as written, a sextupole record reads back no strength (`ExtractTools.SextRecordAsWritten`).
- ExtractTools.SupplyEntryIsRecord: the read-back of the mean holds for the corrected record; as written, a sextupole record reads back no strength.
- ExtractTools.EntriesAreRecords: describes the corrected records; the entries as written are `ExtractTools.EntriesAsWrittenMap`.
- ExtractTools.MagnetStrengths: the corrected listing. The listing as written, `ExtractTools.MagnetStrengthsAsWritten`, replaces every sextupole's length by the table (`ExtractTools.ListingAsWritten`).
- ExtractTools.AtRing.ReadSupply: gives the corrected record of the supply.
- ExtractTools.AtRing.ListSupplies: gives the corrected listing.
- ExtractTools.AtRing.GetMagnetStrength: gives the corrected listing; `ExtractTools.ListingAsWritten` relates it to the code as written.
- Bessy2Tools.MagnetStrength: finds the `QI` quadrupoles under `QI`, the correction of line 132 (Finding 2). As written, each of them is `KeyError('QI')` and every other input agrees (`Bessy2Tools.AsWrittenDiffersOnlyAtQi`).
- Bessy2Tools.MagnetStrengthReadsBack: holds for the corrected table; as written, the `QI` quadrupoles have no record.
- Bessy2Tools.SupplyEntryReadsBack: holds for the corrected table and integer AT indices.
- Bessy2Tools.EntriesAreMeans: describes the listing with the `QI` key and integer AT indices, the corrections of Findings 2 and 3.
- Bessy2Tools.MagnetStrengths: uses the `QI` key and integer AT indices (Findings 2 and 3). As written, a listing with any supply of the type is `IndexError` (`Bessy2Tools.ListingAsWritten`).
- Bessy2Tools.ReadSupply: uses the `QI` key and integer AT indices. As written, the read of the first position raises `IndexError`, and with integer indices a `QI` supply would still be `KeyError('QI')`.
- Bessy2Tools.ListSupplies: uses the `QI` key and integer AT indices, as `Bessy2Tools.MagnetStrengths` does.
- Bessy2Tools.AtRing.GetMagnetStrength: uses the `QI` key and integer AT indices; the code as written is `Bessy2Tools.MagnetStrengthsAsWritten`.
- Bessy2Tools.FloatIndexRead: takes as given that NumPy 1.12 or later refuses a float index with `IndexError`. Older NumPy versions truncated the index, with a deprecation warning.
- LocoFile.IndexMatrix: `ATIndex` entries are integers, so the model assumes the file stores `ATIndex` as an integer array. If MATLAB saved it as doubles, `j` on line 119 (line 112 of the BESSY II copy) is a float. Under NumPy 1.12 or later, `at_indices[j] = j` then raises `IndexError` in both constructors, before any listing.
- In the BESSY II copy, the float `ao_indices` (line 15) are never read, so their type is not modelled.

## Findings

| source | as written | input that shows it | evidently intended | confidence | as-written member | corrected member |
|---|---|---|---|---|---|---|
| extract_quad_values/mmltools.py:152 | the sextupole record stores `length=sext_length`, the whole table of lengths | machine `BESSYII`, supply `S1`, strength 0.42, type `SEXT`: the record's `length` is `{S1: 0.21, S2: 0.16, S3: 0.16, S4: 0.16}` | `length=length`, the 0.21 m just looked up (the quadrupole branch stores its length) | high, not executed | ExtractTools.SextRecordAsWritten | ExtractTools.SextRecord |
| bessy2tools/extract_quad_values/mmltools.py:132 | the BESSY II quadrupole table keys the `QI` length as `PQIT6R`, which a two-character prefix can never match | supply `PQIT6R`, type `QUAD`: it renames to `QIT6`, and `quad_length['QI']` raises `KeyError` | key `QI`, as in the other copy's line 136 | high, not executed | Bessy2Tools.AsWrittenDiffersOnlyAtQi | Bessy2Tools.MagnetStrengthReadsBack |
| bessy2tools/extract_quad_values/mmltools.py:14 | `at_indices = np.zeros(N)` is a float array, and line 171 indexes the ring with `at_indices[0]` | any file with at least one supply of the listed type, given an `ATIndex` stored as integers (a double `ATIndex` already fails in the constructor) and NumPy 1.12 or later: the float index is refused with `IndexError` | `np.zeros(N, dtype=int)`, as in the other copy's line 15 | medium, not executed | Bessy2Tools.ListingAsWritten | Bessy2Tools.EntriesAreMeans |
