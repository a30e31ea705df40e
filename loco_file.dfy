/** The LOCO `.mat` file as the tools see it after loading: the accelerator-object
    families (`ao`), the accelerator data (`ad`) and the AT ring snapshots (`RINGs`),
    one per fit iteration. */
module LocoFile {
  import opened Outcomes

  /** One AT lattice element: its family name and the strength fields it may carry. */
  datatype Element = Element(famName: string, k: Option<real>, polynomB: Option<seq<real>>)

  type Ring = seq<Element>

  /** An `ATIndex` matrix, `rows` by `|columns|`, kept column by column:
      `columns[c][r]` is the entry at row `r`, column `c`. Entries are 1-based ring positions. */
  datatype IndexMatrix = IndexMatrix(rows: nat, columns: seq<seq<int>>)

  predicate Shaped(m: IndexMatrix) {
    forall c :: 0 <= c < |m.columns| ==> |m.columns[c]| == m.rows
  }

  type Matrix = m: IndexMatrix | Shaped(m) witness IndexMatrix(0, [])

  /** One `ao` family: `AT.ATIndex`, `AT.ATType`, `CommonNames` and `Monitor.ChannelNames`. */
  datatype Family = Family(
    name: string,
    atIndex: Matrix,
    atType: string,
    commonNames: seq<string>,
    channelNames: seq<string>)

  /** The loaded file: the `ao` families in field order, the `ad` fields by name and
      the ring snapshots. */
  datatype Loco = Loco(ao: seq<Family>, ad: map<string, string>, rings: seq<Ring>)
}
