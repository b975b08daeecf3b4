/** What both extractors produce and the renderer consumes: a sheet as a
    grid of cells, a record as a map from placeholder name to value, the
    errors the pipeline raises, and the blank-record filter both extractors
    apply. */
module Records {

  import opened Cells

  /** A sheet as the reader presents it: rows of cells, all rows equally
      wide. */
  type Grid = seq<seq<Cell>>

  predicate Rectangular(g: Grid) {
    forall i :: 0 <= i < |g| ==> |g[i]| == |g[0]|
  }

  function Width(g: Grid): nat {
    if g == [] then 0 else |g[0]|
  }

  /** A record value: text, a parsed amount (`int`), or a raw cell passed
      through unconverted. */
  datatype Value = Str(s: string) | Num(n: int) | Raw(cell: Cell)

  type Record = map<string, Value>

  /** The exceptions the pipeline raises, one constructor per raise site. */
  datatype Error =
    | ExcelNotFound                 // FileNotFoundError for the workbook
    | TemplateNotFound              // FileNotFoundError for the template
    | NoTemplateKeys                // template declares no placeholder
    | EmptyRecords                  // nothing to render
    | TableRegionNotFound           // sentinels missing or span empty
    | NoBidPackages                 // fixed layout gave no record
    | MissingNumToWords             // the number-to-words library is absent
    | IndexOutOfRange               // a fixed cell lies outside the sheet
    | EmptyKeySet                   // header matching without keys
    | NoHeaderRow                   // no row names every key
    | NoDataRows                    // nothing below the header row
    | UnsupportedDocType(docType: string)
    | SheetNotFound(name: string)   // the workbook has no such sheet
    | NotADataFrame                 // a dict of all sheets where one was expected

  /** Which reading of the source a model member follows where the code
      departs from what it evidently means: the code as written, or the
      corrected behaviour. */
  datatype Variant = AsWritten | Intended

  /** The records of `rs` that `blank` does not reject, in their order: the
      `if all(...): continue` filter of both extractors. */
  function Kept(rs: seq<Record>, blank: Record -> bool): (r: seq<Record>)
    ensures |r| <= |rs|
    ensures forall i :: 0 <= i < |r| ==> r[i] in rs && !blank(r[i])
  {
    if rs == [] then []
    else (if blank(rs[0]) then [] else [rs[0]]) + Kept(rs[1..], blank)
  }

  /** Filtering one more record appends it when it is not blank: the step
      each extractor's loop takes. */
  lemma {:induction false} KeptSnoc(rs: seq<Record>, x: Record, blank: Record -> bool)
    ensures Kept(rs + [x], blank) == Kept(rs, blank) + (if blank(x) then [] else [x])
  {
    if rs == [] {
      assert rs + [x] == [x];
      assert [x][1..] == [];
    } else {
      assert (rs + [x])[0] == rs[0];
      assert (rs + [x])[1..] == rs[1..] + [x];
      KeptSnoc(rs[1..], x, blank);
    }
  }

  /** Nothing survives the filter exactly when every record is blank. */
  lemma {:induction false} KeptEmpty(rs: seq<Record>, blank: Record -> bool)
    ensures Kept(rs, blank) == [] <==> forall i :: 0 <= i < |rs| ==> blank(rs[i])
  {
    if rs != [] {
      KeptEmpty(rs[1..], blank);
      assert forall i :: 1 <= i < |rs| ==> rs[i] == rs[1..][i - 1];
    }
  }

  /** The filter on a single record. */
  lemma KeptOne(x: Record, blank: Record -> bool)
    ensures Kept([x], blank) == if blank(x) then [] else [x]
  {
    assert [x][1..] == [];
  }

  /** A list without blank records passes the filter whole. */
  lemma {:induction false} KeptNoBlank(rs: seq<Record>, blank: Record -> bool)
    requires forall i :: 0 <= i < |rs| ==> !blank(rs[i])
    ensures Kept(rs, blank) == rs
  {
    if rs != [] {
      assert forall i :: 0 <= i < |rs[1..]| ==> rs[1..][i] == rs[i + 1];
      KeptNoBlank(rs[1..], blank);
      assert rs == [rs[0]] + rs[1..];
    }
  }
}
