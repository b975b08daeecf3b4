/** `extract_records_from_header_table` (src/utils.py:180-231): find the
    first row whose cleaned cells name every template key, then build one
    record per later row from the columns those names sit in, dropping rows
    whose values are all empty. */
module HeaderTable {

  import opened Wrappers
  import opened Strings
  import opened Cells
  import opened Records

  /** The byte-order mark a spreadsheet may leave in front of a header. */
  const Bom: char := '\U{FEFF}'

  /** `clean_header_cell`: the empty text for a missing value, otherwise the
      cell's `str()` text with every byte-order mark removed, then
      stripped. */
  function CleanHeaderCell(c: Cell): (r: string)
    ensures IsTrimmed(r)
    ensures c.Empty? ==> r == ""
  {
    if c.Empty? then "" else Trim(Delete(SafeStr(c), Bom))
  }

  /** A cleaned header never holds a byte-order mark. */
  lemma CleanHeaderCellHasNoBom(c: Cell)
    ensures Bom !in CleanHeaderCell(c)
  {
    if !c.Empty? && Bom in CleanHeaderCell(c) {
      TrimKeeps(Delete(SafeStr(c), Bom), Bom);
    }
  }

  /** Deleting the marks from a text that starts with one mark. */
  lemma DeleteLeadingBom(s: string)
    requires Bom !in s
    ensures Delete([Bom] + s, Bom) == s
  {
    assert ([Bom] + s)[1..] == s;
    DeleteAbsent(s, Bom);
  }

  /** A header written as the key with surrounding whitespace cleans to the
      key. */
  lemma CleanHeaderCellOfKey(a: string, k: string, b: string)
    requires AllSpace(a) && AllSpace(b) && IsTrimmed(k) && Bom !in a + k + b
    ensures CleanHeaderCell(Text(a + k + b)) == k
  {
    DeleteAbsent(a + k + b, Bom);
    TrimPadded(a, k, b);
  }

  /** ... and so does the same header behind a byte-order mark. */
  lemma CleanHeaderCellOfMarkedKey(a: string, k: string, b: string)
    requires AllSpace(a) && AllSpace(b) && IsTrimmed(k) && Bom !in a + k + b
    ensures CleanHeaderCell(Text([Bom] + (a + k + b))) == k
  {
    DeleteLeadingBom(a + k + b);
    TrimPadded(a, k, b);
  }

  /** The cleaned texts of one row. */
  function CleanRow(row: seq<Cell>): (r: seq<string>)
    ensures |r| == |row|
    ensures forall j :: 0 <= j < |row| ==> r[j] == CleanHeaderCell(row[j])
  {
    seq(|row|, j requires 0 <= j < |row| => CleanHeaderCell(row[j]))
  }

  /** The cleaned texts of every row of the sheet. */
  function HeaderLabels(grid: Grid): (r: seq<seq<string>>)
    ensures |r| == |grid|
    ensures forall i :: 0 <= i < |grid| ==> r[i] == CleanRow(grid[i])
  {
    seq(|grid|, i requires 0 <= i < |grid| => CleanRow(grid[i]))
  }

  /** Row `labels` names every key. */
  predicate Covers(labels: seq<string>, keys: set<string>) {
    forall k :: k in keys ==> k in labels
  }

  /** The first row at or after `i` that names every key. */
  function FirstHeaderRow(rows: seq<seq<string>>, keys: set<string>, i: nat): (r: Option<nat>)
    requires i <= |rows|
    ensures r.Some? ==>
      i <= r.value < |rows| && Covers(rows[r.value], keys)
      && forall j :: i <= j < r.value ==> !Covers(rows[j], keys)
    ensures r.None? ==> forall j :: i <= j < |rows| ==> !Covers(rows[j], keys)
    decreases |rows| - i
  {
    if i == |rows| then None
    else if Covers(rows[i], keys) then Some(i)
    else FirstHeaderRow(rows, keys, i + 1)
  }

  /** Each key to the first column naming it: `row_vals.index(key)`. */
  function ColumnMap(labels: seq<string>, keys: set<string>): (m: map<string, nat>)
    requires Covers(labels, keys)
    ensures m.Keys == keys
    ensures forall k :: k in keys ==>
      m[k] < |labels| && labels[m[k]] == k && k !in labels[..m[k]]
  {
    map k | k in keys :: IndexOf(labels, k)
  }

  /** One data row's record: every key to the display text of the cell in
      its column. */
  function RowRecord(row: seq<Cell>, cols: map<string, nat>): (rec: Record)
    requires forall k :: k in cols ==> cols[k] < |row|
    ensures rec.Keys == cols.Keys
  {
    map k | k in cols :: Str(FormatCell(row[cols[k]]))
  }

  /** The filter of the second loop: every value the empty text. */
  predicate IsBlankRecord(rec: Record) {
    forall k :: k in rec ==> rec[k] == Str("")
  }

  /** The records of rows `from` up to the end, in row order, before the
      blank filter. */
  function DataRecords(grid: Grid, from: nat, cols: map<string, nat>): (rs: seq<Record>)
    requires Rectangular(grid) && from <= |grid|
    requires forall k :: k in cols ==> cols[k] < Width(grid)
    ensures |rs| == |grid| - from
  {
    seq(|grid| - from, i requires 0 <= i < |grid| - from =>
      assert |grid[from + i]| == |grid[0]| == Width(grid);
      RowRecord(grid[from + i], cols))
  }

  /** `extract_records_from_header_table` on a sheet already read into a
      grid with no header row of its own. */
  function HeaderRecords(grid: Grid, keys: set<string>): Result<seq<Record>, Error>
    requires Rectangular(grid)
  {
    if keys == {} then Err(EmptyKeySet)
    else
      var labels := HeaderLabels(grid);
      match FirstHeaderRow(labels, keys, 0)
      case None => Err(NoHeaderRow)
      case Some(h) => BelowHeader(grid, keys, h)
  }

  /** The non-blank records of the rows below header row `h`, read through
      the columns that row names, or `NoDataRows` when there are none. */
  function BelowHeader(grid: Grid, keys: set<string>, h: nat): Result<seq<Record>, Error>
    requires Rectangular(grid) && h < |grid| && Covers(HeaderLabels(grid)[h], keys)
  {
    var cols := ColumnMap(HeaderLabels(grid)[h], keys);
    var kept := Kept(DataRecords(grid, h + 1, cols), IsBlankRecord);
    if kept == [] then Err(NoDataRows) else Ok(kept)
  }

  /** The column map of a header row fits inside every row of the sheet. */
  lemma ColumnsFit(grid: Grid, h: nat, keys: set<string>)
    requires Rectangular(grid) && h < |grid| && Covers(HeaderLabels(grid)[h], keys)
    ensures forall k :: k in keys ==> ColumnMap(HeaderLabels(grid)[h], keys)[k] < Width(grid)
  {
  }

  /** The first two errors: no keys, then no row naming every key. */
  lemma HeaderRecordsErrors(grid: Grid, keys: set<string>)
    requires Rectangular(grid)
    ensures keys == {} ==> HeaderRecords(grid, keys) == Err(EmptyKeySet)
    ensures keys != {} ==>
      (HeaderRecords(grid, keys) == Err(NoHeaderRow) <==>
       forall i :: 0 <= i < |grid| ==> !Covers(CleanRow(grid[i]), keys))
  {
    if keys != {} && HeaderRecords(grid, keys) != Err(NoHeaderRow) {
      var labels := HeaderLabels(grid);
      var h := FirstHeaderRow(labels, keys, 0).value;
      assert Covers(CleanRow(grid[h]), keys);
    }
  }

  /** Once a header row is found, `NoDataRows` is raised exactly when every
      row below it reads as a blank record. */
  lemma HeaderRecordsNoData(grid: Grid, keys: set<string>)
    requires Rectangular(grid) && keys != {} && FirstHeaderRow(HeaderLabels(grid), keys, 0).Some?
    ensures var h := FirstHeaderRow(HeaderLabels(grid), keys, 0).value;
      var all := DataRecords(grid, h + 1, ColumnMap(HeaderLabels(grid)[h], keys));
      HeaderRecords(grid, keys) == Err(NoDataRows) <==> forall i :: 0 <= i < |all| ==> IsBlankRecord(all[i])
  {
    var h := FirstHeaderRow(HeaderLabels(grid), keys, 0).value;
    assert HeaderRecords(grid, keys) == BelowHeader(grid, keys, h);
    KeptEmpty(DataRecords(grid, h + 1, ColumnMap(HeaderLabels(grid)[h], keys)), IsBlankRecord);
  }

  /** When the header is the last row there is nothing to extract. */
  lemma HeaderOnLastRow(grid: Grid, keys: set<string>)
    requires Rectangular(grid) && keys != {}
    requires FirstHeaderRow(HeaderLabels(grid), keys, 0) == Some(|grid| - 1)
    ensures HeaderRecords(grid, keys) == Err(NoDataRows)
  {
  }

  /** A successful extraction gives the non-blank records of the rows
      below the header, in row order, and at least one of them; each
      record has exactly the template keys. */
  lemma HeaderRecordsShape(grid: Grid, keys: set<string>)
    requires Rectangular(grid) && HeaderRecords(grid, keys).Ok?
    ensures var h := FirstHeaderRow(HeaderLabels(grid), keys, 0);
      h.Some? &&
      var cols := ColumnMap(HeaderLabels(grid)[h.value], keys);
      var ps := HeaderRecords(grid, keys).value;
      && ps == Kept(DataRecords(grid, h.value + 1, cols), IsBlankRecord)
      && ps != []
      && forall p :: p in ps ==> p.Keys == keys && !IsBlankRecord(p) && p in DataRecords(grid, h.value + 1, cols)
  {
    var h := FirstHeaderRow(HeaderLabels(grid), keys, 0).value;
    assert HeaderRecords(grid, keys) == BelowHeader(grid, keys, h);
    BelowHeaderShape(grid, keys, h);
  }

  /** The records below a header row are the non-blank data records of
      the rows below it, in row order, over exactly the keys. */
  lemma BelowHeaderShape(grid: Grid, keys: set<string>, h: nat)
    requires Rectangular(grid) && h < |grid| && Covers(HeaderLabels(grid)[h], keys)
    requires BelowHeader(grid, keys, h).Ok?
    ensures var cols := ColumnMap(HeaderLabels(grid)[h], keys);
      var ps := BelowHeader(grid, keys, h).value;
      && ps == Kept(DataRecords(grid, h + 1, cols), IsBlankRecord)
      && ps != []
      && forall p :: p in ps ==> p.Keys == keys && !IsBlankRecord(p) && p in DataRecords(grid, h + 1, cols)
  {
    var cols := ColumnMap(HeaderLabels(grid)[h], keys);
    var all := DataRecords(grid, h + 1, cols);
    var ps := BelowHeader(grid, keys, h).value;
    assert ps == Kept(all, IsBlankRecord);
    forall p | p in ps
      ensures p.Keys == keys && !IsBlankRecord(p) && p in all
    {
      var i :| 0 <= i < |ps| && ps[i] == p;
      DataRecordKeys(grid, h + 1, cols, p);
    }
  }

  /** Every record of the data rows has the column map's keys. */
  lemma DataRecordKeys(grid: Grid, from: nat, cols: map<string, nat>, p: Record)
    requires Rectangular(grid) && from <= |grid|
    requires forall k :: k in cols ==> cols[k] < Width(grid)
    requires p in DataRecords(grid, from, cols)
    ensures p.Keys == cols.Keys
  {
    DataRecordRow(grid, from, cols, p);
  }

  /** A record of the data rows is the record of one row below the header. */
  lemma DataRecordRow(grid: Grid, from: nat, cols: map<string, nat>, p: Record)
    requires Rectangular(grid) && from <= |grid|
    requires forall k :: k in cols ==> cols[k] < Width(grid)
    requires p in DataRecords(grid, from, cols)
    ensures exists i :: from <= i < |grid| && p == RowRecord(grid[i], cols)
  {
    var rs := DataRecords(grid, from, cols);
    var j :| 0 <= j < |rs| && rs[j] == p;
    assert p == RowRecord(grid[from + j], cols);
  }

  /** The inner loop for one row: walk the keys in any order, recording
      each key's first column, and give up at the first key the row does
      not name. */
  method MatchHeader(labels: seq<string>, keys: set<string>) returns (ok: bool, mapping: map<string, nat>)
    ensures ok == Covers(labels, keys)
    ensures ok ==> mapping == ColumnMap(labels, keys)
  {
    var remaining := keys;
    mapping := map[];
    ok := true;
    while remaining != {}
      invariant remaining <= keys
      invariant ok
      invariant Covers(labels, keys - remaining)
      invariant mapping == ColumnMap(labels, keys - remaining)
      decreases remaining
    {
      var k :| k in remaining;
      if k !in labels {
        ok := false;
        return;
      }
      mapping := mapping[k := IndexOf(labels, k)];
      remaining := remaining - {k};
    }
    assert keys - remaining == keys;
  }

  /** The outer loop: the first row that names every key, and its column
      map. */
  method FindHeaderRow(rows: seq<seq<string>>, keys: set<string>)
    returns (h: Option<nat>, mapping: map<string, nat>)
    ensures h == FirstHeaderRow(rows, keys, 0)
    ensures h.Some? ==> mapping == ColumnMap(rows[h.value], keys)
  {
    var i := 0;
    while i < |rows|
      invariant 0 <= i <= |rows|
      invariant FirstHeaderRow(rows, keys, 0) == FirstHeaderRow(rows, keys, i)
    {
      var ok, m := MatchHeader(rows[i], keys);
      if ok {
        return Some(i), m;
      }
      i := i + 1;
    }
    return None, map[];
  }

  /** The second loop: one record per row from `from` on, blank ones
      skipped. */
  method CollectRecords(grid: Grid, from: nat, cols: map<string, nat>) returns (records: seq<Record>)
    requires Rectangular(grid) && from <= |grid|
    requires forall k :: k in cols ==> cols[k] < Width(grid)
    ensures records == Kept(DataRecords(grid, from, cols), IsBlankRecord)
  {
    records := [];
    var i := from;
    while i < |grid|
      invariant from <= i <= |grid|
      invariant records == Kept(DataRecords(grid, from, cols)[..i - from], IsBlankRecord)
    {
      var rec := RowRecord(grid[i], cols);
      ghost var all := DataRecords(grid, from, cols);
      assert all[..i + 1 - from] == all[..i - from] + [rec];
      KeptSnoc(all[..i - from], rec, IsBlankRecord);
      if !IsBlankRecord(rec) {
        records := records + [rec];
      }
      i := i + 1;
    }
    assert DataRecords(grid, from, cols)[..i - from] == DataRecords(grid, from, cols);
  }

  /** `extract_records_from_header_table` after the sheet is read. */
  method ExtractHeaderRecords(grid: Grid, keys: set<string>) returns (r: Result<seq<Record>, Error>)
    requires Rectangular(grid)
    ensures r == HeaderRecords(grid, keys)
  {
    if keys == {} {
      return Err(EmptyKeySet);
    }
    var labels := HeaderLabels(grid);
    var h, cols := FindHeaderRow(labels, keys);
    if h.None? {
      return Err(NoHeaderRow);
    }
    var header := h.value;
    ColumnsFit(grid, header, keys);
    var records := CollectRecords(grid, header + 1, cols);
    assert HeaderRecords(grid, keys) == BelowHeader(grid, keys, header);
    r := if records == [] then Err(NoDataRows) else Ok(records);
  }
}
