/** The fixed-layout extractor for the bid-package plan sheet
    (src/utils.py:72-169): a scan of column 0 for the two sentinel rows,
    document-level fields read from fixed cells above the table, three
    auxiliary columns dropped, and one 19-key record per table row. */
module BidPlan {

  import opened Wrappers
  import opened Strings
  import opened Cells
  import opened Fields
  import opened Records

  /** The label two rows above the first data row. */
  const StartLabel: string := "STT"
  /** The label of the row just after the last data row. */
  const EndLabel: string := "Tổng giá gói thầu"

  /** Column-0 text as the scan compares it: `_safe_str(cell).strip()`. */
  function RowLabel(c: Cell): string {
    Trim(SafeStr(c))
  }

  /** The last index of `labels` holding `want`, if any. */
  function LastRow(labels: seq<string>, want: string): (r: Option<nat>)
    ensures r.Some? ==> r.value < |labels| && labels[r.value] == want
    ensures r.Some? ==> forall j :: r.value < j < |labels| ==> labels[j] != want
    ensures r.None? ==> want !in labels
  {
    if labels == [] then None
    else if labels[|labels| - 1] == want then Some(|labels| - 1)
    else LastRow(labels[..|labels| - 1], want)
  }

  /** The labels of column 0, row by row. */
  function Labels(col: seq<Cell>): (r: seq<string>)
    ensures |r| == |col|
  {
    if col == [] then [] else Labels(col[..|col| - 1]) + [RowLabel(col[|col| - 1])]
  }

  lemma {:induction false} LabelsAt(col: seq<Cell>, i: nat)
    requires i < |col|
    ensures Labels(col)[i] == RowLabel(col[i])
    decreases |col|
  {
    if i < |col| - 1 {
      LabelsAt(col[..|col| - 1], i);
    }
  }

  lemma LabelsSnoc(col: seq<Cell>, i: nat)
    requires i < |col|
    ensures Labels(col[..i + 1]) == Labels(col[..i]) + [RowLabel(col[i])]
  {
    assert col[..i + 1][..i] == col[..i];
  }

  /** Scanning one more row: the last match is that row when it matches,
      the earlier last match otherwise. */
  lemma LastRowSnoc(labels: seq<string>, x: string, want: string)
    ensures LastRow(labels + [x], want) == if x == want then Some(|labels|) else LastRow(labels, want)
  {
    assert (labels + [x])[..|labels|] == labels;
  }

  /** The half-open data span `[start, end)` for column-0 labels `labels`:
      `start` two rows below the last `STT` row, `end` the last total row;
      an error when either is missing or the span is empty. */
  function TableSpan(labels: seq<string>): (r: Result<(nat, nat), Error>)
    ensures r.Ok? ==> 2 <= r.value.0 < r.value.1 < |labels|
  {
    match (LastRow(labels, StartLabel), LastRow(labels, EndLabel))
    case (Some(s), Some(e)) => if s + 2 < e then Ok((s + 2, e)) else Err(TableRegionNotFound)
    case _ => Err(TableRegionNotFound)
  }

  /** A found span is non-empty, inside the column, starts two rows below a
      `STT` row, ends at a total row, and no later row carries either
      label. */
  lemma TableSpanFound(labels: seq<string>)
    requires TableSpan(labels).Ok?
    ensures var (start, end) := TableSpan(labels).value;
      && 2 <= start < end < |labels|
      && labels[start - 2] == StartLabel && labels[end] == EndLabel
      && (forall j :: start - 2 < j < |labels| ==> labels[j] != StartLabel)
      && (forall j :: end < j < |labels| ==> labels[j] != EndLabel)
  {
  }

  /** The scan fails exactly when a sentinel is missing or the last `STT`
      row is not at least three rows above the last total row. */
  lemma TableSpanFails(labels: seq<string>)
    ensures TableSpan(labels).Err? <==>
      || StartLabel !in labels
      || EndLabel !in labels
      || LastRow(labels, StartLabel).value + 2 >= LastRow(labels, EndLabel).value
  {
  }

  /** A sheet with `STT` at row 5 and the total at row 12, and neither label
      below those, has its data in rows 7 to 11. */
  lemma TableSpanExample(labels: seq<string>)
    requires |labels| > 12
    requires labels[5] == StartLabel && labels[12] == EndLabel
    requires forall j :: 5 < j < |labels| ==> labels[j] != StartLabel
    requires forall j :: 12 < j < |labels| ==> labels[j] != EndLabel
    ensures TableSpan(labels) == Ok((7, 12))
  {
    var s := LastRow(labels, StartLabel);
    var e := LastRow(labels, EndLabel);
    assert s == Some(5) by {
      assert s.Some?;
      assert s.value <= 5 && s.value >= 5;
    }
    assert e == Some(12) by {
      assert e.Some?;
      assert e.value <= 12 && e.value >= 12;
    }
  }

  /** The first data row for a header row, if there is one. */
  function PlusTwo(o: Option<nat>): Option<nat> {
    if o.Some? then Some(o.value + 2) else None
  }

  /** What the scan's two variables say once every label is seen. */
  lemma ScanResult(labels: seq<string>, start: Option<nat>, end: Option<nat>)
    requires start == PlusTwo(LastRow(labels, StartLabel))
    requires end == LastRow(labels, EndLabel)
    ensures TableSpan(labels) ==
      if start.None? || end.None? || start.value >= end.value then Err(TableRegionNotFound)
      else Ok((start.value, end.value))
  {
  }

  /** `get_list_so_luong_goi_thau`: one pass over the labels of column 0
      that overwrites `start` at every `STT` row and `end` at every total
      row. */
  method ScanLabels(labels: seq<string>) returns (r: Result<(nat, nat), Error>)
    ensures r == TableSpan(labels)
  {
    var start: Option<nat> := None;
    var end: Option<nat> := None;
    var i := 0;
    while i < |labels|
      invariant 0 <= i <= |labels|
      invariant start == PlusTwo(LastRow(labels[..i], StartLabel))
      invariant end == LastRow(labels[..i], EndLabel)
    {
      assert labels[..i + 1] == labels[..i] + [labels[i]];
      LastRowSnoc(labels[..i], labels[i], StartLabel);
      LastRowSnoc(labels[..i], labels[i], EndLabel);
      var cell := labels[i];
      if cell == StartLabel {
        start := Some(i + 2);
      }
      if cell == EndLabel {
        end := Some(i);
      }
      i := i + 1;
    }
    assert labels[..i] == labels;
    ScanResult(labels, start, end);
    if start.None? || end.None? || start.value >= end.value {
      return Err(TableRegionNotFound);
    }
    return Ok((start.value, end.value));
  }

  /** The scan applied to a column: each cell's label, then the scan. */
  method FindTableSpan(col: seq<Cell>) returns (r: Result<(nat, nat), Error>)
    ensures r == TableSpan(Labels(col))
  {
    var labels := Labels(col);
    r := ScanLabels(labels);
  }

  /** Column `j` of every row. */
  function Column(g: Grid, j: nat): (c: seq<Cell>)
    requires Rectangular(g) && j < Width(g)
    ensures |c| == |g|
    ensures forall i :: 0 <= i < |g| ==> c[i] == g[i][j]
  {
    seq(|g|, i requires 0 <= i < |g| => g[i][j])
  }

  /** The auxiliary columns: row number, investor and funding source. */
  const AuxColumns: seq<nat> := [0, 1, 5]

  /** The entries of `s` below `w`, in order. */
  function Below(s: seq<nat>, w: nat): (r: seq<nat>)
    ensures forall p :: p in r <==> p in s && p < w
  {
    if s == [] then []
    else
      assert forall p :: p in s <==> p == s[0] || p in s[1..];
      (if s[0] < w then [s[0]] else []) + Below(s[1..], w)
  }

  lemma {:induction false} BelowSnoc(s: seq<nat>, x: nat, w: nat)
    ensures Below(s + [x], w) == Below(s, w) + (if x < w then [x] else [])
  {
    if s == [] {
      assert [x][1..] == [];
    } else {
      assert (s + [x])[1..] == s[1..] + [x];
      BelowSnoc(s[1..], x, w);
    }
  }

  /** The columns `drop_cols` names for a table `w` columns wide. */
  function DropPositions(w: nat): seq<nat> {
    Below(AuxColumns, w)
  }

  /** The `drop_cols` loop: each auxiliary column the table has. */
  method DropList(w: nat) returns (drop: seq<nat>)
    ensures drop == DropPositions(w)
    ensures forall p :: p in drop <==> (p == 0 || p == 1 || p == 5) && p < w
  {
    drop := [];
    var k := 0;
    while k < |AuxColumns|
      invariant 0 <= k <= |AuxColumns|
      invariant drop == Below(AuxColumns[..k], w)
    {
      assert AuxColumns[..k + 1] == AuxColumns[..k] + [AuxColumns[k]];
      BelowSnoc(AuxColumns[..k], AuxColumns[k], w);
      var pos := AuxColumns[k];
      if pos < w {
        drop := drop + [pos];
      }
      k := k + 1;
    }
    assert AuxColumns[..k] == AuxColumns;
  }

  /** The column positions below `w` that `drop` does not name, in order. */
  function Remaining(w: nat, drop: seq<nat>): (r: seq<nat>)
    ensures |r| <= w
    ensures forall j :: 0 <= j < |r| ==> r[j] < w
  {
    if w == 0 then [] else Remaining(w - 1, drop) + (if w - 1 in drop then [] else [w - 1])
  }

  /** `table.drop(columns=drop_cols)` applied to one row. */
  function DropColumns(row: seq<Cell>, drop: seq<nat>): seq<Cell> {
    var kept := Remaining(|row|, drop);
    seq(|kept|, j requires 0 <= j < |kept| => row[kept[j]])
  }

  /** Where column `j` of the reduced table comes from, once the table has
      all three auxiliary columns: 0, 1 and 2 are source columns 2, 3 and 4,
      and every later one sits three places further right. */
  function SourceColumn(j: nat): nat {
    if j < 3 then j + 2 else j + 3
  }

  lemma {:induction false} RemainingWide(w: nat)
    requires w >= 6
    ensures var r := Remaining(w, DropPositions(w));
      |r| == w - 3 && forall j :: 0 <= j < w - 3 ==> r[j] == SourceColumn(j)
  {
    var drop := DropPositions(w);
    assert forall p :: p in drop <==> p == 0 || p == 1 || p == 5;
    RemainingSame(w, drop);
  }

  lemma {:induction false} RemainingSame(w: nat, drop: seq<nat>)
    requires w >= 6
    requires forall p :: p in drop <==> p == 0 || p == 1 || p == 5
    ensures var r := Remaining(w, drop);
      |r| == w - 3 && forall j :: 0 <= j < w - 3 ==> r[j] == SourceColumn(j)
  {
    if w == 6 {
      assert 0 in drop && 1 in drop && 5 in drop;
      assert 2 !in drop && 3 !in drop && 4 !in drop;
      assert Remaining(0, drop) == [];
      assert Remaining(1, drop) == [];
      assert Remaining(2, drop) == [];
      assert Remaining(3, drop) == [2];
      assert Remaining(4, drop) == [2, 3];
      assert Remaining(5, drop) == [2, 3, 4];
      assert Remaining(6, drop) == [2, 3, 4];
    } else {
      RemainingSame(w - 1, drop);
      assert w - 1 !in drop;
    }
  }

  /** Dropping the auxiliary columns of a table at least six wide leaves
      `w - 3` columns, column `j` holding source column `SourceColumn(j)`. */
  lemma DropColumnsWide(row: seq<Cell>)
    requires |row| >= 6
    ensures var d := DropColumns(row, DropPositions(|row|));
      |d| == |row| - 3 && forall j :: 0 <= j < |d| ==> d[j] == row[SourceColumn(j)]
  {
    RemainingWide(|row|);
  }

  /** The five document-level fields, read once per sheet. */
  datatype DocFields = DocFields(
    projectName: string,   // ten_du_an
    resolution: string,    // nghi_quyet_du_an
    planTitle: string,     // ke_hoach_lua_chon_nha_thau
    investor: string,      // ten_chu_dau_tu
    fundingSource: string) // nguon_von

  /** The fourteen row-level fields of one bid package. */
  datatype Package = Package(
    doc: DocFields,
    number: string,          // so_goi_thau
    name: string,            // ten_goi_thau
    summary: string,         // tom_tat_cong_viec
    amount: Value,           // gia_goi_thau
    amountInWords: string,   // gia_goi_thau_bang_chu
    selectionForm: string,   // hinh_thuc_lua_chon_nha_thau
    selectionMethod: string, // phuong_thuc_lua_chon_nha_thau
    selectionTime: string,   // thoi_gian_to_chuc_lua_chon_nha_thau
    selectionStart: string,  // thoi_gian_bat_dau_to_chuc_lua_chon_nha_thau
    contractType: string,    // loai_hop_dong
    duration: string,        // thoi_gian_thuc_hien_goi_thau
    purchaseOption: string,  // tuy_chon_mua_them
    supervision: string,     // giam_sat_hoat_dong_dau_thau
    winner: string)          // nha_thau_trung_thau

  const DocKeys: set<string> :=
    {"ten_du_an", "ke_hoach_lua_chon_nha_thau", "ten_chu_dau_tu", "nghi_quyet_du_an", "nguon_von"}

  const PackageKeys: set<string> :=
    {"so_goi_thau", "ten_goi_thau", "tom_tat_cong_viec", "gia_goi_thau", "gia_goi_thau_bang_chu",
     "hinh_thuc_lua_chon_nha_thau", "phuong_thuc_lua_chon_nha_thau",
     "thoi_gian_to_chuc_lua_chon_nha_thau", "thoi_gian_bat_dau_to_chuc_lua_chon_nha_thau",
     "loai_hop_dong", "thoi_gian_thuc_hien_goi_thau", "tuy_chon_mua_them",
     "giam_sat_hoat_dong_dau_thau", "nha_thau_trung_thau"}

  /** The 19 placeholder names a bid-package record fills. */
  const BidKeys: set<string> :=
    {"ten_du_an", "ke_hoach_lua_chon_nha_thau", "ten_chu_dau_tu", "nghi_quyet_du_an", "nguon_von",
     "so_goi_thau", "ten_goi_thau", "tom_tat_cong_viec", "gia_goi_thau", "gia_goi_thau_bang_chu",
     "hinh_thuc_lua_chon_nha_thau", "phuong_thuc_lua_chon_nha_thau",
     "thoi_gian_to_chuc_lua_chon_nha_thau", "thoi_gian_bat_dau_to_chuc_lua_chon_nha_thau",
     "loai_hop_dong", "thoi_gian_thuc_hien_goi_thau", "tuy_chon_mua_them",
     "giam_sat_hoat_dong_dau_thau", "nha_thau_trung_thau"}

  /** The value a package gives placeholder `key`. */
  function Field(p: Package, key: string): Value {
    match key
    case "ten_du_an" => Str(p.doc.projectName)
    case "ke_hoach_lua_chon_nha_thau" => Str(p.doc.planTitle)
    case "ten_chu_dau_tu" => Str(p.doc.investor)
    case "nghi_quyet_du_an" => Str(p.doc.resolution)
    case "nguon_von" => Str(p.doc.fundingSource)
    case "so_goi_thau" => Str(p.number)
    case "ten_goi_thau" => Str(p.name)
    case "tom_tat_cong_viec" => Str(p.summary)
    case "gia_goi_thau" => p.amount
    case "gia_goi_thau_bang_chu" => Str(p.amountInWords)
    case "hinh_thuc_lua_chon_nha_thau" => Str(p.selectionForm)
    case "phuong_thuc_lua_chon_nha_thau" => Str(p.selectionMethod)
    case "thoi_gian_to_chuc_lua_chon_nha_thau" => Str(p.selectionTime)
    case "thoi_gian_bat_dau_to_chuc_lua_chon_nha_thau" => Str(p.selectionStart)
    case "loai_hop_dong" => Str(p.contractType)
    case "thoi_gian_thuc_hien_goi_thau" => Str(p.duration)
    case "tuy_chon_mua_them" => Str(p.purchaseOption)
    case "giam_sat_hoat_dong_dau_thau" => Str(p.supervision)
    case _ => Str(p.winner)
  }

  /** The `goi_thau` dictionary. */
  function ToRecord(p: Package): (rec: Record)
    ensures rec.Keys == BidKeys
  {
    map key | key in BidKeys :: Field(p, key)
  }

  /** The record holds the sheet's five document-level values under their
      own names. */
  lemma RecordDocFields(p: Package)
    ensures var rec := ToRecord(p);
      && rec["ten_du_an"] == Str(p.doc.projectName)
      && rec["ke_hoach_lua_chon_nha_thau"] == Str(p.doc.planTitle)
      && rec["ten_chu_dau_tu"] == Str(p.doc.investor)
      && rec["nghi_quyet_du_an"] == Str(p.doc.resolution)
      && rec["nguon_von"] == Str(p.doc.fundingSource)
  {
  }

  /** The record holds the package's number, name, summary and amount
      fields under their own names. */
  lemma RecordHeadFields(p: Package)
    ensures var rec := ToRecord(p);
      && rec["so_goi_thau"] == Str(p.number)
      && rec["ten_goi_thau"] == Str(p.name)
      && rec["tom_tat_cong_viec"] == Str(p.summary)
      && rec["gia_goi_thau"] == p.amount
      && rec["gia_goi_thau_bang_chu"] == Str(p.amountInWords)
  {
  }

  /** The record holds the package's procedure and contract fields under
      their own names. */
  lemma RecordTailFields(p: Package)
    ensures var rec := ToRecord(p);
      && rec["hinh_thuc_lua_chon_nha_thau"] == Str(p.selectionForm)
      && rec["phuong_thuc_lua_chon_nha_thau"] == Str(p.selectionMethod)
      && rec["thoi_gian_to_chuc_lua_chon_nha_thau"] == Str(p.selectionTime)
      && rec["thoi_gian_bat_dau_to_chuc_lua_chon_nha_thau"] == Str(p.selectionStart)
      && rec["loai_hop_dong"] == Str(p.contractType)
      && rec["thoi_gian_thuc_hien_goi_thau"] == Str(p.duration)
      && rec["tuy_chon_mua_them"] == Str(p.purchaseOption)
      && rec["giam_sat_hoat_dong_dau_thau"] == Str(p.supervision)
      && rec["nha_thau_trung_thau"] == Str(p.winner)
  {
  }

  /** The currency word appended to an amount in words. */
  const Currency: string := " đồng"

  /** One bid package from one reduced row, or the error the row raises:
      too few columns for the first three fields, the missing
      number-to-words library when an amount parsed, or too few columns for
      the rest. `words` is the number-to-words conversion, capitalisation
      included; `None` when the library is absent. */
  function ReadPackage(doc: DocFields, row: seq<Cell>, words: Option<int -> string>): Result<Package, Error> {
    if |row| < 3 then Err(IndexOutOfRange)
    else
      var amount := ParseMoney(row[2]);
      if amount.Some? && words.None? then Err(MissingNumToWords)
      else if |row| < 11 then Err(IndexOutOfRange)
      else
        var (number, name) := SplitPackageLabel(SafeStr(row[0]));
        Ok(Package(
          doc, number, name, WorkSummary(row[1]),
          if amount.Some? then Num(amount.value) else Raw(row[2]),
          if amount.Some? then words.value(amount.value) + Currency else "",
          OneLine(row[3]), OneLine(row[4]),
          FormatCell(row[5]), FormatCell(row[6]),
          Trim(SafeStr(row[7])), DurationText(SafeStr(row[8])),
          Trim(SafeStr(row[9])), Trim(SafeStr(row[10])),
          if |row| > 11 then Trim(SafeStr(row[11])) else ""))
  }

  /** The record of one reduced row. */
  function PackageRecord(doc: DocFields, row: seq<Cell>, words: Option<int -> string>): Result<Record, Error> {
    match ReadPackage(doc, row, words)
    case Ok(p) => Ok(ToRecord(p))
    case Err(e) => Err(e)
  }

  /** Every record has exactly the 19 keys, and its five document-level
      values are the sheet's. */
  lemma PackageRecordShape(doc: DocFields, row: seq<Cell>, words: Option<int -> string>)
    requires PackageRecord(doc, row, words).Ok?
    ensures var rec := PackageRecord(doc, row, words).value;
      && rec.Keys == BidKeys
      && rec["ten_du_an"] == Str(doc.projectName)
      && rec["nghi_quyet_du_an"] == Str(doc.resolution)
      && rec["ke_hoach_lua_chon_nha_thau"] == Str(doc.planTitle)
      && rec["ten_chu_dau_tu"] == Str(doc.investor)
      && rec["nguon_von"] == Str(doc.fundingSource)
  {
    var p := ReadPackage(doc, row, words).value;
    assert p.doc == doc;
    RecordDocFields(p);
  }

  /** The amount fields: a parsed amount `n` is stored as `n` and written
      out as `words(n)` plus the currency word; an unparsed cell is stored
      raw and gets no words. */
  lemma PackageRecordAmount(doc: DocFields, row: seq<Cell>, words: Option<int -> string>)
    requires PackageRecord(doc, row, words).Ok?
    ensures var rec := PackageRecord(doc, row, words).value;
      match ParseMoney(row[2])
      case Some(n) =>
        words.Some? && rec["gia_goi_thau"] == Num(n)
        && rec["gia_goi_thau_bang_chu"] == Str(words.value(n) + Currency)
      case None =>
        rec["gia_goi_thau"] == Raw(row[2]) && rec["gia_goi_thau_bang_chu"] == Str("")
  {
    RecordHeadFields(ReadPackage(doc, row, words).value);
  }

  /** The package number and name are the two halves of column 0's
      `number: name` text, and the later text fields are single-line and
      trimmed. */
  lemma PackageRecordText(doc: DocFields, row: seq<Cell>, words: Option<int -> string>)
    requires ReadPackage(doc, row, words).Ok?
    ensures var p := ReadPackage(doc, row, words).value;
      && (p.number, p.name) == SplitPackageLabel(SafeStr(row[0]))
      && ':' !in p.number && IsTrimmed(p.name)
      && '\n' !in p.selectionForm && '\n' !in p.selectionMethod
      && IsTrimmed(p.summary) && IsTrimmed(p.contractType) && ';' !in p.duration
      && (|row| <= 11 ==> p.winner == "")
  {
  }

  /** The row errors: fewer than three columns, then a parsed amount with
      no number-to-words library, then fewer than eleven columns. */
  lemma PackageRecordErrors(doc: DocFields, row: seq<Cell>, words: Option<int -> string>)
    ensures |row| < 3 ==> PackageRecord(doc, row, words) == Err(IndexOutOfRange)
    ensures |row| >= 3 && ParseMoney(row[2]).Some? && words.None? ==>
      PackageRecord(doc, row, words) == Err(MissingNumToWords)
    ensures |row| >= 3 && (ParseMoney(row[2]).None? || words.Some?) ==>
      (PackageRecord(doc, row, words).Ok? <==> |row| >= 11)
  {
  }

  /** A value the corrected blank-row test treats as empty: the empty text,
      or a raw cell that is missing or holds the empty text. */
  predicate IsBlankValue(v: Value) {
    v == Str("") || v == Raw(Empty) || v == Raw(Text(""))
  }

  /** The blank-row test as the model applies it: every value empty. */
  predicate IsBlankPackage(rec: Record) {
    forall k :: k in rec ==> IsBlankValue(rec[k])
  }

  /** The blank-row test as written: `v == "" or v is None`. A raw cell
      holding NaN (a missing value) satisfies neither. */
  predicate IsBlankAsWritten(rec: Record) {
    forall k :: k in rec ==> rec[k] == Str("") || rec[k] == Raw(Text(""))
  }

  /** The blank-row test of each variant. */
  function BlankTest(v: Variant): Record -> bool {
    if v.AsWritten? then IsBlankAsWritten else IsBlankPackage
  }

  /** Every field of the package is empty. */
  predicate PackageIsBlank(p: Package) {
    && p.doc == DocFields("", "", "", "", "")
    && p.number == "" && p.name == "" && p.summary == ""
    && IsBlankValue(p.amount) && p.amountInWords == ""
    && p.selectionForm == "" && p.selectionMethod == "" && p.selectionTime == ""
    && p.selectionStart == "" && p.contractType == "" && p.duration == ""
    && p.purchaseOption == "" && p.supervision == "" && p.winner == ""
  }

  /** A blank record comes from a package whose five document-level
      fields are empty. */
  lemma BlankRecordDocFields(p: Package)
    requires IsBlankPackage(ToRecord(p))
    ensures p.doc == DocFields("", "", "", "", "")
  {
    RecordDocFields(p);
    var rec := ToRecord(p);
    assert "ten_du_an" in rec && "ke_hoach_lua_chon_nha_thau" in rec && "ten_chu_dau_tu" in rec;
    assert "nghi_quyet_du_an" in rec && "nguon_von" in rec;
  }

  /** ... and whose number, name, summary and amount fields are empty. */
  lemma BlankRecordHeadFields(p: Package)
    requires IsBlankPackage(ToRecord(p))
    ensures p.number == "" && p.name == "" && p.summary == ""
    ensures IsBlankValue(p.amount) && p.amountInWords == ""
  {
    RecordHeadFields(p);
    var rec := ToRecord(p);
    assert "so_goi_thau" in rec && "ten_goi_thau" in rec && "tom_tat_cong_viec" in rec;
    assert "gia_goi_thau" in rec && "gia_goi_thau_bang_chu" in rec;
  }

  /** ... and whose procedure and contract fields are empty. */
  lemma BlankRecordTailFields(p: Package)
    requires IsBlankPackage(ToRecord(p))
    ensures p.selectionForm == "" && p.selectionMethod == "" && p.selectionTime == ""
    ensures p.selectionStart == "" && p.contractType == "" && p.duration == ""
    ensures p.purchaseOption == "" && p.supervision == "" && p.winner == ""
  {
    RecordTailFields(p);
    var rec := ToRecord(p);
    assert "hinh_thuc_lua_chon_nha_thau" in rec && "phuong_thuc_lua_chon_nha_thau" in rec;
    assert "thoi_gian_to_chuc_lua_chon_nha_thau" in rec;
    assert "thoi_gian_bat_dau_to_chuc_lua_chon_nha_thau" in rec && "loai_hop_dong" in rec;
    assert "thoi_gian_thuc_hien_goi_thau" in rec && "tuy_chon_mua_them" in rec;
    assert "giam_sat_hoat_dong_dau_thau" in rec && "nha_thau_trung_thau" in rec;
  }

  /** A package whose fields are all empty gives a blank record. */
  lemma BlankPackageRecord(p: Package)
    requires PackageIsBlank(p)
    ensures IsBlankPackage(ToRecord(p))
  {
    var rec := ToRecord(p);
    forall k | k in rec
      ensures IsBlankValue(rec[k])
    {
      assert rec[k] == Field(p, k);
    }
  }

  /** The record is blank exactly when every field of its package is. */
  lemma BlankRecordIff(p: Package)
    ensures IsBlankPackage(ToRecord(p)) <==> PackageIsBlank(p)
  {
    if IsBlankPackage(ToRecord(p)) {
      BlankRecordDocFields(p);
      BlankRecordHeadFields(p);
      BlankRecordTailFields(p);
    }
    if PackageIsBlank(p) {
      BlankPackageRecord(p);
    }
  }

  /** The package of a row of missing cells: every text empty, the amount
      the raw missing cell. */
  const MissingRow: Package :=
    Package(DocFields("", "", "", "", ""), "", "", "", Raw(Empty), "", "", "", "", "", "", "", "", "", "")

  lemma MissingLabel()
    ensures SplitPackageLabel(SafeStr(Empty)) == ("", "")
  {
  }

  lemma MissingSummary()
    ensures WorkSummary(Empty) == "" && OneLine(Empty) == ""
  {
    assert !Occurs("", "None");
  }

  lemma MissingAmount()
    ensures ParseMoney(Empty) == None
  {
  }

  lemma MissingProcedure()
    ensures FormatCell(Empty) == "" && Trim(SafeStr(Empty)) == "" && DurationText(SafeStr(Empty)) == ""
  {
  }

  /** A row of at least eleven cells, all missing. */
  predicate AllMissing(row: seq<Cell>) {
    |row| >= 11 && forall j :: 0 <= j < |row| ==> row[j] == Empty
  }

  lemma MissingRowHead(doc: DocFields, row: seq<Cell>, words: Option<int -> string>)
    requires |row| >= 11 && row[0] == Empty && row[1] == Empty && row[2] == Empty
    ensures ReadPackage(doc, row, words).Ok?
    ensures var p := ReadPackage(doc, row, words).value;
      p.doc == doc && p.number == "" && p.name == "" && p.summary == ""
      && p.amount == Raw(Empty) && p.amountInWords == ""
  {
    MissingLabel();
    MissingSummary();
    MissingAmount();
  }

  lemma MissingRowMiddle(doc: DocFields, row: seq<Cell>, words: Option<int -> string>)
    requires |row| >= 11 && ParseMoney(row[2]) == None
    requires row[3] == Empty && row[4] == Empty && row[5] == Empty && row[6] == Empty && row[7] == Empty
    ensures var p := ReadPackage(doc, row, words).value;
      p.selectionForm == "" && p.selectionMethod == "" && p.selectionTime == ""
      && p.selectionStart == "" && p.contractType == ""
  {
    MissingSummary();
    MissingProcedure();
  }

  lemma MissingRowTail(doc: DocFields, row: seq<Cell>, words: Option<int -> string>)
    requires |row| >= 11 && ParseMoney(row[2]) == None
    requires row[8] == Empty && row[9] == Empty && row[10] == Empty
    requires |row| > 11 ==> row[11] == Empty
    ensures var p := ReadPackage(doc, row, words).value;
      p.duration == "" && p.purchaseOption == "" && p.supervision == "" && p.winner == ""
  {
    MissingProcedure();
  }

  /** The package read from a row of missing cells on a sheet without
      document-level values. */
  lemma MissingRowPackage(row: seq<Cell>, words: Option<int -> string>)
    requires AllMissing(row)
    ensures ReadPackage(MissingRow.doc, row, words) == Ok(MissingRow)
  {
    var doc := MissingRow.doc;
    assert row[0] == Empty && row[1] == Empty && row[2] == Empty && row[3] == Empty;
    assert row[4] == Empty && row[5] == Empty && row[6] == Empty && row[7] == Empty;
    assert row[8] == Empty && row[9] == Empty && row[10] == Empty;
    assert |row| > 11 ==> row[11] == Empty;
    MissingAmount();
    MissingRowHead(doc, row, words);
    MissingRowMiddle(doc, row, words);
    MissingRowTail(doc, row, words);
  }

  /** The record of that row passes the corrected test but not the test as
      written: its amount is the raw missing cell, neither `""` nor `None`. */
  lemma MissingRowRecord()
    ensures IsBlankPackage(ToRecord(MissingRow))
    ensures !IsBlankAsWritten(ToRecord(MissingRow))
  {
    BlankPackageRecord(MissingRow);
    RecordHeadFields(MissingRow);
    assert "gia_goi_thau" in ToRecord(MissingRow);
  }

  /** As written, a row of missing cells is never dropped; the corrected
      test drops it when the document-level fields are empty. */
  lemma BlankRowKeptAsWritten(row: seq<Cell>, words: Option<int -> string>)
    requires AllMissing(row)
    ensures PackageRecord(MissingRow.doc, row, words) == Ok(ToRecord(MissingRow))
    ensures !IsBlankAsWritten(ToRecord(MissingRow)) && IsBlankPackage(ToRecord(MissingRow))
  {
    MissingRowPackage(row, words);
    MissingRowRecord();
  }

  /** Because the test also looks at the document-level fields, a sheet
      with a title keeps every row, blank or not. */
  lemma TitledSheetKeepsEveryRow(doc: DocFields, row: seq<Cell>, words: Option<int -> string>)
    requires doc.planTitle != ""
    requires PackageRecord(doc, row, words).Ok?
    ensures !IsBlankPackage(PackageRecord(doc, row, words).value)
  {
    var p := ReadPackage(doc, row, words).value;
    assert p.doc == doc;
    BlankRecordIff(p);
  }

  /** The per-row reader of one sheet. */
  function RowReader(doc: DocFields, words: Option<int -> string>): seq<Cell> -> Result<Record, Error> {
    row => PackageRecord(doc, row, words)
  }

  /** The records `read` gives the rows, in order, or the error of the
      first row it rejects. */
  function ReadRows(read: seq<Cell> -> Result<Record, Error>, rows: seq<seq<Cell>>): Result<seq<Record>, Error>
    decreases |rows|
  {
    if rows == [] then Ok([])
    else
      match ReadRows(read, rows[..|rows| - 1])
      case Err(e) => Err(e)
      case Ok(ps) =>
        match read(rows[|rows| - 1])
        case Err(e) => Err(e)
        case Ok(rec) => Ok(ps + [rec])
  }

  /** Reading one more row: the step of the extraction loop. */
  lemma ReadRowsSnoc(read: seq<Cell> -> Result<Record, Error>, rows: seq<seq<Cell>>, i: nat)
    requires i < |rows|
    ensures ReadRows(read, rows[..i + 1]) ==
      match ReadRows(read, rows[..i])
      case Err(e) => Err(e)
      case Ok(ps) =>
        match read(rows[i])
        case Err(e) => Err(e)
        case Ok(rec) => Ok(ps + [rec])
  {
    assert rows[..i + 1][..i] == rows[..i];
  }

  /** Once a prefix of the rows fails, so does the whole table, with the
      same error. */
  lemma {:induction false} ReadRowsPrefixError(read: seq<Cell> -> Result<Record, Error>, rows: seq<seq<Cell>>, n: nat)
    requires n <= |rows| && ReadRows(read, rows[..n]).Err?
    ensures ReadRows(read, rows) == ReadRows(read, rows[..n])
    decreases |rows| - n
  {
    if n < |rows| {
      ReadRowsSnoc(read, rows, n);
      ReadRowsPrefixError(read, rows, n + 1);
    } else {
      assert rows[..n] == rows;
    }
  }

  /** Reading succeeds exactly when every row reads, and then gives one
      record per row, record `i` from row `i`. */
  lemma {:induction false} ReadRowsOk(read: seq<Cell> -> Result<Record, Error>, rows: seq<seq<Cell>>)
    ensures ReadRows(read, rows).Ok? <==> forall i :: 0 <= i < |rows| ==> read(rows[i]).Ok?
    ensures ReadRows(read, rows).Ok? ==>
      var ps := ReadRows(read, rows).value;
      |ps| == |rows| && forall i :: 0 <= i < |rows| ==> read(rows[i]) == Ok(ps[i])
    decreases |rows|
  {
    if rows != [] {
      var init := rows[..|rows| - 1];
      ReadRowsOk(read, init);
      assert forall i :: 0 <= i < |init| ==> rows[i] == init[i];
    }
  }

  /** The rows of `grid[start..end]` without the columns in `drop`. */
  function ReducedRows(grid: Grid, start: nat, end: nat, drop: seq<nat>): (rows: seq<seq<Cell>>)
    requires start <= end <= |grid|
    ensures |rows| == end - start
  {
    seq(end - start, k requires 0 <= k < end - start => DropColumns(grid[start + k], drop))
  }

  /** The document-level fields of a sheet whose table starts at `start`. */
  function SheetFields(grid: Grid, start: nat): DocFields
    requires Rectangular(grid) && 3 <= |grid| && start < |grid| && 1 <= Width(grid)
  {
    var w := Width(grid);
    DocFields(
      AfterColon(grid[1][0]),
      StripParens(AfterColon(grid[2][0])),
      Trim(SafeStr(grid[0][0])),
      if w > 1 then Trim(SafeStr(grid[start][1])) else "",
      if w > 5 then Trim(SafeStr(grid[start][5])) else "")
  }

  /** Every row of the table as a record, before the blank filter, or the
      error of the sheet or of its first failing row. */
  function SheetTable(grid: Grid, words: Option<int -> string>): Result<seq<Record>, Error>
    requires Rectangular(grid)
  {
    if |grid| < 3 || Width(grid) < 1 then Err(IndexOutOfRange)
    else
      var labels := Labels(Column(grid, 0));
      match TableSpan(labels)
      case Err(e) => Err(e)
      case Ok((start, end)) =>
        TableSpanFound(labels);
        var rows := ReducedRows(grid, start, end, DropPositions(Width(grid)));
        ReadRows(RowReader(SheetFields(grid, start), words), rows)
  }

  /** `get_list_goi_thau` on a sheet already read into a grid, with the
      blank-row test of variant `v`. */
  function BidPackages(grid: Grid, words: Option<int -> string>, v: Variant): Result<seq<Record>, Error>
    requires Rectangular(grid)
  {
    match SheetTable(grid, words)
    case Err(e) => Err(e)
    case Ok(all) =>
      var kept := Kept(all, BlankTest(v));
      if kept == [] then Err(NoBidPackages) else Ok(kept)
  }

  /** Every record carries the given document-level values. */
  predicate CarriesDoc(rec: Record, doc: DocFields) {
    && rec.Keys == BidKeys
    && rec["ten_du_an"] == Str(doc.projectName)
    && rec["nghi_quyet_du_an"] == Str(doc.resolution)
    && rec["ke_hoach_lua_chon_nha_thau"] == Str(doc.planTitle)
    && rec["ten_chu_dau_tu"] == Str(doc.investor)
    && rec["nguon_von"] == Str(doc.fundingSource)
  }

  /** Every record read from a sheet has the 19 keys and carries that
      sheet's document-level values. */
  lemma SheetRecord(doc: DocFields, rows: seq<seq<Cell>>, words: Option<int -> string>, rec: Record)
    requires ReadRows(RowReader(doc, words), rows).Ok?
    requires rec in ReadRows(RowReader(doc, words), rows).value
    ensures CarriesDoc(rec, doc)
  {
    var read := RowReader(doc, words);
    ReadRowsOk(read, rows);
    var ps := ReadRows(read, rows).value;
    var j :| 0 <= j < |ps| && ps[j] == rec;
    assert read(rows[j]) == Ok(rec);
    PackageRecordShape(doc, rows[j], words);
  }

  /** `a` and `b` agree on placeholder `k`. */
  predicate SameAt(a: Record, b: Record, k: string) {
    k in a && k in b && a[k] == b[k]
  }

  /** `a` and `b` carry the same five document-level values. */
  predicate SameDocFields(a: Record, b: Record) {
    && SameAt(a, b, "ten_du_an") && SameAt(a, b, "ke_hoach_lua_chon_nha_thau")
    && SameAt(a, b, "ten_chu_dau_tu") && SameAt(a, b, "nghi_quyet_du_an")
    && SameAt(a, b, "nguon_von")
  }

  /** The records of one sheet: all with the 19 keys, all with the same
      document-level values. */
  predicate Uniform(all: seq<Record>) {
    forall a, b :: a in all && b in all ==> a.Keys == BidKeys && SameDocFields(a, b)
  }

  lemma CarriesSame(a: Record, b: Record, doc: DocFields)
    requires CarriesDoc(a, doc) && CarriesDoc(b, doc)
    ensures SameDocFields(a, b)
  {
  }

  /** The records read from the rows of one sheet have the 19 keys and
      share that sheet's document-level values. */
  lemma ReadRowsShape(doc: DocFields, rows: seq<seq<Cell>>, words: Option<int -> string>)
    requires ReadRows(RowReader(doc, words), rows).Ok?
    ensures Uniform(ReadRows(RowReader(doc, words), rows).value)
  {
    var all := ReadRows(RowReader(doc, words), rows).value;
    forall a | a in all
      ensures CarriesDoc(a, doc)
    {
      SheetRecord(doc, rows, words, a);
    }
    UniformOfCarries(all, doc);
  }

  /** Records that all carry the same document-level values are uniform. */
  lemma UniformOfCarries(all: seq<Record>, doc: DocFields)
    requires forall a :: a in all ==> CarriesDoc(a, doc)
    ensures Uniform(all)
  {
    forall a, b | a in all && b in all
      ensures a.Keys == BidKeys && SameDocFields(a, b)
    {
      CarriesSame(a, b, doc);
    }
  }

  /** All records of one sheet have the 19 keys and share the sheet's
      document-level values. */
  lemma SheetTableShape(grid: Grid, words: Option<int -> string>)
    requires Rectangular(grid) && SheetTable(grid, words).Ok?
    ensures Uniform(SheetTable(grid, words).value)
  {
    var labels := Labels(Column(grid, 0));
    match TableSpan(labels)
    case Ok((start, end)) =>
      TableSpanFound(labels);
      ReadRowsShape(SheetFields(grid, start), ReducedRows(grid, start, end, DropPositions(Width(grid))), words);
  }

  /** Every record of a sheet's table carries the document-level values
      read above the table that starts at the found span. */
  lemma SheetTableCarries(grid: Grid, words: Option<int -> string>)
    requires Rectangular(grid) && SheetTable(grid, words).Ok?
    ensures |grid| >= 3 && Width(grid) >= 1 && TableSpan(Labels(Column(grid, 0))).Ok?
    ensures forall rec :: rec in SheetTable(grid, words).value ==>
      CarriesDoc(rec, SheetFields(grid, TableSpan(Labels(Column(grid, 0))).value.0))
  {
    var labels := Labels(Column(grid, 0));
    match TableSpan(labels)
    case Ok((start, end)) =>
      var doc := SheetFields(grid, start);
      var rows := ReducedRows(grid, start, end, DropPositions(Width(grid)));
      forall rec | rec in SheetTable(grid, words).value
        ensures CarriesDoc(rec, doc)
      {
        SheetRecord(doc, rows, words, rec);
      }
  }

  /** A successful extraction is non-empty, has no record the variant's
      blank-row test rejects, and gives every record the 19 keys and the
      five document-level values read from the cells above the table. */
  lemma BidPackagesShape(grid: Grid, words: Option<int -> string>, v: Variant)
    requires Rectangular(grid) && BidPackages(grid, words, v).Ok?
    ensures |grid| >= 3 && Width(grid) >= 1 && TableSpan(Labels(Column(grid, 0))).Ok?
    ensures var ps := BidPackages(grid, words, v).value;
      var doc := SheetFields(grid, TableSpan(Labels(Column(grid, 0))).value.0);
      && ps != []
      && forall i :: 0 <= i < |ps| ==>
        && CarriesDoc(ps[i], doc) && SameDocFields(ps[i], ps[0])
        && (v == AsWritten ==> !IsBlankAsWritten(ps[i]))
        && (v == Intended ==> !IsBlankPackage(ps[i]))
  {
    SheetTableCarries(grid, words);
    BidPackagesKept(grid, words, v);
    var doc := SheetFields(grid, TableSpan(Labels(Column(grid, 0))).value.0);
    KeptCarries(SheetTable(grid, words).value, BlankTest(v), doc);
  }

  /** A successful extraction is the non-empty filtered table. */
  lemma BidPackagesKept(grid: Grid, words: Option<int -> string>, v: Variant)
    requires Rectangular(grid) && BidPackages(grid, words, v).Ok?
    ensures SheetTable(grid, words).Ok?
    ensures BidPackages(grid, words, v).value == Kept(SheetTable(grid, words).value, BlankTest(v)) != []
  {
  }

  /** The records kept from records that all carry `doc` carry it too, and
      none of them is blank. */
  lemma KeptCarries(all: seq<Record>, blank: Record -> bool, doc: DocFields)
    requires forall rec :: rec in all ==> CarriesDoc(rec, doc)
    ensures var ps := Kept(all, blank);
      forall i :: 0 <= i < |ps| ==> CarriesDoc(ps[i], doc) && !blank(ps[i]) && SameDocFields(ps[i], ps[0])
  {
    var ps := Kept(all, blank);
    forall i | 0 <= i < |ps|
      ensures CarriesDoc(ps[i], doc) && SameDocFields(ps[i], ps[0])
    {
      CarriesSame(ps[i], ps[0], doc);
    }
  }

  /** The sheet-level errors: a sheet too small for the fixed cells, and a
      column 0 without the two sentinels in order. */
  lemma BidPackagesErrors(grid: Grid, words: Option<int -> string>, v: Variant)
    requires Rectangular(grid)
    ensures |grid| < 3 || Width(grid) < 1 ==> BidPackages(grid, words, v) == Err(IndexOutOfRange)
    ensures |grid| >= 3 && Width(grid) >= 1 && TableSpan(Labels(Column(grid, 0))).Err? ==>
      BidPackages(grid, words, v) == Err(TableRegionNotFound)
    ensures SheetTable(grid, words).Err? ==> BidPackages(grid, words, v) == SheetTable(grid, words)
    ensures SheetTable(grid, words).Ok? ==>
      (BidPackages(grid, words, v) == Err(NoBidPackages) <==>
       forall i :: 0 <= i < |SheetTable(grid, words).value| ==> BlankTest(v)(SheetTable(grid, words).value[i]))
  {
    if SheetTable(grid, words).Ok? {
      KeptEmpty(SheetTable(grid, words).value, BlankTest(v));
    }
  }

  /** On a table whose only row is the row of missing cells, the code as
      written keeps that row and the corrected test fails with
      `NoBidPackages`. */
  lemma MissingTableOutcomes(grid: Grid, words: Option<int -> string>)
    requires Rectangular(grid) && SheetTable(grid, words) == Ok([ToRecord(MissingRow)])
    ensures BidPackages(grid, words, AsWritten) == Ok([ToRecord(MissingRow)])
    ensures BidPackages(grid, words, Intended) == Err(NoBidPackages)
  {
    MissingRowRecord();
    KeptOne(ToRecord(MissingRow), BlankTest(AsWritten));
    KeptOne(ToRecord(MissingRow), BlankTest(Intended));
  }

  /** The loop of `get_list_goi_thau`: read each row in order, stop at the
      first error, and keep the non-blank records. */
  method CollectPackages(read: seq<Cell> -> Result<Record, Error>, rows: seq<seq<Cell>>, blank: Record -> bool)
    returns (r: Result<seq<Record>, Error>)
    ensures r == match ReadRows(read, rows)
                 case Err(e) => Err(e)
                 case Ok(ps) => Ok(Kept(ps, blank))
  {
    var packages: seq<Record> := [];
    ghost var all: seq<Record> := [];
    var i := 0;
    while i < |rows|
      invariant 0 <= i <= |rows|
      invariant ReadRows(read, rows[..i]) == Ok(all)
      invariant packages == Kept(all, blank)
    {
      var rec := read(rows[i]);
      ReadRowsSnoc(read, rows, i);
      if rec.Err? {
        ReadRowsPrefixError(read, rows, i + 1);
        return Err(rec.error);
      }
      KeptSnoc(all, rec.value, blank);
      if !blank(rec.value) {
        packages := packages + [rec.value];
      }
      all := all + [rec.value];
      i := i + 1;
    }
    assert rows[..i] == rows;
    return Ok(packages);
  }

  /** `get_list_goi_thau` after the sheet is read: find the table, read
      the document-level fields, drop the auxiliary columns, and collect
      one record per non-blank row. */
  method ExtractBidPackages(grid: Grid, words: Option<int -> string>, v: Variant) returns (r: Result<seq<Record>, Error>)
    requires Rectangular(grid)
    ensures r == BidPackages(grid, words, v)
  {
    if |grid| < 3 || Width(grid) < 1 {
      return Err(IndexOutOfRange);
    }
    var col := Column(grid, 0);
    var span := FindTableSpan(col);
    if span.Err? {
      return Err(span.error);
    }
    var (start, end) := span.value;
    TableSpanFound(Labels(col));
    var doc := SheetFields(grid, start);
    var drop := DropList(Width(grid));
    var rows := ReducedRows(grid, start, end, drop);
    var collected := CollectPackages(RowReader(doc, words), rows, BlankTest(v));
    if collected.Err? {
      return collected;
    }
    if collected.value == [] {
      return Err(NoBidPackages);
    }
    return collected;
  }
}
