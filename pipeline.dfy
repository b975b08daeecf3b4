/** `generate_documents` (src/main.py:47-88) and the two extractor entry
    points it dispatches to (src/utils.py:173-186): check that both files
    exist, read the template's keys, pick the extractor by document type,
    and render one document per record. The workbook is the list of its
    sheets as the reader would return them; file existence and the
    template's keys are inputs. */
module Pipeline {

  import opened Wrappers
  import opened Strings
  import opened Records
  import BidPlan
  import HeaderTable
  import opened Render

  /** A workbook: its sheets in order, each a name and a grid. */
  datatype Workbook = Workbook(sheets: seq<(string, Grid)>)

  /** What every workbook the reader opens satisfies: at least one sheet,
      and every sheet a rectangular grid. */
  predicate WellFormed(wb: Workbook) {
    && |wb.sheets| >= 1
    && forall i :: 0 <= i < |wb.sheets| ==> Rectangular(wb.sheets[i].1)
  }

  function SheetNames(wb: Workbook): (names: seq<string>)
    ensures |names| == |wb.sheets|
    ensures forall i :: 0 <= i < |wb.sheets| ==> names[i] == wb.sheets[i].0
  {
    seq(|wb.sheets|, i requires 0 <= i < |wb.sheets| => wb.sheets[i].0)
  }

  /** `read_excel(sheet_name=name)`: the first sheet of that name. */
  function SheetNamed(wb: Workbook, name: string): (r: Result<Grid, Error>)
    ensures r.Err? <==> name !in SheetNames(wb)
    ensures r.Err? ==> r.error == SheetNotFound(name)
  {
    if name in SheetNames(wb) then Ok(wb.sheets[IndexOf(SheetNames(wb), name)].1)
    else Err(SheetNotFound(name))
  }

  /** The sheet found by name is a sheet of the workbook of that name, and
      no earlier sheet has that name. */
  lemma SheetNamedFirst(wb: Workbook, name: string)
    requires SheetNamed(wb, name).Ok?
    ensures var i := IndexOf(SheetNames(wb), name);
      && i < |wb.sheets| && wb.sheets[i].0 == name && SheetNamed(wb, name).value == wb.sheets[i].1
      && forall j :: 0 <= j < i ==> wb.sheets[j].0 != name
  {
    var names := SheetNames(wb);
    var i := IndexOf(names, name);
    forall j | 0 <= j < i
      ensures wb.sheets[j].0 != name
    {
      assert names[..i][j] == names[j];
    }
  }

  lemma SheetNamedRectangular(wb: Workbook, name: string)
    requires WellFormed(wb) && SheetNamed(wb, name).Ok?
    ensures Rectangular(SheetNamed(wb, name).value)
  {
  }

  /** The default sheet of the fixed-layout document. */
  const DefaultBidSheet: string := "Bảng 3"

  /** `sheet_name or "Bảng 3"`: no name and the empty name both give the
      default. */
  function BidSheetName(sheetName: Option<string>): (name: string)
    ensures name != ""
    ensures sheetName.Some? && sheetName.value != "" ==> name == sheetName.value
    ensures sheetName.None? || sheetName.value == "" ==> name == DefaultBidSheet
  {
    if sheetName.Some? && sheetName.value != "" then sheetName.value else DefaultBidSheet
  }

  /** `extract_goi_thau_from_khlcnt`: read the named sheet, then extract
      with the blank-row test of variant `v`. */
  function BidPlanRecords(wb: Workbook, name: string, words: Option<int -> string>, v: Variant): Result<seq<Record>, Error>
    requires WellFormed(wb)
  {
    match SheetNamed(wb, name)
    case Err(e) => Err(e)
    case Ok(grid) =>
      SheetNamedRectangular(wb, name);
      BidPlan.BidPackages(grid, words, v)
  }

  /** `extract_records_from_header_table` as written. With no sheet name
      the reader returns every sheet at once; the empty-key check still
      runs, and the first access to the result as one sheet fails. */
  function HeaderTableAsWritten(wb: Workbook, keys: set<string>, sheetName: Option<string>): Result<seq<Record>, Error>
    requires WellFormed(wb)
  {
    match sheetName
    case None => if keys == {} then Err(EmptyKeySet) else Err(NotADataFrame)
    case Some(name) =>
      match SheetNamed(wb, name)
      case Err(e) => Err(e)
      case Ok(grid) =>
        SheetNamedRectangular(wb, name);
        HeaderTable.HeaderRecords(grid, keys)
  }

  /** As written, the header-table document fails whenever no sheet is
      named and the template has keys, whatever the workbook holds. */
  lemma HeaderTableWithoutSheetFails(wb: Workbook, keys: set<string>)
    requires WellFormed(wb) && keys != {}
    ensures HeaderTableAsWritten(wb, keys, None) == Err(NotADataFrame)
  {
  }

  /** `extract_records_from_header_table` as intended: with no sheet name
      the first sheet is used, as the reader does by default. */
  function HeaderTableRecords(wb: Workbook, keys: set<string>, sheetName: Option<string>): (r: Result<seq<Record>, Error>)
    requires WellFormed(wb)
    ensures sheetName.Some? ==> r == HeaderTableAsWritten(wb, keys, sheetName)
  {
    match sheetName
    case None => HeaderTable.HeaderRecords(wb.sheets[0].1, keys)
    case Some(name) => HeaderTableAsWritten(wb, keys, sheetName)
  }

  /** With no sheet name the intended extractor reads the first sheet, and
      so succeeds wherever naming that sheet would. */
  lemma HeaderTableDefaultSheet(wb: Workbook, keys: set<string>)
    requires WellFormed(wb)
    ensures HeaderTableRecords(wb, keys, None) == HeaderTableRecords(wb, keys, Some(wb.sheets[0].0))
  {
    SheetNamedFirst(wb, wb.sheets[0].0);
    assert SheetNames(wb)[0] == wb.sheets[0].0;
    assert IndexOf(SheetNames(wb), wb.sheets[0].0) == 0;
  }

  /** The document types the command line offers. */
  const BidPlanType: string := "goi_thau_khlcnt"
  const HeaderTableType: string := "header_table"

  /** Everything outside the program `generate_documents` depends on. */
  datatype Environment = Environment(
    excelExists: bool,          // the workbook path exists
    templateExists: bool,       // the template path exists
    workbook: Workbook,         // the workbook's sheets
    templateKeys: set<string>,  // the placeholders the template declares
    words: Option<int -> string>) // number-to-words, if installed

  /** The records the chosen extractor gives: the code as written for
      `AsWritten`, the corrected extractors for `Intended`. */
  function DispatchRecords(docType: string, sheetName: Option<string>, env: Environment, keys: set<string>, v: Variant): Result<seq<Record>, Error>
    requires WellFormed(env.workbook)
  {
    if docType == BidPlanType then BidPlanRecords(env.workbook, BidSheetName(sheetName), env.words, v)
    else if docType == HeaderTableType then
      if v == AsWritten then HeaderTableAsWritten(env.workbook, keys, sheetName)
      else HeaderTableRecords(env.workbook, keys, sheetName)
    else Err(UnsupportedDocType(docType))
  }

  /** `generate_documents`: the documents written, or the error raised;
      `Generate(..., AsWritten)` is the program as written,
      `Generate(..., Intended)` the corrected one. */
  function Generate(docType: string, sheetName: Option<string>, env: Environment, v: Variant): Result<seq<Document>, Error>
    requires WellFormed(env.workbook)
  {
    if !env.excelExists then Err(ExcelNotFound)
    else if !env.templateExists then Err(TemplateNotFound)
    else
      match LoadTemplateKeys(env.templateKeys)
      case Err(e) => Err(e)
      case Ok(keys) =>
        match DispatchRecords(docType, sheetName, env, keys, v)
        case Err(e) => Err(e)
        case Ok(records) => RenderAll(records, env.templateKeys)
  }

  /** The checks before any extraction, in order: the workbook exists, the
      template exists, the template has keys, the document type is known. */
  lemma GenerateErrors(docType: string, sheetName: Option<string>, env: Environment, v: Variant)
    requires WellFormed(env.workbook)
    ensures !env.excelExists ==> Generate(docType, sheetName, env, v) == Err(ExcelNotFound)
    ensures env.excelExists && !env.templateExists ==> Generate(docType, sheetName, env, v) == Err(TemplateNotFound)
    ensures env.excelExists && env.templateExists && env.templateKeys == {} ==>
      Generate(docType, sheetName, env, v) == Err(NoTemplateKeys)
    ensures (env.excelExists && env.templateExists && env.templateKeys != {}
             && docType != BidPlanType && docType != HeaderTableType) ==>
      Generate(docType, sheetName, env, v) == Err(UnsupportedDocType(docType))
  {
  }

  /** A successful run renders exactly the records the chosen extractor
      gives, over the template's keys; the fixed-layout document reads the
      named sheet, or `Bảng 3` when none is named. */
  lemma GenerateDispatch(docType: string, sheetName: Option<string>, env: Environment, v: Variant)
    requires WellFormed(env.workbook) && Generate(docType, sheetName, env, v).Ok?
    ensures docType == BidPlanType || docType == HeaderTableType
    ensures var records := DispatchRecords(docType, sheetName, env, env.templateKeys, v);
      && records.Ok?
      && Generate(docType, sheetName, env, v) == Ok(Documents(records.value, env.templateKeys))
    ensures docType == BidPlanType ==>
      DispatchRecords(docType, sheetName, env, env.templateKeys, v) ==
      BidPlanRecords(env.workbook, BidSheetName(sheetName), env.words, v)
  {
  }

  /** The two variants of the header-table document: as written it fails
      whenever no sheet is named, corrected it reads the first sheet as if
      that sheet were named, and with a sheet name the two agree. */
  lemma GenerateHeaderTableVariants(sheetName: Option<string>, env: Environment)
    requires WellFormed(env.workbook) && env.excelExists && env.templateExists && env.templateKeys != {}
    ensures Generate(HeaderTableType, None, env, AsWritten) == Err(NotADataFrame)
    ensures Generate(HeaderTableType, None, env, Intended) ==
      Generate(HeaderTableType, Some(env.workbook.sheets[0].0), env, Intended)
    ensures sheetName.Some? ==>
      Generate(HeaderTableType, sheetName, env, AsWritten) == Generate(HeaderTableType, sheetName, env, Intended)
  {
    HeaderTableDefaultSheet(env.workbook, env.templateKeys);
  }

  /** `generate_documents`, step by step. */
  method GenerateDocuments(docType: string, sheetName: Option<string>, env: Environment, v: Variant)
    returns (r: Result<seq<Document>, Error>)
    requires WellFormed(env.workbook)
    ensures r == Generate(docType, sheetName, env, v)
  {
    if !env.excelExists {
      return Err(ExcelNotFound);
    }
    if !env.templateExists {
      return Err(TemplateNotFound);
    }
    var keys := LoadTemplateKeys(env.templateKeys);
    if keys.Err? {
      return Err(keys.error);
    }
    var records: Result<seq<Record>, Error>;
    if docType == BidPlanType {
      var sheet := SheetNamed(env.workbook, BidSheetName(sheetName));
      if sheet.Err? {
        return Err(sheet.error);
      }
      SheetNamedRectangular(env.workbook, BidSheetName(sheetName));
      records := BidPlan.ExtractBidPackages(sheet.value, env.words, v);
    } else if docType == HeaderTableType {
      var grid: Grid;
      if sheetName.None? {
        if v == AsWritten {
          return Err(NotADataFrame);
        }
        grid := env.workbook.sheets[0].1;
      } else {
        var sheet := SheetNamed(env.workbook, sheetName.value);
        if sheet.Err? {
          return Err(sheet.error);
        }
        SheetNamedRectangular(env.workbook, sheetName.value);
        grid := sheet.value;
      }
      records := HeaderTable.ExtractHeaderRecords(grid, keys.value);
    } else {
      return Err(UnsupportedDocType(docType));
    }
    if records.Err? {
      return Err(records.error);
    }
    r := RenderDocuments(records.value, env.templateKeys);
  }
}
