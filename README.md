# Word documents from spreadsheets: a verified model

This project models the core of a small batch generator of Word documents from spreadsheets.
The program reads a workbook in one of two layouts and turns it into records.
It then renders one document per record from a template, through the template's placeholders.

- **Bid-package plan** (`goi_thau_khlcnt`). A fixed-layout sheet.
  - Column 0 holds two sentinel rows, `STT` and `Tổng giá gói thầu`; the data rows lie between them.
  - Five document-level values come from fixed cells.
  - Three auxiliary columns are dropped.
  - Each data row becomes a 19-key record: the package number and name, the amount and the amount in words, the selection procedure, dates, duration and others.
- **Header table** (`header_table`). A sheet with a row that names placeholders.
  - The first row whose cleaned cells name every template key is the header.
  - Each key maps to the first column that names it.
  - Each later row becomes a record of the display texts of those columns.

Both extractors drop blank records and fail when nothing is left.
In two places the code does not do what it evidently means (see "## Findings"): the blank-row test of the bid-plan extractor, and the sheet the header-table extractor reads when none is named.
The members these touch take a `Variant`: `AsWritten` follows the code, `Intended` the correction.
Every lemma about them is stated for both variants unless its row says otherwise.
The renderer numbers the documents from 1 with zero-padded names.
Each document's context holds exactly the template's keys.

The modules follow the program's structure:

- `Wrappers` holds Option and Result.
- `Strings` models `str.strip`, `split(sep, 1)`, `replace`, `isdigit`, `int`, `str(n)` and zero padding.
- `Cells` holds the spreadsheet cell values, `_safe_str` and `_format_cell`.
- `Fields` holds the small text readers of the fixed-layout extractor.
- `Records` holds the grid, the record, the errors and the blank filter.
- `BidPlan` is the fixed-layout extractor.
- `HeaderTable` is the header-matched extractor.
- `Render` covers template keys, file names, contexts and the render loop.
- `Pipeline` is `generate_documents` and its dispatch.

Loops in the source are `method`s proved equal to specification functions.
The properties the program relies on are lemmas about those functions.

Inputs and modelling choices:

- A workbook is a list of named sheets, each a rectangular grid of cells.
- A blank cell is `Empty`, which is what the reader gives as NaN.
- File existence, the template's declared placeholders and the number-to-words function are inputs.
  - `words` is `None` when the library is missing.

## Model

| member | source | states |
|---|---|---|
| Strings.Trim | src/utils.py:29 | `strip()` leaves no whitespace at either end and never lengthens the text |
| Strings.TrimPadded | src/utils.py:29 | `strip()` removes exactly the surrounding whitespace: a trimmed text padded on both sides strips back to itself |
| Strings.TrimIdempotent | src/utils.py:29 | stripping twice is stripping once |
| Strings.TrimKeeps | src/utils.py:29 | stripping adds no character |
| Strings.TrimKeepsInner | src/utils.py:29 | stripping keeps every character that is not whitespace |
| Strings.IndexOf | src/utils.py:31 | the cut position of `split(x, 1)` holds `x`, and no earlier position does |
| Strings.IndexOfSplit | src/utils.py:58 | `split(x, 1)` cuts at the first `x`, after a prefix free of `x` |
| Strings.SplitHalves | src/utils.py:58 | `split(x, 1)` of `a + x + b`, with no `x` in `a`, gives the halves `a` and `b` |
| Strings.Delete | src/utils.py:36 | `replace(c, "")` leaves no `c` and never lengthens the text |
| Strings.DeleteMembers | src/utils.py:36 | deleting `c` keeps every other character and adds none |
| Strings.DeleteAbsent | src/utils.py:36 | deleting a character that is absent changes nothing |
| Strings.DeleteAppend | src/utils.py:49 | deleting distributes over concatenation |
| Strings.ReplaceChar | src/utils.py:123-124 | `replace(a, b)` for characters changes every `a` into `b`, position by position, and nothing else |
| Strings.RemoveAll | src/utils.py:117 | `replace(p, "")` never lengthens the text |
| Strings.RemoveAllShrinks | src/utils.py:117 | when `p` occurs, `replace(p, "")` shortens the text by at least the length of `p` |
| Strings.RemoveAllAfterClean | src/utils.py:117 | when no occurrence of `p` starts inside `x`, deleting `p` from `x + p + y` gives `x` followed by the deletion applied to `y` |
| Strings.RemoveAllAbsent | src/utils.py:117 | a text without `p` passes through `replace(p, "")` unchanged |
| Strings.RemoveAllSinglePass | src/utils.py:117 | the deletion is one left-to-right pass: `"NNoneone"` becomes `"None"` |
| Strings.NatToString | src/utils.py:20 | `str(n)` of a natural is canonical digits, with a leading `0` only for zero |
| Strings.ValueOfNatToString | src/utils.py:50 | `int()` of the digits `str(n)` writes is `n` |
| Strings.NatToStringOfValue | src/utils.py:50 | canonical digits are what `str()` writes for their value |
| Strings.DigitCountMonotone | src/main.py:33 | a larger number never has fewer digits |
| Strings.IntToString | src/utils.py:20 | `str(i)` has no decimal point |
| Strings.IntToStringRoundTrip | src/utils.py:20 | `str(i)` of any integer reads back as `i` |
| Strings.ZeroPad | src/main.py:38 | `f"{n:0{w}d}"` is all digits, `w` long or the digit count of `n` when that is more |
| Strings.ValueOfZeroPad | src/main.py:38 | a zero-padded number reads back as that number |
| Strings.ValueIgnoresLeadingZeros | src/main.py:38 | leading zeros do not change the value |
| Strings.ZeroPadInjective | src/main.py:38 | distinct numbers give distinct padded texts at the same width |
| Cells.FormatCell | src/utils.py:10-12 | a missing value shows as the empty text |
| Cells.FormatCellReadsBack | src/utils.py:19-21 | an integer, and a float whose value is whole, show as integer text with no `.0` that reads back as the number |
| Cells.FormatCellPlain | src/utils.py:19-21 | every other non-temporal value shows as its `str()` text |
| Cells.FormatDateReadsBack | src/utils.py:17-18 | a date shows as `YYYY-MM-DD`, the three digit groups reading back as year, month and day |
| Cells.FormatTimeReadsBack | src/utils.py:15-16 | a time shows as `HH:MM`, the groups reading back as hour and minute |
| Cells.FormatDateTimeReadsBack | src/utils.py:13-14 | a date and time shows as its date text, one space, then its clock text; it is caught before the date case |
| Cells.FormatDropsSeconds | src/utils.py:15-25 | the display of a time is three characters shorter than its `str()`, which keeps the seconds |
| Cells.FormatFloatExamples | src/utils.py:19-21 | `5.0` shows as `5`, while `5.5` keeps its text |
| Fields.AfterColon | src/utils.py:28-32 | the result is stripped |
| Fields.AfterColonUnlabelled | src/utils.py:28-32 | a text without a colon is kept whole, stripped |
| Fields.AfterColonOfLabelled | src/utils.py:28-32 | `label: value` reads as the stripped value, with later colons kept in the value |
| Fields.SplitPackageLabel | src/utils.py:53-60 | both halves are stripped and the number has no colon |
| Fields.SplitPackageLabelUnlabelled | src/utils.py:53-60 | without a colon the number is empty and the name is the stripped text; blank input gives two empty texts |
| Fields.SplitPackageLabelOfLabelled | src/utils.py:57-59 | `number: name` splits at the first colon into its two stripped halves |
| Fields.StripParens | src/utils.py:35-36 | the result has no `(` or `)` and is stripped |
| Fields.StripParensOfWrapped | src/utils.py:35-36 | a parenthesised remark loses exactly its parentheses |
| Fields.StripSeparators | src/utils.py:49 | no `.`, `,` or space is left |
| Fields.ParseAmountText | src/utils.py:46-50 | a text amount is never negative |
| Fields.ParseAmountTextAccepts | src/utils.py:46-50 | a text with no surrounding whitespace and no `.`, `,` or space is an amount exactly when it is a non-empty digit run, and the amount is its decimal value |
| Fields.ParseAmountTextRejects | src/utils.py:50 | any character that is not a digit, a separator or whitespace makes the text no amount (a sign, a letter) |
| Fields.ParseMoney | src/utils.py:39-50 | a missing value gives no amount, an integer is taken as it is, a float only when whole, a text amount is never negative |
| Fields.ParseMoneyOfDigits | src/utils.py:46-50 | the digits `str(n)` writes parse as `n` |
| Fields.ParseMoneyIgnoresSeparators | src/utils.py:49-50 | separators anywhere are ignored: `1.234.567` parses like `1234567` |
| Fields.DigitsHaveNoSeparators | src/utils.py:49 | a digit text is unchanged by the separator removal |
| Fields.ParseMoneyRejectsTemporal | src/utils.py:46-50 | dates and times never parse as amounts |
| Fields.DurationText | src/utils.py:130-131 | the duration is stripped and holds no `;` |
| Fields.DurationTextOfClauses | src/utils.py:130-131 | a duration followed by `;` and remarks keeps only the stripped duration |
| Fields.WorkSummary | src/utils.py:117 | the work summary is stripped |
| Fields.WorkSummaryWithoutNone | src/utils.py:117 | a text without `None` is only stripped |
| Fields.WorkSummaryDropsNone | src/utils.py:117 | when no `None` starts inside `x`, the summary of `x + "None" + y` is the strip of `x` followed by `y` with every `None` deleted |
| Fields.OneLine | src/utils.py:123-124 | the selection fields hold no line break and are stripped |
| Fields.OneLineOfSingleLine | src/utils.py:123-124 | a single-line text is only stripped |
| Records.Kept | src/utils.py:162-165 | the filter keeps at most all records, each of them one of the input's and not blank |
| Records.KeptSnoc | src/utils.py:162-165 | filtering one more record appends it exactly when it is not blank |
| Records.KeptEmpty | src/utils.py:167-168 | nothing survives exactly when every record is blank |
| Records.KeptNoBlank | src/utils.py:162-165 | a list without blank records passes whole |
| Records.KeptOne | src/utils.py:162-165 | a single record is kept exactly when it is not blank |
| BidPlan.LastRow | src/utils.py:77-83 | the scan's last match holds the label and no later row does; no match means the label is absent |
| BidPlan.LabelsAt | src/utils.py:78 | the label of row `i` is its stripped `_safe_str` text |
| BidPlan.LastRowSnoc | src/utils.py:77-83 | one more row moves the last match to it exactly when it matches |
| BidPlan.TableSpan | src/utils.py:84-87 | a found span is non-empty and lies inside the column, at least two rows below its top |
| BidPlan.TableSpanFound | src/utils.py:85-87 | a found span is non-empty, starts two rows below the last `STT` row, ends at the last total row |
| BidPlan.TableSpanFails | src/utils.py:85-86 | the scan fails exactly when a sentinel is missing or the last `STT` row is not at least three rows above the last total row |
| BidPlan.TableSpanExample | src/utils.py:72-87 | `STT` at row 5 and the total at row 12 give rows 7 to 11 |
| BidPlan.ScanLabels | src/utils.py:72-87 | the loop, overwriting `start` and `end` at every match, computes the span or raises |
| BidPlan.FindTableSpan | src/utils.py:73-87 | the scan over a column is the span of that column's labels |
| BidPlan.Column | src/utils.py:73 | `vb.iloc[:, j]` holds cell `j` of every row |
| BidPlan.Below | src/utils.py:107-109 | the listed positions below the width, in order |
| BidPlan.DropList | src/utils.py:106-109 | `drop_cols` is each of columns 0, 1 and 5 the table has |
| BidPlan.Remaining | src/utils.py:110 | the surviving columns lie inside the table |
| BidPlan.RemainingWide | src/utils.py:110 | a table at least six wide keeps `w - 3` columns, in source order |
| BidPlan.DropColumnsWide | src/utils.py:110 | reduced column `j` holds source column `j + 2` below 3 and `j + 3` after |
| BidPlan.ToRecord | src/utils.py:140-160 | a record has exactly the 19 keys |
| BidPlan.RecordDocFields | src/utils.py:141-145 | the record holds the five document-level values under their names |
| BidPlan.RecordHeadFields | src/utils.py:146-150 | the record holds number, name, summary and both amount fields under their names |
| BidPlan.RecordTailFields | src/utils.py:151-159 | the record holds the procedure and contract fields under their names |
| BidPlan.PackageRecordShape | src/utils.py:140-160 | every record has the 19 keys and the sheet's five document-level values |
| BidPlan.PackageRecordAmount | src/utils.py:119-121 | a parsed amount `n` is stored as `n` with words `words(n) + " đồng"`; an unparsed cell is stored raw with no words |
| BidPlan.PackageRecordText | src/utils.py:115-138 | number and name are the colon split of column 0; the selection fields are one line; summary and contract type are stripped; the duration has no `;`; the winner is empty without a twelfth column |
| BidPlan.PackageRecordErrors | src/utils.py:115-134 | a row too narrow for the first three fields, then a parsed amount with no words library, then a row too narrow for the rest |
| BidPlan.BlankRecordIff | src/utils.py:162 | a record is blank exactly when every text of its package is empty and its amount is empty or a blank cell |
| BidPlan.BlankRecordDocFields | src/utils.py:162 | a blank record has empty document-level values |
| BidPlan.BlankRecordHeadFields | src/utils.py:162 | a blank record has empty number, name, summary and amount fields |
| BidPlan.BlankRecordTailFields | src/utils.py:162 | a blank record has empty procedure and contract fields |
| BidPlan.BlankPackageRecord | src/utils.py:162 | a package with every field empty gives a blank record |
| BidPlan.MissingRowHead | src/utils.py:115-121 | missing cells give an empty number, name and summary, a raw missing amount, and no words |
| BidPlan.MissingRowMiddle | src/utils.py:123-128 | missing cells give empty selection, date and contract fields |
| BidPlan.MissingRowTail | src/utils.py:130-138 | missing cells give empty duration, option, supervision and winner fields |
| BidPlan.MissingRowPackage | src/utils.py:115-138 | a row of missing cells reads as the package with every text empty and the raw missing amount |
| BidPlan.MissingRowRecord | src/utils.py:162 | that package's record passes the corrected blank test but not the test as written |
| BidPlan.BlankRowKeptAsWritten | src/utils.py:119-163 | as written, a row of missing cells is never dropped; the corrected test drops it |
| BidPlan.TitledSheetKeepsEveryRow | src/utils.py:140-163 | on a sheet with a title no row is blank, since every record carries the title |
| BidPlan.ReadRowsSnoc | src/utils.py:114-165 | reading one more row appends its record, or stops at its error |
| BidPlan.ReadRowsPrefixError | src/utils.py:114-165 | the first row that raises decides the error of the whole table |
| BidPlan.ReadRowsOk | src/utils.py:114-165 | reading succeeds exactly when every row reads, giving record `i` from row `i` |
| BidPlan.ReducedRows | src/utils.py:100-110 | the reduced table has one row per table row |
| BidPlan.SheetRecord | src/utils.py:96-145 | every record of a sheet has the 19 keys and that sheet's document-level values |
| BidPlan.CarriesSame | src/utils.py:140-145 | records with the same document-level values agree on those five keys |
| BidPlan.ReadRowsShape | src/utils.py:96-145 | all records of a sheet have the 19 keys and share the document-level values |
| BidPlan.UniformOfCarries | src/utils.py:140-145 | records that all carry one sheet's values are pairwise alike on them |
| BidPlan.SheetTableShape | src/utils.py:90-160 | all records of a table have the 19 keys and share the document-level values |
| BidPlan.SheetTableCarries | src/utils.py:96-145 | every record of a sheet's table has the 19 keys and the five document-level values read from the fixed cells above the found table |
| BidPlan.BidPackagesKept | src/utils.py:162-168 | a successful extraction is the table filtered by the variant's blank test, and is non-empty |
| BidPlan.KeptCarries | src/utils.py:140-165 | the filter keeps the document-level values of every record and leaves no blank one |
| BidPlan.BidPackagesShape | src/utils.py:90-169 | a successful extraction is non-empty; every record has the 19 keys and the document-level values of the sheet's fixed cells; as written no record passes the `""`-or-`None` test, corrected no record is blank |
| BidPlan.BidPackagesErrors | src/utils.py:94-168 | a sheet too small for the fixed cells, a scan without the sentinels, a failing row, and a table whose every row the variant's test calls blank each raise their error |
| BidPlan.MissingTableOutcomes | src/utils.py:162-168 | a table whose only row is all missing cells yields that row as written and `NoBidPackages` corrected |
| BidPlan.CollectPackages | src/utils.py:114-165 | the row loop gives, in row order, the records the given blank test keeps, or the first row's error |
| BidPlan.ExtractBidPackages | src/utils.py:90-169 | the extractor computes the specification of `get_list_goi_thau`, with the variant's blank test |
| HeaderTable.CleanHeaderCell | src/utils.py:191-194 | a cleaned header is stripped, and empty for a missing value |
| HeaderTable.CleanHeaderCellHasNoBom | src/utils.py:194 | a cleaned header holds no byte-order mark |
| HeaderTable.DeleteLeadingBom | src/utils.py:194 | removing the marks from a marked text leaves the text |
| HeaderTable.CleanHeaderCellOfKey | src/utils.py:191-194 | a key with surrounding whitespace cleans to the key |
| HeaderTable.CleanHeaderCellOfMarkedKey | src/utils.py:191-194 | the same key behind a byte-order mark cleans to the key |
| HeaderTable.CleanRow | src/utils.py:200 | the cleaned row has one text per cell |
| HeaderTable.HeaderLabels | src/utils.py:199-200 | one cleaned row per sheet row |
| HeaderTable.FirstHeaderRow | src/utils.py:199-213 | the chosen row names every key and no earlier row does; no choice means no row does |
| HeaderTable.ColumnMap | src/utils.py:202-206 | each key maps to a column holding it, with no earlier column holding it |
| HeaderTable.RowRecord | src/utils.py:224 | a data record has exactly the mapped keys |
| HeaderTable.DataRecords | src/utils.py:222-224 | one record per row below the header |
| HeaderTable.ColumnsFit | src/utils.py:224 | the header row's columns lie inside every row of the sheet |
| HeaderTable.HeaderRecordsErrors | src/utils.py:187-219 | an empty key set raises first; otherwise the search fails exactly when no cleaned row names every key |
| HeaderTable.HeaderRecordsNoData | src/utils.py:221-230 | once a header row is found, `NoDataRows` is raised exactly when every row below it reads as a blank record |
| HeaderTable.HeaderOnLastRow | src/utils.py:221-230 | a header on the last row leaves no data and raises |
| HeaderTable.HeaderRecordsShape | src/utils.py:221-231 | a successful extraction is exactly the non-blank records of the rows below the first header row, in row order; it is non-empty and every record has exactly the template keys |
| HeaderTable.BelowHeaderShape | src/utils.py:221-230 | the records below a header row are exactly the non-blank records of the rows below it, in row order, non-empty, over exactly the keys |
| HeaderTable.DataRecordKeys | src/utils.py:224 | every data record has the mapped keys |
| HeaderTable.DataRecordRow | src/utils.py:221-224 | every data record is the record of one row below the header |
| HeaderTable.MatchHeader | src/utils.py:201-208 | the inner loop succeeds exactly when the row names every key, and then builds the first-column map |
| HeaderTable.FindHeaderRow | src/utils.py:199-213 | the outer loop finds the first covering row and its column map |
| HeaderTable.CollectRecords | src/utils.py:221-227 | the second loop gives the non-blank records of the rows below the header, in order |
| HeaderTable.ExtractHeaderRecords | src/utils.py:180-231 | the extractor computes `extract_records_from_header_table` of the grid |
| Render.LoadTemplateKeys | src/main.py:14-19 | the keys are returned exactly when the template declares some; otherwise it raises |
| Render.PadWidth | src/main.py:33 | the pad width is `max(3, len(str(n)))`: at least both 3 and the digit count of `n`, and equal to one of them |
| Render.PadWidthSmall | src/main.py:33 | up to 999 records take three digits, so 7 records give 3 |
| Render.PadWidthThousands | src/main.py:33 | 1000 to 9999 records take four digits |
| Render.FileNameLayout | src/main.py:38 | every name is the pad width of digits spelling its index, then `.docx` |
| Render.FileNamesDistinct | src/main.py:38 | different indexes give different names |
| Render.Context | src/main.py:36 | a context has exactly the template keys |
| Render.ContextValues | src/main.py:36 | the context holds the record's value for each template key it has, and the empty text for the others |
| Render.ContextIgnoresExtraKeys | src/main.py:36 | keys outside the template make no difference to the context |
| Render.Documents | src/main.py:35-41 | one document per record |
| Render.RenderErrors | src/main.py:28-31 | a template without keys raises before an empty record list does; rendering succeeds exactly when neither holds |
| Render.RenderShape | src/main.py:33-41 | document `i` is named `FileName(i + 1, PadWidth(n))`, which spells `i + 1` in the pad width's digits, and has record `i`'s context over exactly the template keys |
| Render.RenderNamesDistinct | src/main.py:35-38 | no two documents of one run share a name |
| Render.BuildDocuments | src/main.py:35-41 | the loop produces the documents in index order |
| Render.RenderDocuments | src/main.py:22-44 | `render_documents` computes the keys check, the empty-records check and the documents |
| Pipeline.SheetNames | src/utils.py:185 | one name per sheet |
| Pipeline.SheetNamed | src/utils.py:94 | reading a missing sheet raises with its name |
| Pipeline.SheetNamedFirst | src/utils.py:185 | the sheet read is the first with that name |
| Pipeline.SheetNamedRectangular | src/utils.py:94 | the sheet read is a rectangular grid |
| Pipeline.BidSheetName | src/main.py:71 | no name and the empty name both read `Bảng 3`; any other name is used as given |
| Pipeline.HeaderTableWithoutSheetFails | src/utils.py:185-200 | as written, the header-table document with no sheet name fails whenever the template has keys |
| Pipeline.HeaderTableRecords | src/utils.py:180-186 | with a sheet name, the intended extractor is the written one |
| Pipeline.HeaderTableDefaultSheet | src/utils.py:185 | with no sheet name the intended extractor reads the first sheet |
| Pipeline.GenerateHeaderTableVariants | src/main.py:74-79 | as written the header-table document without a sheet name fails with `NotADataFrame`; corrected it renders the first sheet; with a sheet name the two agree |
| Pipeline.GenerateErrors | src/main.py:61-82 | a missing workbook, then a missing template, then a template without keys, then an unknown document type |
| Pipeline.GenerateDispatch | src/main.py:68-88 | a successful run renders exactly the chosen extractor's records; the bid-plan document reads the named sheet or `Bảng 3` |
| Pipeline.GenerateDocuments | src/main.py:47-88 | `generate_documents` computes the checks, the dispatch and the render, as written or corrected by the variant |

## Left out

- Reading the workbook (`pandas.read_excel`) is not modelled. The model takes the workbook as a list of named rectangular grids of cells. It takes the bid-plan sheet as the reader presents it with its first row as column labels (`header=0`), and the header-table sheet with no header row (`header=None`).
- The template engine is not modelled: parsing the template, `render`, `save` and the discovery of placeholders. The set of declared placeholders is an input, and a rendered document is its file name and its context.
- Directory creation, path resolution and the console output are left out. They are I/O. File existence is a pair of input flags.
- The command-line parser is left out. It only fills the arguments of `generate_documents`.
- Number-to-words conversion is left out. It is a foreign library, including its capitalisation, so it is an uninterpreted input function `words`, absent (`None`) when the library is not installed.
- Floating-point behaviour is left out. A float is a `real` together with the text `str()` prints for it, because that shortest round-trip text is not computed here.
- Unicode digits are left out. `isdigit` is modelled on ASCII digits only, so text in other scripts' digits, which Python accepts as digits and then fails to convert, is not modelled.
- Cells.ValidDate: years are four digits wide (1 to 9999); the layout of `strftime("%Y")` for years below 1000 is not stated.
- Times are taken to have zero seconds, so `str()` of a time or date-and-time ends in `:00`.
- Python's `bool` values, which are also integers, and other exotic cell types are not part of `Cell`.
- BidPlan.FindTableSpan: the labels of column 0 are computed before the scan instead of inside the loop; the result is the same.
- Render.BuildDocuments: the context and file name of each step are computed through one function of the index, which makes the same document.
- The GUI front end and the demonstration script are not part of this model.

## Findings

| source | as written | input that shows it | evidently intended | confidence | as-written member | corrected member |
|---|---|---|---|---|---|---|
| src/utils.py:185, src/main.py:74-79 | with no sheet name the header-table document passes `sheet_name=None` to the reader, which then returns every sheet at once as a dictionary; the first row access on it fails | any workbook, a template with at least one key, document type `header_table`, no `--sheet-name` | read the first sheet, as the reader does by default | high, not executed | Pipeline.HeaderTableWithoutSheetFails | Pipeline.HeaderTableDefaultSheet |
| src/utils.py:120, src/utils.py:162 | an unparsed amount is kept as the raw cell, which is NaN for a blank cell; the blank test accepts only `""` and `None`, so a row of blank cells is never dropped | a sheet with empty document-level values and a table row whose cells are all blank | a blank amount cell counts as blank, so the row is dropped | low, not executed | BidPlan.BlankRowKeptAsWritten | BidPlan.MissingTableOutcomes |
