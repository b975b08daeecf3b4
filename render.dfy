/** `load_template_keys` and `render_documents` (src/main.py:14-44): the
    template's placeholder set, the zero-padded output names, and the
    context each record is rendered with. A rendered document is its file
    name and its context; the word-processing engine is not modelled. */
module Render {

  import opened Wrappers
  import opened Strings
  import opened Records

  /** `load_template_keys`: the placeholders the template declares, which
      must not be none. `discovered` is what the template engine reports. */
  function LoadTemplateKeys(discovered: set<string>): (r: Result<set<string>, Error>)
    ensures r.Ok? <==> discovered != {}
    ensures r.Ok? ==> r.value == discovered
    ensures r.Err? ==> r.error == NoTemplateKeys
  {
    if discovered == {} then Err(NoTemplateKeys) else Ok(discovered)
  }

  /** `max(3, len(str(len(records))))`. */
  function PadWidth(n: nat): (w: nat)
    ensures w >= 3 && w >= |NatToString(n)|
    ensures w == 3 || w == |NatToString(n)|
  {
    Max(3, |NatToString(n)|)
  }

  /** Up to 999 records take three digits. */
  lemma PadWidthSmall(n: nat)
    requires n <= 999
    ensures PadWidth(n) == 3
  {
    assert |NatToString(9)| == 1;
    assert |NatToString(99)| == 2;
    assert |NatToString(999)| == 3;
    DigitCountMonotone(n, 999);
  }

  /** From 1000 to 9999 records take four. */
  lemma PadWidthThousands(n: nat)
    requires 1000 <= n <= 9999
    ensures PadWidth(n) == 4
  {
    assert |NatToString(1)| == 1;
    assert |NatToString(10)| == 2;
    assert |NatToString(100)| == 3;
    assert |NatToString(1000)| == 4;
    assert |NatToString(9)| == 1;
    assert |NatToString(99)| == 2;
    assert |NatToString(999)| == 3;
    assert |NatToString(9999)| == 4;
    DigitCountMonotone(1000, n);
    DigitCountMonotone(n, 9999);
  }

  /** `f"{idx:0{pad}d}.docx"`. */
  function FileName(idx: nat, pad: nat): string {
    ZeroPad(idx, pad) + ".docx"
  }

  /** Every name of a batch of `total` documents is the pad width of
      digits spelling its index, then `.docx`. */
  lemma FileNameLayout(idx: nat, total: nat)
    requires idx <= total
    ensures var name := FileName(idx, PadWidth(total));
      && |name| == PadWidth(total) + 5
      && name[PadWidth(total)..] == ".docx"
      && IsDigits(name[..PadWidth(total)])
      && DecimalValue(name[..PadWidth(total)]) == idx
  {
    var pad := PadWidth(total);
    DigitCountMonotone(idx, total);
    ValueOfZeroPad(idx, pad);
    assert FileName(idx, pad)[..pad] == ZeroPad(idx, pad);
    assert FileName(idx, pad)[pad..] == ".docx";
  }

  /** Different indexes give different names. */
  lemma FileNamesDistinct(i: nat, j: nat, pad: nat)
    requires i != j
    ensures FileName(i, pad) != FileName(j, pad)
  {
    if FileName(i, pad) == FileName(j, pad) {
      var a := ZeroPad(i, pad);
      var b := ZeroPad(j, pad);
      assert |a| == |b|;
      assert a == FileName(i, pad)[..|a|];
      assert b == FileName(j, pad)[..|b|];
      ZeroPadInjective(i, j, pad);
    }
  }

  /** `{k: rec.get(k, "") for k in template_keys}`. */
  function Context(rec: Record, keys: set<string>): (ctx: Record)
    ensures ctx.Keys == keys
  {
    map k | k in keys :: if k in rec then rec[k] else Str("")
  }

  /** The context holds the record's value for every template key the
      record has, and the empty text for every other. */
  lemma ContextValues(rec: Record, keys: set<string>, k: string)
    requires k in keys
    ensures k in rec ==> Context(rec, keys)[k] == rec[k]
    ensures k !in rec ==> Context(rec, keys)[k] == Str("")
  {
  }

  /** Keys the template does not declare make no difference: two records
      that agree on the template keys give the same context. */
  lemma ContextIgnoresExtraKeys(a: Record, b: Record, keys: set<string>)
    requires forall k :: k in keys ==> (k in a <==> k in b)
    requires forall k :: k in keys && k in a ==> a[k] == b[k]
    ensures Context(a, keys) == Context(b, keys)
  {
  }

  /** One output document. */
  datatype Document = Document(name: string, context: Record)

  /** The document of record `i` (counting from 0) of a batch. */
  function DocumentAt(records: seq<Record>, keys: set<string>, i: nat): Document
    requires i < |records|
  {
    Document(FileName(i + 1, PadWidth(|records|)), Context(records[i], keys))
  }

  /** The documents of `records`, one per record, in order, numbered from
      1. */
  function Documents(records: seq<Record>, keys: set<string>): (docs: seq<Document>)
    ensures |docs| == |records|
  {
    seq(|records|, i requires 0 <= i < |records| => DocumentAt(records, keys, i))
  }

  /** `render_documents`: the template's keys first, then a non-empty list
      of records. */
  function RenderAll(records: seq<Record>, discovered: set<string>): Result<seq<Document>, Error> {
    match LoadTemplateKeys(discovered)
    case Err(e) => Err(e)
    case Ok(keys) => if records == [] then Err(EmptyRecords) else Ok(Documents(records, keys))
  }

  /** The errors, in the order they are raised: a template without
      placeholders, then an empty record list. */
  lemma RenderErrors(records: seq<Record>, discovered: set<string>)
    ensures discovered == {} ==> RenderAll(records, discovered) == Err(NoTemplateKeys)
    ensures discovered != {} && records == [] ==> RenderAll(records, discovered) == Err(EmptyRecords)
    ensures RenderAll(records, discovered).Ok? <==> discovered != {} && records != []
  {
  }

  /** A successful render gives one document per record, document `i` for
      record `i`: named by its one-based index, with the context of that
      record over exactly the template keys. */
  lemma RenderShape(records: seq<Record>, discovered: set<string>, i: nat)
    requires RenderAll(records, discovered).Ok? && i < |records|
    ensures var docs := RenderAll(records, discovered).value;
      && |docs| == |records|
      && docs[i].context == Context(records[i], discovered)
      && docs[i].context.Keys == discovered
      && docs[i].name == FileName(i + 1, PadWidth(|records|))
      && |docs[i].name| == PadWidth(|records|) + 5
      && DecimalValue(docs[i].name[..PadWidth(|records|)]) == i + 1
  {
    FileNameLayout(i + 1, |records|);
  }

  /** No two documents of one render share a name. */
  lemma RenderNamesDistinct(records: seq<Record>, discovered: set<string>, i: nat, j: nat)
    requires RenderAll(records, discovered).Ok? && i < j < |records|
    ensures RenderAll(records, discovered).value[i].name != RenderAll(records, discovered).value[j].name
  {
    var docs := RenderAll(records, discovered).value;
    assert docs == Documents(records, discovered);
    assert docs[i] == DocumentAt(records, discovered, i);
    assert docs[j] == DocumentAt(records, discovered, j);
    FileNamesDistinct(i + 1, j + 1, PadWidth(|records|));
  }

  /** The loop of `render_documents`: one document per record, numbered
      from 1. */
  method BuildDocuments(records: seq<Record>, keys: set<string>) returns (docs: seq<Document>)
    ensures docs == Documents(records, keys)
  {
    docs := [];
    var idx := 1;
    ghost var all := Documents(records, keys);
    while idx <= |records|
      invariant 1 <= idx <= |records| + 1
      invariant docs == all[..idx - 1]
    {
      assert all[..idx] == all[..idx - 1] + [DocumentAt(records, keys, idx - 1)];
      docs := docs + [DocumentAt(records, keys, idx - 1)];
      idx := idx + 1;
    }
    assert all[..|records|] == all;
  }

  /** `render_documents`. */
  method RenderDocuments(records: seq<Record>, discovered: set<string>) returns (r: Result<seq<Document>, Error>)
    ensures r == RenderAll(records, discovered)
  {
    var keys := LoadTemplateKeys(discovered);
    if keys.Err? {
      return Err(keys.error);
    }
    if records == [] {
      return Err(EmptyRecords);
    }
    var docs := BuildDocuments(records, keys.value);
    return Ok(docs);
  }
}
