/** The export handler (server/controllers/exportController.js): select the
    caller's entries in a range, oldest first; 404 when there are none; then
    render a title and three paragraphs per entry (date, feeling, text) as a
    Word document or a PDF. A document is modelled as its sequence of styled
    text blocks; fonts, sizes and spacing are left out. */
module ExportController {
  import opened Common
  import opened DiaryEntryModel
  import opened EntryQuery
  import AiController

  /** The export side's own range names: "7days", "month" and "year" give a
      lower bound only; "custom" gives both bounds, and a missing date there
      is an invalid `Date` the query cannot cast (a 500); "all" and any other
      name give no filter. */
  function ExportFilter(range: Option<string>, customStart: Option<int>, customEnd: Option<int>,
                        clock: AiController.Clock): (r: Result<DateFilter, int>)
    ensures range == Some("7days") ==> r == Ok(From(clock.weekAgo))
    ensures range == Some("month") ==> r == Ok(From(clock.monthAgo))
    ensures range == Some("year") ==> r == Ok(From(clock.yearAgo))
    ensures range == Some("custom") && customStart.Some? && customEnd.Some? ==>
      r == Ok(Between(customStart.value, customEnd.value))
    ensures r.Err? <==> range == Some("custom") && (customStart.None? || customEnd.None?)
    ensures r.Err? ==> r.error == SERVER_ERROR
    ensures r.Ok? && r.value.NoFilter? <==>
      range !in {Some("7days"), Some("month"), Some("year"), Some("custom")}
  {
    if range == Some("7days") then Ok(From(clock.weekAgo))
    else if range == Some("month") then Ok(From(clock.monthAgo))
    else if range == Some("year") then Ok(From(clock.yearAgo))
    else if range == Some("custom") then
      if customStart.Some? && customEnd.Some? then Ok(Between(customStart.value, customEnd.value))
      else Err(SERVER_ERROR)
    else Ok(NoFilter)
  }

  /** The export's range names are not the summary's: the summary's names
      select nothing here and the export's select nothing there. */
  lemma RangeNamesDiffer(clock: AiController.Clock, customStart: Option<int>, customEnd: Option<int>)
    ensures forall name :: name in {"weekly", "monthly", "yearly"} ==>
      ExportFilter(Some(name), customStart, customEnd, clock) == Ok(NoFilter)
    ensures forall name :: name in {"7days", "month", "year"} ==>
      AiController.GetStartDate(Some(name), clock).None?
  {
  }

  datatype Style = Title | DateLine | FeelingLine | Body

  datatype Block = Block(style: Style, text: string)

  const TITLE: string := "My Diary Entries from The Narrative Weaver"

  /** `entry.feeling ? "Feeling: " + feeling : ""`. */
  function FeelingText(feeling: Option<string>): (r: string)
    ensures Truthy(feeling) ==> r == "Feeling: " + feeling.value
    ensures !Truthy(feeling) ==> r == ""
  {
    if Truthy(feeling) then "Feeling: " + feeling.value else ""
  }

  /** The three paragraphs of one entry; `localeString` is `toLocaleString`. */
  function EntryBlocks(e: DiaryEntry, localeString: int -> string): (r: seq<Block>)
    ensures |r| == 3
    ensures r[0].style == DateLine && r[1].style == FeelingLine && r[2] == Block(Body, e.text)
    ensures forall b :: b in r ==> b.style != Title
  {
    [Block(DateLine, localeString(e.createdAt)), Block(FeelingLine, FeelingText(e.feeling)), Block(Body, e.text)]
  }

  /** `entries.map(...).flat()`. */
  function Paragraphs(es: seq<DiaryEntry>, localeString: int -> string): (r: seq<Block>)
    ensures |r| == 3 * |es|
    ensures forall b :: b in r ==> b.style != Title
  {
    if es == [] then [] else EntryBlocks(es[0], localeString) + Paragraphs(es[1..], localeString)
  }

  /** Exactly three paragraphs per entry, and paragraph 3i + k is the k-th
      paragraph of entry i: date, then feeling, then text, in entry order. */
  lemma {:induction false} ParagraphsAt(es: seq<DiaryEntry>, localeString: int -> string, i: nat, k: nat)
    requires i < |es| && k < 3
    ensures |Paragraphs(es, localeString)| == 3 * |es|
    ensures Paragraphs(es, localeString)[3 * i + k] == EntryBlocks(es[i], localeString)[k]
  {
    if i > 0 {
      ParagraphsAt(es[1..], localeString, i - 1, k);
    }
  }

  /** Appending an entry appends its three paragraphs. */
  lemma {:induction false} ParagraphsAppend(es: seq<DiaryEntry>, e: DiaryEntry, localeString: int -> string)
    ensures Paragraphs(es + [e], localeString) == Paragraphs(es, localeString) + EntryBlocks(e, localeString)
  {
    if es == [] {
      assert [e][1..] == [];
    } else {
      assert (es + [e])[1..] == es[1..] + [e];
      ParagraphsAppend(es[1..], e, localeString);
    }
  }

  /** The Word document: the title paragraph, then every entry's paragraphs. */
  function DocxBlocks(es: seq<DiaryEntry>, localeString: int -> string): (r: seq<Block>)
    ensures |r| == 1 + 3 * |es|
    ensures r[0] == Block(Title, TITLE) && r[1..] == Paragraphs(es, localeString)
  {
    [Block(Title, TITLE)] + Paragraphs(es, localeString)
  }

  /** The title precedes every entry paragraph, and no entry paragraph is styled as a title. */
  lemma DocxTitleFirst(es: seq<DiaryEntry>, localeString: int -> string)
    ensures var d := DocxBlocks(es, localeString);
      |d| == 1 + 3 * |es| && d[0] == Block(Title, TITLE) &&
      forall j :: 1 <= j < |d| ==> d[j].style != Title
  {
    var d := DocxBlocks(es, localeString);
    forall j | 1 <= j < |d| ensures d[j].style != Title {
      assert d[j] == d[1..][j - 1];
    }
  }

  /** The PDF branch: write the title, then for each entry in order its date,
      its feeling line and its text. It writes the same blocks as the Word
      document. */
  method PdfBlocks(es: seq<DiaryEntry>, localeString: int -> string) returns (doc: seq<Block>)
    ensures doc == DocxBlocks(es, localeString)
  {
    doc := [Block(Title, TITLE)];
    var i := 0;
    while i < |es|
      invariant 0 <= i <= |es|
      invariant doc == [Block(Title, TITLE)] + Paragraphs(es[..i], localeString)
    {
      var e := es[i];
      var date := localeString(e.createdAt);
      var feeling := FeelingText(e.feeling);
      doc := doc + [Block(DateLine, date)];
      doc := doc + [Block(FeelingLine, feeling)];
      doc := doc + [Block(Body, e.text)];
      ParagraphsAppend(es[..i], e, localeString);
      assert es[..i + 1] == es[..i] + [e];
      i := i + 1;
    }
    assert es[..|es|] == es;
  }

  /** What the handler sends: a file, or an error status with its message. */
  datatype ExportReply =
    | File(filename: string, contentType: string, blocks: seq<Block>)
    | Failure(status: int, message: string)

  const DOCX_TYPE: string := "application/vnd.openxmlformats-officedocument.wordprocessingml.document"
  const PDF_TYPE: string := "application/pdf"

  /** The reply once the entries are selected: 404 for none, whatever the
      format; otherwise the document for "docx" or "pdf" and 400 for any
      other format. */
  function Render(format: Option<string>, es: seq<DiaryEntry>, localeString: int -> string): (r: ExportReply)
    ensures |es| == 0 ==> r == Failure(NOT_FOUND, "No entries found for the selected range.")
    ensures r.File? <==> |es| > 0 && (format == Some("docx") || format == Some("pdf"))
    ensures r.File? ==> r.blocks == DocxBlocks(es, localeString)
    ensures r.File? && format == Some("docx") ==> r.filename == "MyDiary.docx" && r.contentType == DOCX_TYPE
    ensures r.File? && format == Some("pdf") ==> r.filename == "MyDiary.pdf" && r.contentType == PDF_TYPE
    ensures |es| > 0 && !r.File? ==> r == Failure(BAD_REQUEST, "Unsupported format")
  {
    if |es| == 0 then Failure(NOT_FOUND, "No entries found for the selected range.")
    else if format == Some("docx") then File("MyDiary.docx", DOCX_TYPE, DocxBlocks(es, localeString))
    else if format == Some("pdf") then File("MyDiary.pdf", PDF_TYPE, DocxBlocks(es, localeString))
    else Failure(BAD_REQUEST, "Unsupported format")
  }

  /** exportEntries. `selected` is what the entry query returned (empty when
      the query failed). */
  method ExportEntries(entries: map<EntryId, DiaryEntry>, caller: UserId, format: Option<string>,
                       range: Option<string>, customStart: Option<int>, customEnd: Option<int>,
                       clock: AiController.Clock, localeString: int -> string)
    returns (reply: ExportReply, selected: seq<DiaryEntry>)
    requires WellKeyed(entries)
    ensures ExportFilter(range, customStart, customEnd, clock).Err? ==>
      reply == Failure(SERVER_ERROR, "Failed to export entries.") && selected == []
    ensures ExportFilter(range, customStart, customEnd, clock).Ok? ==>
      && IsAnswer(entries, caller, ExportFilter(range, customStart, customEnd, clock).value, Ascending, selected)
      && reply == Render(format, selected, localeString)
  {
    var filter := ExportFilter(range, customStart, customEnd, clock);
    if filter.Err? {
      return Failure(SERVER_ERROR, "Failed to export entries."), [];
    }
    selected := Find(entries, caller, filter.value, Ascending);
    if |selected| == 0 {
      return Failure(NOT_FOUND, "No entries found for the selected range."), selected;
    }
    if format == Some("docx") {
      reply := File("MyDiary.docx", DOCX_TYPE, DocxBlocks(selected, localeString));
    } else if format == Some("pdf") {
      var doc := PdfBlocks(selected, localeString);
      reply := File("MyDiary.pdf", PDF_TYPE, doc);
    } else {
      reply := Failure(BAD_REQUEST, "Unsupported format");
    }
  }
}
