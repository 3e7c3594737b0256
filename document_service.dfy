/** The document service: the preview chosen for an uploaded file, the
    document record built by `processDocument` around the mock processing
    result, and the keyword-routed chat responder
    `generateDocumentResponse`. The artificial delays are left out; every
    value the browser or `Math.random` supplies is a parameter. */
module DocumentService {
  import opened Wrappers
  import opened Strings
  import opened Types

  // ---------------------------------------------------------------------------
  // Preview
  // ---------------------------------------------------------------------------

  /** The icon used for every file that is not an image. */
  const Placeholder: string := "/placeholder.svg"

  /** Why `getFilePreview` rejects: the data-URL read failed or gave nothing. */
  datatype PreviewError = ReadFailed

  /** `getFilePreview`. For an image the outcome of the `FileReader`
      data-URL read is `read`: `None` when the reader signalled an error,
      `Some(data)` when it loaded with result `data` (an empty result is
      falsy and rejected too). Every other MIME type, PDF included,
      resolves to the placeholder without reading. */
  function FilePreview(mimeType: string, read: Option<string>): (r: Result<string, PreviewError>)
    ensures !StartsWith(mimeType, "image/") ==> r == Ok(Placeholder)
    ensures StartsWith(mimeType, "image/") ==>
              (r.Ok? <==> read.Some? && read.value != "") && (r.Ok? ==> r.value == read.value)
  {
    if StartsWith(mimeType, "image/") then
      match read
      case Some(data) => if data != "" then Ok(data) else Err(ReadFailed)
      case None => Err(ReadFailed)
    else if mimeType == "application/pdf" then
      Ok(Placeholder)
    else
      Ok(Placeholder)
  }

  /** A PDF gets the same preview as any other non-image file. */
  lemma PdfPreviewLikeOtherFiles(other: string, read1: Option<string>, read2: Option<string>)
    requires !StartsWith(other, "image/")
    ensures FilePreview("application/pdf", read1) == FilePreview(other, read2) == Ok(Placeholder)
  {
    assert "application/pdf"[0] != "image/"[0];
  }

  // ---------------------------------------------------------------------------
  // Mock processing result
  // ---------------------------------------------------------------------------

  const MockText: string :=
    "This is a sample document containing important information. The document appears to be a business letter or invoice with various sections including contact details, pricing information, and terms of service."

  const MockSummary: string :=
    "This document appears to be a business invoice from Acme Corporation to John Smith dated January 15, 2023 for $1,250.00."

  const MockEntities: seq<Entity> := [
    Entity("John Smith", "PERSON", 0.92),
    Entity("Acme Corporation", "ORGANIZATION", 0.89),
    Entity("January 15, 2023", "DATE", 0.95),
    Entity("$1,250.00", "AMOUNT", 0.97)
  ]

  /** `processMockDocument`: the same fixed result for every file. */
  function MockResult(): (r: ProcessingResult)
    ensures ConfidencesInRange(r)
    ensures r.text != "" && r.summary != "" && |r.entities| == 4
  {
    ProcessingResult(MockText, MockEntities, MockSummary, 0.93)
  }

  // ---------------------------------------------------------------------------
  // Document record
  // ---------------------------------------------------------------------------

  /** What the browser and `Math.random` supply to one `processDocument`
      call: the outcome of the preview's data-URL read, the random id, the
      object URL and the current time. */
  datatype BrowserEnv = BrowserEnv(previewRead: Option<string>, id: string, objectUrl: string, now: nat)

  /** `processDocument` on the mock path. The feature argument is not used.
      A rejected preview is rethrown, so the call fails; otherwise the record
      copies the file's name, type and size, carries the preview and is
      marked processed with the mock result. */
  function ProcessDocument(file: FileInfo, feature: FeatureType, env: BrowserEnv): (r: Result<DocumentFile, PreviewError>)
    ensures r.Ok? <==> FilePreview(file.mimeType, env.previewRead).Ok?
    ensures r.Err? ==> r.error == FilePreview(file.mimeType, env.previewRead).error
    ensures r.Ok? ==>
              && r.value.processed
              && r.value.name == file.name
              && r.value.mimeType == file.mimeType
              && r.value.size == file.size
              && r.value.preview == Some(FilePreview(file.mimeType, env.previewRead).value)
              && r.value.processingResult == Some(MockResult())
  {
    match FilePreview(file.mimeType, env.previewRead)
    case Err(e) => Err(e)
    case Ok(previewUrl) =>
      Ok(DocumentFile(
        id := env.id,
        name := file.name,
        mimeType := file.mimeType,
        size := file.size,
        url := env.objectUrl,
        preview := Some(previewUrl),
        uploadDate := env.now,
        processed := true,
        processingResult := Some(MockResult())))
  }

  /** The OCR and Vision modes give the same outcome. */
  lemma ProcessDocumentIgnoresFeature(file: FileInfo, env: BrowserEnv)
    ensures ProcessDocument(file, Ocr, env) == ProcessDocument(file, Vision, env)
  {
  }

  /** A document is ready for questions when it is processed and has a result. */
  predicate Ready(document: Option<DocumentFile>)
  {
    document.Some? && document.value.processed && document.value.processingResult.Some?
  }

  /** Every document `processDocument` returns is ready and all of its
      confidences lie in [0, 1]. */
  lemma ProcessedDocumentIsReady(file: FileInfo, feature: FeatureType, env: BrowserEnv)
    requires ProcessDocument(file, feature, env).Ok?
    ensures Ready(Some(ProcessDocument(file, feature, env).value))
    ensures ConfidencesInRange(ProcessDocument(file, feature, env).value.processingResult.value)
  {
  }

  // ---------------------------------------------------------------------------
  // Chat responder
  // ---------------------------------------------------------------------------

  const Apology: string :=
    "I'm sorry, I don't have a processed document to analyze. Please upload and process a document first."
  const NoEntitiesReply: string := "I didn't detect any named entities in this document."
  const EntitiesHeader: string := "I found these entities in the document:\n\n"
  const ContentHeader: string := "Here's the text content of the document:\n\n"

  /** The keyword groups, tested on the lower-cased query. */
  predicate AsksForSummary(lq: string) { Contains(lq, "summary") || Contains(lq, "summarize") }
  predicate AsksForEntities(lq: string) { Contains(lq, "entities") || Contains(lq, "people") || Contains(lq, "names") }
  predicate AsksForContent(lq: string) { Contains(lq, "content") || Contains(lq, "text") }

  /** Which reply template a query selects. */
  datatype Route = SummaryRoute | EntityRoute | ContentRoute | DefaultRoute

  /** The first keyword group, in the order summary, entities, content,
      that the lower-cased query mentions selects the template. */
  function RouteQuery(query: string): (r: Route)
    ensures r == SummaryRoute <==> AsksForSummary(Lower(query))
    ensures r == EntityRoute <==> !AsksForSummary(Lower(query)) && AsksForEntities(Lower(query))
    ensures r == ContentRoute <==>
              !AsksForSummary(Lower(query)) && !AsksForEntities(Lower(query)) && AsksForContent(Lower(query))
    ensures r == DefaultRoute <==>
              !AsksForSummary(Lower(query)) && !AsksForEntities(Lower(query)) && !AsksForContent(Lower(query))
  {
    var lq := Lower(query);
    if AsksForSummary(lq) then SummaryRoute
    else if AsksForEntities(lq) then EntityRoute
    else if AsksForContent(lq) then ContentRoute
    else DefaultRoute
  }

  /** `Math.round(c * 100)`: the nearest integer, halves rounded up. */
  function Percent(c: real): (r: int)
    ensures r as real - 0.5 <= c * 100.0 < r as real + 0.5
    ensures InUnitInterval(c) ==> 0 <= r <= 100
  {
    (c * 100.0 + 0.5).Floor
  }

  /** One line of the entity reply. */
  function EntityLine(e: Entity): string
  {
    "- " + e.text + " (" + e.kind + ", " + IntToString(Percent(e.confidence)) + "% confidence)"
  }

  /** `entities.map(...)`: one line per entity, in list order. */
  function EntityLines(es: seq<Entity>): (r: seq<string>)
    ensures |r| == |es|
    ensures forall i :: 0 <= i < |es| ==> r[i] == EntityLine(es[i])
  {
    if es == [] then [] else [EntityLine(es[0])] + EntityLines(es[1..])
  }

  /** `lines.join('\n')`. */
  function JoinLines(lines: seq<string>): string
  {
    if |lines| == 0 then ""
    else if |lines| == 1 then lines[0]
    else lines[0] + "\n" + JoinLines(lines[1..])
  }

  /** Where line `i` starts in `JoinLines(lines)`: after each earlier line
      and its line feed. */
  function LineStart(lines: seq<string>, i: nat): (r: nat)
    requires i <= |lines|
  {
    if i == 0 then 0 else |lines[0]| + 1 + LineStart(lines[1..], i - 1)
  }

  /** A slice inside the second part of a concatenation is a slice of that part. */
  lemma SliceOfSuffix(a: string, b: string, k: nat, len: nat)
    requires k + len <= |b|
    ensures (a + b)[|a| + k..|a| + k + len] == b[k..k + len]
  {
  }

  /** Each line appears, whole, at its start offset; a line feed follows
      every line but the last; and the start offsets increase with `i`, so
      the lines stand in list order. */
  lemma {:induction false} JoinLinesLayout(lines: seq<string>, i: nat)
    requires i < |lines|
    ensures OccursAt(JoinLines(lines), lines[i], LineStart(lines, i))
    ensures i + 1 < |lines| ==>
              && LineStart(lines, i + 1) == LineStart(lines, i) + |lines[i]| + 1
              && OccursAt(JoinLines(lines), "\n", LineStart(lines, i) + |lines[i]|)
  {
    if |lines| == 1 {
      assert JoinLines(lines) == lines[0];
    } else {
      var rest := JoinLines(lines[1..]);
      var head := lines[0] + "\n";
      assert JoinLines(lines) == head + rest;
      if i == 0 {
        assert (head + rest)[..|lines[0]|] == lines[0];
        assert (head + rest)[|lines[0]|..|lines[0]| + 1] == "\n";
      } else {
        JoinLinesLayout(lines[1..], i - 1);
        var s := LineStart(lines[1..], i - 1);
        SliceOfSuffix(head, rest, s, |lines[i]|);
        if i + 1 < |lines| {
          SliceOfSuffix(head, rest, s + |lines[i]|, 1);
        }
      }
    }
  }

  /** The fallback reply. */
  function DefaultReply(name: string, result: ProcessingResult): string
  {
    "I've analyzed the document \"" + name + "\". It contains " + NatToString(|result.text|)
    + " characters of text and " + NatToString(|result.entities|) + " recognized entities. "
    + result.summary + " What specific information would you like to know about it?"
  }

  /** `generateDocumentResponse`: the fixed apology without a ready document;
      otherwise the template the query's route selects. */
  function GenerateDocumentResponse(query: string, document: Option<DocumentFile>): (r: string)
    ensures !Ready(document) ==> r == Apology
    ensures Ready(document) && AsksForSummary(Lower(query)) ==> r == document.value.processingResult.value.summary
  {
    if !Ready(document) then Apology
    else
      var result := document.value.processingResult.value;
      match RouteQuery(query)
      case SummaryRoute => result.summary
      case EntityRoute =>
        if |result.entities| == 0 then NoEntitiesReply
        else EntitiesHeader + JoinLines(EntityLines(result.entities))
      case ContentRoute => ContentHeader + result.text
      case DefaultRoute => DefaultReply(document.value.name, result)
  }

  /** Matching ignores case: queries that differ only in the case of their
      letters get the same reply. */
  lemma ResponseIgnoresCase(q1: string, q2: string, document: Option<DocumentFile>)
    requires SameUpToCase(q1, q2)
    ensures GenerateDocumentResponse(q1, document) == GenerateDocumentResponse(q2, document)
  {
    SameUpToCaseLower(q1, q2);
  }

  /** The joined lines keep their layout behind a header. */
  lemma HeaderedLinesLayout(header: string, lines: seq<string>, i: nat)
    requires i < |lines|
    ensures OccursAt(header + JoinLines(lines), lines[i], |header| + LineStart(lines, i))
  {
    JoinLinesLayout(lines, i);
  }

  /** The entity reply: the fixed "didn't detect" string for an empty list,
      otherwise the header followed by the joined entity lines. */
  lemma EntityReplyShape(query: string, document: Option<DocumentFile>)
    requires Ready(document) && RouteQuery(query) == EntityRoute
    ensures var es := document.value.processingResult.value.entities;
            GenerateDocumentResponse(query, document)
              == if es == [] then NoEntitiesReply else EntitiesHeader + JoinLines(EntityLines(es))
  {
  }

  /** A non-empty entity reply starts with the header and then holds one
      line per entity, each at its offset, in list order. */
  lemma EntityReplyLines(query: string, document: Option<DocumentFile>, i: nat)
    requires Ready(document) && RouteQuery(query) == EntityRoute
    requires i < |document.value.processingResult.value.entities|
    ensures var es := document.value.processingResult.value.entities;
            var r := GenerateDocumentResponse(query, document);
            && StartsWith(r, EntitiesHeader)
            && OccursAt(r, EntityLine(es[i]), |EntitiesHeader| + LineStart(EntityLines(es), i))
  {
    var es := document.value.processingResult.value.entities;
    var lines := EntityLines(es);
    var r := GenerateDocumentResponse(query, document);
    EntityReplyShape(query, document);
    assert r == EntitiesHeader + JoinLines(lines);
    assert r[..|EntitiesHeader|] == EntitiesHeader;
    HeaderedLinesLayout(EntitiesHeader, lines, i);
  }

  /** The content reply is the fixed prefix followed by the whole text, and
      it is given only to queries with no summary or entity keyword. */
  lemma ContentReply(query: string, document: Option<DocumentFile>)
    requires Ready(document) && RouteQuery(query) == ContentRoute
    ensures !AsksForSummary(Lower(query)) && !AsksForEntities(Lower(query))
    ensures GenerateDocumentResponse(query, document) == ContentHeader + document.value.processingResult.value.text
  {
  }

  /** A string assembled from nine parts contains the second, fourth,
      sixth and eighth. */
  lemma ContainsSlots(p0: string, x1: string, p1: string, x2: string, p2: string,
                      x3: string, p3: string, x4: string, p4: string)
    ensures var s := p0 + x1 + p1 + x2 + p2 + x3 + p3 + x4 + p4;
            Contains(s, x1) && Contains(s, x2) && Contains(s, x3) && Contains(s, x4)
  {
    var s := p0 + x1 + p1 + x2 + p2 + x3 + p3 + x4 + p4;
    assert s == p0 + x1 + (p1 + x2 + p2 + x3 + p3 + x4 + p4);
    ContainsPart(p0, x1, p1 + x2 + p2 + x3 + p3 + x4 + p4);
    assert s == (p0 + x1 + p1) + x2 + (p2 + x3 + p3 + x4 + p4);
    ContainsPart(p0 + x1 + p1, x2, p2 + x3 + p3 + x4 + p4);
    assert s == (p0 + x1 + p1 + x2 + p2) + x3 + (p3 + x4 + p4);
    ContainsPart(p0 + x1 + p1 + x2 + p2, x3, p3 + x4 + p4);
    ContainsPart(p0 + x1 + p1 + x2 + p2 + x3 + p3, x4, p4);
  }

  /** The fallback reply names the document and gives the text length, the
      entity count and the summary. */
  lemma DefaultReplyMentions(query: string, document: Option<DocumentFile>)
    requires Ready(document) && RouteQuery(query) == DefaultRoute
    ensures var r := GenerateDocumentResponse(query, document);
            var res := document.value.processingResult.value;
            && Contains(r, document.value.name)
            && Contains(r, NatToString(|res.text|))
            && Contains(r, NatToString(|res.entities|))
            && Contains(r, res.summary)
  {
    var res := document.value.processingResult.value;
    assert GenerateDocumentResponse(query, document) == DefaultReply(document.value.name, res);
    ContainsSlots("I've analyzed the document \"", document.value.name, "\". It contains ",
                  NatToString(|res.text|), " characters of text and ", NatToString(|res.entities|),
                  " recognized entities. ", res.summary,
                  " What specific information would you like to know about it?");
  }
}
