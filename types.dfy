/** The records shared by the service and the components. */
module Types {
  import opened Wrappers

  /** The processing mode chosen with the feature toggle. */
  datatype FeatureType = Ocr | Vision

  /** A labelled fragment found in a document; `kind` is the free-form
      `type` label, `confidence` a score meant to lie in [0, 1]. */
  datatype Entity = Entity(text: string, kind: string, confidence: real)

  /** What processing produced. The declared type makes `text`, `entities`
      and `summary` optional, but every producer sets all three and the
      responder reads them unchecked, so here they are required. */
  datatype ProcessingResult = ProcessingResult(
    text: string,
    entities: seq<Entity>,
    summary: string,
    confidence: real)

  /** A browser `File` as far as the core reads it. */
  datatype FileInfo = FileInfo(name: string, mimeType: string, size: nat)

  /** The document record. Its date field is `uploadDate`, the name the
      service writes; the declared interface calls it `uploadedAt`.
      Times are milliseconds since the epoch. */
  datatype DocumentFile = DocumentFile(
    id: string,
    name: string,
    mimeType: string,
    size: nat,
    url: string,
    preview: Option<string>,
    uploadDate: nat,
    processed: bool,
    processingResult: Option<ProcessingResult>)

  datatype Role = User | Ai

  datatype ChatMessage = ChatMessage(id: string, content: string, role: Role, timestamp: nat)

  predicate InUnitInterval(x: real) { 0.0 <= x <= 1.0 }

  /** Every confidence of a result lies in [0, 1]. */
  predicate ConfidencesInRange(r: ProcessingResult)
  {
    && InUnitInterval(r.confidence)
    && forall i :: 0 <= i < |r.entities| ==> InUnitInterval(r.entities[i].confidence)
  }
}
