/**
 * Where the knowledge base comes from: `charger_base_connaissances`
 * (knowledge_base_loader.py, lines 98-134) with the file system and the
 * JSON decoder replaced by the outcome of reading the file.
 */
module Sources {
  import opened Wrappers
  import opened Records
  import opened Loading

  /**
   * The outcome of reading the knowledge-base file: it did not exist and
   * the example file was written in its place, it did not exist and
   * writing the example raised, it could not be read or decoded as JSON,
   * it decoded to something other than an object, or it decoded to an
   * object.
   *
   * A document that is not an object always ends with the empty base:
   * `KnowledgeBase(**data)` raises, and `_load_raw_data` then either finds
   * none of the keys (a list without them) or raises in the outer `try`.
   */
  datatype Source =
    | MissingExampleWritten
    | MissingExampleNotWritten
    | Unreadable
    | NotAnObject
    | Parsed(data: RawData)

  /** The example file `creer_fichier_exemple` writes. */
  function ExampleDocument(): RawData {
    Dump(ExampleKnowledgeBase())
  }

  /** The document actually loaded, if any. */
  function DocumentOf(source: Source): Option<RawData> {
    match source
    case MissingExampleWritten => Some(ExampleDocument())
    case MissingExampleNotWritten => None
    case Unreadable => None
    case NotAnObject => None
    case Parsed(data) => Some(data)
  }

  /** The knowledge base `charger_base_connaissances` ends up with for a given source. */
  function Loaded(source: Source): KnowledgeBase {
    LoadedDocument(DocumentOf(source))
  }

  /** The knowledge base made from the document read, if any: empty without one. */
  function LoadedDocument(doc: Option<RawData>): KnowledgeBase {
    match doc
    case None => EmptyKnowledgeBase()
    case Some(data) => LoadDocument(data)
  }

  /**
   * The decoding half of `charger_base_connaissances` (lines 110-115): the
   * whole document validated at once and, failing that, loaded entry by
   * entry; both give the same base. When the entry-by-entry load raises,
   * the outer handler (lines 129-134) leaves the empty base.
   */
  method ParseDocument(data: RawData) returns (kb: KnowledgeBase)
    ensures kb == LoadDocument(data)
  {
    match StrictParse(data) {
      case Some(b) =>
        StrictParseAgrees(data);
        kb := b;
      case None =>
        var loaded := LoadRawData(data);
        kb := if loaded.Some? then loaded.value else EmptyKnowledgeBase();
    }
  }

  /**
   * The body of `charger_base_connaissances` once the file has been
   * looked for: the empty base without a document, the decoded document
   * otherwise.
   */
  method LoadSource(source: Source) returns (kb: KnowledgeBase)
    ensures kb == Loaded(source)
  {
    var doc := DocumentOf(source);
    if doc.None? {
      kb := EmptyKnowledgeBase();
    } else {
      kb := ParseDocument(doc.value);
    }
  }

  /** A missing file is replaced by the example dataset, which then loads as written. */
  lemma LoadedMissingFile()
    ensures Loaded(MissingExampleWritten) == ExampleKnowledgeBase()
  {
    LoadedDumped(ExampleKnowledgeBase());
  }

  /**
   * Every other failure to get a document leaves the empty base: the
   * example file could not be written, the file could not be decoded, or
   * it decoded to something other than an object.
   */
  lemma LoadedWithoutDocument(source: Source)
    requires !source.MissingExampleWritten? && !source.Parsed?
    ensures Loaded(source) == EmptyKnowledgeBase()
  {
  }

  /** A document written by dumping a base loads back to that base. */
  lemma LoadedDumped(kb: KnowledgeBase)
    ensures LoadedDocument(Some(Dump(kb))) == kb
  {
    LoadDumpRoundTrip(kb);
  }
}
