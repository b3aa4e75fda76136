/** The document records that the retriever stores and the generator formats.
    In the source a document is a dictionary `{'content': ..., 'metadata': {...}}`;
    either key may be missing from a record read back from the documents file. */
module Documents {
  import opened Wrappers

  /** A metadata dictionary as its (key, value) entries in insertion order,
      which is the order Python iterates a dictionary in. */
  type Metadata = seq<(string, string)>

  datatype Document = Document(content: Option<string>, metadata: Option<Metadata>)

  /** The record ingestion builds for one text file: its whole text and the
      single metadata entry `source = <file name>`. */
  function SourceDocument(filename: string, content: string): Document
  {
    Document(Some(content), Some([("source", filename)]))
  }
}
