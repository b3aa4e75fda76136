/** The generator (rag_system/generator.py): serialises the retrieved
    documents into one context string, formats the named prompt template
    with it and the query, and hands the prompt to the completion backend,
    which is an oracle here. */
module Generator {
  import opened Wrappers
  import opened Strings
  import opened Documents
  import Config
  import PM = PromptManager

  datatype Error =
    | PromptFailed(cause: PM.Error)   // `format_prompt` raised
    | CompletionFailed                // the completion backend raised

  /** What separates two documents in the context string: one blank line. */
  const Separator: string := "\n\n"

  /** `doc.get('content', '')`. */
  function ContentOf(d: Document): string {
    if d.content.Some? then d.content.value else ""
  }

  /** `if metadata:` on `doc.get('metadata', {})`: present and non-empty. */
  predicate HasMetadata(d: Document) {
    d.metadata.Some? && d.metadata.value != []
  }

  /** `f'{k}={v}'` for each metadata entry, in dictionary order. */
  function Entries(metadata: Metadata): seq<string> {
    seq(|metadata|, i requires 0 <= i < |metadata| => metadata[i].0 + "=" + metadata[i].1)
  }

  /** The header line: `[Metadata: k1=v1, k2=v2, ...]`. */
  function Header(metadata: Metadata): string {
    "[Metadata: " + Join(", ", Entries(metadata)) + "]"
  }

  /** The text one document contributes: its content, preceded by its header
      line when it has metadata. */
  function Piece(d: Document): (p: string)
    ensures !HasMetadata(d) ==> p == ContentOf(d)
    ensures HasMetadata(d) ==> StartsWith(p, "[Metadata: ") && EndsWith(p, "]\n" + ContentOf(d))
  {
    if HasMetadata(d) then
      var p := Header(d.metadata.value) + "\n" + ContentOf(d);
      assert p == "[Metadata: " + Join(", ", Entries(d.metadata.value)) + ("]\n" + ContentOf(d));
      p
    else ContentOf(d)
  }

  /** The pieces of the documents, in the documents' order. */
  function Pieces(docs: seq<Document>): seq<string> {
    seq(|docs|, i requires 0 <= i < |docs| => Piece(docs[i]))
  }

  /** The context string `_format_context` builds: the pieces joined by a
      blank line. */
  function ContextString(docs: seq<Document>): string {
    Join(Separator, Pieces(docs))
  }

  /** No documents give an empty context. */
  lemma ContextStringEmpty()
    ensures ContextString([]) == ""
  {
  }

  /** One document gives exactly its piece: no separator before or after. */
  lemma ContextStringSingle(d: Document)
    ensures ContextString([d]) == Piece(d)
  {
  }

  /** The context of two non-empty runs of documents is the context of the
      first, one blank line, then the context of the second: the order of
      the documents is kept and exactly one separator stands between
      neighbours. */
  lemma ContextStringAppend(a: seq<Document>, b: seq<Document>)
    requires a != [] && b != []
    ensures ContextString(a + b) == ContextString(a) + Separator + ContextString(b)
  {
    assert Pieces(a + b) == Pieces(a) + Pieces(b);
    JoinAppend(Separator, Pieces(a), Pieces(b));
  }

  /** The piece of a document that ingestion stored: its `source` header line,
      then its text. */
  lemma PieceOfSourceDocument(filename: string, content: string)
    ensures Piece(SourceDocument(filename, content)) == "[Metadata: source=" + filename + "]\n" + content
  {
    var md: Metadata := [("source", filename)];
    var entries := Entries(md);
    assert "source" + "=" + filename == "source=" + filename;
    assert |entries| == 1 && entries[0] == "source=" + filename;
    assert entries == ["source=" + filename];
    assert Header(md) == "[Metadata: " + ("source=" + filename) + "]";
    assert "[Metadata: " + ("source=" + filename) + "]" + "\n" + content
        == "[Metadata: source=" + filename + "]\n" + content;
  }

  /** `generate`'s template choice: the configured default when none is named. */
  function TemplateName(templateName: Option<string>): (name: string)
    ensures templateName.None? ==> name == "text"
    ensures templateName.Some? ==> name == templateName.value
  {
    if templateName.None? then Config.DefaultTemplate else templateName.value
  }

  class Generator {
    const prompts: PM.PromptManager
    /** `self.model.generate_completion`; `None` when the backend raises. */
    const complete: string -> Option<string>

    constructor (prompts: PM.PromptManager, complete: string -> Option<string>)
      ensures this.prompts == prompts && this.complete == complete
    {
      this.prompts := prompts;
      this.complete := complete;
    }

    /** `_format_context(context)`: builds the list of pieces document by
        document, then joins it. */
    method FormatContext(context: seq<Document>) returns (s: string)
      ensures s == ContextString(context)
    {
      var formatted: seq<string> := [];
      for i := 0 to |context|
        invariant |formatted| == i
        invariant forall j :: 0 <= j < i ==> formatted[j] == Piece(context[j])
      {
        var doc := context[i];
        var content := if doc.content.Some? then doc.content.value else "";
        var metadata := if doc.metadata.Some? then doc.metadata.value else [];
        if metadata != [] {
          var header := "[Metadata: " + Join(", ", Entries(metadata)) + "]";
          formatted := formatted + [header + "\n" + content];
        } else {
          formatted := formatted + [content];
        }
      }
      assert formatted == Pieces(context);
      s := Join(Separator, formatted);
    }

    /** `generate(query, context, template_name)`: the named (or default)
        template formatted with the context string and the query, then
        completed. */
    method Generate(query: string, context: seq<Document>, templateName: Option<string>)
      returns (r: Result<string, Error>)
      ensures var prompt := prompts.FormatPrompt(TemplateName(templateName), ContextString(context), query);
        && (prompt.Err? ==> r == Err(PromptFailed(prompt.error)))
        && (prompt.Ok? && complete(prompt.value).None? ==> r == Err(CompletionFailed))
        && (prompt.Ok? && complete(prompt.value).Some? ==> r == Ok(complete(prompt.value).value))
    {
      var name := if templateName.None? then Config.DefaultTemplate else templateName.value;
      var contextString := FormatContext(context);
      var prompt := prompts.FormatPrompt(name, contextString, query);
      if prompt.Err? {
        return Err(PromptFailed(prompt.error));
      }
      var answer := complete(prompt.value);
      if answer.None? {
        return Err(CompletionFailed);
      }
      r := Ok(answer.value);
    }
  }
}
