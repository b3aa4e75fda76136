# rag-system core in Dafny

This project models the core of a small retrieval-augmented generation utility and proves properties of that model. The core has three parts:

- **Retriever** (`retriever.dfy`, from `rag_system/retriever.py`). It keeps an ordered list of documents and a flat vector index. The index's dimension is fixed by the first embedding. Ingestion walks a directory listing, embeds every `.txt` file, appends its record `{content, metadata: {source: filename}}` to the documents and appends its vector to the index, then saves both files. `search` embeds the query, asks the index for the nearest positions and maps each position back to a document. The model's central invariant is positional coupling: document i is the text whose embedding is vector i.
  - `Retriever.Retriever` is a class with a `documents` sequence and an `index` field. The index is a `FlatIndex` object (constant `d`, appended `vectors`), or null before the first embedding.
  - The ingestion loop is a `while` method. It is proved against the value-level function `Ingest`, and the coupling, append-only, alignment and dimension properties are proved about `Ingest`.
- **Context formatter and generation** (`generator.dfy`, from `rag_system/generator.py`). `FormatContext` is the loop that builds one piece per document and joins the pieces with a blank line. It is proved equal to the function `ContextString`. `Generate` picks the default template `"text"` when none is named, formats the prompt and calls the completion backend.
- **Prompt template table** (`prompt_manager.dfy`, from `rag_system/prompt_manager.py`). `PromptManager` is a class with a `templates` map. Its load loop stores each `.yaml` file's template under its name, so the last write wins. `GetTemplate` is the lookup. `FormatPrompt` rejects an unknown or empty template and otherwise performs the `{context}`/`{query}` substitution of `str.format`.

Shared pieces: `wrappers.dfy` (Option, Result, Outcome), `strings.dfy` (`startswith`, `endswith`, `str.join`), `config.dfy` (`top_k = 3`, `default_template = "text"`), `documents.dfy` (the document record).

The model takes these as inputs instead of doing I/O:
- A directory is its listing, in the order the operating system returns it.
- The persisted files are a `Storage` value. `None` means the file does not exist.
- The embedding backend (`embed`), the completion backend (`complete`) and the index's nearest-neighbour ranking (`nearest`) are function-valued parameters.
- A backend that raises returns `None`.

### Code behaviour worth knowing (the model follows the code)
- On a dimension mismatch the record is appended at rag_system/retriever.py:49, before the check at line 59. So a run stopped by a mismatch leaves one more document than vectors. (`IngestCoupling`, `MismatchLeavesExtraDocument`).
- Documents are loaded only when the index file exists. An index file with no documents file loads vectors and no documents, so the coupling is broken from construction on (`IndexWithoutDocumentsFile`).
- When the index has fewer than `top_k` vectors, the index pads its answer with position -1. Python reads `documents[-1]` as the last document, so the result repeats that document instead of failing (`MissingSlotGivesLastDocument`).
- If no text file was ever ingested and no index file exists, the index is still `None` when rag_system/retriever.py:63 saves it. The model assumes that this save raises (`NoIndexToSave`). Whether it does depends on the index library's version; see "## Left out".
- `format_prompt` reports "template not found" for an empty template too, because its test is on falsiness.

## Model

| member | source | states |
|---|---|---|
| Retriever.InitIndex | rag_system/retriever.py:35-40 | With no index, the result is an empty index of the requested dimension. An index of that dimension is kept unchanged. An index of another dimension gives DimensionMismatch(existing, requested), and that happens exactly then. |
| Retriever.InitIndexIdempotent | rag_system/retriever.py:37-40 | Initializing again with the dimension a successful initialization produced changes nothing. |
| Retriever.Ingest | rag_system/retriever.py:44-60 | Definition of the ingestion loop, with no contract of its own. Entries are taken in listing order, and a non-`.txt` entry changes nothing. A failed embedding stops the run before anything is appended. Otherwise the record is appended first, then the index is initialized or checked. A mismatch stops the run with the record appended and the index untouched. Otherwise the vector is appended and the run goes on. The Ingest* lemmas below state its properties. |
| Retriever.IngestOnlyText | rag_system/retriever.py:44-45 | Ingesting a listing is the same as ingesting only its `.txt` entries. Other entries change no state and raise nothing. |
| Retriever.IngestAppendOnly | rag_system/retriever.py:42-60 | Every run, including one that raises, keeps the earlier documents as a prefix. It keeps an existing index's dimension and its earlier vectors as a prefix. |
| Retriever.IngestCoupling | rag_system/retriever.py:42-60 | Starting with as many documents as vectors, a completed run ends coupled. A run stopped by a dimension mismatch ends with exactly one more document than vectors. |
| Retriever.IngestAppendsTextFiles | rag_system/retriever.py:44-60 | A completed run appends exactly the records `{content, source: name}` of the text entries, in listing order. It adds exactly one vector per text entry. |
| Retriever.IngestAligns | rag_system/retriever.py:48-60 | Starting coupled, every document a completed run appends sits at the position of the vector that is its content's embedding. |
| Retriever.IngestKeepsUniform | rag_system/retriever.py:35-60 | If every stored vector has the index's dimension before a run, the same holds after it. |
| Retriever.MismatchLeavesExtraDocument | rag_system/retriever.py:48-60 | Take a 3-dimensional first file and a 4-dimensional second file. The run raises DimensionMismatch(3, 4). It leaves both records stored and only the first vector in the index. |
| Retriever.Loaded | rag_system/retriever.py:17-28 | Definition, with no contract of its own, of what construction reads. The index is the index file's content when that file exists. Documents come from the documents file only when the index file exists too, and are otherwise empty. |
| Retriever.Saved | rag_system/retriever.py:62-64 | Definition, with no contract of its own, of what a completed ingestion writes: the index file holds the index, and the documents file holds the document list. |
| Retriever.ReloadAfterSave | rag_system/retriever.py:17-33 | Constructing a retriever from the files a completed ingestion saved gives back the same documents and index. |
| Retriever.IndexWithoutDocumentsFile | rag_system/retriever.py:17-28 | A non-empty index file with no documents file loads vectors and no documents, so the coupling is broken. |
| Retriever.EffectiveTopK | rag_system/retriever.py:68-69 | With no `top_k`, search uses 3. Otherwise it uses the given value. |
| Retriever.PyPosition | rag_system/retriever.py:77 | Python list indexing: a position is accepted exactly when -n <= i < n. A negative position counts from the end. |
| Retriever.MapPositions | rag_system/retriever.py:77 | The result succeeds exactly when every position is accepted. It then holds one document per position, in the positions' order, each being the document at that position. A failure is PositionOutOfRange and names one of the given positions that Python rejects. |
| Retriever.SearchIndex | rag_system/retriever.py:72-77 | Definition, with no contract of its own, of the index search on values. A query whose width differs from the index's dimension is an error, and so is `k < 1`. Otherwise the ranking's positions are mapped to documents by `MapPositions`. |
| Retriever.CoupledSearch | rag_system/retriever.py:72-77 | Suppose documents and vectors are coupled, the query has the index's width, k >= 1, and the ranking returns positions of stored vectors. Then the search succeeds, and result j is `documents[positions[j]]`. |
| Retriever.MissingSlotGivesLastDocument | rag_system/retriever.py:72-77 | A -1 slot in the index's answer yields the last document. |
| Retriever.SearchDefaultTopK | rag_system/retriever.py:66-69 | A search without `top_k` equals the search with `top_k = 3`. |
| Retriever.FlatIndex.constructor | rag_system/retriever.py:38 | A new index has the given dimension and no vectors. |
| Retriever.FlatIndex.Read | rag_system/retriever.py:20 | Reading the index file gives back the dimension and vectors it holds. |
| Retriever.FlatIndex.Add | rag_system/retriever.py:60 | A vector of the index's width is appended at the next position. |
| Retriever.Retriever.constructor | rag_system/retriever.py:10-28 | The index is the index file's content when that file exists. Documents come from the documents file only when both files exist, and are otherwise empty. The dimension invariant holds. |
| Retriever.Retriever.InitializeIndex | rag_system/retriever.py:35-40 | The new index is what `InitIndex` gives, as a new object when none existed. On a mismatch it raises and leaves the index and documents untouched. |
| Retriever.Retriever.LoadDocuments | rag_system/retriever.py:42-64 | The in-memory state after the call is `Ingest`'s state, even when the call raises. A raise writes nothing. A completed run writes both files with the new state, or returns NoIndexToSave when there is still no index, which assumes the save raises then (see "## Left out"). |
| Retriever.Retriever.Search | rag_system/retriever.py:66-77 | A failed query embedding raises first. No index raises IndexNotInitialized. A success implies an index of the query's width and an effective `top_k` >= 1. Every returned document is one of the stored documents. |
| Strings.Join | rag_system/generator.py:45-50 | Definition, with no contract of its own, of Python's `sep.join(parts)`: the parts in order, with `sep` between neighbours and nowhere else. An empty list gives the empty string. |
| Strings.JoinAppend | rag_system/generator.py:50 | `sep.join(a + b)` equals `sep.join(a) + sep + sep.join(b)` for non-empty `a` and `b`. |
| Generator.Piece | rag_system/generator.py:40-48 | A document without metadata, or with empty metadata, contributes exactly its content, and missing content counts as empty. One with metadata contributes a piece that starts with `[Metadata: ` and ends with `]\n` followed by its content. |
| Generator.ContextString | rag_system/generator.py:38-50 | Definition, with no contract of its own, of the context string: each document's piece, in the documents' order, joined by one blank line. The ContextString* lemmas state its properties, and `FormatContext` is proved equal to it. |
| Generator.ContextStringEmpty | rag_system/generator.py:38-50 | No documents give the empty string. |
| Generator.ContextStringSingle | rag_system/generator.py:39-50 | One document gives exactly its piece, with no separator before or after. |
| Generator.ContextStringAppend | rag_system/generator.py:39-50 | The context of `a + b` is the context of `a`, one blank line, then the context of `b`. Order is kept and exactly one separator stands between neighbours. |
| Generator.PieceOfSourceDocument | rag_system/generator.py:44-46 | An ingested document formats as `[Metadata: source=<file>]`, a newline, then its text. |
| Generator.TemplateName | rag_system/generator.py:24-25 | With no template name, generation uses `"text"`. Otherwise it uses the given name. |
| Generator.Generator.constructor | rag_system/generator.py:7-10 | The generator keeps the given template table and completion backend. |
| Generator.Generator.FormatContext | rag_system/generator.py:36-50 | The loop's result equals `ContextString(context)`. |
| Generator.Generator.Generate | rag_system/generator.py:12-34 | The prompt is the chosen template formatted with `ContextString(context)` and the query. A prompt error is returned as PromptFailed. Otherwise the completion's answer, or CompletionFailed, is returned. |
| PromptManager.Store | rag_system/prompt_manager.py:21-24 | Definition, with no contract of its own, of one loading step. A `.yaml` file stores its template under its name and replaces any earlier entry. Any other file changes nothing. |
| PromptManager.Fill | rag_system/prompt_manager.py:20-24 | Definition, with no contract of its own, of the loading loop: `Store` applied to each file in listing order. |
| PromptManager.FillSnoc | rag_system/prompt_manager.py:20-24 | Loading one more file stores it over what the earlier files loaded. |
| PromptManager.FillLastWriteWins | rag_system/prompt_manager.py:20-24 | After loading, a name holds the template of the last `.yaml` file that carries it. A name no `.yaml` file carries keeps its previous entry or stays absent. |
| PromptManager.Scan | rag_system/prompt_manager.py:36 | The leading token spans at least one character of the template. A character that is not a brace stands for itself. |
| PromptManager.Substitute | rag_system/prompt_manager.py:36 | Formatting fails only with MalformedTemplate. A template with no braces is returned unchanged. |
| PromptManager.SubstituteEscaped | rag_system/prompt_manager.py:36 | Brace-escaped text in front of a template formats back to the text itself, followed by the formatted rest. |
| PromptManager.SubstituteEscapeRoundTrip | rag_system/prompt_manager.py:36 | Formatting the brace-escaped form of any text gives the text. |
| PromptManager.SubstituteContextField | rag_system/prompt_manager.py:36 | A leading `{context}` is replaced by the context, and the rest is formatted after it. |
| PromptManager.SubstituteQueryField | rag_system/prompt_manager.py:36 | A leading `{query}` is replaced by the query, and the rest is formatted after it. |
| PromptManager.SubstituteFields | rag_system/prompt_manager.py:36 | Take literal text around one `{context}` and one `{query}`. It formats to the text with the two arguments in place, whatever the arguments contain: they are not scanned again. |
| PromptManager.PromptManager.constructor | rag_system/prompt_manager.py:12 | A new table is empty. |
| PromptManager.PromptManager.Create | rag_system/prompt_manager.py:6-13 | A missing prompts directory raises DirectoryNotFound. Otherwise the new manager's table is what loading the listing into an empty table gives. |
| PromptManager.PromptManager.LoadTemplates | rag_system/prompt_manager.py:15-24 | A missing directory raises and leaves the table unchanged. Otherwise the table becomes `Fill(old table, listing)`. |
| PromptManager.PromptManager.GetTemplate | rag_system/prompt_manager.py:26-28 | The result is the stored template exactly when the name is in the table, and None otherwise. Being a function, it changes nothing. |
| PromptManager.PromptManager.FormatPrompt | rag_system/prompt_manager.py:30-36 | It returns TemplateNotFound exactly when the name is unknown or its template is empty. Otherwise it formats the stored template with the context and the query. Being a function, it leaves the table unchanged. |

## Left out

- The index's L2 distance computation and ranking are an oracle (`nearest`). So are the embedding and completion backends (`embed`, `complete`) from rag_system/model_wrapper.py. The two-backend factory `create_model_wrapper` and its missing-API-key error are not modelled, and neither are network failures beyond "the backend raised". A ranking scenario such as "the nearest of two documents wins" depends on the oracle and is not stated.
- The float32 conversion and numpy reshaping at rag_system/retriever.py:54-56 are left out. Embeddings are sequences of reals and only their length matters. A backend that returns a two-dimensional array, which would add several rows at once, is not modelled.
- The two checks of the index's Python search wrapper are modelled as errors: a query whose width differs from the index's, and `k < 1`. They come from the index library, not from the lines cited above.
- File-system and serialisation I/O is left out: `os.listdir`, `open`, JSON, YAML and the index file format. Read errors, malformed JSON or YAML, and a YAML file without `name` or `template` (KeyError) are not modelled. Whether a failed `write_index` leaves a truncated index file behind is not modelled.
- Retriever.Retriever.constructor requires a persisted index whose vectors all have its dimension, which the index file format guarantees.
- `list_templates` (rag_system/prompt_manager.py:38-46) only re-reads files to list descriptions, and is left out as file I/O.
- The default prompts-directory path of `PromptManager.__init__` is left out. The manager is created from the listing of whichever directory is used.
- Generator.Generator.constructor receives the template table and the completion backend. In the source, `Generator.__init__` builds them itself from the configuration.
- PromptManager.Substitute models `str.format` only for `{{`, `}}`, `{context}` and `{query}`. Every other brace is reported as an error. Python's conversions and format specs, such as `{context!r}` or `{query:>10}`, and attribute or index fields are among those errors, although Python would format them.
- Generator.Piece states the header's delimiters and that the content ends the piece. The entry list `k=v, ...` between them is the definition `Entries`, and its exact form is proved only for ingested documents (`PieceOfSourceDocument`). Metadata values are strings; Python's `str()` of other value types is not modelled.
- Retriever.Retriever.Search states the error cases and that results are stored documents. The full position-to-document mapping is stated on the value-level search: `Search` returns `SearchIndex`, which maps the ranking's positions through `MapPositions`. The lemma `CoupledSearch` states the mapping for a coupled state.
- The interactive loop and start-up in rag_system/rag_pipeline.py and run_rag.py are left out, as are printing, `sys.exit`, setup.py and `__init__.py`. Of rag_system/config.py, only `top_k = 3` and `default_template = "text"` are used.
- Retriever.Retriever.LoadDocuments assumes that saving when there is no index raises, and returns NoIndexToSave then. This is decided by the index library, not by the repository's code, and depends on its version: a version that writes a null-index marker for `None` completes instead. Then the run would write the documents file and an index file that reads back as no index. The model does not capture that outcome.
- Concurrency is left out: the system is single-threaded.
