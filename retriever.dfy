/** The retriever (rag_system/retriever.py): an ordered list of documents and a
    flat vector index that must grow in step, so that document i is the text
    whose embedding is vector i. The embedding backend and the index's
    nearest-neighbour ranking are oracles; the files the retriever reads and
    writes are the `Storage` value. */
module Retriever {
  import opened Wrappers
  import opened Strings
  import opened Documents
  import Config

  /** An embedding. Only its length matters to the model. */
  type Vector = seq<real>

  /** The contents of a flat index: its dimension and its vectors in insertion
      order (the position of a vector is its index in `vectors`). */
  datatype IndexImage = IndexImage(d: nat, vectors: seq<Vector>)

  /** The two persisted files: the index file and the documents file, each
      `None` when it does not exist. */
  datatype Storage = Storage(indexFile: Option<IndexImage>, documentsFile: Option<seq<Document>>)

  /** One entry of the ingestion directory: its name and, for a text file, its text. */
  datatype DirEntry = DirEntry(name: string, content: string)

  datatype Error =
    | EmbeddingFailed                          // the embedding backend raised
    | DimensionMismatch(expected: nat, got: nat)
    | IndexNotInitialized                      // `self.index` is still `None`
    | InvalidTopK(k: int)                      // the index search rejects k < 1
    | PositionOutOfRange(position: int)        // `self.documents[i]` raised IndexError
    | NoIndexToSave                            // saving with no index, assumed to raise

  /** The retriever's state as a value: its documents and its index, if any. */
  datatype State = State(documents: seq<Document>, index: Option<IndexImage>)

  /** The result of an ingestion run: the state it leaves in memory and the
      error it raised, if any. */
  datatype Run = Run(state: State, error: Option<Error>)

  /** Every vector of the index has the index's dimension. */
  ghost predicate Uniform(image: IndexImage) {
    forall v :: v in image.vectors ==> |v| == image.d
  }

  /** Number of vectors held (`index.ntotal`); no index holds none. */
  function Count(index: Option<IndexImage>): nat {
    if index.None? then 0 else |index.value.vectors|
  }

  /** Positional coupling: as many documents as vectors. */
  predicate Coupled(s: State) {
    |s.documents| == Count(s.index)
  }

  /** `filename.endswith('.txt')`: only such entries are ingested. */
  predicate IsText(e: DirEntry) {
    EndsWith(e.name, ".txt")
  }

  /** The text entries of a directory listing, in listing order. */
  function TextEntries(entries: seq<DirEntry>): seq<DirEntry>
    decreases |entries|
  {
    if entries == [] then []
    else (if IsText(entries[0]) then [entries[0]] else []) + TextEntries(entries[1..])
  }

  /** The records ingestion builds for the given entries, in order. */
  function SourceDocuments(entries: seq<DirEntry>): seq<Document> {
    seq(|entries|, i requires 0 <= i < |entries| => SourceDocument(entries[i].name, entries[i].content))
  }

  /** `_initialize_index(dim)` on index contents: no index yet gives an empty
      index of dimension `dim`; an index of dimension `dim` is kept as it is;
      an index of another dimension is an error. */
  function InitIndex(index: Option<IndexImage>, dim: nat): (r: Result<IndexImage, Error>)
    ensures r.Err? <==> index.Some? && index.value.d != dim
    ensures r.Err? ==> r.error == DimensionMismatch(index.value.d, dim)
    ensures r.Ok? ==> r.value.d == dim
    ensures r.Ok? && index.Some? ==> r.value == index.value
    ensures r.Ok? && index.None? ==> r.value.vectors == []
  {
    match index
    case None => Ok(IndexImage(dim, []))
    case Some(image) =>
      if image.d != dim then Err(DimensionMismatch(image.d, dim)) else Ok(image)
  }

  /** Initializing again with the dimension an initialization produced changes nothing. */
  lemma InitIndexIdempotent(index: Option<IndexImage>, dim: nat)
    requires InitIndex(index, dim).Ok?
    ensures InitIndex(Some(InitIndex(index, dim).value), dim) == InitIndex(index, dim)
  {
  }

  /** The state after one text entry is stored: its record appended to the
      documents and its vector to the (initialized) index. */
  function Append(s: State, e: DirEntry, v: Vector, image: IndexImage): State {
    State(s.documents + [SourceDocument(e.name, e.content)], Some(IndexImage(image.d, image.vectors + [v])))
  }

  /** The ingestion loop of `load_documents` on values: entries are taken in
      listing order; a non-text entry changes nothing; a text entry is embedded
      (an embedding failure stops the run before anything is appended), its
      record is appended to the documents, and only then is the index
      initialized or checked against the embedding's length; a mismatch stops
      the run with the record already appended and the index untouched;
      otherwise the vector is appended to the index. */
  function Ingest(s: State, entries: seq<DirEntry>, embed: string -> Option<Vector>): Run
    decreases |entries|
  {
    if entries == [] then Run(s, None)
    else
      var e := entries[0];
      if !IsText(e) then Ingest(s, entries[1..], embed)
      else
        match embed(e.content)
        case None => Run(s, Some(EmbeddingFailed))
        case Some(v) =>
          var documents := s.documents + [SourceDocument(e.name, e.content)];
          match InitIndex(s.index, |v|)
          case Err(err) => Run(State(documents, s.index), Some(err))
          case Ok(image) => Ingest(Append(s, e, v, image), entries[1..], embed)
  }

  /** Non-text entries play no part in ingestion. */
  lemma {:induction false} IngestOnlyText(s: State, entries: seq<DirEntry>, embed: string -> Option<Vector>)
    ensures Ingest(s, entries, embed) == Ingest(s, TextEntries(entries), embed)
    decreases |entries|
  {
    if entries != [] {
      var e := entries[0];
      if IsText(e) {
        var t := TextEntries(entries);
        assert t[0] == e && t[1..] == TextEntries(entries[1..]);
        match embed(e.content)
        case None =>
        case Some(v) =>
          match InitIndex(s.index, |v|)
          case Err(_) =>
          case Ok(image) =>
            assert Ingest(s, entries, embed) == Ingest(Append(s, e, v, image), entries[1..], embed);
            IngestOnlyText(Append(s, e, v, image), entries[1..], embed);
      } else {
        assert TextEntries(entries) == TextEntries(entries[1..]);
        IngestOnlyText(s, entries[1..], embed);
      }
    }
  }

  /** Ingestion only appends: earlier documents stay where they were, an
      existing index keeps its dimension and its earlier vectors. This holds
      for a run that raises too. */
  lemma {:induction false} IngestAppendOnly(s: State, entries: seq<DirEntry>, embed: string -> Option<Vector>)
    ensures var r := Ingest(s, entries, embed).state;
      && s.documents <= r.documents
      && (s.index.Some? ==> r.index.Some? && r.index.value.d == s.index.value.d
                            && s.index.value.vectors <= r.index.value.vectors)
    decreases |entries|
  {
    if entries != [] {
      var e := entries[0];
      if !IsText(e) {
        assert Ingest(s, entries, embed) == Ingest(s, entries[1..], embed);
        IngestAppendOnly(s, entries[1..], embed);
      } else {
        match embed(e.content)
        case None =>
        case Some(v) =>
          match InitIndex(s.index, |v|)
          case Err(_) =>
          case Ok(image) =>
            assert Ingest(s, entries, embed) == Ingest(Append(s, e, v, image), entries[1..], embed);
            IngestAppendOnly(Append(s, e, v, image), entries[1..], embed);
      }
    }
  }

  /** Positional coupling across `load_documents`: starting coupled, a run
      that completes is still coupled, and a run stopped by a dimension
      mismatch leaves exactly one more document than vectors (the record
      appended before the check). */
  lemma {:induction false} IngestCoupling(s: State, entries: seq<DirEntry>, embed: string -> Option<Vector>)
    requires Coupled(s)
    ensures var r := Ingest(s, entries, embed);
      |r.state.documents| == Count(r.state.index)
        + (if r.error.Some? && r.error.value.DimensionMismatch? then 1 else 0)
    ensures Ingest(s, entries, embed).error.None? ==> Coupled(Ingest(s, entries, embed).state)
    decreases |entries|
  {
    if entries != [] {
      var e := entries[0];
      if !IsText(e) {
        assert Ingest(s, entries, embed) == Ingest(s, entries[1..], embed);
        IngestCoupling(s, entries[1..], embed);
      } else {
        match embed(e.content)
        case None =>
        case Some(v) =>
          match InitIndex(s.index, |v|)
          case Err(_) =>
          case Ok(image) =>
            assert Ingest(s, entries, embed) == Ingest(Append(s, e, v, image), entries[1..], embed);
            IngestCoupling(Append(s, e, v, image), entries[1..], embed);
      }
    }
  }

  /** A run that completes appends exactly one record per text entry, in
      listing order, and exactly one vector per text entry. */
  lemma {:induction false} IngestAppendsTextFiles(s: State, entries: seq<DirEntry>, embed: string -> Option<Vector>)
    requires Ingest(s, entries, embed).error.None?
    ensures var r := Ingest(s, entries, embed).state;
      && r.documents == s.documents + SourceDocuments(TextEntries(entries))
      && Count(r.index) == Count(s.index) + |TextEntries(entries)|
    decreases |entries|
  {
    if entries != [] {
      var e := entries[0];
      if !IsText(e) {
        assert Ingest(s, entries, embed) == Ingest(s, entries[1..], embed);
        IngestAppendsTextFiles(s, entries[1..], embed);
      } else {
        var v := embed(e.content).value;
        var image := InitIndex(s.index, |v|).value;
        var next := Append(s, e, v, image);
        assert Ingest(s, entries, embed) == Ingest(next, entries[1..], embed);
        IngestAppendsTextFiles(next, entries[1..], embed);
        var t := TextEntries(entries[1..]);
        assert TextEntries(entries) == [e] + t;
        assert SourceDocuments([e] + t) == [SourceDocument(e.name, e.content)] + SourceDocuments(t);
        assert next.documents + SourceDocuments(t) == s.documents + SourceDocuments([e] + t);
      }
    }
  }

  /** From position `start` on, every document is a text stored beside the
      vector that is its embedding. */
  ghost predicate AlignedFrom(start: nat, s: State, embed: string -> Option<Vector>) {
    forall p :: start <= p < |s.documents| ==>
      && s.index.Some? && p < |s.index.value.vectors|
      && s.documents[p].content.Some?
      && embed(s.documents[p].content.value) == Some(s.index.value.vectors[p])
  }

  /** Document i corresponds to vector i: starting coupled, every document a
      completed run appends sits at the position of the vector that is its
      text's embedding. */
  lemma {:induction false} IngestAligns(s: State, entries: seq<DirEntry>, embed: string -> Option<Vector>)
    requires Coupled(s)
    requires Ingest(s, entries, embed).error.None?
    ensures AlignedFrom(|s.documents|, Ingest(s, entries, embed).state, embed)
    decreases |entries|
  {
    var r := Ingest(s, entries, embed).state;
    if entries != [] {
      var e := entries[0];
      if !IsText(e) {
        assert r == Ingest(s, entries[1..], embed).state;
        IngestAligns(s, entries[1..], embed);
      } else {
        var v := embed(e.content).value;
        var image := InitIndex(s.index, |v|).value;
        var next := Append(s, e, v, image);
        assert Ingest(s, entries, embed) == Ingest(next, entries[1..], embed);
        assert |image.vectors| == |s.documents|;
        assert Coupled(next);
        IngestAligns(next, entries[1..], embed);
        IngestAppendOnly(next, entries[1..], embed);
        IngestCoupling(next, entries[1..], embed);
        forall p | |s.documents| <= p < |r.documents|
          ensures && r.index.Some? && p < |r.index.value.vectors|
                  && r.documents[p].content.Some?
                  && embed(r.documents[p].content.value) == Some(r.index.value.vectors[p])
        {
          if p == |s.documents| {
            assert r.documents[p] == next.documents[p] == SourceDocument(e.name, e.content);
            assert r.index.value.vectors[p] == next.index.value.vectors[p] == v;
          }
        }
      }
    }
  }

  /** Every vector an ingestion run stores has the index's dimension. */
  lemma {:induction false} IngestKeepsUniform(s: State, entries: seq<DirEntry>, embed: string -> Option<Vector>)
    requires s.index.Some? ==> Uniform(s.index.value)
    ensures var r := Ingest(s, entries, embed).state;
      r.index.Some? ==> Uniform(r.index.value)
    decreases |entries|
  {
    if entries != [] {
      var e := entries[0];
      if !IsText(e) {
        assert Ingest(s, entries, embed) == Ingest(s, entries[1..], embed);
        IngestKeepsUniform(s, entries[1..], embed);
      } else {
        match embed(e.content)
        case None =>
        case Some(v) =>
          match InitIndex(s.index, |v|)
          case Err(_) =>
          case Ok(image) =>
            assert Ingest(s, entries, embed) == Ingest(Append(s, e, v, image), entries[1..], embed);
            IngestKeepsUniform(Append(s, e, v, image), entries[1..], embed);
      }
    }
  }

  /** A 3-dimensional first file then a 4-dimensional second file: the run
      raises a mismatch with both records stored but only the first vector. */
  lemma MismatchLeavesExtraDocument(a: DirEntry, b: DirEntry, embed: string -> Option<Vector>)
    requires IsText(a) && IsText(b)
    requires embed(a.content) == Some([1.0, 0.0, 0.0])
    requires embed(b.content) == Some([0.0, 1.0, 0.0, 0.0])
    ensures Ingest(State([], None), [a, b], embed)
         == Run(State([SourceDocument(a.name, a.content), SourceDocument(b.name, b.content)],
                      Some(IndexImage(3, [[1.0, 0.0, 0.0]]))),
                Some(DimensionMismatch(3, 4)))
  {
    var va: Vector := [1.0, 0.0, 0.0];
    var vb: Vector := [0.0, 1.0, 0.0, 0.0];
    assert |va| == 3 && |vb| == 4;
    var first := State([SourceDocument(a.name, a.content)], Some(IndexImage(3, [] + [va])));
    assert [a, b][0] == a && [a, b][1..] == [b];
    assert Ingest(State([], None), [a, b], embed) == Ingest(first, [b], embed);
    assert [b][0] == b && [b][1..] == [];
    assert InitIndex(first.index, |vb|) == Err(DimensionMismatch(3, 4));
    assert [] + [va] == [[1.0, 0.0, 0.0]];
    assert [SourceDocument(a.name, a.content)] + [SourceDocument(b.name, b.content)]
        == [SourceDocument(a.name, a.content), SourceDocument(b.name, b.content)];
  }

  /** What the constructor finds: the index file if it exists, and the
      documents file only when the index file exists too. */
  function Loaded(disk: Storage): State {
    State(if disk.indexFile.Some? && disk.documentsFile.Some? then disk.documentsFile.value else [],
          disk.indexFile)
  }

  /** What a completed `load_documents` writes: both files, holding the state. */
  function Saved(s: State): Storage {
    Storage(s.index, Some(s.documents))
  }

  /** Saving then constructing a new retriever gives back the same state. */
  lemma ReloadAfterSave(s: State)
    requires s.index.Some?
    ensures Loaded(Saved(s)) == s
  {
  }

  /** An index file without a documents file loads vectors but no documents,
      so the coupling is broken from construction on. */
  lemma IndexWithoutDocumentsFile(image: IndexImage)
    requires image.vectors != []
    ensures !Coupled(Loaded(Storage(Some(image), None)))
  {
  }

  /** `top_k` as `search` uses it: the configured value when none is given. */
  function EffectiveTopK(topK: Option<int>): (k: int)
    ensures topK.None? ==> k == 3
    ensures topK.Some? ==> k == topK.value
  {
    if topK.None? then Config.TopK else topK.value
  }

  /** Python's `seq[i]` for an integer `i`: negative positions count from the
      end; anything outside `-|seq| .. |seq| - 1` raises IndexError. */
  function PyPosition(n: nat, i: int): (p: Option<nat>)
    ensures p.Some? <==> -(n as int) <= i < n
    ensures p.Some? ==> p.value < n && (if i >= 0 then p.value == i else p.value == n + i)
  {
    if 0 <= i < n then Some(i) else if -(n as int) <= i < 0 then Some(n + i) else None
  }

  /** `[documents[i] for i in positions]`: one document per position, in the
      order of the positions; the first position Python rejects raises. */
  function MapPositions(documents: seq<Document>, positions: seq<int>): (r: Result<seq<Document>, Error>)
    ensures r.Ok? <==> forall j :: 0 <= j < |positions| ==> PyPosition(|documents|, positions[j]).Some?
    ensures r.Ok? ==> |r.value| == |positions|
    ensures r.Ok? ==> forall j :: 0 <= j < |positions| ==>
      r.value[j] == documents[PyPosition(|documents|, positions[j]).value]
    ensures r.Err? ==> r.error.PositionOutOfRange? && r.error.position in positions
                       && PyPosition(|documents|, r.error.position).None?
    decreases |positions|
  {
    if positions == [] then Ok([])
    else
      match PyPosition(|documents|, positions[0])
      case None => Err(PositionOutOfRange(positions[0]))
      case Some(p) =>
        match MapPositions(documents, positions[1..])
        case Err(e) => Err(e)
        case Ok(rest) => Ok([documents[p]] + rest)
  }

  /** The index search of `search` on values: the index rejects a query of the
      wrong width and a `k` below one; otherwise the positions the ranking
      oracle returns are mapped back to documents. */
  function SearchIndex(documents: seq<Document>, image: IndexImage, query: Vector, k: int,
                       nearest: (IndexImage, Vector, nat) -> seq<int>): Result<seq<Document>, Error>
  {
    if |query| != image.d then Err(DimensionMismatch(image.d, |query|))
    else if k < 1 then Err(InvalidTopK(k))
    else MapPositions(documents, nearest(image, query, k))
  }

  /** With documents and vectors coupled and a ranking that returns positions
      of stored vectors, search succeeds and position i gives document i. */
  lemma CoupledSearch(documents: seq<Document>, image: IndexImage, query: Vector, k: int,
                      nearest: (IndexImage, Vector, nat) -> seq<int>)
    requires |documents| == |image.vectors| && |query| == image.d && k >= 1
    requires var positions := nearest(image, query, k);
      forall j :: 0 <= j < |positions| ==> 0 <= positions[j] < |image.vectors|
    ensures var r := SearchIndex(documents, image, query, k, nearest);
      var positions := nearest(image, query, k);
      && r.Ok? && |r.value| == |positions|
      && forall j :: 0 <= j < |positions| ==> r.value[j] == documents[positions[j]]
  {
  }

  /** The index pads a short answer with position -1, and Python reads
      `documents[-1]` as the last document rather than raising. */
  lemma MissingSlotGivesLastDocument(documents: seq<Document>, positions: seq<int>, j: nat)
    requires documents != [] && j < |positions| && positions[j] == -1
    requires MapPositions(documents, positions).Ok?
    ensures MapPositions(documents, positions).value[j] == documents[|documents| - 1]
  {
  }

  /** A flat L2 index: its dimension is fixed when it is created, and vectors
      are only ever appended. */
  class FlatIndex {
    const d: nat
    var vectors: seq<Vector>

    function Image(): IndexImage
      reads this
    {
      IndexImage(d, vectors)
    }

    /** `faiss.IndexFlatL2(d)`. */
    constructor (d: nat)
      ensures Image() == IndexImage(d, [])
    {
      this.d := d;
      vectors := [];
    }

    /** `faiss.read_index(path)` on a file holding `image`. */
    constructor Read(image: IndexImage)
      ensures Image() == image
    {
      d := image.d;
      vectors := image.vectors;
    }

    /** `index.add(v)`: the vector takes the next position. */
    method Add(v: Vector)
      requires |v| == d
      modifies this
      ensures vectors == old(vectors) + [v]
    {
      vectors := vectors + [v];
    }
  }

  class Retriever {
    /** `self.model.generate_embedding`; `None` when the backend raises. */
    const embed: string -> Option<Vector>
    /** The index's ranking: the positions of the k nearest vectors. */
    const nearest: (IndexImage, Vector, nat) -> seq<int>
    var index: FlatIndex?
    var documents: seq<Document>

    ghost predicate Valid()
      reads this, index
    {
      index != null ==> Uniform(index.Image())
    }

    function Contents(): State
      reads this, index
    {
      State(documents, if index == null then None else Some(index.Image()))
    }

    /** `__init__` with `_load_or_create_index`: the index is read when its
        file exists, and the documents are read only in that case and only
        when their file exists too. */
    constructor (embed: string -> Option<Vector>, nearest: (IndexImage, Vector, nat) -> seq<int>, disk: Storage)
      requires disk.indexFile.Some? ==> Uniform(disk.indexFile.value)
      ensures Valid()
      ensures this.embed == embed && this.nearest == nearest
      ensures Contents() == Loaded(disk)
    {
      this.embed := embed;
      this.nearest := nearest;
      index := null;
      documents := [];
      new;
      if disk.indexFile.Some? {
        index := new FlatIndex.Read(disk.indexFile.value);
        if disk.documentsFile.Some? {
          documents := disk.documentsFile.value;
        }
      }
    }

    /** `_initialize_index(dim)`. */
    method InitializeIndex(dim: nat) returns (r: Outcome<Error>)
      requires Valid()
      modifies this
      ensures Valid()
      ensures documents == old(documents)
      ensures old(index) != null ==> index == old(index)
      ensures old(index) == null && index != null ==> fresh(index)
      ensures match InitIndex(old(Contents()).index, dim)
              case Ok(image) => r == Pass && index != null && index.Image() == image
              case Err(e) => r == Fail(e) && index == old(index)
    {
      if index == null {
        index := new FlatIndex(dim);
        r := Pass;
      } else if index.d != dim {
        r := Fail(DimensionMismatch(index.d, dim));
      } else {
        r := Pass;
      }
    }

    /** `load_documents(data_dir)` given the directory listing: the ingestion
        loop, then both files are written. A run that raises writes nothing
        but keeps what it appended in memory; with no index at the end (no
        text file and no index file) writing the index is assumed to raise. */
    method LoadDocuments(entries: seq<DirEntry>) returns (r: Result<Storage, Error>)
      requires Valid()
      modifies this, index
      ensures Valid()
      ensures old(index) != null ==> index == old(index)
      ensures var run := Ingest(old(Contents()), entries, embed);
        && Contents() == run.state
        && r == if run.error.Some? then Err(run.error.value)
                else if run.state.index.None? then Err(NoIndexToSave)
                else Ok(Saved(run.state))
    {
      var i := 0;
      while i < |entries|
        invariant 0 <= i <= |entries|
        invariant Valid()
        invariant old(index) != null ==> index == old(index)
        invariant old(index) == null && index != null ==> fresh(index)
        invariant Ingest(Contents(), entries[i..], embed) == Ingest(old(Contents()), entries, embed)
      {
        var e := entries[i];
        assert entries[i..][0] == e && entries[i..][1..] == entries[i + 1..];
        if EndsWith(e.name, ".txt") {
          var embedding := embed(e.content);
          if embedding.None? {
            return Err(EmbeddingFailed);
          }
          documents := documents + [SourceDocument(e.name, e.content)];
          var init := InitializeIndex(|embedding.value|);
          if init.Fail? {
            return Err(init.error);
          }
          index.Add(embedding.value);
        }
        i := i + 1;
      }
      if index == null {
        return Err(NoIndexToSave);
      }
      r := Ok(Storage(Some(index.Image()), Some(documents)));
    }

    /** `search(query, top_k)`: the query is embedded first, then the index is
        searched with the effective `top_k` and the positions mapped back to
        documents. */
    function Search(query: string, topK: Option<int>): (r: Result<seq<Document>, Error>)
      reads this, index
      ensures embed(query).None? ==> r == Err(EmbeddingFailed)
      ensures embed(query).Some? && index == null ==> r == Err(IndexNotInitialized)
      ensures r.Ok? ==> index != null && |embed(query).value| == index.d && EffectiveTopK(topK) >= 1
      ensures r.Ok? ==> forall j :: 0 <= j < |r.value| ==> r.value[j] in documents
    {
      match embed(query)
      case None => Err(EmbeddingFailed)
      case Some(q) =>
        if index == null then Err(IndexNotInitialized)
        else SearchIndex(documents, index.Image(), q, EffectiveTopK(topK), nearest)
    }
  }

  /** A search without `top_k` is the search with the configured value, 3. */
  lemma SearchDefaultTopK(retriever: Retriever, query: string)
    ensures retriever.Search(query, None) == retriever.Search(query, Some(3))
  {
  }
}
