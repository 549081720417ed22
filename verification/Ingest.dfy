/** PDF ingestion (`ingest_pdf`): validate the configuration, locate the
    file, load and split it, drop empty metadata, number the chunks and hand
    them to the vector store. Loading, splitting and the store write are
    library calls and arrive as parameters; every call the run makes is
    recorded, so the order of the steps and what is skipped after a failure
    can be stated. */
module Ingest {
  import opened Results
  import opened Environment
  import opened Documents
  import opened Decimal

  /** Ingestion needs both provider keys, the file, the database URL and the
      collection name, checked in this order. */
  const IngestKeys: seq<string> := [OpenAiKey, GoogleKey, PdfPath, DatabaseUrl, CollectionName]

  // ---------------------------------------------------------------------
  // Metadata filter
  // ---------------------------------------------------------------------

  /** A value survives the filter unless it equals `""` or is `None`. No
      number or flag compares equal to either in Python. */
  predicate Kept(v: MetaValue) {
    v != Text("") && v != Null
  }

  /** `{k: v for k, v in metadata.items() if v not in ("", None)}` */
  function FilterMetadata(m: Metadata): (r: Metadata)
    ensures r.Keys <= m.Keys
    ensures forall k | k in r :: Kept(r[k]) && r[k] == m[k]
    ensures forall k | k in m && Kept(m[k]) :: k in r
  {
    map k | k in m && Kept(m[k]) :: m[k]
  }

  /** Filtering already-filtered metadata changes nothing. */
  lemma FilterIdempotent(m: Metadata)
    ensures FilterMetadata(FilterMetadata(m)) == FilterMetadata(m)
  {
    var once := FilterMetadata(m);
    assert FilterMetadata(once).Keys == once.Keys;
  }

  /** A document with its metadata filtered. */
  function Enrich(chunk: Chunk): Chunk {
    Chunk(chunk.pageContent, FilterMetadata(chunk.metadata))
  }

  /** The `enriched_chunks` list comprehension: same count, same order, the
      same page text, filtered metadata. */
  function EnrichAll(chunks: seq<Chunk>): (r: seq<Chunk>)
    ensures |r| == |chunks|
    ensures forall i | 0 <= i < |r| :: r[i].pageContent == chunks[i].pageContent
    ensures forall i | 0 <= i < |r| :: r[i].metadata.Keys <= chunks[i].metadata.Keys
    ensures forall i, k | 0 <= i < |r| && k in r[i].metadata :: Kept(r[i].metadata[k])
    decreases |chunks|
  {
    if |chunks| == 0 then []
    else [Enrich(chunks[0])] + EnrichAll(chunks[1..])
  }

  /** Enrichment is the filter applied chunk by chunk, in place. */
  lemma {:induction false} EnrichAllPointwise(chunks: seq<Chunk>, i: nat)
    requires i < |chunks|
    ensures EnrichAll(chunks)[i] == Enrich(chunks[i])
    decreases i
  {
    if i > 0 {
      EnrichAllPointwise(chunks[1..], i - 1);
    }
  }

  /** Enriching twice is enriching once. */
  lemma EnrichAllIdempotent(chunks: seq<Chunk>)
    ensures EnrichAll(EnrichAll(chunks)) == EnrichAll(chunks)
  {
    var once := EnrichAll(chunks);
    forall i | 0 <= i < |once|
      ensures EnrichAll(once)[i] == once[i]
    {
      EnrichAllPointwise(once, i);
      EnrichAllPointwise(chunks, i);
      FilterIdempotent(chunks[i].metadata);
    }
  }

  // ---------------------------------------------------------------------
  // Chunk ids
  // ---------------------------------------------------------------------

  const IdPrefix: string := "doc-"

  /** `f"doc-{i}"`: the prefix followed by the decimal numeral of `i`. */
  function IdOf(i: nat): (id: string)
    ensures |id| > |IdPrefix| && id[..|IdPrefix|] == IdPrefix
    ensures id[|IdPrefix|..] == Show(i) && AllDigits(id[|IdPrefix|..])
  {
    IdPrefix + Show(i)
  }

  /** Reads the index back out of an id; `None` for anything that is not
      `doc-` followed by a numeral. */
  function IndexOf(id: string): Option<nat> {
    if |id| > |IdPrefix| && id[..|IdPrefix|] == IdPrefix && AllDigits(id[|IdPrefix|..])
    then Some(Parse(id[|IdPrefix|..]))
    else None
  }

  lemma IndexOfId(i: nat)
    ensures IndexOf(IdOf(i)) == Some(i)
  {
    var id := IdOf(i);
    assert id[..|IdPrefix|] == IdPrefix;
    assert id[|IdPrefix|..] == Show(i);
    ParseShow(i);
  }

  /** `[f"doc-{i}" for i in range(n)]` */
  function Ids(n: nat): (ids: seq<string>)
    ensures |ids| == n
    ensures forall i | 0 <= i < n :: ids[i] == IdOf(i)
    decreases n
  {
    if n == 0 then [] else Ids(n - 1) + [IdOf(n - 1)]
  }

  /** No two chunks share an id. */
  lemma IdsDistinct(n: nat, i: nat, j: nat)
    requires i < n && j < n && i != j
    ensures Ids(n)[i] != Ids(n)[j]
  {
    IndexOfId(i);
    IndexOfId(j);
  }

  // ---------------------------------------------------------------------
  // ingest_pdf
  // ---------------------------------------------------------------------

  /** `RecursiveCharacterTextSplitter(chunk_size=..., chunk_overlap=...)` */
  datatype SplitterConfig = SplitterConfig(chunkSize: nat, chunkOverlap: nat)

  const Splitting: SplitterConfig := SplitterConfig(1000, 150)

  /** What `save_to_database` hands to the store: the documents, their ids,
      the embedding model and the collection. */
  datatype Write = Write(chunks: seq<Chunk>, ids: seq<string>, embeddingsModel: string, collection: string)

  /** The outside world ingestion talks to: whether the file exists, the PDF
      loader (one document per page, or an error), the text splitter and the
      store write. */
  datatype Library = Library(
    fileExists: string -> bool,
    load: string -> Result<seq<Chunk>>,
    split: (SplitterConfig, seq<Chunk>) -> seq<Chunk>,
    save: Write -> Outcome)

  /** One call into the library. */
  datatype Call =
    | Exists(path: string)
    | Load(path: string)
    | Split(config: SplitterConfig, pages: seq<Chunk>)
    | Save(write: Write)

  /** A run of `ingest_pdf`: the calls it made, in order, and how it ended. */
  datatype IngestRun = IngestRun(calls: seq<Call>, outcome: Outcome)

  /** The documents and ids `split_document` returns for the loaded pages. */
  function Prepare(lib: Library, pages: seq<Chunk>): (w: (seq<Chunk>, seq<string>))
    ensures |w.0| == |w.1| == |lib.split(Splitting, pages)|
    ensures forall i | 0 <= i < |w.0| :: w.0[i].pageContent == lib.split(Splitting, pages)[i].pageContent
    ensures forall i | 0 <= i < |w.1| :: w.1[i] == IdOf(i)
  {
    var chunks := EnrichAll(lib.split(Splitting, pages));
    (chunks, Ids(|chunks|))
  }

  /** `ingest_pdf()`. Each step runs only when every earlier one succeeded;
      the store write is the last call and happens only after validation,
      location and loading all succeeded. */
  function IngestPdf(env: Env, lib: Library): (r: IngestRun)
    ensures r.calls == [] <==> CheckRequired(env, IngestKeys).Fail?
    ensures r.calls == [] ==> r.outcome == CheckRequired(env, IngestKeys)
    ensures |r.calls| <= 4
    ensures forall i | 0 <= i < |r.calls| :: r.calls[i].Save? <==> i == 3
    ensures |r.calls| == 4 ==> r.outcome == lib.save(r.calls[3].write)
    ensures r.outcome.Pass? ==> |r.calls| == 4
  {
    match CheckRequired(env, IngestKeys)
    case Fail(e) => IngestRun([], Fail(e))
    case Pass =>
      assert IsSet(env, IngestKeys[2]) && IsSet(env, IngestKeys[4]);
      var path := env[PdfPath];
      if !lib.fileExists(path) then
        IngestRun([Exists(path)], Fail(FileNotFound(path)))
      else
        match lib.load(path)
        case Err(e) => IngestRun([Exists(path), Load(path)], Fail(e))
        case Ok(pages) =>
          var prepared := Prepare(lib, pages);
          var write := Write(prepared.0, prepared.1, EmbeddingsModelName(env), env[CollectionName]);
          IngestRun([Exists(path), Load(path), Split(Splitting, pages), Save(write)], lib.save(write))
  }

  /** The full sequence of calls a run can make; every run makes a prefix of
      it, cut right after the first step that fails. */
  lemma IngestSteps(env: Env, lib: Library)
    ensures var r := IngestPdf(env, lib);
      && (CheckRequired(env, IngestKeys).Fail? ==> r.calls == [])
      && (CheckRequired(env, IngestKeys).Pass? ==>
          IsSet(env, PdfPath) &&
          var path := env[PdfPath];
          && r.calls[0] == Exists(path)
          && (!lib.fileExists(path) ==> r == IngestRun([Exists(path)], Fail(FileNotFound(path))))
          && (lib.fileExists(path) && lib.load(path).Err? ==>
                r == IngestRun([Exists(path), Load(path)], Fail(lib.load(path).error)))
          && (lib.fileExists(path) && lib.load(path).Ok? ==>
                && |r.calls| == 4
                && r.calls[1] == Load(path)
                && r.calls[2] == Split(Splitting, lib.load(path).value)))
  {
    if CheckRequired(env, IngestKeys).Pass? {
      assert IsSet(env, IngestKeys[2]);
    }
  }

  /** What reaches the store: the split chunks in order with their page text
      intact and empty metadata removed, numbered `doc-0`, `doc-1`, ...,
      under the configured collection and embedding model. */
  lemma IngestWrites(env: Env, lib: Library)
    requires |IngestPdf(env, lib).calls| == 4
    ensures var r := IngestPdf(env, lib);
      var w := r.calls[3].write;
      var split := lib.split(Splitting, r.calls[2].pages);
      && IsSet(env, CollectionName)
      && w.collection == env[CollectionName]
      && w.embeddingsModel == EmbeddingsModelName(env)
      && w.chunks == EnrichAll(split)
      && w.ids == Ids(|split|)
  {
    assert IsSet(env, IngestKeys[2]) && IsSet(env, IngestKeys[4]);
  }

  /** Validation, key by key: the first key of the list that is absent or
      empty is the one reported, and nothing else happens. */
  lemma IngestNamesFirstUnset(env: Env, lib: Library, i: nat)
    requires FirstUnset(env, IngestKeys, i)
    ensures IngestPdf(env, lib) == IngestRun([], Fail(MissingVariable(IngestKeys[i])))
  {
    CheckRequiredNamesFirst(env, IngestKeys, i);
  }

  /** Ingestion refuses to start without the Google key, even though it
      embeds with OpenAI only. */
  lemma IngestNeedsGoogleKey(env: Env, lib: Library)
    requires !IsSet(env, GoogleKey)
    ensures IngestPdf(env, lib).calls == []
    ensures IngestPdf(env, lib).outcome.Fail?
  {
    assert !IsSet(env, IngestKeys[1]);
  }
}
