/** The request and record shapes of the chunking service: a file stored in
    a bucket, a chunking request, and one chunk with its embedding. Python's
    pydantic defaults become Dafny default parameter values of the
    constructing functions. */
module ChunkModel {
  import opened Wrappers

  /** A UUID, kept as its canonical text form (what `str(uuid)` prints). */
  datatype Uuid = Uuid(text: string)

  type Metadata = map<string, string>

  /** An embedding vector (Python `List[float]`). */
  type Embedding = seq<real>

  /** A UTC instant, in microseconds since the epoch. */
  type Timestamp = int

  /** A file in Cloud Storage: the object name is required, the bucket is optional. */
  datatype GcpFile = GcpFile(bucket: Option<string>, name: string)

  function NewGcpFile(name: string, bucket: Option<string> := None): (f: GcpFile)
    ensures f.name == name
    ensures f.bucket == bucket
  {
    GcpFile(bucket, name)
  }

  /** A request to chunk one text: `text` is required, the correlation ids
      and the metadata are optional. */
  datatype ChunksRequest = ChunksRequest(
    jobId: Option<Uuid>,
    taskId: Option<Uuid>,
    text: string,
    metadata: Option<Metadata>)

  function NewChunksRequest(
    text: string,
    jobId: Option<Uuid> := None,
    taskId: Option<Uuid> := None,
    metadata: Option<Metadata> := None): (r: ChunksRequest)
    ensures r.text == text
    ensures r.jobId == jobId && r.taskId == taskId && r.metadata == metadata
  {
    ChunksRequest(jobId, taskId, text, metadata)
  }

  /** One chunk of a request's text, with its position among the request's
      chunks and its (possibly still empty) embedding. */
  datatype ChunkWithEmebeddings = ChunkWithEmebeddings(
    jobId: Option<Uuid>,
    taskId: Option<Uuid>,
    chunkIndex: int,
    totalChunks: int,
    language: string,
    text: string,
    tokenCount: Option<int>,
    embedding: Embedding,
    metadata: Option<Metadata>,
    createdAt: Timestamp)

  /** The record class once its class statement has run. The default of
      `created_at` is an expression evaluated when the class is defined, so
      the class carries the one instant it produced. */
  datatype ChunkRecordClass = ChunkRecordClass(createdAtDefault: Timestamp)

  /** Running the class statement at instant `now`. */
  function DefineChunkWithEmebeddings(now: Timestamp): (cls: ChunkRecordClass)
    ensures cls.createdAtDefault == now
  {
    ChunkRecordClass(now)
  }

  /** Building a record: index, total, language, text and embedding are
      required; everything else is optional, and a missing `created_at` takes
      the class's shared default (not the current time). */
  function NewChunkWithEmebeddings(
    cls: ChunkRecordClass,
    chunkIndex: int,
    totalChunks: int,
    language: string,
    text: string,
    embedding: Embedding,
    jobId: Option<Uuid> := None,
    taskId: Option<Uuid> := None,
    tokenCount: Option<int> := None,
    metadata: Option<Metadata> := None,
    createdAt: Option<Timestamp> := None): (c: ChunkWithEmebeddings)
    ensures c.chunkIndex == chunkIndex && c.totalChunks == totalChunks
    ensures c.language == language && c.text == text && c.embedding == embedding
    ensures c.jobId == jobId && c.taskId == taskId
    ensures c.tokenCount == tokenCount && c.metadata == metadata
    ensures createdAt.None? ==> c.createdAt == cls.createdAtDefault
    ensures createdAt.Some? ==> c.createdAt == createdAt.value
  {
    ChunkWithEmebeddings(
      jobId, taskId, chunkIndex, totalChunks, language, text,
      tokenCount, embedding, metadata, createdAt.GetOr(cls.createdAtDefault))
  }

  /** Every record built without an explicit `created_at` carries the same
      instant, whatever else differs between the two records. */
  lemma CreatedAtDefaultIsShared(
    cls: ChunkRecordClass,
    i1: int, n1: int, lang1: string, text1: string, e1: Embedding,
    i2: int, n2: int, lang2: string, text2: string, e2: Embedding)
    ensures NewChunkWithEmebeddings(cls, i1, n1, lang1, text1, e1).createdAt
         == NewChunkWithEmebeddings(cls, i2, n2, lang2, text2, e2).createdAt
  {
  }

  /** Where a request's text comes from, once validated. */
  datatype ChunkSource = InlineText(text: string) | InputFile(file: GcpFile)

  const BothSourcesMessage := "Either 'text' or 'input_file' must be provided, not both."
  const NoSourceMessage := "Either 'text' or 'input_file' must be provided."

  /** The request validator that the model tests describe: exactly one of an
      inline text and an input file must be given. */
  function ValidateSource(text: Option<string>, inputFile: Option<GcpFile>): (r: Result<ChunkSource>)
    ensures r.Ok? <==> text.Some? != inputFile.Some?
    ensures r.Ok? && text.Some? ==> r.value == InlineText(text.value)
    ensures r.Ok? && inputFile.Some? ==> r.value == InputFile(inputFile.value)
    ensures text.Some? && inputFile.Some? ==> r == Err(Exception("ValidationError", BothSourcesMessage))
    ensures text.None? && inputFile.None? ==> r == Err(Exception("ValidationError", NoSourceMessage))
  {
    match (text, inputFile)
    case (Some(t), None) => Ok(InlineText(t))
    case (None, Some(f)) => Ok(InputFile(f))
    case (Some(_), Some(_)) => Err(Exception("ValidationError", BothSourcesMessage))
    case (None, None) => Err(Exception("ValidationError", NoSourceMessage))
  }
}
