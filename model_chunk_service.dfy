/** The chunk service of `features/chunks`: it picks a model by name from
    the embedding service, builds a splitter whose budget is that model's
    sequence limit, and returns each chunk with its token count. */
module ModelChunkService {
  import opened Wrappers
  import opened Libraries
  import opened RecursiveSplitter

  /** The embedding service as this service uses it: the models it can hand
      out, by name. */
  type AvailableModels = map<string, SentenceTransformer>

  datatype ChunkService = ChunkService(embeddingModels: AvailableModels, chunkOverlap: int)

  function NewChunkService(embeddingModels: AvailableModels, chunkOverlap: int := DefaultChunkOverlap): (svc: ChunkService)
    ensures svc.embeddingModels == embeddingModels && svc.chunkOverlap == chunkOverlap
  {
    ChunkService(embeddingModels, chunkOverlap)
  }

  /** `embedding_service.get_model(name)`: the model, or `ValueError` when the
      name is not available. */
  function GetModel(models: AvailableModels, modelName: string): (r: Result<SentenceTransformer>)
    ensures r.Ok? <==> modelName in models
    ensures r.Ok? ==> r.value == models[modelName]
    ensures r.Err? ==> r.error.kind == "ValueError"
  {
    if modelName in models then Ok(models[modelName])
    else Err(Exception("ValueError", modelName))
  }

  /** The splitter built for one model: budget from the model's limit,
      overlap from the service. */
  function SplitterFor(svc: ChunkService, model: SentenceTransformer): (s: RecursiveSplitter)
    ensures s.model == model
    ensures s.chunkSize == model.maxSeqLength && s.chunkOverlap == svc.chunkOverlap
  {
    NewRecursiveSplitter(model, model.maxSeqLength, svc.chunkOverlap)
  }

  /** Each chunk text paired with its own token count, one pair per splitter
      chunk, in order; or a `ValueError`, and then no chunks at all, when the
      model is unknown (the embedding service's error) or when the service's
      overlap is larger than the model's sequence limit (the splitter's). */
  function CreateChunks(
    svc: ChunkService,
    createDocuments: CreateDocuments,
    modelName: string,
    text: string): (r: Result<seq<(string, nat)>>)
    ensures r.Err? <==>
      modelName !in svc.embeddingModels || svc.chunkOverlap > svc.embeddingModels[modelName].maxSeqLength
    ensures r.Err? ==> r.error.kind == "ValueError"
    ensures modelName !in svc.embeddingModels ==> r == Err(GetModel(svc.embeddingModels, modelName).error)
    ensures modelName in svc.embeddingModels && r.Err? ==>
      r.error == Split(SplitterFor(svc, svc.embeddingModels[modelName]), createDocuments, text).error
    ensures r.Ok? ==>
      var s := SplitterFor(svc, svc.embeddingModels[modelName]);
      var docs := Split(s, createDocuments, text).value;
      && |r.value| == |docs| >= 1
      && (forall i :: 0 <= i < |docs| ==> r.value[i].0 == docs[i].pageContent)
      && (forall i :: 0 <= i < |docs| ==> r.value[i].1 == CountTokens(s, r.value[i].0))
  {
    var model :- GetModel(svc.embeddingModels, modelName);
    var splitter := SplitterFor(svc, model);
    var chunks :- Split(splitter, createDocuments, text);
    Ok(seq(|chunks|, i requires 0 <= i < |chunks| =>
      (chunks[i].pageContent, CountTokens(splitter, chunks[i].pageContent))))
  }

  /** An available model whose limit admits the overlap, and a library that
      yields nothing for the text: the result is the single pair of the
      empty text and its token count. */
  lemma CreateChunksWithoutDocuments(svc: ChunkService, createDocuments: CreateDocuments, modelName: string, text: string)
    requires modelName in svc.embeddingModels
    requires svc.chunkOverlap <= svc.embeddingModels[modelName].maxSeqLength
    requires createDocuments(SplitterConfigOf(SplitterFor(svc, svc.embeddingModels[modelName])), [text]) == []
    ensures CreateChunks(svc, createDocuments, modelName, text)
         == Ok([("", |svc.embeddingModels[modelName].tokenIds("")|)])
  {
    var s := SplitterFor(svc, svc.embeddingModels[modelName]);
    assert Split(s, createDocuments, text) == Ok([Document("")]);
    var full := CreateChunks(svc, createDocuments, modelName, text);
    assert full.Ok?;
    var r := full.value;
    assert |r| == 1 && r[0] == ("", CountTokens(s, ""));
    assert r == [("", CountTokens(s, ""))];
  }

  /** The service's default overlap is 128 tokens. */
  lemma DefaultOverlap(models: AvailableModels)
    ensures NewChunkService(models).chunkOverlap == 128
  {
  }

  /** With the default overlap, a model whose sequence limit is below 128
      tokens makes every call raise `ValueError`, before any chunk exists. */
  lemma ShortModelWithDefaultOverlapFails(models: AvailableModels, createDocuments: CreateDocuments, modelName: string, text: string)
    requires modelName in models && models[modelName].maxSeqLength < 128
    ensures CreateChunks(NewChunkService(models), createDocuments, modelName, text).Err?
    ensures CreateChunks(NewChunkService(models), createDocuments, modelName, text).error.kind == "ValueError"
  {
  }
}
