/** The second phase of the pipeline: a router that receives one chunk
    record whose embedding is still to be computed, fills it in place from
    the record's own model name and text, and hands the same record back for
    publishing. */
module ChunkEmbeddingRequestRouter {
  import opened ChunkModel

  /** The embedding service as this router calls it. `encode` is the model's
      (opaque) embedding of a text; `requests` records every call made. */
  class EmbeddingService {
    const encode: (string, string) -> Embedding
    var requests: seq<(string, string)>

    constructor (encode: (string, string) -> Embedding)
      ensures this.encode == encode && requests == []
    {
      this.encode := encode;
      requests := [];
    }

    /** `generate_embeddings(model_name, text)`. */
    method GenerateEmbeddings(modelName: string, text: string) returns (e: Embedding)
      modifies this
      ensures e == encode(modelName, text)
      ensures requests == old(requests) + [(modelName, text)]
    {
      e := encode(modelName, text);
      requests := requests + [(modelName, text)];
    }
  }

  /** The incoming message payload: a chunk record together with the name of
      the model that is to embed it (the field `embedding_model_name` the
      router reads, which the chunk record itself does not declare). */
  class ChunkWithEmbeddings {
    var record: ChunkWithEmebeddings
    var embeddingModelName: string

    constructor (record: ChunkWithEmebeddings, embeddingModelName: string)
      ensures this.record == record && this.embeddingModelName == embeddingModelName
    {
      this.record := record;
      this.embeddingModelName := embeddingModelName;
    }
  }

  /** The record once its embedding is filled in from its own text. */
  function Filled(c: ChunkWithEmebeddings, modelName: string, encode: (string, string) -> Embedding): (r: ChunkWithEmebeddings)
    ensures r.embedding == encode(modelName, c.text)
    ensures r.jobId == c.jobId && r.taskId == c.taskId
    ensures r.chunkIndex == c.chunkIndex && r.totalChunks == c.totalChunks
    ensures r.language == c.language && r.text == c.text && r.tokenCount == c.tokenCount
    ensures r.metadata == c.metadata && r.createdAt == c.createdAt
  {
    c.(embedding := encode(modelName, c.text))
  }

  /** Filling does not depend on the embedding the record arrives with, so
      a redelivered message or a record filled twice yields the same record. */
  lemma FilledIsIdempotent(c: ChunkWithEmebeddings, modelName: string, encode: (string, string) -> Embedding, stale: Embedding)
    ensures Filled(c.(embedding := stale), modelName, encode) == Filled(c, modelName, encode)
    ensures Filled(Filled(c, modelName, encode), modelName, encode) == Filled(c, modelName, encode)
  {
  }

  /** Two records that differ only in their embeddings are equal once filled. */
  lemma FilledDeterminedByOtherFields(c1: ChunkWithEmebeddings, c2: ChunkWithEmebeddings, modelName: string, encode: (string, string) -> Embedding)
    requires c1.(embedding := []) == c2.(embedding := [])
    ensures Filled(c1, modelName, encode) == Filled(c2, modelName, encode)
  {
    assert c1.text == c2.text by {
      assert c1.(embedding := []).text == c2.(embedding := []).text;
    }
  }

  class ChunkEmbeddingRequestMessageRouter {
    const embeddingService: EmbeddingService

    constructor (embeddingService: EmbeddingService)
      ensures this.embeddingService == embeddingService
    {
      this.embeddingService := embeddingService;
    }

    /** `process_payload`: assigns the embedding of the payload's own model
        name and text to the payload, in place, with one call to the
        embedding service, and returns the payload object itself. */
    method ProcessPayload(payload: ChunkWithEmbeddings) returns (r: ChunkWithEmbeddings)
      modifies payload, embeddingService
      ensures r == payload
      ensures payload.record == Filled(old(payload.record), old(payload.embeddingModelName), embeddingService.encode)
      ensures payload.embeddingModelName == old(payload.embeddingModelName)
      ensures embeddingService.requests == old(embeddingService.requests) + [(old(payload.embeddingModelName), old(payload.record.text))]
    {
      var e := embeddingService.GenerateEmbeddings(payload.embeddingModelName, payload.record.text);
      payload.record := payload.record.(embedding := e);
      r := payload;
    }
  }
}
