/** The chunk service of `features/chunk`: one splitter, built once from a
    model, a token budget and an overlap, turns a text into chunk texts. */
module TextChunkService {
  import opened Wrappers
  import opened Libraries
  import opened RecursiveSplitter

  /** The service value holds its one splitter, and no call replaces it. */
  datatype ChunkService = ChunkService(splitter: RecursiveSplitter)

  function NewChunkService(
    model: SentenceTransformer,
    chunkSize: int,
    chunkOverlap: int := DefaultChunkOverlap): (svc: ChunkService)
    ensures svc.splitter == NewRecursiveSplitter(model, chunkSize, chunkOverlap)
    ensures svc.splitter.chunkOverlap == chunkOverlap
  {
    ChunkService(NewRecursiveSplitter(model, chunkSize, chunkOverlap))
  }

  /** The page contents of the splitter's chunks, one text per chunk, in the
      splitter's order, never empty; or the splitter's `ValueError`, raised
      unchanged, when the overlap is larger than the chunk size. */
  function CreateChunks(svc: ChunkService, createDocuments: CreateDocuments, text: string): (r: Result<seq<string>>)
    ensures r.Err? <==> svc.splitter.chunkOverlap > svc.splitter.chunkSize
    ensures r.Err? ==> r.error == Split(svc.splitter, createDocuments, text).error
    ensures r.Ok? ==>
      var docs := Split(svc.splitter, createDocuments, text).value;
      && |r.value| == |docs| >= 1
      && (forall i :: 0 <= i < |docs| ==> r.value[i] == docs[i].pageContent)
  {
    var docs :- Split(svc.splitter, createDocuments, text);
    Ok(seq(|docs|, i requires 0 <= i < |docs| => docs[i].pageContent))
  }

  /** When the splitter can be built and the library yields no documents at
      all, the service returns the texts `[""]`; this is the case of the
      empty text. */
  lemma CreateChunksWithoutDocuments(svc: ChunkService, createDocuments: CreateDocuments, text: string)
    requires svc.splitter.chunkOverlap <= svc.splitter.chunkSize
    requires createDocuments(SplitterConfigOf(svc.splitter), [text]) == []
    ensures CreateChunks(svc, createDocuments, text) == Ok([""])
  {
    var r := CreateChunks(svc, createDocuments, text);
    assert r.Ok? && |r.value| == 1 && r.value[0] == "";
    assert r.value == [""];
  }

  /** A service built with the default overlap splits with 128 tokens of overlap. */
  lemma DefaultOverlap(model: SentenceTransformer, chunkSize: int)
    ensures SplitterConfigOf(NewChunkService(model, chunkSize).splitter).chunkOverlap == 128
    ensures SplitterConfigOf(NewChunkService(model, chunkSize).splitter).chunkSize == chunkSize
  {
  }

  /** With the default overlap, every call of a service whose chunk size is
      below 128 raises `ValueError`. */
  lemma SmallChunkSizeWithDefaultOverlapFails(model: SentenceTransformer, chunkSize: int, createDocuments: CreateDocuments, text: string)
    requires chunkSize < 128
    ensures CreateChunks(NewChunkService(model, chunkSize), createDocuments, text).Err?
    ensures CreateChunks(NewChunkService(model, chunkSize), createDocuments, text).error.kind == "ValueError"
  {
  }
}
