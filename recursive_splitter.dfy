/** The token-bounded splitter: a wrapper that hands a text to the library's
    recursive character splitter, measuring length in tokens of the chosen
    model, and never returns an empty list of chunks. The library splitter
    is a parameter, so every property here holds whatever it returns. */
module RecursiveSplitter {
  import opened Wrappers
  import opened Libraries

  const DefaultChunkOverlap := 128

  datatype RecursiveSplitter = RecursiveSplitter(
    model: SentenceTransformer,
    chunkSize: int,
    chunkOverlap: int)

  /** The constructor stores its arguments; the overlap defaults to 128 tokens. */
  function NewRecursiveSplitter(
    model: SentenceTransformer,
    chunkSize: int,
    chunkOverlap: int := DefaultChunkOverlap): (s: RecursiveSplitter)
    ensures s.model == model && s.chunkSize == chunkSize && s.chunkOverlap == chunkOverlap
  {
    RecursiveSplitter(model, chunkSize, chunkOverlap)
  }

  /** The number of token ids the model gives the text, read from the first
      row of a one-text batch. */
  function CountTokens(s: RecursiveSplitter, text: string): (n: nat)
    ensures n == |s.model.tokenIds(text)|
  {
    TokenizeOneText(s.model, text);
    |Tokenize(s.model, [text])[0]|
  }

  /** The configuration handed to the library splitter. */
  function SplitterConfigOf(s: RecursiveSplitter): (cfg: SplitterConfig)
    ensures cfg.chunkSize == s.chunkSize && cfg.chunkOverlap == s.chunkOverlap
    ensures !cfg.isSeparatorRegex
    ensures forall t :: cfg.lengthFunction(t) == CountTokens(s, t)
  {
    SplitterConfig(s.chunkSize, s.chunkOverlap, t => CountTokens(s, t), false)
  }

  /** `split(text)`: building the library splitter raises `ValueError` when
      the overlap is larger than the chunk size; otherwise the result is
      `chunks or [Document(page_content="")]`, the library's documents for
      the one-text batch `[text]` when there are any, else exactly one empty
      chunk. */
  function Split(s: RecursiveSplitter, createDocuments: CreateDocuments, text: string): (r: Result<seq<Document>>)
    ensures r.Err? <==> s.chunkOverlap > s.chunkSize
    ensures r.Err? ==> r.error == Exception("ValueError", LargerOverlapMessage)
    ensures r.Ok? ==> |r.value| >= 1
    ensures r.Ok? && createDocuments(SplitterConfigOf(s), [text]) != [] ==>
              r.value == createDocuments(SplitterConfigOf(s), [text])
    ensures r.Ok? && createDocuments(SplitterConfigOf(s), [text]) == [] ==> r.value == [Document("")]
  {
    var splitter :- NewTextSplitter(SplitterConfigOf(s));
    var chunks := createDocuments(splitter, [text]);
    Ok(if chunks != [] then chunks else [Document("")])
  }

  /** With an overlap no larger than the size, whatever the library yields
      for the empty text, as long as it is no document or the single empty
      document, the split is one empty chunk. */
  lemma SplitEmptyText(s: RecursiveSplitter, createDocuments: CreateDocuments)
    requires s.chunkOverlap <= s.chunkSize
    requires createDocuments(SplitterConfigOf(s), [""]) in {[], [Document("")]}
    ensures Split(s, createDocuments, "") == Ok([Document("")])
  {
  }

  /** The default overlap of 128 tokens is refused with any chunk size
      below it, whatever the model and the text. */
  lemma DefaultOverlapNeedsLargeChunks(model: SentenceTransformer, chunkSize: int, createDocuments: CreateDocuments, text: string)
    requires chunkSize < DefaultChunkOverlap
    ensures Split(NewRecursiveSplitter(model, chunkSize), createDocuments, text)
         == Err(Exception("ValueError", LargerOverlapMessage))
  {
  }
}
