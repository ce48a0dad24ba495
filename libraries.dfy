/** The parts of the sentence-transformers and langchain libraries that the
    chunking code calls, reduced to what it relies on. A model is a
    tokenizer plus its sequence limit. Of the text splitter, the check its
    constructor makes is modelled; the documents it produces are a function
    passed in. */
module Libraries {
  import opened Wrappers

  /** A loaded embedding model, as far as chunking uses it. `tokenIds` gives
      the row of token ids of one text tokenized on its own, as the model's
      tokenizer produces it; `padId` fills the shorter rows of a batch; the
      limit is the longest input, in tokens, that the model embeds. */
  class SentenceTransformer {
    const maxSeqLength: nat
    const tokenIds: string -> seq<int>
    const padId: int

    constructor (maxSeqLength: nat, tokenIds: string -> seq<int>, padId: int)
      ensures this.maxSeqLength == maxSeqLength && this.tokenIds == tokenIds && this.padId == padId
    {
      this.maxSeqLength := maxSeqLength;
      this.tokenIds := tokenIds;
      this.padId := padId;
    }
  }

  /** The length of the longest row among the texts' own rows. */
  function Width(model: SentenceTransformer, texts: seq<string>): (w: nat)
    ensures forall i :: 0 <= i < |texts| ==> |model.tokenIds(texts[i])| <= w
    ensures texts == [] ==> w == 0
    ensures texts != [] ==> exists i :: 0 <= i < |texts| && |model.tokenIds(texts[i])| == w
  {
    if texts == [] then 0
    else
      var rest := Width(model, texts[1..]);
      var n := |model.tokenIds(texts[0])|;
      if n >= rest then n else rest
  }

  function Padded(row: seq<int>, width: nat, pad: int): seq<int>
    requires |row| <= width
  {
    row + seq(width - |row|, _ => pad)
  }

  /** `model.tokenize(texts)["input_ids"].tolist()`: one row per text of the
      batch, in batch order. Each row is the text's own ids followed by
      padding up to the batch's longest row. */
  function Tokenize(model: SentenceTransformer, texts: seq<string>): (rows: seq<seq<int>>)
    ensures |rows| == |texts|
    ensures forall i :: 0 <= i < |texts| ==> |rows[i]| == Width(model, texts)
    ensures forall i :: 0 <= i < |texts| ==>
              |model.tokenIds(texts[i])| <= |rows[i]| && rows[i][..|model.tokenIds(texts[i])|] == model.tokenIds(texts[i])
    ensures forall i, j :: 0 <= i < |texts| && |model.tokenIds(texts[i])| <= j < |rows[i]| ==>
              rows[i][j] == model.padId
  {
    var w := Width(model, texts);
    seq(|texts|, i requires 0 <= i < |texts| => Padded(model.tokenIds(texts[i]), w, model.padId))
  }

  /** A batch of one text is not padded: its one row is the text's own ids. */
  lemma TokenizeOneText(model: SentenceTransformer, text: string)
    ensures Tokenize(model, [text]) == [model.tokenIds(text)]
  {
    var rows := Tokenize(model, [text]);
    assert Width(model, [text]) == |model.tokenIds(text)|;
    assert rows[0] == rows[0][..|model.tokenIds(text)|];
  }

  /** A langchain document; only its text is used. */
  datatype Document = Document(pageContent: string)

  /** The keyword arguments a `RecursiveCharacterTextSplitter` is built with. */
  datatype SplitterConfig = SplitterConfig(
    chunkSize: int,
    chunkOverlap: int,
    lengthFunction: string -> nat,
    isSeparatorRegex: bool)

  const LargerOverlapMessage := "Got a larger chunk overlap than chunk size, should be smaller."

  /** `RecursiveCharacterTextSplitter(**config)`: the library refuses an
      overlap larger than the chunk size with a `ValueError`; otherwise the
      splitter runs with that configuration. */
  function NewTextSplitter(config: SplitterConfig): (r: Result<SplitterConfig>)
    ensures r.Err? <==> config.chunkOverlap > config.chunkSize
    ensures r.Err? ==> r.error == Exception("ValueError", LargerOverlapMessage)
    ensures r.Ok? ==> r.value == config
  {
    if config.chunkOverlap > config.chunkSize then Err(Exception("ValueError", LargerOverlapMessage))
    else Ok(config)
  }

  /** `create_documents(texts)` of a splitter built with `config`. */
  type CreateDocuments = (SplitterConfig, seq<string>) -> seq<Document>
}
