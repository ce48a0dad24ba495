/** The first phase of the pipeline: a router that receives a chunking
    request, chunks its text, and publishes every chunk; when a request has
    more chunks than may be embedded at once, it first redirects the
    message's responses to the embedding-request topic.

    The delivered message is a `PubsubRequest` whose topic addressing and
    publications the transport records. How the transport resolves a
    destination from the addressing is not modelled: each publication keeps
    the addressing in force when it was made. */
module ChunkRequestRouter {
  import opened Wrappers
  import opened ChunkModel
  import opened AppConfiguration

  /** Python truthiness of an optional topic name. */
  predicate IsSetTopic(topic: Option<string>)
  {
    topic.Some? && topic.value != ""
  }

  /** One published response and the addressing in force when it was sent. */
  datatype Publication = Publication(
    chunk: ChunkWithEmebeddings,
    defaultResponseTopic: Option<string>,
    forwardTopic: Option<string>)

  /** What the transport records about one delivered message. */
  datatype RequestState = RequestState(
    defaultResponseTopic: Option<string>,
    forwardTopic: Option<string>,
    published: seq<Publication>)

  /** End state of a phase: the message's record and whether it raised. */
  datatype Routed = Routed(state: RequestState, outcome: Outcome)

  /** The chunk service as the router calls it: a payload in, chunks or an
      exception out. */
  type CreateChunks = ChunksRequest -> Result<seq<ChunkWithEmebeddings>>

  class PubsubRequest {
    const payload: ChunksRequest
    var defaultResponseTopic: Option<string>
    var forwardTopic: Option<string>
    var published: seq<Publication>

    function State(): RequestState
      reads this
    {
      RequestState(defaultResponseTopic, forwardTopic, published)
    }

    constructor (payload: ChunksRequest, defaultResponseTopic: Option<string>, forwardTopic: Option<string>)
      ensures this.payload == payload
      ensures State() == RequestState(defaultResponseTopic, forwardTopic, [])
    {
      this.payload := payload;
      this.defaultResponseTopic := defaultResponseTopic;
      this.forwardTopic := forwardTopic;
      this.published := [];
    }

    /** `set_default_response_topic(topic)`. */
    method SetDefaultResponseTopic(topic: string)
      modifies this
      ensures State() == old(State()).(defaultResponseTopic := Some(topic))
    {
      defaultResponseTopic := Some(topic);
    }

    /** `forward_response_to_topic(topic)`. */
    method ForwardResponseToTopic(topic: string)
      modifies this
      ensures State() == old(State()).(forwardTopic := Some(topic))
    {
      forwardTopic := Some(topic);
    }

    /** `process_response(request, chunk)`: publishes one chunk under the
        current addressing, unless the transport raises `failure`. */
    method ProcessResponse(chunk: ChunkWithEmebeddings, failure: Option<Exception>) returns (outcome: Outcome)
      modifies this
      ensures outcome == if failure.Some? then Fail(failure.value) else Pass
      ensures State() == Published(old(State()), chunk, failure)
    {
      if failure.Some? {
        outcome := Fail(failure.value);
      } else {
        published := published + [Publication(chunk, defaultResponseTopic, forwardTopic)];
        outcome := Pass;
      }
    }
  }

  /** The record after one publish attempt: the addressing is untouched; a
      failed attempt publishes nothing, a successful one exactly the chunk,
      under the addressing in force. */
  function Published(s: RequestState, chunk: ChunkWithEmebeddings, failure: Option<Exception>): (r: RequestState)
    ensures r.defaultResponseTopic == s.defaultResponseTopic && r.forwardTopic == s.forwardTopic
    ensures failure.Some? ==> r.published == s.published
    ensures failure.None? ==> r.published == s.published + [Publication(chunk, s.defaultResponseTopic, s.forwardTopic)]
  {
    if failure.Some? then s
    else s.(published := s.published + [Publication(chunk, s.defaultResponseTopic, s.forwardTopic)])
  }

  /** The record after the optional default response topic is set. */
  function WithDefaultTopic(s: RequestState, responseTopic: Option<string>): (r: RequestState)
    ensures r.forwardTopic == s.forwardTopic && r.published == s.published
    ensures r.defaultResponseTopic == if IsSetTopic(responseTopic) then responseTopic else s.defaultResponseTopic
  {
    if IsSetTopic(responseTopic) then s.(defaultResponseTopic := responseTopic) else s
  }

  /** The record after the threshold decision for `total` chunks. */
  function WithForwarding(s: RequestState, total: nat, threshold: int, embeddingTopic: string): (r: RequestState)
    ensures r.defaultResponseTopic == s.defaultResponseTopic && r.published == s.published
    ensures r.forwardTopic == if total > threshold then Some(embeddingTopic) else s.forwardTopic
  {
    if total > threshold then s.(forwardTopic := Some(embeddingTopic)) else s
  }

  /** The publish loop from position `i` on; the `k`-th publish raises
      `publishFailure(k)` when that is present, and the loop stops there. */
  function PublishFrom(
    s: RequestState,
    chunks: seq<ChunkWithEmebeddings>,
    i: nat,
    publishFailure: nat -> Option<Exception>): (r: Routed)
    requires i <= |chunks|
    ensures r.state.defaultResponseTopic == s.defaultResponseTopic && r.state.forwardTopic == s.forwardTopic
    ensures s.published <= r.state.published
    ensures |r.state.published| <= |s.published| + |chunks| - i
    decreases |chunks| - i
  {
    if i == |chunks| then Routed(s, Pass)
    else if publishFailure(i).Some? then Routed(s, Fail(publishFailure(i).value))
    else PublishFrom(Published(s, chunks[i], None), chunks, i + 1, publishFailure)
  }

  /** One call of `process_request`, from the message's record before the
      call: topic defaulting, chunking, the threshold decision, then the
      publish loop; an exception of the chunk service or of a publish ends
      the call with that same exception. */
  function Route(
    s: RequestState,
    responseTopic: Option<string>,
    embeddingTopic: string,
    threshold: int,
    created: Result<seq<ChunkWithEmebeddings>>,
    publishFailure: nat -> Option<Exception>): (r: Routed)
    ensures s.published <= r.state.published
    ensures created.Err? ==> r.outcome == Fail(created.error) && r.state.published == s.published
  {
    var s1 := WithDefaultTopic(s, responseTopic);
    match created
    case Err(e) => Routed(s1, Fail(e))
    case Ok(chunks) => PublishFrom(WithForwarding(s1, |chunks|, threshold, embeddingTopic), chunks, 0, publishFailure)
  }

  /** The first position at or after `i` whose publish raises, or the number
      of chunks when none does. */
  function FirstFailure(n: nat, i: nat, publishFailure: nat -> Option<Exception>): (k: nat)
    requires i <= n
    ensures i <= k <= n
    ensures forall j :: i <= j < k ==> publishFailure(j).None?
    ensures k < n ==> publishFailure(k).Some?
    decreases n - i
  {
    if i == n || publishFailure(i).Some? then i else FirstFailure(n, i + 1, publishFailure)
  }

  /** The publications of `chunks`, all under one addressing. */
  function Publications(chunks: seq<ChunkWithEmebeddings>, defaultTopic: Option<string>, forwardTopic: Option<string>): (ps: seq<Publication>)
    ensures |ps| == |chunks|
    ensures forall j :: 0 <= j < |ps| ==> ps[j] == Publication(chunks[j], defaultTopic, forwardTopic)
  {
    seq(|chunks|, j requires 0 <= j < |chunks| => Publication(chunks[j], defaultTopic, forwardTopic))
  }

  /** The publish loop from `i`: the addressing never changes; the chunks
      from `i` up to the first failing publish are published once each, in
      order, all under that addressing; the loop raises exactly the first
      failure, unchanged, or completes. */
  lemma {:induction false} PublishFromSpec(
    s: RequestState,
    chunks: seq<ChunkWithEmebeddings>,
    i: nat,
    publishFailure: nat -> Option<Exception>)
    requires i <= |chunks|
    ensures PublishFrom(s, chunks, i, publishFailure).state.defaultResponseTopic == s.defaultResponseTopic
    ensures PublishFrom(s, chunks, i, publishFailure).state.forwardTopic == s.forwardTopic
    ensures PublishFrom(s, chunks, i, publishFailure).state.published
         == s.published + Publications(chunks[i..FirstFailure(|chunks|, i, publishFailure)], s.defaultResponseTopic, s.forwardTopic)
    ensures PublishFrom(s, chunks, i, publishFailure).outcome
         == if FirstFailure(|chunks|, i, publishFailure) < |chunks|
            then Fail(publishFailure(FirstFailure(|chunks|, i, publishFailure)).value) else Pass
    decreases |chunks| - i
  {
    var k := FirstFailure(|chunks|, i, publishFailure);
    var dt, ft := s.defaultResponseTopic, s.forwardTopic;
    if i == |chunks| || publishFailure(i).Some? {
      assert k == i;
      assert Publications(chunks[i..k], dt, ft) == [];
    } else {
      var s' := Published(s, chunks[i], None);
      PublishFromSpec(s', chunks, i + 1, publishFailure);
      assert k == FirstFailure(|chunks|, i + 1, publishFailure);
      assert PublishFrom(s, chunks, i, publishFailure) == PublishFrom(s', chunks, i + 1, publishFailure);
      assert s'.published == s.published + [Publication(chunks[i], dt, ft)];
      PublicationsCons(chunks, i, k, dt, ft);
    }
  }

  lemma PublicationsCons(chunks: seq<ChunkWithEmebeddings>, i: nat, k: nat, dt: Option<string>, ft: Option<string>)
    requires i < k <= |chunks|
    ensures [Publication(chunks[i], dt, ft)] + Publications(chunks[i + 1..k], dt, ft)
         == Publications(chunks[i..k], dt, ft)
  {
  }

  /** A request whose chunks are all published: the call completes, and the
      new publications are exactly the chunks, once each, in the order the
      chunk service returned them, so their number is the total. */
  lemma RoutePublishesEveryChunk(
    s: RequestState,
    responseTopic: Option<string>,
    embeddingTopic: string,
    threshold: int,
    chunks: seq<ChunkWithEmebeddings>,
    publishFailure: nat -> Option<Exception>)
    requires forall j :: 0 <= j < |chunks| ==> publishFailure(j).None?
    ensures var r := Route(s, responseTopic, embeddingTopic, threshold, Ok(chunks), publishFailure);
            && r.outcome == Pass
            && |r.state.published| == |s.published| + |chunks|
            && r.state.published[..|s.published|] == s.published
            && forall j :: 0 <= j < |chunks| ==> r.state.published[|s.published| + j].chunk == chunks[j]
  {
    var s2 := WithForwarding(WithDefaultTopic(s, responseTopic), |chunks|, threshold, embeddingTopic);
    PublishFromSpec(s2, chunks, 0, publishFailure);
    assert chunks[0..|chunks|] == chunks;
  }

  /** A publish that raises ends the call with that exception; the chunks
      before it stay published and no later chunk is published. */
  lemma RouteStopsAtFirstFailure(
    s: RequestState,
    responseTopic: Option<string>,
    embeddingTopic: string,
    threshold: int,
    chunks: seq<ChunkWithEmebeddings>,
    publishFailure: nat -> Option<Exception>,
    k: nat)
    requires k < |chunks| && publishFailure(k).Some?
    requires forall j :: 0 <= j < k ==> publishFailure(j).None?
    ensures var r := Route(s, responseTopic, embeddingTopic, threshold, Ok(chunks), publishFailure);
            && r.outcome == Fail(publishFailure(k).value)
            && |r.state.published| == |s.published| + k
            && forall j :: 0 <= j < k ==> r.state.published[|s.published| + j].chunk == chunks[j]
  {
    var s2 := WithForwarding(WithDefaultTopic(s, responseTopic), |chunks|, threshold, embeddingTopic);
    PublishFromSpec(s2, chunks, 0, publishFailure);
    assert FirstFailure(|chunks|, 0, publishFailure) == k;
  }

  /** An exception of the chunk service is raised unchanged, before anything
      is published and without a forwarding decision. */
  lemma RouteReraisesChunkingFailure(
    s: RequestState,
    responseTopic: Option<string>,
    embeddingTopic: string,
    threshold: int,
    e: Exception,
    publishFailure: nat -> Option<Exception>)
    ensures var r := Route(s, responseTopic, embeddingTopic, threshold, Err(e), publishFailure);
            && r.outcome == Fail(e)
            && r.state.published == s.published
            && r.state.forwardTopic == s.forwardTopic
  {
  }

  /** Topic defaulting: the configured response topic becomes the default
      exactly when it is a non-empty name; otherwise the message's default is
      left as it was. This holds however the call ends. */
  lemma RouteDefaultsResponseTopic(
    s: RequestState,
    responseTopic: Option<string>,
    embeddingTopic: string,
    threshold: int,
    created: Result<seq<ChunkWithEmebeddings>>,
    publishFailure: nat -> Option<Exception>)
    ensures Route(s, responseTopic, embeddingTopic, threshold, created, publishFailure).state.defaultResponseTopic
         == if IsSetTopic(responseTopic) then responseTopic else s.defaultResponseTopic
  {
    if created.Ok? {
      var s2 := WithForwarding(WithDefaultTopic(s, responseTopic), |created.value|, threshold, embeddingTopic);
      PublishFromSpec(s2, created.value, 0, publishFailure);
    }
  }

  /** The threshold decision: the responses are forwarded to the
      embedding-request topic if and only if there are more chunks than the
      threshold; a count equal to the threshold is not forwarded. */
  lemma RouteForwardsIffOverThreshold(
    s: RequestState,
    responseTopic: Option<string>,
    embeddingTopic: string,
    threshold: int,
    chunks: seq<ChunkWithEmebeddings>,
    publishFailure: nat -> Option<Exception>)
    ensures Route(s, responseTopic, embeddingTopic, threshold, Ok(chunks), publishFailure).state.forwardTopic
         == if |chunks| > threshold then Some(embeddingTopic) else s.forwardTopic
    ensures s.forwardTopic.None? ==>
              (Route(s, responseTopic, embeddingTopic, threshold, Ok(chunks), publishFailure).state.forwardTopic.Some?
               <==> |chunks| > threshold)
  {
    var s2 := WithForwarding(WithDefaultTopic(s, responseTopic), |chunks|, threshold, embeddingTopic);
    PublishFromSpec(s2, chunks, 0, publishFailure);
  }

  /** Defaulting and forwarding both happen before the first publish, so
      every chunk of one request is published under one same addressing:
      the final one. */
  lemma RouteSendsAllChunksAlike(
    s: RequestState,
    responseTopic: Option<string>,
    embeddingTopic: string,
    threshold: int,
    created: Result<seq<ChunkWithEmebeddings>>,
    publishFailure: nat -> Option<Exception>)
    ensures var r := Route(s, responseTopic, embeddingTopic, threshold, created, publishFailure);
            && |s.published| <= |r.state.published|
            && r.state.published[..|s.published|] == s.published
            && forall j :: |s.published| <= j < |r.state.published| ==>
                 r.state.published[j].defaultResponseTopic == r.state.defaultResponseTopic
                 && r.state.published[j].forwardTopic == r.state.forwardTopic
  {
    if created.Ok? {
      var s2 := WithForwarding(WithDefaultTopic(s, responseTopic), |created.value|, threshold, embeddingTopic);
      PublishFromSpec(s2, created.value, 0, publishFailure);
    }
  }

  /** The router. Its topics and threshold are taken from the configuration
      when it is built and never change. */
  class ChunkRequestMessageRouter {
    const chunksResponseTopic: Option<string>
    const chunkEmbeddingRequestsTopic: string
    const chunksEmbeddingAtOnce: int
    const createChunks: CreateChunks

    constructor (config: AppConfig, createChunks: CreateChunks)
      ensures chunksResponseTopic == config.chunkingResponsesTopic
      ensures chunkEmbeddingRequestsTopic == config.chunkEmbeddingRequestsTopic
      ensures chunksEmbeddingAtOnce == config.chunksEmbeddingAtOnce
      ensures this.createChunks == createChunks
    {
      chunksResponseTopic := config.chunkingResponsesTopic;
      chunkEmbeddingRequestsTopic := config.chunkEmbeddingRequestsTopic;
      chunksEmbeddingAtOnce := config.chunksEmbeddingAtOnce;
      this.createChunks := createChunks;
    }

    /** `process_request`: processes one delivered message; `publishFailure(k)`
        is what the transport raises, if anything, on the `k`-th publish. */
    method ProcessRequest(request: PubsubRequest, publishFailure: nat -> Option<Exception>) returns (outcome: Outcome)
      modifies request
      ensures var r := Route(old(request.State()), chunksResponseTopic, chunkEmbeddingRequestsTopic,
                             chunksEmbeddingAtOnce, createChunks(request.payload), publishFailure);
              request.State() == r.state && outcome == r.outcome
    {
      ghost var s0 := request.State();
      if IsSetTopic(chunksResponseTopic) {
        request.SetDefaultResponseTopic(chunksResponseTopic.value);
      }
      assert request.State() == WithDefaultTopic(s0, chunksResponseTopic);
      var created := createChunks(request.payload);
      if created.Err? {
        // the exception is logged and raised again
        outcome := Fail(created.error);
        return;
      }
      var chunks := created.value;
      var totalChunks := |chunks|;
      if totalChunks > chunksEmbeddingAtOnce {
        request.ForwardResponseToTopic(chunkEmbeddingRequestsTopic);
      }
      ghost var target := PublishFrom(request.State(), chunks, 0, publishFailure);
      var i := 0;
      while i < |chunks|
        invariant 0 <= i <= |chunks|
        invariant PublishFrom(request.State(), chunks, i, publishFailure) == target
      {
        var o := request.ProcessResponse(chunks[i], publishFailure(i));
        if o.Fail? {
          outcome := o;
          return;
        }
        i := i + 1;
      }
      outcome := Pass;
    }
  }
}
