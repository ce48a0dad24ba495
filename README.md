# Chunker: a Dafny model of the chunking pipeline

The chunker service splits a text into passages sized for an embedding
model. It then publishes the passages over Pub/Sub in a two-phase pipeline:
1. The first router chunks a request and publishes every chunk. When there are too many chunks to embed at once, it forwards the responses to an embedding-request topic.
2. The second router fills in one chunk's embedding and hands the record back.

This project models that core in Dafny and proves the properties its code promises.
Besides the two routers, it covers:
- the token-bounded splitter and its two chunk services;
- the record types;
- the application settings;
- the subscription registry;
- the log-correlation filter;
- the logging set-up.

One Dafny module per source file:

| module | file | form |
|---|---|---|
| `RecursiveSplitter` | `recursive_splitter.dfy` | functions: the splitter wraps the library's recursive character splitter, which is a parameter (`Libraries.CreateDocuments`) |
| `TextChunkService` | `text_chunk_service.dfy` | functions: the service of `features/chunk` |
| `ModelChunkService` | `model_chunk_service.dfy` | functions: the service of `features/chunks`, with a `Result` for the `ValueError` path |
| `ChunkRequestRouter` | `chunk_request_router.dfy` | class `PubsubRequest` for the delivered message whose addressing is changed in place; class `ChunkRequestMessageRouter` whose `ProcessRequest` loop is proved against the pure `Route` |
| `ChunkEmbeddingRequestRouter` | `chunk_embedding_router.dfy` | classes: the payload is filled in place and returned |
| `LogContext` | `log_context.dfy` | class `ContextFilter` writing the record's `contextInfo` field |
| `LogConfig` | `log_config.dfy` | pure key-to-logger-name mapping; class `Logging` with the `setLevel` loop and the handler set-up |
| `AppState` | `app_state.dfy` | class `AppSubscriptions`: a lazily created, insertion-ordered table and the loops over it |
| `AppConfiguration` | `app_config.dfy` | functions: defaults and `model_names` |
| `ChunkModel` | `chunk_model.dfy` | datatypes and constructing functions with pydantic's defaults |
| `Libraries`, `Wrappers` | `libraries.dfy`, `wrappers.dfy` | the library calls the core relies on; `Option`, `Result`, `Outcome` |

Conventions:
- An exception is `Wrappers.Exception(kind, message)`. A call that can raise returns a `Result`, or an `Outcome` when it returns nothing else.
- The embedding model is a class with three constants: a tokenizer (`tokenIds`), `maxSeqLength`, and the padding id (`padId`) that pads the rows of a batch.
- An embedding is an opaque `seq<real>`.
- Pydantic defaults are Dafny default parameter values.
- A Python dictionary whose order matters is a sequence of keys plus a map (`AppState.Registry`), or a sequence of pairs (`AppConfiguration.LanguageModels`).

### Inconsistencies in the code, and what the model follows

The model follows the code in each case.
- The first router sets the default response topic whenever the configured topic is a non-empty name, whether or not the message already carries one. `set_default_response_topic` is called regardless, and any "only if none" behaviour belongs to the transport.
- On a large job, the first router calls `forward_response_to_topic` on the message itself. No separate marker message is sent.
- The first router publishes the chunks and does not embed them. The code has no "embed now or later" decision with `force_generate_embeddings`, no language detection and no blob download.
- The first router calls `create_chunks(payload)` with one argument, while `features/chunks` defines `create_chunks(model_name, text)`. The model therefore takes the chunk service as an opaque function from the request to chunks or an exception (`ChunkRequestRouter.CreateChunks`).
- The second router imports `ChunkWithEmbeddings` from `features/chunks/chunk_model.py`, which declares only `ChunkWithEmebeddings`, and that class has no `embedding_model_name` field; the router reads `payload.embedding_model_name`. The payload class `ChunkEmbeddingRequestRouter.ChunkWithEmbeddings` pairs the declared record with that name.
- The second router calls `generate_embeddings(model_name, text)` with two arguments (`app/message_routers/chunk_embedding_request_message_router.py:33`), while `app/features/embeddings/embedding_service.py:15` defines `generate_embeddings(self, text)` with one; the call as written raises `TypeError`. The model takes the call the router makes, with the model name, as intended (`ChunkEmbeddingRequestRouter.EmbeddingService.GenerateEmbeddings`).
- `features/chunks/chunk_service.py:36` calls `embedding_service.get_model(model_name)`, but `EmbeddingService` defines only `get_models()` (`app/features/embeddings/embedding_service.py:9-13`), which lists names. The same file imports `.recursive_splitter` from `features/chunks`; that module is not among the modelled files. The model reads the call as a lookup of the named model that raises `ValueError` for an unknown name, as its docstring says (`ModelChunkService.GetModel`), and uses the splitter of `features/chunk`.
- `ChunksRequest` in `features/chunks/chunk_model.py` has no `input_file` field, while the first router imports `ChunksRequest` and the model tests build `ChunksRequest(input_file=...)` and demand exactly one of text and input file. That rule is the separate validator `ChunkModel.ValidateSource`.
- `LogConfig` declares `log_config` twice, first "DEBUG" then "INFO". Python keeps one field, in the first position, with the second default ("INFO").

## Model

| member | source | states |
|---|---|---|
| ChunkModel.NewGcpFile | app/features/chunks/chunk_model.py:8-10 | the object name is required and kept; the bucket is optional and absent by default |
| ChunkModel.NewChunksRequest | app/features/chunks/chunk_model.py:13-17 | `text` is required; job id, task id and metadata default to none; every argument lands in its own field |
| ChunkModel.NewChunkWithEmebeddings | app/features/chunks/chunk_model.py:20-30 | index, total, language, text and embedding are required and kept; the optional fields default to none; a missing `created_at` is the class's shared default, an explicit one is kept |
| ChunkModel.DefineChunkWithEmebeddings | app/features/chunks/chunk_model.py:30 | the default of `created_at` is the instant at which the class is defined |
| ChunkModel.CreatedAtDefaultIsShared | app/features/chunks/chunk_model.py:30 | any two records built without `created_at` carry the same instant, whatever their other fields |
| ChunkModel.ValidateSource | tests/features/chunk/test_chunk_model.py:7-46 | a request is valid iff exactly one of text and input file is given, and then that source is the result; both given, or neither, is a `ValidationError` with the tests' exact messages |
| AppConfiguration.Defaults | app/app_config.py:8-21 | data dir `./data`; `pl` maps to silver-retriever and `en` to Qwen3-Embedding, in that order; no API key; threshold 4; request and response topics unset; embedding-request topic `chunker-embeddings-requests` |
| AppConfiguration.ValuesOf | app/app_config.py:23-25 | one value per table entry, at the entry's position: the table's values in its order |
| AppConfiguration.ModelNames | app/app_config.py:23-25 | `model_names` has one name per table entry, that entry's model, in table order; this is one name per language when no language repeats, as in the defaults (`DefaultModelNames`) |
| AppConfiguration.ModelForLanguage | app/app_config.py:14 | the lookup of a language finds nothing iff no entry has that language; otherwise it finds the model of the first entry with that language |
| AppConfiguration.ModelNamesCoverTable | app/app_config.py:14-25 | every model the table assigns to a language is listed in `model_names`, and every listed name belongs to some entry |
| AppConfiguration.DefaultModelNames | app/app_config.py:14-25 | with the defaults, `model_names` is [Polish model, English model]; `pl` and `en` look up to them; no language repeats |
| Libraries.Width | app/features/chunk/recursive_splitter.py:36 | the width of a batch is the length of its longest row of token ids, and 0 for no texts |
| Libraries.Tokenize | app/features/chunk/recursive_splitter.py:36 | a batch of texts gives one row per text, in batch order, all of the batch's width: each row is the text's own token ids followed by padding ids |
| Libraries.TokenizeOneText | app/features/chunk/recursive_splitter.py:36 | a batch of one text is not padded: its only row is the text's own token ids |
| Libraries.NewTextSplitter | app/features/chunk/recursive_splitter.py:22-27 | building the library splitter raises `ValueError` iff the overlap exceeds the chunk size, and otherwise keeps the configuration |
| RecursiveSplitter.NewRecursiveSplitter | app/features/chunk/recursive_splitter.py:13-16 | the constructor stores model, size and overlap; the overlap defaults to 128 |
| RecursiveSplitter.CountTokens | app/features/chunk/recursive_splitter.py:31-36 | the count is exactly the number of token ids the model gives the text, read from the one-text batch |
| RecursiveSplitter.SplitterConfigOf | app/features/chunk/recursive_splitter.py:22-27 | the library splitter gets exactly the stored size and overlap, measures length with `count_tokens` on every text, and uses literal, not regex, separators |
| RecursiveSplitter.Split | app/features/chunk/recursive_splitter.py:18-29 | a `ValueError` iff the overlap exceeds the chunk size; otherwise never empty: the library's documents for `[text]` when there are any, and otherwise exactly one empty chunk; this holds for every library behaviour |
| RecursiveSplitter.SplitEmptyText | app/features/chunk/recursive_splitter.py:28-29 | with an overlap within the chunk size, the empty text splits into one empty chunk when the library gives no document or the single empty one |
| RecursiveSplitter.DefaultOverlapNeedsLargeChunks | app/features/chunk/recursive_splitter.py:13-27 | a splitter left with the default overlap of 128 and a chunk size below 128 raises `ValueError` on every text |
| TextChunkService.NewChunkService | app/features/chunk/chunk_service.py:9-14 | the service holds the one splitter built from the given model, size and overlap, and nothing else |
| TextChunkService.CreateChunks | app/features/chunk/chunk_service.py:16-21 | the splitter's `ValueError` iff the overlap exceeds the chunk size; otherwise one text per splitter chunk, its `page_content`, in the same order and number, never empty |
| TextChunkService.CreateChunksWithoutDocuments | app/features/chunk/chunk_service.py:20-21 | with an overlap within the chunk size, a text the library yields nothing for gives `[""]` |
| TextChunkService.DefaultOverlap | app/features/chunk/chunk_service.py:10-14 | without an overlap argument, the splitter runs with overlap 128 and the given size |
| TextChunkService.SmallChunkSizeWithDefaultOverlapFails | app/features/chunk/chunk_service.py:10-20 | a service built with the default overlap and a chunk size below 128 raises `ValueError` on every text |
| ModelChunkService.NewChunkService | app/features/chunks/chunk_service.py:11-20 | the service keeps the embedding service's models and the overlap, which defaults to 128 |
| ModelChunkService.GetModel | app/features/chunks/chunk_service.py:33-36 | the lookup succeeds iff the name is available, with that model; otherwise it is a `ValueError` |
| ModelChunkService.SplitterFor | app/features/chunks/chunk_service.py:37 | the splitter's budget is the model's `max_seq_length` and its overlap is the service's |
| ModelChunkService.CreateChunks | app/features/chunks/chunk_service.py:22-39 | a `ValueError` iff the model is unknown or the overlap exceeds the model's `max_seq_length`: the lookup's error for an unknown model, the splitter's otherwise; when neither holds, one pair per splitter chunk, in order, with the chunk's text and that text's own token count, and never zero pairs |
| ModelChunkService.CreateChunksWithoutDocuments | app/features/chunks/chunk_service.py:36-39 | a known model whose budget holds the overlap, and a text the library yields nothing for, give exactly `[("", token count of "")]` |
| ModelChunkService.DefaultOverlap | app/features/chunks/chunk_service.py:11 | the default overlap is 128 |
| ModelChunkService.ShortModelWithDefaultOverlapFails | app/features/chunks/chunk_service.py:11-38 | with the default overlap, a known model whose `max_seq_length` is below 128 makes every call raise `ValueError` |
| ChunkRequestRouter.Published | app/message_routers/chunk_request_message_router.py:62 | one publish attempt leaves the addressing alone; a failed one publishes nothing, a successful one appends exactly the chunk under the addressing in force |
| ChunkRequestRouter.PublishFrom | app/message_routers/chunk_request_message_router.py:61-62 | the publish loop from a position leaves the addressing alone, keeps every earlier publication, and adds at most one publication per remaining chunk |
| ChunkRequestRouter.Route | app/message_routers/chunk_request_message_router.py:36-72 | a call keeps every earlier publication; an exception of the chunk service is raised unchanged with nothing published |
| ChunkRequestRouter.WithDefaultTopic | app/message_routers/chunk_request_message_router.py:47-48 | the default response topic changes iff the configured topic is a non-empty name; nothing else changes |
| ChunkRequestRouter.WithForwarding | app/message_routers/chunk_request_message_router.py:59-60 | responses are forwarded to the embedding topic iff the total strictly exceeds the threshold; nothing else changes |
| ChunkRequestRouter.FirstFailure | app/message_routers/chunk_request_message_router.py:61-62 | the first position whose publish raises, or the total when none does: every earlier publish succeeds |
| ChunkRequestRouter.Publications | app/message_routers/chunk_request_message_router.py:61-62 | one publication per chunk, in order, all under the given addressing |
| ChunkRequestRouter.PublishFromSpec | app/message_routers/chunk_request_message_router.py:61-62 | the loop leaves the addressing alone; it publishes the chunks up to the first failing publish once each, in order; it raises exactly that failure, or completes |
| ChunkRequestRouter.RoutePublishesEveryChunk | app/message_routers/chunk_request_message_router.py:55-62 | when no publish fails, the call completes and the new publications are exactly the chunks, once each, in the service's order |
| ChunkRequestRouter.RouteStopsAtFirstFailure | app/message_routers/chunk_request_message_router.py:61-72 | a publish that raises ends the call with that exception, after exactly the earlier chunks |
| ChunkRequestRouter.RouteReraisesChunkingFailure | app/message_routers/chunk_request_message_router.py:55 | an exception of the chunk service is raised again unchanged, with nothing published and no forwarding |
| ChunkRequestRouter.RouteDefaultsResponseTopic | app/message_routers/chunk_request_message_router.py:47-48 | however the call ends, the default response topic is the configured one iff that is a non-empty name, and is unchanged otherwise |
| ChunkRequestRouter.RouteForwardsIffOverThreshold | app/message_routers/chunk_request_message_router.py:56-60 | forwarding to the embedding topic happens iff there are more chunks than the threshold; a count equal to it is not forwarded |
| ChunkRequestRouter.RouteSendsAllChunksAlike | app/message_routers/chunk_request_message_router.py:47-62 | earlier publications are kept; every chunk of the call is published under the final addressing |
| ChunkRequestRouter.PubsubRequest.SetDefaultResponseTopic | app/message_routers/chunk_request_message_router.py:48 | sets the default response topic and nothing else |
| ChunkRequestRouter.PubsubRequest.ForwardResponseToTopic | app/message_routers/chunk_request_message_router.py:60 | sets the forward topic and nothing else |
| ChunkRequestRouter.PubsubRequest.ProcessResponse | app/message_routers/chunk_request_message_router.py:62 | publishes the chunk under the current addressing, or raises the transport's failure and publishes nothing |
| ChunkRequestRouter.ChunkRequestMessageRouter.constructor | app/message_routers/chunk_request_message_router.py:24-34 | response topic, embedding-request topic and threshold are copied from the configuration; they are constants afterwards |
| ChunkRequestRouter.ChunkRequestMessageRouter.ProcessRequest | app/message_routers/chunk_request_message_router.py:36-72 | the message's new addressing and publications, and the outcome, are those `Route` gives; the lemmas above state what `Route` guarantees |
| ChunkEmbeddingRequestRouter.EmbeddingService.GenerateEmbeddings | app/message_routers/chunk_embedding_request_message_router.py:33 | returns the model's embedding of the text, and records exactly this one call |
| ChunkEmbeddingRequestRouter.Filled | app/message_routers/chunk_embedding_request_message_router.py:33 | the embedding becomes that of the record's own text with the given model; every other field is kept |
| ChunkEmbeddingRequestRouter.FilledIsIdempotent | app/message_routers/chunk_embedding_request_message_router.py:33 | the stale embedding an arriving record carries has no effect; filling twice equals filling once |
| ChunkEmbeddingRequestRouter.FilledDeterminedByOtherFields | app/message_routers/chunk_embedding_request_message_router.py:33 | two records that differ only in their embeddings are equal once filled |
| ChunkEmbeddingRequestRouter.ChunkEmbeddingRequestMessageRouter.constructor | app/message_routers/chunk_embedding_request_message_router.py:17-23 | the router keeps the given embedding service |
| ChunkEmbeddingRequestRouter.ChunkEmbeddingRequestMessageRouter.ProcessPayload | app/message_routers/chunk_embedding_request_message_router.py:26-40 | returns the incoming object itself, filled in place from its own model name and text, after exactly one embedding request |
| LogContext.ContextInfo | app/log_context.py:31-36 | with a task id the prefix is `[job\|task] ` (an unset job rendered `None`); with only a job id it is `[job] `; with neither it is empty |
| LogContext.ContextInfoIsInjective | app/log_context.py:31-36 | with canonical UUIDs, equal prefixes come only from equal ids, so different correlations are never confused |
| LogContext.ContextFilter.Filter | app/log_context.py:17-38 | writes the prefix of the current ids on the record and keeps every record |
| LogContext.InitialContextHasNoPrefix | app/log_context.py:7-8 | both ids start unset, and an unset context gives no prefix |
| LogConfig.ModelDump | app/log_config.py:6-21 | four settings in declaration order: `level`, `log_config`, `routers__pub_sub`, `features__embeddings__embedding_service`, each with its level |
| LogConfig.ReplaceDunder | app/log_config.py:41 | the replacement never lengthens a name, and leaves a name shorter than two characters as it is |
| LogConfig.ReplaceDunderWithoutDunder | app/log_config.py:41 | a name containing no "__" is left unchanged |
| LogConfig.ReplaceDunderHead | app/log_config.py:41 | the result of a non-empty name is non-empty, and starts with "_" only where the name starts with a lone "_" |
| LogConfig.ReplaceDunderRemovesAll | app/log_config.py:41 | no "__" is left after the replacement |
| LogConfig.ReplaceDunderSplit | app/log_config.py:41 | "a__b" becomes "a.b" with `b` replaced in turn, when `a` has no "__" and no trailing "_" |
| LogConfig.LoggerName | app/log_config.py:41 | the setting `level` is the root logger and no other is; a logger name never contains "__"; a setting without "__" names itself |
| LogConfig.SettingLoggerNames | app/log_config.py:19-21 | the three module settings name the loggers `log_config`, `routers.pub_sub` and `features.embeddings.embedding_service` |
| LogConfig.LevelAssignments | app/log_config.py:39-42 | one `setLevel` call per setting, in order, on the setting's logger with the setting's level |
| LogConfig.ApplyLevels | app/log_config.py:42 | every logger named in a call has a level afterwards, and no logger loses one |
| LogConfig.ApplyLevelsUntouched | app/log_config.py:42 | a logger no call names keeps its level, or stays without one |
| LogConfig.ApplyLevelsLastWins | app/log_config.py:39-42 | a logger's level is that of the last call naming it |
| LogConfig.DefaultLevels | app/log_config.py:13-21 | with the defaults, the calls set the root logger and the three module loggers to INFO, in that order, and touch no other logger |
| LogConfig.ChosenFormatter | app/log_config.py:52-59 | uvicorn's formatter with `"%(levelprefix)s %(name)s: %(message)s"` iff uvicorn can be imported, otherwise the standard formatter with `"%(asctime)s - %(name)s - %(levelname)s - %(message)s"` |
| LogConfig.Logging.SetLevel | app/log_config.py:42 | sets one logger's level and records the call; the handlers are unchanged |
| LogConfig.Logging.SetupTextLogging | app/log_config.py:47-64 | the console handler is the root's first handler if there is one (the handler list is unchanged), else a new handler that becomes the only one; it gets the chosen formatter; no other handler changes |
| LogConfig.Logging.SetLevels | app/log_config.py:39-43 | the loop makes exactly the calls `LevelAssignments` lists, in order, and the levels become those of applying them |
| LogConfig.Logging.SetupLogging | app/log_config.py:27-45 | console handler first, then the levels of every setting, as the two methods above state; every other handler keeps its formatter |
| AppState.Put | app/app_state.py:34 | the key gets the value and keeps its place if present, or is appended; other keys keep their values; the order only grows; table invariants are preserved |
| AppState.Sweep | app/app_state.py:37-45 | one call per entry, in table order, each on that entry's subscription |
| AppState.SweepCallsEachOnce | app/app_state.py:37-45 | a pass calls every registered subscription exactly once, with the requested action, and calls nothing unregistered |
| AppState.PutTwoKeepsOrder | app/app_state.py:34 | two new names stay in registration order |
| AppState.PutAgainReplaces | app/app_state.py:34 | registering a name again is as if only the last registration had happened |
| AppState.AppSubscriptions.Current | app/app_state.py:16-20 | the table is empty until it is created; in a valid registry it is always a well-formed table (each name once, exactly the listed names registered) that agrees with the fields |
| AppState.AppSubscriptions.constructor | app/app_state.py:14-15 | a new registry has no table and no calls |
| AppState.AppSubscriptions.Subscriptions | app/app_state.py:16-20 | the first access creates the table empty; later accesses return the same table; nothing else changes |
| AppState.AppSubscriptions.AddSubscription | app/app_state.py:28-35 | no name, or an empty one, returns `None` and changes nothing; otherwise a new subscription with that name and processor is stored by `Put` (replacing any earlier one) and returned |
| AppState.AppSubscriptions.AddTopicSubscription | app/app_state.py:22-26 | no topic, or an empty one, returns `None` and changes nothing; otherwise the subscription is registered under topic + "-sub" |
| AppState.AppSubscriptions.SweepAll | app/app_state.py:37-45 | the loop makes exactly the calls of `Sweep` over the table, in order, and leaves the table unchanged |
| AppState.AppSubscriptions.RunSubscriptions | app/app_state.py:37-40 | starts every registered subscription once, in table order |
| AppState.AppSubscriptions.StopSubscriptions | app/app_state.py:42-45 | stops every registered subscription once, in table order |
| AppState.AppSubscriptions.Enter | app/app_state.py:47-49 | starts every subscription and returns the registry itself |
| AppState.AppSubscriptions.Exit | app/app_state.py:51-52 | stops every subscription |

## Left out

- The langchain `RecursiveCharacterTextSplitter` is not part of this repository. Its constructor's overlap check is modelled (`Libraries.NewTextSplitter`); its `create_documents` is the parameter `createDocuments`, so every property above holds whatever it returns. This leaves out:
  - its separator tiers, greedy merge and overlap;
  - the promise that a text within the budget is one chunk;
  - the word-count examples of the splitter tests, which describe the library.
- RecursiveSplitter.Split: the budget and overlap bounds on chunk lengths are the library's promise and are not proved.
- Libraries.NewTextSplitter: the library's message also quotes the two numbers; the model keeps only the fixed words. Checks that other library versions make (a non-positive chunk size, a negative overlap) are not modelled.
- Exceptions are modelled on four paths only:
  - the splitter's overlap check (`Libraries.NewTextSplitter`);
  - the unknown-model lookup (`ModelChunkService.GetModel`);
  - the chunk service as the first router calls it (`ChunkRequestRouter.CreateChunks`);
  - `process_response` (the parameter `publishFailure`).
- Every other call into code outside the modelled files is modelled as never raising: the tokenizer, `encode` behind `generate_embeddings`, `create_documents`, `set_default_response_topic`, `forward_response_to_topic`, and a subscription's `run()` and `stop()`. For instance, an exception in `generate_embeddings` would leave the payload's embedding unfilled and propagate out of `process_payload`; the model has no such path.
- Tokenisation, `encode`, `similarity` and model loading belong to sentence-transformers. The tokenizer is an opaque function, and an embedding is an opaque `seq<real>`.
- `features/embeddings/embedding_service.py` is not part of this model. It is reduced to the models it hands out by name (`ModelChunkService.AvailableModels`) and to an opaque `encode` with a call log (`ChunkEmbeddingRequestRouter.EmbeddingService`).
- ModelChunkService.GetModel: the `ValueError` carries the model name, but the exact text of the embedding service's message is not modelled.
- The Pub/Sub transport (`ampf`) is not modelled:
  - how a destination is resolved from the default and forward topics is left out; instead each publication records the addressing in force when it was made;
  - message decoding is left out;
  - `process_response` failures are the parameter `publishFailure`.
- `async`/`await` and concurrency are absent; calls are sequential. The `RuntimeError` of `asyncio.get_running_loop` when there is no running loop is not modelled.
- OpenTelemetry spans, span attributes and the `contextvars` ambient state are not modelled. The job and task ids are passed to the filter explicitly. In the first router, setting the context variables has no other effect.
- All `_log` debug, info, warning and exception calls are not modelled, since logging output has no effect on the state. When the first router re-raises an exception, only the re-raise is modelled.
- Reading settings from environment variables (pydantic-settings) is not modelled; settings are values. The package version comes from a module outside this model.
- LogConfig.Logging.SetLevel: level names are not validated as `logging.setLevel` would validate them. Loggers are identified by name, with `None` for the root, so the logger hierarchy and propagation are left out.
- LogConfig.Logging.SetupTextLogging: whether uvicorn can be imported is the parameter `uvicornAvailable`. The stream a new handler writes to is not modelled.
- `AppState.create` is not modelled: it only wires external factories (`GcpAsyncFactory`, `EmbeddingService`).
- The FastAPI routers and dependencies, `load_models.py` and `load_model.py`, language detection and blob download are not modelled. They are HTTP plumbing and I/O, or are not part of this repository.
- LogContext.ContextInfoIsInjective assumes UUIDs in canonical 36-character form, as `str(UUID)` produces. Python's truthiness of a UUID (always true) is built into `ContextInfo`.
- Python's `str.replace` is modelled on `seq<char>`, without Unicode normalisation.
