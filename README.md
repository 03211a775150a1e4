# Grapl pipeline core, modelled in Dafny

This project models six deterministic parts of Grapl, a graph-based security
analytics pipeline, and proves what their code promises.

- **Analyzer dispatcher.** It populates the analyzer-ids cache from the plugin
  registry. For each merged graph it routes the message by the cache answer.
  It fans out one execution job per analyzer to the plugin work queue, or
  sends the message to the retry topic. It commits after every message and
  stops on the first error.
- **Plugin execution sidecar.** Its lease/ack loop pulls work, sleeps when
  there is none, processes a job and acknowledges it unless processing failed
  retriably. It ends when a pull or an acknowledgement fails.
- **Node identifier stream handler.** It maps the nested result of
  `handle_event` to one of three outcomes: emit an envelope, drop the event,
  or report an error. It then drains the stream.
- **Node identity keys.**
  - The session pseudo-key: the tenant URN, then the key properties, then the
    node key.
  - The static key: the hex SHA-256 of the sorted key properties, the node
    type and the tenant bytes.
  - The choice of session timestamp.
  - Attribution, which replaces only the node's key.
- **Graph merger upsert builder.** It covers quote escaping, property
  rendering, and the Dgraph query and mutation list for one node. It also
  covers the one in-place update of `key_query_map`.
- **`subset_equals` of the integration tests.** This is structural
  containment over JSON-like values: dicts by key, lists ignoring order,
  primitives by equality.

## How external systems are modelled

Everything outside these components is supplied as data, and what is sent to
it is recorded as data.

- **Components with a loop** (the dispatcher and the sidecar) are classes.
  - Their fields are the rest of the input stream and effect logs: the pushes,
    retries, commits, processed jobs, acks and sleeps.
  - What the outside world answers for one message is part of that message's
    script entry. For the dispatcher this is the cache answer, the
    serialization result, the failing push, whether the retry send succeeds
    and whether the commit succeeds.
  - Each loop method is proved equal to a pure function of its start state
    (`RunSpec`/`After`, `Execute`), and the promised properties are lemmas
    about those functions.
- **SHA-256** is a function-typed parameter returning 32 bytes.
- **The DynamoDB session table** (`handle_unid_session`) is a function-typed
  parameter.
- **The cache**, the Kafka consumer and producer, and the gRPC clients are
  script entries.
- **Infinite loops** (`run`, `main_loop`) run over a finite script. `None`
  means "still running when the script ended", because neither loop returns
  `Ok`.

Files:
- `wrappers.dfy`: Option and Result.
- `text.dfy`: bytes, decimal, hex and UTF-8.
- `pipeline.dfy`: the UUID, its URN form and the envelope.
- `graph.dfy`: node properties, node descriptions and identification
  strategies.
- One file per component: `analyzer_dispatcher.dfy`, `plugin_executor.dfy`,
  `node_identifier.dfy`, `dynamic_sessiondb.dfy`, `upsert_util.dfy`,
  `subset_equals.dfy`.

Where the code and its comments disagree, the model follows the code.
- `primary_session_key` says it appends the node type, but it appends
  `node_key` (src/rust/node-identifier/src/dynamic_sessiondb.rs:82-83). The
  model appends the node key.

## Model

| member | source | states |
|---|---|---|
| AnalyzerDispatcher.Populate | src/rust/analyzer-dispatcher/src/main.rs:157-183 | a registry success gives `Some(plugin_ids)`, a NotFound status gives `Some([])`, and every other error, and only those, gives `None` |
| AnalyzerDispatcher.RouteOf | src/rust/analyzer-dispatcher/src/main.rs:216-284 | each cache answer has one route, stated as an iff: non-empty hit fans out to exactly those ids; empty hit skips; miss or retryable error retries; any other cache error bails |
| AnalyzerDispatcher.PopulatedRoute | src/rust/analyzer-dispatcher/src/main.rs:153-185 | a cache value written by the population closure routes as the registry said: listed analyzers fan out; none or NotFound skip; a registry failure (no cache value) retries |
| AnalyzerDispatcher.Pushes | src/rust/analyzer-dispatcher/src/main.rs:336-358 | one push request per analyzer id, in order, each with the same job and that id |
| AnalyzerDispatcher.Attempted | src/rust/analyzer-dispatcher/src/main.rs:335-362 | never more pushes than ids, and none when serialization fails |
| AnalyzerDispatcher.IssuedPushes | src/rust/analyzer-dispatcher/src/main.rs:335-358 | the requests sent are exactly the attempted ones |
| AnalyzerDispatcher.EnqueueResult | src/rust/analyzer-dispatcher/src/main.rs:326-363 | `enqueue_plugin_work` succeeds iff the payload serialized and no push failed, so every push was issued |
| AnalyzerDispatcher.Handle | src/rust/analyzer-dispatcher/src/main.rs:216-294 | a consumer error is handled as `Ok` with nothing sent; a message is retried at most once, and a retried message pushes nothing |
| AnalyzerDispatcher.Committed | src/rust/analyzer-dispatcher/src/main.rs:297-300 | a failed commit replaces the message's result with a commit error; otherwise the message's own result stands |
| AnalyzerDispatcher.FatalIff | src/rust/analyzer-dispatcher/src/main.rs:216-300 | a message ends the loop iff: the cache error is not retryable, serialization fails, a push fails, the retry send fails or the commit fails |
| AnalyzerDispatcher.FanOutPushes | src/rust/analyzer-dispatcher/src/main.rs:224-240 | a hit with analyzers makes exactly one push per id, each with the serialized payload and the envelope's tenant, trace and event-source ids; no retry; result `Ok` |
| AnalyzerDispatcher.FailingPushStops | src/rust/analyzer-dispatcher/src/main.rs:336-362 | under the sequential fan-out, a failing push k gives a work-queue error after exactly pushes 0..k |
| AnalyzerDispatcher.SerializationFailsBeforePush | src/rust/analyzer-dispatcher/src/main.rs:335-336 | a serialization failure is the message's error and no push is issued |
| AnalyzerDispatcher.NoAnalyzersSkips | src/rust/analyzer-dispatcher/src/main.rs:225-240 | an empty id list sends nothing and handles the message with `Ok` |
| AnalyzerDispatcher.RetrySendsEnvelope | src/rust/analyzer-dispatcher/src/main.rs:242-279 | a miss and a retryable error both send the unchanged envelope to the retry producer, and nothing to the work queue; the result is `Ok` iff the send succeeded, and a failed send gives the producer error |
| AnalyzerDispatcher.CacheFailureSendsNothing | src/rust/analyzer-dispatcher/src/main.rs:280-283 | a non-retryable cache error is the message's cache error, and nothing is pushed or retried |
| AnalyzerDispatcher.Consumed | src/rust/analyzer-dispatcher/src/main.rs:304-311 | `run` consumes the items up to and including the first failing one, or the whole stream when none fails: every item before the last consumed one succeeded, and the last consumed one failed unless the stream is exhausted |
| AnalyzerDispatcher.FirstErrorStops | src/rust/analyzer-dispatcher/src/main.rs:304-311 | after error-free items, the first failing item is the last one consumed, and its error is what `run` returns |
| AnalyzerDispatcher.AllOkRunsThrough | src/rust/analyzer-dispatcher/src/main.rs:202-313 | if no item fails, the whole stream is consumed and `run` has not returned |
| AnalyzerDispatcher.RunFailsIffSomeItemFails | src/rust/analyzer-dispatcher/src/main.rs:304-313 | `run` returns an error iff some item of the stream fails |
| AnalyzerDispatcher.ConsumerFailuresSendNothing | src/rust/analyzer-dispatcher/src/main.rs:286-293 | consumer errors cause no push and no retry; and if their commits succeed, the loop keeps running |
| AnalyzerDispatcher.Dispatcher.EnqueuePluginWork | src/rust/analyzer-dispatcher/src/main.rs:326-363 | the loop's result is `EnqueueResult` and the work-queue log grows by exactly `IssuedPushes`; nothing else changes |
| AnalyzerDispatcher.Dispatcher.RetryMessage | src/rust/analyzer-dispatcher/src/main.rs:317-323 | the envelope is appended unchanged to the retry log; the result is the producer's answer |
| AnalyzerDispatcher.Dispatcher.HandleNext | src/rust/analyzer-dispatcher/src/main.rs:210-300 | one stream element: the result is `Committed` of the next item, and the logs advance by one `Next` step with exactly one commit |
| AnalyzerDispatcher.Dispatcher.Window | src/rust/analyzer-dispatcher/src/main.rs:207-312 | one outer iteration handles at most `pool_size` items in order; it makes progress when `pool_size > 0` and stops at the first error, which it returns |
| AnalyzerDispatcher.Dispatcher.Run | src/rust/analyzer-dispatcher/src/main.rs:197-314 | `run` returns the first failing item's error, as `RunSpec`; its logs hold the pushes, retries and one commit for each consumed item, in stream order |
| PluginExecutor.Step | src/rust/plugin-execution-sidecar/src/plugin_executor.rs:46-125 | one iteration takes exactly one pull; it ends the loop iff the pull failed or a required ack failed, with "Unable to get new work" or the ack's error respectively |
| PluginExecutor.ShouldAck | src/rust/plugin-execution-sidecar/src/plugin_executor.rs:94-101 | a result is not acked iff it is an error classified retriable |
| PluginExecutor.RetriableNeverAcked | src/rust/plugin-execution-sidecar/src/plugin_executor.rs:94-103 | a retriable failure is processed once, sends no ack, and the loop continues |
| PluginExecutor.AckedOnce | src/rust/plugin-execution-sidecar/src/plugin_executor.rs:98-114 | a success or permanent failure is processed, then acked exactly once with that result and the request, tenant, trace and event-source ids; the loop continues iff the ack succeeds, and a failed ack ends it with the ack's error |
| PluginExecutor.NoJobSleeps | src/rust/plugin-execution-sidecar/src/plugin_executor.rs:116-124 | a pull without a job sleeps once and changes nothing else |
| PluginExecutor.PullFailureEnds | src/rust/plugin-execution-sidecar/src/plugin_executor.rs:46-127 | a failed pull ends the loop with "Unable to get new work" and has no other effect |
| PluginExecutor.ExitIffSomePullEnds | src/rust/plugin-execution-sidecar/src/plugin_executor.rs:44-128 | the loop exits iff some pull fails or some required ack fails; it never exits with `Ok` |
| PluginExecutor.FirstEndingPullExits | src/rust/plugin-execution-sidecar/src/plugin_executor.rs:46-127 | the loop ends at the first pull that fails or whose ack fails, with that pull's error; no later pull is taken, so nothing after it is processed |
| PluginExecutor.AcksFollowProcessing | src/rust/plugin-execution-sidecar/src/plugin_executor.rs:68-115 | the processed and ack logs only grow, and no more acks are added than jobs are processed |
| PluginExecutor.IdleScriptOnlySleeps | src/rust/plugin-execution-sidecar/src/plugin_executor.rs:116-125 | a script of empty pulls sleeps once per pull, processes and acks nothing, and the loop is still running |
| PluginExecutor.Executor.MainLoop | src/rust/plugin-execution-sidecar/src/plugin_executor.rs:44-128 | the loop's final logs and exit error are those of `Execute` from the start state |
| NodeIdentifier.Classify | src/rust/node-identifier/src/main.rs:83-139 | an upstream error is passed on unchanged |
| NodeIdentifier.Transpose | src/rust/node-identifier/src/main.rs:143 | only `Ok(None)` disappears; errors and values are kept |
| NodeIdentifier.IdentifiedIsEmitted | src/rust/node-identifier/src/main.rs:86-103 | an identified graph is emitted in an envelope with the input's tenant, trace and event-source ids |
| NodeIdentifier.DroppedIffEmptyGraph | src/rust/node-identifier/src/main.rs:125-143 | an event is dropped iff identification failed outright with `EmptyGraph` |
| NodeIdentifier.FailuresBecomeErrors | src/rust/node-identifier/src/main.rs:104-137 | every other failure, `AttributionFailure` included, partial or total, becomes a stream error carrying that identifier error |
| NodeIdentifier.UpstreamErrorFirst | src/rust/node-identifier/src/main.rs:83 | an upstream error is propagated whatever `handle_event` would answer |
| NodeIdentifier.OutputsCount | src/rust/node-identifier/src/main.rs:78-145 | each event yields one stream item unless it is dropped |
| NodeIdentifier.OutputsConcat | src/rust/node-identifier/src/main.rs:78-145 | events are handled independently and in order: outputs of concatenated streams concatenate |
| NodeIdentifier.Handler | src/rust/node-identifier/src/main.rs:147-163 | the drain logs and continues past errors and returns `Ok(())` at the end; the emitted envelopes and logged errors are exactly those of the stream, in order, and with the dropped events they account for every event |
| NodeIdentifier.SplitCount | src/rust/node-identifier/src/main.rs:148-159 | each stream item is either emitted or logged |
| DynamicSessionDb.KeyTextError | src/rust/node-identifier/src/dynamic_sessiondb.rs:70-80 | building from key properties fails iff one is missing, and the error names the first missing one |
| DynamicSessionDb.KeyTextPrefixError | src/rust/node-identifier/src/dynamic_sessiondb.rs:75-78 | once a prefix of the names fails, the whole build fails with that error |
| DynamicSessionDb.SessionKeyShape | src/rust/node-identifier/src/dynamic_sessiondb.rs:64-84 | a session key starts with the 45-character tenant URN and ends with the node key; it fails iff a key property is missing, naming the first |
| DynamicSessionDb.PrimarySessionKey | src/rust/node-identifier/src/dynamic_sessiondb.rs:58-85 | the push_str loop builds exactly the URN, then each listed property's text in list order, then `node_key`, or it reports the first missing property |
| DynamicSessionDb.LexLeTotal | src/rust/node-identifier/src/dynamic_sessiondb.rs:99-100 | the string order used by `sort` is total |
| DynamicSessionDb.LexLeAntisymmetric | src/rust/node-identifier/src/dynamic_sessiondb.rs:99-100 | the string order is antisymmetric |
| DynamicSessionDb.LexLeTransitive | src/rust/node-identifier/src/dynamic_sessiondb.rs:99-100 | the string order is transitive |
| DynamicSessionDb.Insert | src/rust/node-identifier/src/dynamic_sessiondb.rs:100 | inserting into a sorted list keeps it sorted and adds exactly that element |
| DynamicSessionDb.SortNames | src/rust/node-identifier/src/dynamic_sessiondb.rs:99-100 | the sorted copy is sorted and a permutation of the key property names |
| DynamicSessionDb.SortedUnique | src/rust/node-identifier/src/dynamic_sessiondb.rs:99-102 | two sorted permutations of the same names are equal |
| DynamicSessionDb.StaticKeyOrderIndependent | src/rust/node-identifier/src/dynamic_sessiondb.rs:98-102 | key property lists with the same names give the same static key, in whatever order they are listed |
| DynamicSessionDb.StaticKeyHex | src/rust/node-identifier/src/dynamic_sessiondb.rs:102-114 | a static key is 64 hex digits, twice the digest length, and decodes to the SHA-256 of the sorted property texts, then the node type, then the tenant bytes |
| DynamicSessionDb.StaticKeyMissing | src/rust/node-identifier/src/dynamic_sessiondb.rs:102-110 | the static key fails iff a key property is missing, naming the first missing one in sorted order |
| DynamicSessionDb.StaticNodeKey | src/rust/node-identifier/src/dynamic_sessiondb.rs:90-115 | the loop that feeds the hasher computes exactly `StaticKey` |
| DynamicSessionDb.ChooseUnid | src/rust/node-identifier/src/dynamic_sessiondb.rs:133-149 | a non-zero create time gives a creation unid with that time; otherwise a non-zero last-seen time gives a non-creation unid with that time; both zero is the terminating-session error |
| DynamicSessionDb.DynamicSessionErrors | src/rust/node-identifier/src/dynamic_sessiondb.rs:126-156 | a missing property is reported before a terminating session; the session table is asked only with the pseudo-key and the chosen time, and its answer becomes the node key or the error |
| DynamicSessionDb.AttributeDynamicSession | src/rust/node-identifier/src/dynamic_sessiondb.rs:118-159 | session attribution returns the input node with only `node_key` replaced, by the session table's answer |
| DynamicSessionDb.AttributeStaticMapping | src/rust/node-identifier/src/dynamic_sessiondb.rs:162-172 | static attribution returns the node with only its key set to the static key, or the key's error |
| DynamicSessionDb.AttributeDynamicNode | src/rust/node-identifier/src/dynamic_sessiondb.rs:175-199 | dispatches on `id_strategy[0]` only, and changes nothing but `node_key` |
| UpsertUtil.EscapedBody | src/rust/graph-merger/src/upsert_util.rs:30-38 | the escaped body is as long as the input plus one for each `"` and `\` |
| UpsertUtil.EscapeQuote | src/rust/graph-merger/src/upsert_util.rs:24-42 | the output starts and ends with `"`; between them it is the escaped body; its length is input + 2 + specials |
| UpsertUtil.EscapeCharKeepsQuotesEscaped | src/rust/graph-merger/src/upsert_util.rs:31-37 | appending one escaped character keeps every quote escaped and the trailing backslash run even |
| UpsertUtil.EscapedBodyQuotesEscaped | src/rust/graph-merger/src/upsert_util.rs:30-38 | every `"` in the body follows an odd run of backslashes, and the body does not end in a dangling backslash |
| UpsertUtil.EscapedHasNoBareQuote | src/rust/graph-merger/src/upsert_util.rs:27-41 | between the delimiting quotes no unescaped quote appears |
| UpsertUtil.UnescapeEscapedBody | src/rust/graph-merger/src/upsert_util.rs:30-38 | reading the escaped body back gives the input |
| UpsertUtil.EscapedInjective | src/rust/graph-merger/src/upsert_util.rs:24-42 | distinct strings escape to distinct values |
| UpsertUtil.EscapedBodyPlain | src/rust/graph-merger/src/upsert_util.rs:35-37 | a string without `"` or `\` is copied unchanged |
| UpsertUtil.EscapeProp | src/rust/graph-merger/src/upsert_util.rs:44-54 | integer variants render as their quoted decimal string; string properties are quote-escaped as they are |
| UpsertUtil.NodeCreationQuads | src/rust/graph-merger/src/upsert_util.rs:98-138 | the query variable is `node_exists_{query_param}`, and the creation mutation is conditioned on `len == 0` |
| UpsertUtil.PropertyUpsertQuads | src/rust/graph-merger/src/upsert_util.rs:140-186 | `gen_node_property_upsert_quads`; its meaning is stated by `PropertyMutationsShape` and `UpsertMutationsShape`: a write of the escaped value to `uid(var)` under `len == 1`, then to `_:var` under `len == 0` |
| UpsertUtil.PropertyMutations | src/rust/graph-merger/src/upsert_util.rs:87-92 | two mutations per visited property |
| UpsertUtil.PropertyMutationsShape | src/rust/graph-merger/src/upsert_util.rs:76-93 | property j contributes, at positions 2j and 2j+1, its write to the existing node, then its write to the blank node |
| UpsertUtil.EnumerationSize | src/rust/graph-merger/src/upsert_util.rs:76 | an iteration visiting each name once is as long as the set of names |
| UpsertUtil.UpsertMutationsShape | src/rust/graph-merger/src/upsert_util.rs:73-93 | 1 + 2k mutations in all, k being the non-skipped properties. The first is conditioned on `len == 0`; each property then sets `uid(var)` under `len == 1` and `_:var` under `len == 0`, with its escaped value |
| UpsertUtil.UpsertProperties | src/rust/graph-merger/src/upsert_util.rs:76-93 | the loop skips `node_key` and `dgraph.type` and visits every other property once, appending its query line and its mutation pair |
| UpsertUtil.BuildUpserts | src/rust/graph-merger/src/upsert_util.rs:57-96 | `key_query_map` gains exactly the raw node key mapped to `node_exists_{query_param}`, and no other key changes; the mutations are the creation mutation followed by the property pairs |
| SubsetEquals.PrimitiveEquals | src/python/grapl-tests-common/grapl_tests_common/subset_equals.py:48-57 | `_primitive_equals`; characterised by `PrimitivesPassIffEqual` and `KindMismatchFails`: primitives of one type pass iff equal, anything else fails |
| SubsetEquals.SubsetEq | src/python/grapl-tests-common/grapl_tests_common/subset_equals.py:67-76 | `_subset_equals`: identity first, then lists, then dicts, then primitives; characterised by `SubsetEqReflexive`, `ListCharacterization`, `DictCharacterization`, `PrimitivesPassIffEqual` and `KindMismatchFails` |
| SubsetEquals.DictSubsetEq | src/python/grapl-tests-common/grapl_tests_common/subset_equals.py:5-13 | `_dict_subset_equals`; characterised by `DictCharacterization` |
| SubsetEquals.ListSubsetEq | src/python/grapl-tests-common/grapl_tests_common/subset_equals.py:16-45 | `_list_subset_equals`, with the `found_match` search; characterised by `ListCharacterization` |
| SubsetEquals.SubsetEqReflexive | src/python/grapl-tests-common/grapl_tests_common/subset_equals.py:69-70 | identical objects always pass |
| SubsetEquals.CheckSubsetEquals | src/python/grapl-tests-common/grapl_tests_common/subset_equals.py:79-91 | `subset_equals` passes iff `_subset_equals` passes, and a failure reports the path `root_object` |
| SubsetEquals.SubsetEqTransitive | src/python/grapl-tests-common/grapl_tests_common/subset_equals.py:67-76 | containment is transitive |
| SubsetEquals.DictCharacterization | src/python/grapl-tests-common/grapl_tests_common/subset_equals.py:5-13 | a dict passes iff every key of `smaller` is in `larger` with a containing value |
| SubsetEquals.ListCharacterization | src/python/grapl-tests-common/grapl_tests_common/subset_equals.py:16-45 | a list passes iff every item of `smaller` is contained in some item of `larger` |
| SubsetEquals.EmptySmallerPasses | src/python/grapl-tests-common/grapl_tests_common/subset_equals.py:7-23 | an empty list or dict is contained in any list or dict respectively |
| SubsetEquals.PrimitivesPassIffEqual | src/python/grapl-tests-common/grapl_tests_common/subset_equals.py:48-53 | primitives of one type pass iff equal |
| SubsetEquals.KindMismatchFails | src/python/grapl-tests-common/grapl_tests_common/subset_equals.py:48-76 | values of different shapes never pass in this model (Python passes `True` against `1` and `False` against `0`; see "Left out") |
| SubsetEquals.UnsupportedPassOnlyIfIdentical | src/python/grapl-tests-common/grapl_tests_common/subset_equals.py:54-70 | `None` and other unsupported objects pass only when identical |
| SubsetEquals.ExtraKeyKeepsPass | src/python/grapl-tests-common/grapl_tests_common/subset_equals.py:7-13 | extra keys in `larger` are allowed |
| SubsetEquals.ExtraItemsKeepPass | src/python/grapl-tests-common/grapl_tests_common/subset_equals.py:23-45 | extra items in `larger` are allowed |
| SubsetEquals.DocumentedExample | src/python/grapl-tests-common/grapl_tests_common/subset_equals.py:18 | the documented example `[1, 2] ⊇ [2]` holds |
| SubsetEquals.DocumentedExampleReversed | src/python/grapl-tests-common/grapl_tests_common/subset_equals.py:16-45 | `[2] ⊇ [1, 2]` does not hold |
| SubsetEquals.SharedMatchExample | src/python/grapl-tests-common/grapl_tests_common/subset_equals.py:23-38 | several items of `smaller` may match the same item of `larger`: `[1] ⊇ [1, 1]` |
| Text.DecimalRoundTrip | src/rust/graph-merger/src/upsert_util.rs:46-51 | the decimal rendering of a number reads back as that number |
| Text.IntToDecimalInjective | src/rust/graph-merger/src/upsert_util.rs:46-51 | distinct integers render to distinct decimal strings |
| Text.HexRoundTrip | src/rust/node-identifier/src/dynamic_sessiondb.rs:114 | hex encoding yields two lower-case hex digits per byte and decodes back to the bytes |
| Text.Utf8Append | src/rust/node-identifier/src/dynamic_sessiondb.rs:102-113 | feeding the hasher piece by piece equals hashing the UTF-8 of the concatenation |
| Pipeline.Urn | src/rust/node-identifier/src/dynamic_sessiondb.rs:64 | the tenant URN is 45 characters: `urn:uuid:` and the hyphenated UUID |

## Left out

- **The cache's own behaviour.** The `AsyncCache` crate is not part of this
  model: single-flight population, TTL, LRU eviction and the refresh pool.
  Each `get` answer is a script entry.
- **External I/O.**
  - Kafka consumers and producers, the gRPC clients, DynamoDB and the
    session table's own logic (`handle_unid_session`) are script entries or
    parameters.
  - Tracing and logging are not modelled. Effect logs record the requests
    attempted, including one that fails.
- **Concurrency.** `try_for_each_concurrent` in `enqueue_plugin_work` is
  modelled as a sequential fan-out that stops at the first failing push.
  Nothing is claimed about the order of concurrent pushes, or about pushes in
  flight when one fails.
- **Oracle granularity.** The serialization result is one oracle answer per
  message.
- **Time.** The one-second sleep of the sidecar is only counted. The work
  queue's redelivery delay is time only.
- **Endless loops.** `run` with `pool_size == 0` spins forever on empty
  windows; the model returns `None` without consuming anything. Over a finite
  script, `None` from `run` and `main_loop` means "still running".
- PluginExecutor.AcksFollowProcessing: states the ack/processing relation as
  log growth and a count bound. It does not state that each ack matches a
  particular processed job; `AckedOnce` states that per step.
- **NodeProperty rendering.** The `Display` of `NodeProperty`, used by the
  session and static keys, is not part of this model. It is taken to render
  integers in decimal and strings as they are. The `to_string` that
  `escape_prop` calls is the `Display` of the property wrapper types, which is
  not part of this model either; `EscapeProp` rests on the same assumption.
- **SHA-256 and hex encoding.** SHA-256 is an uninterpreted parameter.
  Hex encoding is written out in lower case.
- **Sorting.** `Vec::sort` is a pure sorting function, specified as the
  unique sorted permutation, rather than the library's in-place algorithm. It
  uses code-point order, which is the same as Rust's byte order on UTF-8.
- **Panics are preconditions.**
  - `primary_key_requires_asset_id` panics, so the session-key and
    attribution members require it to be false.
  - `attribute_dynamic_node` indexes `id_strategy[0]`, so it requires a
    non-empty list.
- **Error text.** Error messages (`bail!` texts, `pformat`, the exception
  message) are reduced to their kind, plus the missing property's name. The
  error that `handle_unid_session` answers is kept as a string.
- **The Dgraph queries.**
  - The multi-line query text is rendered but no property of its layout is
    claimed.
  - The `HashMap` iteration order in `build_upserts` is unspecified; the
    model proves the result for the order that was used.
- **`subset_equals` value types.**
  - Floats are not modelled.
  - Python's mixing of `bool` with `int` is not modelled, and the model gives
    the opposite answer there: `True` against `1` and `False` against `0`
    fail in the model but pass in Python, because `bool` is a subclass of
    `int` and `True == 1`.
  - Object identity (`is`) is modelled as value equality, so identical
    values pass.
- **Other components.** The thin service wrappers, wiring and configuration
  code of the other components are not part of this model: the uid
  allocator service, the event-source server, graph-query, the client
  factory, the generator client and dispatcher, and the nomad client. Neither
  are the web UI, the integration tests and the deployment scripts.
