# Ktor server core: host lifecycle, Netty pipeline, sessions and CIO headers

This Dafny project models four sequential parts of the Ktor server.

- **`CIOApplicationHost`** (`cio_host.dfy`, module `CIOHost`). The lifecycle of the CIO host:
  - the five-state atomic reference `CREATED → STARTING → RUNNING → STOPPING → TERMINATED`;
  - the published connector list;
  - the rollback of a failed `start`;
  - the hand-over of `doShutdown` between `start` and `stop`;
  - the request handler's `RUNNING` check and its fixed 503 response.

  Each compare-and-swap and each plain read or write of the state is one atomic step, and each step is a method of the class:
  - the steps of `start` are `Start`, `BindNext`, `BindOutcome`, `FinishStartConnector` and `FinishStart`, and `Rollback` is the `catch` block they end in;
  - a `stop` call up to its timed drain is the step `Stop`;
  - the coroutine launched by `doShutdown` is the step `CompleteShutdown`.

  Any interleaving of one `start` with any number of `stop` calls is a sequence of these calls. `Valid()` is the invariant every step preserves. It says:
  - the ghost `history` of observed states is a path of allowed moves;
  - `doShutdown` has run at most once;
  - it has run exactly once when `start` has published its servers and some `stop` has claimed `STOPPING`.

  `RunStart` composes the steps of a whole `start` with no `stop` running beside it. It uses the corrected start of the finding below.
- **`NettyChannelInitializer`** (`netty_initializer.dfy`, module `NettyChannel`):
  - the ALPN provider probe, whose two probe results are inputs;
  - the TLS context configured in `init`;
  - the handlers `initChannel` and `configurePipeline` append to a channel pipeline, which is a sequence of named handler tags;
  - the negotiation handler's HTTP/1.1 fallback and handshake-failure handling.

  `ChannelPipeline` (its constructor, `AddLast`, `FireChannelActive` and `Close`) stands for Netty's channel pipeline. It is a collaborator of the initializer, not code of this repository, so it has no row below.
- **`SessionStorageMemory`** (`session_storage.dfy`, module `Sessions`). A map from session id to bytes with `write`, `read` and `invalidate`. The provider's and consumer's channels are the byte sequences they carry.
- **`CIOHeaders`** (`cio_headers.dfy`, module `CIOHeadersView`). The `ValuesMap` view over an `HttpHeadersMap`:
  - the map is a sequence of (name, value) pairs;
  - its `get` is an uninterpreted lookup function;
  - `names()` is computed lazily by the loop of the source and cached;
  - `caseInsensitiveName` is the constant `true`.

`common.dfy` (module `Common`) holds the shared pieces:
- `Option`, which stands for Kotlin's nullable types;
- bytes and ASCII encoding;
- the decimal `toString` of a number, with a parser proved to read it back.

Where the code does something a reader might not expect, the model follows the code:
- `environment.start()` comes after the compare-and-swap to `STARTING` but before the `try` of the rollback. If it throws, nothing is undone and the host can never reach `TERMINATED`. `Start` and `Stop` keep a host in that `Stranded` condition, and `StrandedCannotTerminate` shows that every other step is disabled there (see "## Findings").
- A failed `start` does not stop the environment it started.
- The exception for an HTTPS connector carries the message "HTTP is not supported". Errors are modelled as tags, so the message does not appear.
- `stop` from `CREATED` goes straight to `TERMINATED` without running `doShutdown` and without shutting down the executor.
- `read` fails with `NoSuchElementException` not only for an absent id. It also fails when the consumer itself returns `null`, because the Elvis operator cannot tell the two cases apart. The consumer is modelled as returning an `Option`.

## Model

| member | source | states |
|---|---|---|
| `Common.ParseDecimalString` | ktor-server/ktor-server-cio/src/io/ktor/server/cio/CIOApplicationHost.kt:174 | reading back the decimal `toString` of a number gives that number |
| `CIOHost.PathRanksIncrease` | ktor-server/ktor-server-cio/src/io/ktor/server/cio/CIOApplicationHost.kt:185-191 | along any path of allowed moves, later states come strictly later in the enum order |
| `CIOHost.RankAtLeastIndex` | ktor-server/ktor-server-cio/src/io/ktor/server/cio/CIOApplicationHost.kt:185-191 | the k-th state of a path is at least the k-th state of the enum |
| `CIOHost.PathShape` | ktor-server/ktor-server-cio/src/io/ktor/server/cio/CIOApplicationHost.kt:26 | no state is ever observed twice; a path has at most five states; `TERMINATED` is absorbing, so it can only be last |
| `CIOHost.ExtendPath` | ktor-server/ktor-server-cio/src/io/ktor/server/cio/CIOApplicationHost.kt:34 | an allowed move extends a valid path to a valid path |
| `CIOHost.ServiceUnavailableIsAscii` | ktor-server/ktor-server-cio/src/io/ktor/server/cio/CIOApplicationHost.kt:171 | the reason phrase "Service Unavailable" is ASCII, so its UTF-8 bytes are its characters |
| `CIOHost.ContentLengthMatchesBody` | ktor-server/ktor-server-cio/src/io/ktor/server/cio/CIOApplicationHost.kt:168-183 | in the 503 response, the `Content-Length` header reads back as the body's byte length, which is 19 |
| `CIOHost.CIOApplicationHost.constructor` | ktor-server/ktor-server-cio/src/io/ktor/server/cio/CIOApplicationHost.kt:26-29 | a new host is `CREATED`, with no published connectors and no shutdown; the invariant holds |
| `CIOHost.CIOApplicationHost.ShutdownHandOver` | ktor-server/ktor-server-cio/src/io/ktor/server/cio/CIOApplicationHost.kt:59-62 | under the invariant, `doShutdown` ran at most once; once `start` returned, it ran exactly when a stop claimed the host; `RUNNING` means no stop has claimed it; a failed start never ran it |
| `CIOHost.CIOApplicationHost.Start` | ktor-server/ktor-server-cio/src/io/ktor/server/cio/CIOApplicationHost.kt:34-35 | only `CREATED` moves to `STARTING`; from any other state, "already started" and nothing changes. Then the environment starts. If that throws, the error is rethrown with the host left `STARTING`, nothing published and nothing undone; a stranded host stays stranded |
| `CIOHost.CIOApplicationHost.StrandedCannotTerminate` | ktor-server/ktor-server-cio/src/io/ktor/server/cio/CIOApplicationHost.kt:33-88 | after a failed environment start the host is `STARTING` or `STOPPING`, nothing is published and no shutdown is under way or done; no connector step, `FinishStart`, rollback, `doShutdown` or shutdown coroutine is enabled |
| `CIOHost.CIOApplicationHost.StartRollingBack` | ktor-server/ktor-server-cio/src/io/ktor/server/cio/CIOApplicationHost.kt:34-55 | the corrected start: if the environment start throws, the rollback runs and the host is `TERMINATED` with an empty connector list, the server job cancelled and the executor shut down |
| `CIOHost.CIOApplicationHost.BindNext` | ktor-server/ktor-server-cio/src/io/ktor/server/cio/CIOApplicationHost.kt:40-45 | for the next connector spec: HTTPS fails and rolls back; a state other than `STARTING` yields `CancelledServer`; `STARTING` goes on to create the server |
| `CIOHost.CIOApplicationHost.BindOutcome` | ktor-server/ktor-server-cio/src/io/ktor/server/cio/CIOApplicationHost.kt:142-159 | the server is being created while a stop may come in: a failed bind rolls back from whatever state it finds and rethrows; a successful one gives a fresh server for the spec's port |
| `CIOHost.CIOApplicationHost.FinishStartConnector` | ktor-server/ktor-server-cio/src/io/ktor/server/cio/CIOApplicationHost.kt:161-165 | the created server is added; its root job is cancelled if the state left `STARTING` meanwhile |
| `CIOHost.CIOApplicationHost.Rollback` | ktor-server/ktor-server-cio/src/io/ktor/server/cio/CIOApplicationHost.kt:46-54 | every server bound so far has its socket cancelled; `connectors` is published empty; the state is `TERMINATED` from either `STARTING` or `STOPPING`; the server job is cancelled and the executor shut down |
| `CIOHost.CIOApplicationHost.FinishStart` | ktor-server/ktor-server-cio/src/io/ktor/server/cio/CIOApplicationHost.kt:57-62 | the bound servers are published; `STARTING` moves to `RUNNING` without a shutdown; if a stop claimed `STOPPING` first, `start` runs `doShutdown` itself |
| `CIOHost.CIOApplicationHost.RunStart` | ktor-server/ktor-server-cio/src/io/ktor/server/cio/CIOApplicationHost.kt:33-62 | with no stop beside it and the corrected start, `start` succeeds exactly when the environment starts and every connector is HTTP and binds. It then runs with one server per spec in declaration order. Otherwise a failing environment start, or else the first failing connector, decides the error, and what was bound before it is rolled back. The source's own outcome for a failing environment start is the contract of `Start` |
| `CIOHost.CIOApplicationHost.DoShutdown` | ktor-server/ktor-server-cio/src/io/ktor/server/cio/CIOApplicationHost.kt:118-124 | the root job of every connector is cancelled and the shutdown count goes from 0 to 1 |
| `CIOHost.CIOApplicationHost.CompleteShutdown` | ktor-server/ktor-server-cio/src/io/ktor/server/cio/CIOApplicationHost.kt:125-139 | the environment is stopped; the state becomes `TERMINATED`; the server job is cancelled and the executor shut down |
| `CIOHost.CIOApplicationHost.Stop` | ktor-server/ktor-server-cio/src/io/ktor/server/cio/CIOApplicationHost.kt:73-88 | `TERMINATED`: no-op. `CREATED`: straight to `TERMINATED`, no shutdown. `STARTING`, `RUNNING` or `STOPPING`: claims `STOPPING` and remembers the prior state, and only a claim from `RUNNING` runs `doShutdown`; a stranded host stays stranded and `STOPPING` |
| `CIOHost.CIOApplicationHost.HandleRequest` | ktor-server/ktor-server-cio/src/io/ktor/server/cio/CIOApplicationHost.kt:145-159 | the pipeline runs exactly when the state is `RUNNING`; otherwise the reply is the 503 response only; a pipeline error closes the output with that error |
| `CIOHost.CIOApplicationHost.RespondServiceUnavailable` | ktor-server/ktor-server-cio/src/io/ktor/server/cio/CIOApplicationHost.kt:168-183 | the response is, in order: the status line with the request's version, 503 and "Service Unavailable"; `Connection: close`; `Content-Length` of the body's length; an empty line; the body bytes |
| `CIOHost.EnvironmentFailureStrandsHost` | ktor-server/ktor-server-cio/src/io/ktor/server/cio/CIOApplicationHost.kt:33-88 | as written: after the environment start throws, a stop claims `STOPPING` from `STARTING` without running `doShutdown`, and the next stop claims `STOPPING` again; the host stays `STOPPING` with no shutdown pending |
| `CIOHost.EnvironmentFailureTerminates` | ktor-server/ktor-server-cio/src/io/ktor/server/cio/CIOApplicationHost.kt:33-78 | with the environment start inside the rollback, the same calls leave the host `TERMINATED`, and the stop finds it terminated |
| `CIOHost.StopDuringFailedBind` | ktor-server/ktor-server-cio/src/io/ktor/server/cio/CIOApplicationHost.kt:40-55 | a stop between the state read of `startConnector` and a failed bind: the history is `CREATED`, `STARTING`, `STOPPING`, `TERMINATED`, the bind error is rethrown and no shutdown runs |
| `NettyChannel.FindAlpnProvider` | ktor-server/ktor-server-netty/src/io/ktor/server/netty/NettyChannelInitializer.kt:129-144 | JDK exactly when its ALPN class loads; otherwise OpenSSL exactly when it reports ALPN support; otherwise none; a throwing probe only moves on |
| `NettyChannel.ServerSslContext` | ktor-server/ktor-server-netty/src/io/ktor/server/netty/NettyChannelInitializer.kt:44-58 | provider, HTTP/2 ciphers and ALPN are configured exactly when a provider exists; ALPN is NO_ADVERTISE/ACCEPT and offers HTTP/2 before HTTP/1.1 |
| `NettyChannel.ConfigurationAppends` | ktor-server/ktor-server-netty/src/io/ktor/server/netty/NettyChannelInitializer.kt:80-111 | configuring only appends; the pipeline is closed and an error logged exactly for an unsupported protocol; HTTP/1.1 appends the HTTP/1.1 configuration |
| `NettyChannel.RequestQueue.constructor` | ktor-server/ktor-server-netty/src/io/ktor/server/netty/NettyChannelInitializer.kt:81 | a request queue has the limit it was created with |
| `NettyChannel.NettyChannelInitializer.constructor` | ktor-server/ktor-server-netty/src/io/ktor/server/netty/NettyChannelInitializer.kt:27-60 | a TLS connector gets a server context, configured for its ALPN provider; a plain connector gets none |
| `NettyChannel.NettyChannelInitializer.ConfigurePipeline` | ktor-server/ktor-server-netty/src/io/ktor/server/netty/NettyChannelInitializer.kt:80-111 | a fresh queue of `requestQueueLimit`. HTTP/2 appends the HTTP/2 handler, then the multiplexer. HTTP/1.1 appends `codec`, `timeout` (10 s) and `http1`, then activates `codec`. Any other protocol adds nothing, logs and closes |
| `NettyChannel.NettyChannelInitializer.InitChannel` | ktor-server/ktor-server-netty/src/io/ktor/server/netty/NettyChannelInitializer.kt:62-78 | plain connector: HTTP/1.1 configuration, then `log`. TLS connector: `ssl`, then the negotiation handler (ALPN provider present) or the HTTP/1.1 configuration (none), then `log`. Existing handlers are kept and the pipeline's closed flag is unchanged |
| `NettyChannel.NegotiatedPipelineInitializer.constructor` | ktor-server/ktor-server-netty/src/io/ktor/server/netty/NettyChannelInitializer.kt:113 | the negotiation handler belongs to its initializer and falls back to HTTP/1.1 |
| `NettyChannel.NegotiatedPipelineInitializer.HandshakeSucceeded` | ktor-server/ktor-server-netty/src/io/ktor/server/netty/NettyChannelInitializer.kt:113-114 | the pipeline is configured for the negotiated protocol, or for HTTP/1.1 when none was negotiated |
| `NettyChannel.NegotiatedPipelineInitializer.HandshakeFailure` | ktor-server/ktor-server-netty/src/io/ktor/server/netty/NettyChannelInitializer.kt:116-123 | a `ClosedChannelException` only closes the channel, with nothing delegated; any other cause, or none, is passed to the default handler, whose effect is not modelled, and the override itself leaves the channel untouched |
| `Sessions.SessionStorageMemory.constructor` | ktor-server/ktor-server-core/src/io/ktor/sessions/SessionStorageMemory.kt:7 | a new store holds no session |
| `Sessions.SessionStorageMemory.Write` | ktor-server/ktor-server-core/src/io/ktor/sessions/SessionStorageMemory.kt:9-13 | the written bytes replace whatever the id held; every other id keeps its entry |
| `Sessions.SessionStorageMemory.Read` | ktor-server/ktor-server-core/src/io/ktor/sessions/SessionStorageMemory.kt:15-17 | the consumer's result on the stored bytes, exactly when the id is present and the consumer returns a value; otherwise `NoSuchElementException("Session <id> not found")` |
| `Sessions.SessionStorageMemory.Invalidate` | ktor-server/ktor-server-core/src/io/ktor/sessions/SessionStorageMemory.kt:19-21 | the id is gone; every other id keeps its entry; an absent id changes nothing |
| `Sessions.ReadAfterWrite` | ktor-server/ktor-server-core/src/io/ktor/sessions/SessionStorageMemory.kt:9-21 | a read after a write gives the written bytes; a second write replaces the first; a read after invalidation fails |
| `CIOHeadersView.FirstIndex` | ktor-server/ktor-server-cio/src/io/ktor/server/cio/CIOHeaders.kt:7-13 | the position of a name's first occurrence: that name is there and not before it |
| `CIOHeadersView.FirstIndexBefore` | ktor-server/ktor-server-cio/src/io/ktor/server/cio/CIOHeaders.kt:7-13 | a name seen in a prefix first occurs inside that prefix |
| `CIOHeadersView.FirstIndexAt` | ktor-server/ktor-server-cio/src/io/ktor/server/cio/CIOHeaders.kt:7-13 | a name not seen before position k first occurs at k |
| `CIOHeadersView.EmptyListing` | ktor-server/ktor-server-cio/src/io/ktor/server/cio/CIOHeaders.kt:7-13 | the deduplicated listing is empty exactly when the listed names are |
| `CIOHeadersView.CollectNames` | ktor-server/ktor-server-cio/src/io/ktor/server/cio/CIOHeaders.kt:8-12 | exactly the names `nameAt(i)`, each once, ordered by first occurrence |
| `CIOHeadersView.CIOHeaders.constructor` | ktor-server/ktor-server-cio/src/io/ktor/server/cio/CIOHeaders.kt:6-7 | a new adapter wraps the given map and has not yet computed its names |
| `CIOHeadersView.CIOHeaders.Names` | ktor-server/ktor-server-cio/src/io/ktor/server/cio/CIOHeaders.kt:7-17 | exactly the names `nameAt(i)`, each once, in first-occurrence order; computed once and the same on every later call; empty exactly when the headers are |
| `CIOHeadersView.CIOHeaders.GetAll` | ktor-server/ktor-server-cio/src/io/ktor/server/cio/CIOHeaders.kt:19-21 | null exactly when `get` is null; otherwise the one-element list `[get(name)]` |
| `CIOHeadersView.CIOHeaders.Entries` | ktor-server/ktor-server-cio/src/io/ktor/server/cio/CIOHeaders.kt:24-31 | one entry per index, so as many entries as headers; entry `i` has key `nameAt(i)` and value `[valueAt(i)]`; there are no other entries |
| `CIOHeadersView.CIOHeaders.EntriesUpToSize` | ktor-server/ktor-server-cio/src/io/ktor/server/cio/CIOHeaders.kt:25 | the entries of the first n indices are n distinct entries |
| `CIOHeadersView.CIOHeaders.IsEmpty` | ktor-server/ktor-server-cio/src/io/ktor/server/cio/CIOHeaders.kt:23 | holds exactly when `size == 0`, which is exactly when there are no entries |

## Left out

**CIO host**
- The timed drain of `stop` (`CIOApplicationHost.kt:90-115`) is left out: the grace and force waits, closing sockets on completion and the forced `environment.stop()`. These are wall-clock waits on coroutine jobs.
- The `wait` join in `start` (`CIOApplicationHost.kt:64-68`) is left out, for the same reason.
- The thread pool and dispatcher (`callExecutor`, `DispatcherWithShutdown` with `prepareShutdown` and `completeShutdown`) are modelled only as the flags the model sets: the server job cancelled and the executor shut down.
- `httpServer` socket binding is not modelled. Whether a bind succeeds is the `bindOk` input of `BindOutcome`.
- `CIOApplicationCall` and `pipeline.execute` are not modelled beyond the call's outcome, which is the `pipeline` input of `HandleRequest`.
- `CIOHost.CIOApplicationHost.HandleRequest`: `t.printStackTrace()` on a pipeline error (`CIOApplicationHost.kt:156`) is output to the console and is not modelled.
- Whether `environment.start()` throws is the `environmentStartOk` input of `Start`; the environment itself is not modelled.
- `CIOHost.CIOApplicationHost.Stop`: the compare-and-swap retry loop is one atomic step. A compare-and-swap that loses a race changes nothing and is retried, and the path of states never repeats a state, so a retry cannot miss a change another step made.
- Servers are values, not shared objects. After `start` publishes its list (`CIOApplicationHost.kt:57`), the local list and the `connectors` field are one object, so one value stands for both. `start`'s `doShutdown(connectors)` and a stop's drain reading the field therefore see the same servers.
- The `RequestResponseBuilder` byte format and `writePacket` are not modelled. The 503 response is the sequence of builder calls.

**Netty initializer**
- Key store, certificate and private-key extraction (`NettyChannelInitializer.kt:38-43`) is not modelled. These are Java security API calls.
- `SslContextBuilder` is modelled only as the configuration it records.
- The HTTP/2 codec objects, the handlers' own behaviour and `LoggingHandler` appear only as handler tags.
- The lazily computed, process-wide `alpnProvider` is a constant of each initializer, computed from the two probe results.
- The pipeline's duplicate-name checks in `addLast` are Netty code that is not visible, and so is the negotiation handler removing itself after a handshake.
- `NettyChannel.NegotiatedPipelineInitializer.HandshakeFailure`: the default `handshakeFailure` of Netty's negotiation handler is Netty code and not part of this model. The model records only that the failure was passed to it, not what that handler then does to the channel (such as logging the failure and closing the context).

**Session store**
- `ConcurrentHashMap` thread safety is not modelled.
- The byte channels (`ByteBufferWriteChannel`, `toReadChannel`) are replaced by the bytes they carry.
- Suspension of the provider and consumer is not modelled.

**CIO headers**
- `HttpHeadersMap` internals are not modelled: its case-insensitive lookup and its `CharSequence` storage. Its `get` is an uninterpreted function, and names and values are strings.
- `Entry` object identity is its index. Kotlin's `Entry` has no `equals`, so `toSet` keeps one entry per index.

**Client**
- The client files `HttpPlainText.kt`, `HttpClientCall.kt` and `HttpProtocolVersion.kt` are not part of this model. Their substance is charset coding, reflection and URL parsing, which are foreign calls, or a data class without behaviour.

## Findings

| source | as written | input that shows it | evidently intended | confidence | as-written member | corrected member |
|---|---|---|---|---|---|---|
| ktor-server/ktor-server-cio/src/io/ktor/server/cio/CIOApplicationHost.kt:34-55 | `environment.start()` runs after the compare-and-swap to `STARTING` but outside the `try` whose `catch` rolls back to `TERMINATED` | `environment.start()` throws, then `stop()` is called: it claims `STOPPING` from `STARTING` and skips `doShutdown`; no later step sets `TERMINATED`, and `start` now fails with "already started" | a failing environment start is rolled back like a failing connector, leaving the host `TERMINATED` | medium, not executed | `CIOHost.EnvironmentFailureStrandsHost` | `CIOHost.CIOApplicationHost.StartRollingBack` |
