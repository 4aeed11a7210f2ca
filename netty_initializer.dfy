/**
 * Construction of the per-connection Netty channel pipeline (`NettyChannelInitializer`): the
 * TLS context configured once per connector, the handlers `initChannel` appends, the handlers
 * appended for each negotiated protocol, and the negotiation handler's fallback and handshake
 * failure handling. A pipeline is its sequence of named handler tags; what the handlers do
 * is not part of this model.
 */
module NettyChannel {
  import opened Common

  /** `ApplicationProtocolNames.HTTP_2` and `ApplicationProtocolNames.HTTP_1_1`. */
  const HTTP_2: string := "h2"
  const HTTP_1_1: string := "http/1.1"

  datatype SslProvider = JDK | OPENSSL

  /** What a probe call did: returned a value, or threw. */
  datatype ProbeResult = Returned(supported: bool) | Threw

  /**
   * The ALPN provider probe. `jdkAlpnClassLoads` is whether loading the JDK's ALPN extension
   * class succeeded; `openSslAlpn` is what `OpenSsl.isAlpnSupported()` did. JDK is preferred,
   * OpenSSL is taken only if it reports ALPN support, and an exception of either probe only
   * moves on to the next choice.
   */
  function FindAlpnProvider(jdkAlpnClassLoads: bool, openSslAlpn: ProbeResult): (r: Option<SslProvider>)
    ensures r == Some(JDK) <==> jdkAlpnClassLoads
    ensures r == Some(OPENSSL) <==> !jdkAlpnClassLoads && openSslAlpn == Returned(true)
    ensures r.None? <==> !jdkAlpnClassLoads && openSslAlpn != Returned(true)
  {
    if jdkAlpnClassLoads then Some(JDK)
    else if openSslAlpn.Returned? && openSslAlpn.supported then Some(OPENSSL)
    else None
  }

  /** A connector configuration; the key store of a TLS connector is not part of this model. */
  datatype HostConnectorConfig =
    | PlainConnector(host: string, port: int)
    | SslConnector(host: string, port: int, keyAlias: string)

  datatype SelectorFailureBehavior = NoAdvertise
  datatype SelectedListenerFailureBehavior = Accept

  /** An ALPN `ApplicationProtocolConfig`: the protocols offered, most preferred first. */
  datatype ApplicationProtocolConfig = AlpnConfig(
    selectorFailure: SelectorFailureBehavior,
    listenerFailure: SelectedListenerFailureBehavior,
    protocols: seq<string>)

  /**
   * The server TLS context: the provider set on the builder (`None`: the builder's default),
   * whether the HTTP/2 cipher list was set, and the ALPN configuration if any.
   */
  datatype SslContext = SslContext(
    provider: Option<SslProvider>,
    http2Ciphers: bool,
    protocolConfig: Option<ApplicationProtocolConfig>)

  /** The `SslContextBuilder` configuration made in `init` for a TLS connector. */
  function ServerSslContext(alpnProvider: Option<SslProvider>): (ctx: SslContext)
    ensures ctx.provider == alpnProvider
    ensures ctx.http2Ciphers <==> alpnProvider.Some?
    ensures ctx.protocolConfig.Some? <==> alpnProvider.Some?
    ensures ctx.protocolConfig.Some? ==>
      && ctx.protocolConfig.value.selectorFailure == NoAdvertise
      && ctx.protocolConfig.value.listenerFailure == Accept
      && ctx.protocolConfig.value.protocols == [HTTP_2, HTTP_1_1]
  {
    if alpnProvider.Some? then
      SslContext(alpnProvider, true, Some(AlpnConfig(NoAdvertise, Accept, [HTTP_2, HTTP_1_1])))
    else
      SslContext(None, false, None)
  }

  /** A `NettyRequestQueue`, created with its limit. */
  class RequestQueue {
    const limit: int

    constructor (limit: int)
      ensures this.limit == limit
    {
      this.limit := limit;
    }
  }

  datatype Handler =
    | SslHandler(context: SslContext)
    | NegotiationHandler(initializer: NegotiatedPipelineInitializer)
    | HttpServerCodec
    | WriteTimeoutHandler(seconds: nat)
    | Http1Handler(queue: RequestQueue)   // NettyHostHttp1Handler
    | HostHttp2Handler
    | Multiplexer(queue: RequestQueue)    // over a NettyHostHttp2Handler
    | LoggingHandler

  /** A pipeline entry: the name given to `addLast`, if any, and the handler. */
  datatype HandlerEntry = HandlerEntry(name: Option<string>, handler: Handler)

  const LogEntry: HandlerEntry := HandlerEntry(Some("log"), LoggingHandler)

  /** `added` is the HTTP/1.1 configuration with a request queue of `limit`. */
  predicate IsHttp1Config(added: seq<HandlerEntry>, limit: int) {
    && |added| == 3
    && added[0] == HandlerEntry(Some("codec"), HttpServerCodec)
    && added[1] == HandlerEntry(Some("timeout"), WriteTimeoutHandler(10))
    && added[2].name == Some("http1") && added[2].handler.Http1Handler?
    && added[2].handler.queue.limit == limit
  }

  /** What can be seen of a channel pipeline at one moment. */
  datatype PipelineState = PipelineState(
    entries: seq<HandlerEntry>,
    activated: seq<string>,   // contexts that fired `channelActive`, in order
    closed: bool)

  /**
   * `after` is `before` configured for `protocol` with the fresh request queue `queue` of
   * `limit`: HTTP/2 appends the HTTP/2 handler and the multiplexer; HTTP/1.1 appends codec,
   * timeout and HTTP/1.1 handler and then activates the codec; any other protocol adds
   * nothing, logs an error and closes the pipeline.
   */
  ghost predicate ConfiguredFor(protocol: string, limit: int, queue: RequestQueue,
                                before: PipelineState, after: PipelineState, logged: Option<string>)
  {
    && queue.limit == limit
    && (protocol == HTTP_2 ==>
          && after.entries == before.entries +
               [HandlerEntry(None, HostHttp2Handler), HandlerEntry(None, Multiplexer(queue))]
          && after.activated == before.activated && after.closed == before.closed
          && logged == None)
    && (protocol == HTTP_1_1 ==>
          && after.entries == before.entries +
               [HandlerEntry(Some("codec"), HttpServerCodec),
                HandlerEntry(Some("timeout"), WriteTimeoutHandler(10)),
                HandlerEntry(Some("http1"), Http1Handler(queue))]
          && after.activated == before.activated + ["codec"] && after.closed == before.closed
          && logged == None)
    && (protocol != HTTP_2 && protocol != HTTP_1_1 ==>
          && after.entries == before.entries && after.activated == before.activated
          && after.closed && logged == Some("Unsupported protocol " + protocol))
  }

  /**
   * Configuring only appends, a supported protocol leaves the pipeline open, an unsupported
   * one is exactly the case that logs, and HTTP/1.1 appends the HTTP/1.1 configuration.
   */
  lemma {:induction false} ConfigurationAppends(protocol: string, limit: int, queue: RequestQueue,
                                                before: PipelineState, after: PipelineState, logged: Option<string>)
    requires ConfiguredFor(protocol, limit, queue, before, after, logged)
    ensures |before.entries| <= |after.entries| && after.entries[..|before.entries|] == before.entries
    ensures after.closed <==> before.closed || (protocol != HTTP_2 && protocol != HTTP_1_1)
    ensures logged.Some? <==> protocol != HTTP_2 && protocol != HTTP_1_1
    ensures protocol == HTTP_1_1 ==> IsHttp1Config(after.entries[|before.entries|..], limit)
  {
    var n := |before.entries|;
    if protocol == HTTP_2 || protocol == HTTP_1_1 {
      assert after.entries[..n] == before.entries;
    }
  }

  class ChannelPipeline {
    var entries: seq<HandlerEntry>
    var activated: seq<string>
    var closed: bool

    constructor ()
      ensures entries == [] && activated == [] && !closed
    {
      entries, activated, closed := [], [], false;
    }

    function Snapshot(): PipelineState
      reads this
    {
      PipelineState(entries, activated, closed)
    }

    predicate HasContext(name: string)
      reads this
    {
      exists i :: 0 <= i < |entries| && entries[i].name == Some(name)
    }

    method AddLast(name: Option<string>, handler: Handler)
      modifies this
      ensures entries == old(entries) + [HandlerEntry(name, handler)]
      ensures activated == old(activated) && closed == old(closed)
    {
      entries := entries + [HandlerEntry(name, handler)];
    }

    /** `context(name).fireChannelActive()`; the context must exist. */
    method FireChannelActive(name: string)
      requires HasContext(name)
      modifies this
      ensures activated == old(activated) + [name]
      ensures entries == old(entries) && closed == old(closed)
    {
      activated := activated + [name];
    }

    method Close()
      modifies this
      ensures closed
      ensures entries == old(entries) && activated == old(activated)
    {
      closed := true;
    }
  }

  class NettyChannelInitializer {
    const connector: HostConnectorConfig
    const requestQueueLimit: int
    /** The lazily probed, process-wide `alpnProvider`. */
    const alpnProvider: Option<SslProvider>
    var sslContext: Option<SslContext>

    ghost predicate Valid()
      reads this
    {
      sslContext == if connector.SslConnector? then Some(ServerSslContext(alpnProvider)) else None
    }

    /** The `init` block: a TLS connector gets its server context, ALPN only with a provider. */
    constructor (connector: HostConnectorConfig, requestQueueLimit: int,
                 jdkAlpnClassLoads: bool, openSslAlpn: ProbeResult)
      ensures Valid()
      ensures this.connector == connector && this.requestQueueLimit == requestQueueLimit
      ensures alpnProvider == FindAlpnProvider(jdkAlpnClassLoads, openSslAlpn)
      ensures sslContext.Some? <==> connector.SslConnector?
    {
      this.connector := connector;
      this.requestQueueLimit := requestQueueLimit;
      var provider := FindAlpnProvider(jdkAlpnClassLoads, openSslAlpn);
      this.alpnProvider := provider;
      if connector.SslConnector? {
        sslContext := Some(ServerSslContext(provider));
      } else {
        sslContext := None;
      }
    }

    /** `configurePipeline`: every call creates its own request queue. */
    method ConfigurePipeline(pipeline: ChannelPipeline, protocol: string)
      returns (queue: RequestQueue, logged: Option<string>)
      modifies pipeline
      ensures fresh(queue)
      ensures ConfiguredFor(protocol, requestQueueLimit, queue, old(pipeline.Snapshot()), pipeline.Snapshot(), logged)
    {
      queue := new RequestQueue(requestQueueLimit);
      if protocol == HTTP_2 {
        pipeline.AddLast(None, HostHttp2Handler);
        pipeline.AddLast(None, Multiplexer(queue));
        logged := None;
      } else if protocol == HTTP_1_1 {
        pipeline.AddLast(Some("codec"), HttpServerCodec);
        pipeline.AddLast(Some("timeout"), WriteTimeoutHandler(10));
        pipeline.AddLast(Some("http1"), Http1Handler(queue));
        assert pipeline.entries[|pipeline.entries| - 3].name == Some("codec");
        pipeline.FireChannelActive("codec");
        logged := None;
      } else {
        logged := Some("Unsupported protocol " + protocol);
        pipeline.Close();
      }
    }

    /**
     * `initChannel`: a TLS connector first gets `"ssl"`, then the negotiation handler if an
     * ALPN provider exists or else the HTTP/1.1 configuration; a plain connector gets the
     * HTTP/1.1 configuration; `"log"` comes last.
     */
    method InitChannel(ch: ChannelPipeline)
      requires Valid()
      modifies ch
      ensures |ch.entries| > |old(ch.entries)| && ch.entries[..|old(ch.entries)|] == old(ch.entries)
      ensures var added := ch.entries[|old(ch.entries)|..];
        connector.PlainConnector? ==>
          && |added| == 4 && IsHttp1Config(added[..3], requestQueueLimit) && added[3] == LogEntry
          && ch.activated == old(ch.activated) + ["codec"]
      ensures var added := ch.entries[|old(ch.entries)|..];
        connector.SslConnector? && alpnProvider.Some? ==>
          && |added| == 3 && added[0] == HandlerEntry(Some("ssl"), SslHandler(sslContext.value))
          && added[1].name == None && added[1].handler.NegotiationHandler?
          && fresh(added[1].handler.initializer) && added[1].handler.initializer.outer == this
          && added[1].handler.initializer.fallbackProtocol == HTTP_1_1
          && added[2] == LogEntry
          && ch.activated == old(ch.activated)
      ensures var added := ch.entries[|old(ch.entries)|..];
        connector.SslConnector? && alpnProvider.None? ==>
          && |added| == 5 && added[0] == HandlerEntry(Some("ssl"), SslHandler(sslContext.value))
          && IsHttp1Config(added[1..4], requestQueueLimit) && added[4] == LogEntry
          && ch.activated == old(ch.activated) + ["codec"]
      ensures forall e :: e in ch.entries[|old(ch.entries)|..] && e.handler.Http1Handler? ==> fresh(e.handler.queue)
      ensures ch.closed == old(ch.closed)
    {
      ghost var k := |ch.entries|;
      if connector.SslConnector? {
        ch.AddLast(Some("ssl"), SslHandler(sslContext.value));
        if alpnProvider.Some? {
          var negotiator := new NegotiatedPipelineInitializer(this);
          ch.AddLast(None, NegotiationHandler(negotiator));
        } else {
          var _, _ := ConfigurePipeline(ch, HTTP_1_1);
        }
      } else {
        var _, _ := ConfigurePipeline(ch, HTTP_1_1);
      }
      ch.AddLast(Some("log"), LoggingHandler);
      assert ch.entries[..k] == old(ch.entries);
    }
  }

  /** A handshake failure cause; `ClosedChannelException` stands for it and its subclasses. */
  datatype Throwable = ClosedChannelException | OtherThrowable(description: string)

  /** The negotiation handler `initChannel` installs when ALPN is available. */
  class NegotiatedPipelineInitializer {
    const outer: NettyChannelInitializer
    /** The protocol used when the handshake selected none. */
    const fallbackProtocol: string := HTTP_1_1

    constructor (outer: NettyChannelInitializer)
      ensures this.outer == outer
    {
      this.outer := outer;
    }

    /**
     * A successful handshake: the pipeline is configured for the protocol ALPN selected, or
     * for the fallback HTTP/1.1 when none was selected.
     */
    method HandshakeSucceeded(ctx: ChannelPipeline, selected: Option<string>)
      returns (queue: RequestQueue, logged: Option<string>)
      modifies ctx
      ensures fresh(queue)
      ensures ConfiguredFor(selected.GetOr(fallbackProtocol), outer.requestQueueLimit, queue,
                            old(ctx.Snapshot()), ctx.Snapshot(), logged)
    {
      var protocol := if selected.Some? then selected.value else fallbackProtocol;
      queue, logged := outer.ConfigurePipeline(ctx, protocol);
    }

    /**
     * `handshakeFailure`: a closed channel during the handshake only closes the context;
     * any other cause (or none) goes to the default handling.
     */
    method HandshakeFailure(ctx: ChannelPipeline, cause: Option<Throwable>) returns (delegated: bool)
      modifies ctx
      ensures delegated <==> cause != Some(ClosedChannelException)
      ensures !delegated ==> ctx.closed && ctx.entries == old(ctx.entries) && ctx.activated == old(ctx.activated)
      ensures delegated ==> unchanged(ctx)
    {
      if cause == Some(ClosedChannelException) {
        ctx.Close();
        delegated := false;
      } else {
        delegated := true;
      }
    }
  }
}
