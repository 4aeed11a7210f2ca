/**
 * The lifecycle of the CIO application host (`CIOApplicationHost`): one atomically updated
 * state, the published list of connector servers, and the hand-over of shutdown between
 * `start` and `stop`.
 *
 * Each compare-and-swap and each plain read or write of the state is one atomic step, and each
 * step is a method of the class. The `start` call is cut into the steps between which another
 * thread can change the state (`Start`, `BindNext`, `BindOutcome`, `FinishStartConnector`,
 * `FinishStart`; `Rollback` is the `catch` block they end in); a `stop` call (`Stop`) and the
 * coroutine launched by `doShutdown` (`CompleteShutdown`) are steps of their own. Any
 * interleaving of one `start` with any number of `stop` calls is a sequence of these method
 * calls, and `Valid()` is the invariant every step keeps.
 */
module CIOHost {
  import opened Common

  datatype State = Created | Starting | Running | Stopping | Terminated

  /** The moves the state reference can make. */
  predicate Allowed(from: State, to: State) {
    match from
    case Created => to == Starting || to == Terminated
    case Starting => to == Running || to == Stopping || to == Terminated
    case Running => to == Stopping
    case Stopping => to == Terminated
    case Terminated => false
  }

  /** Position of a state in the declaration order of the enum. */
  function Rank(s: State): nat {
    match s
    case Created => 0
    case Starting => 1
    case Running => 2
    case Stopping => 3
    case Terminated => 4
  }

  /** A sequence of observed states that starts in `Created` and takes allowed moves only. */
  ghost predicate ValidPath(h: seq<State>) {
    && |h| > 0
    && h[0] == Created
    && forall i :: 0 <= i < |h| - 1 ==> Allowed(h[i], h[i + 1])
  }

  lemma ExtendPath(h: seq<State>, s: State)
    requires ValidPath(h) && Allowed(h[|h| - 1], s)
    ensures ValidPath(h + [s])
  {
    var h' := h + [s];
    forall i | 0 <= i < |h'| - 1
      ensures Allowed(h'[i], h'[i + 1])
    {
      if i < |h| - 1 {
        assert h'[i] == h[i] && h'[i + 1] == h[i + 1];
      }
    }
  }

  /** Along a valid path the states strictly follow the enum order. */
  lemma {:induction false} PathRanksIncrease(h: seq<State>, i: nat, j: nat)
    requires ValidPath(h) && i < j < |h|
    ensures Rank(h[i]) < Rank(h[j])
    decreases j - i
  {
    assert Allowed(h[j - 1], h[j]);
    if i < j - 1 {
      PathRanksIncrease(h, i, j - 1);
    }
  }

  /** The `k`-th observed state is at least the `k`-th state of the enum. */
  lemma {:induction false} RankAtLeastIndex(h: seq<State>, k: nat)
    requires ValidPath(h) && k < |h|
    ensures Rank(h[k]) >= k
  {
    if k > 0 {
      RankAtLeastIndex(h, k - 1);
      PathRanksIncrease(h, k - 1, k);
    }
  }

  /**
   * No state is ever observed twice, a path has at most five states, and `Terminated`
   * can only be the last one.
   */
  lemma PathShape(h: seq<State>)
    requires ValidPath(h)
    ensures forall i, j :: 0 <= i < j < |h| ==> h[i] != h[j]
    ensures |h| <= 5
    ensures forall i :: 0 <= i < |h| - 1 ==> h[i] != Terminated
  {
    forall i, j | 0 <= i < j < |h|
      ensures h[i] != h[j]
    {
      PathRanksIncrease(h, i, j);
    }
    RankAtLeastIndex(h, |h| - 1);
    forall i | 0 <= i < |h| - 1
      ensures h[i] != Terminated
    {
      assert Allowed(h[i], h[i + 1]);
    }
  }

  datatype ConnectorType = HTTP | HTTPS

  /** One configured listening endpoint (`environment.connectors`). */
  datatype ConnectorSpec = ConnectorSpec(host: string, port: int, kind: ConnectorType)

  /**
   * An `HttpServer` handle with the two things the host cancels on it: its root job and its
   * server socket; or the shared `HttpServer.CancelledServer`.
   */
  datatype Server =
    | HttpServer(port: int, jobCancelled: bool, socketCancelled: bool)
    | CancelledServer

  function CancelJob(s: Server): Server {
    if s.HttpServer? then s.(jobCancelled := true) else s
  }

  function CancelSocket(s: Server): Server {
    if s.HttpServer? then s.(socketCancelled := true) else s
  }

  predicate JobCancelled(s: Server) {
    s.CancelledServer? || s.jobCancelled
  }

  predicate SocketCancelled(s: Server) {
    s.CancelledServer? || s.socketCancelled
  }

  function CancelJobs(servers: seq<Server>): (r: seq<Server>)
    ensures |r| == |servers|
    ensures forall i :: 0 <= i < |servers| ==> r[i] == CancelJob(servers[i])
  {
    seq(|servers|, i requires 0 <= i < |servers| => CancelJob(servers[i]))
  }

  function CancelSockets(servers: seq<Server>): (r: seq<Server>)
    ensures |r| == |servers|
    ensures forall i :: 0 <= i < |servers| ==> r[i] == CancelSocket(servers[i])
  {
    seq(|servers|, i requires 0 <= i < |servers| => CancelSocket(servers[i]))
  }

  /** `s` is what `start` keeps for `spec`: a plain connector, served or already cancelled. */
  predicate Serves(spec: ConnectorSpec, s: Server) {
    spec.kind == HTTP && (s.CancelledServer? || (s.port == spec.port && !s.socketCancelled))
  }

  /** `s` is a freshly bound server for `spec`, nothing of it cancelled. */
  predicate Live(spec: ConnectorSpec, s: Server) {
    spec.kind == HTTP && s == HttpServer(spec.port, false, false)
  }

  /** `servers[i]` serves `specs[i]` for every `i`, in declaration order. */
  ghost predicate ServesInOrder(specs: seq<ConnectorSpec>, servers: seq<Server>, live: bool) {
    && |servers| <= |specs|
    && forall i :: 0 <= i < |servers| ==>
         Serves(specs[i], servers[i]) && (live ==> Live(specs[i], servers[i]))
  }

  /** The servers a `start` binds for `specs` when nothing interferes. */
  function FreshServers(specs: seq<ConnectorSpec>): (r: seq<Server>)
    ensures |r| == |specs|
    ensures forall i :: 0 <= i < |specs| ==> r[i] == HttpServer(specs[i].port, false, false)
  {
    seq(|specs|, i requires 0 <= i < |specs| => HttpServer(specs[i].port, false, false))
  }

  /** Connector `k` is the first one that cannot be started: HTTPS, or its bind failed. */
  ghost predicate FirstFailureAt(specs: seq<ConnectorSpec>, bindOk: seq<bool>, k: nat) {
    && k < |specs| && |bindOk| == |specs|
    && (specs[k].kind == HTTPS || !bindOk[k])
    && forall j :: 0 <= j < k ==> specs[j].kind == HTTP && bindOk[j]
  }

  datatype StartError =
    | AlreadyStarted      // IllegalStateException("Server is already started")
    | HttpsNotSupported   // UnsupportedOperationException for an HTTPS connector
    | BindFailed(port: int)
    | EnvironmentStartFailed  // whatever `environment.start()` threw

  /** Where the thread running `start` is. */
  datatype StartPhase =
    | Idle                                        // `start` has not claimed the host
    | EnvironmentFailed                           // `environment.start()` threw; nothing undone
    | Binding(bound: seq<Server>)                 // next: specs[|bound|]
    | Connecting(bound: seq<Server>)              // `httpServer` runs for specs[|bound|]
    | Creating(bound: seq<Server>, server: Server) // `startConnector` created `server`
    | Started                                     // `start` returned
    | Failed(error: StartError)                   // `start` rolled back and rethrew

  datatype StopOutcome =
    | AlreadyTerminated
    | TerminatedBeforeStart
    | Claimed(previous: State)

  /** The response packet, one token per builder call. */
  datatype Line =
    | ResponseLine(version: string, status: int, reason: string)
    | HeaderLine(name: string, value: string)
    | EmptyLine
    | Body(data: seq<byte>)

  /** What `pipeline.execute(call)` does with a call. */
  datatype PipelineOutcome = Completed | Threw(error: string)

  datatype Reply =
    | Unavailable(packet: seq<Line>)            // the pipeline was bypassed
    | Executed(closedWith: Option<string>)      // the pipeline ran; output closed on error

  const ServiceUnavailable: string := "Service Unavailable"

  lemma ServiceUnavailableIsAscii()
    ensures IsAscii(ServiceUnavailable)
  {
  }

  /** The synthetic 503 response for a request of HTTP version `version`. */
  predicate IsServiceUnavailable(packet: seq<Line>, version: string) {
    ServiceUnavailableIsAscii();
    && |packet| == 5
    && packet[0] == ResponseLine(version, 503, ServiceUnavailable)
    && packet[1] == HeaderLine("Connection", "close")
    && packet[2] == HeaderLine("Content-Length", DecimalString(|ServiceUnavailable|))
    && packet[3] == EmptyLine
    && packet[4] == Body(AsciiBytes(ServiceUnavailable))
  }

  /** The `Content-Length` of the 503 response is the byte length of its body, 19. */
  lemma ContentLengthMatchesBody(packet: seq<Line>, version: string)
    requires IsServiceUnavailable(packet, version)
    ensures packet[2].HeaderLine? && packet[4].Body?
    ensures ParseDecimal(packet[2].value) == Some(|packet[4].data|)
    ensures |packet[4].data| == 19
  {
    ParseDecimalString(|ServiceUnavailable|);
  }

  class CIOApplicationHost {
    const specs: seq<ConnectorSpec>
    var state: State
    /** The `@Volatile` list; `None` is `null`, before `start` publishes it. */
    var connectors: Option<seq<Server>>
    var startPhase: StartPhase
    var environmentStarted: bool
    var environmentStopped: bool
    /** How many times `doShutdown` has been called. */
    var shutdownCount: nat
    /** The coroutine launched by `doShutdown` has run its `finally` block. */
    var shutdownCompleted: bool
    var serverJobCancelled: bool
    var executorShutdown: bool
    /** The servers whose socket a failed `start` cancelled. */
    var rolledBack: seq<Server>
    /** Every state the reference has held, oldest first. */
    ghost var history: seq<State>
    /** How many `stop` calls have claimed `Stopping`. */
    ghost var stopsClaimed: nat

    ghost predicate PhaseValid()
      reads this
    {
      match startPhase
      case Idle =>
        && (state == Created || state == Terminated)
        && connectors.None? && shutdownCount == 0 && stopsClaimed == 0
        && !environmentStarted && !serverJobCancelled && !executorShutdown && rolledBack == []
      case EnvironmentFailed =>
        && (state == Starting || state == Stopping) && (state == Starting <==> stopsClaimed == 0)
        && connectors.None? && shutdownCount == 0
        && !environmentStarted && !serverJobCancelled && !executorShutdown && rolledBack == []
      case Binding(bound) =>
        && (state == Starting || state == Stopping) && (state == Starting <==> stopsClaimed == 0)
        && connectors.None? && shutdownCount == 0
        && environmentStarted && !serverJobCancelled && !executorShutdown && rolledBack == []
        && ServesInOrder(specs, bound, stopsClaimed == 0)
      case Connecting(bound) =>
        && (state == Starting || state == Stopping) && (state == Starting <==> stopsClaimed == 0)
        && connectors.None? && shutdownCount == 0
        && environmentStarted && !serverJobCancelled && !executorShutdown && rolledBack == []
        && ServesInOrder(specs, bound, stopsClaimed == 0)
        && |bound| < |specs| && specs[|bound|].kind == HTTP
      case Creating(bound, server) =>
        && (state == Starting || state == Stopping) && (state == Starting <==> stopsClaimed == 0)
        && connectors.None? && shutdownCount == 0
        && environmentStarted && !serverJobCancelled && !executorShutdown && rolledBack == []
        && ServesInOrder(specs, bound, stopsClaimed == 0)
        && |bound| < |specs| && Live(specs[|bound|], server)
      case Started =>
        && environmentStarted && rolledBack == []
        && connectors.Some? && |connectors.value| == |specs|
        && ServesInOrder(specs, connectors.value, state == Running)
        && (state == Running <==> stopsClaimed == 0)
        && (shutdownCount == 1 <==> stopsClaimed > 0)
        && (serverJobCancelled <==> shutdownCompleted)
        && (executorShutdown <==> shutdownCompleted)
      case Failed(_) =>
        && state == Terminated && connectors == Some([]) && shutdownCount == 0
        && serverJobCancelled && executorShutdown
        && (forall s :: s in rolledBack ==> SocketCancelled(s))
    }

    ghost predicate Valid()
      reads this
    {
      && ValidPath(history) && history[|history| - 1] == state
      && shutdownCount <= 1
      && (shutdownCompleted ==> shutdownCount == 1 && state == Terminated)
      && (shutdownCount == 1 && !shutdownCompleted ==> state == Stopping)
      && (shutdownCount == 1 ==> connectors.Some? && forall s :: s in connectors.value ==> JobCancelled(s))
      && (environmentStopped <==> shutdownCompleted)
      && PhaseValid()
    }

    /** The rolled-back state a failed `start` leaves behind. */
    ghost predicate RolledBack(bound: seq<Server>, error: StartError)
      reads this
    {
      && state == Terminated && connectors == Some([]) && startPhase == Failed(error)
      && rolledBack == CancelSockets(bound) && serverJobCancelled && executorShutdown
    }

    constructor (specs: seq<ConnectorSpec>)
      ensures Valid() && this.specs == specs
      ensures state == Created && history == [Created] && startPhase == Idle && connectors == None
      ensures shutdownCount == 0 && !shutdownCompleted && stopsClaimed == 0
    {
      this.specs := specs;
      state := Created;
      connectors := None;
      startPhase := Idle;
      environmentStarted, environmentStopped := false, false;
      shutdownCount, shutdownCompleted := 0, false;
      serverJobCancelled, executorShutdown := false, false;
      rolledBack := [];
      history := [Created];
      stopsClaimed := 0;
    }

    /** Guarantees of the invariant: `doShutdown` runs at most once, and exactly once when needed. */
    lemma ShutdownHandOver()
      requires Valid()
      ensures shutdownCount <= 1
      ensures startPhase == Started ==> (shutdownCount == 1 <==> stopsClaimed > 0)
      ensures startPhase == Started && stopsClaimed == 0 ==> state == Running
      ensures startPhase.Failed? ==> shutdownCount == 0 && state == Terminated && connectors == Some([])
      ensures state == Running ==> startPhase == Started && stopsClaimed == 0
      ensures shutdownCount == 1 ==> forall s :: s in connectors.value ==> JobCancelled(s)
    {
    }

    /** The environment start failed, and `start` left without rolling back. */
    ghost predicate Stranded()
      reads this
    {
      Valid() && startPhase == EnvironmentFailed
    }

    /**
     * A stranded host is `Starting` or `Stopping` with nothing published and no shutdown. Every
     * step that could set `Terminated` is disabled: the connector steps, `FinishStart` and
     * `Rollback` need a binding phase, `DoShutdown` a published list and `CompleteShutdown` a
     * shutdown under way. `Start` only refuses, and `Stop` keeps the host stranded.
     */
    lemma StrandedCannotTerminate()
      requires Stranded()
      ensures state == Starting || state == Stopping
      ensures state != Created && state != Terminated
      ensures connectors.None? && shutdownCount == 0 && !shutdownCompleted
      ensures !startPhase.Binding? && !startPhase.Connecting? && !startPhase.Creating?
    {
    }

    /**
     * First steps of `start`: the compare-and-swap `Created` to `Starting`, then
     * `environment.start()`, which `environmentStartOk` says did not throw. That call comes
     * before the `try`, so its failure is rethrown with nothing undone.
     */
    method Start(environmentStartOk: bool) returns (error: Option<StartError>)
      requires Valid()
      modifies this
      ensures Valid()
      ensures old(state) != Created ==> error == Some(AlreadyStarted) && unchanged(this)
      ensures old(state) == Created ==> state == Starting && history == old(history) + [Starting]
      ensures old(state) == Created && environmentStartOk ==>
        error == None && startPhase == Binding([]) && environmentStarted
      ensures old(state) == Created && !environmentStartOk ==>
        error == Some(EnvironmentStartFailed) && startPhase == EnvironmentFailed && !environmentStarted
      ensures old(Stranded()) ==> Stranded()
      ensures connectors == old(connectors) && shutdownCount == old(shutdownCount)
      ensures stopsClaimed == old(stopsClaimed) && rolledBack == old(rolledBack)
      ensures serverJobCancelled == old(serverJobCancelled) && executorShutdown == old(executorShutdown)
      ensures shutdownCompleted == old(shutdownCompleted) && environmentStopped == old(environmentStopped)
    {
      if state != Created {
        return Some(AlreadyStarted);
      }
      ExtendPath(history, Starting);
      state := Starting;
      history := history + [Starting];
      if !environmentStartOk {
        startPhase := EnvironmentFailed;
        return Some(EnvironmentStartFailed);
      }
      environmentStarted := true;
      startPhase := Binding([]);
      error := None;
    }

    /**
     * `start` with `environment.start()` inside the `try`: a failing environment start is
     * rolled back like a failing connector, and the host ends `Terminated`.
     */
    method StartRollingBack(environmentStartOk: bool) returns (error: Option<StartError>)
      requires Valid()
      modifies this
      ensures Valid()
      ensures old(state) != Created ==> error == Some(AlreadyStarted) && unchanged(this)
      ensures old(state) == Created && environmentStartOk ==>
        && error == None && state == Starting && startPhase == Binding([]) && environmentStarted
        && history == old(history) + [Starting]
      ensures old(state) == Created && !environmentStartOk ==>
        && error == Some(EnvironmentStartFailed) && RolledBack([], EnvironmentStartFailed)
        && history == old(history) + [Starting, Terminated]
      ensures shutdownCount == old(shutdownCount) && shutdownCompleted == old(shutdownCompleted)
      ensures stopsClaimed == old(stopsClaimed) && environmentStopped == old(environmentStopped)
    {
      if state != Created {
        return Some(AlreadyStarted);
      }
      ExtendPath(history, Starting);
      state := Starting;
      history := history + [Starting];
      if !environmentStartOk {
        // the `catch` block, with no server bound yet
        rolledBack := [];
        connectors := Some([]);
        ExtendPath(history, Terminated);
        state := Terminated;
        history := history + [Terminated];
        serverJobCancelled := true;
        executorShutdown := true;
        startPhase := Failed(EnvironmentStartFailed);
        return Some(EnvironmentStartFailed);
      }
      environmentStarted := true;
      startPhase := Binding([]);
      error := None;
    }

    /**
     * One iteration of the `forEach` over the connector specs, up to the state read of
     * `startConnector`: an HTTPS spec fails and rolls the start back, a state other than
     * `Starting` gives `CancelledServer`, and `Starting` goes on to create the server.
     */
    method BindNext() returns (error: Option<StartError>)
      requires Valid() && startPhase.Binding? && |startPhase.bound| < |specs|
      modifies this
      ensures Valid()
      ensures var bound := old(startPhase.bound); var spec := specs[|bound|];
        spec.kind == HTTPS ==> error == Some(HttpsNotSupported) && RolledBack(bound, error.value)
      ensures var bound := old(startPhase.bound); var spec := specs[|bound|];
        spec.kind == HTTP && old(state) != Starting ==>
          error == None && startPhase == Binding(bound + [CancelledServer])
      ensures var bound := old(startPhase.bound); var spec := specs[|bound|];
        spec.kind == HTTP && old(state) == Starting ==>
          error == None && startPhase == Connecting(bound)
      ensures error.None? ==>
        && state == old(state) && connectors == old(connectors) && rolledBack == old(rolledBack)
        && serverJobCancelled == old(serverJobCancelled) && executorShutdown == old(executorShutdown)
      ensures history == old(history) + (if state == old(state) then [] else [state])
      ensures shutdownCount == old(shutdownCount) && shutdownCompleted == old(shutdownCompleted)
      ensures stopsClaimed == old(stopsClaimed)
      ensures environmentStarted == old(environmentStarted) && environmentStopped == old(environmentStopped)
    {
      var bound := startPhase.bound;
      var spec := specs[|bound|];
      if spec.kind == HTTPS {
        error := Some(HttpsNotSupported);
        Rollback(bound, error.value);
        return;
      }
      // startConnector(port), line 143
      if state != Starting {
        startPhase := Binding(bound + [CancelledServer]);
        return None;
      }
      startPhase := Connecting(bound);
      error := None;
    }

    /**
     * What `httpServer` did for the connector being created; a stop may have claimed the host
     * meanwhile. A failed bind rolls the start back from whichever state it finds.
     */
    method BindOutcome(bindOk: bool) returns (error: Option<StartError>)
      requires Valid() && startPhase.Connecting? && |startPhase.bound| < |specs|
      modifies this
      ensures Valid()
      ensures var bound := old(startPhase.bound); var spec := specs[|bound|];
        !bindOk ==> error == Some(BindFailed(spec.port)) && RolledBack(bound, error.value)
      ensures var bound := old(startPhase.bound); var spec := specs[|bound|];
        bindOk ==> error == None && startPhase == Creating(bound, HttpServer(spec.port, false, false))
      ensures error.None? ==>
        && state == old(state) && connectors == old(connectors) && rolledBack == old(rolledBack)
        && serverJobCancelled == old(serverJobCancelled) && executorShutdown == old(executorShutdown)
      ensures history == old(history) + (if state == old(state) then [] else [state])
      ensures shutdownCount == old(shutdownCount) && shutdownCompleted == old(shutdownCompleted)
      ensures stopsClaimed == old(stopsClaimed)
      ensures environmentStarted == old(environmentStarted) && environmentStopped == old(environmentStopped)
    {
      var bound := startPhase.bound;
      var spec := specs[|bound|];
      if !bindOk {
        error := Some(BindFailed(spec.port));
        Rollback(bound, error.value);
        return;
      }
      startPhase := Creating(bound, HttpServer(spec.port, false, false));
      error := None;
    }

    /** The end of `startConnector`: a server created while a stop came in is cancelled. */
    method FinishStartConnector()
      requires Valid() && startPhase.Creating?
      modifies this
      ensures Valid()
      ensures var server := old(startPhase.server);
        startPhase == Binding(old(startPhase.bound) + [if old(state) == Starting then server else CancelJob(server)])
      ensures state == old(state) && history == old(history) && connectors == old(connectors)
      ensures shutdownCount == old(shutdownCount) && shutdownCompleted == old(shutdownCompleted)
      ensures stopsClaimed == old(stopsClaimed) && rolledBack == old(rolledBack)
      ensures serverJobCancelled == old(serverJobCancelled) && executorShutdown == old(executorShutdown)
      ensures environmentStarted == old(environmentStarted) && environmentStopped == old(environmentStopped)
    {
      var server := startPhase.server;
      if state != Starting {
        server := CancelJob(server);
      }
      startPhase := Binding(startPhase.bound + [server]);
    }

    /**
     * The `catch` block of `start`: cancel the socket of every server bound so far, publish an
     * empty list, force `Terminated`, cancel the server job and shut down the executor.
     */
    method Rollback(bound: seq<Server>, error: StartError)
      requires Valid()
      requires startPhase == Binding(bound) || startPhase == Connecting(bound)
      modifies this
      ensures Valid() && RolledBack(bound, error)
      ensures history == old(history) + [Terminated]
      ensures shutdownCount == old(shutdownCount) && shutdownCompleted == old(shutdownCompleted)
      ensures stopsClaimed == old(stopsClaimed)
      ensures environmentStarted == old(environmentStarted) && environmentStopped == old(environmentStopped)
    {
      var cancelled: seq<Server> := [];
      var i := 0;
      while i < |bound|
        invariant 0 <= i <= |bound|
        invariant |cancelled| == i
        invariant forall k :: 0 <= k < i ==> cancelled[k] == CancelSocket(bound[k])
      {
        cancelled := cancelled + [CancelSocket(bound[i])];
        i := i + 1;
      }
      assert cancelled == CancelSockets(bound);
      rolledBack := cancelled;
      connectors := Some([]);
      ExtendPath(history, Terminated);
      state := Terminated;
      history := history + [Terminated];
      serverJobCancelled := true;
      executorShutdown := true;
      startPhase := Failed(error);
    }

    /**
     * The last steps of `start`: publish the servers, then the compare-and-swap `Starting` to
     * `Running`; if a stop claimed the host meanwhile, `start` runs `doShutdown` itself.
     */
    method FinishStart()
      requires Valid() && startPhase.Binding? && |startPhase.bound| == |specs|
      modifies this
      ensures Valid() && startPhase == Started
      ensures old(state) == Starting ==>
        && state == Running && connectors == Some(old(startPhase.bound)) && shutdownCount == 0
        && history == old(history) + [Running]
      ensures old(state) == Stopping ==>
        && state == Stopping && connectors == Some(CancelJobs(old(startPhase.bound)))
        && shutdownCount == 1 && history == old(history)
      ensures shutdownCompleted == old(shutdownCompleted) && stopsClaimed == old(stopsClaimed)
      ensures rolledBack == old(rolledBack)
      ensures serverJobCancelled == old(serverJobCancelled) && executorShutdown == old(executorShutdown)
      ensures environmentStarted == old(environmentStarted) && environmentStopped == old(environmentStopped)
    {
      var bound := startPhase.bound;
      connectors := Some(bound);
      startPhase := Started;
      if state == Starting {
        ExtendPath(history, Running);
        state := Running;
        history := history + [Running];
      } else {
        DoShutdown();
      }
    }

    /**
     * A whole `start` call with no `stop` beside it, with the environment start inside the
     * rollback; `bindOk[i]` is whether connector `i` binds. Either the environment starts and
     * every connector is bound in declaration order, and the host runs; or the environment
     * start, or else the first connector that cannot start, decides the error and what was
     * bound before it is rolled back.
     */
    method RunStart(environmentStartOk: bool, bindOk: seq<bool>) returns (error: Option<StartError>)
      requires Valid() && startPhase == Idle && state == Created && |bindOk| == |specs|
      modifies this
      ensures Valid()
      ensures error.None? <==>
        environmentStartOk && forall i :: 0 <= i < |specs| ==> specs[i].kind == HTTP && bindOk[i]
      ensures error.None? ==>
        && state == Running && startPhase == Started && connectors == Some(FreshServers(specs))
      ensures !environmentStartOk ==>
        error == Some(EnvironmentStartFailed) && RolledBack([], EnvironmentStartFailed)
      ensures environmentStartOk && error.Some? ==>
        exists k: nat :: FirstFailureAt(specs, bindOk, k)
          && error.value == (if specs[k].kind == HTTPS then HttpsNotSupported else BindFailed(specs[k].port))
          && RolledBack(FreshServers(specs[..k]), error.value)
    {
      error := StartRollingBack(environmentStartOk);
      if error.Some? {
        return;
      }
      var i := 0;
      while i < |specs|
        invariant 0 <= i <= |specs|
        invariant Valid() && state == Starting && stopsClaimed == 0
        invariant startPhase == Binding(FreshServers(specs[..i]))
        invariant forall j :: 0 <= j < i ==> specs[j].kind == HTTP && bindOk[j]
      {
        var bound := FreshServers(specs[..i]);
        var e := BindNext();
        if e.Some? {
          assert FirstFailureAt(specs, bindOk, i);
          return e;
        }
        e := BindOutcome(bindOk[i]);
        if e.Some? {
          assert FirstFailureAt(specs, bindOk, i);
          return e;
        }
        FinishStartConnector();
        assert FreshServers(specs[..i + 1]) == bound + [HttpServer(specs[i].port, false, false)];
        i := i + 1;
      }
      assert specs[..|specs|] == specs;
      FinishStart();
    }

    /**
     * The synchronous part of `doShutdown`: cancel the root job of every connector and launch
     * the coroutine that completes the shutdown (`CompleteShutdown`).
     */
    method DoShutdown()
      requires connectors.Some? && shutdownCount == 0
      modifies this
      ensures connectors == Some(CancelJobs(old(connectors.value)))
      ensures shutdownCount == 1
      ensures state == old(state) && history == old(history) && startPhase == old(startPhase)
      ensures shutdownCompleted == old(shutdownCompleted) && stopsClaimed == old(stopsClaimed)
      ensures rolledBack == old(rolledBack)
      ensures serverJobCancelled == old(serverJobCancelled) && executorShutdown == old(executorShutdown)
      ensures environmentStarted == old(environmentStarted) && environmentStopped == old(environmentStopped)
    {
      var servers := connectors.value;
      var cancelled: seq<Server> := [];
      for i := 0 to |servers|
        invariant |cancelled| == i
        invariant forall k :: 0 <= k < i ==> cancelled[k] == CancelJob(servers[k])
      {
        cancelled := cancelled + [CancelJob(servers[i])];
      }
      assert cancelled == CancelJobs(servers);
      connectors := Some(cancelled);
      shutdownCount := shutdownCount + 1;
    }

    /**
     * The coroutine launched by `doShutdown`, once every root job has completed: stop the
     * environment and, in its `finally` block, set `Terminated`, cancel the server job and
     * shut down the executor.
     */
    method CompleteShutdown()
      requires Valid() && shutdownCount == 1 && !shutdownCompleted
      modifies this
      ensures Valid()
      ensures state == Terminated && history == old(history) + [Terminated]
      ensures shutdownCompleted && environmentStopped && serverJobCancelled && executorShutdown
      ensures connectors == old(connectors) && startPhase == old(startPhase)
      ensures shutdownCount == old(shutdownCount) && stopsClaimed == old(stopsClaimed)
      ensures rolledBack == old(rolledBack) && environmentStarted == old(environmentStarted)
    {
      environmentStopped := true;
      ExtendPath(history, Terminated);
      state := Terminated;
      history := history + [Terminated];
      serverJobCancelled := true;
      shutdownCompleted := true;
      executorShutdown := true;
    }

    /**
     * A `stop` call up to the timed drain: `Terminated` is left alone, `Created` goes straight
     * to `Terminated`, any other state is claimed as `Stopping`, and only a claim from
     * `Running` runs `doShutdown`. The retry loop of the source is one step here: a
     * compare-and-swap that lost a race changed nothing and is simply tried again.
     */
    method Stop() returns (outcome: StopOutcome)
      requires Valid()
      modifies this
      ensures Valid()
      ensures old(state) == Terminated ==> outcome == AlreadyTerminated && unchanged(this)
      ensures old(state) == Created ==> outcome == TerminatedBeforeStart && state == Terminated
      ensures old(state) in {Starting, Running, Stopping} ==>
        outcome == Claimed(old(state)) && state == Stopping && stopsClaimed == old(stopsClaimed) + 1
      ensures old(state) !in {Starting, Running, Stopping} ==> stopsClaimed == old(stopsClaimed)
      ensures old(Stranded()) ==> Stranded() && state == Stopping
      ensures shutdownCount == old(shutdownCount) + (if old(state) == Running then 1 else 0)
      ensures connectors == if old(state) == Running then Some(CancelJobs(old(connectors).value)) else old(connectors)
      ensures history == old(history) + (if state == old(state) then [] else [state])
      ensures startPhase == old(startPhase) && shutdownCompleted == old(shutdownCompleted)
      ensures rolledBack == old(rolledBack)
      ensures serverJobCancelled == old(serverJobCancelled) && executorShutdown == old(executorShutdown)
      ensures environmentStarted == old(environmentStarted) && environmentStopped == old(environmentStopped)
    {
      var current := state;
      if current == Terminated {
        return AlreadyTerminated;
      }
      if current == Created {
        ExtendPath(history, Terminated);
        state := Terminated;
        history := history + [Terminated];
        return TerminatedBeforeStart;
      }
      if current != Stopping {
        ExtendPath(history, Stopping);
        history := history + [Stopping];
      }
      state := Stopping;
      stopsClaimed := stopsClaimed + 1;
      outcome := Claimed(current);
      if current == Running {
        DoShutdown();
      }
    }

    /** The request handler of every connector: bypass the pipeline unless `Running`. */
    method HandleRequest(version: string, pipeline: PipelineOutcome) returns (reply: Reply)
      ensures reply.Executed? <==> state == Running
      ensures reply.Unavailable? ==> IsServiceUnavailable(reply.packet, version)
      ensures reply.Executed? ==> (reply.closedWith.Some? <==> pipeline.Threw?)
      ensures reply.Executed? && pipeline.Threw? ==> reply.closedWith == Some(pipeline.error)
    {
      if state != Running {
        var packet := RespondServiceUnavailable(version);
        return Unavailable(packet);
      }
      match pipeline
      case Completed => reply := Executed(None);
      case Threw(e) => reply := Executed(Some(e));
    }

    /** Builds the 503 response with the request's HTTP version, one builder call at a time. */
    method RespondServiceUnavailable(httpVersion: string) returns (packet: seq<Line>)
      ensures IsServiceUnavailable(packet, httpVersion)
    {
      var su := ServiceUnavailable;
      ServiceUnavailableIsAscii();
      var builder: seq<Line> := [];
      builder := builder + [ResponseLine(httpVersion, 503, su)];
      builder := builder + [HeaderLine("Connection", "close")];
      builder := builder + [HeaderLine("Content-Length", DecimalString(|su|))];
      builder := builder + [EmptyLine];
      builder := builder + [Body(AsciiBytes(su))];
      packet := builder;
    }
  }

  /**
   * As written, a failing `environment.start()` strands the host: a `stop` claims `Stopping`
   * from `Starting`, so it does not run `doShutdown`, and `start` never reaches its rollback.
   * No step is left that sets `Terminated`; every later `stop` claims `Stopping` again.
   */
  method EnvironmentFailureStrandsHost(specs: seq<ConnectorSpec>)
    returns (host: CIOApplicationHost, error: Option<StartError>, outcome: StopOutcome, again: StopOutcome)
    ensures error == Some(EnvironmentStartFailed)
    ensures outcome == Claimed(Starting) && again == Claimed(Stopping)
    ensures host.Stranded() && host.state == Stopping
    ensures host.shutdownCount == 0 && !host.shutdownCompleted && host.connectors.None?
  {
    host := new CIOApplicationHost(specs);
    error := host.Start(false);
    outcome := host.Stop();
    again := host.Stop();
  }

  /** With the environment start inside the rollback, the same calls leave the host `Terminated`. */
  method EnvironmentFailureTerminates(specs: seq<ConnectorSpec>)
    returns (host: CIOApplicationHost, error: Option<StartError>, outcome: StopOutcome)
    ensures error == Some(EnvironmentStartFailed) && outcome == AlreadyTerminated
    ensures host.Valid() && host.state == Terminated && host.connectors == Some([])
    ensures host.serverJobCancelled && host.executorShutdown
  {
    host := new CIOApplicationHost(specs);
    error := host.StartRollingBack(false);
    outcome := host.Stop();
  }

  /**
   * A stop that arrives while a connector is being bound, followed by a failed bind: the start
   * is rolled back from `Stopping` and rethrows the bind error, with no shutdown run.
   */
  method StopDuringFailedBind(port: int) returns (host: CIOApplicationHost, error: Option<StartError>)
    ensures error == Some(BindFailed(port))
    ensures host.Valid() && host.history == [Created, Starting, Stopping, Terminated]
    ensures host.shutdownCount == 0 && host.connectors == Some([])
  {
    host := new CIOApplicationHost([ConnectorSpec("0.0.0.0", port, HTTP)]);
    var _ := host.Start(true);
    var _ := host.BindNext();
    var _ := host.Stop();
    error := host.BindOutcome(false);
  }
}
