/**
 * The two servers' fields and methods. Each method of the auth handler server that holds the
 * mutex is one step of HostProtocol; the provider server dials under its lock, so its
 * configure and stop sections are single steps of the atomic slot.
 */
module HostServers {
  import opened Prelude
  import opened HostSlot
  import opened AtomicSlot
  import opened HostProtocol

  /** The connections that exist, and how often each was closed. */
  class Network {
    var dialed: nat
    var closes: multiset<ConnId>

    constructor ()
      ensures dialed == 0 && closes == multiset{}
    {
      dialed, closes := 0, multiset{};
    }

    method Dial() returns (c: ConnId)
      modifies `dialed
      ensures c == old(dialed) && dialed == old(dialed) + 1
    {
      c := dialed;
      dialed := dialed + 1;
    }

    method Close(c: ConnId)
      modifies `closes
      ensures closes == old(closes) + multiset{c}
    {
      closes := closes + multiset{c};
    }
  }

  datatype DialSource = Override | Broker

  /** The test override wins over the broker; with neither there is nothing to dial. */
  function PickDialFunc(hasOverride: bool, hasBroker: bool): (f: Option<DialSource>)
    ensures f.None? <==> !hasOverride && !hasBroker
    ensures f == Some(Override) <==> hasOverride
    ensures f == Some(Broker) <==> hasBroker && !hasOverride
  {
    if hasOverride then Some(Override) else if hasBroker then Some(Broker) else None
  }

  // ---- What uninterrupted calls leave ----

  function EnsureAlone(s: Shared, hasDialer: bool, dialOk: bool): Shared {
    if !hasDialer || s.hostClient.Some? || !dialOk then s else Committed(Dialed(s), s.dialed)
  }

  predicate EnsureSucceeds(s: Shared, hasDialer: bool, dialOk: bool) {
    !hasDialer || s.hostClient.Some? || dialOk
  }

  function ConfigureAlone(s: Shared, id: nat, hasDialer: bool, dialOk: bool, pluginOk: bool): Shared {
    var s1 := if id != 0 then EnsureAlone(Reopened(s), hasDialer, dialOk) else s;
    if id != 0 && !EnsureSucceeds(s, hasDialer, dialOk) then s1
    else if pluginOk then s1
    else Closed(s1)
  }

  function ConfigureReply(s: Shared, id: nat, hasDialer: bool, dialOk: bool, pluginOk: bool): Reply {
    if pluginOk && (id == 0 || EnsureSucceeds(s, hasDialer, dialOk)) then Success else Failure
  }

  class AuthServer {
    const network: Network
    const hasOverride: bool
    const hasBroker: bool
    var conn: Option<ConnId>
    var hostClient: Option<HostClient>
    var closed: bool

    ghost function Fields(): Shared
      reads this, network
    {
      Shared(conn, hostClient, closed, network.dialed, network.closes)
    }

    ghost predicate HasDialer() {
      PickDialFunc(hasOverride, hasBroker).Some?
    }

    constructor (network: Network, hasOverride: bool, hasBroker: bool)
      ensures this.network == network && this.hasOverride == hasOverride && this.hasBroker == hasBroker
      ensures Fields() == Shared(None, None, false, network.dialed, network.closes)
    {
      this.network := network;
      this.hasOverride, this.hasBroker := hasOverride, hasBroker;
      conn, hostClient, closed := None, None, false;
    }

    /** The first critical section of ConfigureAuthHandler. */
    method ClearStopped()
      modifies `closed
      ensures Fields() == Reopened(old(Fields()))
    {
      closed := false;
    }

    /** The first critical section of ensureHostClient. */
    method AlreadyConnected() returns (already: bool)
      ensures already == Fields().hostClient.Some?
    {
      already := hostClient.Some?;
    }

    /** The second critical section of ensureHostClient. */
    method CommitOrDiscard(c: ConnId)
      modifies `conn, `hostClient, network`closes
      ensures Fields() == Committed(old(Fields()), c)
    {
      if hostClient.Some? || closed {
        network.Close(c);
        return;
      }
      conn := Some(c);
      hostClient := Some(HostClient(c));
    }

    method CloseHostClient()
      modifies this, network`closes
      ensures Fields() == Closed(old(Fields()))
    {
      closed := true;
      if conn.Some? {
        network.Close(conn.value);
        conn := None;
      }
      hostClient := None;
    }

    method InjectHostClient() returns (client: Option<HostClient>)
      ensures client == Fields().hostClient
    {
      client := hostClient;
    }

    /** dialOk says whether the dial, if there is one, succeeds. */
    method EnsureHostClient(dialOk: bool) returns (ok: bool)
      modifies this, network
      ensures Fields() == EnsureAlone(old(Fields()), HasDialer(), dialOk)
      ensures ok <==> EnsureSucceeds(old(Fields()), HasDialer(), dialOk)
    {
      ok := true;
      var dial := PickDialFunc(hasOverride, hasBroker);
      if dial.None? {
        return;
      }
      var already := AlreadyConnected();
      if already {
        return;
      }
      if !dialOk {
        return false;
      }
      var c := network.Dial();
      CommitOrDiscard(c);
    }

    /** One configure call that no other call interrupts. */
    method ConfigureAuthHandler(hostServiceId: nat, dialOk: bool, pluginOk: bool) returns (reply: Reply)
      modifies this, network
      ensures Fields() == ConfigureAlone(old(Fields()), hostServiceId, HasDialer(), dialOk, pluginOk)
      ensures reply == ConfigureReply(old(Fields()), hostServiceId, HasDialer(), dialOk, pluginOk)
    {
      if hostServiceId != 0 {
        ClearStopped();
        var ok := EnsureHostClient(dialOk);
        if !ok {
          return Failure;
        }
      }
      var client := InjectHostClient();
      if !pluginOk {
        CloseHostClient();
        return Failure;
      }
      return Success;
    }

    method StopAuthHandler(pluginOk: bool) returns (reply: Reply)
      modifies this, network
      ensures Fields() == if pluginOk then Closed(old(Fields())) else old(Fields())
      ensures reply == if pluginOk then Success else Failure
    {
      if !pluginOk {
        return Failure;
      }
      CloseHostClient();
      return Success;
    }
  }

  /** After the first step of a configure: the part of its run up to the plugin call. */
  function EnsureActions(s: Shared, t: ThreadId, hasDialer: bool, dialOk: bool): seq<Action> {
    [Reopen(t)] +
    if !hasDialer then []
    else if s.hostClient.Some? then [Check(t)]
    else if dialOk then [Check(t), DialOk(t), Commit(t)]
    else [Check(t), DialFail(t)]
  }

  function PluginActions(t: ThreadId, pluginOk: bool): seq<Action> {
    [Snapshot(t), PluginReturn(t, pluginOk)] + if pluginOk then [] else [Close(t)]
  }

  /** The steps of a configure up to its client snapshot, or to its failed dial. */
  function ConfigurePrefix(s: Shared, t: ThreadId, id: nat, hasDialer: bool, dialOk: bool): seq<Action> {
    if id == 0 then [Begin(t, Configure(id))]
    else [Begin(t, Configure(id))] + EnsureActions(s, t, hasDialer, dialOk)
  }

  predicate ReachesPlugin(s: Shared, id: nat, hasDialer: bool, dialOk: bool) {
    id == 0 || EnsureSucceeds(s, hasDialer, dialOk)
  }

  function ConfigureActions(s: Shared, t: ThreadId, id: nat, hasDialer: bool, dialOk: bool,
                            pluginOk: bool): seq<Action> {
    var prefix := ConfigurePrefix(s, t, id, hasDialer, dialOk);
    if ReachesPlugin(s, id, hasDialer, dialOk) then prefix + PluginActions(t, pluginOk) else prefix
  }

  predicate Shows(s: State, t: ThreadId, pc: Pc) {
    t in s.threads && s.threads[t] == pc
  }

  lemma {:induction false} EnsureIsRun(s: State, t: ThreadId, call: Call, dialOk: bool)
    requires Coherent(s.shared) && Shows(s, t, AtReopen(call))
    ensures var acts := EnsureActions(s.shared, t, s.hasDialer, dialOk);
            && Run(s, acts)
            && After(s, acts).shared == EnsureAlone(Reopened(s.shared), s.hasDialer, dialOk)
            && Shows(After(s, acts), t,
                     if EnsureSucceeds(s.shared, s.hasDialer, dialOk) then AtSnapshot(call) else Done(Failure))
  {
    var acts := EnsureActions(s.shared, t, s.hasDialer, dialOk);
    var s1 := Next(s, Reopen(t));
    if !s.hasDialer {
      WitnessRuns(s, acts, [s, s1]);
    } else {
      var s2 := Next(s1, Check(t));
      if s.shared.hostClient.Some? {
        WitnessRuns(s, acts, [s, s1, s2]);
      } else if dialOk {
        var s3 := Next(s2, DialOk(t));
        var s4 := Next(s3, Commit(t));
        WitnessRuns(s, acts, [s, s1, s2, s3, s4]);
      } else {
        var s3 := Next(s2, DialFail(t));
        WitnessRuns(s, acts, [s, s1, s2, s3]);
      }
    }
  }

  lemma {:induction false} PluginPartIsRun(s: State, t: ThreadId, call: Call, pluginOk: bool)
    requires Shows(s, t, AtSnapshot(call)) && call.Configure?
    ensures var acts := PluginActions(t, pluginOk);
            && Run(s, acts)
            && After(s, acts).shared == (if pluginOk then s.shared else Closed(s.shared))
            && Shows(After(s, acts), t, Done(if pluginOk then Success else Failure))
  {
    var acts := PluginActions(t, pluginOk);
    var s1 := Next(s, Snapshot(t));
    var s2 := Next(s1, PluginReturn(t, pluginOk));
    if pluginOk {
      WitnessRuns(s, acts, [s, s1, s2]);
    } else {
      WitnessRuns(s, acts, [s, s1, s2, Next(s2, Close(t))]);
    }
  }

  /**
   * The uninterrupted ConfigureAuthHandler is one of the protocol's interleavings: the steps
   * of one new thread lead to the fields and the reply that the method leaves.
   */
  lemma {:induction false} ConfigureIsRun(s: State, t: ThreadId, id: nat, dialOk: bool, pluginOk: bool)
    requires Coherent(s.shared) && t !in s.threads
    ensures var acts := ConfigureActions(s.shared, t, id, s.hasDialer, dialOk, pluginOk);
            && Run(s, acts)
            && After(s, acts).shared == ConfigureAlone(s.shared, id, s.hasDialer, dialOk, pluginOk)
            && Shows(After(s, acts), t, Done(ConfigureReply(s.shared, id, s.hasDialer, dialOk, pluginOk)))
  {
    ConfigurePrefixIsRun(s, t, id, dialOk);
    if ReachesPlugin(s.shared, id, s.hasDialer, dialOk) {
      FinishConfigure(s, ConfigurePrefix(s.shared, t, id, s.hasDialer, dialOk), t, Configure(id), pluginOk);
    }
  }

  lemma {:induction false} ConfigurePrefixIsRun(s: State, t: ThreadId, id: nat, dialOk: bool)
    requires Coherent(s.shared) && t !in s.threads
    ensures var acts := ConfigurePrefix(s.shared, t, id, s.hasDialer, dialOk);
            && Run(s, acts)
            && After(s, acts).shared ==
               (if id == 0 then s.shared else EnsureAlone(Reopened(s.shared), s.hasDialer, dialOk))
            && Shows(After(s, acts), t,
                     if ReachesPlugin(s.shared, id, s.hasDialer, dialOk)
                     then AtSnapshot(Configure(id)) else Done(Failure))
  {
    var first := [Begin(t, Configure(id))];
    var s1 := Next(s, first[0]);
    WitnessRuns(s, first, [s, s1]);
    if id != 0 {
      EnsureIsRun(s1, t, Configure(id), dialOk);
      RunAppend(s, first, EnsureActions(s.shared, t, s.hasDialer, dialOk));
    }
  }

  lemma {:induction false} FinishConfigure(s: State, acts: seq<Action>, t: ThreadId, call: Call, pluginOk: bool)
    requires Run(s, acts) && call.Configure?
    requires Shows(After(s, acts), t, AtSnapshot(call))
    ensures var all := acts + PluginActions(t, pluginOk);
            && Run(s, all)
            && After(s, all).shared == (if pluginOk then After(s, acts).shared else Closed(After(s, acts).shared))
            && Shows(After(s, all), t, Done(if pluginOk then Success else Failure))
  {
    PluginPartIsRun(After(s, acts), t, call, pluginOk);
    RunAppend(s, acts, PluginActions(t, pluginOk));
  }

  /**
   * What one uninterrupted configure leaves, with or without a host service id and a dial
   * function. A failed one leaves no connection. A successful one keeps an existing connection, and
   * otherwise has dialed exactly if it could. A plugin failure stops the server; otherwise a
   * configure with an id leaves it open, even if the dial failed, and one without leaves it alone.
   */
  lemma ConfigureOutcome(s: Shared, id: nat, hasDialer: bool, dialOk: bool, pluginOk: bool)
    requires Coherent(s)
    ensures var s' := ConfigureAlone(s, id, hasDialer, dialOk, pluginOk);
            var ok := ConfigureReply(s, id, hasDialer, dialOk, pluginOk) == Success;
            var dials := id != 0 && hasDialer && s.conn.None?;
            && Coherent(s')
            && (!ok ==> s'.conn.None?)
            && (ok && s.conn.Some? ==> s'.conn == s.conn)
            && (ok && s.conn.None? ==> (s'.conn.Some? <==> dials))
            && s'.dialed == s.dialed + (if dials && dialOk then 1 else 0)
            && (s'.closed <==> if id == 0 then !pluginOk || s.closed else !pluginOk && (dials ==> dialOk))
  {
  }

  function StopActions(t: ThreadId, pluginOk: bool): seq<Action> {
    [Begin(t, Stop), PluginReturn(t, pluginOk)] + if pluginOk then [Close(t)] else []
  }

  /** The uninterrupted StopAuthHandler is a run of the protocol as well. */
  lemma {:induction false} StopIsRun(s: State, t: ThreadId, pluginOk: bool)
    requires t !in s.threads
    ensures var acts := StopActions(t, pluginOk);
            && Run(s, acts)
            && After(s, acts).shared == (if pluginOk then Closed(s.shared) else s.shared)
            && Shows(After(s, acts), t, Done(if pluginOk then Success else Failure))
  {
    var acts := StopActions(t, pluginOk);
    var s1 := Next(s, acts[0]);
    var s2 := Next(s1, acts[1]);
    if pluginOk {
      WitnessRuns(s, acts, [s, s1, s2, Next(s2, acts[2])]);
    } else {
      WitnessRuns(s, acts, [s, s1, s2]);
    }
  }

  class ProviderConnection {
    const network: Network
    const hasOverride: bool
    const hasBroker: bool
    var conn: Option<ConnId>
    var hostClient: Option<HostClient>

    ghost function Fields(): Shared
      reads this, network
    {
      Shared(conn, hostClient, false, network.dialed, network.closes)
    }

    constructor (network: Network, hasOverride: bool, hasBroker: bool)
      ensures this.network == network && this.hasOverride == hasOverride && this.hasBroker == hasBroker
      ensures Fields() == Shared(None, None, false, network.dialed, network.closes)
    {
      this.network := network;
      this.hasOverride, this.hasBroker := hasOverride, hasBroker;
      conn, hostClient := None, None;
    }

    /** The dialing section of ConfigureProvider, all of it under the lock. */
    method ConnectIfAbsent(hostServiceId: nat, dialOk: bool) returns (ok: bool)
      modifies this, network
      ensures var dials := hostServiceId != 0 && PickDialFunc(hasOverride, hasBroker).Some?;
              && Fields() == ProviderStep(old(Fields()), ProviderConfigure(dials, dialOk))
              && (ok <==> !dials || dialOk || old(Fields()).hostClient.Some?)
    {
      ok := true;
      if hostServiceId != 0 {
        var dial := PickDialFunc(hasOverride, hasBroker);
        if dial.Some? && hostClient.None? {
          if !dialOk {
            return false;
          }
          var c := network.Dial();
          conn := Some(c);
          hostClient := Some(HostClient(c));
        }
      }
    }

    method StopProvider(pluginOk: bool) returns (reply: Reply)
      modifies this, network
      ensures Fields() == ProviderStep(old(Fields()), ProviderStop(pluginOk))
      ensures reply == if pluginOk then Success else Failure
    {
      if !pluginOk {
        return Failure;
      }
      if conn.Some? {
        network.Close(conn.value);
        conn := None;
      }
      hostClient := None;
      return Success;
    }
  }

  /** The provider server's lock-held sections; dials says whether the section reaches the dial code. */
  datatype ProviderAction =
    | ProviderConfigure(dials: bool, dialOk: bool)
    | ProviderStop(pluginOk: bool)
    | ProviderSnapshot

  function ProviderStep(s: Shared, a: ProviderAction): Shared {
    match a
    case ProviderConfigure(dials, dialOk) => if dials && dialOk then ConnectedIfAbsent(s) else s
    case ProviderStop(ok) => if ok then Disconnected(s) else s
    case ProviderSnapshot => s
  }

  /**
   * A configure keeps an existing connection, and otherwise installs a new one exactly if it dials
   * and the dial succeeds. A stop that the plugin accepted closes the connection, if there is one,
   * and a refused one or a snapshot changes nothing.
   */
  lemma ProviderOutcome(s: Shared, a: ProviderAction)
    requires Coherent(s)
    ensures var s' := ProviderStep(s, a);
            match a
            case ProviderConfigure(dials, dialOk) =>
              && (s.conn.Some? || !dials || !dialOk ==> s' == s)
              && (s.conn.None? && dials && dialOk ==> s'.conn == Some(s.dialed) && s'.dialed == s.dialed + 1)
              && s'.closes == s.closes
            case ProviderStop(pluginOk) =>
              && (!pluginOk ==> s' == s)
              && (pluginOk ==>
                    && s'.conn.None? && s'.hostClient.None? && s'.dialed == s.dialed
                    && s'.closes == s.closes + if s.conn.Some? then multiset{s.conn.value} else multiset{})
            case ProviderSnapshot => s' == s
  {
  }

  function ProviderEmitted(s: Shared, a: ProviderAction): seq<Event> {
    match a
    case ProviderConfigure(dials, dialOk) =>
      if dials && dialOk && s.hostClient.None? then [Connect(s.dialed)] else []
    case ProviderStop(ok) => if ok then [Disconnect] else []
    case ProviderSnapshot => [Observe(s.conn)]
  }

  function ProviderAfter(acts: seq<ProviderAction>): Shared {
    if acts == [] then FRESH
    else ProviderStep(ProviderAfter(acts[..|acts| - 1]), acts[|acts| - 1])
  }

  function ProviderTrace(acts: seq<ProviderAction>): seq<Event> {
    if acts == [] then []
    else
      var before := acts[..|acts| - 1];
      ProviderTrace(before) + ProviderEmitted(ProviderAfter(before), acts[|acts| - 1])
  }

  /** Each dialed connection is either installed or closed once; an undialed one is neither. */
  ghost predicate OpenOnlyIfInstalled(s: Shared) {
    forall c: ConnId ::
      s.closes[c] + (if s.conn == Some(c) then 1 else 0) == if c < s.dialed then 1 else 0
  }

  lemma ProviderStepKeeps(s: Shared, a: ProviderAction)
    requires Coherent(s) && OpenOnlyIfInstalled(s) && !s.closed
    ensures Coherent(ProviderStep(s, a)) && !ProviderStep(s, a).closed && OpenOnlyIfInstalled(ProviderStep(s, a))
  {
    var s' := ProviderStep(s, a);
    forall c: ConnId
      ensures s'.closes[c] + (if s'.conn == Some(c) then 1 else 0) == if c < s'.dialed then 1 else 0
    {
      assert s.closes[c] + (if s.conn == Some(c) then 1 else 0) == if c < s.dialed then 1 else 0;
    }
  }

  lemma ProviderStepRefines(s: Shared, a: ProviderAction, h: seq<Event>)
    requires Coherent(s) && Atomic(h) && Content(h) == s.conn
    ensures var es := ProviderEmitted(s, a);
            Atomic(h + es) && Content(h + es) == ProviderStep(s, a).conn
  {
    var es := ProviderEmitted(s, a);
    if es == [] {
      assert h + es == h;
    } else {
      AppendEvents(h, es[0]);
      assert es == [es[0]];
    }
  }

  /** The provider server is the same atomic slot. */
  lemma {:induction false} ProviderRefinesAtomicSlot(acts: seq<ProviderAction>)
    ensures Atomic(ProviderTrace(acts)) && Content(ProviderTrace(acts)) == ProviderAfter(acts).conn
    ensures Coherent(ProviderAfter(acts)) && !ProviderAfter(acts).closed && OpenOnlyIfInstalled(ProviderAfter(acts))
  {
    if acts != [] {
      var before := acts[..|acts| - 1];
      var a := acts[|acts| - 1];
      ProviderRefinesAtomicSlot(before);
      ProviderStepKeeps(ProviderAfter(before), a);
      ProviderStepRefines(ProviderAfter(before), a, ProviderTrace(before));
    }
  }
}
