/**
 * Every interleaving of the auth handler server's calls. A step is one critical section,
 * one dial or one plugin call, and the dial happens between two critical sections.
 */
module HostProtocol {
  import opened Prelude
  import opened HostSlot
  import opened AtomicSlot

  type ThreadId = nat

  /** Which handler a thread runs; Use stands for any other call that takes a client snapshot. */
  datatype Call = Configure(hostServiceId: nat) | Stop | Use

  datatype Reply = Success | Failure

  /** Where a thread is: about to perform the named step. */
  datatype Pc =
    | AtReopen(call: Call)
    | AtCheck(call: Call)
    | AtDial(call: Call)
    | AtCommit(call: Call, conn: ConnId)
    | AtSnapshot(call: Call)
    | AtPlugin(call: Call, client: Option<HostClient>)
    | AtClose(reply: Reply)
    | Done(reply: Reply)

  datatype Action =
    | Begin(t: ThreadId, call: Call)
    | Reopen(t: ThreadId)
    | Check(t: ThreadId)
    | DialFail(t: ThreadId)
    | DialOk(t: ThreadId)
    | Commit(t: ThreadId)
    | Snapshot(t: ThreadId)
    | PluginReturn(t: ThreadId, ok: bool)
    | Close(t: ThreadId)

  /** hasDialer: whether pickDialFunc finds a dial function; it never changes. */
  datatype State = State(threads: map<ThreadId, Pc>, shared: Shared, hasDialer: bool)

  function Init(hasDialer: bool): State {
    State(map[], FRESH, hasDialer)
  }

  predicate Enabled(s: State, a: Action) {
    match a
    case Begin(t, _) => t !in s.threads
    case Reopen(t) => t in s.threads && s.threads[t].AtReopen?
    case Check(t) => t in s.threads && s.threads[t].AtCheck?
    case DialFail(t) => t in s.threads && s.threads[t].AtDial?
    case DialOk(t) => t in s.threads && s.threads[t].AtDial?
    case Commit(t) => t in s.threads && s.threads[t].AtCommit?
    case Snapshot(t) => t in s.threads && s.threads[t].AtSnapshot?
    case PluginReturn(t, _) => t in s.threads && s.threads[t].AtPlugin?
    case Close(t) => t in s.threads && s.threads[t].AtClose?
  }

  /** The first step of a call: a zero host service id skips the dial, and Stop asks the plugin first. */
  function Entry(call: Call): Pc {
    match call
    case Configure(id) => if id != 0 then AtReopen(call) else AtSnapshot(call)
    case Stop => AtPlugin(Stop, None)
    case Use => AtSnapshot(Use)
  }

  /** A failed configure closes the connection; so does a stop that the plugin accepted. */
  function AfterPlugin(call: Call, ok: bool): Pc {
    match call
    case Configure(_) => if ok then Done(Success) else AtClose(Failure)
    case Stop => if ok then AtClose(Success) else Done(Failure)
    case Use => Done(if ok then Success else Failure)
  }

  /** What a step does to the fields and the network. */
  function SharedAfter(s: State, a: Action): Shared
    requires Enabled(s, a)
  {
    match a
    case Reopen(_) => Reopened(s.shared)
    case DialOk(_) => Dialed(s.shared)
    case Commit(t) => Committed(s.shared, s.threads[t].conn)
    case Close(_) => Closed(s.shared)
    case Begin(_, _) => s.shared
    case Check(_) => s.shared
    case DialFail(_) => s.shared
    case Snapshot(_) => s.shared
    case PluginReturn(_, _) => s.shared
  }

  /** Where a step leaves its thread. */
  function PcAfter(s: State, a: Action): Pc
    requires Enabled(s, a)
  {
    match a
    case Begin(_, call) => Entry(call)
    case Reopen(t) => if s.hasDialer then AtCheck(s.threads[t].call) else AtSnapshot(s.threads[t].call)
    case Check(t) => if s.shared.hostClient.Some? then AtSnapshot(s.threads[t].call) else AtDial(s.threads[t].call)
    case DialFail(_) => Done(Failure)
    case DialOk(t) => AtCommit(s.threads[t].call, s.shared.dialed)
    case Commit(t) => AtSnapshot(s.threads[t].call)
    case Snapshot(t) => AtPlugin(s.threads[t].call, s.shared.hostClient)
    case PluginReturn(t, ok) => AfterPlugin(s.threads[t].call, ok)
    case Close(t) => Done(s.threads[t].reply)
  }

  function Next(s: State, a: Action): State
    requires Enabled(s, a)
  {
    State(s.threads[a.t := PcAfter(s, a)], SharedAfter(s, a), s.hasDialer)
  }

  /** The actions can be taken one after another from s. */
  predicate Run(s: State, acts: seq<Action>)
    decreases |acts|, 0
  {
    acts == [] ||
    (Run(s, acts[..|acts| - 1]) && Enabled(After(s, acts[..|acts| - 1]), acts[|acts| - 1]))
  }

  function After(s: State, acts: seq<Action>): State
    requires Run(s, acts)
    decreases |acts|, 1
  {
    if acts == [] then s
    else Next(After(s, acts[..|acts| - 1]), acts[|acts| - 1])
  }

  /** A call can always take a step until it is done; dials and plugins can go either way. */
  lemma CallsMove(s: State, t: ThreadId)
    ensures t !in s.threads ==> forall call :: Enabled(s, Begin(t, call))
    ensures t in s.threads ==> (s.threads[t].Done? <==> forall a: Action :: a.t == t ==> !Enabled(s, a))
    ensures t in s.threads && s.threads[t].AtDial? ==> Enabled(s, DialFail(t)) && Enabled(s, DialOk(t))
    ensures t in s.threads && s.threads[t].AtPlugin? ==> forall ok :: Enabled(s, PluginReturn(t, ok))
  {
    if t in s.threads {
      match s.threads[t]
      case AtReopen(_) => assert Enabled(s, Reopen(t));
      case AtCheck(_) => assert Enabled(s, Check(t));
      case AtDial(_) => assert Enabled(s, DialOk(t));
      case AtCommit(_, _) => assert Enabled(s, Commit(t));
      case AtSnapshot(_) => assert Enabled(s, Snapshot(t));
      case AtPlugin(_, _) => assert Enabled(s, PluginReturn(t, true));
      case AtClose(_) => assert Enabled(s, Close(t));
      case Done(_) =>
    }
  }

  // ---- The inductive invariant ----

  predicate Holds(s: State, t: ThreadId, c: ConnId) {
    t in s.threads && s.threads[t].AtCommit? && s.threads[t].conn == c
  }

  ghost predicate Held(s: State, c: ConnId) {
    exists t: ThreadId :: Holds(s, t, c)
  }

  ghost predicate NumbersDialed(s: State) {
    && (s.shared.conn.Some? ==> s.shared.conn.value < s.shared.dialed)
    && (forall t: ThreadId, c: ConnId :: Holds(s, t, c) ==> c < s.shared.dialed)
    && (forall c: ConnId :: c in s.shared.closes ==> c < s.shared.dialed)
  }

  /** The three places of a connection exclude each other, and nothing is closed twice. */
  ghost predicate PlacesDisjoint(s: State) {
    && (forall t: ThreadId, u: ThreadId, c: ConnId :: Holds(s, t, c) && Holds(s, u, c) ==> t == u)
    && (forall t: ThreadId, c: ConnId :: Holds(s, t, c) ==> s.shared.conn != Some(c) && c !in s.shared.closes)
    && (s.shared.conn.Some? ==> s.shared.conn.value !in s.shared.closes)
    && (forall c: ConnId :: s.shared.closes[c] <= 1)
  }

  ghost predicate EverywhereAccounted(s: State) {
    forall c: ConnId :: c < s.shared.dialed ==>
      Held(s, c) || s.shared.conn == Some(c) || c in s.shared.closes
  }

  ghost predicate Inv(s: State) {
    Coherent(s.shared) && NumbersDialed(s) && PlacesDisjoint(s) && EverywhereAccounted(s)
  }

  /** Which holder relations a step leaves alone. */
  lemma HoldersAfter(s: State, a: Action, t: ThreadId, c: ConnId)
    requires Enabled(s, a)
    ensures Holds(Next(s, a), t, c) <==>
            if t == a.t then a.DialOk? && c == s.shared.dialed else Holds(s, t, c)
  {
  }

  lemma StepKeepsDisjoint(s: State, a: Action)
    requires Inv(s) && Enabled(s, a)
    ensures Coherent(Next(s, a).shared) && NumbersDialed(Next(s, a)) && PlacesDisjoint(Next(s, a))
  {
    forall t: ThreadId, c: ConnId ensures Holds(Next(s, a), t, c) <==>
                        if t == a.t then a.DialOk? && c == s.shared.dialed else Holds(s, t, c)
    {
      HoldersAfter(s, a, t, c);
    }
    if a.Commit? {
      assert Holds(s, a.t, s.threads[a.t].conn);
    }
  }

  lemma StepKeepsAccounted(s: State, a: Action)
    requires Inv(s) && Enabled(s, a)
    ensures EverywhereAccounted(Next(s, a))
  {
    var s' := Next(s, a);
    forall c: ConnId | c < s'.shared.dialed
      ensures Held(s', c) || s'.shared.conn == Some(c) || c in s'.shared.closes
    {
      if c == s.shared.dialed {
        assert Holds(s', a.t, c);
      } else if Held(s, c) {
        var t :| Holds(s, t, c);
        HoldersAfter(s, a, t, c);
        assert t != a.t ==> Holds(s', t, c);
      }
    }
  }

  lemma {:induction false} RunsKeepInv(hasDialer: bool, acts: seq<Action>)
    requires Run(Init(hasDialer), acts)
    ensures Inv(After(Init(hasDialer), acts))
  {
    if acts != [] {
      var before := acts[..|acts| - 1];
      RunsKeepInv(hasDialer, before);
      var s := After(Init(hasDialer), before);
      StepKeepsDisjoint(s, acts[|acts| - 1]);
      StepKeepsAccounted(s, acts[|acts| - 1]);
    }
  }

  // ---- Conservation of connections ----

  function Holders(s: State, c: ConnId): set<ThreadId> {
    set t | t in s.threads && Holds(s, t, c)
  }

  function InstalledCount(s: State, c: ConnId): nat {
    if s.shared.conn == Some(c) then 1 else 0
  }

  lemma HolderCount(s: State, c: ConnId)
    requires Inv(s)
    ensures |Holders(s, c)| == if Held(s, c) then 1 else 0
  {
    if Held(s, c) {
      var t: ThreadId :| Holds(s, t, c);
      assert forall u | u in Holders(s, c) :: Holds(s, u, c);
      assert Holders(s, c) == {t};
    } else {
      assert forall u | u in Holders(s, c) :: Holds(s, u, c);
      assert Holders(s, c) == {};
    }
  }

  /**
   * In every run, each dialed connection is in exactly one place: held by one thread between
   * its dial and its commit, installed, or closed once. Nothing undialed is anywhere.
   */
  lemma ConnectionsConserved(hasDialer: bool, acts: seq<Action>, c: ConnId)
    requires Run(Init(hasDialer), acts)
    ensures var s := After(Init(hasDialer), acts);
            |Holders(s, c)| + InstalledCount(s, c) + s.shared.closes[c]
            == if c < s.shared.dialed then 1 else 0
  {
    RunsKeepInv(hasDialer, acts);
    HolderCount(After(Init(hasDialer), acts), c);
  }

  function OpenConnections(s: State): set<ConnId> {
    set c: ConnId | 0 <= c < s.shared.dialed && c !in s.shared.closes
  }

  /** When no thread is mid-dial, the open connections are the installed one or none. */
  lemma NoLeakAtRest(hasDialer: bool, acts: seq<Action>)
    requires Run(Init(hasDialer), acts)
    requires var s := After(Init(hasDialer), acts);
             forall t :: t in s.threads ==> !s.threads[t].AtCommit?
    ensures var s := After(Init(hasDialer), acts);
            OpenConnections(s) == if s.shared.conn.Some? then {s.shared.conn.value} else {}
  {
    RunsKeepInv(hasDialer, acts);
  }

  // ---- A stop wins over dials in flight ----

  /** No Configure with a host service id has run its reopen step after position i. */
  predicate StaysStopped(acts: seq<Action>, i: nat)
    requires i < |acts|
  {
    acts[i].Close? && forall j :: i < j < |acts| ==> !acts[j].Reopen?
  }

  /** From a close step until the next reopen step, nothing is installed. */
  lemma {:induction false} StopDominates(hasDialer: bool, acts: seq<Action>, i: nat)
    requires Run(Init(hasDialer), acts) && i < |acts| && StaysStopped(acts, i)
    ensures var s := After(Init(hasDialer), acts).shared;
            s.closed && s.conn.None? && s.hostClient.None?
  {
    if i < |acts| - 1 {
      var before := acts[..|acts| - 1];
      assert before[i] == acts[i];
      forall j | i < j < |before| ensures !before[j].Reopen? {
        assert before[j] == acts[j];
      }
      StopDominates(hasDialer, before, i);
    }
  }

  /** A dial that overlaps such a stop and reaches its commit has its connection closed there. */
  lemma OverlappingDialDiscarded(hasDialer: bool, acts: seq<Action>, i: nat, t: ThreadId)
    requires Run(Init(hasDialer), acts) && i < |acts| && StaysStopped(acts, i)
    requires Enabled(After(Init(hasDialer), acts), Commit(t))
    ensures var s := After(Init(hasDialer), acts);
            var s' := Next(s, Commit(t));
            s'.shared.conn.None? && s'.shared.closes[s.threads[t].conn] == 1
  {
    StopDominates(hasDialer, acts, i);
    RunsKeepInv(hasDialer, acts);
    assert Holds(After(Init(hasDialer), acts), t, After(Init(hasDialer), acts).threads[t].conn);
  }

  lemma StillStopped(acts: seq<Action>, i: nat)
    requires i < |acts| - 1 && StaysStopped(acts[..|acts| - 1], i) && !acts[|acts| - 1].Reopen?
    ensures StaysStopped(acts, i)
  {
    var before := acts[..|acts| - 1];
    assert acts[i] == before[i];
    assert forall j :: i < j < |before| ==> acts[j] == before[j];
  }

  /** The stopped flag is the history's: some close step has no reopen step after it. */
  lemma {:induction false} ClosedIff(hasDialer: bool, acts: seq<Action>)
    requires Run(Init(hasDialer), acts)
    ensures After(Init(hasDialer), acts).shared.closed <==>
            exists i :: 0 <= i < |acts| && StaysStopped(acts, i)
  {
    if exists i :: 0 <= i < |acts| && StaysStopped(acts, i) {
      var i :| 0 <= i < |acts| && StaysStopped(acts, i);
      StopDominates(hasDialer, acts, i);
    } else if acts != [] {
      var n := |acts| - 1;
      var before := acts[..n];
      ClosedIff(hasDialer, before);
      assert acts[n].Close? ==> StaysStopped(acts, n);
      if !acts[n].Reopen? {
        forall i | 0 <= i < |before| && StaysStopped(before, i) ensures StaysStopped(acts, i) {
          StillStopped(acts, i);
        }
      }
    }
  }

  // ---- What a reply tells the host ----

  /** What thread t has done, in order. */
  function Steps(acts: seq<Action>, t: ThreadId): seq<Action> {
    if acts == [] then []
    else
      var a := acts[|acts| - 1];
      Steps(acts[..|acts| - 1], t) + if a.t == t then [a] else []
  }

  /** The ways to a snapshot: without a dial, with a client already there, or with a new connection. */
  predicate ReachedSnapshot(hasDialer: bool, steps: seq<Action>, t: ThreadId, call: Call) {
    match call
    case Stop => false
    case Use => steps == [Begin(t, call)]
    case Configure(id) =>
      if id == 0 then steps == [Begin(t, call)]
      else if !hasDialer then steps == [Begin(t, call), Reopen(t)]
      else
        || steps == [Begin(t, call), Reopen(t), Check(t)]
        || steps == [Begin(t, call), Reopen(t), Check(t), DialOk(t), Commit(t)]
  }

  predicate ReachedPlugin(hasDialer: bool, steps: seq<Action>, t: ThreadId, call: Call) {
    if call.Stop? then steps == [Begin(t, call)]
    else
      && |steps| > 0 && steps[|steps| - 1] == Snapshot(t)
      && ReachedSnapshot(hasDialer, steps[..|steps| - 1], t, call)
  }

  predicate PluginReplied(hasDialer: bool, steps: seq<Action>, t: ThreadId, call: Call, ok: bool) {
    && |steps| > 0 && steps[|steps| - 1] == PluginReturn(t, ok)
    && ReachedPlugin(hasDialer, steps[..|steps| - 1], t, call)
  }

  predicate DialsFor(hasDialer: bool, call: Call) {
    hasDialer && call.Configure? && call.hostServiceId != 0
  }

  /** The plugin's answer after which the slot is closed, and the reply that follows. */
  predicate ClosesOn(call: Call, ok: bool, reply: Reply) {
    (call.Configure? && !ok && reply == Failure) || (call.Stop? && ok && reply == Success)
  }

  /** The steps of a finished call: a failed dial, a plugin's answer, or that and a close. */
  predicate Finished(hasDialer: bool, steps: seq<Action>, t: ThreadId, call: Call, reply: Reply) {
    && |steps| > 0
    && match steps[|steps| - 1]
       case DialFail(_) =>
         && DialsFor(hasDialer, call) && reply == Failure
         && steps == [Begin(t, call), Reopen(t), Check(t), DialFail(t)]
       case PluginReturn(_, ok) =>
         && PluginReplied(hasDialer, steps, t, call, ok) && (reply == Success <==> ok)
         && !ClosesOn(call, ok, reply)
       case Close(_) =>
         && steps[|steps| - 1] == Close(t) && ClosesOn(call, call.Stop?, reply)
         && PluginReplied(hasDialer, steps[..|steps| - 1], t, call, call.Stop?)
       case _ => false
  }

  /** The steps by which thread t, running this call, can have come to its position. */
  predicate Progress(hasDialer: bool, steps: seq<Action>, t: ThreadId, call: Call, pc: Pc) {
    match pc
    case AtReopen(running) =>
      running == call && call.Configure? && call.hostServiceId != 0 && steps == [Begin(t, call)]
    case AtCheck(running) =>
      running == call && DialsFor(hasDialer, call) && steps == [Begin(t, call), Reopen(t)]
    case AtDial(running) =>
      running == call && DialsFor(hasDialer, call) && steps == [Begin(t, call), Reopen(t), Check(t)]
    case AtCommit(running, _) =>
      running == call && DialsFor(hasDialer, call) && steps == [Begin(t, call), Reopen(t), Check(t), DialOk(t)]
    case AtSnapshot(running) => running == call && ReachedSnapshot(hasDialer, steps, t, call)
    case AtPlugin(running, _) => running == call && ReachedPlugin(hasDialer, steps, t, call)
    case AtClose(reply) =>
      ClosesOn(call, call.Stop?, reply) && PluginReplied(hasDialer, steps, t, call, call.Stop?)
    case Done(reply) => Finished(hasDialer, steps, t, call, reply)
  }

  lemma ProgressStep(s: State, steps: seq<Action>, a: Action, call: Call)
    requires Enabled(s, a) && a.t in s.threads && Progress(s.hasDialer, steps, a.t, call, s.threads[a.t])
    ensures Progress(s.hasDialer, steps + [a], a.t, call, Next(s, a).threads[a.t])
  {
    assert (steps + [a])[..|steps|] == steps;
  }

  /** The thread's position tells these steps, or it has not begun and taken none. */
  predicate Tells(s: State, steps: seq<Action>, t: ThreadId) {
    if t in s.threads then
      && |steps| > 0 && steps[0].Begin?
      && Progress(s.hasDialer, steps, t, steps[0].call, s.threads[t])
    else steps == []
  }

  lemma TellsStep(s: State, steps: seq<Action>, a: Action, t: ThreadId)
    requires Tells(s, steps, t) && Enabled(s, a)
    ensures Tells(Next(s, a), if a.t == t then steps + [a] else steps, t)
  {
    if a.t == t && t in s.threads {
      ProgressStep(s, steps, a, steps[0].call);
    }
  }

  /** A thread's position tells every step it has taken, in order; one that has not begun has taken none. */
  lemma {:induction false} ThreadProgress(hasDialer: bool, acts: seq<Action>, t: ThreadId)
    requires Run(Init(hasDialer), acts)
    ensures After(Init(hasDialer), acts).hasDialer == hasDialer
    ensures Tells(After(Init(hasDialer), acts), Steps(acts, t), t)
  {
    if acts != [] {
      var before, a := acts[..|acts| - 1], acts[|acts| - 1];
      ThreadProgress(hasDialer, before, t);
      TellsStep(After(Init(hasDialer), before), Steps(before, t), a, t);
      assert a.t != t ==> Steps(before, t) + [] == Steps(before, t);
    }
  }

  lemma {:induction false} OwnSteps(acts: seq<Action>, a: Action)
    ensures a in Steps(acts, a.t) <==> a in acts
  {
    if acts != [] {
      OwnSteps(acts[..|acts| - 1], a);
      assert acts == acts[..|acts| - 1] + [acts[|acts| - 1]];
    }
  }

  /** Before a call closes the slot or fails to dial, it has only begun once. */
  ghost predicate OnlyBegun(steps: seq<Action>, t: ThreadId, call: Call) {
    forall a :: a in steps ==> (a.Begin? ==> a == Begin(t, call)) && !a.Close? && !a.DialFail?
  }

  lemma RepliedOnlyBegun(hasDialer: bool, steps: seq<Action>, t: ThreadId, call: Call, ok: bool)
    requires PluginReplied(hasDialer, steps, t, call, ok)
    ensures OnlyBegun(steps, t, call)
  {
    var asked := steps[..|steps| - 1];
    if !call.Stop? {
      var ready := asked[..|asked| - 1];
      assert OnlyBegun(ready, t, call);
      assert asked == ready + [Snapshot(t)];
    }
    assert OnlyBegun(asked, t, call);
    assert steps == asked + [PluginReturn(t, ok)];
  }

  lemma FinishedMeans(hasDialer: bool, steps: seq<Action>, t: ThreadId, call: Call, reply: Reply)
    requires Finished(hasDialer, steps, t, call, reply)
    ensures forall other :: Begin(t, other) in steps ==> other == call
    ensures call.Stop? ==> (reply == Success <==> Close(t) in steps)
    ensures call.Configure? ==> (reply == Failure <==> DialFail(t) in steps || Close(t) in steps)
  {
    var n := |steps| - 1;
    match steps[n]
    case DialFail(_) =>
    case PluginReturn(_, ok) =>
      RepliedOnlyBegun(hasDialer, steps, t, call, ok);
    case Close(_) =>
      RepliedOnlyBegun(hasDialer, steps[..n], t, call, call.Stop?);
      assert steps == steps[..n] + [Close(t)];
  }

  /**
   * A stop that replied success has closed the slot, and one that the plugin refused has not. A
   * configure failed exactly when its dial failed or it closed the slot after a plugin error.
   */
  lemma ReplyMeans(hasDialer: bool, acts: seq<Action>, t: ThreadId, call: Call, reply: Reply)
    requires Run(Init(hasDialer), acts) && Begin(t, call) in acts
    requires var s := After(Init(hasDialer), acts); t in s.threads && s.threads[t] == Done(reply)
    ensures call.Stop? ==> (reply == Success <==> Close(t) in acts)
    ensures call.Configure? ==> (reply == Failure <==> DialFail(t) in acts || Close(t) in acts)
  {
    var steps := Steps(acts, t);
    ThreadProgress(hasDialer, acts, t);
    OwnSteps(acts, Begin(t, call));
    OwnSteps(acts, Close(t));
    OwnSteps(acts, DialFail(t));
    FinishedMeans(hasDialer, steps, t, steps[0].call, reply);
  }

  /** Once a stop has replied success, nothing is installed until a reopen step after its close step. */
  lemma SuccessfulStopEmpties(hasDialer: bool, acts: seq<Action>, t: ThreadId)
    requires Run(Init(hasDialer), acts) && Begin(t, Stop) in acts
    requires var s := After(Init(hasDialer), acts); t in s.threads && s.threads[t] == Done(Success)
    requires forall i, j :: 0 <= i < j < |acts| && acts[i] == Close(t) ==> !acts[j].Reopen?
    ensures var s := After(Init(hasDialer), acts).shared;
            s.closed && s.conn.None? && s.hostClient.None?
  {
    ReplyMeans(hasDialer, acts, t, Stop, Success);
    var i :| 0 <= i < |acts| && acts[i] == Close(t);
    StopDominates(hasDialer, acts, i);
  }

  // ---- Refinement of the atomic slot ----

  /** What an observer of the slot sees of one step; all other steps are silent. */
  function Emitted(s: State, a: Action): seq<Event>
    requires Enabled(s, a)
  {
    match a
    case Check(_) => [Observe(s.shared.conn)]
    case Snapshot(_) => [Observe(s.shared.conn)]
    case Commit(t) => if Installs(s.shared) then [Connect(s.threads[t].conn)] else []
    case Close(_) => [Disconnect]
    case Begin(_, _) => []
    case Reopen(_) => []
    case DialFail(_) => []
    case DialOk(_) => []
    case PluginReturn(_, _) => []
  }

  function Trace(s: State, acts: seq<Action>): seq<Event>
    requires Run(s, acts)
  {
    if acts == [] then []
    else
      var before := acts[..|acts| - 1];
      Trace(s, before) + Emitted(After(s, before), acts[|acts| - 1])
  }

  lemma AppendEvents(h: seq<Event>, e: Event)
    ensures Atomic(h + [e]) <==>
            Atomic(h) && (e.Connect? ==> Content(h) == None) && (e.Observe? ==> e.seen == Content(h))
    ensures Content(h + [e]) == if e.Connect? then Some(e.c) else if e.Disconnect? then None else Content(h)
  {
    assert (h + [e])[..|h|] == h;
  }

  lemma StepRefines(s: State, a: Action, h: seq<Event>)
    requires Enabled(s, a) && Coherent(s.shared) && Atomic(h) && Content(h) == s.shared.conn
    ensures Atomic(h + Emitted(s, a)) && Content(h + Emitted(s, a)) == SharedAfter(s, a).conn
  {
    var es := Emitted(s, a);
    if es == [] {
      assert h + es == h;
    } else {
      AppendEvents(h, es[0]);
      assert es == [es[0]];
    }
  }

  /**
   * Every run is, to its observers, a history of the atomic slot: the slot's content is the
   * installed connection, winning commits are its Connects, and losing ones are invisible.
   */
  lemma {:induction false} RunsRefineAtomicSlot(hasDialer: bool, acts: seq<Action>)
    requires Run(Init(hasDialer), acts)
    ensures var s := After(Init(hasDialer), acts).shared;
            Atomic(Trace(Init(hasDialer), acts)) && Content(Trace(Init(hasDialer), acts)) == s.conn
  {
    if acts != [] {
      var before := acts[..|acts| - 1];
      RunsRefineAtomicSlot(hasDialer, before);
      RunsKeepInv(hasDialer, before);
      StepRefines(After(Init(hasDialer), before), acts[|acts| - 1], Trace(Init(hasDialer), before));
    }
  }

  /** In the trace, all successful observations between two consecutive disconnects agree. */
  lemma ObserversAgree(hasDialer: bool, acts: seq<Action>, i: nat, j: nat, c: ConnId, d: ConnId)
    requires Run(Init(hasDialer), acts)
    requires var h := Trace(Init(hasDialer), acts);
             && i <= j < |h| && QuietBetween(h, i, j)
             && h[i] == Observe(Some(c)) && h[j] == Observe(Some(d))
    ensures c == d
  {
    RunsRefineAtomicSlot(hasDialer, acts);
    ReadersAgree(Trace(Init(hasDialer), acts), i, j, c, d);
  }

  /** The client that the snapshot at position i of a run gave its thread. */
  function ClientTaken(s: State, acts: seq<Action>, i: nat): Option<HostClient>
    requires Run(s, acts) && i < |acts| && acts[i].Snapshot?
  {
    if i == |acts| - 1 then After(s, acts).threads[acts[i].t].client
    else ClientTaken(s, acts[..|acts| - 1], i)
  }

  lemma {:induction false} ClientPersists(s: State, acts: seq<Action>, i: nat)
    requires Run(s, acts) && i < |acts| && acts[i].Snapshot? && ClientTaken(s, acts, i).Some?
    requires forall k :: i <= k < |acts| ==> !acts[k].Close?
    ensures After(s, acts).shared.hostClient == ClientTaken(s, acts, i)
  {
    if i < |acts| - 1 {
      ClientPersists(s, acts[..|acts| - 1], i);
    }
  }

  /** Any two snapshots with no close between them that return a client return the same one. */
  lemma {:induction false} SnapshotsAgree(s: State, acts: seq<Action>, i: nat, j: nat)
    requires Run(s, acts) && i <= j < |acts| && acts[i].Snapshot? && acts[j].Snapshot?
    requires forall k :: i <= k < j ==> !acts[k].Close?
    ensures var c, d := ClientTaken(s, acts, i), ClientTaken(s, acts, j);
            c.Some? ==> d == c
  {
    var before := acts[..|acts| - 1];
    if j < |acts| - 1 {
      SnapshotsAgree(s, before, i, j);
    } else if i < j && ClientTaken(s, acts, i).Some? {
      ClientPersists(s, before, i);
    }
  }

  /** What a thread passes to the plugin is the content of the slot at its snapshot. */
  lemma SnapshotReadsSlot(hasDialer: bool, acts: seq<Action>, t: ThreadId)
    requires Run(Init(hasDialer), acts) && Enabled(After(Init(hasDialer), acts), Snapshot(t))
    ensures var s' := Next(After(Init(hasDialer), acts), Snapshot(t));
            var content := Content(Trace(Init(hasDialer), acts));
            && s'.threads[t].client == (if content.Some? then Some(HostClient(content.value)) else None)
            && Trace(Init(hasDialer), acts + [Snapshot(t)]) == Trace(Init(hasDialer), acts) + [Observe(content)]
  {
    RunsRefineAtomicSlot(hasDialer, acts);
    RunsKeepInv(hasDialer, acts);
    assert (acts + [Snapshot(t)])[..|acts|] == acts;
  }

  /** A check step goes on to dial exactly when the slot is empty at that step, stopped or not. */
  lemma CheckDialsIff(hasDialer: bool, acts: seq<Action>, t: ThreadId)
    requires Run(Init(hasDialer), acts) && Enabled(After(Init(hasDialer), acts), Check(t))
    ensures var s' := Next(After(Init(hasDialer), acts), Check(t));
            if Content(Trace(Init(hasDialer), acts)).None? then s'.threads[t].AtDial? else s'.threads[t].AtSnapshot?
  {
    RunsRefineAtomicSlot(hasDialer, acts);
    RunsKeepInv(hasDialer, acts);
  }

  /**
   * Exactly when a commit installs its connection: no close step is still in force, and every
   * earlier installation has been disconnected. When the thread started to dial is irrelevant.
   */
  lemma CommitInstallsIff(hasDialer: bool, acts: seq<Action>, t: ThreadId)
    requires Run(Init(hasDialer), acts) && Enabled(After(Init(hasDialer), acts), Commit(t))
    ensures var s := After(Init(hasDialer), acts);
            var h := Trace(Init(hasDialer), acts);
            Next(s, Commit(t)).shared.conn == Some(s.threads[t].conn) <==>
            && (forall i :: 0 <= i < |acts| ==> !StaysStopped(acts, i))
            && (forall i :: 0 <= i < |h| && h[i].Connect? ==> !QuietBetween(h, i, |h|))
  {
    var s := After(Init(hasDialer), acts);
    ClosedIff(hasDialer, acts);
    RunsRefineAtomicSlot(hasDialer, acts);
    FullIff(Trace(Init(hasDialer), acts));
    RunsKeepInv(hasDialer, acts);
    assert Holds(s, t, s.threads[t].conn);
  }

  /** The states that the actions pass through. */
  predicate Witness(s: State, acts: seq<Action>, states: seq<State>) {
    && |states| == |acts| + 1 && states[0] == s
    && forall i :: 0 <= i < |acts| ==> Enabled(states[i], acts[i]) && states[i + 1] == Next(states[i], acts[i])
  }

  lemma {:induction false} WitnessRuns(s: State, acts: seq<Action>, states: seq<State>)
    requires Witness(s, acts, states)
    ensures Run(s, acts) && After(s, acts) == states[|acts|]
  {
    if acts != [] {
      WitnessRuns(s, acts[..|acts| - 1], states[..|acts|]);
    }
  }

  lemma RunSnoc(s: State, acts: seq<Action>, a: Action)
    requires Run(s, acts) && Enabled(After(s, acts), a)
    ensures Run(s, acts + [a]) && After(s, acts + [a]) == Next(After(s, acts), a)
  {
    assert (acts + [a])[..|acts|] == acts;
  }

  lemma {:induction false} RunAppend(s: State, as1: seq<Action>, as2: seq<Action>)
    requires Run(s, as1) && Run(After(s, as1), as2)
    ensures Run(s, as1 + as2) && After(s, as1 + as2) == After(After(s, as1), as2)
    decreases |as2|
  {
    if as2 == [] {
      assert as1 + as2 == as1;
    } else {
      var mid, before, a := After(s, as1), as2[..|as2| - 1], as2[|as2| - 1];
      assert Run(mid, before) && Enabled(After(mid, before), a);
      RunAppend(s, as1, before);
      RunSnoc(s, as1 + before, a);
      AppendSnoc(as1, as2);
    }
  }

  // ---- A run that installs a stale connection ----

  const CONFIGURING := Configure(7)
  const FIRST_DIALS: seq<Action> := [Begin(0, CONFIGURING), Reopen(0), Check(0), DialOk(0)]
  const SECOND_STOPS: seq<Action> := [Begin(1, Stop), PluginReturn(1, true), Close(1)]
  const THIRD_REOPENS: seq<Action> := [Begin(2, CONFIGURING), Reopen(2), Commit(0)]

  const DIALED := State(map[0 := AtCommit(CONFIGURING, 0)], FRESH.(dialed := 1), true)
  const STOPPED := State(map[0 := AtCommit(CONFIGURING, 0), 1 := Done(Success)], Closed(DIALED.shared), true)

  lemma FirstDials()
    ensures Run(Init(true), FIRST_DIALS) && After(Init(true), FIRST_DIALS) == DIALED
  {
    var s0 := Init(true);
    var s1 := s0.(threads := map[0 := AtReopen(CONFIGURING)]);
    var s2 := s0.(threads := map[0 := AtCheck(CONFIGURING)]);
    var s3 := s0.(threads := map[0 := AtDial(CONFIGURING)]);
    WitnessRuns(s0, FIRST_DIALS, [s0, s1, s2, s3, DIALED]);
  }

  lemma SecondStops()
    ensures Run(DIALED, SECOND_STOPS) && After(DIALED, SECOND_STOPS) == STOPPED
  {
    var s1 := DIALED.(threads := map[0 := AtCommit(CONFIGURING, 0), 1 := AtPlugin(Stop, None)]);
    var s2 := DIALED.(threads := map[0 := AtCommit(CONFIGURING, 0), 1 := AtClose(Success)]);
    WitnessRuns(DIALED, SECOND_STOPS, [DIALED, s1, s2, STOPPED]);
  }

  lemma ThirdReopens()
    ensures Run(STOPPED, THIRD_REOPENS) && After(STOPPED, THIRD_REOPENS).shared.conn == Some(0)
  {
    var s1 := Next(STOPPED, THIRD_REOPENS[0]);
    var s2 := Next(s1, THIRD_REOPENS[1]);
    WitnessRuns(STOPPED, THIRD_REOPENS, [STOPPED, s1, s2, Next(s2, THIRD_REOPENS[2])]);
  }

  /** A dial begun before a stop can still install, once a later configure has reopened the slot. */
  lemma StaleDialCanInstall()
    ensures var acts := FIRST_DIALS + SECOND_STOPS + THIRD_REOPENS;
            && Run(Init(true), acts) && After(Init(true), acts).shared.conn == Some(0)
            && acts[3] == DialOk(0) && acts[6] == Close(1) && acts[9] == Commit(0)
  {
    FirstDials();
    SecondStops();
    ThirdReopens();
    RunAppend(Init(true), FIRST_DIALS, SECOND_STOPS);
    RunAppend(Init(true), FIRST_DIALS + SECOND_STOPS, THIRD_REOPENS);
  }
}
