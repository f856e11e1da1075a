/**
 * Whole runs of configures and executions against plugins that write to everything they may
 * reach: the bytes and the maps of every execution and of every configuration.
 */
module SettingsRuns {
  import opened Prelude
  import opened Settings

  datatype Op =
    /** The settings are recorded whether or not the dial and the plugin succeed. */
    | Configure(provider: string, request: Texts, dialOk: bool, pluginOk: bool)
    | Execute(provider: string, request: Texts)
    /** Overwrites one byte reachable from the n-th map given to an execution. */
    | WriteByte(n: nat, key: string, i: nat, b: Byte)
    /** Puts a new value into that map, or deletes the key. */
    | EditGiven(n: nat, key: string, value: Option<Bytes>)
    /** The same on the map of the n-th configuration. */
    | EditConfig(n: nat, key: string, value: Option<Bytes>)
    /**
     * Overwrites one byte of the slice that the n-th configuration came with under that key. A
     * plugin can keep the slice whatever happens to the map.
     */
    | WriteConfigByte(n: nat, key: string, i: nat, b: Byte)

  /** The recorded contents of one configure, and whether the plugin was called with them. */
  datatype Configuration = Configuration(texts: Texts, handed: bool)

  /** Every configuration so far, and which of them is the latest of each provider. */
  datatype Ledger = Ledger(all: seq<Configuration>, latest: map<string, nat>)

  function Written(t: Texts, key: string, i: nat, b: Byte): Texts {
    if key in t && i < |t[key]| then t[key := t[key][i := b]] else t
  }

  /** Of all that plugins write, only bytes that came with a configuration reach the record. */
  function Step(l: Ledger, op: Op): Ledger {
    match op
    case Configure(p, request, dialOk, _) =>
      Ledger(l.all + [Configuration(request, dialOk)], l.latest[p := |l.all|])
    case WriteConfigByte(n, key, i, b) =>
      if n < |l.all| && l.all[n].handed
      then l.(all := l.all[n := Configuration(Written(l.all[n].texts, key, i, b), true)])
      else l
    case _ => l
  }

  function Recorded(ops: seq<Op>): Ledger {
    if ops == [] then Ledger([], map[])
    else Step(Recorded(ops[..|ops| - 1]), ops[|ops| - 1])
  }

  /** The configure-time settings of a provider. */
  function BaseIn(l: Ledger, p: string): Texts {
    if p in l.latest && l.latest[p] < |l.all| then l.all[l.latest[p]].texts else map[]
  }

  /** What the executions of a run must see, one entry each; None is an unchanged context. */
  function Views(ops: seq<Op>): seq<Option<Texts>> {
    if ops == [] then []
    else
      var before := ops[..|ops| - 1];
      var op := ops[|ops| - 1];
      Views(before) +
      if op.Execute? then [Effective(BaseIn(Recorded(before), op.provider), op.request)] else []
  }

  // ---- What the record says, in terms of the history ----

  function ConfigureCount(ops: seq<Op>): nat {
    if ops == [] then 0
    else ConfigureCount(ops[..|ops| - 1]) + if ops[|ops| - 1].Configure? then 1 else 0
  }

  /** The contents t of the n-th configuration after the operations from position i on. */
  function Rewritten(t: Texts, n: nat, ops: seq<Op>, i: nat): Texts {
    if |ops| <= i then t
    else
      var op := ops[|ops| - 1];
      var before := Rewritten(t, n, ops[..|ops| - 1], i);
      if op.WriteConfigByte? && op.n == n then Written(before, op.key, op.i, op.b) else before
  }

  predicate Configures(op: Op, p: string) {
    op.Configure? && op.provider == p
  }

  /** The latest configure of p is the one at position i. */
  predicate IsLatest(ops: seq<Op>, p: string, i: nat) {
    && i < |ops| && Configures(ops[i], p)
    && forall j :: i < j < |ops| ==> !Configures(ops[j], p)
  }

  lemma {:induction false} RecordedCount(ops: seq<Op>)
    ensures |Recorded(ops).all| == ConfigureCount(ops)
  {
    if ops != [] {
      RecordedCount(ops[..|ops| - 1]);
    }
  }

  lemma {:induction false} LatestIs(ops: seq<Op>, p: string, i: nat)
    requires IsLatest(ops, p, i)
    ensures var l, n := Recorded(ops), ConfigureCount(ops[..i]);
            && n < |l.all| && p in l.latest && l.latest[p] == n
            && l.all[n].handed == ops[i].dialOk
            && l.all[n].texts ==
               if ops[i].dialOk then Rewritten(ops[i].request, n, ops, i + 1) else ops[i].request
  {
    var before := ops[..|ops| - 1];
    if i < |before| {
      LatestIs(before, p, i);
      assert before[..i] == ops[..i];
    } else {
      RecordedCount(before);
    }
  }

  /**
   * The latest configure of a provider decides its settings, with the bytes that the plugin wrote
   * since into the slices it was handed; without a configure there are no settings.
   */
  lemma {:induction false} LastConfigureIs(ops: seq<Op>, p: string)
    ensures forall i :: 0 <= i < |ops| && IsLatest(ops, p, i) ==>
              BaseIn(Recorded(ops), p) ==
              if ops[i].dialOk then Rewritten(ops[i].request, ConfigureCount(ops[..i]), ops, i + 1)
              else ops[i].request
    ensures (forall i :: 0 <= i < |ops| ==> !Configures(ops[i], p)) ==> BaseIn(Recorded(ops), p) == map[]
  {
    forall i | 0 <= i < |ops| && IsLatest(ops, p, i)
      ensures BaseIn(Recorded(ops), p) ==
              if ops[i].dialOk then Rewritten(ops[i].request, ConfigureCount(ops[..i]), ops, i + 1)
              else ops[i].request
    {
      LatestIs(ops, p, i);
    }
    if forall i :: 0 <= i < |ops| ==> !Configures(ops[i], p) {
      NeverConfigured(ops, p);
    }
  }

  lemma {:induction false} NeverConfigured(ops: seq<Op>, p: string)
    requires forall i :: 0 <= i < |ops| ==> !Configures(ops[i], p)
    ensures p !in Recorded(ops).latest
  {
    if ops != [] {
      NeverConfigured(ops[..|ops| - 1], p);
    }
  }

  // ---- Which plugin writes an execution can see ----

  /** The run without the writes to maps and to the settings of executions. */
  function WithoutEdits(ops: seq<Op>): seq<Op> {
    if ops == [] then []
    else
      var op := ops[|ops| - 1];
      WithoutEdits(ops[..|ops| - 1]) +
      if op.Configure? || op.Execute? || op.WriteConfigByte? then [op] else []
  }

  lemma {:induction false} EditsAreInvisible(ops: seq<Op>)
    ensures Views(ops) == Views(WithoutEdits(ops))
    ensures Recorded(ops) == Recorded(WithoutEdits(ops))
  {
    if ops != [] {
      var before := ops[..|ops| - 1];
      var op := ops[|ops| - 1];
      EditsAreInvisible(before);
      if op.Configure? || op.Execute? || op.WriteConfigByte? {
        assert WithoutEdits(ops)[..|WithoutEdits(ops)| - 1] == WithoutEdits(before);
      } else {
        assert WithoutEdits(ops) == WithoutEdits(before);
      }
    }
  }

  /** The write changes a byte of the provider's current base under a key that the execution does not set. */
  predicate ShowsIn(l: Ledger, write: Op, p: string, request: Texts) {
    && write.WriteConfigByte? && write.n < |l.all| && l.all[write.n].handed
    && p in l.latest && l.latest[p] == write.n
    && write.key !in request && write.key in l.all[write.n].texts
    && var bytes := l.all[write.n].texts[write.key];
       write.i < |bytes| && bytes[write.i] != write.b
  }

  /** Exactly which plugin writes change what the next execution sees, after any history. */
  lemma WriteShowsIff(ops: seq<Op>, write: Op, p: string, request: Texts)
    requires !write.Configure? && !write.Execute?
    ensures Views(ops + [write] + [Execute(p, request)]) != Views(ops + [Execute(p, request)]) <==>
            ShowsIn(Recorded(ops), write, p, request)
  {
    var e := Execute(p, request);
    var l := Recorded(ops);
    assert (ops + [write] + [e])[..|ops| + 1] == ops + [write] && (ops + [write])[..|ops|] == ops;
    assert (ops + [e])[..|ops|] == ops;
    var base, base' := BaseIn(l, p), BaseIn(Step(l, write), p);
    assert Views(ops + [write]) == Views(ops);
    assert Views(ops + [write] + [e]) == Views(ops) + [Effective(base', request)];
    assert Views(ops + [e]) == Views(ops) + [Effective(base, request)];
    assert Views(ops + [e])[|Views(ops)|] == Effective(base, request);
    assert Views(ops + [write] + [e])[|Views(ops)|] == Effective(base', request);
    if write.WriteConfigByte? {
      EffectiveWritten(base, request, write.key, write.i, write.b);
    }
  }

  lemma EffectiveWritten(base: Texts, request: Texts, key: string, i: nat, b: Byte)
    ensures Effective(Written(base, key, i, b), request) != Effective(base, request) <==>
            key !in request && key in base && i < |base[key]| && base[key][i] != b
  {
    var after := Written(base, key, i, b);
    if key in base && i < |base[key]| {
      if key !in request && base[key][i] != b {
        assert (after + request)[key][i] != (base + request)[key][i];
      } else {
        assert base[key][i := b] == base[key] || key in request;
        assert forall k :: k in base + request ==> (after + request)[k] == (base + request)[k];
        assert after + request == base + request;
      }
    }
  }

  /** A plugin changes a byte of its configuration, and the next execution sees the change. */
  lemma ConfigureBytesLeak()
    ensures var configure := Configure("p", map["k" := [1]], true, true);
            var execute := Execute("p", map[]);
            && Views([configure, execute]) == [Some(map["k" := [1]])]
            && Views([configure, WriteConfigByte(0, "k", 0, 2), execute]) == [Some(map["k" := [2]])]
  {
    var configure := Configure("p", map["k" := [1]], true, true);
    var write := WriteConfigByte(0, "k", 0, 2);
    var execute := Execute("p", map[]);
    assert [configure, execute][..1] == [configure] && [configure, write, execute][..2] == [configure, write];
    assert [configure, write][..1] == [configure] && [configure][..0] == [];
    assert [1][0 := 2] == [2 as Byte];
    assert Written(map["k" := [1]], "k", 0, 2) == map["k" := [2]];
    assert Recorded([configure]) == Ledger([Configuration(map["k" := [1]], true)], map["p" := 0]);
    assert Recorded([configure, write]) == Ledger([Configuration(map["k" := [2]], true)], map["p" := 0]);
    assert Views([configure]) == [];
    assert Views([configure, write]) == Views([configure]) + [];
    assert map["k" := [1 as Byte]] + map[] == map["k" := [1]] && map["k" := [2 as Byte]] + map[] == map["k" := [2]];
  }

  /** Allocates the byte slices of a decoded request. */
  method NewSlices(request: Texts) returns (m: map<string, RawMessage>)
    ensures TextsOf(m) == request
    ensures fresh(m.Values) && OneKeyEach(m)
  {
    m := map[];
    var pending := request.Keys;
    while pending != {}
      invariant pending <= request.Keys
      invariant m.Keys == request.Keys - pending
      invariant forall k :: k in m ==> fresh(m[k]) && m[k][..] == request[k]
      invariant OneKeyEach(m)
      decreases pending
    {
      var k :| k in pending;
      var bytes := request[k];
      var a := new Byte[|bytes|](i requires 0 <= i < |bytes| => bytes[i]);
      assert a[..] == bytes;
      m := m[k := a];
      pending := pending - {k};
    }
  }

  /** Reads the contents of a map of slices. */
  method ReadTexts(m: map<string, RawMessage>) returns (t: Texts)
    ensures t == TextsOf(m)
  {
    t := map[];
    var pending := m.Keys;
    while pending != {}
      invariant pending <= m.Keys
      invariant t.Keys == m.Keys - pending
      invariant forall k :: k in t ==> t[k] == m[k][..]
      decreases pending
    {
      var k :| k in pending;
      t := t[k := m[k][..]];
      pending := pending - {k};
    }
  }

  /** Every key whose value is the array a is also set by the execution. */
  ghost predicate HoldersOverridden(m: map<string, RawMessage>, a: RawMessage, execute: Texts) {
    forall k :: k in m && m[k] == a ==> k in execute
  }

  /**
   * The configure-time arrays themselves are shared with the plugin. Writing one of them leaves an
   * execution's settings alone exactly when the byte keeps its value or the execution overrides
   * every key that the array is stored under.
   */
  method WriteConfigured(server: ProviderServer, p: string, a: RawMessage, i: nat, b: Byte, ghost execute: Texts)
    requires p in server.configureSettings && a in server.configureSettings[p].entries.Values && i < a.Length
    modifies a
    ensures Effective(server.Base(p), execute) == old(Effective(server.Base(p), execute)) <==>
            || b == old(a[i])
            || HoldersOverridden(server.configureSettings[p].entries, a, execute)
  {
    ghost var m := server.configureSettings[p].entries;
    ghost var before := server.Base(p);
    a[i] := b;
    ghost var after := server.Base(p);
    assert after.Keys == before.Keys == m.Keys && before != map[] && after != map[] by {
      assert exists k :: k in m && m[k] == a;
    }
    assert forall k :: k in m ==> after[k] == (if m[k] == a then before[k][i := b] else before[k]);
    if exists k :: k in m && m[k] == a && k !in execute {
      ghost var k :| k in m && m[k] == a && k !in execute;
      assert (after + execute)[k][i] == b && (before + execute)[k][i] == old(a[i]);
    } else {
      assert after + execute == before + execute;
    }
    if b == old(a[i]) {
      assert after == before;
    }
  }

  /** The settings that an execution without settings of its own sees. */
  method ExecutePlain(server: ProviderServer, p: string) returns (seen: Option<Texts>)
    ensures seen == Effective(server.Base(p), map[])
  {
    EmptyTexts(map[]);
    var r := server.WithSettings(Context(None, map[]), p, map[]);
    seen := None;
    if r.settings.Some? {
      var texts := ReadTexts(r.settings.value.entries);
      seen := Some(texts);
    }
  }

  /** A configure, a write through the plugin's own settings map, and an execution, on the heap. */
  method LeakOneByte() returns (seen: Option<Texts>)
    ensures seen == Some(map["k" := [2]])
  {
    var server := new ProviderServer();
    var a := new Byte[1](_ => 1);
    var handed, reply := server.ConfigureProvider("p", map["k" := a], true, true);
    handed.value.entries["k"][0] := 2;
    TextsAre(map["k" := a], map["k" := [2]]);
    seen := ExecutePlain(server, "p");
    assert map["k" := [2 as Byte]] + map[] == map["k" := [2]];
  }

  // ---- Histories on the heap ----

  /** An array belongs to one key of one configuration. */
  ghost predicate Apart(slices: seq<map<string, RawMessage>>) {
    && (forall n :: 0 <= n < |slices| ==> OneKeyEach(slices[n]))
    && (forall n, m :: 0 <= n < m < |slices| ==> slices[n].Values !! slices[m].Values)
  }

  /** The configurations' arrays lie in stored and have the recorded contents. */
  ghost predicate Holds(slices: seq<map<string, RawMessage>>, all: seq<Configuration>, stored: set<object>)
    reads stored
  {
    && |slices| == |all|
    && forall n :: 0 <= n < |slices| ==>
         slices[n].Values <= stored && TextsOf(slices[n]) == all[n].texts
  }

  /** The server stores the latest configuration of each provider, in maps of its own. */
  ghost predicate Serves(server: ProviderServer, slices: seq<map<string, RawMessage>>, latest: map<string, nat>,
                         stored: set<object>)
    reads server, stored
  {
    && server.configureSettings.Keys == latest.Keys
    && forall p :: p in latest ==>
         && latest[p] < |slices| && server.configureSettings[p] in stored
         && server.configureSettings[p].entries == slices[latest[p]]
  }

  lemma BaseIs(server: ProviderServer, slices: seq<map<string, RawMessage>>, l: Ledger, stored: set<object>, p: string)
    requires Holds(slices, l.all, stored) && Serves(server, slices, l.latest, stored)
    ensures server.Base(p) == BaseIn(l, p)
  {
  }

  lemma HoldsMore(slices: seq<map<string, RawMessage>>, all: seq<Configuration>, stored: set<object>,
                  arrays: map<string, RawMessage>, next: Configuration, kept: set<object>)
    requires Holds(slices, all, stored) && stored + arrays.Values <= kept && TextsOf(arrays) == next.texts
    ensures Holds(slices + [arrays], all + [next], kept)
  {
  }

  lemma ApartMore(slices: seq<map<string, RawMessage>>, all: seq<Configuration>, stored: set<object>,
                  arrays: map<string, RawMessage>)
    requires Apart(slices) && Holds(slices, all, stored) && OneKeyEach(arrays) && arrays.Values !! stored
    ensures Apart(slices + [arrays])
  {
  }

  /** ConfigureProvider, with the new configuration's arrays appended to the ones that came before. */
  method Store(server: ProviderServer, p: string, arrays: map<string, RawMessage>, dialOk: bool, pluginOk: bool,
               ghost slices: seq<map<string, RawMessage>>, ghost l: Ledger, ghost stored: set<object>)
    returns (handed: Option<SettingsMap>, ghost kept: set<object>)
    requires server !in stored && Holds(slices, l.all, stored) && Serves(server, slices, l.latest, stored)
    modifies server
    ensures var l' := Step(l, Configure(p, TextsOf(arrays), dialOk, pluginOk));
            Holds(slices + [arrays], l'.all, kept) && Serves(server, slices + [arrays], l'.latest, kept)
    ensures forall o :: o in kept ==> o in stored || o in arrays.Values || fresh(o)
    ensures server !in kept
    ensures handed.Some? <==> dialOk
    ensures handed.Some? ==> fresh(handed.value) && handed.value !in kept
  {
    var reply;
    handed, reply := server.ConfigureProvider(p, arrays, dialOk, pluginOk);
    kept := stored + {server.configureSettings[p]} + arrays.Values;
    HoldsMore(slices, l.all, stored, arrays, Configuration(TextsOf(arrays), dialOk), kept);
  }

  /** One byte of one configuration's array changes, and nothing else does. */
  method Overwrite(slices: seq<map<string, RawMessage>>, ghost all: seq<Configuration>, ghost stored: set<object>,
                   n: nat, key: string, i: nat, b: Byte)
    requires Holds(slices, all, stored) && Apart(slices) && n < |slices|
    modifies set a: RawMessage | a in slices[n].Values && key in slices[n] && a == slices[n][key]
    ensures Holds(slices, all[n := Configuration(Written(all[n].texts, key, i, b), all[n].handed)], stored)
  {
    ghost var t := Written(all[n].texts, key, i, b);
    assert slices[n].Keys == all[n].texts.Keys by {
      assert TextsOf(slices[n]).Keys == slices[n].Keys;
    }
    if key in slices[n] && i < slices[n][key].Length {
      slices[n][key][i] := b;
    }
    TextsAre(slices[n], t);
    forall m | 0 <= m < |slices| && m != n ensures TextsOf(slices[m]) == all[m].texts {
      TextsAre(slices[m], all[m].texts);
    }
  }

  /** The server and the plugins, with everything that passed between them. */
  class Host {
    const server: ProviderServer
    /** The maps given to executions. */
    var given: seq<SettingsMap>
    /** The maps handed over by configures, where the dial did not fail. */
    var configs: seq<Option<SettingsMap>>
    /** The slices that each configure came with; a plugin that was handed them can still write to them. */
    var slices: seq<map<string, RawMessage>>
    ghost var plugins: set<object>
    ghost var stored: set<object>
    ghost var ledger: Ledger
    ghost var history: seq<Op>

    /** What is the plugins' alone is disjoint from what the server stores. */
    ghost predicate Separate()
      reads this, given
    {
      && plugins !! stored && server !in plugins && this !in plugins
      && this !in stored && server !in stored && server as object != this
      && (forall m :: m in given ==> m in plugins && m.entries.Values <= plugins)
      && (forall c: Option<SettingsMap> :: c in configs && c.Some? ==> c.value in plugins && c.value !in given)
    }

    /** The server and the slices are as recorded. */
    ghost predicate Intact()
      reads `slices, `configs, `stored, `ledger, server, stored
    {
      Matches(ledger)
    }

    ghost predicate Matches(l: Ledger)
      reads `slices, `configs, `stored, server, stored
    {
      && Holds(slices, l.all, stored) && Serves(server, slices, l.latest, stored)
      && |configs| == |slices|
      && (forall n :: 0 <= n < |configs| ==> (configs[n].Some? <==> l.all[n].handed))
    }

    ghost predicate Valid()
      reads this, server, given, stored
    {
      Separate() && Intact() && Apart(slices) && ledger == Recorded(history)
    }

    constructor ()
      ensures Valid() && history == [] && fresh(server) && fresh(plugins) && fresh(stored)
    {
      server := new ProviderServer();
      given, configs, slices, plugins, stored, history := [], [], [], {}, {}, [];
      ledger := Ledger([], map[]);
      new;
    }

    /** The record takes one more operation. */
    ghost method Note(op: Op)
      requires ledger == Recorded(history)
      modifies `ledger, `history
      ensures ledger == Step(old(ledger), op) && history == old(history) + [op] && ledger == Recorded(history)
    {
      assert (history + [op])[..|history|] == history;
      history := history + [op];
      ledger := Step(ledger, op);
    }

    /** Nothing stored changed, so the server is as recorded still. */
    twostate lemma StillIntact()
      requires old(Intact())
      requires stored == old(stored) && slices == old(slices) && configs == old(configs)
      requires ledger == old(ledger)
      requires Same({server} + stored)
      ensures Intact()
    {
      forall n | 0 <= n < |slices| ensures TextsOf(slices[n]) == ledger.all[n].texts {
        TextsFrame(slices[n]);
      }
    }

    method Configured(p: string, request: Texts, dialOk: bool, pluginOk: bool)
      requires Valid()
      modifies this, server
      ensures Valid() && history == old(history) + [Configure(p, request, dialOk, pluginOk)]
      ensures fresh(plugins - old(plugins)) && fresh(stored - old(stored))
    {
      var arrays := NewSlices(request);
      ghost var op := Configure(p, request, dialOk, pluginOk);
      ApartMore(slices, ledger.all, stored, arrays);
      Record(p, arrays, dialOk, pluginOk, Step(ledger, op));
      Note(op);
    }

    method Record(p: string, arrays: map<string, RawMessage>, dialOk: bool, pluginOk: bool, ghost l: Ledger)
      requires Separate() && Intact() && arrays.Values !! stored + plugins
      requires l == Step(ledger, Configure(p, TextsOf(arrays), dialOk, pluginOk))
      modifies `slices, `configs, `stored, `plugins, server
      ensures Separate() && Matches(l) && slices == old(slices) + [arrays]
      ensures forall o :: o in plugins ==> o in old(plugins) || fresh(o)
      ensures forall o :: o in stored ==> o in old(stored) || o in arrays.Values || fresh(o)
    {
      var handed, kept := Store(server, p, arrays, dialOk, pluginOk, slices, ledger, stored);
      Keep(arrays, handed, kept, l);
    }

    method Keep(arrays: map<string, RawMessage>, handed: Option<SettingsMap>, ghost kept: set<object>, ghost l: Ledger)
      requires Separate() && plugins !! kept && this !in kept && server !in kept
      requires handed.Some? ==>
                 && handed.value !in kept && handed.value !in given
                 && handed.value as object != this && handed.value as object != server
      requires Holds(slices + [arrays], l.all, kept) && Serves(server, slices + [arrays], l.latest, kept)
      requires |configs| == |slices|
      requires forall n :: 0 <= n < |configs| + 1 ==> ((configs + [handed])[n].Some? <==> l.all[n].handed)
      modifies `slices, `configs, `stored, `plugins
      ensures slices == old(slices) + [arrays] && stored == kept
      ensures plugins == old(plugins) + (if handed.Some? then {handed.value} else {})
      ensures Separate() && Matches(l)
    {
      slices, configs, stored := slices + [arrays], configs + [handed], kept;
      plugins := plugins + if handed.Some? then {handed.value} else {};
    }

    /** Adds a new map to what plugins may write to. */
    method Give(m: SettingsMap)
      requires Separate() && Intact() && m as object != this && m as object != server
      requires ({m} + m.entries.Values) !! stored && Some(m) !in configs
      modifies `given, `plugins
      ensures Separate() && Intact() && plugins == old(plugins) + {m} + m.entries.Values
    {
      given := given + [m];
      plugins := plugins + {m} + m.entries.Values;
    }

    /** The server's part of an execution: the settings it hands to the plugin, and their contents. */
    method Settle(p: string, arrays: map<string, RawMessage>)
      returns (settings: Option<SettingsMap>, view: Option<Texts>, ghost reach: set<object>)
      requires Intact()
      ensures view == Effective(BaseIn(ledger, p), old(TextsOf(arrays)))
      ensures settings.Some? ==> fresh(settings.value) && reach == {settings.value} + settings.value.entries.Values
      ensures forall o :: o in reach ==> fresh(o)
    {
      BaseIs(server, slices, ledger, stored, p);
      var r := server.WithSettings(Context(None, map[]), p, arrays);
      settings, view, reach := r.settings, None, {};
      if settings.Some? {
        reach := {settings.value} + settings.value.entries.Values;
        var texts := ReadTexts(settings.value.entries);
        view := Some(texts);
      }
    }

    /** Gives the plugin the request's arrays and the settings, which reach the given objects. */
    method GiveBoth(arrays: map<string, RawMessage>, settings: Option<SettingsMap>, ghost reach: set<object>)
      requires Separate() && Intact() && arrays.Values !! stored
      requires settings.Some? ==>
                 && settings.value as object != this && settings.value as object != server
                 && reach == {settings.value} + settings.value.entries.Values
                 && reach !! stored && settings !in configs
      modifies `given, `plugins
      ensures Separate() && Intact()
      ensures forall o :: o in plugins ==> o in old(plugins) || o in arrays.Values || o in reach || fresh(o)
    {
      var requestMap := new SettingsMap(arrays);
      Give(requestMap);
      if settings.Some? {
        Give(settings.value);
      }
    }

    method Handed(p: string, arrays: map<string, RawMessage>) returns (view: Option<Texts>)
      requires Separate() && Intact()
      requires arrays.Values !! stored
      modifies `given, `plugins
      ensures Separate() && Intact()
      ensures view == Effective(BaseIn(ledger, p), old(TextsOf(arrays)))
      ensures forall o :: o in plugins ==> o in old(plugins) || o in arrays.Values || fresh(o)
    {
      var settings;
      ghost var reach;
      settings, view, reach := Settle(p, arrays);
      GiveBoth(arrays, settings, reach);
    }

    method Executed(p: string, request: Texts) returns (view: Option<Texts>)
      requires Valid()
      modifies this
      ensures Valid() && history == old(history) + [Execute(p, request)]
      ensures view == Effective(BaseIn(old(ledger), p), request)
      ensures fresh(plugins - old(plugins)) && stored == old(stored)
    {
      var arrays := NewSlices(request);
      Note(Execute(p, request));
      view := Handed(p, arrays);
    }

    /** A plugin overwrites one byte of something an execution gave it. */
    method WroteByte(n: nat, key: string, i: nat, b: Byte)
      requires Valid()
      modifies this, plugins
      ensures Valid() && history == old(history) + [WriteByte(n, key, i, b)]
      ensures plugins == old(plugins) && stored == old(stored)
    {
      Note(WriteByte(n, key, i, b));
      if n < |given| && key in given[n].entries && i < given[n].entries[key].Length {
        var a := given[n].entries[key];
        assert a in given[n].entries.Values;
        a[i] := b;
      }
      StillIntact();
    }

    /** The map with one key set to a new array, or without the key. */
    method Edited(m: map<string, RawMessage>, key: string, value: Option<Bytes>) returns (r: map<string, RawMessage>)
      ensures fresh(r.Values - m.Values)
    {
      if value.None? {
        return m - {key};
      }
      var bytes := value.value;
      var a := new Byte[|bytes|](i requires 0 <= i < |bytes| => bytes[i]);
      r := m[key := a];
    }

    /** A plugin edits the settings map of an execution. */
    method EditedGiven(n: nat, key: string, value: Option<Bytes>)
      requires Valid()
      modifies this, plugins
      ensures Valid() && history == old(history) + [EditGiven(n, key, value)]
      ensures fresh(plugins - old(plugins)) && stored == old(stored)
    {
      Note(EditGiven(n, key, value));
      if n < |given| {
        var entries := Edited(given[n].entries, key, value);
        plugins := plugins + entries.Values;
        given[n].entries := entries;
      }
      StillIntact();
    }

    /** A plugin edits the settings map of its configuration. */
    method EditedConfig(n: nat, key: string, value: Option<Bytes>)
      requires Valid()
      modifies this, plugins
      ensures Valid() && history == old(history) + [EditConfig(n, key, value)]
      ensures plugins == old(plugins) && stored == old(stored)
    {
      Note(EditConfig(n, key, value));
      if n < |configs| && configs[n].Some? {
        configs[n].value.entries := Edited(configs[n].value.entries, key, value);
      }
      StillIntact();
    }

    /** A plugin overwrites one byte of a slice that came with its configuration. */
    method WroteConfigByte(n: nat, key: string, i: nat, b: Byte)
      requires Valid()
      modifies this, stored
      ensures Valid() && history == old(history) + [WriteConfigByte(n, key, i, b)]
      ensures plugins == old(plugins) && stored == old(stored)
    {
      ghost var op := WriteConfigByte(n, key, i, b);
      Scribble(n, key, i, b, Step(ledger, op));
      Note(op);
    }

    method Scribble(n: nat, key: string, i: nat, b: Byte, ghost l: Ledger)
      requires Separate() && Intact() && Apart(slices) && l == Step(ledger, WriteConfigByte(n, key, i, b))
      modifies stored
      ensures Separate() && Matches(l)
    {
      if n < |configs| && configs[n].Some? {
        assert key in slices[n] ==> slices[n][key] in slices[n].Values;
        Overwrite(slices, ledger.all, stored, n, key, i, b);
      }
    }
  }

  method Apply(host: Host, op: Op) returns (seen: seq<Option<Texts>>)
    requires host.Valid()
    modifies host, host.server, host.plugins, host.stored
    ensures host.Valid() && host.history == old(host.history) + [op]
    ensures fresh(host.plugins - old(host.plugins)) && fresh(host.stored - old(host.stored))
    ensures seen == if op.Execute? then [Effective(BaseIn(old(host.ledger), op.provider), op.request)] else []
  {
    seen := [];
    match op
    case Configure(p, request, dialOk, pluginOk) =>
      host.Configured(p, request, dialOk, pluginOk);
    case Execute(p, request) =>
      var view := host.Executed(p, request);
      seen := [view];
    case WriteByte(n, key, j, b) =>
      host.WroteByte(n, key, j, b);
    case EditGiven(n, key, value) =>
      host.EditedGiven(n, key, value);
    case EditConfig(n, key, value) =>
      host.EditedConfig(n, key, value);
    case WriteConfigByte(n, key, j, b) =>
      host.WroteConfigByte(n, key, j, b);
  }

  /**
   * Runs a whole history on a new server. Each execution sees its provider's latest configuration
   * as recorded, overridden key by key, and the same as if plugins had edited no map and written
   * to nothing that an execution gave them.
   */
  method Run(ops: seq<Op>) returns (views: seq<Option<Texts>>)
    ensures views == Views(ops) && views == Views(WithoutEdits(ops))
  {
    var host := new Host();
    views := [];
    for i := 0 to |ops|
      invariant host.Valid() && fresh(host) && fresh(host.server) && fresh(host.plugins) && fresh(host.stored)
      invariant host.history == ops[..i] && views == Views(ops[..i])
    {
      assert ops[..i + 1][..i] == ops[..i] && ops[..i + 1] == ops[..i] + [ops[i]];
      var seen := Apply(host, ops[i]);
      views := views + seen;
    }
    assert ops[..|ops|] == ops;
    EditsAreInvisible(ops);
  }
}
