/**
 * Provider settings on a real heap. A Go map is an object with identity, a Go byte slice is an
 * array (nil is an array without elements), and a plugin may write to whatever it is handed.
 */
module Settings {
  import opened Prelude

  type RawMessage = array<Byte>

  /** The contents of a settings map, as opposed to the arrays that hold them. */
  type Texts = map<string, Bytes>

  class SettingsMap {
    var entries: map<string, RawMessage>

    constructor (entries: map<string, RawMessage>)
      ensures this.entries == entries
    {
      this.entries := entries;
    }
  }

  ghost function TextsOf(m: map<string, RawMessage>): Texts
    reads m.Values
  {
    map k | k in m :: m[k][..]
  }

  twostate predicate Same(objects: set<object>)
    reads objects
  {
    unchanged(objects)
  }

  /** Contents depend on nothing but the arrays themselves. */
  twostate lemma TextsFrame(m: map<string, RawMessage>)
    requires Same(m.Values)
    ensures TextsOf(m) == old(TextsOf(m))
  {
  }

  /** bytes.Clone. */
  method BytesClone(a: RawMessage) returns (b: RawMessage)
    ensures fresh(b) && b[..] == a[..]
  {
    b := new Byte[a.Length];
    for i := 0 to a.Length
      invariant b[..i] == a[..i]
    {
      b[i] := a[i];
    }
  }

  datatype Context = Context(settings: Option<SettingsMap>, values: map<string, string>)

  /** Whether the dial or the plugin failed, if either did. */
  datatype ConfigureReply = Accepted | DialFailed | PluginFailed

  class ProviderServer {
    var configureSettings: map<string, SettingsMap>

    constructor ()
      ensures configureSettings == map[]
    {
      configureSettings := map[];
    }

    /** The stored maps and the arrays they reach. */
    ghost function Repr(): set<object>
      reads this, configureSettings.Values
    {
      (set p | p in configureSettings :: configureSettings[p] as object) +
      (set p, k | p in configureSettings && k in configureSettings[p].entries
         :: configureSettings[p].entries[k] as object)
    }

    /** The configure-time settings of a provider. */
    ghost function StoredFor(p: string): map<string, RawMessage>
      reads this, configureSettings.Values
    {
      if p in configureSettings then configureSettings[p].entries else map[]
    }

    /** The same by content. */
    ghost function Base(p: string): Texts
      reads this, Repr()
    {
      if p in configureSettings then TextsOf(configureSettings[p].entries) else map[]
    }

    /**
     * Records the request's settings for the provider, whether or not the dial or the plugin then
     * fails. handed is the configuration that the plugin is called with, if it is called at all.
     */
    method ConfigureProvider(p: string, request: map<string, RawMessage>, dialOk: bool, pluginOk: bool)
      returns (handed: Option<SettingsMap>, reply: ConfigureReply)
      modifies this
      ensures p in configureSettings && fresh(configureSettings[p]) && configureSettings[p].entries == request
      ensures configureSettings == old(configureSettings)[p := configureSettings[p]]
      ensures handed.Some? <==> dialOk
      ensures handed.Some? ==>
                && fresh(handed.value) && handed.value != configureSettings[p]
                && handed.value.entries == request
      ensures reply == if !dialOk then DialFailed else if pluginOk then Accepted else PluginFailed
    {
      var settings := map[];
      var pending := request.Keys;
      while pending != {}
        invariant pending <= request.Keys
        invariant settings == map k | k in request.Keys - pending :: request[k]
        decreases pending
      {
        var k :| k in pending;
        settings := settings[k := request[k]];
        pending := pending - {k};
      }
      assert settings == request;
      var stored := map[];
      pending := settings.Keys;
      while pending != {}
        invariant pending <= settings.Keys
        invariant stored == map k | k in settings.Keys - pending :: settings[k]
        decreases pending
      {
        var k :| k in pending;
        stored := stored[k := settings[k]];
        pending := pending - {k};
      }
      assert stored == settings;
      var storedMap := new SettingsMap(stored);
      configureSettings := configureSettings[p := storedMap];
      var cfg := new SettingsMap(settings);
      if !dialOk {
        return None, DialFailed;
      }
      return Some(cfg), if pluginOk then Accepted else PluginFailed;
    }

    /**
     * The context of one execution: unchanged exactly if neither side has a key, and otherwise
     * with every key of both, the request's value where it has one. Each byte array is new and
     * belongs to one key, so it is disjoint from the stored base, the request and every earlier
     * execution.
     */
    method WithSettings(ctx: Context, p: string, execute: map<string, RawMessage>) returns (r: Context)
      ensures StoredFor(p) == map[] && execute == map[] ==> r == ctx
      ensures StoredFor(p) != map[] || execute != map[] ==>
                && r.settings.Some? && fresh(r.settings.value)
                && Merges(r.settings.value.entries, StoredFor(p), execute)
      ensures Effective(Base(p), TextsOf(execute)).None? ==> r == ctx
      ensures Effective(Base(p), TextsOf(execute)).Some? ==>
                && r.settings.Some? && r == ctx.(settings := r.settings)
                && fresh(r.settings.value) && fresh(r.settings.value.entries.Values)
                && OneKeyEach(r.settings.value.entries)
                && TextsOf(r.settings.value.entries) == Effective(Base(p), TextsOf(execute)).value
    {
      var configure: map<string, RawMessage> := map[];
      if p in configureSettings {
        configure := configureSettings[p].entries;
      }
      ghost var base, over := Base(p), TextsOf(execute);
      assert base == TextsOf(configure);
      EmptyTexts(configure);
      EmptyTexts(execute);
      if |configure| == 0 && |execute| == 0 {
        return ctx;
      }
      var merged := Merge(configure, execute);
      assert TextsOf(merged) == base + over;
      assert Merges(merged, configure, execute);
      label Merged:
      var settings := new SettingsMap(merged);
      r := ctx.(settings := Some(settings));
      TextsFrame@Merged(merged);
      TextsFrame(execute);
      TextsFrame(configure);
    }
  }

  lemma EmptyTexts(m: map<string, RawMessage>)
    ensures TextsOf(m) == map[] <==> |m| == 0
  {
    assert TextsOf(m).Keys == m.Keys;
    assert |m| == 0 <==> m.Keys == {};
  }

  /** Key by key: the request's value where it has one, and otherwise the stored value. */
  ghost predicate Merges(merged: map<string, RawMessage>, stored: map<string, RawMessage>,
                         execute: map<string, RawMessage>)
    reads merged.Values, stored.Values, execute.Values
  {
    && merged.Keys == stored.Keys + execute.Keys
    && (forall k :: k in execute ==> merged[k][..] == execute[k][..])
    && (forall k :: k in stored && k !in execute ==> merged[k][..] == stored[k][..])
  }

  ghost predicate OneKeyEach(m: map<string, RawMessage>) {
    forall k, l :: k in m && l in m && k != l ==> m[k] != m[l]
  }

  /** Texts that agree with the arrays key by key are the arrays' contents. */
  lemma TextsAre(m: map<string, RawMessage>, t: Texts)
    requires m.Keys == t.Keys && forall k :: k in m ==> m[k][..] == t[k]
    ensures TextsOf(m) == t
  {
  }

  /** The two range loops of withSettings. */
  method Merge(configure: map<string, RawMessage>, execute: map<string, RawMessage>)
    returns (merged: map<string, RawMessage>)
    ensures TextsOf(merged) == old(TextsOf(configure) + TextsOf(execute))
    ensures Merges(merged, configure, execute)
    ensures fresh(merged.Values) && OneKeyEach(merged)
  {
    var cloned := CloneOver(map[], configure);
    merged := CloneOver(cloned, execute);
    MergedTexts(configure, execute, merged);
  }

  lemma MergedTexts(configure: map<string, RawMessage>, execute: map<string, RawMessage>,
                    merged: map<string, RawMessage>)
    requires Merges(merged, configure, execute)
    ensures TextsOf(merged) == TextsOf(configure) + TextsOf(execute)
  {
    TextsAre(merged, TextsOf(configure) + TextsOf(execute));
  }

  /** One range loop of the merge: clones every value of source over the entries of into. */
  method CloneOver(into: map<string, RawMessage>, source: map<string, RawMessage>) returns (r: map<string, RawMessage>)
    requires OneKeyEach(into)
    ensures r.Keys == into.Keys + source.Keys
    ensures forall k :: k in source ==> fresh(r[k]) && r[k][..] == source[k][..]
    ensures forall k :: k in into && k !in source ==> r[k] == into[k]
    ensures OneKeyEach(r)
  {
    r := into;
    var pending := source.Keys;
    while pending != {}
      invariant pending <= source.Keys
      invariant r.Keys == into.Keys + (source.Keys - pending)
      invariant forall k :: k in source && k !in pending ==> fresh(r[k]) && r[k][..] == source[k][..]
      invariant forall k :: k in into && (k !in source || k in pending) ==> r[k] == into[k]
      invariant OneKeyEach(r)
      decreases pending
    {
      var k :| k in pending;
      var b := BytesClone(source[k]);
      r := r[k := b];
      pending := pending - {k};
    }
  }

  /** Execute-time settings override configure-time ones key by key; None leaves the context alone. */
  function Effective(base: Texts, execute: Texts): Option<Texts> {
    if base == map[] && execute == map[] then None else Some(base + execute)
  }

  /** What an execution sees, key by key; nothing exactly if neither side has a key. */
  lemma EffectiveIs(base: Texts, execute: Texts)
    ensures Effective(base, execute).None? <==> base.Keys == {} && execute.Keys == {}
    ensures Effective(base, execute).Some? ==>
              var t := Effective(base, execute).value;
              && t.Keys == base.Keys + execute.Keys
              && (forall k :: k in execute ==> t[k] == execute[k])
              && (forall k :: k in base && k !in execute ==> t[k] == base[k])
  {
  }
}
