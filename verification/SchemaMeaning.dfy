/** What the structured conversion keeps of a schema's meaning, and that it is a normal form. */
module SchemaMeaning {
  import opened Prelude
  import opened Ordering
  import opened JsonSchema
  import opened SchemaConversion

  // ---- Bounds through int32 ----

  /** A bound after the round trip: absent when its low 32 bits are not a positive number. */
  function Narrowed(n: int): Option<int> {
    WidenBound(Wrap32(n))
  }

  lemma NarrowedBound(n: int)
    ensures Narrowed(n) == if Wrap32(n) <= 0 then None else Some(Wrap32(n))
    ensures Narrowed(n) == Some(n) <==> 1 <= n <= MAX_INT32
    ensures n >= 0 ==> Wrap32(n) <= n
  {
  }

  /** Exactly when a minimum never becomes stricter. */
  predicate MinimumFits(b: Option<int>) {
    b.None? || b.value >= 0 || Wrap32(b.value) <= 0
  }

  lemma MinimumWeakensIff(n: int)
    ensures (forall len: nat :: AtLeast(Some(n), len) ==> AtLeast(Narrowed(n), len)) <==> MinimumFits(Some(n))
  {
    if !MinimumFits(Some(n)) {
      assert AtLeast(Some(n), 0) && !AtLeast(Narrowed(n), 0);
    }
  }

  /** Exactly when a minimum keeps its meaning. */
  predicate MinimumKept(b: Option<int>) {
    b.None? || (b.value <= 0 && Wrap32(b.value) <= 0) || 1 <= b.value <= MAX_INT32
  }

  lemma MinimumKeptIff(n: int)
    ensures (forall len: nat :: AtLeast(Some(n), len) <==> AtLeast(Narrowed(n), len)) <==> MinimumKept(Some(n))
  {
    var w := Wrap32(n);
    if !MinimumKept(Some(n)) {
      if n > 0 {
        var len: nat := n - 1;
        assert !AtLeast(Some(n), len);
        assert w < n;
        assert AtLeast(Narrowed(n), len);
      } else {
        assert AtLeast(Some(n), 0) && !AtLeast(Narrowed(n), 0);
      }
    }
  }

  /** Exactly when a maximum never becomes stricter; one that wraps to a smaller positive number does. */
  predicate MaximumFits(b: Option<int>) {
    b.None? || b.value <= Wrap32(b.value) || Wrap32(b.value) <= 0
  }

  lemma MaximumWeakensIff(n: int)
    ensures (forall len: nat :: AtMost(Some(n), len) ==> AtMost(Narrowed(n), len)) <==> MaximumFits(Some(n))
  {
    if !MaximumFits(Some(n)) {
      var len: nat := n;
      assert AtMost(Some(n), len) && !AtMost(Narrowed(n), len);
    }
  }

  /** Exactly when a maximum keeps its meaning; zero does not, since it becomes absent. */
  predicate MaximumKept(b: Option<int>) {
    b.None? || 1 <= b.value <= MAX_INT32
  }

  lemma MaximumKeptIff(n: int)
    ensures (forall len: nat :: AtMost(Some(n), len) <==> AtMost(Narrowed(n), len)) <==> MaximumKept(Some(n))
  {
    if !MaximumKept(Some(n)) {
      if n < 0 {
        assert !AtMost(Some(n), 0) && AtMost(Narrowed(n), 0);
      } else {
        var len: nat := n + 1;
        assert !AtMost(Some(n), len);
        if Wrap32(n) > 0 {
          assert AtMost(Some(n), n) && !AtMost(Narrowed(n), n);
        } else {
          assert AtMost(Narrowed(n), len);
        }
      }
    }
  }

  // ---- Enumerations ----

  function Encodable(c: Codec, vs: seq<Json>): seq<Json> {
    if vs == [] then []
    else
      var last := vs[|vs| - 1];
      Encodable(c, vs[..|vs| - 1]) + if c.encode(last).Some? then [last] else []
  }

  lemma {:induction false} EncodableMembers(c: Codec, vs: seq<Json>, v: Json)
    ensures v in Encodable(c, vs) <==> v in vs && c.encode(v).Some?
  {
    if vs != [] {
      EncodableMembers(c, vs[..|vs| - 1], v);
      assert vs == vs[..|vs| - 1] + [vs[|vs| - 1]];
    }
  }

  lemma {:induction false} EncodableAll(c: Codec, vs: seq<Json>)
    requires forall v :: v in vs ==> c.encode(v).Some?
    ensures Encodable(c, vs) == vs
  {
    if vs != [] {
      EncodableAll(c, vs[..|vs| - 1]);
    }
  }

  lemma {:induction false} DecodingsOfEncodings(c: Codec, vs: seq<Json>)
    requires Laws(c)
    ensures Decodings(c, Encodings(c, vs)) == Encodable(c, vs)
    ensures Encodings(c, vs) == [] <==> Encodable(c, vs) == []
  {
    if vs != [] {
      var n := |vs| - 1;
      DecodingsOfEncodings(c, vs[..n]);
      var b := c.encode(vs[n]);
      assert EncodeLaw(c, vs[n]);
      if b.Some? {
        var bs := Encodings(c, vs[..n]);
        assert (bs + [b.value])[..|bs|] == bs;
      } else {
        assert Encodings(c, vs) == Encodings(c, vs[..n]);
      }
    }
  }

  /** The enum after the round trip: the values that can be marshalled, absent when there are none. */
  lemma EnumRoundTrip(c: Codec, prop: Schema)
    requires Laws(c)
    ensures ParamRoundTrip(c, prop).enum == NilIfEmpty(Encodable(c, OrEmpty(prop.enum)))
  {
    DecodingsOfEncodings(c, OrEmpty(prop.enum));
  }

  /** An enum keeps its meaning, for instances that are JSON, exactly when some value can be marshalled. */
  predicate EnumKept(c: Codec, enum: Option<seq<Json>>) {
    enum.None? || Encodable(c, enum.value) != []
  }

  lemma EnumKeptIff(c: Codec, prop: Schema)
    requires Laws(c)
    ensures (forall v :: c.encode(v).Some? ==>
               (EnumAccepts(prop.enum, v) <==> EnumAccepts(ParamRoundTrip(c, prop).enum, v)))
            <==> EnumKept(c, prop.enum)
  {
    EnumRoundTrip(c, prop);
    forall v | c.encode(v).Some? && EnumKept(c, prop.enum)
      ensures EnumAccepts(prop.enum, v) <==> EnumAccepts(ParamRoundTrip(c, prop).enum, v)
    {
      EncodableMembers(c, OrEmpty(prop.enum), v);
    }
    if !EnumKept(c, prop.enum) {
      EncodableMembers(c, OrEmpty(prop.enum), Null);
      assert !EnumAccepts(prop.enum, Null) && EnumAccepts(ParamRoundTrip(c, prop).enum, Null);
    }
  }

  /** Everything a property loses or changes on the trip; the rest is kept as it is. */
  lemma PropertyTrip(c: Codec, prop: Schema)
    requires Laws(c)
    ensures ParamRoundTrip(c, prop) == prop.(
              default := DefaultRoundTrip(c, prop.default),
              examples := if prop.examples != [] && c.encode(prop.examples[0]).Some? then [prop.examples[0]] else [],
              maxLength := if prop.maxLength.Some? then Narrowed(prop.maxLength.value) else None,
              minLength := if prop.minLength.Some? then Narrowed(prop.minLength.value) else None,
              maxItems := if prop.maxItems.Some? then Narrowed(prop.maxItems.value) else None,
              minItems := if prop.minItems.Some? then Narrowed(prop.minItems.value) else None,
              enum := NilIfEmpty(Encodable(c, OrEmpty(prop.enum))),
              properties := map[], required := [], items := None, other := None)
  {
    EnumRoundTrip(c, prop);
    if prop.examples != [] {
      assert EncodeLaw(c, prop.examples[0]);
    }
  }

  // ---- Meaning of whole schemas ----

  /** No bound of a property becomes stricter. */
  predicate BoundsFit(prop: Schema) {
    && MinimumFits(prop.minLength) && MinimumFits(prop.minItems)
    && MaximumFits(prop.maxLength) && MaximumFits(prop.maxItems)
  }

  /** The property uses only keywords that travel, and each of them keeps its meaning. */
  predicate Kept(c: Codec, prop: Schema) {
    && MinimumKept(prop.minLength) && MinimumKept(prop.minItems)
    && MaximumKept(prop.maxLength) && MaximumKept(prop.maxItems)
    && EnumKept(c, prop.enum)
    && prop.properties == map[] && prop.required == [] && prop.items.None? && prop.other.None?
  }

  lemma ScalarWeakens(c: Codec, prop: Schema, v: Json, m: Meanings)
    requires Laws(c) && BoundsFit(prop) && c.encode(v).Some? && ScalarAccepts(prop, v, m)
    ensures ScalarAccepts(ParamRoundTrip(c, prop), v, m)
  {
    var r := ParamRoundTrip(c, prop);
    EnumRoundTrip(c, prop);
    EncodableMembers(c, OrEmpty(prop.enum), v);
    if v.Num? {
      RangeKept(c, prop, v.n);
    }
  }

  lemma PropertyWeakens(c: Codec, prop: Schema, v: Json, m: Meanings)
    requires Laws(c) && BoundsFit(prop) && c.encode(v).Some? && Accepts(prop, v, m)
    ensures Accepts(ParamRoundTrip(c, prop), v, m)
  {
    ScalarWeakens(c, prop, v, m);
    OnlyScalar(ParamRoundTrip(c, prop), v, m);
  }

  lemma RangeKept(c: Codec, prop: Schema, n: real)
    ensures RangeAccepts(ParamRoundTrip(c, prop), n) <==> RangeAccepts(prop, n)
  {
  }

  lemma MinimumsKept(c: Codec, prop: Schema, n: nat)
    requires MinimumKept(prop.minLength) && MinimumKept(prop.minItems)
    ensures var r := ParamRoundTrip(c, prop);
            && (AtLeast(prop.minLength, n) <==> AtLeast(r.minLength, n))
            && (AtLeast(prop.minItems, n) <==> AtLeast(r.minItems, n))
  {
  }

  lemma MaximumsKept(c: Codec, prop: Schema, n: nat)
    requires MaximumKept(prop.maxLength) && MaximumKept(prop.maxItems)
    ensures var r := ParamRoundTrip(c, prop);
            && (AtMost(prop.maxLength, n) <==> AtMost(r.maxLength, n))
            && (AtMost(prop.maxItems, n) <==> AtMost(r.maxItems, n))
  {
  }

  lemma EnumerationKept(c: Codec, prop: Schema, v: Json)
    requires Laws(c) && EnumKept(c, prop.enum) && c.encode(v).Some?
    ensures EnumAccepts(prop.enum, v) <==> EnumAccepts(ParamRoundTrip(c, prop).enum, v)
  {
    EnumRoundTrip(c, prop);
    EncodableMembers(c, OrEmpty(prop.enum), v);
  }

  lemma ScalarKept(c: Codec, prop: Schema, v: Json, m: Meanings)
    requires Laws(c) && Kept(c, prop) && c.encode(v).Some?
    ensures ScalarAccepts(prop, v, m) <==> ScalarAccepts(ParamRoundTrip(c, prop), v, m)
  {
    EnumerationKept(c, prop, v);
    match v
    case Str(text) =>
      MinimumsKept(c, prop, |text|);
      MaximumsKept(c, prop, |text|);
    case Arr(items) =>
      MinimumsKept(c, prop, |items|);
      MaximumsKept(c, prop, |items|);
    case Num(n) =>
      RangeKept(c, prop, n);
    case _ =>
  }

  lemma PropertyKept(c: Codec, prop: Schema, v: Json, m: Meanings)
    requires Laws(c) && Kept(c, prop) && c.encode(v).Some?
    ensures Accepts(prop, v, m) <==> Accepts(ParamRoundTrip(c, prop), v, m)
  {
    ScalarKept(c, prop, v, m);
    OnlyScalar(prop, v, m);
    OnlyScalar(ParamRoundTrip(c, prop), v, m);
  }

  lemma OnlyScalar(s: Schema, v: Json, m: Meanings)
    requires s.properties == map[] && s.required == [] && s.items.None? && s.other.None?
    ensures Accepts(s, v, m) <==> ScalarAccepts(s, v, m)
  {
  }

  /** An object instance all of whose members are JSON documents. */
  ghost predicate IsObjectDocument(c: Codec, v: Json) {
    v.Obj? && forall name :: name in v.fields ==> c.encode(v.fields[name]).Some?
  }

  /**
   * A schema that travels in structured form never starts to reject: whatever the original
   * accepts, the restored one accepts, provided no bound of a property wraps to a stricter one.
   */
  lemma FallbackWeakens(c: Codec, s: Schema, v: Json, m: Meanings)
    requires Laws(c) && NoNilProperties(s) && IsObjectDocument(c, v)
    requires forall name :: name in s.properties ==> BoundsFit(s.properties[name].value)
    requires Accepts(s, v, m)
    ensures AcceptsAny(Fallback(c, Some(s)), v, m)
  {
    if |s.properties| > 0 {
      FallbackIs(c, s);
      var r := Fallback(c, Some(s)).value;
      forall name | name in r.properties && name in v.fields
        ensures Accepts(r.properties[name].value, v.fields[name], m)
      {
        PropertyWeakens(c, s.properties[name].value, v.fields[name], m);
      }
      forall name | name in r.required ensures name in v.fields {
        assert name in Elems(r.required);
      }
    }
  }

  /** The object-level keywords that travel: type, properties and required. */
  predicate ObjectLevelKept(s: Schema) {
    && s.typ in {"", "object"} && s.format == "" && s.enum.None? && s.other.None?
    && forall name :: name in s.required ==> name in s.properties
  }

  predicate MembersAccepted(s: Schema, fields: map<string, Json>, m: Meanings) {
    && (forall name :: name in s.required ==> name in fields)
    && (forall name :: name in s.properties && name in fields && s.properties[name].Some? ==>
          Accepts(s.properties[name].value, fields[name], m))
  }

  /** For objects, a schema of this form constrains the members and nothing else. */
  lemma ObjectAccepts(s: Schema, v: Json, m: Meanings)
    requires ObjectLevelKept(s) && v.Obj?
    ensures Accepts(s, v, m) <==> MembersAccepted(s, v.fields, m)
  {
  }

  lemma RestoredForm(c: Codec, s: Schema)
    requires NoNilProperties(s) && |s.properties| > 0
    ensures var r := Fallback(c, Some(s)).value;
            && Fallback(c, Some(s)).Some? && ObjectLevelKept(r) && NoNilProperties(r)
            && r.properties.Keys == s.properties.Keys
            && (forall name :: name in r.required <==> name in s.required && name in s.properties)
            && forall name :: name in s.properties ==>
                 r.properties[name].value == ParamRoundTrip(c, s.properties[name].value)
  {
    FallbackIs(c, s);
    var r := Fallback(c, Some(s)).value;
    assert forall name :: name in r.required <==> name in Elems(r.required);
    assert forall name :: name in s.required <==> name in Elems(s.required);
  }

  /** On the fragment that travels, the restored schema accepts exactly the same objects. */
  lemma FallbackKeepsMeaning(c: Codec, s: Schema, v: Json, m: Meanings)
    requires Laws(c) && NoNilProperties(s) && IsObjectDocument(c, v)
    requires ObjectLevelKept(s) && forall name :: name in s.properties ==> Kept(c, s.properties[name].value)
    ensures Accepts(s, v, m) <==> AcceptsAny(Fallback(c, Some(s)), v, m)
  {
    ObjectAccepts(s, v, m);
    if |s.properties| == 0 {
      assert s.properties.Keys == {};
    } else {
      RestoredForm(c, s);
      var r := Fallback(c, Some(s)).value;
      ObjectAccepts(r, v, m);
      assert MembersAccepted(s, v.fields, m) <==> MembersAccepted(r, v.fields, m) by {
        forall name | name in s.properties && name in v.fields
          ensures Accepts(r.properties[name].value, v.fields[name], m) <==>
                  Accepts(s.properties[name].value, v.fields[name], m)
        {
          PropertyKept(c, s.properties[name].value, v.fields[name], m);
        }
      }
    }
  }

  /** An object with one string member whose length is bounded by n. */
  function Bounded(name: string, n: int): Schema {
    ObjectSchema(map[name := Some(Typed("string").(maxLength := Some(n)))], [])
  }

  /** Between the wrapped maximum and the original one lie the texts that start to be rejected. */
  lemma LongTextRejected(c: Codec, name: string, n: int, text: string, m: Meanings)
    requires 0 < Wrap32(n) < |text| <= n
    ensures Accepts(Bounded(name, n), Obj(map[name := Str(text)]), m)
    ensures !AcceptsAny(Fallback(c, Some(Bounded(name, n))), Obj(map[name := Str(text)]), m)
  {
    var s, v := Bounded(name, n), Obj(map[name := Str(text)]);
    LongMember(c, n, text, m);
    ObjectAccepts(s, v, m);
    RestoredForm(c, s);
    var r := Fallback(c, Some(s)).value;
    ObjectAccepts(r, v, m);
    assert name in r.properties;
  }

  lemma LongMember(c: Codec, n: int, text: string, m: Meanings)
    requires 0 < Wrap32(n) < |text| <= n
    ensures var prop := Typed("string").(maxLength := Some(n));
            Accepts(prop, Str(text), m) && !Accepts(ParamRoundTrip(c, prop), Str(text), m)
  {
    assert ParamRoundTrip(c, Typed("string").(maxLength := Some(n))).maxLength == Some(Wrap32(n));
  }

  /** No object that the schema accepts is rejected by the restored one. */
  ghost predicate NeverStricter(c: Codec, s: Schema, m: Meanings)
    requires NoNilProperties(s)
  {
    forall v :: IsObjectDocument(c, v) && Accepts(s, v, m) ==> AcceptsAny(Fallback(c, Some(s)), v, m)
  }

  /** The exact condition on a maximum, for whole schemas. */
  lemma StringMaximumWeakensIff(c: Codec, name: string, n: int, m: Meanings)
    requires Laws(c) && forall text :: c.encode(Str(text)).Some?
    ensures NeverStricter(c, Bounded(name, n), m) <==> MaximumFits(Some(n))
  {
    if MaximumFits(Some(n)) {
      FittingMaximum(c, name, n, m);
    } else {
      var v := Obj(map[name := Str(seq(n, _ => 'x'))]);
      LongTextRejected(c, name, n, v.fields[name].s, m);
      assert IsObjectDocument(c, v);
    }
  }

  lemma FittingMaximum(c: Codec, name: string, n: int, m: Meanings)
    requires Laws(c) && MaximumFits(Some(n))
    ensures NeverStricter(c, Bounded(name, n), m)
  {
    var s := Bounded(name, n);
    forall v | IsObjectDocument(c, v) && Accepts(s, v, m) ensures AcceptsAny(Fallback(c, Some(s)), v, m) {
      FallbackWeakens(c, s, v, m);
    }
  }

  /** A maximum above the int32 range can reject what it allowed: 2^32 + 5 becomes 5. */
  lemma LargeMaximumRejects(c: Codec, m: Meanings)
    ensures var s, v := Bounded("x", 0x1_0000_0005), Obj(map["x" := Str("abcdef")]);
            Accepts(s, v, m) && !AcceptsAny(Fallback(c, Some(s)), v, m)
  {
    LongTextRejected(c, "x", 0x1_0000_0005, "abcdef", m);
  }

  // ---- The conversion is a normal form ----

  /** Raw defaults are compared as the JSON values they denote. */
  predicate SameDefault(c: Codec, a: Option<Bytes>, b: Option<Bytes>) {
    a.Some? == b.Some? && (a.Some? ==> c.decode(a.value) == c.decode(b.value))
  }

  /** Equal but for the text of the default. */
  predicate SameProperty(c: Codec, a: Schema, b: Schema) {
    SameDefault(c, a.default, b.default) && b == a.(default := b.default)
  }

  lemma BoundNormal(b: Option<int>)
    ensures var once := WidenBound(NarrowBound(b));
            WidenBound(NarrowBound(once)) == once
  {
  }

  lemma ExampleNormal(c: Codec, examples: seq<Json>)
    requires Laws(c)
    ensures var once := ExampleFromProto(c, ExampleToProto(c, examples));
            ExampleFromProto(c, ExampleToProto(c, once)) == once
  {
    if examples != [] {
      assert EncodeLaw(c, examples[0]);
    }
  }

  function DefaultRoundTrip(c: Codec, d: Option<Bytes>): Option<Bytes> {
    var b := DefaultToProto(c, d);
    if b != [] then Some(b) else None
  }

  lemma DefaultNormal(c: Codec, d: Option<Bytes>)
    requires Laws(c)
    ensures SameDefault(c, DefaultRoundTrip(c, DefaultRoundTrip(c, d)), DefaultRoundTrip(c, d))
  {
    assert CompactLaw(c, MARSHAL_ERROR);
    if d.Some? {
      assert CompactLaw(c, d.value);
      if c.compact(d.value).Some? {
        assert CompactLaw(c, c.compact(d.value).value);
      }
    }
  }

  lemma PropertyNormal(c: Codec, prop: Schema)
    requires Laws(c)
    ensures var once := ParamRoundTrip(c, prop);
            SameProperty(c, ParamRoundTrip(c, once), once)
  {
    var once := ParamRoundTrip(c, prop);
    var twice := ParamRoundTrip(c, once);
    EnumRoundTrip(c, prop);
    EnumRoundTrip(c, once);
    forall v | v in Encodable(c, OrEmpty(prop.enum)) ensures c.encode(v).Some? {
      EncodableMembers(c, OrEmpty(prop.enum), v);
    }
    EncodableAll(c, Encodable(c, OrEmpty(prop.enum)));
    assert twice.enum == once.enum;
    ExampleNormal(c, prop.examples);
    DefaultNormal(c, prop.default);
    BoundNormal(prop.maxLength);
    BoundNormal(prop.minLength);
    BoundNormal(prop.maxItems);
    BoundNormal(prop.minItems);
    assert once.default == DefaultRoundTrip(c, prop.default);
    assert twice.default == DefaultRoundTrip(c, once.default);
  }

  ghost predicate SameSchema(c: Codec, a: Schema, b: Schema) {
    && b == a.(properties := b.properties)
    && a.properties.Keys == b.properties.Keys
    && forall name :: name in a.properties ==>
         a.properties[name].Some? && b.properties[name].Some?
         && SameProperty(c, a.properties[name].value, b.properties[name].value)
  }

  /** Converting twice is converting once, and required is the sorted list of the required properties. */
  lemma FallbackNormal(c: Codec, s: Schema)
    requires Laws(c) && NoNilProperties(s) && |s.properties| > 0
    ensures var once := Fallback(c, Some(s)).value;
            && NoNilProperties(once)
            && Fallback(c, Some(once)).Some?
            && SameSchema(c, Fallback(c, Some(once)).value, once)
            && StrictlySorted(once.required) && Elems(once.required) == Elems(s.required) * s.properties.Keys
  {
    FallbackIs(c, s);
    var once := Fallback(c, Some(s)).value;
    RestoredForm(c, s);
    assert |once.properties| == |once.properties.Keys| == |s.properties.Keys| == |s.properties|;
    FallbackIs(c, once);
    RestoredForm(c, once);
    assert Elems(once.required) * once.properties.Keys == Elems(once.required);
    SortedListingIsUnique(Fallback(c, Some(once)).value.required, once.required);
    forall name | name in once.properties
      ensures SameProperty(c, ParamRoundTrip(c, once.properties[name].value), once.properties[name].value)
    {
      PropertyNormal(c, s.properties[name].value);
    }
  }
}
