/** The structured form of a schema on the wire, and the conversions to it and back. */
module SchemaConversion {
  import opened Prelude
  import opened Ordering
  import opened JsonSchema

  /**
   * encode and decode are json.Marshal and json.Unmarshal on plain values, compact is
   * json.Marshal on raw JSON text, and the last two are the same on whole schemas.
   * A Go value that json.Marshal rejects is one on which encode is None.
   */
  datatype Codec = Codec(
    encode: Json -> Option<Bytes>,
    decode: Bytes -> Option<Json>,
    compact: Bytes -> Option<Bytes>,
    encodeSchema: Schema -> Option<Bytes>,
    decodeSchema: Bytes -> Option<Schema>)

  /** The JSON text "<marshal error>", quotes included. */
  const MARSHAL_ERROR: Bytes :=
    [34, 60, 109, 97, 114, 115, 104, 97, 108, 32, 101, 114, 114, 111, 114, 62, 34]

  predicate EncodeLaw(c: Codec, j: Json) {
    c.encode(j).Some? ==> c.encode(j).value != [] && c.decode(c.encode(j).value) == Some(j)
  }

  predicate CompactLaw(c: Codec, b: Bytes) {
    c.compact(b).Some? ==>
      && c.compact(b).value != []
      && c.decode(c.compact(b).value) == c.decode(b)
      && c.compact(c.compact(b).value).Some?
  }

  predicate SchemaLaw(c: Codec, s: Schema) {
    c.encodeSchema(s).Some? ==> c.encodeSchema(s).value != [] && c.decodeSchema(c.encodeSchema(s).value) == Some(s)
  }

  /** What the JSON library promises. null and the marshal error text are valid JSON. */
  ghost predicate Laws(c: Codec) {
    && (forall j :: EncodeLaw(c, j))
    && (forall b :: CompactLaw(c, b))
    && (forall s :: SchemaLaw(c, s))
    && c.compact(MARSHAL_ERROR).Some? && c.encode(Null).Some?
  }

  /** One property on the wire: zero and empty fields mean absent, except where a has flag says otherwise. */
  datatype Parameter = Parameter(
    typ: string,
    required: bool,
    description: string,
    defaultValue: Bytes,
    example: Bytes,
    maxLength: int,
    minLength: int,
    pattern: string,
    format: string,
    minItems: int,
    maxItems: int,
    minimum: real, hasMinimum: bool,
    maximum: real, hasMaximum: bool,
    exclusiveMinimum: real, hasExclusiveMinimum: bool,
    exclusiveMaximum: real, hasExclusiveMaximum: bool,
    enumValues: seq<Bytes>)

  type ProtoSchema = map<string, Parameter>

  const MAX_INT32 := 0x7fff_ffff

  /** Go's int32(n): the value modulo 2^32 in the signed range. */
  function Wrap32(n: int): (w: int)
    ensures -0x8000_0000 <= w <= MAX_INT32
  {
    (n + 0x8000_0000) % 0x1_0000_0000 - 0x8000_0000
  }

  /** It is the one number in that range that is congruent to n. */
  lemma Wrap32Is(n: int, w: int)
    ensures w == Wrap32(n) <==> -0x8000_0000 <= w <= MAX_INT32 && (w - n) % 0x1_0000_0000 == 0
  {
    var q := (n + 0x8000_0000) / 0x1_0000_0000;
    assert Wrap32(n) - n == -q * 0x1_0000_0000;
    if -0x8000_0000 <= w <= MAX_INT32 && (w - n) % 0x1_0000_0000 == 0 {
      var r := (w - n) / 0x1_0000_0000;
      assert w - Wrap32(n) == (r + q) * 0x1_0000_0000;
    }
  }

  /** An optional bound narrowed to the wire; absent is zero. */
  function NarrowBound(b: Option<int>): int {
    if b.Some? then Wrap32(b.value) else 0
  }

  /** A bound read from the wire; only positive numbers are bounds. */
  function WidenBound(n: int): Option<int> {
    if n > 0 then Some(n) else None
  }

  function Real(r: Option<real>): real {
    if r.Some? then r.value else 0.0
  }

  function Flagged(r: real, has: bool): Option<real> {
    if has then Some(r) else None
  }

  function DefaultToProto(c: Codec, d: Option<Bytes>): Bytes {
    if d.None? then []
    else
      var b := c.compact(d.value);
      if b.Some? then b.value else MARSHAL_ERROR
  }

  function ExampleToProto(c: Codec, examples: seq<Json>): Bytes {
    if examples == [] then []
    else
      var b := c.encode(examples[0]);
      if b.Some? then b.value else []
  }

  function ExampleFromProto(c: Codec, example: Bytes): seq<Json> {
    if example == [] then []
    else
      var j := c.decode(example);
      if j.Some? then [j.value] else []
  }

  /** The encodings of the values that json.Marshal accepts. */
  function Encodings(c: Codec, vs: seq<Json>): seq<Bytes> {
    if vs == [] then []
    else
      var b := c.encode(vs[|vs| - 1]);
      Encodings(c, vs[..|vs| - 1]) + if b.Some? then [b.value] else []
  }

  function Decodings(c: Codec, bs: seq<Bytes>): seq<Json> {
    if bs == [] then []
    else
      var j := c.decode(bs[|bs| - 1]);
      Decodings(c, bs[..|bs| - 1]) + if j.Some? then [j.value] else []
  }

  function EnumFromProto(c: Codec, bs: seq<Bytes>): Option<seq<Json>> {
    if bs == [] then None else Some(Decodings(c, bs))
  }

  function ParamToProto(c: Codec, prop: Schema, required: bool): Parameter {
    Parameter(
      prop.typ, required, prop.description,
      DefaultToProto(c, prop.default), ExampleToProto(c, prop.examples),
      NarrowBound(prop.maxLength), NarrowBound(prop.minLength), prop.pattern, prop.format,
      NarrowBound(prop.minItems), NarrowBound(prop.maxItems),
      Real(prop.minimum), prop.minimum.Some?,
      Real(prop.maximum), prop.maximum.Some?,
      Real(prop.exclusiveMinimum), prop.exclusiveMinimum.Some?,
      Real(prop.exclusiveMaximum), prop.exclusiveMaximum.Some?,
      Encodings(c, OrEmpty(prop.enum)))
  }

  function ProtoParamToJson(c: Codec, p: Parameter): Schema {
    Schema(
      p.typ, p.description, p.pattern, p.format,
      if p.defaultValue != [] then Some(p.defaultValue) else None,
      ExampleFromProto(c, p.example),
      WidenBound(p.maxLength), WidenBound(p.minLength), WidenBound(p.maxItems), WidenBound(p.minItems),
      Flagged(p.minimum, p.hasMinimum), Flagged(p.maximum, p.hasMaximum),
      Flagged(p.exclusiveMinimum, p.hasExclusiveMinimum), Flagged(p.exclusiveMaximum, p.hasExclusiveMaximum),
      EnumFromProto(c, p.enumValues),
      map[], [], None, None)
  }

  /** The conversion dereferences every property. */
  predicate NoNilProperties(s: Schema) {
    forall name :: name in s.properties ==> s.properties[name].Some?
  }

  function SchemaToProto(c: Codec, s: Option<Schema>): Option<ProtoSchema>
    requires s.Some? ==> NoNilProperties(s.value)
  {
    if s.None? || |s.value.properties| == 0 then None
    else
      Some(map name | name in s.value.properties ::
             ParamToProto(c, s.value.properties[name].value, name in s.value.required))
  }

  function RequiredNames(ps: ProtoSchema): set<string> {
    set name | name in ps && ps[name].required
  }

  function ObjectSchema(properties: map<string, Option<Schema>>, required: seq<string>): Schema {
    Typed("object").(properties := properties, required := required)
  }

  function RestoredParams(c: Codec, ps: ProtoSchema): map<string, Option<Schema>> {
    map name | name in ps :: Some(ProtoParamToJson(c, ps[name]))
  }

  ghost function ProtoSchemaToJson(c: Codec, ps: ProtoSchema): Schema {
    ObjectSchema(RestoredParams(c, ps), Listing(RequiredNames(ps)))
  }

  /** One property, there and back. */
  function ParamRoundTrip(c: Codec, prop: Schema): Schema {
    ProtoParamToJson(c, ParamToProto(c, prop, false))
  }

  /** A schema that only travelled in structured form; without properties it is lost. */
  ghost function Fallback(c: Codec, s: Option<Schema>): Option<Schema>
    requires s.Some? ==> NoNilProperties(s.value)
  {
    var ps := SchemaToProto(c, s);
    if ps.Some? then Some(ProtoSchemaToJson(c, ps.value)) else None
  }

  function RoundTripped(c: Codec, props: map<string, Option<Schema>>): map<string, Option<Schema>> {
    map name | name in props && props[name].Some? :: Some(ParamRoundTrip(c, props[name].value))
  }

  lemma RestoresEach(c: Codec, s: Schema, name: string)
    requires NoNilProperties(s) && name in s.properties && |s.properties| > 0
    ensures name in SchemaToProto(c, Some(s)).value
    ensures RestoredParams(c, SchemaToProto(c, Some(s)).value)[name] == RoundTripped(c, s.properties)[name]
  {
  }

  /** The same, property by property: required becomes the sorted list of the required names that are properties. */
  lemma FallbackIs(c: Codec, s: Schema)
    requires NoNilProperties(s) && |s.properties| > 0
    ensures Fallback(c, Some(s)) ==
            Some(ObjectSchema(RoundTripped(c, s.properties), Listing(Elems(s.required) * s.properties.Keys)))
  {
    RestoresNames(c, s);
    RestoresParams(c, s);
  }

  lemma RestoresNames(c: Codec, s: Schema)
    requires NoNilProperties(s) && |s.properties| > 0
    ensures RequiredNames(SchemaToProto(c, Some(s)).value) == Elems(s.required) * s.properties.Keys
  {
  }

  lemma RestoresParams(c: Codec, s: Schema)
    requires NoNilProperties(s) && |s.properties| > 0
    ensures RestoredParams(c, SchemaToProto(c, Some(s)).value) == RoundTripped(c, s.properties)
  {
    var restored := RestoredParams(c, SchemaToProto(c, Some(s)).value);
    var expected := RoundTripped(c, s.properties);
    RestoredKeys(c, s);
    forall name | name in s.properties ensures restored[name] == expected[name] {
      RestoresEach(c, s, name);
    }
    SameMap(restored, expected);
  }

  lemma RestoredKeys(c: Codec, s: Schema)
    requires NoNilProperties(s) && |s.properties| > 0
    ensures RestoredParams(c, SchemaToProto(c, Some(s)).value).Keys == s.properties.Keys
    ensures RoundTripped(c, s.properties).Keys == s.properties.Keys
  {
  }

  lemma SameMap<K, V>(a: map<K, V>, b: map<K, V>)
    requires a.Keys == b.Keys && forall k :: k in a ==> a[k] == b[k]
    ensures a == b
  {
  }

  // ---- The conversions as the code performs them ----

  method ConvertParam(c: Codec, prop: Schema, required: bool) returns (p: Parameter)
    ensures p == ParamToProto(c, prop, required)
  {
    var defaultValue := ConvertDefault(c, prop.default);
    var example := ConvertExample(c, prop.examples);
    var values := EncodeAll(c, OrEmpty(prop.enum));
    p := Parameter(prop.typ, required, prop.description, defaultValue, example,
                   0, 0, prop.pattern, prop.format, 0, 0,
                   0.0, false, 0.0, false, 0.0, false, 0.0, false, values);
    p := NarrowBounds(p, prop);
    p := FlagRange(p, prop);
  }

  method ConvertDefault(c: Codec, d: Option<Bytes>) returns (defaultValue: Bytes)
    ensures defaultValue == DefaultToProto(c, d)
  {
    defaultValue := [];
    if d.Some? {
      var b := c.compact(d.value);
      defaultValue := if b.Some? then b.value else MARSHAL_ERROR;
    }
  }

  method ConvertExample(c: Codec, examples: seq<Json>) returns (example: Bytes)
    ensures example == ExampleToProto(c, examples)
  {
    example := [];
    if |examples| > 0 {
      var b := c.encode(examples[0]);
      if b.Some? {
        example := b.value;
      }
    }
  }

  method NarrowBounds(p: Parameter, prop: Schema) returns (r: Parameter)
    requires p.maxLength == p.minLength == p.minItems == p.maxItems == 0
    ensures r == p.(maxLength := NarrowBound(prop.maxLength), minLength := NarrowBound(prop.minLength),
                    minItems := NarrowBound(prop.minItems), maxItems := NarrowBound(prop.maxItems))
  {
    var maxLen, minLen, minItems, maxItems := 0, 0, 0, 0;
    if prop.maxLength.Some? {
      maxLen := Wrap32(prop.maxLength.value);
    }
    if prop.minLength.Some? {
      minLen := Wrap32(prop.minLength.value);
    }
    if prop.minItems.Some? {
      minItems := Wrap32(prop.minItems.value);
    }
    if prop.maxItems.Some? {
      maxItems := Wrap32(prop.maxItems.value);
    }
    r := p.(maxLength := maxLen, minLength := minLen, minItems := minItems, maxItems := maxItems);
  }

  /** Zero is a possible limit, so each limit travels with a flag. */
  method FlagRange(p: Parameter, prop: Schema) returns (r: Parameter)
    requires p.minimum == p.maximum == p.exclusiveMinimum == p.exclusiveMaximum == 0.0
    requires !p.hasMinimum && !p.hasMaximum && !p.hasExclusiveMinimum && !p.hasExclusiveMaximum
    ensures r == p.(minimum := Real(prop.minimum), hasMinimum := prop.minimum.Some?,
                    maximum := Real(prop.maximum), hasMaximum := prop.maximum.Some?,
                    exclusiveMinimum := Real(prop.exclusiveMinimum), hasExclusiveMinimum := prop.exclusiveMinimum.Some?,
                    exclusiveMaximum := Real(prop.exclusiveMaximum), hasExclusiveMaximum := prop.exclusiveMaximum.Some?)
  {
    r := p;
    if prop.minimum.Some? {
      r := r.(minimum := prop.minimum.value, hasMinimum := true);
    }
    if prop.maximum.Some? {
      r := r.(maximum := prop.maximum.value, hasMaximum := true);
    }
    if prop.exclusiveMinimum.Some? {
      r := r.(exclusiveMinimum := prop.exclusiveMinimum.value, hasExclusiveMinimum := true);
    }
    if prop.exclusiveMaximum.Some? {
      r := r.(exclusiveMaximum := prop.exclusiveMaximum.value, hasExclusiveMaximum := true);
    }
  }

  method EncodeAll(c: Codec, vs: seq<Json>) returns (bs: seq<Bytes>)
    ensures bs == Encodings(c, vs)
  {
    bs := [];
    for i := 0 to |vs|
      invariant bs == Encodings(c, vs[..i])
    {
      assert vs[..i + 1][..i] == vs[..i];
      var b := c.encode(vs[i]);
      if b.Some? {
        bs := bs + [b.value];
      }
    }
    assert vs[..|vs|] == vs;
  }

  method ConvertSchema(c: Codec, s: Option<Schema>) returns (ps: Option<ProtoSchema>)
    requires s.Some? ==> NoNilProperties(s.value)
    ensures ps == SchemaToProto(c, s)
  {
    if s.None? || |s.value.properties| == 0 {
      return None;
    }
    var props := s.value.properties;
    var requiredSet := {};
    for i := 0 to |s.value.required|
      invariant requiredSet == Elems(s.value.required[..i])
    {
      requiredSet := requiredSet + {s.value.required[i]};
    }
    assert s.value.required[..|s.value.required|] == s.value.required;
    var parameters: ProtoSchema := map[];
    var pending := props.Keys;
    while pending != {}
      invariant pending <= props.Keys
      invariant parameters == map name | name in props.Keys - pending ::
                                ParamToProto(c, props[name].value, name in s.value.required)
      decreases pending
    {
      var name :| name in pending;
      var p := ConvertParam(c, props[name].value, name in requiredSet);
      parameters := parameters[name := p];
      pending := pending - {name};
    }
    assert parameters == SchemaToProto(c, s).value;
    ps := Some(parameters);
  }

  method RestoreParam(c: Codec, p: Parameter) returns (prop: Schema)
    ensures prop == ProtoParamToJson(c, p)
  {
    var default, enum := None, None;
    if |p.defaultValue| > 0 {
      default := Some(p.defaultValue);
    }
    var examples := [];
    if p.example != [] {
      var j := c.decode(p.example);
      if j.Some? {
        examples := [j.value];
      }
    }
    if |p.enumValues| > 0 {
      var values := DecodeAll(c, p.enumValues);
      enum := Some(values);
    }
    prop := Schema(p.typ, p.description, p.pattern, p.format, default, examples, None, None, None, None,
                   None, None, None, None, enum, map[], [], None, None);
    prop := WidenBounds(p, prop);
    prop := UnflagRange(p, prop);
  }

  method WidenBounds(p: Parameter, prop: Schema) returns (r: Schema)
    requires prop.maxLength.None? && prop.minLength.None? && prop.maxItems.None? && prop.minItems.None?
    ensures r == prop.(maxLength := WidenBound(p.maxLength), minLength := WidenBound(p.minLength),
                       maxItems := WidenBound(p.maxItems), minItems := WidenBound(p.minItems))
  {
    r := prop;
    if p.maxLength > 0 {
      r := r.(maxLength := Some(p.maxLength));
    }
    if p.minLength > 0 {
      r := r.(minLength := Some(p.minLength));
    }
    if p.minItems > 0 {
      r := r.(minItems := Some(p.minItems));
    }
    if p.maxItems > 0 {
      r := r.(maxItems := Some(p.maxItems));
    }
  }

  method UnflagRange(p: Parameter, prop: Schema) returns (r: Schema)
    requires prop.minimum.None? && prop.maximum.None? && prop.exclusiveMinimum.None? && prop.exclusiveMaximum.None?
    ensures r == prop.(minimum := Flagged(p.minimum, p.hasMinimum), maximum := Flagged(p.maximum, p.hasMaximum),
                       exclusiveMinimum := Flagged(p.exclusiveMinimum, p.hasExclusiveMinimum),
                       exclusiveMaximum := Flagged(p.exclusiveMaximum, p.hasExclusiveMaximum))
  {
    r := prop;
    if p.hasMinimum {
      r := r.(minimum := Some(p.minimum));
    }
    if p.hasMaximum {
      r := r.(maximum := Some(p.maximum));
    }
    if p.hasExclusiveMinimum {
      r := r.(exclusiveMinimum := Some(p.exclusiveMinimum));
    }
    if p.hasExclusiveMaximum {
      r := r.(exclusiveMaximum := Some(p.exclusiveMaximum));
    }
  }

  method DecodeAll(c: Codec, bs: seq<Bytes>) returns (vs: seq<Json>)
    ensures vs == Decodings(c, bs)
  {
    vs := [];
    for i := 0 to |bs|
      invariant vs == Decodings(c, bs[..i])
    {
      assert bs[..i + 1][..i] == bs[..i];
      var j := c.decode(bs[i]);
      if j.Some? {
        vs := vs + [j.value];
      }
    }
    assert bs[..|bs|] == bs;
  }

  /** Collects properties and required names in any map order; only the sort makes it deterministic. */
  method RestoreSchema(c: Codec, ps: ProtoSchema) returns (s: Schema)
    ensures s == ProtoSchemaToJson(c, ps)
  {
    var properties: map<string, Option<Schema>> := map[];
    var required := [];
    var pending := ps.Keys;
    while pending != {}
      invariant pending <= ps.Keys
      invariant properties == map name | name in ps.Keys - pending :: Some(ProtoParamToJson(c, ps[name]))
      invariant NoDuplicates(required)
      invariant Elems(required) == set name | name in ps.Keys - pending && ps[name].required
      decreases pending
    {
      var name :| name in pending;
      var prop := RestoreParam(c, ps[name]);
      properties := properties[name := Some(prop)];
      if ps[name].required {
        assert name !in Elems(required);
        ElemsAppend(required, name);
        required := required + [name];
      }
      pending := pending - {name};
    }
    assert Elems(required) == RequiredNames(ps);
    SortStringsIsListing(required);
    s := ObjectSchema(properties, SortStrings(required));
    assert properties == RestoredParams(c, ps);
  }
}
