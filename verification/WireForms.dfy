/**
 * What each wire form carries, and what is read from any wire form, whoever sent it. The round
 * trips alone do not say this: two conversions can undo each other over the wrong wire form.
 */
module WireForms {
  import opened Prelude
  import opened Ordering
  import opened JsonSchema
  import opened SchemaConversion
  import opened SchemaMeaning
  import opened Descriptor
  import opened DescriptorConversion

  // ---- One property ----

  /** n carries the bound b: zero when absent, else the number of 32 bits congruent to it. */
  predicate CarriesBound(n: int, b: Option<int>) {
    if b.None? then n == 0
    else -0x8000_0000 <= n <= 0x7fff_ffff && (n - b.value) % 0x1_0000_0000 == 0
  }

  predicate CarriesLimit(x: real, has: bool, limit: Option<real>) {
    has == limit.Some? && (limit.Some? ==> x == limit.value)
  }

  /** Raw JSON travels as text of the same value, or as the marshal error text if it is not JSON. */
  predicate CarriesDefault(c: Codec, bytes: Bytes, default: Option<Bytes>) {
    && (default.None? ==> bytes == [])
    && (default.Some? && c.compact(default.value).Some? ==>
          bytes != [] && c.decode(bytes) == c.decode(default.value))
    && (default.Some? && c.compact(default.value).None? ==> bytes == MARSHAL_ERROR)
  }

  /** Only the first example travels, if it can be marshalled. */
  predicate CarriesExample(c: Codec, bytes: Bytes, examples: seq<Json>) {
    if examples == [] || c.encode(examples[0]).None? then bytes == []
    else bytes != [] && c.decode(bytes) == Some(examples[0])
  }

  predicate CarriesValues(c: Codec, values: seq<Bytes>, enum: seq<Json>) {
    && |values| == |enum|
    && forall i :: 0 <= i < |enum| ==> c.decode(values[i]) == Some(enum[i])
  }

  predicate CarriesProperty(c: Codec, p: Parameter, prop: Schema) {
    && p.typ == prop.typ && p.description == prop.description && p.pattern == prop.pattern && p.format == prop.format
    && CarriesDefault(c, p.defaultValue, prop.default)
    && CarriesExample(c, p.example, prop.examples)
    && CarriesBound(p.maxLength, prop.maxLength) && CarriesBound(p.minLength, prop.minLength)
    && CarriesBound(p.maxItems, prop.maxItems) && CarriesBound(p.minItems, prop.minItems)
    && CarriesLimit(p.minimum, p.hasMinimum, prop.minimum)
    && CarriesLimit(p.maximum, p.hasMaximum, prop.maximum)
    && CarriesLimit(p.exclusiveMinimum, p.hasExclusiveMinimum, prop.exclusiveMinimum)
    && CarriesLimit(p.exclusiveMaximum, p.hasExclusiveMaximum, prop.exclusiveMaximum)
    && CarriesValues(c, p.enumValues, Encodable(c, OrEmpty(prop.enum)))
  }

  lemma {:induction false} ValuesCarried(c: Codec, vs: seq<Json>)
    requires Laws(c)
    ensures CarriesValues(c, Encodings(c, vs), Encodable(c, vs))
  {
    if vs != [] {
      ValuesCarried(c, vs[..|vs| - 1]);
      assert EncodeLaw(c, vs[|vs| - 1]);
    }
  }

  lemma DefaultCarried(c: Codec, d: Option<Bytes>)
    requires Laws(c)
    ensures CarriesDefault(c, DefaultToProto(c, d), d)
  {
    if d.Some? {
      assert CompactLaw(c, d.value);
    }
  }

  lemma BoundCarried(b: Option<int>)
    ensures CarriesBound(NarrowBound(b), b)
  {
    if b.Some? {
      Wrap32Is(b.value, Wrap32(b.value));
    }
  }

  lemma WireProperty(c: Codec, prop: Schema, required: bool)
    requires Laws(c)
    ensures CarriesProperty(c, ParamToProto(c, prop, required), prop)
    ensures ParamToProto(c, prop, required).required == required
  {
    DefaultCarried(c, prop.default);
    if prop.examples != [] {
      assert EncodeLaw(c, prop.examples[0]);
    }
    BoundCarried(prop.maxLength);
    BoundCarried(prop.minLength);
    BoundCarried(prop.maxItems);
    BoundCarried(prop.minItems);
    ValuesCarried(c, OrEmpty(prop.enum));
  }

  /** The text that stands for a default which is not JSON. */
  lemma MarshalErrorText()
    ensures var text := "\"<marshal error>\"";
            && |MARSHAL_ERROR| == |text|
            && forall i :: 0 <= i < |text| ==> MARSHAL_ERROR[i] as int == text[i] as int
  {
  }

  /**
   * A default is there after the round trip exactly if it was there before. It denotes the same
   * value if it was valid JSON, and otherwise it is the marshal error text.
   */
  lemma DefaultSurvives(c: Codec, prop: Schema)
    requires Laws(c)
    ensures var restored := ParamRoundTrip(c, prop).default;
            && (restored.Some? <==> prop.default.Some?)
            && (restored.Some? && c.compact(prop.default.value).Some? ==>
                  c.decode(restored.value) == c.decode(prop.default.value))
            && (restored.Some? && c.compact(prop.default.value).None? ==> restored.value == MARSHAL_ERROR)
  {
    DefaultCarried(c, prop.default);
  }

  // ---- Reading a property, from any sender ----

  /** A bound is read exactly when it is positive, and unchanged. */
  predicate ReadsBound(b: Option<int>, n: int) {
    if b.Some? then b.value == n && n > 0 else n <= 0
  }

  predicate ReadsLimit(limit: Option<real>, x: real, has: bool) {
    limit.Some? == has && (limit.Some? ==> limit.value == x)
  }

  predicate ReadsExample(c: Codec, examples: seq<Json>, bytes: Bytes) {
    if bytes != [] && c.decode(bytes).Some? then examples == [c.decode(bytes).value] else examples == []
  }

  /** Values that do not decode are skipped; the enum is nil exactly without any bytes. */
  ghost predicate ReadsValues(c: Codec, enum: Option<seq<Json>>, values: seq<Bytes>) {
    && (enum.None? <==> values == [])
    && forall v :: v in OrEmpty(enum) <==> exists i :: 0 <= i < |values| && c.decode(values[i]) == Some(v)
  }

  ghost predicate ReadsProperty(c: Codec, s: Schema, p: Parameter) {
    && s.typ == p.typ && s.description == p.description && s.pattern == p.pattern && s.format == p.format
    && (s.default.Some? <==> p.defaultValue != []) && (s.default.Some? ==> s.default.value == p.defaultValue)
    && ReadsExample(c, s.examples, p.example)
    && ReadsBound(s.maxLength, p.maxLength) && ReadsBound(s.minLength, p.minLength)
    && ReadsBound(s.maxItems, p.maxItems) && ReadsBound(s.minItems, p.minItems)
    && ReadsLimit(s.minimum, p.minimum, p.hasMinimum)
    && ReadsLimit(s.maximum, p.maximum, p.hasMaximum)
    && ReadsLimit(s.exclusiveMinimum, p.exclusiveMinimum, p.hasExclusiveMinimum)
    && ReadsLimit(s.exclusiveMaximum, p.exclusiveMaximum, p.hasExclusiveMaximum)
    && ReadsValues(c, s.enum, p.enumValues)
    && s.properties == map[] && s.required == [] && s.items.None? && s.other.None?
  }

  lemma {:induction false} DecodedMembers(c: Codec, bs: seq<Bytes>, v: Json)
    ensures v in Decodings(c, bs) <==> exists i :: 0 <= i < |bs| && c.decode(bs[i]) == Some(v)
  {
    if bs != [] {
      var n := |bs| - 1;
      DecodedMembers(c, bs[..n], v);
      assert forall i :: 0 <= i < n ==> bs[..n][i] == bs[i];
    }
  }

  /** Decoding keeps the order. */
  lemma {:induction false} DecodingsAppend(c: Codec, as1: seq<Bytes>, as2: seq<Bytes>)
    ensures Decodings(c, as1 + as2) == Decodings(c, as1) + Decodings(c, as2)
  {
    if as2 == [] {
      assert as1 + as2 == as1;
    } else {
      AppendSnoc(as1, as2);
      DecodingsAppend(c, as1, as2[..|as2| - 1]);
    }
  }

  lemma PropertyRead(c: Codec, p: Parameter)
    ensures ReadsProperty(c, ProtoParamToJson(c, p), p)
  {
    forall v ensures v in Decodings(c, p.enumValues) <==>
                     exists i :: 0 <= i < |p.enumValues| && c.decode(p.enumValues[i]) == Some(v)
    {
      DecodedMembers(c, p.enumValues, v);
    }
  }

  // ---- Schemas ----

  /** The wire form of a schema: none without properties, else each property with its required flag. */
  lemma WireSchema(c: Codec, s: Option<Schema>)
    requires Laws(c) && (s.Some? ==> NoNilProperties(s.value))
    ensures var ps := SchemaToProto(c, s);
            && (ps.None? <==> s.None? || s.value.properties == map[])
            && (ps.Some? ==>
                  && ps.value.Keys == s.value.properties.Keys
                  && forall name :: name in ps.value ==>
                       && CarriesProperty(c, ps.value[name], s.value.properties[name].value)
                       && (ps.value[name].required <==> name in s.value.required))
  {
    if s.Some? {
      assert |s.value.properties| == 0 <==> s.value.properties.Keys == {};
      forall name | name in s.value.properties
        ensures CarriesProperty(c, ParamToProto(c, s.value.properties[name].value, name in s.value.required),
                                s.value.properties[name].value)
      {
        WireProperty(c, s.value.properties[name].value, name in s.value.required);
      }
    }
  }

  /** An object schema with the wire's properties and its required names in strict order, and nothing else. */
  ghost predicate ReadsSchema(c: Codec, s: Schema, ps: ProtoSchema) {
    && s == Typed("object").(properties := s.properties, required := s.required)
    && s.properties.Keys == ps.Keys
    && (forall name :: name in ps ==> s.properties[name].Some? && ReadsProperty(c, s.properties[name].value, ps[name]))
    && StrictlySorted(s.required)
    && (forall name :: name in s.required <==> name in ps && ps[name].required)
  }

  lemma SchemaRead(c: Codec, ps: ProtoSchema)
    ensures ReadsSchema(c, ProtoSchemaToJson(c, ps), ps)
  {
    var s := ProtoSchemaToJson(c, ps);
    forall name | name in ps ensures ReadsProperty(c, s.properties[name].value, ps[name]) {
      PropertyRead(c, ps[name]);
    }
    assert forall name :: name in s.required <==> name in Elems(s.required);
  }

  /** Raw JSON that decodes wins; otherwise the structured form is read, and without one there is no schema. */
  lemma SchemaFallsBack(c: Codec, raw: Bytes, ps: Option<ProtoSchema>)
    ensures var s := SchemaOrFallback(c, raw, ps);
            && (raw != [] && c.decodeSchema(raw).Some? ==> s == c.decodeSchema(raw))
            && (raw == [] || c.decodeSchema(raw).None? ==>
                  (s.Some? <==> ps.Some?) && (s.Some? ==> ReadsSchema(c, s.value, ps.value)))
  {
    if ps.Some? {
      SchemaRead(c, ps.value);
    }
  }

  /**
   * Raw output schemas win as a whole: with any of them present, the result holds exactly those that
   * decode, even if none does. Without them it holds the structured ones that are not nil, and it
   * is nil exactly if the wire has neither.
   */
  lemma OutputsRead(c: Codec, raws: map<string, Bytes>, protos: map<string, Option<ProtoSchema>>)
    ensures var out := OutputsFromProto(c, raws, protos);
            && (out.None? <==> raws == map[] && protos == map[])
            && (raws != map[] ==>
                  forall k :: if k in raws && c.decodeSchema(raws[k]).Some?
                    then k in out.value && out.value[k] == c.decodeSchema(raws[k])
                    else k !in out.value)
            && (raws == map[] && protos != map[] ==>
                  forall k :: if k in protos && protos[k].Some?
                    then k in out.value && out.value[k].Some? && ReadsSchema(c, out.value[k].value, protos[k].value)
                    else k !in out.value)
  {
    assert |raws| == 0 <==> raws.Keys == {};
    assert |protos| == 0 <==> protos.Keys == {};
    forall k | k in protos && protos[k].Some?
      ensures ReadsSchema(c, ProtoSchemaToJson(c, protos[k].value), protos[k].value)
    {
      SchemaRead(c, protos[k].value);
    }
  }

  // ---- Operations ----

  /** A schema as raw bytes: nothing exactly if it is nil or cannot be marshalled. */
  predicate CarriesRaw(c: Codec, raw: Bytes, s: Option<Schema>) {
    && (raw != [] <==> s.Some? && c.encodeSchema(s.value).Some?)
    && (raw != [] ==> c.encodeSchema(s.value) == Some(raw))
  }

  predicate CarriesExamples(wired: seq<Option<ProtoExample>>, examples: seq<Example>) {
    && |wired| == |examples|
    && forall i :: 0 <= i < |examples| ==>
         wired[i] == Some(ProtoExample(examples[i].name, examples[i].description, examples[i].yaml))
  }

  predicate CarriesOperation(c: Codec, po: ProtoOperation, op: Operation) {
    && po.name == op.name && po.displayName == op.displayName && po.description == op.description
    && po.capabilities == OrEmpty(op.capabilities) && po.isWrite == op.isWrite && po.tags == op.tags
    && CarriesRaw(c, po.inputSchema, op.inputSchema) && CarriesRaw(c, po.outputSchema, op.outputSchema)
    && CarriesExamples(po.examples, OrEmpty(op.examples))
    && po.deprecated == op.isDeprecated && po.deprecationMessage == op.deprecationMessage
  }

  lemma RawCarried(c: Codec, s: Option<Schema>)
    requires Laws(c)
    ensures CarriesRaw(c, RawSchema(c, s), s)
  {
    if s.Some? {
      assert SchemaLaw(c, s.value);
    }
  }

  lemma WireOperation(c: Codec, op: Operation)
    requires Laws(c)
    ensures CarriesOperation(c, OperationToProto(c, op), op)
  {
    RawCarried(c, op.inputSchema);
    RawCarried(c, op.outputSchema);
  }

  /** Nil examples are skipped, and bytes that do not decode are no schema. */
  predicate ReadsOperation(c: Codec, op: Operation, po: ProtoOperation) {
    && op.name == po.name && op.displayName == po.displayName && op.description == po.description
    && op.capabilities == NilIfEmpty(po.capabilities) && op.isWrite == po.isWrite && op.tags == po.tags
    && op.inputSchema == (if po.inputSchema == [] then None else c.decodeSchema(po.inputSchema))
    && op.outputSchema == (if po.outputSchema == [] then None else c.decodeSchema(po.outputSchema))
    && (op.examples.Some? <==> NonNil(po.examples) != [])
    && |OrEmpty(op.examples)| == |NonNil(po.examples)|
    && (forall i :: 0 <= i < |NonNil(po.examples)| ==> ReadsExampleOf(op.examples.value[i], NonNil(po.examples)[i]))
    && op.isDeprecated == po.deprecated && op.deprecationMessage == po.deprecationMessage
  }

  predicate ReadsExampleOf(e: Example, pe: ProtoExample) {
    e.name == pe.name && e.description == pe.description && e.yaml == pe.yaml
  }

  lemma OperationRead(c: Codec, po: ProtoOperation)
    ensures ReadsOperation(c, OperationFromProto(c, po), po)
  {
  }

  lemma NonNilOne<A>(x: A)
    ensures NonNil([Some(x)]) == [x] && NonNil<A>([None]) == []
  {
    assert NonNil([Some(x)]) == NonNil([Some(x)][..0]) + [x];
  }

  /** The elements that are not nil, in their order. */
  lemma {:induction false} NonNilAppend<A>(xs: seq<Option<A>>, ys: seq<Option<A>>)
    ensures NonNil(xs + ys) == NonNil(xs) + NonNil(ys)
  {
    if ys == [] {
      assert xs + ys == xs;
    } else {
      AppendSnoc(xs, ys);
      NonNilAppend(xs, ys[..|ys| - 1]);
    }
  }

  // ---- Descriptors ----

  ghost predicate CarriesOutputs(c: Codec, raws: map<string, Bytes>, protos: map<string, Option<ProtoSchema>>,
                                 schemas: map<Capability, Option<Schema>>)
    requires NoNilInAll(schemas)
  {
    && (forall k :: k in raws <==> k in schemas && schemas[k].Some? && c.encodeSchema(schemas[k].value).Some?)
    && (forall k :: k in raws ==> c.encodeSchema(schemas[k].value) == Some(raws[k]))
    && (forall k :: k in protos <==> k in schemas && schemas[k].Some? && schemas[k].value.properties != map[])
    && (forall k :: k in protos ==> protos[k] == SchemaToProto(c, schemas[k]))
  }

  ghost predicate CarriesDescriptor(c: Codec, pd: ProtoDescriptor, d: Descriptor)
    requires Convertible(d)
  {
    && pd.name == d.name && pd.displayName == d.displayName && pd.apiVersion == d.apiVersion
    && pd.version == (if d.version.Some? then d.version.value.text else "") && pd.description == d.description
    && pd.schema == SchemaToProto(c, d.schema) && CarriesRaw(c, pd.rawSchema, d.schema)
    && CarriesOutputs(c, pd.rawOutputSchemas, pd.outputSchemas, SchemasOf(d))
    && pd.sensitiveFields == d.sensitiveFields && pd.hasExtractDependencies == d.hasExtractDependencies
    && pd.capabilities == OrEmpty(d.capabilities) && pd.writeOperations == d.writeOperations
    && |pd.operations| == |OrEmpty(d.operations)|
    && (forall i :: 0 <= i < |pd.operations| ==>
          pd.operations[i].Some? && CarriesOperation(c, pd.operations[i].value, d.operations.value[i]))
    && pd.category == d.category && pd.tags == d.tags && pd.icon == d.icon
    && |pd.links| == |OrEmpty(d.links)| && |pd.examples| == |OrEmpty(d.examples)|
    && |pd.maintainers| == |OrEmpty(d.maintainers)|
    && (forall i :: 0 <= i < |pd.links| ==> SameLink(pd.links[i], d.links.value[i]))
    && (forall i :: 0 <= i < |pd.examples| ==> ReadsExampleOf(d.examples.value[i], pd.examples[i]))
    && (forall i :: 0 <= i < |pd.maintainers| ==> SameContact(pd.maintainers[i], d.maintainers.value[i]))
    && pd.deprecated == d.isDeprecated && pd.beta == d.beta
  }

  predicate SameLink(pl: ProtoLink, l: Link) {
    pl.name == l.name && pl.url == l.url
  }

  predicate SameContact(pc: ProtoContact, c: Contact) {
    pc.name == c.name && pc.email == c.email
  }

  lemma WireDescriptor(c: Codec, d: Descriptor)
    requires Laws(c) && Convertible(d)
    ensures CarriesDescriptor(c, DescriptorToProto(c, d), d)
  {
    RawCarried(c, d.schema);
    WireOutputs(c, SchemasOf(d));
    forall i | 0 <= i < |OrEmpty(d.operations)|
      ensures CarriesOperation(c, OperationToProto(c, d.operations.value[i]), d.operations.value[i])
    {
      WireOperation(c, d.operations.value[i]);
    }
  }

  lemma WireOutputs(c: Codec, schemas: map<Capability, Option<Schema>>)
    requires Laws(c) && NoNilInAll(schemas)
    ensures CarriesOutputs(c, Marshalled(c, schemas), Structured(c, schemas), schemas)
  {
    forall k | k in schemas
      ensures SchemaToProto(c, schemas[k]).Some? <==> schemas[k].Some? && schemas[k].value.properties != map[]
    {
      WireSchema(c, schemas[k]);
    }
  }

  ghost predicate ReadsOperations(c: Codec, ops: Option<seq<Operation>>, wired: seq<Option<ProtoOperation>>) {
    && (ops.None? <==> wired == [])
    && |OrEmpty(ops)| == |NonNil(wired)|
    && forall i :: 0 <= i < |NonNil(wired)| ==> ReadsOperation(c, ops.value[i], NonNil(wired)[i])
  }

  /** A list is nil exactly if the wire's is empty, and otherwise has as many elements. */
  predicate SameSize<A, B>(xs: Option<seq<A>>, wired: seq<B>) {
    (xs.Some? <==> wired != []) && |OrEmpty(xs)| == |wired|
  }

  predicate ReadsLists(d: Descriptor, pd: ProtoDescriptor) {
    && SameSize(d.links, pd.links) && SameSize(d.examples, pd.examples) && SameSize(d.maintainers, pd.maintainers)
    && (forall i :: 0 <= i < |pd.links| ==> SameLink(pd.links[i], d.links.value[i]))
    && (forall i :: 0 <= i < |pd.examples| ==> ReadsExampleOf(d.examples.value[i], pd.examples[i]))
    && (forall i :: 0 <= i < |pd.maintainers| ==> SameContact(pd.maintainers[i], d.maintainers.value[i]))
  }

  predicate ReadsFields(parse: string -> Option<Version>, d: Descriptor, pd: ProtoDescriptor) {
    && d.name == pd.name && d.displayName == pd.displayName && d.apiVersion == pd.apiVersion
    && d.version == (if pd.version == "" then None else parse(pd.version)) && d.description == pd.description
    && d.sensitiveFields == pd.sensitiveFields && d.hasExtractDependencies == pd.hasExtractDependencies
    && !d.hasDecode && !d.hasWhatIf
    && d.capabilities == Some(pd.capabilities) && d.writeOperations == pd.writeOperations
    && d.category == pd.category && d.tags == pd.tags && d.icon == pd.icon
    && d.isDeprecated == pd.deprecated && d.beta == pd.beta
  }

  lemma OperationsRead(c: Codec, wired: seq<Option<ProtoOperation>>)
    ensures ReadsOperations(c, OperationsFromProto(c, wired), wired)
  {
    forall i | 0 <= i < |NonNil(wired)|
      ensures ReadsOperation(c, OperationFromProto(c, NonNil(wired)[i]), NonNil(wired)[i])
    {
      OperationRead(c, NonNil(wired)[i]);
    }
  }

  /** The host rejects a descriptor exactly for a version that is not empty and does not parse. */
  lemma DescriptorRead(c: Codec, parse: string -> Option<Version>, pd: ProtoDescriptor)
    ensures var r := ProtoToDescriptor(c, parse, pd);
            if pd.version != "" && parse(pd.version).None? then r == InvalidVersion(pd.name, pd.version)
            else
              && r.Ok? && ReadsFields(parse, r.descriptor, pd) && ReadsLists(r.descriptor, pd)
              && ReadsOperations(c, r.descriptor.operations, pd.operations)
              && r.descriptor.schema == SchemaOrFallback(c, pd.rawSchema, pd.schema)
              && r.descriptor.outputSchemas == OutputsFromProto(c, pd.rawOutputSchemas, pd.outputSchemas)
  {
    OperationsRead(c, pd.operations);
  }
}
