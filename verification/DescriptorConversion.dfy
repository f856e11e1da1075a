/** Descriptors on the wire: raw schema JSON where it can be marshalled, structured form otherwise. */
module DescriptorConversion {
  import opened Prelude
  import opened JsonSchema
  import opened SchemaConversion
  import opened Descriptor

  datatype ProtoLink = ProtoLink(name: string, url: string)
  datatype ProtoExample = ProtoExample(name: string, description: string, yaml: string)
  datatype ProtoContact = ProtoContact(name: string, email: string)

  /** Lists that the code only ranges over are plain; those it passes on unchanged may be nil. */
  datatype ProtoOperation = ProtoOperation(
    name: string,
    displayName: string,
    description: string,
    capabilities: seq<string>,
    isWrite: bool,
    inputSchema: Bytes,
    outputSchema: Bytes,
    examples: seq<Option<ProtoExample>>,
    tags: Option<seq<string>>,
    deprecated: bool,
    deprecationMessage: string)

  datatype ProtoDescriptor = ProtoDescriptor(
    name: string,
    displayName: string,
    apiVersion: string,
    version: string,
    description: string,
    schema: Option<ProtoSchema>,
    rawSchema: Bytes,
    outputSchemas: map<string, Option<ProtoSchema>>,
    rawOutputSchemas: map<string, Bytes>,
    sensitiveFields: Option<seq<string>>,
    hasExtractDependencies: bool,
    capabilities: seq<string>,
    writeOperations: Option<seq<string>>,
    operations: seq<Option<ProtoOperation>>,
    category: string,
    tags: Option<seq<string>>,
    icon: string,
    links: seq<ProtoLink>,
    examples: seq<ProtoExample>,
    deprecated: bool,
    beta: bool,
    maintainers: seq<ProtoContact>)

  datatype Parsed = Ok(descriptor: Descriptor) | InvalidVersion(name: string, version: string)

  function MapSeq<A, B>(f: A -> B, xs: seq<A>): (ys: seq<B>)
    ensures |ys| == |xs| && forall i :: 0 <= i < |xs| ==> ys[i] == f(xs[i])
  {
    seq(|xs|, i requires 0 <= i < |xs| => f(xs[i]))
  }

  /** A range loop that appends one converted element per iteration. */
  method MapEach<A, B>(f: A -> B, xs: seq<A>) returns (ys: seq<B>)
    ensures ys == MapSeq(f, xs)
  {
    ys := [];
    for i := 0 to |xs|
      invariant |ys| == i && forall j :: 0 <= j < i ==> ys[j] == f(xs[j])
    {
      ys := ys + [f(xs[i])];
    }
  }

  /** The elements of a list of pointers that are not nil. */
  function NonNil<A>(xs: seq<Option<A>>): seq<A> {
    if xs == [] then []
    else
      var x := xs[|xs| - 1];
      NonNil(xs[..|xs| - 1]) + if x.Some? then [x.value] else []
  }

  lemma {:induction false} NonNilAll<A>(xs: seq<A>)
    ensures NonNil(MapSeq(x => Some(x), xs)) == xs
  {
    if xs != [] {
      var n := |xs| - 1;
      NonNilAll(xs[..n]);
      var f: A -> Option<A> := x => Some(x);
      assert MapSeq(f, xs)[..n] == MapSeq(f, xs[..n]);
    }
  }

  function LinkToProto(l: Link): ProtoLink {
    ProtoLink(l.name, l.url)
  }

  function LinkFromProto(l: ProtoLink): Link {
    Link(l.name, l.url)
  }

  function ExampleToWire(e: Example): ProtoExample {
    ProtoExample(e.name, e.description, e.yaml)
  }

  function ExampleFromWire(e: ProtoExample): Example {
    Example(e.name, e.description, e.yaml)
  }

  /** An operation's examples are a list of pointers on the wire. */
  function PointerToExample(e: Example): Option<ProtoExample> {
    Some(ExampleToWire(e))
  }

  function ContactToProto(m: Contact): ProtoContact {
    ProtoContact(m.name, m.email)
  }

  function ContactFromProto(m: ProtoContact): Contact {
    Contact(m.name, m.email)
  }

  // ---- Operations ----

  /** json.Marshal on a schema pointer, attempted only when it is not nil. */
  function RawOf(c: Codec, s: Option<Schema>): Option<Bytes> {
    if s.None? then None else c.encodeSchema(s.value)
  }

  /** A schema as raw bytes; empty when it is nil or cannot be marshalled. */
  function RawSchema(c: Codec, s: Option<Schema>): Bytes {
    var raw := RawOf(c, s);
    if raw.Some? then raw.value else []
  }

  function SchemaFromRaw(c: Codec, raw: Bytes): Option<Schema> {
    if raw == [] then None else c.decodeSchema(raw)
  }

  function OperationToProto(c: Codec, op: Operation): ProtoOperation {
    ProtoOperation(
      op.name, op.displayName, op.description, OrEmpty(op.capabilities), op.isWrite,
      RawSchema(c, op.inputSchema), RawSchema(c, op.outputSchema),
      MapSeq(PointerToExample, OrEmpty(op.examples)), op.tags, op.isDeprecated, op.deprecationMessage)
  }

  function OperationsToProto(c: Codec, ops: seq<Operation>): seq<Option<ProtoOperation>> {
    MapSeq((op: Operation) => Some(OperationToProto(c, op)), ops)
  }

  function OperationFromProto(c: Codec, po: ProtoOperation): Operation {
    Operation(
      po.name, po.displayName, po.description, NilIfEmpty(po.capabilities), po.isWrite,
      SchemaFromRaw(c, po.inputSchema), SchemaFromRaw(c, po.outputSchema),
      NilIfEmpty(MapSeq(ExampleFromWire, NonNil(po.examples))), po.tags, po.deprecated, po.deprecationMessage)
  }

  function OperationsFromProto(c: Codec, ops: seq<Option<ProtoOperation>>): Option<seq<Operation>> {
    if ops == [] then None
    else Some(MapSeq((po: ProtoOperation) => OperationFromProto(c, po), NonNil(ops)))
  }

  method ConvertOperations(c: Codec, ops: seq<Operation>) returns (out: seq<Option<ProtoOperation>>)
    ensures out == OperationsToProto(c, ops)
  {
    out := [];
    for i := 0 to |ops|
      invariant |out| == i && forall j :: 0 <= j < i ==> out[j] == Some(OperationToProto(c, ops[j]))
    {
      var op := ops[i];
      var inputSchema, outputSchema := [], [];
      if op.inputSchema.Some? {
        var raw := c.encodeSchema(op.inputSchema.value);
        if raw.Some? {
          inputSchema := raw.value;
        }
      }
      if op.outputSchema.Some? {
        var raw := c.encodeSchema(op.outputSchema.value);
        if raw.Some? {
          outputSchema := raw.value;
        }
      }
      var examples := MapEach(PointerToExample, OrEmpty(op.examples));
      out := out + [Some(ProtoOperation(op.name, op.displayName, op.description, OrEmpty(op.capabilities), op.isWrite,
                                        inputSchema, outputSchema, examples, op.tags, op.isDeprecated,
                                            op.deprecationMessage))];
    }
  }

  method RestoreOperation(c: Codec, po: ProtoOperation) returns (op: Operation)
    ensures op == OperationFromProto(c, po)
  {
    var capabilities, inputSchema, outputSchema := None, None, None;
    if |po.capabilities| > 0 {
      capabilities := Some(po.capabilities);
    }
    if |po.inputSchema| > 0 {
      inputSchema := c.decodeSchema(po.inputSchema);
    }
    if |po.outputSchema| > 0 {
      outputSchema := c.decodeSchema(po.outputSchema);
    }
    var examples := [];
    for i := 0 to |po.examples|
      invariant examples == MapSeq(ExampleFromWire, NonNil(po.examples[..i]))
    {
      assert po.examples[..i + 1][..i] == po.examples[..i];
      if po.examples[i].None? {
        continue;
      }
      examples := examples + [ExampleFromWire(po.examples[i].value)];
    }
    assert po.examples[..|po.examples|] == po.examples;
    op := Operation(po.name, po.displayName, po.description, capabilities, po.isWrite, inputSchema, outputSchema,
                    NilIfEmpty(examples), po.tags, po.deprecated, po.deprecationMessage);
  }

  method RestoreOperations(c: Codec, ops: seq<Option<ProtoOperation>>) returns (out: Option<seq<Operation>>)
    ensures out == OperationsFromProto(c, ops)
  {
    if |ops| == 0 {
      return None;
    }
    var restored := [];
    for i := 0 to |ops|
      invariant restored == MapSeq((po: ProtoOperation) => OperationFromProto(c, po), NonNil(ops[..i]))
    {
      assert ops[..i + 1][..i] == ops[..i];
      if ops[i].None? {
        continue;
      }
      var op := RestoreOperation(c, ops[i].value);
      restored := restored + [op];
    }
    assert ops[..|ops|] == ops;
    out := Some(restored);
  }

  /**
   * Nil entries are skipped: the operations are those of the non-nil subsequence. The results
   * differ, nil against empty, exactly when the list is not empty but holds nothing else.
   */
  lemma NilOperationsSkipped(c: Codec, ops: seq<Option<ProtoOperation>>)
    ensures var kept := MapSeq((po: ProtoOperation) => Some(po), NonNil(ops));
            && OrEmpty(OperationsFromProto(c, ops)) == OrEmpty(OperationsFromProto(c, kept))
            && (OperationsFromProto(c, ops) == OperationsFromProto(c, kept) <==> ops == [] || NonNil(ops) != [])
  {
    NonNilAll(NonNil(ops));
  }

  // ---- Whole descriptors ----

  /** The output schemas of these capabilities that are not nil and can be marshalled. */
  function Marshalled(c: Codec, schemas: map<Capability, Option<Schema>>): map<string, Bytes> {
    map k | k in schemas && RawOf(c, schemas[k]).Some? :: RawOf(c, schemas[k]).value
  }

  predicate NoNilInAll(schemas: map<Capability, Option<Schema>>) {
    forall k :: k in schemas && schemas[k].Some? ==> NoNilProperties(schemas[k].value)
  }

  function Structured(c: Codec, schemas: map<Capability, Option<Schema>>): map<string, Option<ProtoSchema>>
    requires NoNilInAll(schemas)
  {
    map k | k in schemas && SchemaToProto(c, schemas[k]).Some? :: SchemaToProto(c, schemas[k])
  }

  /** The conversion dereferences every property of the input and output schemas. */
  predicate Convertible(d: Descriptor) {
    && (d.schema.Some? ==> NoNilProperties(d.schema.value))
    && (d.outputSchemas.Some? ==> NoNilInAll(d.outputSchemas.value))
  }

  function SchemasOf(d: Descriptor): map<Capability, Option<Schema>> {
    if d.outputSchemas.Some? then d.outputSchemas.value else map[]
  }

  function DescriptorToProto(c: Codec, d: Descriptor): ProtoDescriptor
    requires Convertible(d)
  {
    ProtoDescriptor(
      d.name, d.displayName, d.apiVersion, if d.version.Some? then d.version.value.text else "", d.description,
      SchemaToProto(c, d.schema), RawSchema(c, d.schema),
      Structured(c, SchemasOf(d)), Marshalled(c, SchemasOf(d)),
      d.sensitiveFields, d.hasExtractDependencies, OrEmpty(d.capabilities),
      d.writeOperations, OperationsToProto(c, OrEmpty(d.operations)), d.category, d.tags, d.icon,
      MapSeq(LinkToProto, OrEmpty(d.links)), MapSeq(ExampleToWire, OrEmpty(d.examples)),
      d.isDeprecated, d.beta, MapSeq(ContactToProto, OrEmpty(d.maintainers)))
  }

  ghost function SchemaOrFallback(c: Codec, raw: Bytes, ps: Option<ProtoSchema>): Option<Schema> {
    if raw != [] && c.decodeSchema(raw).Some? then c.decodeSchema(raw)
    else if ps.Some? then Some(ProtoSchemaToJson(c, ps.value))
    else None
  }

  /** Raw schemas win as a whole: with any of them present, no structured one is read. */
  ghost function OutputsFromProto(c: Codec, raws: map<string, Bytes>, protos: map<string, Option<ProtoSchema>>)
    : Option<map<Capability, Option<Schema>>>
  {
    if |raws| > 0 then
      Some(map k | k in raws && c.decodeSchema(raws[k]).Some? :: c.decodeSchema(raws[k]))
    else if |protos| > 0 then
      Some(map k | k in protos && protos[k].Some? :: Some(ProtoSchemaToJson(c, protos[k].value)))
    else None
  }

  ghost function ProtoToDescriptor(c: Codec, parse: string -> Option<Version>, pd: ProtoDescriptor): Parsed {
    if pd.version != "" && parse(pd.version).None? then InvalidVersion(pd.name, pd.version)
    else
      Ok(Descriptor(
           pd.name, pd.displayName, pd.apiVersion, if pd.version != "" then parse(pd.version) else None, pd.description,
           SchemaOrFallback(c, pd.rawSchema, pd.schema),
           OutputsFromProto(c, pd.rawOutputSchemas, pd.outputSchemas),
           pd.sensitiveFields, false, pd.hasExtractDependencies, false, Some(pd.capabilities),
           pd.writeOperations, OperationsFromProto(c, pd.operations), pd.category, pd.tags, pd.icon,
           NilIfEmpty(MapSeq(LinkFromProto, pd.links)), NilIfEmpty(MapSeq(ExampleFromWire, pd.examples)),
           pd.deprecated, pd.beta, NilIfEmpty(MapSeq(ContactFromProto, pd.maintainers))))
  }

  method ConvertOutputs(c: Codec, schemas: map<Capability, Option<Schema>>)
    returns (raws: map<string, Bytes>, protos: map<string, Option<ProtoSchema>>)
    requires NoNilInAll(schemas)
    ensures raws == Marshalled(c, schemas) && protos == Structured(c, schemas)
  {
    raws, protos := map[], map[];
    var pending := schemas.Keys;
    while pending != {}
      invariant pending <= schemas.Keys
      invariant forall k :: k in raws <==> k in schemas && k !in pending && RawOf(c, schemas[k]).Some?
      invariant forall k :: k in raws ==> raws[k] == RawOf(c, schemas[k]).value
      invariant forall k :: k in protos <==> k in schemas && k !in pending && SchemaToProto(c, schemas[k]).Some?
      invariant forall k :: k in protos ==> protos[k] == SchemaToProto(c, schemas[k])
      decreases pending
    {
      var k :| k in pending;
      pending := pending - {k};
      if schemas[k].None? {
        continue;
      }
      var raw := c.encodeSchema(schemas[k].value);
      if raw.Some? {
        raws := raws[k := raw.value];
      }
      var ps := ConvertSchema(c, schemas[k]);
      if ps.Some? {
        protos := protos[k := ps];
      }
    }
  }

  method ConvertDescriptor(c: Codec, d: Descriptor) returns (pd: ProtoDescriptor)
    requires Convertible(d)
    ensures pd == DescriptorToProto(c, d)
  {
    var version := "";
    if d.version.Some? {
      version := d.version.value.text;
    }
    var operations := ConvertOperations(c, OrEmpty(d.operations));
    var links := MapEach(LinkToProto, OrEmpty(d.links));
    var examples := MapEach(ExampleToWire, OrEmpty(d.examples));
    var maintainers := MapEach(ContactToProto, OrEmpty(d.maintainers));
    var schema := ConvertSchema(c, d.schema);
    var rawSchema := [];
    if d.schema.Some? {
      var raw := c.encodeSchema(d.schema.value);
      if raw.Some? {
        rawSchema := raw.value;
      }
    }
    var raws, protos := ConvertOutputs(c, SchemasOf(d));
    pd := ProtoDescriptor(
      d.name, d.displayName, d.apiVersion, version, d.description, schema, rawSchema, protos, raws,
      d.sensitiveFields, d.hasExtractDependencies, OrEmpty(d.capabilities), d.writeOperations, operations,
      d.category, d.tags, d.icon, links, examples, d.isDeprecated, d.beta, maintainers);
  }

  method RestoreSchemaOrFallback(c: Codec, raw: Bytes, ps: Option<ProtoSchema>) returns (s: Option<Schema>)
    ensures s == SchemaOrFallback(c, raw, ps)
  {
    if |raw| > 0 {
      var schema := c.decodeSchema(raw);
      if schema.Some? {
        return schema;
      }
    }
    if ps.Some? {
      var restored := RestoreSchema(c, ps.value);
      return Some(restored);
    }
    return None;
  }

  method RestoreRaw(c: Codec, raws: map<string, Bytes>) returns (out: map<Capability, Option<Schema>>)
    ensures out == map k | k in raws && c.decodeSchema(raws[k]).Some? :: c.decodeSchema(raws[k])
  {
    out := map[];
    var pending := raws.Keys;
    while pending != {}
      invariant pending <= raws.Keys
      invariant out == map k | k in raws.Keys - pending && c.decodeSchema(raws[k]).Some? :: c.decodeSchema(raws[k])
      decreases pending
    {
      var k :| k in pending;
      var schema := c.decodeSchema(raws[k]);
      if schema.Some? {
        out := out[k := schema];
      }
      pending := pending - {k};
    }
  }

  method RestoreStructured(c: Codec, protos: map<string, Option<ProtoSchema>>)
    returns (out: map<Capability, Option<Schema>>)
    ensures out == map k | k in protos && protos[k].Some? :: Some(ProtoSchemaToJson(c, protos[k].value))
  {
    out := map[];
    var pending := protos.Keys;
    while pending != {}
      invariant pending <= protos.Keys
      invariant out == map k | k in protos.Keys - pending && protos[k].Some?
                         :: Some(ProtoSchemaToJson(c, protos[k].value))
      decreases pending
    {
      var k :| k in pending;
      pending := pending - {k};
      if protos[k].None? {
        continue;
      }
      var s := RestoreSchema(c, protos[k].value);
      out := out[k := Some(s)];
    }
  }

  method RestoreOutputs(c: Codec, raws: map<string, Bytes>, protos: map<string, Option<ProtoSchema>>)
    returns (out: Option<map<Capability, Option<Schema>>>)
    ensures out == OutputsFromProto(c, raws, protos)
  {
    if |raws| > 0 {
      var schemas := RestoreRaw(c, raws);
      return Some(schemas);
    }
    if |protos| > 0 {
      var schemas := RestoreStructured(c, protos);
      return Some(schemas);
    }
    return None;
  }

  method RestoreDescriptor(c: Codec, parse: string -> Option<Version>, pd: ProtoDescriptor) returns (r: Parsed)
    ensures r == ProtoToDescriptor(c, parse, pd)
  {
    var version := None;
    if pd.version != "" {
      version := parse(pd.version);
      if version.None? {
        return InvalidVersion(pd.name, pd.version);
      }
    }
    var operations := RestoreOperations(c, pd.operations);
    var links := MapEach(LinkFromProto, pd.links);
    var examples := MapEach(ExampleFromWire, pd.examples);
    var maintainers := MapEach(ContactFromProto, pd.maintainers);
    var schema := RestoreSchemaOrFallback(c, pd.rawSchema, pd.schema);
    var outputs := RestoreOutputs(c, pd.rawOutputSchemas, pd.outputSchemas);
    r := Ok(Descriptor(
              pd.name, pd.displayName, pd.apiVersion, version, pd.description, schema, outputs,
              pd.sensitiveFields, false, pd.hasExtractDependencies, false, Some(pd.capabilities),
              pd.writeOperations, operations, pd.category, pd.tags, pd.icon,
              NilIfEmpty(links), NilIfEmpty(examples), pd.deprecated, pd.beta, NilIfEmpty(maintainers)));
  }
}
