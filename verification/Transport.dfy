/** What a descriptor looks like after the trip to the host, and which of its promises survive. */
module Transport {
  import opened Prelude
  import opened JsonSchema
  import opened SchemaConversion
  import opened SchemaMeaning
  import opened Descriptor
  import opened Validation
  import opened ValidDescriptor
  import opened DescriptorConversion

  // ---- The reference: the fields that change, and how ----

  /** A schema as it arrives: unchanged if it could be marshalled, else its structured form. */
  ghost function SchemaArrives(c: Codec, s: Option<Schema>): Option<Schema>
    requires s.Some? ==> NoNilProperties(s.value)
  {
    if RawOf(c, s).Some? then s else Fallback(c, s)
  }

  /** An operation's schema has no structured form to fall back on. */
  function RawOrNil(c: Codec, s: Option<Schema>): Option<Schema> {
    if RawOf(c, s).Some? then s else None
  }

  function OperationArrives(c: Codec, op: Operation): Operation {
    op.(capabilities := NilIfEmpty(OrEmpty(op.capabilities)), examples := NilIfEmpty(OrEmpty(op.examples)),
    inputSchema := RawOrNil(c, op.inputSchema), outputSchema := RawOrNil(c, op.outputSchema))
  }

  predicate SomeMarshals(c: Codec, schemas: map<Capability, Option<Schema>>) {
    exists k :: k in schemas && RawOf(c, schemas[k]).Some?
  }

  /** An output schema arrives if it can be marshalled, or if none can and it has properties. */
  predicate Survives(c: Codec, schemas: map<Capability, Option<Schema>>, k: Capability) {
    && k in schemas
    && if SomeMarshals(c, schemas) then RawOf(c, schemas[k]).Some?
       else schemas[k].Some? && |schemas[k].value.properties| > 0
  }

  /** The entries that arrive, and whether any does: an empty result is nil. */
  ghost function OutputsArrive(c: Codec, schemas: map<Capability, Option<Schema>>)
    : Option<map<Capability, Option<Schema>>>
    requires NoNilInAll(schemas)
  {
    var out := map k | k in schemas && Survives(c, schemas, k) :: SchemaArrives(c, schemas[k]);
    if |out| == 0 then None else Some(out)
  }

  /** The descriptor the host obtains when nothing is lost on the wire itself. */
  ghost function Arrives(c: Codec, d: Descriptor): Descriptor
    requires Convertible(d)
  {
    d.(schema := SchemaArrives(c, d.schema),
    outputSchemas := OutputsArrive(c, SchemasOf(d)),
    hasDecode := false,
    hasWhatIf := false,
    capabilities := Some(OrEmpty(d.capabilities)),
    operations := NilIfEmpty(MapSeq((op: Operation) => OperationArrives(c, op), OrEmpty(d.operations))),
    links := NilIfEmpty(OrEmpty(d.links)),
    examples := NilIfEmpty(OrEmpty(d.examples)),
    maintainers := NilIfEmpty(OrEmpty(d.maintainers)))
  }

  /** The version's text parses back to it, and no version is written as the empty text. */
  predicate VersionTravels(parse: string -> Option<Version>, v: Option<Version>) {
    v.Some? ==> v.value.text != "" && parse(v.value.text) == v
  }

  // ---- The round trip ----

  lemma SchemaTrip(c: Codec, s: Option<Schema>)
    requires Laws(c) && (s.Some? ==> NoNilProperties(s.value))
    ensures SchemaOrFallback(c, RawSchema(c, s), SchemaToProto(c, s)) == SchemaArrives(c, s)
    ensures SchemaFromRaw(c, RawSchema(c, s)) == RawOrNil(c, s)
  {
    if s.Some? {
      assert SchemaLaw(c, s.value);
    }
  }

  lemma OperationTrip(c: Codec, op: Operation)
    requires Laws(c)
    ensures OperationFromProto(c, OperationToProto(c, op)) == OperationArrives(c, op)
  {
    if op.inputSchema.Some? {
      assert SchemaLaw(c, op.inputSchema.value);
    }
    if op.outputSchema.Some? {
      assert SchemaLaw(c, op.outputSchema.value);
    }
    var examples := OrEmpty(op.examples);
    var wired := MapSeq(ExampleToWire, examples);
    NonNilAll(wired);
    assert MapSeq(PointerToExample, examples) == MapSeq(x => Some(x), wired);
    assert MapSeq(ExampleFromWire, wired) == examples;
  }

  lemma OperationsTrip(c: Codec, ops: seq<Operation>)
    requires Laws(c)
    ensures OperationsFromProto(c, OperationsToProto(c, ops)) ==
            NilIfEmpty(MapSeq((op: Operation) => OperationArrives(c, op), ops))
  {
    var wired := MapSeq((op: Operation) => OperationToProto(c, op), ops);
    NonNilAll(wired);
    assert OperationsToProto(c, ops) == MapSeq(x => Some(x), wired);
    forall i | 0 <= i < |ops| ensures OperationFromProto(c, wired[i]) == OperationArrives(c, ops[i]) {
      OperationTrip(c, ops[i]);
    }
    assert MapSeq((po: ProtoOperation) => OperationFromProto(c, po), wired) ==
           MapSeq((op: Operation) => OperationArrives(c, op), ops);
  }

  lemma EmptyMap<K, V>(m: map<K, V>)
    ensures |m| == 0 <==> forall k :: k !in m
  {
    assert |m| == |m.Keys|;
    if |m| != 0 {
      var k :| k in m.Keys;
    }
  }

  lemma OutputsTrip(c: Codec, schemas: map<Capability, Option<Schema>>)
    requires Laws(c) && NoNilInAll(schemas)
    ensures OutputsFromProto(c, Marshalled(c, schemas), Structured(c, schemas)) == OutputsArrive(c, schemas)
  {
    var raws := Marshalled(c, schemas);
    var protos := Structured(c, schemas);
    var arrived := map k | k in schemas && Survives(c, schemas, k) :: SchemaArrives(c, schemas[k]);
    EmptyMap(raws);
    EmptyMap(protos);
    EmptyMap(arrived);
    if SomeMarshals(c, schemas) {
      var k :| k in schemas && RawOf(c, schemas[k]).Some?;
      assert k in raws && k in arrived;
      RawOutputsTrip(c, schemas);
    } else {
      assert raws == map[];
      StructuredOutputsTrip(c, schemas);
    }
  }

  lemma RawOutputsTrip(c: Codec, schemas: map<Capability, Option<Schema>>)
    requires Laws(c) && NoNilInAll(schemas) && SomeMarshals(c, schemas)
    ensures var raws := Marshalled(c, schemas);
            (map k | k in raws && c.decodeSchema(raws[k]).Some? :: c.decodeSchema(raws[k]))
            == map k | k in schemas && Survives(c, schemas, k) :: SchemaArrives(c, schemas[k])
  {
    var raws := Marshalled(c, schemas);
    forall k | k in raws ensures c.decodeSchema(raws[k]) == schemas[k] {
      assert SchemaLaw(c, schemas[k].value);
    }
  }

  lemma StructuredOutputsTrip(c: Codec, schemas: map<Capability, Option<Schema>>)
    requires NoNilInAll(schemas) && !SomeMarshals(c, schemas)
    ensures var protos := Structured(c, schemas);
            && protos.Keys == (set k | k in schemas && Survives(c, schemas, k))
            && (map k | k in protos && protos[k].Some? :: Some(ProtoSchemaToJson(c, protos[k].value)))
               == map k | k in schemas && Survives(c, schemas, k) :: SchemaArrives(c, schemas[k])
  {
    forall k | k in schemas
      ensures SchemaToProto(c, schemas[k]).Some? <==> Survives(c, schemas, k)
      ensures SchemaArrives(c, schemas[k]) == Fallback(c, schemas[k])
    {
      assert RawOf(c, schemas[k]).None?;
    }
  }

  lemma ListsTrip(d: Descriptor)
    ensures MapSeq(LinkFromProto, MapSeq(LinkToProto, OrEmpty(d.links))) == OrEmpty(d.links)
    ensures MapSeq(ExampleFromWire, MapSeq(ExampleToWire, OrEmpty(d.examples))) == OrEmpty(d.examples)
    ensures MapSeq(ContactFromProto, MapSeq(ContactToProto, OrEmpty(d.maintainers))) == OrEmpty(d.maintainers)
  {
  }

  /** Converting to the wire and back yields the reference, for every convertible descriptor. */
  lemma DescriptorTrip(c: Codec, parse: string -> Option<Version>, d: Descriptor)
    requires Laws(c) && Convertible(d) && VersionTravels(parse, d.version)
    ensures ProtoToDescriptor(c, parse, DescriptorToProto(c, d)) == Ok(Arrives(c, d))
  {
    SchemaTrip(c, d.schema);
    OutputsTrip(c, SchemasOf(d));
    OperationsTrip(c, OrEmpty(d.operations));
    ListsTrip(d);
  }

  // ---- proto3 forgets the difference between nil and empty lists ----

  function Forget<T>(xs: Option<seq<T>>): Option<seq<T>> {
    NilIfEmpty(OrEmpty(xs))
  }

  function WireOperation(po: Option<ProtoOperation>): Option<ProtoOperation> {
    if po.None? then None else Some(po.value.(tags := Forget(po.value.tags)))
  }

  /** Serialising and parsing the message: repeated fields lose the nil-versus-empty distinction. */
  function Wire(pd: ProtoDescriptor): ProtoDescriptor {
    pd.(sensitiveFields := Forget(pd.sensitiveFields), tags := Forget(pd.tags),
    writeOperations := Forget(pd.writeOperations), operations := MapSeq(WireOperation, pd.operations))
  }

  /** The host's view of a descriptor, or the parse error. */
  ghost function Received(c: Codec, parse: string -> Option<Version>, d: Descriptor): Parsed
    requires Convertible(d)
  {
    ProtoToDescriptor(c, parse, Wire(DescriptorToProto(c, d)))
  }

  lemma WiredOperations(c: Codec, ops: seq<Operation>)
    ensures MapSeq(WireOperation, OperationsToProto(c, ops)) ==
            OperationsToProto(c, MapSeq((op: Operation) => op.(tags := Forget(op.tags)), ops))
  {
  }

  /** A descriptor whose passed-on lists are never empty and non-nil. */
  function Forgetful(d: Descriptor): Descriptor {
    d.(sensitiveFields := Forget(d.sensitiveFields),
    tags := Forget(d.tags),
    writeOperations := Forget(d.writeOperations),
    operations := if d.operations.None? then None
    else Some(MapSeq((op: Operation) => op.(tags := Forget(op.tags)), d.operations.value)))
  }

  lemma ReceivedIs(c: Codec, parse: string -> Option<Version>, d: Descriptor)
    requires Laws(c) && Convertible(d) && VersionTravels(parse, d.version)
    ensures Received(c, parse, d) == Ok(Arrives(c, Forgetful(d)))
  {
    WiredOperations(c, OrEmpty(d.operations));
    assert Wire(DescriptorToProto(c, d)) == DescriptorToProto(c, Forgetful(d));
    DescriptorTrip(c, parse, Forgetful(d));
  }

  // ---- What survives ----

  lemma CoverArrives(c: Codec, s: Option<Schema>, k: Capability)
    requires s.Some? && NoNilProperties(s.value) && SchemaCovers(s, k)
    requires RawOf(c, s).Some? || |s.value.properties| > 0
    ensures SchemaCovers(SchemaArrives(c, s), k)
  {
    if RawOf(c, s).None? {
      RestoredForm(c, s.value);
    }
  }

  lemma OutputsArriveValid(c: Codec, schemas: map<Capability, Option<Schema>>, caps: seq<Capability>)
    requires NoNilInAll(schemas) && caps != []
    requires forall k :: k in caps ==> CapabilityOk(schemas, k)
    ensures var out := OutputsArrive(c, schemas);
            out.Some? && (forall k :: k in caps ==> CapabilityOk(out.value, k))
            <==> forall k :: k in caps ==> Survives(c, schemas, k)
  {
    var arrived := map k | k in schemas && Survives(c, schemas, k) :: SchemaArrives(c, schemas[k]);
    EmptyMap(arrived);
    assert forall k :: k in arrived <==> k in schemas && Survives(c, schemas, k);
    forall k | k in caps && Survives(c, schemas, k) ensures CapabilityOk(arrived, k) {
      CoverArrives(c, schemas[k], k);
    }
    if forall k :: k in caps ==> Survives(c, schemas, k) {
      assert caps[0] in caps;
      assert caps[0] in arrived;
    }
  }

  /** The host's input schema accepts every object that the plugin's accepts, if raw JSON travels or no bound wraps. */
  lemma ReceivedSchemaAccepts(c: Codec, parse: string -> Option<Version>, d: Descriptor, v: Json, m: Meanings)
    requires Laws(c) && Convertible(d) && VersionTravels(parse, d.version) && IsObjectDocument(c, v)
    requires d.schema.Some? && RawOf(c, d.schema).None? ==>
               forall name :: name in d.schema.value.properties ==> BoundsFit(d.schema.value.properties[name].value)
    requires AcceptsAny(d.schema, v, m)
    ensures Received(c, parse, d).Ok? && AcceptsAny(Received(c, parse, d).descriptor.schema, v, m)
  {
    ReceivedIs(c, parse, d);
    if d.schema.Some? && RawOf(c, d.schema).None? {
      FallbackWeakens(c, d.schema.value, v, m);
    }
  }

  predicate SameClassification(ops: seq<Operation>, arrived: seq<Operation>) {
    && |ops| == |arrived|
    && forall i :: 0 <= i < |ops| ==>
         && arrived[i].name == ops[i].name && arrived[i].isWrite == ops[i].isWrite
         && OrEmpty(arrived[i].capabilities) == OrEmpty(ops[i].capabilities)
  }

  lemma OperationsClassifiedAlike(c: Codec, d: Descriptor)
    requires Convertible(d)
    ensures SameClassification(OrEmpty(d.operations), OrEmpty(Arrives(c, Forgetful(d)).operations))
  {
  }

  /**
   * A valid descriptor arrives valid exactly when the output schema of every declared capability
   * arrives: one nil entry, or one unmarshallable schema beside a marshallable one, is enough to
   * make the host reject what the plugin validated.
   */
  lemma ValidityArrives(c: Codec, parse: string -> Option<Version>, d: Descriptor)
    requires Laws(c) && Convertible(d) && VersionTravels(parse, d.version) && Valid(d)
    ensures Received(c, parse, d).Ok?
    ensures Valid(Received(c, parse, d).descriptor) <==>
            forall k :: k in d.capabilities.value ==> Survives(c, d.outputSchemas.value, k)
  {
    ReceivedIs(c, parse, d);
    var a := Received(c, parse, d).descriptor;
    OutputsArriveValid(c, d.outputSchemas.value, d.capabilities.value);
    OperationsClassifiedAlike(c, d);
    OperationsOkArrive(d, a);
  }

  lemma OperationsOkArrive(d: Descriptor, a: Descriptor)
    requires OperationsOk(d) && SameClassification(OrEmpty(d.operations), OrEmpty(a.operations))
    requires OrEmpty(a.capabilities) == OrEmpty(d.capabilities)
    requires a.writeOperations == d.writeOperations || a.writeOperations.None?
    ensures OperationsOk(a)
  {
  }

  /** nil output entries are legal for capabilities without required fields, and do not arrive. */
  lemma NilEntryLost(c: Codec, parse: string -> Option<Version>, d: Descriptor)
    requires Laws(c) && Convertible(d) && VersionTravels(parse, d.version)
    requires d.capabilities == Some([FROM]) && d.outputSchemas == Some(map[FROM := None])
    requires d.writeOperations.None? && d.operations.None?
    ensures Errors(Some(d)) == [] && Received(c, parse, d).Ok?
    ensures Errors(Some(Received(c, parse, d).descriptor)) != []
  {
    ValidationExact(Some(d));
    ValidityArrives(c, parse, d);
    assert FROM in d.capabilities.value && !Survives(c, d.outputSchemas.value, FROM);
    ValidationExact(Some(Received(c, parse, d).descriptor));
  }

  /** The only statement about writes is an empty list: all operations are reads. */
  predicate SaysAllReads(d: Descriptor) {
    d.writeOperations == Some([]) && OrEmpty(d.operations) == []
  }

  lemma {:induction false} WriteNamesAlike(ops: seq<Operation>, arrived: seq<Operation>)
    requires SameClassification(ops, arrived)
    ensures WriteNames(ops) == WriteNames(arrived)
  {
    if ops != [] {
      WriteNamesAlike(ops[..|ops| - 1], arrived[..|ops| - 1]);
    }
  }

  lemma FirstNamedAlike(ops: seq<Operation>, arrived: seq<Operation>, name: string)
    requires SameClassification(ops, arrived)
    ensures FirstNamed(ops, name) == FirstNamed(arrived, name)
  {
    var i, j := FirstNamed(ops, name), FirstNamed(arrived, name);
    if i.Some? {
      assert arrived[i.value].name == name;
    }
    if j.Some? {
      assert ops[j.value].name == name;
    }
  }

  lemma {:induction false} NoWriteNames(ops: seq<Operation>)
    requires forall i :: 0 <= i < |ops| ==> !ops[i].isWrite
    ensures WriteNames(ops) == []
  {
    if ops != [] {
      NoWriteNames(ops[..|ops| - 1]);
    }
  }

  /**
   * The host classifies every operation of a valid descriptor as the plugin does, although an
   * empty write list arrives as nil. Only the answer "all reads" can turn into "unknown", exactly
   * when the write list was empty and no operations were declared.
   */
  lemma ClassificationArrives(c: Codec, parse: string -> Option<Version>, d: Descriptor, name: string)
    requires Laws(c) && Convertible(d) && VersionTravels(parse, d.version) && Valid(d)
    ensures Received(c, parse, d).Ok?
    ensures var a := Received(c, parse, d).descriptor;
            && (IsWrite(a, name) <==> IsWrite(d, name))
            && OrEmpty(EffectiveWrites(a)) == OrEmpty(EffectiveWrites(d))
            && (EffectiveWrites(a) == EffectiveWrites(d) <==> !SaysAllReads(d))
  {
    ReceivedIs(c, parse, d);
    OperationsClassifiedAlike(c, d);
    ClassifiedAlike(d, Received(c, parse, d).descriptor, name);
  }

  lemma ClassifiedAlike(d: Descriptor, a: Descriptor, name: string)
    requires OperationsOk(d) && SameClassification(OrEmpty(d.operations), OrEmpty(a.operations))
    requires a.writeOperations == Forget(d.writeOperations)
    ensures IsWrite(a, name) <==> IsWrite(d, name)
    ensures OrEmpty(EffectiveWrites(a)) == OrEmpty(EffectiveWrites(d))
    ensures EffectiveWrites(a) == EffectiveWrites(d) <==> !SaysAllReads(d)
  {
    var ops, arrived := OrEmpty(d.operations), OrEmpty(a.operations);
    WriteNamesAlike(ops, arrived);
    FirstNamedAlike(ops, arrived, name);
    if d.writeOperations == Some([]) {
      assert forall i :: 0 <= i < |ops| ==> !ops[i].isWrite;
      NoWriteNames(ops);
    }
  }
}
