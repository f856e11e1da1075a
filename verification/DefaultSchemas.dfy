/** DefaultOutputSchemas: the least output schemas that validation accepts. */
module DefaultSchemas {
  import opened Prelude
  import opened JsonSchema
  import opened Descriptor
  import opened Validation
  import opened ValidDescriptor
  import opened ReportedErrors

  function DefaultProperties(c: Capability): map<string, Option<Schema>> {
    map f | f in RequiredFields(c) :: Some(Typed(RequiredFields(c)[f]))
  }

  function DefaultSchema(c: Capability): Schema {
    Typed("object").(properties := DefaultProperties(c))
  }

  function Defaults(caps: seq<Capability>): map<Capability, Option<Schema>> {
    map c | c in caps :: Some(DefaultSchema(c))
  }

  method DefaultSchemaForCapability(c: Capability) returns (s: Schema)
    ensures s == DefaultSchema(c)
  {
    var required := RequiredFields(c);
    var props: map<string, Option<Schema>> := map[];
    var pending := required.Keys;
    while pending != {}
      invariant pending <= required.Keys
      invariant props == map f | f in required.Keys - pending :: Some(Typed(required[f]))
      decreases pending
    {
      var f :| f in pending;
      props := props[f := Some(Typed(required[f]))];
      pending := pending - {f};
    }
    s := Typed("object").(properties := props);
  }

  method DefaultOutputSchemas(caps: seq<Capability>) returns (schemas: map<Capability, Option<Schema>>)
    ensures schemas == Defaults(caps)
  {
    schemas := map[];
    for i := 0 to |caps|
      invariant schemas == Defaults(caps[..i])
    {
      assert caps[..i + 1] == caps[..i] + [caps[i]];
      var s := DefaultSchemaForCapability(caps[i]);
      schemas := schemas[caps[i] := Some(s)];
    }
    assert caps[..|caps|] == caps;
  }

  /** One object schema for each capability listed, with just the demanded fields and nothing else. */
  lemma DefaultsAre(caps: seq<Capability>)
    ensures Defaults(caps).Keys == Elems(caps)
    ensures forall c :: c in caps ==> Defaults(caps)[c].Some? && IsDefault(c, Defaults(caps)[c].value)
  {
    forall c | c in caps ensures IsDefault(c, Defaults(caps)[c].value) {
      DemandsAre(c);
    }
  }

  ghost predicate IsDefault(c: Capability, s: Schema) {
    && s == Typed("object").(properties := s.properties)
    && (forall f :: f in s.properties ==>
          s.properties[f].Some? && s.properties[f] == Some(Typed(s.properties[f].value.typ)))
    && forall f, typ :: Demands(c, f, typ) <==>
                        f in s.properties && s.properties[f].Some? && s.properties[f].value.typ == typ
  }

  /** Extra properties and other keywords are allowed as long as the default properties stay. */
  predicate Extends(schemas: map<Capability, Option<Schema>>, caps: seq<Capability>) {
    forall c :: c in caps ==>
      && c in schemas && schemas[c].Some?
      && forall f :: f in DefaultProperties(c) ==>
           f in schemas[c].value.properties && schemas[c].value.properties[f] == DefaultProperties(c)[f]
  }

  /** A descriptor that lists no operations. */
  predicate NoOperations(d: Descriptor) {
    OrEmpty(d.writeOperations) == [] && OrEmpty(d.operations) == []
  }

  lemma DefaultsExtend(caps: seq<Capability>)
    ensures Extends(Defaults(caps), caps)
  {
  }

  /** The defaults, with anything added, are enough for any list of known capabilities. */
  lemma DefaultsSuffice(d: Descriptor)
    requires d.capabilities.Some? && d.capabilities.value != [] && NoOperations(d)
    requires forall c :: c in d.capabilities.value ==> IsValid(c)
    requires d.outputSchemas.Some? && Extends(d.outputSchemas.value, d.capabilities.value)
    ensures Errors(Some(d)) == []
  {
    forall c | c in d.capabilities.value ensures CapabilityOk(d.outputSchemas.value, c) {
      forall f | f in RequiredFields(c) ensures FieldOk(d.outputSchemas.value[c], f, RequiredFields(c)[f]) {
        assert f in DefaultProperties(c);
      }
    }
    ValidationExact(Some(d));
  }

  /** The output schemas with one property of one capability replaced, or removed when p is None. */
  function Tampered(schemas: map<Capability, Option<Schema>>, c: Capability, f: string,
                    p: Option<Schema>): map<Capability, Option<Schema>>
    requires c in schemas && schemas[c].Some?
  {
    var s := schemas[c].value;
    schemas[c := Some(s.(properties := if p.Some? then s.properties[f := p] else s.properties - {f}))]
  }

  /** Nothing can be left out: without one default property, or with another type for it, validation fails. */
  lemma DefaultsMinimal(d: Descriptor, c: Capability, f: string, p: Option<Schema>)
    requires d.capabilities.Some? && c in d.capabilities.value && f in DefaultProperties(c)
    requires d.outputSchemas.Some? && c in d.outputSchemas.value && d.outputSchemas.value[c].Some?
    requires p.Some? ==> p.value.typ != RequiredFields(c)[f]
    ensures Errors(Some(d.(outputSchemas := Some(Tampered(d.outputSchemas.value, c, f, p))))) != []
  {
    var schemas := Tampered(d.outputSchemas.value, c, f, p);
    var d' := d.(outputSchemas := Some(schemas));
    assert !FieldOk(schemas[c], f, RequiredFields(c)[f]);
    assert !CapabilityOk(schemas, c);
    assert c in OrEmpty(d'.capabilities);
    ValidationExact(Some(d'));
  }
}
