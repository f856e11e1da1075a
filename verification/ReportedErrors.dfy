/** Which errors ValidateDescriptor reports, one by one, and in which order. */
module ReportedErrors {
  import opened Prelude
  import opened Ordering
  import opened JsonSchema
  import opened Descriptor
  import opened Validation
  import opened ValidDescriptor

  // ---- The rules for output schemas ----

  predicate Known(c: Capability) {
    c in {"from", "transform", "validation", "authentication", "action", "state", "kubeconfig"}
  }

  /** The output schema of capability c must have this field with this JSON type. */
  predicate Demands(c: Capability, field: string, typ: string) {
    match c
    case "validation" => (field == "valid" && typ == "boolean") || (field == "errors" && typ == "array")
    case "authentication" => (field == "authenticated" && typ == "boolean") || (field == "token" && typ == "string")
    case "action" => field == "success" && typ == "boolean"
    case "state" => field == "success" && typ == "boolean"
    case "kubeconfig" => field == "success" && typ == "boolean"
    case _ => false
  }

  lemma DemandsAre(c: Capability)
    ensures IsValid(c) <==> Known(c)
    ensures forall f, typ :: Demands(c, f, typ) <==> f in RequiredFields(c) && RequiredFields(c)[f] == typ
  {
  }

  ghost predicate Declares(schemas: map<Capability, Option<Schema>>, c: Capability) {
    && Known(c) && c in schemas
    && forall field, typ :: Demands(c, field, typ) ==> FieldOk(schemas[c], field, typ)
  }

  /** A descriptor is valid exactly when these rules and the two on operations hold. */
  lemma ValidationRules(d: Descriptor)
    ensures Errors(Some(d)) == [] <==>
            && OrEmpty(d.capabilities) != [] && d.outputSchemas.Some?
            && (forall c :: c in d.capabilities.value ==> Declares(d.outputSchemas.value, c))
            && WritesOk(OrEmpty(d.writeOperations)) && OperationsOk(d)
  {
    ValidationExact(Some(d));
    if d.outputSchemas.Some? {
      forall c ensures CapabilityOk(d.outputSchemas.value, c) <==> Declares(d.outputSchemas.value, c) {
        DeclaresIs(d.outputSchemas.value, c);
      }
    }
  }

  lemma DeclaresIs(schemas: map<Capability, Option<Schema>>, c: Capability)
    ensures CapabilityOk(schemas, c) <==> Declares(schemas, c)
  {
    DemandsAre(c);
    if Declares(schemas, c) {
      forall f | f in RequiredFields(c) ensures FieldOk(schemas[c], f, RequiredFields(c)[f]) {
        assert Demands(c, f, RequiredFields(c)[f]);
      }
    }
  }

  // ---- The meaning of each error ----

  predicate Lacks(schema: Option<Schema>, field: string) {
    schema.None? || field !in schema.value.properties || schema.value.properties[field].None?
  }

  /** An error about a declared capability and its output schema. */
  ghost predicate SchemaReported(schemas: map<Capability, Option<Schema>>, c: Capability, e: Error) {
    match e
    case UnknownCapability(k) => k == c && !Known(c)
    case MissingSchema(k) => k == c && Known(c) && c !in schemas
    case MissingField(k, f) => k == c && c in schemas && Lacks(schemas[c], f) && exists typ :: Demands(c, f, typ)
    case WrongFieldType(k, f, expected, got) =>
      && k == c && c in schemas && Demands(c, f, expected) && !Lacks(schemas[c], f)
      && got == schemas[c].value.properties[f].value.typ != expected
    case _ => false
  }

  /** An error about the list of write operations; its loop stops at the first empty name. */
  ghost predicate WriteReported(ws: seq<string>, e: Error) {
    match e
    case EmptyWriteOperation => "" in ws
    case DuplicateWriteOperation(w) =>
      exists i :: 0 <= i < |ws| && ws[i] == w && w in ws[..i] && "" !in ws[..i]
    case _ => false
  }

  /** An error about the i-th operation. */
  ghost predicate OperationReported(ops: seq<Operation>, i: nat, caps: seq<Capability>, writes: Option<seq<string>>,
                                    e: Error)
    requires i < |ops|
  {
    var op := ops[i];
    match e
    case EmptyOperationName => op.name == ""
    case DuplicateOperation(name) => name == op.name != "" && exists j :: 0 <= j < i && ops[j].name == name
    case OperationUnknownCapability(name, c) =>
      name == op.name != "" && c in OrEmpty(op.capabilities) && !Known(c)
    case OperationForeignCapability(name, c) =>
      name == op.name != "" && c in OrEmpty(op.capabilities) && Known(c) && c !in caps
    case WriteNotListed(name) => name == op.name != "" && op.isWrite && writes.Some? && name !in writes.value
    case _ => false
  }

  /** A listed name whose last operation is not a write. */
  ghost predicate ReverseReported(ops: seq<Operation>, ws: seq<string>, e: Error) {
    && e.ListedNotWrite? && e.op in ws && e.op != ""
    && exists i :: 0 <= i < |ops| && ops[i].name == e.op && !ops[i].isWrite
                   && forall j :: i < j < |ops| ==> ops[j].name != e.op
  }

  ghost predicate Reported(d: Descriptor, e: Error) {
    if OrEmpty(d.capabilities) == [] then e == NoCapabilities
    else if d.outputSchemas.None? then e == NilOutputSchemas
    else
      var caps, ops := d.capabilities.value, OrEmpty(d.operations);
      || (exists c :: c in caps && SchemaReported(d.outputSchemas.value, c, e))
      || WriteReported(OrEmpty(d.writeOperations), e)
      || (exists i :: 0 <= i < |ops| && OperationReported(ops, i, caps, d.writeOperations, e))
      || ReverseReported(ops, OrEmpty(d.writeOperations), e)
  }

  // ---- Each loop reports exactly these ----

  lemma {:induction false} FieldsMembers(c: Capability, schema: Option<Schema>, fields: seq<string>, e: Error)
    requires forall f :: f in fields ==> f in RequiredFields(c)
    ensures e in FieldsErrors(c, schema, fields) <==> exists f :: f in fields && e in FieldErrors(c, schema, f)
  {
    if fields != [] {
      var n := |fields| - 1;
      FieldsMembers(c, schema, fields[..n], e);
      assert fields == fields[..n] + [fields[n]];
    }
  }

  lemma FieldReports(c: Capability, schema: Option<Schema>, f: string, e: Error)
    requires f in RequiredFields(c)
    ensures e in FieldErrors(c, schema, f) <==>
            var typ := RequiredFields(c)[f];
            || (e == MissingField(c, f) && Lacks(schema, f))
            || (!Lacks(schema, f) && schema.value.properties[f].value.typ != typ
                && e == WrongFieldType(c, f, typ, schema.value.properties[f].value.typ))
  {
  }

  lemma FieldReported(schemas: map<Capability, Option<Schema>>, c: Capability, f: string, e: Error)
    requires Known(c) && c in schemas && f in RequiredFields(c)
    ensures e in FieldErrors(c, schemas[c], f) <==> SchemaReported(schemas, c, e) && e.field == f
  {
    DemandsAre(c);
    FieldReports(c, schemas[c], f, e);
    assert Demands(c, f, RequiredFields(c)[f]);
  }

  lemma SchemaReports(schemas: map<Capability, Option<Schema>>, c: Capability, e: Error)
    ensures e in CapabilityErrors(schemas, c) <==> SchemaReported(schemas, c, e)
  {
    DemandsAre(c);
    if Known(c) && c in schemas {
      var fields := Listing(RequiredFields(c).Keys);
      assert forall f :: f in fields <==> f in Elems(fields);
      FieldsMembers(c, schemas[c], fields, e);
      forall f | f in fields
        ensures e in FieldErrors(c, schemas[c], f) <==> SchemaReported(schemas, c, e) && e.field == f
      {
        FieldReported(schemas, c, f, e);
      }
    }
  }

  lemma {:induction false} SchemasReport(schemas: map<Capability, Option<Schema>>, caps: seq<Capability>, e: Error)
    ensures e in CapabilitiesErrors(schemas, caps) <==> exists c :: c in caps && SchemaReported(schemas, c, e)
  {
    if caps != [] {
      var n := |caps| - 1;
      SchemasReport(schemas, caps[..n], e);
      SchemaReports(schemas, caps[n], e);
      assert caps == caps[..n] + [caps[n]];
    }
  }

  lemma {:induction false} WritesReport(ws: seq<string>, e: Error)
    ensures e in WriteErrors(ws) <==> WriteReported(ws, e)
  {
    if ws != [] {
      var n := |ws| - 1;
      WritesReport(ws[..n], e);
      assert ws == ws[..n] + [ws[n]];
      assert forall i :: 0 <= i <= n ==> ws[..n][..i] == ws[..i];
      assert forall i :: 0 <= i < n ==> ws[..n][i] == ws[i];
    }
  }

  predicate OpCapabilityReported(name: string, caps: seq<Capability>, provided: set<Capability>, e: Error) {
    match e
    case OperationUnknownCapability(op, c) => op == name && c in caps && !Known(c)
    case OperationForeignCapability(op, c) => op == name && c in caps && Known(c) && c !in provided
    case _ => false
  }

  lemma {:induction false} OpCapabilitiesReport(name: string, caps: seq<Capability>, provided: set<Capability>,
                                                e: Error)
    ensures e in OpCapabilityErrors(name, caps, provided) <==> OpCapabilityReported(name, caps, provided, e)
  {
    if caps != [] {
      var n := |caps| - 1;
      OpCapabilitiesReport(name, caps[..n], provided, e);
      Snoc(caps);
      DemandsAre(caps[n]);
    }
  }

  lemma OperationReports(ops: seq<Operation>, i: nat, caps: seq<Capability>, writes: Option<seq<string>>, e: Error)
    requires i < |ops|
    ensures e in OperationErrors(ops[i], Elems(Names(ops[..i])), Elems(caps), NamesListed(writes)) <==>
            OperationReported(ops, i, caps, writes, e)
  {
    var op := ops[i];
    OpCapabilitiesReport(op.name, OrEmpty(op.capabilities), Elems(caps), e);
    if op.name != "" && e == DuplicateOperation(op.name) {
      NamesMembers(ops[..i], op.name);
      assert forall j :: 0 <= j < i ==> ops[..i][j] == ops[j];
    }
  }

  function NamesListed(writes: Option<seq<string>>): Option<set<string>> {
    if writes.Some? then Some(Elems(writes.value)) else None
  }

  /** The loop over operations reports e at the i-th one. */
  predicate ReportedAt(ops: seq<Operation>, i: nat, provided: set<Capability>, writes: Option<set<string>>, e: Error)
    requires i < |ops|
  {
    e in OperationErrors(ops[i], Elems(Names(ops[..i])), provided, writes)
  }

  lemma LastReports(ops: seq<Operation>, provided: set<Capability>, writes: Option<set<string>>, e: Error)
    requires ops != []
    ensures var n := |ops| - 1;
            e in OperationsErrors(ops, provided, writes) <==>
            e in OperationsErrors(ops[..n], provided, writes) || ReportedAt(ops, n, provided, writes, e)
  {
  }

  lemma {:induction false} ReportedStays(ops: seq<Operation>, more: seq<Operation>, provided: set<Capability>,
                                         writes: Option<set<string>>, e: Error)
    requires e in OperationsErrors(ops, provided, writes)
    ensures e in OperationsErrors(ops + more, provided, writes)
  {
    if more == [] {
      assert ops + more == ops;
    } else {
      AppendSnoc(ops, more);
      ReportedStays(ops, more[..|more| - 1], provided, writes, e);
      LastReports(ops + more, provided, writes, e);
    }
  }

  lemma ReportedOnce(before: seq<Operation>, op: Operation, more: seq<Operation>, provided: set<Capability>,
                     writes: Option<set<string>>, e: Error)
    requires e in OperationErrors(op, Elems(Names(before)), provided, writes)
    ensures e in OperationsErrors(before + [op] + more, provided, writes)
  {
    assert (before + [op])[..|before|] == before;
    ReportedStays(before + [op], more, provided, writes, e);
  }

  lemma {:induction false} ReportedSomewhere(ops: seq<Operation>, provided: set<Capability>,
                                             writes: Option<set<string>>, e: Error) returns (i: nat)
    requires e in OperationsErrors(ops, provided, writes)
    ensures i < |ops| && ReportedAt(ops, i, provided, writes, e)
  {
    LastReports(ops, provided, writes, e);
    i := |ops| - 1;
    if !ReportedAt(ops, i, provided, writes, e) {
      var n := i;
      i := ReportedSomewhere(ops[..n], provided, writes, e);
      PrefixOfPrefix(ops, n, i);
    }
  }

  lemma {:induction false} ReverseMembers(ws: seq<string>, classified: map<string, bool>, e: Error)
    ensures e in ReverseErrors(ws, classified) <==>
            e.ListedNotWrite? && e.op in ws && e.op in classified && !classified[e.op]
  {
    if ws != [] {
      var n := |ws| - 1;
      ReverseMembers(ws[..n], classified, e);
      assert ws == ws[..n] + [ws[n]];
    }
  }

  /** An operation's name is classified by the last operation that has it. */
  lemma {:induction false} ClassifiedByLast(ops: seq<Operation>, name: string, write: bool)
    ensures name in Classified(ops) && Classified(ops)[name] == write <==>
            && name != ""
            && exists i :: 0 <= i < |ops| && ops[i].name == name && ops[i].isWrite == write
                           && forall j :: i < j < |ops| ==> ops[j].name != name
  {
    if ops != [] {
      var n := |ops| - 1;
      ClassifiedByLast(ops[..n], name, write);
      assert forall i :: 0 <= i < n ==> ops[..n][i] == ops[i];
    }
  }

  /** ValidateDescriptor reports exactly the errors that the descriptor has. */
  lemma ErrorsAre(d: Descriptor, e: Error)
    ensures e in Errors(Some(d)) <==> Reported(d, e)
    ensures Errors(None) == [NilDescriptor]
  {
    if OrEmpty(d.capabilities) != [] && d.outputSchemas.Some? {
      SchemasReport(d.outputSchemas.value, d.capabilities.value, e);
      WritesReport(OrEmpty(d.writeOperations), e);
      OperationsPartReports(d, e);
    }
  }

  lemma OperationsReport(ops: seq<Operation>, caps: seq<Capability>, writes: Option<seq<string>>, e: Error)
    ensures e in OperationsErrors(ops, Elems(caps), NamesListed(writes)) <==>
            exists i :: 0 <= i < |ops| && OperationReported(ops, i, caps, writes, e)
  {
    if e in OperationsErrors(ops, Elems(caps), NamesListed(writes)) {
      var i := ReportedSomewhere(ops, Elems(caps), NamesListed(writes), e);
      OperationReports(ops, i, caps, writes, e);
    }
    if i :| 0 <= i < |ops| && OperationReported(ops, i, caps, writes, e) {
      OperationReports(ops, i, caps, writes, e);
      ReportedOnce(ops[..i], ops[i], ops[i + 1..], Elems(caps), NamesListed(writes), e);
      SplitAt(ops, i);
    }
  }

  lemma OperationsPartReports(d: Descriptor, e: Error)
    ensures var ops, caps := OrEmpty(d.operations), OrEmpty(d.capabilities);
            e in OperationsPart(d) <==>
            || (exists i :: 0 <= i < |ops| && OperationReported(ops, i, caps, d.writeOperations, e))
            || ReverseReported(ops, OrEmpty(d.writeOperations), e)
  {
    var ops := OrEmpty(d.operations);
    OperationsReport(ops, OrEmpty(d.capabilities), d.writeOperations, e);
    ReverseMembers(OrEmpty(d.writeOperations), Classified(ops), e);
    if e.ListedNotWrite? {
      ClassifiedByLast(ops, e.op, false);
    }
  }

  // ---- The order of the errors ----

  /** The four loops, in the order in which they run. */
  function Loop(e: Error): nat {
    match e
    case UnknownCapability(_) => 0
    case MissingSchema(_) => 0
    case MissingField(_, _) => 0
    case WrongFieldType(_, _, _, _) => 0
    case EmptyWriteOperation => 1
    case DuplicateWriteOperation(_) => 1
    case ListedNotWrite(_) => 3
    case _ => 2
  }

  lemma LoopOf(schemas: map<Capability, Option<Schema>>, caps: seq<Capability>, ops: seq<Operation>,
               ws: Option<seq<string>>, classified: map<string, bool>, e: Error)
    ensures e in CapabilitiesErrors(schemas, caps) ==> Loop(e) == 0
    ensures e in WriteErrors(OrEmpty(ws)) ==> Loop(e) == 1
    ensures e in OperationsErrors(ops, Elems(caps), NamesListed(ws)) ==> Loop(e) == 2
    ensures e in ReverseErrors(OrEmpty(ws), classified) ==> Loop(e) == 3
  {
    SchemasReport(schemas, caps, e);
    WritesReport(OrEmpty(ws), e);
    OperationsReport(ops, caps, ws, e);
    ReverseMembers(OrEmpty(ws), classified, e);
  }

  predicate InOrder(errs: seq<Error>) {
    forall i, j :: 0 <= i < j < |errs| ==> Loop(errs[i]) <= Loop(errs[j])
  }

  lemma OrderedAppend(a: seq<Error>, b: seq<Error>, k: nat)
    requires InOrder(a) && InOrder(b)
    requires (forall e :: e in a ==> Loop(e) <= k) && (forall e :: e in b ==> k <= Loop(e))
    ensures InOrder(a + b)
  {
  }

  lemma LoopOrder(d: Descriptor)
    ensures InOrder(Errors(Some(d)))
  {
    if OrEmpty(d.capabilities) != [] && d.outputSchemas.Some? {
      var schemas, caps := d.outputSchemas.value, d.capabilities.value;
      var ws, ops := d.writeOperations, OrEmpty(d.operations);
      var schemaErrs := CapabilitiesErrors(schemas, caps);
      var writeErrs := WriteErrors(OrEmpty(ws));
      var opErrs := OperationsErrors(ops, Elems(caps), NamesListed(ws));
      var reverse := ReverseErrors(OrEmpty(ws), Classified(ops));
      assert OperationsPart(d) == if ops == [] then [] else opErrs + reverse;
      forall e
        ensures e in schemaErrs ==> Loop(e) == 0
        ensures e in writeErrs ==> Loop(e) == 1
        ensures e in opErrs ==> Loop(e) == 2
        ensures e in reverse ==> Loop(e) == 3
      {
        LoopOf(schemas, caps, ops, ws, Classified(ops), e);
      }
      OrderedAppend(schemaErrs, writeErrs, 1);
      OrderedAppend(opErrs, reverse, 3);
      OrderedAppend(schemaErrs + writeErrs, OperationsPart(d), 2);
    }
  }

  /** The checks of one operation, in order: its name, its capabilities, the list of writes. */
  function Stage(e: Error): nat {
    match e
    case DuplicateOperation(_) => 0
    case OperationUnknownCapability(_, _) => 1
    case OperationForeignCapability(_, _) => 1
    case _ => 2
  }

  lemma StageOrder(op: Operation, seen: set<string>, provided: set<Capability>, writes: Option<set<string>>,
                   i: nat, j: nat)
    requires i < j < |OperationErrors(op, seen, provided, writes)|
    ensures var errs := OperationErrors(op, seen, provided, writes);
            Stage(errs[i]) <= Stage(errs[j])
  {
    var caps := OrEmpty(op.capabilities);
    forall e | e in OpCapabilityErrors(op.name, caps, provided) ensures Stage(e) == 1 {
      OpCapabilitiesReport(op.name, caps, provided, e);
    }
  }

  /** The fields of one capability are checked in sorted order, each after the ones before it. */
  lemma FieldsInOrder(schemas: map<Capability, Option<Schema>>, c: Capability, fields: seq<string>, f: string)
    requires IsValid(c) && c in schemas && f in RequiredFields(c)
    requires forall g :: g in fields ==> g in RequiredFields(c)
    ensures FieldsErrors(c, schemas[c], fields) <= FieldsErrors(c, schemas[c], fields + [f])
    ensures exists sorted :: StrictlySorted(sorted) && Elems(sorted) == RequiredFields(c).Keys
                             && CapabilityErrors(schemas, c) == FieldsErrors(c, schemas[c], sorted)
  {
    assert (fields + [f])[..|fields|] == fields;
    var sorted := Listing(RequiredFields(c).Keys);
    assert forall g :: g in sorted <==> g in Elems(sorted);
    assert CapabilityErrors(schemas, c) == FieldsErrors(c, schemas[c], sorted);
  }

  /** Within a loop, what a longer input adds is reported after what the shorter one had. */
  lemma LoopsAppend(schemas: map<Capability, Option<Schema>>, caps: seq<Capability>, c: Capability,
                    ws: seq<string>, w: string, ops: seq<Operation>, op: Operation, name: string,
                    provided: set<Capability>, writes: Option<set<string>>, classified: map<string, bool>)
    ensures CapabilitiesErrors(schemas, caps) <= CapabilitiesErrors(schemas, caps + [c])
    ensures WriteErrors(ws) <= WriteErrors(ws + [w])
    ensures OperationsErrors(ops, provided, writes) <= OperationsErrors(ops + [op], provided, writes)
    ensures OpCapabilityErrors(name, caps, provided) <= OpCapabilityErrors(name, caps + [c], provided)
    ensures ReverseErrors(ws, classified) <= ReverseErrors(ws + [w], classified)
  {
    assert (caps + [c])[..|caps|] == caps && (ws + [w])[..|ws|] == ws && (ops + [op])[..|ops|] == ops;
  }
}
