/** The declarative reading of ValidateDescriptor, and what validity buys. */
module ValidDescriptor {
  import opened Prelude
  import opened Ordering
  import opened JsonSchema
  import opened Descriptor
  import opened Validation

  predicate FieldOk(schema: Option<Schema>, field: string, typ: string) {
    && schema.Some? && field in schema.value.properties && schema.value.properties[field].Some?
    && schema.value.properties[field].value.typ == typ
  }

  predicate SchemaCovers(schema: Option<Schema>, c: Capability) {
    forall f :: f in RequiredFields(c) ==> FieldOk(schema, f, RequiredFields(c)[f])
  }

  predicate CapabilityOk(schemas: map<Capability, Option<Schema>>, c: Capability) {
    IsValid(c) && c in schemas && SchemaCovers(schemas[c], c)
  }

  predicate WritesOk(ws: seq<string>) {
    "" !in ws && NoDuplicates(ws)
  }

  predicate OperationOk(op: Operation, provided: set<Capability>, writes: Option<set<string>>) {
    && op.name != ""
    && (forall c :: c in OrEmpty(op.capabilities) ==> IsValid(c) && c in provided)
    && (writes.Some? && op.isWrite ==> op.name in writes.value)
  }

  predicate UniqueNames(ops: seq<Operation>) {
    forall i, j :: 0 <= i < j < |ops| ==> ops[i].name != ops[j].name
  }

  /** When both fields are set they agree on every declared operation. */
  predicate OperationsOk(d: Descriptor) {
    var ops := OrEmpty(d.operations);
    var provided := Elems(OrEmpty(d.capabilities));
    && UniqueNames(ops)
    && (forall i :: 0 <= i < |ops| ==>
          && ops[i].name != ""
          && (forall c :: c in OrEmpty(ops[i].capabilities) ==> IsValid(c) && c in provided)
          && (d.writeOperations.Some? ==> (ops[i].isWrite <==> ops[i].name in d.writeOperations.value)))
  }

  predicate Valid(d: Descriptor) {
    && OrEmpty(d.capabilities) != []
    && d.outputSchemas.Some?
    && (forall c :: c in OrEmpty(d.capabilities) ==> CapabilityOk(d.outputSchemas.value, c))
    && WritesOk(OrEmpty(d.writeOperations))
    && OperationsOk(d)
  }

  // ---- Each loop reports nothing exactly when its condition holds ----

  lemma {:induction false} FieldsClean(c: Capability, schema: Option<Schema>, fields: seq<string>)
    requires forall f :: f in fields ==> f in RequiredFields(c)
    ensures FieldsErrors(c, schema, fields) == [] <==> forall f :: f in fields ==>
        FieldOk(schema, f, RequiredFields(c)[f])
  {
    if fields != [] {
      var n := |fields| - 1;
      FieldsClean(c, schema, fields[..n]);
      Snoc(fields);
      assert FieldErrors(c, schema, fields[n]) == [] <==> FieldOk(schema, fields[n], RequiredFields(c)[fields[n]]);
    }
  }

  lemma CapabilityClean(schemas: map<Capability, Option<Schema>>, c: Capability)
    ensures CapabilityErrors(schemas, c) == [] <==> CapabilityOk(schemas, c)
  {
    if IsValid(c) && c in schemas {
      var fields := Listing(RequiredFields(c).Keys);
      assert forall f :: f in fields <==> f in Elems(fields);
      FieldsClean(c, schemas[c], fields);
    }
  }

  lemma {:induction false} CapabilitiesClean(schemas: map<Capability, Option<Schema>>, caps: seq<Capability>)
    ensures CapabilitiesErrors(schemas, caps) == [] <==> forall c :: c in caps ==> CapabilityOk(schemas, c)
  {
    if caps != [] {
      var n := |caps| - 1;
      CapabilitiesClean(schemas, caps[..n]);
      CapabilityClean(schemas, caps[n]);
      assert caps == caps[..n] + [caps[n]];
    }
  }

  lemma {:induction false} WritesClean(ws: seq<string>)
    ensures WriteErrors(ws) == [] <==> WritesOk(ws)
  {
    if ws != [] {
      var n := |ws| - 1;
      WritesClean(ws[..n]);
      assert ws == ws[..n] + [ws[n]];
      assert NoDuplicates(ws) <==> NoDuplicates(ws[..n]) && ws[n] !in ws[..n] by {
        if NoDuplicates(ws[..n]) && ws[n] !in ws[..n] {
          forall i, j | 0 <= i < j < |ws| ensures ws[i] != ws[j] {
            assert ws[..n][i] == ws[i];
            if j < n {
              assert ws[..n][j] == ws[j];
            }
          }
        }
        if NoDuplicates(ws) {
          forall i, j | 0 <= i < j < n ensures ws[..n][i] != ws[..n][j] {
            assert ws[i] != ws[j];
          }
        }
      }
    }
  }

  lemma {:induction false} OpCapabilitiesClean(name: string, caps: seq<Capability>, provided: set<Capability>)
    ensures OpCapabilityErrors(name, caps, provided) == [] <==> forall c :: c in caps ==> IsValid(c) && c in provided
  {
    if caps != [] {
      var n := |caps| - 1;
      OpCapabilitiesClean(name, caps[..n], provided);
      assert caps == caps[..n] + [caps[n]];
    }
  }

  lemma OperationClean(op: Operation, seen: set<string>, provided: set<Capability>, writes: Option<set<string>>)
    ensures OperationErrors(op, seen, provided, writes) == [] <==>
            op.name !in seen - {""} && OperationOk(op, provided, writes)
  {
    OpCapabilitiesClean(op.name, OrEmpty(op.capabilities), provided);
  }

  lemma {:induction false} NamesMembers(ops: seq<Operation>, name: string)
    ensures name in Names(ops) <==> name != "" && exists i :: 0 <= i < |ops| && ops[i].name == name
  {
    if ops != [] {
      var n := |ops| - 1;
      NamesMembers(ops[..n], name);
      assert forall i :: 0 <= i < n ==> ops[..n][i] == ops[i];
      if i :| 0 <= i < |ops| && ops[i].name == name {
        assert i < n ==> ops[..n][i].name == name;
      }
    }
  }

  predicate AllOk(ops: seq<Operation>, provided: set<Capability>, writes: Option<set<string>>) {
    forall i :: 0 <= i < |ops| ==> OperationOk(ops[i], provided, writes)
  }

  lemma UniqueSnoc(ops: seq<Operation>, op: Operation)
    requires op.name != ""
    ensures UniqueNames(ops + [op]) <==> UniqueNames(ops) && op.name !in Names(ops)
  {
    var all := ops + [op];
    NamesMembers(ops, op.name);
    assert forall i :: 0 <= i < |ops| ==> all[i] == ops[i];
    if UniqueNames(all) {
      forall i | 0 <= i < |ops| ensures ops[i].name != op.name {
        assert all[i].name != all[|ops|].name;
      }
    }
  }

  lemma AllSnoc(ops: seq<Operation>, op: Operation, provided: set<Capability>, writes: Option<set<string>>)
    ensures AllOk(ops + [op], provided, writes) <==> AllOk(ops, provided, writes) && OperationOk(op, provided, writes)
  {
    var all := ops + [op];
    assert all[|ops|] == op && forall i :: 0 <= i < |ops| ==> all[i] == ops[i];
  }

  lemma EachStep(ops: seq<Operation>, op: Operation, provided: set<Capability>, writes: Option<set<string>>)
    ensures OperationsErrors(ops + [op], provided, writes) == [] <==>
            OperationsErrors(ops, provided, writes) == [] && op.name !in Names(ops) && OperationOk(op, provided, writes)
  {
    assert (ops + [op])[..|ops|] == ops;
    OperationClean(op, Elems(Names(ops)), provided, writes);
  }

  lemma {:induction false} EachClean(ops: seq<Operation>, provided: set<Capability>, writes: Option<set<string>>)
    ensures OperationsErrors(ops, provided, writes) == [] <==> UniqueNames(ops) && AllOk(ops, provided, writes)
  {
    if ops != [] {
      var n := |ops| - 1;
      var before, op := ops[..n], ops[n];
      assert ops == before + [op];
      EachClean(before, provided, writes);
      EachStep(before, op, provided, writes);
      AllSnoc(before, op, provided, writes);
      if op.name != "" {
        UniqueSnoc(before, op);
      }
    }
  }

  lemma {:induction false} ReverseClean(ws: seq<string>, classified: map<string, bool>)
    ensures ReverseErrors(ws, classified) == [] <==> forall w :: w in ws && w in classified ==> classified[w]
  {
    if ws != [] {
      var n := |ws| - 1;
      ReverseClean(ws[..n], classified);
      assert ws == ws[..n] + [ws[n]];
    }
  }

  /** With unique names, each operation keeps its own classification. */
  lemma {:induction false} ClassifiedIs(ops: seq<Operation>)
    requires UniqueNames(ops) && forall i :: 0 <= i < |ops| ==> ops[i].name != ""
    ensures forall i :: 0 <= i < |ops| ==>
        ops[i].name in Classified(ops) && Classified(ops)[ops[i].name] == ops[i].isWrite
    ensures forall name :: name in Classified(ops) ==> exists i :: 0 <= i < |ops| && ops[i].name == name
  {
    if ops != [] {
      var n := |ops| - 1;
      var before := ops[..n];
      assert forall i :: 0 <= i < n ==> before[i] == ops[i];
      ClassifiedIs(before);
    }
  }

  lemma OperationsPartClean(d: Descriptor)
    ensures OperationsPart(d) == [] <==> OperationsOk(d)
  {
    var ops := OrEmpty(d.operations);
    if ops != [] {
      var provided := Elems(OrEmpty(d.capabilities));
      var writes := if d.writeOperations.Some? then Some(Elems(d.writeOperations.value)) else None;
      EachClean(ops, provided, writes);
      if UniqueNames(ops) && AllOk(ops, provided, writes) {
        assert forall i :: 0 <= i < |ops| ==> OperationOk(ops[i], provided, writes);
        ReverseConsistent(ops, OrEmpty(d.writeOperations));
      }
      AllOkIfConsistent(d);
    }
  }

  /** With unique names, the reverse loop is clean exactly when every listed operation is a write. */
  lemma ReverseConsistent(ops: seq<Operation>, ws: seq<string>)
    requires UniqueNames(ops) && forall i :: 0 <= i < |ops| ==> ops[i].name != ""
    ensures ReverseErrors(ws, Classified(ops)) == [] <==>
            forall i :: 0 <= i < |ops| && ops[i].name in ws ==> ops[i].isWrite
  {
    ReverseClean(ws, Classified(ops));
    ClassifiedIs(ops);
  }

  lemma AllOkIfConsistent(d: Descriptor)
    ensures var writes := if d.writeOperations.Some? then Some(Elems(d.writeOperations.value)) else None;
            OperationsOk(d) ==> AllOk(OrEmpty(d.operations), Elems(OrEmpty(d.capabilities)), writes)
  {
  }

  /** ValidateDescriptor returns nil exactly for valid descriptors. */
  lemma ValidationExact(d: Option<Descriptor>)
    ensures Errors(d) == [] <==> d.Some? && Valid(d.value)
  {
    if d.Some? && OrEmpty(d.value.capabilities) != [] && d.value.outputSchemas.Some? {
      CapabilitiesClean(d.value.outputSchemas.value, d.value.capabilities.value);
      WritesClean(OrEmpty(d.value.writeOperations));
      OperationsPartClean(d.value);
    }
  }

  // ---- Counting duplicates ----

  function DuplicateCount(errs: seq<Error>): nat {
    if errs == [] then 0
    else DuplicateCount(errs[..|errs| - 1]) + if errs[|errs| - 1].DuplicateOperation? then 1 else 0
  }

  lemma {:induction false} DuplicateCountAppend(a: seq<Error>, b: seq<Error>)
    ensures DuplicateCount(a + b) == DuplicateCount(a) + DuplicateCount(b)
  {
    if b == [] {
      assert a + b == a;
    } else {
      var n := |b| - 1;
      DuplicateCountAppend(a, b[..n]);
      assert (a + b)[..|a + b| - 1] == a + b[..n];
    }
  }

  lemma {:induction false} NoneDuplicate(errs: seq<Error>)
    requires forall i :: 0 <= i < |errs| ==> !errs[i].DuplicateOperation?
    ensures DuplicateCount(errs) == 0
  {
    if errs != [] {
      NoneDuplicate(errs[..|errs| - 1]);
    }
  }

  lemma {:induction false} OpCapabilitiesNotDuplicate(name: string, caps: seq<Capability>, provided: set<Capability>)
    ensures forall i :: 0 <= i < |OpCapabilityErrors(name, caps, provided)| ==>
              !OpCapabilityErrors(name, caps, provided)[i].DuplicateOperation?
  {
    if caps != [] {
      OpCapabilitiesNotDuplicate(name, caps[..|caps| - 1], provided);
    }
  }

  lemma OperationDuplicates(op: Operation, seen: set<string>, provided: set<Capability>, writes: Option<set<string>>)
    ensures DuplicateCount(OperationErrors(op, seen, provided, writes)) ==
            if op.name != "" && op.name in seen then 1 else 0
  {
    var errs := OperationErrors(op, seen, provided, writes);
    if op.name == "" {
      NoneDuplicate(errs);
    } else {
      var first := if op.name in seen then [DuplicateOperation(op.name)] else [];
      var rest := OpCapabilityErrors(op.name, OrEmpty(op.capabilities), provided) +
      (if writes.Some? && op.isWrite && op.name !in writes.value then [WriteNotListed(op.name)] else []);
      OpCapabilitiesNotDuplicate(op.name, OrEmpty(op.capabilities), provided);
      NoneDuplicate(rest);
      assert errs == first + rest;
      DuplicateCountAppend(first, rest);
    }
  }

  lemma NamesGrow(ops: seq<Operation>, op: Operation)
    ensures |Names(ops + [op])| - |Elems(Names(ops + [op]))| ==
            |Names(ops)| - |Elems(Names(ops))| + if op.name != "" && op.name in Names(ops) then 1 else 0
  {
    assert (ops + [op])[..|ops|] == ops;
    NamesAppend(ops, op);
    var seen := Elems(Names(ops));
    if op.name in Names(ops) {
      assert seen + {op.name} == seen;
    }
    assert seen + {} == seen;
  }

  lemma {:induction false} EachDuplicates(ops: seq<Operation>, provided: set<Capability>, writes: Option<set<string>>)
    ensures DuplicateCount(OperationsErrors(ops, provided, writes)) == |Names(ops)| - |Elems(Names(ops))|
  {
    if ops != [] {
      var n := |ops| - 1;
      var before := ops[..n];
      var op := ops[n];
      EachDuplicates(before, provided, writes);
      var earlier := OperationsErrors(before, provided, writes);
      var latest := OperationErrors(op, Elems(Names(before)), provided, writes);
      OperationDuplicates(op, Elems(Names(before)), provided, writes);
      DuplicateCountAppend(earlier, latest);
      assert OperationsErrors(ops, provided, writes) == earlier + latest;
      NamesGrow(before, op);
      Snoc(ops);
    }
  }

  lemma {:induction false} ReverseNotDuplicate(ws: seq<string>, classified: map<string, bool>)
    ensures forall i :: 0 <= i < |ReverseErrors(ws, classified)| ==>
        !ReverseErrors(ws, classified)[i].DuplicateOperation?
  {
    if ws != [] {
      ReverseNotDuplicate(ws[..|ws| - 1], classified);
    }
  }

  /** As many duplicate-operation errors as there are non-empty names beyond the distinct ones. */
  lemma DuplicatesCounted(d: Descriptor)
    ensures var names := Names(OrEmpty(d.operations));
            DuplicateCount(OperationsPart(d)) == |names| - |Elems(names)|
  {
    var ops := OrEmpty(d.operations);
    if ops != [] {
      var provided := Elems(OrEmpty(d.capabilities));
      var writes := if d.writeOperations.Some? then Some(Elems(d.writeOperations.value)) else None;
      var reverse := ReverseErrors(OrEmpty(d.writeOperations), Classified(ops));
      EachDuplicates(ops, provided, writes);
      ReverseNotDuplicate(OrEmpty(d.writeOperations), Classified(ops));
      NoneDuplicate(reverse);
      DuplicateCountAppend(OperationsErrors(ops, provided, writes), reverse);
    }
  }

  // ---- Classification of a valid descriptor ----

  /**
   * On a valid descriptor the two ways to ask agree for every name, and both give each declared
   * operation its own classification.
   */
  lemma ClassificationCoherent(d: Descriptor, name: string)
    requires Valid(d)
    ensures IsWrite(d, name) <==> name in OrEmpty(EffectiveWrites(d))
    ensures forall i :: 0 <= i < |OrEmpty(d.operations)| ==>
              (IsWrite(d, d.operations.value[i].name) <==> d.operations.value[i].isWrite)
  {
    var ops := OrEmpty(d.operations);
    WriteNamesMembers(ops, name);
    forall i | 0 <= i < |ops| ensures FirstNamed(ops, ops[i].name) == Some(i) {
      var first := FirstNamed(ops, ops[i].name);
      assert first.Some? && ops[first.value].name == ops[i].name;
    }
  }
}
