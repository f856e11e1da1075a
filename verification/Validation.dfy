/** ValidateDescriptor: the errors it accumulates, and the declarative meaning of having none. */
module Validation {
  import opened Prelude
  import opened Ordering
  import opened JsonSchema
  import opened Descriptor

  const FROM := "from"
  const TRANSFORM := "transform"
  const VALIDATION := "validation"
  const AUTHENTICATION := "authentication"
  const ACTION := "action"
  const STATE := "state"
  const KUBECONFIG := "kubeconfig"

  predicate IsValid(c: Capability) {
    c in {FROM, TRANSFORM, VALIDATION, AUTHENTICATION, ACTION, STATE, KUBECONFIG}
  }

  /** The output fields a capability must declare, with their JSON types. */
  function RequiredFields(c: Capability): map<string, string> {
    if c == VALIDATION then map["valid" := "boolean", "errors" := "array"]
    else if c == AUTHENTICATION then map["authenticated" := "boolean", "token" := "string"]
    else if c in {ACTION, STATE, KUBECONFIG} then map["success" := "boolean"]
    else map[]
  }

  datatype Error =
    | NilDescriptor
    | NoCapabilities
    | NilOutputSchemas
    | UnknownCapability(c: Capability)
    | MissingSchema(c: Capability)
    | MissingField(c: Capability, field: string)
    | WrongFieldType(c: Capability, field: string, expected: string, got: string)
    | EmptyWriteOperation
    | DuplicateWriteOperation(name: string)
    | EmptyOperationName
    | DuplicateOperation(name: string)
    | OperationUnknownCapability(op: string, c: Capability)
    | OperationForeignCapability(op: string, c: Capability)
    | WriteNotListed(op: string)
    | ListedNotWrite(op: string)

  // ---- The accumulated errors, loop by loop ----

  function FieldErrors(c: Capability, schema: Option<Schema>, field: string): seq<Error>
    requires field in RequiredFields(c)
  {
    var expected := RequiredFields(c)[field];
    if schema.None? || field !in schema.value.properties || schema.value.properties[field].None?
    then [MissingField(c, field)]
    else
      var got := schema.value.properties[field].value.typ;
      if got != expected then [WrongFieldType(c, field, expected, got)] else []
  }

  function FieldsErrors(c: Capability, schema: Option<Schema>, fields: seq<string>): seq<Error>
    requires forall f :: f in fields ==> f in RequiredFields(c)
  {
    if fields == [] then []
    else FieldsErrors(c, schema, fields[..|fields| - 1]) + FieldErrors(c, schema, fields[|fields| - 1])
  }

  ghost function CapabilityErrors(schemas: map<Capability, Option<Schema>>, c: Capability): seq<Error> {
    if !IsValid(c) then [UnknownCapability(c)]
    else if c !in schemas then [MissingSchema(c)]
    else
      var fields := Listing(RequiredFields(c).Keys);
      assert forall f :: f in fields ==> f in Elems(fields);
      FieldsErrors(c, schemas[c], fields)
  }

  ghost function CapabilitiesErrors(schemas: map<Capability, Option<Schema>>, caps: seq<Capability>): seq<Error> {
    if caps == [] then []
    else CapabilitiesErrors(schemas, caps[..|caps| - 1]) + CapabilityErrors(schemas, caps[|caps| - 1])
  }

  /** The loop stops at the first empty name. */
  function WriteErrors(ws: seq<string>): seq<Error> {
    if ws == [] then []
    else
      var n := |ws| - 1;
      if "" in ws[..n] then WriteErrors(ws[..n])
      else if ws[n] == "" then WriteErrors(ws[..n]) + [EmptyWriteOperation]
      else if ws[n] in ws[..n] then WriteErrors(ws[..n]) + [DuplicateWriteOperation(ws[n])]
      else WriteErrors(ws[..n])
  }

  function OpCapabilityErrors(name: string, caps: seq<Capability>, provided: set<Capability>): seq<Error> {
    if caps == [] then []
    else
      var c := caps[|caps| - 1];
      OpCapabilityErrors(name, caps[..|caps| - 1], provided) +
      if !IsValid(c) then [OperationUnknownCapability(name, c)]
      else if c !in provided then [OperationForeignCapability(name, c)]
      else []
  }

  function Names(ops: seq<Operation>): seq<string> {
    if ops == [] then []
    else
      var op := ops[|ops| - 1];
      Names(ops[..|ops| - 1]) + if op.name != "" then [op.name] else []
  }

  /** The errors of one operation; seen are the names before it, and writes is nil-aware. */
  function OperationErrors(op: Operation, seen: set<string>, provided: set<Capability>,
                           writes: Option<set<string>>): seq<Error> {
    if op.name == "" then [EmptyOperationName]
    else
      (if op.name in seen then [DuplicateOperation(op.name)] else []) +
      OpCapabilityErrors(op.name, OrEmpty(op.capabilities), provided) +
      (if writes.Some? && op.isWrite && op.name !in writes.value then [WriteNotListed(op.name)] else [])
  }

  function OperationsErrors(ops: seq<Operation>, provided: set<Capability>, writes: Option<set<string>>): seq<Error> {
    if ops == [] then []
    else
      var before := ops[..|ops| - 1];
      OperationsErrors(before, provided, writes) +
      OperationErrors(ops[|ops| - 1], Elems(Names(before)), provided, writes)
  }

  /** The last classification of each name. */
  function Classified(ops: seq<Operation>): map<string, bool> {
    if ops == [] then map[]
    else
      var op := ops[|ops| - 1];
      var before := Classified(ops[..|ops| - 1]);
      if op.name == "" then before else before[op.name := op.isWrite]
  }

  function ReverseErrors(ws: seq<string>, classified: map<string, bool>): seq<Error> {
    if ws == [] then []
    else
      var w := ws[|ws| - 1];
      ReverseErrors(ws[..|ws| - 1], classified) +
      if w in classified && !classified[w] then [ListedNotWrite(w)] else []
  }

  function OperationsPart(d: Descriptor): seq<Error> {
    var ops := OrEmpty(d.operations);
    if ops == [] then []
    else
      var writes := if d.writeOperations.Some? then Some(Elems(d.writeOperations.value)) else None;
      OperationsErrors(ops, Elems(OrEmpty(d.capabilities)), writes) +
      ReverseErrors(OrEmpty(d.writeOperations), Classified(ops))
  }

  ghost function Errors(d: Option<Descriptor>): seq<Error> {
    if d.None? then [NilDescriptor]
    else if OrEmpty(d.value.capabilities) == [] then [NoCapabilities]
    else if d.value.outputSchemas.None? then [NilOutputSchemas]
    else
      CapabilitiesErrors(d.value.outputSchemas.value, d.value.capabilities.value) +
      WriteErrors(OrEmpty(d.value.writeOperations)) +
      OperationsPart(d.value)
  }

  // ---- The loops ----

  /** Collects the field names in any map order and sorts them. */
  method SortedFields(c: Capability) returns (fields: seq<string>)
    ensures fields == Listing(RequiredFields(c).Keys)
  {
    fields := [];
    var pending := RequiredFields(c).Keys;
    while pending != {}
      invariant pending <= RequiredFields(c).Keys
      invariant Elems(fields) == RequiredFields(c).Keys - pending
      invariant NoDuplicates(fields)
      decreases pending
    {
      var f :| f in pending;
      assert f !in Elems(fields);
      ElemsAppend(fields, f);
      fields := fields + [f];
      pending := pending - {f};
    }
    assert Elems(fields) == RequiredFields(c).Keys;
    SortStringsIsListing(fields);
    fields := SortStrings(fields);
  }

  method ValidateFields(c: Capability, schema: Option<Schema>, fields: seq<string>) returns (errs: seq<Error>)
    requires forall f :: f in fields ==> f in RequiredFields(c)
    ensures errs == FieldsErrors(c, schema, fields)
  {
    errs := [];
    for i := 0 to |fields|
      invariant errs == FieldsErrors(c, schema, fields[..i])
    {
      assert fields[..i + 1][..i] == fields[..i];
      var field := fields[i];
      if schema.None? {
        errs := errs + [MissingField(c, field)];
        continue;
      }
      if field !in schema.value.properties || schema.value.properties[field].None? {
        errs := errs + [MissingField(c, field)];
        continue;
      }
      var got := schema.value.properties[field].value.typ;
      var expected := RequiredFields(c)[field];
      if got != expected {
        errs := errs + [WrongFieldType(c, field, expected, got)];
      }
    }
    assert fields[..|fields|] == fields;
  }

  method ValidateCapabilities(schemas: map<Capability, Option<Schema>>, caps: seq<Capability>)
    returns (errs: seq<Error>)
    ensures errs == CapabilitiesErrors(schemas, caps)
  {
    errs := [];
    for i := 0 to |caps|
      invariant errs == CapabilitiesErrors(schemas, caps[..i])
    {
      assert caps[..i + 1][..i] == caps[..i];
      var c := caps[i];
      if !IsValid(c) {
        errs := errs + [UnknownCapability(c)];
        continue;
      }
      if c !in schemas {
        errs := errs + [MissingSchema(c)];
        continue;
      }
      var fields := SortedFields(c);
      assert forall f :: f in fields ==> f in Elems(fields);
      var fieldErrs := ValidateFields(c, schemas[c], fields);
      errs := errs + fieldErrs;
    }
    assert caps[..|caps|] == caps;
  }

  method ValidateWriteOperations(ws: seq<string>) returns (errs: seq<Error>)
    ensures errs == WriteErrors(ws)
  {
    errs := [];
    var seen := {};
    var i := 0;
    while i < |ws|
      invariant 0 <= i <= |ws|
      invariant "" !in ws[..i] && seen == Elems(ws[..i]) && errs == WriteErrors(ws[..i])
    {
      assert ws[..i + 1][..i] == ws[..i];
      if ws[i] == "" {
        errs := errs + [EmptyWriteOperation];
        StopsAtEmpty(ws, i);
        break;
      }
      if ws[i] in seen {
        errs := errs + [DuplicateWriteOperation(ws[i])];
      }
      seen := seen + {ws[i]};
      i := i + 1;
    }
    assert i == |ws| ==> ws[..i] == ws;
  }

  lemma {:induction false} StopsAtEmpty(ws: seq<string>, i: nat)
    requires i < |ws| && ws[i] == "" && "" !in ws[..i]
    ensures WriteErrors(ws) == WriteErrors(ws[..i]) + [EmptyWriteOperation]
  {
    var n := |ws| - 1;
    if i < n {
      assert ws[..n][i] == "" && ws[..n][..i] == ws[..i];
      StopsAtEmpty(ws[..n], i);
    }
  }

  method ValidateOpCapabilities(name: string, caps: seq<Capability>, provided: set<Capability>)
    returns (errs: seq<Error>)
    ensures errs == OpCapabilityErrors(name, caps, provided)
  {
    errs := [];
    for i := 0 to |caps|
      invariant errs == OpCapabilityErrors(name, caps[..i], provided)
    {
      assert caps[..i + 1][..i] == caps[..i];
      if !IsValid(caps[i]) {
        errs := errs + [OperationUnknownCapability(name, caps[i])];
        continue;
      }
      if caps[i] !in provided {
        errs := errs + [OperationForeignCapability(name, caps[i])];
      }
    }
    assert caps[..|caps|] == caps;
  }

  method ValidateReverse(ws: seq<string>, classified: map<string, bool>) returns (errs: seq<Error>)
    ensures errs == ReverseErrors(ws, classified)
  {
    errs := [];
    for i := 0 to |ws|
      invariant errs == ReverseErrors(ws[..i], classified)
    {
      assert ws[..i + 1][..i] == ws[..i];
      if ws[i] in classified && !classified[ws[i]] {
        errs := errs + [ListedNotWrite(ws[i])];
      }
    }
    assert ws[..|ws|] == ws;
  }

  method ValidateOperation(op: Operation, seen: set<string>, provided: set<Capability>, writes: Option<set<string>>)
    returns (errs: seq<Error>)
    requires op.name != ""
    ensures errs == OperationErrors(op, seen, provided, writes)
  {
    errs := [];
    if op.name in seen {
      errs := [DuplicateOperation(op.name)];
    }
    var capErrs := ValidateOpCapabilities(op.name, OrEmpty(op.capabilities), provided);
    errs := errs + capErrs;
    if writes.Some? && op.isWrite {
      if op.name !in writes.value {
        errs := errs + [WriteNotListed(op.name)];
      }
    }
  }

  method ValidateEach(ops: seq<Operation>, provided: set<Capability>, writes: Option<set<string>>)
    returns (errs: seq<Error>, opIsWrite: map<string, bool>)
    ensures errs == OperationsErrors(ops, provided, writes)
    ensures opIsWrite == Classified(ops)
  {
    errs, opIsWrite := [], map[];
    var seen := {};
    for i := 0 to |ops|
      invariant errs == OperationsErrors(ops[..i], provided, writes)
      invariant seen == Elems(Names(ops[..i])) && opIsWrite == Classified(ops[..i])
    {
      var op := ops[i];
      EachNext(ops, i, provided, writes);
      if op.name == "" {
        errs := errs + [EmptyOperationName];
        continue;
      }
      var opErrs := ValidateOperation(op, seen, provided, writes);
      errs := errs + opErrs;
      seen := seen + {op.name};
      opIsWrite := opIsWrite[op.name := op.isWrite];
    }
    assert ops[..|ops|] == ops;
  }

  method ValidateOperations(d: Descriptor) returns (errs: seq<Error>)
    ensures errs == OperationsPart(d)
  {
    if d.operations.None? || |d.operations.value| == 0 {
      return [];
    }
    var writeSet := None;
    if d.writeOperations.Some? {
      writeSet := Some(Elems(d.writeOperations.value));
    }
    var opIsWrite;
    errs, opIsWrite := ValidateEach(d.operations.value, Elems(OrEmpty(d.capabilities)), writeSet);
    if writeSet.Some? {
      var reverse := ValidateReverse(d.writeOperations.value, opIsWrite);
      errs := errs + reverse;
    }
  }

  /** One more iteration of the loop over operations. */
  lemma EachNext(ops: seq<Operation>, i: nat, provided: set<Capability>, writes: Option<set<string>>)
    requires i < |ops|
    ensures OperationsErrors(ops[..i + 1], provided, writes) ==
            OperationsErrors(ops[..i], provided, writes) + OperationErrors(ops[i], Elems(Names(ops[..i])),
                provided, writes)
    ensures Classified(ops[..i + 1]) ==
            if ops[i].name == "" then Classified(ops[..i]) else Classified(ops[..i])[ops[i].name := ops[i].isWrite]
    ensures Elems(Names(ops[..i + 1])) == Elems(Names(ops[..i])) + if ops[i].name != "" then {ops[i].name} else {}
  {
    assert ops[..i + 1][..i] == ops[..i];
    assert ops[..i + 1] == ops[..i] + [ops[i]];
    NamesAppend(ops[..i], ops[i]);
  }

  lemma NamesAppend(ops: seq<Operation>, op: Operation)
    ensures Elems(Names(ops + [op])) == Elems(Names(ops)) + if op.name != "" then {op.name} else {}
  {
    assert (ops + [op])[..|ops|] == ops;
    ElemsAppend(Names(ops), op.name);
  }

  /** An empty result stands for the nil error. */
  method ValidateDescriptor(d: Option<Descriptor>) returns (errs: seq<Error>)
    ensures errs == Errors(d)
  {
    if d.None? {
      return [NilDescriptor];
    }
    if d.value.capabilities.None? || |d.value.capabilities.value| == 0 {
      return [NoCapabilities];
    }
    if d.value.outputSchemas.None? {
      return [NilOutputSchemas];
    }
    errs := ValidateCapabilities(d.value.outputSchemas.value, d.value.capabilities.value);
    var writeErrs := ValidateWriteOperations(OrEmpty(d.value.writeOperations));
    var opErrs := ValidateOperations(d.value);
    errs := errs + writeErrs + opErrs;
  }
}
