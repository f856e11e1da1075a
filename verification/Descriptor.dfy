/** Provider descriptors and the classification of their operations as reads or writes. */
module Descriptor {
  import opened Prelude
  import opened JsonSchema

  type Capability = string

  /** A parsed semantic version, by its canonical text. */
  datatype Version = Version(text: string)

  datatype Link = Link(name: string, url: string)
  datatype Example = Example(name: string, description: string, yaml: string)
  datatype Contact = Contact(name: string, email: string)

  /** None for a slice or pointer is Go's nil. */
  datatype Operation = Operation(
    name: string,
    displayName: string,
    description: string,
    capabilities: Option<seq<Capability>>,
    isWrite: bool,
    inputSchema: Option<Schema>,
    outputSchema: Option<Schema>,
    examples: Option<seq<Example>>,
    tags: Option<seq<string>>,
    isDeprecated: bool,
    deprecationMessage: string)

  /** The three has fields say whether the descriptor carries the corresponding function. */
  datatype Descriptor = Descriptor(
    name: string,
    displayName: string,
    apiVersion: string,
    version: Option<Version>,
    description: string,
    schema: Option<Schema>,
    outputSchemas: Option<map<Capability, Option<Schema>>>,
    sensitiveFields: Option<seq<string>>,
    hasDecode: bool,
    hasExtractDependencies: bool,
    hasWhatIf: bool,
    capabilities: Option<seq<Capability>>,
    writeOperations: Option<seq<string>>,
    operations: Option<seq<Operation>>,
    category: string,
    tags: Option<seq<string>>,
    icon: string,
    links: Option<seq<Link>>,
    examples: Option<seq<Example>>,
    isDeprecated: bool,
    beta: bool,
    maintainers: Option<seq<Contact>>)

  // ---- Classification ----

  /** Position of the first operation with the given name. */
  function FirstNamed(ops: seq<Operation>, name: string): (i: Option<nat>)
    ensures i.Some? ==> i.value < |ops| && ops[i.value].name == name
                        && forall j :: 0 <= j < i.value ==> ops[j].name != name
    ensures i.None? ==> forall j :: 0 <= j < |ops| ==> ops[j].name != name
  {
    if ops == [] then None
    else
      var n := |ops| - 1;
      var before := FirstNamed(ops[..n], name);
      if before.Some? then before
      else if ops[n].name == name then
        assert forall j :: 0 <= j < n ==> ops[..n][j] == ops[j];
        Some(n)
      else
        assert forall j :: 0 <= j < n ==> ops[..n][j] == ops[j];
        None
  }

  predicate IsWrite(d: Descriptor, name: string) {
    if d.writeOperations.Some? then name in d.writeOperations.value
    else
      var i := FirstNamed(OrEmpty(d.operations), name);
      i.Some? && d.operations.value[i.value].isWrite
  }

  /** The names of the write operations, in declaration order. */
  function WriteNames(ops: seq<Operation>): seq<string> {
    if ops == [] then []
    else
      var op := ops[|ops| - 1];
      WriteNames(ops[..|ops| - 1]) + if op.isWrite then [op.name] else []
  }

  function EffectiveWrites(d: Descriptor): Option<seq<string>> {
    if d.writeOperations.Some? then d.writeOperations
    else if OrEmpty(d.operations) == [] then None
    else Some(WriteNames(d.operations.value))
  }

  method GetOperation(d: Descriptor, name: string) returns (i: Option<nat>)
    ensures i == FirstNamed(OrEmpty(d.operations), name)
  {
    var ops := OrEmpty(d.operations);
    for k := 0 to |ops|
      invariant forall j :: 0 <= j < k ==> ops[j].name != name
    {
      if ops[k].name == name {
        return Some(k);
      }
    }
    return None;
  }

  method IsWriteOperation(d: Descriptor, name: string) returns (write: bool)
    ensures write <==> IsWrite(d, name)
  {
    var listed := OrEmpty(d.writeOperations);
    for i := 0 to |listed|
      invariant name !in listed[..i]
    {
      if listed[i] == name {
        return true;
      }
    }
    if d.writeOperations.None? {
      var i := GetOperation(d, name);
      if i.Some? {
        return d.operations.value[i.value].isWrite;
      }
    }
    return false;
  }

  /**
   * listed is the slice in the field WriteOperations. The result is the first n elements of out,
   * or Go's nil; its array is always a new one.
   */
  method EffectiveWriteOperations(d: Descriptor, listed: array?<string>) returns (out: array?<string>, n: nat)
    requires d.writeOperations == if listed == null then None else Some(listed[..])
    ensures out != null ==> fresh(out) && n <= out.Length
    ensures EffectiveWrites(d) == if out == null then None else Some(out[..n])
  {
    if listed != null {
      out := CopyOf(listed);
      assert out[..out.Length] == out[..];
      return out, out.Length;
    }
    if d.operations.None? || |d.operations.value| == 0 {
      return null, 0;
    }
    out, n := CollectWrites(d.operations.value);
  }

  method CopyOf(listed: array<string>) returns (out: array<string>)
    ensures fresh(out) && out[..] == listed[..]
  {
    out := new string[listed.Length];
    for i := 0 to listed.Length
      invariant out[..i] == listed[..i]
    {
      out[i] := listed[i];
    }
    assert out[..listed.Length] == listed[..listed.Length];
  }

  /** The names of the write operations, appended to a slice with room for all of them. */
  method CollectWrites(ops: seq<Operation>) returns (out: array<string>, n: nat)
    ensures fresh(out) && n <= out.Length && out[..n] == WriteNames(ops)
  {
    out, n := new string[|ops|], 0;
    for i := 0 to |ops|
      invariant n <= i && out[..n] == WriteNames(ops[..i])
    {
      assert ops[..i + 1][..i] == ops[..i];
      if ops[i].isWrite {
        out[n] := ops[i].name;
        n := n + 1;
      }
    }
    assert ops[..|ops|] == ops;
  }

  lemma {:induction false} WriteNamesMembers(ops: seq<Operation>, name: string)
    ensures name in WriteNames(ops) <==> exists i :: 0 <= i < |ops| && ops[i].name == name && ops[i].isWrite
  {
    if ops != [] {
      var n := |ops| - 1;
      WriteNamesMembers(ops[..n], name);
      assert forall i :: 0 <= i < n ==> ops[..n][i] == ops[i];
      if i :| 0 <= i < |ops| && ops[i].name == name && ops[i].isWrite {
        assert i < n ==> ops[..n][i].name == name && ops[..n][i].isWrite;
      }
    }
  }

  /**
   * A write list decides alone, even when it is empty. Without one, the first operation with the
   * name decides, and a name that no operation has is no write.
   */
  lemma IsWriteIff(d: Descriptor, name: string)
    ensures d.writeOperations.Some? ==> (IsWrite(d, name) <==> name in d.writeOperations.value)
    ensures d.writeOperations.None? ==>
              (IsWrite(d, name) <==>
               exists i :: 0 <= i < |OrEmpty(d.operations)| && d.operations.value[i].name == name
                           && d.operations.value[i].isWrite
                           && forall j :: 0 <= j < i ==> d.operations.value[j].name != name)
  {
  }

  /** Nil exactly when nothing classifies; a list as it is; else the names of the write operations. */
  lemma EffectiveWritesAre(d: Descriptor)
    ensures EffectiveWrites(d).None? <==> d.writeOperations.None? && OrEmpty(d.operations) == []
    ensures d.writeOperations.Some? ==> EffectiveWrites(d) == d.writeOperations
    ensures d.writeOperations.None? ==>
              forall name :: name in OrEmpty(EffectiveWrites(d)) <==>
                exists i :: 0 <= i < |OrEmpty(d.operations)| && d.operations.value[i].name == name
                            && d.operations.value[i].isWrite
  {
    forall name ensures name in WriteNames(OrEmpty(d.operations)) <==>
                        exists i :: 0 <= i < |OrEmpty(d.operations)| && d.operations.value[i].name == name
                                    && d.operations.value[i].isWrite
    {
      WriteNamesMembers(OrEmpty(d.operations), name);
    }
  }

  lemma WriteNamesOne(op: Operation)
    ensures WriteNames([op]) == if op.isWrite then [op.name] else []
  {
    assert WriteNames([op]) == WriteNames([op][..0]) + if op.isWrite then [op.name] else [];
  }

  /** The names come in declaration order, one for each write operation. */
  lemma {:induction false} WriteNamesAppend(ops: seq<Operation>, more: seq<Operation>)
    ensures WriteNames(ops + more) == WriteNames(ops) + WriteNames(more)
  {
    if more == [] {
      assert ops + more == ops;
    } else {
      AppendSnoc(ops, more);
      WriteNamesAppend(ops, more[..|more| - 1]);
    }
  }
}
