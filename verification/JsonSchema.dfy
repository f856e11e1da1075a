/** JSON values, the part of JSON Schema that descriptors use, and what a schema accepts. */
module JsonSchema {
  import opened Prelude

  datatype Json =
    | Null
    | Bool(b: bool)
    | Num(n: real)
    | Str(s: string)
    | Arr(items: seq<Json>)
    | Obj(fields: map<string, Json>)

  /**
   * A schema. default is raw JSON text. A property may be nil. other holds the text of every
   * keyword that is not spelled out here; None means there is none.
   */
  datatype Schema = Schema(
    typ: string,
    description: string,
    pattern: string,
    format: string,
    default: Option<Bytes>,
    examples: seq<Json>,
    maxLength: Option<int>,
    minLength: Option<int>,
    maxItems: Option<int>,
    minItems: Option<int>,
    minimum: Option<real>,
    maximum: Option<real>,
    exclusiveMinimum: Option<real>,
    exclusiveMaximum: Option<real>,
    enum: Option<seq<Json>>,
    properties: map<string, Option<Schema>>,
    required: seq<string>,
    items: Option<Schema>,
    other: Option<string>)

  /** A schema that says nothing but its type. */
  function Typed(typ: string): Schema {
    Schema(typ, "", "", "", None, [], None, None, None, None, None, None, None, None, None, map[], [], None, None)
  }

  /** The meaning of regular expressions, formats and the keywords in other. */
  datatype Meanings = Meanings(
    matches: (string, string) -> bool,
    hasFormat: (string, Json) -> bool,
    satisfies: (string, Json) -> bool)

  predicate TypeAccepts(typ: string, v: Json) {
    match v
    case Null => typ in {"", "null"}
    case Bool(_) => typ in {"", "boolean"}
    case Num(n) => typ in {"", "number"} || (typ == "integer" && n == n.Floor as real)
    case Str(_) => typ in {"", "string"}
    case Arr(_) => typ in {"", "array"}
    case Obj(_) => typ in {"", "object"}
  }

  /** minLength and minItems: absent means no constraint. */
  predicate AtLeast(bound: Option<int>, n: nat) {
    bound.Some? ==> n >= bound.value
  }

  /** maxLength and maxItems. */
  predicate AtMost(bound: Option<int>, n: nat) {
    bound.Some? ==> n <= bound.value
  }

  predicate RangeAccepts(s: Schema, n: real) {
    && (s.minimum.Some? ==> n >= s.minimum.value)
    && (s.maximum.Some? ==> n <= s.maximum.value)
    && (s.exclusiveMinimum.Some? ==> n > s.exclusiveMinimum.value)
    && (s.exclusiveMaximum.Some? ==> n < s.exclusiveMaximum.value)
  }

  predicate EnumAccepts(enum: Option<seq<Json>>, v: Json) {
    enum.Some? ==> v in enum.value
  }

  /** The keywords that the structured parameter form carries. */
  predicate ScalarAccepts(s: Schema, v: Json, m: Meanings) {
    && TypeAccepts(s.typ, v)
    && EnumAccepts(s.enum, v)
    && (v.Str? ==>
          && AtLeast(s.minLength, |v.s|) && AtMost(s.maxLength, |v.s|)
          && (s.pattern != "" ==> m.matches(s.pattern, v.s)))
    && (v.Num? ==> RangeAccepts(s, v.n))
    && (v.Arr? ==> AtLeast(s.minItems, |v.items|) && AtMost(s.maxItems, |v.items|))
    && (s.format != "" ==> m.hasFormat(s.format, v))
  }

  predicate Accepts(s: Schema, v: Json, m: Meanings)
    decreases s
  {
    && ScalarAccepts(s, v, m)
    && (s.other.Some? ==> m.satisfies(s.other.value, v))
    && (v.Arr? && s.items.Some? ==> forall i :: 0 <= i < |v.items| ==> Accepts(s.items.value, v.items[i], m))
    && (v.Obj? ==>
          && (forall name :: name in s.required ==> name in v.fields)
          && (forall name :: name in s.properties && name in v.fields && s.properties[name].Some? ==>
                Accepts(s.properties[name].value, v.fields[name], m)))
  }

  /** No schema means no constraint. */
  predicate AcceptsAny(s: Option<Schema>, v: Json, m: Meanings) {
    s.Some? ==> Accepts(s.value, v, m)
  }
}
