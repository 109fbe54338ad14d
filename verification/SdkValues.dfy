/**
 Values an AWS client hands back, and the canonical JSON copy that is stored in a receipt.

 Texts the programs inspect with a regular expression or parse as JSON are separate
 constructors, so a value carries the outcome of that parse instead of its spelling.
 */
module SdkValues {
  datatype Arn =
    | RoleArn(account: string, path: string, leaf: string)
    | AssumedRoleArn(account: string, path: string, leaf: string, session: string)
    | OtherArn(text: string)

  datatype Value =
    | Null
    | Bool(b: bool)
    | Int(n: int)
    | Float(r: real)
    | DecimalNumber(r: real)
    | Text(s: string)
    | ArnText(arn: Arn)                       // a principal ARN
    | JsonText(parsed: Value, length: nat)    // a text that json.loads accepts
    | NumberText(r: real)                     // the text of a decimal number
    | TimeText(seconds: int)                  // the text of an instant, second precision
    | Moment(micros: int)                     // a timezone-aware datetime
    | List(items: seq<Value>)
    | Tuple(items: seq<Value>)
    | Dict(fields: map<string, Value>)
    | Foreign                                 // anything json cannot encode

  type Mapping = map<string, Value>

  const METADATA_KEY := "ResponseMetadata"
  const MICROS: int := 1_000_000

  // mapping.get(key)
  function Get(fields: Mapping, key: string): Value {
    if key in fields then fields[key] else Null
  }

  // value.get(key) if isinstance(value, Mapping) else None
  function Field(v: Value, key: string): Value {
    if v.Dict? then Get(v.fields, key) else Null
  }

  // bool(value)
  predicate Truthy(v: Value) {
    match v
    case Null => false
    case Bool(b) => b
    case Int(n) => n != 0
    case Float(r) => r != 0.0
    case DecimalNumber(r) => r != 0.0
    case Text(s) => s != ""
    case List(items) => items != []
    case Tuple(items) => items != []
    case Dict(fields) => fields != map[]
    case _ => true
  }

  // Can the value be written as canonical JSON at all?
  predicate Encodable(v: Value) {
    match v
    case List(items) => forall i | 0 <= i < |items| :: Encodable(items[i])
    case Tuple(items) => forall i | 0 <= i < |items| :: Encodable(items[i])
    case Dict(fields) => forall k | k in fields :: Encodable(fields[k])
    case Foreign => false
    case _ => true
  }

  // The canonical JSON value: tuples become lists, instants and decimals become texts.
  function Normalize(v: Value): Value {
    match v
    case List(items) => List(seq(|items|, i requires 0 <= i < |items| => Normalize(items[i])))
    case Tuple(items) => List(seq(|items|, i requires 0 <= i < |items| => Normalize(items[i])))
    case Dict(fields) => Dict(map k | k in fields :: Normalize(fields[k]))
    case DecimalNumber(r) => NumberText(r)
    case Moment(micros) => TimeText(micros / MICROS)
    case _ => v
  }

  predicate MetadataEncodable(fields: Mapping) {
    forall k | k in fields && k != METADATA_KEY :: Encodable(fields[k])
  }

  // The stored copy of one response: everything but the SDK metadata, in canonical form.
  function WithoutMetadata(fields: Mapping): Mapping {
    map k | k in fields && k != METADATA_KEY :: Normalize(fields[k])
  }

  // Writing a stored value a second time changes nothing.
  lemma {:induction false} NormalizeIdempotent(v: Value)
    ensures Normalize(Normalize(v)) == Normalize(v)
  {
    match v
    case List(items) =>
      forall i | 0 <= i < |items| { NormalizeIdempotent(items[i]); }
    case Tuple(items) =>
      forall i | 0 <= i < |items| { NormalizeIdempotent(items[i]); }
    case Dict(fields) =>
      forall k | k in fields { NormalizeIdempotent(fields[k]); }
      assert Normalize(Normalize(v)).fields == Normalize(v).fields;
    case _ =>
  }

  // Hence a stored response survives the canonicalisation of the whole receipt unchanged.
  lemma StoredCopyIsCanonical(fields: Mapping)
    ensures Normalize(Dict(WithoutMetadata(fields))) == Dict(WithoutMetadata(fields))
  {
    var stored := WithoutMetadata(fields);
    forall k | k in stored
      ensures Normalize(stored[k]) == stored[k]
    {
      NormalizeIdempotent(fields[k]);
    }
    assert Normalize(Dict(stored)).fields == stored;
  }
}
