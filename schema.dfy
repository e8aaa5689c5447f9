/**
 * The Schema Object (`OpenAPISchema`). Its composition slots (`allOf`,
 * `oneOf`, `anyOf`, `not`, `items`, `properties`) and `additionalProperties`
 * each hold at most one nested schema, so the schema is a recursive tree.
 * Its encoding is the one synthesised `Encodable` would give it once the
 * slots hold this concrete schema type and the members of existential type
 * are dropped: every optional field is written only when present, and a
 * nested schema is written as a nested object.
 */
module Schema {
  import opened Wrappers
  import opened Json

  /** `OpenAPIDataType`, the Schema Object's `format`. */
  datatype DataType = Integer | Long | Float | Double | String | Byte | Binary | Boolean | Date | DateTime | Password

  /** The raw value of a data type is its case name. */
  function DataTypeRaw(t: DataType): string {
    match t
    case Integer => "integer"
    case Long => "long"
    case Float => "float"
    case Double => "double"
    case String => "string"
    case Byte => "byte"
    case Binary => "binary"
    case Boolean => "boolean"
    case Date => "date"
    case DateTime => "dateTime"
    case Password => "password"
  }

  datatype Schema = Schema(
    title: Option<string>,
    maxLength: Option<int>,
    minLength: Option<int>,
    pattern: Option<string>,
    maxItems: Option<int>,
    minItems: Option<int>,
    uniqueItems: Option<bool>,
    maxProperties: Option<int>,
    minProperties: Option<int>,
    required: Option<bool>,
    typeName: Option<string>,
    allOf: Option<Schema>,
    oneOf: Option<Schema>,
    anyOf: Option<Schema>,
    not: Option<Schema>,
    items: Option<Schema>,
    properties: Option<Schema>,
    additionalProperties: Option<Schema>,
    description: Option<string>,
    format: Option<DataType>,
    nullable: Option<bool>,
    readOnly: Option<bool>,
    writeOnly: Option<bool>,
    deprecated: Option<bool>)

  /** The slots in which a schema holds a nested schema. */
  datatype Slot = AllOf | OneOf | AnyOf | Not | Items | Properties | AdditionalProperties

  /** The property name a slot is written under. */
  function SlotName(k: Slot): string {
    match k
    case AllOf => "allOf"
    case OneOf => "oneOf"
    case AnyOf => "anyOf"
    case Not => "not"
    case Items => "items"
    case Properties => "properties"
    case AdditionalProperties => "additionalProperties"
  }

  /** The nested schema a slot holds, if any. */
  function SlotOf(s: Schema, k: Slot): Option<Schema> {
    match k
    case AllOf => s.allOf
    case OneOf => s.oneOf
    case AnyOf => s.anyOf
    case Not => s.not
    case Items => s.items
    case Properties => s.properties
    case AdditionalProperties => s.additionalProperties
  }

  const SlotNames: set<string> :=
    {"allOf", "oneOf", "anyOf", "not", "items", "properties", "additionalProperties"}

  const ScalarNames: set<string> :=
    {"title", "maxLength", "minLength", "pattern", "maxItems", "minItems", "uniqueItems",
     "maxProperties", "minProperties", "required", "type", "description", "format",
     "nullable", "readOnly", "writeOnly", "deprecated"}

  /** Every slot, in declaration order. */
  const AllSlots: seq<Slot> := [AllOf, OneOf, AnyOf, Not, Items, Properties, AdditionalProperties]

  /** The schema written as an object: its plain fields, then its nested schemas. */
  function EncodeSchema(s: Schema): Json
    decreases s, 2
  {
    JObject(ScalarProps(s) + NestedProps(s, AllSlots))
  }

  /** The fields that hold no schema, in declaration order, each written only when present. */
  function ScalarMembers(s: Schema): seq<Member> {
    [("title", OptString(s.title)),
     ("maxLength", OptNumber(s.maxLength)),
     ("minLength", OptNumber(s.minLength)),
     ("pattern", OptString(s.pattern)),
     ("maxItems", OptNumber(s.maxItems)),
     ("minItems", OptNumber(s.minItems)),
     ("uniqueItems", OptBool(s.uniqueItems)),
     ("maxProperties", OptNumber(s.maxProperties)),
     ("minProperties", OptNumber(s.minProperties)),
     ("required", OptBool(s.required)),
     ("type", OptString(s.typeName)),
     ("description", OptString(s.description)),
     ("format", s.format.Map(t => JString(DataTypeRaw(t)))),
     ("nullable", OptBool(s.nullable)),
     ("readOnly", OptBool(s.readOnly)),
     ("writeOnly", OptBool(s.writeOnly)),
     ("deprecated", OptBool(s.deprecated))]
  }

  function ScalarProps(s: Schema): map<string, Json> {
    Members(ScalarMembers(s))
  }

  /** One property per occupied slot among `slots`, holding that slot's schema written as an object. */
  function NestedProps(s: Schema, slots: seq<Slot>): map<string, Json>
    decreases s, 1, |slots|
  {
    if slots == [] then map[]
    else PutIfPresent(NestedProps(s, slots[1..]), SlotName(slots[0]), EncodeNested(SlotOf(s, slots[0])))
  }

  /** A nested slot: absent stays absent, a schema is written as its own object. */
  function EncodeNested(o: Option<Schema>): (r: Option<Json>)
    ensures r.Some? <==> o.Some?
    decreases o, 0
  {
    match o
    case None => None
    case Some(child) => Some(EncodeSchema(child))
  }

  /** Distinct slots are written under distinct names, all of them slot names. */
  lemma SlotNameInjective(k1: Slot, k2: Slot)
    ensures SlotName(k1) in SlotNames
    ensures SlotName(k1) == SlotName(k2) ==> k1 == k2
  {
  }

  /** Every plain field is written under one of the plain names. */
  lemma ScalarKeys(s: Schema)
    ensures ScalarProps(s).Keys <= ScalarNames
  {
    MembersKeys(ScalarMembers(s));
  }

  /** No plain field is written under a slot name. */
  lemma ScalarNamesApart(s: Schema, k: Slot)
    ensures SlotName(k) !in ScalarProps(s)
  {
    ScalarKeys(s);
    SlotNameInjective(k, k);
    assert ScalarNames !! SlotNames;
  }

  /**
   * A slot's property is present iff the slot holds a schema, and then it is
   * that one schema's encoding: a single object, never an array of schemas
   * and, for `additionalProperties`, never a boolean.
   */
  lemma NestedEncoding(s: Schema, k: Slot)
    ensures SlotName(k) in EncodeSchema(s).props <==> SlotOf(s, k).Some?
    ensures SlotOf(s, k).Some? ==> EncodeSchema(s).props[SlotName(k)] == EncodeSchema(SlotOf(s, k).value)
    ensures SlotOf(s, k).Some? ==> EncodeSchema(s).props[SlotName(k)].JObject?
  {
    ScalarNamesApart(s, k);
    NestedPropsMember(s, AllSlots, k);
  }

  /** The nested properties are exactly the occupied slots among `slots`, under their own names. */
  lemma {:induction false} NestedPropsMember(s: Schema, slots: seq<Slot>, k: Slot)
    ensures SlotName(k) in NestedProps(s, slots) <==> k in slots && SlotOf(s, k).Some?
    ensures SlotName(k) in NestedProps(s, slots) ==>
      NestedProps(s, slots)[SlotName(k)] == EncodeSchema(SlotOf(s, k).value)
  {
    if slots != [] {
      NestedPropsMember(s, slots[1..], k);
      SlotNameInjective(slots[0], k);
      assert k in slots <==> k == slots[0] || k in slots[1..];
    }
  }
}
