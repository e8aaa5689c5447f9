/**
 * Parameter and Header Objects. Both conform to one protocol of
 * parameter members (`OpenAPIParamterBase`); a header fixes four of them to
 * constants. The rule of OpenAPI 3.0.0 that a parameter in the path must be
 * required is stated here as a predicate: the code carries it only as a
 * TODO and does not enforce it.
 */
module Parameters {
  import opened Wrappers
  import opened Json
  import opened Schema

  /** `OpenAPIParameterLocation`. */
  datatype Location = Query | Header | Path | Cookie

  function LocationRaw(l: Location): string {
    match l
    case Query => "query"
    case Header => "header"
    case Path => "path"
    case Cookie => "cookie"
  }

  /** `OpenAPIParameterStyle`. */
  datatype Style = Matrix | Label | Form | Simple | SpaceDelimited | PipeDelimited | DeepObject

  function StyleRaw(st: Style): string {
    match st
    case Matrix => "matrix"
    case Label => "label"
    case Form => "form"
    case Simple => "simple"
    case SpaceDelimited => "spaceDelimited"
    case PipeDelimited => "pipeDelimited"
    case DeepObject => "deepObject"
  }

  /** The members of the parameter protocol, as a value. */
  datatype ParameterBase = ParameterBase(
    location: Location,
    description: Option<string>,
    required: bool,
    deprecated: Option<bool>,
    allowEmptyValue: Option<bool>,
    style: Option<Style>,
    explode: Option<bool>,
    allowReserved: Option<bool>,
    schema: Option<Schema>)

  /** `OpenAPIParameter`: every protocol member is chosen by its author, plus a name. */
  datatype Parameter = Parameter(
    name: string,
    location: Location,
    description: Option<string>,
    required: bool,
    deprecated: Option<bool>,
    allowEmptyValue: Option<bool>,
    style: Option<Style>,
    explode: Option<bool>,
    allowReserved: Option<bool>,
    schema: Option<Schema>)

  /** `OpenAPIHeader`: only these members are free; the other four are constants. */
  datatype Header = Header(
    description: Option<string>,
    required: bool,
    deprecated: Option<bool>,
    allowEmptyValue: Option<bool>,
    schema: Option<Schema>)

  function ParameterAsBase(p: Parameter): (b: ParameterBase)
    ensures b.location == p.location && b.required == p.required
    ensures b.style == p.style && b.explode == p.explode && b.allowReserved == p.allowReserved
  {
    ParameterBase(p.location, p.description, p.required, p.deprecated, p.allowEmptyValue,
                  p.style, p.explode, p.allowReserved, p.schema)
  }

  /** A header is always in the header, in the simple style, not exploded, with no `allowReserved`. */
  function HeaderAsBase(h: Header): (b: ParameterBase)
    ensures b.location == Location.Header && b.style == Some(Simple)
    ensures b.explode == Some(false) && b.allowReserved.None?
    ensures b.required == h.required
  {
    ParameterBase(Location.Header, h.description, h.required, h.deprecated, h.allowEmptyValue,
                  Some(Simple), Some(false), None, h.schema)
  }

  /** OpenAPI 3.0.0: a parameter whose location is the path must be required. */
  predicate RequiredRule(b: ParameterBase) {
    b.location == Path ==> b.required
  }

  /**
   * The protocol members in declaration order, as synthesised `Encodable`
   * would write them once the members of existential type are dropped.
   */
  function BaseMembers(b: ParameterBase): seq<Member> {
    [("in", Some(JString(LocationRaw(b.location)))),
     ("description", OptString(b.description)),
     ("required", Some(JBool(b.required))),
     ("deprecated", OptBool(b.deprecated)),
     ("allowEmptyValue", OptBool(b.allowEmptyValue)),
     ("style", b.style.Map(st => JString(StyleRaw(st)))),
     ("explode", OptBool(b.explode)),
     ("allowReserved", OptBool(b.allowReserved)),
     ("schema", b.schema.Map(EncodeSchema))]
  }

  function ParameterMembers(p: Parameter): seq<Member> {
    [("name", Some(JString(p.name)))] + BaseMembers(ParameterAsBase(p))
  }

  function EncodeParameter(p: Parameter): Json {
    JObject(Members(ParameterMembers(p)))
  }

  function EncodeHeader(h: Header): Json {
    JObject(Members(BaseMembers(HeaderAsBase(h))))
  }

  /** The header constants are what every encoded header carries. */
  lemma HeaderEncoding(h: Header)
    ensures "in" in EncodeHeader(h).props && EncodeHeader(h).props["in"] == JString("header")
    ensures "style" in EncodeHeader(h).props && EncodeHeader(h).props["style"] == JString("simple")
    ensures "explode" in EncodeHeader(h).props && EncodeHeader(h).props["explode"] == JBool(false)
    ensures "required" in EncodeHeader(h).props && EncodeHeader(h).props["required"] == JBool(h.required)
    ensures "allowReserved" !in EncodeHeader(h).props
  {
    var ms := BaseMembers(HeaderAsBase(h));
    MembersLookup(ms, 0);
    MembersLookup(ms, 2);
    MembersLookup(ms, 5);
    MembersLookup(ms, 6);
    MembersLookup(ms, 7);
  }

  /** Unlike a parameter, a header is written without a name. */
  lemma HeaderHasNoName(h: Header)
    ensures "name" !in EncodeHeader(h).props
  {
    var ms := BaseMembers(HeaderAsBase(h));
    MembersKeys(ms);
    assert "name" !in Names(ms);
  }

  /** A parameter is written with its name, location and requiredness; its style and `allowReserved` only when set. */
  lemma ParameterEncoding(p: Parameter)
    ensures "name" in EncodeParameter(p).props && EncodeParameter(p).props["name"] == JString(p.name)
    ensures "in" in EncodeParameter(p).props && EncodeParameter(p).props["in"] == JString(LocationRaw(p.location))
    ensures "required" in EncodeParameter(p).props && EncodeParameter(p).props["required"] == JBool(p.required)
    ensures "style" in EncodeParameter(p).props <==> p.style.Some?
    ensures "allowReserved" in EncodeParameter(p).props <==> p.allowReserved.Some?
  {
    var ms := ParameterMembers(p);
    MembersLookup(ms, 0);
    MembersLookup(ms, 1);
    MembersLookup(ms, 3);
    MembersLookup(ms, 6);
    MembersLookup(ms, 8);
  }

  /** Because a header's location is fixed to the header, the path rule never binds it. */
  lemma HeaderRuleHolds(h: Header)
    ensures RequiredRule(HeaderAsBase(h))
  {
  }

  /** Nothing stops a parameter in the path from being optional: the rule is not enforced. */
  lemma PathRuleNotEnforced()
    ensures exists p: Parameter :: p.location == Path && !RequiredRule(ParameterAsBase(p))
  {
    var p := Parameter("id", Path, None, false, None, None, None, None, None, None);
    assert !RequiredRule(ParameterAsBase(p));
  }

  /** Distinct locations and distinct styles are written as distinct strings. */
  lemma RawValuesInjective(l1: Location, l2: Location, s1: Style, s2: Style)
    ensures LocationRaw(l1) == LocationRaw(l2) ==> l1 == l2
    ensures StyleRaw(s1) == StyleRaw(s2) ==> s1 == s2
  {
  }

  /** The written `in` decides the location: two parameters share it iff they share a location. */
  lemma LocationWritten(p: Parameter, q: Parameter)
    ensures "in" in EncodeParameter(p).props && "in" in EncodeParameter(q).props
    ensures EncodeParameter(p).props["in"] == EncodeParameter(q).props["in"] <==> p.location == q.location
  {
    MembersLookup(ParameterMembers(p), 1);
    MembersLookup(ParameterMembers(q), 1);
    RawValuesInjective(p.location, q.location, Simple, Simple);
  }

  /** The written `style` decides the style: two parameters that set one share it iff they share a style. */
  lemma StyleWritten(p: Parameter, q: Parameter)
    requires p.style.Some? && q.style.Some?
    ensures "style" in EncodeParameter(p).props && "style" in EncodeParameter(q).props
    ensures EncodeParameter(p).props["style"] == EncodeParameter(q).props["style"] <==> p.style == q.style
  {
    MembersLookup(ParameterMembers(p), 6);
    MembersLookup(ParameterMembers(q), 6);
    RawValuesInjective(Query, Query, p.style.value, q.style.value);
  }
}
