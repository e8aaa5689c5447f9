/**
 * The OpenAPI Object (`OpenAPISpec`) and the plain records it holds. Their
 * encodings are the ones synthesised `Encodable` gives them: required
 * members always written, optional ones only when present. The version
 * member is the constant "3.0.0"; the document's paths are flattened as in
 * `Flattening`, and the components are encoded by a parameter.
 */
module Document {
  import opened Wrappers
  import opened Json
  import opened Flattening

  /** The version every document declares. */
  const OpenApiVersion: string := "3.0.0"

  datatype Contact = Contact(name: Option<string>, url: Option<string>, email: Option<string>)

  /** A licence; its URL is kept as the string it is written as. */
  datatype License = License(name: string, url: string)

  datatype Info = Info(
    title: string,
    description: Option<string>,
    version: string,
    termsOfService: Option<string>,
    contact: Option<Contact>,
    license: Option<License>)

  datatype ServerVariable = ServerVariable(enumValues: Option<seq<string>>, default: string, description: Option<string>)

  datatype Server = Server(url: string, description: Option<string>, variables: map<string, ServerVariable>)

  datatype ExternalDocs = ExternalDocs(description: Option<string>, url: string)

  datatype Tag = Tag(name: string, description: Option<string>, externalDocs: Option<ExternalDocs>)

  /** The document, over the path item type `P` and the components type `C`. */
  datatype Spec<P, C> = Spec(
    info: Info,
    servers: seq<Server>,
    paths: Paths<P>,
    components: Option<C>,
    security: Option<seq<SecurityRequirement>>,
    tags: Option<seq<Tag>>,
    externalDocs: Option<ExternalDocs>)

  function EncodeContact(c: Contact): Json {
    JObject(Members([("name", OptString(c.name)), ("url", OptString(c.url)), ("email", OptString(c.email))]))
  }

  function EncodeLicense(l: License): Json {
    JObject(Members([("name", Some(JString(l.name))), ("url", Some(JString(l.url)))]))
  }

  function EncodeInfo(i: Info): Json {
    JObject(Members([("title", Some(JString(i.title))),
                     ("description", OptString(i.description)),
                     ("version", Some(JString(i.version))),
                     ("termsOfService", OptString(i.termsOfService)),
                     ("contact", i.contact.Map(EncodeContact)),
                     ("license", i.license.Map(EncodeLicense))]))
  }

  function EncodeServerVariable(v: ServerVariable): Json {
    JObject(Members([("enum", v.enumValues.Map(StringArray)),
                     ("default", Some(JString(v.default))),
                     ("description", OptString(v.description))]))
  }

  function EncodeServer(s: Server): Json {
    JObject(Members([("url", Some(JString(s.url))),
                     ("description", OptString(s.description)),
                     ("variables", Some(JObject(map k | k in s.variables :: EncodeServerVariable(s.variables[k]))))]))
  }

  function EncodeExternalDocs(d: ExternalDocs): Json {
    JObject(Members([("description", OptString(d.description)), ("url", Some(JString(d.url)))]))
  }

  function EncodeTag(t: Tag): Json {
    JObject(Members([("name", Some(JString(t.name))),
                     ("description", OptString(t.description)),
                     ("externalDocs", t.externalDocs.Map(EncodeExternalDocs))]))
  }

  /** The document's stored properties in declaration order. */
  function SpecMembers<P, C>(spec: Spec<P, C>, encPath: P -> Json, encComponents: C -> Json): seq<Member> {
    [("openapi", Some(JString(OpenApiVersion))),
     ("info", Some(EncodeInfo(spec.info))),
     ("servers", Some(ArrayOf(spec.servers, EncodeServer))),
     ("paths", Some(JObject(PathsObject(spec.paths, encPath)))),
     ("components", spec.components.Map(encComponents)),
     ("security", spec.security.Map(reqs => ArrayOf(reqs, EncodeSecurityRequirement))),
     ("tags", spec.tags.Map(tags => ArrayOf(tags, EncodeTag))),
     ("externalDocs", spec.externalDocs.Map(EncodeExternalDocs))]
  }

  function EncodeSpec<P, C>(spec: Spec<P, C>, encPath: P -> Json, encComponents: C -> Json): Json {
    JObject(Members(SpecMembers(spec, encPath, encComponents)))
  }

  /** The version, info, servers and paths are always written, the version as the constant "3.0.0". */
  lemma SpecRequired<P, C>(spec: Spec<P, C>, encPath: P -> Json, encComponents: C -> Json)
    ensures var r := EncodeSpec(spec, encPath, encComponents).props;
      && "openapi" in r && r["openapi"] == JString("3.0.0")
      && "info" in r && r["info"] == EncodeInfo(spec.info)
      && "servers" in r && r["servers"] == ArrayOf(spec.servers, EncodeServer)
      && "paths" in r && r["paths"] == JObject(PathsObject(spec.paths, encPath))
  {
    var ms := SpecMembers(spec, encPath, encComponents);
    MembersLookup(ms, 0);
    MembersLookup(ms, 1);
    MembersLookup(ms, 2);
    MembersLookup(ms, 3);
  }

  /** The components, security, tags and external docs are written iff supplied, each with its own encoding. */
  lemma SpecOptional<P, C>(spec: Spec<P, C>, encPath: P -> Json, encComponents: C -> Json)
    ensures var r := EncodeSpec(spec, encPath, encComponents).props;
      && ("components" in r <==> spec.components.Some?)
      && ("security" in r <==> spec.security.Some?)
      && ("tags" in r <==> spec.tags.Some?)
      && ("externalDocs" in r <==> spec.externalDocs.Some?)
      && (spec.components.Some? ==> r["components"] == encComponents(spec.components.value))
      && (spec.security.Some? ==> r["security"] == ArrayOf(spec.security.value, EncodeSecurityRequirement))
      && (spec.tags.Some? ==> r["tags"] == ArrayOf(spec.tags.value, EncodeTag))
      && (spec.externalDocs.Some? ==> r["externalDocs"] == EncodeExternalDocs(spec.externalDocs.value))
  {
    var ms := SpecMembers(spec, encPath, encComponents);
    MembersLookup(ms, 4);
    MembersLookup(ms, 5);
    MembersLookup(ms, 6);
    MembersLookup(ms, 7);
  }

  /** No property beyond the eight declared ones is written. */
  lemma SpecKeys<P, C>(spec: Spec<P, C>, encPath: P -> Json, encComponents: C -> Json)
    ensures EncodeSpec(spec, encPath, encComponents).props.Keys <=
      {"openapi", "info", "servers", "paths", "components", "security", "tags", "externalDocs"}
  {
    var ms := SpecMembers(spec, encPath, encComponents);
    MembersKeys(ms);
  }

  /** Each security requirement of the document is written as a single-property object `{name: scopes}`. */
  lemma SecurityElements<P, C>(spec: Spec<P, C>, encPath: P -> Json, encComponents: C -> Json, i: nat)
    requires spec.security.Some? && i < |spec.security.value|
    ensures var r := EncodeSpec(spec, encPath, encComponents).props;
      var req := spec.security.value[i];
      && "security" in r && r["security"].JArray? && i < |r["security"].items|
      && r["security"].items[i] == JObject(map[req.name := StringArray(req.value)])
  {
    var ms := SpecMembers(spec, encPath, encComponents);
    MembersLookup(ms, 5);
    var req := spec.security.value[i];
    assert EncodeSecurityRequirement(req).props == map[req.name := StringArray(req.value)];
  }
}
