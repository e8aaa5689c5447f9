/**
 * Security Scheme Objects. The code has one type per scheme kind, each with
 * a `type` member fixed to its kind's tag; here the four kinds are the
 * variants of one closed datatype, and the tag is a function of the variant.
 */
module Security {
  import opened Wrappers
  import opened Json

  /** `OpenAPISecuritySchemeType`. */
  datatype SchemeType = ApiKey | Http | OAuth2 | OpenIdConnect

  function SchemeTypeRaw(t: SchemeType): string {
    match t
    case ApiKey => "apiKey"
    case Http => "http"
    case OAuth2 => "oauth2"
    case OpenIdConnect => "openIdConnect"
  }

  /** Where an API key is sent. */
  datatype ApiKeyLocation = Query | Header | Cookie

  function ApiKeyLocationRaw(l: ApiKeyLocation): string {
    match l
    case Query => "query"
    case Header => "header"
    case Cookie => "cookie"
  }

  /** The HTTP authentication schemes. */
  datatype HttpScheme = Basic | Bearer | Digest | Hoba | Mutual | Negotiate | OAuth | ScramSha1 | ScramSha256 | Vapid

  /** Each scheme's raw value is its case name, except the two SCRAM schemes, which are spelt as registered. */
  function HttpSchemeRaw(h: HttpScheme): string {
    match h
    case Basic => "basic"
    case Bearer => "bearer"
    case Digest => "digest"
    case Hoba => "hoba"
    case Mutual => "mutual"
    case Negotiate => "negotiate"
    case OAuth => "oauth"
    case ScramSha1 => "scram-sha-1"
    case ScramSha256 => "scram-sha-256"
    case Vapid => "vapid"
  }

  /** The raw-value initialiser of the scheme enumeration: the scheme with that raw value, if any. */
  function ParseHttpScheme(raw: string): (r: Option<HttpScheme>)
    ensures r.Some? ==> HttpSchemeRaw(r.value) == raw
  {
    match raw
    case "basic" => Some(Basic)
    case "bearer" => Some(Bearer)
    case "digest" => Some(Digest)
    case "hoba" => Some(Hoba)
    case "mutual" => Some(Mutual)
    case "negotiate" => Some(Negotiate)
    case "oauth" => Some(OAuth)
    case "scram-sha-1" => Some(ScramSha1)
    case "scram-sha-256" => Some(ScramSha256)
    case "vapid" => Some(Vapid)
    case _ => None
  }

  /** Every scheme is read back from its raw value. */
  lemma HttpSchemeRoundTrip(h: HttpScheme)
    ensures ParseHttpScheme(HttpSchemeRaw(h)) == Some(h)
  {
  }

  /** The SCRAM schemes are known by their registered names only, not by their case names. */
  lemma ScramSpelling()
    ensures ParseHttpScheme("scram-sha-1") == Some(ScramSha1)
    ensures ParseHttpScheme("scram-sha-256") == Some(ScramSha256)
    ensures ParseHttpScheme("scramSha1") == None
    ensures ParseHttpScheme("scramSha256") == None
  {
  }

  /** An OAuth flow that needs an authorization URL. */
  datatype UrlFlow = UrlFlow(refreshUrl: Option<string>, scopes: map<string, string>, authorizationUrl: string)

  /** An OAuth flow that needs a token URL. */
  datatype TokenFlow = TokenFlow(refreshUrl: Option<string>, scopes: map<string, string>, tokenUrl: string)

  /** An OAuth flow that needs both. */
  datatype TokenUrlFlow = TokenUrlFlow(refreshUrl: Option<string>, scopes: map<string, string>, tokenUrl: string, authorizationUrl: string)

  datatype Flows = Flows(
    implicit: Option<UrlFlow>,
    password: Option<TokenFlow>,
    clientCredentials: Option<TokenFlow>,
    authorizationCode: Option<TokenUrlFlow>)

  datatype SecurityScheme =
    | ApiKeyScheme(description: Option<string>, name: string, location: ApiKeyLocation)
    | HttpAuth(description: Option<string>, scheme: HttpScheme, bearerFormat: Option<string>)
    | OAuth2Scheme(description: Option<string>, flows: Flows)
    | OpenIdConnectScheme(description: Option<string>, openIdConnectUrl: string)

  /** The kind each scheme type fixes its `type` member to. */
  function TypeOf(s: SecurityScheme): SchemeType {
    match s
    case ApiKeyScheme(_, _, _) => ApiKey
    case HttpAuth(_, _, _) => Http
    case OAuth2Scheme(_, _) => OAuth2
    case OpenIdConnectScheme(_, _) => OpenIdConnect
  }

  /** A `[String: String]` of scopes, written as an object of strings. */
  function EncodeScopes(scopes: map<string, string>): Json {
    JObject(map k | k in scopes :: JString(scopes[k]))
  }

  function EncodeUrlFlow(f: UrlFlow): Json {
    JObject(Members([("refreshUrl", OptString(f.refreshUrl)),
                     ("scopes", Some(EncodeScopes(f.scopes))),
                     ("authorizationUrl", Some(JString(f.authorizationUrl)))]))
  }

  function EncodeTokenFlow(f: TokenFlow): Json {
    JObject(Members([("refreshUrl", OptString(f.refreshUrl)),
                     ("scopes", Some(EncodeScopes(f.scopes))),
                     ("tokenUrl", Some(JString(f.tokenUrl)))]))
  }

  function EncodeTokenUrlFlow(f: TokenUrlFlow): Json {
    JObject(Members([("refreshUrl", OptString(f.refreshUrl)),
                     ("scopes", Some(EncodeScopes(f.scopes))),
                     ("tokenUrl", Some(JString(f.tokenUrl))),
                     ("authorizationUrl", Some(JString(f.authorizationUrl)))]))
  }

  function EncodeFlows(f: Flows): Json {
    JObject(Members([("implicit", f.implicit.Map(EncodeUrlFlow)),
                     ("password", f.password.Map(EncodeTokenFlow)),
                     ("clientCredentials", f.clientCredentials.Map(EncodeTokenFlow)),
                     ("authorizationCode", f.authorizationCode.Map(EncodeTokenUrlFlow))]))
  }

  /** The stored properties of each scheme type in declaration order, starting with its tag. */
  function SchemeMembers(s: SecurityScheme): seq<Member> {
    var tag := ("type", Some(JString(SchemeTypeRaw(TypeOf(s)))));
    match s
    case ApiKeyScheme(d, name, location) =>
      [tag, ("description", OptString(d)), ("name", Some(JString(name))),
       ("in", Some(JString(ApiKeyLocationRaw(location))))]
    case HttpAuth(d, scheme, bearerFormat) =>
      [tag, ("description", OptString(d)), ("scheme", Some(JString(HttpSchemeRaw(scheme)))),
       ("bearerFormat", OptString(bearerFormat))]
    case OAuth2Scheme(d, flows) =>
      [tag, ("description", OptString(d)), ("flows", Some(EncodeFlows(flows)))]
    case OpenIdConnectScheme(d, url) =>
      [tag, ("description", OptString(d)), ("openIdConnectUrl", Some(JString(url)))]
  }

  function EncodeScheme(s: SecurityScheme): Json {
    JObject(Members(SchemeMembers(s)))
  }

  /** Every scheme is written with its kind's tag under `type`. */
  lemma SchemeTypeTag(s: SecurityScheme)
    ensures "type" in EncodeScheme(s).props
    ensures EncodeScheme(s).props["type"] == JString(SchemeTypeRaw(TypeOf(s)))
  {
    MembersLookup(SchemeMembers(s), 0);
  }

  /** The written tag tells the kinds apart: two schemes carry the same tag iff they are of one kind. */
  lemma TagDiscriminates(a: SecurityScheme, b: SecurityScheme)
    ensures "type" in EncodeScheme(a).props && "type" in EncodeScheme(b).props
    ensures EncodeScheme(a).props["type"] == EncodeScheme(b).props["type"] <==> TypeOf(a) == TypeOf(b)
  {
    SchemeTypeTag(a);
    SchemeTypeTag(b);
    SchemeTypeRawInjective(TypeOf(a), TypeOf(b));
  }

  /** Distinct kinds have distinct tags. */
  lemma SchemeTypeRawInjective(t1: SchemeType, t2: SchemeType)
    ensures SchemeTypeRaw(t1) == SchemeTypeRaw(t2) ==> t1 == t2
  {
  }

  /** An HTTP scheme is written by its raw value, which reads back as the same scheme. */
  lemma HttpSchemeWritten(s: SecurityScheme)
    requires s.HttpAuth?
    ensures "scheme" in EncodeScheme(s).props
    ensures EncodeScheme(s).props["scheme"] == JString(HttpSchemeRaw(s.scheme))
    ensures ParseHttpScheme(EncodeScheme(s).props["scheme"].s) == Some(s.scheme)
  {
    MembersLookup(SchemeMembers(s), 2);
    HttpSchemeRoundTrip(s.scheme);
  }
}
