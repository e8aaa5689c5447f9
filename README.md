# OpenAPI document serialisation, modelled in Dafny

This project models the serialisation core of a Swift library
(`Sources/OpenAPI/OpenApiProvider.swift`). The library writes OpenAPI
Specification 3.0.0 documents as JSON. The model has three parts, and it
proves properties of each.

1. **Constrained key strings** (`RegexableString`), in `keys.dfy`.
   - A component name, a path template or an HTTP status code is built by
     `init?` only when its type's regular expression is found in the raw
     string.
   - The key's `description` is that string, unchanged.
   - There is no regex engine. Each pattern is a hand-coded matcher at one
     start index (`Keys.MatchesAt`). `Keys.FirstMatch` is the left-to-right
     search that `range(of:options: .regularExpression)` performs.
   - Closed-form lemmas say what each pattern accepts.
2. **The string subscript of key-typed dictionaries**, in `dictionary.dfy`.
   - This is a class whose mutable field is the map.
   - The getter re-validates the string and gives `nil` for an invalid key.
   - The setter silently ignores an invalid key, assigns on a valid one, and
     removes the entry when assigned `nil`.
3. **The flattening encoders**, in `flattening.dfy`.
   - The Paths, Responses and Callback encoders write a keyed collection as
     one JSON object whose dynamic keys are sibling properties. Each is an
     imperative method with a loop, proved equal to a function that
     specifies the resulting object.
   - The Security Requirement encoder writes a single property
     `{name: scopes}`.
   - The top-level OpenAPI Object is in `document.dfy`. It always writes
     `"openapi": "3.0.0"`, `info`, `servers` and `paths`, and writes
     `components`, `security`, `tags` and `externalDocs` only when supplied.

Around these are the closed datatypes the encoders need, each with its
encoding:
- the recursive Schema Object (`schema.dfy`);
- the Parameter and Header Objects (`parameters.dfy`), with the header
  constants and the path rule for `required`;
- the four Security Scheme variants, each with its `type` tag, and the HTTP
  scheme raw values (`security.dfy`);
- a few plain records: Info, Contact, License, Server, Server Variable, Tag
  and External Docs.

JSON objects are maps, modelled in `json.dfy`. The flattening encoders
iterate a Swift `Dictionary` (lines 221, 245, 257), whose order is
unspecified. All objects are modelled as maps, so no property order is
modelled. Synthesised `Encodable` is modelled once, as `Json.Members`:
- a list of stored properties in declaration order;
- optional ones are written with `encodeIfPresent`;
- its lemmas say which properties appear and with which values.

`scenarios.dfy` works through small concrete documents.

## Where the code and OpenAPI 3.0.0 differ

The OpenAPI Specification 3.0.0 constrains two of the three keys more
strictly than the code checks them:
- the Paths Object's field names MUST begin with a slash (`/`);
- the Responses Object's field names are HTTP status codes or one of the
  ranges `1XX` to `5XX`, so a status key *is* a status pattern.

The path pattern `\/.*` (line 113) and the status pattern
`[1-5](X{2}|[0-9]{2})` (line 227) are not anchored. The initialiser
searches for a match (line 72). So in the code:
- a path key is any string containing `/` (`"users/{id}"` is accepted);
- a status key is any string with a matching three-character window
  (`"x404y"` is accepted).

The model follows the code. See `Keys.PathTemplateAccepts`,
`Keys.StatusCodeAccepts` and their example lemmas.

Only the component-name pattern (line 95) is anchored.

A key's `value` is a settable property (lines 63, 97), so "the string passes
the pattern" is not an invariant of the key types. The key types here fix
only the kind. Validity is the separate predicate `Keys.Valid`, which only
keys made by `Keys.Init` are sure to satisfy.

## Model

| member | source | states |
|---|---|---|
| Keys.FirstMatch | Sources/OpenAPI/OpenApiProvider.swift:72 | the search result is a start index where the pattern matches, and no earlier index (from the starting point) matches; `None` means no index matches |
| Keys.Init | Sources/OpenAPI/OpenApiProvider.swift:71-74 | `init?` succeeds iff the pattern is found in the string, and the key then holds exactly the input and its type's kind |
| Keys.InitDescription | Sources/OpenAPI/OpenApiProvider.swift:71-78 | a key whose string passes its pattern is rebuilt unchanged from its `description` |
| Keys.KeyEquality | Sources/OpenAPI/OpenApiProvider.swift:59-68 | two keys of one type are equal iff their descriptions are equal (synthesised `Hashable` on the single stored string) |
| Keys.ComponentNameAccepts | Sources/OpenAPI/OpenApiProvider.swift:95 | a component name is accepted iff it is non-empty and every character is a letter, a digit, `.`, `-` or `_` |
| Keys.PathTemplateAccepts | Sources/OpenAPI/OpenApiProvider.swift:113 | a path key is accepted iff the string contains `/` anywhere |
| Keys.StatusCodeAccepts | Sources/OpenAPI/OpenApiProvider.swift:227 | a status key is accepted iff some three-character window is a digit 1-5 followed by `XX` or by two digits |
| Keys.ComponentNameExamples | Sources/OpenAPI/OpenApiProvider.swift:95 | `"Pet_v1.2-b"` is a component name; `"foo/bar"`, `"foo bar"` and `""` are not |
| Keys.PathTemplateExamples | Sources/OpenAPI/OpenApiProvider.swift:113 | `"/users/{id}"` and `"users/{id}"` are path keys, `"users"` is not |
| Keys.StatusCodeExamples | Sources/OpenAPI/OpenApiProvider.swift:227 | `"200"`, `"4XX"` and `"x404y"` are status keys; `"600"`, `"4X0"` and `"20"` are not |
| Keys.DefaultIsNotStatusCode | Sources/OpenAPI/OpenApiProvider.swift:220-227 | no status key can be built from `"default"`, the name of the default response slot |
| Dictionary.KeyedDictionary.Get | Sources/OpenAPI/OpenApiProvider.swift:83-86 | the getter gives a value iff the string is a valid key present in the dictionary, and then exactly the entry under that key |
| Dictionary.KeyedDictionary.Set | Sources/OpenAPI/OpenApiProvider.swift:87-90 | an invalid string leaves the dictionary unchanged; a valid one assigns the value, or removes the key on `nil`; a later get of the same string returns what was set; every other string reads as before; stored keys stay valid |
| Dictionary.StatusEntriesKeepDefault | Sources/OpenAPI/OpenApiProvider.swift:83-90 | a valid status-code dictionary used as the code map satisfies the status-key condition, so its responses keep their `default` property |
| Flattening.RawKeysSize | Sources/OpenAPI/OpenApiProvider.swift:255-261 | within one key type, distinct keys have distinct raw strings, so there are as many property names as entries |
| Flattening.FlattenedShape | Sources/OpenAPI/OpenApiProvider.swift:255-261 | the flattened object has a property named `s` iff the collection holds the key with string `s`; each property holds its entry's encoding; the sizes are equal |
| Flattening.FlattenedUpdate | Sources/OpenAPI/OpenApiProvider.swift:259 | writing one more entry into the container adds exactly the property named by that key's string |
| Flattening.WriteEntries | Sources/OpenAPI/OpenApiProvider.swift:257-260 | the `forEach` loop that writes entries one at a time leaves the container holding what it held before plus the flattened collection |
| Flattening.EncodePaths | Sources/OpenAPI/OpenApiProvider.swift:255-261 | Paths encodes to one object whose keys are exactly the raw path strings, each holding its path item's encoding, as many as there are paths |
| Flattening.ResponsesKeys | Sources/OpenAPI/OpenApiProvider.swift:218-224 | for any responses, valid keys or not: `default` is always written; the properties are `default` and the status keys' raw strings; each code holds its own response; `default` holds the default response, or `null` when there is none (`encode` of an optional), unless a status key's string is `default`, whose response then replaces it |
| Flattening.ResponsesShape | Sources/OpenAPI/OpenApiProvider.swift:218-224 | when every status key passes its pattern, `default` is never overwritten and holds the default response or `null`, and there is one property more than there are codes |
| Flattening.ReplacedKeyOverwritesDefault | Sources/OpenAPI/OpenApiProvider.swift:218-224 | if a status key's string was changed to `default` after construction, its response replaces the default slot, because `default` is written first |
| Flattening.EncodeResponses | Sources/OpenAPI/OpenApiProvider.swift:218-224 | the encoder's writes, `default` first and then the code-map loop, produce exactly the responses object |
| Flattening.SinglePathStep | Sources/OpenAPI/OpenApiProvider.swift:245-248 | considering one more callback entry adds it exactly when its Paths holds one path |
| Flattening.SinglePathObject | Sources/OpenAPI/OpenApiProvider.swift:243-249 | a Paths of exactly one path is written as a single property, named by that path |
| Flattening.CallbackShape | Sources/OpenAPI/OpenApiProvider.swift:243-249 | a callback keeps exactly the entries whose Paths holds one path, each as a single-property object; entries with 0 or 2 or more paths are dropped; a nil map gives an empty object |
| Flattening.EncodeCallback | Sources/OpenAPI/OpenApiProvider.swift:243-249 | the encoder's loop with its `guard` produces exactly the callback object |
| Flattening.SecurityRequirementReadBack | Sources/OpenAPI/OpenApiProvider.swift:473-476 | a security requirement is written as one property, named by the scheme name, whose array reads back as exactly its scopes |
| Flattening.SecurityRequirementInjective | Sources/OpenAPI/OpenApiProvider.swift:469-477 | distinct requirements are written as distinct objects |
| Json.StringArrayRoundTrip | Sources/OpenAPI/OpenApiProvider.swift:475 | a `[String]` is written as an array of strings that reads back as the same strings in the same order |
| Json.StringArrayInjective | Sources/OpenAPI/OpenApiProvider.swift:475 | the strings can be read back from the array |
| Json.MembersLookup | Sources/OpenAPI/OpenApiProvider.swift:490-504 | a stored property whose key no other property shares is written iff it is present, with its own value |
| Json.MembersKeys | Sources/OpenAPI/OpenApiProvider.swift:490-504 | a synthesised encoding writes no key other than the declared ones |
| Schema.SlotNameInjective | Sources/OpenAPI/OpenApiProvider.swift:364-370 | the seven nested-schema slots are written under seven distinct names |
| Schema.ScalarKeys | Sources/OpenAPI/OpenApiProvider.swift:346-382 | the fields that hold no schema are written only under their own names |
| Schema.ScalarNamesApart | Sources/OpenAPI/OpenApiProvider.swift:346-382 | no plain field is written under a slot's name |
| Schema.NestedPropsMember | Sources/OpenAPI/OpenApiProvider.swift:364-370 | the nested properties are exactly the occupied slots, each holding the encoding of its one schema |
| Schema.NestedEncoding | Sources/OpenAPI/OpenApiProvider.swift:364-370 | a slot (including `additionalProperties`) is written iff it holds a schema, and then as that single schema's object, never an array or a boolean |
| Parameters.HeaderEncoding | Sources/OpenAPI/OpenApiProvider.swift:287-300 | every encoded header carries `"in": "header"`, `"style": "simple"`, `"explode": false` and its `required`, and no `allowReserved` |
| Parameters.HeaderHasNoName | Sources/OpenAPI/OpenApiProvider.swift:287-300 | a header is written without a `name` |
| Parameters.ParameterEncoding | Sources/OpenAPI/OpenApiProvider.swift:168-182 | a parameter is written with its name, its location's raw value and its `required`; `style` and `allowReserved` appear iff set |
| Parameters.HeaderRuleHolds | Sources/OpenAPI/OpenApiProvider.swift:288-290 | the rule "in the path ⇒ required" holds for every header, vacuously, because a header's location is fixed |
| Parameters.PathRuleNotEnforced | Sources/OpenAPI/OpenApiProvider.swift:172 | the rule is only a TODO: a parameter in the path that is not required can be built |
| Parameters.RawValuesInjective | Sources/OpenAPI/OpenApiProvider.swift:184-191 | distinct locations and distinct styles have distinct raw values |
| Parameters.LocationWritten | Sources/OpenAPI/OpenApiProvider.swift:168-191 | two parameters are written with the same `in` iff they have the same location |
| Parameters.StyleWritten | Sources/OpenAPI/OpenApiProvider.swift:168-191 | two parameters that set a style are written with the same `style` iff they have the same style |
| Security.ParseHttpScheme | Sources/OpenAPI/OpenApiProvider.swift:421-423 | the raw-value initialiser returns only a scheme whose raw value is the input |
| Security.HttpSchemeRoundTrip | Sources/OpenAPI/OpenApiProvider.swift:421-423 | every HTTP scheme is read back from its raw value |
| Security.ScramSpelling | Sources/OpenAPI/OpenApiProvider.swift:422 | `scramSha1` and `scramSha256` have the raw values `scram-sha-1` and `scram-sha-256`; their case names are not raw values |
| Security.SchemeTypeTag | Sources/OpenAPI/OpenApiProvider.swift:410-467 | every security scheme is written with its kind's fixed tag under `type` (`apiKey`, `http`, `oauth2`, `openIdConnect`) |
| Security.TagDiscriminates | Sources/OpenAPI/OpenApiProvider.swift:401-467 | two schemes are written with the same `type` iff they are of the same kind |
| Security.SchemeTypeRawInjective | Sources/OpenAPI/OpenApiProvider.swift:401-403 | distinct scheme kinds have distinct tags |
| Security.HttpSchemeWritten | Sources/OpenAPI/OpenApiProvider.swift:420-428 | an HTTP scheme is written by its raw value, which reads back as the same scheme |
| Document.SpecRequired | Sources/OpenAPI/OpenApiProvider.swift:490-496 | every document carries `"openapi": "3.0.0"` and its `info`, `servers` and `paths` (the flattened Paths object) |
| Document.SpecOptional | Sources/OpenAPI/OpenApiProvider.swift:498-504 | `components`, `security`, `tags` and `externalDocs` are written iff supplied, each holding the encoding of the supplied value |
| Document.SpecKeys | Sources/OpenAPI/OpenApiProvider.swift:479-506 | a document is written with no property beyond its eight declared ones |
| Document.SecurityElements | Sources/OpenAPI/OpenApiProvider.swift:500 | each security requirement of a document is the single-property object `{name: scopes}` |
| Scenarios.TitleAndVersionOnly | Sources/OpenAPI/OpenApiProvider.swift:24-34 | an info with only a title and a version is written with exactly those two properties |
| Scenarios.MinimalDocumentMembers | Sources/OpenAPI/OpenApiProvider.swift:490-504 | the minimal document has exactly the four required properties |
| Scenarios.MinimalDocument | Sources/OpenAPI/OpenApiProvider.swift:490-504 | the minimal document is `{"openapi":"3.0.0","info":{"title":"Test","version":"1.0"},"servers":[],"paths":{}}` |
| Scenarios.TwoPaths | Sources/OpenAPI/OpenApiProvider.swift:255-261 | `/users` and `/users/{id}` are written as exactly two sibling properties |
| Scenarios.TwoCodes | Sources/OpenAPI/OpenApiProvider.swift:221-223 | codes `200` and `404` are written as two properties named by the codes |
| Scenarios.DefaultAndTwoCodes | Sources/OpenAPI/OpenApiProvider.swift:218-224 | a default and codes `200` and `404` are exactly three sibling properties |
| Scenarios.CallbackDropsTwoPaths | Sources/OpenAPI/OpenApiProvider.swift:245-246 | of two callback entries, the one with two paths is dropped and the one with a single path is kept |

## Left out

- `OpenAPIProvider.register` (lines 3-7), `OpenAPIDefaults` (9-12), `OpenApiService.getOpenAPISpec` (14-22, a `fatalError()` stub) and `OpenAPISpec.encodeResponse` (480-488): HTTP and event-loop plumbing of the Vapor framework, with no logic of the serialiser.
- `Sources/OpenAPI/OpenAPI.swift` and `Package.swift` are not part of this model: route-registration glue and the build manifest.
- The regular-expression engine: each pattern is a hand-coded matcher. ICU's `$` also matches before a final line terminator (line 95), so ICU accepts `"Pet\n"` as a component name and the model does not.
- Property order and byte-level output: objects are maps. The flattening encoders' order is unspecified, because Swift `Dictionary` iteration order is (lines 221, 245, 257); the declaration order in which the other encoders write is not kept either.
- Errors thrown by an encoder's container: every write is modelled as succeeding.
- `Double` schema bounds (`multipleOf`, `maximum`, `exclusiveMaximum`, `minimum`, `exclusiveMinimum`, lines 348-352): floating point.
- Existential and foreign values are opaque or absent: `enum` and `default` (`EncodableWrapper`), `example`, `examples` and `content` (`Codable?`, `OpenAPIExample`), and `HTTPHeaderName`/`HTTPHeaderValue`. URLs are kept as the strings they are written as.
- Schema `discriminator`, `xml` and `externalDocs` (lines 375-379): field-for-field records with no encoding logic of their own.
- Operation, Path Item, Media Type, Encoding, Link, Request Body, Response and XML Objects: field-for-field declarations. Path items and responses reach the flattening encoders through an encoding parameter.
- `OpenAPIComponents` (lines 100-110) is encoded by a parameter. Its dictionaries are keyed by `OpenAPIKeyString`, which conforms to no `Encodable`, so there is no synthesised encoding to model.
- `OpenAPISecuritySchemeOAuth2.Flows.BaseFlow` (lines 437-440): declared but used by none of the four flows.
- `additionalProperties` as a boolean (TODOs at lines 332 and 370): the code has only an optional schema, and so does the model.
- Integer width: schema bounds are unbounded integers. The serialiser does no arithmetic on them, so 64-bit `Int` never wraps here.
- The patterns are settable `static var`s (lines 95, 113, 227); the model fixes each to its declared initial value. A client that reassigns one changes what `init?` and the dictionary subscript accept, and then `Keys.ComponentNameAccepts`, `Keys.PathTemplateAccepts`, `Keys.StatusCodeAccepts` and everything built on `Keys.Accepts` no longer describe the code.
- Key equality: keys and dictionary keys are compared as sequences of code points, not by Swift's Unicode canonical equivalence. So `"/caf\u{E9}"` and `"/cafe\u{301}"` are one path key in Swift and two here, and `KeyedDictionary.Set`'s "every other string reads as before" does not hold in Swift for such a pair.
- Synthesised `Encodable` for Schema, Parameter and Header: as declared, these types store existential values (`OpenAPISchemaProtocol?`, `OpenAPIExample?`, `Codable?` and `EncodableWrapper`, lines 179-180, 297-298, 362-380), for which Swift cannot synthesise an encoding. The model gives the encoding synthesis would produce once the slots hold a concrete schema type and the existential members are dropped.
- ResponsesShape: it assumes every status key's string passes its pattern (`Flattening.CodesValid`); `Flattening.ResponsesKeys` gives the key set and the values for every input. `value` is settable, so a key can be changed later; one changed to `default` overwrites the default slot, which `Flattening.ReplacedKeyOverwritesDefault` shows.
- KeyedDictionary.Set: like the code, it reports nothing when the string is not a valid key (the TODO at line 88).
