/**
 * The hand-written encoders that flatten a keyed collection into one JSON
 * object whose dynamic keys are sibling properties (the Paths, Responses,
 * Callback and Security Requirement Objects of OpenAPI 3.0.0). Each
 * `encode(to:)` opens one keyed container and writes into it entry by entry;
 * here the container is the map of properties written so far, and each
 * method is proved equal to a function that says which object results.
 *
 * The values stored in the collections (path items, responses) are encoded
 * by a function parameter: their own encodings are synthesised field by
 * field and are not part of this model.
 */
module Flattening {
  import opened Wrappers
  import opened Json
  import opened Keys

  /** All keys of `m` are of the key type `kind`, as the keys of a Swift dictionary are. */
  predicate OfKind<V>(m: map<RegexKey, V>, kind: KeyKind) {
    forall k :: k in m ==> k.kind == kind
  }

  /** The raw strings of the keys of `m`. */
  function RawKeys<V>(m: map<RegexKey, V>): set<string> {
    set k | k in m :: k.value
  }

  /** Keys of one type have distinct raw strings, so there are as many raw strings as keys. */
  lemma {:induction false} RawKeysSize<V>(m: map<RegexKey, V>, kind: KeyKind)
    requires OfKind(m, kind)
    ensures |RawKeys(m)| == |m|
    decreases |m|
  {
    if m != map[] {
      var k :| k in m;
      var rest := m - {k};
      assert |rest| == |m| - 1;
      RawKeysSize(rest, kind);
      assert RawKeys(m) == RawKeys(rest) + {k.value};
    }
  }

  /** The properties that writing every entry of `m` under its key's raw string produces. */
  function Flattened<V>(m: map<RegexKey, V>, kind: KeyKind, enc: V -> Json): map<string, Json>
    requires OfKind(m, kind)
  {
    map s | s in RawKeys(m) :: enc(m[RegexKey(kind, s)])
  }

  /** For keys of one type, a raw string is among the keys' strings iff its key is a key. */
  lemma RawKeysMember<V>(m: map<RegexKey, V>, kind: KeyKind, s: string)
    requires OfKind(m, kind)
    ensures s in RawKeys(m) <==> RegexKey(kind, s) in m
  {
    if s in RawKeys(m) {
      var k :| k in m && k.value == s;
      assert k == RegexKey(kind, s);
    }
  }

  /**
   * Flattening writes a property named `s` exactly when `s` is the raw
   * string of a key, holding that entry's encoding, and as many properties
   * as there are entries.
   */
  lemma FlattenedShape<V>(m: map<RegexKey, V>, kind: KeyKind, enc: V -> Json)
    requires OfKind(m, kind)
    ensures var r := Flattened(m, kind, enc);
      && (forall s :: s in r <==> RegexKey(kind, s) in m)
      && (forall k :: k in m ==> r[k.value] == enc(m[k]))
      && |r| == |m|
  {
    var r := Flattened(m, kind, enc);
    forall s ensures s in r <==> RegexKey(kind, s) in m {
      RawKeysMember(m, kind, s);
    }
    RawKeysSize(m, kind);
    assert r.Keys == RawKeys(m);
  }

  /** Writing one more entry adds exactly that entry's property. */
  lemma FlattenedUpdate<V>(m: map<RegexKey, V>, kind: KeyKind, key: RegexKey, v: V, enc: V -> Json)
    requires OfKind(m, kind) && key.kind == kind
    ensures Flattened(m[key := v], kind, enc) == Flattened(m, kind, enc)[key.value := enc(v)]
  {
    var m' := m[key := v];
    var lhs, rhs := Flattened(m', kind, enc), Flattened(m, kind, enc)[key.value := enc(v)];
    forall s ensures s in lhs <==> s in rhs {
      RawKeysMember(m, kind, s);
      RawKeysMember(m', kind, s);
    }
    forall s | s in lhs ensures lhs[s] == rhs[s] {
      RawKeysMember(m, kind, s);
      RawKeysMember(m', kind, s);
    }
  }

  /** Writing into a container after a union is writing into the union's right side. */
  lemma UnionUpdate(a: map<string, Json>, b: map<string, Json>, key: string, v: Json)
    ensures (a + b)[key := v] == a + b[key := v]
  {
  }

  /** Moving one entry from the entries still to write to those written keeps their union. */
  lemma MoveEntry<V>(done: map<RegexKey, V>, rest: map<RegexKey, V>, key: RegexKey)
    requires key in rest && done.Keys !! rest.Keys
    ensures done[key := rest[key]].Keys !! (rest - {key}).Keys
    ensures done[key := rest[key]] + (rest - {key}) == done + rest
  {
  }

  /** Before the first entry, the container is as it was. */
  lemma NothingWritten<V>(container: map<string, Json>, kind: KeyKind, enc: V -> Json)
    ensures container + Flattened(map[], kind, enc) == container
  {
    var nothing: map<RegexKey, V> := map[];
    assert RawKeys(nothing) == {};
  }

  /**
   * One turn of the loop of `WriteEntries`: moving `key` from the entries
   * still to write to those written adds that entry's property.
   */
  lemma WriteStep<V>(container: map<string, Json>, kind: KeyKind, enc: V -> Json,
                     done: map<RegexKey, V>, rest: map<RegexKey, V>, key: RegexKey)
    requires OfKind(done, kind) && OfKind(rest, kind) && done.Keys !! rest.Keys && key in rest
    ensures OfKind(done[key := rest[key]], kind) && OfKind(rest - {key}, kind)
    ensures done[key := rest[key]].Keys !! (rest - {key}).Keys
    ensures done[key := rest[key]] + (rest - {key}) == done + rest
    ensures (container + Flattened(done, kind, enc))[key.value := enc(rest[key])]
         == container + Flattened(done[key := rest[key]], kind, enc)
  {
    MoveEntry(done, rest, key);
    FlattenedUpdate(done, kind, key, rest[key], enc);
    UnionUpdate(container, Flattened(done, kind, enc), key.value, enc(rest[key]));
  }

  /**
   * The `forEach` loop of an encoder: writes every entry of `m` into the
   * container under its key's raw string, replacing a property of the same
   * name.
   */
  method WriteEntries<V>(container: map<string, Json>, m: map<RegexKey, V>, kind: KeyKind, enc: V -> Json)
    returns (written: map<string, Json>)
    requires OfKind(m, kind)
    ensures written == container + Flattened(m, kind, enc)
  {
    written := container;
    var rest := m;
    ghost var done: map<RegexKey, V> := map[];
    NothingWritten(container, kind, enc);
    while rest != map[]
      invariant OfKind(done, kind) && OfKind(rest, kind)
      invariant done.Keys !! rest.Keys && done + rest == m
      invariant written == container + Flattened(done, kind, enc)
      decreases |rest|
    {
      var key :| key in rest;
      WriteStep(container, kind, enc, done, rest, key);
      written := written[key.value := enc(rest[key])];
      done := done[key := rest[key]];
      rest := rest - {key};
    }
    assert done + rest == done;
  }

  // ---------------------------------------------------------------- Paths

  /** `OpenAPIPaths`: path templates to path items. */
  datatype Paths<P> = Paths(pathMap: map<PathKey, P>)

  /** The properties of a Paths Object: one per path template, named by its raw string. */
  function PathsObject<P>(paths: Paths<P>, enc: P -> Json): map<string, Json> {
    Flattened(paths.pathMap, PathTemplate, enc)
  }

  /**
   * `OpenAPIPaths.encode(to:)`: one object whose properties are exactly the
   * raw path strings, each holding its path item, as many as there are paths.
   */
  method EncodePaths<P>(paths: Paths<P>, enc: P -> Json) returns (j: Json)
    ensures j.JObject? && j.props == PathsObject(paths, enc)
    ensures forall s :: s in j.props <==> RegexKey(PathTemplate, s) in paths.pathMap
    ensures forall s :: s in j.props ==> j.props[s] == enc(paths.pathMap[RegexKey(PathTemplate, s)])
    ensures |j.props| == |paths.pathMap|
  {
    var props := WriteEntries(map[], paths.pathMap, PathTemplate, enc);
    FlattenedShape(paths.pathMap, PathTemplate, enc);
    assert map[] + PathsObject(paths, enc) == PathsObject(paths, enc);
    j := JObject(props);
  }

  // ------------------------------------------------------------ Responses

  /** `OpenAPIResponses`: an optional default response and responses per status code. */
  datatype Responses<R> = Responses(default: Option<R>, codeMap: Option<map<StatusKey, R>>)

  /**
   * The properties `OpenAPIResponses.encode(to:)` writes: `default` first
   * (as `null` when there is none), then one property per status code,
   * where a later property would replace an earlier one of the same name.
   */
  function ResponsesObject<R>(rs: Responses<R>, enc: R -> Json): map<string, Json> {
    var fixed := map["default" := OrNull(rs.default, enc)];
    match rs.codeMap
    case None => fixed
    case Some(codes) => fixed + Flattened(codes, StatusCode, enc)
  }

  /** Every status key of the responses is one `Init` could have made. */
  predicate CodesValid<R>(rs: Responses<R>) {
    rs.codeMap.Some? ==> forall k :: k in rs.codeMap.value ==> Valid(k)
  }

  /**
   * For every responses value, valid keys or not: `default` is always
   * written; the properties are `default` and the raw strings of the status
   * keys; each status code holds its own response; and `default` holds the
   * default response (or `null`) unless a status key's string is `default`,
   * in which case that key's response replaces it.
   */
  lemma ResponsesKeys<R>(rs: Responses<R>, enc: R -> Json)
    ensures var r := ResponsesObject(rs, enc);
      && "default" in r
      && (forall s :: s in r <==> s == "default" || (rs.codeMap.Some? && RegexKey(StatusCode, s) in rs.codeMap.value))
      && (rs.codeMap.Some? ==> forall k :: k in rs.codeMap.value ==> r[k.value] == enc(rs.codeMap.value[k]))
      && r["default"] == if rs.codeMap.Some? && RegexKey(StatusCode, "default") in rs.codeMap.value
                         then enc(rs.codeMap.value[RegexKey(StatusCode, "default")])
                         else OrNull(rs.default, enc)
  {
    if rs.codeMap.Some? {
      FlattenedShape(rs.codeMap.value, StatusCode, enc);
    }
  }

  /** No valid status key is `default`. */
  lemma NoDefaultCode<R>(rs: Responses<R>)
    requires CodesValid(rs) && rs.codeMap.Some?
    ensures RegexKey(StatusCode, "default") !in rs.codeMap.value
  {
    DefaultIsNotStatusCode();
  }

  /**
   * When every status key passes its pattern, `default` is never
   * overwritten (no valid status key is `default`), so it holds the default
   * response or `null`, and there is one property more than there are codes.
   */
  lemma ResponsesShape<R>(rs: Responses<R>, enc: R -> Json)
    requires CodesValid(rs)
    ensures var r := ResponsesObject(rs, enc);
      && "default" in r && r["default"] == OrNull(rs.default, enc)
      && |r| == 1 + (if rs.codeMap.Some? then |rs.codeMap.value| else 0)
  {
    ResponsesKeys(rs, enc);
    if rs.codeMap.Some? {
      var codes := rs.codeMap.value;
      var flat := Flattened(codes, StatusCode, enc);
      FlattenedShape(codes, StatusCode, enc);
      NoDefaultCode(rs);
      var r := ResponsesObject(rs, enc);
      assert r.Keys == flat.Keys + {"default"};
      assert |r.Keys| == |flat.Keys| + 1;
    }
  }

  /**
   * A status key whose string was replaced by `default` after construction
   * replaces the default slot: `default` is written first and the status
   * codes after it.
   */
  lemma ReplacedKeyOverwritesDefault<R>(d: R, other: R, enc: R -> Json)
    requires enc(d) != enc(other)
    ensures var rs := Responses(Some(d), Some(map[RegexKey(StatusCode, "default") := other]));
      ResponsesObject(rs, enc)["default"] == enc(other) != OrNull(rs.default, enc)
  {
    var codes: map<StatusKey, R> := map[RegexKey(StatusCode, "default") := other];
    assert Flattened(codes, StatusCode, enc)["default"] == enc(other);
  }

  /** `OpenAPIResponses.encode(to:)`. */
  method EncodeResponses<R>(rs: Responses<R>, enc: R -> Json) returns (j: Json)
    ensures j == JObject(ResponsesObject(rs, enc))
  {
    var props := map["default" := OrNull(rs.default, enc)];
    if rs.codeMap.Some? {
      props := WriteEntries(props, rs.codeMap.value, StatusCode, enc);
    }
    j := JObject(props);
  }

  // ------------------------------------------------------------- Callback

  /** `OpenAPICallback`: expressions to the paths they call back. */
  datatype Callback<P> = Callback(callbackMap: Option<map<string, Paths<P>>>)

  /** The only entries a callback writes: those whose paths hold exactly one path. */
  predicate SinglePath<P>(paths: Paths<P>) {
    |paths.pathMap| == 1
  }

  /** The entries among `keys` whose paths hold exactly one path, each written as its paths' object. */
  function SinglePathEntries<P>(m: map<string, Paths<P>>, keys: set<string>, enc: P -> Json): map<string, Json> {
    map key | key in keys && key in m && SinglePath(m[key]) :: JObject(PathsObject(m[key], enc))
  }

  /** Considering one more entry adds it exactly when its paths hold one path. */
  lemma SinglePathStep<P>(m: map<string, Paths<P>>, done: set<string>, key: string, enc: P -> Json)
    requires key in m
    ensures SinglePathEntries(m, done + {key}, enc)
         == if SinglePath(m[key])
            then SinglePathEntries(m, done, enc)[key := JObject(PathsObject(m[key], enc))]
            else SinglePathEntries(m, done, enc)
  {
    var before, after := SinglePathEntries(m, done, enc), SinglePathEntries(m, done + {key}, enc);
    var expected := if SinglePath(m[key]) then before[key := JObject(PathsObject(m[key], enc))] else before;
    assert after.Keys == expected.Keys;
    forall k | k in after ensures after[k] == expected[k] {
    }
  }

  /** The properties `OpenAPICallback.encode(to:)` writes. */
  function CallbackObject<P>(cb: Callback<P>, enc: P -> Json): map<string, Json> {
    match cb.callbackMap
    case None => map[]
    case Some(m) => SinglePathEntries(m, m.Keys, enc)
  }

  /** A Paths Object of exactly one path is written as the single property that path names. */
  lemma SinglePathObject<P>(paths: Paths<P>, enc: P -> Json)
    requires |paths.pathMap| == 1
    ensures exists p :: p in paths.pathMap && PathsObject(paths, enc) == map[p.value := enc(paths.pathMap[p])]
  {
    var m := paths.pathMap;
    var p :| p in m;
    var rest := m.Keys - {p};
    assert m.Keys == rest + {p};
    assert rest == {};
    var flat := PathsObject(paths, enc);
    assert flat.Keys == {p.value};
  }

  /**
   * A callback keeps exactly the entries whose paths hold one path, each as
   * an object with the single property that path's raw string names; the
   * other entries, and an absent map, leave nothing behind.
   */
  lemma CallbackShape<P>(cb: Callback<P>, enc: P -> Json)
    ensures cb.callbackMap.None? ==> CallbackObject(cb, enc) == map[]
    ensures forall key :: key in CallbackObject(cb, enc) <==>
      cb.callbackMap.Some? && key in cb.callbackMap.value && |cb.callbackMap.value[key].pathMap| == 1
    ensures forall key :: key in CallbackObject(cb, enc) ==>
      exists p :: (p in cb.callbackMap.value[key].pathMap &&
        CallbackObject(cb, enc)[key] == JObject(map[p.value := enc(cb.callbackMap.value[key].pathMap[p])]))
  {
    if cb.callbackMap.Some? {
      var m := cb.callbackMap.value;
      forall key | key in CallbackObject(cb, enc)
        ensures exists p :: (p in m[key].pathMap &&
          CallbackObject(cb, enc)[key] == JObject(map[p.value := enc(m[key].pathMap[p])]))
      {
        SinglePathObject(m[key], enc);
      }
    }
  }

  /** `OpenAPICallback.encode(to:)`: the `guard` skips every entry without exactly one path. */
  method EncodeCallback<P>(cb: Callback<P>, enc: P -> Json) returns (j: Json)
    ensures j == JObject(CallbackObject(cb, enc))
  {
    var props := map[];
    if cb.callbackMap.Some? {
      var m := cb.callbackMap.value;
      var todo, done := m.Keys, {};
      while todo != {}
        invariant todo == m.Keys - done && done <= m.Keys
        invariant props == SinglePathEntries(m, done, enc)
        decreases todo
      {
        var key :| key in todo;
        var paths := m[key];
        todo, done := todo - {key}, done + {key};
        SinglePathStep(m, done - {key}, key, enc);
        if !SinglePath(paths) {
          continue;
        }
        var encoded := EncodePaths(paths, enc);
        props := props[key := encoded];
      }
      assert done == m.Keys;
    }
    j := JObject(props);
  }

  // ------------------------------------------------- Security Requirement

  /** `OpenAPISecurityRequirement`: a scheme name and the scopes it needs. */
  datatype SecurityRequirement = SecurityRequirement(name: string, value: seq<string>)

  /** `OpenAPISecurityRequirement.encode(to:)`: the single property `{name: value}`. */
  function EncodeSecurityRequirement(req: SecurityRequirement): (j: Json)
    ensures j.JObject? && j.props.Keys == {req.name} && j.props[req.name] == StringArray(req.value)
  {
    JObject(map[req.name := StringArray(req.value)])
  }

  /**
   * A security requirement can be read back from what is written: the one
   * property is named by the scheme name and holds exactly its scopes.
   */
  lemma SecurityRequirementReadBack(req: SecurityRequirement)
    ensures var j := EncodeSecurityRequirement(req);
      && j.JObject? && j.props.Keys == {req.name}
      && ReadStrings(j.props[req.name]) == Some(req.value)
  {
    StringArrayRoundTrip(req.value);
  }

  /** The single-property form loses nothing: distinct requirements are written differently. */
  lemma SecurityRequirementInjective(a: SecurityRequirement, b: SecurityRequirement)
    ensures EncodeSecurityRequirement(a) == EncodeSecurityRequirement(b) ==> a == b
  {
    if EncodeSecurityRequirement(a) == EncodeSecurityRequirement(b) {
      assert a.name in EncodeSecurityRequirement(b).props;
      StringArrayInjective(a.value, b.value);
    }
  }
}
