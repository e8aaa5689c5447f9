/**
 * Small concrete documents and the objects they are written as: a minimal
 * document, two paths, a response set with a default and two codes, and a
 * callback with one entry too many paths to be written.
 */
module Scenarios {
  import opened Wrappers
  import opened Json
  import opened Keys
  import opened Flattening
  import opened Document

  /** Path items and responses in these examples are plain strings. */
  function Text(s: string): Json {
    JString(s)
  }

  /** An info with only a title and a version is written with just those two. */
  lemma TitleAndVersionOnly()
    ensures EncodeInfo(Info("Test", None, "1.0", None, None, None))
         == JObject(map["title" := JString("Test"), "version" := JString("1.0")])
  {
    var i := Info("Test", None, "1.0", None, None, None);
    var ms: seq<Member> := [("title", Some(JString(i.title))),
                            ("description", OptString(i.description)),
                            ("version", Some(JString(i.version))),
                            ("termsOfService", OptString(i.termsOfService)),
                            ("contact", i.contact.Map(EncodeContact)),
                            ("license", i.license.Map(EncodeLicense))];
    assert EncodeInfo(i) == JObject(Members(ms));
    MembersKeys(ms);
    MembersLookup(ms, 0);
    MembersLookup(ms, 1);
    MembersLookup(ms, 2);
    MembersLookup(ms, 3);
    MembersLookup(ms, 4);
    MembersLookup(ms, 5);
    assert Members(ms).Keys == {"title", "version"};
  }

  /** The smallest document the types allow: a title and a version, no servers, no paths, nothing optional. */
  function MinimalSpec(): Spec<string, int> {
    Spec(Info("Test", None, "1.0", None, None, None), [], Paths(map[]), None, None, None, None)
  }

  /** The minimal document is written with the four required members only. */
  lemma MinimalDocumentMembers(encComponents: int -> Json)
    ensures var r := EncodeSpec(MinimalSpec(), Text, encComponents).props;
      && r.Keys == {"openapi", "info", "servers", "paths"}
      && r["openapi"] == JString("3.0.0")
      && r["info"] == EncodeInfo(MinimalSpec().info)
      && r["servers"] == JArray([])
      && r["paths"] == JObject(map[])
  {
    var spec := MinimalSpec();
    var empty: map<PathKey, string> := map[];
    assert RawKeys(empty) == {};
    assert PathsObject(spec.paths, Text) == map[];
    assert ArrayOf(spec.servers, EncodeServer).items == [];
    SpecRequired(spec, Text, encComponents);
    SpecOptional(spec, Text, encComponents);
    SpecKeys(spec, Text, encComponents);
  }

  /** The whole minimal document, property by property. */
  lemma MinimalDocument(encComponents: int -> Json)
    ensures EncodeSpec(MinimalSpec(), Text, encComponents) == JObject(map[
        "openapi" := JString("3.0.0"),
        "info" := JObject(map["title" := JString("Test"), "version" := JString("1.0")]),
        "servers" := JArray([]),
        "paths" := JObject(map[])])
  {
    MinimalDocumentMembers(encComponents);
    TitleAndVersionOnly();
  }

  /** Two templates sharing a prefix are two sibling properties. */
  lemma TwoPaths()
    ensures var paths := Paths(map[RegexKey(PathTemplate, "/users") := "list",
                                   RegexKey(PathTemplate, "/users/{id}") := "item"]);
      PathsObject(paths, Text) == map["/users" := JString("list"), "/users/{id}" := JString("item")]
  {
    var empty: map<PathKey, string> := map[];
    assert RawKeys(empty) == {};
    var one := empty[RegexKey(PathTemplate, "/users") := "list"];
    FlattenedUpdate(empty, PathTemplate, RegexKey(PathTemplate, "/users"), "list", Text);
    FlattenedUpdate(one, PathTemplate, RegexKey(PathTemplate, "/users/{id}"), "item", Text);
  }

  /** Two status codes are flattened into two properties named by their codes. */
  lemma TwoCodes()
    ensures Flattened(map[RegexKey(StatusCode, "200") := "ok", RegexKey(StatusCode, "404") := "missing"], StatusCode, Text)
         == map["200" := JString("ok"), "404" := JString("missing")]
  {
    var empty: map<StatusKey, string> := map[];
    assert RawKeys(empty) == {};
    var one := empty[RegexKey(StatusCode, "200") := "ok"];
    FlattenedUpdate(empty, StatusCode, RegexKey(StatusCode, "200"), "ok", Text);
    FlattenedUpdate(one, StatusCode, RegexKey(StatusCode, "404"), "missing", Text);
  }

  /** A default and two codes are three sibling properties. */
  lemma DefaultAndTwoCodes()
    ensures var rs := Responses(Some("fallback"), Some(map[RegexKey(StatusCode, "200") := "ok",
                                                         RegexKey(StatusCode, "404") := "missing"]));
      ResponsesObject(rs, Text)
        == map["default" := JString("fallback"), "200" := JString("ok"), "404" := JString("missing")]
  {
    TwoCodes();
  }

  /** Two distinct templates make a Paths Object of two paths. */
  lemma TwoTemplates()
    ensures |map[RegexKey(PathTemplate, "/a") := "a", RegexKey(PathTemplate, "/b") := "b"]| == 2
  {
    var m := map[RegexKey(PathTemplate, "/a") := "a", RegexKey(PathTemplate, "/b") := "b"];
    assert m.Keys == {RegexKey(PathTemplate, "/a")} + {RegexKey(PathTemplate, "/b")};
  }

  /** A callback entry with two paths is dropped; the one with a single path is kept. */
  lemma CallbackDropsTwoPaths()
    ensures var one := Paths(map[RegexKey(PathTemplate, "/hook") := "a"]);
      var two := Paths(map[RegexKey(PathTemplate, "/a") := "a", RegexKey(PathTemplate, "/b") := "b"]);
      CallbackObject(Callback(Some(map["single" := one, "double" := two])), Text).Keys == {"single"}
  {
    TwoTemplates();
  }
}
