/**
 * Constrained key strings (`RegexableString`): a key is built only when the
 * type's regular expression finds a match somewhere in the raw string, and a
 * key's description is the raw string unchanged.
 *
 * There is no regular-expression engine here. Each of the three patterns is
 * a hand-coded matcher at one start index (`MatchesAt`), and `FirstMatch`
 * is the search that `range(of:options: .regularExpression)` performs: it
 * tries start indices from left to right and reports the first that matches.
 */
module Keys {
  import opened Wrappers

  /** Which `RegexableString` type a key belongs to. */
  datatype KeyKind =
    | ComponentName  // OpenAPIKeyString:      ^[a-zA-Z0-9\.\-_]+$
    | PathTemplate   // OpenAPIPathString:     \/.*
    | StatusCode     // HTTPStatusCodeString:  [1-5](X{2}|[0-9]{2})

  /**
   * A key of one of the three types. Equality is synthesised `Hashable` on
   * the single stored string, so two keys of the same type are equal iff
   * their strings are.
   */
  datatype RegexKey = RegexKey(kind: KeyKind, value: string)

  predicate IsKeyChar(c: char) {
    ('a' <= c <= 'z') || ('A' <= c <= 'Z') || ('0' <= c <= '9') || c == '.' || c == '-' || c == '_'
  }

  predicate IsDigit(c: char) {
    '0' <= c <= '9'
  }

  /** Whether the pattern of `kind` matches `s` at start index `i`. */
  predicate MatchesAt(kind: KeyKind, s: string, i: nat) {
    match kind
    // `^` binds the match to the start and `$` to the end of the string
    case ComponentName => i == 0 && |s| > 0 && forall j :: 0 <= j < |s| ==> IsKeyChar(s[j])
    // a slash, then `.*`, which may match nothing
    case PathTemplate => i < |s| && s[i] == '/'
    case StatusCode =>
      && i + 3 <= |s|
      && '1' <= s[i] <= '5'
      && ((s[i + 1] == 'X' && s[i + 2] == 'X') || (IsDigit(s[i + 1]) && IsDigit(s[i + 2])))
  }

  /** The first start index at or after `from` where the pattern matches. */
  function FirstMatch(kind: KeyKind, s: string, from: nat): (r: Option<nat>)
    requires from <= |s|
    ensures r.Some? ==> from <= r.value <= |s| && MatchesAt(kind, s, r.value)
    ensures forall j :: from <= j <= |s| && (r.None? || j < r.value) ==> !MatchesAt(kind, s, j)
    decreases |s| - from
  {
    if MatchesAt(kind, s, from) then Some(from)
    else if from == |s| then None
    else FirstMatch(kind, s, from + 1)
  }

  /** Whether the search for the pattern of `kind` finds a match in `s`. */
  predicate Accepts(kind: KeyKind, s: string) {
    FirstMatch(kind, s, 0).Some?
  }

  /** `init?(_ description:)`: a key exactly when the pattern is found. */
  function Init(kind: KeyKind, s: string): (r: Option<RegexKey>)
    ensures r.Some? <==> Accepts(kind, s)
    ensures r.Some? ==> r.value.kind == kind && Description(r.value) == s
  {
    if Accepts(kind, s) then Some(RegexKey(kind, s)) else None
  }

  /** `description`: the stored string. */
  function Description(k: RegexKey): string {
    k.value
  }

  /**
   * Every key that `Init` produces: its string passes its own pattern. This
   * is not an invariant of the key types, because `value` is a settable
   * property and a key's string can be replaced after construction.
   */
  predicate Valid(k: RegexKey) {
    Accepts(k.kind, k.value)
  }

  /** The three key types of the document: keys of one kind. */
  type ComponentKey = k: RegexKey | k.kind == ComponentName
    witness RegexKey(ComponentName, "a")

  type PathKey = k: RegexKey | k.kind == PathTemplate
    witness RegexKey(PathTemplate, "/")

  type StatusKey = k: RegexKey | k.kind == StatusCode
    witness RegexKey(StatusCode, "200")

  /** A valid key survives the round trip through its description. */
  lemma InitDescription(k: RegexKey)
    requires Valid(k)
    ensures Init(k.kind, Description(k)) == Some(k)
  {
  }

  /** Two keys of one type are equal iff their descriptions are. */
  lemma KeyEquality(a: RegexKey, b: RegexKey)
    requires a.kind == b.kind
    ensures a == b <==> Description(a) == Description(b)
  {
  }

  /** A component name is a non-empty string of letters, digits, `.`, `-` and `_`. */
  lemma {:induction false} ComponentNameAccepts(s: string)
    ensures Accepts(ComponentName, s) <==> |s| > 0 && forall i :: 0 <= i < |s| ==> IsKeyChar(s[i])
  {
    if |s| > 0 && forall i :: 0 <= i < |s| ==> IsKeyChar(s[i]) {
      assert MatchesAt(ComponentName, s, 0);
    }
  }

  /** The path pattern is not anchored: any string containing a slash is a path key. */
  lemma {:induction false} PathTemplateAccepts(s: string)
    ensures Accepts(PathTemplate, s) <==> '/' in s
  {
    if '/' in s {
      var i :| 0 <= i < |s| && s[i] == '/';
      assert MatchesAt(PathTemplate, s, i);
    }
  }

  /** The three-character status pattern `[1-5](XX|[0-9][0-9])` on its own. */
  predicate StatusPattern(w: string) {
    |w| == 3 && w[0] in "12345" && ((w[1] == 'X' && w[2] == 'X') || (w[1] in "0123456789" && w[2] in "0123456789"))
  }

  /** `s` has a window of three characters starting at `i` that matches the status pattern. */
  predicate StatusWindow(s: string, i: int) {
    0 <= i <= |s| - 3 && StatusPattern(s[i..i + 3])
  }

  /** The status pattern is not anchored: some three-character window of `s` must match. */
  lemma {:induction false} StatusCodeAccepts(s: string)
    ensures Accepts(StatusCode, s) <==> exists i :: StatusWindow(s, i)
  {
    if Accepts(StatusCode, s) {
      var i := FirstMatch(StatusCode, s, 0).value;
      assert StatusWindow(s, i);
    }
    if exists i :: StatusWindow(s, i) {
      var i :| StatusWindow(s, i);
      var w := s[i..i + 3];
      assert w[0] == s[i] && w[1] == s[i + 1] && w[2] == s[i + 2];
      assert MatchesAt(StatusCode, s, i);
    }
  }

  /** Component names the anchored pattern admits and rejects. */
  lemma ComponentNameExamples()
    ensures Accepts(ComponentName, "Pet_v1.2-b")
    ensures !Accepts(ComponentName, "foo/bar") && !Accepts(ComponentName, "foo bar") && !Accepts(ComponentName, "")
  {
    ComponentNameAccepts("Pet_v1.2-b");
    ComponentNameAccepts("foo/bar");
    assert !IsKeyChar("foo/bar"[3]);
    ComponentNameAccepts("foo bar");
    assert !IsKeyChar("foo bar"[3]);
    ComponentNameAccepts("");
  }

  /** Path keys: a slash anywhere suffices, also when the string does not begin with one. */
  lemma PathTemplateExamples()
    ensures Accepts(PathTemplate, "/users/{id}") && Accepts(PathTemplate, "users/{id}")
    ensures !Accepts(PathTemplate, "users")
  {
    PathTemplateAccepts("/users/{id}");
    assert "/users/{id}"[0] == '/';
    PathTemplateAccepts("users/{id}");
    assert "users/{id}"[5] == '/';
    PathTemplateAccepts("users");
  }

  /** Status keys: exact codes, wildcard ranges, and a code found inside a longer string. */
  lemma StatusCodeExamples()
    ensures Accepts(StatusCode, "200") && Accepts(StatusCode, "4XX") && Accepts(StatusCode, "x404y")
    ensures !Accepts(StatusCode, "600") && !Accepts(StatusCode, "4X0") && !Accepts(StatusCode, "20")
  {
    StatusCodeAccepts("200");
    assert StatusWindow("200", 0);
    StatusCodeAccepts("4XX");
    assert StatusWindow("4XX", 0);
    StatusCodeAccepts("x404y");
    assert StatusWindow("x404y", 1);
    StatusCodeAccepts("600");
    StatusCodeAccepts("4X0");
    StatusCodeAccepts("20");
  }

  /** No status key is `default`, the name under which Responses writes its default slot. */
  lemma DefaultIsNotStatusCode()
    ensures !Accepts(StatusCode, "default")
  {
    StatusCodeAccepts("default");
  }
}
