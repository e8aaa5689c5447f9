/**
 * The JSON values an OpenAPI document is written as. Objects are maps, so
 * the order in which properties are written is not modelled: the
 * flattening encoders iterate a Swift `Dictionary`, whose order is
 * unspecified, and the other encoders' declaration order is not kept.
 */
module Json {
  import opened Wrappers

  datatype Json =
    | JNull
    | JBool(b: bool)
    | JNumber(n: int)
    | JString(s: string)
    | JArray(items: seq<Json>)
    | JObject(props: map<string, Json>)

  /** A Swift array of encodable elements, written as a JSON array of their encodings. */
  function ArrayOf<T>(xs: seq<T>, enc: T -> Json): (j: Json)
    ensures j.JArray? && |j.items| == |xs|
    ensures forall i :: 0 <= i < |xs| ==> j.items[i] == enc(xs[i])
  {
    JArray(seq(|xs|, i requires 0 <= i < |xs| => enc(xs[i])))
  }

  /** A `[String]` written as a JSON array of strings. */
  function StringArray(ss: seq<string>): (j: Json)
    ensures j.JArray? && |j.items| == |ss|
    ensures forall i :: 0 <= i < |ss| ==> j.items[i] == JString(ss[i])
  {
    ArrayOf(ss, s => JString(s))
  }

  /** The strings of a JSON array all of whose items are strings; `None` for any other value. */
  function ReadStrings(j: Json): Option<seq<string>> {
    if j.JArray? && forall i :: 0 <= i < |j.items| ==> j.items[i].JString?
    then Some(seq(|j.items|, i requires 0 <= i < |j.items| => j.items[i].s))
    else None
  }

  /** Reading a written `[String]` back gives the same strings in the same order. */
  lemma StringArrayRoundTrip(ss: seq<string>)
    ensures ReadStrings(StringArray(ss)) == Some(ss)
  {
    var j := StringArray(ss);
    assert forall i :: 0 <= i < |j.items| ==> j.items[i].JString?;
    assert ReadStrings(j).value == ss;
  }

  /** `StringArray` loses nothing: the strings can be read back from the array. */
  lemma StringArrayInjective(a: seq<string>, b: seq<string>)
    ensures StringArray(a) == StringArray(b) ==> a == b
  {
    StringArrayRoundTrip(a);
    StringArrayRoundTrip(b);
  }

  /**
   * A keyed container's `encode(_:forKey:)` on an optional value: an absent
   * value is written as `null`, not left out.
   */
  function OrNull<T>(o: Option<T>, enc: T -> Json): (j: Json)
    ensures o.None? ==> j == JNull
    ensures o.Some? ==> j == enc(o.value)
  {
    match o
    case None => JNull
    case Some(v) => enc(v)
  }

  /**
   * A keyed container's `encodeIfPresent(_:forKey:)`, which synthesised
   * `Encodable` uses for every optional stored property: the property is
   * written only when the value is present, and a later write under the same
   * key replaces an earlier one.
   */
  function PutIfPresent(props: map<string, Json>, key: string, o: Option<Json>): map<string, Json> {
    if o.Some? then props[key := o.value] else props
  }

  /** One stored property of a synthesised encoding: its key and, when it is written, its value. */
  type Member = (string, Option<Json>)

  /**
   * The object synthesised `Encodable` writes for stored properties declared
   * in the order of `ms`: optional ones with `encodeIfPresent`, required ones
   * given as present values.
   */
  function Members(ms: seq<Member>): map<string, Json>
    decreases |ms|
  {
    if ms == [] then map[]
    else PutIfPresent(Members(ms[..|ms| - 1]), ms[|ms| - 1].0, ms[|ms| - 1].1)
  }

  /** The keys of the declared properties, written or not. */
  function Names(ms: seq<Member>): set<string> {
    set i | 0 <= i < |ms| :: ms[i].0
  }

  /** The key declared at `i` is declared nowhere else, as in any Swift type's stored properties. */
  predicate UniqueAt(ms: seq<Member>, i: nat)
    requires i < |ms|
  {
    forall j :: 0 <= j < |ms| && j != i ==> ms[j].0 != ms[i].0
  }

  /** A key declared once is written iff its property is present, with that property's value. */
  lemma {:induction false} MembersLookup(ms: seq<Member>, i: nat)
    requires i < |ms| && UniqueAt(ms, i)
    ensures ms[i].0 in Members(ms) <==> ms[i].1.Some?
    ensures ms[i].1.Some? ==> Members(ms)[ms[i].0] == ms[i].1.value
  {
    var last := |ms| - 1;
    if i < last {
      assert UniqueAt(ms[..last], i) by {
        forall j | 0 <= j < last && j != i ensures ms[..last][j].0 != ms[..last][i].0 {
          assert ms[j].0 != ms[i].0;
        }
      }
      MembersLookup(ms[..last], i);
      assert ms[..last][i] == ms[i];
      assert ms[i].0 != ms[last].0;
    } else {
      MembersKeys(ms[..last]);
      assert ms[last].0 !in Names(ms[..last]);
    }
  }

  /** Only declared keys are ever written. */
  lemma {:induction false} MembersKeys(ms: seq<Member>)
    ensures Members(ms).Keys <= Names(ms)
  {
    if ms != [] {
      var last := |ms| - 1;
      MembersKeys(ms[..last]);
      forall k | k in Names(ms[..last]) ensures k in Names(ms) {
        var i :| 0 <= i < last && ms[..last][i].0 == k;
        assert ms[i].0 == k;
      }
      assert ms[last].0 in Names(ms);
    }
  }

  function OptString(o: Option<string>): (r: Option<Json>)
    ensures r.Some? <==> o.Some?
    ensures o.Some? ==> r.value == JString(o.value)
  {
    o.Map(s => JString(s))
  }

  function OptBool(o: Option<bool>): (r: Option<Json>)
    ensures r.Some? <==> o.Some?
    ensures o.Some? ==> r.value == JBool(o.value)
  {
    o.Map(b => JBool(b))
  }

  function OptNumber(o: Option<int>): (r: Option<Json>)
    ensures r.Some? <==> o.Some?
    ensures o.Some? ==> r.value == JNumber(o.value)
  {
    o.Map(n => JNumber(n))
  }
}
