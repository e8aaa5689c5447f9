/**
 * A `Dictionary` whose keys are constrained key strings, with the string
 * subscript that re-validates a raw string before it reaches the dictionary.
 * The dictionary is a value the setter changes in place, so it is a class
 * whose one mutable field is the map.
 */
module Dictionary {
  import opened Wrappers
  import opened Keys
  import opened Json
  import opened Flattening

  class KeyedDictionary<V> {
    /** The key type every entry shares. */
    const kind: KeyKind
    var entries: map<RegexKey, V>

    /** Every stored key is of this dictionary's key type and passes its pattern. */
    ghost predicate Valid()
      reads this
    {
      forall k :: k in entries ==> k.kind == kind && Keys.Valid(k)
    }

    constructor (kind: KeyKind)
      ensures this.kind == kind && entries == map[] && Valid()
    {
      this.kind := kind;
      entries := map[];
    }

    /**
     * The subscript getter: `nil` when `s` is not a valid key, otherwise the
     * entry stored under the key made from `s`, if any.
     */
    function Get(s: string): (r: Option<V>)
      reads this
      ensures r.Some? <==> Accepts(kind, s) && RegexKey(kind, s) in entries
      ensures r.Some? ==> r.value == entries[RegexKey(kind, s)]
    {
      match Init(kind, s)
      case None => None
      case Some(key) => if key in entries then Some(entries[key]) else None
    }

    /**
     * The subscript setter. On a string that is not a valid key it does
     * nothing and reports nothing; otherwise it stores `newValue` under the
     * key, or removes the key when `newValue` is `nil`.
     */
    method Set(s: string, newValue: Option<V>)
      modifies this
      ensures old(Valid()) ==> Valid()
      ensures !Accepts(kind, s) ==> entries == old(entries)
      ensures Accepts(kind, s) && newValue.Some? ==> entries == old(entries)[RegexKey(kind, s) := newValue.value]
      ensures Accepts(kind, s) && newValue.None? ==> entries == old(entries) - {RegexKey(kind, s)}
      ensures Get(s) == if Accepts(kind, s) then newValue else None
      ensures forall t :: t != s ==> Get(t) == old(Get(t))
    {
      var key := Init(kind, s);
      if key.None? {
        return;
      }
      match newValue
      case Some(v) => entries := entries[key.value := v];
      case None => entries := entries - {key.value};
    }
  }

  /**
   * The dictionary invariant is what the Responses encoder needs: the
   * entries of a valid status-code dictionary, used as the code map, are
   * all valid status keys, so the `default` property keeps the default
   * response.
   */
  lemma StatusEntriesKeepDefault<R>(d: KeyedDictionary<R>, dflt: Option<R>, enc: R -> Json)
    requires d.kind == StatusCode && d.Valid()
    ensures OfKind(d.entries, StatusCode)
    ensures var codes: map<StatusKey, R> := d.entries;
      var rs := Responses(dflt, Some(codes));
      && CodesValid(rs)
      && "default" in ResponsesObject(rs, enc)
      && ResponsesObject(rs, enc)["default"] == OrNull(dflt, enc)
  {
    var codes: map<StatusKey, R> := d.entries;
    ResponsesShape(Responses(dflt, Some(codes)), enc);
  }
}
