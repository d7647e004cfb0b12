/** Overlaying one YAML value on another. Key order is not modelled: a mapping is a map. */
module YamlMerge {
  import opened Prelude

  datatype Value = Scalar(text: string) | Sequence(items: seq<Value>) | Mapping(entries: map<Value, Value>)

  // Mappings are merged key by key; anything else is replaced by the overlay.
  function Merge(base: Value, overlay: Value): Value
    decreases overlay
  {
    if base.Mapping? && overlay.Mapping? then
      Mapping(map k | k in base.entries.Keys + overlay.entries.Keys ::
                if k !in overlay.entries then base.entries[k]
                else if k in base.entries then Merge(base.entries[k], overlay.entries[k])
                else overlay.entries[k])
    else overlay
  }

  // The program: the overlay's entries are taken one by one, in whatever order, and inserted into the base.
  method MergeYamlValues(base: Value, overlay: Value) returns (merged: Value)
    ensures merged == Merge(base, overlay)
    decreases overlay
  {
    if !base.Mapping? || !overlay.Mapping? {
      return overlay;
    }
    var entries := base.entries;
    var todo := overlay.entries.Keys;
    ghost var result := Merge(base, overlay).entries;
    while todo != {}
      invariant todo <= overlay.entries.Keys
      invariant entries.Keys == base.entries.Keys + (overlay.entries.Keys - todo)
      invariant forall k :: k in entries && k in todo ==> entries[k] == base.entries[k]
      invariant forall k :: k in entries && k !in todo ==> entries[k] == result[k]
      decreases todo
    {
      var key :| key in todo;
      todo := todo - {key};
      var value := overlay.entries[key];
      if key in entries {
        var below := entries[key];
        entries := entries - {key};
        value := MergeYamlValues(below, value);
      }
      entries := entries[key := value];
    }
    assert entries == result;
    merged := Mapping(entries);
  }

  // ---- Lookup --------------------------------------------------------------------------------

  function Lookup(v: Value, path: seq<Value>): Option<Value> {
    if path == [] then Some(v)
    else if v.Mapping? && path[0] in v.entries then Lookup(v.entries[path[0]], path[1..])
    else None
  }

  /** The lookup law: the overlay answers a path it knows, with a mapping of its own still merged with what the
      base has there; a path it does not know is answered by the base, provided nothing above it was replaced. */
  lemma {:induction false} LookupOfMerge(base: Value, overlay: Value, path: seq<Value>)
    ensures var below, above := Lookup(base, path), Lookup(overlay, path);
            Lookup(Merge(base, overlay), path) ==
            if !Shares(base, overlay, path) then above
            else if above.None? then below
            else if below.None? then above
            else Some(Merge(below.value, above.value))
    decreases |path|
  {
    if path != [] && base.Mapping? && overlay.Mapping? {
      var k := path[0];
      if k in base.entries && k in overlay.entries {
        LookupOfMerge(base.entries[k], overlay.entries[k], path[1..]);
      }
    }
  }

  // No proper prefix of the path holds a value in the overlay that replaces the base's.
  predicate Shares(base: Value, overlay: Value, path: seq<Value>) {
    path == []
    || (base.Mapping? && overlay.Mapping?
        && (path[0] in base.entries && path[0] in overlay.entries ==>
              Shares(base.entries[path[0]], overlay.entries[path[0]], path[1..])))
  }

  // ---- Algebra -------------------------------------------------------------------------------

  lemma {:induction false} MergeIdempotent(v: Value)
    ensures Merge(v, v) == v
  {
    if v.Mapping? {
      forall k | k in v.entries ensures Merge(v.entries[k], v.entries[k]) == v.entries[k] {
        MergeIdempotent(v.entries[k]);
      }
      assert Merge(v, v).entries == v.entries;
    }
  }

  /** The empty mapping is neutral on the left for everything and on the right for mappings only. */
  lemma EmptyMappingIsNeutral(v: Value)
    ensures Merge(Mapping(map[]), v) == v
    ensures Merge(v, Mapping(map[])) == v <==> v.Mapping?
  {
    if v.Mapping? {
      assert Merge(Mapping(map[]), v).entries == v.entries;
      assert Merge(v, Mapping(map[])).entries == v.entries;
    }
  }

  // The overlay leaves nothing of the base visible.
  predicate Covers(base: Value, overlay: Value)
    decreases overlay
  {
    base.Mapping? && overlay.Mapping? ==>
      forall k :: k in base.entries ==> k in overlay.entries && Covers(base.entries[k], overlay.entries[k])
  }

  lemma {:induction false} CoveredIsReplaced(base: Value, overlay: Value)
    ensures Merge(base, overlay) == overlay <==> Covers(base, overlay)
    decreases overlay
  {
    if base.Mapping? && overlay.Mapping? {
      var m := Merge(base, overlay).entries;
      forall k | k in base.entries && k in overlay.entries
        ensures m[k] == overlay.entries[k] <==> Covers(base.entries[k], overlay.entries[k])
      {
        CoveredIsReplaced(base.entries[k], overlay.entries[k]);
      }
      if Covers(base, overlay) {
        assert m == overlay.entries;
      } else {
        var k :| k in base.entries && !(k in overlay.entries && Covers(base.entries[k], overlay.entries[k]));
        assert k in m;
      }
    }
  }

  // Where the outer two are mappings, the middle one is a mapping, or hides nothing of `a` that `c` would let show.
  predicate Aligned(a: Value, b: Value, c: Value)
    decreases c
  {
    a.Mapping? && c.Mapping? ==>
      if b.Mapping? then
        forall k :: k in a.entries && k in b.entries && k in c.entries ==>
                      Aligned(a.entries[k], b.entries[k], c.entries[k])
      else Covers(a, c)
  }

  /** Merging is associative exactly on aligned values; the order of layering matters only when a middle layer
      replaces a mapping that a later layer would have extended. */
  lemma {:induction false} MergeAssociativeExactly(a: Value, b: Value, c: Value)
    ensures Merge(Merge(a, b), c) == Merge(a, Merge(b, c)) <==> Aligned(a, b, c)
    decreases c
  {
    if a.Mapping? && c.Mapping? {
      if b.Mapping? {
        AssociativeByKey(a, b, c);
      } else {
        CoveredIsReplaced(a, c);
      }
    } else if b.Mapping? && c.Mapping? {
      assert Merge(b, c).Mapping?;
    }
  }

  lemma {:induction false} AssociativeByKey(a: Value, b: Value, c: Value)
    requires a.Mapping? && b.Mapping? && c.Mapping?
    ensures Merge(Merge(a, b), c) == Merge(a, Merge(b, c)) <==> Aligned(a, b, c)
    decreases c, 0
  {
    var left, right := Merge(Merge(a, b), c).entries, Merge(a, Merge(b, c)).entries;
    assert left.Keys == right.Keys;
    forall k | k in left
      ensures left[k] == right[k] <==>
              (k in a.entries && k in b.entries && k in c.entries ==>
                 Aligned(a.entries[k], b.entries[k], c.entries[k]))
    {
      if k in a.entries && k in b.entries && k in c.entries {
        MergeAssociativeExactly(a.entries[k], b.entries[k], c.entries[k]);
      }
    }
    if Aligned(a, b, c) {
      assert left == right;
    }
  }

  /** The failing family is real: a scalar in the middle layer forgets what lies below it on one side only. */
  lemma MiddleScalarBreaksAssociativity()
    ensures var k := Scalar("cli");
            var a := Mapping(map[k := Mapping(map[Scalar("backend") := Scalar("pi")])]);
            var b := Mapping(map[k := Scalar("none")]);
            var c := Mapping(map[k := Mapping(map[])]);
            Merge(Merge(a, b), c) != Merge(a, Merge(b, c))
  {
    var k := Scalar("cli");
    var inner := Mapping(map[Scalar("backend") := Scalar("pi")]);
    var a, b, c := Mapping(map[k := inner]), Mapping(map[k := Scalar("none")]), Mapping(map[k := Mapping(map[])]);
    assert Scalar("backend") in inner.entries && Scalar("backend") !in Mapping(map[]).entries;
    assert !Covers(inner, Mapping(map[]));
    assert !Aligned(inner, Scalar("none"), Mapping(map[]));
    assert k in a.entries && !Aligned(a.entries[k], b.entries[k], c.entries[k]);
    MergeAssociativeExactly(a, b, c);
  }
}
