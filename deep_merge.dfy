/**
 * `merge(object, source)` of lodash.merge, restricted to what the
 * configuration uses: nested plain objects are merged key by key, any other
 * source value replaces the destination's, and keys the destination already
 * has keep their place while new keys follow in the source's order.
 */
module DeepMerge {
  import opened Wrappers
  import opened Json

  /** The keys of `keys` that `base` lacks, in the order of `keys`. */
  function NewKeys(keys: seq<string>, base: map<string, Value>): (r: seq<string>)
    ensures forall k :: k in r <==> k in keys && k !in base
    ensures Distinct(keys) ==> Distinct(r)
    ensures (forall i | 0 <= i < |keys| :: keys[i] in base) ==> r == []
  {
    if keys == [] then []
    else (if keys[0] in base then [] else [keys[0]]) + NewKeys(keys[1..], base)
  }

  /** One key is added exactly when the base lacks it. */
  lemma NewKeysOne(k: string, base: map<string, Value>)
    ensures NewKeys([k], base) == if k in base then [] else [k]
  {
    assert [k][1..] == [];
  }

  /**
   * The added keys keep the overlay's order: the keys added for `a + b` are
   * those added for `a` followed by those added for `b`.
   */
  lemma {:induction false} NewKeysConcat(a: seq<string>, b: seq<string>, base: map<string, Value>)
    ensures NewKeys(a + b, base) == NewKeys(a, base) + NewKeys(b, base)
  {
    if a == [] {
      assert a + b == b;
    } else {
      assert (a + b)[0] == a[0];
      assert (a + b)[1..] == a[1..] + b;
      NewKeysConcat(a[1..], b, base);
    }
  }

  /** `overlay` merged into `base`; the overlay wins wherever it is not an object. */
  function Merge(base: Value, overlay: Value): (r: Value)
    decreases overlay
    ensures base.Obj? && overlay.Obj? ==>
              r.Obj? && forall k :: k in r.fields <==> k in base.fields || k in overlay.fields
    ensures !(base.Obj? && overlay.Obj?) ==> r == overlay
  {
    if base.Obj? && overlay.Obj? then
      Obj(base.keys + NewKeys(overlay.keys, base.fields),
          map k | k in base.fields.Keys + overlay.fields.Keys ::
            if k !in overlay.fields then base.fields[k]
            else if k !in base.fields then overlay.fields[k]
            else Merge(base.fields[k], overlay.fields[k]))
    else overlay
  }

  /**
   * The overlay does not reach `path`: it is an object at every step until
   * one of the path's keys is missing from it.
   */
  predicate Absent(overlay: Value, path: seq<string>) {
    && path != []
    && overlay.Obj?
    && (path[0] !in overlay.fields || Absent(overlay.fields[path[0]], path[1..]))
  }

  lemma {:induction false} AbsentHasNoValue(overlay: Value, path: seq<string>)
    requires Absent(overlay, path)
    ensures Lookup(overlay, path) == None
  {
    if path[0] in overlay.fields {
      AbsentHasNoValue(overlay.fields[path[0]], path[1..]);
    }
  }

  /**
   * What the merged value holds at any path: where the overlay has a value,
   * that value merged into the base's (or the overlay's own value when the
   * base has none); where the overlay does not reach, the base's value; and
   * nothing where an overlay value that is not an object cuts the path short.
   */
  lemma {:induction false} MergeLookup(base: Value, overlay: Value, path: seq<string>)
    ensures Lookup(overlay, path).Some? ==>
              Lookup(Merge(base, overlay), path)
              == Some(match Lookup(base, path)
                      case Some(b) => Merge(b, Lookup(overlay, path).value)
                      case None => Lookup(overlay, path).value)
    ensures Absent(overlay, path) ==> Lookup(Merge(base, overlay), path) == Lookup(base, path)
    ensures Lookup(overlay, path).None? && !Absent(overlay, path) ==>
              Lookup(Merge(base, overlay), path) == None
  {
    var m := Merge(base, overlay);
    if path != [] && overlay.Obj? {
      var k, rest := path[0], path[1..];
      if !base.Obj? {
        if Absent(overlay, path) {
          AbsentHasNoValue(overlay, path);
        }
      } else if k in overlay.fields && k in base.fields {
        assert m.fields[k] == Merge(base.fields[k], overlay.fields[k]);
        MergeLookup(base.fields[k], overlay.fields[k], rest);
      } else if k in overlay.fields {
        assert m.fields[k] == overlay.fields[k];
        if Absent(overlay.fields[k], rest) {
          AbsentHasNoValue(overlay.fields[k], rest);
        }
      } else if k in base.fields {
        assert m.fields[k] == base.fields[k];
      }
    }
  }

  /** Every leaf the overlay sets is in the merged value, unchanged. */
  lemma OverlayLeafWins(base: Value, overlay: Value, path: seq<string>, v: Value)
    requires Lookup(overlay, path) == Some(v) && !v.Obj?
    ensures Lookup(Merge(base, overlay), path) == Some(v)
  {
    MergeLookup(base, overlay, path);
  }

  /** Everything of the base that the overlay does not reach survives. */
  lemma BaseSurvives(base: Value, overlay: Value, path: seq<string>)
    requires Absent(overlay, path)
    ensures Lookup(Merge(base, overlay), path) == Lookup(base, path)
  {
    MergeLookup(base, overlay, path);
  }

  /**
   * Two objects at the same path are merged, not replaced: the result keeps
   * the keys of both.
   */
  lemma NestedObjectsMerge(base: Value, overlay: Value, path: seq<string>, b: Value, o: Value)
    requires Lookup(base, path) == Some(b) && b.Obj?
    requires Lookup(overlay, path) == Some(o) && o.Obj?
    ensures Lookup(Merge(base, overlay), path) == Some(Merge(b, o))
    ensures Merge(b, o).fields.Keys == b.fields.Keys + o.fields.Keys
  {
    MergeLookup(base, overlay, path);
  }

  /** Two duplicate-free key lists with nothing in common concatenate to a duplicate-free list. */
  lemma DistinctConcat(a: seq<string>, b: seq<string>)
    requires Distinct(a) && Distinct(b)
    requires forall k | k in b :: k !in a
    ensures Distinct(a + b)
  {
    forall i, j | 0 <= i < j < |a + b| ensures (a + b)[i] != (a + b)[j] {
      if i < |a| <= j {
        assert (a + b)[j] == b[j - |a|] && b[j - |a|] in b;
      }
    }
  }

  /** The merged object's key list is duplicate-free and lists exactly its keys. */
  lemma MergedKeys(base: Value, overlay: Value)
    requires base.Obj? && overlay.Obj? && WellFormed(base) && WellFormed(overlay)
    ensures Distinct(Merge(base, overlay).keys)
    ensures forall k :: k in Merge(base, overlay).keys <==> k in Merge(base, overlay).fields
  {
    var added := NewKeys(overlay.keys, base.fields);
    DistinctConcat(base.keys, added);
    assert Merge(base, overlay).keys == base.keys + added;
  }

  /** Merging keeps values well formed, and the base's keys keep their order. */
  lemma {:induction false} MergeWellFormed(base: Value, overlay: Value)
    requires WellFormed(base) && WellFormed(overlay)
    ensures WellFormed(Merge(base, overlay))
    ensures base.Obj? && overlay.Obj? ==> Merge(base, overlay).keys[..|base.keys|] == base.keys
    decreases overlay
  {
    if base.Obj? && overlay.Obj? {
      var r := Merge(base, overlay);
      MergedKeys(base, overlay);
      forall k | k in r.fields ensures WellFormed(r.fields[k]) {
        if k in base.fields && k in overlay.fields {
          MergeWellFormed(base.fields[k], overlay.fields[k]);
        }
      }
      assert r.keys[..|base.keys|] == base.keys;
    }
  }

  /** Merging an object with itself changes nothing. */
  lemma {:induction false} MergeSelf(v: Value)
    requires WellFormed(v)
    ensures Merge(v, v) == v
  {
    if v.Obj? {
      var r := Merge(v, v);
      assert NewKeys(v.keys, v.fields) == [];
      forall k | k in v.fields ensures r.fields[k] == v.fields[k] {
        MergeSelf(v.fields[k]);
      }
      assert r.fields == v.fields;
    }
  }

  /** Merging the same overlay a second time changes nothing. */
  lemma {:induction false} MergeAgain(base: Value, overlay: Value)
    requires WellFormed(overlay)
    ensures Merge(Merge(base, overlay), overlay) == Merge(base, overlay)
    decreases overlay, 2
  {
    if base.Obj? && overlay.Obj? {
      MergeAgainFields(base, overlay);
    } else if overlay.Obj? {
      MergeSelf(overlay);
    }
  }

  lemma {:induction false} MergeAgainFields(base: Value, overlay: Value)
    requires WellFormed(overlay) && base.Obj? && overlay.Obj?
    ensures Merge(Merge(base, overlay), overlay) == Merge(base, overlay)
    decreases overlay, 1
  {
    var m := Merge(base, overlay);
    var r := Merge(m, overlay);
    MergeAgainKeys(base, overlay);
    forall k | k in m.fields ensures r.fields[k] == m.fields[k] {
      MergeAgainAt(base, overlay, k);
    }
    SameObject(r, m);
  }

  /** Merging the overlay a second time adds no key. */
  lemma MergeAgainKeys(base: Value, overlay: Value)
    requires WellFormed(overlay) && base.Obj? && overlay.Obj?
    ensures Merge(Merge(base, overlay), overlay).keys == Merge(base, overlay).keys
    ensures Merge(Merge(base, overlay), overlay).fields.Keys == Merge(base, overlay).fields.Keys
  {
    var m := Merge(base, overlay);
    forall i | 0 <= i < |overlay.keys| ensures overlay.keys[i] in m.fields {
      assert overlay.keys[i] in overlay.fields;
    }
    assert NewKeys(overlay.keys, m.fields) == [];
  }

  /** One key of MergeAgainFields. */
  lemma {:induction false} MergeAgainAt(base: Value, overlay: Value, k: string)
    requires WellFormed(overlay) && base.Obj? && overlay.Obj?
    requires k in Merge(base, overlay).fields
    ensures Merge(Merge(base, overlay), overlay).fields[k] == Merge(base, overlay).fields[k]
    decreases overlay, 0
  {
    var m := Merge(base, overlay);
    if k in overlay.fields {
      if k in base.fields {
        assert m.fields[k] == Merge(base.fields[k], overlay.fields[k]);
        MergeAgain(base.fields[k], overlay.fields[k]);
      } else {
        assert m.fields[k] == overlay.fields[k];
        MergeSelf(overlay.fields[k]);
      }
    }
  }

  /** An overlay without properties leaves an object as it is. */
  lemma MergeEmptyOverlay(base: Value)
    requires base.Obj?
    ensures Merge(base, EmptyObject) == base
  {
    assert Merge(base, EmptyObject).fields == base.fields;
  }
}
