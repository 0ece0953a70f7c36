/**
 * Parsed JSON values, the form in which a persisted project document reaches
 * the loader, and the deep merge the loader uses to lay a loaded entity over
 * a freshly built default.
 *
 * The merge library of the repository (shared/merge) is not part of this
 * model. `Merge` below is an assumed definition of it: two objects are
 * merged key by key, and any other raw value replaces the default. The
 * lemmas after it state its main properties: a value present in the loaded
 * data wins, a field missing from it comes from the default, and merging
 * onto a default whose fields are already all present changes nothing.
 * Some lemmas of the normaliser also unfold the definition itself, so what
 * the model says about loaded values of the wrong kind rests on it.
 */
module JsonValue {
  import opened Wrappers

  /** A JSON value. Numbers are integers in this model. */
  datatype Json =
    | JNull
    | JBool(b: bool)
    | JNumber(n: int)
    | JString(s: string)
    | JArray(items: seq<Json>)
    | JObject(fields: map<string, Json>)

  /** The value reached by following the object keys of `path`, if any. */
  function Lookup(j: Json, path: seq<string>): Option<Json>
    decreases |path|
  {
    if path == [] then Some(j)
    else if j.JObject? && path[0] in j.fields then Lookup(j.fields[path[0]], path[1..])
    else None
  }

  /** The value `j[key]` of an object, absent on a missing key or a non-object. */
  function Field(j: Json, key: string): Option<Json>
  {
    if j.JObject? && key in j.fields then Some(j.fields[key]) else None
  }

  /**
   * `path` is missing from `raw`: walking it from the root passes only through
   * objects and reaches a key the object does not have.
   */
  predicate MissingAlong(raw: Json, path: seq<string>)
    decreases |path|
  {
    path != [] && raw.JObject? &&
    (path[0] !in raw.fields || MissingAlong(raw.fields[path[0]], path[1..]))
  }

  /** A path missing from a value has nothing at its end. */
  lemma {:induction false} MissingAlongAbsent(raw: Json, path: seq<string>)
    requires MissingAlong(raw, path)
    ensures Lookup(raw, path).None?
    decreases |path|
  {
    if path[0] in raw.fields {
      MissingAlongAbsent(raw.fields[path[0]], path[1..]);
    }
  }

  /**
   * Deep merge of `raw` onto `dflt`: when both are objects the result has the
   * keys of both, keys of both are merged recursively, and a key of only one
   * side keeps that side's value; otherwise (a primitive, an array, or a shape
   * mismatch) the raw value replaces the default.
   */
  function Merge(dflt: Json, raw: Json): Json
    decreases raw
  {
    if dflt.JObject? && raw.JObject? then
      JObject(map k | k in dflt.fields.Keys + raw.fields.Keys ::
        if k in raw.fields && k in dflt.fields then Merge(dflt.fields[k], raw.fields[k])
        else if k in raw.fields then raw.fields[k]
        else dflt.fields[k])
    else raw
  }

  /**
   * `m` has every key of `d`, at every depth where both are objects: merging
   * `m` onto `d` has nothing to add.
   */
  predicate Covers(m: Json, d: Json)
    decreases d
  {
    m.JObject? && d.JObject? ==>
      forall k :: k in d.fields ==> k in m.fields && Covers(m.fields[k], d.fields[k])
  }

  /**
   * Wherever `b` is an object, `a` is an object too and has at least the keys
   * of `b`. Two defaults of the same variant include each other's shape.
   */
  predicate ShapeIncludes(a: Json, b: Json)
    decreases b
  {
    b.JObject? ==>
      a.JObject? &&
      forall k :: k in b.fields ==> k in a.fields && ShapeIncludes(a.fields[k], b.fields[k])
  }

  /** A value present in the raw data (and not itself an object) wins. */
  lemma {:induction false} MergeKeepsRaw(dflt: Json, raw: Json, path: seq<string>, v: Json)
    requires Lookup(raw, path) == Some(v) && !v.JObject?
    ensures Lookup(Merge(dflt, raw), path) == Some(v)
    decreases |path|
  {
    if path != [] && dflt.JObject? {
      var k := path[0];
      if k in dflt.fields {
        MergeKeepsRaw(dflt.fields[k], raw.fields[k], path[1..], v);
      }
    }
  }

  /** A path missing from the raw data takes the default's whole value. */
  lemma {:induction false} MergeFillsMissing(dflt: Json, raw: Json, path: seq<string>, v: Json)
    requires Lookup(dflt, path) == Some(v) && MissingAlong(raw, path)
    ensures Lookup(Merge(dflt, raw), path) == Some(v)
    decreases |path|
  {
    var k := path[0];
    if k in raw.fields {
      MergeFillsMissing(dflt.fields[k], raw.fields[k], path[1..], v);
    }
  }

  /** Every value covers itself. */
  lemma {:induction false} CoversReflexive(j: Json)
    ensures Covers(j, j)
    decreases j
  {
    if j.JObject? {
      forall k | k in j.fields ensures Covers(j.fields[k], j.fields[k]) {
        CoversReflexive(j.fields[k]);
      }
    }
  }

  /** The merge result covers the default it was merged onto. */
  lemma {:induction false} MergeCoversDefault(dflt: Json, raw: Json)
    ensures Covers(Merge(dflt, raw), dflt)
    decreases raw
  {
    if dflt.JObject? && raw.JObject? {
      var m := Merge(dflt, raw);
      forall k | k in dflt.fields ensures k in m.fields && Covers(m.fields[k], dflt.fields[k]) {
        if k in raw.fields {
          MergeCoversDefault(dflt.fields[k], raw.fields[k]);
        } else {
          CoversReflexive(dflt.fields[k]);
        }
      }
    }
  }

  /** Merging a value that already covers the default leaves it unchanged. */
  lemma {:induction false} MergeCovered(dflt: Json, m: Json)
    requires Covers(m, dflt)
    ensures Merge(dflt, m) == m
    decreases m
  {
    if dflt.JObject? && m.JObject? {
      var r := Merge(dflt, m);
      forall k | k in dflt.fields ensures Merge(dflt.fields[k], m.fields[k]) == m.fields[k] {
        MergeCovered(dflt.fields[k], m.fields[k]);
      }
      assert r.fields == m.fields;
    }
  }

  /** Covering is carried over to any default whose shape is included. */
  lemma {:induction false} CoversWeaken(m: Json, d1: Json, d2: Json)
    requires Covers(m, d1) && ShapeIncludes(d1, d2)
    ensures Covers(m, d2)
    decreases d2
  {
    if m.JObject? && d2.JObject? {
      forall k | k in d2.fields ensures k in m.fields && Covers(m.fields[k], d2.fields[k]) {
        CoversWeaken(m.fields[k], d1.fields[k], d2.fields[k]);
      }
    }
  }

  /** A value whose shape includes the default's covers it. */
  lemma ShapeIncludesCovers(a: Json, d: Json)
    requires ShapeIncludes(a, d)
    ensures Covers(a, d)
  {
    CoversReflexive(a);
    CoversWeaken(a, a, d);
  }
}
