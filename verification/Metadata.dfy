/**
 Merging runtime metadata: the one way artifacts get into a row's JSON dictionary.
 */
module Metadata {
  import opened Wrappers
  import opened Json

  type Dict = map<string, Value>

  /** The value a merge leaves under one key: two dictionaries are merged one level deep,
      anything else is replaced. */
  function MergedValue(before: Option<Value>, extra: Value): Value {
    if extra.Object? && before.Some? && before.value.Object? then Object(before.value.fields + extra.fields) else extra
  }

  function At(d: Dict, k: string): Option<Value> {
    if k in d then Some(d[k]) else None
  }

  function Merged(existing: Option<Dict>, extra: Option<Dict>): Dict {
    var stored: Dict := if existing.Some? then existing.value else map[];
    var incoming: Dict := if extra.Some? then extra.value else map[];
    map k | k in stored.Keys + incoming.Keys ::
      if k in incoming then MergedValue(At(stored, k), incoming[k]) else stored[k]
  }

  lemma MergeOneMore(existing: Option<Dict>, done: Dict, k: string, value: Value)
    requires k !in done
    ensures var before := Merged(existing, Some(done));
            Merged(existing, Some(done[k := value])) == before[k := MergedValue(At(before, k), value)]
  {
    var before, after := Merged(existing, Some(done)), Merged(existing, Some(done[k := value]));
    assert after.Keys == before.Keys + {k};
  }

  /** The merge goes through the extra keys one by one on a fresh copy. */
  method MergeRuntimeMetadata(existing: Option<Dict>, extra: Option<Dict>) returns (merged: Dict)
    ensures merged == Merged(existing, extra)
  {
    merged := if existing.Some? then existing.value else map[];
    assert merged == Merged(existing, Some(map[])) == Merged(existing, None);
    if extra.None? { return; }
    ghost var done: Dict := map[];
    var left := extra.value.Keys;
    while left != {}
      invariant left <= extra.value.Keys && done.Keys == extra.value.Keys - left
      invariant forall k :: k in done ==> done[k] == extra.value[k]
      invariant merged == Merged(existing, Some(done))
      decreases |left|
    {
      var k :| k in left;
      var value := extra.value[k];
      MergeOneMore(existing, done, k, value);
      if value.Object? && k in merged && merged[k].Object? {
        merged := merged[k := Object(merged[k].fields + value.fields)];
      } else {
        merged := merged[k := value];
      }
      done := done[k := value];
      left := left - {k};
    }
    assert done == extra.value;
  }

  /** Writing an artifact whose field set covers the stored one replaces it whole and leaves
      every other artifact alone: a row's dictionary behaves as one slot per artifact. */
  lemma CoveringWriteReplaces(d: Dict, key: string, artifact: map<string, Value>)
    requires key in d && d[key].Object? ==> d[key].fields.Keys <= artifact.Keys
    ensures Merged(Some(d), Some(map[key := Object(artifact)])) == d[key := Object(artifact)]
  {
    var m := Merged(Some(d), Some(map[key := Object(artifact)]));
    if key in d && d[key].Object? {
      assert d[key].fields + artifact == artifact;
    }
    assert m.Keys == d.Keys + {key};
  }

  /** That the field set covers the stored one is exactly what the replacement needs. */
  lemma ReplacesOnlyIfCovering(d: Dict, key: string, artifact: map<string, Value>)
    ensures Merged(Some(d), Some(map[key := Object(artifact)])) == d[key := Object(artifact)]
            <==> (key in d && d[key].Object? ==> d[key].fields.Keys <= artifact.Keys)
  {
    var m := Merged(Some(d), Some(map[key := Object(artifact)]));
    if key in d && d[key].Object? ==> d[key].fields.Keys <= artifact.Keys {
      CoveringWriteReplaces(d, key, artifact);
    } else {
      var k :| k in d[key].fields && k !in artifact;
      assert k in m[key].fields;
    }
  }

  /** Merging the same artifacts again changes nothing. */
  lemma MergeIdempotent(existing: Option<Dict>, extra: Dict)
    ensures var once := Merged(existing, Some(extra)); Merged(Some(once), Some(extra)) == once
  {
    var once := Merged(existing, Some(extra));
    var twice := Merged(Some(once), Some(extra));
    forall k | k in twice ensures k in once && twice[k] == once[k] {
      if k in extra && once[k].Object? && extra[k].Object? {
        assert once[k].fields + extra[k].fields == once[k].fields;
      }
    }
    assert twice.Keys == once.Keys;
  }

  /** Writes of different artifacts commute, so the order in which a row receives them does not
      matter. */
  lemma WritesCommute(d: Dict, x: Dict, y: Dict)
    requires x.Keys !! y.Keys
    ensures Merged(Some(Merged(Some(d), Some(x))), Some(y)) == Merged(Some(Merged(Some(d), Some(y))), Some(x))
  {
    var dx, dy := Merged(Some(d), Some(x)), Merged(Some(d), Some(y));
    forall k | k in x ensures k !in y && At(dy, k) == At(d, k) {}
    forall k | k in y ensures k !in x && At(dx, k) == At(d, k) {}
  }
}
