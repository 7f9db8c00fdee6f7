/**
 * The recursive merge of the settings store (`deepMerge`): a fresh copy of
 * the target in which every defined key of the source replaces the target's
 * value, except that plain objects are merged key by key.
 */
module DeepMerging {
  import opened JsonValues

  /**
   * Keys whose source value is `undefined` keep the target's value; arrays,
   * scalars and `null` replace it wholesale; plain objects merge recursively
   * into the target's value (or into `{}` when that is not an object).
   */
  function DeepMerge(target: map<string, Json>, source: map<string, Json>): (r: map<string, Json>)
    decreases Obj(source)
    ensures r.Keys == target.Keys + set k | k in source && source[k] != Undefined
    ensures forall k :: k in target && Field(source, k) == Undefined ==> r[k] == target[k]
    ensures forall k :: k in source && IsLeaf(source[k]) ==> r[k] == source[k]
    ensures forall k :: k in source && source[k].Obj? ==> r[k].Obj?
    ensures source == map[] ==> r == target
  {
    map k | k in target.Keys + source.Keys && (k in target || source[k] != Undefined) ::
      if k in source && source[k].Obj? then
        Obj(DeepMerge(AsObject(Field(target, k)), source[k].fields))
      else if k in source && source[k] != Undefined then
        source[k]
      else
        target[k]
  }

  /**
   * `s` covers `t`: every key of `t` is defined in `s` (at every depth where
   * both hold objects), and `s` holds no `undefined` anywhere. A fully
   * populated settings document covers the defaults.
   */
  predicate Covers(t: map<string, Json>, s: map<string, Json>)
    decreases Obj(s)
  {
    && t.Keys <= s.Keys
    && forall k :: k in s ==>
         && s[k] != Undefined
         && (s[k].Obj? ==> Covers(AsObject(Field(t, k)), s[k].fields))
  }

  /** Where the source holds an object, the result holds the merge of that object into the target's value. */
  lemma MergedObjectAt(t: map<string, Json>, s: map<string, Json>, k: string)
    requires k in s && s[k].Obj?
    ensures k in DeepMerge(t, s) && DeepMerge(t, s)[k] == Obj(DeepMerge(AsObject(Field(t, k)), s[k].fields))
  {
  }

  /** A key the source leaves undefined reads the same in the result as in the target. */
  lemma MergeKeepsField(t: map<string, Json>, s: map<string, Json>, k: string)
    requires Field(s, k) == Undefined
    ensures Field(DeepMerge(t, s), k) == Field(t, k)
  {
  }

  /** Merging a single leaf sets that one key. */
  lemma MergeOneLeaf(t: map<string, Json>, k: string, v: Json)
    requires IsLeaf(v)
    ensures DeepMerge(t, map[k := v]) == t[k := v]
  {
  }

  /** A source of leaves covers any target whose keys it names. */
  lemma LeavesCover(t: map<string, Json>, s: map<string, Json>)
    requires t.Keys <= s.Keys
    requires forall k :: k in s ==> IsLeaf(s[k])
    ensures Covers(t, s)
  {
  }

  /** Merging the same source a second time changes nothing. */
  lemma {:induction false} DeepMergeIdempotent(t: map<string, Json>, s: map<string, Json>)
    decreases Obj(s)
    ensures DeepMerge(DeepMerge(t, s), s) == DeepMerge(t, s)
  {
    var r := DeepMerge(t, s);
    var r2 := DeepMerge(r, s);
    forall k | k in r2
      ensures r2[k] == r[k]
    {
      if k in s && s[k].Obj? {
        DeepMergeIdempotent(AsObject(Field(t, k)), s[k].fields);
      }
    }
  }

  /** A source that covers the target replaces it entirely. */
  lemma {:induction false} CoveringSourceWins(t: map<string, Json>, s: map<string, Json>)
    requires Covers(t, s)
    decreases Obj(s)
    ensures DeepMerge(t, s) == s
  {
    var r := DeepMerge(t, s);
    forall k | k in r
      ensures r[k] == s[k]
    {
      if s[k].Obj? {
        CoveringSourceWins(AsObject(Field(t, k)), s[k].fields);
      }
    }
  }

  /**
   * `deepMerge(t, deepMerge({}, s))` (the clone-then-merge of `setSettings`)
   * is the same as merging `s` directly.
   */
  lemma {:induction false} MergeOfCloneIsMerge(t: map<string, Json>, s: map<string, Json>)
    decreases Obj(s)
    ensures DeepMerge(t, DeepMerge(map[], s)) == DeepMerge(t, s)
  {
    var c := DeepMerge(map[], s);
    var r1 := DeepMerge(t, c);
    var r2 := DeepMerge(t, s);
    forall k | k in c
      ensures c[k] != Undefined
    {
    }
    forall k | k in r1
      ensures r1[k] == r2[k]
    {
      if k in s && s[k].Obj? {
        MergeOfCloneIsMerge(AsObject(Field(t, k)), s[k].fields);
      }
    }
  }
}
