/**
 * The configuration merge of the loader: `deepMerge(target, source)` copies
 * `target` and lays the keys of `source` over it, merging plain objects
 * recursively and replacing everything else.
 */
module ConfigLoader {
  import opened JsValue

  /** `isObject(item)`: truthy, `typeof` object and not an array. */
  predicate IsObject(item: Json)
  {
    Truthy(item) && IsObjectType(item) && !IsArray(item)
  }

  /** Only plain objects pass `isObject`. */
  lemma IsObjectExactly(item: Json)
    ensures IsObject(item) <==> item.Obj?
  {
  }

  /** The own enumerable properties `Object.assign` copies, in order. */
  function OwnFields(v: Json): (fs: seq<Field>)
    ensures Keys(fs) == ForInKeys(v)
  {
    match v
    case Obj(fs) => fs
    case Arr(items) => seq(|items|, i requires 0 <= i < |items| => Field(NatToString(i), items[i]))
    case Str(s) => seq(|s|, i requires 0 <= i < |s| => Field(NatToString(i), Str([s[i]])))
    case _ => []
  }

  // ---------------------------------------------------------------------
  // The merge

  /**
   * The value `deepMerge` stores under a key of `source`: two plain objects
   * are merged, a plain object over anything else is copied, and any other
   * source value (array, primitive, null) replaces the target's.
   */
  function MergedValue(target: Json, source: Json, k: string): (v: Json)
    ensures IsObject(Get(source, k)) ==> v.Obj?
    ensures !IsObject(Get(source, k)) ==> v == Get(source, k)
    decreases Depth(source), 0, 0
  {
    var sv := Get(source, k);
    var tv := Get(target, k);
    GetDepth(source, k);
    if IsObject(sv) then
      if IsObject(tv) then DeepMerge(tv, sv) else Obj(OwnFields(sv))
    else sv
  }

  /** The `forEach` over the keys of `source`, writing each into `out`. */
  function MergeKeys(target: Json, source: Json, keys: seq<string>, out: seq<Field>): (r: seq<Field>)
    ensures forall k :: k in keys ==> Lookup(r, k) == Some(MergedValue(target, source, k))
    ensures forall k :: k !in keys ==> Lookup(r, k) == Lookup(out, k)
    ensures forall k :: k in Keys(r) <==> k in Keys(out) || k in keys
    decreases Depth(source), 1, |keys|
  {
    if keys == [] then out
    else MergeKeys(target, source, keys[1..], SetField(out, keys[0], MergedValue(target, source, keys[0])))
  }

  /** `deepMerge(target, source)`. */
  function DeepMerge(target: Json, source: Json): (r: Json)
    ensures r.Obj?
    ensures forall k :: k in Keys(r.fields) <==> k in ForInKeys(target) || (Truthy(source) && k in ForInKeys(source))
    decreases Depth(source), 2, 0
  {
    var output := OwnFields(target);
    if !Truthy(source) then Obj(output)
    else Obj(MergeKeys(target, source, ForInKeys(source), output))
  }

  // ---------------------------------------------------------------------
  // Laws of the merge

  /** A falsy source gives a copy of the target. */
  lemma MergeFalsySource(target: Json, source: Json)
    requires !Truthy(source)
    ensures DeepMerge(target, source) == Obj(OwnFields(target))
  {
  }

  /** Every key of a truthy source carries the merged value. */
  lemma MergeSourceKeys(target: Json, source: Json, k: string)
    requires Truthy(source) && k in ForInKeys(source)
    ensures Get(DeepMerge(target, source), k) == MergedValue(target, source, k)
  {
  }

  /** A source value that is not a plain object (an array, a primitive, null) replaces the target value. */
  lemma MergeReplaces(target: Json, source: Json, k: string)
    requires Truthy(source) && k in ForInKeys(source) && !IsObject(Get(source, k))
    ensures Get(DeepMerge(target, source), k) == Get(source, k)
  {
  }

  /** Two plain objects under one key are merged recursively. */
  lemma MergeRecurses(target: Json, source: Json, k: string)
    requires Truthy(source) && k in ForInKeys(source)
    requires IsObject(Get(source, k)) && IsObject(Get(target, k))
    ensures Get(DeepMerge(target, source), k) == DeepMerge(Get(target, k), Get(source, k))
  {
  }

  /** A plain object over anything else is copied. */
  lemma MergeCopies(target: Json, source: Json, k: string)
    requires Truthy(source) && k in ForInKeys(source)
    requires IsObject(Get(source, k)) && !IsObject(Get(target, k))
    ensures Get(DeepMerge(target, source), k) == Get(source, k)
  {
  }

  /** Keys the source does not have keep the target's value. */
  lemma MergeKeepsTarget(target: Json, source: Json, k: string)
    requires target.Obj? && k !in ForInKeys(source)
    ensures Get(DeepMerge(target, source), k) == Get(target, k)
  {
  }
}
