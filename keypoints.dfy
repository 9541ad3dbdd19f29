/**
 * The keypoint filter of the skeleton plot: the dictionary comprehension
 * `{k: v for k, v in kps_2d.items() if isinstance(v, list) and len(v) == 2}`
 * (utils.py:65 and utils.py:163), and the lookups `joint in keypoints` and
 * `keypoints[joint]` that the bone loop makes on its result.
 */
module Keypoints {
  import opened Wrappers

  /**
   * A value of the input dictionary, as far as the filter tells values apart:
   * a Python list, a tuple, or anything else. The element type C is left
   * open, because the filter never looks at the elements.
   */
  datatype Value<C> = List(items: seq<C>) | Tuple(items: seq<C>) | Other

  /** An entry of the input dictionary; a dictionary is its entries in insertion order. */
  type Entry<C> = (string, Value<C>)

  /** An entry that survived the filter, with its list unpacked as `(x, y)`. */
  datatype Keypoint<C> = Keypoint(name: string, x: C, y: C)

  /** The filter's test: the value is a list (not a tuple) of exactly two elements. */
  predicate IsKeypointValue<C>(v: Value<C>) {
    v.List? && |v.items| == 2
  }

  /** A Python dictionary never holds the same key twice. */
  predicate DistinctKeys<C>(entries: seq<Entry<C>>) {
    forall i, j :: 0 <= i < j < |entries| ==> entries[i].0 != entries[j].0
  }

  /** The keypoints' names are pairwise distinct. */
  predicate DistinctNames<C>(kps: seq<Keypoint<C>>) {
    forall i, j :: 0 <= i < j < |kps| ==> kps[i].name != kps[j].name
  }

  /** The value the input dictionary holds under `key`, if any: the reference that lookups on the filtered dictionary are compared with. */
  function Get<C>(entries: seq<Entry<C>>, key: string): (r: Option<Value<C>>)
    ensures r.Some? <==> exists i :: 0 <= i < |entries| && entries[i].0 == key
    ensures r.Some? ==> (key, r.value) in entries
  {
    if entries == [] then None
    else if entries[0].0 == key then Some(entries[0].1)
    else Get(entries[1..], key)
  }

  /**
   * The filtered dictionary `keypoints`: the entries whose value is a
   * two-element list, in input order. An entry is kept exactly when its
   * value is a two-element list; nothing else is kept.
   */
  function FilterKeypoints<C>(entries: seq<Entry<C>>): (kps: seq<Keypoint<C>>)
    ensures |kps| <= |entries|
    ensures forall i :: 0 <= i < |entries| && IsKeypointValue(entries[i].1) ==>
              Keypoint(entries[i].0, entries[i].1.items[0], entries[i].1.items[1]) in kps
    ensures forall i :: 0 <= i < |kps| ==> (kps[i].name, List([kps[i].x, kps[i].y])) in entries
  {
    if entries == [] then []
    else
      var (k, v) := entries[0];
      var rest := FilterKeypoints(entries[1..]);
      if IsKeypointValue(v) then
        assert v == List([v.items[0], v.items[1]]);
        [Keypoint(k, v.items[0], v.items[1])] + rest
      else rest
  }

  /** `name in keypoints` and `keypoints[name]` on the filtered dictionary. */
  function Lookup<C>(kps: seq<Keypoint<C>>, name: string): (r: Option<(C, C)>)
    ensures r.Some? <==> exists i :: 0 <= i < |kps| && kps[i].name == name
    ensures r.Some? ==> Keypoint(name, r.value.0, r.value.1) in kps
  {
    if kps == [] then None
    else if kps[0].name == name then Some((kps[0].x, kps[0].y))
    else Lookup(kps[1..], name)
  }

  /**
   * The filter works entry by entry: filtering a concatenation is
   * concatenating the filtered parts, so kept entries keep their input order.
   */
  lemma {:induction false} FilterAppend<C>(a: seq<Entry<C>>, b: seq<Entry<C>>)
    ensures FilterKeypoints(a + b) == FilterKeypoints(a) + FilterKeypoints(b)
  {
    if a == [] {
      assert a + b == b;
    } else {
      assert (a + b)[1..] == a[1..] + b;
      FilterAppend(a[1..], b);
    }
  }

  /** A dictionary's keypoints have distinct names. */
  lemma {:induction false} FilterDistinct<C>(entries: seq<Entry<C>>)
    requires DistinctKeys(entries)
    ensures DistinctNames(FilterKeypoints(entries))
  {
    if entries != [] {
      var kps := FilterKeypoints(entries);
      var rest := FilterKeypoints(entries[1..]);
      FilterDistinct(entries[1..]);
      if IsKeypointValue(entries[0].1) {
        forall j | 0 <= j < |rest|
          ensures rest[j].name != entries[0].0
        {
          assert (rest[j].name, List([rest[j].x, rest[j].y])) in entries[1..];
        }
      }
    }
  }

  /**
   * `joint in keypoints` holds exactly when the input has the key with a
   * two-element list as its value, and `keypoints[joint]` is that list.
   */
  lemma {:induction false} LookupFiltered<C>(entries: seq<Entry<C>>, key: string)
    requires DistinctKeys(entries)
    ensures Lookup(FilterKeypoints(entries), key).Some? <==>
              Get(entries, key).Some? && IsKeypointValue(Get(entries, key).value)
    ensures Lookup(FilterKeypoints(entries), key).Some? ==>
              var p := Lookup(FilterKeypoints(entries), key).value;
              Get(entries, key).value == List([p.0, p.1])
  {
    if entries != [] {
      var rest := entries[1..];
      assert DistinctKeys(rest);
      LookupFiltered(rest, key);
      if entries[0].0 != key && IsKeypointValue(entries[0].1) {
        assert FilterKeypoints(entries)[1..] == FilterKeypoints(rest);
      }
    }
  }
}
