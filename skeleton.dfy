/**
 * What `plot_skeleton` (utils.py:11-105) and `plot_skeleton_custom`
 * (utils.py:107-203) draw. Both filter the input dictionary, draw one marker
 * per kept entry, draw one segment per bone of the fixed topology whose two
 * ends were kept, and then decorate the axes; they differ only in the style
 * arguments they pass to matplotlib.
 *
 * The functions state what ends up in the axes' call log; the methods do it
 * step by step, as the source's loops do, and are proved to produce exactly
 * that log.
 */
module Skeleton {
  import opened Wrappers
  import opened Topology
  import opened Keypoints
  import opened Canvas

  /**
   * The exception a call raises when asked to save: `os` is never imported
   * (utils.py:1-5), so `os.makedirs` fails with a NameError on `os`.
   */
  datatype PyError = NameError(name: string)

  /** Python truthiness of an optional string argument: None and "" are false. */
  predicate Truthy(s: Option<string>) {
    s.Some? && s.value != ""
  }

  /**
   * `plot_skeleton`'s markers: red, on layer 5. The call passes no `marker=`;
   * the shape recorded is matplotlib's default, "o".
   */
  const BaseMarkerStyle: MarkerStyle := MarkerStyle(Named("red"), "o", 5)

  /** `plot_skeleton`'s lines: the format "b-" (blue, solid), width 2, on layer 1. */
  const BaseLineStyle: LineStyle := LineStyle(Named("b"), "-", 2, 1)

  /** `plot_skeleton_custom`'s markers: the caller's colour and marker, on layer 5. */
  function CustomMarkerStyle(color: Color, marker: string): MarkerStyle {
    MarkerStyle(color, marker, 5)
  }

  /**
   * `plot_skeleton_custom`'s lines: the caller's colour, width 2, on layer 1.
   * The call passes no line style; the style recorded is matplotlib's
   * default, "-" (solid).
   */
  function CustomLineStyle(color: Color): LineStyle {
    LineStyle(color, "-", 2, 1)
  }

  // ---------------------------------------------------------------------------
  // What gets drawn
  // ---------------------------------------------------------------------------

  /** The marker loop's output for the keypoints `kps`. */
  function Markers<C>(kps: seq<Keypoint<C>>, style: MarkerStyle): seq<AxesCall<C>> {
    if kps == [] then []
    else
      var last := kps[|kps| - 1];
      Markers(kps[..|kps| - 1], style) + [Marker(last.name, last.x, last.y, style)]
  }

  /** Both ends of `bone` are keys of the filtered dictionary. */
  predicate BothKept<C>(kps: seq<Keypoint<C>>, bone: Bone) {
    Lookup(kps, bone.0).Some? && Lookup(kps, bone.1).Some?
  }

  /** The segment drawn for a bone whose two ends were kept. */
  function SegmentFor<C>(kps: seq<Keypoint<C>>, bone: Bone, style: LineStyle): AxesCall<C>
    requires BothKept(kps, bone)
  {
    var p1 := Lookup(kps, bone.0).value;
    var p2 := Lookup(kps, bone.1).value;
    Segment(bone.0, bone.1, [p1.0, p2.0], [p1.1, p2.1], style)
  }

  /** The bone loop's output for the bones `bones`, walked in order. */
  function Bones<C>(kps: seq<Keypoint<C>>, bones: seq<Bone>, style: LineStyle): seq<AxesCall<C>> {
    if bones == [] then []
    else
      var last := bones[|bones| - 1];
      Bones(kps, bones[..|bones| - 1], style)
      + (if BothKept(kps, last) then [SegmentFor(kps, last, style)] else [])
  }

  /** The positions in `bones` of the bones the loop draws, in order. */
  function DrawnBoneIndexes<C>(kps: seq<Keypoint<C>>, bones: seq<Bone>): seq<int> {
    if bones == [] then []
    else
      DrawnBoneIndexes(kps, bones[..|bones| - 1])
      + (if BothKept(kps, bones[|bones| - 1]) then [|bones| - 1] else [])
  }

  /** The decorations applied after drawing (utils.py:81-88). */
  function Decorations<C>(title: Option<string>, invertY: bool): seq<AxesCall<C>> {
    (if Truthy(title) then [Title(title.value)] else [])
    + [XLabel("X"), YLabel("Y"), Aspect("equal")]
    + (if invertY then [InvertedY] else [])
    + [GridLines(true, "--")]
  }

  /** The markers, then the segments, drawn for the input dictionary `entries`. */
  function DrawCalls<C>(entries: seq<Entry<C>>, ms: MarkerStyle, ls: LineStyle): seq<AxesCall<C>> {
    var kps := FilterKeypoints(entries);
    Markers(kps, ms) + Bones(kps, Connections, ls)
  }

  /** Everything one call makes on the axes. */
  function SkeletonCalls<C>(entries: seq<Entry<C>>, ms: MarkerStyle, ls: LineStyle,
                            title: Option<string>, invertY: bool): seq<AxesCall<C>> {
    DrawCalls(entries, ms, ls) + Decorations(title, invertY)
  }

  /** The input has `name` as a key, with a two-element list as its value. */
  predicate Kept<C>(entries: seq<Entry<C>>, name: string) {
    Get(entries, name).Some? && IsKeypointValue(Get(entries, name).value)
  }

  /** The markers and segments of a call log, in order; the decorations dropped. */
  function Drawn<C>(calls: seq<AxesCall<C>>): seq<AxesCall<C>> {
    if calls == [] then []
    else (if calls[0].Marker? || calls[0].Segment? then [calls[0]] else []) + Drawn(calls[1..])
  }

  /** The call with its style replaced: markers take `ms`, segments take `ls`. */
  function RestyleCall<C>(c: AxesCall<C>, ms: MarkerStyle, ls: LineStyle): AxesCall<C> {
    match c
    case Marker(k, x, y, _) => Marker(k, x, y, ms)
    case Segment(j1, j2, xs, ys, _) => Segment(j1, j2, xs, ys, ls)
    case _ => c
  }

  function Restyle<C>(calls: seq<AxesCall<C>>, ms: MarkerStyle, ls: LineStyle): seq<AxesCall<C>> {
    seq(|calls|, i requires 0 <= i < |calls| => RestyleCall(calls[i], ms, ls))
  }

  /** The first position of `bone` in `bones`, or -1 when it is not there. */
  function IndexOf(bones: seq<Bone>, bone: Bone): int {
    if bones == [] then -1
    else if bones[0] == bone then 0
    else var k := IndexOf(bones[1..], bone); if k < 0 then -1 else k + 1
  }

  // ---------------------------------------------------------------------------
  // Properties of the pieces
  // ---------------------------------------------------------------------------

  /** The marker loop draws one marker per keypoint, in order, at its `(x, y)`. */
  lemma {:induction false} MarkersAt<C>(kps: seq<Keypoint<C>>, style: MarkerStyle)
    ensures |Markers(kps, style)| == |kps|
    ensures forall i :: 0 <= i < |kps| ==>
              Markers(kps, style)[i] == Marker(kps[i].name, kps[i].x, kps[i].y, style)
  {
    if kps != [] {
      MarkersAt(kps[..|kps| - 1], style);
    }
  }

  /**
   * The bone loop draws, in the order of `bones`, exactly the segments of the
   * bones whose two ends were kept: the i-th segment is that of bone
   * `idx[i]`, the positions `idx` strictly increase, and every bone with both
   * ends kept is among them.
   */
  lemma {:induction false} BonesAt<C>(kps: seq<Keypoint<C>>, bones: seq<Bone>, style: LineStyle)
    ensures var segs, idx := Bones(kps, bones, style), DrawnBoneIndexes(kps, bones);
      && |segs| == |idx|
      && (forall i :: 0 <= i < |idx| ==>
            0 <= idx[i] < |bones| && BothKept(kps, bones[idx[i]])
            && segs[i] == SegmentFor(kps, bones[idx[i]], style))
      && (forall i, j :: 0 <= i < j < |idx| ==> idx[i] < idx[j])
      && (forall t :: 0 <= t < |bones| && BothKept(kps, bones[t]) ==> t in idx)
  {
    if bones != [] {
      var init := bones[..|bones| - 1];
      BonesAt(kps, init, style);
      forall t | 0 <= t < |init| ensures init[t] == bones[t] { }
    }
  }

  /**
   * Every segment the bone loop draws is that of a bone of `bones` with both
   * ends kept, in style `style`.
   */
  lemma BonesSound<C>(kps: seq<Keypoint<C>>, bones: seq<Bone>, style: LineStyle)
    ensures forall i :: 0 <= i < |Bones(kps, bones, style)| ==>
              var c := Bones(kps, bones, style)[i];
              && c.Segment? && (c.joint1, c.joint2) in bones && BothKept(kps, (c.joint1, c.joint2))
              && c == SegmentFor(kps, (c.joint1, c.joint2), style)
  {
    BonesAt(kps, bones, style);
  }

  /** Everything the bone loop draws is a segment in style `style`. */
  lemma BonesStyled<C>(kps: seq<Keypoint<C>>, bones: seq<Bone>, style: LineStyle)
    ensures forall i :: 0 <= i < |Bones(kps, bones, style)| ==>
              Bones(kps, bones, style)[i].Segment? && Bones(kps, bones, style)[i].lineStyle == style
  {
    BonesSound(kps, bones, style);
  }

  /** `BonesSound`, stated for the segments as members of the bone loop's output. */
  lemma BonesMembers<C>(kps: seq<Keypoint<C>>, bones: seq<Bone>, style: LineStyle)
    ensures forall c :: c in Bones(kps, bones, style) ==>
              && c.Segment? && (c.joint1, c.joint2) in bones && BothKept(kps, (c.joint1, c.joint2))
              && c == SegmentFor(kps, (c.joint1, c.joint2), style)
  {
    BonesSound(kps, bones, style);
  }

  /** The bone loop draws the segment of every bone of `bones` with both ends kept. */
  lemma BonesComplete<C>(kps: seq<Keypoint<C>>, bones: seq<Bone>, style: LineStyle, t: int)
    requires 0 <= t < |bones| && BothKept(kps, bones[t])
    ensures SegmentFor(kps, bones[t], style) in Bones(kps, bones, style)
  {
    BonesAt(kps, bones, style);
    var idx := DrawnBoneIndexes(kps, bones);
    var i :| 0 <= i < |idx| && idx[i] == t;
    assert Bones(kps, bones, style)[i] == SegmentFor(kps, bones[t], style);
  }

  /** When only the first bone has both ends kept, the bone loop draws that one segment. */
  lemma {:induction false} BonesOnlyFirst<C>(kps: seq<Keypoint<C>>, bones: seq<Bone>, style: LineStyle)
    requires |bones| > 0 && BothKept(kps, bones[0])
    requires forall t :: 1 <= t < |bones| ==> !BothKept(kps, bones[t])
    ensures Bones(kps, bones, style) == [SegmentFor(kps, bones[0], style)]
  {
    if |bones| > 1 {
      var init := bones[..|bones| - 1];
      assert init[0] == bones[0];
      forall t | 1 <= t < |init| ensures !BothKept(kps, init[t]) {
        assert init[t] == bones[t];
      }
      BonesOnlyFirst(kps, init, style);
    }
  }

  /** With nothing kept, the bone loop draws nothing. */
  lemma {:induction false} BonesOfNothing<C>(bones: seq<Bone>, style: LineStyle)
    ensures Bones<C>([], bones, style) == []
  {
    if bones != [] {
      BonesOfNothing<C>(bones[..|bones| - 1], style);
    }
  }

  /** In a list of distinct bones, each bone's first position is its position. */
  lemma {:induction false} IndexOfDistinct(bones: seq<Bone>, t: int)
    requires Distinct(bones) && 0 <= t < |bones|
    ensures IndexOf(bones, bones[t]) == t
  {
    if t > 0 {
      assert Distinct(bones[1..]);
      IndexOfDistinct(bones[1..], t - 1);
    }
  }

  /** None of the decorations is a marker or a segment. */
  lemma DecorationsArePlain<C>(title: Option<string>, invertY: bool)
    ensures forall i :: 0 <= i < |Decorations<C>(title, invertY)| ==>
              !Decorations<C>(title, invertY)[i].Marker? && !Decorations<C>(title, invertY)[i].Segment?
  {
  }

  lemma {:induction false} DrawnAppend<C>(a: seq<AxesCall<C>>, b: seq<AxesCall<C>>)
    ensures Drawn(a + b) == Drawn(a) + Drawn(b)
  {
    if a == [] {
      assert a + b == b;
    } else {
      var head := if a[0].Marker? || a[0].Segment? then [a[0]] else [];
      var ab := a + b;
      assert ab != [] && ab[0] == a[0];
      assert ab[1..] == a[1..] + b;
      assert Drawn(ab) == head + Drawn(ab[1..]);
      DrawnAppend(a[1..], b);
      assert Drawn(a) == head + Drawn(a[1..]);
    }
  }

  /** Regrouping a concatenation of four logs. */
  lemma AppendFour<T>(a: seq<T>, b: seq<T>, c: seq<T>, d: seq<T>)
    ensures a + b + c + d == a + (b + c + d)
  {
  }

  /** Keeping only markers and segments keeps a log made of them whole, and empties one made of neither. */
  lemma {:induction false} DrawnOfKinds<C>(calls: seq<AxesCall<C>>)
    ensures (forall i :: 0 <= i < |calls| ==> calls[i].Marker? || calls[i].Segment?) ==> Drawn(calls) == calls
    ensures (forall i :: 0 <= i < |calls| ==> !calls[i].Marker? && !calls[i].Segment?) ==> Drawn(calls) == []
  {
    if calls != [] {
      DrawnOfKinds(calls[1..]);
    }
  }

  /**
   * The layout of a log made of the markers of `kps`, the bone loop's
   * segments over `bones`, and calls that are neither markers nor segments:
   * markers first, in order, then the segments (all in style `ls`), then the
   * rest.
   */
  lemma LogLayout<C>(kps: seq<Keypoint<C>>, bones: seq<Bone>, ms: MarkerStyle, ls: LineStyle,
                     rest: seq<AxesCall<C>>)
    requires forall i :: 0 <= i < |rest| ==> !rest[i].Marker? && !rest[i].Segment?
    ensures var segs := Bones(kps, bones, ls);
      var calls := Markers(kps, ms) + segs + rest;
      && |calls| == |kps| + |segs| + |rest|
      && (forall n :: 0 <= n < |kps| ==> calls[n] == Marker(kps[n].name, kps[n].x, kps[n].y, ms))
      && (forall n :: |kps| <= n < |kps| + |segs| ==>
            calls[n] == segs[n - |kps|] && calls[n].Segment? && calls[n].lineStyle == ls)
      && (forall n :: |kps| + |segs| <= n < |calls| ==> !calls[n].Marker? && !calls[n].Segment?)
  {
    MarkersAt(kps, ms);
    BonesStyled(kps, bones, ls);
  }

  /**
   * In the same log, the segments are exactly the bone loop's and the
   * markers exactly the marker loop's.
   */
  lemma LogMembers<C>(kps: seq<Keypoint<C>>, bones: seq<Bone>, ms: MarkerStyle, ls: LineStyle,
                      rest: seq<AxesCall<C>>)
    requires forall i :: 0 <= i < |rest| ==> !rest[i].Marker? && !rest[i].Segment?
    ensures var segs, markers := Bones(kps, bones, ls), Markers(kps, ms);
      var calls := markers + segs + rest;
      && (forall c :: c in calls && c.Segment? ==> c in segs)
      && (forall c :: c in segs ==> c in calls)
      && (forall c :: c in calls && c.Marker? ==> c in markers)
      && (forall c :: c in markers ==> c in calls)
  {
    var segs, markers := Bones(kps, bones, ls), Markers(kps, ms);
    MarkersAt(kps, ms);
    BonesStyled(kps, bones, ls);
    forall c | c in markers ensures c.Marker? {
      var n :| 0 <= n < |markers| && markers[n] == c;
    }
    forall c | c in rest ensures !c.Marker? && !c.Segment? {
      var n :| 0 <= n < |rest| && rest[n] == c;
    }
  }

  /**
   * The layout of one call's log: first the markers of the kept entries, in
   * order, then the segments (all in style `ls`), then the decorations.
   */
  lemma CallsLayout<C>(entries: seq<Entry<C>>, ms: MarkerStyle, ls: LineStyle,
                       title: Option<string>, invertY: bool)
    ensures var calls, kps := SkeletonCalls(entries, ms, ls, title, invertY), FilterKeypoints(entries);
      var segs, deco := Bones(kps, Connections, ls), Decorations<C>(title, invertY);
      && |calls| == |kps| + |segs| + |deco|
      && (forall n :: 0 <= n < |kps| ==> calls[n] == Marker(kps[n].name, kps[n].x, kps[n].y, ms))
      && (forall n :: |kps| <= n < |kps| + |segs| ==>
            calls[n] == segs[n - |kps|] && calls[n].Segment? && calls[n].lineStyle == ls)
      && (forall n :: |kps| + |segs| <= n < |calls| ==> !calls[n].Marker? && !calls[n].Segment?)
  {
    var kps := FilterKeypoints(entries);
    DecorationsArePlain<C>(title, invertY);
    LogLayout(kps, Connections, ms, ls, Decorations<C>(title, invertY));
  }

  /** The segments of one call's log are the bone loop's, and its markers the marker loop's. */
  lemma CallsMembers<C>(entries: seq<Entry<C>>, ms: MarkerStyle, ls: LineStyle,
                        title: Option<string>, invertY: bool)
    ensures var calls, kps := SkeletonCalls(entries, ms, ls, title, invertY), FilterKeypoints(entries);
      var segs, markers := Bones(kps, Connections, ls), Markers(kps, ms);
      && (forall c :: c in calls && c.Segment? ==> c in segs)
      && (forall c :: c in segs ==> c in calls)
      && (forall c :: c in calls && c.Marker? ==> c in markers)
  {
    var kps := FilterKeypoints(entries);
    DecorationsArePlain<C>(title, invertY);
    LogMembers(kps, Connections, ms, ls, Decorations<C>(title, invertY));
  }

  // ---------------------------------------------------------------------------
  // Properties of one call
  // ---------------------------------------------------------------------------

  /**
   * Markers: the first calls are one marker per kept entry, in input order,
   * at that entry's `(x, y)`; no later call is a marker. A marker appears for
   * an entry exactly when its value is a two-element list, and every marker
   * is an entry `key: [x, y]` of the input.
   */
  lemma MarkersAreKeptEntries<C>(entries: seq<Entry<C>>, ms: MarkerStyle, ls: LineStyle,
                                 title: Option<string>, invertY: bool)
    ensures var calls, kps := SkeletonCalls(entries, ms, ls, title, invertY), FilterKeypoints(entries);
      && |kps| <= |calls|
      && (forall i :: 0 <= i < |kps| ==> calls[i] == Marker(kps[i].name, kps[i].x, kps[i].y, ms))
      && (forall i :: |kps| <= i < |calls| ==> !calls[i].Marker?)
    ensures var calls := SkeletonCalls(entries, ms, ls, title, invertY);
      && (forall i :: 0 <= i < |entries| && IsKeypointValue(entries[i].1) ==>
            Marker(entries[i].0, entries[i].1.items[0], entries[i].1.items[1], ms) in calls)
      && (forall c :: c in calls && c.Marker? ==>
            (c.key, List([c.x, c.y])) in entries && c.markerStyle == ms)
  {
    var kps := FilterKeypoints(entries);
    var calls := SkeletonCalls(entries, ms, ls, title, invertY);
    CallsLayout(entries, ms, ls, title, invertY);
    CallsMembers(entries, ms, ls, title, invertY);
    MarkersAt(kps, ms);
    forall i | 0 <= i < |entries| && IsKeypointValue(entries[i].1)
      ensures Marker(entries[i].0, entries[i].1.items[0], entries[i].1.items[1], ms) in calls
    {
      var p := Keypoint(entries[i].0, entries[i].1.items[0], entries[i].1.items[1]);
      var j :| 0 <= j < |kps| && kps[j] == p;
      assert calls[j] == Marker(p.name, p.x, p.y, ms);
    }
    forall c | c in calls && c.Marker?
      ensures (c.key, List([c.x, c.y])) in entries && c.markerStyle == ms
    {
      var markers := Markers(kps, ms);
      var n :| 0 <= n < |markers| && markers[n] == c;
      assert c == Marker(kps[n].name, kps[n].x, kps[n].y, ms);
    }
  }

  /** Every segment of a call is the segment of a bone of the topology with both ends kept. */
  lemma SegmentsAreBones<C>(entries: seq<Entry<C>>, ms: MarkerStyle, ls: LineStyle,
                            title: Option<string>, invertY: bool)
    ensures var calls, kps := SkeletonCalls(entries, ms, ls, title, invertY), FilterKeypoints(entries);
      forall c :: c in calls && c.Segment? ==>
        && (c.joint1, c.joint2) in Connections && BothKept(kps, (c.joint1, c.joint2))
        && c == SegmentFor(kps, (c.joint1, c.joint2), ls)
  {
    var kps := FilterKeypoints(entries);
    var calls := SkeletonCalls(entries, ms, ls, title, invertY);
    CallsMembers(entries, ms, ls, title, invertY);
    BonesMembers(kps, Connections, ls);
  }

  /**
   * Every segment runs from `keypoints[j1]` to `keypoints[j2]`: its two
   * points are the two-element lists the input holds for its two joints.
   */
  lemma SegmentEndpoints<C>(entries: seq<Entry<C>>, ms: MarkerStyle, ls: LineStyle,
                            title: Option<string>, invertY: bool)
    requires DistinctKeys(entries)
    ensures var calls := SkeletonCalls(entries, ms, ls, title, invertY);
      forall c :: c in calls && c.Segment? ==>
        && (c.joint1, c.joint2) in Connections
        && |c.xs| == 2 && |c.ys| == 2
        && Get(entries, c.joint1) == Some(List([c.xs[0], c.ys[0]]))
        && Get(entries, c.joint2) == Some(List([c.xs[1], c.ys[1]]))
        && c.lineStyle == ls
  {
    var calls := SkeletonCalls(entries, ms, ls, title, invertY);
    SegmentsAreBones(entries, ms, ls, title, invertY);
    forall c | c in calls && c.Segment?
      ensures |c.xs| == 2 && |c.ys| == 2
      ensures Get(entries, c.joint1) == Some(List([c.xs[0], c.ys[0]]))
      ensures Get(entries, c.joint2) == Some(List([c.xs[1], c.ys[1]]))
    {
      LookupFiltered(entries, c.joint1);
      LookupFiltered(entries, c.joint2);
    }
  }

  /** The segment of every topology bone with both ends kept is in the log. */
  lemma SegmentDrawnWhenKept<C>(entries: seq<Entry<C>>, ms: MarkerStyle, ls: LineStyle,
                                title: Option<string>, invertY: bool, t: int)
    requires 0 <= t < |Connections| && BothKept(FilterKeypoints(entries), Connections[t])
    ensures SegmentFor(FilterKeypoints(entries), Connections[t], ls) in SkeletonCalls(entries, ms, ls, title, invertY)
  {
    var kps := FilterKeypoints(entries);
    BonesComplete(kps, Connections, ls, t);
    CallsMembers(entries, ms, ls, title, invertY);
  }

  /**
   * The segment of bone `(j1, j2)` is drawn exactly when the bone is in the
   * topology and both `j1` and `j2` are kept.
   */
  lemma SegmentDrawnIffBothKept<C>(entries: seq<Entry<C>>, ms: MarkerStyle, ls: LineStyle,
                                   title: Option<string>, invertY: bool, j1: string, j2: string)
    requires DistinctKeys(entries)
    ensures var calls := SkeletonCalls(entries, ms, ls, title, invertY);
      (exists c :: c in calls && c.Segment? && c.joint1 == j1 && c.joint2 == j2)
      <==> (j1, j2) in Connections && Kept(entries, j1) && Kept(entries, j2)
  {
    var kps := FilterKeypoints(entries);
    LookupFiltered(entries, j1);
    LookupFiltered(entries, j2);
    if (j1, j2) in Connections && Kept(entries, j1) && Kept(entries, j2) {
      var t :| 0 <= t < |Connections| && Connections[t] == (j1, j2);
      SegmentDrawnWhenKept(entries, ms, ls, title, invertY, t);
    } else {
      SegmentsAreBones(entries, ms, ls, title, invertY);
    }
  }

  /**
   * A key outside the 29 joint names is never an end of a segment, even when
   * its value is a valid two-element list (it is still marked).
   */
  lemma UnknownKeysNeverJoined<C>(entries: seq<Entry<C>>, ms: MarkerStyle, ls: LineStyle,
                                  title: Option<string>, invertY: bool, key: string)
    requires key !in JointNames
    ensures forall c :: c in SkeletonCalls(entries, ms, ls, title, invertY) && c.Segment? ==>
              c.joint1 != key && c.joint2 != key
  {
    SegmentsAreBones(entries, ms, ls, title, invertY);
    ConnectionsUseJointNames();
  }

  /**
   * Segments come out in topology order, at most one per bone: of two
   * segments, the earlier one's bone comes strictly earlier in the topology.
   */
  lemma SegmentsFollowTopology<C>(entries: seq<Entry<C>>, ms: MarkerStyle, ls: LineStyle,
                                  title: Option<string>, invertY: bool)
    ensures var calls := SkeletonCalls(entries, ms, ls, title, invertY);
      forall i, j :: 0 <= i < j < |calls| && calls[i].Segment? && calls[j].Segment? ==>
        0 <= IndexOf(Connections, (calls[i].joint1, calls[i].joint2))
          < IndexOf(Connections, (calls[j].joint1, calls[j].joint2))
  {
    var kps := FilterKeypoints(entries);
    var calls := SkeletonCalls(entries, ms, ls, title, invertY);
    var segs := Bones(kps, Connections, ls);
    var idx := DrawnBoneIndexes(kps, Connections);
    CallsLayout(entries, ms, ls, title, invertY);
    BonesAt(kps, Connections, ls);
    ConnectionsWellFormed();
    forall n | 0 <= n < |calls| && calls[n].Segment?
      ensures |kps| <= n < |kps| + |segs|
      ensures IndexOf(Connections, (calls[n].joint1, calls[n].joint2)) == idx[n - |kps|]
    {
      assert calls[n] == segs[n - |kps|];
      IndexOfDistinct(Connections, idx[n - |kps|]);
    }
  }

  /** An empty dictionary draws no marker and no segment; only the decorations are applied. */
  lemma EmptyInputDrawsNothing<C>(ms: MarkerStyle, ls: LineStyle, title: Option<string>, invertY: bool)
    ensures SkeletonCalls<C>([], ms, ls, title, invertY) == Decorations(title, invertY)
    ensures Drawn(SkeletonCalls<C>([], ms, ls, title, invertY)) == []
  {
    BonesOfNothing<C>(Connections, ls);
    DecorationsArePlain<C>(title, invertY);
    DrawnOfKinds(Decorations<C>(title, invertY));
  }

  /** Only the markers and segments drawn remain once the decorations of one call are dropped. */
  lemma DrawnOfCall<C>(entries: seq<Entry<C>>, ms: MarkerStyle, ls: LineStyle,
                       title: Option<string>, invertY: bool)
    ensures Drawn(SkeletonCalls(entries, ms, ls, title, invertY)) == DrawCalls(entries, ms, ls)
  {
    var kps := FilterKeypoints(entries);
    var draw := DrawCalls(entries, ms, ls);
    var deco := Decorations<C>(title, invertY);
    MarkersAt(kps, ms);
    BonesStyled(kps, Connections, ls);
    assert forall i :: 0 <= i < |draw| ==> draw[i].Marker? || draw[i].Segment? by {
      assert draw == Markers(kps, ms) + Bones(kps, Connections, ls);
    }
    DrawnOfKinds(draw);
    DecorationsArePlain<C>(title, invertY);
    DrawnOfKinds(deco);
    DrawnAppend(draw, deco);
  }

  /**
   * `title` and `invert_y` only add decorations after the drawing: the
   * markers and segments drawn are the same whatever their values.
   */
  lemma DecorationsDoNotChangeDrawing<C>(entries: seq<Entry<C>>, ms: MarkerStyle, ls: LineStyle,
                                         title1: Option<string>, invertY1: bool,
                                         title2: Option<string>, invertY2: bool)
    ensures Drawn(SkeletonCalls(entries, ms, ls, title1, invertY1))
         == Drawn(SkeletonCalls(entries, ms, ls, title2, invertY2))
         == DrawCalls(entries, ms, ls)
  {
    DrawnOfCall(entries, ms, ls, title1, invertY1);
    DrawnOfCall(entries, ms, ls, title2, invertY2);
  }

  /** Restyling the bone loop's output gives the bone loop's output in the new style. */
  lemma {:induction false} RestyleBones<C>(kps: seq<Keypoint<C>>, bones: seq<Bone>,
                                           ms: MarkerStyle, ls1: LineStyle, ls2: LineStyle)
    ensures |Bones(kps, bones, ls1)| == |Bones(kps, bones, ls2)|
    ensures forall i :: 0 <= i < |Bones(kps, bones, ls1)| ==>
              RestyleCall(Bones(kps, bones, ls1)[i], ms, ls2) == Bones(kps, bones, ls2)[i]
  {
    if bones != [] {
      RestyleBones(kps, bones[..|bones| - 1], ms, ls1, ls2);
    }
  }

  /**
   * The style is all that the style arguments change: restyling the calls of
   * one style gives exactly the calls of another. In particular
   * `plot_skeleton_custom` draws the same markers and segments as
   * `plot_skeleton`, in its own colour and marker.
   */
  lemma StyleOnlyChangesStyle<C>(entries: seq<Entry<C>>, ms1: MarkerStyle, ls1: LineStyle,
                                 ms2: MarkerStyle, ls2: LineStyle, title: Option<string>, invertY: bool)
    ensures Restyle(SkeletonCalls(entries, ms1, ls1, title, invertY), ms2, ls2)
         == SkeletonCalls(entries, ms2, ls2, title, invertY)
  {
    var kps := FilterKeypoints(entries);
    var a := SkeletonCalls(entries, ms1, ls1, title, invertY);
    var b := SkeletonCalls(entries, ms2, ls2, title, invertY);
    var segs1, segs2 := Bones(kps, Connections, ls1), Bones(kps, Connections, ls2);
    var deco := Decorations<C>(title, invertY);
    MarkersAt(kps, ms1);
    MarkersAt(kps, ms2);
    RestyleBones(kps, Connections, ms2, ls1, ls2);
    DecorationsArePlain<C>(title, invertY);
    assert a == Markers(kps, ms1) + segs1 + deco;
    assert b == Markers(kps, ms2) + segs2 + deco;
    forall n | 0 <= n < |a| ensures RestyleCall(a[n], ms2, ls2) == b[n] {
      if n < |kps| {
      } else if n < |kps| + |segs1| {
        assert a[n] == segs1[n - |kps|] && b[n] == segs2[n - |kps|];
      } else {
        assert a[n] == deco[n - |kps| - |segs1|] == b[n];
      }
    }
  }

  /** In both variants, every marker is on layer 5 and every segment on layer 1, so markers sit above segments. */
  lemma MarkersAboveSegments<C>(entries: seq<Entry<C>>, color: Color, marker: string,
                                title: Option<string>, invertY: bool)
    ensures var calls := SkeletonCalls(entries, BaseMarkerStyle, BaseLineStyle, title, invertY);
      && (forall c :: c in calls && c.Marker? ==> c.markerStyle.zorder == 5)
      && (forall d :: d in calls && d.Segment? ==> d.lineStyle.zorder == 1)
    ensures var calls := SkeletonCalls(entries, CustomMarkerStyle(color, marker), CustomLineStyle(color), title, invertY);
      && (forall c :: c in calls && c.Marker? ==> c.markerStyle.zorder == 5)
      && (forall d :: d in calls && d.Segment? ==> d.lineStyle.zorder == 1)
  {
    MarkersAreKeptEntries(entries, BaseMarkerStyle, BaseLineStyle, title, invertY);
    SegmentsAreBones(entries, BaseMarkerStyle, BaseLineStyle, title, invertY);
    MarkersAreKeptEntries(entries, CustomMarkerStyle(color, marker), CustomLineStyle(color), title, invertY);
    SegmentsAreBones(entries, CustomMarkerStyle(color, marker), CustomLineStyle(color), title, invertY);
  }

  /**
   * With `LeftHand` and `LeftFinger` kept and `LeftForearm` not, the bone
   * `LeftForearm-LeftHand` is not drawn and `LeftHand-LeftFinger` is.
   */
  lemma HandWithoutForearm<C>(entries: seq<Entry<C>>, ms: MarkerStyle, ls: LineStyle,
                              title: Option<string>, invertY: bool)
    requires DistinctKeys(entries)
    requires Kept(entries, "LeftHand") && Kept(entries, "LeftFinger") && !Kept(entries, "LeftForearm")
    ensures var calls := SkeletonCalls(entries, ms, ls, title, invertY);
      && !(exists c :: c in calls && c.Segment? && c.joint1 == "LeftForearm" && c.joint2 == "LeftHand")
      && (exists c :: c in calls && c.Segment? && c.joint1 == "LeftHand" && c.joint2 == "LeftFinger")
  {
    assert ("LeftHand", "LeftFinger") in Connections by {
      assert Connections[19] == ("LeftHand", "LeftFinger");
    }
    SegmentDrawnIffBothKept(entries, ms, ls, title, invertY, "LeftForearm", "LeftHand");
    SegmentDrawnIffBothKept(entries, ms, ls, title, invertY, "LeftHand", "LeftFinger");
  }

  /** Only the first bone has both ends among `Head` and `Neck`. */
  lemma OnlyFirstBoneWithinHeadNeck()
    ensures forall t :: 1 <= t < |Connections| ==>
              (Connections[t].0 != "Head" && Connections[t].0 != "Neck")
              || (Connections[t].1 != "Head" && Connections[t].1 != "Neck")
  {
  }

  /** Filtering `{"Head": [hx, hy], "Neck": [nx, ny], "garbage": [g1, g2, g3]}` keeps Head and Neck. */
  lemma HeadNeckFiltered<C>(hx: C, hy: C, nx: C, ny: C, g1: C, g2: C, g3: C)
    ensures var entries := [("Head", List([hx, hy])), ("Neck", List([nx, ny])), ("garbage", List([g1, g2, g3]))];
      FilterKeypoints(entries) == [Keypoint("Head", hx, hy), Keypoint("Neck", nx, ny)]
  {
    var entries := [("Head", List([hx, hy])), ("Neck", List([nx, ny])), ("garbage", List([g1, g2, g3]))];
    assert FilterKeypoints(entries[2..]) == [] by {
      assert entries[2..][1..] == [];
    }
    assert FilterKeypoints(entries[1..]) == [Keypoint("Neck", nx, ny)] by {
      assert entries[1..][1..] == entries[2..];
    }
  }

  /**
   * The input `{"Head": [hx, hy], "Neck": [nx, ny], "garbage": [g1, g2, g3]}`
   * gives two markers (Head, Neck), the one segment Head-Neck, and the
   * decorations; the three-element list is dropped.
   */
  lemma HeadNeckWithMalformedEntry<C>(hx: C, hy: C, nx: C, ny: C, g1: C, g2: C, g3: C)
    ensures var entries := [("Head", List([hx, hy])), ("Neck", List([nx, ny])), ("garbage", List([g1, g2, g3]))];
      SkeletonCalls(entries, BaseMarkerStyle, BaseLineStyle, None, false)
      == [ Marker("Head", hx, hy, BaseMarkerStyle), Marker("Neck", nx, ny, BaseMarkerStyle),
           Segment("Head", "Neck", [hx, nx], [hy, ny], BaseLineStyle),
           XLabel("X"), YLabel("Y"), Aspect("equal"), GridLines(true, "--") ]
  {
    var kps := [Keypoint("Head", hx, hy), Keypoint("Neck", nx, ny)];
    HeadNeckFiltered(hx, hy, nx, ny, g1, g2, g3);
    var seg := Segment("Head", "Neck", [hx, nx], [hy, ny], BaseLineStyle);
    assert Bones(kps, Connections, BaseLineStyle) == [seg] by {
      OnlyFirstBoneWithinHeadNeck();
      forall name | Lookup(kps, name).Some? ensures name == "Head" || name == "Neck" {
      }
      assert Connections[0] == ("Head", "Neck");
      BonesOnlyFirst(kps, Connections, BaseLineStyle);
    }
    assert Markers(kps, BaseMarkerStyle)
        == [Marker("Head", hx, hy, BaseMarkerStyle), Marker("Neck", nx, ny, BaseMarkerStyle)] by {
      MarkersAt(kps, BaseMarkerStyle);
    }
  }

  // ---------------------------------------------------------------------------
  // The drawing loops and the two entry points
  // ---------------------------------------------------------------------------

  /** The marker loop (utils.py:68-69, utils.py:166-167). */
  method DrawKeypoints<C>(ax: Axes<C>, kps: seq<Keypoint<C>>, style: MarkerStyle)
    modifies ax
    ensures ax.log == old(ax.log) + Markers(kps, style)
  {
    for i := 0 to |kps|
      invariant ax.log == old(ax.log) + Markers(kps[..i], style)
    {
      assert kps[..i + 1][..i] == kps[..i];
      ax.Scatter(kps[i].name, kps[i].x, kps[i].y, style);
    }
    assert kps[..|kps|] == kps;
  }

  /** The bone loop over the list of bones (utils.py:74-78, utils.py:172-176). */
  method DrawBones<C>(ax: Axes<C>, kps: seq<Keypoint<C>>, bones: seq<Bone>, style: LineStyle)
    modifies ax
    ensures ax.log == old(ax.log) + Bones(kps, bones, style)
  {
    for t := 0 to |bones|
      invariant ax.log == old(ax.log) + Bones(kps, bones[..t], style)
    {
      assert bones[..t + 1][..t] == bones[..t];
      var (joint1, joint2) := bones[t];
      var p1 := Lookup(kps, joint1);
      var p2 := Lookup(kps, joint2);
      if p1.Some? && p2.Some? {
        ax.Plot(joint1, joint2, [p1.value.0, p2.value.0], [p1.value.1, p2.value.1], style);
      }
    }
    assert bones[..|bones|] == bones;
  }

  /** The decorations applied after drawing (utils.py:81-88, utils.py:179-186). */
  method Decorate<C>(ax: Axes<C>, title: Option<string>, invertY: bool)
    modifies ax
    ensures ax.log == old(ax.log) + Decorations(title, invertY)
  {
    if Truthy(title) {
      ax.SetTitle(title.value);
    }
    ax.SetXLabel("X");
    ax.SetYLabel("Y");
    ax.SetAspect("equal");
    if invertY {
      ax.InvertYAxis();
    }
    ax.Grid(true, "--");
  }

  /**
   * Filtering, the marker loop, the bone loop and the decorations, on one
   * axes (utils.py:65-88, utils.py:163-186).
   */
  method DrawSkeleton<C>(ax: Axes<C>, kps2d: seq<Entry<C>>, ms: MarkerStyle, ls: LineStyle,
                         title: Option<string>, invertY: bool)
    modifies ax
    ensures ax.log == old(ax.log) + SkeletonCalls(kps2d, ms, ls, title, invertY)
  {
    var keypoints := FilterKeypoints(kps2d);
    ghost var markers, segs := Markers(keypoints, ms), Bones(keypoints, Connections, ls);
    ghost var deco := Decorations<C>(title, invertY);
    DrawKeypoints(ax, keypoints, ms);
    DrawBones(ax, keypoints, Connections, ls);
    Decorate(ax, title, invertY);
    assert ax.log == old(ax.log) + markers + segs + deco;
    AppendFour(old(ax.log), markers, segs, deco);
  }

  /**
   * The body shared by both entry points, for given marker and line styles.
   * It draws on `ax`, or on a new 8x8 figure when `ax` is null. A truthy
   * `savePath` raises NameError after the layout pass, so `show` is then
   * never reached; `result` is the axes that was drawn on either way.
   */
  method PlotSkeletonStyled<C>(plt: Pyplot, kps2d: seq<Entry<C>>, ax: Axes?<C>, title: Option<string>,
                               show: bool, savePath: Option<string>, invertY: bool,
                               ms: MarkerStyle, ls: LineStyle)
    returns (result: Axes<C>, error: Option<PyError>)
    modifies plt, ax
    ensures ax != null ==> result == ax && result.log == old(ax.log) + SkeletonCalls(kps2d, ms, ls, title, invertY)
    ensures ax == null ==> fresh(result) && result.log == SkeletonCalls(kps2d, ms, ls, title, invertY)
    ensures error == if Truthy(savePath) then Some(NameError("os")) else None
    ensures plt.calls == old(plt.calls)
                         + (if ax == null then [NewFigure(8, 8)] else [])
                         + [LaidOut]
                         + (if error.None? && show then [Shown] else [])
  {
    if ax == null {
      result := plt.Subplots(8, 8);
    } else {
      result := ax;
    }
    DrawSkeleton(result, kps2d, ms, ls, title, invertY);
    plt.TightLayout();
    if Truthy(savePath) {
      error := Some(NameError("os"));
    } else {
      error := None;
      if show {
        plt.Show();
      }
    }
  }

  /** `plot_skeleton`: red markers and blue lines. */
  method PlotSkeleton<C>(plt: Pyplot, kps2d: seq<Entry<C>>, ax: Axes?<C> := null, title: Option<string> := None,
                         show: bool := true, savePath: Option<string> := None, invertY: bool := false)
    returns (result: Axes<C>, error: Option<PyError>)
    modifies plt, ax
    ensures ax != null ==>
              result == ax && result.log == old(ax.log) + SkeletonCalls(kps2d, BaseMarkerStyle, BaseLineStyle, title, invertY)
    ensures ax == null ==>
              fresh(result) && result.log == SkeletonCalls(kps2d, BaseMarkerStyle, BaseLineStyle, title, invertY)
    ensures error == if Truthy(savePath) then Some(NameError("os")) else None
    ensures plt.calls == old(plt.calls)
                         + (if ax == null then [NewFigure(8, 8)] else [])
                         + [LaidOut]
                         + (if error.None? && show then [Shown] else [])
  {
    result, error := PlotSkeletonStyled(plt, kps2d, ax, title, show, savePath, invertY,
                                        BaseMarkerStyle, BaseLineStyle);
  }

  /** `plot_skeleton_custom`: markers and lines in the caller's colour, markers in the caller's shape. */
  method PlotSkeletonCustom<C>(plt: Pyplot, kps2d: seq<Entry<C>>, ax: Axes?<C> := null, title: Option<string> := None,
                               show: bool := true, savePath: Option<string> := None,
                               color: Color := Named("red"), marker: string := "o", invertY: bool := false)
    returns (result: Axes<C>, error: Option<PyError>)
    modifies plt, ax
    ensures ax != null ==>
              result == ax
              && result.log == old(ax.log)
                               + SkeletonCalls(kps2d, CustomMarkerStyle(color, marker), CustomLineStyle(color), title, invertY)
    ensures ax == null ==>
              fresh(result)
              && result.log == SkeletonCalls(kps2d, CustomMarkerStyle(color, marker), CustomLineStyle(color), title, invertY)
    ensures error == if Truthy(savePath) then Some(NameError("os")) else None
    ensures plt.calls == old(plt.calls)
                         + (if ax == null then [NewFigure(8, 8)] else [])
                         + [LaidOut]
                         + (if error.None? && show then [Shown] else [])
  {
    result, error := PlotSkeletonStyled(plt, kps2d, ax, title, show, savePath, invertY,
                                        CustomMarkerStyle(color, marker), CustomLineStyle(color));
  }
}
