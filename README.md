# Skeleton plot: what gets drawn

This project models the decision logic of `plot_skeleton` and
`plot_skeleton_custom` in `utils.py` of the Affine-Transformation repository.
Both render a 2D human-pose skeleton with matplotlib from a dictionary of
named keypoints. They do three things:

1. **Filter.** Keep the entries of `kps_2d` whose value is a Python `list` of
   length exactly 2. Everything else is dropped silently: tuples, lists of
   other lengths and non-lists. The filter looks neither at the key nor at
   the list's elements.
2. **Markers.** Call `ax.scatter(x, y, ...)` once per kept entry, in
   dictionary order, on layer (zorder) 5.
3. **Bones.** Walk the fixed list of 28 joint-name pairs (the topology). For
   each pair whose two names are both kept, call `ax.plot([x1, x2], [y1, y2], ...)`
   on layer 1.

After that they set the title (when truthy), the axis labels, equal aspect,
optional y-axis inversion and a dashed grid. They then run `plt.tight_layout()`,
then reach the save branch, which as written raises `NameError` whenever
`save_path` is truthy; otherwise they optionally show and return the axes.

The model is in five files:

- `topology.dfy` (module `Topology`): the 28 bones as a constant, and their
  shape: distinct, no self-loops, spanning 29 joint names.
- `keypoints.dfy` (module `Keypoints`): dictionary values, the filter as a
  function, and lookups on its result.
- `canvas.dfy` (module `Canvas`): the matplotlib surface. An `Axes` class
  records each call made on it in a `log`. A `Pyplot` class records
  `subplots`, `tight_layout` and `show`. Style arguments are kept as plain
  values; a colour is a name or an RGB(A) tuple (`Color`).
- `skeleton.dfy` (module `Skeleton`): the specification functions
  (`Markers`, `Bones`, `Decorations`, `SkeletonCalls`), the loops as methods
  appending to the log, both entry points, and the lemmas.
- `wrappers.dfy` (module `Wrappers`): an `Option` type.

Dictionaries are sequences of `(key, value)` pairs in insertion order. Distinct
keys are required only by the properties that look a key up. Values are `List(items) | Tuple(items) | Other`. The element
type `C` is a type parameter, so nothing in the model can depend on the
elements. No arithmetic is done on coordinates.

Where a reader's expectations and the code differ, the model follows the code:

- Any key whose value is a two-element list is marked, even one that is not a
  joint name. Such a key is never an end of a segment (`UnknownKeysNeverJoined`).
- Element types are not checked. `["a", None]` passes the filter.
- `os` is never imported (utils.py:1-5). So a truthy `save_path` raises
  `NameError` at `os.makedirs` (utils.py:95). This happens after drawing and
  `tight_layout`, and `plt.show()` is then never reached. The model returns
  `Some(NameError("os"))` in that case. Saving never succeeds.

The two styles:

| variant | marker call | line call |
|---|---|---|
| `plot_skeleton` | `color='red'`, default marker `"o"`, zorder 5 | format `'b-'` (colour `"b"`, style `"-"`), linewidth 2, zorder 1 |
| `plot_skeleton_custom` | `color=color`, `marker=marker`, zorder 5 | `color=color`, default style `"-"`, linewidth 2, zorder 1 |

## Model

| member | source | states |
|---|---|---|
| Topology.Connections | utils.py:27-56 | The 28 joint-name pairs of `skeleton_connections`, in source order; `plot_skeleton_custom` defines the identical list (utils.py:125-154). |
| Topology.ConnectionsShape | utils.py:27-56 | The topology has 28 bones, all distinct, none joining a joint to itself. The joint names they mention are exactly the 29-name set. |
| Topology.ConnectionsWellFormed | utils.py:27-56 | 28 bones, pairwise distinct, no self-loops. |
| Topology.ConnectionsUseJointNames | utils.py:27-56 | Both ends of every bone are among the 29 joint names. |
| Topology.ConnectionsSpanJointNames | utils.py:27-56 | Each of the 29 joint names is an end of some bone. |
| Topology.JointNamesCount | utils.py:27-56 | There are exactly 29 distinct joint names. |
| Keypoints.IsKeypointValue | utils.py:65 | The filter's test `isinstance(v, list) and len(v) == 2`: a list of exactly two elements passes; a tuple, a list of any other length, or any other value does not. |
| Keypoints.FilterKeypoints | utils.py:65 | Every entry whose value is a two-element list is kept, with its `(x, y)`. Every kept keypoint is an entry `k: [x, y]` of the input. Nothing else is kept, whatever the key or the element types. |
| Keypoints.FilterAppend | utils.py:65 | The filter works entry by entry: filtering `a + b` gives filter(a) followed by filter(b). So kept entries stay in input order. |
| Keypoints.FilterDistinct | utils.py:65 | The filtered dictionary has distinct keys when the input does. |
| Keypoints.Lookup | utils.py:75-77 | `name in keypoints` holds exactly when some keypoint has that name. `keypoints[name]` is the point of such a keypoint. |
| Keypoints.LookupFiltered | utils.py:65-77 | On a dictionary, `joint in keypoints` holds exactly when the input has `joint` with a two-element list value. `keypoints[joint]` is that list's `(x, y)`. |
| Canvas.Axes.constructor | utils.py:60 | A new axes has an empty log. |
| Canvas.Axes.Scatter | utils.py:69 | `ax.scatter` appends exactly one marker record to the log. |
| Canvas.Axes.Plot | utils.py:78 | `ax.plot` appends exactly one segment record to the log. |
| Canvas.Axes.SetTitle | utils.py:82 | `ax.set_title` appends one title record. |
| Canvas.Axes.SetXLabel | utils.py:83 | `ax.set_xlabel` appends one label record. |
| Canvas.Axes.SetYLabel | utils.py:84 | `ax.set_ylabel` appends one label record. |
| Canvas.Axes.SetAspect | utils.py:85 | `ax.set_aspect` appends one aspect record. |
| Canvas.Axes.InvertYAxis | utils.py:87 | `ax.invert_yaxis` appends one inversion record. |
| Canvas.Axes.Grid | utils.py:88 | `ax.grid` appends one grid record. |
| Canvas.Pyplot.Subplots | utils.py:60 | `plt.subplots(figsize=...)` returns a fresh, empty axes and records the figure size. |
| Canvas.Pyplot.TightLayout | utils.py:90 | `plt.tight_layout()` is recorded. |
| Canvas.Pyplot.Show | utils.py:103 | `plt.show()` is recorded. |
| Skeleton.Truthy | utils.py:81-93 | Python truthiness of the optional string arguments `title` (utils.py:81) and `save_path` (utils.py:93): `None` and `""` are false, every other string is true. |
| Skeleton.BaseMarkerStyle | utils.py:69 | `plot_skeleton`'s marker arguments: colour `"red"`, no marker given (matplotlib's default `"o"`), zorder 5. |
| Skeleton.BaseLineStyle | utils.py:78 | `plot_skeleton`'s line arguments: format `'b-'` (colour `"b"`, style `"-"`), linewidth 2, zorder 1. |
| Skeleton.CustomMarkerStyle | utils.py:167 | `plot_skeleton_custom`'s marker arguments: the caller's `color` and `marker`, zorder 5. |
| Skeleton.CustomLineStyle | utils.py:176 | `plot_skeleton_custom`'s line arguments: the caller's `color`, no style given (matplotlib's default `"-"`), linewidth 2, zorder 1. |
| Skeleton.MarkersAt | utils.py:68-69 | The marker loop draws exactly one marker per keypoint: the i-th marker is at the i-th keypoint's `(x, y)`. |
| Skeleton.BonesAt | utils.py:74-78 | The bone loop draws exactly the segments of the bones with both ends kept, in topology order. The i-th segment belongs to bone `idx[i]`, the positions strictly increase, and no bone with both ends kept is missed. |
| Skeleton.BonesSound | utils.py:74-78 | Every drawn segment belongs to a bone of the list with both ends kept. It runs between those two keypoints in the line style given. |
| Skeleton.BonesMembers | utils.py:74-78 | The same as `BonesSound`, for every call that is a member of the bone loop's output. |
| Skeleton.BonesStyled | utils.py:74-78 | Everything the bone loop draws is a segment in the line style given. |
| Skeleton.BonesComplete | utils.py:74-78 | Every bone with both ends kept has its segment drawn. |
| Skeleton.BonesOnlyFirst | utils.py:74-78 | If only the first bone has both ends kept, exactly its segment is drawn. |
| Skeleton.BonesOfNothing | utils.py:74-78 | With no keypoints, the bone loop draws nothing. |
| Skeleton.DecorationsArePlain | utils.py:81-88 | The decorations add no marker and no segment. |
| Skeleton.LogLayout | utils.py:65-88 | For any bone list, a log of markers, then bone-loop segments, then other calls has that layout by position: markers in keypoint order, then segments in the line style, then no marker or segment. |
| Skeleton.LogMembers | utils.py:65-88 | In such a log, the segments are exactly the bone loop's output and the markers exactly the marker loop's output. |
| Skeleton.CallsLayout | utils.py:65-88 | The log has three parts in order: the markers of the kept entries, then the segments (in the line style), then the decorations. |
| Skeleton.CallsMembers | utils.py:65-88 | In one call's log, every segment comes from the bone loop, every bone-loop segment is in the log, and every marker comes from the marker loop. |
| Skeleton.MarkersAreKeptEntries | utils.py:65-69 | The first calls are one marker per kept entry, in input order, at its `(x, y)`, and no later call is a marker. Every entry with a two-element list is marked. Every marker is an input entry `key: [x, y]` drawn in the marker style. |
| Skeleton.SegmentsAreBones | utils.py:74-78 | Every segment belongs to a topology bone whose two ends are both kept. |
| Skeleton.SegmentDrawnWhenKept | utils.py:74-78 | The segment of every topology bone whose two ends were kept is in the log. |
| Skeleton.SegmentEndpoints | utils.py:74-78 | Every segment has two points. They are `kps_2d[joint1]` and `kps_2d[joint2]`, and the segment is in the line style. |
| Skeleton.SegmentDrawnIffBothKept | utils.py:74-78 | A segment for `(j1, j2)` is drawn if and only if `(j1, j2)` is a topology bone and both `j1` and `j2` have two-element list values. |
| Skeleton.UnknownKeysNeverJoined | utils.py:27-78 | A key outside the 29 joint names is never an end of a segment. |
| Skeleton.SegmentsFollowTopology | utils.py:27-78 | Segments come out in strictly increasing topology position, so at most one segment per bone. |
| Skeleton.EmptyInputDrawsNothing | utils.py:65-88 | An empty dictionary gives no markers and no segments. Only the decorations are applied. |
| Skeleton.DrawnOfCall | utils.py:65-88 | Once the decorations are dropped from one call's log, exactly the markers and then the segments remain. |
| Skeleton.DecorationsDoNotChangeDrawing | utils.py:81-88 | `title` and `invert_y` never change which markers and segments are drawn, nor their order. |
| Skeleton.RestyleBones | utils.py:172-176 | Restyling the bone loop's output gives the bone loop's output in the other style. |
| Skeleton.StyleOnlyChangesStyle | utils.py:163-176 | Swapping the style arguments only swaps the style fields of the markers and segments. Everything else in the log is identical, so both variants draw the same skeleton. |
| Skeleton.MarkersAboveSegments | utils.py:69-78 | In both variants, every marker in the log is on layer 5 and every segment on layer 1, each stated on its own (a log with markers and no segment still has its markers on layer 5); so markers sit above segments. |
| Skeleton.HandWithoutForearm | utils.py:27-78 | With `LeftHand` and `LeftFinger` kept and `LeftForearm` not kept, `LeftForearm-LeftHand` is not drawn and `LeftHand-LeftFinger` is. |
| Skeleton.HeadNeckWithMalformedEntry | utils.py:65-88 | The input `{"Head": [..], "Neck": [..], "garbage": [a, b, c]}` gives exactly two markers, one Head-Neck segment and the decorations. |
| Skeleton.DrawKeypoints | utils.py:68-69 | The marker loop appends exactly `Markers(keypoints)` to the axes log. |
| Skeleton.DrawBones | utils.py:74-78 | The bone loop over a list of bones appends exactly `Bones(keypoints, bones)` to the axes log: one segment per bone with both ends kept, in list order. |
| Skeleton.Decorate | utils.py:81-88 | The decoration steps append exactly `Decorations(title, invert_y)`. |
| Skeleton.DrawSkeleton | utils.py:65-88 | Filter, both loops and decoration together append exactly `SkeletonCalls` to the axes log. |
| Skeleton.PlotSkeletonStyled | utils.py:58-105 | Draws on the given axes (nothing already there is erased) or on a fresh 8x8 figure. It raises `NameError` exactly when `save_path` is truthy. It calls `tight_layout` and, when no error was raised and `show` is set, `show`. |
| Skeleton.PlotSkeleton | utils.py:11-105 | `plot_skeleton`: the shared behaviour with red markers and blue `'b-'` lines. |
| Skeleton.PlotSkeletonCustom | utils.py:107-203 | `plot_skeleton_custom`: the shared behaviour with the caller's colour and marker (defaults `'red'`, `'o'`); the colour may be a name or an RGB(A) tuple. |

## Left out

- Rendering: what matplotlib puts on screen or in a file (pixels, axis limits, `plt.show()` blocking) is not modelled. Each call is a record in a log.
- Saving: `os.makedirs`, `fig.savefig` and the `print` messages (utils.py:93-100, utils.py:191-198) are not modelled. As written, the branch fails at `os.makedirs` because `os` is never imported.
- `fig = ax.figure` (utils.py:62) is not modelled, because the figure is only used for saving.
- `ax.grid(..., alpha=0.5)`: the alpha value is not recorded, because it is a float that only affects rendering.
- The commented-out `ax.text` label line (utils.py:70-71) is not code.
- The numpy, pandas, pymongo and cv2 imports are unused by this logic.
- Dictionary keys that are not strings are not modelled. Such a key can never equal a joint name, so it behaves like an unknown key.
- Subclasses of `list` (which `isinstance` also accepts) are not distinguished from `list`.
- What matplotlib does with non-numeric elements is not modelled: strings are plotted as categories, and other values may raise inside `scatter` or `plot` and end the loops early.
- Skeleton.PlotSkeletonStyled: when `NameError` is raised, Python returns nothing. The model still returns the axes that was drawn on, next to the error, so that the drawing done before the raise can be stated.
- Skeleton.PlotSkeleton: inherits the same weakening (it returns the axes next to the error).
- Skeleton.PlotSkeletonCustom: inherits the same weakening (it returns the axes next to the error).
