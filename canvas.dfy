/**
 * The part of matplotlib the skeleton plot talks to, reduced to the calls it
 * makes. An `Axes` records every call made on it, in order, and `Pyplot`
 * records the calls made on the `plt` module itself; what those calls put on
 * the screen or in a file is not modelled.
 */
module Canvas {

  /**
   * A matplotlib colour argument: a name or format letter such as `'red'` or
   * `'b'`, or an RGB or RGBA tuple of components such as `(1.0, 0.0, 0.0)`.
   */
  datatype Color = Named(name: string) | Rgb(components: seq<real>)

  /** The style arguments of `ax.scatter`: colour, marker shape and stacking order. */
  datatype MarkerStyle = MarkerStyle(color: Color, marker: string, zorder: int)

  /** The style arguments of `ax.plot`: colour, line style, line width and stacking order. */
  datatype LineStyle = LineStyle(color: Color, linestyle: string, linewidth: int, zorder: int)

  /**
   * One call on an axes object. `Marker` is `ax.scatter(x, y, ...)` and
   * `Segment` is `ax.plot(xs, ys, ...)`; the key and joint names they carry
   * label the record only (matplotlib is not given them).
   */
  datatype AxesCall<C> =
    | Marker(key: string, x: C, y: C, markerStyle: MarkerStyle)
    | Segment(joint1: string, joint2: string, xs: seq<C>, ys: seq<C>, lineStyle: LineStyle)
    | Title(title: string)
    | XLabel(xlabel: string)
    | YLabel(ylabel: string)
    | Aspect(aspect: string)
    | InvertedY
    | GridLines(visible: bool, gridStyle: string)

  /** One call on the `plt` module: `plt.subplots(figsize=...)`, `plt.tight_layout()`, `plt.show()`. */
  datatype PyplotCall = NewFigure(width: int, height: int) | LaidOut | Shown

  /** A matplotlib axes, seen as the sequence of calls made on it. */
  class Axes<C> {
    var log: seq<AxesCall<C>>

    /** A fresh axes has nothing drawn on it. */
    constructor ()
      ensures log == []
    {
      log := [];
    }

    method Scatter(key: string, x: C, y: C, style: MarkerStyle)
      modifies this
      ensures log == old(log) + [Marker(key, x, y, style)]
    {
      log := log + [Marker(key, x, y, style)];
    }

    method Plot(joint1: string, joint2: string, xs: seq<C>, ys: seq<C>, style: LineStyle)
      modifies this
      ensures log == old(log) + [Segment(joint1, joint2, xs, ys, style)]
    {
      log := log + [Segment(joint1, joint2, xs, ys, style)];
    }

    method SetTitle(title: string)
      modifies this
      ensures log == old(log) + [Title(title)]
    {
      log := log + [Title(title)];
    }

    method SetXLabel(text: string)
      modifies this
      ensures log == old(log) + [XLabel(text)]
    {
      log := log + [XLabel(text)];
    }

    method SetYLabel(text: string)
      modifies this
      ensures log == old(log) + [YLabel(text)]
    {
      log := log + [YLabel(text)];
    }

    method SetAspect(aspect: string)
      modifies this
      ensures log == old(log) + [Aspect(aspect)]
    {
      log := log + [Aspect(aspect)];
    }

    method InvertYAxis()
      modifies this
      ensures log == old(log) + [InvertedY]
    {
      log := log + [InvertedY];
    }

    method Grid(visible: bool, linestyle: string)
      modifies this
      ensures log == old(log) + [GridLines(visible, linestyle)]
    {
      log := log + [GridLines(visible, linestyle)];
    }
  }

  /** The `plt` module, seen as the sequence of calls made on it. */
  class Pyplot {
    var calls: seq<PyplotCall>

    constructor ()
      ensures calls == []
    {
      calls := [];
    }

    /** `fig, ax = plt.subplots(figsize=(width, height))`: a new, empty axes. */
    method Subplots<C>(width: int, height: int) returns (ax: Axes<C>)
      modifies this
      ensures fresh(ax) && ax.log == []
      ensures calls == old(calls) + [NewFigure(width, height)]
    {
      ax := new Axes();
      calls := calls + [NewFigure(width, height)];
    }

    method TightLayout()
      modifies this
      ensures calls == old(calls) + [LaidOut]
    {
      calls := calls + [LaidOut];
    }

    method Show()
      modifies this
      ensures calls == old(calls) + [Shown]
    {
      calls := calls + [Shown];
    }
  }
}
