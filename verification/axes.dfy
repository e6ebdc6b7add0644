/**
 * The part of a matplotlib Axes that the core sets, as a value. Each
 * plotting routine of the core takes an Axes and returns the Axes it leaves
 * behind; drawing calls append an Artist record.
 */
module Axes {
  import opened Wrappers
  import opened Json

  /** What one drawing call leaves on an axes. */
  datatype Artist =
    | Line(xs: seq<JsonValue>, ys: seq<real>, color: string, legend: string)     // axes.plot(xs, ys, color=, label=)
    | Band(x0: real, x1: real, y1: real, y2: real, fill: JsonValue)              // axes.fill_between([x0, x1], y1, y2, color=)
    | Annotation(text: JsonValue, x: real, y: real, fontSize: nat)               // axes.annotate(text=, xy=(x, y), fontsize=)
    | HLine(y: real, color: string, lineStyle: string, legend: string)           // axes.axhline(y=, color=, linestyle=, label=)

  /**
   * The settings the core changes. Nothing sets the y limits, so each
   * `invert_yaxis` call flips the y direction: the number of calls is kept
   * and its parity is the direction. The x direction is kept as such:
   * `set_xlim(lo, hi)` sets it (inverted exactly when lo > hi) and
   * `invert_xaxis` flips it.
   */
  datatype Axes = Axes(
    xTicksTop: bool,                 // xaxis.set_ticks_position("top")
    xLabelTop: bool,                 // xaxis.set_label_position("top")
    topSpine: Option<real>,          // spines["top"].set_position(("axes", p))
    xLim: Option<(real, real)>,      // set_xlim(lo, hi), as passed
    xLabel: string,                  // set_xlabel(...)
    xLabelColor: string,             // xaxis.label.set_color(...)
    xInverted: bool,                 // x direction: set_xlim, invert_xaxis()
    yInvertCalls: nat,               // invert_yaxis()
    xTickLabelsCleared: bool,        // set_xticklabels([])
    majorXTicks: Option<PyRange>,    // set_xticks(ticks)
    minorXTicks: Option<PyRange>,    // set_xticks(ticks, minor=True)
    artists: seq<Artist>)

  /** A Python `range` object: `range(start, stop, step)`. */
  datatype PyRange = PyRange(start: int, stop: int, step: int)

  /** An Axes as `plt.subplots()` or `twiny()` creates it. */
  const NewAxes := Axes(false, false, None, None, "", "", false, 0, false, None, None, [])

  /** The axes passed in, or a fresh one when the caller passed None. */
  function OrNew(axes: Option<Axes>): Axes {
    if axes.Some? then axes.value else NewAxes
  }

  /** Python's `range(start, stop, step)` for a positive step. */
  function Range(start: int, stop: int, step: int): (r: seq<int>)
    requires step > 0
    ensures r == [] <==> stop <= start
    ensures r != [] ==> r[0] == start && r[|r| - 1] < stop <= r[|r| - 1] + step
    ensures forall k | 0 < k < |r| :: r[k] == r[k - 1] + step
    decreases stop - start
  {
    if start < stop then [start] + Range(start + step, stop, step) else []
  }

  /** The values a `range` object yields. */
  function Elements(r: PyRange): seq<int>
    requires r.step > 0
  {
    Range(r.start, r.stop, r.step)
  }

  /** The grid of the q_c panel: `range(0, 41, 5)` and `range(0, 41, 1)`. */
  lemma GridTicks()
    ensures Range(0, 41, 5) == [0, 5, 10, 15, 20, 25, 30, 35, 40]
    ensures |Range(0, 41, 1)| == 41 && forall k | 0 <= k < 41 :: Range(0, 41, 1)[k] == k
  {
    var minor := Range(0, 41, 1);
    for k := 0 to |minor|
      invariant forall j | 0 <= j < k :: minor[j] == j
    {
      if k > 0 {
        assert minor[k] == minor[k - 1] + 1;
      }
    }
  }
}
