/**
 * CPTTable: the cone-penetration measurements returned by the parse
 * endpoint, five parallel columns with one entry per sample, its
 * construction (with its two key fallbacks), its `dataframe` projection and
 * its three trace-plotting routines.
 */
module CptTables {
  import opened Wrappers
  import opened Json
  import Frame
  import opened Axes

  /** The field names in declaration order. */
  const Fields: seq<string> := ["penetrationLength", "depthOffset", "coneResistance", "localFriction", "frictionRatio"]

  datatype CptTable = CptTable(
    penetrationLength: seq<JsonValue>,
    depthOffset: seq<JsonValue>,
    coneResistance: seq<JsonValue>,
    localFriction: seq<JsonValue>,
    frictionRatio: seq<JsonValue>)

  /** The columns in declaration order (`self.__dict__.values()`). */
  function Columns(t: CptTable): seq<seq<JsonValue>> {
    [t.penetrationLength, t.depthOffset, t.coneResistance, t.localFriction, t.frictionRatio]
  }

  /** The invariant `__post_init__` establishes: all columns have one length. */
  predicate Valid(t: CptTable) {
    forall c | 0 <= c < |Columns(t)| :: |Columns(t)[c]| == |t.penetrationLength|
  }

  function RowCount(t: CptTable): nat {
    |t.penetrationLength|
  }

  /**
   * The values the constructor receives: `penetrationLength` from "depth",
   * falling back to "penetrationLength"; `frictionRatio` from
   * "frictionRatio", falling back to "frictionRatioComputed"; the others by
   * their own key.
   */
  function RawFields(d: map<string, JsonValue>): seq<JsonValue> {
    [GetOr(d, "depth", Get(d, "penetrationLength")),
     Get(d, "depthOffset"),
     Get(d, "coneResistance"),
     Get(d, "localFriction"),
     GetOr(d, "frictionRatio", Get(d, "frictionRatioComputed"))]
  }

  /** The key whose value becomes the `penetrationLength` column, if any. */
  lemma KeyPrecedence(d: map<string, JsonValue>)
    ensures "depth" in d ==> RawFields(d)[0] == d["depth"]
    ensures "depth" !in d && "penetrationLength" in d ==> RawFields(d)[0] == d["penetrationLength"]
    ensures "depth" !in d && "penetrationLength" !in d ==> RawFields(d)[0] == JNull
    ensures "frictionRatio" in d ==> RawFields(d)[4] == d["frictionRatio"]
    ensures "frictionRatio" !in d && "frictionRatioComputed" in d ==> RawFields(d)[4] == d["frictionRatioComputed"]
    ensures "frictionRatio" !in d && "frictionRatioComputed" !in d ==> RawFields(d)[4] == JNull
    ensures forall c | 1 <= c <= 3 :: RawFields(d)[c] == Get(d, Fields[c])
  {
  }

  /** `CPTTable.from_api_response(d)`. */
  function FromApiResponse(d: map<string, JsonValue>): (r: Result<CptTable, Error>)
    ensures r.Ok? <==> Frame.Buildable(RawFields(d))
    ensures r.Ok? ==> Valid(r.value) && forall c | 0 <= c < |Fields| :: JArray(Columns(r.value)[c]) == RawFields(d)[c]
  {
    match Frame.Build(Fields, RawFields(d))
    case Err(e) => Err(e)
    case Ok(cols) => Ok(CptTable(cols[0], cols[1], cols[2], cols[3], cols[4]))
  }

  /**
   * A response that carries its samples' depths under "depth" builds the
   * same table as one that carries them under "penetrationLength".
   */
  lemma DepthAlias(d: map<string, JsonValue>, v: JsonValue)
    requires "depth" !in d && "penetrationLength" !in d
    ensures FromApiResponse(d["depth" := v]) == FromApiResponse(d["penetrationLength" := v])
  {
    assert RawFields(d["depth" := v]) == RawFields(d["penetrationLength" := v]);
  }

  /**
   * The fallback looks at whether the key is there, not at its value: a
   * "depth" key holding null hides "penetrationLength" and construction
   * fails on the first field, and so does a response with neither key.
   */
  lemma PenetrationLengthMissing(d: map<string, JsonValue>)
    requires ("depth" in d && d["depth"] == JNull) || ("depth" !in d && Get(d, "penetrationLength") == JNull)
    ensures FromApiResponse(d) == Err(NoLength("penetrationLength"))
  {
    assert Frame.FirstUnsized(RawFields(d), 0);
  }

  /** The `dataframe` property. */
  function Dataframe(t: CptTable): (df: Frame.Frame)
    requires Valid(t)
    ensures Frame.WellFormed(df) && |df.columns| == |Fields|
    ensures forall k | 0 <= k < |df.index| ::
      df.index[k] < RowCount(t) && forall c | 0 <= c < |Fields| :: df.columns[c][k] == Columns(t)[c][df.index[k]]
  {
    Frame.DropNaOfTable(Columns(t), RowCount(t));
    var df := Frame.DropNa(Frame.Tabulate(Columns(t), RowCount(t)));
    assert forall k | 0 <= k < |df.index| :: df.index[k] in df.index;
    df
  }

  /** Sample `i` has a value (not None) in every one of the five columns. */
  predicate RowComplete(t: CptTable, i: nat)
    requires Valid(t) && i < RowCount(t)
  {
    forall c | 0 <= c < |Fields| :: !Columns(t)[c][i].JNull?
  }

  /**
   * `dataframe` keeps exactly the complete samples, by their labels in
   * ascending order; it keeps every sample exactly when no cell is None.
   */
  lemma DataframeRows(t: CptTable)
    requires Valid(t)
    ensures forall i: nat :: i in Dataframe(t).index <==> i < RowCount(t) && RowComplete(t, i)
    ensures Frame.Increasing(Dataframe(t).index)
    ensures |Dataframe(t).index| <= RowCount(t)
    ensures |Dataframe(t).index| == RowCount(t) <==> forall i | 0 <= i < RowCount(t) :: RowComplete(t, i)
  {
    Frame.DropNaOfTable(Columns(t), RowCount(t));
  }

  // ---------------------------------------------------------------------
  // The three traces
  // ---------------------------------------------------------------------

  /** `[offset - value for value in column]`. */
  function DepthTrace(offset: JsonValue, column: seq<JsonValue>): (r: Result<seq<real>, Error>)
    ensures r.Ok? <==> column == [] || (IsNumeric(offset) && forall i | 0 <= i < |column| :: IsNumeric(column[i]))
    ensures r.Ok? ==> |r.value| == |column| && forall i | 0 <= i < |column| :: r.value[i] == Num(offset) - Num(column[i])
  {
    if column == [] then Ok([])
    else
      var first :- Minus(offset, column[0]);
      var rest :- DepthTrace(offset, column[1..]);
      Ok([first] + rest)
  }

  /** The constants that tell the three trace routines apart. */
  datatype TraceStyle = TraceStyle(spine: real, xLim: (real, real), xLabel: string, color: string, invertX: bool, legend: string)

  const ConeResistanceStyle := TraceStyle(1.0, (0.0, 40.0), "$q_c$ [MPa]", "#2d2e87", false, "coneResistance")
  const LocalFrictionStyle := TraceStyle(1.05, (0.0, 0.8), "$f_s$ [MPa]", "#e04913", false, "localFriction")
  const FrictionRatioStyle := TraceStyle(1.1, (0.0, 16.0), "$R_f$ [%]", "tab:gray", true, "frictionRatio")

  /** The body shared by the three routines: configure the top x-axis, invert y, draw `xs` against depth. */
  function PlotTrace(t: CptTable, xs: seq<JsonValue>, style: TraceStyle, axes: Option<Axes>, offset: JsonValue): Result<Axes, Error>
    requires Valid(t)
  {
    var ax := OrNew(axes);
    var ys :- DepthTrace(offset, t.penetrationLength);
    Ok(ax.(
      xTicksTop := true,
      xLabelTop := true,
      topSpine := Some(style.spine),
      xLim := Some(style.xLim),
      xLabel := style.xLabel,
      xLabelColor := style.color,
      // set_xlim fixes the direction, then invert_xaxis flips it when the style calls it
      xInverted := (style.xLim.0 > style.xLim.1) != style.invertX,
      yInvertCalls := ax.yInvertCalls + 1,
      artists := ax.artists + [Line(xs, ys, style.color, style.legend)]))
  }

  /** The samples' depths support the subtraction from `offset`. */
  predicate Traceable(t: CptTable, offset: JsonValue) {
    t.penetrationLength == [] ||
    (IsNumeric(offset) && forall i | 0 <= i < |t.penetrationLength| :: IsNumeric(t.penetrationLength[i]))
  }

  /**
   * What a trace routine leaves: the top x-axis configured by `style`, its
   * direction fixed by the limits and the style whatever it was before, one
   * more y inversion, and one more line that plots `xs` as given against
   * `offset - penetrationLength[i]` for every sample i; nothing else changed.
   */
  predicate TracePlotted(t: CptTable, xs: seq<JsonValue>, style: TraceStyle, before: Axes, offset: JsonValue, after: Axes) {
    && Traceable(t, offset)
    && after.xTicksTop && after.xLabelTop
    && after.topSpine == Some(style.spine)
    && after.xLim == Some(style.xLim)
    && after.xLabel == style.xLabel && after.xLabelColor == style.color
    && after.xInverted == ((style.xLim.0 > style.xLim.1) != style.invertX)
    && after.yInvertCalls == before.yInvertCalls + 1
    && after.majorXTicks == before.majorXTicks && after.minorXTicks == before.minorXTicks
    && after.xTickLabelsCleared == before.xTickLabelsCleared
    && |after.artists| == |before.artists| + 1
    && after.artists[..|before.artists|] == before.artists
    && var line := after.artists[|before.artists|];
       && line.Line?
       && line.xs == xs && line.color == style.color && line.legend == style.legend
       && |line.ys| == |t.penetrationLength|
       && forall i | 0 <= i < |line.ys| :: line.ys[i] == Num(offset) - Num(t.penetrationLength[i])
  }

  /** What the shared body of the three routines does. */
  lemma PlotTraceSpec(t: CptTable, xs: seq<JsonValue>, style: TraceStyle, axes: Option<Axes>, offset: JsonValue)
    requires Valid(t)
    ensures PlotTrace(t, xs, style, axes, offset).Ok? <==> Traceable(t, offset)
    ensures PlotTrace(t, xs, style, axes, offset).Ok? ==>
      TracePlotted(t, xs, style, OrNew(axes), offset, PlotTrace(t, xs, style, axes, offset).value)
  {
  }

  /** `plot_cone_resistance(axes, offset)`. */
  function PlotConeResistance(t: CptTable, axes: Option<Axes>, offset: JsonValue): Result<Axes, Error>
    requires Valid(t)
  {
    PlotTrace(t, t.coneResistance, ConeResistanceStyle, axes, offset)
  }

  /** `plot_local_friction(axes, offset)`. */
  function PlotLocalFriction(t: CptTable, axes: Option<Axes>, offset: JsonValue): Result<Axes, Error>
    requires Valid(t)
  {
    PlotTrace(t, t.localFriction, LocalFrictionStyle, axes, offset)
  }

  /** `plot_friction_ratio(axes, offset)`. */
  function PlotFrictionRatio(t: CptTable, axes: Option<Axes>, offset: JsonValue): Result<Axes, Error>
    requires Valid(t)
  {
    PlotTrace(t, t.frictionRatio, FrictionRatioStyle, axes, offset)
  }

  /** q_c is drawn unfiltered against depth on a top x-axis over [0, 40] whose spine sits at 1, left to right. */
  lemma ConeResistancePlotted(t: CptTable, axes: Option<Axes>, offset: JsonValue)
    requires Valid(t)
    ensures PlotConeResistance(t, axes, offset).Ok? <==> Traceable(t, offset)
    ensures PlotConeResistance(t, axes, offset).Ok? ==>
      var after := PlotConeResistance(t, axes, offset).value;
      && TracePlotted(t, t.coneResistance, ConeResistanceStyle, OrNew(axes), offset, after)
      && after.xLim == Some((0.0, 40.0)) && after.topSpine == Some(1.0)
      && !after.xInverted
  {
    PlotTraceSpec(t, t.coneResistance, ConeResistanceStyle, axes, offset);
  }

  /** f_s is drawn unfiltered against depth on a top x-axis over [0, 0.8] whose spine sits at 1.05, left to right. */
  lemma LocalFrictionPlotted(t: CptTable, axes: Option<Axes>, offset: JsonValue)
    requires Valid(t)
    ensures PlotLocalFriction(t, axes, offset).Ok? <==> Traceable(t, offset)
    ensures PlotLocalFriction(t, axes, offset).Ok? ==>
      var after := PlotLocalFriction(t, axes, offset).value;
      && TracePlotted(t, t.localFriction, LocalFrictionStyle, OrNew(axes), offset, after)
      && after.xLim == Some((0.0, 0.8)) && after.topSpine == Some(1.05)
      && !after.xInverted
  {
    PlotTraceSpec(t, t.localFriction, LocalFrictionStyle, axes, offset);
  }

  /** R_f is drawn unfiltered against depth on a top x-axis over [0, 16] whose spine sits at 1.1, right to left. */
  lemma FrictionRatioPlotted(t: CptTable, axes: Option<Axes>, offset: JsonValue)
    requires Valid(t)
    ensures PlotFrictionRatio(t, axes, offset).Ok? <==> Traceable(t, offset)
    ensures PlotFrictionRatio(t, axes, offset).Ok? ==>
      var after := PlotFrictionRatio(t, axes, offset).value;
      && TracePlotted(t, t.frictionRatio, FrictionRatioStyle, OrNew(axes), offset, after)
      && after.xLim == Some((0.0, 16.0)) && after.topSpine == Some(1.1)
      && after.xInverted
  {
    PlotTraceSpec(t, t.frictionRatio, FrictionRatioStyle, axes, offset);
  }

  /**
   * The x direction a trace routine leaves does not depend on the axes it
   * was given: q_c drawn over an R_f panel runs left to right, and R_f
   * drawn twice still runs right to left.
   */
  lemma TraceDirectionIgnoresHistory(t: CptTable, axes: Option<Axes>, offset: JsonValue)
    requires Valid(t)
    requires Traceable(t, offset)
    ensures PlotFrictionRatio(t, axes, offset).Ok?
    ensures PlotConeResistance(t, Some(PlotFrictionRatio(t, axes, offset).value), offset).Ok?
    ensures !PlotConeResistance(t, Some(PlotFrictionRatio(t, axes, offset).value), offset).value.xInverted
    ensures PlotFrictionRatio(t, Some(PlotFrictionRatio(t, axes, offset).value), offset).Ok?
    ensures PlotFrictionRatio(t, Some(PlotFrictionRatio(t, axes, offset).value), offset).value.xInverted
  {
    FrictionRatioPlotted(t, axes, offset);
    var rf := PlotFrictionRatio(t, axes, offset).value;
    ConeResistancePlotted(t, Some(rf), offset);
    FrictionRatioPlotted(t, Some(rf), offset);
  }
}
