/**
 * LayerTable: the soil layers returned by the classify endpoint, ten
 * parallel columns with one entry per layer, its construction from the
 * response, its `dataframe` projection and its `plot` routine.
 */
module LayerTables {
  import opened Wrappers
  import opened Json
  import Frame
  import opened Axes

  /** The field names in declaration order; each is also its response key. */
  const Fields: seq<string> := [
    "geotechnicalSoilName", "lowerBoundary", "upperBoundary", "color", "mainComponent",
    "cohesion", "gamma_sat", "gamma_unsat", "phi", "undrainedShearStrength"]

  // Positions of the columns `plot` reads.
  const SoilName := 0
  const LowerBoundary := 1
  const UpperBoundary := 2
  const Color := 3

  /**
   * `mainComponent` is annotated as one of rocks, gravel, sand, silt, clay
   * or peat, but nothing checks it, so it is a column like the others.
   */
  datatype LayerTable = LayerTable(
    geotechnicalSoilName: seq<JsonValue>,
    lowerBoundary: seq<JsonValue>,
    upperBoundary: seq<JsonValue>,
    color: seq<JsonValue>,
    mainComponent: seq<JsonValue>,
    cohesion: seq<JsonValue>,
    gamma_sat: seq<JsonValue>,
    gamma_unsat: seq<JsonValue>,
    phi: seq<JsonValue>,
    undrainedShearStrength: seq<JsonValue>)

  /** The columns in declaration order (`self.__dict__.values()`). */
  function Columns(t: LayerTable): seq<seq<JsonValue>> {
    [t.geotechnicalSoilName, t.lowerBoundary, t.upperBoundary, t.color, t.mainComponent,
     t.cohesion, t.gamma_sat, t.gamma_unsat, t.phi, t.undrainedShearStrength]
  }

  /** The invariant `__post_init__` establishes: all columns have one length. */
  predicate Valid(t: LayerTable) {
    forall c | 0 <= c < |Columns(t)| :: |Columns(t)[c]| == |t.geotechnicalSoilName|
  }

  /** The response holds a list under every field key, all of one length. */
  predicate WellFormedResponse(d: map<string, JsonValue>) {
    && (forall c | 0 <= c < |Fields| :: Fields[c] in d && d[Fields[c]].JArray?)
    && (forall c | 0 <= c < |Fields| :: |d[Fields[c]].items| == |d[Fields[0]].items|)
  }

  /** The values `response_dict.get(field)` passes to the constructor. */
  function RawFields(d: map<string, JsonValue>): seq<JsonValue> {
    seq(|Fields|, c requires 0 <= c < |Fields| => Get(d, Fields[c]))
  }

  lemma RawFieldsBuildable(d: map<string, JsonValue>)
    ensures Frame.Buildable(RawFields(d)) <==> WellFormedResponse(d)
  {
    var raws := RawFields(d);
    if Frame.Buildable(raws) {
      forall c | 0 <= c < |Fields|
        ensures Fields[c] in d && raws[c] == d[Fields[c]]
      {
        assert raws[c].JArray? && raws[c] == Get(d, Fields[c]);
      }
    }
  }

  /** `LayerTable.from_api_response(d)`. */
  function FromApiResponse(d: map<string, JsonValue>): (r: Result<LayerTable, Error>)
    ensures r.Ok? <==> WellFormedResponse(d)
    ensures r.Ok? ==> Valid(r.value) && forall c | 0 <= c < |Fields| :: Columns(r.value)[c] == d[Fields[c]].items
  {
    RawFieldsBuildable(d);
    match Frame.Build(Fields, RawFields(d))
    case Err(e) => Err(e)
    case Ok(cols) => Ok(LayerTable(cols[0], cols[1], cols[2], cols[3], cols[4], cols[5], cols[6], cols[7], cols[8], cols[9]))
  }

  /**
   * Which error construction raises: the first field whose key is missing
   * (None has no length), else the length mismatch.
   */
  lemma FromApiResponseErrors(d: map<string, JsonValue>)
    ensures forall c | 0 <= c < |Fields| && Fields[c] !in d && (forall e | 0 <= e < c :: Fields[e] in d && Sized(d[Fields[e]])) ::
      FromApiResponse(d) == Err(NoLength(Fields[c]))
    ensures (forall c | 0 <= c < |Fields| :: Fields[c] in d && d[Fields[c]].JArray?) && !WellFormedResponse(d) ==>
      FromApiResponse(d) == Err(UnequalLengths)
  {
    var raws := RawFields(d);
    forall c | 0 <= c < |Fields| && Fields[c] !in d && (forall e | 0 <= e < c :: Fields[e] in d && Sized(d[Fields[e]]))
      ensures FromApiResponse(d) == Err(NoLength(Fields[c]))
    {
      assert Frame.FirstUnsized(raws, c);
    }
    if (forall c | 0 <= c < |Fields| :: Fields[c] in d && d[Fields[c]].JArray?) && !WellFormedResponse(d) {
      var c :| 0 <= c < |Fields| && |d[Fields[c]].items| != |d[Fields[0]].items|;
      assert Len(raws[c]) != Len(raws[0]);
    }
  }

  /** A response whose ten lists are all empty builds a table of no layers. */
  lemma EmptyResponse(d: map<string, JsonValue>)
    requires forall c | 0 <= c < |Fields| :: Fields[c] in d && d[Fields[c]] == JArray([])
    ensures FromApiResponse(d).Ok? && Columns(FromApiResponse(d).value) == seq(|Fields|, c => [])
  {
    var t := FromApiResponse(d).value;
    assert forall c | 0 <= c < |Fields| :: Columns(t)[c] == d[Fields[c]].items;
  }

  function RowCount(t: LayerTable): nat {
    |t.geotechnicalSoilName|
  }

  /** The `dataframe` property; the source repeats it verbatim for CPTTable, and so does the model. */
  function Dataframe(t: LayerTable): (df: Frame.Frame)
    requires Valid(t)
    ensures Frame.WellFormed(df) && |df.columns| == |Fields|
    ensures forall k | 0 <= k < |df.index| ::
      df.index[k] < RowCount(t) && forall c | 0 <= c < |Fields| :: df.columns[c][k] == Columns(t)[c][df.index[k]]
  {
    Frame.DropNaOfTable(Columns(t), RowCount(t));
    var df := Frame.DropNa(Frame.Tabulate(Columns(t), RowCount(t)));
    assert forall k | 0 <= k < |df.index| :: df.index[k] in df.index;
    df
  }

  /** Row `i` has a value (not None) in every one of the ten columns. */
  predicate RowComplete(t: LayerTable, i: nat)
    requires Valid(t) && i < RowCount(t)
  {
    forall c | 0 <= c < |Fields| :: !Columns(t)[c][i].JNull?
  }

  /**
   * `dataframe` keeps exactly the complete rows, by their labels in
   * ascending order, with their cells unchanged; it keeps every row
   * exactly when no cell is None.
   */
  lemma DataframeRows(t: LayerTable)
    requires Valid(t)
    ensures forall i: nat :: i in Dataframe(t).index <==> i < RowCount(t) && RowComplete(t, i)
    ensures Frame.Increasing(Dataframe(t).index)
    ensures |Dataframe(t).index| <= RowCount(t)
    ensures |Dataframe(t).index| == RowCount(t) <==> forall i | 0 <= i < RowCount(t) :: RowComplete(t, i)
  {
    Frame.DropNaOfTable(Columns(t), RowCount(t));
  }

  // ---------------------------------------------------------------------
  // plot
  // ---------------------------------------------------------------------

  /** The band and the label `plot` draws for dataframe row `k`. */
  function RowArtists(df: Frame.Frame, offset: JsonValue, k: nat): Result<seq<Artist>, Error>
    requires Frame.WellFormed(df) && |df.columns| == |Fields| && k < |df.index|
  {
    var lower :- Minus(offset, df.columns[LowerBoundary][k]);
    var upper :- Minus(offset, df.columns[UpperBoundary][k]);
    Ok([Band(0.0, 1.0, lower, upper, df.columns[Color][k]),
        Annotation(df.columns[SoilName][k], 0.25, (lower - upper) / 2.0 + upper, 5)])
  }

  /** What the loop over the first `n` dataframe rows draws; it stops at the first failing subtraction. */
  function LayerArtists(df: Frame.Frame, offset: JsonValue, n: nat): Result<seq<Artist>, Error>
    requires Frame.WellFormed(df) && |df.columns| == |Fields| && n <= |df.index|
  {
    if n == 0 then Ok([])
    else
      var before :- LayerArtists(df, offset, n - 1);
      var row :- RowArtists(df, offset, n - 1);
      Ok(before + row)
  }

  /** `LayerTable.plot(axes, offset)`: the axes it leaves, or the error it raises. */
  function Plotted(t: LayerTable, axes: Option<Axes>, offset: JsonValue): Result<Axes, Error>
    requires Valid(t)
  {
    var ax := OrNew(axes);
    var df := Dataframe(t);
    var drawn :- LayerArtists(df, offset, |df.index|);
    Ok(ax.(artists := ax.artists + drawn, yInvertCalls := ax.yInvertCalls + 1, xTickLabelsCleared := true))
  }

  lemma {:induction false} LayerArtistsFailFast(df: Frame.Frame, offset: JsonValue, k: nat, n: nat)
    requires Frame.WellFormed(df) && |df.columns| == |Fields| && k <= n <= |df.index|
    requires LayerArtists(df, offset, k).Err?
    ensures LayerArtists(df, offset, n) == LayerArtists(df, offset, k)
    decreases n
  {
    if n > k {
      LayerArtistsFailFast(df, offset, k, n - 1);
    }
  }

  /** The loop of `LayerTable.plot` over the rows of the dataframe. */
  method DrawRows(df: Frame.Frame, offset: JsonValue) returns (r: Result<seq<Artist>, Error>)
    requires Frame.WellFormed(df) && |df.columns| == |Fields|
    ensures r == LayerArtists(df, offset, |df.index|)
  {
    var drawn: seq<Artist> := [];
    for k := 0 to |df.index|
      invariant LayerArtists(df, offset, k) == Ok(drawn)
    {
      var lower := Minus(offset, df.columns[LowerBoundary][k]);
      var upper := Minus(offset, df.columns[UpperBoundary][k]);
      if lower.Err? || upper.Err? {
        assert RowArtists(df, offset, k).Err?;
        LayerArtistsFailFast(df, offset, k + 1, |df.index|);
        return if lower.Err? then Err(lower.error) else Err(upper.error);
      }
      var y := (lower.value - upper.value) / 2.0 + upper.value;
      var row := [Band(0.0, 1.0, lower.value, upper.value, df.columns[Color][k]),
                  Annotation(df.columns[SoilName][k], 0.25, y, 5)];
      assert RowArtists(df, offset, k) == Ok(row);
      drawn := drawn + row;
    }
    r := Ok(drawn);
  }

  /** `LayerTable.plot(axes, offset)`. */
  method Plot(t: LayerTable, axes: Option<Axes>, offset: JsonValue) returns (r: Result<Axes, Error>)
    requires Valid(t)
    ensures r == Plotted(t, axes, offset)
  {
    var ax := OrNew(axes);
    var drawn := DrawRows(Dataframe(t), offset);
    if drawn.Err? {
      return Err(drawn.error);
    }
    r := Ok(ax.(artists := ax.artists + drawn.value, yInvertCalls := ax.yInvertCalls + 1, xTickLabelsCleared := true));
  }

  /** There is nothing to draw, or the boundaries of dataframe rows `0 .. n-1` support the subtraction from `offset`. */
  predicate Drawable(df: Frame.Frame, offset: JsonValue, n: nat)
    requires Frame.WellFormed(df) && |df.columns| == |Fields| && n <= |df.index|
  {
    n == 0 ||
    (IsNumeric(offset) &&
     forall k | 0 <= k < n :: IsNumeric(df.columns[LowerBoundary][k]) && IsNumeric(df.columns[UpperBoundary][k]))
  }

  /**
   * Drawing the first `n` rows succeeds exactly when there are none, or the
   * offset and those rows' boundaries are numbers.
   */
  lemma {:induction false} LayerArtistsSucceed(df: Frame.Frame, offset: JsonValue, n: nat)
    requires Frame.WellFormed(df) && |df.columns| == |Fields| && n <= |df.index|
    ensures LayerArtists(df, offset, n).Ok? <==> Drawable(df, offset, n)
  {
    if n > 0 {
      LayerArtistsSucceed(df, offset, n - 1);
    }
  }

  /**
   * When drawing the first `n` rows succeeds, it yields, per row and in row
   * order, a band from x = 0 to x = 1 between `offset - lowerBoundary` and
   * `offset - upperBoundary` in the row's colour, followed by the row's soil
   * name at x = 0.25, halfway between the two.
   */
  lemma {:induction false} LayerArtistsGeometry(df: Frame.Frame, offset: JsonValue, n: nat)
    requires Frame.WellFormed(df) && |df.columns| == |Fields| && n <= |df.index|
    requires LayerArtists(df, offset, n).Ok?
    ensures Drawable(df, offset, n)
    ensures
      var drawn := LayerArtists(df, offset, n).value;
      && |drawn| == 2 * n
      && forall k | 0 <= k < n ::
        var lower := Num(offset) - Num(df.columns[LowerBoundary][k]);
        var upper := Num(offset) - Num(df.columns[UpperBoundary][k]);
        && drawn[2 * k] == Band(0.0, 1.0, lower, upper, df.columns[Color][k])
        && drawn[2 * k + 1] == Annotation(df.columns[SoilName][k], 0.25, (lower + upper) / 2.0, 5)
  {
    LayerArtistsSucceed(df, offset, n);
    if n > 0 {
      LayerArtistsGeometry(df, offset, n - 1);
    }
  }

  /** Cell `i` of column `c` of a valid table. */
  function Cell(t: LayerTable, c: nat, i: nat): JsonValue
    requires Valid(t) && c < |Fields| && i < RowCount(t)
  {
    Columns(t)[c][i]
  }

  /**
   * Table row `i` is drawn at positions `at` and `at + 1`: a band from x = 0
   * to x = 1 between `offset - lowerBoundary` and `offset - upperBoundary`
   * in the row's colour, then the row's soil name at x = 0.25, halfway
   * between the two (so within the band), in font size 5.
   */
  predicate DrawnAt(t: LayerTable, i: nat, offset: JsonValue, artists: seq<Artist>, at: nat)
    requires Valid(t) && i < RowCount(t)
  {
    && IsNumeric(offset) && IsNumeric(Cell(t, LowerBoundary, i)) && IsNumeric(Cell(t, UpperBoundary, i))
    && at + 1 < |artists|
    && var lower := Num(offset) - Num(Cell(t, LowerBoundary, i));
       var upper := Num(offset) - Num(Cell(t, UpperBoundary, i));
       && artists[at] == Band(0.0, 1.0, lower, upper, Cell(t, Color, i))
       && artists[at + 1] == Annotation(Cell(t, SoilName, i), 0.25, (lower + upper) / 2.0, 5)
       && (lower <= artists[at + 1].y <= upper || upper <= artists[at + 1].y <= lower)
  }

  /** Row `k` of the dataframe is drawn at `2 * k` by the loop. */
  lemma RowDrawn(t: LayerTable, offset: JsonValue, k: nat)
    requires Valid(t)
    requires k < |Dataframe(t).index|
    requires LayerArtists(Dataframe(t), offset, |Dataframe(t).index|).Ok?
    ensures DrawnAt(t, Dataframe(t).index[k], offset, LayerArtists(Dataframe(t), offset, |Dataframe(t).index|).value, 2 * k)
  {
    var df := Dataframe(t);
    LayerArtistsSucceed(df, offset, |df.index|);
    LayerArtistsGeometry(df, offset, |df.index|);
  }

  /** Putting artists in front moves a drawn row back by their number. */
  lemma DrawnAfter(t: LayerTable, i: nat, offset: JsonValue, prefix: seq<Artist>, drawn: seq<Artist>, at: nat)
    requires Valid(t) && i < RowCount(t)
    requires DrawnAt(t, i, offset, drawn, at)
    ensures DrawnAt(t, i, offset, prefix + drawn, |prefix| + at)
  {
    assert (prefix + drawn)[|prefix| + at] == drawn[at];
    assert (prefix + drawn)[|prefix| + at + 1] == drawn[at + 1];
  }

  /**
   * `LayerTable.plot` succeeds exactly when the dataframe is empty, or the
   * offset and the boundaries of every dataframe row are numbers.
   */
  lemma PlotSucceeds(t: LayerTable, axes: Option<Axes>, offset: JsonValue)
    requires Valid(t)
    ensures Plotted(t, axes, offset).Ok? <==> Drawable(Dataframe(t), offset, |Dataframe(t).index|)
  {
    LayerArtistsSucceed(Dataframe(t), offset, |Dataframe(t).index|);
  }

  /**
   * A table whose dataframe is empty (no layers, or no complete layer) plots
   * without subtracting anything, so whatever the offset: the axes only get
   * their y inversion and cleared tick labels.
   */
  lemma PlotNothingToDraw(t: LayerTable, axes: Option<Axes>, offset: JsonValue)
    requires Valid(t)
    requires Dataframe(t).index == []
    ensures Plotted(t, axes, offset) ==
      Ok(OrNew(axes).(yInvertCalls := OrNew(axes).yInvertCalls + 1, xTickLabelsCleared := true))
  {
    assert LayerArtists(Dataframe(t), offset, 0) == Ok([]);
    assert OrNew(axes).artists + [] == OrNew(axes).artists;
  }

  /**
   * `LayerTable.plot` in terms of the table: it draws, after whatever the
   * axes already held, one band and one label per dataframe row in row
   * order, each from that row's own cells; it inverts the y-axis once and
   * clears the x tick labels, and changes nothing else.
   */
  lemma PlotGeometry(t: LayerTable, axes: Option<Axes>, offset: JsonValue)
    requires Valid(t)
    requires Plotted(t, axes, offset).Ok?
    ensures
      var before := OrNew(axes);
      var after := Plotted(t, axes, offset).value;
      var rows := Dataframe(t).index;
      && after == before.(artists := after.artists, yInvertCalls := before.yInvertCalls + 1, xTickLabelsCleared := true)
      && |after.artists| == |before.artists| + 2 * |rows|
      && after.artists[..|before.artists|] == before.artists
      && forall k | 0 <= k < |rows| :: DrawnAt(t, rows[k], offset, after.artists, |before.artists| + 2 * k)
  {
    var df := Dataframe(t);
    var before := OrNew(axes);
    var drawn := LayerArtists(df, offset, |df.index|).value;
    var after := Plotted(t, axes, offset).value;
    LayerArtistsGeometry(df, offset, |df.index|);
    assert after.artists == before.artists + drawn;
    forall k | 0 <= k < |df.index|
      ensures DrawnAt(t, df.index[k], offset, after.artists, |before.artists| + 2 * k)
    {
      RowDrawn(t, offset, k);
      DrawnAfter(t, df.index[k], offset, before.artists, drawn, 2 * k);
    }
  }
}
