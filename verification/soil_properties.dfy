/**
 * SoilProperties: one sounding, built from the parse and the classify
 * responses, and its composite figure: the three CPT traces on twinned
 * x-axes of the left panel, the layer column on the right panel, all on
 * one shared depth (y) axis.
 */
module Soil {
  import opened Wrappers
  import opened Json
  import opened Axes
  import CptTables
  import LayerTables

  /** The coordinates as the response gives them; nothing checks their types. */
  datatype Location = Location(srsName: JsonValue, long: JsonValue, lat: JsonValue)

  datatype SoilProperties = SoilProperties(
    cptTable: CptTables.CptTable,
    layerTable: LayerTables.LayerTable,
    location: Location,
    verticalPositionReferencePoint: JsonValue,
    verticalPositionOffset: JsonValue,
    predrilledDepth: JsonValue,
    soundingLabel: JsonValue,   // `label`, the sounding's name
    groundwaterLevel: JsonValue)

  predicate Valid(s: SoilProperties) {
    CptTables.Valid(s.cptTable) && LayerTables.Valid(s.layerTable)
  }

  /** A block of the response that the core calls `.get` on: anything but a dict raises AttributeError. */
  function Block(v: JsonValue, key: string): Result<map<string, JsonValue>, Error> {
    if v.JObject? then Ok(v.fields) else Err(NotAMapping(key))
  }

  const Unknown := JString("Unknown")
  const EmptyBlock := JObject(map[])

  /** The block under `key`, an empty dict when the key is absent. */
  function BlockOrEmpty(parse: map<string, JsonValue>, key: string): JsonValue {
    if key in parse then parse[key] else EmptyBlock
  }

  /**
   * `SoilProperties.from_api_response(parse, classify)`. The metadata it
   * records is the value under its key when there is one, otherwise
   * "Unknown" for the reference point and the label, 0 for the offset, None
   * for the pre-drilled depth and the groundwater level; a missing location
   * block gives a Location of Nones.
   */
  function FromApiResponse(parse: map<string, JsonValue>, classify: map<string, JsonValue>): (r: Result<SoilProperties, Error>)
    ensures r.Ok? ==> Valid(r.value)
    ensures r.Ok? ==> BlockOrEmpty(parse, "data").JObject? && BlockOrEmpty(parse, "location").JObject?
    ensures r.Ok? ==>
      && r.value.verticalPositionReferencePoint == (if "verticalPositionReferencePoint" in parse then parse["verticalPositionReferencePoint"] else JString("Unknown"))
      && r.value.verticalPositionOffset == (if "verticalPositionOffset" in parse then parse["verticalPositionOffset"] else JNumber(0.0))
      && r.value.soundingLabel == (if "label" in parse then parse["label"] else JString("Unknown"))
      && r.value.predrilledDepth == (if "predrilledDepth" in parse then parse["predrilledDepth"] else JNull)
      && r.value.groundwaterLevel == (if "groundwaterLevel" in parse then parse["groundwaterLevel"] else JNull)
      && ("location" !in parse ==> r.value.location == Location(JNull, JNull, JNull))
      && ("location" in parse ==>
            r.value.location == Location(Get(parse["location"].fields, "srs"), Get(parse["location"].fields, "long"), Get(parse["location"].fields, "lat")))
      && CptTables.FromApiResponse(BlockOrEmpty(parse, "data").fields) == Ok(r.value.cptTable)
      && LayerTables.FromApiResponse(classify) == Ok(r.value.layerTable)
  {
    var location := GetOr(parse, "location", EmptyBlock);
    var data :- Block(GetOr(parse, "data", EmptyBlock), "data");
    var cpt :- CptTables.FromApiResponse(data);
    var layers :- LayerTables.FromApiResponse(classify);
    var loc :- Block(location, "location");
    Ok(SoilProperties(
      cpt,
      layers,
      Location(Get(loc, "srs"), Get(loc, "long"), Get(loc, "lat")),
      GetOr(parse, "verticalPositionReferencePoint", Unknown),
      GetOr(parse, "verticalPositionOffset", JNumber(0.0)),
      Get(parse, "predrilledDepth"),
      GetOr(parse, "label", Unknown),
      Get(parse, "groundwaterLevel")))
  }

  /**
   * Construction succeeds exactly when the data block (if present) and the
   * location block (if present) are dicts and both tables can be built;
   * failures come in that order: data block, CPT table, layer table,
   * location block, each reported as it was raised. A missing data block
   * builds the CPT table from an empty dict, which fails on its first field.
   */
  lemma FromApiResponseOutcome(parse: map<string, JsonValue>, classify: map<string, JsonValue>)
    ensures FromApiResponse(parse, classify).Ok? <==>
      && BlockOrEmpty(parse, "data").JObject?
      && CptTables.FromApiResponse(BlockOrEmpty(parse, "data").fields).Ok?
      && LayerTables.FromApiResponse(classify).Ok?
      && BlockOrEmpty(parse, "location").JObject?
    ensures !BlockOrEmpty(parse, "data").JObject? ==> FromApiResponse(parse, classify) == Err(NotAMapping("data"))
    ensures "data" !in parse ==> FromApiResponse(parse, classify) == Err(NoLength("penetrationLength"))
    ensures BlockOrEmpty(parse, "data").JObject? && CptTables.FromApiResponse(BlockOrEmpty(parse, "data").fields).Err? ==>
      FromApiResponse(parse, classify).Err? &&
      FromApiResponse(parse, classify).error == CptTables.FromApiResponse(BlockOrEmpty(parse, "data").fields).error
    ensures
      (&& BlockOrEmpty(parse, "data").JObject?
       && CptTables.FromApiResponse(BlockOrEmpty(parse, "data").fields).Ok?
       && LayerTables.FromApiResponse(classify).Err?) ==>
      FromApiResponse(parse, classify) == Err(LayerTables.FromApiResponse(classify).error)
    ensures
      (&& BlockOrEmpty(parse, "data").JObject?
       && CptTables.FromApiResponse(BlockOrEmpty(parse, "data").fields).Ok?
       && LayerTables.FromApiResponse(classify).Ok?
       && !BlockOrEmpty(parse, "location").JObject?) ==>
      FromApiResponse(parse, classify) == Err(NotAMapping("location"))
  {
    if "data" !in parse {
      CptTables.PenetrationLengthMissing(map[]);
    }
  }

  // ---------------------------------------------------------------------
  // plot
  // ---------------------------------------------------------------------

  /**
   * The figure `plot` returns: two top-level panels, `qc` on the left and
   * `layers` on the right, and the two twins `fs` and `rf` of the left
   * panel. All four share one y-axis, the depth axis.
   */
  datatype Figure = Figure(qc: Axes, fs: Axes, rf: Axes, layers: Axes)

  /** `invert_yaxis` flips the one shared depth axis whichever panel it is called on. */
  predicate DepthAxisInverted(f: Figure) {
    (f.qc.yInvertCalls + f.fs.yInvertCalls + f.rf.yInvertCalls + f.layers.yInvertCalls) % 2 == 1
  }

  /** The groundwater and surface lines `plot` draws, each only when its value is truthy. */
  function ReferenceLines(offset: JsonValue, groundwaterLevel: JsonValue, predrilledDepth: JsonValue): (r: Result<seq<Artist>, Error>)
    ensures r.Ok? <==>
      && (Truthy(groundwaterLevel) ==> IsNumeric(offset) && IsNumeric(groundwaterLevel))
      && (Truthy(predrilledDepth) ==> IsNumeric(offset) && IsNumeric(predrilledDepth))
    ensures r.Ok? ==> |r.value| == (if Truthy(groundwaterLevel) then 1 else 0) + (if Truthy(predrilledDepth) then 1 else 0)
    ensures r.Ok? && Truthy(groundwaterLevel) ==>
      r.value[0] == HLine(Num(offset) - Num(groundwaterLevel), "tab:blue", "--", "Groundwater level")
    ensures r.Ok? && Truthy(predrilledDepth) ==>
      r.value[|r.value| - 1] == HLine(Num(offset) - Num(predrilledDepth), "tab:brown", "--", "Surface level")
  {
    var water :-
      if Truthy(groundwaterLevel) then
        var y :- Minus(offset, groundwaterLevel);
        Ok([HLine(y, "tab:blue", "--", "Groundwater level")])
      else Ok([]);
    var surface :-
      if Truthy(predrilledDepth) then
        var y :- Minus(offset, predrilledDepth);
        Ok([HLine(y, "tab:brown", "--", "Surface level")])
      else Ok([]);
    Ok(water + surface)
  }

  /** The left panel before the traces: the q_c grid ticks and the reference lines. */
  function GridPanel(lines: seq<Artist>): Axes {
    NewAxes.(majorXTicks := Some(PyRange(0, 41, 5)), minorXTicks := Some(PyRange(0, 41, 1)), artists := lines)
  }

  /** `SoilProperties.plot()`: the figure, or the error a subtraction raises. */
  function Plotted(s: SoilProperties): Result<Figure, Error>
    requires Valid(s)
  {
    var offset := s.verticalPositionOffset;
    var lines :- ReferenceLines(offset, s.groundwaterLevel, s.predrilledDepth);
    var qc :- CptTables.PlotConeResistance(s.cptTable, Some(GridPanel(lines)), offset);
    var fs :- CptTables.PlotLocalFriction(s.cptTable, Some(NewAxes), offset);
    var rf :- CptTables.PlotFrictionRatio(s.cptTable, Some(NewAxes), offset);
    var layers :- LayerTables.Plotted(s.layerTable, Some(NewAxes), offset);
    Ok(Figure(qc, fs, rf, layers))
  }

  /**
   * The composite figure: it is drawn exactly when every subtraction it
   * makes is defined. Then the left panel has the grid ticks 0, 5, .., 40
   * and 0, 1, .., 40, the reference lines, and the q_c trace over [0, 40]
   * with its spine at 1; its twins hold f_s over [0, 0.8] at 1.05 and R_f
   * over [0, 16], flipped, at 1.1; the right panel holds the layer column.
   * All four use the sounding's vertical position offset, and the four
   * y inversions leave the shared depth axis upright.
   */
  lemma PlotLayout(s: SoilProperties)
    requires Valid(s)
    ensures var offset := s.verticalPositionOffset;
      Plotted(s).Ok? <==>
        && ReferenceLines(offset, s.groundwaterLevel, s.predrilledDepth).Ok?
        && CptTables.Traceable(s.cptTable, offset)
        && LayerTables.Plotted(s.layerTable, Some(NewAxes), offset).Ok?
    ensures Plotted(s).Ok? ==>
      var offset := s.verticalPositionOffset;
      var f := Plotted(s).value;
      var lines := ReferenceLines(offset, s.groundwaterLevel, s.predrilledDepth).value;
      && CptTables.TracePlotted(s.cptTable, s.cptTable.coneResistance, CptTables.ConeResistanceStyle, GridPanel(lines), offset, f.qc)
      && CptTables.TracePlotted(s.cptTable, s.cptTable.localFriction, CptTables.LocalFrictionStyle, NewAxes, offset, f.fs)
      && CptTables.TracePlotted(s.cptTable, s.cptTable.frictionRatio, CptTables.FrictionRatioStyle, NewAxes, offset, f.rf)
      && Ok(f.layers) == LayerTables.Plotted(s.layerTable, Some(NewAxes), offset)
      && f.qc.majorXTicks.Some? && f.qc.majorXTicks.value.step > 0
      && Elements(f.qc.majorXTicks.value) == [0, 5, 10, 15, 20, 25, 30, 35, 40]
      && f.qc.minorXTicks.Some? && f.qc.minorXTicks.value.step > 0
      && |Elements(f.qc.minorXTicks.value)| == 41 && (forall k | 0 <= k < 41 :: Elements(f.qc.minorXTicks.value)[k] == k)
      && f.qc.artists[..|lines|] == lines
      && f.qc.xLim == Some((0.0, 40.0)) && f.qc.topSpine == Some(1.0) && !f.qc.xInverted
      && f.fs.xLim == Some((0.0, 0.8)) && f.fs.topSpine == Some(1.05) && !f.fs.xInverted
      && f.rf.xLim == Some((0.0, 16.0)) && f.rf.topSpine == Some(1.1) && f.rf.xInverted
      && !DepthAxisInverted(f)
  {
    GridTicks();
    var offset := s.verticalPositionOffset;
    var lines := ReferenceLines(offset, s.groundwaterLevel, s.predrilledDepth);
    if lines.Ok? {
      CptTables.ConeResistancePlotted(s.cptTable, Some(GridPanel(lines.value)), offset);
    }
    CptTables.LocalFrictionPlotted(s.cptTable, Some(NewAxes), offset);
    CptTables.FrictionRatioPlotted(s.cptTable, Some(NewAxes), offset);
    if LayerTables.Plotted(s.layerTable, Some(NewAxes), offset).Ok? {
      LayerTables.PlotGeometry(s.layerTable, Some(NewAxes), offset);
    }
  }

  // ---------------------------------------------------------------------
  // End to end
  // ---------------------------------------------------------------------

  /** Every value in the list is present (not None). */
  predicate NoneMissing(v: JsonValue) {
    v.JArray? && forall i | 0 <= i < |v.items| :: !v.items[i].JNull?
  }

  /**
   * A parse response whose data block holds five complete lists of `n`
   * samples, and a classify response holding ten complete lists of `m`
   * layers, build a sounding whose CPT dataframe has `n` rows and whose
   * layer dataframe has `m` rows.
   */
  lemma CompleteSounding(parse: map<string, JsonValue>, classify: map<string, JsonValue>, n: nat, m: nat)
    requires "data" in parse && parse["data"].JObject?
    requires "location" !in parse || parse["location"].JObject?
    requires forall c | 0 <= c < 5 ::
      var raw := CptTables.RawFields(parse["data"].fields)[c]; NoneMissing(raw) && |raw.items| == n
    requires forall c | 0 <= c < |LayerTables.Fields| ::
      LayerTables.Fields[c] in classify && NoneMissing(classify[LayerTables.Fields[c]]) &&
      |classify[LayerTables.Fields[c]].items| == m
    ensures FromApiResponse(parse, classify).Ok?
    ensures |CptTables.Dataframe(FromApiResponse(parse, classify).value.cptTable).index| == n
    ensures |LayerTables.Dataframe(FromApiResponse(parse, classify).value.layerTable).index| == m
  {
    var cpt := CptTables.FromApiResponse(parse["data"].fields);
    assert cpt.Ok?;
    var layers := LayerTables.FromApiResponse(classify);
    assert layers.Ok?;
    var s := FromApiResponse(parse, classify).value;
    CptTables.DataframeRows(s.cptTable);
    assert forall i | 0 <= i < n :: CptTables.RowComplete(s.cptTable, i);
    LayerTables.DataframeRows(s.layerTable);
    assert forall i | 0 <= i < m :: LayerTables.RowComplete(s.layerTable, i);
  }
}
