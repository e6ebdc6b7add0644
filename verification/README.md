# py-cptcore in Dafny

A model of the core of py-cptcore (`src/pycptcore/main.py`). That core turns the
loosely typed JSON dictionaries returned by the CPTCore endpoints into
validated, immutable tables, and then draws them. It has three parts:

- `LayerTable` holds the soil layers of a `classify/*` response: ten parallel
  columns, one entry per layer.
- `CPTTable` holds the cone-penetration samples of a `cpt/parse` response:
  five parallel columns, one entry per sample.
- `SoilProperties` holds one sounding: both tables, its location and its
  metadata. It draws the composite figure: the q_c, f_s and R_f traces on
  twinned x-axes of a left panel, the layer column on a right panel, and one
  shared depth axis.

The model has one module per part, plus the pieces the parts share:

- `Json` (json.dfy): parsed JSON values, and the Python operations the core
  applies to them. These are `dict.get` with and without a default,
  truthiness, `len` and binary `-`. JSON null is Python's `None` (`JNull`). The
  exceptions that escape the core are the `Error` values:
  - `NoLength` is the `TypeError` from `len(None)`.
  - `UnequalLengths` is the `ValueError` from `__post_init__`.
  - `NotAMapping` is the `AttributeError` from `.get` on a non-dict block.
  - `BadOperand` is the `TypeError` from `-`.
- `Frame` (frame.dfy): the equal-length rule that both tables' `__post_init__`
  enforce, and the `dataframe` projection, `pd.DataFrame(...).dropna(how="any")`.
  The projection is a filter over row labels. A missing cell is a `None` cell.
- `Axes` (axes.dfy): the part of a matplotlib Axes that the core sets, as a
  value. Each plotting routine takes an Axes and returns the Axes it leaves.
  Each drawing call appends an `Artist` record: a line, a filled band, an
  annotation or a horizontal line.
  - Nothing sets the y limits, so `invert_yaxis` calls are counted, and the
    parity of the count is the y direction.
  - The x direction is kept as a flag. `set_xlim(lo, hi)` sets it, and
    `invert_xaxis` flips it. A trace routine therefore fixes the x direction
    whatever the axes held before.
  - A Python `range` is kept as a `PyRange` record together with its
    elements.
- `LayerTables` (layer_table.dfy), `CptTables` (cpt_table.dfy) and `Soil`
  (soil_properties.dfy): the three classes.

The loop of `LayerTable.plot` is the method `LayerTables.DrawRows`. It is
proved equal to the function `LayerTables.LayerArtists`, and the lemmas about
the drawing are stated over that function.

## Model

| member | source | states |
|---|---|---|
| Frame.RawLengths | src/pycptcore/main.py:78 | The lengths of the fields are computed exactly when every field has a length, one length per field. Otherwise it fails at the first field, in declaration order, that has none; the error records that field, which Python's `TypeError` message does not name. |
| Frame.DistinctAtMostOne | src/pycptcore/main.py:79 | The set of lengths has at most one element exactly when all lengths are equal. |
| Frame.ListColumns | src/pycptcore/main.py:108 | The columns are obtained exactly when every field holds a list, and each column is that list. |
| Frame.Build | src/pycptcore/main.py:77-80 | A table is built exactly when every field holds a list and all lists have the same length; the columns are those lists. The first field without a length gives `NoLength(field)`. Fields that all have lengths but differ give `UnequalLengths`. |
| Frame.Kept | src/pycptcore/main.py:108 | The row positions kept among the first n rows are at most n in number, all below n, and strictly increasing. |
| Frame.KeptMembers | src/pycptcore/main.py:108 | A position is kept exactly when it is below n and its row has no missing cell. |
| Frame.KeptCount | src/pycptcore/main.py:108 | All n rows are kept exactly when every one of them is complete. |
| Frame.KeptWhenComplete | src/pycptcore/main.py:108 | When every row is complete, the kept positions are 0 .. n-1. |
| Frame.DropNa | src/pycptcore/main.py:108 | `dropna(how="any")` leaves a frame whose columns all have the same number of rows. Each row it keeps is complete. It keeps at most the input's rows, and all of them exactly when every input row is complete. |
| Frame.DropNaIdempotent | src/pycptcore/main.py:205 | Dropping incomplete rows twice is the same as dropping them once. |
| Frame.DropNaOfTable | src/pycptcore/main.py:205 | On a freshly built table, the projection keeps exactly the labels of the complete rows, in ascending order, each row with its original cells. |
| LayerTables.RawFieldsBuildable | src/pycptcore/main.py:92-103 | The ten looked-up values can be built into a table exactly when the response holds a list under every field key and all the lists have the same length. |
| LayerTables.FromApiResponse | src/pycptcore/main.py:83-103 | `from_api_response` succeeds exactly when every one of the ten keys holds a list and all the lists have one length. The result then satisfies the equal-length invariant, and each column is the list under its key. |
| LayerTables.FromApiResponseErrors | src/pycptcore/main.py:77-80 | The first missing key, in declaration order, makes construction fail with the `len(None)` error, `NoLength` recording that field. Ten lists of differing lengths make it fail with `UnequalLengths`. |
| LayerTables.EmptyResponse | src/pycptcore/main.py:92-103 | A response whose ten lists are all empty builds a valid table with no layers. |
| LayerTables.Dataframe | src/pycptcore/main.py:105-108 | The `dataframe` has ten equal-length columns. Every row of it carries the label of a table row and exactly that row's cells. |
| LayerTables.DataframeRows | src/pycptcore/main.py:105-108 | `dataframe` keeps exactly the rows with no `None` cell, by label in ascending order. It has at most as many rows as the table, and exactly as many when no cell is `None`. |
| LayerTables.LayerArtistsFailFast | src/pycptcore/main.py:128-130 | Once a row's subtraction raises, the loop's outcome is that error, whatever rows follow. |
| LayerTables.DrawRows | src/pycptcore/main.py:128-145 | The loop over the dataframe rows yields exactly what `LayerArtists` specifies: the artists of every row in order, or the first error. |
| LayerTables.Plot | src/pycptcore/main.py:110-147 | `LayerTable.plot` leaves exactly the axes that `Plotted` specifies, or raises the error that `Plotted` gives. |
| LayerTables.LayerArtistsSucceed | src/pycptcore/main.py:128-130 | Drawing the first n rows succeeds exactly when n is 0, or the offset and those rows' boundaries are numbers. |
| LayerTables.LayerArtistsGeometry | src/pycptcore/main.py:128-145 | After a successful draw there are two artists per row, in row order. First comes a band from x = 0 to 1 between `offset - lowerBoundary` and `offset - upperBoundary` in the row's colour. Then comes the soil name at x = 0.25, at the midpoint `(lower - upper) / 2 + upper`, in font size 5. |
| LayerTables.RowDrawn | src/pycptcore/main.py:128-145 | Dataframe row k is drawn at positions 2k and 2k+1 from the cells of the table row it carries. |
| LayerTables.DrawnAfter | src/pycptcore/main.py:132-145 | Artists already on the axes shift every drawn row back by their number. |
| LayerTables.PlotSucceeds | src/pycptcore/main.py:110-147 | `plot` succeeds exactly when the dataframe is empty, or the offset and the boundaries of every dataframe row are numbers. |
| LayerTables.PlotNothingToDraw | src/pycptcore/main.py:125-147 | With an empty dataframe (no layers, or none complete) the loop never subtracts, so `plot` succeeds whatever the offset; it only inverts y once and clears the x tick labels. |
| LayerTables.PlotGeometry | src/pycptcore/main.py:125-147 | After `plot`, whatever the axes held comes first, unchanged. Then come one band and one label per dataframe row, in row order, each from that row's own cells, and each label lies between its band's boundaries. The y-axis is inverted once and the x tick labels are cleared; nothing else changes. |
| CptTables.KeyPrecedence | src/pycptcore/main.py:190-200 | `penetrationLength` is the value under "depth" whenever that key exists. Otherwise it is the value under "penetrationLength", or `None`. `frictionRatio` is the value under "frictionRatio", falling back to "frictionRatioComputed" in the same way. The other three fields are direct lookups. |
| CptTables.FromApiResponse | src/pycptcore/main.py:180-200 | Construction succeeds exactly when the five looked-up values are lists of one length. The resulting columns are those lists. |
| CptTables.DepthAlias | src/pycptcore/main.py:191-193 | A response carrying the depths under "depth" builds the same table as one carrying them under "penetrationLength". |
| CptTables.PenetrationLengthMissing | src/pycptcore/main.py:191-193 | A "depth" key holding null hides "penetrationLength". That response, like one with neither key, fails with `NoLength("penetrationLength")`. |
| CptTables.Dataframe | src/pycptcore/main.py:202-205 | The `dataframe` has five equal-length columns. Every row of it carries the label of a sample and exactly that sample's cells. |
| CptTables.DataframeRows | src/pycptcore/main.py:202-205 | `dataframe` keeps exactly the samples with no `None` cell, by label in ascending order. It has at most as many rows as the table, and exactly as many when no cell is `None`. |
| CptTables.DepthTrace | src/pycptcore/main.py:239 | `[offset - value for value in penetrationLength]` succeeds exactly when the column is empty, or the offset and every value are numbers. It then has one element per sample, namely `offset - penetrationLength[i]`. |
| CptTables.PlotTraceSpec | src/pycptcore/main.py:229-242 | The shared body of the trace routines succeeds exactly when the depths support the subtraction. It puts the x-axis on top, sets the style's spine, limits, label and colour, and sets the x direction from the limits and the style, whatever it was before. It inverts y once and appends one line: the x column unchanged against the raw depths. Nothing else changes. |
| CptTables.ConeResistancePlotted | src/pycptcore/main.py:229-242 | `plot_cone_resistance` draws the unfiltered `coneResistance` column against `offset - penetrationLength[i]`. It uses x-limits [0, 40], spine position 1 and label "$q_c$ [MPa]" in "#2d2e87", and leaves x running left to right. |
| CptTables.LocalFrictionPlotted | src/pycptcore/main.py:266-280 | `plot_local_friction` draws the unfiltered `localFriction` column against `offset - penetrationLength[i]`. It uses x-limits [0, 0.8], spine position 1.05 and label "$f_s$ [MPa]" in "#e04913", and leaves x running left to right. |
| CptTables.FrictionRatioPlotted | src/pycptcore/main.py:304-319 | `plot_friction_ratio` draws the unfiltered `frictionRatio` column against `offset - penetrationLength[i]`. It uses x-limits [0, 16], spine position 1.1 and label "$R_f$ [%]" in "tab:gray", and leaves x running right to left. |
| CptTables.TraceDirectionIgnoresHistory | src/pycptcore/main.py:304-311 | The x direction depends only on the routine: q_c drawn over an R_f panel runs left to right, because `set_xlim` resets the direction. R_f drawn twice still runs right to left. |
| Axes.Range | src/pycptcore/main.py:434-435 | Python `range(start, stop, step)` with a positive step. It is empty exactly when stop <= start. Otherwise it starts at start, steps by step, and ends at the last value below stop. |
| Axes.GridTicks | src/pycptcore/main.py:434-437 | The major ticks are 0, 5, ..., 40. The minor ticks are 0, 1, ..., 40, that is 41 values. |
| Soil.FromApiResponse | src/pycptcore/main.py:370-387 | The result satisfies both tables' invariants, and both tables are those their own `from_api_response` builds. Each metadata field takes the value under its key when the key is present. Otherwise the reference point and label default to "Unknown", the offset to 0, and the pre-drilled depth and groundwater level to `None`. A missing location block gives a Location of three `None`s. |
| Soil.FromApiResponseOutcome | src/pycptcore/main.py:370-387 | Construction succeeds exactly when the data block (if present) and the location block (if present) are dicts and both tables build. Failures come in argument order, each reported as raised. A non-dict data block raises `AttributeError`. A missing data block fails on `penetrationLength`. A CPT failure comes next. Then a layer failure, when the CPT table builds. Last comes `AttributeError` for a non-dict location block, when both tables build. |
| Soil.ReferenceLines | src/pycptcore/main.py:443-458 | The groundwater line at `offset - groundwaterLevel` and the surface line at `offset - predrilledDepth` are each drawn only when the value is truthy, so a missing, `None` or zero value gives no line. The lines are drawn in that order, in their colours and styles. Drawing fails exactly when a needed subtraction is undefined. |
| Soil.PlotLayout | src/pycptcore/main.py:413-465 | The figure is drawn exactly when the reference lines, the traces and the layer column can be drawn. The q_c panel holds the grid ticks, then the reference lines, then its trace. The f_s and R_f twins and the layer panel get their settings. All four use `verticalPositionOffset`. The four y inversions leave the shared depth axis upright. |
| Soil.CompleteSounding | src/pycptcore/main.py:370-387 | A parse response with five complete lists of n samples and a classify response with ten complete lists of m layers build a sounding. Its CPT dataframe has n rows and its layer dataframe has m rows. |

## Left out

- `Location.transform` (src/pycptcore/main.py:26-34) is an HTTP request to epsg.io. It is network I/O, so `Location` is kept only as a three-field record.
- matplotlib rendering is not modelled. That covers `plt.subplots` with its `figsize`, `width_ratios`, `tight_layout` and `**kwargs`, the grid and its alpha values, the y tick locator `MultipleLocator(0.5)`, and the legends. The `offset: float = 0` default of `LayerTable.plot` and of the three `plot_*` methods is not modelled: every routine of the model takes the offset as an argument, and a caller who omits it corresponds to passing `JNumber(0.0)`. The model records only the settings and drawing calls listed above. The shared y-axis that `sharey="row"` and `twiny` create is modelled, by `Soil.DepthAxisInverted`.
- matplotlib's handling of the x values of a trace is not modelled. The trace's x column is recorded as given, even when it holds `None`s or strings, because nothing in the core checks it.
- Floating-point numbers are modelled as reals. IEEE rounding, NaN cells and the int/float distinction are not modelled. A missing cell is JSON null, never NaN.
- Frame.Build: a field holding a string or a dict has a `len` in Python, so construction accepts it. pandas then broadcasts or rejects it when `dataframe` is called. The model stops with `UnsupportedColumn` instead, so a table whose fields are not all lists is not modelled.
- LayerTables.Plot, LayerTables.Plotted and LayerTables.DrawRows do not model the error path's effect on the caller's axes. The source has already drawn the bands and labels of the rows before the failing subtraction on the axes passed in; the model returns only the error.
- CptTables.PlotTrace and the three trace routines (`PlotConeResistance`, `PlotLocalFriction`, `PlotFrictionRatio`) do not model the error path's effect on the caller's axes. The source has already applied the top x-axis settings, the limits, the label and the y inversion when the depth subtraction raises; the model returns only the error.
- LayerTables.LayerArtistsSucceed passes colour cells through unchecked. matplotlib's `ValueError` on a colour it cannot parse in `fill_between` is not modelled, so "succeeds exactly when the dataframe is empty or the offset and boundaries are numbers" holds only for colours matplotlib accepts.
- LayerTables.PlotSucceeds and Soil.PlotLayout have the same limit: their success condition assumes every layer colour is one matplotlib accepts. Colour parsing belongs to matplotlib.
- When `plot_*` or `LayerTable.plot` is called on its own with no axes, it ends with the y-axis inverted on a fresh axes. The model follows the code in this. Only the composite figure, through its four inversions of the shared axis, ends upright.
- The depth copy into `correctedPenetrationLength` in marimo/sample/app.py is orchestration by a caller, and is not part of this model. Neither are the test fixtures.
