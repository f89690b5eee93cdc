# WKTPlot geometry-to-renderer mapping, in Dafny

WKTPlot draws shapely geometries (parsed from Well-Known Text) on a Bokeh
figure. This project models the layer between the two. That layer:

- takes an already-parsed geometry;
- decides its kind;
- recurses through multi-part shapes;
- turns each shape into the coordinate lists of one drawing call.

The model covers four implementations of that layer and the filename helpers:

- **`StandardMapper`** (`src/wktplot/mappers/standard.py`), the current
  implementation:
  - a type gate for the eight supported kinds, raising `TypeError`;
  - an empty short-circuit;
  - depth-first recursion over multi-part shapes;
  - one `circle`, `line` or `multi_polygons` call per non-empty primitive;
  - every polygon ring loses its duplicated closing point.
- **`OpenStreetMapper`** (`src/wktplot/mappers/osm.py`): the same dispatch
  (`add_shape` is inherited), with the coordinates projected by
  `geographic_to_mercator`. Input x is passed as the latitude and input y as
  the longitude.
- **The older `WKTPlot` class** (`src/wktplot/wktplot.py`) and its prototype
  (`wktplot/wkt_plot.py`). They differ from the current mapper:
  - emptiness is checked before kind;
  - unknown kinds raise `NotImplementedError`;
  - a MultiPoint becomes one `circle` call;
  - a MultiLineString becomes one `multi_line` call;
  - all rings of a MultiPolygon land in one polygon entry of one
    `multi_polygons` call.

  The prototype fixes the style to `line_width=3` and adds `add_shapes`.
- **`StandardMap`** (`src/wktplot/maps/standard.py`): the three extractors
  without the dispatch.
- **`sanitize_text` / `remove_symbols` / `_remove_symbols`** and
  **`get_random_string`** (`src/wktplot/common/file_utils.py`,
  `src/wktplot/utils.py`).

The pieces of the model:

- **Geometries** are a closed datatype with the eight shapely kinds plus
  `Other` for any other kind (`geometry.dfy`). Emptiness follows GEOS: a
  collection is empty when all its members are.
- **The figure** is a class whose only state is the sequence of drawing calls
  it has received (`renderer.dfy`).
- **Run specifications.** What one `add_shape` run does is specified by a
  function returning a `Run`. A `Run` holds the calls issued, then possibly
  the exception raised. An exception part-way through a collection keeps the
  calls already made.
- **The imperative code** becomes methods that append to the figure and loop
  as the source does. Each is proved to produce exactly the `Run` of its
  specification function.
- **The Mercator formula** keeps its structure. Its transcendental pieces
  (`pi`, `tan`, `log`) are a parameter, so the lemmas state which input axis
  feeds which output and not numeric values.

`OpenStreetMapper` inherits the per-member recursion of `add_shape`
(src/wktplot/mappers/standard.py:53-55); only the older `_get_poly_coordinates`
(src/wktplot/wktplot.py:198-204) concatenates MultiPolygon rings.

## Model

| member | source | states |
|---|---|---|
| Geometry.DropLastReclose | src/wktplot/mappers/standard.py:26-28 | dropping the last point of a closed ring and re-appending its first point gives the stored ring back, and the result is one shorter |
| Renderer.Figure.constructor | src/wktplot/wktplot.py:50-51 | a new figure has received no drawing call |
| Renderer.Figure.Circle | src/wktplot/mappers/standard.py:59 | `figure.circle` appends exactly one circle call, with its arguments and style, and changes nothing else |
| Renderer.Figure.Line | src/wktplot/mappers/standard.py:63 | `figure.line` appends exactly one line call |
| Renderer.Figure.MultiLine | src/wktplot/wktplot.py:158 | `figure.multi_line` appends exactly one multi-line call |
| Renderer.Figure.MultiPolygons | src/wktplot/mappers/standard.py:67 | `figure.multi_polygons` appends exactly one multi-polygons call |
| Mercator.GeographicToMercatorAll | src/wktplot/mappers/osm.py:12-32 | on numpy arrays the result keeps both lengths, and element i is the scalar conversion of element i |
| Mercator.AxesIndependent | src/wktplot/mappers/osm.py:26-32 | the longitude result does not change with the latitude, nor the latitude result with the longitude |
| Mercator.MercLngLinear | src/wktplot/mappers/osm.py:27-30 | the longitude result is EARTH_RADIUS times radians: 0 maps to 0, and sums map to sums |
| StandardCoords.LineStringCoords | src/wktplot/mappers/standard.py:16-19 | both lists have the coordinate count, and element i is the x (resp. y) of coordinate i; the closing point is kept |
| StandardCoords.Rings | src/wktplot/mappers/standard.py:21-37 | 1 + (number of interiors) rings: the exterior first, then the interiors in source order, each without its last coordinate |
| StandardCoords.RingsReclose | src/wktplot/mappers/standard.py:24-35 | for closed rings, every returned ring plus its source ring's first point is the source ring |
| StandardCoords.GetPolygonCoords | src/wktplot/mappers/standard.py:21-37 | the loop builds exactly the x and y columns of `Rings`; the two nested lists have the same outer length and the same length ring by ring |
| OsmCoords.PointCoords | src/wktplot/mappers/osm.py:37-49 | the output x is the longitude projection of the input y, and the output y is the latitude projection of the input x |
| OsmCoords.LineStringCoords | src/wktplot/mappers/osm.py:51-63 | both lists keep the input length, and element i comes from input element i alone, with the axes swapped |
| OsmCoords.PolygonCoords | src/wktplot/mappers/osm.py:65-84 | the same number of rings as the standard extractor, in the same order and of the same lengths; x and y stay paired ring by ring |
| OsmCoords.PolygonCoordsElementwise | src/wktplot/mappers/osm.py:71-84 | point j of ring k is the projection of point j of the standard ring k, after the closing point is dropped, with the axes swapped |
| OsmCoords.GetPolygonCoords | src/wktplot/mappers/osm.py:65-84 | the standard extraction followed by the zip loop produces exactly `PolygonCoords` |
| OsmCoords.ProjectColumns | src/wktplot/mappers/osm.py:73-82 | the loop over `zip(x, y)` returns as many rings as it is given, and ring k of the output x is the longitude projection of y column k (of the output y, the latitude projection of x column k) |
| Mapper.GetPolygonCoords | src/wktplot/mappers/standard.py:65-67 | `cls._get_polygon_coords` resolves to the standard or the OpenStreetMap extractor, and returns what that extractor specifies |
| Mapper.PlotAllAppend | src/wktplot/mappers/standard.py:53-55 | plotting the parts of `a + b` is plotting those of `a`, then, unless that raised, those of `b` |
| Mapper.AddShape | src/wktplot/mappers/standard.py:40-67 | `add_shape` appends to the figure exactly the calls of its specification `Plot`, and raises what `Plot` raises |
| Mapper.AddParts | src/wktplot/mappers/standard.py:53-55 | the loop over `shape.geoms` appends exactly the calls of `PlotAll` and stops at the first exception, raising it |
| MapperProperties.TypeGate | src/wktplot/mappers/standard.py:45-48 | a kind outside the eight raises TypeError naming it, with no drawing call, even when empty |
| MapperProperties.EmptyShortCircuit | src/wktplot/mappers/standard.py:50-51 | a supported empty shape draws nothing and raises nothing |
| MapperProperties.StandardPoint | src/wktplot/mappers/standard.py:57-59 | a non-empty point draws exactly one circle at its scalar x and y |
| MapperProperties.StandardLine | src/wktplot/mappers/standard.py:61-63 | a non-empty LineString or LinearRing draws exactly one line through all coordinates in order |
| MapperProperties.LinearRingKeepsClosingPoint | src/wktplot/mappers/standard.py:61-63 | a LinearRing's line keeps its closing point: it has the ring's length and ends where it starts |
| MapperProperties.StandardPolygon | src/wktplot/mappers/standard.py:65-67 | a non-empty polygon draws exactly one `multi_polygons([[x]], [[y]])` call over its opened rings |
| MapperProperties.MultipartInOrder | src/wktplot/mappers/standard.py:53-55 | a non-empty multi-part shape with any number of parts plots exactly as its list of parts, with the same style; when no part fails, the calls are each part's calls end to end |
| MapperProperties.PlotAllSplits | src/wktplot/mappers/standard.py:53-55 | split at any part k, plotting the parts is the first k parts' run followed by the rest's, which is skipped once a part has raised |
| MapperProperties.PartsConcatenate | src/wktplot/mappers/standard.py:53-55 | when no part of a list fails, plotting all of them gives, without failure, each part's calls end to end |
| MapperProperties.NeverFails | src/wktplot/mappers/standard.py:45-67 | a shape made only of the eight kinds never raises, for either mapper |
| MapperProperties.OneCallPerPrimitive | src/wktplot/mappers/standard.py:53-67 | the number of drawing calls equals the number of non-empty primitive shapes, for either mapper |
| MapperProperties.StyleForwarded | src/wktplot/mappers/standard.py:55-67 | every drawing call carries the style map unchanged |
| MapperProperties.OsmIsProjectedStandard | src/wktplot/mappers/osm.py:35-84 | the OpenStreetMap mapper's run is the standard mapper's run with every coordinate projected: same call kinds, same order, same failures |
| MapperExamples.HollowPolygon | src/wktplot/mappers/standard.py:21-37 | a polygon with one hole draws one call with its exterior and its hole, both opened |
| MapperExamples.TwoPolygons | tests/unit/maps/test_standard.py:143-153 | a two-member MultiPolygon draws one `multi_polygons` call per member, in order |
| MapperExamples.MixedCollection | src/wktplot/mappers/standard.py:53-67 | a collection of a point, a line and a polygon draws a circle, a line and a polygon, in that order |
| MapperExamples.EmptyPoint | tests/unit/maps/test_standard.py:60-67 | `POINT EMPTY` draws nothing |
| StandardMap.GetPointCoords | src/wktplot/maps/standard.py:8-11 | the point's x and y, unchanged |
| StandardMap.GetLineStringCoords | src/wktplot/maps/standard.py:13-17 | both lists have the coordinate count, in order, with the closing point kept |
| StandardMap.GetPolygonCoords | src/wktplot/maps/standard.py:19-35 | 1 + (number of interiors) list pairs: the exterior first, then the interiors in order, each column without its last entry; x and y are paired ring by ring |
| StandardMap.ColumnsReclose | src/wktplot/maps/standard.py:24-33 | for a closed ring, a returned column plus its first entry is the ring's full column |
| FileUtils.SanitizedShape | src/wktplot/common/file_utils.py:22-23 | the output holds only `[a-z0-9_]`, and every `_` sits strictly inside, between two letters or digits, so there is no leading, trailing or doubled `_` |
| FileUtils.NoUpperCase | src/wktplot/common/file_utils.py:22-23 | no upper-case letter survives |
| FileUtils.FindAllIsMaximalRuns | src/wktplot/common/file_utils.py:8 | `findall` returns exactly `Runs(s)`: for each position that starts a maximal alphanumeric run, in order, the word from there up to the first non-alphanumeric character or the end; so there is one non-empty word per run start, and end to end the words are the input's alphanumeric characters in order |
| FileUtils.SanitizeTwoWords | src/wktplot/common/file_utils.py:22-23 | two lower-case words joined by any non-empty run of non-alphanumeric characters sanitize to the words joined by a single underscore |
| FileUtils.SanitizeThreeWords | src/wktplot/common/file_utils.py:22-23 | three lower-case words with non-empty separator runs between them sanitize to the words joined by single underscores |
| FileUtils.NoAlphaNumGivesEmpty | src/wktplot/common/file_utils.py:22-23 | input without ASCII letters or digits gives the empty string |
| FileUtils.SanitizeIdempotent | src/wktplot/common/file_utils.py:22-23 | sanitizing a sanitized name changes nothing |
| FileUtils.SanitizeRetokenizes | src/wktplot/common/file_utils.py:22-23 | splitting the output at `_` gives back the runs of the lower-cased input |
| FileUtils.SanitizeDocExample | src/wktplot/common/file_utils.py:12-13 | `"wow 123_ @#$%    1"` becomes `"wow_123_1"` |
| FileUtils.SanitizeMixedCaseExample | tests/unit/plots/test_standard.py:8-9 | `"Michael Plot ABC123"` becomes `"michael_plot_abc123"` |
| FileUtils.GetRandomString | src/wktplot/common/file_utils.py:26-38 | the result has `string_length` characters (none when it is negative), all from the ASCII letters and digits |
| FileUtils.OptionsAreAlphaNum | src/wktplot/common/file_utils.py:36 | the 62 options are exactly the ASCII letters and digits |
| Utils.RemoveSymbolsIsSanitize | src/wktplot/utils.py:20 | `remove_symbols` equals `sanitize_text` on every input, because stripping a run of letters and digits changes nothing |
| Utils.RemoveSymbolsExamples | tests/test_utils_functions.py:13-22 | the five test inputs give `hello`, `hello_123`, `wowzers_456789`, `123_yep_ok` and `okeey` |
| Utils.GetRandomString | src/wktplot/utils.py:33-34 | `string_length` characters, each an ASCII letter or digit |
| LegacyPlot.PolyRingsAllAppend | src/wktplot/wktplot.py:199-204 | the rings of the sub-polygons of `a + b` are those of `a` followed by those of `b`, or the first TypeError |
| LegacyPlot.PlotAllAppend | src/wktplot/wktplot.py:81-83 | `add_shape` over the members of `a + b` is the run over `a`, then, unless that raised, over `b` |
| LegacyPlot.PlotPoints | src/wktplot/wktplot.py:103-130 | `_plot_points` appends exactly the one circle call of `PointsRun` (every member's x and y in order, or one-element lists), or raises TypeError with no call |
| LegacyPlot.PlotLines | src/wktplot/wktplot.py:132-160 | `_plot_lines` appends one `line` call (closing point kept) or one `multi_line` call with one list pair per member, or raises TypeError with no call |
| LegacyPlot.GetPolyCoordinates | src/wktplot/wktplot.py:185-219 | `_get_poly_coordinates` returns the columns of `PolyRings`: a Polygon's opened exterior then interiors, a MultiPolygon's sub-lists concatenated in order, and a TypeError otherwise |
| LegacyPlot.PolygonCoordinates | src/wktplot/wktplot.py:206-216 | the interiors loop and the prepended exterior give the columns of the standard `Rings` |
| LegacyPlot.PlotPolys | src/wktplot/wktplot.py:162-183 | `_plot_polys` appends one `multi_polygons([[x]], [[y]])` call, or raises TypeError with no call |
| LegacyPlot.AddShape | src/wktplot/wktplot.py:53-85 | `add_shape` appends exactly the calls of `Plot` and raises what it raises: emptiness first, then a family dispatch, recursion over collections, NotImplementedError otherwise |
| LegacyPlot.AddParts | src/wktplot/wktplot.py:81-83 | the loop over a collection's members appends exactly the calls of `PlotAll` and stops at the first exception, raising it |
| LegacyPlot.RemoveSymbols | src/wktplot/wktplot.py:221-232 | `_remove_symbols` is `sanitize_text` |
| LegacyProperties.EmptyReturns | src/wktplot/wktplot.py:71-73 | an empty shape of any kind draws nothing and raises nothing |
| LegacyProperties.UnknownKindRaises | src/wktplot/wktplot.py:84-85 | a non-empty unknown kind raises NotImplementedError naming it, with no drawing call |
| LegacyProperties.HelpersRejectOtherFamilies | src/wktplot/wktplot.py:127-128 | each helper raises TypeError naming the type, with no call, on a non-empty shape of another family |
| LegacyProperties.EmptyUnknownKind | src/wktplot/wktplot.py:71-85 | an empty unknown kind is skipped here, where `StandardMapper` raises TypeError |
| LegacyProperties.MultiPolygonRings | src/wktplot/wktplot.py:198-204 | a MultiPolygon's ring list is its polygons' ring lists concatenated in order, one exterior plus the interiors per polygon, and never raises |
| LegacyProperties.MultiPolygonOneEntry | src/wktplot/wktplot.py:182-183 | a non-empty MultiPolygon issues one `multi_polygons` call whose single polygon entry holds every ring of every member |
| LegacyProperties.NeverFails | src/wktplot/wktplot.py:53-85 | a shape with no non-empty unknown kind never raises |
| LegacyProperties.StyleForwarded | src/wktplot/wktplot.py:130 | every drawing call carries the style map unchanged |
| LegacyProperties.MultiPointBatched | src/wktplot/wktplot.py:120-130 | a non-empty MultiPoint gives one circle call with every member's x and y in order, where `StandardMapper` gives one call per member |
| LegacyProperties.MultiLineBatched | src/wktplot/wktplot.py:152-158 | any well-formed non-empty MultiLineString, empty members included, gives one `multi_line` call with each member's columns in order; `StandardMapper` instead gives one call per non-empty member, so one per member when none is empty |
| LegacyProperties.LinearRingKeepsClosingPoint | src/wktplot/wktplot.py:149-151 | a LinearRing is drawn as one line that ends where it starts |
| LegacyExamples.MultiPointOneCircle | tests/test_internal_functions.py:32-42 | the four-point MultiPoint test gives one circle with columns `[10, 40, 20, 30]` and `[40, 30, 20, 10]` |
| LegacyExamples.PointOneElementColumns | tests/test_internal_functions.py:19-29 | `POINT (30 10)` gives one circle with `[30]` and `[10]` |
| LegacyExamples.HollowMultiPolygonRings | tests/test_internal_functions.py:217-228 | the hollow MultiPolygon test gives three opened rings in one list pair |
| LegacyExamples.LinearRingIsNotAPolygon | tests/test_internal_functions.py:230-238 | a LinearRing given to `_get_poly_coordinates` raises TypeError |
| PrototypePlot.PlotPoints | wktplot/wkt_plot.py:71-88 | one `circle(x, y, line_width=3)` call with every member in order, or TypeError |
| PrototypePlot.PlotLines | wktplot/wkt_plot.py:90-108 | one `line` or `multi_line` call with `line_width=3`, closing point kept, or TypeError |
| PrototypePlot.GetPolyCoordinates | wktplot/wkt_plot.py:123-148 | the same ring lists as the older `_get_poly_coordinates` |
| PrototypePlot.PlotPolys | wktplot/wkt_plot.py:110-121 | one `multi_polygons([[x]], [[y]], line_width=3)` call, or TypeError |
| PrototypePlot.AddShape | wktplot/wkt_plot.py:33-53 | the dispatch of the older `add_shape`, with the style fixed to `line_width=3` |
| PrototypePlot.AddShapes | wktplot/wkt_plot.py:55-59 | `add_shapes` appends the calls of `add_shape` on each shape in order, and stops at the first exception |
| PrototypePlot.OnlyLineWidth | wktplot/wkt_plot.py:88 | every prototype drawing call carries `line_width=3` and no other style |
| PrototypePlot.AddShapesConcatenates | wktplot/wkt_plot.py:55-59 | with no unknown kinds, `add_shapes` never raises and its calls are the per-shape calls end to end |

## Left out

- WKT text input (`wkt.loads` when `shape` is a string): parsing belongs to shapely/GEOS. Inputs are already-parsed geometries.
- Numeric values of the Mercator projection (`np.radians`, `np.tan`, `np.log`, `np.pi`): floating-point transcendental functions. They are a parameter, so only the structure is proved. Floats are modelled as reals. The `float(...)` and `np.array(..., dtype=float)` conversions are identities here.
- Figure construction, output files, `save`, `show`, tile providers and style-dict merging (`src/wktplot/plots/*.py`, `src/wktplot/figures/*.py`, `src/wktplot/maps/osm.py`, and the `WKTPlot` constructors): foreign Bokeh calls and I/O. The figure is reduced to its trace of drawing calls.
- `WKTPlot._get_random_string` in src/wktplot/wktplot.py: only the constructor uses it. Its code is that of `Utils.GetRandomString`.
- The prototype's `add_geodataframe` and `save_wkt`: their bodies are `pass`.
- The filesystem check on `save_dir`, and all logging: I/O.
- The repository-root `wkt_plot.py`: a matplotlib prototype that is not part of this model.
- FileUtils.Lower: only ASCII letters are lowered. Python's `str.lower` also maps some non-ASCII letters to ASCII ones (KELVIN SIGN to `k`, for example), which would then join a run.
- FileUtils.GetRandomString: the random draw is an arbitrary choice. Only the length and alphabet are stated, not the distribution.
- LegacyPlot.AddShape: requires `WellFormed`, and so do PlotPoints, PlotLines, PointsRun, LinesRun and Plot. shapely only builds MultiPoints of non-empty points, MultiLineStrings of line strings and MultiPolygons of polygons. The `AttributeError` a malformed member would cause is not modelled.
- PrototypePlot.AddShape: the prototype iterates `for point in shape` (shapely 1.x multi-part iteration). It is modelled as iteration over the members, like `shape.geoms`.
- Mapper.AddShape: the exception is returned as a value, not propagated, so Python's traceback is not modelled.
