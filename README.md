# Web Mercator coordinates, tiles and bounding boxes in Dafny

This project models the core of the `webmercator` Python library and proves
properties of the model. The library converts a geographic point
(latitude and longitude in degrees) into three other representations:

- Web Mercator meters;
- pixels of a world map `256 * 2 ** zoom` pixels wide;
- indices of the 256-pixel tiles of that map.

It also derives a square bounding box around a point and iterates the tiles
that box covers.

The model has four modules:

- `MercatorUtil` (`util.dfy`) has the constants of `webmercator/util.py`. It
  also has the Python numeric primitives the library leans on:
  - `round(x, n)` (`RoundTo`);
  - `round(x)` (`RoundInt`);
  - `int(x)` (`Trunc`, truncation toward zero);
  - `2 ** n` (`Pow2`).

  It also has the `Option`/`Result` wrappers that stand for `None` and for
  the two exceptions the library raises, `TypeError` and `AttributeError`.
- `MercatorGrid` (`grid.dfy`) models `Grid`, a single-pass cursor over the
  `(width + 1) x (height + 1)` cells of a rectangle, visited in row-major
  order.
  - The class `Grid` keeps the mutable cursor `x`, `y` and a ghost record of
    the cells yielded so far.
  - `Next` is one step of `__iterate`, and `Collect` drains the iterator.
  - `AllCells` is the specification sequence both are proved against.
- `MercatorPoint` (`point.dfy`) models `Point`. A point stores only an
  optional latitude, an optional longitude and a zoom level.
  - The class `Point` has exactly those three fields. Its setters update
    them in place: `SetLongitude` keeps the two ±360 wrapping loops of the
    source.
  - Each setter is proved equal to a transformation of the value
    `PointState` (`WithLatitude`, `WithPixelX`, …).
  - The getters are functions on `PointState`. They read zero as unset,
    exactly as Python's truthiness does: `if self.longitude:` skips a
    longitude of `0.0`.
- `MercatorBox` (`box.dfy`) models `BoundingBox`. `Init` and
  `BoundingBox.Create` resolve the constructor arguments.
  - `BoundVertices` is the `for` loop that builds one new `Point` per bearing.
  - The envelope, corners, pixel and tile extents, relative offsets and the
    tile grid are functions on the resulting `BoxState`.

The maths that has no exact counterpart on reals is kept abstract:

- The circumference `2 * pi * R` is a field of `Projection`. It is only
  known to lie between `6R` and `8R`.
- So are the four formulas of `meter_y` and `pixel_y` and their inverses
  (tan, log, sin, atan, exp).
- The spherical destination-point formula of `_bound_vertices` is a
  function parameter of type `Destination`.

Everything proved holds whatever those functions are. The one exception is
marked by the hypothesis `PixelYFractionAntitone`: on the Mercator latitude
range [-85.05112878, 85.05112878], pixel y falls as latitude grows. The
library's `pixel_y` formula has that property on this range, which holds every
latitude a Point stores. It does not have it on all reals, because sin
repeats.

Behaviours of the code that are easy to misread, which the model follows
as written:

- The longitude setter's loops stop inside the closed range [-180, 180],
  not the half-open (-180, 180]: `-180` is stored as `-180`, not as `180`. The "L + 360 stores what L
  stores" property therefore holds for L in (-180, 180] only
  (`LongitudeUpTurns`). The "L - 360" property holds for L in [-180, 180)
  only (`LongitudeDownTurns`).
- `tile_x`, `tile_y`, `pixel_width`, `pixel_height` and the relative pixel
  offsets use `int()`, which truncates toward zero rather than rounding
  down.
  - For `tile_x` the two agree, because the pixel is never negative.
  - For `tile_y` and the relative offsets they differ on negative values,
    and the model truncates.
- `BoundingBox.zoom_level` keeps the zoom argument as given. Only the
  points the box builds clamp it to [1, 23].
  - The attribute may be reassigned after construction. The centre keeps
    its own zoom, and every corner and pixel property reads the box's.
- A `BoundingBox` whose centre has no latitude or no longitude raises
  `TypeError` while the centre is copied, under Python 3.
  - A missing latitude fails in the latitude setter, whose `max` compares
    `None` with a number (webmercator/point.py:72).
  - A latitude without a longitude fails in the longitude setter, whose
    loop test `value < -180` compares `None` with a number
    (webmercator/point.py:82).
- The getters read zero as unset. A point on the prime meridian
  therefore has no `meter_x`, `pixel_x` or `tile_x`, and one on the equator
  has no `meter_y`, `pixel_y` or `tile_y`. The model keeps this. The pixel
  and tile round trips exclude the central pixel and tile for this reason.

## Model

| member | source | states |
|---|---|---|
| MercatorUtil.RoundTo | webmercator/point.py:72-73 | `round(x, n)` is an n-place decimal (a whole multiple of `10 ** -n`) within half a unit of the n-th decimal place of x |
| MercatorUtil.RoundInt | webmercator/point.py:129 | `round(x)` is an integer within half a unit of x |
| MercatorUtil.RoundToMonotone | webmercator/point.py:72-73 | rounding to n places never reverses the order of two values |
| MercatorUtil.RoundToIdempotent | webmercator/point.py:88 | rounding an already rounded value to the same place changes nothing |
| MercatorUtil.RoundIntMonotone | webmercator/point.py:129 | integer rounding never reverses the order of two values |
| MercatorUtil.Trunc | webmercator/box.py:181 | `int(x)` truncates toward zero: below x and within 1 for x ≥ 0, above x and within 1 for x < 0 |
| MercatorUtil.TruncMonotone | webmercator/point.py:156 | truncation never reverses the order of two values |
| MercatorUtil.TruncWhole | webmercator/box.py:166 | `int()` of a whole number gives it back |
| MercatorUtil.Pow2 | webmercator/point.py:116 | `2 ** n` is a positive whole number |
| MercatorUtil.Pow2Monotone | webmercator/point.py:116 | `2 ** m <= 2 ** n` when `m <= n` |
| MercatorUtil.Pow2AtMost23 | webmercator/point.py:124 | every zoom factor `2 ** z` for z up to 23 is at most 2 ** 23 |
| MercatorUtil.Pow2Of23 | webmercator/point.py:124 | `2 ** 23` is 8388608 |
| MercatorGrid.CheckArgs | webmercator/grid.py:34-43 | AttributeError exactly when `vertex`, `width` or `height` is missing; otherwise the start is the vertex and each extent is the argument truncated by `int()` |
| MercatorGrid.CellCount | webmercator/grid.py:48-59 | the grid has no cell exactly when the width or the height is negative |
| MercatorGrid.CellAt | webmercator/grid.py:49-57 | the k-th cell lies in the grid's columns and below its first row, and in its rows when k is below the cell count |
| MercatorGrid.AllCells | webmercator/grid.py:48-59 | the yielded sequence has as many cells as `CellCount` says, the k-th one at row-major position k |
| MercatorGrid.CheckArgsWhole | webmercator/grid.py:42-43 | whole-number extents are kept exactly |
| MercatorGrid.Grid.constructor | webmercator/grid.py:32 | a new cursor stands at (0, 0) with nothing yielded and the cursor invariant in force |
| MercatorGrid.Grid.Create | webmercator/grid.py:31-43 | fails exactly when the arguments fail, with the same error; otherwise returns a fresh valid grid of that shape at (0, 0) |
| MercatorGrid.Grid.Next | webmercator/grid.py:48-63 | an exhausted cursor returns StopIteration and changes nothing; otherwise the cell at the cursor is returned, the cursor steps right or to the next row after the last column, and the cell is the next one of the row-major sequence |
| MercatorGrid.Grid.Collect | webmercator/grid.py:45-59 | draining the iterator yields the rest of the row-major sequence and leaves it exhausted, so an exhausted grid yields nothing again |
| MercatorGrid.Grid.ExhaustedYieldedAll | webmercator/grid.py:51-52 | when the cursor stops, every cell of the grid has been yielded |
| MercatorGrid.AllCellsCount | webmercator/grid.py:48-59 | with non-negative extents the grid yields exactly `(width + 1) * (height + 1)` cells |
| MercatorGrid.AllCellsEmpty | webmercator/grid.py:51-52 | with a negative extent the grid yields no cell |
| MercatorGrid.FirstAndLastCell | webmercator/grid.py:49-57 | the first cell is the vertex and the last is `(start_x + width, start_y + height)` |
| MercatorGrid.CellAtCoordinates | webmercator/grid.py:49-57 | the cell at row-major position `j * (width + 1) + i` is `(start_x + i, start_y + j)` |
| MercatorGrid.AllCellsCoverRectangle | webmercator/grid.py:49-57 | every cell of the rectangle occurs at its row-major position, and no cell outside it occurs |
| MercatorGrid.AllCellsRowMajor | webmercator/grid.py:53-57 | each next cell is one step right, or the first cell of the next row after the last column |
| MercatorGrid.AllCellsInjective | webmercator/grid.py:48-59 | no cell is yielded twice |
| MercatorGrid.CornerCells | webmercator/grid.py:48-59 | a grid spanning (x0, y0) to (x1, y1) yields `(x1 - x0 + 1) * (y1 - y0 + 1)` cells, from (x0, y0) to (x1, y1) |
| MercatorPoint.StoredLatitude | webmercator/point.py:69-73 | the stored latitude lies in [-85.05112878, 85.05112878], saturates at the bound beyond it, is an 8-place decimal, and is within 8-place rounding of an in-range value |
| MercatorPoint.WrapLongitude | webmercator/point.py:82-86 | the loops stop in [-180, 180], leave an in-range value alone, and stop below 180 coming from below and above -180 coming from above |
| MercatorPoint.WrapLongitudeUnique | webmercator/point.py:82-86 | the loops' result is the only value in range that differs from the input by whole turns and lies on the side they reach |
| MercatorPoint.StoredLongitude | webmercator/point.py:79-88 | the stored longitude lies in [-180, 180], is an 8-place decimal, and is within 8-place rounding of an in-range value |
| MercatorPoint.LongitudeUpTurns | webmercator/point.py:79-88 | for L in (-180, 180], setting L + 360k stores what setting L stores |
| MercatorPoint.LongitudeDownTurns | webmercator/point.py:79-88 | for L in [-180, 180), setting L - 360k stores what setting L stores |
| MercatorPoint.StoredLatitudeIdempotent | webmercator/point.py:69-73 | setting a stored latitude again stores it unchanged |
| MercatorPoint.StoredLongitudeIdempotent | webmercator/point.py:79-88 | setting a stored longitude again stores it unchanged |
| MercatorPoint.StoredZoom | webmercator/point.py:122-124 | the zoom setter stores `min(max(v, 1), 23)`: in-range values as given, others at the nearer bound |
| MercatorPoint.MapSize | webmercator/point.py:114-116 | `map_size` is a multiple of 256 between 512 and 2 ** 31 |
| MercatorPoint.MapSizeValue | webmercator/point.py:114-116 | `map_size` is `256 * 2 ** zoom` |
| MercatorPoint.MapSizeDoubles | webmercator/point.py:114-116 | each zoom level doubles the map size |
| MercatorPoint.MetersPerPixel | webmercator/point.py:162-165 | `meters_per_pixel` is positive and times the map size gives the circumference |
| MercatorPoint.MetersPerTile | webmercator/point.py:167-170 | `meters_per_tile` is positive and times `2 ** zoom` gives the circumference |
| MercatorPoint.MeterX | webmercator/point.py:90-95 | `meter_x` is unset exactly when longitude is unset or zero; otherwise it is a 9-place decimal within nanometre rounding of `longitude / 360 * circumference` |
| MercatorPoint.MeterY | webmercator/point.py:102-107 | `meter_y` is unset exactly when latitude is unset or zero; otherwise it is a 9-place decimal within nanometre rounding of the projection |
| MercatorPoint.PixelX | webmercator/point.py:126-129 | `pixel_x` is unset exactly when longitude is unset or zero; otherwise it is within half a pixel of the exact pixel and, for a stored longitude, in [0, map size] |
| MercatorPoint.PixelXExactRange | webmercator/point.py:129 | a longitude in [-180, 180] falls between pixel 0 and the map size |
| MercatorPoint.PixelY | webmercator/point.py:136-140 | `pixel_y` is unset exactly when latitude is unset or zero; otherwise it is within half a pixel of the projected fraction times the map size |
| MercatorPoint.TileX | webmercator/point.py:146-148 | `tile_x` is unset exactly when `pixel_x` is unset or zero; otherwise it is `pixel_x div 256`, and for a stored longitude between 0 and `2 ** zoom` |
| MercatorPoint.TileY | webmercator/point.py:154-156 | `tile_y` is unset exactly when `pixel_y` is unset or zero; otherwise it is `pixel_y / 256` truncated toward zero |
| MercatorPoint.WithLatitude | webmercator/point.py:69-73 | setting a latitude keeps the stored state within the setters' ranges |
| MercatorPoint.WithLongitude | webmercator/point.py:79-88 | setting a longitude keeps the stored state within the setters' ranges |
| MercatorPoint.WithZoomLevel | webmercator/point.py:122-124 | the zoom setter keeps both angles, stores an in-range zoom as given and keeps the state within the setters' ranges |
| MercatorPoint.WithMeterX | webmercator/point.py:97-100 | the meter_x setter sets the longitude only, keeping latitude, zoom and the setters' ranges |
| MercatorPoint.WithMeterY | webmercator/point.py:109-112 | the meter_y setter sets the latitude only, keeping longitude, zoom and the setters' ranges |
| MercatorPoint.LongitudeOfPixelX | webmercator/point.py:131-134 | the pixel_x setter's longitude is the inverse of the exact pixel formula, and the pixels of the map give longitudes in [-180, 180] |
| MercatorPoint.PixelLongitudeInverse | webmercator/point.py:129-134 | `360 * (v / m - 0.5)` maps back to v under the pixel formula, and into [-180, 180] for v in [0, m] |
| MercatorPoint.WithPixelX | webmercator/point.py:131-134 | the pixel_x setter sets the longitude only, keeping latitude, zoom and the setters' ranges |
| MercatorPoint.WithPixelY | webmercator/point.py:142-144 | the pixel_y setter sets the latitude only, keeping longitude, zoom and the setters' ranges |
| MercatorPoint.WithTileX | webmercator/point.py:150-152 | the tile_x setter sets the longitude only, keeping latitude, zoom and the setters' ranges |
| MercatorPoint.WithTileY | webmercator/point.py:158-160 | the tile_y setter sets the latitude only, keeping longitude, zoom and the setters' ranges |
| MercatorPoint.Construct | webmercator/point.py:37-60 | construction leaves the state within the setters' ranges, with the zoom argument, or 14, clamped |
| MercatorPoint.ConstructEmpty | webmercator/point.py:37-52 | `Point()` has no latitude or longitude, zoom 14, and every meter, pixel and tile value unset |
| MercatorPoint.ConstructGeo | webmercator/point.py:40-52 | `Point(latitude, longitude, zoom_level)` stores both through their setters and clamps the zoom |
| MercatorPoint.ConstructTileWins | webmercator/point.py:54-60 | a complete tile group decides the position, converted at the zoom of the same call |
| MercatorPoint.ConstructPixelWins | webmercator/point.py:44-56 | without tiles, a complete pixel group decides the position, converted at the zoom of the same call |
| MercatorPoint.ConstructMeterWins | webmercator/point.py:40-46 | without pixels or tiles, a complete meter group overrides the geo group |
| MercatorPoint.PixelXRoundTrip | webmercator/point.py:126-134 | writing an integer pixel x in [0, map size] other than the central one and reading it back gives the same pixel, at every zoom |
| MercatorPoint.PixelReadBack | webmercator/point.py:129-134 | a longitude within 8-place rounding of the one a pixel maps to rounds back to that pixel, and is not zero off the centre |
| MercatorPoint.TileXRoundTrip | webmercator/point.py:146-152 | writing a tile x in (0, 2 ** zoom] other than the central one and reading it back gives the same tile |
| MercatorPoint.MeterXRoundTrip | webmercator/point.py:90-100 | writing a meter x within half the circumference and reading it back gives a value within a millimetre |
| MercatorPoint.MeterXLongitude | webmercator/point.py:97-100 | for a meter x within half the circumference, the setter stores a longitude within 8-place rounding of `meter_x * 360 / circumference` |
| MercatorPoint.MeterXOfLongitude | webmercator/point.py:90-95 | a longitude within 8-place rounding of `v * 360 / circumference` reads back as a meter x within a millimetre of v |
| MercatorPoint.MeterReadBack | webmercator/point.py:94-100 | a meter read back at nanometre precision from a stored longitude lies within a millimetre of the meter written |
| MercatorPoint.HalfCircumferenceRange | webmercator/point.py:100 | a meter x within half the circumference converts to a longitude in [-180, 180] |
| MercatorPoint.PixelXMonotone | webmercator/point.py:126-129 | at one zoom level, pixel x never decreases as longitude grows |
| MercatorPoint.TileXMonotone | webmercator/point.py:146-148 | at one zoom level, tile x never decreases as longitude grows |
| MercatorPoint.PixelYAntitone | webmercator/point.py:136-140 | when the projected fraction falls with latitude on the Mercator range, pixel y of stored latitudes never increases as latitude grows |
| MercatorPoint.PixelYExactAntitone | webmercator/point.py:140 | under the same hypothesis, the exact pixel y falls as a stored latitude grows |
| MercatorPoint.TileYAntitone | webmercator/point.py:154-156 | under the same hypothesis, tile y of stored latitudes never increases as latitude grows |
| MercatorPoint.Point.constructor | webmercator/point.py:37-60 | the new object's state is what `Construct` gives for the arguments |
| MercatorPoint.Point.SetLatitude | webmercator/point.py:69-73 | only the latitude changes, to the clamped and rounded value |
| MercatorPoint.Point.SetLongitude | webmercator/point.py:79-88 | the two wrapping loops terminate; only the longitude changes, to the wrapped and rounded value |
| MercatorPoint.Point.SetZoomLevel | webmercator/point.py:122-124 | only the zoom changes, to the clamped value |
| MercatorPoint.Point.SetMeterX | webmercator/point.py:97-100 | only the longitude changes, to `meter_x * 360 / circumference` through the longitude setter |
| MercatorPoint.Point.SetMeterY | webmercator/point.py:109-112 | only the latitude changes, to the inverse projection through the latitude setter |
| MercatorPoint.Point.SetPixelX | webmercator/point.py:131-134 | only the longitude changes, to `360 * (pixel / map size - 0.5)` through the longitude setter |
| MercatorPoint.Point.SetPixelY | webmercator/point.py:142-144 | only the latitude changes, to the inverse projection of `pixel / map size` |
| MercatorPoint.Point.SetTileX | webmercator/point.py:150-152 | only the longitude changes, as setting pixel x to `256 * tile` |
| MercatorPoint.Point.SetTileY | webmercator/point.py:158-160 | only the latitude changes, as setting pixel y to `256 * tile` |
| MercatorBox.Init | webmercator/box.py:37-52 | TypeError for a non-Point or a centre without a position; AttributeError when neither distance is given; otherwise the zoom defaults to the point's, the centre is copied through the setters at that zoom, clamped, and the radius takes priority over the diameter, with radius `diameter / 2` only for a positive diameter |
| MercatorBox.BoundingBox.constructor | webmercator/box.py:41-50 | the four attributes hold the values given |
| MercatorBox.BoundingBox.Create | webmercator/box.py:37-52 | the object fails or succeeds as `Init` does, with fresh objects holding exactly `Init`'s state |
| MercatorBox.Bearing | webmercator/box.py:76 | the n bearings are evenly spaced: the i-th is `(i + 1) / n` of a full turn, positive, at most 360 for i below n, and the last is exactly 360 |
| MercatorBox.BoxBearings | webmercator/box.py:76-77 | the four bearings are 90, 180, 270 and 360 degrees |
| MercatorBox.VertexAt | webmercator/box.py:70-89 | each vertex stores, through the setters and at zoom 14, the latitude and longitude of the destination from the centre at angular distance `radius / 3959` along the i-th bearing |
| MercatorBox.VertexAtConstructed | webmercator/box.py:89 | each vertex is the Point built from the destination's latitude and longitude |
| MercatorBox.BoundingBox.BoundVertices | webmercator/box.py:57-92 | the loop returns one fresh valid Point per bearing, in bearing order, each the vertex of that bearing; no points give an empty list |
| MercatorBox.BoundingBox.BoxVerticesOf | webmercator/box.py:94-96 | `box_vertices` is four fresh Points, the four box vertices |
| MercatorBox.BoxVertices | webmercator/box.py:94-96 | exactly four vertices, the i-th at the i-th bearing |
| MercatorBox.VertexLongitudes | webmercator/box.py:100 | every vertex has a longitude, listed in vertex order |
| MercatorBox.VertexLatitudes | webmercator/box.py:108 | every vertex has a latitude, listed in vertex order |
| MercatorBox.MinOf | webmercator/box.py:100 | `min` of a non-empty list is an element no greater than any element |
| MercatorBox.MaxOf | webmercator/box.py:104 | `max` of a non-empty list is an element no smaller than any element |
| MercatorBox.MinLongitude | webmercator/box.py:98-100 | the least vertex longitude |
| MercatorBox.MaxLongitude | webmercator/box.py:102-104 | the greatest vertex longitude |
| MercatorBox.MinLatitude | webmercator/box.py:106-108 | the least vertex latitude |
| MercatorBox.MaxLatitude | webmercator/box.py:110-112 | the greatest vertex latitude |
| MercatorBox.EnvelopeOrdered | webmercator/box.py:98-112 | `min_longitude <= max_longitude` and `min_latitude <= max_latitude` |
| MercatorBox.EnvelopeStored | webmercator/box.py:98-122 | the envelope values are already stored values, so the corner points keep them unchanged |
| MercatorBox.VertexTopLeft | webmercator/box.py:114-117 | the upper-left corner has the greatest latitude, the least longitude and the box zoom clamped |
| MercatorBox.VertexBottomRight | webmercator/box.py:119-122 | the lower-right corner has the least latitude, the greatest longitude and the box zoom clamped |
| MercatorBox.CornersConstructed | webmercator/box.py:114-122 | each corner is the Point built from its envelope latitude, longitude and the box zoom |
| MercatorBox.MinPixelX | webmercator/box.py:124-126 | unset exactly when the least longitude is zero; otherwise within half a pixel of that longitude's exact pixel x at the box zoom, and in [0, map size] |
| MercatorBox.MaxPixelX | webmercator/box.py:128-130 | unset exactly when the greatest longitude is zero; otherwise within half a pixel of that longitude's exact pixel x at the box zoom, and in [0, map size] |
| MercatorBox.MinPixelY | webmercator/box.py:132-134 | unset exactly when the greatest latitude is zero; otherwise within half a pixel of that latitude's exact pixel y at the box zoom |
| MercatorBox.MaxPixelY | webmercator/box.py:136-138 | unset exactly when the least latitude is zero; otherwise within half a pixel of that latitude's exact pixel y at the box zoom |
| MercatorBox.MinTileX | webmercator/box.py:140-142 | unset exactly when `min_pixel_x` is unset or zero; otherwise `min_pixel_x div 256` |
| MercatorBox.MaxTileX | webmercator/box.py:144-146 | unset exactly when `max_pixel_x` is unset or zero; otherwise `max_pixel_x div 256` |
| MercatorBox.MinTileY | webmercator/box.py:148-150 | unset exactly when `min_pixel_y` is unset or zero; a positive pixel gives `min_pixel_y div 256` |
| MercatorBox.MaxTileY | webmercator/box.py:152-154 | unset exactly when `max_pixel_y` is unset or zero; a positive pixel gives `max_pixel_y div 256` |
| MercatorBox.CornerRowsOrdered | webmercator/box.py:132-154 | when pixel y falls with latitude on the Mercator range, the upper-left corner's pixel and tile rows are no greater than the lower-right corner's |
| MercatorBox.TileWidth | webmercator/box.py:156-158 | TypeError exactly when a tile column is unset; otherwise the span between them, never negative |
| MercatorBox.TileHeight | webmercator/box.py:160-162 | TypeError exactly when a tile row is unset; otherwise the span between them |
| MercatorBox.PixelWidth | webmercator/box.py:164-166 | TypeError exactly when a pixel column is unset; otherwise at least 1, at least the non-negative span, and the span itself when above 1 |
| MercatorBox.PixelHeight | webmercator/box.py:168-170 | TypeError exactly when a pixel row is unset; otherwise at least 1, at least the span, and the span itself when above 1 |
| MercatorBox.RelativeOffset | webmercator/box.py:179-185 | TypeError when the edge is unset; otherwise the distance from the edge truncated toward zero |
| MercatorBox.RelativeOffsetWhole | webmercator/box.py:179-185 | the offset of a whole pixel from an edge is exactly their difference |
| MercatorBox.RelativePixelX | webmercator/box.py:179-181 | TypeError when `min_pixel_x` is unset; otherwise the truncated offset from it |
| MercatorBox.RelativePixelY | webmercator/box.py:183-185 | TypeError when `min_pixel_y` is unset; otherwise the truncated offset from it |
| MercatorBox.RelativePixelXOfMin | webmercator/box.py:179-181 | the left edge is at relative pixel 0 |
| MercatorBox.RelativePixelXOfMax | webmercator/box.py:179-181 | the right edge is at relative pixel `max_pixel_x - min_pixel_x` |
| MercatorBox.RelativePixelYOfMin | webmercator/box.py:183-185 | the top edge is at relative pixel 0 |
| MercatorBox.RelativePixelYOfMax | webmercator/box.py:183-185 | the bottom edge is at relative pixel `max_pixel_y - min_pixel_y` |
| MercatorBox.TileGridShape | webmercator/box.py:172-177 | TypeError when a width or height fails; otherwise a grid from `(min_tile_x, min_tile_y)` with the tile width and height |
| MercatorBox.TileGridCells | webmercator/box.py:172-177 | when pixel y falls with latitude on the Mercator range, the tile grid yields `(tile_width + 1) * (tile_height + 1)` cells, from the upper-left tile to the lower-right tile |
| MercatorBox.BoundingBox.TileGrid | webmercator/box.py:172-177 | `tile_grid` fails as `TileGridShape` does; otherwise it is a fresh valid grid of that shape that has yielded nothing |

## Left out

- Floating point: every number is an exact real.
  - Python's `round` rounds exact ties to even on binary doubles. The model
    rounds ties up on reals. The two differ only at exact ties.
- `MercatorPoint.Point.SetLongitude`: it is proved to terminate for every
  real, and the Python loops do not always end. On binary doubles they
  never end for an infinite longitude, and never for one beyond about
  `2 ** 62` in magnitude, where adding or subtracting 360 rounds back to the
  same value. The model does not capture this divergence.
- The value of pi and the transcendental formulas are not modelled. These
  are the tan/log/sin/atan/exp of `meter_y` and `pixel_y` and the
  asin/atan2 of the destination-point formula. They are parameters
  (`Projection`, `Destination`), and nothing is claimed about their values.
  The concrete meter and pixel numbers of the library's examples therefore
  cannot be derived.
- `MercatorPoint.MeterXRoundTrip`: it promises a millimetre bound, not
  equality. The longitude rounded to 8 places loses up to about 0.6 mm along
  the equator.
- `MercatorBox.TileHeight`: non-negativity holds only under the
  `PixelYFractionAntitone` hypothesis, that pixel y falls with latitude on
  the Mercator latitude range, because the `pixel_y` formula is abstract.
- `MercatorBox.PixelHeight`: the span is non-negative only under the same
  hypothesis on the Mercator latitude range.
- `MercatorBox.MinTileY`, `MercatorBox.MaxTileY`: the contract gives the
  tile only for a positive pixel y. A negative pixel y arises only from an
  arbitrary `pixel_y` formula, and is covered only by `TileY`'s truncation
  rule.
- A zoom level given as a float is not modelled: Python keeps the float
  after clamping. The model's zoom levels are integers.
- `isinstance(point, Point)`: any non-Point first argument is modelled as
  `None`.
- The getters and the box properties are functions on the stored state
  (`PointState`, `BoxState`) rather than methods of the objects. Python
  evaluates them by reading the same fields, so nothing observable is
  lost.
- `Grid.__iter__` returning `self` is captured by `Collect` starting from
  the current cursor. Python 2 compatibility imports, the duplicate
  `next` method and the `__repr__` methods have no behaviour to model.
- `webmercator/util.py` holds constants only. Its values are used, and the
  deprecated aliases `RAD_METERS` and `CIRC_METERS` are omitted.
