/**
  The coordinate engine of webmercator/point.py. A point stores only an
  optional latitude, an optional longitude and a zoom level; every other
  representation (meters, pixels, tiles) is computed from those on read,
  and writing one of them converts it back into latitude or longitude.

  `PointState` is that stored state as a value; the getters and the
  specification of each setter are functions on it. The class `Point`
  updates the same three fields in place, one setter at a time.
 */
module MercatorPoint {
  import opened MercatorUtil

  /** A zoom level as the setter stores it. */
  type ZoomLevel = z: int | 1 <= z <= 23 witness 14

  /**
    The maths of the projection that has no exact counterpart on reals,
    kept abstract: the circumference (2 pi R) and the four formulas that
    use tan, log, sin, atan and exp.
   */
  datatype Projection = Projection(
    circumference: Circumference,
    /** log(tan(pi/4 + lat_rad/2)) * EARTH_RADIUS_METERS, before rounding. */
    meterYOfLatitude: real -> real,
    /** (180/pi) * (2 atan(exp(m / EARTH_RADIUS_METERS)) - pi/2). */
    latitudeOfMeterY: real -> real,
    /** 0.5 - log((1 + sin lat) / (1 - sin lat)) / (4 pi): pixel y over map size. */
    pixelYFractionOfLatitude: real -> real,
    /** 90 - 360 atan(exp(-(0.5 - f) 2 pi)) / pi, for f = pixel y over map size. */
    latitudeOfPixelYFraction: real -> real)

  /** The stored state of a point. */
  datatype PointState = PointState(latitude: Option<real>, longitude: Option<real>, zoomLevel: ZoomLevel)

  /** What the setters guarantee about the stored state. */
  predicate Normalized(s: PointState)
  {
    (s.latitude.Some? ==> -MercatorMaxLatitude <= s.latitude.value <= MercatorMaxLatitude) &&
    (s.longitude.Some? ==> -180.0 <= s.longitude.value <= 180.0)
  }

  /** Python truthiness of an optional number: `None` and zero are false. */
  predicate Truthy(v: Option<real>)
  {
    v.Some? && v.value != 0.0
  }

  // ---------------------------------------------------------------------
  // The three stored fields

  /** The latitude setter: clamp to the Mercator limits, round to 8 places. */
  function StoredLatitude(v: real): (r: real)
    ensures -MercatorMaxLatitude <= r <= MercatorMaxLatitude
    ensures v >= MercatorMaxLatitude ==> r == MercatorMaxLatitude
    ensures v <= -MercatorMaxLatitude ==> r == -MercatorMaxLatitude
    ensures -MercatorMaxLatitude <= v <= MercatorMaxLatitude ==> -0.5 < (r - v) * DegreeScale <= 0.5
    ensures (r * DegreeScale).Floor as real == r * DegreeScale
  {
    var clamped := if v < -MercatorMaxLatitude then -MercatorMaxLatitude
                   else if v > MercatorMaxLatitude then MercatorMaxLatitude
                   else v;
    RoundToExact(8505112878, DegreeScale);
    RoundToExact(-8505112878, DegreeScale);
    RoundToMonotone(-MercatorMaxLatitude, clamped, DegreeScale);
    RoundToMonotone(clamped, MercatorMaxLatitude, DegreeScale);
    RoundTo(clamped, DegreeScale)
  }

  /** How many whole turns of 360 degrees the longitude setter adds. */
  function LongitudeTurns(v: real): int
  {
    if v < -180.0 then -((v + 180.0) / 360.0).Floor
    else if v > 180.0 then ((180.0 - v) / 360.0).Floor
    else 0
  }

  /**
    Where the two loops of the longitude setter stop: add 360 while below
    -180, then subtract 360 while above 180.
   */
  function WrapLongitude(v: real): (r: real)
    ensures -180.0 <= r <= 180.0
    ensures v < -180.0 ==> r < 180.0
    ensures v > 180.0 ==> r > -180.0
    ensures -180.0 <= v <= 180.0 ==> r == v
  {
    v + 360.0 * LongitudeTurns(v) as real
  }

  /**
    The wrapped longitude is the only value in [-180, 180] that differs
    from the input by whole turns and lies on the side the loops reach.
   */
  lemma WrapLongitudeUnique(v: real, w: real, n: int)
    requires -180.0 <= w <= 180.0 && w == v + 360.0 * n as real
    requires v < -180.0 ==> w < 180.0
    requires v > 180.0 ==> w > -180.0
    requires -180.0 <= v <= 180.0 ==> w == v
    ensures w == WrapLongitude(v)
  {
    var t := LongitudeTurns(v);
    assert WrapLongitude(v) == v + 360.0 * t as real;
    assert w - WrapLongitude(v) == 360.0 * (n - t) as real;
  }

  /** The longitude setter: wrap into [-180, 180], round to 8 places. */
  function StoredLongitude(v: real): (r: real)
    ensures -180.0 <= r <= 180.0
    ensures -180.0 <= v <= 180.0 ==> -0.5 < (r - v) * DegreeScale <= 0.5
    ensures (r * DegreeScale).Floor as real == r * DegreeScale
  {
    var w := WrapLongitude(v);
    RoundToExact(18000000000, DegreeScale);
    RoundToExact(-18000000000, DegreeScale);
    RoundToMonotone(-180.0, w, DegreeScale);
    RoundToMonotone(w, 180.0, DegreeScale);
    RoundTo(w, DegreeScale)
  }

  /** Setting L + 360 k, for L in (-180, 180], stores what setting L stores. */
  lemma LongitudeUpTurns(l: real, k: nat)
    requires -180.0 < l <= 180.0
    ensures StoredLongitude(l + 360.0 * k as real) == StoredLongitude(l)
  {
    WrapLongitudeUnique(l + 360.0 * k as real, l, -(k as int));
  }

  /** Setting L - 360 k, for L in [-180, 180), stores what setting L stores. */
  lemma LongitudeDownTurns(l: real, k: nat)
    requires -180.0 <= l < 180.0
    ensures StoredLongitude(l - 360.0 * k as real) == StoredLongitude(l)
  {
    WrapLongitudeUnique(l - 360.0 * k as real, l, k);
  }

  /** The zoom setter: clamp to [1, 23]. */
  function StoredZoom(v: int): (r: ZoomLevel)
    ensures 1 <= v <= 23 ==> r == v
    ensures v < 1 ==> r == 1
    ensures v > 23 ==> r == 23
  {
    if v < 1 then 1 else if v > 23 then 23 else v
  }

  /** A stored latitude is stored unchanged when set again. */
  lemma StoredLatitudeIdempotent(v: real)
    ensures StoredLatitude(StoredLatitude(v)) == StoredLatitude(v)
  {
    var c := if v < -MercatorMaxLatitude then -MercatorMaxLatitude
             else if v > MercatorMaxLatitude then MercatorMaxLatitude
             else v;
    RoundToIdempotent(c, DegreeScale);
  }

  /** A stored longitude is stored unchanged when set again. */
  lemma StoredLongitudeIdempotent(v: real)
    ensures StoredLongitude(StoredLongitude(v)) == StoredLongitude(v)
  {
    RoundToIdempotent(WrapLongitude(v), DegreeScale);
  }

  // ---------------------------------------------------------------------
  // Scale of the map at a zoom level

  /** `map_size`: the width of the world in pixels, 256 * 2 ** zoom. */
  function MapSize(z: ZoomLevel): (r: nat)
    ensures 512 <= r <= 2147483648
    ensures r % 256 == 0
  {
    Pow2AtMost23(z);
    Pow2Monotone(1, z);
    256 * Pow2(z)
  }

  /** `map_size` is 256 * 2 ** zoom. */
  lemma MapSizeValue(z: ZoomLevel)
    ensures MapSize(z) == 256 * Pow2(z)
  {
  }

  /** Each zoom level doubles the pixel width of the world. */
  lemma MapSizeDoubles(z: ZoomLevel)
    requires z < 23
    ensures MapSize(z + 1) == 2 * MapSize(z)
  {
  }

  /** `meters_per_pixel`: map size times meters per pixel is the circumference. */
  function MetersPerPixel(z: ZoomLevel, p: Projection): (r: real)
    ensures r > 0.0
    ensures r * MapSize(z) as real == p.circumference
  {
    p.circumference / MapSize(z) as real
  }

  /** `meters_per_tile`: the 2 ** zoom tiles across the world span the circumference. */
  function MetersPerTile(z: ZoomLevel, p: Projection): (r: real)
    ensures r > 0.0
    ensures r * Pow2(z) as real == p.circumference
  {
    var q := MetersPerPixel(z, p);
    RegroupTile(q, MapSize(z), Pow2(z), p.circumference);
    q * 256.0
  }

  /** Meters per pixel times 256 pixels per tile, regrouped. */
  lemma RegroupTile(q: real, m: nat, t: nat, c: real)
    requires m == 256 * t && q * m as real == c
    ensures q * 256.0 * t as real == c
  {
    assert m as real == 256.0 * t as real;
  }

  // ---------------------------------------------------------------------
  // Getters

  /** `meter_x`: unset for an unset or zero longitude, else rounded to 9 places. */
  function MeterX(s: PointState, p: Projection): (r: Option<real>)
    ensures r.None? <==> !Truthy(s.longitude)
    ensures r.Some? ==> -0.5 < (r.value - s.longitude.value / 360.0 * p.circumference) * MetricScale <= 0.5
    ensures r.Some? ==> (r.value * MetricScale).Floor as real == r.value * MetricScale
  {
    if Truthy(s.longitude) then Some(RoundTo(s.longitude.value / 360.0 * p.circumference, MetricScale)) else None
  }

  /** `meter_y`: unset for an unset or zero latitude, else the rounded projection. */
  function MeterY(s: PointState, p: Projection): (r: Option<real>)
    ensures r.None? <==> !Truthy(s.latitude)
    ensures r.Some? ==> -0.5 < (r.value - p.meterYOfLatitude(s.latitude.value)) * MetricScale <= 0.5
    ensures r.Some? ==> (r.value * MetricScale).Floor as real == r.value * MetricScale
  {
    if Truthy(s.latitude) then Some(RoundTo(p.meterYOfLatitude(s.latitude.value), MetricScale)) else None
  }

  /** The exact, unrounded pixel x of a longitude on a map `size` pixels wide. */
  function PixelXExact(lon: real, size: nat): real
  {
    (lon + 180.0) / 360.0 * size as real
  }

  /**
    `pixel_x`: unset for an unset or zero longitude; otherwise the nearest
    integer to the exact pixel, between 0 and the map size.
   */
  function PixelX(s: PointState): (r: Option<int>)
    ensures r.None? <==> !Truthy(s.longitude)
    ensures r.Some? ==> var x := PixelXExact(s.longitude.value, MapSize(s.zoomLevel));
      x - 0.5 < r.value as real <= x + 0.5
    ensures r.Some? && Normalized(s) ==> 0 <= r.value <= MapSize(s.zoomLevel)
  {
    if Truthy(s.longitude) then
      var size := MapSize(s.zoomLevel);
      var x := PixelXExact(s.longitude.value, size);
      PixelXExactRange(s.longitude.value, size);
      RoundIntWithin(x, size);
      Some(RoundInt(x))
    else None
  }

  /** A longitude in [-180, 180] lies on the map, between pixel 0 and the map size. */
  lemma PixelXExactRange(lon: real, size: nat)
    ensures -180.0 <= lon <= 180.0 ==> 0.0 <= PixelXExact(lon, size) <= size as real
  {
    if -180.0 <= lon <= 180.0 {
      FractionOfSize((lon + 180.0) / 360.0, size as real);
    }
  }

  lemma FractionOfSize(f: real, m: real)
    requires 0.0 <= f <= 1.0 && 0.0 <= m
    ensures 0.0 <= f * m <= m
  {
    assert f * m <= 1.0 * m;
  }

  lemma RatioAtMostOne(a: real, m: real)
    requires 0.0 <= a <= m && 0.0 < m
    ensures 0.0 <= a / m <= 1.0
  {
    assert a / m <= m / m by {
      assert a / m == a * (1.0 / m);
      assert m / m == m * (1.0 / m);
      assert 1.0 / m > 0.0;
    }
  }

  /** `pixel_y`: unset for an unset or zero latitude, else the rounded projection. */
  function PixelY(s: PointState, p: Projection): (r: Option<int>)
    ensures r.None? <==> !Truthy(s.latitude)
    ensures r.Some? ==> var y := PixelYExact(s.latitude.value, MapSize(s.zoomLevel), p);
      y - 0.5 < r.value as real <= y + 0.5
  {
    if Truthy(s.latitude) then
      Some(RoundInt(PixelYExact(s.latitude.value, MapSize(s.zoomLevel), p)))
    else None
  }

  /** The exact, unrounded pixel y of a latitude on a map `size` pixels tall. */
  function PixelYExact(lat: real, size: nat, p: Projection): real
  {
    p.pixelYFractionOfLatitude(lat) * size as real
  }

  /**
    `tile_x`: unset when `pixel_x` is unset or zero; otherwise the index of
    the 256-pixel tile holding `pixel_x`.
   */
  function TileX(s: PointState): (r: Option<int>)
    ensures r.None? <==> PixelX(s).None? || PixelX(s).value == 0
    ensures r.Some? && Normalized(s) ==> r.value == PixelX(s).value / 256 && 0 <= r.value <= Pow2(s.zoomLevel)
  {
    var px := PixelX(s);
    if px.Some? && px.value != 0 then Some(Trunc(px.value as real / 256.0)) else None
  }

  /**
    `tile_y`: unset when `pixel_y` is unset or zero; otherwise `pixel_y / 256`
    truncated toward zero.
   */
  function TileY(s: PointState, p: Projection): (r: Option<int>)
    ensures r.None? <==> PixelY(s, p).None? || PixelY(s, p).value == 0
    ensures r.Some? && PixelY(s, p).value > 0 ==> r.value == PixelY(s, p).value / 256
    ensures r.Some? && PixelY(s, p).value < 0 ==> r.value == -((-PixelY(s, p).value) / 256)
  {
    var py := PixelY(s, p);
    if py.Some? && py.value != 0 then Some(Trunc(py.value as real / 256.0)) else None
  }

  // ---------------------------------------------------------------------
  // Setters, as transformations of the stored state

  function WithLatitude(s: PointState, v: real): (r: PointState)
    ensures Normalized(s) ==> Normalized(r)
  {
    s.(latitude := Some(StoredLatitude(v)))
  }

  function WithLongitude(s: PointState, v: real): (r: PointState)
    ensures Normalized(s) ==> Normalized(r)
  {
    s.(longitude := Some(StoredLongitude(v)))
  }

  function WithZoomLevel(s: PointState, v: int): (r: PointState)
    ensures r.latitude == s.latitude && r.longitude == s.longitude
    ensures 1 <= v <= 23 ==> r.zoomLevel == v
    ensures Normalized(s) ==> Normalized(r)
  {
    s.(zoomLevel := StoredZoom(v))
  }

  /** The meter_x setter: longitude = meter_x * 360 / circumference. */
  function WithMeterX(s: PointState, v: real, p: Projection): (r: PointState)
    ensures r.latitude == s.latitude && r.zoomLevel == s.zoomLevel && r.longitude.Some?
    ensures Normalized(s) ==> Normalized(r)
  {
    WithLongitude(s, v * 360.0 / p.circumference)
  }

  /** The meter_y setter goes through the inverse projection. */
  function WithMeterY(s: PointState, v: real, p: Projection): (r: PointState)
    ensures r.longitude == s.longitude && r.zoomLevel == s.zoomLevel && r.latitude.Some?
    ensures Normalized(s) ==> Normalized(r)
  {
    WithLatitude(s, p.latitudeOfMeterY(v))
  }

  /**
    The longitude the pixel_x setter computes: 360 * (pixel / map size - 0.5).
    It inverts the exact pixel formula of the getter, and maps the pixels of
    the map onto [-180, 180].
   */
  function LongitudeOfPixelX(v: real, z: ZoomLevel): (r: real)
    ensures PixelXExact(r, MapSize(z)) == v
    ensures 0.0 <= v <= MapSize(z) as real ==> -180.0 <= r <= 180.0
  {
    var size := MapSize(z);
    PixelLongitudeInverse(v, size as real);
    360.0 * (v / size as real - 0.5)
  }

  /**
    For a positive map size m, the pixel formula undoes the pixel_x setter's
    formula, and a pixel in [0, m] gives a longitude in [-180, 180].
   */
  lemma PixelLongitudeInverse(v: real, m: real)
    requires m > 0.0
    ensures (360.0 * (v / m - 0.5) + 180.0) / 360.0 * m == v
    ensures 0.0 <= v <= m ==> -180.0 <= 360.0 * (v / m - 0.5) <= 180.0
  {
    assert 360.0 * (v / m - 0.5) + 180.0 == 360.0 * (v / m);
    assert v / m * m == v;
    if 0.0 <= v <= m {
      RatioAtMostOne(v, m);
    }
  }

  /** The pixel_x setter, at the current zoom level. */
  function WithPixelX(s: PointState, v: real): (r: PointState)
    ensures r.latitude == s.latitude && r.zoomLevel == s.zoomLevel && r.longitude.Some?
    ensures Normalized(s) ==> Normalized(r)
  {
    WithLongitude(s, LongitudeOfPixelX(v, s.zoomLevel))
  }

  /** The pixel_y setter, at the current zoom level. */
  function WithPixelY(s: PointState, v: real, p: Projection): (r: PointState)
    ensures r.longitude == s.longitude && r.zoomLevel == s.zoomLevel && r.latitude.Some?
    ensures Normalized(s) ==> Normalized(r)
  {
    WithLatitude(s, p.latitudeOfPixelYFraction(v / MapSize(s.zoomLevel) as real))
  }

  /** The tile_x setter: a tile index is 256 pixels. */
  function WithTileX(s: PointState, v: real): (r: PointState)
    ensures r.latitude == s.latitude && r.zoomLevel == s.zoomLevel && r.longitude.Some?
    ensures Normalized(s) ==> Normalized(r)
  {
    WithPixelX(s, v * 256.0)
  }

  /** The tile_y setter: a tile index is 256 pixels. */
  function WithTileY(s: PointState, v: real, p: Projection): (r: PointState)
    ensures r.longitude == s.longitude && r.zoomLevel == s.zoomLevel && r.latitude.Some?
    ensures Normalized(s) ==> Normalized(r)
  {
    WithPixelY(s, v * 256.0, p)
  }

  // ---------------------------------------------------------------------
  // Construction

  /** The keyword arguments of `Point(...)`; `None` is an argument left out. */
  datatype PointArgs = PointArgs(
    latitude: Option<real>, longitude: Option<real>,
    meterX: Option<real>, meterY: Option<real>,
    zoomLevel: Option<int>,
    pixelX: Option<real>, pixelY: Option<real>,
    tileX: Option<real>, tileY: Option<real>)

  const NoArgs: PointArgs := PointArgs(None, None, None, None, None, None, None, None, None)

  /** `Point(latitude=.., longitude=.., zoom_level=..)`. */
  function GeoArgs(latitude: real, longitude: real, zoomLevel: Option<int>): PointArgs
  {
    NoArgs.(latitude := Some(latitude), longitude := Some(longitude), zoomLevel := zoomLevel)
  }

  /** The zoom level construction stores: the argument, else 14, clamped. */
  function ConstructedZoom(a: PointArgs): ZoomLevel
  {
    StoredZoom(a.zoomLevel.GetOr(14))
  }

  /**
    `Point.__init__`: each group of arguments that is complete is applied,
    in the order geo, meter, zoom, pixel, tile.
   */
  function Construct(a: PointArgs, p: Projection): (r: PointState)
    ensures Normalized(r)
    ensures r.zoomLevel == ConstructedZoom(a)
  {
    var s0 := PointState(None, None, 14);
    var s1 := if a.latitude.Some? && a.longitude.Some?
              then WithLongitude(WithLatitude(s0, a.latitude.value), a.longitude.value) else s0;
    var s2 := if a.meterX.Some? && a.meterY.Some?
              then WithMeterY(WithMeterX(s1, a.meterX.value, p), a.meterY.value, p) else s1;
    var s3 := WithZoomLevel(s2, a.zoomLevel.GetOr(14));
    var s4 := if a.pixelX.Some? && a.pixelY.Some?
              then WithPixelY(WithPixelX(s3, a.pixelX.value), a.pixelY.value, p) else s3;
    if a.tileX.Some? && a.tileY.Some?
    then WithTileY(WithTileX(s4, a.tileX.value), a.tileY.value, p) else s4
  }

  /** `Point()`: nothing set, zoom 14, and every derived x value unset. */
  lemma ConstructEmpty(p: Projection)
    ensures Construct(NoArgs, p) == PointState(None, None, 14)
    ensures MeterX(Construct(NoArgs, p), p).None?
    ensures PixelX(Construct(NoArgs, p)).None? && TileX(Construct(NoArgs, p)).None?
    ensures MeterY(Construct(NoArgs, p), p).None?
    ensures PixelY(Construct(NoArgs, p), p).None? && TileY(Construct(NoArgs, p), p).None?
  {
  }

  /** A point built from latitude and longitude alone stores them through the setters. */
  lemma ConstructGeo(lat: real, lon: real, zoom: Option<int>, p: Projection)
    ensures Construct(GeoArgs(lat, lon, zoom), p) ==
      PointState(Some(StoredLatitude(lat)), Some(StoredLongitude(lon)), StoredZoom(zoom.GetOr(14)))
  {
  }

  /**
    Precedence: a complete tile group decides latitude and longitude, using
    the zoom level of the same call, whatever the other groups say.
   */
  lemma ConstructTileWins(a: PointArgs, p: Projection)
    requires a.tileX.Some? && a.tileY.Some?
    ensures var z := ConstructedZoom(a);
      Construct(a, p).longitude == Some(StoredLongitude(LongitudeOfPixelX(a.tileX.value * 256.0, z))) &&
      Construct(a, p).latitude ==
        Some(StoredLatitude(p.latitudeOfPixelYFraction(a.tileY.value * 256.0 / MapSize(z) as real)))
  {
  }

  /** Precedence: without tiles, a complete pixel group decides the position. */
  lemma ConstructPixelWins(a: PointArgs, p: Projection)
    requires a.pixelX.Some? && a.pixelY.Some? && !(a.tileX.Some? && a.tileY.Some?)
    ensures var z := ConstructedZoom(a);
      Construct(a, p).longitude == Some(StoredLongitude(LongitudeOfPixelX(a.pixelX.value, z))) &&
      Construct(a, p).latitude ==
        Some(StoredLatitude(p.latitudeOfPixelYFraction(a.pixelY.value / MapSize(z) as real)))
  {
  }

  /** Precedence: without pixels or tiles, a complete meter group overrides geo. */
  lemma ConstructMeterWins(a: PointArgs, p: Projection)
    requires a.meterX.Some? && a.meterY.Some?
    requires !(a.pixelX.Some? && a.pixelY.Some?) && !(a.tileX.Some? && a.tileY.Some?)
    ensures Construct(a, p).longitude == Some(StoredLongitude(a.meterX.value * 360.0 / p.circumference))
    ensures Construct(a, p).latitude == Some(StoredLatitude(p.latitudeOfMeterY(a.meterY.value)))
  {
  }

  // ---------------------------------------------------------------------
  // Round trips of the linear conversions

  /**
    Writing an integer pixel x in [0, map size], other than the one at the
    prime meridian (which reads back as unset), and reading it again gives
    the same pixel, at every zoom level.
   */
  lemma PixelXRoundTrip(s: PointState, px: int)
    requires 0 <= px <= MapSize(s.zoomLevel) && 2 * px != MapSize(s.zoomLevel)
    ensures PixelX(WithPixelX(s, px as real)) == Some(px)
  {
    var size := MapSize(s.zoomLevel);
    var raw := LongitudeOfPixelX(px as real, s.zoomLevel);
    PixelLongitudeRange(px, size);
    var lon := StoredLongitude(raw);
    PixelReadBack(px, size, lon);
    var t := WithPixelX(s, px as real);
    assert t == s.(longitude := Some(lon));
  }

  /** A pixel column on the map maps to a longitude in [-180, 180]. */
  lemma PixelLongitudeRange(px: int, size: int)
    requires 0 <= px <= size && 0 < size
    ensures -180.0 <= 360.0 * (px as real / size as real - 0.5) <= 180.0
  {
    RatioAtMostOne(px as real, size as real);
  }

  /**
    A longitude within rounding distance of the one a pixel maps to reads
    back as that pixel, and is not zero when the pixel is not central.
   */
  lemma PixelReadBack(px: int, size: nat, lon: real)
    requires 512 <= size <= 2147483648 && 0 <= px <= size
    requires var raw := 360.0 * (px as real / size as real - 0.5);
      -0.5 < (lon - raw) * DegreeScale <= 0.5
    ensures RoundInt(PixelXExact(lon, size)) == px
    ensures 2 * px != size ==> lon != 0.0
  {
    if 2 * px != size {
      PixelAwayFromMeridian(px, size);
    }
    var m := size as real;
    var f := px as real / m;
    var raw := 360.0 * (f - 0.5);
    var e := lon - raw;
    assert (lon + 180.0) / 360.0 == f + e / 360.0;
    assert (f + e / 360.0) * m == f * m + e / 360.0 * m;
    assert f * m == px as real;
    SmallErrorTimesMapSize(e, m);
    var x := (lon + 180.0) / 360.0 * m;
    assert x == px as real + e / 360.0 * m;
    assert PixelXExact(lon, size) == x;
    var r := RoundInt(x);
    assert px as real - 0.6 < r as real < px as real + 0.6;
  }

  /** The longitude a non-central pixel maps to is at least 180 / map size from zero. */
  lemma PixelAwayFromMeridian(px: int, size: int)
    requires 512 <= size <= 2147483648 && 2 * px != size
    ensures var raw := 360.0 * (px as real / size as real - 0.5);
      raw * DegreeScale >= 8.0 || raw * DegreeScale <= -8.0
  {
    var m := size as real;
    var raw := 360.0 * (px as real / m - 0.5);
    assert raw * m == 180.0 * (2.0 * px as real - m);
    if 2 * px > size {
      assert raw * m >= 180.0;
      assert raw > 0.0;
      assert raw * 2147483648.0 >= raw * m;
    } else {
      assert raw * m <= -180.0;
      assert raw < 0.0;
      assert raw * 2147483648.0 <= raw * m;
    }
  }

  /** A longitude rounding error, scaled to pixels, moves less than 1/2 pixel. */
  lemma SmallErrorTimesMapSize(e: real, m: real)
    requires -0.5 < e * DegreeScale <= 0.5 && 0.0 < m <= 2147483648.0
    ensures -0.1 < e / 360.0 * m < 0.1
  {
    assert -0.000000005 < e <= 0.000000005;
    if e >= 0.0 {
      assert e * m <= 0.000000005 * m;
    } else {
      assert e * m >= -0.000000005 * m;
    }
  }

  /**
    Writing meter x within half a circumference of the prime meridian and
    reading it back is off by less than a millimetre: the longitude keeps
    8 decimal places of a degree.
   */
  lemma MeterXRoundTrip(s: PointState, v: real, p: Projection)
    requires -(p.circumference as real) / 2.0 <= v <= (p.circumference as real) / 2.0
    ensures MeterX(WithMeterX(s, v, p), p).Some? ==>
      -0.001 < MeterX(WithMeterX(s, v, p), p).value - v < 0.001
  {
    var lon := MeterXLongitude(s, v, p);
    MeterXOfLongitude(WithMeterX(s, v, p), p, v, lon);
  }

  /** The meter_x setter stores a longitude within 8-place rounding of `v * 360 / circumference`. */
  lemma MeterXLongitude(s: PointState, v: real, p: Projection) returns (lon: real)
    requires -(p.circumference as real) / 2.0 <= v <= (p.circumference as real) / 2.0
    ensures WithMeterX(s, v, p).longitude == Some(lon)
    ensures -0.5 < (lon - v * 360.0 / p.circumference) * DegreeScale <= 0.5
  {
    HalfCircumferenceRange(v, p.circumference);
    lon := StoredLongitude(v * 360.0 / p.circumference);
  }

  /**
    meter_x of a state whose longitude is within 8-place rounding of
    `v * 360 / circumference` lies within a millimetre of v.
   */
  lemma MeterXOfLongitude(t: PointState, p: Projection, v: real, lon: real)
    requires t.longitude == Some(lon)
    requires -0.5 < (lon - v * 360.0 / p.circumference) * DegreeScale <= 0.5
    ensures MeterX(t, p).Some? ==> -0.001 < MeterX(t, p).value - v < 0.001
  {
    var m := MeterX(t, p);
    if m.Some? {
      MeterReadBack(v, p.circumference, lon, m.value);
    }
  }

  /** Rounding to 9 places moves a value by at most half a nanometre. */
  lemma NanometreRounding(r: real, x: real)
    requires -0.5 < (r - x) * MetricScale <= 0.5
    ensures -0.000000001 < r - x < 0.000000001
  {
  }

  lemma HalfCircumferenceRange(v: real, c: real)
    requires 0.0 < c && -c / 2.0 <= v <= c / 2.0
    ensures -180.0 <= v * 360.0 / c <= 180.0
  {
    RatioAtMostOne(v + c / 2.0, c);
    assert (v + c / 2.0) / c == v / c + (c / 2.0) / c;
    assert (c / 2.0) / c == 0.5;
    assert v * 360.0 / c == 360.0 * (v / c) by {
      assert v * 360.0 / c == (v * 360.0) * (1.0 / c);
      assert v / c == v * (1.0 / c);
    }
  }

  /**
    The meter `r` read back, to nanometre precision, from a longitude within
    rounding distance of the exact one lies within a millimetre of `v`.
   */
  lemma MeterReadBack(v: real, c: Circumference, lon: real, r: real)
    requires -0.5 < (lon - v * 360.0 / c) * DegreeScale <= 0.5
    requires -0.5 < (r - lon / 360.0 * c) * MetricScale <= 0.5
    ensures -0.001 < r - v < 0.001
  {
    MeterOfStoredLongitude(v, c, lon);
    NanometreRounding(r, lon / 360.0 * c);
  }

  lemma MeterOfStoredLongitude(v: real, c: Circumference, lon: real)
    requires -0.5 < (lon - v * 360.0 / c) * DegreeScale <= 0.5
    ensures -0.0008 < lon / 360.0 * c - v < 0.0008
  {
    var raw := v * 360.0 / c;
    var e := lon - raw;
    assert raw / 360.0 * c == v;
    assert lon / 360.0 * c == v + e * (c / 360.0);
    assert -0.000000005 < e <= 0.000000005;
    assert 0.0 < c / 360.0 < 141737.0;
    if e >= 0.0 {
      assert e * (c / 360.0) <= 0.000000005 * (c / 360.0);
    } else {
      assert e * (c / 360.0) >= -0.000000005 * (c / 360.0);
    }
  }

  /**
    Writing a tile x in (0, 2 ** zoom], other than the tile starting at the
    prime meridian, and reading it again gives the same tile.
   */
  lemma TileXRoundTrip(s: PointState, t: int)
    requires 0 < t <= Pow2(s.zoomLevel) && 2 * t != Pow2(s.zoomLevel)
    ensures TileX(WithTileX(s, t as real)) == Some(t)
  {
    PixelXRoundTrip(s, 256 * t);
    assert (256 * t) as real == t as real * 256.0;
    assert WithTileX(s, t as real) == WithPixelX(s, (256 * t) as real);
  }

  /** At one zoom level, pixel x never decreases as longitude grows. */
  lemma PixelXMonotone(s: PointState, s': PointState)
    requires s.zoomLevel == s'.zoomLevel
    requires Truthy(s.longitude) && Truthy(s'.longitude) && s.longitude.value <= s'.longitude.value
    ensures PixelX(s).value <= PixelX(s').value
  {
    var m := MapSize(s.zoomLevel) as real;
    var f, f' := (s.longitude.value + 180.0) / 360.0, (s'.longitude.value + 180.0) / 360.0;
    assert f <= f';
    assert f * m <= f' * m;
    var x, x' := PixelXExact(s.longitude.value, MapSize(s.zoomLevel)), PixelXExact(s'.longitude.value, MapSize(s.zoomLevel));
    assert (x + 0.5).Floor <= (x' + 0.5).Floor;
  }

  /** At one zoom level, tile x never decreases as longitude grows. */
  lemma TileXMonotone(s: PointState, s': PointState)
    requires Normalized(s) && Normalized(s') && s.zoomLevel == s'.zoomLevel
    requires TileX(s).Some? && TileX(s').Some? && s.longitude.value <= s'.longitude.value
    ensures TileX(s).value <= TileX(s').value
  {
    PixelXMonotone(s, s');
  }

  /**
    On the Mercator latitude range, the only latitudes a Point stores, the
    pixel y fraction falls as latitude grows (north is up). The model keeps
    the formula abstract, so results that need this say so.
   */
  ghost predicate PixelYFractionAntitone(p: Projection)
  {
    forall a: real, b: real :: -MercatorMaxLatitude <= a <= b <= MercatorMaxLatitude ==>
      p.pixelYFractionOfLatitude(b) <= p.pixelYFractionOfLatitude(a)
  }

  lemma AntitoneAt(p: Projection, a: real, b: real)
    requires PixelYFractionAntitone(p) && -MercatorMaxLatitude <= a <= b <= MercatorMaxLatitude
    ensures p.pixelYFractionOfLatitude(b) <= p.pixelYFractionOfLatitude(a)
  {
  }

  /** Scaling by a non-negative factor keeps the order of two values. */
  lemma ScaleMonotone(x: real, y: real, m: real)
    requires x <= y && 0.0 <= m
    ensures x * m <= y * m
  {
    assert y * m - x * m == (y - x) * m;
  }

  /** With a falling fraction, pixel y of stored latitudes never increases as latitude grows. */
  lemma PixelYAntitone(s: PointState, s': PointState, p: Projection)
    requires PixelYFractionAntitone(p) && s.zoomLevel == s'.zoomLevel
    requires Normalized(s) && Normalized(s')
    requires Truthy(s.latitude) && Truthy(s'.latitude) && s.latitude.value <= s'.latitude.value
    ensures PixelY(s', p).value <= PixelY(s, p).value
  {
    var size := MapSize(s.zoomLevel);
    PixelYExactAntitone(p, s.latitude.value, s'.latitude.value, size);
    RoundIntMonotone(PixelYExact(s'.latitude.value, size, p), PixelYExact(s.latitude.value, size, p));
  }

  /** With a falling fraction, the exact pixel y of a stored latitude falls as latitude grows. */
  lemma PixelYExactAntitone(p: Projection, a: real, b: real, size: nat)
    requires PixelYFractionAntitone(p) && -MercatorMaxLatitude <= a <= b <= MercatorMaxLatitude
    ensures PixelYExact(b, size, p) <= PixelYExact(a, size, p)
  {
    AntitoneAt(p, a, b);
    ScaleMonotone(p.pixelYFractionOfLatitude(b), p.pixelYFractionOfLatitude(a), size as real);
  }

  /** With a falling fraction, tile y of stored latitudes never increases as latitude grows. */
  lemma TileYAntitone(s: PointState, s': PointState, p: Projection)
    requires PixelYFractionAntitone(p) && s.zoomLevel == s'.zoomLevel
    requires Normalized(s) && Normalized(s')
    requires TileY(s, p).Some? && TileY(s', p).Some? && s.latitude.value <= s'.latitude.value
    ensures TileY(s', p).value <= TileY(s, p).value
  {
    PixelYAntitone(s, s', p);
    var py, py' := PixelY(s, p).value, PixelY(s', p).value;
    TruncMonotone(py' as real / 256.0, py as real / 256.0);
  }

  // ---------------------------------------------------------------------
  // The object

  /** A Point object: three private fields that the setters update. */
  class Point {
    var latitude: Option<real>
    var longitude: Option<real>
    var zoomLevel: ZoomLevel

    function State(): PointState
      reads this
    {
      PointState(latitude, longitude, zoomLevel)
    }

    ghost predicate Valid()
      reads this
    {
      Normalized(State())
    }

    /** `Point(**kwargs)`: the groups applied in order through the setters. */
    constructor (a: PointArgs, p: Projection)
      ensures Valid() && State() == Construct(a, p)
    {
      latitude, longitude, zoomLevel := None, None, 14;
      new;
      if a.latitude.Some? && a.longitude.Some? {
        SetLatitude(a.latitude.value);
        SetLongitude(a.longitude.value);
      }
      if a.meterX.Some? && a.meterY.Some? {
        SetMeterX(a.meterX.value, p);
        SetMeterY(a.meterY.value, p);
      }
      SetZoomLevel(a.zoomLevel.GetOr(14));
      if a.pixelX.Some? && a.pixelY.Some? {
        SetPixelX(a.pixelX.value);
        SetPixelY(a.pixelY.value, p);
      }
      if a.tileX.Some? && a.tileY.Some? {
        SetTileX(a.tileX.value);
        SetTileY(a.tileY.value, p);
      }
    }

    /** The latitude setter. */
    method SetLatitude(value: real)
      requires Valid()
      modifies this`latitude
      ensures Valid() && State() == WithLatitude(old(State()), value)
    {
      var clamped := value;
      if clamped < -MercatorMaxLatitude {
        clamped := -MercatorMaxLatitude;
      }
      if clamped > MercatorMaxLatitude {
        clamped := MercatorMaxLatitude;
      }
      latitude := Some(RoundTo(clamped, DegreeScale));
    }

    /** The longitude setter: the two wrapping loops, then rounding. */
    method SetLongitude(value: real)
      requires Valid()
      modifies this`longitude
      ensures Valid() && State() == WithLongitude(old(State()), value)
    {
      var v := value;
      ghost var n: int := 0;
      while v < -180.0
        invariant v == value + 360.0 * n as real
        invariant value < -180.0 ==> v < 180.0
        invariant value >= -180.0 ==> n == 0
        decreases (-180.0 - v).Floor
      {
        v := v + 360.0;
        n := n + 1;
      }
      while v > 180.0
        invariant v == value + 360.0 * n as real
        invariant v >= -180.0
        invariant value < -180.0 ==> v < 180.0
        invariant value > 180.0 ==> v > -180.0
        invariant -180.0 <= value <= 180.0 ==> n == 0
        decreases v.Floor
      {
        v := v - 360.0;
        n := n - 1;
      }
      WrapLongitudeUnique(value, v, n);
      assert StoredLongitude(value) == RoundTo(v, DegreeScale);
      longitude := Some(RoundTo(v, DegreeScale));
    }

    /** The zoom level setter. */
    method SetZoomLevel(value: int)
      requires Valid()
      modifies this`zoomLevel
      ensures Valid() && State() == WithZoomLevel(old(State()), value)
    {
      var z := if value < 1 then 1 else value;
      zoomLevel := if z > 23 then 23 else z;
    }

    /** The meter_x setter. */
    method SetMeterX(value: real, p: Projection)
      requires Valid()
      modifies this`longitude
      ensures Valid() && State() == WithMeterX(old(State()), value, p)
    {
      SetLongitude((value * 360.0) / p.circumference);
    }

    /** The meter_y setter. */
    method SetMeterY(value: real, p: Projection)
      requires Valid()
      modifies this`latitude
      ensures Valid() && State() == WithMeterY(old(State()), value, p)
    {
      SetLatitude(p.latitudeOfMeterY(value));
    }

    /** The pixel_x setter, using the current zoom level. */
    method SetPixelX(value: real)
      requires Valid()
      modifies this`longitude
      ensures Valid() && State() == WithPixelX(old(State()), value)
    {
      var mapSize := 256 * Pow2(zoomLevel);
      SetLongitude(360.0 * (value / mapSize as real - 0.5));
    }

    /** The pixel_y setter, using the current zoom level. */
    method SetPixelY(value: real, p: Projection)
      requires Valid()
      modifies this`latitude
      ensures Valid() && State() == WithPixelY(old(State()), value, p)
    {
      SetLatitude(p.latitudeOfPixelYFraction(value / MapSize(zoomLevel) as real));
    }

    /** The tile_x setter. */
    method SetTileX(value: real)
      requires Valid()
      modifies this`longitude
      ensures Valid() && State() == WithTileX(old(State()), value)
    {
      SetPixelX(value * 256.0);
    }

    /** The tile_y setter. */
    method SetTileY(value: real, p: Projection)
      requires Valid()
      modifies this`latitude
      ensures Valid() && State() == WithTileY(old(State()), value, p)
    {
      SetPixelY(value * 256.0, p);
    }
  }
}
