/**
  The bounding box of webmercator/box.py: a square of a given radius
  around a centre point, described by four vertices at fixed bearings,
  their latitude/longitude envelope, the two corner points of that
  envelope, and the pixels and tiles those corners fall on.

  `BoxState` is the state `__init__` leaves behind; the properties are
  functions on it, parameterised by the destination-point formula and the
  projection maths, which stay abstract.
 */
module MercatorBox {
  import opened MercatorUtil
  import opened MercatorPoint
  import opened MercatorGrid

  /** `radius_earth` of `_bound_vertices`, in miles. */
  const RadiusEarthMiles: real := 3959.0

  /** The number of vertices `box_vertices` asks for. */
  const BoxVertexCount: nat := 4

  /**
    The destination-point formula on a sphere: from a start latitude and
    longitude (degrees), an angular distance (radians) and a bearing
    clockwise from north (degrees), the latitude and longitude reached
    (degrees). Its asin/atan2 arithmetic is not modelled.
   */
  type Destination = (real, real, real, real) -> (real, real)

  /** What `__init__` stores: the copied centre, the box zoom, radius and diameter. */
  datatype BoxState = BoxState(center: PointState, zoomLevel: int, radius: real, diameter: real)

  /**
    A box whose centre has a position. The box zoom is not tied to the
    centre's: `zoom_level` may be reassigned after `__init__`, and every
    corner and pixel property reads the box's own zoom.
   */
  predicate WellFormed(b: BoxState)
  {
    b.center.latitude.Some? && b.center.longitude.Some? && Normalized(b.center)
  }

  /** The keyword arguments of `BoundingBox(point, ...)`; `None` is left out. */
  datatype BoxArgs = BoxArgs(zoomLevel: Option<int>, radius: Option<real>, diameter: Option<real>)

  /**
    `BoundingBox.__init__`. The first argument is `None` when it is not a
    Point. Copying a centre whose latitude or longitude is unset fails in
    the Point setters, which compare `None` with a number.
   */
  function Init(point: Option<PointState>, a: BoxArgs, p: Projection): (r: Result<BoxState>)
    ensures r.Err? <==>
      point.None? || point.value.latitude.None? || point.value.longitude.None? ||
      (a.radius.None? && a.diameter.None?)
    ensures r.Err? ==>
      (r.error == AttributeError <==> point.Some? && point.value.latitude.Some? && point.value.longitude.Some?)
    ensures r.Ok? ==> WellFormed(r.value)
    ensures r.Ok? ==> r.value.zoomLevel == a.zoomLevel.GetOr(point.value.zoomLevel)
    ensures r.Ok? ==> r.value.center.zoomLevel == StoredZoom(r.value.zoomLevel)
    ensures r.Ok? ==>
      r.value.center.latitude == Some(StoredLatitude(point.value.latitude.value)) &&
      r.value.center.longitude == Some(StoredLongitude(point.value.longitude.value))
    ensures r.Ok? && a.radius.Some? ==> r.value.radius == a.radius.value && r.value.diameter == 2.0 * a.radius.value
    ensures r.Ok? && a.radius.None? ==> r.value.diameter == a.diameter.value
    ensures r.Ok? && a.radius.None? && a.diameter.value > 0.0 ==> 2.0 * r.value.radius == a.diameter.value
    ensures r.Ok? && a.radius.None? && a.diameter.value <= 0.0 ==> r.value.radius == 0.0
  {
    if point.None? then Err(TypeError)
    else
      var pt := point.value;
      var zoom := a.zoomLevel.GetOr(pt.zoomLevel);
      if pt.latitude.None? || pt.longitude.None? then Err(TypeError)
      else
        ConstructGeo(pt.latitude.value, pt.longitude.value, Some(zoom), p);
        var center := Construct(GeoArgs(pt.latitude.value, pt.longitude.value, Some(zoom)), p);
        if a.radius.Some? then Ok(BoxState(center, zoom, a.radius.value, a.radius.value * 2.0))
        else if a.diameter.Some? then
          var d := a.diameter.value;
          Ok(BoxState(center, zoom, if d > 0.0 then d / 2.0 else 0.0, d))
        else Err(AttributeError)
  }

  // ---------------------------------------------------------------------
  // Vertices

  /** The i-th bearing of `_bound_vertices(n)`, in degrees: (360 / n) * (i + 1). */
  function Bearing(n: nat, i: nat): (r: real)
    requires n > 0
    ensures r > 0.0
    ensures r * n as real == 360.0 * (i + 1) as real
    ensures i < n ==> r <= 360.0
    ensures i + 1 == n ==> r == 360.0
  {
    BearingSpacing(360.0 / n as real, n, i);
    360.0 / n as real * (i + 1) as real
  }

  /** n steps of 360 / n make a full turn, and the first n multiples stay within it. */
  lemma BearingSpacing(step: real, n: nat, i: nat)
    requires n > 0 && step == 360.0 / n as real
    ensures step * n as real == 360.0
    ensures step * (i + 1) as real > 0.0
    ensures step * (i + 1) as real * n as real == 360.0 * (i + 1) as real
    ensures i < n ==> step * (i + 1) as real <= 360.0
  {
    var r := step * (i + 1) as real;
    assert r * n as real == step * n as real * (i + 1) as real;
    if i < n {
      assert (i + 1) as real <= n as real;
      assert r <= step * n as real;
    }
  }

  /** The four bearings of `box_vertices` point east, south, west and north. */
  lemma BoxBearings()
    ensures seq(BoxVertexCount, i requires 0 <= i < BoxVertexCount => Bearing(BoxVertexCount, i)) ==
      [90.0, 180.0, 270.0, 360.0]
  {
    var s := seq(BoxVertexCount, i requires 0 <= i < BoxVertexCount => Bearing(BoxVertexCount, i));
    assert s[0] == 90.0 && s[1] == 180.0 && s[2] == 270.0 && s[3] == 360.0;
  }

  /** Where the destination formula puts the i-th of n vertices. */
  function VertexDestination(b: BoxState, dest: Destination, n: nat, i: nat): (real, real)
    requires WellFormed(b) && n > 0
  {
    dest(b.center.latitude.value, b.center.longitude.value, b.radius / RadiusEarthMiles, Bearing(n, i))
  }

  /**
    The i-th vertex of `_bound_vertices(n)`: a Point built from the
    destination, so its latitude is clamped and its longitude wrapped by the
    setters, at the default zoom.
   */
  function VertexAt(b: BoxState, dest: Destination, n: nat, i: nat, p: Projection): (r: PointState)
    requires WellFormed(b) && n > 0
    ensures Normalized(r) && r.zoomLevel == 14
    ensures r.latitude == Some(StoredLatitude(VertexDestination(b, dest, n, i).0))
    ensures r.longitude == Some(StoredLongitude(VertexDestination(b, dest, n, i).1))
  {
    var d := VertexDestination(b, dest, n, i);
    PointState(Some(StoredLatitude(d.0)), Some(StoredLongitude(d.1)), 14)
  }

  /** Each vertex is the Point `Point(latitude=.., longitude=..)` builds. */
  lemma VertexAtConstructed(b: BoxState, dest: Destination, n: nat, i: nat, p: Projection)
    requires WellFormed(b) && n > 0
    ensures var d := VertexDestination(b, dest, n, i);
      VertexAt(b, dest, n, i, p) == Construct(GeoArgs(d.0, d.1, None), p)
  {
    var d := VertexDestination(b, dest, n, i);
    ConstructGeo(d.0, d.1, None, p);
  }

  /** `box_vertices`: the four vertex points. */
  function BoxVertices(b: BoxState, dest: Destination, p: Projection): (r: seq<PointState>)
    requires WellFormed(b)
    ensures |r| == BoxVertexCount
    ensures forall i :: 0 <= i < |r| ==> r[i] == VertexAt(b, dest, BoxVertexCount, i, p)
  {
    seq(BoxVertexCount, i requires 0 <= i < BoxVertexCount => VertexAt(b, dest, BoxVertexCount, i, p))
  }

  /** `[v.longitude for v in self.box_vertices]`; every vertex has one. */
  function VertexLongitudes(b: BoxState, dest: Destination, p: Projection): (r: seq<real>)
    requires WellFormed(b)
    ensures |r| == BoxVertexCount
    ensures forall i :: 0 <= i < |r| ==> BoxVertices(b, dest, p)[i].longitude == Some(r[i])
  {
    var vs := BoxVertices(b, dest, p);
    seq(BoxVertexCount, i requires 0 <= i < BoxVertexCount => vs[i].longitude.value)
  }

  /** `[v.latitude for v in self.box_vertices]`; every vertex has one. */
  function VertexLatitudes(b: BoxState, dest: Destination, p: Projection): (r: seq<real>)
    requires WellFormed(b)
    ensures |r| == BoxVertexCount
    ensures forall i :: 0 <= i < |r| ==> BoxVertices(b, dest, p)[i].latitude == Some(r[i])
  {
    var vs := BoxVertices(b, dest, p);
    seq(BoxVertexCount, i requires 0 <= i < BoxVertexCount => vs[i].latitude.value)
  }

  // ---------------------------------------------------------------------
  // Envelope

  /** Python `min` of a non-empty list. */
  function MinOf(xs: seq<real>): (r: real)
    requires |xs| > 0
    ensures r in xs
    ensures forall i :: 0 <= i < |xs| ==> r <= xs[i]
  {
    if |xs| == 1 then xs[0]
    else
      var m := MinOf(xs[1..]);
      assert forall i :: 1 <= i < |xs| ==> xs[i] == xs[1..][i - 1];
      if xs[0] <= m then xs[0] else m
  }

  /** Python `max` of a non-empty list. */
  function MaxOf(xs: seq<real>): (r: real)
    requires |xs| > 0
    ensures r in xs
    ensures forall i :: 0 <= i < |xs| ==> xs[i] <= r
  {
    if |xs| == 1 then xs[0]
    else
      var m := MaxOf(xs[1..]);
      assert forall i :: 1 <= i < |xs| ==> xs[i] == xs[1..][i - 1];
      if xs[0] >= m then xs[0] else m
  }

  /** `min_longitude`: the westernmost vertex longitude. */
  function MinLongitude(b: BoxState, dest: Destination, p: Projection): (r: real)
    requires WellFormed(b)
    ensures r in VertexLongitudes(b, dest, p)
    ensures forall i :: 0 <= i < BoxVertexCount ==> r <= VertexLongitudes(b, dest, p)[i]
  {
    MinOf(VertexLongitudes(b, dest, p))
  }

  /** `max_longitude`: the easternmost vertex longitude. */
  function MaxLongitude(b: BoxState, dest: Destination, p: Projection): (r: real)
    requires WellFormed(b)
    ensures r in VertexLongitudes(b, dest, p)
    ensures forall i :: 0 <= i < BoxVertexCount ==> VertexLongitudes(b, dest, p)[i] <= r
  {
    MaxOf(VertexLongitudes(b, dest, p))
  }

  /** `min_latitude`: the southernmost vertex latitude. */
  function MinLatitude(b: BoxState, dest: Destination, p: Projection): (r: real)
    requires WellFormed(b)
    ensures r in VertexLatitudes(b, dest, p)
    ensures forall i :: 0 <= i < BoxVertexCount ==> r <= VertexLatitudes(b, dest, p)[i]
  {
    MinOf(VertexLatitudes(b, dest, p))
  }

  /** `max_latitude`: the northernmost vertex latitude. */
  function MaxLatitude(b: BoxState, dest: Destination, p: Projection): (r: real)
    requires WellFormed(b)
    ensures r in VertexLatitudes(b, dest, p)
    ensures forall i :: 0 <= i < BoxVertexCount ==> VertexLatitudes(b, dest, p)[i] <= r
  {
    MaxOf(VertexLatitudes(b, dest, p))
  }

  /** The envelope is never inverted, whatever the destination formula returns. */
  lemma EnvelopeOrdered(b: BoxState, dest: Destination, p: Projection)
    requires WellFormed(b)
    ensures MinLongitude(b, dest, p) <= MaxLongitude(b, dest, p)
    ensures MinLatitude(b, dest, p) <= MaxLatitude(b, dest, p)
  {
    var lons, lats := VertexLongitudes(b, dest, p), VertexLatitudes(b, dest, p);
    assert MinLongitude(b, dest, p) <= lons[0] <= MaxLongitude(b, dest, p);
    assert MinLatitude(b, dest, p) <= lats[0] <= MaxLatitude(b, dest, p);
  }

  /**
    Every envelope value is one a Point setter stored, so storing it again
    changes nothing; it lies in the ranges the setters keep.
   */
  lemma EnvelopeStored(b: BoxState, dest: Destination, p: Projection)
    requires WellFormed(b)
    ensures StoredLongitude(MinLongitude(b, dest, p)) == MinLongitude(b, dest, p)
    ensures StoredLongitude(MaxLongitude(b, dest, p)) == MaxLongitude(b, dest, p)
    ensures StoredLatitude(MinLatitude(b, dest, p)) == MinLatitude(b, dest, p)
    ensures StoredLatitude(MaxLatitude(b, dest, p)) == MaxLatitude(b, dest, p)
  {
    StoredLongitudeOfVertex(b, dest, p, MinLongitude(b, dest, p));
    StoredLongitudeOfVertex(b, dest, p, MaxLongitude(b, dest, p));
    StoredLatitudeOfVertex(b, dest, p, MinLatitude(b, dest, p));
    StoredLatitudeOfVertex(b, dest, p, MaxLatitude(b, dest, p));
  }

  lemma StoredLongitudeOfVertex(b: BoxState, dest: Destination, p: Projection, v: real)
    requires WellFormed(b) && v in VertexLongitudes(b, dest, p)
    ensures StoredLongitude(v) == v
  {
    var lons := VertexLongitudes(b, dest, p);
    var i :| 0 <= i < |lons| && lons[i] == v;
    StoredLongitudeIdempotent(VertexDestination(b, dest, BoxVertexCount, i).1);
  }

  lemma StoredLatitudeOfVertex(b: BoxState, dest: Destination, p: Projection, v: real)
    requires WellFormed(b) && v in VertexLatitudes(b, dest, p)
    ensures StoredLatitude(v) == v
  {
    var lats := VertexLatitudes(b, dest, p);
    var i :| 0 <= i < |lats| && lats[i] == v;
    StoredLatitudeIdempotent(VertexDestination(b, dest, BoxVertexCount, i).0);
  }

  /** `vertex_top_left`: the north-west corner of the envelope at the box zoom. */
  function VertexTopLeft(b: BoxState, dest: Destination, p: Projection): (r: PointState)
    requires WellFormed(b)
    ensures Normalized(r) && r.zoomLevel == StoredZoom(b.zoomLevel)
    ensures r.latitude == Some(MaxLatitude(b, dest, p))
    ensures r.longitude == Some(MinLongitude(b, dest, p))
  {
    EnvelopeStored(b, dest, p);
    PointState(Some(MaxLatitude(b, dest, p)), Some(MinLongitude(b, dest, p)), StoredZoom(b.zoomLevel))
  }

  /** `vertex_bottom_right`: the south-east corner of the envelope at the box zoom. */
  function VertexBottomRight(b: BoxState, dest: Destination, p: Projection): (r: PointState)
    requires WellFormed(b)
    ensures Normalized(r) && r.zoomLevel == StoredZoom(b.zoomLevel)
    ensures r.latitude == Some(MinLatitude(b, dest, p))
    ensures r.longitude == Some(MaxLongitude(b, dest, p))
  {
    EnvelopeStored(b, dest, p);
    PointState(Some(MinLatitude(b, dest, p)), Some(MaxLongitude(b, dest, p)), StoredZoom(b.zoomLevel))
  }

  /**
    The corners are the Points `vertex_top_left` and `vertex_bottom_right`
    build from the envelope at the box zoom: the setters leave the envelope
    values as they are.
   */
  lemma CornersConstructed(b: BoxState, dest: Destination, p: Projection)
    requires WellFormed(b)
    ensures VertexTopLeft(b, dest, p) ==
      Construct(GeoArgs(MaxLatitude(b, dest, p), MinLongitude(b, dest, p), Some(b.zoomLevel)), p)
    ensures VertexBottomRight(b, dest, p) ==
      Construct(GeoArgs(MinLatitude(b, dest, p), MaxLongitude(b, dest, p), Some(b.zoomLevel)), p)
  {
    EnvelopeStored(b, dest, p);
    ConstructGeo(MaxLatitude(b, dest, p), MinLongitude(b, dest, p), Some(b.zoomLevel), p);
    ConstructGeo(MinLatitude(b, dest, p), MaxLongitude(b, dest, p), Some(b.zoomLevel), p);
  }

  // ---------------------------------------------------------------------
  // Pixels and tiles of the corners

  /**
    `min_pixel_x`: unset exactly when the west edge is the prime meridian;
    otherwise the pixel column of the least longitude, rounded.
   */
  function MinPixelX(b: BoxState, dest: Destination, p: Projection): (r: Option<int>)
    requires WellFormed(b)
    ensures r.None? <==> MinLongitude(b, dest, p) == 0.0
    ensures r.Some? ==> var x := PixelXExact(MinLongitude(b, dest, p), MapSize(StoredZoom(b.zoomLevel)));
      x - 0.5 < r.value as real <= x + 0.5
    ensures r.Some? ==> 0 <= r.value <= MapSize(StoredZoom(b.zoomLevel))
  {
    PixelX(VertexTopLeft(b, dest, p))
  }

  /**
    `max_pixel_x`: unset exactly when the east edge is the prime meridian;
    otherwise the pixel column of the greatest longitude, rounded.
   */
  function MaxPixelX(b: BoxState, dest: Destination, p: Projection): (r: Option<int>)
    requires WellFormed(b)
    ensures r.None? <==> MaxLongitude(b, dest, p) == 0.0
    ensures r.Some? ==> var x := PixelXExact(MaxLongitude(b, dest, p), MapSize(StoredZoom(b.zoomLevel)));
      x - 0.5 < r.value as real <= x + 0.5
    ensures r.Some? ==> 0 <= r.value <= MapSize(StoredZoom(b.zoomLevel))
  {
    PixelX(VertexBottomRight(b, dest, p))
  }

  /** `min_pixel_y`: the pixel row of the north edge, unset on the equator. */
  function MinPixelY(b: BoxState, dest: Destination, p: Projection): (r: Option<int>)
    requires WellFormed(b)
    ensures r.None? <==> MaxLatitude(b, dest, p) == 0.0
    ensures r.Some? ==>
      var y := PixelYExact(MaxLatitude(b, dest, p), MapSize(StoredZoom(b.zoomLevel)), p);
      y - 0.5 < r.value as real <= y + 0.5
  {
    PixelY(VertexTopLeft(b, dest, p), p)
  }

  /** `max_pixel_y`: the pixel row of the south edge, unset on the equator. */
  function MaxPixelY(b: BoxState, dest: Destination, p: Projection): (r: Option<int>)
    requires WellFormed(b)
    ensures r.None? <==> MinLatitude(b, dest, p) == 0.0
    ensures r.Some? ==>
      var y := PixelYExact(MinLatitude(b, dest, p), MapSize(StoredZoom(b.zoomLevel)), p);
      y - 0.5 < r.value as real <= y + 0.5
  {
    PixelY(VertexBottomRight(b, dest, p), p)
  }

  /** `min_tile_x`: the tile column of `min_pixel_x`. */
  function MinTileX(b: BoxState, dest: Destination, p: Projection): (r: Option<int>)
    requires WellFormed(b)
    ensures r.None? <==> MinPixelX(b, dest, p).None? || MinPixelX(b, dest, p).value == 0
    ensures r.Some? ==> r.value == MinPixelX(b, dest, p).value / 256
  {
    TileX(VertexTopLeft(b, dest, p))
  }

  /** `max_tile_x`: the tile column of `max_pixel_x`. */
  function MaxTileX(b: BoxState, dest: Destination, p: Projection): (r: Option<int>)
    requires WellFormed(b)
    ensures r.None? <==> MaxPixelX(b, dest, p).None? || MaxPixelX(b, dest, p).value == 0
    ensures r.Some? ==> r.value == MaxPixelX(b, dest, p).value / 256
  {
    TileX(VertexBottomRight(b, dest, p))
  }

  /** `min_tile_y`: the tile row of `min_pixel_y`, truncated toward zero. */
  function MinTileY(b: BoxState, dest: Destination, p: Projection): (r: Option<int>)
    requires WellFormed(b)
    ensures r.None? <==> MinPixelY(b, dest, p).None? || MinPixelY(b, dest, p).value == 0
    ensures r.Some? && MinPixelY(b, dest, p).value > 0 ==> r.value == MinPixelY(b, dest, p).value / 256
  {
    TileY(VertexTopLeft(b, dest, p), p)
  }

  /** `max_tile_y`: the tile row of `max_pixel_y`, truncated toward zero. */
  function MaxTileY(b: BoxState, dest: Destination, p: Projection): (r: Option<int>)
    requires WellFormed(b)
    ensures r.None? <==> MaxPixelY(b, dest, p).None? || MaxPixelY(b, dest, p).value == 0
    ensures r.Some? && MaxPixelY(b, dest, p).value > 0 ==> r.value == MaxPixelY(b, dest, p).value / 256
  {
    TileY(VertexBottomRight(b, dest, p), p)
  }

  /** With pixel y falling as latitude grows, the north edge is the upper pixel and tile row. */
  lemma CornerRowsOrdered(b: BoxState, dest: Destination, p: Projection)
    requires WellFormed(b)
    ensures PixelYFractionAntitone(p) && MinPixelY(b, dest, p).Some? && MaxPixelY(b, dest, p).Some? ==>
      MinPixelY(b, dest, p).value <= MaxPixelY(b, dest, p).value
    ensures PixelYFractionAntitone(p) && MinTileY(b, dest, p).Some? && MaxTileY(b, dest, p).Some? ==>
      MinTileY(b, dest, p).value <= MaxTileY(b, dest, p).value
  {
    if PixelYFractionAntitone(p) {
      EnvelopeOrdered(b, dest, p);
      var nw, se := VertexTopLeft(b, dest, p), VertexBottomRight(b, dest, p);
      if MinPixelY(b, dest, p).Some? && MaxPixelY(b, dest, p).Some? {
        PixelYAntitone(se, nw, p);
      }
      if MinTileY(b, dest, p).Some? && MaxTileY(b, dest, p).Some? {
        TileYAntitone(se, nw, p);
      }
    }
  }

  /**
    `tile_width`: the number of tile columns between the corners; raises
    TypeError when either tile column is unset. Never negative.
   */
  function TileWidth(b: BoxState, dest: Destination, p: Projection): (r: Result<int>)
    requires WellFormed(b)
    ensures r.Err? <==> MinTileX(b, dest, p).None? || MaxTileX(b, dest, p).None?
    ensures r.Err? ==> r.error == TypeError
    ensures r.Ok? ==> MinTileX(b, dest, p).value + r.value == MaxTileX(b, dest, p).value
    ensures r.Ok? ==> r.value >= 0
  {
    var lo, hi := MinTileX(b, dest, p), MaxTileX(b, dest, p);
    if lo.None? || hi.None? then Err(TypeError)
    else
      EnvelopeOrdered(b, dest, p);
      TileXMonotone(VertexTopLeft(b, dest, p), VertexBottomRight(b, dest, p));
      Ok(hi.value - lo.value)
  }

  /**
    `tile_height`: the number of tile rows between the corners; raises
    TypeError when either tile row is unset. Never negative when pixel y
    falls with latitude.
   */
  function TileHeight(b: BoxState, dest: Destination, p: Projection): (r: Result<int>)
    requires WellFormed(b)
    ensures r.Err? <==> MinTileY(b, dest, p).None? || MaxTileY(b, dest, p).None?
    ensures r.Err? ==> r.error == TypeError
    ensures r.Ok? ==> MinTileY(b, dest, p).value + r.value == MaxTileY(b, dest, p).value
    ensures r.Ok? && PixelYFractionAntitone(p) ==> r.value >= 0
  {
    var lo, hi := MinTileY(b, dest, p), MaxTileY(b, dest, p);
    if lo.None? || hi.None? then Err(TypeError)
    else
      CornerRowsOrdered(b, dest, p);
      Ok(hi.value - lo.value)
  }

  /**
    `pixel_width`: the pixel distance between the corners, at least 1;
    raises TypeError when either pixel column is unset.
   */
  function PixelWidth(b: BoxState, dest: Destination, p: Projection): (r: Result<int>)
    requires WellFormed(b)
    ensures r.Err? <==> MinPixelX(b, dest, p).None? || MaxPixelX(b, dest, p).None?
    ensures r.Err? ==> r.error == TypeError
    ensures r.Ok? ==> r.value >= 1
    ensures r.Ok? ==> 0 <= MaxPixelX(b, dest, p).value - MinPixelX(b, dest, p).value <= r.value
    ensures r.Ok? && r.value > 1 ==> r.value == MaxPixelX(b, dest, p).value - MinPixelX(b, dest, p).value
  {
    var lo, hi := MinPixelX(b, dest, p), MaxPixelX(b, dest, p);
    if lo.None? || hi.None? then Err(TypeError)
    else
      EnvelopeOrdered(b, dest, p);
      PixelXMonotone(VertexTopLeft(b, dest, p), VertexBottomRight(b, dest, p));
      var w := Trunc((hi.value - lo.value) as real);
      TruncWhole(hi.value - lo.value);
      Ok(if w > 1 then w else 1)
  }

  /**
    `pixel_height`: the pixel distance between the corners, at least 1;
    raises TypeError when either pixel row is unset.
   */
  function PixelHeight(b: BoxState, dest: Destination, p: Projection): (r: Result<int>)
    requires WellFormed(b)
    ensures r.Err? <==> MinPixelY(b, dest, p).None? || MaxPixelY(b, dest, p).None?
    ensures r.Err? ==> r.error == TypeError
    ensures r.Ok? ==> r.value >= 1
    ensures r.Ok? ==> MaxPixelY(b, dest, p).value - MinPixelY(b, dest, p).value <= r.value
    ensures r.Ok? && r.value > 1 ==> r.value == MaxPixelY(b, dest, p).value - MinPixelY(b, dest, p).value
    ensures r.Ok? && PixelYFractionAntitone(p) ==> 0 <= MaxPixelY(b, dest, p).value - MinPixelY(b, dest, p).value
  {
    var lo, hi := MinPixelY(b, dest, p), MaxPixelY(b, dest, p);
    if lo.None? || hi.None? then Err(TypeError)
    else
      CornerRowsOrdered(b, dest, p);
      var h := Trunc((hi.value - lo.value) as real);
      TruncWhole(hi.value - lo.value);
      Ok(if h > 1 then h else 1)
  }

  /**
    `int(value - edge)`: the offset of a pixel from a box edge, truncated
    toward zero; TypeError when the edge pixel is unset.
   */
  function RelativeOffset(edge: Option<int>, value: real): (r: Result<int>)
    ensures r.Err? <==> edge.None?
    ensures r.Err? ==> r.error == TypeError
    ensures r.Ok? ==> var d := value - edge.value as real;
      (d >= 0.0 ==> r.value as real <= d < r.value as real + 1.0) &&
      (d < 0.0 ==> r.value as real - 1.0 < d <= r.value as real)
  {
    if edge.None? then Err(TypeError) else Ok(Trunc(value - edge.value as real))
  }

  /** A whole pixel is offset from the edge by exactly the difference; the edge itself by 0. */
  lemma RelativeOffsetWhole(edge: int, target: int)
    ensures RelativeOffset(Some(edge), target as real) == Ok(target - edge)
  {
    assert target as real - edge as real == (target - edge) as real;
    TruncWhole(target - edge);
  }

  /** `relative_pixel_x(value)`: the offset of a pixel column from the west edge. */
  function RelativePixelX(b: BoxState, dest: Destination, p: Projection, value: real): (r: Result<int>)
    requires WellFormed(b)
    ensures r.Err? <==> MinPixelX(b, dest, p).None?
    ensures r.Err? ==> r.error == TypeError
    ensures r.Ok? ==> var d := value - MinPixelX(b, dest, p).value as real;
      (d >= 0.0 ==> r.value as real <= d < r.value as real + 1.0) &&
      (d < 0.0 ==> r.value as real - 1.0 < d <= r.value as real)
  {
    RelativeOffset(MinPixelX(b, dest, p), value)
  }

  /** `relative_pixel_y(value)`: the offset of a pixel row from the north edge. */
  function RelativePixelY(b: BoxState, dest: Destination, p: Projection, value: real): (r: Result<int>)
    requires WellFormed(b)
    ensures r.Err? <==> MinPixelY(b, dest, p).None?
    ensures r.Err? ==> r.error == TypeError
    ensures r.Ok? ==> var d := value - MinPixelY(b, dest, p).value as real;
      (d >= 0.0 ==> r.value as real <= d < r.value as real + 1.0) &&
      (d < 0.0 ==> r.value as real - 1.0 < d <= r.value as real)
  {
    RelativeOffset(MinPixelY(b, dest, p), value)
  }

  /** The west edge is offset 0 from itself. */
  lemma RelativePixelXOfMin(b: BoxState, dest: Destination, p: Projection, lo: int)
    requires WellFormed(b) && MinPixelX(b, dest, p) == Some(lo)
    ensures RelativePixelX(b, dest, p, lo as real) == Ok(0)
  {
    RelativeOffsetWhole(lo, lo);
  }

  /** The east edge is offset from the west edge by the pixel span. */
  lemma RelativePixelXOfMax(b: BoxState, dest: Destination, p: Projection, lo: int, hi: int)
    requires WellFormed(b) && MinPixelX(b, dest, p) == Some(lo) && MaxPixelX(b, dest, p) == Some(hi)
    ensures RelativePixelX(b, dest, p, hi as real) == Ok(hi - lo)
  {
    RelativeOffsetWhole(lo, hi);
  }

  /** The north edge is offset 0 from itself. */
  lemma RelativePixelYOfMin(b: BoxState, dest: Destination, p: Projection, lo: int)
    requires WellFormed(b) && MinPixelY(b, dest, p) == Some(lo)
    ensures RelativePixelY(b, dest, p, lo as real) == Ok(0)
  {
    RelativeOffsetWhole(lo, lo);
  }

  /** The south edge is offset from the north edge by the pixel span. */
  lemma RelativePixelYOfMax(b: BoxState, dest: Destination, p: Projection, lo: int, hi: int)
    requires WellFormed(b) && MinPixelY(b, dest, p) == Some(lo) && MaxPixelY(b, dest, p) == Some(hi)
    ensures RelativePixelY(b, dest, p, hi as real) == Ok(hi - lo)
  {
    RelativeOffsetWhole(lo, hi);
  }

  // ---------------------------------------------------------------------
  // Tile grid

  /**
    The arguments `tile_grid` passes to `Grid`, as the grid checks them:
    the north-west tile as vertex, the tile width and height as extents.
    TypeError when a tile index is unset.
   */
  function TileGridShape(b: BoxState, dest: Destination, p: Projection): (r: Result<GridShape>)
    requires WellFormed(b)
    ensures r.Err? <==> TileWidth(b, dest, p).Err? || TileHeight(b, dest, p).Err?
    ensures r.Err? ==> r.error == TypeError
    ensures r.Ok? ==> r.value.startX == MinTileX(b, dest, p).value && r.value.startY == MinTileY(b, dest, p).value
    ensures r.Ok? ==> r.value.width == TileWidth(b, dest, p).value && r.value.height == TileHeight(b, dest, p).value
  {
    var w, h := TileWidth(b, dest, p), TileHeight(b, dest, p);
    if w.Err? || h.Err? then Err(TypeError)
    else
      var x, y := MinTileX(b, dest, p).value, MinTileY(b, dest, p).value;
      CheckArgsWhole(x, y, w.value, h.value);
      CheckArgs(GridArgs(Some((x, y)), Some(w.value as real), Some(h.value as real)))
  }

  /**
    The tile grid walks from the north-west tile to the south-east tile and
    yields (tile_width + 1) * (tile_height + 1) cells, covering every tile
    between the corners exactly once.
   */
  lemma TileGridCells(b: BoxState, dest: Destination, p: Projection, g: GridShape, x0: int, y0: int, x1: int, y1: int)
    requires WellFormed(b) && TileGridShape(b, dest, p) == Ok(g)
    requires MinTileX(b, dest, p) == Some(x0) && MinTileY(b, dest, p) == Some(y0)
    requires MaxTileX(b, dest, p) == Some(x1) && MaxTileY(b, dest, p) == Some(y1)
    requires PixelYFractionAntitone(p)
    ensures |AllCells(g)| == (x1 - x0 + 1) * (y1 - y0 + 1)
    ensures |AllCells(g)| > 0
    ensures AllCells(g)[0] == (x0, y0)
    ensures AllCells(g)[|AllCells(g)| - 1] == (x1, y1)
  {
    CornerRowsOrdered(b, dest, p);
    assert TileWidth(b, dest, p).Ok?;
    assert g.startX == x0 && g.startY == y0;
    assert g.width == x1 - x0 && g.height == y1 - y0;
    CornerCells(g, x0, y0, x1, y1);
  }

  // ---------------------------------------------------------------------
  // The object

  /** A BoundingBox object; `__init__` assigns its four attributes. */
  class BoundingBox {
    var zoomLevel: int
    var ptCenter: Point
    var radius: real
    var diameter: real

    function State(): BoxState
      reads this, ptCenter
    {
      BoxState(ptCenter.State(), zoomLevel, radius, diameter)
    }

    ghost predicate Valid()
      reads this, ptCenter
    {
      ptCenter.Valid() && WellFormed(State())
    }

    constructor (zoomLevel: int, ptCenter: Point, radius: real, diameter: real)
      ensures this.zoomLevel == zoomLevel && this.ptCenter == ptCenter
      ensures this.radius == radius && this.diameter == diameter
    {
      this.zoomLevel := zoomLevel;
      this.ptCenter := ptCenter;
      this.radius := radius;
      this.diameter := diameter;
    }

    /** `BoundingBox(point, **kwargs)`; `point` is `None` when it is not a Point. */
    static method Create(point: Option<Point>, a: BoxArgs, p: Projection) returns (r: Result<BoundingBox>)
      ensures var expected := Init(if point.Some? then Some(point.value.State()) else None, a, p);
        && (r.Err? <==> expected.Err?)
        && (r.Err? ==> r.error == expected.error)
        && (r.Ok? ==> fresh(r.value) && fresh(r.value.ptCenter) && r.value.Valid() && r.value.State() == expected.value)
    {
      if point.None? {
        return Err(TypeError);
      }
      var pt := point.value;
      var zoom := a.zoomLevel.GetOr(pt.zoomLevel);
      if pt.latitude.None? || pt.longitude.None? {
        return Err(TypeError);
      }
      var center := new Point(GeoArgs(pt.latitude.value, pt.longitude.value, Some(zoom)), p);
      var radius: real, diameter: real;
      if a.radius.Some? {
        radius := a.radius.value;
        diameter := radius * 2.0;
      } else if a.diameter.Some? {
        diameter := a.diameter.value;
        radius := if diameter > 0.0 then diameter / 2.0 else 0.0;
      } else {
        return Err(AttributeError);
      }
      var box := new BoundingBox(zoom, center, radius, diameter);
      ConstructGeo(pt.latitude.value, pt.longitude.value, Some(zoom), p);
      r := Ok(box);
    }

    /**
      `_bound_vertices(num_pts)`: one new Point per bearing, in bearing
      order. With no points the bearing list is empty and so is the result.
     */
    method BoundVertices(numPts: nat, dest: Destination, p: Projection) returns (vertices: seq<Point>)
      requires Valid()
      ensures |vertices| == numPts
      ensures forall i :: 0 <= i < numPts ==>
        fresh(vertices[i]) && vertices[i].Valid() && vertices[i].State() == VertexAt(State(), dest, numPts, i, p)
    {
      ghost var box := State();
      var latitude, longitude := ptCenter.latitude.value, ptCenter.longitude.value;
      var bearings := seq(numPts, x requires 0 <= x < numPts => 360.0 / numPts as real * (x + 1) as real);
      vertices := [];
      for i := 0 to numPts
        invariant |vertices| == i
        invariant forall k :: 0 <= k < i ==>
          fresh(vertices[k]) && vertices[k].Valid() && vertices[k].State() == VertexAt(box, dest, numPts, k, p)
      {
        var d := dest(latitude, longitude, radius / RadiusEarthMiles, bearings[i]);
        assert bearings[i] == Bearing(numPts, i);
        assert d == VertexDestination(box, dest, numPts, i);
        var pt := new Point(GeoArgs(d.0, d.1, None), p);
        ConstructGeo(d.0, d.1, None, p);
        assert pt.State() == VertexAt(box, dest, numPts, i, p);
        vertices := vertices + [pt];
      }
    }

    /** `box_vertices`: the four vertices. */
    method BoxVerticesOf(dest: Destination, p: Projection) returns (vertices: seq<Point>)
      requires Valid()
      ensures |vertices| == BoxVertexCount
      ensures forall i :: 0 <= i < BoxVertexCount ==>
        fresh(vertices[i]) && vertices[i].Valid() && vertices[i].State() == BoxVertices(State(), dest, p)[i]
    {
      vertices := BoundVertices(BoxVertexCount, dest, p);
    }

    /** `tile_grid`: a fresh Grid over the tiles between the corners. */
    method TileGrid(dest: Destination, p: Projection) returns (r: Result<Grid>)
      requires Valid()
      ensures r.Err? <==> TileGridShape(State(), dest, p).Err?
      ensures r.Err? ==> r.error == TypeError
      ensures r.Ok? ==> fresh(r.value) && r.value.Valid() && r.value.yielded == []
      ensures r.Ok? ==> r.value.Shape() == TileGridShape(State(), dest, p).value
    {
      var s := State();
      var minX, minY := MinTileX(s, dest, p), MinTileY(s, dest, p);
      var w, h := TileWidth(s, dest, p), TileHeight(s, dest, p);
      if w.Err? || h.Err? {
        return Err(TypeError);
      }
      r := Grid.Create(GridArgs(Some((minX.value, minY.value)), Some(w.value as real), Some(h.value as real)));
    }
  }
}
