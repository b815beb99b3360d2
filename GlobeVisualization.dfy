/**
 * V2/globe_visualization.py: turning a location request into a 402-LED frame.
 * A point lights the LEDs around one centre index; a region lights the LEDs
 * around each polygon vertex; malformed requests are rejected or, when the
 * Python code would raise, answered with an error frame.
 *
 * The trigonometric parts are parameters: `ColumnPosition` stands for the
 * cosine-based column coordinate of `_calculate_led_index`, and `Near` for the
 * haversine test of `_get_surrounding_leds`.  `send_with_buffer_handling` is
 * represented by the frames handed to it and its result, a parameter.
 */
module GlobeVisualization {
  import opened Options
  import opened Json
  import opened LedFrame

  const ROWS: int := 20
  /** `int(402 / 20)`. */
  const COLS: int := 20
  const POINT_RADIUS: int := 5
  const REGION_POINT_RADIUS: int := 2
  /** LEDs lit red by the error frame. */
  const ERROR_LEDS: int := 20

  const BLACK: Rgb := Rgb(0, 0, 0)
  const RED: Rgb := Rgb(255, 0, 0)

  /**
   * `x * (cols - 1) * col_factor` for a latitude, a longitude and the row
   * band: the cosine-based column coordinate before truncation.
   */
  type ColumnPosition = (real, real, int) -> real

  /** The haversine test: (centre index, radius, candidate index) is within the angular radius. */
  type Near = (int, int, int) -> bool

  /** `min(hi, max(lo, n))`. */
  function Clamp(n: int, lo: int, hi: int): (r: int)
    requires lo <= hi
    ensures lo <= r <= hi
    ensures lo <= n <= hi ==> r == n
    ensures n < lo ==> r == lo
    ensures n > hi ==> r == hi
  {
    if n < lo then lo else if n > hi then hi else n
  }

  /** `_create_led_data`: TOTAL_LEDS copies of the base colour, all off when none is given. */
  function CreateLedData(base: Option<Rgb>): (frame: seq<Rgb>)
    ensures |frame| == TOTAL_LEDS
    ensures forall i :: 0 <= i < |frame| ==> frame[i] == (if base.Some? then base.value else BLACK)
  {
    seq(TOTAL_LEDS, i => if base.Some? then base.value else BLACK)
  }

  // ------------------------------------------------------------ centre index

  /**
   * The row band as the source computes it: `radians(lat + 90) / pi` is
   * already in [0, 1], and 0.5 is added on top before scaling by rows - 1.
   */
  function RowAsWritten(lat: real): int
  {
    Trunc(((lat + 90.0) / 180.0 + 0.5) * (ROWS - 1) as real)
  }

  /** The row band as the projection intends it: 0 at the south pole, rows - 1 at the north pole. */
  function Row(lat: real): int
  {
    Trunc((lat + 90.0) / 180.0 * (ROWS - 1) as real)
  }

  /** `row * cols + int(col_pos) % cols`, clamped into [0, TOTAL_LEDS - 1]. */
  function IndexFromRow(row: int, colPos: real): (index: int)
    ensures 0 <= index < TOTAL_LEDS
  {
    Clamp(row * COLS + Trunc(colPos) % COLS, 0, TOTAL_LEDS - 1)
  }

  /** `_calculate_led_index` as the source computes it, with the +0.5 row band; every painter below uses it. */
  function CalculateLedIndexAsWritten(lat: real, lon: real, colPos: ColumnPosition): (index: int)
    ensures 0 <= index < TOTAL_LEDS
  {
    var row := RowAsWritten(lat);
    IndexFromRow(row, colPos(lat, lon, row))
  }

  /** `_calculate_led_index` with the row band the projection intends; always a valid LED index. */
  function CalculateLedIndex(lat: real, lon: real, colPos: ColumnPosition): (index: int)
    ensures 0 <= index < TOTAL_LEDS
  {
    var row := Row(lat);
    IndexFromRow(row, colPos(lat, lon, row))
  }

  /**
   * As written, every latitude from 10 degrees north up to the pole falls in
   * row 20 or beyond and is clamped to LED 400 or 401, whatever the longitude.
   */
  lemma NorthernLatitudesClampAsWritten(lat: real, lon: real, colPos: ColumnPosition)
    requires 10.0 <= lat <= 90.0
    ensures 400 <= CalculateLedIndexAsWritten(lat, lon, colPos) <= 401
  {
    var y := ((lat + 90.0) / 180.0 + 0.5) * 19.0;
    assert y >= 20.0;
    assert RowAsWritten(lat) >= 20;
  }

  /** As written, rows 0 to 8 are never chosen for any latitude from -90 on. */
  lemma SouthernRowsUnusedAsWritten(lat: real)
    requires lat >= -90.0
    ensures RowAsWritten(lat) >= 9
  {
    assert ((lat + 90.0) / 180.0 + 0.5) * 19.0 >= 9.5;
  }

  /**
   * With the intended band every latitude in [-90, 90] picks a row in [0, 20),
   * the clamp never fires, and the index lies in that row.
   */
  lemma RowInBand(lat: real, lon: real, colPos: ColumnPosition)
    requires -90.0 <= lat <= 90.0
    ensures 0 <= Row(lat) < ROWS
    ensures CalculateLedIndex(lat, lon, colPos) / COLS == Row(lat)
    ensures CalculateLedIndex(lat, lon, colPos) < ROWS * COLS
  {
    var f := (lat + 90.0) / 180.0 * 19.0;
    assert 0.0 <= f <= 19.0;
    var row := Row(lat);
    var col := Trunc(colPos(lat, lon, row)) % COLS;
    assert 0 <= row * COLS + col < 400;
  }

  /** With the intended band, rows never decrease from south to north. */
  lemma RowMonotone(lat1: real, lat2: real)
    requires -90.0 <= lat1 <= lat2
    ensures Row(lat1) <= Row(lat2)
  {
    assert (lat1 + 90.0) / 180.0 * 19.0 <= (lat2 + 90.0) / 180.0 * 19.0;
  }

  // ------------------------------------------------------- surrounding LEDs

  /** The cell visited at a row and column offset from the centre, both wrapping modulo 20. */
  function CellIndex(center: int, rowOffset: int, colOffset: int): (index: int)
    ensures 0 <= index < ROWS * COLS
  {
    ((center / COLS + rowOffset) % ROWS) * COLS + (center % COLS + colOffset) % COLS
  }

  /** `index` is visited by the scan around `center` (offsets in [-3r, 3r]) and passes the distance test. */
  ghost predicate Scanned(center: int, radius: int, near: Near, index: int)
  {
    exists rowOffset, colOffset ::
      -3 * radius <= rowOffset <= 3 * radius && -3 * radius <= colOffset <= 3 * radius &&
      index == CellIndex(center, rowOffset, colOffset) && near(center, radius, index)
  }

  /** For a centre in the grid, the zero offset visits the centre itself. */
  lemma CellIndexAtCenter(center: int)
    requires 0 <= center < ROWS * COLS
    ensures CellIndex(center, 0, 0) == center
  {
  }

  /**
   * `_get_surrounding_leds`: scan the (6r+1) x (6r+1) cells around the centre,
   * wrapping rows and columns, and keep those that pass the distance test.
   * Indices may repeat when the offsets wrap.  LEDs 400 and 401 are never
   * returned.
   */
  method GetSurroundingLeds(center: int, radius: int, near: Near) returns (result: seq<int>)
    ensures forall x :: x in result ==> 0 <= x < ROWS * COLS
    ensures forall x :: x in result <==> Scanned(center, radius, near, x)
    ensures radius < 0 ==> result == []
    ensures radius >= 0 ==> |result| <= (6 * radius + 1) * (6 * radius + 1)
    ensures radius == 0 ==> |result| <= 1 && forall x :: x in result ==> x == CellIndex(center, 0, 0)
  {
    var centerRow := center / COLS;
    var centerCol := center % COLS;
    var scan := radius * 3;
    var width := 2 * scan + 1;
    result := [];
    var rowOffset := -scan;
    while rowOffset <= scan
      invariant -scan <= rowOffset && (radius >= 0 ==> rowOffset <= scan + 1)
      invariant forall x :: x in result ==> 0 <= x < ROWS * COLS && Scanned(center, radius, near, x)
      invariant forall r, c ::
                  -scan <= r < rowOffset && -scan <= c <= scan && near(center, radius, CellIndex(center, r, c))
                  ==> CellIndex(center, r, c) in result
      invariant |result| <= (rowOffset + scan) * width
      invariant radius == 0 ==> forall x :: x in result ==> x == CellIndex(center, 0, 0)
    {
      var r := (centerRow + rowOffset) % ROWS;
      var colOffset := -scan;
      ghost var before := |result|;
      while colOffset <= scan
        invariant -scan <= colOffset <= scan + 1
        invariant forall x :: x in result ==> 0 <= x < ROWS * COLS && Scanned(center, radius, near, x)
        invariant forall r', c ::
                    ((-scan <= r' < rowOffset && -scan <= c <= scan) || (r' == rowOffset && -scan <= c < colOffset)) &&
                    near(center, radius, CellIndex(center, r', c))
                    ==> CellIndex(center, r', c) in result
        invariant |result| <= before + (colOffset + scan)
        invariant radius == 0 ==> forall x :: x in result ==> x == CellIndex(center, 0, 0)
      {
        var c := (centerCol + colOffset) % COLS;
        var index := r * COLS + c;
        assert index == CellIndex(center, rowOffset, colOffset);
        if index >= 0 && index < TOTAL_LEDS {
          if near(center, radius, index) {
            result := result + [index];
          }
        }
        colOffset := colOffset + 1;
      }
      assert (rowOffset + 1 + scan) * width == (rowOffset + scan) * width + width;
      rowOffset := rowOffset + 1;
    }
    if radius >= 0 {
      assert rowOffset + scan == width;
    }
  }

  /** Repaint the given indices with one colour: `for idx in indices: frame[idx] = color`. */
  method PaintFrame(frame: seq<Rgb>, indices: seq<int>, color: Rgb) returns (painted: seq<Rgb>)
    requires forall x :: x in indices ==> 0 <= x < |frame|
    ensures |painted| == |frame|
    ensures forall i :: 0 <= i < |frame| ==> painted[i] == (if i in indices then color else frame[i])
  {
    painted := frame;
    var k := 0;
    while k < |indices|
      invariant 0 <= k <= |indices|
      invariant |painted| == |frame|
      invariant forall i :: 0 <= i < |frame| ==> painted[i] == (if i in indices[..k] then color else frame[i])
    {
      assert indices[k] in indices;
      painted := painted[indices[k] := color];
      assert indices[..k + 1] == indices[..k] + [indices[k]];
      k := k + 1;
    }
    assert indices[..k] == indices;
  }

  // ------------------------------------------------------------- regions

  /** `latitude, longitude = point` followed by the arithmetic on both: a two-element list of numbers. */
  function PointOf(p: Json): (r: Option<(real, real)>)
    ensures r.Some? <==> p.JList? && |p.items| == 2 && AsReal(p.items[0]).Some? && AsReal(p.items[1]).Some?
  {
    if p.JList? && |p.items| == 2 && AsReal(p.items[0]).Some? && AsReal(p.items[1]).Some?
    then Some((AsReal(p.items[0]).value, AsReal(p.items[1]).value))
    else None
  }

  /** How many leading polygon points are processed before one raises. */
  function Unpacked(points: seq<Json>): (n: nat)
    ensures n <= |points|
    ensures forall j :: 0 <= j < n ==> PointOf(points[j]).Some?
    ensures n < |points| ==> PointOf(points[n]).None?
  {
    if points == [] || PointOf(points[0]).None? then 0 else 1 + Unpacked(points[1..])
  }

  /** The centre index of each point, in polygon order. */
  function Centers(points: seq<Json>, colPos: ColumnPosition): (centers: seq<int>)
    requires forall j :: 0 <= j < |points| ==> PointOf(points[j]).Some?
    ensures |centers| == |points|
    ensures forall j :: 0 <= j < |points| ==> 0 <= centers[j] < TOTAL_LEDS
  {
    seq(|points|, j requires 0 <= j < |points| =>
      CalculateLedIndexAsWritten(PointOf(points[j]).value.0, PointOf(points[j]).value.1, colPos))
  }

  /** Some centre of the list lights `index`. */
  ghost predicate Covered(centers: seq<int>, radius: int, near: Near, index: int)
  {
    exists j :: 0 <= j < |centers| && Scanned(centers[j], radius, near, index)
  }

  /**
   * The polygon loop of `highlight_region` and `process_ai_response_to_led`:
   * paint the surroundings of each vertex in order.  A vertex that does not
   * unpack raises; the frame then holds the vertices painted before it.
   */
  method PaintRegion(frame: seq<Rgb>, polygon: seq<Json>, color: Rgb, radius: int, colPos: ColumnPosition, near: Near)
    returns (painted: seq<Rgb>, completed: bool)
    requires |frame| == TOTAL_LEDS
    ensures completed <==> Unpacked(polygon) == |polygon|
    ensures |painted| == TOTAL_LEDS
    ensures forall i :: 0 <= i < TOTAL_LEDS ==>
              painted[i] == (if Covered(Centers(polygon[..Unpacked(polygon)], colPos), radius, near, i) then color else frame[i])
  {
    painted := frame;
    var k := 0;
    while k < |polygon|
      invariant 0 <= k <= |polygon|
      invariant forall j :: 0 <= j < k ==> PointOf(polygon[j]).Some?
      invariant |painted| == TOTAL_LEDS
      invariant forall i :: 0 <= i < TOTAL_LEDS ==>
                  painted[i] == (if Covered(Centers(polygon[..k], colPos), radius, near, i) then color else frame[i])
    {
      var point := PointOf(polygon[k]);
      if point.None? {
        assert Unpacked(polygon) == k;
        return painted, false;
      }
      var center := CalculateLedIndexAsWritten(point.value.0, point.value.1, colPos);
      var indices := GetSurroundingLeds(center, radius, near);
      ghost var previous := painted;
      painted := PaintFrame(painted, indices, color);
      ghost var centers := Centers(polygon[..k], colPos);
      assert Centers(polygon[..k + 1], colPos) == centers + [center];
      forall i | 0 <= i < TOTAL_LEDS
        ensures painted[i] == (if Covered(centers + [center], radius, near, i) then color else frame[i])
      {
        if Scanned(center, radius, near, i) {
          assert (centers + [center])[|centers|] == center;
        } else if Covered(centers, radius, near, i) {
          var j :| 0 <= j < |centers| && Scanned(centers[j], radius, near, i);
          assert (centers + [center])[j] == centers[j];
        } else {
          forall j | 0 <= j < |centers| + 1
            ensures !Scanned((centers + [center])[j], radius, near, i)
          {
            if j < |centers| {
              assert (centers + [center])[j] == centers[j];
            }
          }
        }
      }
      k := k + 1;
    }
    assert polygon[..k] == polygon;
    completed := true;
  }

  // ------------------------------------------------------------- colours

  /**
   * Colour normalisation: anything but a three-element list becomes red; then
   * each channel goes through `int()` (which may raise: None) and is clamped
   * into [0, 255].
   */
  function NormalizeColor(color: Json): (r: Option<Rgb>)
    ensures !(color.JList? && |color.items| == 3) ==> r == Some(RED)
    ensures r.Some? ==> IsByteRgb(r.value)
    ensures color.JList? && |color.items| == 3 ==>
              (r.Some? <==> forall m :: 0 <= m < 3 ==> IntOf(color.items[m]).Some?)
  {
    if !color.JList? || |color.items| != 3 then Some(RED)
    else
      var r := IntOf(color.items[0]);
      var g := IntOf(color.items[1]);
      var b := IntOf(color.items[2]);
      if r.None? || g.None? || b.None? then None
      else Some(Rgb(Clamp(r.value, 0, 255), Clamp(g.value, 0, 255), Clamp(b.value, 0, 255)))
  }

  /** Normalising a colour that is already three bytes gives it back unchanged. */
  lemma NormalizeColorKeepsBytes(c: Rgb)
    requires IsByteRgb(c)
    ensures NormalizeColor(RgbJson(c)) == Some(c)
  {
  }

  /** Normalisation is idempotent. */
  lemma NormalizeColorIdempotent(color: Json)
    requires NormalizeColor(color).Some?
    ensures NormalizeColor(RgbJson(NormalizeColor(color).value)) == NormalizeColor(color)
  {
    NormalizeColorKeepsBytes(NormalizeColor(color).value);
  }

  /** A channel below 0 becomes 0, above 255 becomes 255, and anything in between is kept. */
  lemma NormalizeColorChannel(color: Json, m: nat)
    requires color.JList? && |color.items| == 3 && m < 3
    requires NormalizeColor(color).Some?
    ensures var v := IntOf(color.items[m]).value;
            var c := NormalizeColor(color).value;
            var out := if m == 0 then c.r else if m == 1 then c.g else c.b;
            (v < 0 ==> out == 0) && (v > 255 ==> out == 255) && (0 <= v <= 255 ==> out == v)
  {
  }

  /** A channel written as a string with surrounding spaces is read by `int()`: [" 12", 0, 0] paints (12, 0, 0). */
  lemma SpacedChannelRead()
    ensures NormalizeColor(JList([JStr(" 12"), JInt(0), JInt(0)])) == Some(Rgb(12, 0, 0))
  {
    ParseIntTextPadded(" ", "12", "");
    assert " " + "12" + "" == " 12";
    assert DigitsValue("12") == 12 by {
      assert "12"[..1] == "1";
    }
  }

  /** The error indicator: the first 20 LEDs red, the rest off. */
  method BuildErrorFrame() returns (frame: seq<Rgb>)
    ensures |frame| == TOTAL_LEDS
    ensures forall i :: 0 <= i < TOTAL_LEDS ==> frame[i] == (if i < ERROR_LEDS then RED else BLACK)
  {
    frame := CreateLedData(Some(BLACK));
    var i := 0;
    while i < ERROR_LEDS
      invariant 0 <= i <= ERROR_LEDS
      invariant |frame| == TOTAL_LEDS
      invariant forall j :: 0 <= j < TOTAL_LEDS ==> frame[j] == (if j < i then RED else BLACK)
    {
      frame := frame[i := RED];
      i := i + 1;
    }
  }

  /** The error frame as a value, for stating what the handlers send. */
  function ErrorFrame(): (frame: seq<Rgb>)
    ensures |frame| == TOTAL_LEDS
  {
    seq(TOTAL_LEDS, i => if i < ERROR_LEDS then RED else BLACK)
  }

  // ---------------------------------------------------- location requests

  /** What a location dictionary asks for, as `process_location_data` reads it. */
  datatype Request =
    | NotADict                                  // `.get` raises
    | BadColor                                  // `int()` of a channel raises
    | MissingLatLon
    | BadPolygon                                // empty, falsy or not a list
    | UnknownType
    | PointRequest(lat: Json, lon: Json, color: Rgb)
    | RegionRequest(polygon: seq<Json>, color: Rgb)

  function Classify(data: Json): (r: Request)
    ensures r.PointRequest? ==> data.JObject? && !GetOrNull(data.fields, "lat").JNull? && !GetOrNull(data.fields, "lon").JNull?
    ensures r.RegionRequest? ==> data.JObject? && r.polygon != []
    ensures r.PointRequest? || r.RegionRequest? ==> IsByteRgb(r.color)
  {
    if !data.JObject? then NotADict
    else
      var fields := data.fields;
      var locationType := GetOrNull(fields, "type");
      var color := NormalizeColor(Get(fields, "color_rgb", RgbJson(RED)));
      if color.None? then BadColor
      else if locationType == JStr("point") then
        var lat := GetOrNull(fields, "lat");
        var lon := GetOrNull(fields, "lon");
        if lat.JNull? || lon.JNull? then MissingLatLon else PointRequest(lat, lon, color.value)
      else if locationType == JStr("region") then
        var polygon := GetOrNull(fields, "polygon");
        if !Truthy(polygon) || !polygon.JList? then BadPolygon else RegionRequest(polygon.items, color.value)
      else UnknownType
  }

  /** A request with no "type", or any type other than "point" and "region", is rejected. */
  lemma UnknownTypesRejected(data: Json)
    requires data.JObject? && GetOrNull(data.fields, "type") != JStr("point") && GetOrNull(data.fields, "type") != JStr("region")
    ensures Classify(data) in {UnknownType, BadColor}
  {
  }

  /** A missing colour means red. */
  lemma DefaultColorIsRed(data: Json)
    requires data.JObject? && "color_rgb" !in data.fields
    ensures Classify(data).PointRequest? || Classify(data).RegionRequest? ==> Classify(data).color == RED
  {
  }

  class Globe {
    var defaultBackground: Rgb
    var currentLedData: seq<Rgb>
    /** The frames handed to `send_with_buffer_handling`, in order. */
    var handedOff: seq<seq<Rgb>>

    constructor()
      ensures defaultBackground == BLACK
      ensures currentLedData == CreateLedData(Some(BLACK))
      ensures handedOff == []
    {
      defaultBackground := BLACK;
      currentLedData := CreateLedData(Some(BLACK));
      handedOff := [];
    }

    /**
     * `highlight_point`: reset to the background, then paint the surroundings
     * of the centre LED and hand the frame over.  A non-numeric latitude or
     * longitude raises (None) after the reset.
     */
    method HighlightPoint(lat: Json, lon: Json, color: Option<Rgb>, radius: int, background: Option<Rgb>,
                          colPos: ColumnPosition, near: Near, delivered: bool) returns (result: Option<bool>)
      modifies this
      ensures defaultBackground == old(defaultBackground)
      ensures result.None? <==> AsReal(lat).None? || AsReal(lon).None?
      ensures |currentLedData| == TOTAL_LEDS
      ensures var bg := if background.Some? then background.value else old(defaultBackground);
              var c := if color.Some? then color.value else RED;
              (result.None? ==> currentLedData == CreateLedData(Some(bg)) && handedOff == old(handedOff)) &&
              (result.Some? ==>
                 var center := CalculateLedIndexAsWritten(AsReal(lat).value, AsReal(lon).value, colPos);
                 result.value == delivered && handedOff == old(handedOff) + [currentLedData] &&
                 forall i :: 0 <= i < TOTAL_LEDS ==>
                   currentLedData[i] == (if Scanned(center, radius, near, i) then c else bg))
    {
      var c := if color.Some? then color.value else RED;
      if background.Some? {
        currentLedData := CreateLedData(background);
      } else {
        currentLedData := CreateLedData(Some(defaultBackground));
      }
      var latitude := AsReal(lat);
      var longitude := AsReal(lon);
      if latitude.None? || longitude.None? {
        return None;
      }
      var center := CalculateLedIndexAsWritten(latitude.value, longitude.value, colPos);
      var indices := GetSurroundingLeds(center, radius, near);
      currentLedData := PaintFrame(currentLedData, indices, c);
      handedOff := handedOff + [currentLedData];
      return Some(delivered);
    }

    /**
     * `highlight_region`: reset to the background, paint around every vertex,
     * and hand the frame over.  A vertex that does not unpack raises (None),
     * leaving the vertices before it painted.
     */
    method HighlightRegion(polygon: seq<Json>, color: Option<Rgb>, pointRadius: int, background: Option<Rgb>,
                           colPos: ColumnPosition, near: Near, delivered: bool) returns (result: Option<bool>)
      modifies this
      ensures defaultBackground == old(defaultBackground)
      ensures result.None? <==> Unpacked(polygon) < |polygon|
      ensures |currentLedData| == TOTAL_LEDS
      ensures var bg := if background.Some? then background.value else old(defaultBackground);
              var c := if color.Some? then color.value else Rgb(0, 0, 255);
              var centers := Centers(polygon[..Unpacked(polygon)], colPos);
              (forall i :: 0 <= i < TOTAL_LEDS ==>
                 currentLedData[i] == (if Covered(centers, pointRadius, near, i) then c else bg)) &&
              (result.None? ==> handedOff == old(handedOff)) &&
              (result.Some? ==> result.value == delivered && handedOff == old(handedOff) + [currentLedData])
    {
      var c := if color.Some? then color.value else Rgb(0, 0, 255);
      if background.Some? {
        currentLedData := CreateLedData(background);
      } else {
        currentLedData := CreateLedData(Some(defaultBackground));
      }
      var completed;
      currentLedData, completed := PaintRegion(currentLedData, polygon, c, pointRadius, colPos, near);
      if !completed {
        return None;
      }
      handedOff := handedOff + [currentLedData];
      return Some(delivered);
    }

    /** `set_all_leds`: hand over a frame of one colour; the current frame is not changed. */
    method SetAllLeds(color: Rgb, delivered: bool) returns (ok: bool)
      modifies this
      ensures ok == delivered
      ensures handedOff == old(handedOff) + [CreateLedData(Some(color))]
      ensures currentLedData == old(currentLedData) && defaultBackground == old(defaultBackground)
    {
      handedOff := handedOff + [CreateLedData(Some(color))];
      return delivered;
    }

    /** `set_background`: later point and region frames start from this colour. */
    method SetBackground(color: Rgb)
      modifies this
      ensures defaultBackground == color
      ensures currentLedData == old(currentLedData) && handedOff == old(handedOff)
    {
      defaultBackground := color;
    }

    /** The recovery branch: hand the error frame over; its result is ignored. */
    method SendErrorFrame()
      modifies this
      ensures handedOff == old(handedOff) + [ErrorFrame()]
      ensures currentLedData == old(currentLedData) && defaultBackground == old(defaultBackground)
    {
      var frame := BuildErrorFrame();
      assert frame == ErrorFrame();
      handedOff := handedOff + [frame];
    }

    /**
     * What `process_location_data` does to the globe.  `None`, a point
     * without lat/lon, a bad polygon and an unknown type are rejected with no
     * effect; anything that makes the Python code raise is answered with the
     * error frame; otherwise the point or region is drawn on the default
     * background with radius 5 or 2, and `ok` is whether the frame was delivered.
     */
    twostate predicate LocationProcessed(data: Json, colPos: ColumnPosition, near: Near, delivered: bool, ok: bool)
      reads this
    {
      (defaultBackground == old(defaultBackground)) &&
      (ok ==> delivered) &&
      (data.JNull? ==> !ok && unchanged(this)) &&
      (!data.JNull? ==> match Classify(data)
        case NotADict => !ok && currentLedData == old(currentLedData) && handedOff == old(handedOff) + [ErrorFrame()]
        case BadColor => !ok && currentLedData == old(currentLedData) && handedOff == old(handedOff) + [ErrorFrame()]
        case MissingLatLon => !ok && unchanged(this)
        case BadPolygon => !ok && unchanged(this)
        case UnknownType => !ok && unchanged(this)
        case PointRequest(lat, lon, c) =>
          if AsReal(lat).None? || AsReal(lon).None? then
            !ok && currentLedData == CreateLedData(Some(old(defaultBackground))) &&
            handedOff == old(handedOff) + [ErrorFrame()]
          else
            var center := CalculateLedIndexAsWritten(AsReal(lat).value, AsReal(lon).value, colPos);
            ok == delivered && handedOff == old(handedOff) + [currentLedData] &&
            |currentLedData| == TOTAL_LEDS &&
            forall i :: 0 <= i < TOTAL_LEDS ==>
              currentLedData[i] == (if Scanned(center, POINT_RADIUS, near, i) then c else old(defaultBackground))
        case RegionRequest(polygon, c) =>
          var centers := Centers(polygon[..Unpacked(polygon)], colPos);
          |currentLedData| == TOTAL_LEDS &&
          (forall i :: 0 <= i < TOTAL_LEDS ==>
             currentLedData[i] == (if Covered(centers, REGION_POINT_RADIUS, near, i) then c else old(defaultBackground))) &&
          if Unpacked(polygon) < |polygon| then
            !ok && handedOff == old(handedOff) + [ErrorFrame()]
          else
            ok == delivered && handedOff == old(handedOff) + [currentLedData])
    }

    /** `process_location_data`, as `LocationProcessed` describes. */
    method ProcessLocationData(data: Json, colPos: ColumnPosition, near: Near, delivered: bool) returns (ok: bool)
      modifies this
      ensures LocationProcessed(data, colPos, near, delivered, ok)
    {
      if data.JNull? {
        return false;
      }
      var request := Classify(data);
      match request {
        case NotADict =>
          SendErrorFrame();
          return false;
        case BadColor =>
          SendErrorFrame();
          return false;
        case MissingLatLon =>
          return false;
        case BadPolygon =>
          return false;
        case UnknownType =>
          return false;
        case PointRequest(lat, lon, c) =>
          var result := HighlightPoint(lat, lon, Some(c), POINT_RADIUS, Some(defaultBackground), colPos, near, delivered);
          if result.None? {
            SendErrorFrame();
            return false;
          }
          return result.value;
        case RegionRequest(polygon, c) =>
          var result := HighlightRegion(polygon, Some(c), REGION_POINT_RADIUS, Some(defaultBackground), colPos, near, delivered);
          if result.None? {
            SendErrorFrame();
            return false;
          }
          return result.value;
      }
    }

    /**
     * `process_ai_response_to_led`: unwrap an optional "location" entry, parse
     * it when it is a string (`loads` is `json.loads`; a parse failure returns
     * False with no effect), then build the frame locally.  Unlike
     * `process_location_data`, the current frame changes only when the frame
     * is complete, so an exception leaves it untouched.
     */
    method ProcessAiResponse(response: Json, loads: string -> Option<Json>, colPos: ColumnPosition, near: Near,
                             delivered: bool) returns (ok: bool)
      modifies this
      ensures defaultBackground == old(defaultBackground)
      ensures ok ==> delivered
      ensures response.JNull? ==> !ok && unchanged(this)
      ensures !response.JNull? && !response.JObject? ==>
                !ok && currentLedData == old(currentLedData) && handedOff == old(handedOff) + [ErrorFrame()]
      ensures response.JObject? ==>
        var location := Get(response.fields, "location", response);
        if location.JStr? && loads(location.s).None? then !ok && unchanged(this)
        else
          var data := if location.JStr? then loads(location.s).value else location;
          match Classify(data)
          case NotADict => !ok && currentLedData == old(currentLedData) && handedOff == old(handedOff) + [ErrorFrame()]
          case BadColor => !ok && currentLedData == old(currentLedData) && handedOff == old(handedOff) + [ErrorFrame()]
          case MissingLatLon => !ok && unchanged(this)
          case BadPolygon => !ok && unchanged(this)
          case UnknownType => !ok && unchanged(this)
          case PointRequest(lat, lon, c) =>
            if AsReal(lat).None? || AsReal(lon).None? then
              !ok && currentLedData == old(currentLedData) && handedOff == old(handedOff) + [ErrorFrame()]
            else
              var center := CalculateLedIndexAsWritten(AsReal(lat).value, AsReal(lon).value, colPos);
              ok == delivered && handedOff == old(handedOff) + [currentLedData] &&
              |currentLedData| == TOTAL_LEDS &&
              forall i :: 0 <= i < TOTAL_LEDS ==>
                currentLedData[i] == (if Scanned(center, POINT_RADIUS, near, i) then c else old(defaultBackground))
          case RegionRequest(polygon, c) =>
            if Unpacked(polygon) < |polygon| then
              !ok && currentLedData == old(currentLedData) && handedOff == old(handedOff) + [ErrorFrame()]
            else
              var centers := Centers(polygon, colPos);
              ok == delivered && handedOff == old(handedOff) + [currentLedData] &&
              |currentLedData| == TOTAL_LEDS &&
              forall i :: 0 <= i < TOTAL_LEDS ==>
                currentLedData[i] == (if Covered(centers, REGION_POINT_RADIUS, near, i) then c else old(defaultBackground))
    {
      if response.JNull? {
        return false;
      }
      if !response.JObject? {
        SendErrorFrame();
        return false;
      }
      var location := Get(response.fields, "location", response);
      if location.JStr? {
        var parsed := loads(location.s);
        if parsed.None? {
          return false;
        }
        location := parsed.value;
      }
      var ledData: seq<Rgb>;
      match Classify(location) {
        case NotADict =>
          SendErrorFrame();
          return false;
        case BadColor =>
          SendErrorFrame();
          return false;
        case MissingLatLon =>
          return false;
        case BadPolygon =>
          return false;
        case UnknownType =>
          return false;
        case PointRequest(lat, lon, c) =>
          ledData := CreateLedData(Some(defaultBackground));
          var latitude := AsReal(lat);
          var longitude := AsReal(lon);
          if latitude.None? || longitude.None? {
            SendErrorFrame();
            return false;
          }
          var center := CalculateLedIndexAsWritten(latitude.value, longitude.value, colPos);
          var indices := GetSurroundingLeds(center, POINT_RADIUS, near);
          ledData := PaintFrame(ledData, indices, c);
        case RegionRequest(polygon, c) =>
          ledData := CreateLedData(Some(defaultBackground));
          var completed;
          ledData, completed := PaintRegion(ledData, polygon, c, REGION_POINT_RADIUS, colPos, near);
          if !completed {
            SendErrorFrame();
            return false;
          }
          assert polygon[..Unpacked(polygon)] == polygon;
      }
      // `if led_data:` always holds for a 402-entry list
      currentLedData := ledData;
      handedOff := handedOff + [ledData];
      return delivered;
    }
  }
}
