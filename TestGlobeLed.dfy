/**
 * V2/test_globe_led.py: the placeholder painter used to exercise the
 * WebSocket client.  A point lights a window of consecutive LEDs, wrapping
 * modulo 402, starting at an index derived from the latitude alone.  The
 * frame is a list the functions update in place, modelled as an array.
 */
module TestGlobeLed {
  import opened Options
  import opened Json
  import opened LedFrame
  import GV = GlobeVisualization

  const DEFAULT_POINT_RADIUS: int := 10
  const REGION_POINT_RADIUS: int := 5
  const RED: Rgb := Rgb(255, 0, 0)
  const BLUE: Rgb := Rgb(0, 0, 255)

  /** `create_led_data`: 402 copies of the base colour, all off by default. */
  function CreateLedData(base: Option<Rgb>): (frame: seq<Rgb>)
    ensures |frame| == TOTAL_LEDS
    ensures forall i :: 0 <= i < |frame| ==> frame[i] == (if base.Some? then base.value else Rgb(0, 0, 0))
  {
    seq(TOTAL_LEDS, i => if base.Some? then base.value else Rgb(0, 0, 0))
  }

  /** `int((latitude + 90) / 180 * 400)`, truncating toward zero. */
  function CenterLed(lat: real): int
  {
    Trunc((lat + 90.0) / 180.0 * 400.0)
  }

  /** Every latitude on the globe gives a centre in [0, 400]. */
  lemma CenterLedRange(lat: real)
    requires -90.0 <= lat <= 90.0
    ensures 0 <= CenterLed(lat) <= 400
  {
    assert 0.0 <= (lat + 90.0) / 180.0 * 400.0 <= 400.0;
  }

  /** How far past the centre LED `j` lies, going round the strip. */
  function Offset(center: int, j: int): (d: int)
    ensures 0 <= d < TOTAL_LEDS
  {
    (j - center) % TOTAL_LEDS
  }

  /** LED `j` is among the first `radius` LEDs from `center`, wrapping modulo 402. */
  predicate InWindow(center: int, radius: int, j: int)
  {
    Offset(center, j) < radius
  }

  lemma OffsetOfStep(center: int, i: nat)
    ensures Offset(center, (center + i) % TOTAL_LEDS) == i % TOTAL_LEDS
  {
    var idx := (center + i) % TOTAL_LEDS;
    var q := (center + i) / TOTAL_LEDS;
    assert idx - center == i - q * TOTAL_LEDS;
    ModShift(i, -q);
  }

  lemma ModShift(x: int, k: int)
    ensures (x + k * TOTAL_LEDS) % TOTAL_LEDS == x % TOTAL_LEDS
  {
    var r := x % TOTAL_LEDS;
    var q := x / TOTAL_LEDS;
    assert x + k * TOTAL_LEDS == r + (q + k) * TOTAL_LEDS;
  }

  /** The LED written at step `i` of the window loop. */
  function Step(center: int, i: int): int
  {
    (center + i) % TOTAL_LEDS
  }

  /** Step `i` of the loop adds exactly LED `(center + i) % 402` to the window. */
  lemma WindowGrows(center: int, i: nat, j: int)
    requires 0 <= j < TOTAL_LEDS
    ensures Offset(center, j) < i + 1 <==> Offset(center, j) < i || j == Step(center, i)
  {
    OffsetOfStep(center, i);
    if Offset(center, j) == i {
      var q := (j - center) / TOTAL_LEDS;
      assert center + i == j - q * TOTAL_LEDS;
      ModShift(j, -q);
      ModShift(j, 0);
    }
  }

  /** The window is exactly the set of indices `(center + i) % 402` for `i` in [0, radius). */
  lemma InWindowIsVisited(center: int, radius: int, j: int)
    requires 0 <= j < TOTAL_LEDS
    ensures InWindow(center, radius, j) <==> exists i :: 0 <= i < radius && j == Step(center, i)
  {
    var d := Offset(center, j);
    OffsetOfStep(center, d);
    ModShift(j, 0);
    assert (center + d) % TOTAL_LEDS == j by {
      var q := (j - center) / TOTAL_LEDS;
      assert center + d == j - q * TOTAL_LEDS;
      ModShift(j, -q);
    }
    assert Step(center, d) == j;
    if exists i :: 0 <= i < radius && j == Step(center, i) {
      var i :| 0 <= i < radius && j == Step(center, i);
      OffsetOfStep(center, i);
    }
  }

  /**
   * `highlight_point`: paint `radius` consecutive LEDs from the centre.  The
   * longitude only seeds an unused random generator, so it has no effect.
   */
  method HighlightPoint(ledData: array<Rgb>, lat: real, lon: real, color: Option<Rgb>, radius: int)
    returns (result: array<Rgb>)
    requires ledData.Length == TOTAL_LEDS
    modifies ledData
    ensures result == ledData
    ensures forall j :: 0 <= j < TOTAL_LEDS ==>
              ledData[j] == (if InWindow(CenterLed(lat), radius, j)
                             then (if color.Some? then color.value else RED)
                             else old(ledData[j]))
  {
    var c := if color.Some? then color.value else RED;
    var center := CenterLed(lat);
    var i := 0;
    while i < radius
      invariant 0 <= i || radius <= 0
      invariant i <= radius || radius <= 0
      invariant radius <= 0 ==> i == 0
      invariant forall j :: 0 <= j < TOTAL_LEDS ==>
                  ledData[j] == (if Offset(center, j) < i then c else old(ledData[j]))
    {
      var index := Step(center, i);
      forall j | 0 <= j < TOTAL_LEDS
        ensures Offset(center, j) < i + 1 <==> Offset(center, j) < i || j == index
      {
        WindowGrows(center, i, j);
      }
      ledData[index] := c;
      i := i + 1;
    }
    return ledData;
  }

  /** Some vertex that unpacks has a window covering LED `j`. */
  ghost predicate Covered(polygon: seq<Json>, radius: int, j: int)
  {
    exists k :: 0 <= k < |polygon| && GV.PointOf(polygon[k]).Some? &&
      InWindow(CenterLed(GV.PointOf(polygon[k]).value.0), radius, j)
  }

  /**
   * `highlight_region`: a radius-5 window per vertex, in order, blue by
   * default.  `latitude, longitude = point` and the arithmetic on both raise
   * unless the vertex is a pair of numbers; the exception ends the call
   * (`completed` false) with the windows of the vertices before it already
   * painted into the list.
   */
  method HighlightRegion(ledData: array<Rgb>, polygon: seq<Json>, color: Option<Rgb>)
    returns (result: array<Rgb>, completed: bool)
    requires ledData.Length == TOTAL_LEDS
    modifies ledData
    ensures result == ledData
    ensures completed <==> GV.Unpacked(polygon) == |polygon|
    ensures forall j :: 0 <= j < TOTAL_LEDS ==>
              ledData[j] == (if Covered(polygon[..GV.Unpacked(polygon)], REGION_POINT_RADIUS, j)
                             then (if color.Some? then color.value else BLUE)
                             else old(ledData[j]))
  {
    var c := if color.Some? then color.value else BLUE;
    var k := 0;
    while k < |polygon|
      invariant 0 <= k <= |polygon|
      invariant forall m :: 0 <= m < k ==> GV.PointOf(polygon[m]).Some?
      invariant forall j :: 0 <= j < TOTAL_LEDS ==>
                  ledData[j] == (if Covered(polygon[..k], REGION_POINT_RADIUS, j) then c else old(ledData[j]))
    {
      var point := GV.PointOf(polygon[k]);
      if point.None? {
        return ledData, false;
      }
      var (lat, lon) := point.value;
      var _ := HighlightPoint(ledData, lat, lon, Some(c), REGION_POINT_RADIUS);
      ghost var visited := polygon[..k + 1];
      forall j | 0 <= j < TOTAL_LEDS
        ensures ledData[j] == (if Covered(visited, REGION_POINT_RADIUS, j) then c else old(ledData[j]))
      {
        assert visited[k] == polygon[k];
        if InWindow(CenterLed(lat), REGION_POINT_RADIUS, j) {
        } else if Covered(polygon[..k], REGION_POINT_RADIUS, j) {
          var m :| 0 <= m < k && GV.PointOf(polygon[..k][m]).Some? &&
                   InWindow(CenterLed(GV.PointOf(polygon[..k][m]).value.0), REGION_POINT_RADIUS, j);
          assert visited[m] == polygon[..k][m];
        } else {
          forall m | 0 <= m < k + 1 && GV.PointOf(visited[m]).Some?
            ensures !InWindow(CenterLed(GV.PointOf(visited[m]).value.0), REGION_POINT_RADIUS, j)
          {
            if m < k {
              assert visited[m] == polygon[..k][m];
            }
          }
        }
      }
      k := k + 1;
    }
    assert polygon[..k] == polygon;
    return ledData, true;
  }

  /** Radius 10 from the equator lights LEDs 200 to 209. */
  method EquatorWindow() returns (lit: seq<Rgb>)
    ensures |lit| == TOTAL_LEDS
    ensures forall j :: 0 <= j < TOTAL_LEDS ==> (lit[j] == RED <==> 200 <= j < 210)
  {
    var a := new Rgb[TOTAL_LEDS](_ => Rgb(0, 0, 0));
    var _ := HighlightPoint(a, 0.0, 0.0, None, DEFAULT_POINT_RADIUS);
    assert CenterLed(0.0) == 200;
    lit := a[..];
    forall j | 0 <= j < TOTAL_LEDS
      ensures lit[j] == RED <==> 200 <= j < 210
    {
      assert lit[j] == a[j];
    }
  }
}
