/**
 * location_processor.py: mapping a latitude/longitude request onto the LED
 * layout, a list of LEDs with an id and spherical angles theta and phi.
 * Distances are compared as squared distances: `sqrt` is monotone, so
 * `sqrt(d) < m` holds exactly when the squares compare the same way, and
 * `sqrt(d) < radius` exactly when the radius is positive and `d < radius^2`.
 */
module LocationProcessor {
  import opened Options
  import opened Json
  import opened Angles
  import opened Layout

  /** A vertex or point in spherical angles. */
  type Spherical = (real, real)

  const REGION_RADIUS: real := 0.2

  /** `spherical_from_latlon`: theta from the longitude, phi from the colatitude. */
  function SphericalFromLatLon(lat: real, lon: real): (p: Spherical)
  {
    (Radians(lon), Radians(90.0 - lat))
  }

  /** The latitude and longitude can be read back from the angles. */
  lemma SphericalFromLatLonInverse(lat: real, lon: real)
    ensures var p := SphericalFromLatLon(lat, lon);
            90.0 - Degrees(p.1) == lat && Degrees(p.0) == lon
  {
    DegreesOfRadians(lon);
    DegreesOfRadians(90.0 - lat);
  }

  /** The squared angular distance `dtheta^2 + dphi^2`. */
  function SqDist(p: Spherical, led: Led): (d: real)
    ensures d >= 0.0
  {
    (p.0 - led.theta) * (p.0 - led.theta) + (p.1 - led.phi) * (p.1 - led.phi)
  }

  /** `sqrt(dist) < radius`. */
  predicate Within(p: Spherical, led: Led, radius: real)
  {
    radius > 0.0 && SqDist(p, led) < radius * radius
  }

  /** `k` is the first LED of the layout at the least distance from `p`. */
  ghost predicate FirstClosest(leds: seq<Led>, p: Spherical, k: int)
  {
    0 <= k < |leds| &&
    (forall j :: 0 <= j < |leds| ==> SqDist(p, leds[k]) <= SqDist(p, leds[j])) &&
    (forall j :: 0 <= j < k ==> SqDist(p, leds[j]) > SqDist(p, leds[k]))
  }

  /** There is only one first closest LED: the strict `<` settles ties by layout order. */
  lemma FirstClosestUnique(leds: seq<Led>, p: Spherical, k1: int, k2: int)
    requires FirstClosest(leds, p, k1) && FirstClosest(leds, p, k2)
    ensures k1 == k2
  {
    var d1 := SqDist(p, leds[k1]);
    var d2 := SqDist(p, leds[k2]);
    assert d1 <= d2 && d2 <= d1;
    if k1 < k2 || k2 < k1 {
      assert false;
    }
  }

  /** Some vertex has an LED with this id strictly within the radius. */
  ghost predicate Hit(leds: seq<Led>, polygon: seq<Spherical>, radius: real, id: int)
  {
    exists v, l :: 0 <= v < |polygon| && 0 <= l < |leds| && leds[l].id == id && Within(polygon[v], leds[l], radius)
  }

  /** `Hit` restricted to the pairs the nested loops have visited: vertices before `p`, and LEDs before `q` of vertex `p`. */
  ghost predicate HitBefore(leds: seq<Led>, polygon: seq<Spherical>, radius: real, id: int, p: int, q: int)
  {
    exists v, l :: 0 <= v < |polygon| && 0 <= l < |leds| && (v < p || (v == p && l < q)) &&
      leds[l].id == id && Within(polygon[v], leds[l], radius)
  }

  predicate StrictlySorted(s: seq<int>)
  {
    forall i, j :: 0 <= i < j < |s| ==> s[i] < s[j]
  }

  /** Strictly sorted means no id appears twice. */
  lemma StrictlySortedDistinct(s: seq<int>)
    requires StrictlySorted(s)
    ensures forall i, j :: 0 <= i < |s| && 0 <= j < |s| && s[i] == s[j] ==> i == j
  {
  }

  lemma Element(s: set<int>) returns (y: int)
    requires s != {}
    ensures y in s
  {
    if forall x :: x !in s {
      assert false;
    }
    y :| y in s;
  }

  /** A finite non-empty set of ids has a least member. */
  lemma {:induction false} SetHasMin(s: set<int>)
    requires s != {}
    ensures exists m :: m in s && forall x :: x in s ==> m <= x
    decreases |s|
  {
    var y := Element(s);
    var rest := s - {y};
    assert forall x :: x in s ==> x == y || x in rest;
    if rest == {} {
      assert forall x :: x in s ==> y <= x;
    } else {
      SetHasMin(rest);
      var m :| m in rest && forall x :: x in rest ==> m <= x;
      var least := if y < m then y else m;
      assert least in s && forall x :: x in s ==> least <= x;
    }
  }

  /** `sorted(list(ids))`: the set's members in increasing order. */
  method Sorted(ids: set<int>) returns (r: seq<int>)
    ensures StrictlySorted(r)
    ensures forall x :: x in r <==> x in ids
  {
    r := [];
    var rest := ids;
    while rest != {}
      invariant rest <= ids
      invariant StrictlySorted(r)
      invariant forall x :: x in r <==> x in ids && x !in rest
      invariant forall a, b :: a in r && b in rest ==> a < b
      decreases |rest|
    {
      SetHasMin(rest);
      var m :| m in rest && forall x :: x in rest ==> m <= x;
      forall i | 0 <= i < |r|
        ensures r[i] < m
      {
        assert r[i] in r;
      }
      r := r + [m];
      rest := rest - {m};
    }
  }

  /** What `process_location` returns, or that it raises. */
  datatype Processed =
    | Raised
    | NoResult
    | PointResult(theta: real, phi: real, color: Json, ledId: int)
    | RegionResult(polygon: seq<Spherical>, color: Json, ledIds: seq<int>)

  /** `tuple(color)` in the colour report succeeds only for iterables. */
  predicate Iterable(v: Json)
  {
    v.JStr? || v.JList? || v.JObject?
  }

  /**
   * The entries `for entry in polygon` visits, for a truthy polygon: list
   * items, or values that are never two-element lists (characters of a
   * string, keys of a dict).  A truthy number is not iterable and raises.
   */
  function Entries(polygon: Json): (r: Option<seq<Json>>)
    ensures polygon.JList? ==> r == Some(polygon.items)
    ensures r.Some? && !polygon.JList? ==> r.value == []
    ensures r.None? <==> polygon.JNull? || polygon.JBool? || polygon.JInt? || polygon.JNum?
  {
    match polygon
    case JList(items) => Some(items)
    case JStr(_) => Some([])
    case JObject(_) => Some([])
    case _ => None
  }

  predicate IsPair(e: Json)
  {
    e.JList? && |e.items| == 2
  }

  /**
   * The spherical polygon built from the entries: two-element lists are
   * converted, anything else is skipped, and a pair holding a non-number
   * raises (None).
   */
  function Vertices(entries: seq<Json>): Option<seq<Spherical>>
  {
    if entries == [] then Some([])
    else
      var init := Vertices(entries[..|entries| - 1]);
      var e := entries[|entries| - 1];
      if init.None? then None
      else if !IsPair(e) then init
      else
        var lat := AsReal(e.items[0]);
        var lon := AsReal(e.items[1]);
        if lat.None? || lon.None? then None
        else Some(init.value + [SphericalFromLatLon(lat.value, lon.value)])
  }

  function PairCount(entries: seq<Json>): nat
  {
    if entries == [] then 0
    else PairCount(entries[..|entries| - 1]) + (if IsPair(entries[|entries| - 1]) then 1 else 0)
  }

  /** One vertex per two-element entry: the other entries are skipped. */
  lemma {:induction false} VerticesCount(entries: seq<Json>)
    requires Vertices(entries).Some?
    ensures |Vertices(entries).value| == PairCount(entries)
  {
    if entries != [] {
      VerticesCount(entries[..|entries| - 1]);
    }
  }

  /** Entries none of which is a two-element list give an empty polygon. */
  lemma {:induction false} NoPairsNoVertices(entries: seq<Json>)
    requires forall k :: 0 <= k < |entries| ==> !IsPair(entries[k])
    ensures Vertices(entries) == Some([])
  {
    if entries != [] {
      NoPairsNoVertices(entries[..|entries| - 1]);
    }
  }

  class LocationProcessor {
    const leds: seq<Led>

    constructor(layout: seq<Led>)
      ensures leds == layout
    {
      leds := layout;
    }

    /** `find_closest_led`: None for an empty layout, else the first LED at the least distance. */
    method FindClosestLed(p: Spherical) returns (closest: Option<Led>)
      ensures closest.None? <==> leds == []
      ensures closest.Some? ==> exists k :: FirstClosest(leds, p, k) && leds[k] == closest.value
    {
      var best: Option<int> := None;
      var minDist: real := 0.0;
      var k := 0;
      while k < |leds|
        invariant 0 <= k <= |leds|
        invariant best.None? <==> k == 0
        invariant best.Some? ==> 0 <= best.value < k && minDist == SqDist(p, leds[best.value])
        invariant best.Some? ==> forall j :: 0 <= j < k ==> minDist <= SqDist(p, leds[j])
        invariant best.Some? ==> forall j :: 0 <= j < best.value ==> SqDist(p, leds[j]) > minDist
      {
        var dist := SqDist(p, leds[k]);
        if best.None? || dist < minDist {
          minDist := dist;
          best := Some(k);
        }
        k := k + 1;
      }
      if best.None? {
        return None;
      }
      assert FirstClosest(leds, p, best.value);
      return Some(leds[best.value]);
    }

    /**
     * `find_leds_in_region`: the ids of all LEDs strictly within `radius` of
     * some vertex, sorted and without repeats.
     */
    method FindLedsInRegion(polygon: seq<Spherical>, radius: real) returns (ids: seq<int>)
      ensures StrictlySorted(ids)
      ensures forall id :: id in ids <==> Hit(leds, polygon, radius, id)
    {
      var found: set<int> := {};
      var v := 0;
      while v < |polygon|
        invariant 0 <= v <= |polygon|
        invariant forall id :: id in found <==> HitBefore(leds, polygon, radius, id, v, 0)
      {
        var l := 0;
        while l < |leds|
          invariant 0 <= l <= |leds|
          invariant forall id :: id in found <==> HitBefore(leds, polygon, radius, id, v, l)
        {
          if Within(polygon[v], leds[l], radius) {
            found := found + {leds[l].id};
          }
          forall id
            ensures HitBefore(leds, polygon, radius, id, v, l + 1) <==>
                    HitBefore(leds, polygon, radius, id, v, l) || (id == leds[l].id && Within(polygon[v], leds[l], radius))
          {
            if id == leds[l].id && Within(polygon[v], leds[l], radius) {
              assert HitBefore(leds, polygon, radius, id, v, l + 1);
            }
          }
          l := l + 1;
        }
        forall id
          ensures HitBefore(leds, polygon, radius, id, v, |leds|) <==> HitBefore(leds, polygon, radius, id, v + 1, 0)
        {
        }
        v := v + 1;
      }
      forall id
        ensures HitBefore(leds, polygon, radius, id, |polygon|, 0) <==> Hit(leds, polygon, radius, id)
      {
      }
      ids := Sorted(found);
    }

    /**
     * `process_location`: a point gives the closest LED's id; a region gives
     * its spherical polygon and the ids within 0.2 of a vertex; an unknown
     * type, a point without lat/lon or a falsy polygon gives None.
     */
    method ProcessLocation(data: Json) returns (r: Processed)
      ensures !data.JObject? ==> r == Raised
      ensures data.JObject? ==>
        var fields := data.fields;
        var color := Get(fields, "color_rgb", JList([JInt(255), JInt(255), JInt(255)]));
        var locationType := GetOrNull(fields, "type");
        var lat := GetOrNull(fields, "lat");
        var lon := GetOrNull(fields, "lon");
        var polygon := GetOrNull(fields, "polygon");
        if !Iterable(color) then r == Raised
        else if locationType == JStr("point") then
          if lat.JNull? || lon.JNull? then r == NoResult
          else if AsReal(lat).None? || AsReal(lon).None? || leds == [] then r == Raised
          else
            var p := SphericalFromLatLon(AsReal(lat).value, AsReal(lon).value);
            r.PointResult? && r.theta == p.0 && r.phi == p.1 && r.color == color &&
            exists k :: FirstClosest(leds, p, k) && r.ledId == leds[k].id
        else if locationType == JStr("region") then
          if !Truthy(polygon) then r == NoResult
          else if Entries(polygon).None? || Vertices(Entries(polygon).value).None? then r == Raised
          else
            r.RegionResult? && r.polygon == Vertices(Entries(polygon).value).value && r.color == color &&
            StrictlySorted(r.ledIds) &&
            forall id :: id in r.ledIds <==> Hit(leds, r.polygon, REGION_RADIUS, id)
        else r == NoResult
    {
      if !data.JObject? {
        return Raised;
      }
      var fields := data.fields;
      var color := Get(fields, "color_rgb", JList([JInt(255), JInt(255), JInt(255)]));
      if !Iterable(color) {
        return Raised;
      }
      var locationType := GetOrNull(fields, "type");
      if locationType == JStr("point") {
        var lat := GetOrNull(fields, "lat");
        var lon := GetOrNull(fields, "lon");
        if !lat.JNull? && !lon.JNull? {
          var latitude := AsReal(lat);
          var longitude := AsReal(lon);
          if latitude.None? || longitude.None? {
            return Raised;
          }
          var p := SphericalFromLatLon(latitude.value, longitude.value);
          var closest := FindClosestLed(p);
          if closest.None? {
            // `None["id"]` raises
            return Raised;
          }
          return PointResult(p.0, p.1, color, closest.value.id);
        }
      } else if locationType == JStr("region") {
        var polygon := GetOrNull(fields, "polygon");
        if Truthy(polygon) {
          var entries := Entries(polygon);
          if entries.None? {
            return Raised;
          }
          var spherical: seq<Spherical> := [];
          var k := 0;
          while k < |entries.value|
            invariant 0 <= k <= |entries.value|
            invariant Vertices(entries.value[..k]) == Some(spherical)
          {
            var entry := entries.value[k];
            assert entries.value[..k + 1][..k] == entries.value[..k];
            if IsPair(entry) {
              var latitude := AsReal(entry.items[0]);
              var longitude := AsReal(entry.items[1]);
              if latitude.None? || longitude.None? {
                VerticesStayRaised(entries.value, k + 1);
                assert entries.value[..|entries.value|] == entries.value;
                return Raised;
              }
              spherical := spherical + [SphericalFromLatLon(latitude.value, longitude.value)];
            }
            k := k + 1;
          }
          assert entries.value[..k] == entries.value;
          var ids := FindLedsInRegion(spherical, REGION_RADIUS);
          return RegionResult(spherical, color, ids);
        }
      }
      return NoResult;
    }
  }

  /** Once a prefix raises, every longer prefix raises too. */
  lemma {:induction false} VerticesStayRaised(entries: seq<Json>, n: nat)
    requires n <= |entries|
    requires Vertices(entries[..n]).None?
    ensures Vertices(entries).None?
    decreases |entries| - n
  {
    if n < |entries| {
      assert entries[..n + 1][..n] == entries[..n];
      VerticesStayRaised(entries, n + 1);
    } else {
      assert entries[..n] == entries;
    }
  }
}
