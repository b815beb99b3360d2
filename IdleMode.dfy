/**
 * idle_mode_visualizer.py: whole-globe colour maps shown while the assistant
 * waits, and the loop that cycles through them until the wake phrase is
 * heard.  The maps are printed as JSON; here they are returned as values.
 */
module IdleMode {
  import opened Options
  import opened Json
  import opened Angles
  import opened Layout
  import opened LedFrame

  /** One entry of the "fullmap" document. */
  datatype Pixel = Pixel(id: int, theta: real, phi: real, color: Rgb)

  datatype IdleMap = IdleMap(mapType: string, pixels: seq<Pixel>)

  /** A colour chosen from the spherical angles of an LED. */
  type ColorFunc = (real, real) -> Rgb

  const WATER: Rgb := Rgb(0, 105, 148)
  const LAND: Rgb := Rgb(139, 69, 19)
  const RED: Rgb := Rgb(255, 0, 0)
  const GREEN: Rgb := Rgb(0, 255, 0)
  const BLUE: Rgb := Rgb(0, 0, 255)

  /** The land/water test: the southern hemisphere counts as water. */
  predicate IsWater(theta: real, phi: real)
  {
    phi > PI / 2.0
  }

  function LandWaterColor(theta: real, phi: real): Rgb
  {
    if IsWater(theta, phi) then WATER else LAND
  }

  /** The latitude the altitude map reads back from phi. */
  function Latitude(phi: real): real
  {
    90.0 - Degrees(phi)
  }

  function AltitudeColor(theta: real, phi: real): Rgb
  {
    var lat := Latitude(phi);
    if lat > 45.0 then RED else if lat > 0.0 then GREEN else BLUE
  }

  /** Water is exactly where the latitude is negative. */
  lemma WaterIsSouth(theta: real, phi: real)
    ensures IsWater(theta, phi) <==> Latitude(phi) < 0.0
  {
    assert Degrees(phi) - 90.0 == (phi - PI / 2.0) * (180.0 / PI);
  }

  /**
   * The altitude bands in terms of phi: red above 45 degrees north
   * (phi < pi/4), green up to the equator, blue from the equator south.
   */
  lemma AltitudeBands(theta: real, phi: real)
    ensures AltitudeColor(theta, phi) == RED <==> phi < PI / 4.0
    ensures AltitudeColor(theta, phi) == GREEN <==> PI / 4.0 <= phi < PI / 2.0
    ensures AltitudeColor(theta, phi) == BLUE <==> phi >= PI / 2.0
  {
    assert Latitude(phi) - 45.0 == (PI / 4.0 - phi) * (180.0 / PI);
    assert Latitude(phi) == (PI / 2.0 - phi) * (180.0 / PI);
  }

  /** Every water LED is blue on the altitude map. */
  lemma WaterIsBlue(theta: real, phi: real)
    requires LandWaterColor(theta, phi) == WATER
    ensures AltitudeColor(theta, phi) == BLUE
  {
    AltitudeBands(theta, phi);
  }

  /** The three idle displays, shown in this order. */
  datatype Mode = LandVsWater | DayNight | AltitudeMap

  /** `modes[i % len(modes)]`. */
  function ModeAt(i: nat): Mode
  {
    if i % 3 == 0 then LandVsWater else if i % 3 == 1 then DayNight else AltitudeMap
  }

  /** The modes repeat every three rounds, and any three consecutive rounds show all three. */
  lemma ModesCycle(i: nat)
    ensures ModeAt(i + 3) == ModeAt(i)
    ensures {ModeAt(i), ModeAt(i + 1), ModeAt(i + 2)} == {LandVsWater, DayNight, AltitudeMap}
  {
  }

  /** A poll result containing "smart globe" in any letter case. */
  predicate IsWake(heard: Option<string>)
  {
    heard.Some? && heard.value != [] && Contains(Lower(heard.value), "smart globe")
  }

  const POLLS_PER_MODE: nat := 10

  class IdleModeVisualizer {
    const leds: seq<Led>

    constructor(layout: seq<Led>)
      ensures leds == layout
    {
      leds := layout;
    }

    /** `generate_idle_map`: one pixel per LED, in layout order, coloured by `colorFunc`. */
    method GenerateIdleMap(colorFunc: ColorFunc) returns (m: IdleMap)
      ensures m.mapType == "fullmap"
      ensures |m.pixels| == |leds|
      ensures forall k :: 0 <= k < |leds| ==>
                m.pixels[k] == Pixel(leds[k].id, leds[k].theta, leds[k].phi, colorFunc(leds[k].theta, leds[k].phi))
    {
      var pixels: seq<Pixel> := [];
      var k := 0;
      while k < |leds|
        invariant 0 <= k <= |leds|
        invariant |pixels| == k
        invariant forall j :: 0 <= j < k ==>
                    pixels[j] == Pixel(leds[j].id, leds[j].theta, leds[j].phi, colorFunc(leds[j].theta, leds[j].phi))
      {
        var led := leds[k];
        pixels := pixels + [Pixel(led.id, led.theta, led.phi, colorFunc(led.theta, led.phi))];
        k := k + 1;
      }
      return IdleMap("fullmap", pixels);
    }

    /**
     * `run_idle_loop`.  `heard` is what successive `listen` calls return; the
     * loop shows mode `i % 3`, polls up to 10 times, and returns the first
     * input containing the wake phrase.  When the inputs run out first the
     * result is None (the source would keep waiting).  `shown` lists the
     * modes displayed and `polls` how many inputs were consumed.
     */
    method RunIdleLoop(heard: seq<Option<string>>) returns (wake: Option<string>, shown: seq<Mode>, polls: nat)
      ensures polls <= |heard|
      ensures forall k :: 0 <= k < polls - 1 ==> !IsWake(heard[k])
      ensures wake.Some? ==> polls >= 1 && IsWake(heard[polls - 1]) && wake == heard[polls - 1]
      ensures wake.None? ==> polls == |heard| && forall k :: 0 <= k < |heard| ==> !IsWake(heard[k])
      ensures wake.Some? ==> |shown| == (polls - 1) / POLLS_PER_MODE + 1
      ensures wake.None? ==> |shown| == polls / POLLS_PER_MODE + 1
      ensures forall j :: 0 <= j < |shown| ==> shown[j] == ModeAt(j)
    {
      shown := [];
      polls := 0;
      var i := 0;
      while true
        invariant polls <= |heard|
        invariant i == |shown| && polls == POLLS_PER_MODE * i
        invariant forall k :: 0 <= k < polls ==> !IsWake(heard[k])
        invariant forall j :: 0 <= j < |shown| ==> shown[j] == ModeAt(j)
        decreases |heard| - polls
      {
        shown := shown + [ModeAt(i)];
        i := i + 1;
        var n := 0;
        while n < POLLS_PER_MODE
          invariant 0 <= n <= POLLS_PER_MODE
          invariant polls == POLLS_PER_MODE * (i - 1) + n && polls <= |heard|
          invariant forall k :: 0 <= k < polls ==> !IsWake(heard[k])
        {
          if polls == |heard| {
            return None, shown, polls;
          }
          var input := heard[polls];
          polls := polls + 1;
          if IsWake(input) {
            return input, shown, polls;
          }
          n := n + 1;
        }
      }
    }
  }
}
