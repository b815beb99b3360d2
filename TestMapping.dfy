/**
 * test_mapping.py: colour every LED of the coordinate table by its theta
 * (below 180 blue, otherwise red) to check the physical mapping, and send
 * the result as one `AA 55` frame.  The coordinate table is a parameter;
 * its entries are taken to carry an integer id and numeric angles.
 */
module TestMapping {
  import opened Options
  import opened LedFrame
  import opened Uart
  import opened Layout

  const NUM_LEDS: nat := 402
  const OFF: Rgb := Rgb(0, 0, 0)
  const DIM_BLUE: Rgb := Rgb(0, 0, 55)
  const DIM_RED: Rgb := Rgb(55, 0, 0)

  function ThetaColor(theta: real): Rgb
  {
    if theta < 180.0 then DIM_BLUE else DIM_RED
  }

  /** The last coordinate naming LED `i`, if any. */
  function Latest(coords: seq<Led>, i: int): Option<Led>
  {
    if coords == [] then None
    else if coords[|coords| - 1].id == i then Some(coords[|coords| - 1])
    else Latest(coords[..|coords| - 1], i)
  }

  /** `Latest` names the last coordinate with that id, and None means no coordinate has it. */
  lemma {:induction false} LatestIsLast(coords: seq<Led>, i: int)
    ensures Latest(coords, i).None? <==> forall k :: 0 <= k < |coords| ==> coords[k].id != i
    ensures Latest(coords, i).Some? ==>
              exists k :: 0 <= k < |coords| && coords[k] == Latest(coords, i).value && coords[k].id == i &&
                forall j :: k < j < |coords| ==> coords[j].id != i
  {
    LatestNoneIff(coords, i);
    if Latest(coords, i).Some? {
      LatestFound(coords, i);
    }
  }

  /** No coordinate is found exactly when none carries the id. */
  lemma {:induction false} LatestNoneIff(coords: seq<Led>, i: int)
    ensures Latest(coords, i).None? <==> forall k :: 0 <= k < |coords| ==> coords[k].id != i
  {
    if coords != [] {
      var init := coords[..|coords| - 1];
      LatestNoneIff(init, i);
      assert forall k :: 0 <= k < |init| ==> init[k] == coords[k];
    }
  }

  /** A coordinate found carries the id, and no later coordinate does. */
  lemma {:induction false} LatestFound(coords: seq<Led>, i: int)
    requires Latest(coords, i).Some?
    ensures exists k :: 0 <= k < |coords| && coords[k] == Latest(coords, i).value && coords[k].id == i &&
              forall j :: k < j < |coords| ==> coords[j].id != i
  {
    var n := |coords| - 1;
    if coords[n].id == i {
      assert coords[n] == Latest(coords, i).value;
    } else {
      var init := coords[..n];
      LatestFound(init, i);
      var k :| 0 <= k < |init| && init[k] == Latest(init, i).value && init[k].id == i &&
               forall j :: k < j < |init| ==> init[j].id != i;
      assert coords[k] == init[k];
      assert forall j :: k < j < n ==> coords[j] == init[j];
    }
  }

  /** The map `build_color_map` computes: the latest coordinate's colour, off when none names the LED. */
  function ColorMap(coords: seq<Led>): (m: seq<Rgb>)
    ensures |m| == NUM_LEDS && AllByteRgb(m)
  {
    seq(NUM_LEDS, i => var c := Latest(coords, i); if c.Some? then ThetaColor(c.value.theta) else OFF)
  }

  /** `build_color_map`; ids outside [0, 402) are skipped. */
  method BuildColorMap(coords: seq<Led>) returns (colorMap: seq<Rgb>)
    ensures colorMap == ColorMap(coords)
  {
    colorMap := seq(NUM_LEDS, _ => OFF);
    var k := 0;
    while k < |coords|
      invariant 0 <= k <= |coords|
      invariant |colorMap| == NUM_LEDS
      invariant forall i :: 0 <= i < NUM_LEDS ==>
                  colorMap[i] == (var c := Latest(coords[..k], i); if c.Some? then ThetaColor(c.value.theta) else OFF)
    {
      var coord := coords[k];
      assert coords[..k + 1][..k] == coords[..k];
      if 0 <= coord.id < NUM_LEDS {
        if coord.theta < 180.0 {
          colorMap := colorMap[coord.id := DIM_BLUE];
        } else {
          colorMap := colorMap[coord.id := DIM_RED];
        }
      }
      k := k + 1;
    }
    assert coords[..k] == coords;
  }

  /** `send_frame`: the header for 1206 payload bytes, then the map's triples in index order. */
  method SendFrame(coords: seq<Led>) returns (frame: seq<Byte>)
    ensures frame == Frame(NUM_LEDS, ColorMap(coords))
    ensures |frame| == 4 + 3 * NUM_LEDS && Accepted(frame)
  {
    var payloadLength := NUM_LEDS * 3;
    var header: seq<Byte> := [0xAA, 0x55, (payloadLength / 256) % 256, payloadLength % 256];
    var colorMap := BuildColorMap(coords);
    var payload := EncodePayload(colorMap);
    frame := header + payload;
    EncodeThenDecode(colorMap);
  }

  /** An LED named by no coordinate stays off; one named by an in-range id takes its latest coordinate's colour. */
  lemma ColorMapEntries(coords: seq<Led>, i: int)
    requires 0 <= i < NUM_LEDS
    ensures (forall k :: 0 <= k < |coords| ==> coords[k].id != i) ==> ColorMap(coords)[i] == OFF
    ensures forall k :: 0 <= k < |coords| && coords[k].id == i && (forall j :: k < j < |coords| ==> coords[j].id != i) ==>
              ColorMap(coords)[i] == ThetaColor(coords[k].theta)
  {
    LatestIsLast(coords, i);
    forall k | 0 <= k < |coords| && coords[k].id == i && (forall j :: k < j < |coords| ==> coords[j].id != i)
      ensures ColorMap(coords)[i] == ThetaColor(coords[k].theta)
    {
      var k' :| 0 <= k' < |coords| && coords[k'] == Latest(coords, i).value && coords[k'].id == i &&
                forall j :: k' < j < |coords| ==> coords[j].id != i;
      if k < k' || k' < k {
        assert false;
      }
    }
  }
}
