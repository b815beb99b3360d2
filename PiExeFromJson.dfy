/**
 * pi_exe_from_json.py: read the latest "fullmap" document, turn it into a
 * dense colour map of NUM_LEDS entries, and frame it for the serial port.
 * The file's existence and its parsed content are parameters (None when
 * `json.load` raises); each colour-map entry is the value `tuple(rgb)` was
 * applied to.
 */
module PiExeFromJson {
  import opened Options
  import opened Json
  import opened LedFrame
  import opened Uart

  const NUM_LEDS: nat := 402

  /** `(0, 0, 0)`. */
  const OFF: Json := JList([JInt(0), JInt(0), JInt(0)])

  /** `[(0, 0, 0)] * NUM_LEDS`. */
  function AllOff(): (m: seq<Json>)
    ensures |m| == NUM_LEDS && forall i :: 0 <= i < NUM_LEDS ==> m[i] == OFF
  {
    seq(NUM_LEDS, _ => OFF)
  }

  /** What one pixel of the document does to the colour map. */
  datatype Write = Raise | Skip | Put(index: nat, color: Json)

  /** `tuple(rgb)` raises for non-iterables. */
  predicate Iterable(v: Json)
  {
    v.JStr? || v.JList? || v.JObject?
  }

  /**
   * One iteration of the pixel loop: `pixel["id"]` needs a dict with an id;
   * the range test needs a number; an id in range must be an int to index
   * the list; `tuple(rgb)` needs an iterable.  A missing colour is (0, 0, 0).
   */
  function PixelWrite(pixel: Json): (w: Write)
    ensures w.Put? ==> w.index < NUM_LEDS
    ensures w.Put? ==> pixel.JObject? && "id" in pixel.fields && IsPyInt(pixel.fields["id"])
    ensures (pixel.JObject? && "id" in pixel.fields && pixel.fields["id"].JInt? &&
             !(0 <= pixel.fields["id"].i < NUM_LEDS)) ==> w == Skip
  {
    if !pixel.JObject? || "id" !in pixel.fields then Raise
    else
      var id := pixel.fields["id"];
      var rgb := Get(pixel.fields, "color_rgb", OFF);
      var x := AsReal(id);
      if x.None? then Raise
      else if !(0.0 <= x.value < NUM_LEDS as real) then Skip
      else if !IsPyInt(id) then Raise
      else if !Iterable(rgb) then Raise
      else Put(PyIntValue(id), rgb)
  }

  /** The colour the last pixel writing LED `i` gave it, if any. */
  function LastPut(pixels: seq<Json>, i: int): Option<Json>
  {
    if pixels == [] then None
    else
      var w := PixelWrite(pixels[|pixels| - 1]);
      if w.Put? && w.index == i then Some(w.color) else LastPut(pixels[..|pixels| - 1], i)
  }

  /**
   * `LastPut` finds the latest pixel for the LED: a later pixel with the
   * same id overwrites an earlier one, and no pixel for it leaves it unset.
   */
  lemma {:induction false} LastPutIsLatest(pixels: seq<Json>, i: int)
    ensures LastPut(pixels, i).None? <==>
              forall k :: 0 <= k < |pixels| ==> !(PixelWrite(pixels[k]).Put? && PixelWrite(pixels[k]).index == i)
    ensures LastPut(pixels, i).Some? ==>
              exists k :: 0 <= k < |pixels| && PixelWrite(pixels[k]) == Put(i, LastPut(pixels, i).value) &&
                forall j :: k < j < |pixels| ==> !(PixelWrite(pixels[j]).Put? && PixelWrite(pixels[j]).index == i)
  {
    LastPutNoneIff(pixels, i);
    if LastPut(pixels, i).Some? {
      var k := LastPutFound(pixels, i);
      assert PixelWrite(pixels[k]) == Put(i, LastPut(pixels, i).value);
    }
  }

  /** No colour is found exactly when no pixel writes the LED. */
  lemma {:induction false} LastPutNoneIff(pixels: seq<Json>, i: int)
    ensures LastPut(pixels, i).None? <==>
              forall k :: 0 <= k < |pixels| ==> !(PixelWrite(pixels[k]).Put? && PixelWrite(pixels[k]).index == i)
  {
    if pixels != [] {
      var init := pixels[..|pixels| - 1];
      LastPutNoneIff(init, i);
      assert forall k :: 0 <= k < |init| ==> init[k] == pixels[k];
    }
  }

  /** A colour found was written by pixel `k` for the LED, and no later pixel writes it. */
  lemma {:induction false} LastPutFound(pixels: seq<Json>, i: int) returns (k: nat)
    requires LastPut(pixels, i).Some?
    ensures k < |pixels| && Writes(pixels[k], i) && PixelWrite(pixels[k]).color == LastPut(pixels, i).value
    ensures forall j :: k < j < |pixels| ==> !Writes(pixels[j], i)
  {
    var n := |pixels| - 1;
    if Writes(pixels[n], i) {
      k := n;
    } else {
      var init := pixels[..n];
      assert LastPut(pixels, i) == LastPut(init, i);
      k := LastPutFound(init, i);
      assert pixels[k] == init[k];
      assert forall j :: k < j < n ==> pixels[j] == init[j];
    }
  }

  /** Pixel `p` writes LED `i`. */
  predicate Writes(p: Json, i: int)
  {
    PixelWrite(p).Put? && PixelWrite(p).index == i
  }

  /** Some pixel of the list makes the loop raise. */
  predicate AnyRaise(pixels: seq<Json>)
  {
    exists k :: 0 <= k < |pixels| && PixelWrite(pixels[k]).Raise?
  }

  /**
   * `load_led_data`: all off when the file is missing, unreadable, not a
   * "fullmap" dict, has no pixel list, or any pixel raises; otherwise each
   * LED takes the colour of the last pixel naming it and stays off if none does.
   */
  method LoadLedData(fileExists: bool, parsed: Option<Json>) returns (colorMap: seq<Json>)
    ensures |colorMap| == NUM_LEDS
    ensures !fileExists || parsed.None? ==> colorMap == AllOff()
    ensures fileExists && parsed.Some? ==>
      var data := parsed.value;
      if !data.JObject? || GetOrNull(data.fields, "type") != JStr("fullmap") || "pixels" !in data.fields
         || !data.fields["pixels"].JList? || AnyRaise(data.fields["pixels"].items)
      then colorMap == AllOff()
      else forall i :: 0 <= i < NUM_LEDS ==>
             colorMap[i] == (var c := LastPut(data.fields["pixels"].items, i); if c.Some? then c.value else OFF)
  {
    if !fileExists || parsed.None? {
      return AllOff();
    }
    var data := parsed.value;
    if !data.JObject? || GetOrNull(data.fields, "type") != JStr("fullmap") {
      return AllOff();
    }
    if "pixels" !in data.fields || !data.fields["pixels"].JList? {
      // a missing key raises; a string, dict or number either raises or has no list entries
      return AllOff();
    }
    var pixels := data.fields["pixels"].items;
    colorMap := AllOff();
    var k := 0;
    while k < |pixels|
      invariant 0 <= k <= |pixels|
      invariant |colorMap| == NUM_LEDS
      invariant !AnyRaise(pixels[..k])
      invariant forall i :: 0 <= i < NUM_LEDS ==>
                  colorMap[i] == (var c := LastPut(pixels[..k], i); if c.Some? then c.value else OFF)
    {
      var w := PixelWrite(pixels[k]);
      assert pixels[..k + 1][..k] == pixels[..k];
      assert pixels[..k + 1][k] == pixels[k];
      if w.Raise? {
        assert AnyRaise(pixels);
        return AllOff();
      }
      if w.Put? {
        colorMap := colorMap[w.index := w.color];
      }
      k := k + 1;
    }
    assert pixels[..k] == pixels;
  }

  /** A colour-map entry `bytearray.extend` accepts after `r, g, b` unpacking: three byte-valued ints. */
  function ByteTriple(e: Json): (c: Option<Rgb>)
    ensures c.Some? ==> IsByteRgb(c.value)
  {
    if e.JList? && |e.items| == 3 && forall m :: 0 <= m < 3 ==> IsChannel(e.items[m])
    then Some(Rgb(PyIntValue(e.items[0]), PyIntValue(e.items[1]), PyIntValue(e.items[2])))
    else None
  }

  predicate Sendable(colorMap: seq<Json>)
  {
    forall k :: 0 <= k < |colorMap| ==> ByteTriple(colorMap[k]).Some?
  }

  function Colors(colorMap: seq<Json>): (colors: seq<Rgb>)
    requires Sendable(colorMap)
    ensures |colors| == |colorMap| && AllByteRgb(colors)
  {
    seq(|colorMap|, k requires 0 <= k < |colorMap| => ByteTriple(colorMap[k]).value)
  }

  /**
   * `send_frame`: `AA 55`, the big-endian length NUM_LEDS * 3 = 1206, then
   * each entry's three bytes.  An entry that is not three bytes raises
   * before anything is written (None).  A 402-entry map gives a frame the
   * checker of decode_uart.py accepts.
   */
  method SendFrame(colorMap: seq<Json>) returns (frame: Option<seq<Byte>>)
    ensures frame.Some? <==> Sendable(colorMap)
    ensures frame.Some? ==> frame.value == Frame(NUM_LEDS, Colors(colorMap))
    ensures frame.Some? ==> |frame.value| == 4 + 3 * |colorMap|
    ensures frame.Some? && |colorMap| == NUM_LEDS ==> Accepted(frame.value)
  {
    var payloadLength := NUM_LEDS * 3;
    var bytes: seq<Byte> := [0xAA, 0x55, (payloadLength / 256) % 256, payloadLength % 256];
    ghost var sent: seq<Rgb> := [];
    var k := 0;
    while k < |colorMap|
      invariant 0 <= k <= |colorMap|
      invariant Sendable(colorMap[..k])
      invariant sent == Colors(colorMap[..k])
      invariant bytes == Header(payloadLength) + Payload(sent)
    {
      var c := ByteTriple(colorMap[k]);
      if c.None? {
        assert !Sendable(colorMap);
        return None;
      }
      PayloadAppend(sent, c.value);
      ColorsAppend(colorMap, k);
      bytes := bytes + [c.value.r, c.value.g, c.value.b];
      sent := sent + [c.value];
      k := k + 1;
    }
    assert colorMap[..k] == colorMap;
    FullMapAccepted(sent);
    return Some(bytes);
  }

  lemma ColorsAppend(colorMap: seq<Json>, k: nat)
    requires k < |colorMap| && Sendable(colorMap[..k]) && ByteTriple(colorMap[k]).Some?
    ensures Sendable(colorMap[..k + 1])
    ensures Colors(colorMap[..k + 1]) == Colors(colorMap[..k]) + [ByteTriple(colorMap[k]).value]
  {
    assert colorMap[..k + 1] == colorMap[..k] + [colorMap[k]];
  }

  lemma FullMapAccepted(colors: seq<Rgb>)
    requires AllByteRgb(colors)
    ensures |colors| == NUM_LEDS ==> Accepted(Frame(NUM_LEDS, colors))
  {
    if |colors| == NUM_LEDS {
      EncodeThenDecode(colors);
    }
  }

  /** The all-off map is always sendable. */
  lemma AllOffSendable()
    ensures Sendable(AllOff())
    ensures Colors(AllOff()) == seq(NUM_LEDS, _ => Rgb(0, 0, 0))
  {
  }
}
