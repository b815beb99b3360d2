/**
 * The dense LED frame shared by every component: exactly TOTAL_LEDS colour
 * triples in LED-id order, each channel an integer in [0, 255].
 */
module LedFrame {
  import opened Json

  /** Number of addressable LEDs on the globe (V2 clients, Arduino shared constants). */
  const TOTAL_LEDS: nat := 402

  /** A colour as the globe code writes it: `[R, G, B]`. */
  datatype Rgb = Rgb(r: int, g: int, b: int)

  predicate IsByte(n: int) { 0 <= n <= 255 }

  predicate IsByteRgb(c: Rgb) { IsByte(c.r) && IsByte(c.g) && IsByte(c.b) }

  /** One channel accepted by the clients' validator: a Python int (bools included) in [0, 255]. */
  predicate IsChannel(v: Json)
  {
    IsPyInt(v) && IsByte(PyIntValue(v))
  }

  /** A list of exactly three valid channels. */
  predicate IsTriple(v: Json)
  {
    v.JList? && |v.items| == 3 && forall m :: 0 <= m < 3 ==> IsChannel(v.items[m])
  }

  /** What `_validate_led_data` accepts: a list of TOTAL_LEDS valid triples. */
  predicate IsFrame(d: Json)
  {
    d.JList? && |d.items| == TOTAL_LEDS && forall k :: 0 <= k < |d.items| ==> IsTriple(d.items[k])
  }

  /**
   * `_validate_led_data`: checks the outer list, its length, then every entry
   * and every channel, returning at the first violation.  The socket client
   * and the WebSocket client carry the same check.
   */
  method ValidateLedData(ledData: Json) returns (ok: bool)
    ensures ok <==> IsFrame(ledData)
  {
    if !ledData.JList? {
      return false;
    }
    if |ledData.items| != TOTAL_LEDS {
      return false;
    }
    var i := 0;
    while i < |ledData.items|
      invariant 0 <= i <= |ledData.items|
      invariant forall k :: 0 <= k < i ==> IsTriple(ledData.items[k])
    {
      var rgb := ledData.items[i];
      if !rgb.JList? || |rgb.items| != 3 {
        return false;
      }
      var j := 0;
      while j < 3
        invariant 0 <= j <= 3
        invariant forall m :: 0 <= m < j ==> IsChannel(rgb.items[m])
      {
        var value := rgb.items[j];
        if !IsPyInt(value) || PyIntValue(value) < 0 || PyIntValue(value) > 255 {
          return false;
        }
        j := j + 1;
      }
      i := i + 1;
    }
    return true;
  }

  /** A colour as the Python list `[r, g, b]`. */
  function RgbJson(c: Rgb): Json
  {
    JList([JInt(c.r), JInt(c.g), JInt(c.b)])
  }

  /** A frame of colours as the Python list handed to `send_led_data`. */
  function FrameJson(frame: seq<Rgb>): (d: Json)
    ensures d.JList? && |d.items| == |frame|
    ensures forall k :: 0 <= k < |frame| ==> d.items[k] == RgbJson(frame[k])
  {
    JList(seq(|frame|, k requires 0 <= k < |frame| => RgbJson(frame[k])))
  }

  /** A frame built from colours passes the clients' validator exactly when it has TOTAL_LEDS byte colours. */
  lemma FrameJsonValid(frame: seq<Rgb>)
    ensures IsFrame(FrameJson(frame)) <==>
            (|frame| == TOTAL_LEDS && forall k :: 0 <= k < |frame| ==> IsByteRgb(frame[k]))
  {
    var d := FrameJson(frame);
    if IsFrame(d) {
      forall k | 0 <= k < |frame| ensures IsByteRgb(frame[k]) {
        assert IsTriple(d.items[k]);
        assert d.items[k].items == [JInt(frame[k].r), JInt(frame[k].g), JInt(frame[k].b)];
        assert IsChannel(d.items[k].items[0]) && IsChannel(d.items[k].items[1]) && IsChannel(d.items[k].items[2]);
      }
    }
  }
}
