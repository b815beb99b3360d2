/**
 * static_light_up.py: a fixed test pattern of red, blue and green bands of
 * 20 LEDs, dimmed to brightness 30, sent as one `AA 55` frame.  Float
 * multiplication is modelled over exact reals.
 */
module StaticLightUp {
  import opened Json
  import opened LedFrame
  import opened Uart

  const NUM_LEDS: nat := 402
  const GROUP_SIZE: nat := 20
  const BRIGHTNESS: nat := 30

  /** The three band colours, in order. */
  const COLORS: seq<Rgb> := [Rgb(255, 0, 0), Rgb(0, 0, 255), Rgb(0, 255, 0)]

  /** `int(x * (brightness / 255.0))` for one channel. */
  function ScaleChannel(x: int, brightness: int): int
  {
    Trunc(x as real * (brightness as real / 255.0))
  }

  /** `scale_color`. */
  function ScaleColor(c: Rgb, brightness: int): Rgb
  {
    Rgb(ScaleChannel(c.r, brightness), ScaleChannel(c.g, brightness), ScaleChannel(c.b, brightness))
  }

  /** A channel in [0, 255] scales into [0, brightness]; 0 stays 0 and 255 becomes the brightness. */
  lemma ScaleChannelBounds(x: int, brightness: nat)
    requires 0 <= x <= 255
    ensures 0 <= ScaleChannel(x, brightness) <= brightness
    ensures x == 0 ==> ScaleChannel(x, brightness) == 0
    ensures x == 255 ==> ScaleChannel(x, brightness) == brightness
  {
    var y := x as real * (brightness as real / 255.0);
    assert y == (x as real / 255.0) * brightness as real;
    assert 0.0 <= y <= brightness as real;
  }

  /** The colour of LED `i`: band `(i // 20) % 3`, scaled. */
  function GroupColor(i: int): (c: Rgb)
  {
    ScaleColor(COLORS[(i / GROUP_SIZE) % 3], BRIGHTNESS)
  }

  /** Bands are red, blue, green at full brightness 30, repeating every 60 LEDs. */
  lemma GroupColors(i: int)
    ensures (i / GROUP_SIZE) % 3 == 0 ==> GroupColor(i) == Rgb(30, 0, 0)
    ensures (i / GROUP_SIZE) % 3 == 1 ==> GroupColor(i) == Rgb(0, 0, 30)
    ensures (i / GROUP_SIZE) % 3 == 2 ==> GroupColor(i) == Rgb(0, 30, 0)
    ensures GroupColor(i + 3 * GROUP_SIZE) == GroupColor(i)
    ensures IsByteRgb(GroupColor(i))
  {
    ScaleChannelBounds(0, BRIGHTNESS);
    ScaleChannelBounds(255, BRIGHTNESS);
    assert (i + 3 * GROUP_SIZE) / GROUP_SIZE == i / GROUP_SIZE + 3;
  }

  /** The whole pattern, one band colour per LED. */
  function Pattern(): (p: seq<Rgb>)
    ensures |p| == NUM_LEDS && AllByteRgb(p)
    ensures forall i :: 0 <= i < NUM_LEDS ==> p[i] == GroupColor(i)
  {
    var p := seq(NUM_LEDS, i => GroupColor(i));
    assert AllByteRgb(p) by {
      forall k | 0 <= k < NUM_LEDS ensures IsByteRgb(p[k]) {
        GroupColors(k);
      }
    }
    p
  }

  /** `send_rgb_groups`: the header for 1206 payload bytes, then each LED's band colour. */
  method SendRgbGroups() returns (frame: seq<Byte>)
    ensures frame == Frame(NUM_LEDS, Pattern())
    ensures |frame| == 4 + 3 * NUM_LEDS && Accepted(frame)
  {
    var payloadLength := NUM_LEDS * 3;
    frame := [0xAA, 0x55, (payloadLength / 256) % 256, payloadLength % 256];
    ghost var pattern := Pattern();
    var i := 0;
    while i < NUM_LEDS
      invariant 0 <= i <= NUM_LEDS
      invariant AllByteRgb(pattern[..i])
      invariant frame == Header(payloadLength) + Payload(pattern[..i])
    {
      var c := GroupColor(i);
      PatternStep(i);
      frame := frame + [c.r, c.g, c.b];
      i := i + 1;
    }
    assert pattern[..i] == pattern;
    EncodeThenDecode(pattern);
  }

  /** One more LED of the pattern appends its band colour's three bytes. */
  lemma PatternStep(i: nat)
    requires i < NUM_LEDS
    ensures IsByteRgb(GroupColor(i)) && AllByteRgb(Pattern()[..i + 1])
    ensures Payload(Pattern()[..i + 1]) == Payload(Pattern()[..i]) + TripleBytes(GroupColor(i))
  {
    var p := Pattern();
    assert p[..i + 1] == p[..i] + [GroupColor(i)];
    GroupColors(i);
    PayloadAppend(p[..i], GroupColor(i));
  }
}
