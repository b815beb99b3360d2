/**
 * The wrap-around "snake" window shared by snake.py,
 * pi_arduino_comms_led_test.py and single_led_snake.py: LED `i` is in the
 * snake when it lies in [start, start + length), or when the window runs
 * past the end of the strip and `i` falls in the part that wraps to the front.
 */
module SnakeWindow {
  import opened LedFrame
  import opened Uart

  /** The strip length all three scripts use. */
  const NUM_LEDS: nat := 409

  const RED: Rgb := Rgb(255, 0, 0)

  /** The `in_snake` test, with `%` on a positive modulus as in Python. */
  predicate InSnake(start: int, i: int, length: int)
  {
    (start <= i < start + length) || (start + length > NUM_LEDS && i < (start + length) % NUM_LEDS)
  }

  /** The colour of every LED: `on` inside the snake, `off` elsewhere. */
  function SnakeColors(start: int, length: int, on: Rgb, off: Rgb): (colors: seq<Rgb>)
    ensures |colors| == NUM_LEDS
    ensures forall i :: 0 <= i < NUM_LEDS ==> colors[i] == if InSnake(start, i, length) then on else off
  {
    seq(NUM_LEDS, i => if InSnake(start, i, length) then on else off)
  }

  /**
   * For a start inside the strip, the snake is the run of `length` LEDs
   * from `start` going round the strip.
   */
  lemma InSnakeIsWindow(start: int, i: int, length: int)
    requires 0 <= start < NUM_LEDS && 0 <= length <= NUM_LEDS && 0 <= i < NUM_LEDS
    ensures InSnake(start, i, length) <==> (i - start) % NUM_LEDS < length
  {
    if i >= start {
      assert (i - start) % NUM_LEDS == i - start;
    } else {
      assert (i - start) % NUM_LEDS == i - start + NUM_LEDS by {
        assert 0 <= i - start + NUM_LEDS < NUM_LEDS;
        assert i - start == (i - start + NUM_LEDS) + (-1) * NUM_LEDS;
      }
      if start + length > NUM_LEDS {
        assert (start + length) % NUM_LEDS == start + length - NUM_LEDS;
      }
    }
  }

  /** The number of LEDs among the first `k` that are in the snake. */
  function Count(start: int, length: int, k: nat): nat
  {
    if k == 0 then 0
    else Count(start, length, k - 1) + (if InSnake(start, k - 1, length) then 1 else 0)
  }

  /** How many of 0, ..., k - 1 lie in [lo, hi). */
  function Overlap(k: int, lo: int, hi: int): nat
  {
    var a := if lo < 0 then 0 else lo;
    var b := if hi < k then hi else k;
    if a < b then b - a else 0
  }

  /** Counting LED by LED gives the sizes of the window's two pieces. */
  lemma {:induction false} CountPieces(start: int, length: int, k: nat)
    requires 0 <= start < NUM_LEDS && 0 <= length <= NUM_LEDS
    ensures Count(start, length, k) ==
              Overlap(k, start, start + length) +
              (if start + length > NUM_LEDS then Overlap(k, 0, (start + length) % NUM_LEDS) else 0)
  {
    if k > 0 {
      CountPieces(start, length, k - 1);
      if start + length > NUM_LEDS {
        assert (start + length) % NUM_LEDS == start + length - NUM_LEDS;
      }
    }
  }

  /** A snake no longer than the strip lights exactly `length` LEDs. */
  lemma ExactlyLength(start: int, length: int)
    requires 0 <= start < NUM_LEDS && 0 <= length <= NUM_LEDS
    ensures Count(start, length, NUM_LEDS) == length
  {
    CountPieces(start, length, NUM_LEDS);
    if start + length > NUM_LEDS {
      assert (start + length) % NUM_LEDS == start + length - NUM_LEDS;
    }
  }

  /** The bytes of `SnakeColors`, built triple by triple as the scripts' loops do. */
  method SnakePayload(start: int, length: int, on: Rgb, off: Rgb) returns (payload: seq<Byte>)
    requires IsByteRgb(on) && IsByteRgb(off)
    ensures AllByteRgb(SnakeColors(start, length, on, off))
    ensures payload == Payload(SnakeColors(start, length, on, off))
  {
    var colors := SnakeColors(start, length, on, off);
    payload := [];
    var i := 0;
    while i < NUM_LEDS
      invariant 0 <= i <= NUM_LEDS
      invariant AllByteRgb(colors[..i])
      invariant payload == Payload(colors[..i])
    {
      var c := if InSnake(start, i, length) then on else off;
      assert colors[..i + 1] == colors[..i] + [c];
      PayloadAppend(colors[..i], c);
      payload := payload + [c.r, c.g, c.b];
      i := i + 1;
    }
    assert colors[..i] == colors;
  }
}
