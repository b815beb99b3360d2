/**
 * snake.py: a 25-LED red snake on a blue strip, sent as one `AA 55` frame
 * per step, after which the snake moves one LED forward.
 */
module Snake {
  import opened LedFrame
  import opened Uart
  import opened SnakeWindow

  const SNAKE_LENGTH: nat := 25
  const BLUE: Rgb := Rgb(0, 0, 255)

  class SnakeAnimation {
    /** `snake_start`, the global the script moves after every frame. */
    var start: int

    constructor()
      ensures start == 0
    {
      start := 0;
    }

    /**
     * `send_frame`: the header for NUM_LEDS * 3 = 1227 payload bytes, then
     * red inside the snake and blue elsewhere; then the start advances.
     */
    method SendFrame() returns (frame: seq<Byte>)
      modifies this
      ensures frame == Frame(NUM_LEDS, SnakeColors(old(start), SNAKE_LENGTH, RED, BLUE))
      ensures start == (old(start) + 1) % NUM_LEDS
    {
      var payloadLength := NUM_LEDS * 3;
      var header: seq<Byte> := [0xAA, 0x55, (payloadLength / 256) % 256, payloadLength % 256];
      var payload := SnakePayload(start, SNAKE_LENGTH, RED, BLUE);
      frame := header + payload;
      start := (start + 1) % NUM_LEDS;
    }
  }

  /**
   * A frame of snake.py: 4 + 3 * 409 bytes, accepted by the checker of
   * decode_uart.py, exactly 25 red LEDs when the start is on the strip,
   * every other LED blue.
   */
  lemma SnakeFrameFacts(start: int)
    requires 0 <= start < NUM_LEDS
    ensures var colors := SnakeColors(start, SNAKE_LENGTH, RED, BLUE);
      AllByteRgb(colors) &&
      |Frame(NUM_LEDS, colors)| == 4 + 3 * NUM_LEDS &&
      Frame(NUM_LEDS, colors)[..4] == [0xAA, 0x55, 0x04, 0xCB] &&
      Accepted(Frame(NUM_LEDS, colors)) &&
      Count(start, SNAKE_LENGTH, NUM_LEDS) == SNAKE_LENGTH &&
      forall i :: 0 <= i < NUM_LEDS && !InSnake(start, i, SNAKE_LENGTH) ==> colors[i] == BLUE
  {
    var colors := SnakeColors(start, SNAKE_LENGTH, RED, BLUE);
    EncodeThenDecode(colors);
    ExactlyLength(start, SNAKE_LENGTH);
  }

  /** The start stays on the strip. */
  lemma AdvanceStaysOnStrip(start: int)
    ensures 0 <= (start + 1) % NUM_LEDS < NUM_LEDS
    ensures 0 <= start < NUM_LEDS - 1 ==> (start + 1) % NUM_LEDS == start + 1
    ensures start == NUM_LEDS - 1 ==> (start + 1) % NUM_LEDS == 0
  {
  }
}

/**
 * pi_arduino_comms_led_test.py: the same snake, framed by one sync byte
 * 0xAA and no length, sent at most MAX_FPS times a second.
 */
module CommsLedTest {
  import opened LedFrame
  import opened Uart
  import opened SnakeWindow

  const SNAKE_LENGTH: nat := 25
  const SYNC_BYTE: Byte := 0xAA
  const FRAME_SIZE: nat := 1 + NUM_LEDS * 3
  const BLUE: Rgb := Rgb(0, 0, 255)
  const MAX_FPS: nat := 11
  const DELAY: real := 1.0 / MAX_FPS as real

  class CommsSnake {
    var start: int

    constructor()
      ensures start == 0
    {
      start := 0;
    }

    /** `send_frame`: the sync byte, one triple per LED, then the start advances. */
    method SendFrame() returns (frame: seq<Byte>)
      modifies this
      ensures frame == [SYNC_BYTE] + Payload(SnakeColors(old(start), SNAKE_LENGTH, RED, BLUE))
      ensures |frame| == FRAME_SIZE
      ensures start == (old(start) + 1) % NUM_LEDS
    {
      var payload := SnakePayload(start, SNAKE_LENGTH, RED, BLUE);
      frame := [SYNC_BYTE] + payload;
      start := (start + 1) % NUM_LEDS;
    }
  }

  /** `max(0, DELAY - elapsed)`: never negative, and a frame period is never shorter than DELAY. */
  function SleepTime(elapsed: real): (t: real)
    ensures t >= 0.0
    ensures elapsed + t >= DELAY
    ensures t == 0.0 || elapsed + t == DELAY
    ensures elapsed >= DELAY ==> t == 0.0
  {
    if DELAY - elapsed > 0.0 then DELAY - elapsed else 0.0
  }

  /** Exactly 25 LEDs of a frame are red and the rest blue. */
  lemma CommsFrameColors(start: int)
    requires 0 <= start < NUM_LEDS
    ensures Count(start, SNAKE_LENGTH, NUM_LEDS) == SNAKE_LENGTH
    ensures forall i :: 0 <= i < NUM_LEDS ==>
              SnakeColors(start, SNAKE_LENGTH, RED, BLUE)[i] == (if InSnake(start, i, SNAKE_LENGTH) then RED else BLUE)
  {
    ExactlyLength(start, SNAKE_LENGTH);
  }
}

/**
 * single_led_snake.py: one red LED on a dim blue strip, moved by key
 * presses; 'd' steps forward, 'a' back, and each move sends a frame.
 */
module SingleLedSnake {
  import opened Options
  import opened LedFrame
  import opened Uart
  import opened SnakeWindow

  const SNAKE_LENGTH: nat := 1
  const DIM: Rgb := Rgb(0, 0, 3)

  /** The frame for a given start. */
  function FrameAt(start: int): seq<Byte>
  {
    Frame(NUM_LEDS, SnakeColors(start, SNAKE_LENGTH, RED, DIM))
  }

  class KeySnake {
    var start: int

    constructor()
      ensures start == 0
    {
      start := 0;
    }

    /**
     * One key from the terminal: 'd' and 'a' move the start (Python's `%`
     * keeps it non-negative) and send the new frame; any other key does nothing.
     */
    method OnKey(key: char) returns (sent: Option<seq<Byte>>)
      modifies this
      ensures key == 'd' ==> start == (old(start) + 1) % NUM_LEDS
      ensures key == 'a' ==> start == (old(start) - 1) % NUM_LEDS
      ensures key != 'd' && key != 'a' ==> start == old(start) && sent == None
      ensures key == 'd' || key == 'a' ==> sent == Some(FrameAt(start))
    {
      if key == 'd' {
        start := (start + 1) % NUM_LEDS;
        sent := SendFrame();
      } else if key == 'a' {
        start := (start - 1) % NUM_LEDS;
        sent := SendFrame();
      } else {
        sent := None;
      }
    }

    /** `send_frame`: the `AA 55` header for 1227 bytes and the current colours. */
    method SendFrame() returns (sent: Option<seq<Byte>>)
      ensures sent == Some(FrameAt(start))
    {
      var payloadLength := NUM_LEDS * 3;
      var header: seq<Byte> := [0xAA, 0x55, (payloadLength / 256) % 256, payloadLength % 256];
      var payload := SnakePayload(start, SNAKE_LENGTH, RED, DIM);
      return Some(header + payload);
    }
  }

  /** Both moves keep the start on the strip, and 'a' undoes 'd' and vice versa. */
  lemma MovesUndo(start: int)
    requires 0 <= start < NUM_LEDS
    ensures 0 <= (start + 1) % NUM_LEDS < NUM_LEDS && 0 <= (start - 1) % NUM_LEDS < NUM_LEDS
    ensures ((start + 1) % NUM_LEDS - 1) % NUM_LEDS == start
    ensures ((start - 1) % NUM_LEDS + 1) % NUM_LEDS == start
  {
    if start == 0 {
      assert (start - 1) % NUM_LEDS == NUM_LEDS - 1;
    }
  }

  /** Exactly the LED at the start is red; every other LED is dim blue. */
  lemma OneRedLed(start: int, i: int)
    requires 0 <= start < NUM_LEDS && 0 <= i < NUM_LEDS
    ensures SnakeColors(start, SNAKE_LENGTH, RED, DIM)[i] == (if i == start then RED else DIM)
  {
  }
}
