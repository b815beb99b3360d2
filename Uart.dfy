/**
 * The serial frame the Raspberry Pi scripts send to the LED controller:
 * `AA 55`, the payload length as a big-endian 16-bit number, then one
 * `r, g, b` byte triple per LED in index order (pi_exe_from_json.py,
 * snake.py, single_led_snake.py, test_mapping.py, static_light_up.py); and
 * the offline checker of such frames in decode_uart.py.
 */
module Uart {
  import opened LedFrame

  /** A value `bytearray` accepts. */
  type Byte = x: int | 0 <= x < 256

  /** `[0xAA, 0x55, (n >> 8) & 0xFF, n & 0xFF]`. */
  function Header(payloadLength: nat): (h: seq<Byte>)
    ensures |h| == 4 && h[0] == 0xAA && h[1] == 0x55
  {
    [0xAA, 0x55, (payloadLength / 256) % 256, payloadLength % 256]
  }

  /** The three bytes of one LED. */
  function TripleBytes(c: Rgb): seq<Byte>
    requires IsByteRgb(c)
  {
    [c.r, c.g, c.b]
  }

  predicate AllByteRgb(colors: seq<Rgb>)
  {
    forall k :: 0 <= k < |colors| ==> IsByteRgb(colors[k])
  }

  /** The payload: the LEDs' triples one after another. */
  function Payload(colors: seq<Rgb>): (p: seq<Byte>)
    requires AllByteRgb(colors)
    ensures |p| == 3 * |colors|
    ensures forall k :: 0 <= k < |colors| ==>
              p[3 * k] == colors[k].r && p[3 * k + 1] == colors[k].g && p[3 * k + 2] == colors[k].b
  {
    if colors == [] then []
    else
      var init := colors[..|colors| - 1];
      var p := Payload(init) + TripleBytes(colors[|colors| - 1]);
      assert forall k :: 0 <= k < |init| ==> p[3 * k] == init[k].r && p[3 * k + 1] == init[k].g && p[3 * k + 2] == init[k].b;
      p
  }

  /** Appending one LED appends its triple. */
  lemma PayloadAppend(colors: seq<Rgb>, c: Rgb)
    requires AllByteRgb(colors) && IsByteRgb(c)
    ensures AllByteRgb(colors + [c])
    ensures Payload(colors + [c]) == Payload(colors) + TripleBytes(c)
  {
    assert (colors + [c])[..|colors|] == colors;
  }

  /** The `for r, g, b in ...: frame.extend([r, g, b])` loop. */
  method EncodePayload(colors: seq<Rgb>) returns (p: seq<Byte>)
    requires AllByteRgb(colors)
    ensures p == Payload(colors)
  {
    p := [];
    var k := 0;
    while k < |colors|
      invariant 0 <= k <= |colors|
      invariant p == Payload(colors[..k])
    {
      assert colors[..k + 1] == colors[..k] + [colors[k]];
      PayloadAppend(colors[..k], colors[k]);
      p := p + [colors[k].r, colors[k].g, colors[k].b];
      k := k + 1;
    }
    assert colors[..k] == colors;
  }

  /** The frame with the `AA 55` header for `colors`, stating `3 * count` payload bytes. */
  function Frame(count: nat, colors: seq<Rgb>): (f: seq<Byte>)
    requires AllByteRgb(colors)
    ensures |f| == 4 + 3 * |colors|
  {
    Header(3 * count) + Payload(colors)
  }

  /** The 16-bit length read big-endian from bytes 2 and 3. */
  function StatedLength(data: seq<Byte>): nat
    requires |data| >= 4
  {
    data[2] as int * 256 + data[3] as int
  }

  /** Reading the header's length back gives the length written, for any 16-bit length. */
  lemma HeaderRoundTrip(n: nat, payload: seq<Byte>)
    requires n < 65536
    ensures StatedLength(Header(n) + payload) == n
  {
  }

  /** What `decode_uart_frame` reports about a frame. */
  datatype Report =
    | TooShort
    | BadHeader
    | Checked(stated: nat, actualLength: nat, fullLeds: nat, extraBytes: bool, countMatches: bool, valid: bool)

  /** `decode_uart_frame` after the file is read. */
  function DecodeUart(data: seq<Byte>): (r: Report)
    ensures r == TooShort <==> |data| < 4
    ensures r == BadHeader <==> |data| >= 4 && (data[0] != 0xAA || data[1] != 0x55)
    ensures r.Checked? ==> r.actualLength + 4 == |data| && r.stated == StatedLength(data)
  {
    if |data| < 4 then TooShort
    else
      var stated := StatedLength(data);
      if data[0] != 0xAA || data[1] != 0x55 then BadHeader
      else
        var actual := |data| - 4;
        var fullLeds := actual / 3;
        var extra := actual % 3 != 0;
        var matches := fullLeds == stated / 3 && !extra;
        Checked(stated, actual, fullLeds, extra, matches, !extra && matches)
  }

  predicate Accepted(data: seq<Byte>)
  {
    DecodeUart(data).Checked? && DecodeUart(data).valid
  }

  /**
   * A frame passes exactly when the header is `AA 55`, the payload is whole
   * triples, and it holds as many whole LEDs as the stated length does.
   */
  lemma AcceptedIff(data: seq<Byte>)
    ensures Accepted(data) <==>
              |data| >= 4 && data[0] == 0xAA && data[1] == 0x55 &&
              (|data| - 4) % 3 == 0 && (|data| - 4) / 3 == StatedLength(data) / 3
  {
  }

  /** Round trip: a frame built by the senders passes every check and reports its LED count. */
  lemma EncodeThenDecode(colors: seq<Rgb>)
    requires AllByteRgb(colors) && 3 * |colors| < 65536
    ensures DecodeUart(Frame(|colors|, colors)) ==
              Checked(3 * |colors|, 3 * |colors|, |colors|, false, true, true)
  {
    HeaderRoundTrip(3 * |colors|, Payload(colors));
  }

  /** A header stating `m` bytes followed by whole triples passes when both count the same LEDs. */
  lemma HeaderAccepted(m: nat, payload: seq<Byte>)
    requires m < 65536 && |payload| % 3 == 0 && |payload| / 3 == m / 3
    ensures Accepted(Header(m) + payload)
  {
    HeaderRoundTrip(m, payload);
  }

  /** The stated length is compared in whole LEDs, so a length one or two bytes too large still passes. */
  lemma LengthSlackAccepted(colors: seq<Rgb>, stated: nat)
    requires AllByteRgb(colors) && 3 * |colors| < stated <= 3 * |colors| + 2 && stated < 65536
    ensures Accepted(Header(stated) + Payload(colors))
  {
    WholeLeds(|colors|, stated - 3 * |colors|);
    HeaderAccepted(stated, Payload(colors));
  }

  lemma WholeLeds(n: nat, slack: nat)
    requires slack < 3
    ensures (3 * n + slack) / 3 == n && (3 * n) / 3 == n && (3 * n) % 3 == 0
  {
  }

  /** A payload with a partial triple fails, whatever the header states. */
  lemma PartialTripleRejected(colors: seq<Rgb>, extra: seq<Byte>, n: nat)
    requires AllByteRgb(colors) && 1 <= |extra| <= 2
    ensures DecodeUart(Header(n) + Payload(colors) + extra).Checked?
    ensures !Accepted(Header(n) + Payload(colors) + extra)
  {
  }
}
