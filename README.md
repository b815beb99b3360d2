# Smart globe LED pipeline, modelled in Dafny

This project models the LED side of the smart globe: a 402-LED sphere
(409 on the earlier test strip) driven from a Raspberry Pi. It covers:

- **The dense frame.** Every V2 component exchanges one frame: 402 `[R, G, B]`
  triples in LED-id order, each channel an integer in [0, 255].
- **The two transport clients.**
  - `SocketClient` sends each frame as one JSON line over TCP.
  - `WebSocketClient` sends each frame as one WebSocket message.
  - Both validate the frame and keep a depth-1 "latest wins" pending slot
    that a worker thread empties.
  - Both reconnect on a 2 s × 1.5ⁿ schedule capped at 30 s, and rate-limit
    sends.
- **The painters.**
  - `GlobeVisualization` turns a point or region request into a frame.
    It handles background fill, colour normalisation, the clamped LED index,
    the wrapping row/column scan and the error frame.
  - The placeholder painter of `V2/test_globe_led.py`.
- **The location processor.** It finds the first closest LED and the sorted
  ids within a radius of a polygon.
- **The idle visualiser.** It builds colour maps and runs the wake-word
  polling loop.
- **The UART scripts.**
  - The `AA 55 len_hi len_lo` + RGB frame encoders: the fullmap player,
    three snake animations, the theta mapping test and the static band
    pattern.
  - The one-sync-byte variant.
  - The offline frame checker of `decode_uart.py`.
- **The layout tools.** They shift ids, rotate theta and convert degrees to
  radians.
- **The voice assistant's four-state cycle.**

Threads, sockets, serial ports, files, clocks and the speech and GPT
services are not modelled as such. Their results are parameters: connect and
send outcomes, the time read before a send, the parsed JSON document, what
the recogniser heard.

Trigonometry is also a parameter: the column coordinate of
`_calculate_led_index` and the haversine test of `_get_surrounding_leds` are
function-valued arguments. Angles are exact reals with π fixed at
3.141592653589793.

Python's integer `%` with a positive modulus is Dafny's `%`. `int()` on a
float truncates toward zero (`Json.Trunc`). A bool is an int
(`Json.IsPyInt`).

An operation that raises in Python returns `None` or a `Raised` result in
the model.

Files:

| file | module(s) | models |
|---|---|---|
| Json.dfy | Options, Json, Angles | Python values as `json.load` returns them; truthiness, `int()`, `.get`, `lower()`, `radians`/`degrees` |
| Frame.dfy | LedFrame | the 402-triple frame and `_validate_led_data` |
| Wire.dfy | Wire | `json.dumps` of a frame, a reader for it, the newline-framed socket stream |
| Backoff.dfy | Backoff | the reconnect schedule and the WebSocket wait slices |
| SocketClient.dfy | SocketClient | V2/socket_client.py |
| WebSocketClient.dfy | WebSocketClient | V2/websocket_client.py |
| Layout.dfy | Layout | an LED layout entry |
| GlobeVisualization.dfy | GlobeVisualization | V2/globe_visualization.py |
| TestGlobeLed.dfy | TestGlobeLed | V2/test_globe_led.py |
| LocationProcessor.dfy | LocationProcessor | location_processor.py |
| IdleMode.dfy | IdleMode | idle_mode_visualizer.py |
| Uart.dfy | Uart | the `AA 55` frame shared by the UART scripts; decode_uart.py |
| PiExeFromJson.dfy | PiExeFromJson | pi_exe_from_json.py |
| SnakeWindow.dfy | SnakeWindow | the wrap-around window of the three snake scripts |
| Snake.dfy | Snake, CommsLedTest, SingleLedSnake | snake.py, pi_arduino_comms_led_test.py, single_led_snake.py |
| TestMapping.dfy | TestMapping | test_mapping.py |
| StaticLightUp.dfy | StaticLightUp | static_light_up.py |
| ShiftCoords.dfy | ShiftCoords | shift_coords.py |
| RotateCoordinates.dfy | RotateCoordinates | V2/rotate_coordinates.py |
| ConvertDegrees.dfy | ConvertDegrees | convert_degrees_to_radians.py |
| Assistant.dfy | Assistant | V2/assistant.py |

## Model

| member | source | states |
|---|---|---|
| Json.Trunc | static_light_up.py:15 | `int()` of a float truncates toward zero: within one of the value, never past it |
| Json.IntOf | V2/globe_visualization.py:317 | `int(c)` keeps ints and bools, truncates floats, reads strings as `int()` does, fails on None, lists and dicts |
| Json.ParseIntText | V2/globe_visualization.py:317 | a string of plain decimal digits reads as its value; a string that reads has something left after stripping whitespace |
| Json.TrimLeftPadded | V2/globe_visualization.py:317 | leading whitespace is dropped, up to the first non-space character |
| Json.TrimRightPadded | V2/globe_visualization.py:317 | trailing whitespace is dropped, back to the last non-space character |
| Json.ParseIntTextPadded | V2/globe_visualization.py:317 | whitespace around the text does not change what `int()` reads: `" 12 "` reads as 12 |
| Json.ParseIntTextGrouped | V2/globe_visualization.py:317 | underscores between digits do not change the value: `"1_000"` reads as 1000 |
| Json.Get | pi_exe_from_json.py:26 | `d.get(key, default)` is the stored value when the key is present and the default otherwise |
| Json.Lower | V2/assistant.py:95 | lower-casing keeps the length and lower-cases each character |
| Angles.DegreesOfRadians | convert_degrees_to_radians.py:15-16 | converting degrees to radians loses nothing: converting back gives the original angle |
| Angles.RadiansOfDegrees | idle_mode_visualizer.py:51 | `radians(degrees(phi)) == phi` |
| LedFrame.ValidateLedData | V2/socket_client.py:235-263 | the validator accepts exactly the lists of 402 three-element lists of ints (bools included) in [0, 255] |
| LedFrame.FrameJson | V2/globe_visualization.py:78-82 | the list handed to `send_led_data` has one `[r, g, b]` per colour, in order |
| LedFrame.FrameJsonValid | V2/websocket_client.py:208-236 | a frame built from colours passes the validator exactly when it has 402 colours with byte channels |
| Wire.DigitChar | V2/socket_client.py:201 | a decimal digit is written as a digit character |
| Wire.Decimal | V2/socket_client.py:201 | `str(n)` is non-empty and all digits |
| Wire.DigitSpan | V2/socket_client.py:201 | the digit prefix the reader consumes is never longer than the text |
| Wire.ParseChannel | V2/socket_client.py:201 | reading a channel consumes at least one character |
| Wire.ParseTriple | V2/socket_client.py:201 | reading a triple consumes at least one character |
| Wire.ParseItems | V2/socket_client.py:201 | reading a list of triples consumes at least one character |
| Wire.DigitSpanDigits | V2/socket_client.py:201 | every character of the digit prefix is a digit |
| Wire.DigitSpanOfDigits | V2/socket_client.py:201 | the digit prefix of a number followed by a non-digit is exactly the number |
| Wire.DecimalValue | V2/socket_client.py:201 | reading `str(n)` back gives `n` |
| Wire.DecimalNotWord | V2/socket_client.py:201 | a number's text is never mistaken for `true` or `false` |
| Wire.ParseChannelText | V2/socket_client.py:201 | a channel as `json.dumps` writes it reads back as itself, leaving the rest of the text |
| Wire.ParseTripleText | V2/socket_client.py:201 | `[r, g, b]` as `json.dumps` writes it reads back as the same triple |
| Wire.ParseItemsLast | V2/socket_client.py:201 | a single last triple reads as a one-element list |
| Wire.ParseItemsMore | V2/socket_client.py:201 | a triple then `, ` then more triples reads as their concatenation |
| Wire.ItemsTextCons | V2/socket_client.py:201 | the list text is the first triple, `, `, then the rest |
| Wire.ParseItemsText | V2/socket_client.py:201 | the triples of a frame read back in order |
| Wire.ParseItemsStep | V2/socket_client.py:201 | one more triple in front of a list that reads back still reads back |
| Wire.ParseSeparated | V2/socket_client.py:201 | after a triple and `, ` the reader continues with the rest of the list |
| Wire.DumpsRoundTrip | V2/websocket_client.py:179-180 | the receiver's reading of `json.dumps(frame)` is the frame itself |
| Wire.SocketLineRoundTrip | V2/socket_client.py:201-203 | a socket message is the JSON text plus exactly one newline, its only newline, and it reads back as the frame |
| Wire.DumpsHasNoNewline | V2/socket_client.py:201 | `json.dumps` of a frame holds no newline |
| Wire.ItemsNoNewline | V2/socket_client.py:201 | the triples' text holds no newline |
| Wire.TripleNoNewline | V2/socket_client.py:201 | one triple's text holds no newline |
| Wire.LineEnd | V2/socket_client.py:201 | the first newline is found, and none comes before it |
| Wire.JoinCons | V2/socket_client.py:201-203 | a stream of lines is the first line, a newline, then the rest |
| Wire.LineEndUnique | V2/socket_client.py:201-203 | a line without a newline ends at the newline that follows it |
| Wire.JoinLines | V2/socket_client.py:201-203 | reading a stream line by line gives back the lines that were joined |
| Wire.Texts | V2/socket_client.py:201 | one message text per frame |
| Wire.StreamAppend | V2/socket_client.py:201-203 | sending one more frame appends its line to the TCP stream |
| Wire.StreamLines | V2/socket_client.py:201-203 | a line-based receiver recovers exactly the frames sent, in order |
| Backoff.GrowInRange | V2/socket_client.py:133 | `min(interval * 1.5, 30)` keeps an interval in [2, 30] and never shrinks it |
| Backoff.PowAtLeastOne | V2/socket_client.py:15 | 1.5ⁿ is at least 1 |
| Backoff.PowMonotone | V2/socket_client.py:15 | 1.5ⁿ grows with n |
| Backoff.IteratedIsSchedule | V2/socket_client.py:88-133 | n growths from 2 s give the closed form min(2 × 1.5ⁿ, 30) |
| Backoff.ScheduleInRange | V2/socket_client.py:13-14 | every interval of the schedule lies in [2, 30] |
| Backoff.ScheduleCapped | V2/websocket_client.py:97-147 | the interval is pinned at 30 s exactly from the seventh growth on |
| Backoff.GrowSchedule | V2/websocket_client.py:147 | one growth is one step along the schedule |
| Backoff.WaitSlices | V2/websocket_client.py:141 | `int(retry * 100)`, truncated toward zero, counts slices of 0.01 s that never exceed a non-negative interval and fall short by less than one slice |
| SocketClient.QueuedIsLatest | V2/socket_client.py:221-233 | after a series of submissions the slot holds the last valid one, or its old value when none was valid |
| SocketClient.QueuedNoFrame | V2/socket_client.py:221-233 | submissions with no valid frame leave the slot as it was |
| SocketClient.QueuedFrom | V2/socket_client.py:221-233 | once a valid frame was submitted, the slot holds a valid frame submitted at or after it, with no valid one later |
| SocketClient.SocketClient.constructor | V2/socket_client.py:27-46 | a new client has no connection, no worker, nothing pending, last send time 0 |
| SocketClient.SocketClient.Start | V2/socket_client.py:50-62 | a second start while running changes nothing; otherwise the worker runs and the stop flag is clear |
| SocketClient.SocketClient.CloseConnection | V2/socket_client.py:170-180 | closing always ends disconnected with no socket, nothing else changed |
| SocketClient.SocketClient.RequestStop | V2/socket_client.py:72-76 | the stop flag is set and the connection closed |
| SocketClient.SocketClient.Stop | V2/socket_client.py:64-82 | stop does nothing when not running; otherwise it sets the flag, closes, and the worker ends iff the join succeeds |
| SocketClient.SocketClient.SendLedData | V2/socket_client.py:210-233 | a frame is queued iff the worker runs and it is valid; queuing replaces the pending frame, refusal leaves it |
| SocketClient.SocketClient.TakePending | V2/socket_client.py:103-106 | the take returns the pending frame, always a valid one, and leaves the slot empty |
| SocketClient.SocketClient.ConnectToServer | V2/socket_client.py:137-168 | at most 5 attempts; earlier ones were all timeouts or refusals; connected iff the last attempt succeeded, which is exactly `ConnectsFrom(outcomes, 0)`; other errors stop at once |
| SocketClient.ConnectsFromIff | V2/socket_client.py:137-168 | the connect call ends connected iff some attempt among the first five succeeds and every attempt before it timed out or was refused |
| SocketClient.SocketClient.SendData | V2/socket_client.py:182-208 | no send without a connection; otherwise the send starts no earlier than `min_delay` after the previous one; success appends exactly one line and updates the last send time, failure disconnects |
| SocketClient.SocketClient.RecordSent | V2/socket_client.py:202-204 | a completed write appends exactly the frame's line to the server's stream and records the send time; the stream stays the join of the frames sent |
| SocketClient.SocketClient.OfferAll | V2/socket_client.py:210-233 | after the caller's calls the slot holds the latest valid frame offered, or its old value |
| SocketClient.QueuedStep | V2/socket_client.py:221-233 | one more valid frame takes the slot; an invalid one leaves it |
| SocketClient.SocketClient.PollOnce | V2/socket_client.py:100-117 | one inner pass sends the latest frame queued so far, if any, and leaves nothing pending |
| SocketClient.SocketClient.Serve | V2/socket_client.py:100-117 | the inner loop only appends to the stream, never clears a stop request, and sets none unless the caller asks for one |
| SocketClient.SocketClient.RunSession | V2/socket_client.py:90-135 | connected iff the connect call succeeds; a connection resets the interval to 2 s; when the steps run out while connected and not stopping, the worker is still inside the inner loop: no wait, no growth, still connected; otherwise, unless a stop is set when the session ends, the wait runs and the interval grows by exactly one `min(retry * 1.5, 30)` step, and the client ends disconnected; without a connection or a stop request the wait always runs; the interval is a schedule value |
| SocketClient.SocketClient.ConnectionLoop | V2/socket_client.py:84-135 | across sessions the retry interval is always a schedule value in [2, 30]; the stream only grows; the loop ends on a stop, at the end of the script, or still connected at 2 s inside a session whose steps ran out |
| SocketClient.LatestFrameWins | V2/socket_client.py:103-110 | two frames queued before a take: the server receives only the later one |
| SocketClient.ConnectAfterRefusals | V2/socket_client.py:149-158 | two refusals, then success: connected at the third attempt |
| SocketClient.GiveUpAfterFiveTimeouts | V2/socket_client.py:155-162 | a silent server: five attempts, then give up disconnected |
| SocketClient.RefusedBeforeStart | V2/socket_client.py:221-223 | a frame offered before `start` is refused and never sent |
| WebSocketClient.ReconnectWait | V2/websocket_client.py:141-144 | the wait sleeps `int(retry * 100)` slices, or stops at the first slice where stop is set, never more than the interval |
| WebSocketClient.WebSocketClient.constructor | V2/websocket_client.py:22-40 | a new client has no connection, no worker, no event loop and nothing pending |
| WebSocketClient.WebSocketClient.Start | V2/websocket_client.py:44-56 | a second start changes nothing; otherwise the worker and its event loop run |
| WebSocketClient.WebSocketClient.RequestStop | V2/websocket_client.py:67-70 | the stop flag is set; the connection is closed only when an event loop and a connection exist |
| WebSocketClient.WebSocketClient.Stop | V2/websocket_client.py:58-76 | no effect when not running; otherwise the stop flag is set, and the worker ends iff the join succeeds |
| WebSocketClient.WebSocketClient.SendLedData | V2/websocket_client.py:183-206 | queued iff running and valid; queuing replaces the pending frame, refusal leaves it |
| WebSocketClient.WebSocketClient.OfferAll | V2/websocket_client.py:183-206 | after the caller's calls the slot holds the latest valid frame offered, or its old value when the client is not running |
| WebSocketClient.WebSocketClient.SendData | V2/websocket_client.py:164-181 | the message is the bare JSON text, sent no earlier than `min_delay` after the previous send; a send without a connection raises and changes nothing |
| WebSocketClient.WebSocketClient.PollOnce | V2/websocket_client.py:112-128 | one pass takes the latest valid frame and empties the slot; a failed send loses that frame |
| WebSocketClient.WebSocketClient.Serve | V2/websocket_client.py:112-128 | the inner loop only appends messages and sets no stop unless the caller asks for one; it leaves early only on a failed send, and without a stop the connection is untouched |
| WebSocketClient.WebSocketClient.RunSession | V2/websocket_client.py:103-150 | a connection resets the interval to 2 s; when the steps run out while connected, with no stop and no failed send, the worker is still inside the inner loop: no wait, no growth, still connected; otherwise, unless a stop is set when the session ends, the sliced wait runs and the interval grows by exactly one `min(retry * 1.5, 30)` step, and afterwards `is_connected` is False and `connection` None; without a connection or a stop request the wait always runs; the interval is a schedule value |
| WebSocketClient.WebSocketClient.ConnectionLoop | V2/websocket_client.py:78-150 | the interval stays a schedule value in [2, 30]; a stopped loop closes its event loop; the loop ends on a stop, at the end of the script, or still connected at 2 s inside a session whose steps ran out |
| WebSocketClient.LatestFrameWins | V2/websocket_client.py:114-122 | two frames queued before a take: exactly the later one becomes a message |
| WebSocketClient.SendWithoutConnection | V2/websocket_client.py:114-125 | with no connection the taken frame is lost, not requeued |
| GlobeVisualization.Clamp | V2/globe_visualization.py:135 | `min(hi, max(lo, n))` lies in [lo, hi], is `n` inside, and `lo` or `hi` outside |
| GlobeVisualization.CreateLedData | V2/globe_visualization.py:78-82 | 402 entries, all the base colour, all off when none is given |
| GlobeVisualization.IndexFromRow | V2/globe_visualization.py:131-135 | the clamped index is always a valid LED |
| GlobeVisualization.CalculateLedIndexAsWritten | V2/globe_visualization.py:96-137 | the index as written is a valid LED whatever the latitude |
| GlobeVisualization.CalculateLedIndex | V2/globe_visualization.py:96-137 | with the intended row band the index is a valid LED |
| GlobeVisualization.NorthernLatitudesClampAsWritten | V2/globe_visualization.py:107-135 | as written, every latitude from 10° north lands on LED 400 or 401, whatever the longitude |
| GlobeVisualization.SouthernRowsUnusedAsWritten | V2/globe_visualization.py:107-123 | as written, rows 0 to 8 are never chosen |
| GlobeVisualization.RowInBand | V2/globe_visualization.py:107-135 | intended band: every latitude in [-90, 90] picks a row in [0, 20), and the index lies in that row |
| GlobeVisualization.RowMonotone | V2/globe_visualization.py:107-123 | intended band: rows never decrease from south to north |
| GlobeVisualization.CellIndex | V2/globe_visualization.py:180-187 | a scanned cell `r * cols + c`, wrapped modulo 20 both ways, lies in [0, 400) |
| GlobeVisualization.CellIndexAtCenter | V2/globe_visualization.py:160-187 | the zero offsets scan the centre cell itself |
| GlobeVisualization.GetSurroundingLeds | V2/globe_visualization.py:139-216 | the result holds exactly the scanned cells that pass the distance test; all lie in [0, 400), so LEDs 400 and 401 never appear; at most (6r+1)² entries; empty for r < 0; radius 0 gives at most the centre |
| GlobeVisualization.PaintFrame | V2/globe_visualization.py:250-251 | the listed indices take the colour and every other LED keeps its value |
| GlobeVisualization.PointOf | V2/globe_visualization.py:284-285 | `latitude, longitude = point` succeeds exactly for a two-element list of numbers |
| GlobeVisualization.Unpacked | V2/globe_visualization.py:283-288 | the vertices before the first bad one unpack, and that one does not |
| GlobeVisualization.Centers | V2/globe_visualization.py:285 | one valid centre index per vertex, in polygon order, computed by `_calculate_led_index` as written |
| GlobeVisualization.PaintRegion | V2/globe_visualization.py:283-288 | an LED takes the colour iff the surroundings of some vertex processed so far, centred where `_calculate_led_index` as written puts it, include it; otherwise it keeps the background; the loop completes iff every vertex unpacks |
| GlobeVisualization.NormalizeColor | V2/globe_visualization.py:309-317 | anything but a three-element list becomes red; then every channel goes through `int()` and is clamped into [0, 255] |
| GlobeVisualization.NormalizeColorKeepsBytes | V2/globe_visualization.py:312-317 | a colour already in bytes is kept as is |
| GlobeVisualization.NormalizeColorIdempotent | V2/globe_visualization.py:312-317 | normalising twice gives the same colour as once |
| GlobeVisualization.NormalizeColorChannel | V2/globe_visualization.py:317 | a channel below 0 becomes 0 and above 255 becomes 255; in between it is kept |
| GlobeVisualization.SpacedChannelRead | V2/globe_visualization.py:309-317 | the colour `[" 12", 0, 0]` normalises to (12, 0, 0), since `int()` ignores the surrounding whitespace |
| GlobeVisualization.BuildErrorFrame | V2/globe_visualization.py:360-362 | the first 20 LEDs are red and the other 382 off |
| GlobeVisualization.ErrorFrame | V2/globe_visualization.py:481-483 | the error frame has 402 entries |
| GlobeVisualization.Classify | V2/globe_visualization.py:308-351 | a point request has lat and lon; a region request has a non-empty polygon list; the colour of either is normalised bytes |
| GlobeVisualization.UnknownTypesRejected | V2/globe_visualization.py:349-351 | a type other than "point" and "region" is rejected |
| GlobeVisualization.DefaultColorIsRed | V2/globe_visualization.py:309 | a missing colour means red |
| GlobeVisualization.Globe.constructor | V2/globe_visualization.py:24-25 | black background, a black current frame, nothing handed over |
| GlobeVisualization.Globe.HighlightPoint | V2/globe_visualization.py:218-254 | reset to the background, then exactly the LEDs around the centre take the colour (red by default) and the frame is handed over, the centre being the index as written; a non-numeric coordinate raises after the reset |
| GlobeVisualization.Globe.HighlightRegion | V2/globe_visualization.py:256-291 | reset, then the LEDs around each vertex's as-written centre take the colour (blue by default); a bad vertex raises, leaving the earlier vertices painted |
| GlobeVisualization.Globe.SetAllLeds | V2/globe_visualization.py:490-501 | one single-colour frame is handed over; the current frame is unchanged |
| GlobeVisualization.Globe.SetBackground | V2/globe_visualization.py:512-519 | only the default background changes |
| GlobeVisualization.Globe.SendErrorFrame | V2/globe_visualization.py:358-366 | the error frame is handed over and nothing else changes |
| GlobeVisualization.Globe.ProcessLocationData | V2/globe_visualization.py:293-368 | through `LocationProcessed`: None, a point without lat/lon, an empty or non-list polygon and an unknown type return False with no effect; a raise sends the error frame; otherwise a radius-5 point or radius-2 region around the as-written centres, on the default background, is handed over |
| GlobeVisualization.Globe.ProcessAiResponse | V2/globe_visualization.py:370-488 | the same outcomes on the unwrapped "location" (parsed when a string); the current frame changes only once the whole frame is built |
| TestGlobeLed.CreateLedData | V2/test_globe_led.py:9-13 | 402 copies of the base colour, off by default |
| TestGlobeLed.CenterLedRange | V2/test_globe_led.py:46 | for a latitude in [-90, 90] the centre LED lies in [0, 400] |
| TestGlobeLed.Offset | V2/test_globe_led.py:49-50 | the distance going round the strip is in [0, 402) |
| TestGlobeLed.OffsetOfStep | V2/test_globe_led.py:50 | LED `(center + i) % 402` lies `i % 402` past the centre |
| TestGlobeLed.ModShift | V2/test_globe_led.py:50 | adding whole turns does not change an index modulo 402 |
| TestGlobeLed.InWindowIsVisited | V2/test_globe_led.py:48-51 | an LED is in the window iff it is `(center + i) % 402` for some `i` in [0, radius) |
| TestGlobeLed.WindowGrows | V2/test_globe_led.py:48-50 | each step of the window loop adds exactly the LED `(center + i) % 402` |
| TestGlobeLed.HighlightPoint | V2/test_globe_led.py:15-53 | exactly the window LEDs take the colour (red by default), every other entry is unchanged, the same list is returned, and the longitude plays no part |
| TestGlobeLed.HighlightRegion | V2/test_globe_led.py:55-76 | the loop completes iff every vertex is a pair of numbers; an LED takes the colour (blue by default) iff the radius-5 window of a vertex before the first bad one covers it; others are unchanged |
| TestGlobeLed.EquatorWindow | V2/test_globe_led.py:46-51 | radius 10 at the equator lights exactly LEDs 200 to 209 |
| LocationProcessor.SphericalFromLatLonInverse | location_processor.py:8-11 | theta is radians(lon) and phi radians(90 - lat): both coordinates are recovered |
| LocationProcessor.SqDist | location_processor.py:17-19 | the squared distance is never negative |
| LocationProcessor.FirstClosestUnique | location_processor.py:19-22 | the strict `<` makes the first closest LED unique: ties go to the earliest |
| LocationProcessor.StrictlySortedDistinct | location_processor.py:34 | a strictly sorted list has no repeats |
| LocationProcessor.Element | location_processor.py:34 | a non-empty set has a member |
| LocationProcessor.SetHasMin | location_processor.py:34 | a non-empty finite set of ids has a least member |
| LocationProcessor.Sorted | location_processor.py:34 | `sorted(list(ids))` is strictly increasing and has exactly the set's members |
| LocationProcessor.Entries | location_processor.py:59-61 | a list gives its items; a truthy string or dict gives no usable pairs; a number raises |
| LocationProcessor.VerticesCount | location_processor.py:61-65 | one vertex per two-element entry; other entries are skipped |
| LocationProcessor.NoPairsNoVertices | location_processor.py:62 | entries none of which is a pair give an empty polygon |
| LocationProcessor.VerticesStayRaised | location_processor.py:61-65 | once a prefix raises, the whole polygon raises |
| LocationProcessor.LocationProcessor.constructor | location_processor.py:5-6 | the processor holds the given layout |
| LocationProcessor.LocationProcessor.FindClosestLed | location_processor.py:13-23 | None iff the layout is empty; otherwise the first LED at the least distance |
| LocationProcessor.LocationProcessor.FindLedsInRegion | location_processor.py:25-34 | a strictly sorted id list holding exactly the ids within the radius of some vertex |
| LocationProcessor.LocationProcessor.ProcessLocation | location_processor.py:36-76 | a point gives the closest LED's id and its angles; a region gives the converted polygon and the sorted ids within 0.2; the colour defaults to white; unknown type, missing lat/lon or a falsy polygon give None |
| IdleMode.WaterIsSouth | idle_mode_visualizer.py:25-29 | water is exactly where the latitude is negative |
| IdleMode.AltitudeBands | idle_mode_visualizer.py:50-57 | red iff phi < π/4, green iff π/4 ≤ phi < π/2, blue iff phi ≥ π/2 |
| IdleMode.WaterIsBlue | idle_mode_visualizer.py:24-57 | every water LED is blue on the altitude map |
| IdleMode.ModesCycle | idle_mode_visualizer.py:64-68 | the modes repeat every three rounds, and any three consecutive rounds show all three |
| IdleMode.IdleModeVisualizer.constructor | idle_mode_visualizer.py:6-7 | the visualiser holds the given layout |
| IdleMode.IdleModeVisualizer.GenerateIdleMap | idle_mode_visualizer.py:9-21 | a "fullmap" with one pixel per LED in layout order, copying id, theta and phi and colouring by the function |
| IdleMode.IdleModeVisualizer.RunIdleLoop | idle_mode_visualizer.py:62-80 | returns the first input containing "smart globe" in any case; a new mode is shown every 10 polls, cycling by `i % 3` |
| Uart.Header | pi_exe_from_json.py:35-37 | the header is four bytes starting `AA 55` |
| Uart.Payload | pi_exe_from_json.py:39-40 | the payload holds each LED's r, g, b at bytes 3k, 3k+1, 3k+2 |
| Uart.PayloadAppend | snake.py:33 | extending by one LED appends its three bytes |
| Uart.EncodePayload | pi_exe_from_json.py:39-40 | the loop's bytes are the payload of the colours |
| Uart.Frame | snake.py:19-33 | a frame is 4 + 3 bytes per LED |
| Uart.HeaderRoundTrip | decode_uart.py:22-23 | the checker reads back the length the header states, for any 16-bit length |
| Uart.DecodeUart | decode_uart.py:16-46 | too short iff under 4 bytes; bad header iff the bytes are not `AA 55`; otherwise it reports the payload length and the big-endian stated length |
| Uart.AcceptedIff | decode_uart.py:29-46 | valid iff the header is `AA 55`, the payload is whole triples and its LED count equals the stated length // 3 |
| Uart.EncodeThenDecode | decode_uart.py:45-46 | a frame built by the senders passes every check and reports its LED count |
| Uart.HeaderAccepted | decode_uart.py:34-35 | whole triples that match the stated length in LEDs pass |
| Uart.LengthSlackAccepted | decode_uart.py:34-35 | a stated length one or two bytes too large still passes |
| Uart.WholeLeds | decode_uart.py:32-34 | one or two extra stated bytes do not change the LED count |
| Uart.PartialTripleRejected | decode_uart.py:33-35 | a payload ending in a partial triple fails whatever the header says |
| PiExeFromJson.AllOff | pi_exe_from_json.py:14 | 402 entries, all `(0, 0, 0)` |
| PiExeFromJson.PixelWrite | pi_exe_from_json.py:24-28 | only an int id in [0, 402) writes; an id out of range is skipped |
| PiExeFromJson.LastPutIsLatest | pi_exe_from_json.py:23-28 | an LED takes the colour of the last pixel naming it; none means it was never named |
| PiExeFromJson.LastPutNoneIff | pi_exe_from_json.py:23-28 | no colour is found for an LED exactly when no pixel writes it |
| PiExeFromJson.LastPutFound | pi_exe_from_json.py:23-28 | a colour found was written by a pixel naming the LED, and no later pixel writes it |
| PiExeFromJson.LoadLedData | pi_exe_from_json.py:12-32 | always 402 entries; all off for a missing file, a parse error, a non-"fullmap" document or any raising pixel; otherwise the latest pixel per LED, off when none |
| PiExeFromJson.ByteTriple | pi_exe_from_json.py:39-40 | an entry the byte array accepts is three bytes |
| PiExeFromJson.Colors | pi_exe_from_json.py:39-40 | one byte colour per entry |
| PiExeFromJson.SendFrame | pi_exe_from_json.py:34-42 | `AA 55`, the length 1206, then each entry's bytes; it fails iff some entry is not three bytes; a 402-entry map passes the frame checker |
| PiExeFromJson.ColorsAppend | pi_exe_from_json.py:39-40 | one more entry appends its colour |
| PiExeFromJson.FullMapAccepted | pi_exe_from_json.py:34-42 | a 402-colour frame passes the checker |
| PiExeFromJson.AllOffSendable | pi_exe_from_json.py:14 | the fallback map can always be sent, as 402 black LEDs |
| SnakeWindow.SnakeColors | snake.py:23-31 | one colour per LED: `on` inside the snake, `off` elsewhere |
| SnakeWindow.InSnakeIsWindow | snake.py:25-26 | for a start on the strip, the snake is the `length` LEDs from `start` going round |
| SnakeWindow.CountPieces | snake.py:25-26 | the lit count is the sum of the window's two pieces |
| SnakeWindow.ExactlyLength | snake.py:24-29 | a snake no longer than the strip lights exactly `length` LEDs |
| SnakeWindow.SnakePayload | snake.py:23-33 | the loop's bytes are the payload of the snake colours |
| Snake.SnakeAnimation.constructor | snake.py:13 | the snake starts at LED 0 |
| Snake.SnakeAnimation.SendFrame | snake.py:15-38 | the frame is the 1227-byte header plus red-in-snake, blue-elsewhere triples; then the start advances by 1 modulo 409 |
| Snake.SnakeFrameFacts | snake.py:19-33 | header `AA 55 04 CB`, 4 + 3·409 bytes, accepted by the checker, exactly 25 red LEDs and the rest blue |
| Snake.AdvanceStaysOnStrip | snake.py:38 | the start stays in [0, 409) and wraps from 408 to 0 |
| CommsLedTest.CommsSnake.constructor | pi_arduino_comms_led_test.py:18 | the snake starts at LED 0 |
| CommsLedTest.CommsSnake.SendFrame | pi_arduino_comms_led_test.py:20-39 | the sync byte then one triple per LED, FRAME_SIZE = 1228 bytes; the start advances by 1 modulo 409 |
| CommsLedTest.SleepTime | pi_arduino_comms_led_test.py:44-53 | `max(0, DELAY - elapsed)` is never negative and a frame period is never shorter than DELAY |
| CommsLedTest.CommsFrameColors | pi_arduino_comms_led_test.py:26-33 | exactly 25 LEDs are red, with wrap-around, and the rest blue |
| SingleLedSnake.KeySnake.constructor | single_led_snake.py:16 | the LED starts at index 0 |
| SingleLedSnake.KeySnake.OnKey | single_led_snake.py:48-57 | 'd' moves +1 and 'a' moves −1 modulo 409, each sending the new frame; any other key changes and sends nothing |
| SingleLedSnake.KeySnake.SendFrame | single_led_snake.py:18-34 | the frame for the current start |
| SingleLedSnake.MovesUndo | single_led_snake.py:53-56 | both moves stay in [0, 409), and 'a' undoes 'd' and vice versa |
| SingleLedSnake.OneRedLed | single_led_snake.py:11-30 | exactly the LED at the start is red; all others are (0, 0, 3) |
| TestMapping.LatestIsLast | test_mapping.py:22-30 | the latest coordinate with an id is found; none means no coordinate has it |
| TestMapping.LatestNoneIff | test_mapping.py:22-30 | no coordinate is found exactly when none carries the id |
| TestMapping.LatestFound | test_mapping.py:22-30 | a coordinate found carries the id, and no later one does |
| TestMapping.ColorMap | test_mapping.py:20-31 | 402 byte colours |
| TestMapping.BuildColorMap | test_mapping.py:20-31 | the loop computes the colour map |
| TestMapping.SendFrame | test_mapping.py:33-42 | `AA 55`, the length 1206, the map's triples; accepted by the checker |
| TestMapping.ColorMapEntries | test_mapping.py:21-30 | an LED no coordinate names is off; otherwise blue for theta < 180 and red else, from the latest coordinate |
| StaticLightUp.ScaleChannelBounds | static_light_up.py:13-15 | a channel in [0, 255] scales into [0, brightness]; 0 stays 0; 255 becomes the brightness |
| StaticLightUp.GroupColors | static_light_up.py:22-31 | bands of 20 LEDs are red, blue, green at brightness 30, repeating every 60 |
| StaticLightUp.PatternStep | static_light_up.py:28-32 | one more LED appends its band colour's three bytes to the payload |
| StaticLightUp.Pattern | static_light_up.py:28-31 | 402 byte colours, each LED's band colour |
| StaticLightUp.SendRgbGroups | static_light_up.py:17-32 | the header for 1206 bytes, then the band colours; 4 + 3·402 bytes, accepted by the checker |
| ShiftCoords.ShiftEntryEffect | shift_coords.py:11-13 | only the id changes: ids below 60 are kept, others grow by one, ints stay ints |
| ShiftCoords.ShiftSeparates | shift_coords.py:12-13 | no shifted entry has id 60; different ids stay different |
| ShiftCoords.ShiftIds | shift_coords.py:11-13 | a list keeps its length and order and each entry is shifted, and any raising entry stops the script; a non-empty dict or string raises and an empty one is written back; a number, bool or None raises |
| ShiftCoords.ShiftedTableIds | shift_coords.py:11-13 | over the whole table, id 60 is free and distinct ids stay distinct |
| RotateCoordinates.FMod | V2/rotate_coordinates.py:44 | Python's float `%` by 2 pi lies in [0, 2 pi) |
| RotateCoordinates.FModPeriodic | V2/rotate_coordinates.py:44 | whole turns do not change the remainder |
| RotateCoordinates.FModAdd | V2/rotate_coordinates.py:44 | the remainder of a remainder plus a step is the remainder of the sum |
| RotateCoordinates.FourTurns | V2/rotate_coordinates.py:19-44 | four quarter turns return every angle to itself modulo 2π |
| RotateCoordinates.RotateWithoutWrap | V2/rotate_coordinates.py:44 | an angle in [0, 3π/2) just gains π/2 |
| RotateCoordinates.RotateEntryEffect | V2/rotate_coordinates.py:36-53 | the new dict has exactly id, theta and phi; id and phi are copied; theta is in [0, 2π) |
| RotateCoordinates.Rotate | V2/rotate_coordinates.py:21-55 | one new entry per input entry, in order; the input is not touched |
| ConvertDegrees.ConvertEntryEffect | convert_degrees_to_radians.py:12-16 | a converted dict keeps its keys and other fields, and both angles convert back to the degrees they came from; entries without both keys are unchanged |
| ConvertDegrees.OutputPath | convert_degrees_to_radians.py:18 | a missing or empty output path means the input path |
| ConvertDegrees.DegToRadLayout | convert_degrees_to_radians.py:4-21 | non-list data writes nothing; otherwise the table is written, entry by entry converted, in order, to the output path |
| Assistant.FullCycle | V2/assistant.py:54-173 | with a wake word and a question other than "exit", four turns pass through all four states and return to the start |
| Assistant.Assistant.constructor | V2/assistant.py:15-52 | a new assistant starts idle; the globe is available iff it was constructed, and then its background is dim blue (5, 5, 15) with its frames unchanged |
| Assistant.Assistant.HandleIdle | V2/assistant.py:65-76 | to LISTENING only on a wake word, otherwise IDLE |
| Assistant.Assistant.HandleListening | V2/assistant.py:78-100 | "exit" in any case ends the program; otherwise the query (voice, or typed when empty) is stored and the state is PROCESSING |
| Assistant.Assistant.HandleProcessing | V2/assistant.py:102-139 | always RESPONDING; location data is GPT's when it answers and None when it raises or is unavailable |
| Assistant.Assistant.HandleResponding | V2/assistant.py:141-173 | speak when TTS is up; call the globe's `process_location_data` iff the location data is set, truthy and the globe is up, and the globe then changes as `LocationProcessed` describes, with its result returned; otherwise the globe is unchanged; back to IDLE |
| Assistant.Assistant.Step | V2/assistant.py:54-63 | one turn runs the current state's handler and moves along `Next`; a response is spoken exactly in RESPONDING, as None when TTS is down; a globe update is truthy data on an available globe, processed as `LocationProcessed` describes; otherwise the globe is unchanged |
| Assistant.Assistant.Run | V2/assistant.py:54-63 | the loop runs one handler per input and stops exactly at "exit" |

## Left out

- Threads, locks, sockets, WebSockets, asyncio and `time.sleep` are not modelled. Each client method is one step of one thread; the clock, connect outcomes and send outcomes are parameters.
- `send_with_buffer_handling` (V2/globe_visualization.py:28-76) is represented by the list of frames handed to it and its boolean result, a parameter.
- `turn_off` and `cleanup` of V2/globe_visualization.py and `cleanup` of V2/assistant.py are left out; they only call `set_all_leds` and stop threads.
- Floating-point rounding is not modelled: reals are exact. This affects `scale_color`, the `%` of `rotate_coordinates`, the row boundaries of `_calculate_led_index` and `math.radians`. The backoff values are dyadic, so there the model is exact.
- The cosine column coordinate of `_calculate_led_index` and the haversine test of `_get_surrounding_leds` are parameters, not computed.
- The day/night map of idle_mode_visualizer.py (lines 34-47) is left out: it reads the wall clock and uses cosines. The mode cycle still counts it.
- `display_*` print the map as JSON; the model returns the map instead.
- Json.Lower: only ASCII letters are lower-cased, not the full Unicode `str.lower()`.
- File reading and writing, `json.load`/`json.dump` and `os.path.exists` are parameters or results; serial writes are the returned byte sequences.
- The `while True` loops of the UART scripts are left out; each model call is one frame. `time.sleep` in pi_arduino_comms_led_test.py is only the computed sleep time.
- The debug write to `uart_debug_frame.bin` in static_light_up.py (lines 37-39) is not modelled.
- Speech recognition, `input()`, `speak()` and GPT calls of V2/assistant.py are inputs and outputs; `exit(0)` is the `Exit` effect.
- IdleMode.IdleModeVisualizer.RunIdleLoop: when the scripted inputs run out the model returns None; the source would keep polling forever.
- TestMapping, IdleMode and LocationProcessor take layout entries (`seq<Layout.Led>`) that already hold an integer id and numeric angles. So the raise of `led["theta"]`, `led["phi"]` or `led["id"]` on a malformed entry is not modelled in LocationProcessor.LocationProcessor.constructor, FindClosestLed, FindLedsInRegion or ProcessLocation. Neither is the raise of `sorted` on ids of mixed types.
- Json.IntOf: `int()` on a string strips only ASCII whitespace and reads only ASCII digits; Python also accepts Unicode whitespace and non-ASCII decimal digits.
- ShiftCoords.ShiftIds and ConvertDegrees.DegToRadLayout return a new table instead of updating the entries in place; no other reference to the entries exists in those scripts.
- SocketClient.SocketClient.ConnectionLoop and WebSocketClient.WebSocketClient.ConnectionLoop run over a finite script of sessions; the source loops until stopped.

## Findings

The painters (`highlight_point`, `highlight_region` and the two request handlers) are modelled as written: they centre on `CalculateLedIndexAsWritten`. `CalculateLedIndex` is the corrected index, and `RowInBand` and `RowMonotone` are proved about it.

| source | as written | input that shows it | evidently intended | confidence | as-written member | corrected member |
|---|---|---|---|---|---|---|
| V2/globe_visualization.py:107-123 | `y = radians(lat + 90) / pi` is already in [0, 1], and then 0.5 is added, so the row band runs from 9 to 28 | latitude 10 or anything further north: the row is 20 or more, and the clamp sends every such point to LED 400 or 401 whatever the longitude | `y` in [0, 1] from south to north, so rows 0 to 19 | not executed | GlobeVisualization.NorthernLatitudesClampAsWritten | GlobeVisualization.RowInBand |
