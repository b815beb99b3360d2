/**
 * The text `json.dumps` produces for a validated frame, `[[R, G, B], ...]`
 * with Python's default ", " separator, and a reader for that text.  The
 * round trip (a receiver recovers exactly the frame that was sent) is the
 * partner of the encoder.
 */
module Wire {
  import opened Options
  import opened Json
  import opened LedFrame

  function DigitChar(d: nat): (c: char)
    requires d < 10
    ensures IsDigit(c)
  {
    ('0' as int + d) as char
  }

  /** `str(n)` for a non-negative int: decimal, no leading zeros. */
  function Decimal(n: nat): (s: string)
    ensures |s| >= 1
    ensures forall k :: 0 <= k < |s| ==> IsDigit(s[k])
  {
    if n < 10 then [DigitChar(n)] else Decimal(n / 10) + [DigitChar(n % 10)]
  }

  /** How `json.dumps` writes one validated channel. */
  function ChannelText(v: Json): string
    requires IsChannel(v)
  {
    if v.JBool? then (if v.b then "true" else "false") else Decimal(v.i)
  }

  function TripleText(v: Json): string
    requires IsTriple(v)
  {
    "[" + (ChannelText(v.items[0]) + (", " + (ChannelText(v.items[1]) + (", " + (ChannelText(v.items[2]) + "]")))))
  }

  function ItemsText(items: seq<Json>): string
    requires forall k :: 0 <= k < |items| ==> IsTriple(items[k])
  {
    if |items| == 0 then ""
    else if |items| == 1 then TripleText(items[0])
    else TripleText(items[0]) + (", " + ItemsText(items[1..]))
  }

  /** `json.dumps(led_data)` for a frame that passed validation. */
  function Dumps(d: Json): string
    requires IsFrame(d)
  {
    "[" + (ItemsText(d.items) + "]")
  }

  // ---------------------------------------------------------------- reader

  /** Length of the longest all-digit prefix of `s`. */
  function DigitSpan(s: string): (k: nat)
    ensures k <= |s|
  {
    if s != [] && IsDigit(s[0]) then 1 + DigitSpan(s[1..]) else 0
  }

  /** Reads one channel (`true`, `false` or a decimal) and returns what is left. */
  function ParseChannel(s: string): (r: Option<(Json, string)>)
    ensures r.Some? ==> |r.value.1| < |s|
  {
    if "true" <= s then Some((JBool(true), s[4..]))
    else if "false" <= s then Some((JBool(false), s[5..]))
    else
      var k := DigitSpan(s);
      if k == 0 then None
      else
        assert forall m :: 0 <= m < k ==> IsDigit(s[..k][m]) by { DigitSpanDigits(s); }
        Some((JInt(DigitsValue(s[..k])), s[k..]))
  }

  /** Reads `[a, b, c]`. */
  function ParseTriple(s: string): (r: Option<(Json, string)>)
    ensures r.Some? ==> |r.value.1| < |s|
  {
    if !("[" <= s) then None
    else
      var p0 := ParseChannel(s[1..]);
      if p0.None? || !(", " <= p0.value.1) then None
      else
        var p1 := ParseChannel(p0.value.1[2..]);
        if p1.None? || !(", " <= p1.value.1) then None
        else
          var p2 := ParseChannel(p1.value.1[2..]);
          if p2.None? || !("]" <= p2.value.1) then None
          else Some((JList([p0.value.0, p1.value.0, p2.value.0]), p2.value.1[1..]))
  }

  /** Reads one or more triples separated by ", ". */
  function ParseItems(s: string): (r: Option<(seq<Json>, string)>)
    ensures r.Some? ==> |r.value.1| < |s|
    decreases |s|
  {
    var t := ParseTriple(s);
    if t.None? then None
    else if ", " <= t.value.1 then
      var more := ParseItems(t.value.1[2..]);
      if more.None? then None else Some(([t.value.0] + more.value.0, more.value.1))
    else Some(([t.value.0], t.value.1))
  }

  /** Reads a whole frame text; nothing may follow the closing bracket. */
  function ParseFrameText(s: string): Option<Json>
  {
    if !("[" <= s) then None
    else if "]" <= s[1..] then (if s[2..] == [] then Some(JList([])) else None)
    else
      var items := ParseItems(s[1..]);
      if items.Some? && items.value.1 == "]" then Some(JList(items.value.0)) else None
  }

  // ---------------------------------------------------------------- round trip

  lemma {:induction false} DigitSpanDigits(s: string)
    ensures forall m :: 0 <= m < DigitSpan(s) ==> IsDigit(s[m])
  {
    if s != [] && IsDigit(s[0]) {
      DigitSpanDigits(s[1..]);
    }
  }

  lemma {:induction false} DigitSpanOfDigits(ds: string, rest: string)
    requires forall k :: 0 <= k < |ds| ==> IsDigit(ds[k])
    requires rest == [] || !IsDigit(rest[0])
    ensures DigitSpan(ds + rest) == |ds|
  {
    if ds == [] {
      assert ds + rest == rest;
    } else {
      assert (ds + rest)[1..] == ds[1..] + rest;
      DigitSpanOfDigits(ds[1..], rest);
    }
  }

  lemma {:induction false} DecimalValue(n: nat)
    ensures DigitsValue(Decimal(n)) == n
  {
    if n >= 10 {
      var s := Decimal(n);
      assert s[..|s| - 1] == Decimal(n / 10);
      DecimalValue(n / 10);
    }
  }

  lemma DecimalNotWord(n: nat)
    ensures !("true" <= Decimal(n) + ", ") && !("false" <= Decimal(n) + ", ")
    ensures !("true" <= Decimal(n) + "]") && !("false" <= Decimal(n) + "]")
  {
    assert IsDigit(Decimal(n)[0]);
    assert (Decimal(n) + ", ")[0] == Decimal(n)[0];
    assert (Decimal(n) + "]")[0] == Decimal(n)[0];
  }

  /** A channel followed by a separator or a closing bracket reads back as itself. */
  lemma ParseChannelText(v: Json, rest: string)
    requires IsChannel(v)
    requires rest != [] && (rest[0] == ',' || rest[0] == ']')
    ensures ParseChannel(ChannelText(v) + rest) == Some((v, rest))
  {
    var s := ChannelText(v) + rest;
    if v.JBool? {
      if v.b {
        assert s[..4] == "true";
        assert s[4..] == rest;
      } else {
        assert s == "false" + rest;
        assert !("true" <= s) by {
          assert s[0] == 'f';
        }
        assert s[..5] == "false";
        assert s[5..] == rest;
      }
    } else {
      var ds := Decimal(v.i);
      assert IsDigit(ds[0]) && s[0] == ds[0];
      DigitSpanOfDigits(ds, rest);
      assert s[..|ds|] == ds;
      assert s[|ds|..] == rest;
      DecimalValue(v.i);
    }
  }

  lemma ParseTripleText(v: Json, rest: string)
    requires IsTriple(v)
    ensures ParseTriple(TripleText(v) + rest) == Some((v, rest))
  {
    var c0, c1, c2 := ChannelText(v.items[0]), ChannelText(v.items[1]), ChannelText(v.items[2]);
    var s := TripleText(v) + rest;
    var r2 := "]" + rest;
    var r1 := ", " + (c2 + r2);
    var r0 := ", " + (c1 + r1);
    assert s == "[" + (c0 + r0);
    assert s[1..] == c0 + r0;
    ParseChannelText(v.items[0], r0);
    assert r0[2..] == c1 + r1;
    ParseChannelText(v.items[1], r1);
    assert r1[2..] == c2 + r2;
    ParseChannelText(v.items[2], r2);
    assert r2[1..] == rest;
    assert v == JList([v.items[0], v.items[1], v.items[2]]);
  }

  lemma ParseItemsLast(s: string, t: Json, r: string)
    requires ParseTriple(s) == Some((t, r)) && !(", " <= r)
    ensures ParseItems(s) == Some(([t], r))
  {
  }

  lemma ParseItemsMore(s: string, t: Json, r: string, ts: seq<Json>, r': string)
    requires ParseTriple(s) == Some((t, r)) && ", " <= r
    requires ParseItems(r[2..]) == Some((ts, r'))
    ensures ParseItems(s) == Some(([t] + ts, r'))
  {
  }

  lemma ItemsTextCons(items: seq<Json>, rest: string)
    requires |items| > 1
    requires forall k :: 0 <= k < |items| ==> IsTriple(items[k])
    ensures ItemsText(items) + rest == TripleText(items[0]) + (", " + (ItemsText(items[1..]) + rest))
  {
    var h, t, whole := TripleText(items[0]), ItemsText(items[1..]), ItemsText(items);
    ItemsTextUnfold(items);
    assert whole == h + (", " + t);
    ConcatAssoc(h, ", ", t, rest);
  }

  lemma ItemsTextUnfold(items: seq<Json>)
    requires |items| > 1
    requires forall k :: 0 <= k < |items| ==> IsTriple(items[k])
    ensures ItemsText(items) == TripleText(items[0]) + (", " + ItemsText(items[1..]))
  {
  }

  lemma ConcatAssoc(a: string, b: string, c: string, d: string)
    ensures (a + (b + c)) + d == a + (b + (c + d))
  {
  }

  lemma {:induction false} ParseItemsText(items: seq<Json>, rest: string)
    requires |items| >= 1
    requires forall k :: 0 <= k < |items| ==> IsTriple(items[k])
    requires !(", " <= rest)
    ensures ParseItems(ItemsText(items) + rest) == Some((items, rest))
  {
    if |items| == 1 {
      assert ItemsText(items) + rest == TripleText(items[0]) + rest;
      ParseTripleText(items[0], rest);
      ParseItemsLast(ItemsText(items) + rest, items[0], rest);
      assert [items[0]] == items;
    } else {
      ParseItemsText(items[1..], rest);
      ParseItemsStep(items, rest);
    }
  }

  /** One more triple in front of a list that parses back. */
  lemma ParseItemsStep(items: seq<Json>, rest: string)
    requires |items| > 1
    requires forall k :: 0 <= k < |items| ==> IsTriple(items[k])
    requires ParseItems(ItemsText(items[1..]) + rest) == Some((items[1..], rest))
    ensures ParseItems(ItemsText(items) + rest) == Some((items, rest))
  {
    var t0, tl := items[0], items[1..];
    var tail := ItemsText(tl) + rest;
    ItemsTextCons(items, rest);
    ParseTripleText(t0, ", " + tail);
    ParseSeparated(TripleText(t0), t0, tail, tl, rest);
    HeadTail(items);
  }

  lemma HeadTail(items: seq<Json>)
    requires items != []
    ensures [items[0]] + items[1..] == items
  {
  }

  /** A triple, the separator, then a list: the reader takes the triple and goes on after ", ". */
  lemma ParseSeparated(head: string, t: Json, tail: string, ts: seq<Json>, rest: string)
    requires ParseTriple(head + (", " + tail)) == Some((t, ", " + tail))
    requires ParseItems(tail) == Some((ts, rest))
    ensures ParseItems(head + (", " + tail)) == Some(([t] + ts, rest))
  {
    assert (", " + tail)[2..] == tail;
    ParseItemsMore(head + (", " + tail), t, ", " + tail, ts, rest);
  }

  /** The receiver's reading of `json.dumps(frame)` is the frame itself. */
  lemma DumpsRoundTrip(d: Json)
    requires IsFrame(d)
    ensures ParseFrameText(Dumps(d)) == Some(d)
  {
    var body := ItemsText(d.items);
    var s := Dumps(d);
    assert s == "[" + (body + "]");
    assert s[1..] == body + "]";
    assert !(", " <= "]");
    ParseItemsText(d.items, "]");
    assert ParseItems(s[1..]) == Some((d.items, "]"));
    assert body[0] == '[' by {
      if |d.items| > 1 {
        assert body == TripleText(d.items[0]) + (", " + ItemsText(d.items[1..]));
      }
    }
    assert s[1..][0] == '[';
    assert !("]" <= s[1..]);
  }

  /** One socket message: the JSON text and a single newline. */
  function SocketLine(d: Json): string
    requires IsFrame(d)
  {
    Dumps(d) + "\n"
  }

  /** Line-based reading of a socket message: strip exactly one trailing newline, then read the frame. */
  function ReadSocketLine(line: string): Option<Json>
  {
    if line != [] && line[|line| - 1] == '\n' then ParseFrameText(line[..|line| - 1]) else None
  }

  lemma SocketLineRoundTrip(d: Json)
    requires IsFrame(d)
    ensures ReadSocketLine(SocketLine(d)) == Some(d)
    ensures forall k :: 0 <= k < |SocketLine(d)| - 1 ==> SocketLine(d)[k] != '\n'
  {
    assert SocketLine(d)[..|SocketLine(d)| - 1] == Dumps(d);
    DumpsRoundTrip(d);
    DumpsHasNoNewline(d);
  }

  lemma DumpsHasNoNewline(d: Json)
    requires IsFrame(d)
    ensures forall k :: 0 <= k < |Dumps(d)| ==> Dumps(d)[k] != '\n'
  {
    ItemsNoNewline(d.items);
  }

  lemma {:induction false} ItemsNoNewline(items: seq<Json>)
    requires forall k :: 0 <= k < |items| ==> IsTriple(items[k])
    ensures forall k :: 0 <= k < |ItemsText(items)| ==> ItemsText(items)[k] != '\n'
  {
    if |items| >= 1 {
      TripleNoNewline(items[0]);
    }
    if |items| > 1 {
      ItemsNoNewline(items[1..]);
    }
  }

  lemma TripleNoNewline(v: Json)
    requires IsTriple(v)
    ensures forall k :: 0 <= k < |TripleText(v)| ==> TripleText(v)[k] != '\n'
  {
    forall m | 0 <= m < 3
      ensures forall k :: 0 <= k < |ChannelText(v.items[m])| ==> ChannelText(v.items[m])[k] != '\n'
    {
    }
  }
  /** Every frame of a sequence is valid. */
  predicate AllFrames(frames: seq<Json>)
  {
    forall k :: 0 <= k < |frames| ==> IsFrame(frames[k])
  }

  /** Lines joined as a line-based stream: each followed by one newline. */
  function Join(lines: seq<string>): string
  {
    if lines == [] then [] else Join(lines[..|lines| - 1]) + (lines[|lines| - 1] + "\n")
  }

  predicate NoNewline(line: string)
  {
    forall k :: 0 <= k < |line| ==> line[k] != '\n'
  }

  /** Index of the first newline of `s`, or |s| when there is none. */
  function LineEnd(s: string): (e: nat)
    ensures e <= |s|
    ensures e < |s| ==> s[e] == '\n'
    ensures forall k :: 0 <= k < e ==> s[k] != '\n'
  {
    if s == [] then 0 else if s[0] == '\n' then 0 else 1 + LineEnd(s[1..])
  }

  /** What a line-based reader takes from a stream: every newline-terminated line, newline removed. */
  function CompleteLines(s: string): seq<string>
    decreases |s|
  {
    var e := LineEnd(s);
    if e == |s| then [] else [s[..e]] + CompleteLines(s[e + 1..])
  }

  lemma {:induction false} JoinCons(lines: seq<string>)
    requires lines != []
    ensures Join(lines) == lines[0] + ("\n" + Join(lines[1..]))
  {
    if |lines| > 1 {
      var init := lines[..|lines| - 1];
      JoinCons(init);
      assert init[1..] == lines[1..][..|lines[1..]| - 1];
      assert Join(lines[1..]) == Join(init[1..]) + (lines[|lines| - 1] + "\n");
    } else {
      assert lines[..0] == [];
      assert lines[1..] == [];
    }
  }

  lemma LineEndUnique(s: string, e: nat)
    requires e < |s| && s[e] == '\n'
    requires forall k :: 0 <= k < e ==> s[k] != '\n'
    ensures LineEnd(s) == e
  {
  }

  /** Reading a joined stream line by line gives back the lines, provided none holds a newline. */
  lemma {:induction false} JoinLines(lines: seq<string>)
    requires forall k :: 0 <= k < |lines| ==> NoNewline(lines[k])
    ensures CompleteLines(Join(lines)) == lines
  {
    if lines != [] {
      var s := Join(lines);
      var first := lines[0];
      JoinCons(lines);
      JoinLines(lines[1..]);
      assert s[|first|] == '\n';
      LineEndUnique(s, |first|);
      assert s[..|first|] == first;
      assert s[|first| + 1..] == Join(lines[1..]);
    }
  }

  /** The message texts of a sequence of frames. */
  function Texts(frames: seq<Json>): (texts: seq<string>)
    requires AllFrames(frames)
    ensures |texts| == |frames|
  {
    seq(|frames|, k requires 0 <= k < |frames| => Dumps(frames[k]))
  }

  /** The byte stream a socket carries after sending `frames` in order, one line each. */
  function Stream(frames: seq<Json>): string
    requires AllFrames(frames)
  {
    Join(Texts(frames))
  }

  /** Sending one more frame appends its socket line to the stream. */
  lemma StreamAppend(frames: seq<Json>, d: Json)
    requires AllFrames(frames) && IsFrame(d)
    ensures AllFrames(frames + [d])
    ensures Stream(frames + [d]) == Stream(frames) + SocketLine(d)
  {
    var fs := frames + [d];
    assert Texts(fs)[..|fs| - 1] == Texts(frames);
  }

  /**
   * A line-based reader of the stream recovers exactly the frames sent, in
   * order: the newline appended to each message is the only one in it.
   */
  lemma StreamLines(frames: seq<Json>)
    requires AllFrames(frames)
    ensures |CompleteLines(Stream(frames))| == |frames|
    ensures forall k :: 0 <= k < |frames| ==> ParseFrameText(CompleteLines(Stream(frames))[k]) == Some(frames[k])
  {
    var texts := Texts(frames);
    forall k | 0 <= k < |texts| ensures NoNewline(texts[k]) {
      DumpsHasNoNewline(frames[k]);
    }
    JoinLines(texts);
    forall k | 0 <= k < |frames| ensures ParseFrameText(texts[k]) == Some(frames[k]) {
      DumpsRoundTrip(frames[k]);
    }
  }
}
