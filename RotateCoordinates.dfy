/**
 * V2/rotate_coordinates.py: turn every LED of the layout a quarter turn
 * about the polar axis by adding pi/2 to theta, taken modulo 2 pi.  Each
 * LED becomes a new dict holding only id, the new theta and phi; the input
 * list is left as it was.  An entry the loop cannot read makes the script
 * stop (None).
 */
module RotateCoordinates {
  import opened Options
  import opened Json
  import opened Angles

  const ROTATION: real := PI / 2.0
  const FULL_TURN: real := 2.0 * PI

  /**
   * Python's float `x % (2 * math.pi)`: the result takes the sign of the
   * modulus, so it lies in [0, 2 pi).
   */
  function FMod(x: real): (r: real)
    ensures 0.0 <= r < FULL_TURN
  {
    x - (x / FULL_TURN).Floor as real * FULL_TURN
  }

  /** Shifting by a whole number of turns does not change the remainder. */
  lemma FModPeriodic(x: real, k: int)
    ensures FMod(x - k as real * FULL_TURN) == FMod(x)
  {
    var y := x - k as real * FULL_TURN;
    var q := (x / FULL_TURN).Floor;
    assert y / FULL_TURN == x / FULL_TURN - k as real;
    assert (y / FULL_TURN).Floor == q - k;
    assert FMod(y) == y - (q - k) as real * FULL_TURN;
    assert (q - k) as real * FULL_TURN == q as real * FULL_TURN - k as real * FULL_TURN;
    assert FMod(y) == x - q as real * FULL_TURN;
  }

  /** The remainder of a remainder plus a step is the remainder of the sum. */
  lemma FModAdd(x: real, b: real)
    ensures FMod(FMod(x) + b) == FMod(x + b)
  {
    var q := (x / FULL_TURN).Floor;
    assert FMod(x) + b == (x + b) - q as real * FULL_TURN;
    FModPeriodic(x + b, q);
  }

  /** `(theta + ROTATION) % (2 * math.pi)`. */
  function RotateTheta(theta: real): real
  {
    FMod(theta + ROTATION)
  }

  /** Four quarter turns bring every angle back to itself modulo a full turn. */
  lemma FourTurns(theta: real)
    ensures RotateTheta(RotateTheta(RotateTheta(RotateTheta(theta)))) == FMod(theta)
  {
    var t1, t2, t3 := theta + ROTATION, theta + 2.0 * ROTATION, theta + 3.0 * ROTATION;
    calc {
      RotateTheta(RotateTheta(RotateTheta(RotateTheta(theta))));
    ==  { FModAdd(t1, ROTATION); assert t1 + ROTATION == t2; }
      RotateTheta(RotateTheta(FMod(t2)));
    ==  { FModAdd(t2, ROTATION); assert t2 + ROTATION == t3; }
      RotateTheta(FMod(t3));
    ==  { FModAdd(t3, ROTATION); assert t3 + ROTATION == theta + FULL_TURN; }
      FMod(theta + FULL_TURN);
    ==  { FModPeriodic(theta + FULL_TURN, 1); assert theta + FULL_TURN - 1 as real * FULL_TURN == theta; }
      FMod(theta);
    }
  }

  /** An angle in [0, 3 pi / 2) just gains pi/2. */
  lemma RotateWithoutWrap(theta: real)
    requires 0.0 <= theta < 3.0 * PI / 2.0
    ensures RotateTheta(theta) == theta + ROTATION
  {
    FModPeriodic(theta + ROTATION, 0);
    assert ((theta + ROTATION) / FULL_TURN).Floor == 0;
  }

  /**
   * The new dict for one LED: id and phi copied, theta rotated, nothing
   * else kept.  None when the entry is not a dict, lacks a key, or its
   * theta is not a number.
   */
  function RotateEntry(led: Json): Option<Json>
  {
    if !led.JObject? || "id" !in led.fields || "theta" !in led.fields || "phi" !in led.fields then None
    else
      var theta := AsReal(led.fields["theta"]);
      if theta.None? then None
      else Some(JObject(map["id" := led.fields["id"], "theta" := JNum(RotateTheta(theta.value)), "phi" := led.fields["phi"]]))
  }

  /** A rotated entry has exactly the three keys, the same id and phi, and a theta in [0, 2 pi). */
  lemma RotateEntryEffect(led: Json)
    requires RotateEntry(led).Some?
    ensures var r := RotateEntry(led).value;
      r.JObject? && r.fields.Keys == {"id", "theta", "phi"} &&
      r.fields["id"] == led.fields["id"] && r.fields["phi"] == led.fields["phi"] &&
      r.fields["theta"].JNum? && 0.0 <= r.fields["theta"].x < FULL_TURN
  {
  }

  /** `rotate_coordinates`: one new entry per LED, in order. */
  method Rotate(ledData: seq<Json>) returns (rotated: Option<seq<Json>>)
    ensures rotated.Some? <==> forall k :: 0 <= k < |ledData| ==> RotateEntry(ledData[k]).Some?
    ensures rotated.Some? ==> |rotated.value| == |ledData|
    ensures rotated.Some? ==> forall k :: 0 <= k < |ledData| ==> rotated.value[k] == RotateEntry(ledData[k]).value
  {
    var out: seq<Json> := [];
    for k := 0 to |ledData|
      invariant |out| == k
      invariant forall j :: 0 <= j < k ==> RotateEntry(ledData[j]).Some? && out[j] == RotateEntry(ledData[j]).value
    {
      var entry := RotateEntry(ledData[k]);
      if entry.None? {
        return None;
      }
      out := out + [entry.value];
    }
    return Some(out);
  }
}
