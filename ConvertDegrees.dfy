/**
 * convert_degrees_to_radians.py: convert the theta and phi of every layout
 * entry from degrees to radians, in place, and write the table out.  The
 * parsed file is a parameter; the result is the path and table written,
 * or None when nothing is written (the data is not a list, or an entry
 * makes the loop raise).
 */
module ConvertDegrees {
  import opened Options
  import opened Json
  import opened Angles

  /**
   * One entry.  `"theta" in led and "phi" in led` is key membership for a
   * dict, substring search for a string and element search for a list, and
   * raises for anything else; indexing a string or list by "theta" raises,
   * as does `math.radians` of a non-number.
   */
  function ConvertEntry(led: Json): Option<Json>
  {
    match led
    case JObject(fields) =>
      if "theta" in fields && "phi" in fields then
        var theta := AsReal(fields["theta"]);
        var phi := AsReal(fields["phi"]);
        if theta.None? || phi.None? then None
        else Some(JObject(fields["theta" := JNum(Radians(theta.value))]["phi" := JNum(Radians(phi.value))]))
      else Some(led)
    case JStr(s) => if Contains(s, "theta") && Contains(s, "phi") then None else Some(led)
    case JList(items) => if JStr("theta") in items && JStr("phi") in items then None else Some(led)
    case _ => None
  }

  /**
   * A converted dict keeps its keys and every other field; both angles
   * become numbers that convert back to the degrees they came from.  An
   * entry without both keys is left as it was.
   */
  lemma ConvertEntryEffect(led: Json)
    requires ConvertEntry(led).Some?
    ensures var c := ConvertEntry(led).value;
      (led.JObject? && "theta" in led.fields && "phi" in led.fields ==>
        c.JObject? && c.fields.Keys == led.fields.Keys &&
        (forall key :: key in c.fields && key != "theta" && key != "phi" ==> c.fields[key] == led.fields[key]) &&
        c.fields["theta"].JNum? && Some(Degrees(c.fields["theta"].x)) == AsReal(led.fields["theta"]) &&
        c.fields["phi"].JNum? && Some(Degrees(c.fields["phi"].x)) == AsReal(led.fields["phi"])) &&
      (!(led.JObject? && "theta" in led.fields && "phi" in led.fields) ==> c == led)
  {
    if led.JObject? && "theta" in led.fields && "phi" in led.fields {
      DegreesOfRadians(AsReal(led.fields["theta"]).value);
      DegreesOfRadians(AsReal(led.fields["phi"]).value);
    }
  }

  /** `output_file or input_file`: a missing or empty output path means the input path. */
  function OutputPath(inputFile: string, outputFile: Option<string>): (p: string)
    ensures outputFile.Some? && outputFile.value != [] ==> p == outputFile.value
    ensures outputFile.None? || outputFile.value == [] ==> p == inputFile
  {
    if outputFile.Some? && outputFile.value != [] then outputFile.value else inputFile
  }

  /** `deg_to_rad_layout`: the list's entries converted one by one, in place. */
  method DegToRadLayout(data: Json, inputFile: string, outputFile: Option<string>)
    returns (written: Option<(string, Json)>)
    ensures !data.JList? ==> written.None?
    ensures data.JList? ==> (written.Some? <==> forall k :: 0 <= k < |data.items| ==> ConvertEntry(data.items[k]).Some?)
    ensures written.Some? ==> written.value.0 == OutputPath(inputFile, outputFile)
    ensures written.Some? ==> written.value.1.JList? && |written.value.1.items| == |data.items|
    ensures written.Some? ==> forall k :: 0 <= k < |data.items| ==> written.value.1.items[k] == ConvertEntry(data.items[k]).value
  {
    if !data.JList? {
      return None;
    }
    var leds := data.items;
    var k := 0;
    while k < |leds|
      invariant 0 <= k <= |leds| == |data.items|
      invariant forall j :: 0 <= j < k ==> ConvertEntry(data.items[j]).Some? && leds[j] == ConvertEntry(data.items[j]).value
      invariant forall j :: k <= j < |leds| ==> leds[j] == data.items[j]
    {
      var converted := ConvertEntry(leds[k]);
      if converted.None? {
        return None;
      }
      leds := leds[k := converted.value];
      k := k + 1;
    }
    var outFile := if outputFile.Some? && outputFile.value != [] then outputFile.value else inputFile;
    return Some((outFile, JList(leds)));
  }
}
