/**
 * shift_coords.py: renumber the coordinate table to make room for LED 60,
 * moving every entry with id 60 or more up by one.  The entries are JSON
 * values; the parsed table is a parameter and the written table the result.
 * Anything that makes the loop raise ends the script before anything is
 * written (None).
 */
module ShiftCoords {
  import opened Options
  import opened Json

  const FIRST_SHIFTED: int := 60

  /** `entry["id"] += 1` when `entry["id"] >= 60`: None when the entry is not a dict, has no id, or the id is not a number. */
  function ShiftEntry(entry: Json): (r: Option<Json>)
  {
    if !entry.JObject? || "id" !in entry.fields then None
    else
      var id := entry.fields["id"];
      var x := AsReal(id);
      if x.None? then None
      else if x.value < FIRST_SHIFTED as real then Some(entry)
      else if id.JInt? then Some(JObject(entry.fields["id" := JInt(id.i + 1)]))
      else Some(JObject(entry.fields["id" := JNum(x.value + 1.0)]))
  }

  /** The numeric value of an entry's id, when it has one. */
  function IdValue(entry: Json): Option<real>
  {
    if entry.JObject? && "id" in entry.fields then AsReal(entry.fields["id"]) else None
  }

  /**
   * One entry: only the id changes, ids below 60 keep their value, others
   * grow by one.  Integer ids stay integers.
   */
  lemma ShiftEntryEffect(entry: Json)
    requires ShiftEntry(entry).Some?
    ensures var e := ShiftEntry(entry).value;
      e.JObject? && e.fields.Keys == entry.fields.Keys &&
      (forall key :: key in e.fields && key != "id" ==> e.fields[key] == entry.fields[key]) &&
      IdValue(entry).Some? && IdValue(e).Some? &&
      (IdValue(entry).value < 60.0 ==> e == entry) &&
      (IdValue(entry).value >= 60.0 ==> IdValue(e).value == IdValue(entry).value + 1.0) &&
      (entry.fields["id"].JInt? ==> e.fields["id"].JInt?)
  {
  }

  /** No shifted entry has id 60, and entries with different ids still differ. */
  lemma ShiftSeparates(a: Json, b: Json)
    requires ShiftEntry(a).Some? && ShiftEntry(b).Some?
    ensures IdValue(ShiftEntry(a).value) != Some(60.0)
    ensures IdValue(a) != IdValue(b) ==> IdValue(ShiftEntry(a).value) != IdValue(ShiftEntry(b).value)
  {
    ShiftEntryEffect(a);
    ShiftEntryEffect(b);
  }

  /**
   * `for entry in data:` over the loaded table.  A list is walked entry by
   * entry, keeping length and order.  A dict yields its keys and a string its
   * characters, and indexing either with "id" raises, so only an empty one is
   * written back unchanged; iterating a number, a bool or `None` raises.
   */
  method ShiftIds(data: Json) returns (written: Option<Json>)
    ensures data.JList? ==>
              (written.Some? <==> forall k :: 0 <= k < |data.items| ==> ShiftEntry(data.items[k]).Some?)
    ensures data.JList? && written.Some? ==>
              written.value.JList? && |written.value.items| == |data.items| &&
              forall k :: 0 <= k < |data.items| ==> written.value.items[k] == ShiftEntry(data.items[k]).value
    ensures data.JObject? || data.JStr? ==> written == (if Truthy(data) then None else Some(data))
    ensures data.JNull? || data.JBool? || data.JInt? || data.JNum? ==> written.None?
  {
    match data {
      case JList(items) =>
        var entries := items;
        var k := 0;
        while k < |entries|
          invariant 0 <= k <= |entries| == |items|
          invariant forall j :: 0 <= j < k ==> ShiftEntry(items[j]).Some? && entries[j] == ShiftEntry(items[j]).value
          invariant forall j :: k <= j < |items| ==> entries[j] == items[j]
        {
          var shifted := ShiftEntry(entries[k]);
          if shifted.None? {
            return None;
          }
          entries := entries[k := shifted.value];
          k := k + 1;
        }
        return Some(JList(entries));
      case JObject(fields) =>
        // the first key is a string, and `key["id"]` raises
        return if fields == map[] then Some(data) else None;
      case JStr(text) =>
        // the first character is a string, and `char["id"]` raises
        return if text == [] then Some(data) else None;
      case _ =>
        return None;
    }
  }

  /** Over a whole table: no entry ends with id 60 and distinct ids stay distinct. */
  lemma ShiftedTableIds(data: seq<Json>, out: seq<Json>)
    requires |out| == |data|
    requires forall k :: 0 <= k < |data| ==> ShiftEntry(data[k]) == Some(out[k])
    ensures forall k :: 0 <= k < |out| ==> IdValue(out[k]) != Some(60.0)
    ensures forall j, k :: 0 <= j < |data| && 0 <= k < |data| && IdValue(data[j]) != IdValue(data[k]) ==>
              IdValue(out[j]) != IdValue(out[k])
  {
    forall j, k | 0 <= j < |data| && 0 <= k < |data|
      ensures IdValue(out[j]) != Some(60.0)
      ensures IdValue(data[j]) != IdValue(data[k]) ==> IdValue(out[j]) != IdValue(out[k])
    {
      ShiftSeparates(data[j], data[k]);
    }
    forall k | 0 <= k < |out| ensures IdValue(out[k]) != Some(60.0) {
      ShiftSeparates(data[k], data[k]);
    }
  }
}
