/** The normaliser written the way the source runs it: nested loops that
    append one record per row to a growing list, leaving the call at the
    first malformed value (the `except` branch that returns `None`). It is
    proved to compute exactly the functional model of `Relaxation`. */
module RelaxationWalk {
  import opened Wrappers
  import opened JsonValues
  import opened Relaxation

  /** The innermost loop: appends one record per row of a `data` array to
      `records`. `ok` is false when a row did not convert. */
  method AppendRows(k: Kind, rows: seq<Json>, parseFloat: string -> Option<real>, records: seq<Measurement>)
    returns (ok: bool, out: seq<Measurement>)
    ensures ok <==> ParseRows(k, rows, parseFloat).Some?
    ensures ok ==> out == records + ParseRows(k, rows, parseFloat).value
  {
    out := records;
    var j := 0;
    while j < |rows|
      invariant 0 <= j <= |rows|
      invariant ParseRows(k, rows[..j], parseFloat).Some?
      invariant out == records + ParseRows(k, rows[..j], parseFloat).value
    {
      assert rows[..j + 1][..j] == rows[..j];
      var m := ParseRow(k, rows[j], parseFloat);
      if m.None? {
        return false, out;
      }
      out := out + [m.value];
      j := j + 1;
    }
    assert rows[..j] == rows;
    return true, out;
  }

  /** One more loop of the walk: the prefix up to `i + 1` is the prefix up to
      `i` followed by loop `i`. */
  lemma ParseLoopsExtend(k: Kind, loops: seq<Json>, i: int, parseFloat: string -> Option<real>)
    requires 0 <= i < |loops|
    ensures ParseLoops(k, loops[..i], parseFloat).Some? && ParseLoop(k, loops[i], parseFloat).Some? ==>
              ParseLoops(k, loops[..i + 1], parseFloat)
              == Some(ParseLoops(k, loops[..i], parseFloat).value + ParseLoop(k, loops[i], parseFloat).value)
  {
    assert loops[..i + 1][..i] == loops[..i];
  }

  /** The body of the loop over loops: a loop without `data` adds nothing,
      otherwise its rows are appended. */
  method AppendLoop(k: Kind, loop: Json, parseFloat: string -> Option<real>, records: seq<Measurement>)
    returns (ok: bool, out: seq<Measurement>)
    ensures ok <==> ParseLoop(k, loop, parseFloat).Some?
    ensures ok ==> out == records + ParseLoop(k, loop, parseFloat).value
  {
    if !loop.JObj? {
      return false, records;
    }
    if DataKey !in loop.fields {
      return true, records;
    }
    var data := loop.fields[DataKey];
    if !data.JArr? {
      return false, records;
    }
    ok, out := AppendRows(k, data.items, parseFloat, records);
  }

  /** The loop over a section's loops. `ok` is false when the walk hit a
      malformed loop or row. */
  method CollectLoops(k: Kind, loops: seq<Json>, parseFloat: string -> Option<real>)
    returns (ok: bool, records: seq<Measurement>)
    ensures ok <==> ParseLoops(k, loops, parseFloat).Some?
    ensures ok ==> records == ParseLoops(k, loops, parseFloat).value
  {
    records := [];
    var i := 0;
    while i < |loops|
      invariant 0 <= i <= |loops|
      invariant ParseLoops(k, loops[..i], parseFloat) == Some(records)
    {
      var loopOk;
      loopOk, records := AppendLoop(k, loops[i], parseFloat, records);
      if !loopOk {
        return false, records;
      }
      ParseLoopsExtend(k, loops, i, parseFloat);
      i := i + 1;
    }
    assert loops[..i] == loops;
    return true, records;
  }

  /** One kind's section: nothing when the key is absent, a malformed value
      when it is not an array, its loops otherwise. */
  method CollectSection(k: Kind, fields: map<string, Json>, parseFloat: string -> Option<real>)
    returns (ok: bool, records: seq<Measurement>)
    ensures ok <==> ParseSection(k, fields, parseFloat).Some?
    ensures ok ==> records == ParseSection(k, fields, parseFloat).value
  {
    if SectionKey(k) !in fields {
      return true, [];
    }
    var section := fields[SectionKey(k)];
    if !section.JArr? {
      return false, [];
    }
    ok, records := CollectLoops(k, section.items, parseFloat);
  }

  /** `parse_relaxation_data` as the source walks it: the four sections in
      turn, giving up on the whole entry at the first malformed value. */
  method NormaliseEntry(entry: Json, bmrbId: int, parseFloat: string -> Option<real>)
    returns (r: Option<RecordSet>)
    ensures r == ParseRelaxationData(entry, bmrbId, parseFloat)
  {
    if !Truthy(entry) || !entry.JObj? {
      return None;
    }
    var ok1, r1 := CollectSection(R1, entry.fields, parseFloat);
    if !ok1 {
      return None;
    }
    var ok2, r2 := CollectSection(R2, entry.fields, parseFloat);
    if !ok2 {
      return None;
    }
    var okNoe, noe := CollectSection(NOE, entry.fields, parseFloat);
    if !okNoe {
      return None;
    }
    var okCcr, ccr := CollectSection(CCR, entry.fields, parseFloat);
    if !okCcr {
      return None;
    }
    return Some(RecordSet(bmrbId, r1, r2, noe, ccr));
  }
}
