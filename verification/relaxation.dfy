/** The record-normalisation layer of `BMRBFetcher.parse_relaxation_data`:
    an archive entry becomes four ordered measurement lists (R1, R2, NOE,
    cross-correlation). A section, a loop's `data` or a numeric field that is
    absent is skipped or defaulted; anything present but malformed aborts the
    whole entry.

    Simplification of Python's duck typing: the source also "works" on some
    wrongly shaped values (`'data' in loop` is a substring test when the loop
    is a string, iterating a dict yields its keys, `'key' in entry` is an
    element test when the entry is a list). Here a section that is not an
    array, a loop that is not an object, a `data` value that is not an array
    and a truthy entry that is not an object all count as malformed and abort
    the call. A row that is not an object aborts, as `row.get` does in Python. */
module Relaxation {
  import opened Wrappers
  import opened JsonValues

  /** The four relaxation observables, in the order the source walks them. */
  datatype Kind = R1 | R2 | NOE | CCR

  /** The top-level section of an archive entry that holds each observable. */
  function SectionKey(k: Kind): string {
    match k
    case R1 => "heteronucl_T1_relaxation"
    case R2 => "heteronucl_T2_relaxation"
    case NOE => "heteronucl_NOEs"
    case CCR => "cross_correlation_DD_CSA"
  }

  const DataKey := "data"
  const ResidueKey := "Comp_index_ID"
  const AtomKey := "Atom_ID"
  const RexTypeKey := "Rex_type"
  const ValueKey := "Val"
  const ErrorKey := "Val_err"

  /** Label defaults. These are domain conventions of the source, not schema
      defaults: relaxation is measured on the backbone amide nitrogen unless a
      row says otherwise, and a cross-correlation row is dipole/CSA by default. */
  const DefaultAtom := "N"
  const DefaultRexType := "DD_CSA"

  /** One normalised row. R1, R2 and NOE rows carry an atom label, CCR rows a
      relaxation subtype; the residue and label are copied from the row
      unconverted (`JNull` when absent). */
  datatype Measurement =
    | Nuclear(residue: Json, atom: Json, value: real, error: real)
    | CrossCorrelated(residue: Json, rexType: Json, value: real, error: real)

  datatype RecordSet = RecordSet(
    bmrbId: int,
    r1: seq<Measurement>,
    r2: seq<Measurement>,
    noe: seq<Measurement>,
    ccr: seq<Measurement>)
  {
    function List(k: Kind): seq<Measurement> {
      match k
      case R1 => r1
      case R2 => r2
      case NOE => noe
      case CCR => ccr
    }
  }

  /** Python's `float(x)` on a JSON value. The grammar of numeric strings is
      Python's, and is left to the `parseFloat` parameter. */
  function ToNumber(j: Json, parseFloat: string -> Option<real>): (r: Option<real>)
    ensures j.JNull? || j.JArr? || j.JObj? ==> r == None
    ensures j.JNum? ==> r == Some(j.n)
    // `float(True)` is 1.0 and `float(False)` is 0.0
    ensures j.JBool? ==> r == Some(if j.b then 1.0 else 0.0)
    // a string goes through Python's own float grammar
    ensures j.JStr? ==> r == parseFloat(j.s)
  {
    match j
    case JNull => None
    case JBool(b) => Some(if b then 1.0 else 0.0)
    case JNum(n) => Some(n)
    case JStr(s) => parseFloat(s)
    case JArr(_) => None
    case JObj(_) => None
  }

  /** `float(row.get(key, 0))`. */
  function NumericField(fields: map<string, Json>, key: string, parseFloat: string -> Option<real>): Option<real> {
    ToNumber(Get(fields, key, JNum(0.0)), parseFloat)
  }

  /** One row of a loop's `data` becomes one measurement. */
  function ParseRow(k: Kind, row: Json, parseFloat: string -> Option<real>): (r: Option<Measurement>)
    // `row.get` on anything but a dict raises
    ensures !row.JObj? ==> r == None
    // a present null (or list, or dict) value or error aborts
    ensures row.JObj? && ValueKey in row.fields && ToNumber(row.fields[ValueKey], parseFloat).None? ==> r == None
    ensures row.JObj? && ErrorKey in row.fields && ToNumber(row.fields[ErrorKey], parseFloat).None? ==> r == None
    // absence never aborts: a row whose value and error are each absent or a number always converts
    ensures row.JObj?
            && (ValueKey !in row.fields || row.fields[ValueKey].JNum?)
            && (ErrorKey !in row.fields || row.fields[ErrorKey].JNum?)
            ==> r.Some?
    ensures r.Some? ==> row.JObj?
    // exactly those rows convert: a dict whose present value and error both coerce
    ensures r.Some? <==> && row.JObj?
                         && (ValueKey !in row.fields || ToNumber(row.fields[ValueKey], parseFloat).Some?)
                         && (ErrorKey !in row.fields || ToNumber(row.fields[ErrorKey], parseFloat).Some?)
    ensures r.Some? ==> (k == CCR <==> r.value.CrossCorrelated?)
    // the residue is passed through unconverted, null when absent
    ensures r.Some? && ResidueKey in row.fields ==> r.value.residue == row.fields[ResidueKey]
    ensures r.Some? && ResidueKey !in row.fields ==> r.value.residue == JNull
    // labels are copied when present and defaulted when absent
    ensures r.Some? && k != CCR && AtomKey in row.fields ==> r.value.atom == row.fields[AtomKey]
    ensures r.Some? && k != CCR && AtomKey !in row.fields ==> r.value.atom == JStr(DefaultAtom)
    ensures r.Some? && k == CCR && RexTypeKey in row.fields ==> r.value.rexType == row.fields[RexTypeKey]
    ensures r.Some? && k == CCR && RexTypeKey !in row.fields ==> r.value.rexType == JStr(DefaultRexType)
    // missing numbers are zero, numbers are kept
    ensures r.Some? && ValueKey !in row.fields ==> r.value.value == 0.0
    ensures r.Some? && ErrorKey !in row.fields ==> r.value.error == 0.0
    ensures r.Some? && ValueKey in row.fields && row.fields[ValueKey].JNum? ==> r.value.value == row.fields[ValueKey].n
    ensures r.Some? && ErrorKey in row.fields && row.fields[ErrorKey].JNum? ==> r.value.error == row.fields[ErrorKey].n
    // a present value or error is its `float()` coercion, whatever its type
    ensures r.Some? && ValueKey in row.fields ==> r.value.value == ToNumber(row.fields[ValueKey], parseFloat).value
    ensures r.Some? && ErrorKey in row.fields ==> r.value.error == ToNumber(row.fields[ErrorKey], parseFloat).value
  {
    if !row.JObj? then None
    else
      var fields := row.fields;
      var residue := Get(fields, ResidueKey, JNull);
      var value :- NumericField(fields, ValueKey, parseFloat);
      var error :- NumericField(fields, ErrorKey, parseFloat);
      if k == CCR then
        Some(CrossCorrelated(residue, Get(fields, RexTypeKey, JStr(DefaultRexType)), value, error))
      else
        Some(Nuclear(residue, Get(fields, AtomKey, JStr(DefaultAtom)), value, error))
  }

  /** The rows of one loop's `data`, converted in order; one bad row aborts. */
  function ParseRows(k: Kind, rows: seq<Json>, parseFloat: string -> Option<real>): (r: Option<seq<Measurement>>)
    ensures r.Some? <==> forall i :: 0 <= i < |rows| ==> ParseRow(k, rows[i], parseFloat).Some?
    ensures r.Some? ==> |r.value| == |rows|
    ensures r.Some? ==> forall i :: 0 <= i < |rows| ==> r.value[i] == ParseRow(k, rows[i], parseFloat).value
    decreases |rows|
  {
    if |rows| == 0 then Some([])
    else
      var init, last := ParseRows(k, rows[..|rows| - 1], parseFloat), ParseRow(k, rows[|rows| - 1], parseFloat);
      assert forall i :: 0 <= i < |rows| - 1 ==> rows[..|rows| - 1][i] == rows[i];
      if init.None? || last.None? then None else Some(init.value + [last.value])
  }

  /** The shape a loop must have for the walk to go on past it: an object
      whose `data`, if present, is an array. */
  predicate LoopWellShaped(loop: Json) {
    loop.JObj? && (DataKey in loop.fields ==> loop.fields[DataKey].JArr?)
  }

  /** The rows a loop contributes: its `data`, or nothing. */
  function DataRows(loop: Json): seq<Json> {
    if loop.JObj? && DataKey in loop.fields && loop.fields[DataKey].JArr? then loop.fields[DataKey].items else []
  }

  /** All rows of a section's loops, in document order: the reference
      against which the fused walk below is proved. */
  function SectionRows(loops: seq<Json>): seq<Json>
    decreases |loops|
  {
    if |loops| == 0 then [] else SectionRows(loops[..|loops| - 1]) + DataRows(loops[|loops| - 1])
  }

  /** One loop: skipped without `data`, otherwise all of its rows. */
  function ParseLoop(k: Kind, loop: Json, parseFloat: string -> Option<real>): (r: Option<seq<Measurement>>)
    ensures r == if LoopWellShaped(loop) then ParseRows(k, DataRows(loop), parseFloat) else None
    ensures loop.JObj? && DataKey !in loop.fields ==> r == Some([])
  {
    if !loop.JObj? then None
    else if DataKey !in loop.fields then Some([])
    else
      var data := loop.fields[DataKey];
      if !data.JArr? then None else ParseRows(k, data.items, parseFloat)
  }

  /** The loops of one section, concatenated in order; one bad loop aborts. */
  function ParseLoops(k: Kind, loops: seq<Json>, parseFloat: string -> Option<real>): (r: Option<seq<Measurement>>)
    ensures r.Some? <==> forall i :: 0 <= i < |loops| ==> ParseLoop(k, loops[i], parseFloat).Some?
    // one record per row of every `data` array: the sum of their lengths
    ensures r.Some? ==> |r.value| == |SectionRows(loops)|
    decreases |loops|
  {
    if |loops| == 0 then Some([])
    else
      var init, last := ParseLoops(k, loops[..|loops| - 1], parseFloat), ParseLoop(k, loops[|loops| - 1], parseFloat);
      assert forall i :: 0 <= i < |loops| - 1 ==> loops[..|loops| - 1][i] == loops[i];
      if init.None? || last.None? then None else Some(init.value + last.value)
  }

  /** The loops of kind `k`'s section, or none when the section is absent or
      not an array. */
  function SectionLoops(k: Kind, fields: map<string, Json>): seq<Json> {
    if SectionKey(k) in fields && fields[SectionKey(k)].JArr? then fields[SectionKey(k)].items else []
  }

  /** One observable's section: an absent key is an empty list. */
  function ParseSection(k: Kind, fields: map<string, Json>, parseFloat: string -> Option<real>): (r: Option<seq<Measurement>>)
    ensures SectionKey(k) !in fields ==> r == Some([])
    ensures SectionKey(k) in fields && !fields[SectionKey(k)].JArr? ==> r == None
    ensures r.Some? ==> |r.value| == |SectionRows(SectionLoops(k, fields))|
  {
    if SectionKey(k) !in fields then Some([])
    else
      var section := fields[SectionKey(k)];
      if !section.JArr? then None else ParseLoops(k, section.items, parseFloat)
  }

  /** The record set built from the four converted sections has each of
      them as the list of its kind. */
  lemma RecordSetHoldsSections(fields: map<string, Json>, parseFloat: string -> Option<real>, records: RecordSet)
    requires ParseSection(R1, fields, parseFloat) == Some(records.r1)
    requires ParseSection(R2, fields, parseFloat) == Some(records.r2)
    requires ParseSection(NOE, fields, parseFloat) == Some(records.noe)
    requires ParseSection(CCR, fields, parseFloat) == Some(records.ccr)
    ensures forall k :: ParseSection(k, fields, parseFloat) == Some(records.List(k))
  {
    forall k ensures ParseSection(k, fields, parseFloat) == Some(records.List(k)) {
      match k
      case R1 =>
      case R2 =>
      case NOE =>
      case CCR =>
    }
  }

  /** `parse_relaxation_data(entry_data, bmrb_id)`. */
  function ParseRelaxationData(entry: Json, bmrbId: int, parseFloat: string -> Option<real>): (r: Option<RecordSet>)
    // a falsy entry (None, {}, ...) gives None before any field is looked at
    ensures !Truthy(entry) ==> r == None
    ensures r.Some? ==> r.value.bmrbId == bmrbId
    // all or nothing: a result exactly when every section converts
    ensures r.Some? <==> Truthy(entry) && entry.JObj? && forall k :: ParseSection(k, entry.fields, parseFloat).Some?
    ensures r.Some? ==> forall k :: ParseSection(k, entry.fields, parseFloat) == Some(r.value.List(k))
    // an absent section is an empty list
    ensures r.Some? ==> forall k :: SectionKey(k) !in entry.fields ==> r.value.List(k) == []
  {
    if !Truthy(entry) || !entry.JObj? then None
    else
      var fields := entry.fields;
      var r1, r2 := ParseSection(R1, fields, parseFloat), ParseSection(R2, fields, parseFloat);
      var noe, ccr := ParseSection(NOE, fields, parseFloat), ParseSection(CCR, fields, parseFloat);
      if r1.None? || r2.None? || noe.None? || ccr.None? then None
      else
        var records := RecordSet(bmrbId, r1.value, r2.value, noe.value, ccr.value);
        RecordSetHoldsSections(fields, parseFloat, records);
        Some(records)
  }
}
