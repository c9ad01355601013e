/** Properties of the normaliser: the fused walk of `Relaxation` agrees with
    a two-phase reference (collect a section's rows in document order, then
    convert each row), absence is skipped while malformation anywhere aborts
    the whole entry, and sections do not influence one another. */
module RelaxationProperties {
  import opened Wrappers
  import opened JsonValues
  import opened Relaxation

  /** The rows of kind `k`'s section, in document order. */
  function SectionRowsOf(k: Kind, fields: map<string, Json>): seq<Json> {
    SectionRows(SectionLoops(k, fields))
  }

  /** The section is absent, or an array of well-shaped loops. */
  ghost predicate SectionWellShaped(k: Kind, fields: map<string, Json>) {
    SectionKey(k) in fields ==>
      && fields[SectionKey(k)].JArr?
      && forall i :: 0 <= i < |fields[SectionKey(k)].items| ==> LoopWellShaped(fields[SectionKey(k)].items[i])
  }

  /** Declarative reference: the section has the expected shape and every
      one of its rows converts. */
  ghost predicate SectionConverts(k: Kind, fields: map<string, Json>, parseFloat: string -> Option<real>) {
    && SectionWellShaped(k, fields)
    && forall j :: 0 <= j < |SectionRowsOf(k, fields)| ==> ParseRow(k, SectionRowsOf(k, fields)[j], parseFloat).Some?
  }

  /** Converting two runs of rows one after the other is converting their
      concatenation. */
  lemma {:induction false} ParseRowsAppend(k: Kind, a: seq<Json>, b: seq<Json>, parseFloat: string -> Option<real>)
    ensures ParseRows(k, a + b, parseFloat)
            == if ParseRows(k, a, parseFloat).Some? && ParseRows(k, b, parseFloat).Some?
               then Some(ParseRows(k, a, parseFloat).value + ParseRows(k, b, parseFloat).value)
               else None
    decreases |b|
  {
    if |b| == 0 {
      assert a + b == a;
      if ParseRows(k, a, parseFloat).Some? {
        assert ParseRows(k, a, parseFloat).value + [] == ParseRows(k, a, parseFloat).value;
      }
    } else {
      var init, last := b[..|b| - 1], b[|b| - 1];
      assert (a + b)[..|a + b| - 1] == a + init;
      assert (a + b)[|a + b| - 1] == last;
      ParseRowsAppend(k, a, init, parseFloat);
      if ParseRows(k, a, parseFloat).Some? && ParseRows(k, b, parseFloat).Some? {
        var ra, ri := ParseRows(k, a, parseFloat).value, ParseRows(k, init, parseFloat).value;
        var x := ParseRow(k, last, parseFloat).value;
        assert ra + ri + [x] == ra + (ri + [x]);
      }
    }
  }

  /** The fused walk over a section's loops is "collect every loop's rows in
      order, then convert them", provided every loop is well shaped, and
      aborts otherwise. */
  lemma {:induction false} ParseLoopsIsConvertedRows(k: Kind, loops: seq<Json>, parseFloat: string -> Option<real>)
    ensures ParseLoops(k, loops, parseFloat)
            == if forall i :: 0 <= i < |loops| ==> LoopWellShaped(loops[i])
               then ParseRows(k, SectionRows(loops), parseFloat)
               else None
    decreases |loops|
  {
    if |loops| > 0 {
      var init, last := loops[..|loops| - 1], loops[|loops| - 1];
      ParseLoopsIsConvertedRows(k, init, parseFloat);
      ParseRowsAppend(k, SectionRows(init), DataRows(last), parseFloat);
      if forall i :: 0 <= i < |loops| ==> LoopWellShaped(loops[i]) {
        assert forall i :: 0 <= i < |init| ==> LoopWellShaped(init[i]) by {
          forall i | 0 <= i < |init| ensures LoopWellShaped(init[i]) {
            assert init[i] == loops[i];
          }
        }
        assert LoopWellShaped(last);
      } else {
        var i :| 0 <= i < |loops| && !LoopWellShaped(loops[i]);
        if i < |init| {
          assert init[i] == loops[i];
        }
      }
    }
  }

  /** The same at the level of one section of the entry. */
  lemma ParseSectionIsConvertedRows(k: Kind, fields: map<string, Json>, parseFloat: string -> Option<real>)
    ensures ParseSection(k, fields, parseFloat)
            == if SectionWellShaped(k, fields) then ParseRows(k, SectionRowsOf(k, fields), parseFloat) else None
  {
    if SectionKey(k) in fields && fields[SectionKey(k)].JArr? {
      ParseLoopsIsConvertedRows(k, fields[SectionKey(k)].items, parseFloat);
    }
  }

  /** A section converts exactly when the declarative reference says so. */
  lemma ParseSectionMeetsReference(k: Kind, fields: map<string, Json>, parseFloat: string -> Option<real>)
    ensures ParseSection(k, fields, parseFloat).Some? <==> SectionConverts(k, fields, parseFloat)
  {
    ParseSectionIsConvertedRows(k, fields, parseFloat);
  }

  /** All or nothing: the entry yields a record set exactly when it is a
      truthy object and every one of the four sections converts. */
  lemma EntryConvertsIffEverySectionDoes(entry: Json, bmrbId: int, parseFloat: string -> Option<real>)
    ensures ParseRelaxationData(entry, bmrbId, parseFloat).Some?
            <==> Truthy(entry) && entry.JObj? && forall k :: SectionConverts(k, entry.fields, parseFloat)
  {
    if entry.JObj? {
      forall k ensures ParseSection(k, entry.fields, parseFloat).Some? <==> SectionConverts(k, entry.fields, parseFloat) {
        ParseSectionMeetsReference(k, entry.fields, parseFloat);
      }
    }
  }

  /** Order and count: each list holds exactly one record per row of its
      section, the i-th record coming from the i-th row in document order. */
  lemma RecordsFollowRowOrder(entry: Json, bmrbId: int, parseFloat: string -> Option<real>, k: Kind)
    ensures var r := ParseRelaxationData(entry, bmrbId, parseFloat);
            r.Some? ==> && entry.JObj?
                        && |r.value.List(k)| == |SectionRowsOf(k, entry.fields)|
                        && forall j :: 0 <= j < |SectionRowsOf(k, entry.fields)| ==>
                             Some(r.value.List(k)[j]) == ParseRow(k, SectionRowsOf(k, entry.fields)[j], parseFloat)
  {
    if entry.JObj? {
      ParseSectionIsConvertedRows(k, entry.fields, parseFloat);
    }
  }

  /** A single row anywhere that does not convert (a `Val` or `Val_err` that
      is null or not numeric, a row that is not an object) discards the
      records of every kind. */
  lemma MalformedRowAbortsEntry(entry: Json, bmrbId: int, parseFloat: string -> Option<real>, k: Kind, j: int)
    requires entry.JObj?
    requires 0 <= j < |SectionRowsOf(k, entry.fields)|
    requires ParseRow(k, SectionRowsOf(k, entry.fields)[j], parseFloat).None?
    ensures ParseRelaxationData(entry, bmrbId, parseFloat) == None
  {
    ParseSectionMeetsReference(k, entry.fields, parseFloat);
  }

  /** A present section that is not an array, or that holds a loop of the
      wrong shape, discards the records of every kind. */
  lemma MalformedSectionAbortsEntry(entry: Json, bmrbId: int, parseFloat: string -> Option<real>, k: Kind)
    requires entry.JObj?
    requires !SectionWellShaped(k, entry.fields)
    ensures ParseRelaxationData(entry, bmrbId, parseFloat) == None
  {
  }

  /** The four section keys are distinct. */
  lemma SectionKeysDistinct(k: Kind, k': Kind)
    requires k != k'
    ensures SectionKey(k) != SectionKey(k')
  {
  }

  /** Independence: removing one kind's section leaves that list empty and
      every other list as it was, and the entry converts exactly when the
      rest does and the removed section did. (The rest must still be a
      non-empty object: an entry reduced to `{}` is falsy.) */
  lemma DroppedSectionLeavesOthersUnchanged(entry: Json, bmrbId: int, parseFloat: string -> Option<real>, k: Kind)
    requires entry.JObj?
    requires Truthy(JObj(entry.fields - {SectionKey(k)}))
    ensures var rest := ParseRelaxationData(JObj(entry.fields - {SectionKey(k)}), bmrbId, parseFloat);
            rest.Some? ==> rest.value.List(k) == []
    ensures var rest := ParseRelaxationData(JObj(entry.fields - {SectionKey(k)}), bmrbId, parseFloat);
            ParseRelaxationData(entry, bmrbId, parseFloat).Some?
            <==> rest.Some? && ParseSection(k, entry.fields, parseFloat).Some?
    ensures var full := ParseRelaxationData(entry, bmrbId, parseFloat);
            var rest := ParseRelaxationData(JObj(entry.fields - {SectionKey(k)}), bmrbId, parseFloat);
            full.Some? ==> forall k' :: k' != k ==> full.value.List(k') == rest.value.List(k')
  {
    var fields := entry.fields;
    var restFields := fields - {SectionKey(k)};
    var key :| key in restFields;
    assert key in fields;
    assert Truthy(entry);
    forall k' | k' != k
      ensures ParseSection(k', restFields, parseFloat) == ParseSection(k', fields, parseFloat)
    {
      SectionKeysDistinct(k, k');
    }
  }

  /** An entry holding one R1 row with residue 1, atom "N", value "1.2" and
      error "0.05", and no other section, gives exactly one R1 measurement
      and three empty lists. */
  lemma SingleR1RowExample(bmrbId: int, parseFloat: string -> Option<real>)
    requires parseFloat("1.2") == Some(1.2) && parseFloat("0.05") == Some(0.05)
    ensures var row := JObj(map[ResidueKey := JNum(1.0), AtomKey := JStr("N"), ValueKey := JStr("1.2"), ErrorKey := JStr("0.05")]);
            var entry := JObj(map[SectionKey(R1) := JArr([JObj(map[DataKey := JArr([row])])])]);
            ParseRelaxationData(entry, bmrbId, parseFloat)
            == Some(RecordSet(bmrbId, [Nuclear(JNum(1.0), JStr("N"), 1.2, 0.05)], [], [], []))
  {
    var row := JObj(map[ResidueKey := JNum(1.0), AtomKey := JStr("N"), ValueKey := JStr("1.2"), ErrorKey := JStr("0.05")]);
    var loop := JObj(map[DataKey := JArr([row])]);
    var entry := JObj(map[SectionKey(R1) := JArr([loop])]);
    forall k | k != R1 ensures SectionKey(k) !in entry.fields {
      SectionKeysDistinct(R1, k);
    }
    assert ParseRow(R1, row, parseFloat) == Some(Nuclear(JNum(1.0), JStr("N"), 1.2, 0.05));
    var m := Nuclear(JNum(1.0), JStr("N"), 1.2, 0.05);
    var rows := ParseRows(R1, [row], parseFloat);
    assert [row][0] == row;
    assert rows.Some?;
    assert |rows.value| == 1;
    assert rows.value[0] == m;
    assert rows.value == [m];
    assert ParseLoop(R1, loop, parseFloat) == Some([Nuclear(JNum(1.0), JStr("N"), 1.2, 0.05)]);
    assert [loop][..0] == [];
    assert ParseSection(R1, entry.fields, parseFloat) == Some([Nuclear(JNum(1.0), JStr("N"), 1.2, 0.05)]);
  }
}
