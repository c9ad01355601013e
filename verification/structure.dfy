/** `BMRBFetcher.get_pdb_structure`: the accession code of the first
    cross-reference row that names the PDB. The lookup is fully lenient:
    every exception is caught, so failure and absence both give `None`
    (`JNull`). */
module Structure {
  import opened JsonValues

  const RelatedKey := "related_entries"
  const DatabaseNameKey := "Database_name"
  const AccessionKey := "Database_accession_code"
  const TargetDatabase := "PDB"

  /** `row.get('Database_name') == 'PDB'` on a dict row. */
  predicate NamesPdb(row: Json) {
    row.JObj? && Get(row.fields, DatabaseNameKey, JNull) == JStr(TargetDatabase)
  }

  /** The scan over `related_entries`. The first row naming the PDB decides,
      even when it has no accession code. A row that is not a dict makes
      `row.get` raise before any later row is seen; the exception is caught
      and the answer is `None`. */
  function FirstPdbCode(rows: seq<Json>): (r: Json)
    ensures r != JNull ==>
              exists i :: 0 <= i < |rows| && NamesPdb(rows[i])
                          && AccessionKey in rows[i].fields && r == rows[i].fields[AccessionKey]
                          && forall j :: 0 <= j < i ==> rows[j].JObj? && !NamesPdb(rows[j])
    decreases |rows|
  {
    if |rows| == 0 then JNull
    else if !rows[0].JObj? then JNull
    else if NamesPdb(rows[0]) then Get(rows[0].fields, AccessionKey, JNull)
    else FirstPdbCode(rows[1..])
  }

  /** `get_pdb_structure(entry_data)`. Any entry that is not a dict either
      lacks the key or raises on it (a null entry, a number, a list or string
      indexed by a string), and a `related_entries` value that is not a list
      either yields no dict rows or raises; all of these give `None`. */
  function GetPdbStructure(entry: Json): (r: Json)
    ensures !entry.JObj? ==> r == JNull
    ensures entry.JObj? && RelatedKey !in entry.fields ==> r == JNull
    ensures entry.JObj? && RelatedKey in entry.fields && !entry.fields[RelatedKey].JArr? ==> r == JNull
    ensures r != JNull ==>
              exists i :: 0 <= i < |entry.fields[RelatedKey].items| && NamesPdb(entry.fields[RelatedKey].items[i])
                          && AccessionKey in entry.fields[RelatedKey].items[i].fields
                          && r == entry.fields[RelatedKey].items[i].fields[AccessionKey]
                          && forall j :: 0 <= j < i ==>
                               entry.fields[RelatedKey].items[j].JObj? && !NamesPdb(entry.fields[RelatedKey].items[j])
  {
    if entry.JObj? && RelatedKey in entry.fields && entry.fields[RelatedKey].JArr? then
      FirstPdbCode(entry.fields[RelatedKey].items)
    else
      JNull
  }

  /** The first row that names the PDB decides the answer, provided every
      earlier row is a dict that names something else. */
  lemma {:induction false} FirstMatchDecides(rows: seq<Json>, i: int)
    requires 0 <= i < |rows|
    requires forall j :: 0 <= j < i ==> rows[j].JObj? && !NamesPdb(rows[j])
    requires NamesPdb(rows[i])
    ensures FirstPdbCode(rows) == Get(rows[i].fields, AccessionKey, JNull)
    decreases i
  {
    if i > 0 {
      assert rows[0].JObj? && !NamesPdb(rows[0]);
      assert forall j :: 0 <= j < i - 1 ==> rows[1..][j] == rows[j + 1];
      FirstMatchDecides(rows[1..], i - 1);
    }
  }

  /** The same at the level of the entry: in a dict entry whose
      `related_entries` is a list, the first row naming the PDB, preceded
      only by dicts that name other databases, gives the answer. */
  lemma EntryFirstMatchDecides(entry: Json, i: int)
    requires entry.JObj? && RelatedKey in entry.fields && entry.fields[RelatedKey].JArr?
    requires 0 <= i < |entry.fields[RelatedKey].items|
    requires forall j :: 0 <= j < i ==>
               entry.fields[RelatedKey].items[j].JObj? && !NamesPdb(entry.fields[RelatedKey].items[j])
    requires NamesPdb(entry.fields[RelatedKey].items[i])
    ensures GetPdbStructure(entry) == Get(entry.fields[RelatedKey].items[i].fields, AccessionKey, JNull)
  {
    FirstMatchDecides(entry.fields[RelatedKey].items, i);
  }

  /** Without a row that names the PDB there is no answer. This and the
      next lemma follow from the contract of `FirstPdbCode`. */
  lemma NoMatchGivesNull(rows: seq<Json>)
    requires forall i :: 0 <= i < |rows| ==> !NamesPdb(rows[i])
    ensures FirstPdbCode(rows) == JNull
  {
  }

  /** A row that is not a dict, met before any match, ends the scan with no
      answer even if a later row names the PDB. */
  lemma BadRowBeforeMatchGivesNull(rows: seq<Json>, i: int)
    requires 0 <= i < |rows|
    requires forall j :: 0 <= j < i ==> rows[j].JObj? && !NamesPdb(rows[j])
    requires !rows[i].JObj?
    ensures FirstPdbCode(rows) == JNull
  {
  }
}
