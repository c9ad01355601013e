# BMRB relaxation record normaliser in Dafny

This project models the record-normalisation layer of `BMRBFetcher`, the
fetcher for NMR relaxation data from the BMRB (Biological Magnetic Resonance
Data Bank). The model covers two operations:

- `parse_relaxation_data` turns a raw archive entry into four ordered
  measurement lists: R1, R2, heteronuclear NOE and cross-correlated
  relaxation (CCR). It also keeps the entry's identifier. It walks each
  observable's section loop by loop and row by row. A missing section, a
  loop without `data` and a missing field are all tolerated: they are
  skipped or given a default. A value that is present but malformed, found
  anywhere in the entry, makes the whole call return `None`.
- `get_pdb_structure` returns the accession code of the first
  `related_entries` row whose database is the PDB. It never fails visibly.

Files:

- `wrappers.dfy`: `Option`, which supports `:-`. A `None` result stands for
  Python's `None` and for an exception that the source catches.
- `json.dfy`: the `Json` documents that `json.load` produces, Python
  truthiness, and `dict.get`. `JNull` is Python's `None`. Integers and
  floats share one real-valued `JNum`.
- `relaxation.dfy`: the functional model of `parse_relaxation_data`. The
  label defaults `"N"` and `"DD_CSA"` are named constants.
- `relaxation_properties.dfy`: the properties of the normaliser. The fused
  walk is proved equal to a two-phase reference: first collect a section's
  rows in document order, then convert each one. The module also proves
  all-or-nothing aborts, independence between sections, and a single-row
  example.
- `relaxation_walk.dfy`: the source's own shape, nested loops that append
  records and return early on a failure. It is proved equal to the
  functional model.
- `structure.dfy`: `get_pdb_structure` and its first-match lemmas.

Some numbers arrive as strings, and Python's `float()` parses those with its
own grammar. The model takes that parser as a parameter,
`parseFloat: string -> Option<real>`. `ToNumber` covers the other cases.
Numbers are kept as they are, booleans become 1 or 0, and null, lists and
dicts fail.

Following the code as written has three consequences:

- A label that is present with a null value is copied as `JNull`. `row.get`
  only falls back to `"N"` or `"DD_CSA"` when the key is absent.
- The residue index is passed through unconverted. It is not coerced to an
  integer.
- Dropping a section leaves the other lists unchanged only while the rest
  of the entry is a non-empty dict. An entry that was reduced to `{}` is
  falsy, so it gives `None` (see `DroppedSectionLeavesOthersUnchanged`).

## Model

| member | source | states |
|---|---|---|
| Relaxation.ToNumber | bmrb_data_fetcher.py:90-91 | `float()` of a number is that number; `float()` of `True`/`False` is 1/0; a string goes through `float()`'s own grammar (the `parseFloat` parameter); `float()` of null, a list or a dict fails |
| Relaxation.ParseRow | bmrb_data_fetcher.py:86-92 | a row converts if and only if it is a dict whose present `Val` and `Val_err` both coerce with `float()`, so a null one aborts; a present `Val`/`Val_err` becomes its `float()` value and a missing one is 0; `Comp_index_ID` is copied unconverted and is null when absent; `Atom_ID` is copied when present and is `"N"` when absent; a CCR row gets `Rex_type`, or `"DD_CSA"` when absent (the same dict shape as lines 99-104, 111-116 and 123-128) |
| Relaxation.ParseRows | bmrb_data_fetcher.py:86-92 | the rows of one `data` list convert exactly when every row does; the i-th record comes from the i-th row; one record per row |
| Relaxation.ParseLoop | bmrb_data_fetcher.py:85-86 | a loop without `data` contributes nothing; a dict loop whose `data` is a list yields exactly the conversion of those rows; any other loop aborts |
| Relaxation.ParseLoops | bmrb_data_fetcher.py:84-92 | a section's loops convert exactly when every loop does; the list length is the total number of `data` rows over all loops |
| Relaxation.ParseSection | bmrb_data_fetcher.py:83-84 | an absent section key gives an empty list; a section that is not a list aborts; the length is the section's row count |
| Relaxation.ParseRelaxationData | bmrb_data_fetcher.py:68-132 | a falsy entry gives `None`; a result exists exactly when the entry is a truthy dict and all four sections convert; the result carries `bmrb_id`, and each list is its own section's conversion; an absent section gives an empty list |
| RelaxationProperties.ParseLoopsIsConvertedRows | bmrb_data_fetcher.py:84-92 | the nested walk equals "concatenate every loop's `data` rows in order, then convert each row" when all loops are well shaped, and aborts otherwise |
| RelaxationProperties.ParseSectionIsConvertedRows | bmrb_data_fetcher.py:83-92 | the same for one observable's section, absent sections included |
| RelaxationProperties.ParseSectionMeetsReference | bmrb_data_fetcher.py:83-92 | a section converts if and only if it is absent or well shaped and every one of its rows converts |
| RelaxationProperties.EntryConvertsIffEverySectionDoes | bmrb_data_fetcher.py:68-132 | the all-or-nothing policy in both directions: a record set exists if and only if the entry is a truthy dict and every row of all four sections converts |
| RelaxationProperties.RecordsFollowRowOrder | bmrb_data_fetcher.py:83-128 | each list has exactly one record per row of its section, and the j-th record is the conversion of the j-th row in document order |
| RelaxationProperties.MalformedRowAbortsEntry | bmrb_data_fetcher.py:81-132 | one unconvertible row in any section discards the records of every kind and gives `None` |
| RelaxationProperties.MalformedSectionAbortsEntry | bmrb_data_fetcher.py:81-132 | a present section that is not a list, or that holds a malformed loop, gives `None` for the whole entry |
| RelaxationProperties.DroppedSectionLeavesOthersUnchanged | bmrb_data_fetcher.py:71-128 | with a kind's section removed (and the rest still non-empty), that list is empty and the other three are unchanged; the entry converts exactly when the rest does and the removed section did |
| RelaxationProperties.SingleR1RowExample | bmrb_data_fetcher.py:83-92 | an entry with one R1 row (residue 1, atom `"N"`, value `"1.2"`, error `"0.05"`) gives exactly one R1 measurement and three empty lists |
| RelaxationWalk.AppendRows | bmrb_data_fetcher.py:86-92 | the inner `for row` loop appends exactly the converted rows in order, or reports failure exactly when a row does not convert |
| RelaxationWalk.AppendLoop | bmrb_data_fetcher.py:85-92 | the `if 'data' in loop` step appends that loop's records, or nothing when `data` is absent |
| RelaxationWalk.CollectLoops | bmrb_data_fetcher.py:84-92 | the `for loop` walk over a section produces the functional model's list, and fails exactly when it does |
| RelaxationWalk.CollectSection | bmrb_data_fetcher.py:83-92 | the per-kind block, including the absent-key skip, matches the functional model |
| RelaxationWalk.NormaliseEntry | bmrb_data_fetcher.py:64-141 | the imperative walk with its early return on the first exception computes exactly `ParseRelaxationData` |
| Structure.FirstPdbCode | bmrb_data_fetcher.py:147-149 | a non-null answer is the accession code of a row that names the PDB, and every row before it is a dict that names another database |
| Structure.GetPdbStructure | bmrb_data_fetcher.py:143-152 | a non-dict entry, an absent `related_entries` key or one that is not a list gives `None`; any other answer is the accession code of a row naming the PDB, and every row before it is a dict naming another database |
| Structure.EntryFirstMatchDecides | bmrb_data_fetcher.py:145-149 | for a dict entry whose `related_entries` is a list, the first row naming the PDB, after only dicts naming other databases, gives the answer: its accession code, or `None` when it has none |
| Structure.FirstMatchDecides | bmrb_data_fetcher.py:147-149 | the first PDB row decides the answer, which is its accession code or `None` when that row has none, whatever follows |
| Structure.NoMatchGivesNull | bmrb_data_fetcher.py:146-152 | with no row naming the PDB the answer is `None` |
| Structure.BadRowBeforeMatchGivesNull | bmrb_data_fetcher.py:145-151 | a non-dict row before the first match raises inside the `try`, so the answer is `None` |

## Left out

- `fetch_entry` and `download_pdb` (network requests and the file cache) are I/O. The entry is a parameter here.
- `search_relaxation_entries` is a fixed lookup table with console output. It contains no algorithm.
- The per-kind count summary `print`s, the error `print` in the `except` branch and the `__main__` driver are console output only.
- ToNumber: Python's `float()` grammar for strings is the `parseFloat` parameter. Numbers are exact `real`s: the model has no IEEE rounding, no `OverflowError` for huge JSON integers, and no NaN or Infinity.
- Duck typing is simplified. A present section that is not a list, a loop that is not a dict, a `data` value that is not a list and a truthy entry that is not a dict all abort the call. In Python some of these are skipped silently instead: a substring test on a string loop, key iteration over a dict section, or an element test on a list entry. Rows that are not dicts abort, as in Python. `get_pdb_structure` needs no such simplification.
- `bmrb_id` is an `int`. The source passes any value through untouched.
- JSON integers and floats are one `JNum(real)`. A residue index that is passed through loses its `int` type, which the records do not otherwise depend on.
- Dicts are maps, so key order is not modelled. Key order never affects the records produced.
