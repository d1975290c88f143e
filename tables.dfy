/** Tables loaded from the Synthea export, encounter selection and the
    per-encounter filtering that keeps each category's rows to the selected
    encounter. */
module Tables {
  import opened Base
  import opened Cells

  /** A pandas DataFrame: its column names and its rows in order. */
  datatype Table = Table(columns: set<string>, rows: seq<Row>)

  /** pandas gives every row every column of its frame, NaN where the CSV
      field is empty. The operations below are defined on any table; this is
      the shape the loaded tables have. */
  predicate WellFormed(t: Table)
  {
    forall i :: 0 <= i < |t.rows| ==> t.rows[i].Keys == t.columns
  }

  /** The loaded tables, keyed by CSV file stem ("encounters", "observations", ...). */
  type Dataframes = map<string, Table>

  /** `df[column] == value` for one row: exact string equality, so a NaN or
      numeric cell never matches. */
  predicate Matches(row: Row, column: string, value: string)
  {
    column in row && row[column] == Str(value)
  }

  /** `df[df[column] == value]`: the matching rows, in their original order. */
  function Select(rows: seq<Row>, column: string, value: string): (r: seq<Row>)
    ensures |r| <= |rows|
    ensures forall i :: 0 <= i < |r| ==> Matches(r[i], column, value)
    decreases |rows|
  {
    if rows == [] then []
    else if Matches(rows[0], column, value) then [rows[0]] + Select(rows[1..], column, value)
    else Select(rows[1..], column, value)
  }

  /** Selection distributes over concatenation, so it keeps the rows' order. */
  lemma {:induction false} SelectAppend(a: seq<Row>, b: seq<Row>, column: string, value: string)
    ensures Select(a + b, column, value) == Select(a, column, value) + Select(b, column, value)
    decreases |a|
  {
    if a != [] {
      assert (a + b)[1..] == a[1..] + b;
      SelectAppend(a[1..], b, column, value);
    } else {
      assert a + b == b;
    }
  }

  /** Selection keeps every matching row as often as it occurs and drops every
      other row. */
  lemma {:induction false} SelectCounts(rows: seq<Row>, column: string, value: string, row: Row)
    ensures multiset(Select(rows, column, value))[row] ==
            if Matches(row, column, value) then multiset(rows)[row] else 0
    decreases |rows|
  {
    if rows != [] {
      SelectCounts(rows[1..], column, value, row);
      assert rows == [rows[0]] + rows[1..];
    }
  }

  /** Selection is empty exactly when no row matches. */
  lemma {:induction false} SelectEmpty(rows: seq<Row>, column: string, value: string)
    ensures Select(rows, column, value) == [] <==>
            forall i :: 0 <= i < |rows| ==> !Matches(rows[i], column, value)
    decreases |rows|
  {
    if rows != [] {
      SelectEmpty(rows[1..], column, value);
      if !Matches(rows[0], column, value) {
        assert forall i :: 1 <= i < |rows| ==> rows[i] == rows[1..][i - 1];
      }
    }
  }

  /** Index k holds the first row matching `value`. */
  predicate IsFirstMatch(rows: seq<Row>, column: string, value: string, k: int)
  {
    0 <= k < |rows| && Matches(rows[k], column, value)
    && forall j :: 0 <= j < k ==> !Matches(rows[j], column, value)
  }

  /** `.iloc[0]` of a selection is the first matching row. */
  lemma {:induction false} SelectHead(rows: seq<Row>, column: string, value: string)
    requires Select(rows, column, value) != []
    ensures exists k :: IsFirstMatch(rows, column, value, k) && rows[k] == Select(rows, column, value)[0]
    decreases |rows|
  {
    if !Matches(rows[0], column, value) {
      SelectHead(rows[1..], column, value);
      var k :| IsFirstMatch(rows[1..], column, value, k) && rows[1..][k] == Select(rows[1..], column, value)[0];
      assert IsFirstMatch(rows, column, value, k + 1);
    } else {
      assert IsFirstMatch(rows, column, value, 0);
    }
  }

  /** `t[t[column] == value].iloc[0]`, failing with `onEmpty` when nothing
      matches and with KeyError when the column does not exist. */
  function FirstMatch(t: Table, column: string, value: string, onEmpty: Error): (r: Result<Row>)
    ensures column !in t.columns ==> r == Err(KeyError(column))
    ensures column in t.columns ==>
      (r.Ok? <==> exists i :: 0 <= i < |t.rows| && Matches(t.rows[i], column, value))
    ensures column in t.columns && r.Err? ==> r.error == onEmpty
    ensures r.Ok? ==> exists k :: IsFirstMatch(t.rows, column, value, k) && r.value == t.rows[k]
  {
    if column !in t.columns then Err(KeyError(column))
    else
      var selected := Select(t.rows, column, value);
      SelectEmpty(t.rows, column, value);
      if selected == [] then Err(onEmpty)
      else
        SelectHead(t.rows, column, value);
        Ok(selected[0])
  }

  /** get_encounter: with a non-empty id, the first encounter row whose Id is
      that id, or ValueError when there is none; with no id (or ""), the row
      the random sampler draws (`draw` stands for its choice), or ValueError
      when the table is empty. */
  function GetEncounter(dataframes: Dataframes, encounterId: Option<string>, draw: nat): (r: Result<Row>)
    ensures "encounters" !in dataframes ==> r == Err(KeyError("encounters"))
    ensures "encounters" in dataframes && encounterId.Some? && encounterId.value != "" ==>
      var t := dataframes["encounters"];
      && ("Id" !in t.columns ==> r == Err(KeyError("Id")))
      && ("Id" in t.columns ==>
            (r.Ok? <==> exists i :: 0 <= i < |t.rows| && Matches(t.rows[i], "Id", encounterId.value)))
      && ("Id" in t.columns && r.Err? ==> r.error == ValueError)
      && (r.Ok? ==> exists k :: IsFirstMatch(t.rows, "Id", encounterId.value, k) && r.value == t.rows[k])
    ensures "encounters" in dataframes && (encounterId.None? || encounterId.value == "") ==>
      && (r.Ok? <==> dataframes["encounters"].rows != [])
      && (r.Ok? ==> r.value in dataframes["encounters"].rows)
      && (r.Err? ==> r.error == ValueError)
  {
    if "encounters" !in dataframes then Err(KeyError("encounters"))
    else
      var t := dataframes["encounters"];
      if encounterId.Some? && encounterId.value != "" then
        FirstMatch(t, "Id", encounterId.value, ValueError)
      else if t.rows == [] then Err(ValueError)
      else Ok(t.rows[draw % |t.rows|])
  }

  /** The patient lookup of the main routine: the first patients row whose Id
      is the encounter's patient, IndexError when there is none. */
  function FindPatient(dataframes: Dataframes, patientId: string): (r: Result<Row>)
    ensures "patients" !in dataframes ==> r == Err(KeyError("patients"))
    ensures "patients" in dataframes && "Id" in dataframes["patients"].columns ==>
      (r.Ok? <==> exists i :: 0 <= i < |dataframes["patients"].rows|
                               && Matches(dataframes["patients"].rows[i], "Id", patientId))
    ensures "patients" in dataframes && "Id" !in dataframes["patients"].columns ==> r == Err(KeyError("Id"))
    ensures "patients" in dataframes && "Id" in dataframes["patients"].columns && r.Err? ==> r.error == IndexError
    ensures r.Ok? ==> Matches(r.value, "Id", patientId)
    ensures r.Ok? ==>
      && "patients" in dataframes
      && (exists k :: IsFirstMatch(dataframes["patients"].rows, "Id", patientId, k)
                      && r.value == dataframes["patients"].rows[k])
  {
    if "patients" !in dataframes then Err(KeyError("patients"))
    else FirstMatch(dataframes["patients"], "Id", patientId, IndexError)
  }

  /** The slice of a table that belongs to one encounter. */
  function EncounterSlice(t: Table, encounterId: string): Table
  {
    Table(t.columns, Select(t.rows, "ENCOUNTER", encounterId))
  }

  /** A table takes part in an encounter when it has an ENCOUNTER column and
      at least one row of that encounter. */
  predicate Related(t: Table, encounterId: string)
  {
    "ENCOUNTER" in t.columns && Select(t.rows, "ENCOUNTER", encounterId) != []
  }

  /** The encounter's tables: those with an ENCOUNTER column and at least one
      row of the encounter, each cut down to exactly those rows. */
  function RelatedData(dataframes: Dataframes, encounterId: string): map<string, Table>
  {
    map name | name in dataframes && Related(dataframes[name], encounterId) :: EncounterSlice(dataframes[name], encounterId)
  }

  /** get_encounter_related_data: the tables with an ENCOUNTER column and at
      least one row of the encounter, each cut down to exactly those rows. */
  method GetEncounterRelatedData(dataframes: Dataframes, encounterId: string) returns (related: Dataframes)
    ensures forall name :: name in related <==> name in dataframes && Related(dataframes[name], encounterId)
    ensures forall name :: name in related ==> related[name] == EncounterSlice(dataframes[name], encounterId)
    ensures forall name, i :: name in related && 0 <= i < |related[name].rows| ==>
      Matches(related[name].rows[i], "ENCOUNTER", encounterId)
    ensures related == RelatedData(dataframes, encounterId)
  {
    related := map[];
    var remaining := dataframes.Keys;
    while remaining != {}
      invariant remaining <= dataframes.Keys
      invariant forall name :: name in related <==>
        name in dataframes && name !in remaining && Related(dataframes[name], encounterId)
      invariant forall name :: name in related ==> related[name] == EncounterSlice(dataframes[name], encounterId)
      decreases remaining
    {
      var name :| name in remaining;
      var t := dataframes[name];
      if "ENCOUNTER" in t.columns {
        var filtered := EncounterSlice(t, encounterId);
        if filtered.rows != [] {
          related := related[name := filtered];
        }
      }
      remaining := remaining - {name};
    }
  }

  /** Selection only drops rows, so rows with a common set of columns keep it. */
  lemma {:induction false} SelectKeepsColumns(rows: seq<Row>, column: string, value: string, columns: set<string>)
    requires forall i :: 0 <= i < |rows| ==> rows[i].Keys == columns
    ensures forall i :: 0 <= i < |Select(rows, column, value)| ==> Select(rows, column, value)[i].Keys == columns
    decreases |rows|
  {
    if rows != [] {
      SelectKeepsColumns(rows[1..], column, value, columns);
    }
  }

  /** Cutting well-formed tables down to an encounter keeps them well formed. */
  lemma RelatedDataWellFormed(dataframes: Dataframes, encounterId: string)
    requires forall name :: name in dataframes ==> WellFormed(dataframes[name])
    ensures forall name :: name in RelatedData(dataframes, encounterId) ==>
      WellFormed(RelatedData(dataframes, encounterId)[name])
  {
    forall name | name in RelatedData(dataframes, encounterId)
      ensures WellFormed(RelatedData(dataframes, encounterId)[name])
    {
      var t := dataframes[name];
      SelectKeepsColumns(t.rows, "ENCOUNTER", encounterId, t.columns);
    }
  }
}
