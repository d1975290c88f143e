/** The per-category summarising step and the context list handed to the
    head-physician oracle. The summarisers themselves are language-model calls,
    passed in as uninterpreted functions. */
module Narratives {
  import opened Base
  import opened Cells
  import opened Tables

  /** The profiles built from rows by a `from_row` constructor, in row order,
      or the first error a row raises. */
  function ProfilesOf<P>(fromRow: Row -> Result<P>, rows: seq<Row>): Result<seq<P>>
    decreases |rows|
  {
    if rows == [] then Ok([])
    else
      var p :- fromRow(rows[0]);
      var rest :- ProfilesOf(fromRow, rows[1..]);
      Ok([p] + rest)
  }

  /** When every row converts, there is one profile per row, in row order. */
  lemma {:induction false} ProfilesOfAllRows<P>(fromRow: Row -> Result<P>, rows: seq<Row>)
    requires forall i :: 0 <= i < |rows| ==> fromRow(rows[i]).Ok?
    ensures ProfilesOf(fromRow, rows).Ok?
    ensures |ProfilesOf(fromRow, rows).value| == |rows|
    ensures forall i :: 0 <= i < |rows| ==> fromRow(rows[i]) == Ok(ProfilesOf(fromRow, rows).value[i])
    decreases |rows|
  {
    if rows != [] {
      ProfilesOfAllRows(fromRow, rows[1..]);
      var rest := ProfilesOf(fromRow, rows[1..]).value;
      forall i | 1 <= i < |rows| ensures fromRow(rows[i]) == Ok(([fromRow(rows[0]).value] + rest)[i]) {
        assert rows[i] == rows[1..][i - 1];
      }
    }
  }

  /** A successful conversion covers every row: one profile per row, in row order. */
  lemma {:induction false} ProfilesOfOk<P>(fromRow: Row -> Result<P>, rows: seq<Row>, ps: seq<P>)
    requires ProfilesOf(fromRow, rows) == Ok(ps)
    ensures |ps| == |rows|
    ensures forall i :: 0 <= i < |rows| ==> fromRow(rows[i]) == Ok(ps[i])
    decreases |rows|
  {
    if rows != [] {
      var rest := ProfilesOf(fromRow, rows[1..]).value;
      ProfilesOfOk(fromRow, rows[1..], rest);
      forall i | 1 <= i < |rows| ensures fromRow(rows[i]) == Ok(ps[i]) {
        assert rows[i] == rows[1..][i - 1];
      }
    }
  }

  /** The first row that fails to convert decides the error. */
  lemma {:induction false} ProfilesOfFirstError<P>(fromRow: Row -> Result<P>, rows: seq<Row>, k: nat)
    requires k < |rows| && fromRow(rows[k]).Err?
    requires forall i :: 0 <= i < k ==> fromRow(rows[i]).Ok?
    ensures ProfilesOf(fromRow, rows) == Err(fromRow(rows[k]).error)
    decreases k
  {
    if k > 0 {
      forall i | 0 <= i < k - 1 ensures fromRow(rows[1..][i]).Ok? {
        assert rows[1..][i] == rows[i + 1];
      }
      ProfilesOfFirstError(fromRow, rows[1..], k - 1);
    }
  }

  /** The profiles a category's narrator receives: None when the category's
      table is not among the encounter's tables. */
  function TableProfiles<P>(tableName: string, related: Dataframes, fromRow: Row -> Result<P>): Result<Option<seq<P>>>
  {
    if tableName !in related then Ok(None)
    else
      var ps :- ProfilesOf(fromRow, related[tableName].rows);
      Ok(Some(ps))
  }

  /** A category is skipped exactly when its table is absent; otherwise its
      profiles exist exactly when every row converts, and then there is one
      profile per row, in row order. */
  lemma TableProfilesRows<P>(tableName: string, related: Dataframes, fromRow: Row -> Result<P>)
    ensures TableProfiles(tableName, related, fromRow) == Ok(None) <==> tableName !in related
    ensures tableName in related ==>
      (TableProfiles(tableName, related, fromRow).Ok? <==>
         forall i :: 0 <= i < |related[tableName].rows| ==> fromRow(related[tableName].rows[i]).Ok?)
    ensures tableName in related && TableProfiles(tableName, related, fromRow).Ok? ==>
      var rows := related[tableName].rows;
      var ps := TableProfiles(tableName, related, fromRow).value.value;
      |ps| == |rows| && forall i :: 0 <= i < |rows| ==> fromRow(rows[i]) == Ok(ps[i])
  {
    if tableName in related {
      var rows := related[tableName].rows;
      if ProfilesOf(fromRow, rows).Ok? {
        ProfilesOfOk(fromRow, rows, ProfilesOf(fromRow, rows).value);
      } else if forall i :: 0 <= i < |rows| ==> fromRow(rows[i]).Ok? {
        ProfilesOfAllRows(fromRow, rows);
      }
    }
  }

  /** Every profile of a category belongs to the encounter: its ENCOUNTER
      field carries the encounter's id. */
  predicate AllOfEncounter<P>(profiles: Result<Option<seq<P>>>, encounterOf: P -> Option<string>, encounterId: string)
  {
    profiles.Ok? && profiles.value.Some? ==>
      forall i :: 0 <= i < |profiles.value.value| ==> encounterOf(profiles.value.value[i]) == Some(encounterId)
  }

  /** No cross-encounter leakage: when a constructor copies a row's
      ENCOUNTER cell into its profile, the profiles built from the
      encounter's tables all belong to that encounter. */
  lemma ProfilesOfEncounter<P>(dataframes: Dataframes, encounterId: string, tableName: string,
                               fromRow: Row -> Result<P>, encounterOf: P -> Option<string>)
    requires forall row :: fromRow(row).Ok? ==>
               "ENCOUNTER" in row && Mirrors(row["ENCOUNTER"], encounterOf(fromRow(row).value))
    ensures AllOfEncounter(TableProfiles(tableName, RelatedData(dataframes, encounterId), fromRow), encounterOf, encounterId)
  {
    var related := RelatedData(dataframes, encounterId);
    TableProfilesRows(tableName, related, fromRow);
    if tableName in related && TableProfiles(tableName, related, fromRow).Ok? {
      var rows := related[tableName].rows;
      assert rows == Select(dataframes[tableName].rows, "ENCOUNTER", encounterId);
      var ps := TableProfiles(tableName, related, fromRow).value.value;
      forall i | 0 <= i < |ps| ensures encounterOf(ps[i]) == Some(encounterId) {
        assert Matches(rows[i], "ENCOUNTER", encounterId);
        assert fromRow(rows[i]) == Ok(ps[i]);
      }
    }
  }

  /** The narrative made from a category's profiles, if it has any. */
  function Narrated<P>(profiles: Result<Option<seq<P>>>, narrator: seq<P> -> string): Result<Option<string>>
  {
    match profiles
    case Err(e) => Err(e)
    case Ok(None) => Ok(None)
    case Ok(Some(ps)) => Ok(Some(narrator(ps)))
  }

  /** generate_narrative_for_table: skips a category whose table is absent
      (None) and otherwise hands the narrator one profile per row, in row
      order, returning what it says; a row that fails to convert aborts with
      its error. */
  method GenerateNarrativeForTable<P>(tableName: string, related: Dataframes,
                                      fromRow: Row -> Result<P>, narrator: seq<P> -> string)
    returns (r: Result<Option<string>>)
    ensures tableName !in related ==> r == Ok(None)
    ensures r == Narrated(TableProfiles(tableName, related, fromRow), narrator)
  {
    if tableName !in related {
      return Ok(None);
    }
    var rows := related[tableName].rows;
    var profiles: seq<P> := [];
    var i := 0;
    while i < |rows|
      invariant 0 <= i <= |rows|
      invariant |profiles| == i
      invariant forall j :: 0 <= j < i ==> fromRow(rows[j]) == Ok(profiles[j])
    {
      var p := fromRow(rows[i]);
      if p.Err? {
        ProfilesOfFirstError(fromRow, rows, i);
        return Err(p.error);
      }
      profiles := profiles + [p.value];
      i := i + 1;
    }
    ProfilesOfAllRows(fromRow, rows);
    var ps := ProfilesOf(fromRow, rows).value;
    assert ps == profiles by {
      forall j | 0 <= j < |rows| ensures ps[j] == profiles[j] {
        assert fromRow(rows[j]) == Ok(ps[j]);
      }
    }
    r := Ok(Some(narrator(profiles)));
  }

  /** The eight category narratives, each None when its category was skipped. */
  datatype CategoryNarratives = CategoryNarratives(
    observations: Option<string>, immunizations: Option<string>, medications: Option<string>,
    procedures: Option<string>, careplans: Option<string>, conditions: Option<string>,
    devices: Option<string>, imagingStudies: Option<string>)
  {
    /** The fixed order in which the oracle's context lists them. */
    function InOrder(): seq<Option<string>>
    {
      [observations] + [immunizations] + [medications] + [procedures] + [careplans] + [conditions]
        + [devices] + [imagingStudies]
    }
  }

  /** Python truthiness of an Optional[str]: present and not empty. */
  predicate Truthy(n: Option<string>) { n.Some? && n.value != "" }

  /** A slot's contribution to the context: `if n: context.append(n)`. */
  function Keep(n: Option<string>): seq<string>
  {
    if Truthy(n) then [n.value] else []
  }

  /** The truthy narratives, in order. */
  function Present(ns: seq<Option<string>>): (r: seq<string>)
    ensures |r| <= |ns|
    decreases |ns|
  {
    if ns == [] then []
    else Present(ns[..|ns| - 1]) + Keep(ns[|ns| - 1])
  }

  /** Appending a slot adds that slot's narrative if it is truthy. */
  lemma PresentSnoc(ns: seq<Option<string>>, x: Option<string>)
    ensures Present(ns + [x]) == Present(ns) + Keep(x)
  {
    assert (ns + [x])[..|ns|] == ns;
  }

  /** Concatenation is associative (stated once, used slot by slot). */
  lemma AppendAssoc(a: seq<string>, b: seq<string>, c: seq<string>)
    ensures a + (b + c) == (a + b) + c
  {
  }

  /** The contributions of the eight slots, concatenated in the fixed order. */
  function Contributions(n: CategoryNarratives): seq<string>
  {
    Keep(n.observations) + Keep(n.immunizations) + Keep(n.medications) + Keep(n.procedures)
      + Keep(n.careplans) + Keep(n.conditions) + Keep(n.devices) + Keep(n.imagingStudies)
  }

  /** Slot by slot, the contributions are the truthy narratives in order. */
  lemma PresentInOrder(n: CategoryNarratives)
    ensures Present(n.InOrder()) == Contributions(n)
  {
    var s1 := [n.observations];
    var s2 := s1 + [n.immunizations];
    var s3 := s2 + [n.medications];
    var s4 := s3 + [n.procedures];
    var s5 := s4 + [n.careplans];
    var s6 := s5 + [n.conditions];
    var s7 := s6 + [n.devices];
    var k := Keep(n.observations);
    assert Present(s1) == k by {
      assert [] + s1 == s1;
      PresentSnoc([], n.observations);
    }
    k := k + Keep(n.immunizations);
    assert Present(s2) == k by { PresentSnoc(s1, n.immunizations); }
    k := k + Keep(n.medications);
    assert Present(s3) == k by { PresentSnoc(s2, n.medications); }
    k := k + Keep(n.procedures);
    assert Present(s4) == k by { PresentSnoc(s3, n.procedures); }
    k := k + Keep(n.careplans);
    assert Present(s5) == k by { PresentSnoc(s4, n.careplans); }
    k := k + Keep(n.conditions);
    assert Present(s6) == k by { PresentSnoc(s5, n.conditions); }
    k := k + Keep(n.devices);
    assert Present(s7) == k by { PresentSnoc(s6, n.devices); }
    assert n.InOrder() == s7 + [n.imagingStudies];
    PresentSnoc(s7, n.imagingStudies);
  }

  /** Appending the truthy narratives after a head, slot by slot. */
  lemma ContextInOrder(head: seq<string>, n: CategoryNarratives)
    ensures head + Present(n.InOrder()) == head + Keep(n.observations) + Keep(n.immunizations)
      + Keep(n.medications) + Keep(n.procedures) + Keep(n.careplans) + Keep(n.conditions)
      + Keep(n.devices) + Keep(n.imagingStudies)
  {
    PresentInOrder(n);
    AppendAssoc(head, Keep(n.observations), Keep(n.immunizations));
    AppendAssoc(head, Keep(n.observations) + Keep(n.immunizations), Keep(n.medications));
    AppendAssoc(head, Keep(n.observations) + Keep(n.immunizations) + Keep(n.medications), Keep(n.procedures));
    AppendAssoc(head, Keep(n.observations) + Keep(n.immunizations) + Keep(n.medications) + Keep(n.procedures), Keep(n.careplans));
    AppendAssoc(head, Keep(n.observations) + Keep(n.immunizations) + Keep(n.medications) + Keep(n.procedures) + Keep(n.careplans), Keep(n.conditions));
    AppendAssoc(head, Keep(n.observations) + Keep(n.immunizations) + Keep(n.medications) + Keep(n.procedures) + Keep(n.careplans) + Keep(n.conditions), Keep(n.devices));
    AppendAssoc(head, Keep(n.observations) + Keep(n.immunizations) + Keep(n.medications) + Keep(n.procedures) + Keep(n.careplans) + Keep(n.conditions) + Keep(n.devices), Keep(n.imagingStudies));
  }

  /** A narrative is in the context exactly when some slot holds it and it is truthy. */
  lemma {:induction false} PresentMembers(ns: seq<Option<string>>, x: string)
    ensures x in Present(ns) <==> x != "" && exists i :: 0 <= i < |ns| && ns[i] == Some(x)
    decreases |ns|
  {
    if ns != [] {
      var init := ns[..|ns| - 1];
      PresentMembers(init, x);
      if x != "" && (exists i :: 0 <= i < |ns| && ns[i] == Some(x)) {
        var i :| 0 <= i < |ns| && ns[i] == Some(x);
        if i < |ns| - 1 { assert init[i] == Some(x); }
      }
    }
  }

  /** The indices of the truthy slots. */
  function TruthySlots(ns: seq<Option<string>>): set<nat>
  {
    set i: nat | i < |ns| && Truthy(ns[i])
  }

  /** One context entry per truthy slot. */
  lemma {:induction false} PresentCount(ns: seq<Option<string>>)
    ensures |Present(ns)| == |TruthySlots(ns)|
    decreases |ns|
  {
    if ns != [] {
      var n := |ns| - 1;
      var init := ns[..n];
      PresentCount(init);
      if Truthy(ns[n]) {
        assert TruthySlots(ns) == TruthySlots(init) + {n};
      } else {
        assert TruthySlots(ns) == TruthySlots(init);
      }
    }
  }

  /** The context of the ask_head_physician closure: the encounter narrative,
      the patient narrative, then each truthy category narrative in the fixed
      order observations, immunizations, medications, procedures, care plans,
      conditions, devices, imaging studies. */
  method OracleContext(encounterNarrative: string, patientNarrative: string, narratives: CategoryNarratives)
    returns (context: seq<string>)
    ensures context == [encounterNarrative, patientNarrative] + Present(narratives.InOrder())
    ensures |context| == 2 + |TruthySlots(narratives.InOrder())|
  {
    ContextInOrder([encounterNarrative, patientNarrative], narratives);
    PresentCount(narratives.InOrder());
    context := [encounterNarrative, patientNarrative];
    context := context + Keep(narratives.observations);
    context := context + Keep(narratives.immunizations);
    context := context + Keep(narratives.medications);
    context := context + Keep(narratives.procedures);
    context := context + Keep(narratives.careplans);
    context := context + Keep(narratives.conditions);
    context := context + Keep(narratives.devices);
    context := context + Keep(narratives.imagingStudies);
  }

  /** Only observations and medications present: the oracle sees exactly
      four narratives, in that order. */
  lemma OnlyObservationsAndMedications(e: string, p: string, obs: string, med: string)
    requires obs != "" && med != ""
    ensures var ns := CategoryNarratives(Some(obs), None, Some(med), None, None, None, None, None);
      [e, p] + Present(ns.InOrder()) == [e, p, obs, med]
  {
    PresentInOrder(CategoryNarratives(Some(obs), None, Some(med), None, None, None, None, None));
  }
}
