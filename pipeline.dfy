/** The main routine: select an encounter, build its patient and category
    profiles, have the language models summarise them, ask for the documents
    the encounter produced, write each with the head-physician oracle as a
    tool, refine it and save it. Every language-model call is a field of
    `Engine`, an uninterpreted function of its inputs. */
module Pipeline {
  import opened Base
  import opened Cells
  import opened Records
  import opened Tables
  import opened Narratives
  import opened Storage

  /** The language-model programs the main routine calls. */
  datatype Engine = Engine(
    observations: seq<ObservationProfile> -> string,
    immunizations: seq<ImmunizationProfile> -> string,
    medications: seq<MedicationProfile> -> string,
    procedures: seq<ProcedureProfile> -> string,
    careplans: seq<CarePlanProfile> -> string,
    conditions: seq<ConditionProfile> -> string,
    devices: seq<DeviceProfile> -> string,
    imagingStudies: seq<ImagingStudyProfile> -> string,
    /** generate_patient_narrative */
    patient: PatientProfile -> string,
    /** generate_encounter_narrative */
    encounter: (EncounterProfile, string, CategoryNarratives) -> string,
    /** generate_documents_list: the DocumentationGuru's list of dictionaries */
    guru: string -> seq<map<string, string>>,
    /** ask_head_physician_wrapper: a question and the context list */
    oracle: (string, seq<string>) -> string,
    /** the DocumentationWriter agent: type, description and its one tool */
    writer: (string, string, string -> string) -> string,
    /** the DocumentAuthenticityRefiner: type and original document */
    refiner: (string, string) -> string)

  /** The `from_row` constructors the main routine applies: the encounter's
      and the patient's, and for each category the `profile_class` it hands
      to generate_narrative_for_table. */
  datatype ProfileClasses = ProfileClasses(
    encounter: Row -> Result<EncounterProfile>,
    patient: Row -> Result<PatientProfile>,
    observations: Row -> Result<ObservationProfile>,
    immunizations: Row -> Result<ImmunizationProfile>,
    medications: Row -> Result<MedicationProfile>,
    procedures: Row -> Result<ProcedureProfile>,
    careplans: Row -> Result<CarePlanProfile>,
    conditions: Row -> Result<ConditionProfile>,
    devices: Row -> Result<DeviceProfile>,
    imagingStudies: Row -> Result<ImagingStudyProfile>)

  /** The classes the main routine passes. */
  const Classes: ProfileClasses := ProfileClasses(
    EncounterFromRow, PatientFromRow,
    ObservationFromRow, ImmunizationFromRow, MedicationFromRow, ProcedureFromRow,
    CarePlanFromRow, ConditionFromRow, DeviceFromRow, ImagingStudyFromRow)

  /** The eight category narratives, summarised in the order the main
      routine visits the categories; the first row that fails to convert
      decides the error. */
  function CategoryNarrativesOf(related: Dataframes, engine: Engine, classes: ProfileClasses): Result<CategoryNarratives>
  {
    match Narrated(TableProfiles("observations", related, classes.observations), engine.observations)
    case Err(e) => Err(e)
    case Ok(obs) =>
    match Narrated(TableProfiles("immunizations", related, classes.immunizations), engine.immunizations)
    case Err(e) => Err(e)
    case Ok(imm) =>
    match Narrated(TableProfiles("medications", related, classes.medications), engine.medications)
    case Err(e) => Err(e)
    case Ok(med) =>
    match Narrated(TableProfiles("procedures", related, classes.procedures), engine.procedures)
    case Err(e) => Err(e)
    case Ok(pro) =>
    match Narrated(TableProfiles("careplans", related, classes.careplans), engine.careplans)
    case Err(e) => Err(e)
    case Ok(car) =>
    match Narrated(TableProfiles("conditions", related, classes.conditions), engine.conditions)
    case Err(e) => Err(e)
    case Ok(con) =>
    match Narrated(TableProfiles("devices", related, classes.devices), engine.devices)
    case Err(e) => Err(e)
    case Ok(dev) =>
    match Narrated(TableProfiles("imaging_studies", related, classes.imagingStudies), engine.imagingStudies)
    case Err(e) => Err(e)
    case Ok(ima) =>
    Ok(CategoryNarratives(obs, imm, med, pro, car, con, dev, ima))
  }

  /** The eight generate_narrative_for_table calls of the main routine, in
      its order: each category is summarised from its own table, and the
      first row that fails to convert aborts with its error. */
  method NarrateCategories(related: Dataframes, engine: Engine, classes: ProfileClasses) returns (r: Result<CategoryNarratives>)
    ensures r == CategoryNarrativesOf(related, engine, classes)
  {
    var obs :- GenerateNarrativeForTable("observations", related, classes.observations, engine.observations);
    var imm :- GenerateNarrativeForTable("immunizations", related, classes.immunizations, engine.immunizations);
    var med :- GenerateNarrativeForTable("medications", related, classes.medications, engine.medications);
    var pro :- GenerateNarrativeForTable("procedures", related, classes.procedures, engine.procedures);
    var car :- GenerateNarrativeForTable("careplans", related, classes.careplans, engine.careplans);
    var con :- GenerateNarrativeForTable("conditions", related, classes.conditions, engine.conditions);
    var dev :- GenerateNarrativeForTable("devices", related, classes.devices, engine.devices);
    var ima :- GenerateNarrativeForTable("imaging_studies", related, classes.imagingStudies, engine.imagingStudies);
    r := Ok(CategoryNarratives(obs, imm, med, pro, car, con, dev, ima));
  }

  /** One entry of the documents list: the values under "type" and "description". */
  datatype DocumentRequest = DocumentRequest(documentType: string, description: string)

  /** Reading `doc['type']` and then `doc['description']`. */
  function RequestOf(doc: map<string, string>): (r: Result<DocumentRequest>)
    ensures r.Ok? <==> "type" in doc && "description" in doc
    ensures "type" !in doc ==> r == Err(KeyError("type"))
    ensures "type" in doc && "description" !in doc ==> r == Err(KeyError("description"))
    ensures r.Ok? ==> r.value.documentType == doc["type"] && r.value.description == doc["description"]
  {
    if "type" !in doc then Err(KeyError("type"))
    else if "description" !in doc then Err(KeyError("description"))
    else Ok(DocumentRequest(doc["type"], doc["description"]))
  }

  /** The listing loop over the documents list, which reads every entry's
      type and description before any document is written: one request per
      entry, in order, or the KeyError of the first incomplete entry. */
  function Requests(docs: seq<map<string, string>>): (r: Result<seq<DocumentRequest>>)
    ensures r.Ok? <==> forall i :: 0 <= i < |docs| ==> RequestOf(docs[i]).Ok?
    ensures r.Ok? ==> |r.value| == |docs| && forall i :: 0 <= i < |docs| ==> RequestOf(docs[i]) == Ok(r.value[i])
    ensures r.Err? ==> exists k :: 0 <= k < |docs| && RequestOf(docs[k]) == Err(r.error)
                                   && forall j :: 0 <= j < k ==> RequestOf(docs[j]).Ok?
    decreases |docs|
  {
    if docs == [] then Ok([])
    else
      var first :- RequestOf(docs[0]);
      var rest :- Requests(docs[1..]);
      Ok([first] + rest)
  }

  /** GeneratedDocument */
  datatype GeneratedDocument = GeneratedDocument(documentType: string, content: string)

  /** ask_head_physician: the oracle consulted with the context list. */
  function Tool(engine: Engine, context: seq<string>): string -> string
  {
    q => engine.oracle(q, context)
  }

  /** What the writer makes of the requests, one document per request. */
  function Written(engine: Engine, tool: string -> string, requests: seq<DocumentRequest>): seq<GeneratedDocument>
  {
    seq(|requests|, i requires 0 <= i < |requests| =>
      GeneratedDocument(requests[i].documentType,
                        engine.writer(requests[i].documentType, requests[i].description, tool)))
  }

  /** The refined text of each generated document, in order. */
  function Refined(engine: Engine, documents: seq<GeneratedDocument>): seq<string>
  {
    seq(|documents|, i requires 0 <= i < |documents| =>
      engine.refiner(documents[i].documentType, documents[i].content))
  }

  /** The writing loop: one document per request, in order, carrying the
      requested type and the text the writer produced for that type and
      description with the oracle as its tool. */
  method WriteDocuments(engine: Engine, tool: string -> string, requests: seq<DocumentRequest>)
    returns (result: seq<GeneratedDocument>)
    ensures |result| == |requests|
    ensures forall i :: 0 <= i < |requests| ==>
      result[i].documentType == requests[i].documentType
      && result[i].content == engine.writer(requests[i].documentType, requests[i].description, tool)
  {
    result := [];
    for i := 0 to |requests|
      invariant |result| == i
      invariant forall j :: 0 <= j < i ==>
        result[j].documentType == requests[j].documentType
        && result[j].content == engine.writer(requests[j].documentType, requests[j].description, tool)
    {
      var document := engine.writer(requests[i].documentType, requests[i].description, tool);
      result := result + [GeneratedDocument(requests[i].documentType, document)];
    }
  }

  /** The refining loop: each generated document, in order, is refined once
      and the refined text saved once, with save_document's allocation. */
  method RefineAndSave(fs: FileSystem, engine: Engine, documents: seq<GeneratedDocument>,
                       outputDir: Path, encounterId: string)
    returns (refined: seq<string>)
    modifies fs
    ensures |refined| == |documents|
    ensures forall i :: 0 <= i < |documents| ==>
      refined[i] == engine.refiner(documents[i].documentType, documents[i].content)
    ensures fs.State() == SaveAll(old(fs.State()), outputDir, encounterId, refined)
  {
    refined := [];
    for i := 0 to |documents|
      invariant |refined| == i
      invariant forall j :: 0 <= j < i ==>
        refined[j] == engine.refiner(documents[j].documentType, documents[j].content)
      invariant fs.State() == SaveAll(old(fs.State()), outputDir, encounterId, refined)
    {
      var doc := documents[i];
      var text := engine.refiner(doc.documentType, doc.content);
      SaveDocument(fs, outputDir, text, doc.documentType, encounterId);
      SaveAllSnoc(old(fs.State()), outputDir, encounterId, refined, text);
      refined := refined + [text];
    }
  }

  /** Everything one run computes. */
  datatype RunPlan = RunPlan(
    encounter: EncounterProfile,
    patient: PatientProfile,
    related: Dataframes,
    narratives: CategoryNarratives,
    patientNarrative: string,
    encounterNarrative: string,
    requests: seq<DocumentRequest>,
    context: seq<string>,
    documents: seq<GeneratedDocument>,
    refined: seq<string>)

  /** The encounter the run is about and its patient. */
  function Subject(dataframes: Dataframes, encounterId: Option<string>, draw: nat, classes: ProfileClasses)
    : Result<(EncounterProfile, PatientProfile)>
  {
    var encounterRow :- GetEncounter(dataframes, encounterId, draw);
    var encounter :- classes.encounter(encounterRow);
    var patientRow :- FindPatient(dataframes, encounter.patient);
    var patient :- classes.patient(patientRow);
    Ok((encounter, patient))
  }

  /** The run after the encounter and its patient are known. */
  function PlanFor(dataframes: Dataframes, encounter: EncounterProfile, patient: PatientProfile,
                   engine: Engine, classes: ProfileClasses)
    : Result<RunPlan>
  {
    var related := RelatedData(dataframes, encounter.id);
    var narratives :- CategoryNarrativesOf(related, engine, classes);
    var patientNarrative := engine.patient(patient);
    var encounterNarrative := engine.encounter(encounter, patientNarrative, narratives);
    var requests :- Requests(engine.guru(encounterNarrative));
    var context := [encounterNarrative, patientNarrative] + Present(narratives.InOrder());
    var documents := Written(engine, Tool(engine, context), requests);
    Ok(RunPlan(encounter, patient, related, narratives, patientNarrative,
               encounterNarrative, requests, context, documents, Refined(engine, documents)))
  }

  /** The whole run, as a value. */
  function Plan(dataframes: Dataframes, encounterId: Option<string>, draw: nat,
                engine: Engine, classes: ProfileClasses): Result<RunPlan>
  {
    var subject :- Subject(dataframes, encounterId, draw, classes);
    PlanFor(dataframes, subject.0, subject.1, engine, classes)
  }

  /** The main routine once the encounter and its patient are known: it
      either fails, in row conversion or in reading the documents list,
      before anything is written, or it saves the refined documents one
      after another, in the order the documents list gave them. The
      language-model calls of `engine` cannot fail here. */
  method RunForSubject(dataframes: Dataframes, encounter: EncounterProfile, patient: PatientProfile,
                       engine: Engine, classes: ProfileClasses, fs: FileSystem, outputDir: Path)
    returns (r: Result<RunPlan>)
    modifies fs
    ensures r == PlanFor(dataframes, encounter, patient, engine, classes)
    ensures r.Err? ==> fs.State() == old(fs.State())
    ensures r.Ok? ==> fs.State() == SaveAll(old(fs.State()), outputDir, encounter.id, r.value.refined)
  {
    var related := GetEncounterRelatedData(dataframes, encounter.id);
    var narratives :- NarrateCategories(related, engine, classes);
    var patientNarrative := engine.patient(patient);
    var encounterNarrative := engine.encounter(encounter, patientNarrative, narratives);
    var requests :- Requests(engine.guru(encounterNarrative));
    var context := OracleContext(encounterNarrative, patientNarrative, narratives);
    var documents := WriteDocuments(engine, Tool(engine, context), requests);
    assert documents == Written(engine, Tool(engine, context), requests);
    var refined := RefineAndSave(fs, engine, documents, outputDir, encounter.id);
    assert refined == Refined(engine, documents);
    r := Ok(RunPlan(encounter, patient, related, narratives, patientNarrative,
                    encounterNarrative, requests, context, documents, refined));
  }

  /** The main routine from the loaded tables on: select the encounter and
      its patient, then summarise, write, refine and save. A run that fails
      in selection, row conversion or reading the documents list writes
      nothing. */
  method RunEncounter(dataframes: Dataframes, encounterId: Option<string>, draw: nat,
                      engine: Engine, classes: ProfileClasses, fs: FileSystem, outputDir: Path)
    returns (r: Result<RunPlan>)
    modifies fs
    ensures r == Plan(dataframes, encounterId, draw, engine, classes)
    ensures r.Err? ==> fs.State() == old(fs.State())
    ensures r.Ok? ==> fs.State() == SaveAll(old(fs.State()), outputDir, r.value.encounter.id, r.value.refined)
  {
    var subject :- Subject(dataframes, encounterId, draw, classes);
    r := RunForSubject(dataframes, subject.0, subject.1, engine, classes, fs, outputDir);
  }

  /** An encounter produced from a supplied id has that id and comes from
      the first encounter row carrying it, and the patient is always the
      encounter's own patient. */
  lemma SubjectOfSuppliedId(dataframes: Dataframes, encounterId: Option<string>, draw: nat)
    requires Subject(dataframes, encounterId, draw, Classes).Ok?
    ensures var (encounter, patient) := Subject(dataframes, encounterId, draw, Classes).value;
      && patient.id == encounter.patient
      && (encounterId.Some? && encounterId.value != "" ==>
            encounter.id == encounterId.value
            && exists k :: IsFirstMatch(dataframes["encounters"].rows, "Id", encounterId.value, k)
                           && EncounterFromRow(dataframes["encounters"].rows[k]) == Ok(encounter))
  {
    var encounterRow := GetEncounter(dataframes, encounterId, draw).value;
    var encounter := EncounterFromRow(encounterRow).value;
    var patientRow := FindPatient(dataframes, encounter.patient).value;
    assert PatientFromRow(patientRow).Ok?;
  }

  /** An id that no encounter row carries stops the run with ValueError,
      whatever the language models would say. */
  lemma UnknownEncounterFails(dataframes: Dataframes, encounterId: string, draw: nat,
                              engine: Engine, classes: ProfileClasses)
    requires encounterId != ""
    requires "encounters" in dataframes && "Id" in dataframes["encounters"].columns
    requires forall i :: 0 <= i < |dataframes["encounters"].rows| ==>
               !Matches(dataframes["encounters"].rows[i], "Id", encounterId)
    ensures Plan(dataframes, Some(encounterId), draw, engine, classes) == Err(ValueError)
  {
    assert GetEncounter(dataframes, Some(encounterId), draw) == Err(ValueError);
  }

  /** A run's values hang together: its encounter and patient are the
      selected ones and its tables are the encounter's tables. */
  lemma PlanParts(dataframes: Dataframes, encounterId: Option<string>, draw: nat,
                  engine: Engine, classes: ProfileClasses)
    requires Plan(dataframes, encounterId, draw, engine, classes).Ok?
    ensures var p := Plan(dataframes, encounterId, draw, engine, classes).value;
      && Subject(dataframes, encounterId, draw, classes) == Ok((p.encounter, p.patient))
      && p.related == RelatedData(dataframes, p.encounter.id)
      && CategoryNarrativesOf(p.related, engine, classes) == Ok(p.narratives)
      && p.patientNarrative == engine.patient(p.patient)
      && p.encounterNarrative == engine.encounter(p.encounter, p.patientNarrative, p.narratives)
      && Requests(engine.guru(p.encounterNarrative)) == Ok(p.requests)
      && p.context == [p.encounterNarrative, p.patientNarrative] + Present(p.narratives.InOrder())
      && p.documents == Written(engine, Tool(engine, p.context), p.requests)
      && p.refined == Refined(engine, p.documents)
  {
  }

  /** The narrative of each category as the summarising step left it. */
  lemma CategoryNarrativesOk(related: Dataframes, engine: Engine, classes: ProfileClasses)
    requires CategoryNarrativesOf(related, engine, classes).Ok?
    ensures var n := CategoryNarrativesOf(related, engine, classes).value;
      && Narrated(TableProfiles("observations", related, classes.observations), engine.observations) == Ok(n.observations)
      && Narrated(TableProfiles("immunizations", related, classes.immunizations), engine.immunizations) == Ok(n.immunizations)
      && Narrated(TableProfiles("medications", related, classes.medications), engine.medications) == Ok(n.medications)
      && Narrated(TableProfiles("procedures", related, classes.procedures), engine.procedures) == Ok(n.procedures)
      && Narrated(TableProfiles("careplans", related, classes.careplans), engine.careplans) == Ok(n.careplans)
      && Narrated(TableProfiles("conditions", related, classes.conditions), engine.conditions) == Ok(n.conditions)
      && Narrated(TableProfiles("devices", related, classes.devices), engine.devices) == Ok(n.devices)
      && Narrated(TableProfiles("imaging_studies", related, classes.imagingStudies), engine.imagingStudies) == Ok(n.imagingStudies)
  {
  }

  /** The encounter has rows in the named table. */
  predicate HasRows(dataframes: Dataframes, tableName: string, encounterId: string)
  {
    tableName in dataframes && Related(dataframes[tableName], encounterId)
  }

  /** One category is skipped exactly when the encounter has no rows of it. */
  lemma SkippedCategory<P>(dataframes: Dataframes, encounterId: string, tableName: string,
                           fromRow: Row -> Result<P>, narrator: seq<P> -> string, n: Option<string>)
    requires Narrated(TableProfiles(tableName, RelatedData(dataframes, encounterId), fromRow), narrator) == Ok(n)
    ensures n.None? <==> !HasRows(dataframes, tableName, encounterId)
  {
    TableProfilesRows(tableName, RelatedData(dataframes, encounterId), fromRow);
  }

  /** generate_narrative_for_table skips a category, leaving it out of the
      encounter narrative's inputs, exactly when the encounter has no rows
      of it. */
  lemma SkippedCategories(dataframes: Dataframes, encounterId: string, engine: Engine, classes: ProfileClasses)
    requires CategoryNarrativesOf(RelatedData(dataframes, encounterId), engine, classes).Ok?
    ensures var n := CategoryNarrativesOf(RelatedData(dataframes, encounterId), engine, classes).value;
      && (n.observations.None? <==> !HasRows(dataframes, "observations", encounterId))
      && (n.immunizations.None? <==> !HasRows(dataframes, "immunizations", encounterId))
      && (n.medications.None? <==> !HasRows(dataframes, "medications", encounterId))
      && (n.procedures.None? <==> !HasRows(dataframes, "procedures", encounterId))
      && (n.careplans.None? <==> !HasRows(dataframes, "careplans", encounterId))
      && (n.conditions.None? <==> !HasRows(dataframes, "conditions", encounterId))
      && (n.devices.None? <==> !HasRows(dataframes, "devices", encounterId))
      && (n.imagingStudies.None? <==> !HasRows(dataframes, "imaging_studies", encounterId))
  {
    var related := RelatedData(dataframes, encounterId);
    var n := CategoryNarrativesOf(related, engine, classes).value;
    CategoryNarrativesOk(related, engine, classes);
    SkippedCategory(dataframes, encounterId, "observations", classes.observations, engine.observations, n.observations);
    SkippedCategory(dataframes, encounterId, "immunizations", classes.immunizations, engine.immunizations, n.immunizations);
    SkippedCategory(dataframes, encounterId, "medications", classes.medications, engine.medications, n.medications);
    SkippedCategory(dataframes, encounterId, "procedures", classes.procedures, engine.procedures, n.procedures);
    SkippedCategory(dataframes, encounterId, "careplans", classes.careplans, engine.careplans, n.careplans);
    SkippedCategory(dataframes, encounterId, "conditions", classes.conditions, engine.conditions, n.conditions);
    SkippedCategory(dataframes, encounterId, "devices", classes.devices, engine.devices, n.devices);
    SkippedCategory(dataframes, encounterId, "imaging_studies", classes.imagingStudies, engine.imagingStudies, n.imagingStudies);
  }

  /** No cross-encounter leakage: every profile any category narrator of the
      main routine receives carries the selected encounter's id. */
  lemma NoCrossEncounterLeakage(dataframes: Dataframes, encounterId: string)
    ensures var related := RelatedData(dataframes, encounterId);
      && AllOfEncounter(TableProfiles("observations", related, Classes.observations), (p: ObservationProfile) => p.encounter, encounterId)
      && AllOfEncounter(TableProfiles("immunizations", related, Classes.immunizations), (p: ImmunizationProfile) => p.encounter, encounterId)
      && AllOfEncounter(TableProfiles("medications", related, Classes.medications), (p: MedicationProfile) => p.encounter, encounterId)
      && AllOfEncounter(TableProfiles("procedures", related, Classes.procedures), (p: ProcedureProfile) => p.encounter, encounterId)
      && AllOfEncounter(TableProfiles("careplans", related, Classes.careplans), (p: CarePlanProfile) => p.encounter, encounterId)
      && AllOfEncounter(TableProfiles("conditions", related, Classes.conditions), (p: ConditionProfile) => p.encounter, encounterId)
      && AllOfEncounter(TableProfiles("devices", related, Classes.devices), (p: DeviceProfile) => p.encounter, encounterId)
      && AllOfEncounter(TableProfiles("imaging_studies", related, Classes.imagingStudies), (p: ImagingStudyProfile) => p.encounter, encounterId)
  {
    ProfilesOfEncounter(dataframes, encounterId, "observations", ObservationFromRow, (p: ObservationProfile) => p.encounter);
    ProfilesOfEncounter(dataframes, encounterId, "immunizations", ImmunizationFromRow, (p: ImmunizationProfile) => p.encounter);
    ProfilesOfEncounter(dataframes, encounterId, "medications", MedicationFromRow, (p: MedicationProfile) => p.encounter);
    ProfilesOfEncounter(dataframes, encounterId, "procedures", ProcedureFromRow, (p: ProcedureProfile) => p.encounter);
    ProfilesOfEncounter(dataframes, encounterId, "careplans", CarePlanFromRow, (p: CarePlanProfile) => p.encounter);
    ProfilesOfEncounter(dataframes, encounterId, "conditions", ConditionFromRow, (p: ConditionProfile) => p.encounter);
    ProfilesOfEncounter(dataframes, encounterId, "devices", DeviceFromRow, (p: DeviceProfile) => p.encounter);
    ProfilesOfEncounter(dataframes, encounterId, "imaging_studies", ImagingStudyFromRow, (p: ImagingStudyProfile) => p.encounter);
  }

  /** The writing, refining and saving loops of a run for an encounter with
      no output yet: the i-th listed document is written once, refined once
      and saved as `0.txt` of variant i; no existing file changes and
      nothing else is written. */
  lemma RunSavesEachDocumentOnce(dataframes: Dataframes, encounterId: Option<string>, draw: nat,
                                 engine: Engine, classes: ProfileClasses, p: RunPlan,
                                 s: FsState, outputDir: Path)
    requires Plan(dataframes, encounterId, draw, engine, classes) == Ok(p)
    requires s.Valid() && RoomFor(s, outputDir + [p.encounter.id])
    requires VariantsBelow(s, outputDir + [p.encounter.id], 0)
    ensures var t := SaveAll(s, outputDir, p.encounter.id, p.refined);
      && t.Valid()
      && |p.refined| == |p.requests|
      && (forall i :: 0 <= i < |p.requests| ==>
            var file := RunFile(outputDir, p.encounter.id, i);
            var request := p.requests[i];
            file in t.files
            && t.files[file] == engine.refiner(request.documentType,
                                               engine.writer(request.documentType, request.description,
                                                             Tool(engine, p.context))))
      && (forall q <- s.files.Keys :: q in t.files && t.files[q] == s.files[q])
      && (forall q <- t.files.Keys :: q in s.files ||
            exists i :: 0 <= i < |p.requests| && q == RunFile(outputDir, p.encounter.id, i))
  {
    PlanParts(dataframes, encounterId, draw, engine, classes);
    SaveAllLayout(s, outputDir, p.encounter.id, p.refined);
  }
}
