/** Witnesses that every record constructor accepts some row: the success
    side of each constructor's characterisation is not empty. */
module RecordWitnesses {
  import opened Base
  import opened Cells
  import opened Timestamps
  import opened Records

  /** The columns PatientProfile.from_row reads. */
  const PatientColumns: set<string> :=
    {"Id", "BIRTHDATE", "SSN", "FIRST", "LAST", "MARITAL", "RACE", "ETHNICITY",
     "GENDER", "BIRTHPLACE", "ADDRESS", "CITY", "STATE", "COUNTY",
     "DEATHDATE", "DRIVERS", "PASSPORT", "PREFIX", "SUFFIX",
     "MAIDEN", "ZIP", "LAT", "LON", "HEALTHCARE_EXPENSES",
     "HEALTHCARE_COVERAGE"}

  /** Some patients row converts: the row holding the given date in every column
      the constructor reads, NaN for ZIP. */
  lemma SomePatientRowConverts(when: Date)
    ensures exists row :: PatientFromRow(row).Ok?
  {
    var cell := DateCell(Some(when));
    assert cell.Str?;
    var row := map c | c in PatientColumns :: if c in {"ZIP"} then Missing else cell;
    assert forall c :: c in PatientColumns && c !in {"ZIP"} ==> c in row && row[c] == cell;
    assert DateAt(row, "BIRTHDATE") == Ok(Some(when));
    assert DateAt(row, "DEATHDATE") == Ok(Some(when));
    assert ZipAt(row);
    PatientRowConvertsIf(row);
    assert PatientFromRow(row).Ok?;
  }

  /** The columns EncounterProfile.from_row reads. */
  const EncounterColumns: set<string> :=
    {"Id", "START", "STOP", "PATIENT", "ORGANIZATION", "PROVIDER", "PAYER",
     "ENCOUNTERCLASS", "CODE", "DESCRIPTION",
     "BASE_ENCOUNTER_COST", "TOTAL_CLAIM_COST", "PAYER_COVERAGE",
     "REASONCODE", "REASONDESCRIPTION"}

  /** Some encounters row converts: the row holding the given date-time in every column
      the constructor reads. */
  lemma SomeEncounterRowConverts(when: DateTime)
    ensures exists row :: EncounterFromRow(row).Ok?
  {
    var cell := DateTimeCell(Some(when));
    assert cell.Str?;
    var row := map c | c in EncounterColumns :: cell;
    assert forall c :: c in EncounterColumns ==> c in row && row[c] == cell;
    assert DateTimeAt(row, "START") == Ok(Some(when));
    assert DateTimeAt(row, "STOP") == Ok(Some(when));
    EncounterRowConvertsIf(row);
    assert EncounterFromRow(row).Ok?;
  }

  /** The columns ObservationProfile.from_row reads. */
  const ObservationColumns: set<string> :=
    {"DATE", "PATIENT", "ENCOUNTER", "CODE", "DESCRIPTION", "VALUE", "UNITS", "TYPE"}

  /** Some observations row converts: the row holding the given date-time in every column
      the constructor reads. */
  lemma SomeObservationRowConverts(when: DateTime)
    ensures exists row :: ObservationFromRow(row).Ok?
  {
    var cell := DateTimeCell(Some(when));
    assert cell.Str?;
    var row := map c | c in ObservationColumns :: cell;
    assert forall c :: c in ObservationColumns ==> c in row && row[c] == cell;
    assert DateTimeAt(row, "DATE") == Ok(Some(when));
    assert ObservationRowConverts(row);
    assert ObservationFromRow(row).Ok?;
  }

  /** The columns ImmunizationProfile.from_row reads. */
  const ImmunizationColumns: set<string> :=
    {"DATE", "PATIENT", "ENCOUNTER", "CODE", "DESCRIPTION", "BASE_COST"}

  /** Some immunizations row converts: the row holding the given date-time in every column
      the constructor reads, 0 in its integer columns. */
  lemma SomeImmunizationRowConverts(when: DateTime)
    ensures exists row :: ImmunizationFromRow(row).Ok?
  {
    var cell := DateTimeCell(Some(when));
    assert cell.Str?;
    var row := map c | c in ImmunizationColumns :: if c in {"CODE"} then Num(IntNum(0)) else cell;
    assert forall c :: c in ImmunizationColumns && c !in {"CODE"} ==> c in row && row[c] == cell;
    assert DateTimeAt(row, "DATE") == Ok(Some(when));
    assert ImmunizationRowConverts(row);
    assert ImmunizationFromRow(row).Ok?;
  }

  /** The columns MedicationProfile.from_row reads. */
  const MedicationColumns: set<string> :=
    {"START", "STOP", "PATIENT", "PAYER", "ENCOUNTER", "CODE", "DESCRIPTION",
     "BASE_COST", "PAYER_COVERAGE", "DISPENSES", "TOTALCOST",
     "REASONCODE", "REASONDESCRIPTION"}

  /** Some medications row converts: the row holding the given date-time in every column
      the constructor reads, 0 in its integer columns. */
  lemma SomeMedicationRowConverts(when: DateTime)
    ensures exists row :: MedicationFromRow(row).Ok?
  {
    var cell := DateTimeCell(Some(when));
    assert cell.Str?;
    var row := map c | c in MedicationColumns :: if c in {"CODE", "DISPENSES"} then Num(IntNum(0)) else cell;
    assert forall c :: c in MedicationColumns && c !in {"CODE", "DISPENSES"} ==> c in row && row[c] == cell;
    assert DateTimeAt(row, "START") == Ok(Some(when));
    assert DateTimeAt(row, "STOP") == Ok(Some(when));
    assert MedicationRowConverts(row);
    assert MedicationFromRow(row).Ok?;
  }

  /** The columns ProcedureProfile.from_row reads. */
  const ProcedureColumns: set<string> :=
    {"DATE", "PATIENT", "ENCOUNTER", "CODE", "DESCRIPTION", "BASE_COST", "REASONCODE",
     "REASONDESCRIPTION"}

  /** Some procedures row converts: the row holding the given date-time in every column
      the constructor reads, 0 in its integer columns. */
  lemma SomeProcedureRowConverts(when: DateTime)
    ensures exists row :: ProcedureFromRow(row).Ok?
  {
    var cell := DateTimeCell(Some(when));
    assert cell.Str?;
    var row := map c | c in ProcedureColumns :: if c in {"CODE"} then Num(IntNum(0)) else cell;
    assert forall c :: c in ProcedureColumns && c !in {"CODE"} ==> c in row && row[c] == cell;
    assert DateTimeAt(row, "DATE") == Ok(Some(when));
    assert ProcedureRowConverts(row);
    assert ProcedureFromRow(row).Ok?;
  }

  /** The columns CarePlanProfile.from_row reads. */
  const CarePlanColumns: set<string> :=
    {"Id", "START", "STOP", "PATIENT", "ENCOUNTER", "CODE", "DESCRIPTION",
     "REASONCODE", "REASONDESCRIPTION"}

  /** Some care plans row converts: the row holding the given date in every column
      the constructor reads, 0 in its integer columns. */
  lemma SomeCarePlanRowConverts(when: Date)
    ensures exists row :: CarePlanFromRow(row).Ok?
  {
    var cell := DateCell(Some(when));
    assert cell.Str?;
    var row := map c | c in CarePlanColumns :: if c in {"CODE"} then Num(IntNum(0)) else cell;
    assert forall c :: c in CarePlanColumns && c !in {"CODE"} ==> c in row && row[c] == cell;
    assert DateAt(row, "START") == Ok(Some(when));
    assert DateAt(row, "STOP") == Ok(Some(when));
    assert CarePlanRowConverts(row);
    assert CarePlanFromRow(row).Ok?;
  }

  /** The columns ConditionProfile.from_row reads. */
  const ConditionColumns: set<string> :=
    {"START", "STOP", "PATIENT", "ENCOUNTER", "CODE", "DESCRIPTION"}

  /** Some conditions row converts: the row holding the given date in every column
      the constructor reads, 0 in its integer columns. */
  lemma SomeConditionRowConverts(when: Date)
    ensures exists row :: ConditionFromRow(row).Ok?
  {
    var cell := DateCell(Some(when));
    assert cell.Str?;
    var row := map c | c in ConditionColumns :: if c in {"CODE"} then Num(IntNum(0)) else cell;
    assert forall c :: c in ConditionColumns && c !in {"CODE"} ==> c in row && row[c] == cell;
    assert DateAt(row, "START") == Ok(Some(when));
    assert DateAt(row, "STOP") == Ok(Some(when));
    assert ConditionRowConverts(row);
    assert ConditionFromRow(row).Ok?;
  }

  /** The columns DeviceProfile.from_row reads. */
  const DeviceColumns: set<string> :=
    {"START", "STOP", "PATIENT", "ENCOUNTER", "CODE", "DESCRIPTION", "UDI"}

  /** Some devices row converts: the row holding the given date-time in every column
      the constructor reads, 0 in its integer columns. */
  lemma SomeDeviceRowConverts(when: DateTime)
    ensures exists row :: DeviceFromRow(row).Ok?
  {
    var cell := DateTimeCell(Some(when));
    assert cell.Str?;
    var row := map c | c in DeviceColumns :: if c in {"CODE"} then Num(IntNum(0)) else cell;
    assert forall c :: c in DeviceColumns && c !in {"CODE"} ==> c in row && row[c] == cell;
    assert DateTimeAt(row, "START") == Ok(Some(when));
    assert DateTimeAt(row, "STOP") == Ok(Some(when));
    assert DeviceRowConverts(row);
    assert DeviceFromRow(row).Ok?;
  }

  /** The columns ImagingStudyProfile.from_row reads. */
  const ImagingStudyColumns: set<string> :=
    {"Id", "DATE", "PATIENT", "ENCOUNTER", "BODYSITE_CODE", "BODYSITE_DESCRIPTION",
     "MODALITY_CODE", "MODALITY_DESCRIPTION", "SOP_CODE",
     "SOP_DESCRIPTION"}

  /** Some imaging studies row converts: the row holding the given date-time in every column
      the constructor reads, 0 in its integer columns. */
  lemma SomeImagingStudyRowConverts(when: DateTime)
    ensures exists row :: ImagingStudyFromRow(row).Ok?
  {
    var cell := DateTimeCell(Some(when));
    assert cell.Str?;
    var row := map c | c in ImagingStudyColumns :: if c in {"BODYSITE_CODE"} then Num(IntNum(0)) else cell;
    assert forall c :: c in ImagingStudyColumns && c !in {"BODYSITE_CODE"} ==> c in row && row[c] == cell;
    assert DateTimeAt(row, "DATE") == Ok(Some(when));
    assert ImagingStudyRowConverts(row);
    assert ImagingStudyFromRow(row).Ok?;
  }
}
