/** The record model: one datatype per EHR category and the `from_row`
    constructor of each, mapping a pandas row to a validated record.

    Each constructor evaluates its keyword arguments left to right, as Python
    does, so the first KeyError, ValueError or AttributeError raised while
    reading the row is the error returned; only when every argument has been
    computed does pydantic validate the fields, failing with ValidationError
    when a required date is None or a string field receives a non-string. */
module Records {
  import opened Base
  import opened Text
  import opened Cells
  import opened Timestamps

  datatype PatientProfile = PatientProfile(
    id: string, birthdate: Date, ssn: string, first: string, last: string, race: string,
    ethnicity: string, gender: string, birthplace: string, address: string, city: string,
    state: string, county: string,
    deathdate: Option<Date>, drivers: Option<string>, passport: Option<string>,
    prefix: Option<string>, suffix: Option<string>, maiden: Option<string>,
    zip: Option<string>, marital: Option<string>,
    lat: FloatValue, lon: FloatValue, healthcareExpenses: FloatValue, healthcareCoverage: FloatValue)

  datatype EncounterProfile = EncounterProfile(
    id: string, start: DateTime, stop: DateTime, patient: string, organization: string,
    provider: string, payer: string, encounterClass: string, code: string, description: string,
    baseEncounterCost: FloatValue, totalClaimCost: FloatValue, payerCoverage: FloatValue,
    reasonCode: Option<FloatValue>, reasonDescription: Option<string>)

  datatype ObservationProfile = ObservationProfile(
    date: DateTime, patient: string, code: string, description: string, value: string,
    kind: string, encounter: Option<string>, units: Option<string>)

  datatype ImmunizationProfile = ImmunizationProfile(
    date: DateTime, patient: string, code: int, description: string, baseCost: FloatValue,
    encounter: Option<string>)

  datatype MedicationProfile = MedicationProfile(
    start: DateTime, patient: string, payer: string, code: int, description: string,
    baseCost: FloatValue, payerCoverage: FloatValue, dispenses: int, totalCost: FloatValue,
    stop: Option<DateTime>, encounter: Option<string>, reasonCode: Option<FloatValue>,
    reasonDescription: Option<string>)

  datatype ProcedureProfile = ProcedureProfile(
    date: DateTime, patient: string, code: int, description: string, baseCost: FloatValue,
    encounter: Option<string>, reasonCode: Option<FloatValue>, reasonDescription: Option<string>)

  datatype CarePlanProfile = CarePlanProfile(
    id: string, start: Date, patient: string, code: int, description: string,
    stop: Option<Date>, encounter: Option<string>, reasonCode: Option<FloatValue>,
    reasonDescription: Option<string>)

  datatype ConditionProfile = ConditionProfile(
    start: Date, patient: string, code: int, description: string,
    stop: Option<Date>, encounter: Option<string>)

  datatype DeviceProfile = DeviceProfile(
    start: DateTime, patient: string, code: int, description: string, udi: string,
    stop: Option<DateTime>, encounter: Option<string>)

  datatype ImagingStudyProfile = ImagingStudyProfile(
    id: string, date: DateTime, patient: string, bodysiteCode: int, bodysiteDescription: string,
    modalityCode: string, modalityDescription: string, sopCode: string, sopDescription: string,
    encounter: Option<string>)

  /** parse_date(row[column]) */
  function DateAt(row: Row, column: string): (r: Result<Option<Date>>)
    ensures column !in row ==> r == Err(KeyError(column))
    ensures column in row ==> r == ParseDate(row[column])
    ensures r == Ok(None) <==> column in row && IsBlank(row[column])
  {
    var c :- Get(row, column);
    ParseDate(c)
  }

  /** parse_datetime(row[column]) */
  function DateTimeAt(row: Row, column: string): (r: Result<Option<DateTime>>)
    ensures column !in row ==> r == Err(KeyError(column))
    ensures column in row ==> r == ParseDateTime(row[column])
    ensures r == Ok(None) <==> column in row && IsBlank(row[column])
  {
    var c :- Get(row, column);
    ParseDateTime(c)
  }

  /** `None if pd.isna(c) else str(int(c))`: the ZIP code as the decimal
      string of the cell's integer part. */
  function ZipText(c: Cell): (r: Result<Option<string>>)
    ensures IsNa(c) ==> r == Ok(None)
    ensures !IsNa(c) ==> (r.Err? <==> ToInt(c).Err?)
    ensures !IsNa(c) && r.Ok? ==> r.value.Some?
    ensures r.Ok? && r.value.Some? ==>
      ToInt(c).Ok? && r.value.value == IntToDecimal(ToInt(c).value)
      && DecimalToInt(r.value.value) == Some(ToInt(c).value)
  {
    if IsNa(c) then Ok(None)
    else
      var i :- ToInt(c);
      IntToDecimalRoundTrip(i);
      Ok(Some(IntToDecimal(i)))
  }

  /** A ZIP column that pandas read as float64 (because some ZIP is blank)
      holds whole numbers such as 2134.0; the profile gets their integer
      spelling, "2134", without the ".0". */
  lemma ZipOfWholeFloat(n: int, repr: string)
    ensures ZipText(Num(FloatNum(n as real, repr))) == Ok(Some(IntToDecimal(n)))
  {
    assert ToInt(Num(FloatNum(n as real, repr))) == Ok(n);
  }

  /** 2134.0 in a float64 ZIP column becomes "2134". */
  lemma ZipOfFloatExample()
    ensures ZipText(Num(FloatNum(2134.0, "2134.0"))) == Ok(Some("2134"))
  {
    ZipOfWholeFloat(2134, "2134.0");
    assert IntToDecimal(2134) == "2134";
  }

  /** The row has the column, holding exactly that cell. */
  predicate Holds(row: Row, column: string, c: Cell) { column in row && row[column] == c }

  /** A column holding text, as a pydantic `str` field requires. */
  predicate TextAt(row: Row, column: string) { column in row && row[column].Str? }

  /** A column holding text or NaN, as an `Optional[str]` field fed
      `None if pd.isna(c) else c` requires. */
  predicate OptionalTextAt(row: Row, column: string) { column in row && IsOptionalText(row[column]) }

  /** A column whose cell int() accepts. */
  predicate IntAt(row: Row, column: string) { column in row && ToInt(row[column]).Ok? }

  /** A column holding a date, as a required `Date` field needs. */
  predicate DateGiven(row: Row, column: string) { DateAt(row, column).Ok? && DateAt(row, column).value.Some? }

  /** A column holding a date-time, as a required `DateTime` field needs. */
  predicate DateTimeGiven(row: Row, column: string)
  {
    DateTimeAt(row, column).Ok? && DateTimeAt(row, column).value.Some?
  }

  /** A ZIP column that is NaN or accepted by int(). */
  predicate ZipAt(row: Row) { "ZIP" in row && ZipText(row["ZIP"]).Ok? }

  /** A ZIP value the constructor can produce: None or the decimal spelling
      of an integer. */
  predicate ZipSpelled(z: Option<string>)
  {
    z.Some? ==> DecimalToInt(z.value).Some? && IntToDecimal(DecimalToInt(z.value).value) == z.value
  }

  /** The ZIP cell of a CSV row: NaN for None, otherwise the integer. */
  function ZipCell(z: Option<string>): (c: Cell)
    ensures ZipSpelled(z) ==> ZipText(c) == Ok(z)
  {
    if z.Some? && DecimalToInt(z.value).Some? then Num(IntNum(DecimalToInt(z.value).value)) else Missing
  }

  /** The rows PatientProfile.from_row accepts: every column it reads is
      present, with cells its conversions and pydantic accept. */
  predicate PatientRowConverts(row: Row)
  {
    TextAt(row, "Id") && DateGiven(row, "BIRTHDATE") && TextAt(row, "SSN") && TextAt(row, "FIRST")
    && TextAt(row, "LAST") && OptionalTextAt(row, "MARITAL") && TextAt(row, "RACE")
    && TextAt(row, "ETHNICITY") && TextAt(row, "GENDER") && TextAt(row, "BIRTHPLACE")
    && TextAt(row, "ADDRESS") && TextAt(row, "CITY") && TextAt(row, "STATE") && TextAt(row, "COUNTY")
    && DateAt(row, "DEATHDATE").Ok? && OptionalTextAt(row, "DRIVERS") && OptionalTextAt(row, "PASSPORT")
    && OptionalTextAt(row, "PREFIX") && OptionalTextAt(row, "SUFFIX") && OptionalTextAt(row, "MAIDEN")
    && ZipAt(row) && "LAT" in row && "LON" in row && "HEALTHCARE_EXPENSES" in row
    && "HEALTHCARE_COVERAGE" in row
  }

  /** PatientProfile.from_row */
  function PatientFromRow(row: Row): (r: Result<PatientProfile>)
    ensures r.Ok? ==> "Id" in row && row["Id"] == Str(r.value.id)
    ensures r.Ok? ==> DateAt(row, "BIRTHDATE") == Ok(Some(r.value.birthdate))
    ensures DateAt(row, "BIRTHDATE") == Ok(None) ==> r.Err?
    ensures r.Ok? ==> DateAt(row, "DEATHDATE") == Ok(r.value.deathdate)
    ensures r.Ok? ==> "MARITAL" in row && Mirrors(row["MARITAL"], r.value.marital)
    ensures r.Ok? ==> "DRIVERS" in row && Mirrors(row["DRIVERS"], r.value.drivers)
    ensures r.Ok? ==> "PASSPORT" in row && Mirrors(row["PASSPORT"], r.value.passport)
    ensures r.Ok? ==> "PREFIX" in row && Mirrors(row["PREFIX"], r.value.prefix)
    ensures r.Ok? ==> "SUFFIX" in row && Mirrors(row["SUFFIX"], r.value.suffix)
    ensures r.Ok? ==> "MAIDEN" in row && Mirrors(row["MAIDEN"], r.value.maiden)
    ensures r.Ok? ==> "ZIP" in row && (r.value.zip.None? <==> IsNa(row["ZIP"]))
    ensures r.Ok? && r.value.zip.Some? ==>
      ToInt(row["ZIP"]).Ok? && r.value.zip.value == IntToDecimal(ToInt(row["ZIP"]).value)
  {
    var id :- Get(row, "Id");
    var birthdate :- DateAt(row, "BIRTHDATE");
    var ssn :- Get(row, "SSN");
    var first :- Get(row, "FIRST");
    var last :- Get(row, "LAST");
    var marital :- Get(row, "MARITAL");
    var race :- Get(row, "RACE");
    var ethnicity :- Get(row, "ETHNICITY");
    var gender :- Get(row, "GENDER");
    var birthplace :- Get(row, "BIRTHPLACE");
    var address :- Get(row, "ADDRESS");
    var city :- Get(row, "CITY");
    var state :- Get(row, "STATE");
    var county :- Get(row, "COUNTY");
    var deathdate :- DateAt(row, "DEATHDATE");
    var drivers :- Get(row, "DRIVERS");
    var passport :- Get(row, "PASSPORT");
    var prefix :- Get(row, "PREFIX");
    var suffix :- Get(row, "SUFFIX");
    var maiden :- Get(row, "MAIDEN");
    var zipCell :- Get(row, "ZIP");
    var zip :- ZipText(zipCell);
    var lat :- Get(row, "LAT");
    var lon :- Get(row, "LON");
    var expenses :- Get(row, "HEALTHCARE_EXPENSES");
    var coverage :- Get(row, "HEALTHCARE_COVERAGE");
    if id.Str? && birthdate.Some? && ssn.Str? && first.Str? && last.Str? && race.Str?
      && ethnicity.Str? && gender.Str? && birthplace.Str? && address.Str? && city.Str?
      && state.Str? && county.Str?
      && IsOptionalText(drivers) && IsOptionalText(passport) && IsOptionalText(prefix)
      && IsOptionalText(suffix) && IsOptionalText(maiden) && IsOptionalText(marital)
    then
      Ok(PatientProfile(
        id.s, birthdate.value, ssn.s, first.s, last.s, race.s, ethnicity.s, gender.s,
        birthplace.s, address.s, city.s, state.s, county.s,
        deathdate, OptionalText(drivers), OptionalText(passport), OptionalText(prefix),
        OptionalText(suffix), OptionalText(maiden), zip, OptionalText(marital),
        ToFloat(lat), ToFloat(lon), ToFloat(expenses), ToFloat(coverage)))
    else
      Err(ValidationError)
  }

  lemma PatientRowConvertsIf(row: Row)
    requires PatientRowConverts(row)
    ensures PatientFromRow(row).Ok?
  {
  }

  lemma PatientRowConvertsOnlyIf(row: Row)
    requires PatientFromRow(row).Ok?
    ensures PatientRowConverts(row)
  {
  }

  /** A patients row converts exactly when every column the constructor reads
      is present and holds a cell its conversion and pydantic accept. */
  lemma PatientRowConversion(row: Row)
    ensures PatientFromRow(row).Ok? <==> PatientRowConverts(row)
  {
    if PatientRowConverts(row) {
      PatientRowConvertsIf(row);
    }
    if PatientFromRow(row).Ok? {
      PatientRowConvertsOnlyIf(row);
    }
  }

  /** A patients row whose cells spell the profile's fields, as Synthea
      writes them. */
  predicate SpellsPatient(row: Row, p: PatientProfile)
  {
    && Holds(row, "Id", Str(p.id)) && Holds(row, "BIRTHDATE", DateCell(Some(p.birthdate)))
    && Holds(row, "SSN", Str(p.ssn)) && Holds(row, "FIRST", Str(p.first)) && Holds(row, "LAST", Str(p.last))
    && Holds(row, "MARITAL", OptionalTextCell(p.marital)) && Holds(row, "RACE", Str(p.race))
    && Holds(row, "ETHNICITY", Str(p.ethnicity)) && Holds(row, "GENDER", Str(p.gender))
    && Holds(row, "BIRTHPLACE", Str(p.birthplace)) && Holds(row, "ADDRESS", Str(p.address))
    && Holds(row, "CITY", Str(p.city)) && Holds(row, "STATE", Str(p.state))
    && Holds(row, "COUNTY", Str(p.county)) && Holds(row, "DEATHDATE", DateCell(p.deathdate))
    && Holds(row, "DRIVERS", OptionalTextCell(p.drivers)) && Holds(row, "PASSPORT", OptionalTextCell(p.passport))
    && Holds(row, "PREFIX", OptionalTextCell(p.prefix)) && Holds(row, "SUFFIX", OptionalTextCell(p.suffix))
    && Holds(row, "MAIDEN", OptionalTextCell(p.maiden)) && Holds(row, "ZIP", ZipCell(p.zip))
    && Holds(row, "LAT", FloatCell(p.lat)) && Holds(row, "LON", FloatCell(p.lon))
    && Holds(row, "HEALTHCARE_EXPENSES", FloatCell(p.healthcareExpenses))
    && Holds(row, "HEALTHCARE_COVERAGE", FloatCell(p.healthcareCoverage))
  }

  /** Every profile the constructor can produce is read back from a row that
      spells it. */
  lemma PatientRowRoundTrip(row: Row, p: PatientProfile)
    requires SpellsPatient(row, p) && ZipSpelled(p.zip)
    ensures PatientFromRow(row) == Ok(p)
  {
    PatientRowConvertsIf(row);
  }

  /** The rows EncounterProfile.from_row accepts: every column it reads is present, with
      cells its conversions and pydantic accept. */
  predicate EncounterRowConverts(row: Row)
  {
    TextAt(row, "Id") && DateTimeGiven(row, "START") && DateTimeGiven(row, "STOP")
    && TextAt(row, "PATIENT") && TextAt(row, "ORGANIZATION") && TextAt(row, "PROVIDER")
    && TextAt(row, "PAYER") && TextAt(row, "ENCOUNTERCLASS") && "CODE" in row
    && TextAt(row, "DESCRIPTION") && "BASE_ENCOUNTER_COST" in row && "TOTAL_CLAIM_COST" in row
    && "PAYER_COVERAGE" in row && "REASONCODE" in row && OptionalTextAt(row, "REASONDESCRIPTION")
  }

  /** EncounterProfile.from_row */
  function EncounterFromRow(row: Row): (r: Result<EncounterProfile>)
    ensures r.Ok? ==> "Id" in row && row["Id"] == Str(r.value.id)
    ensures r.Ok? ==> "PATIENT" in row && row["PATIENT"] == Str(r.value.patient)
    ensures r.Ok? ==> DateTimeAt(row, "START") == Ok(Some(r.value.start))
    ensures r.Ok? ==> DateTimeAt(row, "STOP") == Ok(Some(r.value.stop))
    ensures DateTimeAt(row, "START") == Ok(None) ==> r.Err?
    ensures DateTimeAt(row, "STOP") == Ok(None) ==> r.Err?
    ensures r.Ok? ==> "CODE" in row && r.value.code == ToStr(row["CODE"])
    ensures r.Ok? ==> "REASONCODE" in row && (r.value.reasonCode.None? <==> IsNa(row["REASONCODE"]))
    ensures r.Ok? ==> "REASONDESCRIPTION" in row && Mirrors(row["REASONDESCRIPTION"], r.value.reasonDescription)
  {
    var id :- Get(row, "Id");
    var start :- DateTimeAt(row, "START");
    var stop :- DateTimeAt(row, "STOP");
    var patient :- Get(row, "PATIENT");
    var organization :- Get(row, "ORGANIZATION");
    var provider :- Get(row, "PROVIDER");
    var payer :- Get(row, "PAYER");
    var encounterClass :- Get(row, "ENCOUNTERCLASS");
    var code :- Get(row, "CODE");
    var description :- Get(row, "DESCRIPTION");
    var baseCost :- Get(row, "BASE_ENCOUNTER_COST");
    var claimCost :- Get(row, "TOTAL_CLAIM_COST");
    var coverage :- Get(row, "PAYER_COVERAGE");
    var reasonCode :- Get(row, "REASONCODE");
    var reasonDescription :- Get(row, "REASONDESCRIPTION");
    if id.Str? && start.Some? && stop.Some? && patient.Str? && organization.Str?
      && provider.Str? && payer.Str? && encounterClass.Str? && description.Str?
      && IsOptionalText(reasonDescription)
    then
      Ok(EncounterProfile(
        id.s, start.value, stop.value, patient.s, organization.s, provider.s, payer.s,
        encounterClass.s, ToStr(code), description.s,
        ToFloat(baseCost), ToFloat(claimCost), ToFloat(coverage),
        OptionalFloat(reasonCode), OptionalText(reasonDescription)))
    else
      Err(ValidationError)
  }

  /** The encounter code is stored as str(CODE): an integer code reads back as itself. */
  lemma EncounterCodeReadsBack(row: Row, code: int)
    requires EncounterFromRow(row).Ok?
    requires row["CODE"] == Num(IntNum(code))
    ensures DecimalToInt(EncounterFromRow(row).value.code) == Some(code)
  {
    IntToDecimalRoundTrip(code);
  }

  lemma EncounterRowConvertsIf(row: Row)
    requires EncounterRowConverts(row)
    ensures EncounterFromRow(row).Ok?
  {
  }

  lemma EncounterRowConvertsOnlyIf(row: Row)
    requires EncounterFromRow(row).Ok?
    ensures EncounterRowConverts(row)
  {
  }

  /** An encounters row converts exactly when every column the constructor
      reads is present and holds a cell its conversion and pydantic accept. */
  lemma EncounterRowConversion(row: Row)
    ensures EncounterFromRow(row).Ok? <==> EncounterRowConverts(row)
  {
    if EncounterRowConverts(row) {
      EncounterRowConvertsIf(row);
    }
    if EncounterFromRow(row).Ok? {
      EncounterRowConvertsOnlyIf(row);
    }
  }

  /** An encounters row whose cells spell the profile's fields, as Synthea writes them. */
  predicate SpellsEncounter(row: Row, p: EncounterProfile)
  {
    Holds(row, "Id", Str(p.id)) && Holds(row, "START", DateTimeCell(Some(p.start)))
    && Holds(row, "STOP", DateTimeCell(Some(p.stop))) && Holds(row, "PATIENT", Str(p.patient))
    && Holds(row, "ORGANIZATION", Str(p.organization)) && Holds(row, "PROVIDER", Str(p.provider))
    && Holds(row, "PAYER", Str(p.payer)) && Holds(row, "ENCOUNTERCLASS", Str(p.encounterClass))
    && Holds(row, "CODE", Str(p.code)) && Holds(row, "DESCRIPTION", Str(p.description))
    && Holds(row, "BASE_ENCOUNTER_COST", FloatCell(p.baseEncounterCost))
    && Holds(row, "TOTAL_CLAIM_COST", FloatCell(p.totalClaimCost))
    && Holds(row, "PAYER_COVERAGE", FloatCell(p.payerCoverage))
    && Holds(row, "REASONCODE", OptionalFloatCell(p.reasonCode))
    && Holds(row, "REASONDESCRIPTION", OptionalTextCell(p.reasonDescription))
  }

  /** Every profile the constructor can produce is read back from a row that
      spells it. */
  lemma EncounterRowRoundTrip(row: Row, p: EncounterProfile)
    requires SpellsEncounter(row, p) && p.reasonCode != Some(NaN)
    ensures EncounterFromRow(row) == Ok(p)
  {
    EncounterRowConvertsIf(row);
  }

  /** The rows ObservationProfile.from_row accepts: every column it reads is present, with
      cells its conversions and pydantic accept. */
  predicate ObservationRowConverts(row: Row)
  {
    DateTimeGiven(row, "DATE") && TextAt(row, "PATIENT") && OptionalTextAt(row, "ENCOUNTER")
    && "CODE" in row && TextAt(row, "DESCRIPTION") && "VALUE" in row && OptionalTextAt(row, "UNITS")
    && TextAt(row, "TYPE")
  }

  /** ObservationProfile.from_row */
  function ObservationFromRow(row: Row): (r: Result<ObservationProfile>)
    ensures r.Ok? <==> ObservationRowConverts(row)
    ensures r.Ok? ==> DateTimeAt(row, "DATE") == Ok(Some(r.value.date))
    ensures DateTimeAt(row, "DATE") == Ok(None) ==> r.Err?
    ensures r.Ok? ==> "ENCOUNTER" in row && Mirrors(row["ENCOUNTER"], r.value.encounter)
    ensures r.Ok? ==> "UNITS" in row && Mirrors(row["UNITS"], r.value.units)
    ensures r.Ok? ==> "CODE" in row && r.value.code == ToStr(row["CODE"])
    ensures r.Ok? ==> "VALUE" in row && r.value.value == ToStr(row["VALUE"])
  {
    var date :- DateTimeAt(row, "DATE");
    var patient :- Get(row, "PATIENT");
    var encounter :- Get(row, "ENCOUNTER");
    var code :- Get(row, "CODE");
    var description :- Get(row, "DESCRIPTION");
    var value :- Get(row, "VALUE");
    var units :- Get(row, "UNITS");
    var kind :- Get(row, "TYPE");
    if date.Some? && patient.Str? && description.Str? && kind.Str?
      && IsOptionalText(encounter) && IsOptionalText(units)
    then
      Ok(ObservationProfile(
        date.value, patient.s, ToStr(code), description.s, ToStr(value), kind.s,
        OptionalText(encounter), OptionalText(units)))
    else
      Err(ValidationError)
  }

  /** An observations row whose cells spell the profile's fields, as Synthea writes them. */
  predicate SpellsObservation(row: Row, p: ObservationProfile)
  {
    Holds(row, "DATE", DateTimeCell(Some(p.date))) && Holds(row, "PATIENT", Str(p.patient))
    && Holds(row, "ENCOUNTER", OptionalTextCell(p.encounter)) && Holds(row, "CODE", Str(p.code))
    && Holds(row, "DESCRIPTION", Str(p.description)) && Holds(row, "VALUE", Str(p.value))
    && Holds(row, "UNITS", OptionalTextCell(p.units)) && Holds(row, "TYPE", Str(p.kind))
  }

  /** Every profile the constructor can produce is read back from a row that
      spells it. */
  lemma ObservationRowRoundTrip(row: Row, p: ObservationProfile)
    requires SpellsObservation(row, p)
    ensures ObservationFromRow(row) == Ok(p)
  {
  }

  /** The rows ImmunizationProfile.from_row accepts: every column it reads is present, with
      cells its conversions and pydantic accept. */
  predicate ImmunizationRowConverts(row: Row)
  {
    DateTimeGiven(row, "DATE") && TextAt(row, "PATIENT") && OptionalTextAt(row, "ENCOUNTER")
    && IntAt(row, "CODE") && TextAt(row, "DESCRIPTION") && "BASE_COST" in row
  }

  /** ImmunizationProfile.from_row */
  function ImmunizationFromRow(row: Row): (r: Result<ImmunizationProfile>)
    ensures r.Ok? <==> ImmunizationRowConverts(row)
    ensures r.Ok? ==> DateTimeAt(row, "DATE") == Ok(Some(r.value.date))
    ensures DateTimeAt(row, "DATE") == Ok(None) ==> r.Err?
    ensures r.Ok? ==> "ENCOUNTER" in row && Mirrors(row["ENCOUNTER"], r.value.encounter)
    ensures r.Ok? ==> "CODE" in row && ToInt(row["CODE"]) == Ok(r.value.code)
    ensures "CODE" in row && IsNa(row["CODE"]) ==> r.Err?
  {
    var date :- DateTimeAt(row, "DATE");
    var patient :- Get(row, "PATIENT");
    var encounter :- Get(row, "ENCOUNTER");
    var codeCell :- Get(row, "CODE");
    var code :- ToInt(codeCell);
    var description :- Get(row, "DESCRIPTION");
    var baseCost :- Get(row, "BASE_COST");
    if date.Some? && patient.Str? && description.Str? && IsOptionalText(encounter) then
      Ok(ImmunizationProfile(
        date.value, patient.s, code, description.s, ToFloat(baseCost), OptionalText(encounter)))
    else
      Err(ValidationError)
  }

  /** An immunizations row whose cells spell the profile's fields, as Synthea writes them. */
  predicate SpellsImmunization(row: Row, p: ImmunizationProfile)
  {
    Holds(row, "DATE", DateTimeCell(Some(p.date))) && Holds(row, "PATIENT", Str(p.patient))
    && Holds(row, "ENCOUNTER", OptionalTextCell(p.encounter)) && Holds(row, "CODE", Num(IntNum(p.code)))
    && Holds(row, "DESCRIPTION", Str(p.description)) && Holds(row, "BASE_COST", FloatCell(p.baseCost))
  }

  /** Every profile the constructor can produce is read back from a row that
      spells it. */
  lemma ImmunizationRowRoundTrip(row: Row, p: ImmunizationProfile)
    requires SpellsImmunization(row, p)
    ensures ImmunizationFromRow(row) == Ok(p)
  {
  }

  /** The rows MedicationProfile.from_row accepts: every column it reads is present, with
      cells its conversions and pydantic accept. */
  predicate MedicationRowConverts(row: Row)
  {
    DateTimeGiven(row, "START") && DateTimeAt(row, "STOP").Ok? && TextAt(row, "PATIENT")
    && TextAt(row, "PAYER") && OptionalTextAt(row, "ENCOUNTER") && IntAt(row, "CODE")
    && TextAt(row, "DESCRIPTION") && "BASE_COST" in row && "PAYER_COVERAGE" in row
    && IntAt(row, "DISPENSES") && "TOTALCOST" in row && "REASONCODE" in row
    && OptionalTextAt(row, "REASONDESCRIPTION")
  }

  /** MedicationProfile.from_row */
  function MedicationFromRow(row: Row): (r: Result<MedicationProfile>)
    ensures r.Ok? <==> MedicationRowConverts(row)
    ensures r.Ok? ==> DateTimeAt(row, "START") == Ok(Some(r.value.start))
    ensures DateTimeAt(row, "START") == Ok(None) ==> r.Err?
    ensures r.Ok? ==> DateTimeAt(row, "STOP") == Ok(r.value.stop)
    ensures r.Ok? ==> "ENCOUNTER" in row && Mirrors(row["ENCOUNTER"], r.value.encounter)
    ensures r.Ok? ==> "CODE" in row && ToInt(row["CODE"]) == Ok(r.value.code)
    ensures r.Ok? ==> "DISPENSES" in row && ToInt(row["DISPENSES"]) == Ok(r.value.dispenses)
    ensures r.Ok? ==> "REASONCODE" in row && (r.value.reasonCode.None? <==> IsNa(row["REASONCODE"]))
    ensures r.Ok? ==> "REASONDESCRIPTION" in row && Mirrors(row["REASONDESCRIPTION"], r.value.reasonDescription)
  {
    var start :- DateTimeAt(row, "START");
    var stop :- DateTimeAt(row, "STOP");
    var patient :- Get(row, "PATIENT");
    var payer :- Get(row, "PAYER");
    var encounter :- Get(row, "ENCOUNTER");
    var codeCell :- Get(row, "CODE");
    var code :- ToInt(codeCell);
    var description :- Get(row, "DESCRIPTION");
    var baseCost :- Get(row, "BASE_COST");
    var coverage :- Get(row, "PAYER_COVERAGE");
    var dispensesCell :- Get(row, "DISPENSES");
    var dispenses :- ToInt(dispensesCell);
    var totalCost :- Get(row, "TOTALCOST");
    var reasonCode :- Get(row, "REASONCODE");
    var reasonDescription :- Get(row, "REASONDESCRIPTION");
    if start.Some? && patient.Str? && payer.Str? && description.Str?
      && IsOptionalText(encounter) && IsOptionalText(reasonDescription)
    then
      Ok(MedicationProfile(
        start.value, patient.s, payer.s, code, description.s,
        ToFloat(baseCost), ToFloat(coverage), dispenses, ToFloat(totalCost),
        stop, OptionalText(encounter), OptionalFloat(reasonCode), OptionalText(reasonDescription)))
    else
      Err(ValidationError)
  }

  /** A medications row whose cells spell the profile's fields, as Synthea writes them. */
  predicate SpellsMedication(row: Row, p: MedicationProfile)
  {
    Holds(row, "START", DateTimeCell(Some(p.start))) && Holds(row, "STOP", DateTimeCell(p.stop))
    && Holds(row, "PATIENT", Str(p.patient)) && Holds(row, "PAYER", Str(p.payer))
    && Holds(row, "ENCOUNTER", OptionalTextCell(p.encounter)) && Holds(row, "CODE", Num(IntNum(p.code)))
    && Holds(row, "DESCRIPTION", Str(p.description)) && Holds(row, "BASE_COST", FloatCell(p.baseCost))
    && Holds(row, "PAYER_COVERAGE", FloatCell(p.payerCoverage))
    && Holds(row, "DISPENSES", Num(IntNum(p.dispenses))) && Holds(row, "TOTALCOST", FloatCell(p.totalCost))
    && Holds(row, "REASONCODE", OptionalFloatCell(p.reasonCode))
    && Holds(row, "REASONDESCRIPTION", OptionalTextCell(p.reasonDescription))
  }

  /** Every profile the constructor can produce is read back from a row that
      spells it. */
  lemma MedicationRowRoundTrip(row: Row, p: MedicationProfile)
    requires SpellsMedication(row, p) && p.reasonCode != Some(NaN)
    ensures MedicationFromRow(row) == Ok(p)
  {
  }

  /** The rows ProcedureProfile.from_row accepts: every column it reads is present, with
      cells its conversions and pydantic accept. */
  predicate ProcedureRowConverts(row: Row)
  {
    DateTimeGiven(row, "DATE") && TextAt(row, "PATIENT") && OptionalTextAt(row, "ENCOUNTER")
    && IntAt(row, "CODE") && TextAt(row, "DESCRIPTION") && "BASE_COST" in row && "REASONCODE" in row
    && OptionalTextAt(row, "REASONDESCRIPTION")
  }

  /** ProcedureProfile.from_row */
  function ProcedureFromRow(row: Row): (r: Result<ProcedureProfile>)
    ensures r.Ok? <==> ProcedureRowConverts(row)
    ensures r.Ok? ==> DateTimeAt(row, "DATE") == Ok(Some(r.value.date))
    ensures DateTimeAt(row, "DATE") == Ok(None) ==> r.Err?
    ensures r.Ok? ==> "ENCOUNTER" in row && Mirrors(row["ENCOUNTER"], r.value.encounter)
    ensures r.Ok? ==> "CODE" in row && ToInt(row["CODE"]) == Ok(r.value.code)
    ensures r.Ok? ==> "REASONCODE" in row && (r.value.reasonCode.None? <==> IsNa(row["REASONCODE"]))
    ensures r.Ok? ==> "REASONDESCRIPTION" in row && Mirrors(row["REASONDESCRIPTION"], r.value.reasonDescription)
  {
    var date :- DateTimeAt(row, "DATE");
    var patient :- Get(row, "PATIENT");
    var encounter :- Get(row, "ENCOUNTER");
    var codeCell :- Get(row, "CODE");
    var code :- ToInt(codeCell);
    var description :- Get(row, "DESCRIPTION");
    var baseCost :- Get(row, "BASE_COST");
    var reasonCode :- Get(row, "REASONCODE");
    var reasonDescription :- Get(row, "REASONDESCRIPTION");
    if date.Some? && patient.Str? && description.Str?
      && IsOptionalText(encounter) && IsOptionalText(reasonDescription)
    then
      Ok(ProcedureProfile(
        date.value, patient.s, code, description.s, ToFloat(baseCost),
        OptionalText(encounter), OptionalFloat(reasonCode), OptionalText(reasonDescription)))
    else
      Err(ValidationError)
  }

  /** A procedures row whose cells spell the profile's fields, as Synthea writes them. */
  predicate SpellsProcedure(row: Row, p: ProcedureProfile)
  {
    Holds(row, "DATE", DateTimeCell(Some(p.date))) && Holds(row, "PATIENT", Str(p.patient))
    && Holds(row, "ENCOUNTER", OptionalTextCell(p.encounter)) && Holds(row, "CODE", Num(IntNum(p.code)))
    && Holds(row, "DESCRIPTION", Str(p.description)) && Holds(row, "BASE_COST", FloatCell(p.baseCost))
    && Holds(row, "REASONCODE", OptionalFloatCell(p.reasonCode))
    && Holds(row, "REASONDESCRIPTION", OptionalTextCell(p.reasonDescription))
  }

  /** Every profile the constructor can produce is read back from a row that
      spells it. */
  lemma ProcedureRowRoundTrip(row: Row, p: ProcedureProfile)
    requires SpellsProcedure(row, p) && p.reasonCode != Some(NaN)
    ensures ProcedureFromRow(row) == Ok(p)
  {
  }

  /** The rows CarePlanProfile.from_row accepts: every column it reads is present, with
      cells its conversions and pydantic accept. */
  predicate CarePlanRowConverts(row: Row)
  {
    TextAt(row, "Id") && DateGiven(row, "START") && DateAt(row, "STOP").Ok? && TextAt(row, "PATIENT")
    && OptionalTextAt(row, "ENCOUNTER") && IntAt(row, "CODE") && TextAt(row, "DESCRIPTION")
    && "REASONCODE" in row && OptionalTextAt(row, "REASONDESCRIPTION")
  }

  /** CarePlanProfile.from_row */
  function CarePlanFromRow(row: Row): (r: Result<CarePlanProfile>)
    ensures r.Ok? <==> CarePlanRowConverts(row)
    ensures r.Ok? ==> DateAt(row, "START") == Ok(Some(r.value.start))
    ensures DateAt(row, "START") == Ok(None) ==> r.Err?
    ensures r.Ok? ==> DateAt(row, "STOP") == Ok(r.value.stop)
    ensures r.Ok? ==> "ENCOUNTER" in row && Mirrors(row["ENCOUNTER"], r.value.encounter)
    ensures r.Ok? ==> "CODE" in row && ToInt(row["CODE"]) == Ok(r.value.code)
    ensures r.Ok? ==> "REASONCODE" in row && (r.value.reasonCode.None? <==> IsNa(row["REASONCODE"]))
    ensures r.Ok? ==> "REASONDESCRIPTION" in row && Mirrors(row["REASONDESCRIPTION"], r.value.reasonDescription)
  {
    var id :- Get(row, "Id");
    var start :- DateAt(row, "START");
    var stop :- DateAt(row, "STOP");
    var patient :- Get(row, "PATIENT");
    var encounter :- Get(row, "ENCOUNTER");
    var codeCell :- Get(row, "CODE");
    var code :- ToInt(codeCell);
    var description :- Get(row, "DESCRIPTION");
    var reasonCode :- Get(row, "REASONCODE");
    var reasonDescription :- Get(row, "REASONDESCRIPTION");
    if id.Str? && start.Some? && patient.Str? && description.Str?
      && IsOptionalText(encounter) && IsOptionalText(reasonDescription)
    then
      Ok(CarePlanProfile(
        id.s, start.value, patient.s, code, description.s, stop,
        OptionalText(encounter), OptionalFloat(reasonCode), OptionalText(reasonDescription)))
    else
      Err(ValidationError)
  }

  /** A care plans row whose cells spell the profile's fields, as Synthea writes them. */
  predicate SpellsCarePlan(row: Row, p: CarePlanProfile)
  {
    Holds(row, "Id", Str(p.id)) && Holds(row, "START", DateCell(Some(p.start)))
    && Holds(row, "STOP", DateCell(p.stop)) && Holds(row, "PATIENT", Str(p.patient))
    && Holds(row, "ENCOUNTER", OptionalTextCell(p.encounter)) && Holds(row, "CODE", Num(IntNum(p.code)))
    && Holds(row, "DESCRIPTION", Str(p.description))
    && Holds(row, "REASONCODE", OptionalFloatCell(p.reasonCode))
    && Holds(row, "REASONDESCRIPTION", OptionalTextCell(p.reasonDescription))
  }

  /** Every profile the constructor can produce is read back from a row that
      spells it. */
  lemma CarePlanRowRoundTrip(row: Row, p: CarePlanProfile)
    requires SpellsCarePlan(row, p) && p.reasonCode != Some(NaN)
    ensures CarePlanFromRow(row) == Ok(p)
  {
  }

  /** The rows ConditionProfile.from_row accepts: every column it reads is present, with
      cells its conversions and pydantic accept. */
  predicate ConditionRowConverts(row: Row)
  {
    DateGiven(row, "START") && DateAt(row, "STOP").Ok? && TextAt(row, "PATIENT")
    && OptionalTextAt(row, "ENCOUNTER") && IntAt(row, "CODE") && TextAt(row, "DESCRIPTION")
  }

  /** ConditionProfile.from_row */
  function ConditionFromRow(row: Row): (r: Result<ConditionProfile>)
    ensures r.Ok? <==> ConditionRowConverts(row)
    ensures r.Ok? ==> DateAt(row, "START") == Ok(Some(r.value.start))
    ensures DateAt(row, "START") == Ok(None) ==> r.Err?
    ensures r.Ok? ==> DateAt(row, "STOP") == Ok(r.value.stop)
    ensures r.Ok? ==> "ENCOUNTER" in row && Mirrors(row["ENCOUNTER"], r.value.encounter)
    ensures r.Ok? ==> "CODE" in row && ToInt(row["CODE"]) == Ok(r.value.code)
  {
    var start :- DateAt(row, "START");
    var stop :- DateAt(row, "STOP");
    var patient :- Get(row, "PATIENT");
    var encounter :- Get(row, "ENCOUNTER");
    var codeCell :- Get(row, "CODE");
    var code :- ToInt(codeCell);
    var description :- Get(row, "DESCRIPTION");
    if start.Some? && patient.Str? && description.Str? && IsOptionalText(encounter) then
      Ok(ConditionProfile(start.value, patient.s, code, description.s, stop, OptionalText(encounter)))
    else
      Err(ValidationError)
  }

  /** A conditions row whose cells spell the profile's fields, as Synthea writes them. */
  predicate SpellsCondition(row: Row, p: ConditionProfile)
  {
    Holds(row, "START", DateCell(Some(p.start))) && Holds(row, "STOP", DateCell(p.stop))
    && Holds(row, "PATIENT", Str(p.patient)) && Holds(row, "ENCOUNTER", OptionalTextCell(p.encounter))
    && Holds(row, "CODE", Num(IntNum(p.code))) && Holds(row, "DESCRIPTION", Str(p.description))
  }

  /** Every profile the constructor can produce is read back from a row that
      spells it. */
  lemma ConditionRowRoundTrip(row: Row, p: ConditionProfile)
    requires SpellsCondition(row, p)
    ensures ConditionFromRow(row) == Ok(p)
  {
  }

  /** The rows DeviceProfile.from_row accepts: every column it reads is present, with
      cells its conversions and pydantic accept. */
  predicate DeviceRowConverts(row: Row)
  {
    DateTimeGiven(row, "START") && DateTimeAt(row, "STOP").Ok? && TextAt(row, "PATIENT")
    && OptionalTextAt(row, "ENCOUNTER") && IntAt(row, "CODE") && TextAt(row, "DESCRIPTION")
    && TextAt(row, "UDI")
  }

  /** DeviceProfile.from_row */
  function DeviceFromRow(row: Row): (r: Result<DeviceProfile>)
    ensures r.Ok? <==> DeviceRowConverts(row)
    ensures r.Ok? ==> DateTimeAt(row, "START") == Ok(Some(r.value.start))
    ensures DateTimeAt(row, "START") == Ok(None) ==> r.Err?
    ensures r.Ok? ==> DateTimeAt(row, "STOP") == Ok(r.value.stop)
    ensures r.Ok? ==> "ENCOUNTER" in row && Mirrors(row["ENCOUNTER"], r.value.encounter)
    ensures r.Ok? ==> "CODE" in row && ToInt(row["CODE"]) == Ok(r.value.code)
    ensures r.Ok? ==> "UDI" in row && row["UDI"] == Str(r.value.udi)
  {
    var start :- DateTimeAt(row, "START");
    var stop :- DateTimeAt(row, "STOP");
    var patient :- Get(row, "PATIENT");
    var encounter :- Get(row, "ENCOUNTER");
    var codeCell :- Get(row, "CODE");
    var code :- ToInt(codeCell);
    var description :- Get(row, "DESCRIPTION");
    var udi :- Get(row, "UDI");
    if start.Some? && patient.Str? && description.Str? && udi.Str? && IsOptionalText(encounter) then
      Ok(DeviceProfile(start.value, patient.s, code, description.s, udi.s, stop, OptionalText(encounter)))
    else
      Err(ValidationError)
  }

  /** A devices row whose cells spell the profile's fields, as Synthea writes them. */
  predicate SpellsDevice(row: Row, p: DeviceProfile)
  {
    Holds(row, "START", DateTimeCell(Some(p.start))) && Holds(row, "STOP", DateTimeCell(p.stop))
    && Holds(row, "PATIENT", Str(p.patient)) && Holds(row, "ENCOUNTER", OptionalTextCell(p.encounter))
    && Holds(row, "CODE", Num(IntNum(p.code))) && Holds(row, "DESCRIPTION", Str(p.description))
    && Holds(row, "UDI", Str(p.udi))
  }

  /** Every profile the constructor can produce is read back from a row that
      spells it. */
  lemma DeviceRowRoundTrip(row: Row, p: DeviceProfile)
    requires SpellsDevice(row, p)
    ensures DeviceFromRow(row) == Ok(p)
  {
  }

  /** The rows ImagingStudyProfile.from_row accepts: every column it reads is present, with
      cells its conversions and pydantic accept. */
  predicate ImagingStudyRowConverts(row: Row)
  {
    TextAt(row, "Id") && DateTimeGiven(row, "DATE") && TextAt(row, "PATIENT")
    && OptionalTextAt(row, "ENCOUNTER") && IntAt(row, "BODYSITE_CODE")
    && TextAt(row, "BODYSITE_DESCRIPTION") && TextAt(row, "MODALITY_CODE")
    && TextAt(row, "MODALITY_DESCRIPTION") && TextAt(row, "SOP_CODE") && TextAt(row, "SOP_DESCRIPTION")
  }

  /** ImagingStudyProfile.from_row */
  function ImagingStudyFromRow(row: Row): (r: Result<ImagingStudyProfile>)
    ensures r.Ok? <==> ImagingStudyRowConverts(row)
    ensures r.Ok? ==> DateTimeAt(row, "DATE") == Ok(Some(r.value.date))
    ensures DateTimeAt(row, "DATE") == Ok(None) ==> r.Err?
    ensures r.Ok? ==> "ENCOUNTER" in row && Mirrors(row["ENCOUNTER"], r.value.encounter)
    ensures r.Ok? ==> "BODYSITE_CODE" in row && ToInt(row["BODYSITE_CODE"]) == Ok(r.value.bodysiteCode)
    ensures r.Ok? ==> "MODALITY_CODE" in row && row["MODALITY_CODE"] == Str(r.value.modalityCode)
    ensures r.Ok? ==> "SOP_CODE" in row && row["SOP_CODE"] == Str(r.value.sopCode)
  {
    var id :- Get(row, "Id");
    var date :- DateTimeAt(row, "DATE");
    var patient :- Get(row, "PATIENT");
    var encounter :- Get(row, "ENCOUNTER");
    var bodysiteCell :- Get(row, "BODYSITE_CODE");
    var bodysiteCode :- ToInt(bodysiteCell);
    var bodysiteDescription :- Get(row, "BODYSITE_DESCRIPTION");
    var modalityCode :- Get(row, "MODALITY_CODE");
    var modalityDescription :- Get(row, "MODALITY_DESCRIPTION");
    var sopCode :- Get(row, "SOP_CODE");
    var sopDescription :- Get(row, "SOP_DESCRIPTION");
    if id.Str? && date.Some? && patient.Str? && bodysiteDescription.Str? && modalityCode.Str?
      && modalityDescription.Str? && sopCode.Str? && sopDescription.Str? && IsOptionalText(encounter)
    then
      Ok(ImagingStudyProfile(
        id.s, date.value, patient.s, bodysiteCode, bodysiteDescription.s, modalityCode.s,
        modalityDescription.s, sopCode.s, sopDescription.s, OptionalText(encounter)))
    else
      Err(ValidationError)
  }

  /** An imaging studies row whose cells spell the profile's fields, as Synthea writes them. */
  predicate SpellsImagingStudy(row: Row, p: ImagingStudyProfile)
  {
    Holds(row, "Id", Str(p.id)) && Holds(row, "DATE", DateTimeCell(Some(p.date)))
    && Holds(row, "PATIENT", Str(p.patient)) && Holds(row, "ENCOUNTER", OptionalTextCell(p.encounter))
    && Holds(row, "BODYSITE_CODE", Num(IntNum(p.bodysiteCode)))
    && Holds(row, "BODYSITE_DESCRIPTION", Str(p.bodysiteDescription))
    && Holds(row, "MODALITY_CODE", Str(p.modalityCode))
    && Holds(row, "MODALITY_DESCRIPTION", Str(p.modalityDescription))
    && Holds(row, "SOP_CODE", Str(p.sopCode)) && Holds(row, "SOP_DESCRIPTION", Str(p.sopDescription))
  }

  /** Every profile the constructor can produce is read back from a row that
      spells it. */
  lemma ImagingStudyRowRoundTrip(row: Row, p: ImagingStudyProfile)
    requires SpellsImagingStudy(row, p)
    ensures ImagingStudyFromRow(row) == Ok(p)
  {
  }

}
