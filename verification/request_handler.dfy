/** The decision logic of the `/predict` request, without the web framework:
    reject the blocked policy number, look the policy up, merge its row with the
    submitted form into the raw claim record, align that record, classify it and
    attach the verdict to the grouped display of the merged input. */
module RequestHandler {
  import opened Records
  import opened PolicyStore
  import opened FeatureAligner

  /** The policy number the handler refuses before looking anything up. */
  const BlockedPolicyNumber: int := 1517

  /** The fields that pass through the aligner unencoded. */
  const NumericColumns: seq<string> :=
    ["WeekOfMonth", "WeekOfMonthClaimed", "Age", "PolicyNumber",
     "RepNumber", "Deductible", "DriverRating", "Year"]

  /** The submitted claim form, with its integer fields already parsed. */
  datatype ClaimForm = ClaimForm(
    policyNumber: int,
    weekOfMonth: int,
    weekOfMonthClaimed: int,
    year: int,
    month: string,
    dayOfWeek: string,
    accidentArea: string,
    dayOfWeekClaimed: string,
    monthClaimed: string,
    fault: string,
    daysPolicyAccident: string,
    daysPolicyClaim: string,
    policeReportFiled: string,
    witnessPresent: string,
    numberOfSuppliments: string,
    numberOfCars: string)

  /** The label shown to the user. */
  datatype Verdict = Legitimate | Fraudulent

  /** The six display blocks of the result page; each entry is a caption and
      the value shown under it. */
  datatype DisplayGroups = DisplayGroups(
    policySummary: seq<Field>,
    policyHolder: seq<Field>,
    vehicle: seq<Field>,
    agent: seq<Field>,
    accident: seq<Field>,
    claim: seq<Field>)

  /** What a request ends in: the shared error view (blocked or unknown policy)
      or the result view with its verdict and display blocks. */
  datatype Outcome = ErrorView | ResultView(verdict: Verdict, groups: DisplayGroups)

  /** The form read by field name, as the form mapping of the request is. */
  function FormField(form: ClaimForm, name: string): Option<Value> {
    match name
    case "PolicyNumber" => Some(Num(form.policyNumber))
    case "WeekOfMonth" => Some(Num(form.weekOfMonth))
    case "WeekOfMonthClaimed" => Some(Num(form.weekOfMonthClaimed))
    case "Year" => Some(Num(form.year))
    case "Month" => Some(Cat(form.month))
    case "DayOfWeek" => Some(Cat(form.dayOfWeek))
    case "AccidentArea" => Some(Cat(form.accidentArea))
    case "DayOfWeekClaimed" => Some(Cat(form.dayOfWeekClaimed))
    case "MonthClaimed" => Some(Cat(form.monthClaimed))
    case "Fault" => Some(Cat(form.fault))
    case "Days:Policy-Accident" => Some(Cat(form.daysPolicyAccident))
    case "Days:Policy-Claim" => Some(Cat(form.daysPolicyClaim))
    case "PoliceReportFiled" => Some(Cat(form.policeReportFiled))
    case "WitnessPresent" => Some(Cat(form.witnessPresent))
    case "NumberOfSuppliments" => Some(Cat(form.numberOfSuppliments))
    case "NumberOfCars" => Some(Cat(form.numberOfCars))
    case _ => None
  }

  /** A policy row read by column name, integer columns as numbers. */
  function PolicyField(p: PolicyRecord, name: string): Option<Value> {
    match name
    case "PolicyNumber" => Some(Num(p.policyNumber))
    case "Age" => Some(Num(p.age))
    case "RepNumber" => Some(Num(p.repNumber))
    case "Deductible" => Some(Num(p.deductible))
    case "DriverRating" => Some(Num(p.driverRating))
    case "Make" => Some(Cat(p.make))
    case "Sex" => Some(Cat(p.sex))
    case "MaritalStatus" => Some(Cat(p.maritalStatus))
    case "PolicyType" => Some(Cat(p.policyType))
    case "VehicleCategory" => Some(Cat(p.vehicleCategory))
    case "VehiclePrice" => Some(Cat(p.vehiclePrice))
    case "PastNumberOfClaims" => Some(Cat(p.pastNumberOfClaims))
    case "AgeOfVehicle" => Some(Cat(p.ageOfVehicle))
    case "AgeOfPolicyHolder" => Some(Cat(p.ageOfPolicyHolder))
    case "AgentType" => Some(Cat(p.agentType))
    case "AddressChange-Claim" => Some(Cat(p.addressChangeClaim))
    case "BasePolicy" => Some(Cat(p.basePolicy))
    case _ => None
  }

  /** Reference merge of the two sources: a name the form carries takes the
      form's value, any other name the row's. */
  function MergedField(form: ClaimForm, p: PolicyRecord, name: string): Option<Value> {
    if FormField(form, name).Some? then FormField(form, name) else PolicyField(p, name)
  }

  /** The raw claim record the handler hands to the aligner, in the order the
      handler writes it. */
  function BuildRecord(form: ClaimForm, p: PolicyRecord): Record
  {
    [ Field("WeekOfMonth", Num(form.weekOfMonth)),
      Field("WeekOfMonthClaimed", Num(form.weekOfMonthClaimed)),
      Field("Age", Num(p.age)),
      Field("PolicyNumber", Num(form.policyNumber)),
      Field("RepNumber", Num(p.repNumber)),
      Field("Deductible", Num(p.deductible)),
      Field("DriverRating", Num(p.driverRating)),
      Field("Year", Num(form.year)),
      Field("Month", Cat(form.month)),
      Field("DayOfWeek", Cat(form.dayOfWeek)),
      Field("Make", Cat(p.make)),
      Field("AccidentArea", Cat(form.accidentArea)),
      Field("DayOfWeekClaimed", Cat(form.dayOfWeekClaimed)),
      Field("MonthClaimed", Cat(form.monthClaimed)),
      Field("Sex", Cat(p.sex)),
      Field("MaritalStatus", Cat(p.maritalStatus)),
      Field("Fault", Cat(form.fault)),
      Field("PolicyType", Cat(p.policyType)),
      Field("VehicleCategory", Cat(p.vehicleCategory)),
      Field("VehiclePrice", Cat(p.vehiclePrice)),
      Field("Days:Policy-Accident", Cat(form.daysPolicyAccident)),
      Field("Days:Policy-Claim", Cat(form.daysPolicyClaim)),
      Field("PastNumberOfClaims", Cat(p.pastNumberOfClaims)),
      Field("AgeOfVehicle", Cat(p.ageOfVehicle)),
      Field("AgeOfPolicyHolder", Cat(p.ageOfPolicyHolder)),
      Field("PoliceReportFiled", Cat(form.policeReportFiled)),
      Field("WitnessPresent", Cat(form.witnessPresent)),
      Field("AgentType", Cat(p.agentType)),
      Field("NumberOfSuppliments", Cat(form.numberOfSuppliments)),
      Field("AddressChange-Claim", Cat(p.addressChangeClaim)),
      Field("NumberOfCars", Cat(form.numberOfCars)),
      Field("BasePolicy", Cat(p.basePolicy)) ]
  }

  /** The names of the raw record, in order. */
  const RecordFieldNames: seq<string> :=
    ["WeekOfMonth", "WeekOfMonthClaimed", "Age", "PolicyNumber",
     "RepNumber", "Deductible", "DriverRating", "Year", "Month",
     "DayOfWeek", "Make", "AccidentArea", "DayOfWeekClaimed",
     "MonthClaimed", "Sex", "MaritalStatus", "Fault", "PolicyType",
     "VehicleCategory", "VehiclePrice", "Days:Policy-Accident",
     "Days:Policy-Claim", "PastNumberOfClaims", "AgeOfVehicle",
     "AgeOfPolicyHolder", "PoliceReportFiled", "WitnessPresent",
     "AgentType", "NumberOfSuppliments", "AddressChange-Claim",
     "NumberOfCars", "BasePolicy"]

  /** The record's names are the fixed names, in their fixed order. */
  lemma RecordNamesInOrder(form: ClaimForm, p: PolicyRecord)
    ensures |BuildRecord(form, p)| == |RecordFieldNames|
    ensures forall k :: 0 <= k < |RecordFieldNames| ==> BuildRecord(form, p)[k].name == RecordFieldNames[k]
  {
  }

  /** No name of the raw record repeats. */
  lemma RecordFieldNamesDistinct()
    ensures forall j, k :: 0 <= j < k < |RecordFieldNames| ==> RecordFieldNames[j] != RecordFieldNames[k]
  {
  }

  /** No name of the raw record contains the indicator separator. */
  lemma RecordFieldNamesSeparatorFree()
    ensures forall k :: 0 <= k < |RecordFieldNames| ==> '_' !in RecordFieldNames[k]
  {
    NumericNamesSeparatorFree();
    TextNamesSeparatorFreeFrom8();
    TextNamesSeparatorFreeFrom16();
    TextNamesSeparatorFreeFrom24();
  }

  /* The four lemmas below split the separator check of the 32 literal names
     into groups of eight only so that each proof stays small for the solver. */

  /** The eight numeric record names are separator-free. */
  lemma NumericNamesSeparatorFree()
    ensures forall k :: 0 <= k < 8 ==> '_' !in RecordFieldNames[k]
  {
    assert '_' !in "WeekOfMonth";
    assert '_' !in "WeekOfMonthClaimed";
    assert '_' !in "Age";
    assert '_' !in "PolicyNumber";
    assert '_' !in "RepNumber";
    assert '_' !in "Deductible";
    assert '_' !in "DriverRating";
    assert '_' !in "Year";
  }

  /** Record names 8 to 15 (text fields) are separator-free. */
  lemma TextNamesSeparatorFreeFrom8()
    ensures forall k :: 8 <= k < 16 ==> '_' !in RecordFieldNames[k]
  {
    assert '_' !in "Month";
    assert '_' !in "DayOfWeek";
    assert '_' !in "Make";
    assert '_' !in "AccidentArea";
    assert '_' !in "DayOfWeekClaimed";
    assert '_' !in "MonthClaimed";
    assert '_' !in "Sex";
    assert '_' !in "MaritalStatus";
  }

  /** Record names 16 to 23 (text fields) are separator-free. */
  lemma TextNamesSeparatorFreeFrom16()
    ensures forall k :: 16 <= k < 24 ==> '_' !in RecordFieldNames[k]
  {
    assert '_' !in "Fault";
    assert '_' !in "PolicyType";
    assert '_' !in "VehicleCategory";
    assert '_' !in "VehiclePrice";
    assert '_' !in "Days:Policy-Accident";
    assert '_' !in "Days:Policy-Claim";
    assert '_' !in "PastNumberOfClaims";
    assert '_' !in "AgeOfVehicle";
  }

  /** Record names 24 to 31 (text fields) are separator-free. */
  lemma TextNamesSeparatorFreeFrom24()
    ensures forall k :: 24 <= k < 32 ==> '_' !in RecordFieldNames[k]
  {
    assert '_' !in "AgeOfPolicyHolder";
    assert '_' !in "PoliceReportFiled";
    assert '_' !in "WitnessPresent";
    assert '_' !in "AgentType";
    assert '_' !in "NumberOfSuppliments";
    assert '_' !in "AddressChange-Claim";
    assert '_' !in "NumberOfCars";
    assert '_' !in "BasePolicy";
  }

  /* The three lemmas below split the merge check of the 32 record fields by
     position only so that each proof stays small for the solver. */

  /** The integer fields (the leading eight) carry the merged form and row values. */
  lemma RecordSourcesOfNumbers(form: ClaimForm, p: PolicyRecord)
    ensures var raw := BuildRecord(form, p);
      forall k :: 0 <= k < 8 ==> MergedField(form, p, raw[k].name) == Some(raw[k].value)
  {
    assert MergedField(form, p, "WeekOfMonth") == Some(Num(form.weekOfMonth));
    assert MergedField(form, p, "WeekOfMonthClaimed") == Some(Num(form.weekOfMonthClaimed));
    assert MergedField(form, p, "Age") == Some(Num(p.age));
    assert MergedField(form, p, "PolicyNumber") == Some(Num(form.policyNumber));
    assert MergedField(form, p, "RepNumber") == Some(Num(p.repNumber));
    assert MergedField(form, p, "Deductible") == Some(Num(p.deductible));
    assert MergedField(form, p, "DriverRating") == Some(Num(p.driverRating));
    assert MergedField(form, p, "Year") == Some(Num(form.year));
  }

  /** The next twelve fields carry the merged form and row values. */
  lemma RecordSourcesOfFirstTexts(form: ClaimForm, p: PolicyRecord)
    ensures var raw := BuildRecord(form, p);
      forall k :: 8 <= k < 20 ==> MergedField(form, p, raw[k].name) == Some(raw[k].value)
  {
    assert MergedField(form, p, "Month") == Some(Cat(form.month));
    assert MergedField(form, p, "DayOfWeek") == Some(Cat(form.dayOfWeek));
    assert MergedField(form, p, "Make") == Some(Cat(p.make));
    assert MergedField(form, p, "AccidentArea") == Some(Cat(form.accidentArea));
    assert MergedField(form, p, "DayOfWeekClaimed") == Some(Cat(form.dayOfWeekClaimed));
    assert MergedField(form, p, "MonthClaimed") == Some(Cat(form.monthClaimed));
    assert MergedField(form, p, "Sex") == Some(Cat(p.sex));
    assert MergedField(form, p, "MaritalStatus") == Some(Cat(p.maritalStatus));
    assert MergedField(form, p, "Fault") == Some(Cat(form.fault));
    assert MergedField(form, p, "PolicyType") == Some(Cat(p.policyType));
    assert MergedField(form, p, "VehicleCategory") == Some(Cat(p.vehicleCategory));
    assert MergedField(form, p, "VehiclePrice") == Some(Cat(p.vehiclePrice));
  }

  /** The last twelve fields carry the merged form and row values. */
  lemma RecordSourcesOfLastTexts(form: ClaimForm, p: PolicyRecord)
    ensures var raw := BuildRecord(form, p);
      forall k :: 20 <= k < 32 ==> MergedField(form, p, raw[k].name) == Some(raw[k].value)
  {
    assert MergedField(form, p, "Days:Policy-Accident") == Some(Cat(form.daysPolicyAccident));
    assert MergedField(form, p, "Days:Policy-Claim") == Some(Cat(form.daysPolicyClaim));
    assert MergedField(form, p, "PastNumberOfClaims") == Some(Cat(p.pastNumberOfClaims));
    assert MergedField(form, p, "AgeOfVehicle") == Some(Cat(p.ageOfVehicle));
    assert MergedField(form, p, "AgeOfPolicyHolder") == Some(Cat(p.ageOfPolicyHolder));
    assert MergedField(form, p, "PoliceReportFiled") == Some(Cat(form.policeReportFiled));
    assert MergedField(form, p, "WitnessPresent") == Some(Cat(form.witnessPresent));
    assert MergedField(form, p, "AgentType") == Some(Cat(p.agentType));
    assert MergedField(form, p, "NumberOfSuppliments") == Some(Cat(form.numberOfSuppliments));
    assert MergedField(form, p, "AddressChange-Claim") == Some(Cat(p.addressChangeClaim));
    assert MergedField(form, p, "NumberOfCars") == Some(Cat(form.numberOfCars));
    assert MergedField(form, p, "BasePolicy") == Some(Cat(p.basePolicy));
  }

  /** The raw record reads, field by field, as the merge of the form and the
      matched row; its names are distinct and separator-free, so the aligner's
      guarantees apply to it; and exactly the fields listed as numeric carry
      integers, every other field text. */
  lemma BuildRecordMergesSources(form: ClaimForm, p: PolicyRecord)
    ensures Unambiguous(BuildRecord(form, p))
    ensures forall k :: 0 <= k < |BuildRecord(form, p)| ==>
      MergedField(form, p, BuildRecord(form, p)[k].name) == Some(BuildRecord(form, p)[k].value)
    ensures forall k :: 0 <= k < |BuildRecord(form, p)| ==>
      (BuildRecord(form, p)[k].name in NumericColumns <==> BuildRecord(form, p)[k].value.Num?)
  {
    RecordNamesInOrder(form, p);
    RecordFieldNamesDistinct();
    RecordFieldNamesSeparatorFree();
    RecordSourcesOfNumbers(form, p);
    RecordSourcesOfFirstTexts(form, p);
    RecordSourcesOfLastTexts(form, p);
    NumericColumnsLeadTheRecord();
  }

  /** Nothing either source offers is missing from the raw record: every name
      the form or the row can be read under is the name of some record field. */
  lemma BuildRecordCoversSources(form: ClaimForm, p: PolicyRecord, n: string)
    requires MergedField(form, p, n).Some?
    ensures exists k :: 0 <= k < |BuildRecord(form, p)| && BuildRecord(form, p)[k].name == n
  {
    RecordNamesInOrder(form, p);
    assert n in RecordFieldNames;
  }

  /** The numeric columns are exactly the first eight record names. */
  lemma NumericColumnsLeadTheRecord()
    ensures forall k :: 0 <= k < |RecordFieldNames| ==> (RecordFieldNames[k] in NumericColumns <==> k < 8)
  {
    assert NumericColumns == RecordFieldNames[..8];
    RecordFieldNamesDistinct();
  }

  /** The label the result page prints for a verdict. */
  function VerdictLabel(v: Verdict): string {
    match v
    case Legitimate => "Legitimate"
    case Fraudulent => "Fraudulent"
  }

  /** The verdict for the classifier's raw output: class 0 is the legitimate
      class, any other output is read as fraud. */
  function VerdictOf(prediction: int): Verdict {
    if prediction == 0 then Legitimate else Fraudulent
  }

  /** The six display blocks, each value taken from the form or the row as the
      handler does. */
  function Display(form: ClaimForm, p: PolicyRecord): DisplayGroups {
    DisplayGroups(
      policySummary := [
        Field("Policy Number", Num(form.policyNumber)),
        Field("Base Policy", Cat(p.basePolicy)),
        Field("Deductible", Num(p.deductible))],
      policyHolder := [
        Field("Age", Num(p.age)),
        Field("Gender", Cat(p.sex)),
        Field("Marital Status", Cat(p.maritalStatus)),
        Field("Driver Rating", Num(p.driverRating)),
        Field("Past Number Of Claims", Cat(p.pastNumberOfClaims)),
        Field("Last Address Change Since Claim", Cat(p.addressChangeClaim))],
      vehicle := [
        Field("Make", Cat(p.make)),
        Field("Vehicle Category", Cat(p.vehicleCategory)),
        Field("Vehicle Price", Cat(p.vehiclePrice)),
        Field("Age Of Vehicle", Cat(p.ageOfVehicle))],
      agent := [
        Field("Agent Type", Cat(p.agentType)),
        Field("Rep Number", Num(p.repNumber))],
      accident := [
        Field("Year", Num(form.year)),
        Field("Month", Cat(form.month)),
        Field("Week Of Month", Num(form.weekOfMonth)),
        Field("Day Of Week", Cat(form.dayOfWeek)),
        Field("Accident Area", Cat(form.accidentArea)),
        Field("Fault", Cat(form.fault)),
        Field("Days From Policy Start", Cat(form.daysPolicyAccident)),
        Field("Number Of Cars Involved", Cat(form.numberOfCars))],
      claim := [
        Field("Month", Cat(form.monthClaimed)),
        Field("Week Of Month", Num(form.weekOfMonthClaimed)),
        Field("Day Of Week", Cat(form.dayOfWeekClaimed)),
        Field("Days From Policy Start", Cat(form.daysPolicyClaim)),
        Field("Was a police report filed?", Cat(form.policeReportFiled)),
        Field("Was any witness present?", Cat(form.witnessPresent)),
        Field("Number of Suppliments", Cat(form.numberOfSuppliments))])
  }

  /** The record fields each display block shows, entry by entry. */
  const PolicySummarySources: seq<string> :=
    ["PolicyNumber", "BasePolicy", "Deductible"]
  const PolicyHolderSources: seq<string> :=
    ["Age", "Sex", "MaritalStatus", "DriverRating", "PastNumberOfClaims", "AddressChange-Claim"]
  const VehicleSources: seq<string> :=
    ["Make", "VehicleCategory", "VehiclePrice", "AgeOfVehicle"]
  const AgentSources: seq<string> :=
    ["AgentType", "RepNumber"]
  const AccidentSources: seq<string> :=
    ["Year", "Month", "WeekOfMonth", "DayOfWeek", "AccidentArea", "Fault",
     "Days:Policy-Accident", "NumberOfCars"]
  const ClaimSources: seq<string> :=
    ["MonthClaimed", "WeekOfMonthClaimed", "DayOfWeekClaimed", "Days:Policy-Claim",
     "PoliceReportFiled", "WitnessPresent", "NumberOfSuppliments"]

  /** Entry `j` of the display block shows the merged value of record field
      `sources[j]`. */
  predicate Shows(block: seq<Field>, sources: seq<string>, form: ClaimForm, p: PolicyRecord) {
    && |block| == |sources|
    && forall j :: 0 <= j < |block| ==> MergedField(form, p, sources[j]) == Some(block[j].value)
  }

  /** Every displayed value is the merged value of the field it is captioned
      after, which is also the value the classified record holds for that field:
      the policy summary and the holder, vehicle and agent blocks show row
      columns (the summary's number is the submitted one), the accident and
      claim blocks show form fields. */
  lemma DisplayShowsMergedRecord(form: ClaimForm, p: PolicyRecord)
    ensures Shows(Display(form, p).policySummary, PolicySummarySources, form, p)
    ensures Shows(Display(form, p).policyHolder, PolicyHolderSources, form, p)
    ensures Shows(Display(form, p).vehicle, VehicleSources, form, p)
    ensures Shows(Display(form, p).agent, AgentSources, form, p)
    ensures Shows(Display(form, p).accident, AccidentSources, form, p)
    ensures Shows(Display(form, p).claim, ClaimSources, form, p)
  {
    ShowsPolicySummarySources(form, p);
    ShowsPolicyHolderSources(form, p);
    ShowsVehicleSources(form, p);
    ShowsAgentSources(form, p);
    ShowsAccidentSources(form, p);
    ShowsClaimSources(form, p);
  }

  /* One lemma per display block: proving all six blocks in one obligation is
     too large for the solver, so the check is split along the blocks. */

  /** The policy summary block shows the merged values of its source fields. */
  lemma ShowsPolicySummarySources(form: ClaimForm, p: PolicyRecord)
    ensures Shows(Display(form, p).policySummary, PolicySummarySources, form, p)
  {
  }

  /** The policy-holder block shows the merged values of its source fields. */
  lemma ShowsPolicyHolderSources(form: ClaimForm, p: PolicyRecord)
    ensures Shows(Display(form, p).policyHolder, PolicyHolderSources, form, p)
  {
  }

  /** The vehicle block shows the merged values of its source fields. */
  lemma ShowsVehicleSources(form: ClaimForm, p: PolicyRecord)
    ensures Shows(Display(form, p).vehicle, VehicleSources, form, p)
  {
  }

  /** The agent block shows the merged values of its source fields. */
  lemma ShowsAgentSources(form: ClaimForm, p: PolicyRecord)
    ensures Shows(Display(form, p).agent, AgentSources, form, p)
  {
  }

  /** The accident block shows the merged values of its source fields. */
  lemma ShowsAccidentSources(form: ClaimForm, p: PolicyRecord)
    ensures Shows(Display(form, p).accident, AccidentSources, form, p)
  {
  }

  /** The claim block shows the merged values of its source fields. */
  lemma ShowsClaimSources(form: ClaimForm, p: PolicyRecord)
    ensures Shows(Display(form, p).claim, ClaimSources, form, p)
  {
  }

  /** The feature row the classifier receives for this form and row. */
  function Features(form: ClaimForm, p: PolicyRecord, expected: seq<string>): FeatureVector {
    Align(BuildRecord(form, p), expected, NumericColumns)
  }

  /** The `/predict` decision: the blocked number and an unknown number both end
      in the error view, the blocked one even when the table holds it; any other
      number ends in a result view. */
  function Handle(table: PolicyTable, form: ClaimForm, expected: seq<string>,
                  classify: FeatureVector -> int): (out: Outcome)
    ensures form.policyNumber == BlockedPolicyNumber ==> out == ErrorView
    ensures out.ResultView? <==>
      && form.policyNumber != BlockedPolicyNumber
      && exists k :: 0 <= k < |table| && table[k].policyNumber == form.policyNumber
  {
    if form.policyNumber == BlockedPolicyNumber then ErrorView
    else
      match FindPolicy(table, form.policyNumber)
      case None => ErrorView
      case Some(p) =>
        ResultView(VerdictOf(classify(Features(form, p, expected))), Display(form, p))
  }

  /** For an admitted number the handler works from the first row carrying it:
      the verdict is Legitimate exactly when the classifier returns 0 on that
      row's aligned features, and the display is built from that row. */
  lemma HandleUsesFirstMatch(table: PolicyTable, form: ClaimForm, expected: seq<string>,
                             classify: FeatureVector -> int, k: int)
    requires form.policyNumber != BlockedPolicyNumber
    requires FirstMatch(table, form.policyNumber, k)
    ensures Handle(table, form, expected, classify).ResultView?
    ensures Handle(table, form, expected, classify).groups == Display(form, table[k])
    ensures Handle(table, form, expected, classify).verdict == Legitimate <==>
      classify(Features(form, table[k], expected)) == 0
    ensures VerdictLabel(Handle(table, form, expected, classify).verdict) ==
      if classify(Features(form, table[k], expected)) == 0 then "Legitimate" else "Fraudulent"
  {
    FindPolicyIsFirstMatch(table, form.policyNumber, k);
  }

  /** Every numeric column the classifier expects receives the merged integer
      from the form or the row, unchanged. */
  lemma NumericFeatureFromSources(form: ClaimForm, p: PolicyRecord, expected: seq<string>, i: int)
    requires 0 <= i < |expected| && expected[i] in NumericColumns
    ensures Features(form, p, expected)[i].name == expected[i]
    ensures Some(Features(form, p, expected)[i].value) == MergedField(form, p, expected[i])
  {
    var raw := BuildRecord(form, p);
    BuildRecordMergesSources(form, p);
    RecordNamesInOrder(form, p);
    var k :| 0 <= k < |NumericColumns| && NumericColumns[k] == expected[i];
    assert NumericColumns == RecordFieldNames[..8];
    assert raw[k].name == expected[i];
    AlignPassesNumericThrough(raw, expected, NumericColumns, k, i);
  }

  /** For the text field at position `k` of the record (every position after
      the eight numeric ones), the expected indicator column `name_w` is 1 when
      `w` reads as the field's merged value and 0 otherwise. */
  lemma CategoricalFeatureFromSources(form: ClaimForm, p: PolicyRecord, expected: seq<string>,
                                      i: int, k: int, w: Value)
    requires 8 <= k < |RecordFieldNames|
    requires 0 <= i < |expected| && expected[i] == IndicatorName(RecordFieldNames[k], w)
    ensures RecordFieldNames[k] !in NumericColumns
    ensures MergedField(form, p, RecordFieldNames[k]).Some?
    ensures Features(form, p, expected)[i].value ==
      if ValueText(w) == ValueText(MergedField(form, p, RecordFieldNames[k]).value) then Num(1) else Num(0)
  {
    var raw := BuildRecord(form, p);
    BuildRecordMergesSources(form, p);
    RecordNamesInOrder(form, p);
    NumericColumnsLeadTheRecord();
    assert raw[k].name == RecordFieldNames[k];
    if ValueText(w) == ValueText(raw[k].value) {
      AlignIndicatorFires(raw, expected, NumericColumns, k, i);
    } else {
      AlignOtherIndicatorsSilent(raw, expected, NumericColumns, k, w, i);
    }
  }
}
