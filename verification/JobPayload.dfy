/**
  A job on its way to the executor: where it may go (resolveJobDestination), what it is made of
  (createJob), what the app sends (earthbeamInputForRun), and what the executor takes from it
  (unpack_job and what follows).
 */
module JobPayload {
  import opened Wrappers
  import opened PythonUrls

  /* Destinations */

  datatype Tenant = Tenant(partnerId: string, tenantCode: string)
  datatype SchoolYear = SchoolYear(id: string, endYear: string)
  // A partner's configuration of a school year, with the tenant's ODS configurations in use for it.
  datatype YearConfig = YearConfig(schoolYear: SchoolYear, isEnabled: bool, sendToOds: bool, odsIds: seq<nat>)

  datatype DestinationError = SchoolYearConfigMissing | SchoolYearDisabled | OdsNotFound | RosterUnavailable
  datatype Destination = Destination(schoolYearId: string, sendToOds: bool, odsId: Option<nat>)

  const ROSTER_FILE_NAME := "studentEducationOrganizationAssociations.jsonl"

  function RosterFileKey(tenant: Tenant, schoolYear: SchoolYear): string {
    "__rosters/" + tenant.partnerId + "/" + tenant.tenantCode + "/" + schoolYear.endYear + "/" + ROSTER_FILE_NAME
  }

  // `crossYear` is the partner's toggle for cross-year matching.
  function ResolveJobDestination(config: Option<YearConfig>, tenant: Tenant, crossYear: bool, rosterBucket: string,
                                 fileExists: (string, string) -> bool): Result<Destination, DestinationError> {
    if config.None? then Failure(SchoolYearConfigMissing)
    else if !config.value.isEnabled then Failure(SchoolYearDisabled)
    else if !config.value.sendToOds then
      if !crossYear && !fileExists(rosterBucket, RosterFileKey(tenant, config.value.schoolYear)) then Failure(RosterUnavailable)
      else Success(Destination(config.value.schoolYear.id, false, None))
    else if config.value.odsIds == [] then Failure(OdsNotFound)
    else Success(Destination(config.value.schoolYear.id, true, Some(config.value.odsIds[0])))
  }

  // Where a roster comes from.
  datatype RosterSource = FromOds | FromEdu | FromS3(bucket: string, key: string)

  // The source that an accepted destination relies on.
  function CheckedSource(config: YearConfig, tenant: Tenant, crossYear: bool, rosterBucket: string): RosterSource {
    if config.sendToOds then FromOds
    else if crossYear then FromEdu
    else FromS3(rosterBucket, RosterFileKey(tenant, config.schoolYear))
  }

  /* Jobs */

  datatype BundleFile = BundleFile(envVar: string, isRequired: bool)
  datatype BundleParam = BundleParam(envVar: string, displayName: string, isRequired: bool, allowedValues: seq<string>)
  datatype Bundle = Bundle(path: string, inputFiles: seq<BundleFile>, inputParams: seq<BundleParam>)

  // An entry of the submitted parameters; a value can be null.
  datatype Param = Param(key: string, value: Option<string>)
  datatype FileInput = FileInput(templateKey: string, nameFromUser: string)
  datatype JobInput = JobInput(files: seq<FileInput>, params: seq<Param>)

  datatype CreateError = MissingRequiredParams | InvalidParamValues | UnexpectedParams | UnexpectedFiles | MissingRequiredFiles

  // The value under a key; None is a missing or a null one.
  function ValueOf(params: seq<Param>, key: string): (v: Option<string>) {
    if params == [] then None
    else if params[0].key == key then params[0].value
    else ValueOf(params[1..], key)
  }

  predicate Expects(bundle: Bundle, key: string) {
    exists p :: p in bundle.inputParams && p.envVar == key
  }

  predicate ExpectsFile(bundle: Bundle, key: string) {
    exists f :: f in bundle.inputFiles && f.envVar == key
  }

  function Validate(bundle: Bundle, input: JobInput): Option<CreateError> {
    if exists p :: p in bundle.inputParams && p.isRequired && p.envVar != "API_YEAR" && ValueOf(input.params, p.envVar).None?
    then Some(MissingRequiredParams)
    else if exists p :: p in bundle.inputParams && p.allowedValues != [] && ValueOf(input.params, p.envVar).Some?
                        && ValueOf(input.params, p.envVar).value !in p.allowedValues
    then Some(InvalidParamValues)
    else if exists q :: q in input.params && !Expects(bundle, q.key) then Some(UnexpectedParams)
    else if exists f :: f in input.files && !ExpectsFile(bundle, f.templateKey) then Some(UnexpectedFiles)
    else if exists f :: f in bundle.inputFiles && f.isRequired && forall g :: g in input.files ==> g.templateKey != f.envVar
    then Some(MissingRequiredFiles)
    else None
  }

  datatype TemplateParam = TemplateParam(name: string, templateKey: string, isRequired: bool, allowedValues: seq<string>)
  datatype Template = Template(path: string, params: seq<TemplateParam>)
  datatype InputParam =
    InputParam(templateKey: string, value: Option<string>, name: string, isRequired: bool, allowedValues: seq<string>)
  datatype JobFile = JobFile(templateKey: string, nameInternal: string, path: string)
  datatype Job = Job(
    tenant: Tenant,
    schoolYear: SchoolYear,
    sendToOds: bool,
    template: Template,
    inputParams: seq<InputParam>,
    fileBucketOrHost: string,
    fileBasePath: string,
    files: seq<JobFile>)

  // toDtoable
  function ToTemplateParam(p: BundleParam): TemplateParam {
    TemplateParam(p.displayName, p.envVar, p.isRequired, p.allowedValues)
  }

  function ToTemplate(bundle: Bundle): Template {
    Template(bundle.path, seq(|bundle.inputParams|, i requires 0 <= i < |bundle.inputParams| => ToTemplateParam(bundle.inputParams[i])))
  }

  function FindParam(params: seq<BundleParam>, key: string): Option<BundleParam> {
    if params == [] then None else if params[0].envVar == key then Some(params[0]) else FindParam(params[1..], key)
  }

  function Enrich(bundle: Bundle, p: Param): InputParam {
    var found := FindParam(bundle.inputParams, p.key);
    if found.Some? then
      InputParam(p.key, p.value, found.value.displayName, found.value.isRequired, found.value.allowedValues)
    else InputParam(p.key, p.value, p.key, false, [])
  }

  function EnrichAll(bundle: Bundle, params: seq<Param>): seq<InputParam> {
    seq(|params|, i requires 0 <= i < |params| => Enrich(bundle, params[i]))
  }

  function ToJobFile(basePath: string, f: FileInput): JobFile {
    var nameInternal := f.templateKey + "__" + f.nameFromUser;
    JobFile(f.templateKey, nameInternal, basePath + "/input/" + nameInternal)
  }

  // encodeURIComponent: what it leaves of a string that is not empty.
  ghost predicate EncodesComponents(encode: string -> string) {
    forall s :: s != "" ==> encode(s) != "" && forall c :: c in encode(s) ==> IsUnreserved(c)
  }

  predicate IsUnreserved(c: char) {
    || IsLetter(c) || '0' <= c <= '9'
    || c == '-' || c == '_' || c == '.' || c == '!' || c == '~' || c == '*' || c == '\'' || c == '(' || c == ')'
    || c == '%'
  }

  function BasePath(tenant: Tenant, schoolYearId: string, jobId: string, encode: string -> string): string {
    encode(tenant.partnerId) + "/" + encode(tenant.tenantCode) + "/" + encode(schoolYearId) + "/" + encode(jobId)
  }

  function CreateJob(bundle: Bundle, input: JobInput, destination: Destination, tenant: Tenant, schoolYear: SchoolYear,
                     jobId: string, bucket: string, encode: string -> string): Result<Job, CreateError> {
    var invalid := Validate(bundle, input);
    if invalid.Some? then Failure(invalid.value)
    else
      var basePath := BasePath(tenant, schoolYear.id, jobId, encode);
      Success(Job(tenant, schoolYear, destination.sendToOds, ToTemplate(bundle), EnrichAll(bundle, input.params), bucket, basePath,
                  seq(|input.files|, i requires 0 <= i < |input.files| => ToJobFile(basePath, input.files[i]))))
  }

  /* The payload */

  datatype Key =
    | AppUrls | Status | ErrorUrl | Summary | UnmatchedIds | OutputFiles | RosterUrl
    | SendToOds | CrossYearMatchAvailable | RosterFilePath
    | AssessmentDatastore | Url | ClientId | ClientSecret
    | BundleKey | Path | Branch | AppDataBasePath | InputFiles | InputParams | CustomDescriptorMappings

  // A JSON object has no keys for what is undefined.
  datatype Json = Nil | Truth(b: bool) | Text(s: string) | Texts(texts: map<string, string>) | Object(fields: map<Key, Json>)

  datatype Connection = Connection(host: string, clientId: string, clientSecret: string)
  datatype PayloadError = NoOdsConfigured

  // The value of the first stored parameter with a key, if it is not null.
  function Submitted(params: seq<InputParam>, key: string): (v: Option<string>) {
    if params == [] then None
    else if params[0].templateKey == key then params[0].value
    else Submitted(params[1..], key)
  }

  // The reduction over the template's parameters.
  function ParamsFor(template: seq<TemplateParam>, params: seq<InputParam>): map<string, string> {
    if template == [] then map[]
    else
      var acc, key := ParamsFor(template[..|template| - 1], params), template[|template| - 1].templateKey;
      var value := Submitted(params, key);
      if value.Some? then acc[key := value.value] else acc
  }

  function FilesFor(files: seq<JobFile>): map<string, string> {
    if files == [] then map[]
    else
      var last := files[|files| - 1];
      FilesFor(files[..|files| - 1])[last.templateKey := last.nameInternal]
  }

  function InputParamsFor(job: Job, descriptorNamespace: Option<string>): map<string, string> {
    var params := ParamsFor(job.template.params, job.inputParams)["API_YEAR" := job.schoolYear.endYear];
    if descriptorNamespace.Some? && descriptorNamespace.value != ""
    then params["DESCRIPTOR_NAMESPACE" := descriptorNamespace.value] else params
  }

  function Field(key: Key, value: Option<Json>): map<Key, Json> {
    if value.Some? then map[key := value.value] else map[]
  }

  function AppUrlsFor(base: string, crossYear: bool): map<Key, Json> {
    map[Status := Text(base + "/status"), ErrorUrl := Text(base + "/error"), Summary := Text(base + "/summary"),
        UnmatchedIds := Text(base + "/unmatched-ids"), OutputFiles := Text(base + "/output-files")]
    + Field(RosterUrl, if crossYear then Some(Text(base + "/roster")) else None)
  }

  function DatastoreFor(job: Job, connection: Option<Connection>): Option<Json> {
    if job.sendToOds && connection.Some? then
      Some(Object(map[Key.Url := Text(connection.value.host), ClientId := Text(connection.value.clientId),
                      ClientSecret := Text(connection.value.clientSecret)]))
    else None
  }

  function RosterFilePathFor(job: Job, crossYear: bool, rosterBucket: string): Option<Json> {
    if job.sendToOds || crossYear then None
    else Some(Text(S3Url(rosterBucket, RosterFileKey(job.tenant, job.schoolYear))))
  }

  // What is sent whatever the job is.
  function AlwaysSent(job: Job, crossYear: bool, descriptorNamespace: Option<string>, mappings: Json, base: string, branch: string)
    : map<Key, Json>
  {
    map[AppDataBasePath := Text(S3Url(job.fileBucketOrHost, job.fileBasePath)),
        InputFiles := Texts(FilesFor(job.files)),
        InputParams := Texts(InputParamsFor(job, descriptorNamespace)),
        CustomDescriptorMappings := mappings,
        BundleKey := Object(map[Path := Text(job.template.path), Branch := Text(branch)]),
        AppUrls := Object(AppUrlsFor(base, crossYear)),
        CrossYearMatchAvailable := Truth(crossYear),
        SendToOds := Truth(job.sendToOds)]
  }

  // earthbeamInputForRun, with the connection's secret decrypted.
  function PayloadFor(job: Job, connection: Option<Connection>, crossYear: bool, descriptorNamespace: Option<string>,
                      mappings: Json, rosterBucket: string, base: string, branch: string): Result<map<Key, Json>, PayloadError> {
    if job.sendToOds && connection.None? then Failure(NoOdsConfigured)
    else
      Success(AlwaysSent(job, crossYear, descriptorNamespace, mappings, base, branch)
              + Field(RosterFilePath, RosterFilePathFor(job, crossYear, rosterBucket))
              + Field(AssessmentDatastore, DatastoreFor(job, connection)))
  }

  // The accumulator of parameters, filled in place.
  method CollectParams(template: seq<TemplateParam>, params: seq<InputParam>) returns (acc: map<string, string>)
    ensures acc == ParamsFor(template, params)
  {
    acc := map[];
    for i := 0 to |template|
      invariant acc == ParamsFor(template[..i], params)
    {
      assert template[..i + 1][..i] == template[..i];
      var value := Submitted(params, template[i].templateKey);
      if value.Some? {
        acc := acc[template[i].templateKey := value.value];
      }
    }
    assert template[..|template|] == template;
  }

  method CollectFiles(files: seq<JobFile>) returns (acc: map<string, string>)
    ensures acc == FilesFor(files)
  {
    acc := map[];
    for i := 0 to |files|
      invariant acc == FilesFor(files[..i])
    {
      assert files[..i + 1][..i] == files[..i];
      acc := acc[files[i].templateKey := files[i].nameInternal];
    }
    assert files[..|files|] == files;
  }

  /* The executor */

  datatype UnpackError = MissingKey(key: Key) | BadType | NoInputFile

  function At(fields: map<Key, Json>, key: Key): Result<Json, UnpackError> {
    if key in fields then Success(fields[key]) else Failure(MissingKey(key))
  }

  function At2(fields: map<Key, Json>, outer: Key, inner: Key): Result<Json, UnpackError> {
    if outer !in fields then Failure(MissingKey(outer))
    else if !fields[outer].Object? then Failure(BadType)
    else At(fields[outer].fields, inner)
  }

  // job.get(key, default)
  function Flag(fields: map<Key, Json>, key: Key, default: bool): bool {
    if key in fields && fields[key].Truth? then fields[key].b else default
  }

  // What unpack_job reads, in order, given the two flags.
  function Reads(sendToOds: bool, crossYear: bool): seq<(Key, Option<Key>)> {
    [(AppUrls, Some(Status)), (AppUrls, Some(ErrorUrl)), (AppUrls, Some(UnmatchedIds)), (AppUrls, Some(Summary)),
     (AppUrls, Some(OutputFiles))]
    + (if crossYear then [(AppUrls, Some(RosterUrl))] else [])
    + [(BundleKey, Some(Path))]
    + (if sendToOds then
         [(AssessmentDatastore, Some(Key.Url)), (AssessmentDatastore, Some(ClientId)), (AssessmentDatastore, Some(ClientSecret))]
       else if crossYear then [] else [(RosterFilePath, None)])
    + [(BundleKey, Some(Branch)), (AppDataBasePath, None), (InputFiles, None), (CustomDescriptorMappings, None), (InputParams, None)]
  }

  function ReadOne(fields: map<Key, Json>, read: (Key, Option<Key>)): Result<Json, UnpackError> {
    if read.1.Some? then At2(fields, read.0, read.1.value) else At(fields, read.0)
  }

  function FirstError(fields: map<Key, Json>, lookups: seq<(Key, Option<Key>)>): Option<UnpackError> {
    if lookups == [] then None
    else
      match ReadOne(fields, lookups[0])
      case Failure(error) => Some(error)
      case Success(_) => FirstError(fields, lookups[1..])
  }

  // unpack_job: None is a job that is unpacked.
  function UnpackJob(fields: map<Key, Json>): Option<UnpackError> {
    var error := FirstError(fields, Reads(Flag(fields, SendToOds, true), Flag(fields, CrossYearMatchAvailable, false)));
    if error.Some? then error
    else if InputFiles !in fields || !fields[InputFiles].Texts? then Some(BadType)
    else if "INPUT_FILE" !in fields[InputFiles].texts then Some(NoInputFile)
    else None
  }

  function TextAt(fields: map<Key, Json>, key: Key): string {
    if key in fields && fields[key].Text? then fields[key].s else ""
  }

  function TextIn(fields: map<Key, Json>, outer: Key, inner: Key): Option<string> {
    if outer in fields && fields[outer].Object? && inner in fields[outer].fields && fields[outer].fields[inner].Text?
    then Some(fields[outer].fields[inner].s) else None
  }

  // The attributes and environment variables that unpack_job sets.
  datatype Settings = Settings(
    statusUrl: Option<string>,
    errorUrl: Option<string>,
    matchesUrl: Option<string>,
    summaryUrl: Option<string>,
    outputFilesUrl: Option<string>,
    crossYearRosterUrl: Option<string>,
    sendToOds: bool,
    crossYearMatchAvailable: bool,
    edfiApiBaseUrl: Option<string>,
    edfiApiClientId: Option<string>,
    edfiApiClientSecret: Option<string>,
    assessmentBundle: Option<string>,
    assessmentBundleBranch: Option<string>,
    inputSources: map<string, string>,
    inputParams: map<string, string>,
    descriptorMap: Option<Json>)

  function SettingsOf(fields: map<Key, Json>): Settings {
    var sendToOds, crossYear := Flag(fields, SendToOds, true), Flag(fields, CrossYearMatchAvailable, false);
    Settings(
      TextIn(fields, AppUrls, Status), TextIn(fields, AppUrls, ErrorUrl), TextIn(fields, AppUrls, UnmatchedIds),
      TextIn(fields, AppUrls, Summary), TextIn(fields, AppUrls, OutputFiles),
      if crossYear then TextIn(fields, AppUrls, RosterUrl) else None,
      sendToOds, crossYear,
      if sendToOds then TextIn(fields, AssessmentDatastore, Key.Url) else None,
      if sendToOds then TextIn(fields, AssessmentDatastore, ClientId) else None,
      if sendToOds then TextIn(fields, AssessmentDatastore, ClientSecret) else None,
      TextIn(fields, BundleKey, Path), TextIn(fields, BundleKey, Branch),
      TextsAt(fields, InputFiles), TextsAt(fields, InputParams), Get(fields, CustomDescriptorMappings))
  }

  // get_student_roster's choice
  function SourceOf(fields: map<Key, Json>): RosterSource {
    if Flag(fields, SendToOds, true) then FromOds
    else if Flag(fields, CrossYearMatchAvailable, false) then FromEdu
    else S3Source(TextAt(fields, RosterFilePath))
  }

  // get_roster_from_s3
  function S3Source(rosterFilePath: string): RosterSource {
    var uri := UrlParse(rosterFilePath, false);
    FromS3(uri.netloc, WithoutLeadingSlashes(uri.path))
  }

  // s3_in_path
  function InputPrefix(fields: map<Key, Json>): string {
    WithoutTrailingSlashes(WithoutLeadingSlashes(UrlParse(TextAt(fields, AppDataBasePath), true).path)) + "/input"
  }

  function TextsAt(fields: map<Key, Json>, key: Key): map<string, string> {
    if key in fields && fields[key].Texts? then fields[key].texts else map[]
  }

  // The bucket and key that get_input_files downloads for an input.
  function DownloadOf(fields: map<Key, Json>, envName: string): (string, string)
    requires envName in TextsAt(fields, InputFiles)
  {
    (UrlParse(TextAt(fields, AppDataBasePath), true).netloc,
     InputPrefix(fields) + "/" + WithoutLeadingSlashes(UrlParse(TextsAt(fields, InputFiles)[envName], false).path))
  }
}
