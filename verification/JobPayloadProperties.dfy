/**
  What reaches the executor of an accepted job: its parameters, its roster, its input files.
 */
module JobPayloadProperties {
  import opened Wrappers
  import opened PythonUrls
  import opened JobPayload

  /* Parameters */

  ghost predicate IsKey(params: seq<Param>, key: string) {
    exists p :: p in params && p.key == key
  }

  lemma {:induction false} SubmittedIsValueOf(bundle: Bundle, params: seq<Param>, key: string)
    ensures Submitted(EnrichAll(bundle, params), key) == ValueOf(params, key)
  {
    if params != [] {
      assert EnrichAll(bundle, params)[1..] == EnrichAll(bundle, params[1..]);
      SubmittedIsValueOf(bundle, params[1..], key);
    }
  }

  lemma {:induction false} ValuesHaveKeys(params: seq<Param>, key: string)
    requires ValueOf(params, key).Some?
    ensures IsKey(params, key)
  {
    if params[0].key == key {
      assert params[0] in params;
    } else {
      ValuesHaveKeys(params[1..], key);
      var p :| p in params[1..] && p.key == key;
      assert p in params;
    }
  }

  // The reduction keeps a parameter that the template lists, and only that.
  lemma {:induction false} ParamsForAt(template: seq<TemplateParam>, params: seq<InputParam>, key: string)
    ensures Get(ParamsFor(template, params), key) ==
            if exists t :: t in template && t.templateKey == key then Submitted(params, key) else None
  {
    if template != [] {
      var front, last := template[..|template| - 1], template[|template| - 1];
      assert template == front + [last];
      ParamsForAt(front, params, key);
      assert (exists t :: t in template && t.templateKey == key)
             <==> (exists t :: t in front && t.templateKey == key) || last.templateKey == key by {
        assert last in template;
        assert forall t :: t in front ==> t in template;
      }
    }
  }

  lemma TemplateListsExpected(bundle: Bundle, key: string)
    ensures (exists t :: t in ToTemplate(bundle).params && t.templateKey == key) <==> Expects(bundle, key)
  {
    var params := ToTemplate(bundle).params;
    if Expects(bundle, key) {
      var p :| p in bundle.inputParams && p.envVar == key;
      var i :| 0 <= i < |bundle.inputParams| && bundle.inputParams[i] == p;
      assert params[i] in params && params[i].templateKey == key;
    }
    if t :| t in params && t.templateKey == key {
      var i :| 0 <= i < |params| && params[i] == t;
      assert bundle.inputParams[i] in bundle.inputParams && bundle.inputParams[i].envVar == key;
    }
  }

  // For every input that createJob accepts: what is sent under a key is what was submitted, but for the
  // API year, which is the school year's, and the descriptor namespace, where the partner has one.
  lemma ParamsArriveAsSubmitted(bundle: Bundle, input: JobInput, destination: Destination, tenant: Tenant,
                                schoolYear: SchoolYear, jobId: string, bucket: string, encode: string -> string,
                                namespace: Option<string>, key: string)
    requires Validate(bundle, input).None?
    ensures var created := CreateJob(bundle, input, destination, tenant, schoolYear, jobId, bucket, encode);
            created.Success?
            && Get(InputParamsFor(created.value, namespace), key) ==
                 if key == "DESCRIPTOR_NAMESPACE" && namespace.Some? && namespace.value != "" then namespace
                 else if key == "API_YEAR" then Some(schoolYear.endYear)
                 else ValueOf(input.params, key)
  {
    var job := CreateJob(bundle, input, destination, tenant, schoolYear, jobId, bucket, encode).value;
    ParamsForAt(job.template.params, job.inputParams, key);
    TemplateListsExpected(bundle, key);
    SubmittedIsValueOf(bundle, input.params, key);
    if ValueOf(input.params, key).Some? {
      ValuesHaveKeys(input.params, key);
      var q :| q in input.params && q.key == key;
      assert Expects(bundle, q.key);
    }
    assert "API_YEAR" != "DESCRIPTOR_NAMESPACE";
  }

  // So what is sent is what the bundle asks for: every required parameter, allowed values only, and
  // nothing that the bundle does not expect.
  lemma SentParamsAreValid(bundle: Bundle, input: JobInput, destination: Destination, tenant: Tenant,
                           schoolYear: SchoolYear, jobId: string, bucket: string, encode: string -> string,
                           namespace: Option<string>, key: string)
    requires Validate(bundle, input).None? && key != "API_YEAR" && key != "DESCRIPTOR_NAMESPACE"
    ensures var job := CreateJob(bundle, input, destination, tenant, schoolYear, jobId, bucket, encode).value;
            var sent := Get(InputParamsFor(job, namespace), key);
            && (sent.Some? ==> Expects(bundle, key))
            && (forall p :: p in bundle.inputParams && p.envVar == key ==>
                  && (p.isRequired ==> sent.Some?)
                  && (p.allowedValues != [] && sent.Some? ==> sent.value in p.allowedValues))
  {
    ParamsArriveAsSubmitted(bundle, input, destination, tenant, schoolYear, jobId, bucket, encode, namespace, key);
    if ValueOf(input.params, key).Some? {
      ValuesHaveKeys(input.params, key);
      var q :| q in input.params && q.key == key;
      assert Expects(bundle, q.key);
    }
  }

  // Likewise for files.
  lemma SentFilesAreValid(bundle: Bundle, input: JobInput, destination: Destination, tenant: Tenant,
                          schoolYear: SchoolYear, jobId: string, bucket: string, encode: string -> string, key: string)
    requires Validate(bundle, input).None?
    ensures var sent := FilesFor(CreateJob(bundle, input, destination, tenant, schoolYear, jobId, bucket, encode).value.files);
            && (key in sent ==> ExpectsFile(bundle, key))
            && (forall f :: f in bundle.inputFiles && f.isRequired && f.envVar == key ==> key in sent)
  {
    var files := CreateJob(bundle, input, destination, tenant, schoolYear, jobId, bucket, encode).value.files;
    FilesForAt(files, key);
    if f :| f in files && f.templateKey == key {
      var i :| 0 <= i < |files| && files[i] == f;
      assert input.files[i] in input.files;
    }
    if f :| f in bundle.inputFiles && f.isRequired && f.envVar == key {
      var g :| g in input.files && g.templateKey == key;
      var i :| 0 <= i < |input.files| && input.files[i] == g;
      assert files[i].templateKey == key;
    }
  }

  // A submission is accepted exactly when it has a value for every required parameter but the API year,
  // an allowed one wherever the bundle restricts them, all required files, and nothing unexpected.
  lemma AcceptedIff(bundle: Bundle, input: JobInput, destination: Destination, tenant: Tenant, schoolYear: SchoolYear,
                    jobId: string, bucket: string, encode: string -> string)
    ensures CreateJob(bundle, input, destination, tenant, schoolYear, jobId, bucket, encode).Success?
       <==> (forall p :: p in bundle.inputParams ==>
               && (p.isRequired && p.envVar != "API_YEAR" ==> ValueOf(input.params, p.envVar).Some?)
               && (p.allowedValues != [] && ValueOf(input.params, p.envVar).Some? ==>
                     ValueOf(input.params, p.envVar).value in p.allowedValues))
            && (forall f :: f in bundle.inputFiles && f.isRequired ==>
                  exists g :: g in input.files && g.templateKey == f.envVar)
            && (forall q :: q in input.params ==> exists p :: p in bundle.inputParams && p.envVar == q.key)
            && (forall g :: g in input.files ==> exists f :: f in bundle.inputFiles && f.envVar == g.templateKey)
  {
    var invalid := Validate(bundle, input);
    if invalid.None? {
      forall q | q in input.params ensures exists p :: p in bundle.inputParams && p.envVar == q.key {
        assert Expects(bundle, q.key);
      }
      forall g | g in input.files ensures exists f :: f in bundle.inputFiles && f.envVar == g.templateKey {
        assert ExpectsFile(bundle, g.templateKey);
      }
    }
  }

  // A job is created for the tenant, the year and the destination that were accepted, of the bundle that
  // was asked for, with each file under the user's name for it.
  lemma CreatedAsAccepted(bundle: Bundle, input: JobInput, destination: Destination, tenant: Tenant, schoolYear: SchoolYear,
                          jobId: string, bucket: string, encode: string -> string)
    requires Validate(bundle, input).None?
    ensures var job := CreateJob(bundle, input, destination, tenant, schoolYear, jobId, bucket, encode).value;
            && job.tenant == tenant && job.schoolYear == schoolYear && job.sendToOds == destination.sendToOds
            && job.template.path == bundle.path && job.fileBucketOrHost == bucket
            && |job.files| == |input.files|
            && (forall i :: 0 <= i < |job.files| ==>
                  && job.files[i].templateKey == input.files[i].templateKey
                  && job.files[i].nameInternal == input.files[i].templateKey + "__" + input.files[i].nameFromUser)
            && |job.template.params| == |bundle.inputParams|
            && (forall i :: 0 <= i < |job.template.params| ==>
                  job.template.params[i] ==
                  TemplateParam(bundle.inputParams[i].displayName, bundle.inputParams[i].envVar, bundle.inputParams[i].isRequired,
                                bundle.inputParams[i].allowedValues))
  {
  }

  // A stored parameter has the name and the rules that the bundle gives it.
  lemma {:induction false} FoundParam(params: seq<BundleParam>, key: string)
    ensures FindParam(params, key).Some? <==> exists p :: p in params && p.envVar == key
    ensures FindParam(params, key).Some? ==> FindParam(params, key).value in params && FindParam(params, key).value.envVar == key
  {
    if params != [] {
      assert params == [params[0]] + params[1..];
      FoundParam(params[1..], key);
    }
  }

  lemma StoredAsDeclared(bundle: Bundle, input: JobInput, destination: Destination, tenant: Tenant, schoolYear: SchoolYear,
                         jobId: string, bucket: string, encode: string -> string, i: nat)
    requires Validate(bundle, input).None? && i < |input.params|
    ensures var job := CreateJob(bundle, input, destination, tenant, schoolYear, jobId, bucket, encode).value;
            && i < |job.inputParams|
            && job.inputParams[i].templateKey == input.params[i].key && job.inputParams[i].value == input.params[i].value
            && exists p :: p in bundle.inputParams && p.envVar == input.params[i].key
                 && job.inputParams[i].name == p.displayName && job.inputParams[i].isRequired == p.isRequired
                 && job.inputParams[i].allowedValues == p.allowedValues
  {
    assert input.params[i] in input.params;
    assert Expects(bundle, input.params[i].key);
    FoundParam(bundle.inputParams, input.params[i].key);
  }

  /* Unpacking */

  lemma {:induction false} NoErrorIff(fields: map<Key, Json>, lookups: seq<(Key, Option<Key>)>)
    ensures FirstError(fields, lookups).None? <==> forall l :: l in lookups ==> ReadOne(fields, l).Success?
  {
    if lookups != [] {
      assert lookups == [lookups[0]] + lookups[1..];
      NoErrorIff(fields, lookups[1..]);
    }
  }

  ghost predicate FailsFirst(fields: map<Key, Json>, lookups: seq<(Key, Option<Key>)>, i: nat)
    requires i < |lookups|
  {
    ReadOne(fields, lookups[i]).Failure? && forall j :: 0 <= j < i ==> ReadOne(fields, lookups[j]).Success?
  }

  // Whatever the payload: unpack_job goes through exactly when every key that the flags call for can be
  // read and there is an INPUT_FILE among the files, and fails at the first key that cannot.
  lemma UnpacksIff(fields: map<Key, Json>)
    ensures var lookups := Reads(Flag(fields, SendToOds, true), Flag(fields, CrossYearMatchAvailable, false));
            && (UnpackJob(fields).None?
                <==> (forall l :: l in lookups ==> ReadOne(fields, l).Success?) && "INPUT_FILE" in TextsAt(fields, InputFiles))
            && (forall i :: 0 <= i < |lookups| && FailsFirst(fields, lookups, i) ==>
                  UnpackJob(fields) == Some(ReadOne(fields, lookups[i]).error))
  {
    var lookups := Reads(Flag(fields, SendToOds, true), Flag(fields, CrossYearMatchAvailable, false));
    NoErrorIff(fields, lookups);
    forall i | 0 <= i < |lookups| && FailsFirst(fields, lookups, i)
      ensures UnpackJob(fields) == Some(ReadOne(fields, lookups[i]).error)
    {
      FirstErrorAt(fields, lookups, i);
    }
  }

  lemma {:induction false} FirstErrorAt(fields: map<Key, Json>, lookups: seq<(Key, Option<Key>)>, i: nat)
    requires i < |lookups| && FailsFirst(fields, lookups, i)
    ensures FirstError(fields, lookups) == Some(ReadOne(fields, lookups[i]).error)
  {
    if i > 0 {
      assert ReadOne(fields, lookups[0]).Success?;
      FirstErrorAt(fields, lookups[1..], i - 1);
    }
  }

  lemma AlwaysSentFields(job: Job, crossYear: bool, namespace: Option<string>, mappings: Json, base: string, branch: string)
    ensures var sent := AlwaysSent(job, crossYear, namespace, mappings, base, branch);
            && sent.Keys == {AppDataBasePath, InputFiles, InputParams, CustomDescriptorMappings, BundleKey, AppUrls,
                             CrossYearMatchAvailable, SendToOds}
            && sent[AppDataBasePath] == Text(S3Url(job.fileBucketOrHost, job.fileBasePath))
            && sent[InputFiles] == Texts(FilesFor(job.files))
            && sent[CrossYearMatchAvailable] == Truth(crossYear) && sent[SendToOds] == Truth(job.sendToOds)
            && sent[BundleKey] == Object(map[Path := Text(job.template.path), Branch := Text(branch)])
            && sent[AppUrls] == Object(AppUrlsFor(base, crossYear))
            && sent[InputParams] == Texts(InputParamsFor(job, namespace)) && sent[CustomDescriptorMappings] == mappings
  {
  }

  lemma PayloadFields(job: Job, connection: Option<Connection>, crossYear: bool, namespace: Option<string>, mappings: Json,
                      rosterBucket: string, base: string, branch: string)
    requires PayloadFor(job, connection, crossYear, namespace, mappings, rosterBucket, base, branch).Success?
    ensures var payload := PayloadFor(job, connection, crossYear, namespace, mappings, rosterBucket, base, branch).value;
            && Flag(payload, SendToOds, true) == job.sendToOds
            && Flag(payload, CrossYearMatchAvailable, false) == crossYear
            && Get(payload, InputFiles) == Some(Texts(FilesFor(job.files)))
            && TextAt(payload, AppDataBasePath) == S3Url(job.fileBucketOrHost, job.fileBasePath)
            && (!job.sendToOds && !crossYear ==>
                  TextAt(payload, RosterFilePath) == S3Url(rosterBucket, RosterFileKey(job.tenant, job.schoolYear)))
  {
    AlwaysSentFields(job, crossYear, namespace, mappings, base, branch);
  }

  // What the app sends always has every key that unpack_job reads; the job is refused exactly when it
  // has no INPUT_FILE.
  lemma PayloadUnpacks(job: Job, connection: Option<Connection>, crossYear: bool, namespace: Option<string>, mappings: Json,
                       rosterBucket: string, base: string, branch: string)
    requires PayloadFor(job, connection, crossYear, namespace, mappings, rosterBucket, base, branch).Success?
    ensures UnpackJob(PayloadFor(job, connection, crossYear, namespace, mappings, rosterBucket, base, branch).value)
            == if "INPUT_FILE" in FilesFor(job.files) then None else Some(NoInputFile)
  {
    var payload := PayloadFor(job, connection, crossYear, namespace, mappings, rosterBucket, base, branch).value;
    PayloadFields(job, connection, crossYear, namespace, mappings, rosterBucket, base, branch);
    PayloadHasObjects(job, connection, crossYear, namespace, mappings, rosterBucket, base, branch);
    LookupsSucceed(payload, job.sendToOds, crossYear);
    NoErrorIff(payload, Reads(job.sendToOds, crossYear));
  }

  // What the executor takes from the payload is what the app means: each URL is that of its own route of
  // the run, the credentials are those of the ODS connection, and the bundle is the job's.
  lemma SettingsAreAsMeant(job: Job, connection: Option<Connection>, crossYear: bool, namespace: Option<string>, mappings: Json,
                           rosterBucket: string, base: string, branch: string)
    requires PayloadFor(job, connection, crossYear, namespace, mappings, rosterBucket, base, branch).Success?
    ensures var s := SettingsOf(PayloadFor(job, connection, crossYear, namespace, mappings, rosterBucket, base, branch).value);
            && s.statusUrl == Some(base + "/status") && s.errorUrl == Some(base + "/error")
            && s.matchesUrl == Some(base + "/unmatched-ids") && s.summaryUrl == Some(base + "/summary")
            && s.outputFilesUrl == Some(base + "/output-files")
            && s.crossYearRosterUrl == (if crossYear then Some(base + "/roster") else None)
            && s.sendToOds == job.sendToOds && s.crossYearMatchAvailable == crossYear
            && (job.sendToOds ==>
                  && s.edfiApiBaseUrl == Some(connection.value.host)
                  && s.edfiApiClientId == Some(connection.value.clientId)
                  && s.edfiApiClientSecret == Some(connection.value.clientSecret))
            && (!job.sendToOds ==>
                  s.edfiApiBaseUrl.None? && s.edfiApiClientId.None? && s.edfiApiClientSecret.None?)
            && s.assessmentBundle == Some(job.template.path) && s.assessmentBundleBranch == Some(branch)
            && s.inputSources == FilesFor(job.files) && s.inputParams == InputParamsFor(job, namespace)
            && s.descriptorMap == Some(mappings)
  {
    var payload := PayloadFor(job, connection, crossYear, namespace, mappings, rosterBucket, base, branch).value;
    AlwaysSentFields(job, crossYear, namespace, mappings, base, branch);
    AlwaysSentIsKept(job, connection, crossYear, namespace, mappings, rosterBucket, base, branch);
    if job.sendToOds {
      DatastoreIsSent(job, connection, crossYear, namespace, mappings, rosterBucket, base, branch);
    }
    UrlsAreRead(payload, base, crossYear);
    RestIsRead(payload, job, branch);
  }

  lemma UrlsAreRead(payload: map<Key, Json>, base: string, crossYear: bool)
    requires Get(payload, AppUrls) == Some(Object(AppUrlsFor(base, crossYear)))
    requires Get(payload, CrossYearMatchAvailable) == Some(Truth(crossYear))
    ensures var s := SettingsOf(payload);
            && s.statusUrl == Some(base + "/status") && s.errorUrl == Some(base + "/error")
            && s.matchesUrl == Some(base + "/unmatched-ids") && s.summaryUrl == Some(base + "/summary")
            && s.outputFilesUrl == Some(base + "/output-files")
            && s.crossYearRosterUrl == (if crossYear then Some(base + "/roster") else None)
            && s.crossYearMatchAvailable == crossYear
  {
    UrlsAreSent(base, crossYear);
  }

  lemma RestIsRead(payload: map<Key, Json>, job: Job, branch: string)
    requires Get(payload, BundleKey) == Some(Object(map[Path := Text(job.template.path), Branch := Text(branch)]))
    requires Get(payload, SendToOds) == Some(Truth(job.sendToOds))
    ensures var s := SettingsOf(payload);
            && s.assessmentBundle == Some(job.template.path) && s.assessmentBundleBranch == Some(branch)
            && s.sendToOds == job.sendToOds
            && s.edfiApiBaseUrl == (if job.sendToOds then TextIn(payload, AssessmentDatastore, Key.Url) else None)
            && s.edfiApiClientId == (if job.sendToOds then TextIn(payload, AssessmentDatastore, ClientId) else None)
            && s.edfiApiClientSecret == (if job.sendToOds then TextIn(payload, AssessmentDatastore, ClientSecret) else None)
            && s.inputSources == TextsAt(payload, InputFiles) && s.inputParams == TextsAt(payload, InputParams)
            && s.descriptorMap == Get(payload, CustomDescriptorMappings)
  {
  }

  lemma AlwaysSentIsKept(job: Job, connection: Option<Connection>, crossYear: bool, namespace: Option<string>, mappings: Json,
                         rosterBucket: string, base: string, branch: string)
    requires PayloadFor(job, connection, crossYear, namespace, mappings, rosterBucket, base, branch).Success?
    ensures var payload := PayloadFor(job, connection, crossYear, namespace, mappings, rosterBucket, base, branch).value;
            var sent := AlwaysSent(job, crossYear, namespace, mappings, base, branch);
            forall key :: key in sent ==> key in payload && payload[key] == sent[key]
  {
    AlwaysSentFields(job, crossYear, namespace, mappings, base, branch);
  }

  lemma UrlsAreSent(base: string, crossYear: bool)
    ensures var urls := AppUrlsFor(base, crossYear);
            && Get(urls, Status) == Some(Text(base + "/status")) && Get(urls, ErrorUrl) == Some(Text(base + "/error"))
            && Get(urls, Summary) == Some(Text(base + "/summary"))
            && Get(urls, UnmatchedIds) == Some(Text(base + "/unmatched-ids"))
            && Get(urls, OutputFiles) == Some(Text(base + "/output-files"))
            && Get(urls, RosterUrl) == if crossYear then Some(Text(base + "/roster")) else None
  {
  }

  lemma DatastoreIsSent(job: Job, connection: Option<Connection>, crossYear: bool, namespace: Option<string>, mappings: Json,
                        rosterBucket: string, base: string, branch: string)
    requires job.sendToOds && connection.Some?
    ensures var payload := PayloadFor(job, connection, crossYear, namespace, mappings, rosterBucket, base, branch).value;
            && TextIn(payload, AssessmentDatastore, Key.Url) == Some(connection.value.host)
            && TextIn(payload, AssessmentDatastore, ClientId) == Some(connection.value.clientId)
            && TextIn(payload, AssessmentDatastore, ClientSecret) == Some(connection.value.clientSecret)
  {
  }

  // Credentials are sent only to jobs that need them, and a roster file only where one will be read.
  lemma SentOnlyWhereNeeded(job: Job, connection: Option<Connection>, crossYear: bool, namespace: Option<string>, mappings: Json,
                            rosterBucket: string, base: string, branch: string)
    requires PayloadFor(job, connection, crossYear, namespace, mappings, rosterBucket, base, branch).Success?
    ensures var payload := PayloadFor(job, connection, crossYear, namespace, mappings, rosterBucket, base, branch).value;
            && (AssessmentDatastore in payload <==> job.sendToOds)
            && (RosterFilePath in payload <==> !job.sendToOds && !crossYear)
  {
    AlwaysSentFields(job, crossYear, namespace, mappings, base, branch);
  }

  // A payload that does not say so is of a job that sends to the ODS, without cross-year matching; where
  // the roster comes from is up to these two flags.
  lemma SourceIff(fields: map<Key, Json>)
    ensures var s := SettingsOf(fields);
            && (SendToOds !in fields ==> s.sendToOds)
            && (CrossYearMatchAvailable !in fields ==> !s.crossYearMatchAvailable)
            && (SourceOf(fields).FromOds? <==> s.sendToOds)
            && (SourceOf(fields).FromEdu? <==> !s.sendToOds && s.crossYearMatchAvailable)
  {
  }

  // The objects that unpack_job looks into, and the keys it looks for in them.
  predicate HasObjects(fields: map<Key, Json>, sendToOds: bool, crossYear: bool) {
    && {AppUrls, BundleKey, AppDataBasePath, InputFiles, CustomDescriptorMappings, InputParams} <= fields.Keys
    && fields[AppUrls].Object? && {Status, ErrorUrl, UnmatchedIds, Summary, OutputFiles} <= fields[AppUrls].fields.Keys
    && (crossYear ==> RosterUrl in fields[AppUrls].fields)
    && fields[BundleKey].Object? && {Path, Branch} <= fields[BundleKey].fields.Keys
    && (sendToOds ==>
          && AssessmentDatastore in fields && fields[AssessmentDatastore].Object?
          && {Key.Url, ClientId, ClientSecret} <= fields[AssessmentDatastore].fields.Keys)
    && (!sendToOds && !crossYear ==> RosterFilePath in fields)
  }

  lemma PayloadHasObjects(job: Job, connection: Option<Connection>, crossYear: bool, namespace: Option<string>, mappings: Json,
                          rosterBucket: string, base: string, branch: string)
    requires PayloadFor(job, connection, crossYear, namespace, mappings, rosterBucket, base, branch).Success?
    ensures HasObjects(PayloadFor(job, connection, crossYear, namespace, mappings, rosterBucket, base, branch).value,
                       job.sendToOds, crossYear)
  {
    AlwaysSentFields(job, crossYear, namespace, mappings, base, branch);
  }

  lemma LookupsSucceed(fields: map<Key, Json>, sendToOds: bool, crossYear: bool)
    requires HasObjects(fields, sendToOds, crossYear)
    ensures forall l :: l in Reads(sendToOds, crossYear) ==> ReadOne(fields, l).Success?
  {
  }

  lemma {:induction false} FilesForAt(files: seq<JobFile>, key: string)
    ensures key in FilesFor(files) <==> exists f :: f in files && f.templateKey == key
  {
    if files != [] {
      assert files == files[..|files| - 1] + [files[|files| - 1]];
      FilesForAt(files[..|files| - 1], key);
    }
  }

  // An accepted job of a bundle that requires INPUT_FILE is unpacked.
  lemma AcceptedJobUnpacks(bundle: Bundle, input: JobInput, destination: Destination, tenant: Tenant, schoolYear: SchoolYear,
                           jobId: string, bucket: string, encode: string -> string,
                           connection: Option<Connection>, crossYear: bool, namespace: Option<string>, mappings: Json,
                           rosterBucket: string, base: string, branch: string)
    requires Validate(bundle, input).None?
    requires exists f :: f in bundle.inputFiles && f.isRequired && f.envVar == "INPUT_FILE"
    requires destination.sendToOds ==> connection.Some?
    ensures var job := CreateJob(bundle, input, destination, tenant, schoolYear, jobId, bucket, encode).value;
            var payload := PayloadFor(job, connection, crossYear, namespace, mappings, rosterBucket, base, branch);
            payload.Success? && UnpackJob(payload.value) == None
  {
    var job := CreateJob(bundle, input, destination, tenant, schoolYear, jobId, bucket, encode).value;
    SentFilesAreValid(bundle, input, destination, tenant, schoolYear, jobId, bucket, encode, "INPUT_FILE");
    PayloadUnpacks(job, connection, crossYear, namespace, mappings, rosterBucket, base, branch);
  }

  // Of a bundle that does not require it, an accepted job can be refused.
  lemma AcceptedJobRefusedHappens(tenant: Tenant, schoolYear: SchoolYear, jobId: string, bucket: string,
                                  encode: string -> string, rosterBucket: string, base: string, branch: string)
    ensures var created := CreateJob(Bundle("b", [], []), JobInput([], []), Destination("1", false, None), tenant, schoolYear,
                                     jobId, bucket, encode);
            && created.Success?
            && (var payload := PayloadFor(created.value, None, true, None, Nil, rosterBucket, base, branch);
                payload.Success? && UnpackJob(payload.value) == Some(NoInputFile))
  {
    var job := CreateJob(Bundle("b", [], []), JobInput([], []), Destination("1", false, None), tenant, schoolYear, jobId, bucket,
                         encode).value;
    PayloadUnpacks(job, None, true, None, Nil, rosterBucket, base, branch);
    FilesForAt(job.files, "INPUT_FILE");
  }

  /* Destinations */

  // A job may go somewhere exactly when its school year is configured and enabled and there is an ODS to
  // send to or, without sending, a roster to match with; an ODS is the tenant's first for that year.
  lemma DestinationIff(config: Option<YearConfig>, tenant: Tenant, crossYear: bool, rosterBucket: string,
                       fileExists: (string, string) -> bool)
    ensures var r := ResolveJobDestination(config, tenant, crossYear, rosterBucket, fileExists);
            && (r.Success? <==>
                  && config.Some? && config.value.isEnabled
                  && (config.value.sendToOds ==> config.value.odsIds != [])
                  && (!config.value.sendToOds ==>
                        crossYear || fileExists(rosterBucket, RosterFileKey(tenant, config.value.schoolYear))))
            && (r.Success? ==>
                  && r.value.schoolYearId == config.value.schoolYear.id
                  && r.value.sendToOds == config.value.sendToOds
                  && (r.value.odsId.Some? <==> config.value.sendToOds)
                  && (r.value.odsId.Some? ==> r.value.odsId.value == config.value.odsIds[0]))
            && (r.Failure? ==>
                  && (r.error == SchoolYearConfigMissing <==> config.None?)
                  && (r.error == SchoolYearDisabled <==> config.Some? && !config.value.isEnabled)
                  && (r.error == OdsNotFound ==> config.Some? && config.value.isEnabled && config.value.sendToOds)
                  && (r.error == RosterUnavailable ==> config.Some? && config.value.isEnabled && !config.value.sendToOds))
  {
  }

  /* The roster */

  lemma PlainConcat(a: string, b: string)
    ensures IsPlain(a + b) <==> IsPlain(a) && IsPlain(b)
  {
    assert forall c :: c in a + b <==> c in a || c in b;
  }

  lemma FileNameParts()
    ensures ROSTER_FILE_NAME == "studentEducation" + ("OrganizationAssociations" + ".jsonl")
  {
  }

  lemma FirstPartIsPlain()
    ensures IsPlain("studentEducation")
  {
  }

  lemma SecondPartIsPlain()
    ensures IsPlain("OrganizationAssociations")
  {
  }

  lemma RosterFileNameIsPlain()
    ensures IsPlain(ROSTER_FILE_NAME)
  {
    FileNameParts();
    FirstPartIsPlain();
    SecondPartIsPlain();
    PlainConcat("OrganizationAssociations", ".jsonl");
    PlainConcat("studentEducation", "OrganizationAssociations" + ".jsonl");
  }

  lemma RosterKeyIsPlainIff(tenant: Tenant, schoolYear: SchoolYear)
    ensures IsPlain(RosterFileKey(tenant, schoolYear))
       <==> IsPlain(tenant.partnerId) && IsPlain(tenant.tenantCode) && IsPlain(schoolYear.endYear)
    ensures RosterFileKey(tenant, schoolYear)[0] == '_'
  {
    RosterFileNameIsPlain();
    var a := "__rosters/" + tenant.partnerId;
    var b := a + "/" + tenant.tenantCode;
    var c := b + "/" + schoolYear.endYear;
    PlainConcat("__rosters/", tenant.partnerId);
    PlainConcat(a, "/");
    PlainConcat(a + "/", tenant.tenantCode);
    PlainConcat(b, "/");
    PlainConcat(b + "/", schoolYear.endYear);
    PlainConcat(c, "/");
    PlainConcat(c + "/", ROSTER_FILE_NAME);
  }

  lemma S3SourceIff(bucket: string, key: string)
    requires IsBucketName(bucket) && key != "" && key[0] == '_'
    ensures S3Source(S3Url(bucket, key)) == FromS3(bucket, key) <==> IsPlain(key)
  {
    S3KeyReadsBackIff(bucket, key);
  }

  // The executor gets its roster from the source that was checked when the job's destination was
  // accepted, exactly when the partner's toggle has not changed since and, for a file in S3, nothing in
  // the codes has a meaning in a URL.
  lemma RosterIsTheCheckedOneIff(config: YearConfig, tenant: Tenant, crossYear: bool, rosterBucket: string,
                                 fileExists: (string, string) -> bool,
                                 job: Job, connection: Option<Connection>, crossYearNow: bool, namespace: Option<string>,
                                 mappings: Json, base: string, branch: string)
    requires IsBucketName(rosterBucket)
    requires var accepted := ResolveJobDestination(Some(config), tenant, crossYear, rosterBucket, fileExists);
             accepted.Success? && job.sendToOds == accepted.value.sendToOds
    requires job.tenant == tenant && job.schoolYear == config.schoolYear
    requires PayloadFor(job, connection, crossYearNow, namespace, mappings, rosterBucket, base, branch).Success?
    ensures var payload := PayloadFor(job, connection, crossYearNow, namespace, mappings, rosterBucket, base, branch).value;
            var checked := CheckedSource(config, tenant, crossYear, rosterBucket);
            && (checked.FromS3? ==> fileExists(checked.bucket, checked.key))
            && (SourceOf(payload) == checked <==>
                  || config.sendToOds
                  || (crossYear && crossYearNow)
                  || (!crossYear && !crossYearNow
                      && IsPlain(tenant.partnerId) && IsPlain(tenant.tenantCode) && IsPlain(config.schoolYear.endYear)))
  {
    RosterKeyIsPlainIff(tenant, config.schoolYear);
    S3SourceIff(rosterBucket, RosterFileKey(tenant, config.schoolYear));
    PayloadFields(job, connection, crossYearNow, namespace, mappings, rosterBucket, base, branch);
  }

  // It happens: the partner's code holds a question mark.
  lemma AnotherRosterHappens(job: Job, rosterBucket: string, base: string, branch: string)
    requires IsBucketName(rosterBucket) && !job.sendToOds
    requires job.tenant == Tenant("a?b", "t") && job.schoolYear == SchoolYear("1", "2025")
    ensures var config := YearConfig(job.schoolYear, true, false, []);
            var payload := PayloadFor(job, None, false, None, Nil, rosterBucket, base, branch);
            && ResolveJobDestination(Some(config), job.tenant, false, rosterBucket, (b, k) => true).Success?
            && payload.Success?
            && SourceOf(payload.value) != CheckedSource(config, job.tenant, false, rosterBucket)
  {
    var config := YearConfig(job.schoolYear, true, false, []);
    assert "a?b"[1] == '?';
    assert !IsPlain("a?b");
    RosterIsTheCheckedOneIff(config, job.tenant, false, rosterBucket, (b, k) => true, job, None, false, None, Nil, base, branch);
  }

  /* Input files */

  predicate IsPathChar(c: char) {
    IsUnreserved(c) || c == '/'
  }

  lemma BasePathIsClean(tenant: Tenant, schoolYearId: string, jobId: string, encode: string -> string)
    requires EncodesComponents(encode)
    requires tenant.partnerId != "" && tenant.tenantCode != "" && schoolYearId != "" && jobId != ""
    ensures var path := BasePath(tenant, schoolYearId, jobId, encode);
            && path != "" && path[0] != '/' && path[|path| - 1] != '/'
            && forall c :: c in path ==> IsPathChar(c)
  {
    var first, last := encode(tenant.partnerId), encode(jobId);
    assert first[0] in first && last[|last| - 1] in last;
    assert !IsUnreserved('/');
    var path := BasePath(tenant, schoolYearId, jobId, encode);
    assert path[0] == first[0] && path[|path| - 1] == last[|last| - 1];
  }

  lemma SplitUnique(a: string, b: string, c: string, d: string)
    requires '/' !in a && '/' !in c && a + "/" + b == c + "/" + d
    ensures a == c && b == d
  {
    assert a + "/" + b == a + ("/" + b) && c + "/" + d == c + ("/" + d);
    FindConcat(a, "/" + b, '/');
    FindConcat(c, "/" + d, '/');
    assert (a + "/" + b)[..|a|] == a && (a + "/" + b)[|a| + 1..] == b;
    assert (c + "/" + d)[..|c|] == c && (c + "/" + d)[|c| + 1..] == d;
  }

  lemma EncodedHasNoSlash(encode: string -> string, s: string)
    requires EncodesComponents(encode) && s != ""
    ensures '/' !in encode(s)
  {
    assert !IsUnreserved('/');
  }

  // No two jobs keep their files in the same place: where encoding keeps strings apart, so do base paths.
  lemma BasePathsDiffer(t: Tenant, year: string, job: string, t': Tenant, year': string, job': string,
                        encode: string -> string)
    requires EncodesComponents(encode) && forall s, s' :: encode(s) == encode(s') ==> s == s'
    requires t.partnerId != "" && t.tenantCode != "" && year != "" && t'.partnerId != "" && t'.tenantCode != "" && year' != ""
    ensures BasePath(t, year, job, encode) == BasePath(t', year', job', encode) <==> t == t' && year == year' && job == job'
  {
    if BasePath(t, year, job, encode) == BasePath(t', year', job', encode) {
      var a, b, c, d := encode(t.partnerId), encode(t.tenantCode), encode(year), encode(job);
      var a', b', c', d' := encode(t'.partnerId), encode(t'.tenantCode), encode(year'), encode(job');
      EncodedHasNoSlash(encode, t.partnerId);
      EncodedHasNoSlash(encode, t.tenantCode);
      EncodedHasNoSlash(encode, year);
      EncodedHasNoSlash(encode, t'.partnerId);
      EncodedHasNoSlash(encode, t'.tenantCode);
      EncodedHasNoSlash(encode, year');
      FourParts(a, b, c, d);
      FourParts(a', b', c', d');
      SplitUnique(a, b + "/" + (c + "/" + d), a', b' + "/" + (c' + "/" + d'));
      SplitUnique(b, c + "/" + d, b', c' + "/" + d');
      SplitUnique(c, d, c', d');
    }
  }

  lemma FourParts(a: string, b: string, c: string, d: string)
    ensures a + "/" + b + "/" + c + "/" + d == a + "/" + (b + "/" + (c + "/" + d))
  {
  }

  lemma PrefixReadsBack(bucket: string, path: string)
    requires IsBucketName(bucket)
    requires path != "" && path[0] != '/' && path[|path| - 1] != '/' && forall c :: c in path ==> IsPathChar(c)
    ensures var url := UrlParse(S3Url(bucket, path), true);
            url.netloc == bucket && WithoutTrailingSlashes(WithoutLeadingSlashes(url.path)) == path
  {
    PathCharsAreKept(path);
    S3UrlSplit(bucket, path, true);
    PathOfS3("/" + path);
    assert ("/" + path)[1..] == path;
  }

  lemma PathCharsAreKept(path: string)
    requires forall c :: c in path ==> IsPathChar(c)
    ensures WithoutUnsafe(path) == path && '#' !in path && '?' !in path
  {
    assert !IsPathChar('#') && !IsPathChar('?') && !IsPathChar('\t') && !IsPathChar('\r') && !IsPathChar('\n');
    PlainIsKept(path);
  }

  lemma PathOfS3(rest: string)
    requires '#' !in rest && '?' !in rest
    ensures PathOf("s3", rest, true) == rest
  {
    UsesOfParams();
    assert Before(rest, '#') == rest && Before(rest, '?') == rest;
  }

  // The primary key of job_file.
  ghost predicate DistinctFiles(files: seq<JobFile>) {
    forall i, j :: 0 <= i < j < |files| ==> files[i].templateKey != files[j].templateKey
  }

  lemma {:induction false} FilesForIs(files: seq<JobFile>, i: nat)
    requires DistinctFiles(files) && i < |files|
    ensures Get(FilesFor(files), files[i].templateKey) == Some(files[i].nameInternal)
  {
    var front := files[..|files| - 1];
    if i < |files| - 1 {
      assert front[i] == files[i];
      FilesForIs(front, i);
    }
  }

  lemma PrefixCancels(prefix: string, a: string, b: string)
    ensures prefix + a == prefix + b <==> a == b
  {
    if prefix + a == prefix + b {
      assert a == (prefix + a)[|prefix|..] && b == (prefix + b)[|prefix|..];
    }
  }

  // For every file of a created job: the executor downloads exactly what was uploaded, unless the
  // user's name for it holds a question mark, a tab or a line break, or a semicolon after its last
  // slash.
  lemma DownloadIsUploadIff(bundle: Bundle, input: JobInput, destination: Destination, tenant: Tenant, schoolYear: SchoolYear,
                            jobId: string, bucket: string, encode: string -> string,
                            connection: Option<Connection>, crossYear: bool, namespace: Option<string>, mappings: Json,
                            rosterBucket: string, base: string, branch: string, i: nat)
    requires Validate(bundle, input).None? && i < |input.files| && IsEnvVar(input.files[i].templateKey)
    requires destination.sendToOds ==> connection.Some?
    requires IsBucketName(bucket) && EncodesComponents(encode)
    requires tenant.partnerId != "" && tenant.tenantCode != "" && schoolYear.id != "" && jobId != ""
    requires DistinctFiles(CreateJob(bundle, input, destination, tenant, schoolYear, jobId, bucket, encode).value.files)
    ensures var job := CreateJob(bundle, input, destination, tenant, schoolYear, jobId, bucket, encode).value;
            var payload := PayloadFor(job, connection, crossYear, namespace, mappings, rosterBucket, base, branch);
            var file, name := job.files[i], input.files[i].nameFromUser;
            && payload.Success? && file.templateKey in TextsAt(payload.value, InputFiles)
            && (DownloadOf(payload.value, file.templateKey) == (bucket, file.path) <==> IsPlain(name) && HasNoParams(name))
  {
    var job := CreateJob(bundle, input, destination, tenant, schoolYear, jobId, bucket, encode).value;
    var payload := PayloadFor(job, connection, crossYear, namespace, mappings, rosterBucket, base, branch).value;
    PayloadFields(job, connection, crossYear, namespace, mappings, rosterBucket, base, branch);
    FilesForIs(job.files, i);
    BasePathIsClean(tenant, schoolYear.id, jobId, encode);
    PrefixReadsBack(bucket, job.fileBasePath);
    DownloadOfFile(payload, job, input.files[i], job.files[i]);
  }

  lemma DownloadOfFile(payload: map<Key, Json>, job: Job, input: FileInput, file: JobFile)
    requires IsEnvVar(input.templateKey) && file == ToJobFile(job.fileBasePath, input)
    requires Get(payload, InputFiles) == Some(Texts(FilesFor(job.files)))
    requires Get(FilesFor(job.files), file.templateKey) == Some(file.nameInternal)
    requires var url := UrlParse(TextAt(payload, AppDataBasePath), true);
             && url.netloc == job.fileBucketOrHost
             && WithoutTrailingSlashes(WithoutLeadingSlashes(url.path)) == job.fileBasePath
    ensures file.templateKey in TextsAt(payload, InputFiles)
    ensures DownloadOf(payload, file.templateKey) == (job.fileBucketOrHost, file.path)
       <==> IsPlain(input.nameFromUser) && HasNoParams(input.nameFromUser)
  {
    FileNameReadsBackIff(input.templateKey, input.nameFromUser);
    var read := WithoutLeadingSlashes(UrlParse(file.nameInternal, false).path);
    PrefixCancels(job.fileBasePath + "/input" + "/", read, file.nameInternal);
    assert file.path == job.fileBasePath + "/input" + "/" + file.nameInternal by {
      PathOfFile(job.fileBasePath, file.nameInternal);
    }
    assert DownloadOf(payload, file.templateKey).1 == job.fileBasePath + "/input" + "/" + read;
  }

  lemma PathOfFile(basePath: string, name: string)
    ensures basePath + "/input/" + name == basePath + "/input" + "/" + name
  {
  }

  // It happens: the user's file is called "a?b.csv".
  lemma AnotherDownloadHappens(tenant: Tenant, schoolYear: SchoolYear, jobId: string, bucket: string,
                               encode: string -> string, rosterBucket: string, base: string, branch: string)
    requires IsBucketName(bucket) && EncodesComponents(encode)
    requires tenant.partnerId != "" && tenant.tenantCode != "" && schoolYear.id != "" && jobId != ""
    ensures var bundle := Bundle("b", [BundleFile("INPUT_FILE", true)], []);
            var input := JobInput([FileInput("INPUT_FILE", "a?b.csv")], []);
            var created := CreateJob(bundle, input, Destination("1", false, None), tenant, schoolYear, jobId, bucket, encode);
            && created.Success? && |created.value.files| == 1
            && (var payload := PayloadFor(created.value, None, true, None, Nil, rosterBucket, base, branch);
                && payload.Success? && "INPUT_FILE" in TextsAt(payload.value, InputFiles)
                && DownloadOf(payload.value, "INPUT_FILE") != (bucket, created.value.files[0].path))
  {
    var bundle := Bundle("b", [BundleFile("INPUT_FILE", true)], []);
    var input := JobInput([FileInput("INPUT_FILE", "a?b.csv")], []);
    RequiredFileIsThere(bundle, input);
    assert "a?b.csv"[1] == '?';
    assert !IsPlain("a?b.csv");
    InputFileIsEnvVar();
    DownloadIsUploadIff(bundle, input, Destination("1", false, None), tenant, schoolYear, jobId, bucket, encode,
                        None, true, None, Nil, rosterBucket, base, branch, 0);
  }

  lemma RequiredFileIsThere(bundle: Bundle, input: JobInput)
    requires bundle == Bundle("b", [BundleFile("INPUT_FILE", true)], [])
    requires input == JobInput([FileInput("INPUT_FILE", "a?b.csv")], [])
    ensures Validate(bundle, input).None?
  {
    assert bundle.inputFiles[0] in bundle.inputFiles && input.files[0] in input.files;
  }

  lemma InputFileIsEnvVar()
    ensures IsEnvVar("INPUT_FILE")
  {
  }
}
