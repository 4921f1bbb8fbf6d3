/**
  The steps a job run is made of, what each does to the executor's state, and the script of a run.

  A world says how every external call turns out.  An external call either goes through or raises; a
  call that raises may first record an error, as its handler does, and the alarm that ends a job is a
  call that records ExecutorTimeout.  Status posts never raise.
 */
module ExecutorSteps {
  import opened Wrappers
  import IdTypes
  import MatchRates

  datatype Action =
    | BundleRefresh | EarthmoverDeps | GetRoster | GetFiles | EarthmoverRun | LightbeamSend | UploadOutput
    | Done
  datatype Status = Begin | Succeeded | Failed

  datatype ErrorCode =
    | Unknown | ExecutorTimeout | InvalidJob | LightbeamFetchError | MissingOdsRoster | LightbeamSendError
    | InputS3Download | GitPullError | ArtifactNotFound | ArtifactEmpty | ArtifactS3Upload
    | EarthmoverDepsError | EarthmoverRunError | CrossYearRosterFetch | InsufficientMatches

  // What is posted to the status and error URLs; no action is the empty string.
  datatype Post = Update(action: Option<Action>, status: Status) | ErrorReport(code: ErrorCode)

  datatype Artifact =
    | Roster | CrossYearRoster | EmResults | EmResultsXYear | MatchRatesFile | UnmatchedStudents | LbSendResults

  const ALL := [Roster, CrossYearRoster, EmResults, EmResultsXYear, MatchRatesFile, UnmatchedStudents, LbSendResults]

  // The artifacts whose needs_upload flag is set to begin with.
  const INITIALLY_FLAGGED := {Roster, EmResults, MatchRatesFile, LbSendResults}

  datatype Call =
    | InitRun | FetchJob | UnpackStatusUrl | UnpackErrorUrl | UnpackBundle | UnpackRest
    | GitFetch | GitCheckout | GitPull
    | InstallDeps | DisableSsl
    | FetchOdsRoster | MoveOdsRoster | FetchEduRoster | DownloadRoster
    | DownloadInput(name: string) | MapDescriptors
    | RunEarthmover | RunEarthmoverAgain | ReadMatchRates | ReadMatchRatesAgain | CountMatchRates
    | MoveOutput | FetchCrossYearRoster
    | SendOutput | ReadSendResults
    | PostIdMatches
    | UploadOutputSet(i: nat) | PostOutputSet(i: nat) | CompileSummary

  datatype Outcome = Fine | Raises(recorded: Option<ErrorCode>)

  // How the upload of an artifact goes during shutdown; Raises ends all remaining ones.
  datatype LateOutcome = LateUploaded | LateSkipped | LateRaises

  datatype World = World(
    outcome: Call -> Outcome,
    upload: Artifact -> Outcome,
    roster: seq<IdTypes.Record>,
    rates: seq<MatchRates.MatchRow>,
    ratesAgain: seq<MatchRates.MatchRow>,
    sendFails: bool,     // lightbeam send exits with an error
    allFailed: bool,     // its results list only failures
    hasFiles: nat -> bool,  // whether an output set has a file to upload
    late: Artifact -> LateOutcome,
    acknowledged: nat -> bool)  // whether the app answers a failure update, by attempt

  datatype Job = Job(
    sendToOds: bool,
    crossYearMatchAvailable: bool,
    inputFiles: seq<string>,
    localMode: bool)

  datatype IdReport = IdReport(name: string, idType: string, count: int)

  datatype State = State(
    raised: bool,        // an exception is on its way out of the try block
    statusUrl: bool,
    errorUrl: bool,
    action: Option<Action>,
    error: Option<ErrorCode>,
    posts: seq<Post>,
    flagged: set<Artifact>,
    uploads: seq<Artifact>,
    ids: IdTypes.Unpacked,
    matches: MatchRates.Matches,
    reports: seq<IdReport>)

  const INITIAL :=
    State(false, false, false, None, None, [], INITIALLY_FLAGGED, [], IdTypes.Unpacked({}, None), MatchRates.NO_MATCHES, [])

  datatype Step =
    | Start(a: Action)
    | Do(call: Call)
    | Flag(x: Artifact, needed: bool)
    | Upload(x: Artifact)
    | UnpackIds
    | Record(m: MatchRates.Matches)
    | Enforce(m: MatchRates.Matches)
    | SendViaLightbeam
    | CheckSent
    | Report(r: IdReport)

  function OutcomeOf(step: Step, w: World): Outcome {
    match step
    case Do(call) => w.outcome(call)
    case Upload(x) => w.upload(x)
    case UnpackIds => if IdTypes.Unpack(w.roster).Some? then Fine else Raises(None)
    case Enforce(m) => if MatchRates.Suffices(m) then Fine else Raises(Some(InsufficientMatches))
    case SendViaLightbeam => w.outcome(SendOutput)
    case CheckSent => if w.allFailed then Raises(Some(LightbeamSendError)) else Fine
    case Report(_) => w.outcome(PostIdMatches)
    case _ => Fine
  }

  // set_action: the previous action, if any, has succeeded.
  function StartPosts(before: Option<Action>, next: Action): seq<Post> {
    (if before.Some? then [Update(before, Succeeded)] else []) + [Update(Some(next), Begin)]
  }

  function Effect(s: State, step: Step, w: World): State
    requires OutcomeOf(step, w).Fine?
  {
    match step
    case Start(a) => s.(posts := s.posts + StartPosts(s.action, a), action := Some(a))
    case Do(UnpackStatusUrl) => s.(statusUrl := true)
    case Do(UnpackErrorUrl) => s.(errorUrl := true)
    case Do(_) => s
    case Flag(x, needed) => s.(flagged := if needed then s.flagged + {x} else s.flagged - {x})
    case Upload(x) => s.(uploads := s.uploads + [x], flagged := s.flagged - {x})
    case UnpackIds => s.(ids := IdTypes.Unpack(w.roster).value)
    case Record(m) => s.(matches := m)
    case Enforce(_) => s
    // a failed send records an error, but goes on
    case SendViaLightbeam => if w.sendFails then s.(error := Some(LightbeamSendError)) else s
    case CheckSent => s
    case Report(r) => s.(reports := s.reports + [r])
  }

  predicate IsEarthmoverRun(step: Step) {
    step == Do(RunEarthmover) || step == Do(RunEarthmoverAgain)
  }

  function Raised(s: State, step: Step, recorded: Option<ErrorCode>): State {
    // after a failed Earthmover run there is a match-rates file, but not one to send
    s.(raised := true,
       error := if recorded.Some? then recorded else s.error,
       flagged := if IsEarthmoverRun(step) && recorded == Some(EarthmoverRunError)
                  then s.flagged - {MatchRatesFile} else s.flagged)
  }

  function Perform(s: State, step: Step, w: World): State {
    if s.raised then s
    else
      match OutcomeOf(step, w)
      case Fine => Effect(s, step, w)
      case Raises(recorded) => Raised(s, step, recorded)
  }

  function Exec(s: State, steps: seq<Step>, w: World): State {
    if steps == [] then s else Perform(Exec(s, steps[..|steps| - 1], w), steps[|steps| - 1], w)
  }

  /* The script of a run */

  const FETCH_JOB := [Do(InitRun), Do(FetchJob), Do(UnpackStatusUrl), Do(UnpackErrorUrl), Do(UnpackBundle)]

  function Unpacking(job: Job): seq<Step> {
    FETCH_JOB
    + (if job.sendToOds then [] else [Flag(LbSendResults, false)])
    + [Do(UnpackRest)]
  }

  const REFRESH_BUNDLE_CODE := [Start(BundleRefresh), Do(GitFetch), Do(GitCheckout), Do(GitPull)]

  function InstallingDeps(job: Job): seq<Step> {
    [Start(EarthmoverDeps), Do(InstallDeps)]
    + if job.sendToOds && job.localMode then [Do(DisableSsl)] else []
  }

  function RosterSource(job: Job): seq<Step> {
    if job.sendToOds then [Do(FetchOdsRoster), Do(MoveOdsRoster)]
    else if job.crossYearMatchAvailable then [Do(FetchEduRoster)]
    else [Do(DownloadRoster)]
  }

  function GettingRoster(job: Job): seq<Step> {
    [Start(GetRoster)] + RosterSource(job) + [Upload(Roster)]
  }

  function Downloads(names: seq<string>): seq<Step> {
    if names == [] then [] else Downloads(names[..|names| - 1]) + [Do(DownloadInput(names[|names| - 1]))]
  }

  function GettingFiles(job: Job): seq<Step> {
    [Start(GetFiles)] + Downloads(job.inputFiles) + [Do(MapDescriptors)]
  }

  const CROSS_YEAR_ROSTER :=
    [Do(MoveOutput), Do(FetchCrossYearRoster), Flag(CrossYearRoster, true), Upload(CrossYearRoster)]

  const SECOND_RUN := [Do(RunEarthmoverAgain), Flag(EmResultsXYear, true), Upload(EmResultsXYear)]

  // A second pass that is not constrained to the first one's ID decides for itself.
  function SecondMatches(first: MatchRates.Matches, w: World): seq<Step> {
    var second := MatchRates.Recorded(w.ratesAgain);
    if first.rate >= MatchRates.REQUIRED_ID_MATCH_RATE then []
    else [Do(ReadMatchRatesAgain), Record(second), Enforce(second)]
  }

  function Remaining(first: MatchRates.Matches, w: World): seq<Step> {
    [Do(CountMatchRates),
     Record(MatchRates.AfterCount(MatchRates.BeforeCount(first, w.ratesAgain), w.ratesAgain))]
  }

  function CrossYearPass(first: MatchRates.Matches, w: World): seq<Step> {
    CROSS_YEAR_ROSTER + SECOND_RUN + SecondMatches(first, w) + Remaining(first, w)
  }

  const FIRST_RUN := [Start(EarthmoverRun), UnpackIds, Do(RunEarthmover), Upload(EmResults)]

  // The second pass, or the first one's threshold.
  function Deciding(job: Job, w: World): seq<Step> {
    var first := MatchRates.Recorded(w.rates);
    if MatchRates.NeedsSecondPass(job.sendToOds, job.crossYearMatchAvailable, first) then CrossYearPass(first, w)
    else [Enforce(first)]
  }

  function RunningEarthmover(job: Job, w: World): seq<Step> {
    FIRST_RUN + [Do(ReadMatchRates), Record(MatchRates.Recorded(w.rates))] + Deciding(job, w) + [Upload(MatchRatesFile)]
  }

  const CHECK_SENDING := [Upload(LbSendResults), Do(ReadSendResults), CheckSent]

  function Sending(job: Job): seq<Step> {
    if job.sendToOds then [Start(LightbeamSend), SendViaLightbeam] + CHECK_SENDING else []
  }

  // What Earthmover leaves recorded when nothing raises.
  function FinalMatches(job: Job, w: World): MatchRates.Matches {
    var outcome := MatchRates.Orchestrated(job.sendToOds, job.crossYearMatchAvailable, w.rates, w.ratesAgain);
    if outcome.Success? then outcome.value else outcome.error
  }

  function ReportOf(m: MatchRates.Matches, ids: IdTypes.Unpacked): IdReport {
    IdReport(m.idName, IdTypes.ReportedIdType(m.idType, ids.proxy), if m.unmatched.Some? then m.unmatched.value else 0)
  }

  function ReportingOn(m: MatchRates.Matches, ids: Option<IdTypes.Unpacked>): seq<Step> {
    if m.unmatched == Some(0) || ids.None? then []
    else [Report(ReportOf(m, ids.value)), Flag(UnmatchedStudents, true), Upload(UnmatchedStudents)]
  }

  function Reporting(job: Job, w: World): seq<Step> {
    ReportingOn(FinalMatches(job, w), IdTypes.Unpack(w.roster))
  }

  function OutputSets(job: Job, w: World): nat {
    if MatchRates.NeedsSecondPass(job.sendToOds, job.crossYearMatchAvailable, MatchRates.Recorded(w.rates)) then 2 else 1
  }

  // An output set without files is not reported.
  function UploadingSet(i: nat, w: World): seq<Step> {
    [Do(UploadOutputSet(i))] + if w.hasFiles(i) then [Do(PostOutputSet(i))] else []
  }

  function Uploading(sets: nat, w: World): seq<Step> {
    if sets == 0 then [Start(UploadOutput)]
    else Uploading(sets - 1, w) + UploadingSet(sets - 1, w)
  }

  function Preparing(job: Job): seq<Step> {
    Unpacking(job) + REFRESH_BUNDLE_CODE + InstallingDeps(job) + GettingRoster(job) + GettingFiles(job)
  }

  function Transforming(job: Job, w: World): seq<Step> {
    RunningEarthmover(job, w) + Sending(job) + Reporting(job, w)
  }

  function Delivering(job: Job, w: World): seq<Step> {
    Uploading(OutputSets(job, w), w) + [Do(CompileSummary)]
  }

  // The try block of execute(), when nothing raises.
  function Script(job: Job, w: World): seq<Step> {
    Preparing(job) + Transforming(job, w) + Delivering(job, w)
  }

  /* Ending a run */

  function LateUploads(s: State, artifacts: seq<Artifact>, w: World): (State, bool) {
    if artifacts == [] then (s, true)
    else
      var (s1, goesOn), x := LateUploads(s, artifacts[..|artifacts| - 1], w), artifacts[|artifacts| - 1];
      if !goesOn || x !in s1.flagged || w.late(x).LateSkipped? then (s1, goesOn)
      else if w.late(x).LateRaises? then (s1, false)
      else (s1.(uploads := s1.uploads + [x], flagged := s1.flagged - {x}), true)
  }

  const MAX_ATTEMPTS := 3

  // How often update_failure posts, from its given attempt on.
  function Attempts(acknowledged: nat -> bool, attempt: nat): (n: nat)
    requires 1 <= attempt <= MAX_ATTEMPTS
    ensures 1 <= n <= MAX_ATTEMPTS - attempt + 1
    decreases MAX_ATTEMPTS - attempt
  {
    if acknowledged(attempt) || attempt == MAX_ATTEMPTS then 1 else 1 + Attempts(acknowledged, attempt + 1)
  }

  function Repeat(post: Post, n: nat): seq<Post> {
    seq(n, i => post)
  }

  // The handler of whatever is raised: without its URL, nothing can be posted.
  function ShutDown(s: State, w: World): State {
    var error := if s.error.Some? then s.error.value else Unknown;
    var s1 := LateUploads(s.(error := Some(error)), ALL, w).0;
    s1.(posts := s.posts
                 + (if s.statusUrl then Repeat(Update(s.action, Failed), Attempts(w.acknowledged, 1)) else [])
                 + (if s.errorUrl then [ErrorReport(error)] else [])
                 + (if s.statusUrl then [Update(Some(Done), Failed)] else []))
  }

  function Complete(s: State): State {
    s.(posts := s.posts + [Update(s.action, Succeeded), Update(Some(Done), Succeeded)], action := None)
  }

  function Executed(job: Job, w: World): State {
    var s := Exec(INITIAL, Script(job, w), w);
    if s.raised then ShutDown(s, w) else Complete(s)
  }

  /* Runs and their beginnings */

  lemma ExecMore(s: State, steps: seq<Step>, step: Step, w: World)
    ensures Exec(s, steps + [step], w) == Perform(Exec(s, steps, w), step, w)
  {
    assert (steps + [step])[..|steps|] == steps;
  }

  lemma {:induction false} RaisedStops(s: State, part: seq<Step>, steps: seq<Step>, w: World)
    requires part <= steps && Exec(s, part, w).raised
    ensures Exec(s, steps, w) == Exec(s, part, w)
  {
    if |part| < |steps| {
      RaisedStops(s, part, steps[..|steps| - 1], w);
    } else {
      assert part == steps;
    }
  }

  lemma {:induction false} DownloadsGrow(names: seq<string>, i: nat)
    requires i <= |names|
    ensures Downloads(names[..i]) <= Downloads(names)
    decreases |names|
  {
    if i < |names| {
      assert names[..|names| - 1][..i] == names[..i];
      DownloadsGrow(names[..|names| - 1], i);
    } else {
      assert names[..i] == names;
    }
  }

  lemma {:induction false} UploadingGrows(i: nat, sets: nat, w: World)
    requires i <= sets
    ensures Uploading(i, w) <= Uploading(sets, w)
    decreases sets - i
  {
    if i < sets {
      UploadingGrows(i + 1, sets, w);
    }
  }

  lemma {:induction false} LateUploadsStop(s: State, i: nat, n: nat, w: World)
    requires i <= n <= |ALL| && !LateUploads(s, ALL[..i], w).1
    ensures LateUploads(s, ALL[..n], w) == LateUploads(s, ALL[..i], w)
  {
    if i < n {
      assert ALL[..n][..n - 1] == ALL[..n - 1];
      LateUploadsStop(s, i, n - 1, w);
    }
  }

  lemma {:induction false} LateUploadsKeep(s: State, artifacts: seq<Artifact>, w: World)
    ensures var (t, _) := LateUploads(s, artifacts, w);
            t == s.(uploads := t.uploads, flagged := t.flagged)
  {
    if artifacts != [] {
      LateUploadsKeep(s, artifacts[..|artifacts| - 1], w);
    }
  }

  lemma {:induction false} UrlsAreUnpacked(s: State, steps: seq<Step>, w: World)
    requires !Exec(s, steps, w).raised
    ensures Do(UnpackStatusUrl) in steps ==> Exec(s, steps, w).statusUrl
    ensures Do(UnpackErrorUrl) in steps ==> Exec(s, steps, w).errorUrl
  {
    if steps != [] {
      assert steps == steps[..|steps| - 1] + [steps[|steps| - 1]];
      UrlsAreUnpacked(s, steps[..|steps| - 1], w);
    }
  }

  lemma ScriptUnpacksUrls(job: Job, w: World)
    ensures Do(UnpackStatusUrl) in Script(job, w) && Do(UnpackErrorUrl) in Script(job, w)
  {
    assert FETCH_JOB[2] == Do(UnpackStatusUrl) && FETCH_JOB[3] == Do(UnpackErrorUrl);
    assert forall i :: 0 <= i < |FETCH_JOB| ==> Unpacking(job)[i] == FETCH_JOB[i] && Preparing(job)[i] == FETCH_JOB[i];
    assert Script(job, w)[2] == FETCH_JOB[2] && Script(job, w)[3] == FETCH_JOB[3];
  }
}
