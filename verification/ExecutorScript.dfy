/**
  What a run has to do, told without its script: which steps its job and world call for, and where each
  of them comes in a run.  From these alone follows when a run succeeds, where it stops, what it reports
  then, and which artifacts it uploads.
 */
module ExecutorScript {
  import opened Wrappers
  import opened ExecutorSteps
  import opened ExecutorProperties
  import IdTypes
  import MatchRates

  /* What a job calls for */

  // Sending to an ODS with cross-year matching, a run takes a second pass if the first has no row, or its
  // best row leaves students unmatched.
  predicate TakesSecondPass(job: Job, w: World) {
    && job.sendToOds && job.crossYearMatchAvailable
    && (w.rates == [] || MatchRates.Highest(w.rates).Unmatched() > 0)
  }

  // No row of the first pass meets the threshold, so that a second pass decides for itself.
  predicate FallsShort(w: World) {
    forall r :: r in w.rates ==> r.matchRate < 0.5
  }

  function Outcomes(job: Job, w: World): Result<MatchRates.Matches, MatchRates.Matches> {
    MatchRates.Orchestrated(job.sendToOds, job.crossYearMatchAvailable, w.rates, w.ratesAgain)
  }

  predicate LeavesUnmatched(job: Job, w: World) {
    IdTypes.Unpack(w.roster).Some? && FinalMatches(job, w).unmatched != Some(0)
  }

  predicate Makes(job: Job, w: World, call: Call) {
    match call
    case DisableSsl => job.sendToOds && job.localMode
    case FetchOdsRoster => job.sendToOds
    case MoveOdsRoster => job.sendToOds
    case FetchEduRoster => !job.sendToOds && job.crossYearMatchAvailable
    case DownloadRoster => !job.sendToOds && !job.crossYearMatchAvailable
    case DownloadInput(name) => name in job.inputFiles
    case MoveOutput => TakesSecondPass(job, w)
    case FetchCrossYearRoster => TakesSecondPass(job, w)
    case RunEarthmoverAgain => TakesSecondPass(job, w)
    case ReadMatchRatesAgain => TakesSecondPass(job, w) && FallsShort(w)
    case CountMatchRates => TakesSecondPass(job, w)
    case SendOutput => job.sendToOds
    case ReadSendResults => job.sendToOds
    case PostIdMatches => LeavesUnmatched(job, w)
    case UploadOutputSet(i) => i == 0 || (i == 1 && TakesSecondPass(job, w))
    case PostOutputSet(i) => (i == 0 || (i == 1 && TakesSecondPass(job, w))) && w.hasFiles(i)
    case _ => true
  }

  // The artifacts a run has to upload.
  predicate IsDue(job: Job, w: World, x: Artifact) {
    match x
    case CrossYearRoster => TakesSecondPass(job, w)
    case EmResultsXYear => TakesSecondPass(job, w)
    case UnmatchedStudents => LeavesUnmatched(job, w)
    case LbSendResults => job.sendToOds
    case _ => true
  }

  predicate Needs(job: Job, w: World, step: Step) {
    match step
    case Start(a) => a in Plan(job)
    // SendViaLightbeam and Report make these two calls
    case Do(call) => call != SendOutput && call != PostIdMatches && Makes(job, w, call)
    case Flag(x, needed) =>
      if needed then (x == CrossYearRoster || x == EmResultsXYear || x == UnmatchedStudents) && IsDue(job, w, x)
      else x == LbSendResults && !job.sendToOds
    case Upload(x) => IsDue(job, w, x)
    case UnpackIds => true
    case Record(_) => true   // when it is recorded what matches
    case Enforce(m) =>
      if TakesSecondPass(job, w) then FallsShort(w) && m == MatchRates.Recorded(w.ratesAgain)
      else m == MatchRates.Recorded(w.rates)
    case SendViaLightbeam => job.sendToOds
    case CheckSent => job.sendToOds
    case Report(r) => LeavesUnmatched(job, w) && r == ReportOf(FinalMatches(job, w), IdTypes.Unpack(w.roster).value)
  }

  /* Where it comes in a run */

  function CallRank(call: Call): int {
    match call
    case InitRun => 0 case FetchJob => 1
    case UnpackStatusUrl => 2 case UnpackErrorUrl => 3 case UnpackBundle => 4 case UnpackRest => 6
    case GitFetch => 8 case GitCheckout => 9 case GitPull => 10
    case InstallDeps => 12 case DisableSsl => 13
    case FetchOdsRoster => 15 case MoveOdsRoster => 16 case FetchEduRoster => 17 case DownloadRoster => 18
    case DownloadInput(_) => 21 case MapDescriptors => 22
    case RunEarthmover => 25 case ReadMatchRates => 27
    case MoveOutput => 28 case FetchCrossYearRoster => 29 case RunEarthmoverAgain => 32
    case ReadMatchRatesAgain => 35 case CountMatchRates => 37
    case SendOutput => 40 case ReadSendResults => 42 case PostIdMatches => 44
    case UploadOutputSet(i) => 48 + 2 * i case PostOutputSet(i) => 49 + 2 * i
    case CompileSummary => 52
  }

  function StartRank(a: Action): int {
    match a
    case BundleRefresh => 7 case EarthmoverDeps => 11 case GetRoster => 14 case GetFiles => 20
    case EarthmoverRun => 23 case LightbeamSend => 39 case UploadOutput => 47 case Done => 53
  }

  function UploadRank(x: Artifact): int {
    match x
    case Roster => 19 case EmResults => 26 case CrossYearRoster => 31 case EmResultsXYear => 34
    case MatchRatesFile => 38 case LbSendResults => 41 case UnmatchedStudents => 46
  }

  // Where the matches that decide have to suffice.
  const THRESHOLD := 36

  function Rank(step: Step): int {
    match step
    case Start(a) => StartRank(a)
    case Do(call) => CallRank(call)
    case Flag(x, needed) => if needed then UploadRank(x) - 1 else 5
    case Upload(x) => UploadRank(x)
    case UnpackIds => 24
    case Record(_) => -1
    case Enforce(_) => THRESHOLD
    case SendViaLightbeam => 40
    case CheckSent => 43
    case Report(_) => 44
  }

  predicate IsDownload(step: Step) {
    step.Do? && step.call.DownloadInput?
  }

  predicate Precedes(x: Step, y: Step) {
    x.Record? || y.Record? || Rank(x) < Rank(y) || (IsDownload(x) && IsDownload(y))
  }

  ghost predicate Between(steps: seq<Step>, low: int, high: int) {
    forall x :: x in steps ==> x.Record? || low <= Rank(x) < high
  }

  ghost predicate InOrder(steps: seq<Step>) {
    forall i, j :: 0 <= i < j < |steps| ==> Precedes(steps[i], steps[j])
  }

  lemma OrderedConcat(a: seq<Step>, b: seq<Step>, low: int, mid: int, high: int)
    requires low <= mid <= high
    requires InOrder(a) && Between(a, low, mid) && InOrder(b) && Between(b, mid, high)
    ensures InOrder(a + b) && Between(a + b, low, high)
  {
    forall i, j | 0 <= i < j < |a + b| ensures Precedes((a + b)[i], (a + b)[j]) {
      assert i < |a| ==> a[i] in a;
      assert j >= |a| ==> b[j - |a|] in b;
    }
  }

  /* The script is in this order */

  lemma {:induction false} DownloadsInOrder(names: seq<string>)
    ensures forall x :: x in Downloads(names) ==> IsDownload(x)
    ensures InOrder(Downloads(names)) && Between(Downloads(names), 21, 22)
  {
    if names != [] {
      DownloadsInOrder(names[..|names| - 1]);
    }
  }

  lemma FetchingInOrder()
    ensures InOrder(FETCH_JOB) && Between(FETCH_JOB, 0, 5)
  {
    OrderedConcat([Do(InitRun), Do(FetchJob)], [Do(UnpackStatusUrl), Do(UnpackErrorUrl), Do(UnpackBundle)], 0, 2, 5);
  }

  lemma RefreshInOrder()
    ensures InOrder(REFRESH_BUNDLE_CODE) && Between(REFRESH_BUNDLE_CODE, 7, 11)
  {
  }

  lemma UnpackingInOrder(job: Job)
    ensures InOrder(Unpacking(job)) && Between(Unpacking(job), 0, 7)
  {
    var unflag := if job.sendToOds then [] else [Flag(LbSendResults, false)];
    FetchingInOrder();
    OrderedConcat(FETCH_JOB, unflag, 0, 5, 6);
    OrderedConcat(FETCH_JOB + unflag, [Do(UnpackRest)], 0, 6, 7);
  }

  lemma InstallingInOrder(job: Job)
    ensures InOrder(InstallingDeps(job)) && Between(InstallingDeps(job), 11, 14)
  {
  }

  lemma RosterInOrder(job: Job)
    ensures InOrder(GettingRoster(job)) && Between(GettingRoster(job), 14, 20)
  {
    OrderedConcat([Start(GetRoster)], RosterSource(job), 14, 15, 19);
    OrderedConcat([Start(GetRoster)] + RosterSource(job), [Upload(Roster)], 14, 19, 20);
  }

  lemma GettingFilesInOrder(job: Job)
    ensures InOrder(GettingFiles(job)) && Between(GettingFiles(job), 20, 23)
  {
    DownloadsInOrder(job.inputFiles);
    OrderedConcat([Start(GetFiles)], Downloads(job.inputFiles), 20, 21, 22);
    OrderedConcat([Start(GetFiles)] + Downloads(job.inputFiles), [Do(MapDescriptors)], 20, 22, 23);
  }

  lemma PreparingInOrder(job: Job)
    ensures InOrder(Preparing(job)) && Between(Preparing(job), 0, 23)
  {
    var u, r, i, g, f := Unpacking(job), REFRESH_BUNDLE_CODE, InstallingDeps(job), GettingRoster(job), GettingFiles(job);
    UnpackingInOrder(job);
    RefreshInOrder();
    InstallingInOrder(job);
    RosterInOrder(job);
    GettingFilesInOrder(job);
    OrderedConcat(u, r, 0, 7, 11);
    OrderedConcat(u + r, i, 0, 11, 14);
    OrderedConcat(u + r + i, g, 0, 14, 20);
    OrderedConcat(u + r + i + g, f, 0, 20, 23);
  }

  lemma CrossYearRosterInOrder()
    ensures InOrder(CROSS_YEAR_ROSTER) && Between(CROSS_YEAR_ROSTER, 28, 32)
  {
  }

  lemma SecondRunInOrder()
    ensures InOrder(SECOND_RUN) && Between(SECOND_RUN, 32, 35)
  {
  }

  lemma MatchesInOrder(first: MatchRates.Matches, w: World)
    ensures InOrder(SecondMatches(first, w)) && Between(SecondMatches(first, w), 35, 37)
    ensures InOrder(Remaining(first, w)) && Between(Remaining(first, w), 37, 38)
  {
  }

  lemma CrossYearInOrder(first: MatchRates.Matches, w: World)
    ensures InOrder(CrossYearPass(first, w)) && Between(CrossYearPass(first, w), 28, 38)
  {
    var c, s, m, r := CROSS_YEAR_ROSTER, SECOND_RUN, SecondMatches(first, w), Remaining(first, w);
    CrossYearRosterInOrder();
    SecondRunInOrder();
    MatchesInOrder(first, w);
    OrderedConcat(c, s, 28, 32, 35);
    OrderedConcat(c + s, m, 28, 35, 37);
    OrderedConcat(c + s + m, r, 28, 37, 38);
  }

  lemma DecidingInOrder(job: Job, w: World)
    ensures InOrder(Deciding(job, w)) && Between(Deciding(job, w), 28, 38)
  {
    CrossYearInOrder(MatchRates.Recorded(w.rates), w);
  }

  lemma FirstRunInOrder()
    ensures InOrder(FIRST_RUN) && Between(FIRST_RUN, 23, 27)
  {
  }

  lemma ReadingInOrder(w: World)
    ensures var read := [Do(ReadMatchRates), Record(MatchRates.Recorded(w.rates))];
            InOrder(read) && Between(read, 27, 28)
  {
  }

  lemma EarthmoverInOrder(job: Job, w: World)
    ensures InOrder(RunningEarthmover(job, w)) && Between(RunningEarthmover(job, w), 23, 39)
  {
    var f, read, d := FIRST_RUN, [Do(ReadMatchRates), Record(MatchRates.Recorded(w.rates))], Deciding(job, w);
    FirstRunInOrder();
    ReadingInOrder(w);
    DecidingInOrder(job, w);
    OrderedConcat(f, read, 23, 27, 28);
    OrderedConcat(f + read, d, 23, 28, 38);
    OrderedConcat(f + read + d, [Upload(MatchRatesFile)], 23, 38, 39);
  }

  lemma SendingInOrder(job: Job)
    ensures InOrder(Sending(job)) && Between(Sending(job), 39, 44)
  {
    if job.sendToOds {
      OrderedConcat([Start(LightbeamSend), SendViaLightbeam], CHECK_SENDING, 39, 41, 44);
    }
  }

  lemma ReportingInOrder(m: MatchRates.Matches, ids: Option<IdTypes.Unpacked>)
    ensures InOrder(ReportingOn(m, ids)) && Between(ReportingOn(m, ids), 44, 47)
  {
  }

  lemma TransformingInOrder(job: Job, w: World)
    ensures InOrder(Transforming(job, w)) && Between(Transforming(job, w), 23, 47)
  {
    var e, s, r := RunningEarthmover(job, w), Sending(job), Reporting(job, w);
    EarthmoverInOrder(job, w);
    SendingInOrder(job);
    ReportingInOrder(FinalMatches(job, w), IdTypes.Unpack(w.roster));
    OrderedConcat(e, s, 23, 39, 44);
    OrderedConcat(e + s, r, 23, 44, 47);
  }

  lemma {:induction false} UploadingInOrder(sets: nat, w: World)
    ensures InOrder(Uploading(sets, w)) && Between(Uploading(sets, w), 47, 48 + 2 * sets)
  {
    if sets > 0 {
      UploadingInOrder(sets - 1, w);
      OrderedConcat(Uploading(sets - 1, w), UploadingSet(sets - 1, w), 47, 46 + 2 * sets, 48 + 2 * sets);
    }
  }

  lemma ScriptInOrder(job: Job, w: World)
    ensures InOrder(Script(job, w))
  {
    var sets := OutputSets(job, w);
    PreparingInOrder(job);
    TransformingInOrder(job, w);
    UploadingInOrder(sets, w);
    OrderedConcat(Uploading(sets, w), [Do(CompileSummary)], 47, 52, 53);
    OrderedConcat(Preparing(job), Transforming(job, w), 0, 23, 47);
    OrderedConcat(Preparing(job) + Transforming(job, w), Delivering(job, w), 0, 47, 53);
  }

  /* The script is what the job calls for */

  ghost predicate AllNeeded(steps: seq<Step>, job: Job, w: World) {
    forall x :: x in steps ==> Needs(job, w, x)
  }

  lemma {:induction false} DownloadsAre(names: seq<string>, name: string)
    ensures Do(DownloadInput(name)) in Downloads(names) <==> name in names
    ensures forall x :: x in Downloads(names) ==> IsDownload(x)
  {
    if names != [] {
      assert names == names[..|names| - 1] + [names[|names| - 1]];
      DownloadsAre(names[..|names| - 1], name);
    }
  }

  lemma NeededConcat(a: seq<Step>, b: seq<Step>, job: Job, w: World)
    requires AllNeeded(a, job, w) && AllNeeded(b, job, w)
    ensures AllNeeded(a + b, job, w)
  {
  }

  lemma UnpackingIsNeeded(job: Job, w: World)
    ensures AllNeeded(Unpacking(job), job, w) && AllNeeded(REFRESH_BUNDLE_CODE, job, w)
  {
    var unflag := if job.sendToOds then [] else [Flag(LbSendResults, false)];
    NeededConcat(FETCH_JOB, unflag, job, w);
    NeededConcat(FETCH_JOB + unflag, [Do(UnpackRest)], job, w);
  }

  lemma GettingIsNeeded(job: Job, w: World)
    ensures AllNeeded(InstallingDeps(job), job, w) && AllNeeded(GettingRoster(job), job, w)
  {
  }

  lemma FilesAreNeeded(job: Job, w: World)
    ensures AllNeeded(GettingFiles(job), job, w)
  {
    forall x | x in Downloads(job.inputFiles) ensures Needs(job, w, x) {
      DownloadsAre(job.inputFiles, "");
      DownloadsAre(job.inputFiles, x.call.name);
    }
    NeededConcat([Start(GetFiles)], Downloads(job.inputFiles), job, w);
    NeededConcat([Start(GetFiles)] + Downloads(job.inputFiles), [Do(MapDescriptors)], job, w);
  }

  lemma PreparingIsNeeded(job: Job, w: World)
    ensures AllNeeded(Preparing(job), job, w)
  {
    var u, r, i, g, f := Unpacking(job), REFRESH_BUNDLE_CODE, InstallingDeps(job), GettingRoster(job), GettingFiles(job);
    UnpackingIsNeeded(job, w);
    GettingIsNeeded(job, w);
    FilesAreNeeded(job, w);
    NeededConcat(u, r, job, w);
    NeededConcat(u + r, i, job, w);
    NeededConcat(u + r + i, g, job, w);
    NeededConcat(u + r + i + g, f, job, w);
  }

  lemma SecondPassIff(job: Job, w: World)
    ensures TakesSecondPass(job, w)
       <==> MatchRates.NeedsSecondPass(job.sendToOds, job.crossYearMatchAvailable, MatchRates.Recorded(w.rates))
    ensures OutputSets(job, w) == if TakesSecondPass(job, w) then 2 else 1
    ensures FallsShort(w) <==> MatchRates.Recorded(w.rates).rate < MatchRates.REQUIRED_ID_MATCH_RATE
  {
    if w.rates != [] {
      assert MatchRates.Highest(w.rates) in w.rates;
      forall r | r in w.rates ensures r.matchRate <= MatchRates.Highest(w.rates).matchRate {
        var j :| 0 <= j < |w.rates| && w.rates[j] == r;
      }
    }
  }

  lemma DecidingIsNeeded(job: Job, w: World)
    ensures AllNeeded(Deciding(job, w), job, w)
  {
    SecondPassIff(job, w);
    if TakesSecondPass(job, w) {
      CrossYearIsNeeded(job, w);
    }
  }

  lemma CrossYearIsNeeded(job: Job, w: World)
    requires TakesSecondPass(job, w)
    ensures AllNeeded(CrossYearPass(MatchRates.Recorded(w.rates), w), job, w)
  {
    var first := MatchRates.Recorded(w.rates);
    SecondPassIff(job, w);
    assert AllNeeded(CROSS_YEAR_ROSTER, job, w) && AllNeeded(SECOND_RUN, job, w);
    assert AllNeeded(SecondMatches(first, w), job, w);
    assert AllNeeded(Remaining(first, w), job, w);
  }

  lemma EarthmoverIsNeeded(job: Job, w: World)
    ensures AllNeeded(RunningEarthmover(job, w), job, w)
  {
    var read := [Do(ReadMatchRates), Record(MatchRates.Recorded(w.rates))];
    DecidingIsNeeded(job, w);
    NeededConcat(FIRST_RUN, read, job, w);
    NeededConcat(FIRST_RUN + read, Deciding(job, w), job, w);
    NeededConcat(FIRST_RUN + read + Deciding(job, w), [Upload(MatchRatesFile)], job, w);
  }

  lemma ReportingIsNeeded(job: Job, w: World)
    ensures AllNeeded(Sending(job), job, w) && AllNeeded(Reporting(job, w), job, w)
  {
  }

  lemma TransformingIsNeeded(job: Job, w: World)
    ensures AllNeeded(Transforming(job, w), job, w)
  {
    EarthmoverIsNeeded(job, w);
    ReportingIsNeeded(job, w);
    NeededConcat(RunningEarthmover(job, w), Sending(job), job, w);
    NeededConcat(RunningEarthmover(job, w) + Sending(job), Reporting(job, w), job, w);
  }

  lemma {:induction false} UploadingIsNeeded(sets: nat, job: Job, w: World)
    requires sets <= OutputSets(job, w)
    ensures AllNeeded(Uploading(sets, w), job, w)
  {
    SecondPassIff(job, w);
    if sets > 0 {
      UploadingIsNeeded(sets - 1, job, w);
      assert AllNeeded(UploadingSet(sets - 1, w), job, w);
    }
  }

  lemma ScriptIsNeeded(job: Job, w: World)
    ensures AllNeeded(Script(job, w), job, w)
  {
    PreparingIsNeeded(job, w);
    TransformingIsNeeded(job, w);
    UploadingIsNeeded(OutputSets(job, w), job, w);
    assert AllNeeded(Delivering(job, w), job, w);
  }

  // Where a step is that is needed.
  lemma NeededIsPreparing(job: Job, w: World, step: Step)
    requires Needs(job, w, step) && 0 <= Rank(step) < 23
    ensures step in Preparing(job)
  {
    if IsDownload(step) {
      DownloadsAre(job.inputFiles, step.call.name);
      assert step in Downloads(job.inputFiles);
      assert step in GettingFiles(job);
    } else if Rank(step) < 7 {
      NeededIsUnpacking(job, w, step);
    } else if Rank(step) < 11 {
      assert REFRESH_BUNDLE_CODE[Rank(step) - 7] == step;
    } else if Rank(step) < 14 {
      assert InstallingDeps(job)[Rank(step) - 11] == step;
    } else if Rank(step) < 20 {
      NeededIsRoster(job, w, step);
    } else {
      var files := GettingFiles(job);
      assert files[0] == Start(GetFiles) && files[|files| - 1] == Do(MapDescriptors);
    }
  }

  lemma NeededIsUnpacking(job: Job, w: World, step: Step)
    requires Needs(job, w, step) && 0 <= Rank(step) < 7
    ensures step in Unpacking(job)
  {
    var steps := Unpacking(job);
    if Rank(step) < 5 {
      assert FETCH_JOB[Rank(step)] == step;
      assert step in FETCH_JOB;
    } else if Rank(step) == 5 {
      assert steps[5] == step;
    } else {
      assert steps[|steps| - 1] == step;
    }
  }

  lemma NeededIsRoster(job: Job, w: World, step: Step)
    requires Needs(job, w, step) && 14 <= Rank(step) < 20
    ensures step in GettingRoster(job)
  {
    var steps := GettingRoster(job);
    assert steps[0] == Start(GetRoster) && steps[|steps| - 1] == Upload(Roster);
    assert steps[1] == RosterSource(job)[0];
    if step == Do(MoveOdsRoster) {
      assert steps[2] == step;
    }
  }

  lemma NeededIsDeciding(job: Job, w: World, step: Step)
    requires Needs(job, w, step) && 28 <= Rank(step) < 38
    ensures step in Deciding(job, w)
  {
    var first := MatchRates.Recorded(w.rates);
    SecondPassIff(job, w);
    if TakesSecondPass(job, w) {
      if Rank(step) < 32 {
        assert CROSS_YEAR_ROSTER[Rank(step) - 28] == step;
        assert step in CROSS_YEAR_ROSTER;
      } else if Rank(step) < 35 {
        assert SECOND_RUN[Rank(step) - 32] == step;
        assert step in SECOND_RUN;
      } else if Rank(step) < 37 {
        var i := if Rank(step) == 35 then 0 else 2;
        assert SecondMatches(first, w)[i] == step;
        assert step in SecondMatches(first, w);
      } else {
        assert Remaining(first, w)[0] == step;
        assert step in Remaining(first, w);
      }
    } else {
      assert Deciding(job, w)[0] == step;
    }
  }

  lemma NeededIsTransforming(job: Job, w: World, step: Step)
    requires Needs(job, w, step) && 23 <= Rank(step) < 47
    ensures step in Transforming(job, w)
  {
    if Rank(step) < 27 {
      assert FIRST_RUN[Rank(step) - 23] == step;
      assert step in FIRST_RUN;
      assert step in RunningEarthmover(job, w);
    } else if Rank(step) == 27 {
      assert [Do(ReadMatchRates), Record(MatchRates.Recorded(w.rates))][0] == step;
      assert step in RunningEarthmover(job, w);
    } else if Rank(step) < 38 {
      NeededIsDeciding(job, w, step);
      assert step in RunningEarthmover(job, w);
    } else if Rank(step) == 38 {
      assert [Upload(MatchRatesFile)][0] == step;
      assert step in RunningEarthmover(job, w);
    } else if Rank(step) < 44 {
      assert Sending(job)[Rank(step) - 39] == step;
      assert step in Sending(job);
    } else {
      assert Reporting(job, w)[Rank(step) - 44] == step;
      assert step in Reporting(job, w);
    }
  }

  lemma {:induction false} SetIsUploaded(i: nat, sets: nat, w: World)
    requires i < sets
    ensures Start(UploadOutput) in Uploading(sets, w)
    ensures Do(UploadOutputSet(i)) in Uploading(sets, w)
    ensures w.hasFiles(i) ==> Do(PostOutputSet(i)) in Uploading(sets, w)
  {
    var last := UploadingSet(sets - 1, w);
    assert last[0] == Do(UploadOutputSet(sets - 1));
    assert w.hasFiles(sets - 1) ==> last[1] == Do(PostOutputSet(sets - 1));
    if i < sets - 1 {
      SetIsUploaded(i, sets - 1, w);
    } else if sets > 1 {
      SetIsUploaded(0, sets - 1, w);
    } else {
      assert Uploading(0, w)[0] == Start(UploadOutput);
      assert Start(UploadOutput) in Uploading(0, w);
    }
  }

  lemma NeededIsDelivering(job: Job, w: World, step: Step)
    requires Needs(job, w, step) && Rank(step) >= 47
    ensures step in Delivering(job, w)
  {
    SecondPassIff(job, w);
    if step == Do(CompileSummary) {
      assert [Do(CompileSummary)][0] == step;
    } else {
      var i: nat := if step.Do? then step.call.i else 0;
      SetIsUploaded(i, OutputSets(job, w), w);
    }
  }

  // The script of a run consists of exactly the steps that its job and world call for.
  lemma InScriptIff(job: Job, w: World, step: Step)
    requires !step.Record?
    ensures step in Script(job, w) <==> Needs(job, w, step)
  {
    ScriptIsNeeded(job, w);
    if Needs(job, w, step) {
      if Rank(step) < 23 {
        NeededIsPreparing(job, w, step);
      } else if Rank(step) < 47 {
        NeededIsTransforming(job, w, step);
      } else {
        NeededIsDelivering(job, w, step);
      }
    }
  }

  /* When a run succeeds */

  // Every call that the job makes goes through, every artifact it has to upload can be uploaded, the
  // roster unpacks, the matches suffice, and sending to the ODS does not fail altogether.
  ghost predicate AllGoesWell(job: Job, w: World) {
    && (forall call :: Makes(job, w, call) ==> w.outcome(call).Fine?)
    && (forall x :: IsDue(job, w, x) ==> w.upload(x).Fine?)
    && IdTypes.Unpack(w.roster).Some?
    && Outcomes(job, w).Success?
    && (job.sendToOds ==> !w.allFailed)
  }

  lemma EnforcedIff(job: Job, w: World)
    ensures Outcomes(job, w).Success? <==> forall m :: Needs(job, w, Enforce(m)) ==> MatchRates.Suffices(m)
  {
    SecondPassIff(job, w);
    if TakesSecondPass(job, w) {
      assert FallsShort(w) ==> Needs(job, w, Enforce(MatchRates.Recorded(w.ratesAgain)));
    } else {
      assert Needs(job, w, Enforce(MatchRates.Recorded(w.rates)));
    }
  }

  lemma NeededIsFine(job: Job, w: World, step: Step)
    requires AllGoesWell(job, w) && Needs(job, w, step)
    ensures OutcomeOf(step, w).Fine?
  {
    EnforcedIff(job, w);
    assert job.sendToOds ==> Makes(job, w, SendOutput);
    assert LeavesUnmatched(job, w) ==> Makes(job, w, PostIdMatches);
  }

  ghost predicate AllFine(job: Job, w: World) {
    forall step :: Needs(job, w, step) ==> OutcomeOf(step, w).Fine?
  }

  lemma CallIsFine(job: Job, w: World, call: Call)
    requires AllFine(job, w) && Makes(job, w, call)
    ensures w.outcome(call).Fine?
  {
    if call == SendOutput {
      assert Needs(job, w, SendViaLightbeam);
      assert OutcomeOf(SendViaLightbeam, w) == w.outcome(SendOutput);
    } else if call == PostIdMatches {
      var report := Report(ReportOf(FinalMatches(job, w), IdTypes.Unpack(w.roster).value));
      assert Needs(job, w, report);
      assert OutcomeOf(report, w) == w.outcome(PostIdMatches);
    } else {
      assert Needs(job, w, Do(call));
    }
  }

  lemma UploadIsFine(job: Job, w: World, x: Artifact)
    requires AllFine(job, w) && IsDue(job, w, x)
    ensures w.upload(x).Fine?
  {
    assert Needs(job, w, Upload(x));
  }

  lemma DecisionsAreFine(job: Job, w: World)
    requires AllFine(job, w)
    ensures IdTypes.Unpack(w.roster).Some? && Outcomes(job, w).Success? && (job.sendToOds ==> !w.allFailed)
  {
    assert Needs(job, w, UnpackIds);
    assert job.sendToOds ==> Needs(job, w, CheckSent);
    forall m | Needs(job, w, Enforce(m)) ensures MatchRates.Suffices(m) {
      assert OutcomeOf(Enforce(m), w).Fine?;
    }
    EnforcedIff(job, w);
  }

  lemma FineIsWell(job: Job, w: World)
    requires AllFine(job, w)
    ensures AllGoesWell(job, w)
  {
    forall call | Makes(job, w, call) ensures w.outcome(call).Fine? {
      CallIsFine(job, w, call);
    }
    forall x | IsDue(job, w, x) ensures w.upload(x).Fine? {
      UploadIsFine(job, w, x);
    }
    DecisionsAreFine(job, w);
  }

  lemma NothingRaisesIff(job: Job, w: World)
    ensures FirstFault(Script(job, w), w) == |Script(job, w)| <==> AllGoesWell(job, w)
  {
    var script, f := Script(job, w), FirstFault(Script(job, w), w);
    if AllGoesWell(job, w) {
      forall x | x in script ensures OutcomeOf(x, w).Fine? {
        if !x.Record? {
          InScriptIff(job, w, x);
          NeededIsFine(job, w, x);
        }
      }
      NoFaultIn(script, w);
    } else if f == |script| {
      forall step | Needs(job, w, step) ensures OutcomeOf(step, w).Fine? {
        if !step.Record? {
          InScriptIff(job, w, step);
        }
      }
      FineIsWell(job, w);
    }
  }

  const SUCCESS := Update(Some(Done), Succeeded)

  lemma {:induction false} PairsLackSuccess(actions: seq<Action>)
    requires Done !in actions
    ensures SUCCESS !in Pairs(actions)
  {
    if actions != [] {
      PairsLackSuccess(actions[..|actions| - 1]);
    }
  }

  lemma StoppedLacksSuccess(begun: seq<Action>, f: nat, attempts: nat, code: ErrorCode)
    requires Done !in begun
    ensures SUCCESS !in StoppedTrace(begun, f, attempts, code)
  {
    if begun != [] {
      assert begun[|begun| - 1] in begun;
      PairsLackSuccess(begun[..|begun| - 1]);
    }
  }

  lemma BegunLacksDone(job: Job, w: World)
    ensures Done !in Begun(job, w)
  {
    BegunIsPrefix(job, w);
    assert Done !in Plan(job);
  }

  // A run posts its final success exactly when all goes well.
  lemma SucceedsIff(job: Job, w: World)
    ensures SUCCESS in Executed(job, w).posts <==> AllGoesWell(job, w)
  {
    NothingRaisesIff(job, w);
    if AllGoesWell(job, w) {
      SuccessfulTrace(job, w);
    } else {
      TraceAtFault(job, w);
      BegunLacksDone(job, w);
      StoppedLacksSuccess(Begun(job, w), FirstFault(Script(job, w), w), Attempts(w.acknowledged, 1), ReportedCode(job, w));
    }
  }

  /* Where a run stops */

  // Everything goes through that comes before a step of this rank.
  ghost predicate GetsTo(job: Job, w: World, rank: int) {
    forall x :: Needs(job, w, x) && Rank(x) < rank ==> OutcomeOf(x, w).Fine?
  }

  // The first step that raises, of all that are needed.
  ghost predicate StopsAt(job: Job, w: World, step: Step) {
    Needs(job, w, step) && OutcomeOf(step, w).Raises? && GetsTo(job, w, Rank(step))
  }

  lemma RaisingIsNoRecord(step: Step, w: World)
    requires OutcomeOf(step, w).Raises?
    ensures !step.Record? && !step.Start? && !step.Flag?
  {
  }

  lemma {:induction false} DownloadsAt(names: seq<string>)
    ensures |Downloads(names)| == |names|
    ensures forall i :: 0 <= i < |names| ==> Downloads(names)[i] == Do(DownloadInput(names[i]))
  {
    if names != [] {
      DownloadsAt(names[..|names| - 1]);
    }
  }

  lemma FirstOfTwo(steps: seq<Step>, w: World, x: Step)
    requires InOrder(steps) && x in steps && OutcomeOf(x, w).Raises?
    ensures FirstFault(steps, w) < |steps|
    ensures var fault := steps[FirstFault(steps, w)];
            fault == x || Rank(fault) < Rank(x) || (IsDownload(fault) && IsDownload(x))
  {
    var f := FirstFault(steps, w);
    var i :| 0 <= i < |steps| && steps[i] == x;
    RaisingIsNoRecord(x, w);
    RaisingIsNoRecord(steps[f], w);
    if f < i {
      assert Precedes(steps[f], steps[i]);
    }
  }

  lemma FaultComesFirst(job: Job, w: World, x: Step)
    requires Needs(job, w, x) && OutcomeOf(x, w).Raises?
    ensures FirstFault(Script(job, w), w) < |Script(job, w)|
    ensures var fault := Script(job, w)[FirstFault(Script(job, w), w)];
            fault == x || Rank(fault) < Rank(x) || (IsDownload(fault) && IsDownload(x))
  {
    RaisingIsNoRecord(x, w);
    InScriptIff(job, w, x);
    ScriptInOrder(job, w);
    FirstOfTwo(Script(job, w), w, x);
  }

  // A run stops at one of the steps that its job calls for, and at the first of those that raise.
  lemma FaultIsWhereItStops(job: Job, w: World)
    requires !AllGoesWell(job, w)
    ensures FirstFault(Script(job, w), w) < |Script(job, w)|
    ensures StopsAt(job, w, Script(job, w)[FirstFault(Script(job, w), w)])
  {
    var script, f := Script(job, w), FirstFault(Script(job, w), w);
    NothingRaisesIff(job, w);
    var fault := script[f];
    RaisingIsNoRecord(fault, w);
    InScriptIff(job, w, fault);
    forall x | Needs(job, w, x) && Rank(x) < Rank(fault) ensures OutcomeOf(x, w).Fine? {
      if OutcomeOf(x, w).Raises? {
        FaultComesFirst(job, w, x);
      }
    }
  }

  lemma StopsAtIsFault(job: Job, w: World, step: Step)
    requires StopsAt(job, w, step)
    ensures !AllGoesWell(job, w) && FirstFault(Script(job, w), w) < |Script(job, w)|
    ensures var fault := Script(job, w)[FirstFault(Script(job, w), w)];
            fault == step || (IsDownload(fault) && IsDownload(step))
  {
    if AllGoesWell(job, w) {
      NeededIsFine(job, w, step);
    }
    FaultIsWhereItStops(job, w);
    FaultComesFirst(job, w, step);
    var fault := Script(job, w)[FirstFault(Script(job, w), w)];
    RanksDiffer(job, w, fault, step);
  }

  lemma RanksDiffer(job: Job, w: World, a: Step, b: Step)
    requires Needs(job, w, a) && Needs(job, w, b) && Rank(a) >= Rank(b)
    requires OutcomeOf(a, w).Raises? && OutcomeOf(b, w).Raises?
    requires GetsTo(job, w, Rank(a))
    ensures Rank(a) == Rank(b)
  {
  }

  /* What it reports */

  // What has been begun when a run stops: the actions that come before the step.
  lemma BegunIff(job: Job, w: World, step: Step, a: Action)
    requires StopsAt(job, w, step)
    ensures a in Begun(job, w) <==> a in Plan(job) && StartRank(a) < Rank(step)
  {
    StopsAtIsFault(job, w, step);
    var script, f := Script(job, w), FirstFault(Script(job, w), w);
    StartsMembers(script[..f], a);
    PrefixIff(job, w, f, Start(a));
  }

  lemma {:induction false} StartsMembers(steps: seq<Step>, a: Action)
    ensures a in Starts(steps) <==> Start(a) in steps
  {
    if steps != [] {
      assert steps == steps[..|steps| - 1] + [steps[|steps| - 1]];
      StartsMembers(steps[..|steps| - 1], a);
    }
  }

  lemma PrefixMembers(steps: seq<Step>, f: nat, x: Step)
    requires InOrder(steps) && f < |steps| && !steps[f].Record? && !x.Record? && !IsDownload(x)
    ensures x in steps[..f] <==> x in steps && Rank(x) < Rank(steps[f])
  {
    assert steps == steps[..f] + steps[f..];
    if i :| 0 <= i < f && steps[i] == x {
      assert Precedes(steps[i], steps[f]);
    }
    if i :| f <= i < |steps| && steps[i] == x {
      assert i == f || Precedes(steps[f], steps[i]);
    }
  }

  // What comes before the f-th step is what is needed and ranks lower.
  lemma PrefixIff(job: Job, w: World, f: nat, x: Step)
    requires f < |Script(job, w)| && !Script(job, w)[f].Record? && !x.Record? && !IsDownload(x)
    ensures x in Script(job, w)[..f] <==> Needs(job, w, x) && Rank(x) < Rank(Script(job, w)[f])
  {
    ScriptInOrder(job, w);
    InScriptIff(job, w, x);
    PrefixMembers(Script(job, w), f, x);
  }

  // The error that a step leaves when it raises: its own, or that of a failed send before it.
  function CodeAt(job: Job, w: World, step: Step): ErrorCode
    requires OutcomeOf(step, w).Raises?
  {
    var recorded := OutcomeOf(step, w).recorded;
    if recorded.Some? then recorded.value
    else if job.sendToOds && w.sendFails && Rank(step) > Rank(SendViaLightbeam) then LightbeamSendError
    else Unknown
  }

  lemma ReportedAt(job: Job, w: World, step: Step)
    requires StopsAt(job, w, step) && !IsDownload(step)
    ensures FirstFault(Script(job, w), w) < |Script(job, w)| && ReportedCode(job, w) == CodeAt(job, w, step)
  {
    StopsAtIsFault(job, w, step);
    RaisingIsNoRecord(step, w);
    SentBefore(job, w, FirstFault(Script(job, w), w), step);
  }

  lemma SentBefore(job: Job, w: World, f: nat, step: Step)
    requires f < |Script(job, w)| && Script(job, w)[f] == step && !step.Record?
    ensures SendViaLightbeam in Script(job, w)[..f] <==> job.sendToOds && Rank(step) > Rank(SendViaLightbeam)
  {
    PrefixIff(job, w, f, SendViaLightbeam);
  }

  lemma StopsLate(job: Job, w: World, step: Step)
    requires StopsAt(job, w, step) && Rank(step) >= 7
    ensures |Unpacking(job)| <= FirstFault(Script(job, w), w) < |Script(job, w)|
  {
    StopsAtIsFault(job, w, step);
    BegunIff(job, w, step, BundleRefresh);
    if Rank(step) == 7 {
      RaisingIsNoRecord(step, w);
    }
    BegunIsPrefix(job, w);
  }

  // Where a run stops decides what it reports: the error of that step, after the begin of the actions
  // before it and of no other, and a final failure.
  lemma ReportsWhereItStops(job: Job, w: World, step: Step)
    requires StopsAt(job, w, step) && !IsDownload(step) && Rank(step) >= 7
    ensures var posts := Executed(job, w).posts;
            && ErrorReport(CodeAt(job, w, step)) in posts
            && (forall a :: Update(Some(a), Begin) in posts <==> a in Plan(job) && StartRank(a) < Rank(step))
            && posts != [] && posts[|posts| - 1] == Update(Some(Done), Failed) && SUCCESS !in posts
  {
    StopsLate(job, w, step);
    ReportedAt(job, w, step);
    FailedTrace(job, w);
    BegunLacksDone(job, w);
    TraceAtFault(job, w);
    var begun, attempts, code := Begun(job, w), Attempts(w.acknowledged, 1), ReportedCode(job, w);
    StoppedLacksSuccess(begun, FirstFault(Script(job, w), w), attempts, code);
    forall a ensures Update(Some(a), Begin) in Executed(job, w).posts <==> a in Plan(job) && StartRank(a) < Rank(step) {
      BegunIff(job, w, step, a);
      BeginsIff(begun, attempts, code, a);
    }
    FailureEnds(begun, attempts, code, Executed(job, w).posts);
  }

  lemma {:induction false} PairsBeginIff(actions: seq<Action>, a: Action)
    ensures Update(Some(a), Begin) in Pairs(actions) <==> a in actions
  {
    if actions != [] {
      assert actions == actions[..|actions| - 1] + [actions[|actions| - 1]];
      PairsBeginIff(actions[..|actions| - 1], a);
    }
  }

  lemma BeginsIff(begun: seq<Action>, attempts: nat, code: ErrorCode, a: Action)
    requires begun != []
    ensures Update(Some(a), Begin) in
              Pairs(begun[..|begun| - 1]) + [Update(Last(begun), Begin)] + FailurePosts(Last(begun), attempts, code)
       <==> a in begun
  {
    PairsBeginIff(begun[..|begun| - 1], a);
    assert begun == begun[..|begun| - 1] + [begun[|begun| - 1]];
  }

  lemma FailureEnds(begun: seq<Action>, attempts: nat, code: ErrorCode, posts: seq<Post>)
    requires begun != []
    requires posts == Pairs(begun[..|begun| - 1]) + [Update(Last(begun), Begin)] + FailurePosts(Last(begun), attempts, code)
    ensures ErrorReport(code) in posts && posts[|posts| - 1] == Update(Some(Done), Failed)
  {
    var failure := FailurePosts(Last(begun), attempts, code);
    assert failure[|failure| - 2] == ErrorReport(code) && failure[|failure| - 1] == Update(Some(Done), Failed);
    assert ErrorReport(code) in failure;
  }

  // A run that ends in failure with this error, before it begins these actions.
  ghost predicate FailsWith(posts: seq<Post>, code: ErrorCode, notBegun: set<Action>) {
    && ErrorReport(code) in posts
    && (forall a :: a in notBegun ==> Update(Some(a), Begin) !in posts)
    && posts != [] && posts[|posts| - 1] == Update(Some(Done), Failed) && SUCCESS !in posts
  }

  lemma FailsAt(job: Job, w: World, step: Step, notBegun: set<Action>)
    requires StopsAt(job, w, step) && !IsDownload(step) && Rank(step) >= 7
    requires forall a :: a in notBegun ==> Rank(step) <= StartRank(a)
    ensures FailsWith(Executed(job, w).posts, CodeAt(job, w, step), notBegun)
  {
    ReportsWhereItStops(job, w, step);
  }

  // When nothing could be sent to the ODS, all rows having failed: the run fails with that error and
  // uploads no output.
  lemma AllFailedIsReported(job: Job, w: World)
    requires job.sendToOds && w.allFailed && GetsTo(job, w, Rank(CheckSent))
    ensures FailsWith(Executed(job, w).posts, LightbeamSendError, {UploadOutput})
  {
    FailsAt(job, w, CheckSent, {UploadOutput});
  }

  // When the matches that decide do not suffice: likewise, and nothing is sent to the ODS.
  lemma MissedThresholdIsReported(job: Job, w: World)
    requires !Outcomes(job, w).Success? && GetsTo(job, w, THRESHOLD)
    ensures FailsWith(Executed(job, w).posts, InsufficientMatches, {LightbeamSend, UploadOutput})
  {
    var m := MissedThreshold(job, w);
    StopsAtThreshold(job, w, m);
    FailsAt(job, w, Enforce(m), {LightbeamSend, UploadOutput});
  }

  lemma MissedThreshold(job: Job, w: World) returns (m: MatchRates.Matches)
    requires !Outcomes(job, w).Success?
    ensures Needs(job, w, Enforce(m)) && !MatchRates.Suffices(m)
  {
    EnforcedIff(job, w);
    m :| Needs(job, w, Enforce(m)) && !MatchRates.Suffices(m);
  }

  lemma StopsAtThreshold(job: Job, w: World, m: MatchRates.Matches)
    requires Needs(job, w, Enforce(m)) && !MatchRates.Suffices(m) && GetsTo(job, w, THRESHOLD)
    ensures StopsAt(job, w, Enforce(m)) && CodeAt(job, w, Enforce(m)) == InsufficientMatches
  {
  }
}
