/**
  The job executor: its methods, as they update its fields, refine the script of a run.

  A method that returns false has raised.
 */
module Executor {
  import opened Wrappers
  import opened ExecutorSteps
  import IdTypes
  import MatchRates

  class JobExecutor {
    const job: Job
    const w: World

    var raised: bool
    var statusUrl: bool
    var errorUrl: bool
    var action: Option<Action>
    var error: Option<ErrorCode>
    var posts: seq<Post>
    var flagged: set<Artifact>
    var uploads: seq<Artifact>
    var ids: IdTypes.Unpacked
    var matches: MatchRates.Matches
    var reports: seq<IdReport>
    // the steps taken so far
    ghost var taken: seq<Step>

    constructor (job: Job, w: World)
      ensures this.job == job && this.w == w
      ensures Valid() && taken == [] && !raised
    {
      this.job, this.w := job, w;
      raised, statusUrl, errorUrl, action, error, posts := false, false, false, None, None, [];
      flagged, uploads := INITIALLY_FLAGGED, [];
      ids, matches, reports := IdTypes.Unpacked({}, None), MatchRates.NO_MATCHES, [];
      taken := [];
    }

    function View(): State
      reads this
    {
      State(raised, statusUrl, errorUrl, action, error, posts, flagged, uploads, ids, matches, reports)
    }

    ghost predicate Valid()
      reads this
    {
      View() == Exec(INITIAL, taken, w)
    }

    // The steps of `script` have been taken on top of those before, or the first of them up to one
    // that has raised.
    ghost predicate Took(before: seq<Step>, script: seq<Step>)
      reads this
    {
      if raised then taken <= before + script else taken == before + script
    }

    lemma ThenTook(before: seq<Step>, a: seq<Step>, b: seq<Step>)
      requires Took(before + a, b)
      ensures Took(before, a + b)
    {
      assert before + a + b == before + (a + b);
    }

    lemma TookPart(before: seq<Step>, part: seq<Step>, script: seq<Step>)
      requires raised && Took(before, part) && part <= script
      ensures Took(before, script)
    {
      assert before + part <= before + script;
    }

    /* Single steps */

    // An exception, with the error its handler records.
    method Raise(step: Step, recorded: Option<ErrorCode>)
      requires Valid() && !raised && OutcomeOf(step, w) == Raises(recorded)
      modifies this
      ensures Valid() && raised && taken == old(taken) + [step]
      ensures matches == old(matches) && ids == old(ids)
    {
      ExecMore(INITIAL, taken, step, w);
      if recorded.Some? {
        error := recorded;
      }
      if IsEarthmoverRun(step) && recorded == Some(EarthmoverRunError) {
        flagged := flagged - {MatchRatesFile};
      }
      raised := true;
      taken := taken + [step];
    }

    method Try(call: Call) returns (ok: bool)
      requires Valid() && !raised
      modifies this
      ensures Valid() && ok == !raised && taken == old(taken) + [Do(call)]
      ensures matches == old(matches) && ids == old(ids)
    {
      ok := w.outcome(call).Fine?;
      if !ok {
        Raise(Do(call), w.outcome(call).recorded);
        return;
      }
      if call == UnpackStatusUrl { statusUrl := true; }
      if call == UnpackErrorUrl { errorUrl := true; }
      ExecMore(INITIAL, taken, Do(call), w);
      taken := taken + [Do(call)];
    }

    method SetAction(nextAction: Action)
      requires Valid() && !raised
      modifies this
      ensures Valid() && !raised && taken == old(taken) + [Start(nextAction)]
      ensures matches == old(matches) && ids == old(ids)
    {
      if action.Some? {
        posts := posts + [Update(action, Succeeded)];
      }
      action := Some(nextAction);
      posts := posts + [Update(action, Begin)];
      ExecMore(INITIAL, taken, Start(nextAction), w);
      taken := taken + [Start(nextAction)];
      assert posts == old(posts) + StartPosts(old(action), nextAction);
    }

    method UploadArtifact(x: Artifact) returns (ok: bool)
      requires Valid() && !raised
      modifies this
      ensures Valid() && ok == !raised && taken == old(taken) + [Upload(x)]
      ensures matches == old(matches) && ids == old(ids)
    {
      ok := w.upload(x).Fine?;
      if !ok {
        Raise(Upload(x), w.upload(x).recorded);
        return;
      }
      uploads := uploads + [x];
      flagged := flagged - {x};
      ExecMore(INITIAL, taken, Upload(x), w);
      taken := taken + [Upload(x)];
    }

    method SetNeedsUpload(x: Artifact, needed: bool)
      requires Valid() && !raised
      modifies this
      ensures Valid() && !raised && taken == old(taken) + [Flag(x, needed)]
      ensures matches == old(matches) && ids == old(ids)
    {
      flagged := if needed then flagged + {x} else flagged - {x};
      ExecMore(INITIAL, taken, Flag(x, needed), w);
      taken := taken + [Flag(x, needed)];
    }

    method UnpackIdTypes() returns (ok: bool)
      requires Valid() && !raised
      modifies this
      ensures Valid() && ok == !raised && taken == old(taken) + [UnpackIds]
      ensures ok ==> IdTypes.Unpack(w.roster) == Some(ids)
      ensures matches == old(matches)
    {
      var unpacked := IdTypes.UnpackIdTypes(w.roster);
      ok := unpacked.Some?;
      if !ok {
        Raise(UnpackIds, None);
        return;
      }
      ids := unpacked.value;
      ExecMore(INITIAL, taken, UnpackIds, w);
      taken := taken + [UnpackIds];
    }

    method SetMatches(m: MatchRates.Matches)
      requires Valid() && !raised
      modifies this
      ensures Valid() && !raised && taken == old(taken) + [Record(m)] && matches == m && ids == old(ids)
    {
      matches := m;
      ExecMore(INITIAL, taken, Record(m), w);
      taken := taken + [Record(m)];
    }

    // On the file that the latest Earthmover run has left.
    method RecordHighestMatchRate(read: Call, rows: seq<MatchRates.MatchRow>) returns (ok: bool)
      requires Valid() && !raised && read in {ReadMatchRates, ReadMatchRatesAgain}
      modifies this
      ensures Valid() && ok == !raised && Took(old(taken), [Do(read), Record(MatchRates.Recorded(rows))])
      ensures ok ==> matches == MatchRates.Recorded(rows) && ids == old(ids)
    {
      ok := Try(read);
      if !ok { return; }
      SetMatches(MatchRates.Recorded(rows));
    }

    method EnforceMatchThreshold() returns (ok: bool)
      requires Valid() && !raised
      modifies this
      ensures Valid() && ok == !raised && taken == old(taken) + [Enforce(old(matches))]
      ensures ok == MatchRates.Suffices(matches)
      ensures matches == old(matches) && ids == old(ids)
    {
      ok := matches.unmatched == Some(0) || matches.rate >= MatchRates.REQUIRED_ID_MATCH_RATE;
      if !ok {
        Raise(Enforce(matches), Some(InsufficientMatches));
        return;
      }
      ExecMore(INITIAL, taken, Enforce(matches), w);
      taken := taken + [Enforce(matches)];
    }

    /* The actions */

    method RefreshBundleCode() returns (ok: bool)
      requires Valid() && !raised
      modifies this
      ensures Valid() && ok == !raised && Took(old(taken), REFRESH_BUNDLE_CODE)
    {
      SetAction(BundleRefresh);
      ok := Try(GitFetch);
      if !ok { return; }
      ok := Try(GitCheckout);
      if !ok { return; }
      ok := Try(GitPull);
    }

    method EarthmoverDepsAndSsl() returns (ok: bool)
      requires Valid() && !raised
      modifies this
      ensures Valid() && ok == !raised && Took(old(taken), InstallingDeps(job))
    {
      SetAction(EarthmoverDeps);
      ok := Try(InstallDeps);
      if !ok { return; }
      if job.sendToOds && job.localMode {
        ok := Try(DisableSsl);
      }
    }

    method FetchStudentRoster() returns (ok: bool)
      requires Valid() && !raised
      modifies this
      ensures Valid() && ok == !raised && Took(old(taken), RosterSource(job))
    {
      if job.sendToOds {
        ok := Try(FetchOdsRoster);
        if !ok { return; }
        ok := Try(MoveOdsRoster);
      } else if job.crossYearMatchAvailable {
        ok := Try(FetchEduRoster);
      } else {
        ok := Try(DownloadRoster);
      }
    }

    method GetStudentRoster() returns (ok: bool)
      requires Valid() && !raised
      modifies this
      ensures Valid() && ok == !raised && Took(old(taken), GettingRoster(job))
    {
      ghost var before := taken;
      SetAction(GetRoster);
      ok := FetchStudentRoster();
      ThenTook(before, [Start(GetRoster)], RosterSource(job));
      if !ok {
        TookPart(before, [Start(GetRoster)] + RosterSource(job), GettingRoster(job));
        return;
      }
      ok := UploadArtifact(Roster);
    }

    method DownloadInputFiles(names: seq<string>) returns (ok: bool)
      requires Valid() && !raised
      modifies this
      ensures Valid() && ok == !raised && Took(old(taken), Downloads(names))
    {
      ghost var before := taken;
      for i := 0 to |names|
        invariant Valid() && !raised && taken == before + Downloads(names[..i])
      {
        assert names[..i + 1][..i] == names[..i];
        ok := Try(DownloadInput(names[i]));
        if !ok {
          DownloadsGrow(names, i + 1);
          TookPart(before, Downloads(names[..i + 1]), Downloads(names));
          return;
        }
      }
      assert names[..|names|] == names;
      ok := true;
    }

    method GetInputFiles() returns (ok: bool)
      requires Valid() && !raised
      modifies this
      ensures Valid() && ok == !raised && Took(old(taken), GettingFiles(job))
    {
      ghost var before, downloads := taken, Downloads(job.inputFiles);
      SetAction(GetFiles);
      ok := DownloadInputFiles(job.inputFiles);
      ThenTook(before, [Start(GetFiles)], downloads);
      ghost var script := [Start(GetFiles)] + downloads;
      if !ok {
        TookPart(before, script, script + [Do(MapDescriptors)]);
        return;
      }
      ok := Try(MapDescriptors);
      ThenTook(before, script, [Do(MapDescriptors)]);
    }

    method GetCrossYearRoster() returns (ok: bool)
      requires Valid() && !raised
      modifies this
      ensures Valid() && ok == !raised && Took(old(taken), CROSS_YEAR_ROSTER)
      ensures matches == old(matches) && ids == old(ids)
    {
      ok := Try(MoveOutput);
      if !ok { return; }
      ok := Try(FetchCrossYearRoster);
      if !ok { return; }
      SetNeedsUpload(CrossYearRoster, true);
      ok := UploadArtifact(CrossYearRoster);
    }

    method RunOnceMore() returns (ok: bool)
      requires Valid() && !raised
      modifies this
      ensures Valid() && ok == !raised && Took(old(taken), SECOND_RUN)
      ensures matches == old(matches) && ids == old(ids)
    {
      ok := Try(RunEarthmoverAgain);
      if !ok { return; }
      SetNeedsUpload(EmResultsXYear, true);
      ok := UploadArtifact(EmResultsXYear);
    }

    method DecideAgain(metInitialThreshold: bool) returns (ok: bool)
      requires Valid() && !raised
      requires metInitialThreshold == (matches.rate >= MatchRates.REQUIRED_ID_MATCH_RATE)
      modifies this
      ensures Valid() && ok == !raised && Took(old(taken), SecondMatches(old(matches), w))
      ensures ok ==> matches == MatchRates.BeforeCount(old(matches), w.ratesAgain) && ids == old(ids)
      ensures ok ==> metInitialThreshold || MatchRates.Suffices(matches)
    {
      ok := true;
      if metInitialThreshold { return; }
      ok := RecordHighestMatchRate(ReadMatchRatesAgain, w.ratesAgain);
      if !ok { return; }
      ok := EnforceMatchThreshold();
    }

    method CountRemaining(ghost first: MatchRates.Matches) returns (ok: bool)
      requires Valid() && !raised && matches == MatchRates.BeforeCount(first, w.ratesAgain)
      modifies this
      ensures Valid() && ok == !raised && Took(old(taken), Remaining(first, w))
      ensures ok ==> matches == MatchRates.AfterCount(old(matches), w.ratesAgain) && ids == old(ids)
    {
      ok := Try(CountMatchRates);
      if !ok { return; }
      var count := MatchRates.CountUnmatched(w.ratesAgain);
      SetMatches(matches.(unmatched := if count.Some? then count else matches.unmatched));
    }

    method CrossYearMatching() returns (ok: bool)
      requires Valid() && !raised
      modifies this
      ensures Valid() && ok == !raised && Took(old(taken), CrossYearPass(old(matches), w))
      ensures ok ==> ids == old(ids)
                     && matches == MatchRates.AfterCount(MatchRates.BeforeCount(old(matches), w.ratesAgain), w.ratesAgain)
      ensures ok ==> old(matches).rate >= MatchRates.REQUIRED_ID_MATCH_RATE
                     || MatchRates.Suffices(MatchRates.Recorded(w.ratesAgain))
    {
      ghost var before, first := taken, matches;
      ghost var script := CROSS_YEAR_ROSTER;
      ok := GetCrossYearRoster();
      if !ok {
        TookPart(before, script, CrossYearPass(first, w));
        return;
      }
      var metInitialThreshold := matches.rate >= MatchRates.REQUIRED_ID_MATCH_RATE;
      ok := RunOnceMore();
      ThenTook(before, script, SECOND_RUN);
      script := script + SECOND_RUN;
      if !ok {
        TookPart(before, script, CrossYearPass(first, w));
        return;
      }
      ok := DecideAgain(metInitialThreshold);
      ThenTook(before, script, SecondMatches(first, w));
      script := script + SecondMatches(first, w);
      if !ok {
        TookPart(before, script, CrossYearPass(first, w));
        return;
      }
      ok := CountRemaining(first);
      ThenTook(before, script, Remaining(first, w));
    }

    // The first pass, up to what it has recorded.
    method FirstPass() returns (ok: bool)
      requires Valid() && !raised
      modifies this
      ensures Valid() && ok == !raised
      ensures Took(old(taken), FIRST_RUN + [Do(ReadMatchRates), Record(MatchRates.Recorded(w.rates))])
      ensures ok ==> matches == MatchRates.Recorded(w.rates) && IdTypes.Unpack(w.roster) == Some(ids)
    {
      ghost var before := taken;
      SetAction(EarthmoverRun);
      ok := UnpackIdTypes();
      if !ok { return; }
      ok := Try(RunEarthmover);
      if !ok { return; }
      ok := UploadArtifact(EmResults);
      if !ok { return; }
      assert taken == before + FIRST_RUN;
      ok := RecordHighestMatchRate(ReadMatchRates, w.rates);
      ThenTook(before, FIRST_RUN, [Do(ReadMatchRates), Record(MatchRates.Recorded(w.rates))]);
    }

    method Decide() returns (ok: bool)
      requires Valid() && !raised && matches == MatchRates.Recorded(w.rates)
      modifies this
      ensures Valid() && ok == !raised && Took(old(taken), Deciding(job, w))
      ensures ok ==> matches == FinalMatches(job, w) && ids == old(ids)
    {
      if job.sendToOds && job.crossYearMatchAvailable && (matches.unmatched.None? || matches.unmatched.value > 0) {
        ok := CrossYearMatching();
      } else {
        ok := EnforceMatchThreshold();
      }
    }

    method OrchestrateEarthmover() returns (ok: bool)
      requires Valid() && !raised
      modifies this
      ensures Valid() && ok == !raised && Took(old(taken), RunningEarthmover(job, w))
      ensures ok ==> matches == FinalMatches(job, w) && IdTypes.Unpack(w.roster) == Some(ids)
    {
      ghost var before := taken;
      ghost var script := FIRST_RUN + [Do(ReadMatchRates), Record(MatchRates.Recorded(w.rates))];
      ok := FirstPass();
      if !ok {
        TookPart(before, script, RunningEarthmover(job, w));
        return;
      }
      ok := Decide();
      ThenTook(before, script, Deciding(job, w));
      script := script + Deciding(job, w);
      if !ok {
        TookPart(before, script, RunningEarthmover(job, w));
        return;
      }
      ok := UploadArtifact(MatchRatesFile);
    }

    method RunLightbeam() returns (ok: bool)
      requires Valid() && !raised
      modifies this
      ensures Valid() && ok == !raised && taken == old(taken) + [SendViaLightbeam]
      ensures matches == old(matches) && ids == old(ids)
    {
      ok := w.outcome(SendOutput).Fine?;
      if !ok {
        Raise(SendViaLightbeam, w.outcome(SendOutput).recorded);
        return;
      }
      if w.sendFails {
        error := Some(LightbeamSendError);
      }
      ExecMore(INITIAL, taken, SendViaLightbeam, w);
      taken := taken + [SendViaLightbeam];
    }

    method CheckSendResults() returns (ok: bool)
      requires Valid() && !raised
      modifies this
      ensures Valid() && ok == !raised && taken == old(taken) + [CheckSent]
      ensures matches == old(matches) && ids == old(ids)
    {
      ok := !w.allFailed;
      if !ok {
        Raise(CheckSent, Some(LightbeamSendError));
        return;
      }
      ExecMore(INITIAL, taken, CheckSent, w);
      taken := taken + [CheckSent];
    }

    method CheckSending() returns (ok: bool)
      requires Valid() && !raised
      modifies this
      ensures Valid() && ok == !raised && Took(old(taken), CHECK_SENDING)
      ensures matches == old(matches) && ids == old(ids)
    {
      ok := UploadArtifact(LbSendResults);
      if !ok { return; }
      ok := Try(ReadSendResults);
      if !ok { return; }
      ok := CheckSendResults();
    }

    method SendToOds() returns (ok: bool)
      requires Valid() && !raised
      modifies this
      ensures Valid() && ok == !raised && Took(old(taken), Sending(job))
      ensures matches == old(matches) && ids == old(ids)
    {
      ok := true;
      if !job.sendToOds { return; }
      ghost var before := taken;
      SetAction(LightbeamSend);
      ok := RunLightbeam();
      if !ok { return; }
      assert taken == before + [Start(LightbeamSend), SendViaLightbeam];
      ok := CheckSending();
      ThenTook(before, [Start(LightbeamSend), SendViaLightbeam], CHECK_SENDING);
    }

    method SendIdMatches(r: IdReport) returns (ok: bool)
      requires Valid() && !raised
      modifies this
      ensures Valid() && ok == !raised && taken == old(taken) + [Report(r)]
    {
      ok := w.outcome(PostIdMatches).Fine?;
      if !ok {
        Raise(Report(r), w.outcome(PostIdMatches).recorded);
        return;
      }
      reports := reports + [r];
      ExecMore(INITIAL, taken, Report(r), w);
      taken := taken + [Report(r)];
    }

    method ReportUnmatchedStudents() returns (ok: bool)
      requires Valid() && !raised
      modifies this
      ensures Valid() && ok == !raised && Took(old(taken), ReportingOn(old(matches), Some(old(ids))))
    {
      ok := true;
      if matches.unmatched == Some(0) { return; }
      var idTypeToReport := matches.idType;
      if matches.idType == "studentUniqueId" && ids.proxy.Some? && ids.proxy.value != "" {
        idTypeToReport := ids.proxy.value;
      }
      var count := if matches.unmatched.Some? then matches.unmatched.value else 0;
      ok := SendIdMatches(IdReport(matches.idName, idTypeToReport, count));
      if !ok { return; }
      SetNeedsUpload(UnmatchedStudents, true);
      ok := UploadArtifact(UnmatchedStudents);
    }

    method UploadSet(i: nat) returns (ok: bool)
      requires Valid() && !raised
      modifies this
      ensures Valid() && ok == !raised && Took(old(taken), UploadingSet(i, w))
    {
      ok := Try(UploadOutputSet(i));
      if !ok { return; }
      if w.hasFiles(i) {
        ok := Try(PostOutputSet(i));
      }
    }

    method UploadOutputSets(sets: nat) returns (ok: bool)
      requires Valid() && !raised
      modifies this
      ensures Valid() && ok == !raised && Took(old(taken), Uploading(sets, w))
    {
      ghost var before := taken;
      SetAction(UploadOutput);
      for i := 0 to sets
        invariant Valid() && !raised && taken == before + Uploading(i, w)
      {
        ok := UploadSet(i);
        ThenTook(before, Uploading(i, w), UploadingSet(i, w));
        if !ok {
          UploadingGrows(i + 1, sets, w);
          TookPart(before, Uploading(i + 1, w), Uploading(sets, w));
          return;
        }
      }
      ok := true;
    }

    /* The run */

    method FetchAndUnpack() returns (ok: bool)
      requires Valid() && !raised
      modifies this
      ensures Valid() && ok == !raised && Took(old(taken), FETCH_JOB)
    {
      ok := Try(InitRun);
      if !ok { return; }
      ok := Try(FetchJob);
      if !ok { return; }
      ok := Try(UnpackStatusUrl);
      if !ok { return; }
      ok := Try(UnpackErrorUrl);
      if !ok { return; }
      ok := Try(UnpackBundle);
    }

    method UnpackJob() returns (ok: bool)
      requires Valid() && !raised
      modifies this
      ensures Valid() && ok == !raised && Took(old(taken), Unpacking(job))
    {
      ghost var before := taken;
      ok := FetchAndUnpack();
      if !ok {
        TookPart(before, FETCH_JOB, Unpacking(job));
        return;
      }
      if !job.sendToOds {
        SetNeedsUpload(LbSendResults, false);
      }
      ok := Try(UnpackRest);
    }

    method Prepare() returns (ok: bool)
      requires Valid() && !raised
      modifies this
      ensures Valid() && ok == !raised && Took(old(taken), Preparing(job))
    {
      ghost var before, script := taken, Unpacking(job);
      ok := UnpackJob();
      if ok {
        ok := RefreshBundleCode();
        ThenTook(before, script, REFRESH_BUNDLE_CODE);
        script := script + REFRESH_BUNDLE_CODE;
      }
      if ok {
        ok := EarthmoverDepsAndSsl();
        ThenTook(before, script, InstallingDeps(job));
        script := script + InstallingDeps(job);
      }
      if ok {
        ok := GetStudentRoster();
        ThenTook(before, script, GettingRoster(job));
        script := script + GettingRoster(job);
      }
      if ok {
        ok := GetInputFiles();
        ThenTook(before, script, GettingFiles(job));
        script := script + GettingFiles(job);
      }
      if !ok {
        TookPart(before, script, Preparing(job));
      }
    }

    method Transform() returns (ok: bool)
      requires Valid() && !raised
      modifies this
      ensures Valid() && ok == !raised && Took(old(taken), Transforming(job, w))
    {
      ghost var before, script := taken, RunningEarthmover(job, w);
      ok := OrchestrateEarthmover();
      if !ok {
        TookPart(before, script, Transforming(job, w));
        return;
      }
      ok := SendToOds();
      ThenTook(before, script, Sending(job));
      script := script + Sending(job);
      if !ok {
        TookPart(before, script, Transforming(job, w));
        return;
      }
      ok := ReportUnmatchedStudents();
      ThenTook(before, script, Reporting(job, w));
    }

    method Deliver() returns (ok: bool)
      requires Valid() && !raised
      modifies this
      ensures Valid() && ok == !raised && Took(old(taken), Delivering(job, w))
    {
      ghost var before := taken;
      var sets := OutputSets(job, w);
      ghost var uploading := Uploading(sets, w);
      ok := UploadOutputSets(sets);
      if !ok {
        TookPart(before, uploading, uploading + [Do(CompileSummary)]);
        return;
      }
      ok := Try(CompileSummary);
      ThenTook(before, uploading, [Do(CompileSummary)]);
    }

    method UploadRemainingArtifacts()
      modifies this
      ensures View() == LateUploads(old(View()), ALL, w).0
    {
      ghost var before := View();
      for i := 0 to |ALL|
        invariant LateUploads(before, ALL[..i], w) == (View(), true)
      {
        assert ALL[..i + 1][..i] == ALL[..i];
        var x := ALL[i];
        if x in flagged && w.late(x).LateRaises? {
          LateUploadsStop(before, i + 1, |ALL|, w);
          assert ALL[..|ALL|] == ALL;
          return;
        }
        if x in flagged && w.late(x).LateUploaded? {
          uploads := uploads + [x];
          flagged := flagged - {x};
        }
      }
      assert ALL[..|ALL|] == ALL;
    }

    method UpdateFailure()
      modifies this`posts
      ensures posts == old(posts) + Repeat(Update(action, Failed), Attempts(w.acknowledged, 1))
    {
      var attempt := 1;
      posts := posts + [Update(action, Failed)];
      while !w.acknowledged(attempt) && attempt < MAX_ATTEMPTS
        invariant 1 <= attempt <= MAX_ATTEMPTS
        invariant posts == old(posts) + Repeat(Update(action, Failed), attempt)
        invariant Attempts(w.acknowledged, 1) == attempt - 1 + Attempts(w.acknowledged, attempt)
        decreases MAX_ATTEMPTS - attempt
      {
        attempt := attempt + 1;
        posts := posts + [Update(action, Failed)];
      }
    }

    lemma Ran(script: seq<Step>)
      requires Valid() && Took([], script)
      ensures View() == Exec(INITIAL, script, w)
      ensures !raised && Do(UnpackStatusUrl) in script ==> statusUrl
    {
      assert [] + script == script;
      if raised {
        RaisedStops(INITIAL, taken, script, w);
      } else {
        UrlsAreUnpacked(INITIAL, taken, w);
      }
    }

    lemma RanScript()
      requires Valid() && Took([], Script(job, w))
      ensures View() == Exec(INITIAL, Script(job, w), w)
      ensures !raised ==> statusUrl
    {
      ScriptUnpacksUrls(job, w);
      Ran(Script(job, w));
    }

    // The body of execute()'s try block.
    method RunScript() returns (ok: bool)
      requires Valid() && !raised && taken == []
      modifies this
      ensures ok == !raised && View() == Exec(INITIAL, Script(job, w), w) && (ok ==> statusUrl)
    {
      ok := Prepare();
      if !ok {
        TookPart([], Preparing(job), Script(job, w));
        RanScript();
        return;
      }
      ok := Transform();
      ThenTook([], Preparing(job), Transforming(job, w));
      if !ok {
        TookPart([], Preparing(job) + Transforming(job, w), Script(job, w));
        RanScript();
        return;
      }
      ok := Deliver();
      ThenTook([], Preparing(job) + Transforming(job, w), Delivering(job, w));
      RanScript();
    }

    method Execute()
      requires Valid() && !raised && taken == []
      modifies this
      ensures View() == Executed(job, w)
    {
      var success := RunScript();
      if success {
        ReportSuccess();
      } else {
        ShutDownAfterFailure();
      }
    }

    method ReportSuccess()
      requires statusUrl
      modifies this`posts, this`action
      ensures View() == Complete(old(View()))
    {
      posts := posts + [Update(action, Succeeded)];
      action := None;
      posts := posts + [Update(Some(Done), Succeeded)];
      assert posts == old(posts) + [Update(old(action), Succeeded), Update(Some(Done), Succeeded)];
    }

    method ShutDownAfterFailure()
      modifies this
      ensures View() == ShutDown(old(View()), w)
    {
      if error.None? {
        error := Some(Unknown);
      }
      ghost var before := View();
      LateUploadsKeep(before, ALL, w);
      UploadRemainingArtifacts();
      if statusUrl {
        UpdateFailure();
      }
      if errorUrl {
        posts := posts + [ErrorReport(error.value)];
      }
      if statusUrl {
        posts := posts + [Update(Some(Done), Failed)];
      }
    }
  }
}
