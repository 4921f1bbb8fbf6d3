/**
  Which artifacts a run uploads, shutdown included.
 */
module ExecutorArtifacts {
  import opened Wrappers
  import opened ExecutorSteps
  import opened ExecutorProperties
  import IdTypes
  import MatchRates

  // The steps that concern artifacts.
  function Kept(steps: seq<Step>): (r: seq<Step>) {
    if steps == [] then []
    else
      var last := steps[|steps| - 1];
      Kept(steps[..|steps| - 1]) + if last.Flag? || last.Upload? then [last] else []
  }

  lemma {:induction false} KeptConcat(a: seq<Step>, b: seq<Step>)
    ensures Kept(a + b) == Kept(a) + Kept(b)
  {
    if b == [] {
      assert a + b == a;
    } else {
      assert (a + b)[..|a + b| - 1] == a + b[..|b| - 1];
      KeptConcat(a, b[..|b| - 1]);
    }
  }

  ghost predicate KeepsNothing(steps: seq<Step>) {
    forall x :: x in steps ==> !x.Flag? && !x.Upload?
  }

  lemma {:induction false} NothingKept(steps: seq<Step>)
    requires KeepsNothing(steps)
    ensures Kept(steps) == []
  {
    if steps != [] {
      assert steps[|steps| - 1] in steps;
      NothingKept(steps[..|steps| - 1]);
    }
  }

  lemma KeptLast(steps: seq<Step>, last: Step)
    requires KeepsNothing(steps) && (last.Flag? || last.Upload?)
    ensures Kept(steps + [last]) == [last]
  {
    assert (steps + [last])[..|steps|] == steps;
    NothingKept(steps);
  }

  // The flags and the uploads that such steps lead to.
  datatype Shelf = Shelf(flagged: set<Artifact>, uploads: seq<Artifact>)

  const FULL := Shelf(INITIALLY_FLAGGED, [])

  function Shelve(s: Shelf, step: Step): Shelf {
    match step
    case Flag(x, needed) => s.(flagged := if needed then s.flagged + {x} else s.flagged - {x})
    case Upload(x) => Shelf(s.flagged - {x}, s.uploads + [x])
    case _ => s
  }

  function ShelveAll(s: Shelf, steps: seq<Step>): Shelf {
    if steps == [] then s else Shelve(ShelveAll(s, steps[..|steps| - 1]), steps[|steps| - 1])
  }

  lemma {:induction false} ShelveConcat(s: Shelf, a: seq<Step>, b: seq<Step>)
    ensures ShelveAll(s, a + b) == ShelveAll(ShelveAll(s, a), b)
  {
    if b == [] {
      assert a + b == a;
    } else {
      assert (a + b)[..|a + b| - 1] == a + b[..|b| - 1];
      ShelveConcat(s, a, b[..|b| - 1]);
    }
  }

  lemma StepShelves(s: State, step: Step, w: World)
    requires !s.raised && OutcomeOf(step, w).Fine?
    ensures var t := Perform(s, step, w);
            !t.raised && Shelf(t.flagged, t.uploads) == Shelve(Shelf(s.flagged, s.uploads), step)
  {
  }

  lemma {:induction false} ShelfOf(steps: seq<Step>, w: World)
    requires FirstFault(steps, w) == |steps|
    ensures var s := Exec(INITIAL, steps, w);
            !s.raised && Shelf(s.flagged, s.uploads) == ShelveAll(FULL, Kept(steps))
  {
    if steps != [] {
      var front, last := steps[..|steps| - 1], steps[|steps| - 1];
      ShelfOf(front, w);
      StepShelves(Exec(INITIAL, front, w), last, w);
      if last.Flag? || last.Upload? {
        assert Kept(steps)[..|Kept(front)|] == Kept(front);
      } else {
        assert Kept(steps) == Kept(front);
      }
    }
  }

  /* What the script keeps */

  lemma {:induction false} DownloadsKeepNothing(names: seq<string>)
    ensures KeepsNothing(Downloads(names))
  {
    if names != [] {
      DownloadsKeepNothing(names[..|names| - 1]);
    }
  }

  function UnpackingKept(job: Job): seq<Step> {
    if job.sendToOds then [] else [Flag(LbSendResults, false)]
  }

  lemma UnpackingKeeps(job: Job)
    ensures Kept(Unpacking(job)) == UnpackingKept(job)
  {
    NothingKept(FETCH_JOB);
    NothingKept([Do(UnpackRest)]);
    KeptConcat(FETCH_JOB, UnpackingKept(job));
    KeptConcat(FETCH_JOB + UnpackingKept(job), [Do(UnpackRest)]);
    if !job.sendToOds {
      KeptLast([], Flag(LbSendResults, false));
      assert [] + [Flag(LbSendResults, false)] == UnpackingKept(job);
    }
  }

  lemma RosterKeeps(job: Job)
    ensures Kept(REFRESH_BUNDLE_CODE) == [] && Kept(InstallingDeps(job)) == []
    ensures Kept(GettingRoster(job)) == [Upload(Roster)] && Kept(GettingFiles(job)) == []
  {
    NothingKept(REFRESH_BUNDLE_CODE);
    NothingKept(InstallingDeps(job));
    KeptLast([Start(GetRoster)] + RosterSource(job), Upload(Roster));
    DownloadsKeepNothing(job.inputFiles);
    NothingKept(GettingFiles(job));
  }

  lemma PreparingKeeps(job: Job)
    ensures Kept(Preparing(job)) == UnpackingKept(job) + [Upload(Roster)]
  {
    var refreshed := Unpacking(job) + REFRESH_BUNDLE_CODE;
    UnpackingKeeps(job);
    RosterKeeps(job);
    KeptConcat(Unpacking(job), REFRESH_BUNDLE_CODE);
    KeptConcat(refreshed, InstallingDeps(job));
    KeptConcat(refreshed + InstallingDeps(job), GettingRoster(job));
    KeptConcat(refreshed + InstallingDeps(job) + GettingRoster(job), GettingFiles(job));
  }

  function DecidingKept(job: Job, w: World): seq<Step> {
    if OutputSets(job, w) == 2
    then [Flag(CrossYearRoster, true), Upload(CrossYearRoster), Flag(EmResultsXYear, true), Upload(EmResultsXYear)]
    else []
  }

  lemma CrossYearKeeps(first: MatchRates.Matches, w: World)
    ensures Kept(CROSS_YEAR_ROSTER) == [Flag(CrossYearRoster, true), Upload(CrossYearRoster)]
    ensures Kept(SECOND_RUN) == [Flag(EmResultsXYear, true), Upload(EmResultsXYear)]
    ensures Kept(SecondMatches(first, w)) == [] && Kept(Remaining(first, w)) == []
  {
    PairKept([Do(MoveOutput), Do(FetchCrossYearRoster)], CrossYearRoster);
    assert [Do(MoveOutput), Do(FetchCrossYearRoster)] + [Flag(CrossYearRoster, true), Upload(CrossYearRoster)]
           == CROSS_YEAR_ROSTER;
    PairKept([Do(RunEarthmoverAgain)], EmResultsXYear);
    assert [Do(RunEarthmoverAgain)] + [Flag(EmResultsXYear, true), Upload(EmResultsXYear)] == SECOND_RUN;
    NothingKept(SecondMatches(first, w));
    NothingKept(Remaining(first, w));
  }

  lemma DecidingKeeps(job: Job, w: World)
    ensures Kept(Deciding(job, w)) == DecidingKept(job, w)
  {
    if OutputSets(job, w) == 2 {
      var first := MatchRates.Recorded(w.rates);
      var a, b, c, d := CROSS_YEAR_ROSTER, SECOND_RUN, SecondMatches(first, w), Remaining(first, w);
      CrossYearKeeps(first, w);
      KeptConcat(a, b);
      KeptConcat(a + b, c);
      KeptConcat(a + b + c, d);
    } else {
      NothingKept(Deciding(job, w));
    }
  }

  lemma PairKept(steps: seq<Step>, x: Artifact)
    requires KeepsNothing(steps)
    ensures Kept(steps + [Flag(x, true), Upload(x)]) == [Flag(x, true), Upload(x)]
  {
    KeptLast(steps, Flag(x, true));
    assert (steps + [Flag(x, true), Upload(x)])[..|steps| + 1] == steps + [Flag(x, true)];
  }

  // The first pass, up to what it has recorded.
  function FirstPass(w: World): seq<Step> {
    FIRST_RUN + [Do(ReadMatchRates), Record(MatchRates.Recorded(w.rates))]
  }

  lemma FirstRunKeeps()
    ensures Kept(FIRST_RUN) == [Upload(EmResults)]
  {
    var start := [Start(EarthmoverRun), UnpackIds, Do(RunEarthmover)];
    KeptLast(start, Upload(EmResults));
    assert start + [Upload(EmResults)] == FIRST_RUN;
  }

  lemma FirstPassKeeps(w: World)
    ensures Kept(FirstPass(w)) == [Upload(EmResults)]
  {
    var read := [Do(ReadMatchRates), Record(MatchRates.Recorded(w.rates))];
    FirstRunKeeps();
    NothingKept(read);
    KeptConcat(FIRST_RUN, read);
  }

  lemma KeptOne(step: Step)
    requires step.Flag? || step.Upload?
    ensures Kept([step]) == [step]
  {
    KeptLast([], step);
    assert [] + [step] == [step];
  }

  lemma EarthmoverKeeps(job: Job, w: World)
    ensures Kept(RunningEarthmover(job, w)) == [Upload(EmResults)] + DecidingKept(job, w) + [Upload(MatchRatesFile)]
  {
    FirstPassKeeps(w);
    DecidingKeeps(job, w);
    KeptOne(Upload(MatchRatesFile));
    KeptConcat(FirstPass(w), Deciding(job, w));
    KeptConcat(FirstPass(w) + Deciding(job, w), [Upload(MatchRatesFile)]);
  }

  function SendingKept(job: Job): seq<Step> {
    if job.sendToOds then [Upload(LbSendResults)] else []
  }

  lemma SendingKeeps(job: Job)
    ensures Kept(Sending(job)) == SendingKept(job)
  {
    if job.sendToOds {
      var a, b := [Start(LightbeamSend), SendViaLightbeam, Upload(LbSendResults)], [Do(ReadSendResults), CheckSent];
      assert Sending(job) == a + b;
      assert a == [Start(LightbeamSend), SendViaLightbeam] + [Upload(LbSendResults)];
      KeptLast([Start(LightbeamSend), SendViaLightbeam], Upload(LbSendResults));
      NothingKept(b);
      KeptConcat(a, b);
    }
  }

  // The script up to the report on unmatched students.
  function BeforeReport(job: Job, w: World): seq<Step> {
    Preparing(job) + RunningEarthmover(job, w) + Sending(job)
  }

  lemma BeforeReportKeeps(job: Job, w: World)
    ensures Kept(BeforeReport(job, w)) ==
            UnpackingKept(job) + [Upload(Roster)] + [Upload(EmResults)] + DecidingKept(job, w) + [Upload(MatchRatesFile)]
            + SendingKept(job)
  {
    PreparingKeeps(job);
    EarthmoverKeeps(job, w);
    SendingKeeps(job);
    KeptConcat(Preparing(job), RunningEarthmover(job, w));
    KeptConcat(Preparing(job) + RunningEarthmover(job, w), Sending(job));
  }

  /* Late uploads */

  // What is uploaded late was flagged, and what is not reached keeps its flag.
  lemma {:induction false} LateUploadsAreFlagged(s: State, artifacts: seq<Artifact>, w: World, x: Artifact)
    requires x !in s.uploads
    ensures var (t, _) := LateUploads(s, artifacts, w);
            && (x in t.uploads ==> x in s.flagged && x in artifacts && w.late(x).LateUploaded?)
            && t.flagged <= s.flagged
            && (x in s.flagged && x !in artifacts ==> x in t.flagged)
  {
    if artifacts != [] {
      var front, last := artifacts[..|artifacts| - 1], artifacts[|artifacts| - 1];
      assert artifacts == front + [last];
      LateUploadsAreFlagged(s, front, w, x);
    }
  }

  // When nothing else is flagged, whether x is uploaded late is up to x.
  lemma {:induction false} OnlyOneFlagged(s: State, artifacts: seq<Artifact>, w: World, x: Artifact)
    requires x !in s.uploads && s.flagged == {x}
    ensures var (t, goesOn) := LateUploads(s, artifacts, w);
            && (x in t.uploads <==> x in artifacts && w.late(x).LateUploaded?)
            && (x !in artifacts ==> goesOn && t == s)
            && t.flagged <= {x}
  {
    if artifacts != [] {
      var front, last := artifacts[..|artifacts| - 1], artifacts[|artifacts| - 1];
      assert artifacts == front + [last];
      OnlyOneFlagged(s, front, w, x);
      assert last != x ==> last !in LateUploads(s, front, w).0.flagged;
    }
  }

  lemma {:induction false} LateUploadsExtend(s: State, artifacts: seq<Artifact>, w: World)
    ensures s.uploads <= LateUploads(s, artifacts, w).0.uploads
  {
    if artifacts != [] {
      LateUploadsExtend(s, artifacts[..|artifacts| - 1], w);
    }
  }

  /* The unmatched-students file */

  ghost predicate LeavesAlone(steps: seq<Step>, x: Artifact) {
    Upload(x) !in steps && Flag(x, true) !in steps
  }

  lemma {:induction false} NotTouched(steps: seq<Step>, w: World, x: Artifact)
    requires FirstFault(steps, w) == |steps| && LeavesAlone(steps, x)
    ensures var s := Exec(INITIAL, steps, w);
            !s.raised && x !in s.uploads && (x !in INITIALLY_FLAGGED ==> x !in s.flagged)
  {
    if steps != [] {
      var front, last := steps[..|steps| - 1], steps[|steps| - 1];
      assert steps == front + [last];
      NotTouched(front, w, x);
      StepShelves(Exec(INITIAL, front, w), last, w);
    }
  }

  lemma {:induction false} Touched(steps: seq<Step>, w: World, x: Artifact)
    requires FirstFault(steps, w) == |steps| && Upload(x) in steps
    ensures x in Exec(INITIAL, steps, w).uploads
  {
    var front, last := steps[..|steps| - 1], steps[|steps| - 1];
    assert steps == front + [last];
    ShelfOf(front, w);
    StepShelves(Exec(INITIAL, front, w), last, w);
    if last != Upload(x) {
      Touched(front, w, x);
    }
  }

  lemma {:induction false} KeptMembers(steps: seq<Step>, step: Step)
    requires step.Flag? || step.Upload?
    ensures step in Kept(steps) <==> step in steps
  {
    if steps != [] {
      assert steps == steps[..|steps| - 1] + [steps[|steps| - 1]];
      KeptMembers(steps[..|steps| - 1], step);
    }
  }

  lemma ReportIsTheRest(job: Job, w: World) returns (rest: seq<Step>)
    ensures Script(job, w) == BeforeReport(job, w) + Reporting(job, w) + rest
    ensures KeepsNothing(rest)
  {
    rest := Delivering(job, w);
    UploadingKeepsNothing(OutputSets(job, w), w);
    SplitAtReport(Preparing(job), RunningEarthmover(job, w), Sending(job), Reporting(job, w), rest);
  }

  lemma SplitAtReport(p: seq<Step>, e: seq<Step>, s: seq<Step>, r: seq<Step>, rest: seq<Step>)
    ensures p + (e + s + r) + rest == p + e + s + r + rest
  {
  }

  lemma {:induction false} UploadingKeepsNothing(sets: nat, w: World)
    ensures KeepsNothing(Uploading(sets, w))
  {
    if sets > 0 {
      UploadingKeepsNothing(sets - 1, w);
    }
  }

  lemma BeforeReportLeavesAlone(job: Job, w: World)
    ensures LeavesAlone(BeforeReport(job, w), UnmatchedStudents)
  {
    PreparingKeeps(job);
    EarthmoverKeeps(job, w);
    SendingKeeps(job);
    KeepsAlone(Preparing(job), UnmatchedStudents);
    KeepsAlone(RunningEarthmover(job, w), UnmatchedStudents);
    KeepsAlone(Sending(job), UnmatchedStudents);
  }

  // What a run that gets to the report has uploaded by then; nothing is left to upload.
  function UploadedBeforeReport(job: Job, w: World): seq<Artifact> {
    [Roster, EmResults] + (if OutputSets(job, w) == 2 then [CrossYearRoster, EmResultsXYear] else [])
    + [MatchRatesFile] + (if job.sendToOds then [LbSendResults] else [])
  }

  lemma ShelfBeforeReport(job: Job, w: World)
    ensures ShelveAll(FULL, Kept(BeforeReport(job, w))) == Shelf({}, UploadedBeforeReport(job, w))
  {
    BeforeReportKeeps(job, w);
    var first := UnpackingKept(job) + [Upload(Roster)] + [Upload(EmResults)];
    ShelveFirst(job);
    ShelveConcat(FULL, first, DecidingKept(job, w));
    ShelveDeciding(ShelveAll(FULL, first), job, w);
    ShelveLast(ShelveAll(FULL, first + DecidingKept(job, w)), job);
    ShelveConcat(FULL, first + DecidingKept(job, w), [Upload(MatchRatesFile)]);
    ShelveConcat(FULL, first + DecidingKept(job, w) + [Upload(MatchRatesFile)], SendingKept(job));
  }

  lemma ShelveOne(s: Shelf, step: Step)
    ensures ShelveAll(s, [step]) == Shelve(s, step)
  {
    assert [step][..0] == [];
  }

  lemma ShelveFirst(job: Job)
    ensures ShelveAll(FULL, UnpackingKept(job) + [Upload(Roster)] + [Upload(EmResults)]) ==
            Shelf(if job.sendToOds then {MatchRatesFile, LbSendResults} else {MatchRatesFile}, [Roster, EmResults])
  {
    ShelveConcat(FULL, UnpackingKept(job) + [Upload(Roster)], [Upload(EmResults)]);
    ShelveConcat(FULL, UnpackingKept(job), [Upload(Roster)]);
    if !job.sendToOds { ShelveOne(FULL, Flag(LbSendResults, false)); }
    var s1 := ShelveAll(FULL, UnpackingKept(job));
    ShelveOne(s1, Upload(Roster));
    ShelveOne(Shelve(s1, Upload(Roster)), Upload(EmResults));
  }

  lemma ShelveDeciding(s: Shelf, job: Job, w: World)
    requires CrossYearRoster !in s.flagged && EmResultsXYear !in s.flagged
    ensures ShelveAll(s, DecidingKept(job, w)) ==
            Shelf(s.flagged, s.uploads + if OutputSets(job, w) == 2 then [CrossYearRoster, EmResultsXYear] else [])
  {
    if OutputSets(job, w) == 2 {
      var a, b := [Flag(CrossYearRoster, true)] + [Upload(CrossYearRoster)], [Flag(EmResultsXYear, true)] + [Upload(EmResultsXYear)];
      assert DecidingKept(job, w) == a + b;
      ShelveConcat(s, a, b);
      ShelvePair(s, CrossYearRoster);
      ShelvePair(ShelveAll(s, a), EmResultsXYear);
    }
  }

  lemma ShelvePair(s: Shelf, x: Artifact)
    requires x !in s.flagged
    ensures ShelveAll(s, [Flag(x, true)] + [Upload(x)]) == Shelf(s.flagged, s.uploads + [x])
  {
    ShelveConcat(s, [Flag(x, true)], [Upload(x)]);
    ShelveOne(s, Flag(x, true));
    ShelveOne(Shelve(s, Flag(x, true)), Upload(x));
  }

  lemma ShelveLast(s: Shelf, job: Job)
    requires s.flagged == if job.sendToOds then {MatchRatesFile, LbSendResults} else {MatchRatesFile}
    ensures ShelveAll(ShelveAll(s, [Upload(MatchRatesFile)]), SendingKept(job)) ==
            Shelf({}, s.uploads + [MatchRatesFile] + if job.sendToOds then [LbSendResults] else [])
  {
    ShelveOne(s, Upload(MatchRatesFile));
    if job.sendToOds { ShelveOne(Shelve(s, Upload(MatchRatesFile)), Upload(LbSendResults)); }
  }

  /* The theorems */

  // What a step that raises makes of the artifacts: a failed Earthmover run unflags its match rates.
  ghost predicate Left(s: State, fault: Step, t: State, w: World) {
    && t.uploads == s.uploads && t.flagged <= s.flagged
    && (!IsEarthmoverRun(fault) ==> t.flagged == s.flagged)
    && (IsEarthmoverRun(fault) && OutcomeOf(fault, w).Raises? && OutcomeOf(fault, w).recorded == Some(EarthmoverRunError) ==>
          MatchRatesFile !in t.flagged)
  }

  // The final uploads of a run: those before its fault, and the late ones.
  ghost predicate EndsWith(script: seq<Step>, finally: seq<Artifact>, w: World) {
    var f := FirstFault(script, w);
    var s := Exec(INITIAL, script[..f], w);
    && FirstFault(script[..f], w) == f && !s.raised
    && (f == |script| ==> finally == s.uploads)
    && (f < |script| ==>
          exists t: State :: Left(s, script[f], t, w) && finally == LateUploads(t, ALL, w).0.uploads)
  }

  lemma UploadsAtFault(job: Job, w: World)
    ensures EndsWith(Script(job, w), Executed(job, w).uploads, w)
  {
    var script, f := Script(job, w), FirstFault(Script(job, w), w);
    ExecToFault(script, w);
    PrefixHasNoFault(script, w);
    if f == |script| {
      assert script[..f] == script;
    } else {
      var r := Exec(INITIAL, script, w);
      var error := if r.error.Some? then r.error.value else Unknown;
      var t := r.(error := Some(error));
      assert Left(Exec(INITIAL, script[..f], w), script[f], t, w);
      assert Executed(job, w).uploads == LateUploads(t, ALL, w).0.uploads;
    }
  }

  lemma PrefixLeavesAlone(job: Job, w: World, f: nat)
    requires f <= |Script(job, w)|
    requires Reporting(job, w) == [] || f <= |BeforeReport(job, w)| + 1
    ensures LeavesAlone(Script(job, w)[..f], UnmatchedStudents)
  {
    var rest := ReportIsTheRest(job, w);
    var script, k := Script(job, w), |BeforeReport(job, w)|;
    BeforeReportLeavesAlone(job, w);
    forall i | 0 <= i < f
      ensures script[i] != Upload(UnmatchedStudents) && script[i] != Flag(UnmatchedStudents, true)
    {
      if i < k {
        assert script[i] == BeforeReport(job, w)[i];
      } else if Reporting(job, w) == [] {
        assert script[i] == rest[i - k];
      } else {
        assert script[i] == Reporting(job, w)[0];
      }
    }
  }

  // At every fault point: the unmatched-students file is uploaded exactly when matching and
  // lightbeam_send have gone through, students remain unmatched, they could be reported to the app,
  // and its upload has succeeded there and then or at least during shutdown.
  lemma UnmatchedUploadedIff(job: Job, w: World)
    ensures var k, f := |BeforeReport(job, w)|, FirstFault(Script(job, w), w);
            UnmatchedStudents in Executed(job, w).uploads
            <==> Reporting(job, w) != []
                 && (f > k + 2 || (f == k + 2 && w.late(UnmatchedStudents).LateUploaded?))
  {
    var k, f := |BeforeReport(job, w)|, FirstFault(Script(job, w), w);
    if Reporting(job, w) == [] || f <= k + 1 {
      NeverUploaded(job, w);
    } else if f == k + 2 {
      UploadedLate(job, w);
    } else {
      UploadedInTime(job, w);
    }
  }

  lemma NeverUploaded(job: Job, w: World)
    requires Reporting(job, w) == [] || FirstFault(Script(job, w), w) <= |BeforeReport(job, w)| + 1
    ensures UnmatchedStudents !in Executed(job, w).uploads
  {
    UploadsAtFault(job, w);
    PrefixLeavesAlone(job, w, FirstFault(Script(job, w), w));
    NotInTheEnd(Script(job, w), Executed(job, w).uploads, w, UnmatchedStudents);
  }

  lemma NotInTheEnd(script: seq<Step>, finally: seq<Artifact>, w: World, x: Artifact)
    requires EndsWith(script, finally, w) && x !in INITIALLY_FLAGGED
    requires LeavesAlone(script[..FirstFault(script, w)], x)
    ensures x !in finally
  {
    var f := FirstFault(script, w);
    var s := Exec(INITIAL, script[..f], w);
    NotTouched(script[..f], w, x);
    if f < |script| {
      var t: State :| Left(s, script[f], t, w) && finally == LateUploads(t, ALL, w).0.uploads;
      LateUploadsAreFlagged(t, ALL, w, x);
    }
  }

  // In other words: never unless every step of matching and sending has gone through and the run has
  // recorded a number of unmatched students that is not zero.
  lemma UnmatchedOnlyAfterMatching(job: Job, w: World)
    requires UnmatchedStudents in Executed(job, w).uploads
    ensures forall x :: x in BeforeReport(job, w) ==> OutcomeOf(x, w).Fine?
    ensures var outcome := MatchRates.Orchestrated(job.sendToOds, job.crossYearMatchAvailable, w.rates, w.ratesAgain);
            outcome.Success? && outcome.value.unmatched.Some? && outcome.value.unmatched.value != 0
  {
    UnmatchedUploadedIff(job, w);
    var rest := ReportIsTheRest(job, w);
    var script, before := Script(job, w), BeforeReport(job, w);
    assert forall i :: 0 <= i < |before| ==> before[i] == script[i];
    DecidedFinely(job, w);
    MatchRates.GoesOnIff(job.sendToOds, job.crossYearMatchAvailable, w.rates, w.ratesAgain);
  }

  lemma DecidedFinely(job: Job, w: World)
    requires forall x :: x in BeforeReport(job, w) ==> OutcomeOf(x, w).Fine?
    ensures MatchRates.Orchestrated(job.sendToOds, job.crossYearMatchAvailable, w.rates, w.ratesAgain).Success?
  {
    var first := MatchRates.Recorded(w.rates);
    assert forall x :: x in Deciding(job, w) ==> x in RunningEarthmover(job, w);
    assert forall x :: x in RunningEarthmover(job, w) ==> x in BeforeReport(job, w);
    if OutputSets(job, w) == 1 {
      assert Deciding(job, w)[0] == Enforce(first);
      assert Enforce(first) in Deciding(job, w);
    } else if first.rate < MatchRates.REQUIRED_ID_MATCH_RATE {
      var second := SecondMatches(first, w);
      assert second[2] in second;
      assert second[2] in Deciding(job, w);
    }
  }

  lemma UploadedInTime(job: Job, w: World)
    requires Reporting(job, w) != [] && FirstFault(Script(job, w), w) > |BeforeReport(job, w)| + 2
    ensures UnmatchedStudents in Executed(job, w).uploads
  {
    var rest := ReportIsTheRest(job, w);
    var script, k, f := Script(job, w), |BeforeReport(job, w)|, FirstFault(Script(job, w), w);
    assert script[k + 2] == Reporting(job, w)[2];
    assert script[..f][k + 2] == Upload(UnmatchedStudents);
    UploadsAtFault(job, w);
    Touched(script[..f], w, UnmatchedStudents);
    var s := Exec(INITIAL, script[..f], w);
    if f < |script| {
      var t: State :| Left(s, script[f], t, w) && Executed(job, w).uploads == LateUploads(t, ALL, w).0.uploads;
      LateUploadsExtend(t, ALL, w);
    }
  }

  lemma KeptOfReport(before: seq<Step>, report: Step)
    requires report.Report?
    ensures Kept(before + [report] + [Flag(UnmatchedStudents, true)]) == Kept(before) + [Flag(UnmatchedStudents, true)]
  {
    var steps := before + [report];
    assert steps[..|before|] == before;
    assert Kept(steps) == Kept(before);
    assert (steps + [Flag(UnmatchedStudents, true)])[..|steps|] == steps;
  }

  // A run that stops at the upload has only that flag set.
  lemma OnlyUnmatchedFlagged(before: seq<Step>, report: Step, steps: seq<Step>, uploads: seq<Artifact>, w: World)
    requires ShelveAll(FULL, Kept(before)) == Shelf({}, uploads)
    requires report.Report? && steps == before + [report] + [Flag(UnmatchedStudents, true)]
    requires FirstFault(steps, w) == |steps|
    ensures var s := Exec(INITIAL, steps, w);
            Shelf(s.flagged, s.uploads) == Shelf({UnmatchedStudents}, uploads)
  {
    ShelfOf(steps, w);
    KeptOfReport(before, report);
    ShelveConcat(FULL, Kept(before), [Flag(UnmatchedStudents, true)]);
    ShelveOne(Shelf({}, uploads), Flag(UnmatchedStudents, true));
  }

  lemma UploadedLate(job: Job, w: World)
    requires Reporting(job, w) != [] && FirstFault(Script(job, w), w) == |BeforeReport(job, w)| + 2
    ensures UnmatchedStudents in Executed(job, w).uploads <==> w.late(UnmatchedStudents).LateUploaded?
  {
    var rest := ReportIsTheRest(job, w);
    UploadsAtFault(job, w);
    ShelfBeforeReport(job, w);
    ReportingShape(FinalMatches(job, w), IdTypes.Unpack(w.roster));
    UnmatchedIsNotBefore(job, w);
    LateAfterStop(BeforeReport(job, w), Reporting(job, w), rest, Script(job, w), UploadedBeforeReport(job, w),
                  Executed(job, w).uploads, w);
  }

  lemma ReportingShape(m: MatchRates.Matches, ids: Option<IdTypes.Unpacked>)
    requires ReportingOn(m, ids) != []
    ensures var reporting := ReportingOn(m, ids);
            && |reporting| == 3 && reporting[0] == Report(ReportOf(m, ids.value))
            && reporting[1..] == [Flag(UnmatchedStudents, true), Upload(UnmatchedStudents)]
  {
  }

  lemma UnmatchedIsNotBefore(job: Job, w: World)
    ensures UnmatchedStudents !in UploadedBeforeReport(job, w)
  {
  }

  lemma LateAfterStop(before: seq<Step>, reporting: seq<Step>, rest: seq<Step>, script: seq<Step>,
                      uploads: seq<Artifact>, finally: seq<Artifact>, w: World)
    requires script == before + reporting + rest && FirstFault(script, w) == |before| + 2
    requires |reporting| == 3 && reporting[0].Report?
    requires reporting[1..] == [Flag(UnmatchedStudents, true), Upload(UnmatchedStudents)]
    requires ShelveAll(FULL, Kept(before)) == Shelf({}, uploads) && UnmatchedStudents !in uploads
    requires EndsWith(script, finally, w)
    ensures UnmatchedStudents in finally <==> w.late(UnmatchedStudents).LateUploaded?
  {
    var s := Exec(INITIAL, script[..|before| + 2], w);
    StopsAtUpload(before, reporting, rest, script);
    OnlyUnmatchedFlagged(before, reporting[0], script[..|before| + 2], uploads, w);
    var t: State :| Left(s, script[|before| + 2], t, w) && finally == LateUploads(t, ALL, w).0.uploads;
    UnmatchedUploadedLate(t, w);
  }

  lemma StopsAtUpload(before: seq<Step>, reporting: seq<Step>, rest: seq<Step>, script: seq<Step>)
    requires script == before + reporting + rest
    requires |reporting| == 3 && reporting[1..] == [Flag(UnmatchedStudents, true), Upload(UnmatchedStudents)]
    ensures script[..|before| + 2] == before + [reporting[0]] + [Flag(UnmatchedStudents, true)]
    ensures script[|before| + 2] == Upload(UnmatchedStudents)
  {
    assert reporting[1] == reporting[1..][0] && reporting[2] == reporting[1..][1];
  }

  lemma UnmatchedUploadedLate(t: State, w: World)
    requires t.flagged == {UnmatchedStudents} && UnmatchedStudents !in t.uploads
    ensures UnmatchedStudents in LateUploads(t, ALL, w).0.uploads <==> w.late(UnmatchedStudents).LateUploaded?
  {
    assert ALL[5] == UnmatchedStudents;
    OnlyOneFlagged(t, ALL, w, UnmatchedStudents);
  }

  // Without a fault, every artifact of the run is uploaded exactly once, in order, and none is left
  // flagged.
  lemma SuccessUploadsAll(job: Job, w: World)
    requires FirstFault(Script(job, w), w) == |Script(job, w)|
    ensures Executed(job, w).flagged == {} && NoDuplicates(Executed(job, w).uploads)
    ensures Executed(job, w).uploads ==
            UploadedBeforeReport(job, w) + if Reporting(job, w) == [] then [] else [UnmatchedStudents]
  {
    var rest := ReportIsTheRest(job, w);
    ShelfBeforeReport(job, w);
    KeptToTheEnd(BeforeReport(job, w), Reporting(job, w), rest);
    ShelfToTheEnd(Kept(BeforeReport(job, w)), UploadedBeforeReport(job, w), Reporting(job, w) != []);
    ShelfOf(Script(job, w), w);
    UploadsAreDistinct(OutputSets(job, w) == 2, job.sendToOds, Reporting(job, w) != []);
  }

  function ReportKept(isReported: bool): seq<Step> {
    if isReported then [Flag(UnmatchedStudents, true)] + [Upload(UnmatchedStudents)] else []
  }

  lemma KeptToTheEnd(before: seq<Step>, reporting: seq<Step>, rest: seq<Step>)
    requires KeepsNothing(rest)
    requires reporting != [] ==>
               && |reporting| == 3 && reporting[0].Report?
               && reporting[1..] == [Flag(UnmatchedStudents, true), Upload(UnmatchedStudents)]
    ensures Kept(before + reporting + rest) == Kept(before) + ReportKept(reporting != [])
  {
    NothingKept(rest);
    KeptConcat(before + reporting, rest);
    KeptConcat(before, reporting);
    if reporting != [] {
      PairKept([reporting[0]], UnmatchedStudents);
      assert reporting == [reporting[0]] + [Flag(UnmatchedStudents, true), Upload(UnmatchedStudents)];
    }
  }

  lemma ShelfToTheEnd(kept: seq<Step>, uploads: seq<Artifact>, isReported: bool)
    requires ShelveAll(FULL, kept) == Shelf({}, uploads)
    ensures ShelveAll(FULL, kept + ReportKept(isReported)) ==
            Shelf({}, uploads + if isReported then [UnmatchedStudents] else [])
  {
    ShelveConcat(FULL, kept, ReportKept(isReported));
    if isReported {
      ShelvePair(Shelf({}, uploads), UnmatchedStudents);
    }
  }

  lemma UploadsAreDistinct(isCrossYear: bool, isSent: bool, isReported: bool)
    ensures NoDuplicates([Roster, EmResults] + (if isCrossYear then [CrossYearRoster, EmResultsXYear] else [])
                         + [MatchRatesFile] + (if isSent then [LbSendResults] else [])
                         + if isReported then [UnmatchedStudents] else [])
  {
  }

  // After an Earthmover run that has failed, the match-rates file is never uploaded.
  lemma NoMatchRatesAfterFailedRun(job: Job, w: World)
    requires FirstFault(Script(job, w), w) < |Script(job, w)|
    requires IsEarthmoverRun(Script(job, w)[FirstFault(Script(job, w), w)])
    requires OutcomeOf(Script(job, w)[FirstFault(Script(job, w), w)], w).recorded == Some(EarthmoverRunError)
    ensures ReportedCode(job, w) == EarthmoverRunError && MatchRatesFile !in Executed(job, w).uploads
  {
    var script, f := Script(job, w), FirstFault(Script(job, w), w);
    UploadsAtFault(job, w);
    RunsPrecedeMatchRates(job, w, f);
    NotTouched(script[..f], w, MatchRatesFile);
    var s := Exec(INITIAL, script[..f], w);
    var t: State :| Left(s, script[f], t, w) && Executed(job, w).uploads == LateUploads(t, ALL, w).0.uploads;
    LateUploadsAreFlagged(t, ALL, w, MatchRatesFile);
  }

  // The script up to the upload of the match-rates file.
  function BeforeMatchRates(job: Job, w: World): seq<Step> {
    Preparing(job) + FirstPass(w) + Deciding(job, w)
  }

  lemma KeepsAlone(steps: seq<Step>, x: Artifact)
    requires Upload(x) !in Kept(steps) && Flag(x, true) !in Kept(steps)
    ensures LeavesAlone(steps, x)
  {
    KeptMembers(steps, Upload(x));
    KeptMembers(steps, Flag(x, true));
  }

  lemma BeforeMatchRatesLeavesAlone(job: Job, w: World)
    ensures LeavesAlone(BeforeMatchRates(job, w), MatchRatesFile)
  {
    PreparingKeeps(job);
    FirstPassKeeps(w);
    DecidingKeeps(job, w);
    KeepsAlone(Preparing(job), MatchRatesFile);
    KeepsAlone(FirstPass(w), MatchRatesFile);
    KeepsAlone(Deciding(job, w), MatchRatesFile);
  }

  ghost predicate RunsNothing(steps: seq<Step>) {
    forall x :: x in steps ==> !IsEarthmoverRun(x)
  }

  lemma {:induction false} UploadingRunsNothing(sets: nat, w: World)
    ensures RunsNothing(Uploading(sets, w))
  {
    if sets > 0 {
      UploadingRunsNothing(sets - 1, w);
    }
  }

  lemma MatchRatesIsTheRest(job: Job, w: World) returns (rest: seq<Step>)
    ensures Script(job, w) == BeforeMatchRates(job, w) + rest && RunsNothing(rest)
  {
    rest := [Upload(MatchRatesFile)] + Sending(job) + Reporting(job, w) + Delivering(job, w);
    UploadingRunsNothing(OutputSets(job, w), w);
    SplitAtMatchRates(Preparing(job), FirstPass(w), Deciding(job, w), Sending(job), Reporting(job, w), Delivering(job, w));
  }

  lemma SplitAtMatchRates(p: seq<Step>, f: seq<Step>, d: seq<Step>, s: seq<Step>, r: seq<Step>, e: seq<Step>)
    ensures p + (f + d + [Upload(MatchRatesFile)] + s + r) + e == p + f + d + ([Upload(MatchRatesFile)] + s + r + e)
  {
  }

  lemma RunsPrecedeMatchRates(job: Job, w: World, f: nat)
    requires f < |Script(job, w)| && IsEarthmoverRun(Script(job, w)[f])
    ensures LeavesAlone(Script(job, w)[..f], MatchRatesFile)
  {
    var rest := MatchRatesIsTheRest(job, w);
    BeforeMatchRatesLeavesAlone(job, w);
    RunsInHead(Script(job, w), BeforeMatchRates(job, w), rest, f);
  }

  lemma RunsInHead(script: seq<Step>, head: seq<Step>, rest: seq<Step>, f: nat)
    requires script == head + rest && RunsNothing(rest) && LeavesAlone(head, MatchRatesFile)
    requires f < |script| && IsEarthmoverRun(script[f])
    ensures LeavesAlone(script[..f], MatchRatesFile)
  {
    assert forall i :: |head| <= i < |script| ==> script[i] == rest[i - |head|];
    assert script[..f] == head[..f];
  }
}
