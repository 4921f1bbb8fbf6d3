/**
  What a run tells the app about unmatched students.
 */
module ExecutorReports {
  import opened Wrappers
  import opened ExecutorSteps
  import opened ExecutorProperties
  import opened ExecutorArtifacts
  import IdTypes
  import MatchRates

  // The reports made by steps that all go through.
  function Told(steps: seq<Step>): (reports: seq<IdReport>) {
    if steps == [] then []
    else
      var last := steps[|steps| - 1];
      Told(steps[..|steps| - 1]) + if last.Report? then [last.r] else []
  }

  lemma {:induction false} ToldConcat(a: seq<Step>, b: seq<Step>)
    ensures Told(a + b) == Told(a) + Told(b)
  {
    if b == [] {
      assert a + b == a;
    } else {
      assert (a + b)[..|a + b| - 1] == a + b[..|b| - 1];
      ToldConcat(a, b[..|b| - 1]);
    }
  }

  ghost predicate TellsNothing(steps: seq<Step>) {
    forall x :: x in steps ==> !x.Report?
  }

  lemma {:induction false} NothingTold(steps: seq<Step>)
    requires TellsNothing(steps)
    ensures Told(steps) == []
  {
    if steps != [] {
      assert steps[|steps| - 1] in steps;
      NothingTold(steps[..|steps| - 1]);
    }
  }

  lemma StepTells(s: State, step: Step, w: World)
    requires !s.raised && OutcomeOf(step, w).Fine?
    ensures var t := Perform(s, step, w);
            !t.raised && t.reports == s.reports + if step.Report? then [step.r] else []
  {
  }

  lemma {:induction false} ReportsOf(steps: seq<Step>, w: World)
    requires FirstFault(steps, w) == |steps|
    ensures !Exec(INITIAL, steps, w).raised && Exec(INITIAL, steps, w).reports == Told(steps)
  {
    if steps != [] {
      ReportsOf(steps[..|steps| - 1], w);
      StepTells(Exec(INITIAL, steps[..|steps| - 1], w), steps[|steps| - 1], w);
    }
  }

  // Nothing is told after the fault.
  lemma ReportsToFault(job: Job, w: World)
    ensures Executed(job, w).reports == Told(Script(job, w)[..FirstFault(Script(job, w), w)])
  {
    var script, f := Script(job, w), FirstFault(Script(job, w), w);
    ExecToFault(script, w);
    PrefixHasNoFault(script, w);
    ReportsOf(script[..f], w);
    if f < |script| {
      var s := Exec(INITIAL, script, w);
      var error := if s.error.Some? then s.error.value else Unknown;
      LateUploadsKeep(s.(error := Some(error)), ALL, w);
    }
  }

  /* Where the script tells anything */

  lemma {:induction false} DownloadsTellNothing(names: seq<string>)
    ensures TellsNothing(Downloads(names))
  {
    if names != [] {
      DownloadsTellNothing(names[..|names| - 1]);
    }
  }

  lemma {:induction false} UploadingTellsNothing(sets: nat, w: World)
    ensures TellsNothing(Uploading(sets, w))
  {
    if sets > 0 {
      UploadingTellsNothing(sets - 1, w);
      assert TellsNothing(UploadingSet(sets - 1, w));
    }
  }

  lemma PreparingTellsNothing(job: Job)
    ensures TellsNothing(Preparing(job))
  {
    DownloadsTellNothing(job.inputFiles);
    assert TellsNothing(Unpacking(job)) && TellsNothing(REFRESH_BUNDLE_CODE);
    assert TellsNothing(InstallingDeps(job)) && TellsNothing(GettingRoster(job)) && TellsNothing(GettingFiles(job));
  }

  lemma BeforeReportTellsNothing(job: Job, w: World)
    ensures TellsNothing(BeforeReport(job, w))
  {
    PreparingTellsNothing(job);
    assert TellsNothing(FIRST_RUN) && TellsNothing(Deciding(job, w));
    assert TellsNothing(RunningEarthmover(job, w)) && TellsNothing(Sending(job));
  }

  lemma SplitScript(job: Job, w: World) returns (rest: seq<Step>)
    ensures Script(job, w) == BeforeReport(job, w) + Reporting(job, w) + rest && TellsNothing(rest)
  {
    rest := Delivering(job, w);
    UploadingTellsNothing(OutputSets(job, w), w);
    SplitAtReport(Preparing(job), RunningEarthmover(job, w), Sending(job), Reporting(job, w), rest);
  }

  lemma ToldUpTo(before: seq<Step>, reporting: seq<Step>, rest: seq<Step>, f: nat)
    requires TellsNothing(before) && TellsNothing(rest) && f <= |before + reporting + rest|
    requires reporting != [] ==> reporting[0].Report? && TellsNothing(reporting[1..])
    ensures Told((before + reporting + rest)[..f]) ==
            if reporting != [] && f > |before| then [reporting[0].r] else []
  {
    var script := before + reporting + rest;
    if reporting == [] || f <= |before| {
      assert forall x :: x in script[..f] ==> x in before || x in rest;
      NothingTold(script[..f]);
    } else {
      var after := (reporting[1..] + rest)[..f - |before| - 1];
      assert script[..f] == before + [reporting[0]] + after;
      assert [reporting[0]][..0] == [];
      NothingTold(before);
      NothingTold(after);
      ToldConcat(before, [reporting[0]]);
      ToldConcat(before + [reporting[0]], after);
    }
  }

  lemma ReportsAtFault(job: Job, w: World)
    ensures var reporting, f := Reporting(job, w), FirstFault(Script(job, w), w);
            Executed(job, w).reports ==
            if reporting != [] && f > |BeforeReport(job, w)|
            then [ReportOf(FinalMatches(job, w), IdTypes.Unpack(w.roster).value)] else []
  {
    var rest := SplitScript(job, w);
    ReportsToFault(job, w);
    BeforeReportTellsNothing(job, w);
    if Reporting(job, w) != [] {
      ReportingShape(FinalMatches(job, w), IdTypes.Unpack(w.roster));
    }
    ToldUpTo(BeforeReport(job, w), Reporting(job, w), rest, FirstFault(Script(job, w), w));
  }

  /* The theorem */

  // Matching and sending have gone through.
  ghost predicate GetsToReport(job: Job, w: World) {
    forall x :: x in BeforeReport(job, w) ==> OutcomeOf(x, w).Fine?
  }

  lemma FaultAfter(before: seq<Step>, report: Step, rest: seq<Step>, w: World)
    ensures FirstFault(before + [report] + rest, w) > |before|
       <==> (forall x :: x in before ==> OutcomeOf(x, w).Fine?) && OutcomeOf(report, w).Fine?
  {
    var script := before + [report] + rest;
    var f := FirstFault(script, w);
    assert script[|before|] == report;
    assert forall i :: 0 <= i < |before| ==> script[i] == before[i];
    if f < |before| {
      assert before[f] in before;
    }
  }

  lemma FaultAfterReport(job: Job, w: World)
    requires Reporting(job, w) != []
    ensures FirstFault(Script(job, w), w) > |BeforeReport(job, w)|
       <==> GetsToReport(job, w) && w.outcome(PostIdMatches).Fine?
  {
    var rest := SplitScript(job, w);
    ReportingShape(FinalMatches(job, w), IdTypes.Unpack(w.roster));
    var reporting := Reporting(job, w);
    assert reporting == [reporting[0]] + reporting[1..];
    Reassociate(BeforeReport(job, w), reporting, rest);
    FaultAfter(BeforeReport(job, w), reporting[0], reporting[1..] + rest, w);
  }

  lemma Reassociate(before: seq<Step>, reporting: seq<Step>, rest: seq<Step>)
    requires reporting != []
    ensures before + reporting + rest == before + [reporting[0]] + (reporting[1..] + rest)
  {
  }

  lemma RosterIsUnpacked(job: Job, w: World)
    requires GetsToReport(job, w)
    ensures IdTypes.Unpack(w.roster).Some?
  {
    assert FIRST_RUN[1] == UnpackIds;
    assert UnpackIds in FIRST_RUN;
    assert UnpackIds in RunningEarthmover(job, w);
    assert UnpackIds in BeforeReport(job, w);
  }

  // The app is told of unmatched students at most once, and exactly when every step of matching and
  // sending has gone through, students remain unmatched, and the app takes the report.  It is told their
  // number and the ID that matched best, but for studentUniqueId the densely used type that replicates
  // it best.  studentUniqueId itself is told only when nothing replicates it, or that has an empty name
  // or is itself named so.
  lemma AppIsToldIff(job: Job, w: World)
    ensures var outcome := MatchRates.Orchestrated(job.sendToOds, job.crossYearMatchAvailable, w.rates, w.ratesAgain);
            var reports := Executed(job, w).reports;
            && |reports| <= 1
            && (reports != [] <==> GetsToReport(job, w) && outcome.Success? && outcome.value.unmatched != Some(0)
                                   && w.outcome(PostIdMatches).Fine?)
            && (reports != [] ==> RightlyTold(outcome.value, w.roster, reports[0]))
            && (UnmatchedStudents in Executed(job, w).uploads ==> reports != [])
  {
    ReportsAtFault(job, w);
    UnmatchedUploadedIff(job, w);
    if Reporting(job, w) != [] {
      FaultAfterReport(job, w);
    }
    if GetsToReport(job, w) {
      RosterIsUnpacked(job, w);
      DecidedFinely(job, w);
      MatchRates.GoesOnIff(job.sendToOds, job.crossYearMatchAvailable, w.rates, w.ratesAgain);
      ReportIsRight(FinalMatches(job, w), w.roster);
    }
  }

  ghost predicate RightlyTold(m: MatchRates.Matches, roster: seq<IdTypes.Record>, r: IdReport) {
    && m.unmatched == Some(r.count) && r.name == m.idName
    && (m.idType != "studentUniqueId" ==> r.idType == m.idType)
    && (m.idType == "studentUniqueId" ==> r.idType == "studentUniqueId" || IdTypes.IsReplica(roster, r.idType))
    && (r.idType == "studentUniqueId" && m.idType == "studentUniqueId" ==>
          || IdTypes.IsReplica(roster, "") || IdTypes.IsReplica(roster, "studentUniqueId")
          || forall k :: IdTypes.IsDense(roster, k) ==> IdTypes.MatchRatio(roster, k) < 0.95)
  }

  lemma ReportIsRight(m: MatchRates.Matches, roster: seq<IdTypes.Record>)
    requires IdTypes.Unpack(roster).Some? && m.unmatched.Some?
    ensures RightlyTold(m, roster, ReportOf(m, IdTypes.Unpack(roster).value))
  {
    IdTypes.UnpackedIsRight(roster);
    IdTypes.ReportsUniqueIdIff(m.idType, roster);
  }
}
