/**
  Every run of the executor, whatever goes wrong and where: what it posts, which error it reports, and
  which artifacts it uploads.
 */
module ExecutorProperties {
  import opened Wrappers
  import opened ExecutorSteps
  import IdTypes
  import MatchRates

  /* The first fault decides */

  // The index of the first step that raises, or the number of steps.
  function FirstFault(steps: seq<Step>, w: World): (f: nat)
    ensures f <= |steps|
    ensures forall i :: 0 <= i < f ==> OutcomeOf(steps[i], w).Fine?
    ensures f < |steps| ==> OutcomeOf(steps[f], w).Raises?
  {
    if steps == [] then 0
    else
      var f := FirstFault(steps[..|steps| - 1], w);
      if f < |steps| - 1 || OutcomeOf(steps[f], w).Raises? then f else f + 1
  }

  // Effects of the steps before the fault, all of which go through.
  lemma {:induction false} ExecToFault(steps: seq<Step>, w: World)
    ensures var f := FirstFault(steps, w);
            && !Exec(INITIAL, steps[..f], w).raised
            && Exec(INITIAL, steps, w) ==
               if f == |steps| then Exec(INITIAL, steps[..f], w)
               else Raised(Exec(INITIAL, steps[..f], w), steps[f], OutcomeOf(steps[f], w).recorded)
  {
    var f := FirstFault(steps, w);
    if steps != [] {
      var front := steps[..|steps| - 1];
      ExecToFault(front, w);
      if f < |steps| {
        assert steps[..f] == front[..f];
      } else {
        assert steps[..f] == steps && front[..f - 1] == front;
      }
    } else {
      assert steps[..0] == [];
    }
  }

  /* Posts */

  function Starts(steps: seq<Step>): (actions: seq<Action>) {
    if steps == [] then []
    else
      var last := steps[|steps| - 1];
      Starts(steps[..|steps| - 1]) + if last.Start? then [last.a] else []
  }

  lemma {:induction false} StartsConcat(a: seq<Step>, b: seq<Step>)
    ensures Starts(a + b) == Starts(a) + Starts(b)
  {
    if b == [] {
      assert a + b == a;
    } else {
      assert (a + b)[..|a + b| - 1] == a + b[..|b| - 1];
      StartsConcat(a, b[..|b| - 1]);
    }
  }

  lemma StartsOfThree(a: seq<Step>, b: seq<Step>, c: seq<Step>)
    ensures Starts(a + b + c) == Starts(a) + Starts(b) + Starts(c)
  {
    StartsConcat(a, b);
    StartsConcat(a + b, c);
  }

  // Begin and success of each action, in order.
  function Pairs(actions: seq<Action>): (posts: seq<Post>) {
    if actions == [] then []
    else
      var last := actions[|actions| - 1];
      Pairs(actions[..|actions| - 1]) + [Update(Some(last), Begin), Update(Some(last), Succeeded)]
  }

  function Last(actions: seq<Action>): Option<Action> {
    if actions == [] then None else Some(actions[|actions| - 1])
  }

  // The same, with the last action still open.
  function OpenTrace(actions: seq<Action>): (posts: seq<Post>) {
    if actions == [] then []
    else Pairs(actions[..|actions| - 1]) + [Update(Last(actions), Begin)]
  }

  lemma OpenTraceGrows(actions: seq<Action>, a: Action)
    ensures OpenTrace(actions + [a]) == OpenTrace(actions) + StartPosts(Last(actions), a)
  {
    assert (actions + [a])[..|actions|] == actions;
  }

  lemma StepPosts(s: State, step: Step, w: World)
    requires !s.raised && OutcomeOf(step, w).Fine?
    ensures var t := Perform(s, step, w);
            && !t.raised
            && t.posts == (if step.Start? then s.posts + StartPosts(s.action, step.a) else s.posts)
            && t.action == (if step.Start? then Some(step.a) else s.action)
  {
  }

  lemma {:induction false} PostsOf(steps: seq<Step>, w: World)
    requires FirstFault(steps, w) == |steps|
    ensures var s := Exec(INITIAL, steps, w);
            && !s.raised && s.posts == OpenTrace(Starts(steps)) && s.action == Last(Starts(steps))
  {
    if steps != [] {
      var front, last := steps[..|steps| - 1], steps[|steps| - 1];
      PostsOf(front, w);
      StepPosts(Exec(INITIAL, front, w), last, w);
      if last.Start? {
        OpenTraceGrows(Starts(front), last.a);
      } else {
        assert Starts(steps) == Starts(front);
      }
    }
  }

  /* The actions of a run */

  // The fixed order of actions.
  function Plan(job: Job): seq<Action> {
    [BundleRefresh, EarthmoverDeps, GetRoster, GetFiles, EarthmoverRun]
    + (if job.sendToOds then [LightbeamSend] else [])
    + [UploadOutput]
  }

  ghost predicate StartsNothing(steps: seq<Step>) {
    forall x :: x in steps ==> !x.Start?
  }

  lemma {:induction false} NoStarts(steps: seq<Step>)
    requires StartsNothing(steps)
    ensures Starts(steps) == []
  {
    if steps != [] {
      assert steps[|steps| - 1] in steps;
      NoStarts(steps[..|steps| - 1]);
    }
  }

  lemma StartsOne(a: Action, rest: seq<Step>)
    requires StartsNothing(rest)
    ensures Starts([Start(a)] + rest) == [a]
  {
    assert [Start(a)][..0] == [];
    assert Starts([Start(a)]) == [a];
    StartsConcat([Start(a)], rest);
    NoStarts(rest);
  }

  lemma {:induction false} DownloadsStartNothing(names: seq<string>)
    ensures StartsNothing(Downloads(names))
  {
    if names != [] {
      DownloadsStartNothing(names[..|names| - 1]);
    }
  }

  lemma PreparingStarts(job: Job)
    ensures Starts(Unpacking(job)) == []
    ensures Starts(REFRESH_BUNDLE_CODE) == [BundleRefresh]
    ensures Starts(InstallingDeps(job)) == [EarthmoverDeps]
    ensures Starts(GettingRoster(job)) == [GetRoster]
  {
    NoStarts(Unpacking(job));
    assert REFRESH_BUNDLE_CODE == [Start(BundleRefresh)] + REFRESH_BUNDLE_CODE[1..];
    StartsOne(BundleRefresh, REFRESH_BUNDLE_CODE[1..]);
    var deps, roster := InstallingDeps(job), GettingRoster(job);
    assert deps == [Start(EarthmoverDeps)] + deps[1..];
    StartsOne(EarthmoverDeps, deps[1..]);
    assert roster == [Start(GetRoster)] + roster[1..];
    StartsOne(GetRoster, roster[1..]);
  }

  lemma GettingFilesStarts(job: Job)
    ensures Starts(GettingFiles(job)) == [GetFiles]
  {
    DownloadsStartNothing(job.inputFiles);
    assert GettingFiles(job) == [Start(GetFiles)] + (Downloads(job.inputFiles) + [Do(MapDescriptors)]);
    StartsOne(GetFiles, Downloads(job.inputFiles) + [Do(MapDescriptors)]);
  }

  lemma PreparationPlan(job: Job)
    ensures Starts(Preparing(job)) == [BundleRefresh, EarthmoverDeps, GetRoster, GetFiles]
  {
    PreparingStarts(job);
    GettingFilesStarts(job);
    var refreshed := Unpacking(job) + REFRESH_BUNDLE_CODE;
    StartsConcat(Unpacking(job), REFRESH_BUNDLE_CODE);
    StartsConcat(refreshed, InstallingDeps(job));
    StartsConcat(refreshed + InstallingDeps(job), GettingRoster(job));
    StartsConcat(refreshed + InstallingDeps(job) + GettingRoster(job), GettingFiles(job));
  }

  lemma FirstRunStarts()
    ensures Starts(FIRST_RUN) == [EarthmoverRun]
  {
    assert FIRST_RUN == [Start(EarthmoverRun)] + [UnpackIds, Do(RunEarthmover), Upload(EmResults)];
    StartsOne(EarthmoverRun, [UnpackIds, Do(RunEarthmover), Upload(EmResults)]);
  }

  lemma DecidingStartsNothing(job: Job, w: World)
    ensures Starts(Deciding(job, w)) == []
  {
    NoStarts(Deciding(job, w));
  }

  lemma EarthmoverStarts(job: Job, w: World)
    ensures Starts(RunningEarthmover(job, w)) == [EarthmoverRun]
  {
    var read := [Do(ReadMatchRates), Record(MatchRates.Recorded(w.rates))];
    FirstRunStarts();
    NoStarts(read);
    DecidingStartsNothing(job, w);
    NoStarts([Upload(MatchRatesFile)]);
    StartsOfThree(FIRST_RUN, read, Deciding(job, w));
    StartsConcat(FIRST_RUN + read + Deciding(job, w), [Upload(MatchRatesFile)]);
  }

  lemma SendingStarts(job: Job, w: World)
    ensures Starts(Sending(job)) == if job.sendToOds then [LightbeamSend] else []
    ensures Starts(Reporting(job, w)) == []
  {
    if job.sendToOds {
      assert Sending(job) == [Start(LightbeamSend)] + ([SendViaLightbeam] + CHECK_SENDING);
      StartsOne(LightbeamSend, [SendViaLightbeam] + CHECK_SENDING);
    }
    NoStarts(Reporting(job, w));
  }

  lemma {:induction false} UploadingStarts(sets: nat, w: World)
    ensures Starts(Uploading(sets, w)) == [UploadOutput]
  {
    if sets == 0 {
      StartsOne(UploadOutput, []);
      assert [Start(UploadOutput)] + [] == [Start(UploadOutput)];
    } else {
      UploadingStarts(sets - 1, w);
      StartsConcat(Uploading(sets - 1, w), UploadingSet(sets - 1, w));
      NoStarts(UploadingSet(sets - 1, w));
    }
  }

  lemma TransformingPlan(job: Job, w: World)
    ensures Starts(Transforming(job, w)) == [EarthmoverRun] + if job.sendToOds then [LightbeamSend] else []
  {
    EarthmoverStarts(job, w);
    SendingStarts(job, w);
    StartsConcat(RunningEarthmover(job, w), Sending(job));
    StartsConcat(RunningEarthmover(job, w) + Sending(job), Reporting(job, w));
  }

  lemma DeliveringPlan(job: Job, w: World)
    ensures Starts(Delivering(job, w)) == [UploadOutput]
  {
    UploadingStarts(OutputSets(job, w), w);
    NoStarts([Do(CompileSummary)]);
    StartsConcat(Uploading(OutputSets(job, w), w), [Do(CompileSummary)]);
  }

  lemma ScriptPlan(job: Job, w: World)
    ensures Starts(Script(job, w)) == Plan(job)
  {
    PreparationPlan(job);
    TransformingPlan(job, w);
    DeliveringPlan(job, w);
    StartsOfThree(Preparing(job), Transforming(job, w), Delivering(job, w));
    PlanInParts(job);
  }

  lemma PlanInParts(job: Job)
    ensures [BundleRefresh, EarthmoverDeps, GetRoster, GetFiles]
            + ([EarthmoverRun] + if job.sendToOds then [LightbeamSend] else []) + [UploadOutput] == Plan(job)
  {
  }

  // The actions begun before the fault: the first ones of the plan.
  function Begun(job: Job, w: World): seq<Action> {
    Starts(Script(job, w)[..FirstFault(Script(job, w), w)])
  }

  lemma BegunIsPrefix(job: Job, w: World)
    ensures Begun(job, w) <= Plan(job)
    ensures FirstFault(Script(job, w), w) == |Script(job, w)| ==> Begun(job, w) == Plan(job)
    ensures FirstFault(Script(job, w), w) >= |Unpacking(job)| ==> Begun(job, w) != []
    ensures FirstFault(Script(job, w), w) < |Unpacking(job)| ==> Begun(job, w) == []
  {
    ScriptPlan(job, w);
    StartsOfPrefix(Script(job, w), FirstFault(Script(job, w), w));
    BegunAfterUnpacking(job, w, FirstFault(Script(job, w), w));
  }

  lemma StartsOfPrefix(steps: seq<Step>, f: nat)
    requires f <= |steps|
    ensures Starts(steps[..f]) <= Starts(steps)
    ensures f == |steps| ==> Starts(steps[..f]) == Starts(steps)
  {
    assert steps == steps[..f] + steps[f..];
    StartsConcat(steps[..f], steps[f..]);
  }

  lemma ScriptBegins(job: Job, w: World) returns (rest: seq<Step>)
    ensures Script(job, w) == Unpacking(job) + [Start(BundleRefresh)] + rest
  {
    var r, i, g, f := REFRESH_BUNDLE_CODE, InstallingDeps(job), GettingRoster(job), GettingFiles(job);
    var t, d := Transforming(job, w), Delivering(job, w);
    rest := r[1..] + i + g + f + t + d;
    assert r == [Start(BundleRefresh)] + r[1..];
    SplitAfterStart(Unpacking(job), r, i, g, f, t, d);
  }

  lemma SplitAfterStart(u: seq<Step>, r: seq<Step>, i: seq<Step>, g: seq<Step>, f: seq<Step>, t: seq<Step>, d: seq<Step>)
    requires r != []
    ensures u + r + i + g + f + t + d == u + [r[0]] + (r[1..] + i + g + f + t + d)
  {
  }

  lemma BegunOnceStarted(before: seq<Step>, a: Action, rest: seq<Step>, f: nat)
    requires StartsNothing(before) && f <= |before + [Start(a)] + rest| && f != |before|
    ensures Starts((before + [Start(a)] + rest)[..f]) != [] <==> f > |before|
  {
    var script := before + [Start(a)] + rest;
    if f > |before| {
      assert script[..f] == before + ([Start(a)] + rest[..f - |before| - 1]);
      StartsConcat(before, [Start(a)] + rest[..f - |before| - 1]);
      StartsConcat([Start(a)], rest[..f - |before| - 1]);
      assert [Start(a)][..0] == [];
    } else {
      assert script[..f] == before[..f];
      NoStarts(before[..f]);
    }
  }

  // A fault comes while an action is open exactly when the job could be unpacked.
  lemma BegunAfterUnpacking(job: Job, w: World, f: nat)
    requires f == FirstFault(Script(job, w), w)
    ensures f >= |Unpacking(job)| <==> Starts(Script(job, w)[..f]) != []
  {
    var rest := ScriptBegins(job, w);
    assert StartsNothing(Unpacking(job));
    var n := |Unpacking(job)|;
    assert Script(job, w)[n] == Start(BundleRefresh);
    assert f != n;
    BegunOnceStarted(Unpacking(job), BundleRefresh, rest, f);
  }

  /* The trace of a run */

  // The error that a failed lightbeam send leaves behind without raising.
  function LeftBehind(steps: seq<Step>, w: World): Option<ErrorCode> {
    if w.sendFails && SendViaLightbeam in steps then Some(LightbeamSendError) else None
  }

  lemma StepFields(s: State, step: Step, w: World)
    requires !s.raised && OutcomeOf(step, w).Fine?
    ensures var t := Perform(s, step, w);
            && !t.raised
            && (t.statusUrl <==> s.statusUrl || step == Do(UnpackStatusUrl))
            && (t.errorUrl <==> s.errorUrl || step == Do(UnpackErrorUrl))
            && t.error == (if w.sendFails && step.SendViaLightbeam? then Some(LightbeamSendError) else s.error)
  {
  }

  lemma {:induction false} FieldsOf(steps: seq<Step>, w: World)
    requires FirstFault(steps, w) == |steps|
    ensures var s := Exec(INITIAL, steps, w);
            && !s.raised
            && (s.statusUrl <==> Do(UnpackStatusUrl) in steps)
            && (s.errorUrl <==> Do(UnpackErrorUrl) in steps)
            && s.error == LeftBehind(steps, w)
  {
    if steps != [] {
      var front, last := steps[..|steps| - 1], steps[|steps| - 1];
      assert steps == front + [last];
      FieldsOf(front, w);
      StepFields(Exec(INITIAL, front, w), last, w);
    }
  }

  lemma UrlsAt(job: Job, w: World, f: nat)
    requires f <= |Script(job, w)|
    ensures Do(UnpackStatusUrl) in Script(job, w)[..f] <==> f > 2
    ensures Do(UnpackErrorUrl) in Script(job, w)[..f] <==> f > 3
  {
    var rest := ScriptBegins(job, w);
    var script := Script(job, w);
    assert forall i :: 0 <= i < 5 ==> script[i] == FETCH_JOB[i];
    if f > 2 { assert script[..f][2] == Do(UnpackStatusUrl); }
    if f > 3 { assert script[..f][3] == Do(UnpackErrorUrl); }
    if f <= 3 { assert script[..f] == FETCH_JOB[..f]; }
  }

  function ReportedCode(job: Job, w: World): ErrorCode
    requires FirstFault(Script(job, w), w) < |Script(job, w)|
  {
    var f := FirstFault(Script(job, w), w);
    var recorded := OutcomeOf(Script(job, w)[f], w).recorded;
    if recorded.Some? then recorded.value
    else if LeftBehind(Script(job, w)[..f], w).Some? then LightbeamSendError
    else Unknown
  }

  // What is posted at the end of a run that a fault has stopped.
  function FailurePosts(open: Option<Action>, attempts: nat, code: ErrorCode): seq<Post> {
    Repeat(Update(open, Failed), attempts) + [ErrorReport(code), Update(Some(Done), Failed)]
  }

  lemma PrefixHasNoFault(steps: seq<Step>, w: World)
    ensures FirstFault(steps[..FirstFault(steps, w)], w) == FirstFault(steps, w)
  {
  }

  // Without a fault: begin and success of every action in the fixed order, and one final success.
  lemma SuccessfulTrace(job: Job, w: World)
    requires FirstFault(Script(job, w), w) == |Script(job, w)|
    ensures Executed(job, w).posts == Pairs(Plan(job)) + [Update(Some(Done), Succeeded)]
  {
    var script := Script(job, w);
    PostsOf(script, w);
    ScriptPlan(job, w);
    var plan := Plan(job);
    assert Pairs(plan) == OpenTrace(plan) + [Update(Last(plan), Succeeded)];
  }

  // What a run that stops at its f-th step posts, given the actions begun by then.
  function StoppedTrace(begun: seq<Action>, f: nat, attempts: nat, code: ErrorCode): seq<Post> {
    OpenTrace(begun)
    + (if f > 2 then Repeat(Update(Last(begun), Failed), attempts) else [])
    + (if f > 3 then [ErrorReport(code)] else [])
    + (if f > 2 then [Update(Some(Done), Failed)] else [])
  }

  lemma StoppedLate(begun: seq<Action>, f: nat, attempts: nat, code: ErrorCode)
    requires begun != [] && f > 3
    ensures StoppedTrace(begun, f, attempts, code) ==
            Pairs(begun[..|begun| - 1]) + [Update(Last(begun), Begin)] + FailurePosts(Last(begun), attempts, code)
  {
  }

  lemma StoppedEarly(f: nat, attempts: nat, code: ErrorCode)
    ensures StoppedTrace([], f, attempts, code) ==
            if f <= 2 then []
            else if f == 3 then Repeat(Update(None, Failed), attempts) + [Update(Some(Done), Failed)]
            else FailurePosts(None, attempts, code)
  {
  }

  // With a fault after the job is unpacked, wherever it is: begin and success of the first actions in
  // the fixed order, the begin of the open one, one to three failures of that one, one error, and one
  // final failure.
  lemma FailedTrace(job: Job, w: World)
    requires |Unpacking(job)| <= FirstFault(Script(job, w), w) < |Script(job, w)|
    ensures var begun, attempts := Begun(job, w), Attempts(w.acknowledged, 1);
            && begun != [] && begun <= Plan(job) && 1 <= attempts <= 3
            && Executed(job, w).posts ==
               Pairs(begun[..|begun| - 1]) + [Update(Last(begun), Begin)]
               + FailurePosts(Last(begun), attempts, ReportedCode(job, w))
  {
    BegunIsPrefix(job, w);
    TraceAtFault(job, w);
    UnpackingIsLong(job);
    StoppedLate(Begun(job, w), FirstFault(Script(job, w), w), Attempts(w.acknowledged, 1), ReportedCode(job, w));
  }

  // With a fault before that, no action has begun; what is posted depends on the URLs known by then.
  lemma TraceBeforeUnpacking(job: Job, w: World)
    requires FirstFault(Script(job, w), w) < |Unpacking(job)|
    ensures |Unpacking(job)| <= |Script(job, w)|
    ensures var f, attempts, posts := FirstFault(Script(job, w), w), Attempts(w.acknowledged, 1), Executed(job, w).posts;
            posts == if f <= 2 then []
                     else if f == 3 then Repeat(Update(None, Failed), attempts) + [Update(Some(Done), Failed)]
                     else FailurePosts(None, attempts, ReportedCode(job, w))
  {
    BegunIsPrefix(job, w);
    UnpackingIsShort(job, w);
    TraceAtFault(job, w);
    StoppedEarly(FirstFault(Script(job, w), w), Attempts(w.acknowledged, 1), ReportedCode(job, w));
  }

  lemma UnpackingIsShort(job: Job, w: World)
    ensures |Unpacking(job)| <= |Script(job, w)|
  {
    var rest := ScriptBegins(job, w);
  }

  lemma UnpackingIsLong(job: Job)
    ensures |Unpacking(job)| >= 6
  {
  }

  // A failure is posted again until the app answers, three times at most.
  lemma FailuresUntilAnswered(acknowledged: nat -> bool)
    ensures var n := Attempts(acknowledged, 1);
            && (forall i :: 1 <= i < n ==> !acknowledged(i))
            && (n < 3 ==> acknowledged(n))
  {
    assert Attempts(acknowledged, 3) == 1;
    assert Attempts(acknowledged, 2) == if acknowledged(2) then 1 else 2;
  }

  lemma TraceAtFault(job: Job, w: World)
    requires FirstFault(Script(job, w), w) < |Script(job, w)|
    ensures Executed(job, w).posts ==
            StoppedTrace(Begun(job, w), FirstFault(Script(job, w), w), Attempts(w.acknowledged, 1), ReportedCode(job, w))
  {
    var script := Script(job, w);
    var f := FirstFault(script, w);
    ExecToFault(script, w);
    PrefixHasNoFault(script, w);
    PostsOf(script[..f], w);
    FieldsOf(script[..f], w);
    UrlsAt(job, w, f);
  }

  lemma {:induction false} PairsAreUpdates(actions: seq<Action>)
    ensures forall p :: p in Pairs(actions) ==> p.Update?
  {
    if actions != [] {
      PairsAreUpdates(actions[..|actions| - 1]);
    }
  }

  /* Errors that are recorded and never reported */

  // Steps that neither send nor check the threshold.
  predicate IsPlain(step: Step) {
    !step.SendViaLightbeam? && !step.Enforce?
  }

  ghost predicate ArePlain(steps: seq<Step>) {
    forall x :: x in steps ==> IsPlain(x)
  }

  lemma {:induction false} DownloadsArePlain(names: seq<string>)
    ensures ArePlain(Downloads(names))
  {
    if names != [] {
      DownloadsArePlain(names[..|names| - 1]);
    }
  }

  lemma {:induction false} UploadingIsPlain(sets: nat, w: World)
    ensures ArePlain(Uploading(sets, w))
  {
    if sets > 0 {
      UploadingIsPlain(sets - 1, w);
      assert ArePlain(UploadingSet(sets - 1, w));
    }
  }

  lemma PreparingIsPlain(job: Job)
    ensures ArePlain(Preparing(job))
  {
    DownloadsArePlain(job.inputFiles);
    assert ArePlain(Unpacking(job)) && ArePlain(REFRESH_BUNDLE_CODE);
    assert ArePlain(InstallingDeps(job)) && ArePlain(GettingRoster(job)) && ArePlain(GettingFiles(job));
  }

  lemma DeliveringIsPlain(job: Job, w: World)
    ensures ArePlain(Delivering(job, w))
  {
    UploadingIsPlain(OutputSets(job, w), w);
  }

  lemma TransformingSendsToOds(job: Job, w: World)
    ensures SendViaLightbeam in Transforming(job, w) <==> job.sendToOds
  {
    assert SendViaLightbeam !in FIRST_RUN && SendViaLightbeam !in Deciding(job, w);
    assert SendViaLightbeam !in RunningEarthmover(job, w) && SendViaLightbeam !in Reporting(job, w);
    if job.sendToOds {
      assert Sending(job)[1] == SendViaLightbeam;
    }
    assert SendViaLightbeam in Sending(job) <==> job.sendToOds;
  }

  lemma ScriptSendsToOds(job: Job, w: World)
    ensures SendViaLightbeam in Script(job, w) <==> job.sendToOds
  {
    PreparingIsPlain(job);
    TransformingSendsToOds(job, w);
    DeliveringIsPlain(job, w);
    assert !IsPlain(SendViaLightbeam);
  }

  // Whatever raises, an error is recorded; without that, only a send that has failed leaves one.
  lemma RecordedError(job: Job, w: World)
    ensures var f := FirstFault(Script(job, w), w);
            Executed(job, w).error ==
            if f < |Script(job, w)| then Some(ReportedCode(job, w)) else LeftBehind(Script(job, w), w)
  {
    var script := Script(job, w);
    var f := FirstFault(script, w);
    ExecToFault(script, w);
    PrefixHasNoFault(script, w);
    FieldsOf(script[..f], w);
    if f == |script| {
      assert script[..f] == script;
    } else {
      var s := Exec(INITIAL, script, w);
      var error := if s.error.Some? then s.error.value else Unknown;
      LateUploadsKeep(s.(error := Some(error)), ALL, w);
    }
  }

  lemma ReportAtFault(job: Job, w: World)
    requires FirstFault(Script(job, w), w) < |Script(job, w)|
    ensures ErrorReport(ReportedCode(job, w)) in Executed(job, w).posts <==> FirstFault(Script(job, w), w) > 3
  {
    var f, begun, code := FirstFault(Script(job, w), w), Begun(job, w), ReportedCode(job, w);
    TraceAtFault(job, w);
    StoppedTraceReports(begun, f, Attempts(w.acknowledged, 1), code);
  }

  lemma StoppedTraceReports(begun: seq<Action>, f: nat, attempts: nat, code: ErrorCode)
    ensures ErrorReport(code) in StoppedTrace(begun, f, attempts, code) <==> f > 3
  {
    if begun != [] {
      PairsAreUpdates(begun[..|begun| - 1]);
    }
    assert forall p :: p in OpenTrace(begun) ==> p.Update?;
  }

  // The error that a run ends with goes unreported exactly when the job could not be unpacked as far as
  // the error URL, or when nothing has raised and a send to the ODS has failed.
  lemma ErrorGoesUnreportedIff(job: Job, w: World)
    ensures var f, s := FirstFault(Script(job, w), w), Executed(job, w);
            (s.error.Some? && ErrorReport(s.error.value) !in s.posts)
            <==> (f <= 3 || (f == |Script(job, w)| && job.sendToOds && w.sendFails))
  {
    var f := FirstFault(Script(job, w), w);
    RecordedError(job, w);
    ScriptSendsToOds(job, w);
    UnpackingIsShort(job, w);
    UnpackingIsLong(job);
    if f < |Script(job, w)| {
      ReportAtFault(job, w);
    } else {
      SuccessfulTrace(job, w);
      PairsAreUpdates(Plan(job));
    }
  }

  // It happens in a run that ends in success: some of the rows sent to the ODS have failed.
  const SENDING_JOB := Job(true, false, [], false)
  const FAILED_SEND :=
    World(call => Fine, artifact => Fine, [], [MatchRates.MatchRow("id", "State", 1.0, 1, 1)], [], true, false,
          i => true, artifact => LateUploaded, attempt => true)

  lemma {:induction false} NoFaultIn(steps: seq<Step>, w: World)
    requires forall x :: x in steps ==> OutcomeOf(x, w).Fine?
    ensures FirstFault(steps, w) == |steps|
  {
    if steps != [] {
      assert steps[|steps| - 1] in steps;
      NoFaultIn(steps[..|steps| - 1], w);
    }
  }

  lemma PlainStepsAreFine(step: Step)
    requires !step.Enforce?
    ensures OutcomeOf(step, FAILED_SEND).Fine?
  {
  }

  lemma FirstPassSuffices()
    ensures var first := MatchRates.Recorded(FAILED_SEND.rates);
            MatchRates.Suffices(first) && Deciding(SENDING_JOB, FAILED_SEND) == [Enforce(first)]
  {
  }

  lemma TransformingIsFine(step: Step)
    requires step in Transforming(SENDING_JOB, FAILED_SEND)
    ensures OutcomeOf(step, FAILED_SEND).Fine?
  {
    FirstPassSuffices();
    if step.Enforce? {
      assert step !in FIRST_RUN && step !in Sending(SENDING_JOB) && step !in Reporting(SENDING_JOB, FAILED_SEND);
      assert step in Deciding(SENDING_JOB, FAILED_SEND);
    } else {
      PlainStepsAreFine(step);
    }
  }

  lemma FailedSendRaisesNothing()
    ensures FirstFault(Script(SENDING_JOB, FAILED_SEND), FAILED_SEND) == |Script(SENDING_JOB, FAILED_SEND)|
  {
    forall x | x in Script(SENDING_JOB, FAILED_SEND) ensures OutcomeOf(x, FAILED_SEND).Fine? {
      PreparingIsPlain(SENDING_JOB);
      DeliveringIsPlain(SENDING_JOB, FAILED_SEND);
      if x in Transforming(SENDING_JOB, FAILED_SEND) {
        TransformingIsFine(x);
      } else {
        PlainStepsAreFine(x);
      }
    }
    NoFaultIn(Script(SENDING_JOB, FAILED_SEND), FAILED_SEND);
  }

  lemma FailedSendHappens()
    ensures var s := Executed(SENDING_JOB, FAILED_SEND);
            && s.error == Some(LightbeamSendError) && ErrorReport(LightbeamSendError) !in s.posts
            && Update(Some(Done), Succeeded) in s.posts
  {
    FailedSendRaisesNothing();
    ErrorGoesUnreportedIff(SENDING_JOB, FAILED_SEND);
    RecordedError(SENDING_JOB, FAILED_SEND);
    SuccessfulTrace(SENDING_JOB, FAILED_SEND);
    ScriptSendsToOds(SENDING_JOB, FAILED_SEND);
  }
}
