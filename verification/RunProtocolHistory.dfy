/**
  What the app knows of runs, told from the events: each run comes from a check of a complete job, and
  what is recorded of it is what its executor's delivered messages say, in the order it posted them.
 */
module RunProtocolHistory {
  import opened Wrappers
  import opened ExecutorSteps
  import opened RunProtocol
  import opened RunProtocolProperties

  /* Messages */

  predicate Delivers(s: System, e: Event, r: RunId) {
    e.Deliver? && e.r == r && !e.isExpired && IsPosting(s, r)
  }

  predicate FailsToLaunch(s: System, e: Event, r: RunId) {
    e.Launch? && e.r == r && !e.launched && Enabled(s, e)
  }

  // What has reached the app of what the executor of run r posts, in a run that begins in b.
  function Delivered(b: System, es: seq<Event>, r: RunId): (posts: seq<Post>) {
    if es == [] then []
    else
      var s, e := After(b, es[..|es| - 1]), es[|es| - 1];
      Delivered(b, es[..|es| - 1], r) + if Delivers(s, e, r) then [NextPost(s, r)] else []
  }

  predicate LaunchFailed(b: System, es: seq<Event>, r: RunId) {
    es != []
    && (LaunchFailed(b, es[..|es| - 1], r) || FailsToLaunch(After(b, es[..|es| - 1]), es[|es| - 1], r))
  }

  // The errors that the app is told of run r.
  function ToldErrors(b: System, es: seq<Event>, r: RunId): (errors: seq<RunError>) {
    if es == [] then []
    else
      var s, e := After(b, es[..|es| - 1]), es[|es| - 1];
      ToldErrors(b, es[..|es| - 1], r) + StepErrors(s, e, r)
  }

  lemma OneMoreError(errors: seq<RunError>, x: RunError, r: RunId)
    ensures ErrorsOf(errors + [x], r) == ErrorsOf(errors, r) + if x.runId == r then [x] else []
  {
    assert (errors + [x])[..|errors|] == errors;
  }

  // What a delivered post does to the database; one that is expired, or that says again what has been
  // said, does nothing.
  lemma PostEffect(db: Db, r: RunId, token: Token, isExpired: bool, post: Post)
    requires r < |db.runs| && Guard(Access, Some(token), false, r).None?
    ensures var after := TakePost(db, Some(token), isExpired, r, post).0;
            && after.errors == db.errors
                 + (if !isExpired && post.ErrorReport? then [RunError(r, Reported(post.code))] else [])
            && after.updates == db.updates
                 + (if !isExpired && post.Update? && post.action.Some? then {RunUpdate(r, post.action.value, post.status)} else {})
  {
  }

  // The error that a step tells the app of run r.
  function StepErrors(s: System, e: Event, r: RunId): seq<RunError> {
    if FailsToLaunch(s, e, r) then [RunError(r, FailedToStart)]
    else if Delivers(s, e, r) && NextPost(s, r).ErrorReport? then [RunError(r, Reported(NextPost(s, r).code))]
    else []
  }

  lemma StepTellsErrors(s: System, e: Event, r: RunId)
    requires Inv(s)
    ensures ErrorsOf(Next(s, e).db.errors, r) == ErrorsOf(s.db.errors, r) + StepErrors(s, e, r)
  {
    if Enabled(s, e) && e.Deliver? {
      DeliverTellsErrors(s, e, r);
    } else if Enabled(s, e) && e.Launch? && !e.launched {
      OneMoreError(s.db.errors, RunError(e.r, FailedToStart), r);
    } else {
      OthersTellNoErrors(s, e);
    }
  }

  lemma DeliverTellsErrors(s: System, e: Event, r: RunId)
    requires Inv(s) && Enabled(s, e) && e.Deliver?
    ensures ErrorsOf(Next(s, e).db.errors, r) == ErrorsOf(s.db.errors, r) + StepErrors(s, e, r)
  {
    SubjectExists(s, e);
    PostEffect(s.db, e.r, s.processes[e.r].token, e.isExpired, NextPost(s, e.r));
    if NextPost(s, e.r).ErrorReport? {
      OneMoreError(s.db.errors, RunError(e.r, Reported(NextPost(s, e.r).code)), r);
    }
  }

  lemma OthersTellNoErrors(s: System, e: Event)
    requires Enabled(s, e) ==> !e.Deliver? && !(e.Launch? && !e.launched)
    ensures Next(s, e).db.errors == s.db.errors
  {
  }

  predicate Says(p: Post, action: Action, status: Status) {
    p == Update(Some(action), status)
  }

  lemma StepTellsUpdates(s: System, e: Event, r: RunId, action: Action, status: Status)
    requires Inv(s)
    ensures RunUpdate(r, action, status) in Next(s, e).db.updates
       <==> RunUpdate(r, action, status) in s.db.updates
            || (Delivers(s, e, r) && Says(NextPost(s, r), action, status))
            || (FailsToLaunch(s, e, r) && action == Done && status == Failed)
  {
    if Enabled(s, e) && e.Deliver? {
      DeliverTellsUpdates(s, e, r, action, status);
    } else {
      OthersTellNoUpdates(s, e, r, action, status);
    }
  }

  lemma DeliverTellsUpdates(s: System, e: Event, r: RunId, action: Action, status: Status)
    requires Inv(s) && Enabled(s, e) && e.Deliver?
    ensures RunUpdate(r, action, status) in Next(s, e).db.updates
       <==> RunUpdate(r, action, status) in s.db.updates || (Delivers(s, e, r) && Says(NextPost(s, r), action, status))
  {
    SubjectExists(s, e);
    PostEffect(s.db, e.r, s.processes[e.r].token, e.isExpired, NextPost(s, e.r));
  }

  lemma OthersTellNoUpdates(s: System, e: Event, r: RunId, action: Action, status: Status)
    requires Enabled(s, e) ==> !e.Deliver?
    ensures RunUpdate(r, action, status) in Next(s, e).db.updates
       <==> RunUpdate(r, action, status) in s.db.updates || (FailsToLaunch(s, e, r) && action == Done && status == Failed)
  {
  }

  lemma {:induction false} UpdatesAreTold(b: System, es: seq<Event>, r: RunId, action: Action, status: Status)
    requires Inv(b) && b.db.updates == {}
    ensures RunUpdate(r, action, status) in After(b, es).db.updates
       <==> Update(Some(action), status) in Delivered(b, es, r)
            || (LaunchFailed(b, es, r) && action == Done && status == Failed)
  {
    if es != [] {
      var front := es[..|es| - 1];
      UpdatesAreTold(b, front, r, action, status);
      AfterKeepsInv(b, front);
      StepTellsUpdates(After(b, front), es[|es| - 1], r, action, status);
    }
  }

  lemma {:induction false} ErrorsAreTold(b: System, es: seq<Event>, r: RunId)
    requires Inv(b) && b.db.errors == []
    ensures ErrorsOf(After(b, es).db.errors, r) == ToldErrors(b, es, r)
  {
    if es != [] {
      var front := es[..|es| - 1];
      ErrorsAreTold(b, front, r);
      AfterKeepsInv(b, front);
      StepTellsErrors(After(b, front), es[|es| - 1], r);
    }
  }

  // In every interleaving, the app has recorded of a run exactly the updates and errors that its executor
  // has posted and that have arrived, and a launch that failed.
  lemma RecordsWhatIsDelivered(es: seq<Event>, r: RunId, action: Action, status: Status)
    ensures var db := After(BOOT, es).db;
            && (RunUpdate(r, action, status) in db.updates
                <==> Update(Some(action), status) in Delivered(BOOT, es, r)
                     || (LaunchFailed(BOOT, es, r) && action == Done && status == Failed))
            && ErrorsOf(db.errors, r) == ToldErrors(BOOT, es, r)
  {
    BootKeepsInv();
    UpdatesAreTold(BOOT, es, r, action, status);
    ErrorsAreTold(BOOT, es, r);
  }

  /* Order */

  // The posts of a, in order, are some of those of b.
  predicate IsPartOf(a: seq<Post>, b: seq<Post>) {
    a == []
    || (b != [] && (IsPartOf(a, b[..|b| - 1])
                    || (a[|a| - 1] == b[|b| - 1] && IsPartOf(a[..|a| - 1], b[..|b| - 1]))))
  }

  lemma SkipOne(a: seq<Post>, b: seq<Post>, x: Post)
    requires IsPartOf(a, b)
    ensures IsPartOf(a, b + [x]) && IsPartOf(a + [x], b + [x])
  {
    assert (b + [x])[..|b|] == b && (a + [x])[..|a|] == a;
  }

  // Of these posts, n have been delivered or lost, and the others are left.
  ghost predicate Reaches(posts: seq<Post>, delivered: seq<Post>, n: nat, left: Option<seq<Post>>) {
    n <= |posts| && IsPartOf(delivered, posts[..n]) && (left.Some? ==> left.value == posts[n..])
  }

  lemma ReachesOneMore(posts: seq<Post>, delivered: seq<Post>, n: nat, left: seq<Post>)
    requires Reaches(posts, delivered, n, Some(left)) && left != []
    ensures Reaches(posts, delivered, n + 1, Some(left[1..]))
    ensures Reaches(posts, delivered + [left[0]], n + 1, Some(left[1..]))
  {
    SkipOne(delivered, posts[..n], posts[n]);
    assert posts[..n + 1] == posts[..n] + [posts[n]] && left[0] == posts[n];
  }

  function LeftOf(s: System, r: RunId): Option<seq<Post>> {
    if r in s.processes && s.processes[r].Posting? then Some(s.processes[r].left) else None
  }

  ghost predicate DeliveredSoFar(s: System, delivered: seq<Post>, r: RunId) {
    if r !in s.stories then delivered == []
    else exists n: nat :: Reaches(s.plays(s.stories[r]).posts, delivered, n, LeftOf(s, r))
  }

  lemma StepDelivers(s: System, e: Event, delivered: seq<Post>, r: RunId)
    requires Inv(s) && DeliveredSoFar(s, delivered, r)
    ensures DeliveredSoFar(Next(s, e), delivered + (if Delivers(s, e, r) then [NextPost(s, r)] else []), r)
  {
    assert delivered + [] == delivered;
    if Enabled(s, e) {
      if e.Initialise? && e.r == r {
        InitialiseDelivers(s, e, delivered, r);
      } else if (e.Deliver? || e.LosePost?) && e.r == r {
        AdvanceDelivers(s, e, delivered, delivered + (if Delivers(s, e, r) then [NextPost(s, r)] else []), r);
      } else {
        OthersDeliver(s, e, delivered, r);
      }
    }
  }

  lemma InitialiseDelivers(s: System, e: Event, delivered: seq<Post>, r: RunId)
    requires Inv(s) && Enabled(s, e) && e.Initialise? && e.r == r && DeliveredSoFar(s, delivered, r)
    ensures DeliveredSoFar(Next(s, e), delivered, r)
  {
    SubjectExists(s, e);
    var t := Next(s, e);
    if r in t.stories {
      var posts := t.plays(t.stories[r]).posts;
      assert posts[..0] == [] && posts[0..] == posts;
      assert Reaches(posts, delivered, 0, LeftOf(t, r));
    }
  }

  lemma Advances(s: System, e: Event, r: RunId)
    requires Inv(s) && Enabled(s, e) && (e.Deliver? || e.LosePost?) && e.r == r
    ensures var t := Next(s, e);
            && t.stories == s.stories && t.plays == s.plays
            && LeftOf(t, r) == Some(s.processes[r].left[1..])
  {
    if e.Deliver? {
      DeliverEffect(s, e);
    }
  }

  lemma AdvanceDelivers(s: System, e: Event, before: seq<Post>, after: seq<Post>, r: RunId)
    requires Inv(s) && Enabled(s, e) && (e.Deliver? || e.LosePost?) && e.r == r && DeliveredSoFar(s, before, r)
    requires after == before || after == before + [NextPost(s, r)]
    ensures DeliveredSoFar(Next(s, e), after, r)
  {
    SubjectExists(s, e);
    Advances(s, e, r);
    AdvanceReaches(s.plays(s.stories[r]).posts, before, after, s.processes[r].left);
  }

  lemma AdvanceReaches(posts: seq<Post>, before: seq<Post>, after: seq<Post>, left: seq<Post>)
    requires left != [] && (after == before || after == before + [left[0]])
    requires exists n: nat :: Reaches(posts, before, n, Some(left))
    ensures exists n: nat :: Reaches(posts, after, n, Some(left[1..]))
  {
    var n: nat :| Reaches(posts, before, n, Some(left));
    ReachesOneMore(posts, before, n, left);
    assert Reaches(posts, after, n + 1, Some(left[1..]));
  }

  lemma OthersDeliver(s: System, e: Event, delivered: seq<Post>, r: RunId)
    requires Inv(s) && Enabled(s, e) && DeliveredSoFar(s, delivered, r)
    requires !((e.Initialise? || e.Deliver? || e.LosePost?) && e.r == r)
    ensures DeliveredSoFar(Next(s, e), delivered, r)
  {
    OtherProcesses(s, e, r);
    if r in s.stories {
      var posts := s.plays(s.stories[r]).posts;
      var n: nat :| Reaches(posts, delivered, n, LeftOf(s, r));
      assert Reaches(posts, delivered, n, LeftOf(Next(s, e), r));
    }
  }

  lemma OtherProcesses(s: System, e: Event, r: RunId)
    requires Inv(s) && Enabled(s, e) && !((e.Initialise? || e.Deliver? || e.LosePost?) && e.r == r)
    ensures var t := Next(s, e);
            && t.plays == s.plays && Get(t.stories, r) == Get(s.stories, r)
            && (LeftOf(t, r).Some? ==> LeftOf(t, r) == LeftOf(s, r))
  {
    if e.Deliver? || e.LosePost? {
      OtherAdvances(s, e, r);
    }
  }

  lemma OtherAdvances(s: System, e: Event, r: RunId)
    requires Inv(s) && Enabled(s, e) && (e.Deliver? || e.LosePost?) && e.r != r
    ensures var t := Next(s, e);
            && t.plays == s.plays && Get(t.stories, r) == Get(s.stories, r) && LeftOf(t, r) == LeftOf(s, r)
  {
    if e.Deliver? {
      DeliverEffect(s, e);
    }
  }

  lemma {:induction false} DeliveredFrom(b: System, es: seq<Event>, r: RunId)
    requires Inv(b) && b.stories == map[]
    ensures DeliveredSoFar(After(b, es), Delivered(b, es, r), r)
  {
    if es != [] {
      var front := es[..|es| - 1];
      DeliveredFrom(b, front, r);
      AfterKeepsInv(b, front);
      StepDelivers(After(b, front), es[|es| - 1], Delivered(b, front, r), r);
    }
  }

  // What arrives of a run are some of its executor's posts, in the order it posts them and each at most
  // once; nothing arrives of a run whose executor never got its access token.
  lemma DeliveredInOrder(es: seq<Event>, r: RunId)
    ensures var s, delivered := After(BOOT, es), Delivered(BOOT, es, r);
            && (r !in s.stories ==> delivered == [])
            && (r in s.stories ==> IsPartOf(delivered, PlayOf(s.stories[r]).posts))
  {
    Reached(es);
    BootKeepsInv();
    DeliveredFrom(BOOT, es, r);
    var s := After(BOOT, es);
    if r in s.stories {
      var posts := s.plays(s.stories[r]).posts;
      var n: nat :| Reaches(posts, Delivered(BOOT, es, r), n, LeftOf(s, r));
      PartOfMore(Delivered(BOOT, es, r), posts, n);
    }
  }

  lemma {:induction false} PartOfMore(a: seq<Post>, b: seq<Post>, n: nat)
    requires n <= |b| && IsPartOf(a, b[..n])
    ensures IsPartOf(a, b)
    decreases |b| - n
  {
    if n < |b| {
      SkipOne(a, b[..n], b[n]);
      assert b[..n + 1] == b[..n] + [b[n]];
      PartOfMore(a, b, n + 1);
    } else {
      assert b[..n] == b;
    }
  }

  /* Where runs come from */

  function RunCount(runs: seq<RunRow>, job: JobId): nat {
    if runs == [] then 0 else RunCount(runs[..|runs| - 1], job) + if runs[|runs| - 1].jobId == job then 1 else 0
  }

  // The checks of a complete job.
  function Checks(es: seq<Event>, job: JobId): nat {
    if es == [] then 0
    else
      var e := es[|es| - 1];
      Checks(es[..|es| - 1], job) + if e.Check? && e.jobId == job && e.isComplete then 1 else 0
  }

  lemma {:induction false} SameCount(a: seq<RunRow>, b: seq<RunRow>, job: JobId)
    requires |a| == |b| && forall i :: 0 <= i < |a| ==> a[i].jobId == b[i].jobId
    ensures RunCount(a, job) == RunCount(b, job)
  {
    if a != [] {
      SameCount(a[..|a| - 1], b[..|b| - 1], job);
    }
  }

  lemma StepCountsRuns(s: System, e: Event, job: JobId)
    requires Inv(s)
    ensures var t := Next(s, e);
            RunCount(t.db.runs, job) + t.starts[job]
            <= RunCount(s.db.runs, job) + s.starts[job] + if e.Check? && e.jobId == job && e.isComplete then 1 else 0
  {
    var t := Next(s, e);
    if Enabled(s, e) && e.Create? {
      assert t.db.runs[..|t.db.runs| - 1] == s.db.runs;
    } else if Enabled(s, e) {
      StepMovesRows(s, e);
      SameCount(t.db.runs, s.db.runs, job);
    }
  }

  lemma {:induction false} RunsFrom(b: System, es: seq<Event>, job: JobId)
    requires Inv(b) && b.db.runs == [] && b.starts == multiset{}
    ensures RunCount(After(b, es).db.runs, job) + After(b, es).starts[job] <= Checks(es, job)
  {
    if es != [] {
      var front := es[..|es| - 1];
      RunsFrom(b, front, job);
      AfterKeepsInv(b, front);
      StepCountsRuns(After(b, front), es[|es| - 1], job);
    }
  }

  // A job gets at most one run for each time it is started when it is complete, and none otherwise.
  lemma RunsComeFromChecks(es: seq<Event>, job: JobId)
    ensures RunCount(After(BOOT, es).db.runs, job) <= Checks(es, job)
  {
    BootKeepsInv();
    RunsFrom(BOOT, es, job);
  }
}
