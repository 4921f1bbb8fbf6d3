/**
  Executors and the app together: every interleaving of starting jobs, initialising runs, posting,
  completing runs, losing messages and completions, and losing executors.
 */
module RunProtocolProperties {
  import opened Wrappers
  import opened ExecutorSteps
  import opened RunProtocol
  import ExecutorProperties

  // What the executor of a run goes through.
  datatype Story = Story(job: ExecutorSteps.Job, w: World) {
    // No step raises.
    predicate GoesThrough() {
      ExecutorProperties.FirstFault(Script(job, w), w) == |Script(job, w)|
    }
  }

  // What it posts, and the status it ends with.
  datatype Play = Play(posts: seq<Post>, ending: Status)

  function PlayOf(story: Story): Play {
    Play(Executed(story.job, story.w).posts, if story.GoesThrough() then Succeeded else Failed)
  }

  // The executor of a run: being launched, launched with its init token, posting in order what is left
  // to post with the token it was answered with, gone.
  datatype Process = Starting | Launched(token: Token) | Posting(token: Token, left: seq<Post>) | Gone

  // A run that is recorded as done and still to be completed with this status, or never to be, because
  // that write failed.
  datatype Completion = Completion(status: Status, lost: bool)

  // What stories make executors post, the database, the starts of jobs that have passed their check,
  // the executors by run, the runs that were initialised, in order, the story of each run whose executor
  // has got its access token, and the completions to come.
  datatype System = System(
    plays: Story -> Play,
    db: Db,
    starts: multiset<JobId>,
    processes: map<RunId, Process>,
    inits: seq<RunId>,
    stories: map<RunId, Story>,
    completions: map<RunId, Completion>)

  const BOOT := System(PlayOf, EMPTY_DB, multiset{}, map[], [], map[], map[])

  datatype Event =
    | Check(jobId: JobId, isComplete: bool)
    | Create(jobId: JobId)
    | Launch(r: RunId, launched: bool)
    // an executor's own init request; its run has this story in store
    | Initialise(r: RunId, isExpired: bool, story: Story)
    // an init request that is made again, or whose answer does not reach the executor
    | InitInVain(r: RunId, isExpired: bool)
    | Deliver(r: RunId, isExpired: bool)
    | LosePost(r: RunId)
    | Complete(r: RunId)
    | LoseCompletion(r: RunId)
    // an executor, or the app while it launches one
    | LoseExecutor(r: RunId)

  predicate IsPosting(s: System, r: RunId) {
    r in s.processes && s.processes[r].Posting? && s.processes[r].left != []
  }

  predicate IsLaunched(s: System, r: RunId) {
    r in s.processes && !s.processes[r].Starting?
  }

  predicate IsCompleting(s: System, r: RunId) {
    r in s.completions && !s.completions[r].lost
  }

  predicate Enabled(s: System, e: Event) {
    match e
    case Check(_, _) => true
    case Create(jobId) => jobId in s.starts
    case Launch(r, _) => r in s.processes && s.processes[r].Starting?
    case Initialise(r, _, story) => r in s.processes && s.processes[r].Launched? && story.w.outcome(InitRun).Fine?
    case InitInVain(r, _) => IsLaunched(s, r)
    case Deliver(r, _) => IsPosting(s, r)
    case LosePost(r) => IsPosting(s, r)
    case Complete(r) => IsCompleting(s, r)
    case LoseCompletion(r) => IsCompleting(s, r)
    case LoseExecutor(r) => r in s.processes
  }

  // An init request with the token that the executor of the run is launched with
  function InitResult(s: System, r: RunId, isExpired: bool): (Db, Result<Token, HttpError>) {
    TakeInit(s.db, Some(InitToken(r)), isExpired, r)
  }

  function Became(s: System, r: RunId, p: Process): System {
    s.(processes := s.processes[r := p])
  }

  function Advance(s: System, r: RunId): System
    requires IsPosting(s, r)
  {
    Became(s, r, s.processes[r].(left := s.processes[r].left[1..]))
  }

  function NextPost(s: System, r: RunId): Post
    requires IsPosting(s, r)
  {
    s.processes[r].left[0]
  }

  function Answered(s: System, r: RunId, isExpired: bool): (Db, Answer)
    requires IsPosting(s, r)
  {
    TakePost(s.db, Some(s.processes[r].token), isExpired, r, NextPost(s, r))
  }

  function Next(s: System, e: Event): System {
    if !Enabled(s, e) then s
    else
      match e
      case Check(jobId, isComplete) =>
        if CheckStart(s.db, jobId, isComplete).None? then s.(starts := s.starts + multiset{jobId}) else s
      case Create(jobId) =>
        Became(s, |s.db.runs|, Starting).(db := AddRun(s.db, jobId), starts := s.starts - multiset{jobId})
      case Launch(r, launched) =>
        if launched then Became(s, r, Launched(InitToken(r))) else Became(s, r, Gone).(db := FailToStart(s.db, r))
      case Initialise(r, isExpired, story) =>
        var (db, result) := TakeInit(s.db, Some(s.processes[r].token), isExpired, r);
        if result.Success? then
          Became(s, r, Posting(result.value, s.plays(story).posts)).(db := db, inits := s.inits + [r], stories := s.stories[r := story])
        else Became(s, r, Gone)
      case InitInVain(r, isExpired) =>
        var (db, result) := InitResult(s, r, isExpired);
        if result.Success? then s.(db := db, inits := s.inits + [r]) else s
      case Deliver(r, isExpired) =>
        var (db, answer) := Answered(s, r, isExpired);
        var recorded := Advance(s, r).(db := db);
        if answer.Completing? then recorded.(completions := s.completions[r := Completion(answer.status, false)])
        else recorded
      case LosePost(r) => Advance(s, r)
      case Complete(r) =>
        s.(db := CompleteRun(s.db, r, s.completions[r].status), completions := s.completions - {r})
      case LoseCompletion(r) => s.(completions := s.completions[r := s.completions[r].(lost := true)])
      case LoseExecutor(r) => Became(s, r, Gone)
  }

  function After(s: System, es: seq<Event>): System {
    if es == [] then s else Next(After(s, es[..|es| - 1]), es[|es| - 1])
  }

  /* What an executor posts, from the app's point of view */

  predicate IsDone(p: Post) {
    p.Update? && p.action == Some(Done)
  }

  // The post that says the executor is done comes last, and only there.
  ghost predicate EndsDone(posts: seq<Post>, status: Status) {
    && posts != [] && posts[|posts| - 1] == Update(Some(Done), status)
    && forall i :: 0 <= i < |posts| - 1 ==> !IsDone(posts[i])
  }

  lemma {:induction false} PairsAreNotDone(actions: seq<Action>)
    requires Done !in actions
    ensures forall p :: p in ExecutorProperties.Pairs(actions) ==> !IsDone(p)
  {
    if actions != [] {
      PairsAreNotDone(actions[..|actions| - 1]);
    }
  }

  lemma SuccessEndsDone(actions: seq<Action>)
    requires Done !in actions
    ensures EndsDone(ExecutorProperties.Pairs(actions) + [Update(Some(Done), Succeeded)], Succeeded)
  {
    PairsAreNotDone(actions);
  }

  lemma FailureEndsDone(open: Option<Action>, attempts: nat, code: ErrorCode)
    requires open != Some(Done)
    ensures EndsDone(ExecutorProperties.FailurePosts(open, attempts, code), Failed)
    ensures EndsDone(Repeat(Update(open, Failed), attempts) + [Update(Some(Done), Failed)], Failed)
  {
  }

  lemma EndsDoneAfter(before: seq<Post>, posts: seq<Post>, status: Status)
    requires EndsDone(posts, status) && forall p :: p in before ==> !IsDone(p)
    ensures EndsDone(before + posts, status)
  {
  }

  lemma TraceEndsDone(begun: seq<Action>, attempts: nat, code: ErrorCode)
    requires begun != [] && Done !in begun
    ensures EndsDone(ExecutorProperties.Pairs(begun[..|begun| - 1])
                     + [Update(ExecutorProperties.Last(begun), Begin)]
                     + ExecutorProperties.FailurePosts(ExecutorProperties.Last(begun), attempts, code), Failed)
  {
    var front, open := begun[..|begun| - 1], ExecutorProperties.Last(begun);
    assert begun[|begun| - 1] in begun;
    PairsAreNotDone(front);
    FailureEndsDone(open, attempts, code);
    EndsDoneAfter(ExecutorProperties.Pairs(front) + [Update(open, Begin)],
                  ExecutorProperties.FailurePosts(open, attempts, code), Failed);
  }

  lemma PrefixLacks(prefix: seq<Action>, actions: seq<Action>, a: Action)
    requires prefix <= actions && a !in actions
    ensures a !in prefix
  {
  }

  lemma FailedTraceEndsDone(job: ExecutorSteps.Job, w: World)
    requires |Unpacking(job)| <= ExecutorProperties.FirstFault(Script(job, w), w) < |Script(job, w)|
    ensures EndsDone(Executed(job, w).posts, Failed)
  {
    ExecutorProperties.FailedTrace(job, w);
    PlanLacksDone(job);
    FailedPostsEndDone(ExecutorProperties.Begun(job, w), ExecutorProperties.Plan(job), Attempts(w.acknowledged, 1),
                       ExecutorProperties.ReportedCode(job, w), Executed(job, w).posts);
  }

  lemma PlanLacksDone(job: ExecutorSteps.Job)
    ensures Done !in ExecutorProperties.Plan(job)
  {
  }

  lemma FailedPostsEndDone(begun: seq<Action>, plan: seq<Action>, attempts: nat, code: ErrorCode, posts: seq<Post>)
    requires begun != [] && begun <= plan && Done !in plan
    requires posts == ExecutorProperties.Pairs(begun[..|begun| - 1]) + [Update(ExecutorProperties.Last(begun), Begin)]
                      + ExecutorProperties.FailurePosts(ExecutorProperties.Last(begun), attempts, code)
    ensures EndsDone(posts, Failed)
  {
    PrefixLacks(begun, plan, Done);
    TraceEndsDone(begun, attempts, code);
  }

  // An executor says it is done once, at the end, if it says anything; with success exactly when
  // nothing has raised.
  lemma StoryEndsDone(story: Story)
    ensures story.GoesThrough() ==> EndsDone(Executed(story.job, story.w).posts, Succeeded)
    ensures !story.GoesThrough() ==>
              Executed(story.job, story.w).posts == [] || EndsDone(Executed(story.job, story.w).posts, Failed)
  {
    var job, w := story.job, story.w;
    var f := ExecutorProperties.FirstFault(Script(job, w), w);
    if f == |Script(job, w)| {
      ExecutorProperties.SuccessfulTrace(job, w);
      SuccessEndsDone(ExecutorProperties.Plan(job));
    } else if f >= |Unpacking(job)| {
      FailedTraceEndsDone(job, w);
    } else {
      ExecutorProperties.TraceBeforeUnpacking(job, w);
      FailureEndsDone(None, Attempts(w.acknowledged, 1), ExecutorProperties.ReportedCode(job, w));
    }
  }

  ghost predicate EndsWell(play: Play) {
    play.ending != Begin && (play.posts == [] || EndsDone(play.posts, play.ending))
  }

  lemma PlaysEndWell(story: Story)
    ensures EndsWell(PlayOf(story))
  {
    StoryEndsDone(story);
  }

  lemma NextOfPosts(posts: seq<Post>, status: Status)
    requires EndsDone(posts, status)
    ensures IsDone(posts[0]) <==> |posts| == 1
    ensures IsDone(posts[0]) ==> posts[0].status == status
    ensures |posts| > 1 ==> EndsDone(posts[1..], status)
  {
  }

  /* What holds in every reachable state */

  predicate IsActiveRun(s: System, r: RunId) {
    r < |s.db.runs| && IsActive(s.db.runs[r])
  }

  predicate IsRecorded(s: System, r: RunId, status: Status) {
    RunUpdate(r, Done, status) in s.db.updates
  }

  // The status that the executor of a run is done with.
  ghost function Ending(s: System, r: RunId): Status {
    if r in s.stories then s.plays(s.stories[r]).ending else Failed
  }

  ghost predicate RunInv(s: System, r: RunId)
    requires r < |s.db.runs|
  {
    var status := s.db.runs[r].status;
    && (status == New ==> r !in s.inits)
    && (status == Running ==> r in s.inits)
    && (r in s.stories ==> r in s.inits)
    && (status == RunStatus.Success ==> Ending(s, r) == Succeeded)
    && (status == RunStatus.Error ==> Ending(s, r) == Failed)
    && (status == RunStatus.Error && r in s.inits ==> r in s.stories)
    && (r in s.completions ==> status == Running && r in s.stories && s.completions[r].status == Ending(s, r))
    && !IsRecorded(s, r, Begin)
    && (IsRecorded(s, r, Succeeded) <==> Ending(s, r) == Succeeded && IsOver(s, r))
    && (IsRecorded(s, r, Failed) <==> Ending(s, r) == Failed && IsOver(s, r))
  }

  // The executor of a run is done, as far as the app knows.
  predicate IsOver(s: System, r: RunId)
    requires r < |s.db.runs|
  {
    !IsActive(s.db.runs[r]) || r in s.completions
  }

  // An executor that has posts left has not said it is done.
  ghost predicate ProcessInv(s: System, r: RunId)
    requires r in s.processes && r < |s.db.runs|
  {
    var p := s.processes[r];
    && (p.Starting? ==> s.db.runs[r].status == New)
    && (p.Launched? ==> p.token == InitToken(r))
    && (p.Posting? ==> Guard(Access, Some(p.token), false, r).None?)
    && (p.Posting? ==>
          && r in s.stories
          && (p.left != [] ==>
                s.db.runs[r].status == Running && r !in s.completions && EndsDone(p.left, Ending(s, r))))
    && (!p.Posting? && !p.Gone? ==> r !in s.stories)
  }

  ghost predicate Inv(s: System) {
    && (forall story :: EndsWell(s.plays(story)))
    && NoDuplicates(s.inits)
    && RowsExist(s)
    && (forall r :: r in s.processes ==> ProcessInv(s, r))
    && (forall r: RunId :: r < |s.db.runs| ==> r in s.processes && RunInv(s, r))
  }

  // The run that a step is about; a step leaves every other run and its executor alone.
  function Subject(s: System, e: Event): RunId {
    if e.Check? || e.Create? then |s.db.runs| else e.r
  }

  // What taking a post can do to the database.
  ghost predicate PostTaken(db: Db, db': Db, answer: Answer, r: RunId, post: Post) {
    && db'.runs == db.runs
    && (db'.updates != db.updates ==>
          && post.Update? && post.action.Some?
          && db'.updates == db.updates + {RunUpdate(r, post.action.value, post.status)})
    && (answer.Completing? <==> db'.updates != db.updates && IsDone(post))
    && (answer.Completing? ==> answer.status == post.status)
  }

  lemma TakePostEffect(db: Db, r: RunId, isExpired: bool, post: Post)
    ensures var (db', answer) := TakePost(db, Some(Token(r, Access)), isExpired, r, post);
            PostTaken(db, db', answer, r, post)
  {
  }

  lemma ValidTokens(token: Token, r: RunId)
    requires Guard(Access, Some(token), false, r).None?
    ensures token == Token(r, Access)
  {
  }

  // Nothing is recorded of runs that do not exist.
  ghost predicate RowsExist(s: System) {
    && (forall r :: r in s.inits ==> r < |s.db.runs|)
    && (forall r :: r in s.stories ==> r < |s.db.runs|)
    && (forall r :: r in s.processes ==> r < |s.db.runs|)
    && (forall r :: r in s.completions ==> r < |s.db.runs|)
    && (forall u :: u in s.db.updates ==> u.runId < |s.db.runs|)
  }

  lemma SubjectExists(s: System, e: Event)
    requires Inv(s) && Enabled(s, e) && !e.Check? && !e.Create?
    ensures e.r < |s.db.runs| && e.r in s.processes && RunInv(s, e.r) && ProcessInv(s, e.r)
  {
  }

  lemma DeliverEffect(s: System, e: Event)
    requires Inv(s) && Enabled(s, e) && e.Deliver?
    ensures var t, answer := Next(s, e), Answered(s, e.r, e.isExpired).1;
            && PostTaken(s.db, t.db, answer, e.r, NextPost(s, e.r))
            && t == Advance(s, e.r).(
                 db := t.db,
                 completions := if answer.Completing? then s.completions[e.r := Completion(answer.status, false)]
                                else s.completions)
  {
    SubjectExists(s, e);
    ValidTokens(s.processes[e.r].token, e.r);
    TakePostEffect(s.db, e.r, e.isExpired, NextPost(s, e.r));
  }

  ghost predicate KeepsRun(s: System, t: System, r: RunId)
    requires r < |s.db.runs|
  {
    && r < |t.db.runs| && t.db.runs[r] == s.db.runs[r]
    && t.plays == s.plays
    && Get(t.processes, r) == Get(s.processes, r) && Get(t.stories, r) == Get(s.stories, r)
    && Get(t.completions, r) == Get(s.completions, r)
    && (r in t.inits <==> r in s.inits)
    && forall done :: IsRecorded(t, r, done) <==> IsRecorded(s, r, done)
  }

  lemma StepKeepsOthers(s: System, e: Event, r: RunId)
    requires Inv(s) && Enabled(s, e) && r < |s.db.runs| && r != Subject(s, e)
    ensures KeepsRun(s, Next(s, e), r)
  {
    if e.Deliver? {
      DeliverKeepsOthers(s, e, r);
    } else if e.Initialise? || e.InitInVain? {
      InitKeepsOthers(s, e, r);
    }
  }

  lemma DeliverKeepsOthers(s: System, e: Event, r: RunId)
    requires Inv(s) && Enabled(s, e) && e.Deliver? && r < |s.db.runs| && r != e.r
    ensures KeepsRun(s, Next(s, e), r)
  {
    DeliverEffect(s, e);
  }

  lemma InitKeepsOthers(s: System, e: Event, r: RunId)
    requires Enabled(s, e) && (e.Initialise? || e.InitInVain?) && r < |s.db.runs| && r != e.r
    ensures KeepsRun(s, Next(s, e), r)
  {
  }

  lemma KeptRunKeepsInv(s: System, t: System, r: RunId)
    requires r < |s.db.runs| && r in s.processes && RunInv(s, r) && ProcessInv(s, r) && KeepsRun(s, t, r)
    ensures r in t.processes && RunInv(t, r) && ProcessInv(t, r)
  {
    assert r in t.stories <==> r in s.stories;
    assert r in t.completions <==> r in s.completions;
  }

  lemma DeliverKeepsSubject(s: System, e: Event)
    requires Inv(s) && Enabled(s, e) && e.Deliver?
    ensures var t := Next(s, e);
            e.r < |t.db.runs| && e.r in t.processes && RunInv(t, e.r) && ProcessInv(t, e.r)
  {
    SubjectExists(s, e);
    DeliverEffect(s, e);
    NextOfPosts(s.processes[e.r].left, Ending(s, e.r));
  }

  lemma CreateKeepsSubject(s: System, e: Event)
    requires Inv(s) && Enabled(s, e) && e.Create?
    ensures var t, r := Next(s, e), |s.db.runs|;
            r < |t.db.runs| && r in t.processes && RunInv(t, r) && ProcessInv(t, r)
  {
    assert |s.db.runs| !in s.inits && |s.db.runs| !in s.stories && |s.db.runs| !in s.completions;
  }

  lemma InitKeepsSubject(s: System, e: Event)
    requires Inv(s) && Enabled(s, e) && (e.Initialise? || e.InitInVain?)
    ensures var t := Next(s, e);
            e.r < |t.db.runs| && e.r in t.processes && RunInv(t, e.r) && ProcessInv(t, e.r)
  {
    SubjectExists(s, e);
  }

  lemma CompletionKeepsSubject(s: System, e: Event)
    requires Inv(s) && Enabled(s, e) && (e.Complete? || e.LoseCompletion?)
    ensures var t := Next(s, e);
            e.r < |t.db.runs| && e.r in t.processes && RunInv(t, e.r) && ProcessInv(t, e.r)
  {
    SubjectExists(s, e);
  }

  lemma SubjectKeepsInv(s: System, e: Event)
    requires Inv(s) && Enabled(s, e)
    ensures var t, r := Next(s, e), Subject(s, e);
            r < |t.db.runs| ==> r in t.processes && RunInv(t, r) && ProcessInv(t, r)
  {
    match e
    case Check(_, _) =>
    case Create(_) => CreateKeepsSubject(s, e);
    case Deliver(_, _) => DeliverKeepsSubject(s, e);
    case Initialise(_, _, _) => InitKeepsSubject(s, e);
    case InitInVain(_, _) => InitKeepsSubject(s, e);
    case Complete(_) => CompletionKeepsSubject(s, e);
    case LoseCompletion(_) => CompletionKeepsSubject(s, e);
    case _ => SubjectExists(s, e);
  }

  predicate Moves(before: RunStatus, after: RunStatus) {
    || before == after
    || (before == New && (after == Running || after == RunStatus.Error))
    || (before == Running && (after == RunStatus.Success || after == RunStatus.Error))
  }

  // What a step can do to the rows of runs.
  ghost predicate RowsMove(s: System, t: System) {
    && |s.db.runs| <= |t.db.runs|
    && forall r :: 0 <= r < |s.db.runs| ==>
         t.db.runs[r].jobId == s.db.runs[r].jobId && Moves(s.db.runs[r].status, t.db.runs[r].status)
  }

  lemma SubjectMoves(s: System, e: Event)
    requires Inv(s) && Enabled(s, e) && !e.Check? && !e.Create?
    ensures var t, r := Next(s, e), e.r;
            && r < |s.db.runs| == |t.db.runs|
            && t.db.runs[r].jobId == s.db.runs[r].jobId && Moves(s.db.runs[r].status, t.db.runs[r].status)
  {
    SubjectExists(s, e);
    if e.Deliver? {
      DeliverEffect(s, e);
    }
  }

  lemma RowMoves(s: System, e: Event, r: RunId)
    requires Inv(s) && Enabled(s, e) && r < |s.db.runs|
    ensures var t := Next(s, e);
            && r < |t.db.runs| && t.db.runs[r].jobId == s.db.runs[r].jobId
            && Moves(s.db.runs[r].status, t.db.runs[r].status)
  {
    if r == Subject(s, e) {
      SubjectMoves(s, e);
    } else {
      StepKeepsOthers(s, e, r);
    }
  }

  lemma StepMovesRows(s: System, e: Event)
    requires Inv(s) && Enabled(s, e)
    ensures RowsMove(s, Next(s, e))
    ensures |Next(s, e).db.runs| == |s.db.runs| + if e.Create? then 1 else 0
  {
    if !e.Check? && !e.Create? {
      SubjectMoves(s, e);
    }
    forall r: RunId | r < |s.db.runs|
      ensures Next(s, e).db.runs[r].jobId == s.db.runs[r].jobId
      ensures Moves(s.db.runs[r].status, Next(s, e).db.runs[r].status)
    {
      RowMoves(s, e, r);
    }
  }

  lemma AppendKeepsDistinct(ids: seq<RunId>, r: RunId)
    requires NoDuplicates(ids) && r !in ids
    ensures NoDuplicates(ids + [r])
  {
    assert forall i :: 0 <= i < |ids| ==> ids[i] in ids;
  }

  lemma InitsStayDistinct(s: System, e: Event)
    requires Inv(s) && Enabled(s, e)
    ensures NoDuplicates(Next(s, e).inits)
  {
    if (e.Initialise? || e.InitInVain?) && InitResult(s, e.r, e.isExpired).1.Success? {
      assert RunInv(s, e.r);
      AppendKeepsDistinct(s.inits, e.r);
    }
  }

  lemma StepKeepsRows(s: System, e: Event)
    requires Inv(s) && Enabled(s, e)
    ensures RowsExist(Next(s, e))
  {
    if e.Deliver? {
      DeliverKeepsRows(s, e);
    } else if e.Launch? {
      LaunchKeepsRows(s, e);
    } else {
      StepMovesRows(s, e);
    }
  }

  lemma DeliverKeepsRows(s: System, e: Event)
    requires Inv(s) && Enabled(s, e) && e.Deliver?
    ensures RowsExist(Next(s, e))
  {
    SubjectExists(s, e);
    DeliverEffect(s, e);
  }

  lemma LaunchKeepsRows(s: System, e: Event)
    requires Inv(s) && Enabled(s, e) && e.Launch?
    ensures RowsExist(Next(s, e))
  {
    SubjectExists(s, e);
  }

  lemma StepKeepsRuns(s: System, e: Event, r: RunId)
    requires Inv(s) && Enabled(s, e) && r < |Next(s, e).db.runs|
    ensures var t := Next(s, e); r in t.processes && RunInv(t, r) && ProcessInv(t, r)
  {
    StepMovesRows(s, e);
    if r == Subject(s, e) {
      SubjectKeepsInv(s, e);
    } else {
      StepKeepsOthers(s, e, r);
      KeptRunKeepsInv(s, Next(s, e), r);
    }
  }

  lemma NextKeepsInv(s: System, e: Event)
    requires Inv(s)
    ensures Inv(Next(s, e))
  {
    if Enabled(s, e) {
      var t := Next(s, e);
      InitsStayDistinct(s, e);
      StepKeepsRows(s, e);
      forall r: RunId | r < |t.db.runs| ensures r in t.processes && RunInv(t, r) && ProcessInv(t, r) {
        StepKeepsRuns(s, e, r);
      }
    }
  }

  lemma {:induction false} AfterKeepsInv(s: System, es: seq<Event>)
    requires Inv(s)
    ensures Inv(After(s, es)) && |s.db.runs| <= |After(s, es).db.runs| && After(s, es).plays == s.plays
  {
    if es != [] {
      var front := After(s, es[..|es| - 1]);
      AfterKeepsInv(s, es[..|es| - 1]);
      NextKeepsInv(front, es[|es| - 1]);
      if Enabled(front, es[|es| - 1]) {
        StepMovesRows(front, es[|es| - 1]);
      }
    }
  }

  lemma BootKeepsInv()
    ensures Inv(BOOT)
  {
    forall story ensures EndsWell(BOOT.plays(story)) {
      PlaysEndWell(story);
    }
  }

  lemma Reached(es: seq<Event>)
    ensures Inv(After(BOOT, es)) && After(BOOT, es).plays == BOOT.plays
  {
    BootKeepsInv();
    AfterKeepsInv(BOOT, es);
  }

  lemma {:induction false} AfterConcat(s: System, a: seq<Event>, b: seq<Event>)
    ensures After(s, a + b) == After(After(s, a), b)
  {
    if b == [] {
      assert a + b == a;
    } else {
      assert (a + b)[..|a + b| - 1] == a + b[..|b| - 1];
      AfterConcat(s, a, b[..|b| - 1]);
    }
  }

  /* The protocol, in every interleaving */

  // Each run is initialised at most once, whoever repeats the request.
  lemma InitialisedOnce(es: seq<Event>)
    ensures NoDuplicates(After(BOOT, es).inits)
  {
    Reached(es);
  }

  // A run's status only moves from new to running or error, and from running to success or error.
  lemma StatusMoves(es: seq<Event>, e: Event, r: RunId)
    requires r < |After(BOOT, es).db.runs|
    ensures var s, t := After(BOOT, es), Next(After(BOOT, es), e);
            r < |t.db.runs| && Moves(s.db.runs[r].status, t.db.runs[r].status)
  {
    Reached(es);
    StepMoves(After(BOOT, es), e, r);
  }

  lemma StepMoves(s: System, e: Event, r: RunId)
    requires Inv(s) && r < |s.db.runs|
    ensures r < |Next(s, e).db.runs| && Moves(s.db.runs[r].status, Next(s, e).db.runs[r].status)
  {
    if Enabled(s, e) {
      StepMovesRows(s, e);
    }
  }

  predicate IsFinal(s: System, r: RunId) {
    r < |s.db.runs| && !IsActive(s.db.runs[r])
  }

  lemma {:induction false} TerminalIsFinal(s: System, es: seq<Event>, r: RunId)
    requires Inv(s) && IsFinal(s, r)
    ensures r < |After(s, es).db.runs| && After(s, es).db.runs[r] == s.db.runs[r]
  {
    if es != [] {
      var front, e := es[..|es| - 1], es[|es| - 1];
      TerminalIsFinal(s, front, r);
      AfterKeepsInv(s, front);
      TerminalStays(After(s, front), e, r);
    }
  }

  lemma TerminalStays(s: System, e: Event, r: RunId)
    requires Inv(s) && IsFinal(s, r)
    ensures r < |Next(s, e).db.runs| && Next(s, e).db.runs[r] == s.db.runs[r]
  {
    if Enabled(s, e) {
      assert r in s.processes && RunInv(s, r) && ProcessInv(s, r);
      if r != Subject(s, e) {
        StepKeepsOthers(s, e, r);
      } else if e.Deliver? {
        DeliverEffect(s, e);
      }
    }
  }

  lemma StatusIsEnding(s: System, r: RunId)
    requires Inv(s) && r < |s.db.runs|
    ensures s.db.runs[r].status == RunStatus.Success ==> r in s.stories && s.plays(s.stories[r]).ending == Succeeded
    ensures s.db.runs[r].status == RunStatus.Error ==>
              if r in s.inits then r in s.stories && s.plays(s.stories[r]).ending == Failed else r !in s.stories
  {
    assert RunInv(s, r);
    assert r in s.stories ==> EndsWell(s.plays(s.stories[r]));
  }

  lemma EndingOf(story: Story)
    ensures BOOT.plays(story).ending == if story.GoesThrough() then Succeeded else Failed
  {
  }

  // What the app shows for a run is what its executor went through: success only after a run in which
  // nothing has raised, error only after one in which something has or that could not be started.
  lemma StatusTellsTheStory(es: seq<Event>, r: RunId)
    requires r < |After(BOOT, es).db.runs|
    ensures var s := After(BOOT, es);
            && (s.db.runs[r].status == RunStatus.Success ==> r in s.stories && s.stories[r].GoesThrough())
            && (s.db.runs[r].status == RunStatus.Error ==>
                  if r in s.inits then r in s.stories && !s.stories[r].GoesThrough()
                  else r !in s.stories)
  {
    var s := After(BOOT, es);
    Reached(es);
    StatusIsEnding(s, r);
    if r in s.stories {
      EndingOf(s.stories[r]);
    }
  }

  // The app records at most one end of a run, and the one its executor came to.
  ghost predicate RecordsTheEnd(s: System, r: RunId) {
    forall done :: IsRecorded(s, r, done) ==>
      done == if r in s.stories && s.stories[r].GoesThrough() then Succeeded else Failed
  }

  // A run is final exactly when it is recorded as done and not still to be completed: one that is
  // recorded as done and active is waiting for that write, or has lost it.
  ghost predicate EndsAsRecorded(s: System, r: RunId)
    requires r < |s.db.runs|
  {
    var status := s.db.runs[r].status;
    && (status == RunStatus.Success <==> IsRecorded(s, r, Succeeded) && r !in s.completions)
    && (status == RunStatus.Error <==> IsRecorded(s, r, Failed) && r !in s.completions)
    && (IsActiveRun(s, r) && (exists done :: IsRecorded(s, r, done)) <==> r in s.completions)
  }

  lemma InvEndsAsRecorded(s: System, r: RunId)
    requires Inv(s) && r < |s.db.runs|
    ensures EndsAsRecorded(s, r)
    ensures forall done :: IsRecorded(s, r, done) ==> done == Ending(s, r)
  {
    assert RunInv(s, r);
    assert IsOver(s, r) ==> IsRecorded(s, r, Ending(s, r)) by {
      assert r in s.stories ==> EndsWell(s.plays(s.stories[r]));
    }
    forall done ensures IsRecorded(s, r, done) ==> done == Ending(s, r) && IsOver(s, r) {
      assert done == Begin || done == Succeeded || done == Failed;
    }
  }

  lemma FinalIsRecorded(es: seq<Event>, r: RunId)
    requires r < |After(BOOT, es).db.runs|
    ensures EndsAsRecorded(After(BOOT, es), r) && RecordsTheEnd(After(BOOT, es), r)
  {
    var s := After(BOOT, es);
    Reached(es);
    InvEndsAsRecorded(s, r);
    if r in s.stories {
      EndingOf(s.stories[r]);
    }
  }

  /* One active run at a time */

  ghost predicate OneActive(s: System, job: JobId) {
    forall a: RunId, b: RunId ::
      (IsActiveRun(s, a) && IsActiveRun(s, b) && s.db.runs[a].jobId == job && s.db.runs[b].jobId == job) ==> a == b
  }

  // A start of the job that has passed its check, or an active run of it.
  ghost predicate OneUnderWay(s: System, job: JobId) {
    OneActive(s, job) && (job in s.starts ==> !HasActiveRun(s.db, job))
  }

  lemma StepKeepsOneUnderWay(s: System, e: Event, job: JobId)
    requires Inv(s) && OneUnderWay(s, job) && s.starts[job] <= 1
    ensures OneUnderWay(Next(s, e), job)
  {
    if Enabled(s, e) {
      var t := Next(s, e);
      StepMovesRows(s, e);
      assert forall a: RunId :: a < |s.db.runs| && IsActiveRun(t, a) ==> IsActiveRun(s, a);
      if e == Create(job) {
        CreatesAlone(s, job);
      } else {
        OthersStartNothing(s, e, job);
      }
    }
  }

  lemma CreatesAlone(s: System, job: JobId)
    requires job in s.starts && s.starts[job] <= 1 && !HasActiveRun(s.db, job)
    ensures OneUnderWay(Next(s, Create(job)), job)
  {
    assert job !in Next(s, Create(job)).starts;
    assert forall a: RunId :: a < |s.db.runs| && s.db.runs[a].jobId == job ==> !IsActive(s.db.runs[a]);
  }

  lemma OthersStartNothing(s: System, e: Event, job: JobId)
    requires Inv(s) && OneUnderWay(s, job) && Enabled(s, e) && e != Create(job) && RowsMove(s, Next(s, e))
    requires |Next(s, e).db.runs| == |s.db.runs| + if e.Create? then 1 else 0
    ensures OneUnderWay(Next(s, e), job)
  {
    var t := Next(s, e);
    forall a: RunId | IsActiveRun(t, a) && t.db.runs[a].jobId == job
      ensures IsActiveRun(s, a) && s.db.runs[a].jobId == job
    {
    }
    if job in t.starts && HasActiveRun(t.db, job) {
      var a: RunId :| a < |t.db.runs| && t.db.runs[a].jobId == job && IsActive(t.db.runs[a]);
      assert IsActiveRun(t, a);
      assert HasActiveRun(s.db, job);
    }
  }

  // Two starts of the job have passed their checks before either has created its run.
  ghost predicate StartsOverlap(es: seq<Event>, job: JobId) {
    exists i :: 0 <= i <= |es| && After(BOOT, es[..i]).starts[job] > 1
  }

  // A job never has two runs that are new or running, unless two of its starts overlap.
  lemma {:induction false} OneActiveUnlessStartsOverlap(es: seq<Event>, job: JobId)
    requires !StartsOverlap(es, job)
    ensures OneUnderWay(After(BOOT, es), job)
  {
    if es != [] {
      var front, n := es[..|es| - 1], |es| - 1;
      assert es[..n] == front && After(BOOT, es[..n]).starts[job] <= 1;
      forall i | 0 <= i <= |front| ensures After(BOOT, front[..i]).starts[job] <= 1 {
        assert front[..i] == es[..i];
      }
      OneActiveUnlessStartsOverlap(front, job);
      Reached(front);
      StepKeepsOneUnderWay(After(BOOT, front), es[n], job);
    }
  }

  // The starts that have passed their checks create their runs.
  ghost predicate OnlyCreates(more: seq<Event>, job: JobId) {
    forall e :: e in more ==> e == Create(job)
  }

  ghost predicate LeavesOneActive(s: System, job: JobId, more: seq<Event>) {
    OneActive(After(s, more), job)
  }

  lemma {:induction false} CreationsKeepOne(s: System, job: JobId, more: seq<Event>)
    requires Inv(s) && OneUnderWay(s, job) && s.starts[job] <= 1 && OnlyCreates(more, job)
    ensures OneUnderWay(After(s, more), job) && After(s, more).starts[job] <= 1
  {
    if more != [] {
      var front, e := more[..|more| - 1], more[|more| - 1];
      assert e in more && forall x :: x in front ==> x in more;
      CreationsKeepOne(s, job, front);
      AfterKeepsInv(s, front);
      StepKeepsOneUnderWay(After(s, front), e, job);
    }
  }

  lemma CreationJoinsActive(s: System, job: JobId)
    requires job in s.starts && HasActiveRun(s.db, job)
    ensures !OneActive(Next(s, Create(job)), job)
  {
    var a: RunId :| a < |s.db.runs| && s.db.runs[a].jobId == job && IsActive(s.db.runs[a]);
    var t, n := Next(s, Create(job)), |s.db.runs|;
    assert IsActiveRun(t, a) && IsActiveRun(t, n) && t.db.runs[a].jobId == job && t.db.runs[n].jobId == job;
  }

  // Starts that overlap, or that are overtaken by one that runs already, can give a job two active
  // runs, and nothing else can: in every reachable state, creating the runs of the starts that have
  // passed their checks leaves at most one active run exactly when there is one such start at most, and
  // none besides an active run.
  lemma LeavesOneActiveIff(es: seq<Event>, job: JobId)
    ensures var s := After(BOOT, es);
            (forall more :: OnlyCreates(more, job) ==> LeavesOneActive(s, job, more))
            <==> OneUnderWay(s, job) && s.starts[job] <= 1
  {
    var s := After(BOOT, es);
    Reached(es);
    CreationsDouble(s, job);
    if OneUnderWay(s, job) && s.starts[job] <= 1 {
      forall more | OnlyCreates(more, job) ensures LeavesOneActive(s, job, more) {
        CreationsKeepOne(s, job, more);
      }
    }
  }

  lemma CreationsDouble(s: System, job: JobId)
    ensures !OneUnderWay(s, job) || s.starts[job] > 1 ==>
              exists more :: OnlyCreates(more, job) && !LeavesOneActive(s, job, more)
  {
    var t := Next(s, Create(job));
    AfterOne(s, Create(job));
    if !OneActive(s, job) {
      assert OnlyCreates([], job) && !LeavesOneActive(s, job, []);
    } else if job in s.starts && HasActiveRun(s.db, job) {
      CreationJoinsActive(s, job);
      assert OnlyCreates([Create(job)], job) && !LeavesOneActive(s, job, [Create(job)]);
    } else if s.starts[job] > 1 {
      assert job in t.starts && IsActiveRun(t, |s.db.runs|) && t.db.runs[|s.db.runs|].jobId == job;
      CreationJoinsActive(t, job);
      assert [Create(job), Create(job)][..1] == [Create(job)];
      assert After(s, [Create(job), Create(job)]) == Next(t, Create(job));
      assert OnlyCreates([Create(job), Create(job)], job) && !LeavesOneActive(s, job, [Create(job), Create(job)]);
    }
  }

  lemma AfterOne(s: System, e: Event)
    ensures After(s, [e]) == Next(s, e)
  {
    assert [e][..0] == [];
  }

  lemma OneMore(es: seq<Event>, s: System, e: Event) returns (es': seq<Event>, s': System)
    requires After(BOOT, es) == s
    ensures es' == es + [e] && s' == Next(s, e) && After(BOOT, es') == s'
  {
    es', s' := es + [e], Next(s, e);
    assert es'[..|es|] == es;
  }

  // It happens: two starts of a job overlap.
  lemma TwoActiveRunsHappen(job: JobId) returns (es: seq<Event>)
    ensures es == [Check(job, true)] + [Check(job, true)] + [Create(job)] + [Create(job)]
    ensures !OneActive(After(BOOT, es), job)
  {
    var s, t;
    es, s := OneMore([], BOOT, Check(job, true));
    es, s := OneMore(es, s, Check(job, true));
    ChecksBothPass(BOOT, job);
    es, t := OneMore(es, s, Create(job));
    assert IsActiveRun(t, 0) && t.db.runs[0].jobId == job;
    es, s := OneMore(es, t, Create(job));
    CreationJoinsActive(t, job);
  }

  lemma ChecksBothPass(s: System, job: JobId)
    requires s.db == EMPTY_DB && s.starts == multiset{}
    ensures var t := Next(Next(s, Check(job, true)), Check(job, true));
            t.db == s.db && t.starts == multiset{job, job}
  {
    assert !HasActiveRun(s.db, job);
  }

  /* Runs that never end */

  // An active run that is not being completed and whose executor is gone, has posted all it has, or is
  // still to be initialised though its init token is used up.
  predicate IsDoomed(s: System, r: RunId) {
    && IsActiveRun(s, r) && !IsCompleting(s, r) && r in s.processes
    && (match s.processes[r]
        case Starting => false
        case Launched(_) => s.db.runs[r].status == Running
        case Posting(_, left) => left == []
        case Gone => true)
  }

  lemma DoomedStays(s: System, e: Event, r: RunId)
    requires Inv(s) && IsDoomed(s, r)
    ensures IsDoomed(Next(s, e), r)
    ensures e.Check? && e.jobId == s.db.runs[r].jobId ==> Next(s, e) == s
    ensures r < |Next(s, e).db.runs| && Next(s, e).db.runs[r].jobId == s.db.runs[r].jobId
  {
    if Enabled(s, e) {
      assert RunInv(s, r) && ProcessInv(s, r);
      if r != Subject(s, e) {
        StepKeepsOthers(s, e, r);
        assert r in Next(s, e).processes && (r in Next(s, e).completions <==> r in s.completions);
      }
    }
  }

  // A doomed run stays active whatever else happens, and no further start of its job passes its check.
  lemma {:induction false} DoomedForGood(s: System, es: seq<Event>, r: RunId, isComplete: bool)
    requires Inv(s) && IsDoomed(s, r)
    ensures var t := After(s, es);
            && IsDoomed(t, r) && t.db.runs[r].jobId == s.db.runs[r].jobId
            && Next(t, Check(s.db.runs[r].jobId, isComplete)) == t
  {
    if es != [] {
      var front := es[..|es| - 1];
      DoomedForGood(s, front, r, isComplete);
      AfterKeepsInv(s, front);
      DoomedStays(After(s, front), es[|es| - 1], r);
    }
    AfterKeepsInv(s, es);
    DoomedStays(After(s, es), Check(s.db.runs[r].jobId, isComplete), r);
  }

  lemma AfterFirst(s: System, e: Event, es: seq<Event>)
    ensures After(s, [e] + es) == After(Next(s, e), es)
  {
    AfterOne(s, e);
    AfterConcat(s, [e], es);
  }

  lemma LosePostAdvances(s: System, r: RunId)
    requires Inv(s) && IsPosting(s, r)
    ensures var t := Next(s, LosePost(r));
            Inv(t) && Get(t.processes, r) == Some(s.processes[r].(left := s.processes[r].left[1..]))
  {
    NextKeepsInv(s, LosePost(r));
  }

  // The post that says the executor is done has not been taken before, so it is now.
  lemma DoneIsTaken(db: Db, r: RunId, post: Post)
    requires r < |db.runs| && IsDone(post) && RunUpdate(r, Done, post.status) !in db.updates
    ensures TakePost(db, Some(Token(r, Access)), false, r, post).1 == Completing(post.status)
  {
  }

  lemma LastIsTaken(s: System, r: RunId)
    requires Inv(s) && IsPosting(s, r) && |s.processes[r].left| == 1
    ensures var t := Next(s, Deliver(r, false));
            && Inv(t) && IsActiveRun(t, r) && IsCompleting(t, r)
  {
    assert RunInv(s, r) && ProcessInv(s, r);
    NextOfPosts(s.processes[r].left, Ending(s, r));
    ValidTokens(s.processes[r].token, r);
    DoneIsTaken(s.db, r, NextPost(s, r));
    DeliverEffect(s, Deliver(r, false));
    NextKeepsInv(s, Deliver(r, false));
  }

  // An executor that is posting can get as far as being recorded as done.
  lemma {:induction false} GetsRecorded(s: System, r: RunId, left: seq<Post>) returns (es: seq<Event>)
    requires Inv(s) && IsPosting(s, r) && s.processes[r].left == left
    ensures Inv(After(s, es)) && IsActiveRun(After(s, es), r) && IsCompleting(After(s, es), r)
    decreases |left|
  {
    if |left| == 1 {
      es := [Deliver(r, false)];
      AfterOne(s, Deliver(r, false));
      LastIsTaken(s, r);
    } else {
      LosePostAdvances(s, r);
      var rest := GetsRecorded(Next(s, LosePost(r)), r, left[1..]);
      es := [LosePost(r)] + rest;
      AfterFirst(s, LosePost(r), rest);
    }
  }

  lemma CompletionEnds(s: System, r: RunId)
    requires r < |s.db.runs| && IsCompleting(s, r)
    ensures IsFinal(Next(s, Complete(r)), r)
  {
  }

  lemma PostingRunEnds(s: System, r: RunId, left: seq<Post>) returns (es: seq<Event>)
    requires Inv(s) && IsPosting(s, r) && s.processes[r].left == left
    ensures IsFinal(After(s, es), r)
  {
    var posts := GetsRecorded(s, r, left);
    var t := After(s, posts);
    es := posts + [Complete(r)];
    AfterConcat(s, posts, [Complete(r)]);
    AfterOne(t, Complete(r));
    CompletionEnds(t, r);
  }

  // A story whose executor gets to post something.
  ghost predicate IsTold(s: System, story: Story) {
    s.plays(story).posts != [] && story.w.outcome(InitRun).Fine?
  }

  lemma SomethingIsTold() returns (story: Story)
    ensures IsTold(BOOT, story)
  {
    story := Story(ExecutorProperties.SENDING_JOB, ExecutorProperties.FAILED_SEND);
    ExecutorProperties.FailedSendHappens();
  }

  lemma InitialiseStartsPosting(s: System, r: RunId, story: Story)
    requires Inv(s) && r < |s.db.runs| && s.db.runs[r].status == New && r in s.processes && s.processes[r].Launched?
    requires IsTold(s, story)
    ensures var t := Next(s, Initialise(r, false, story));
            Inv(t) && IsPosting(t, r) && t.processes[r].left == s.plays(story).posts
  {
    NextKeepsInv(s, Initialise(r, false, story));
  }

  lemma LaunchedRunEnds(s: System, r: RunId, story: Story) returns (es: seq<Event>)
    requires Inv(s) && r < |s.db.runs| && s.db.runs[r].status == New && r in s.processes && s.processes[r].Launched?
    requires IsTold(s, story)
    ensures IsFinal(After(s, es), r)
  {
    InitialiseStartsPosting(s, r, story);
    var rest := PostingRunEnds(Next(s, Initialise(r, false, story)), r, s.plays(story).posts);
    es := [Initialise(r, false, story)] + rest;
    AfterFirst(s, Initialise(r, false, story), rest);
  }

  // A run that is not doomed can still end.
  lemma CanEnd(s: System, r: RunId, story: Story) returns (es: seq<Event>)
    requires Inv(s) && IsActiveRun(s, r) && !IsDoomed(s, r) && IsTold(s, story)
    ensures IsFinal(After(s, es), r)
  {
    assert r in s.processes && RunInv(s, r) && ProcessInv(s, r);
    if IsCompleting(s, r) {
      es := [Complete(r)];
      AfterOne(s, Complete(r));
      CompletionEnds(s, r);
    } else {
      match s.processes[r]
      case Starting =>
        es := [Launch(r, false)];
        AfterOne(s, Launch(r, false));
      case Launched(_) => es := LaunchedRunEnds(s, r, story);
      case Posting(_, left) => es := PostingRunEnds(s, r, left);
      case Gone => assert false;
    }
  }

  predicate EndsBy(s: System, r: RunId, more: seq<Event>) {
    IsFinal(After(s, more), r)
  }

  // In every reachable state, an active run can still end exactly when it is not doomed.
  lemma CanEndIff(es: seq<Event>, r: RunId)
    requires IsActiveRun(After(BOOT, es), r)
    ensures (exists more :: EndsBy(After(BOOT, es), r, more)) <==> !IsDoomed(After(BOOT, es), r)
  {
    Reached(es);
    if IsDoomed(After(BOOT, es), r) {
      forall more ensures !EndsBy(After(BOOT, es), r, more) {
        DoomedForGood(After(BOOT, es), more, r, true);
      }
    } else {
      var story := SomethingIsTold();
      var more := CanEnd(After(BOOT, es), r, story);
      assert EndsBy(After(BOOT, es), r, more);
    }
  }

  // Starting a job, on any system that has no runs yet.
  lemma LaunchesFirst(s: System, jobId: JobId)
    requires s.db == EMPTY_DB && s.starts == multiset{} && s.processes == map[]
    ensures var t := Next(Next(Next(s, Check(jobId, true)), Create(jobId)), Launch(0, true));
            && t.db.runs == [RunRow(jobId, New)] && t.processes == map[0 := Launched(InitToken(0))]
            && t.completions == s.completions
  {
    var t := Next(s, Check(jobId, true));
    assert t.starts == multiset{jobId};
    var u := Next(t, Create(jobId));
    assert u.processes == map[0 := Starting];
  }

  lemma LaunchedFirst(jobId: JobId) returns (es: seq<Event>, s: System)
    ensures es == [Check(jobId, true)] + [Create(jobId)] + [Launch(0, true)] && s == After(BOOT, es) && Inv(s)
    ensures s.db.runs == [RunRow(jobId, New)] && s.processes == map[0 := Launched(InitToken(0))] && s.completions == map[]
    ensures s.plays == BOOT.plays
  {
    es, s := OneMore([], BOOT, Check(jobId, true));
    es, s := OneMore(es, s, Create(jobId));
    es, s := OneMore(es, s, Launch(0, true));
    LaunchesFirst(BOOT, jobId);
    Reached(es);
  }

  // It happens: an executor is lost before it does anything.
  lemma LostExecutorDooms(jobId: JobId) returns (es: seq<Event>)
    ensures es == [Check(jobId, true)] + [Create(jobId)] + [Launch(0, true)] + [LoseExecutor(0)]
    ensures IsDoomed(After(BOOT, es), 0)
  {
    var s;
    es, s := LaunchedFirst(jobId);
    es, s := OneMore(es, s, LoseExecutor(0));
  }

  // Or the answer to its init request is.
  lemma LostInitDooms(jobId: JobId) returns (es: seq<Event>)
    ensures es == [Check(jobId, true)] + [Create(jobId)] + [Launch(0, true)] + [InitInVain(0, false)]
    ensures IsDoomed(After(BOOT, es), 0)
  {
    var s;
    es, s := LaunchedFirst(jobId);
    es, s := OneMore(es, s, InitInVain(0, false));
  }

  // A run that is recorded as done is doomed once its completion is lost.
  lemma LosingCompletionDooms(s: System, r: RunId)
    requires Inv(s) && IsActiveRun(s, r) && IsCompleting(s, r)
    ensures var t := Next(s, LoseCompletion(r));
            IsDoomed(t, r) && IsRecorded(t, r, s.completions[r].status)
  {
    assert r in s.processes && RunInv(s, r) && ProcessInv(s, r);
  }

  // Or the write that completes a run that is recorded as done.
  lemma LostCompletionDooms(jobId: JobId) returns (es: seq<Event>)
    ensures IsDoomed(After(BOOT, es), 0) && exists done :: IsRecorded(After(BOOT, es), 0, done)
  {
    var first, s := LaunchedFirst(jobId);
    var story := SomethingIsTold();
    InitialiseStartsPosting(s, 0, story);
    var started, t := OneMore(first, s, Initialise(0, false, story));
    var posts := GetsRecorded(t, 0, s.plays(story).posts);
    AfterConcat(BOOT, started, posts);
    var u := After(t, posts);
    var last;
    es, last := OneMore(started + posts, u, LoseCompletion(0));
    LosingCompletionDooms(u, 0);
  }
}
