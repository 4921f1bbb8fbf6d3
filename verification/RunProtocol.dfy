/**
  The app's side of a run: starting it, initialising it once, and taking the executor's messages.

  Each read, write or transaction of the database is one step.  So startJob's check, its creation of the
  run and its launch of the executor are three steps, and recording that an executor is done and
  completing its run are two.  A token is its payload; nothing else can be verified as one.
 */
module RunProtocol {
  import opened Wrappers
  import opened ExecutorSteps

  type RunId = nat
  type JobId = nat

  datatype RunStatus = New | Running | Success | Error
  datatype RunRow = RunRow(jobId: JobId, status: RunStatus)
  // The primary key of run_update is the whole row but for its time.
  datatype RunUpdate = RunUpdate(runId: RunId, action: Action, status: Status)
  datatype RunErrorCode = FailedToStart | Reported(code: ErrorCode)
  datatype RunError = RunError(runId: RunId, code: RunErrorCode)

  // Run ids are handed out in order, so a run is found at its id.
  datatype Db = Db(runs: seq<RunRow>, updates: set<RunUpdate>, errors: seq<RunError>)

  const EMPTY_DB := Db([], {}, [])

  datatype TokenType = Init | Access
  datatype Token = Token(runId: RunId, kind: TokenType)

  datatype StartResult = JobConfigIncomplete | JobInProgress | JobStartFailed | JobStarted(run: RunId, token: Token)
  datatype HttpError = BadRequest | Unauthorized | Forbidden | NotFound | ServerError

  predicate IsActive(row: RunRow) {
    row.status == New || row.status == Running
  }

  function SetStatus(db: Db, r: RunId, status: RunStatus): Db {
    if r < |db.runs| then db.(runs := db.runs[r := db.runs[r].(status := status)]) else db
  }

  predicate HasActiveRun(db: Db, job: JobId) {
    exists i :: 0 <= i < |db.runs| && db.runs[i].jobId == job && IsActive(db.runs[i])
  }

  /* The steps */

  // startJob's check: None is a job that may be started.
  function CheckStart(db: Db, job: JobId, isComplete: bool): Option<StartResult> {
    if !isComplete then Some(JobConfigIncomplete)
    else if HasActiveRun(db, job) then Some(JobInProgress)
    else None
  }

  // startJob's creation of the run
  function AddRun(db: Db, job: JobId): Db {
    db.(runs := db.runs + [RunRow(job, New)])
  }

  // The token that an executor is launched with.
  function InitToken(r: RunId): Token {
    Token(r, Init)
  }

  // startJob, after executor.start() has thrown
  function FailToStart(db: Db, r: RunId): Db {
    SetStatus(db.(updates := db.updates + {RunUpdate(r, Done, Failed)}, errors := db.errors + [RunError(r, FailedToStart)]),
              r, RunStatus.Error)
  }

  // The guard in front of every route of the executor API: what it lets through carries a valid token
  // of the expected type, made for the run in the URL.  Run ids start at 1 in the URL.
  function Guard(expected: TokenType, token: Option<Token>, isExpired: bool, requested: RunId): Option<HttpError> {
    if token.None? || isExpired || token.value.kind != expected then Some(Unauthorized)
    else if token.value.runId != requested then Some(Forbidden)
    else None
  }

  // GET /:runId/init, which answers with an access token.
  function TakeInit(db: Db, token: Option<Token>, isExpired: bool, requested: RunId): (Db, Result<Token, HttpError>) {
    var refused := Guard(Init, token, isExpired, requested);
    if refused.Some? then (db, Result.Failure(refused.value))
    else if requested >= |db.runs| then (db, Result.Failure(NotFound))
    else if db.runs[requested].status != New then (db, Result.Failure(Unauthorized))
    else (SetStatus(db, requested, Running), Result.Success(Token(requested, Access)))
  }

  // The answer to a post; one that says the executor is done is still to complete the run.
  datatype Answer = Refused(error: HttpError) | Taken | Completing(status: Status)

  // POST /:runId/status, up to its call of completeRun, and POST /:runId/error.  An empty action is
  // invalid, and a repeated update violates its primary key before anything else is done.
  function TakePost(db: Db, token: Option<Token>, isExpired: bool, requested: RunId, post: Post): (Db, Answer) {
    var refused := Guard(Access, token, isExpired, requested);
    if refused.Some? then (db, Refused(refused.value))
    else
      match post
      case ErrorReport(code) =>
        if requested >= |db.runs| then (db, Refused(ServerError))
        else (db.(errors := db.errors + [RunError(requested, Reported(code))]), Taken)
      case Update(None, _) => (db, Refused(BadRequest))
      case Update(Some(action), status) =>
        var update := RunUpdate(requested, action, status);
        if requested >= |db.runs| || update in db.updates then (db, Refused(ServerError))
        else (db.(updates := db.updates + {update}), if action == Done then Completing(status) else Taken)
  }

  // completeRun, as far as the run's status is concerned
  function CompleteRun(db: Db, r: RunId, status: Status): Db {
    SetStatus(db, r, if status == Succeeded then RunStatus.Success else RunStatus.Error)
  }

  /* The services */

  class RunwayApi {
    var runs: seq<RunRow>
    var updates: set<RunUpdate>
    var errors: seq<RunError>

    constructor ()
      ensures Read() == EMPTY_DB
    {
      runs, updates, errors := [], {}, [];
    }

    function Read(): Db
      reads this
    {
      Db(runs, updates, errors)
    }

    method AnyActive(job: JobId) returns (active: bool)
      ensures active == HasActiveRun(Read(), job)
    {
      active := false;
      for i := 0 to |runs|
        invariant active <==> exists k :: 0 <= k < i && runs[k].jobId == job && IsActive(runs[k])
      {
        if runs[i].jobId == job && IsActive(runs[i]) {
          active := true;
        }
      }
    }

    // startJob when nothing else happens in the meantime.
    method StartJob(job: JobId, isComplete: bool, launched: bool) returns (r: StartResult)
      modifies this
      ensures var db, refused := old(Read()), CheckStart(old(Read()), job, isComplete);
              if refused.Some? then Read() == db && r == refused.value
              else if launched then Read() == AddRun(db, job) && r == JobStarted(|db.runs|, InitToken(|db.runs|))
              else Read() == FailToStart(AddRun(db, job), |db.runs|) && r == JobStartFailed
    {
      if !isComplete {
        return JobConfigIncomplete;
      }
      var inProgress := AnyActive(job);
      if inProgress {
        return JobInProgress;
      }
      var run := |runs|;
      runs := runs + [RunRow(job, New)];
      if !launched {
        runs := runs[run := runs[run].(status := RunStatus.Error)];
        errors := errors + [RunError(run, FailedToStart)];
        updates := updates + {RunUpdate(run, Done, Failed)};
        return JobStartFailed;
      }
      return JobStarted(run, InitToken(run));
    }

    method InitRunOnce(token: Option<Token>, isExpired: bool, requested: RunId) returns (r: Result<Token, HttpError>)
      modifies this
      ensures (Read(), r) == TakeInit(old(Read()), token, isExpired, requested)
    {
      var refused := Guard(Init, token, isExpired, requested);
      if refused.Some? {
        return Result.Failure(refused.value);
      }
      if requested >= |runs| {
        return Result.Failure(NotFound);
      }
      if runs[requested].status != New {
        return Result.Failure(Unauthorized);
      }
      runs := runs[requested := runs[requested].(status := Running)];
      return Result.Success(Token(requested, Access));
    }

    // updateStatus when nothing else happens in the meantime; the second write may fail.
    method UpdateStatus(runId: RunId, action: Option<Action>, status: Status, completes: bool) returns (e: Option<HttpError>)
      modifies this
      ensures var (db, answer) := TakePost(old(Read()), Some(Token(runId, Access)), false, runId, Update(action, status));
              match answer
              case Refused(error) => Read() == db && e == Some(error)
              case Taken => Read() == db && e == None
              case Completing(_) =>
                if completes then Read() == CompleteRun(db, runId, status) && e == None
                else Read() == db && e == Some(ServerError)
    {
      if action.None? {
        return Some(BadRequest);
      }
      if runId >= |runs| || RunUpdate(runId, action.value, status) in updates {
        return Some(ServerError);
      }
      updates := updates + {RunUpdate(runId, action.value, status)};
      if action.value == Done {
        if !completes {
          return Some(ServerError);
        }
        Complete(runId, status);
      }
      return None;
    }

    method Complete(runId: RunId, status: Status)
      requires runId < |runs|
      modifies this`runs
      ensures Read() == CompleteRun(old(Read()), runId, status)
    {
      runs := runs[runId := runs[runId].(status := if status == Succeeded then RunStatus.Success else RunStatus.Error)];
    }

    method ReportError(runId: RunId, code: ErrorCode) returns (e: Option<HttpError>)
      modifies this
      ensures var (db, answer) := TakePost(old(Read()), Some(Token(runId, Access)), false, runId, ErrorReport(code));
              Read() == db && answer == if e.Some? then Refused(e.value) else Taken
    {
      if runId >= |runs| {
        return Some(ServerError);
      }
      errors := errors + [RunError(runId, Reported(code))];
      return None;
    }
  }

  /* What the tokens are good for */

  // The token that an executor is launched with lets it initialise its run and no other, as long as the
  // run is new; and the one it is answered with then lets it post for that run and no other.
  lemma TokensAreForTheirRun(db: Db, r: RunId, isExpired: bool, requested: RunId)
    ensures Guard(Init, Some(InitToken(r)), isExpired, requested).None? <==> !isExpired && requested == r
    ensures TakeInit(db, Some(InitToken(r)), false, r).1.Success? <==> r < |db.runs| && db.runs[r].status == New
    ensures TakeInit(db, Some(InitToken(r)), false, r).1.Success? ==>
              var answer := TakeInit(db, Some(InitToken(r)), false, r).1.value;
              Guard(Access, Some(answer), isExpired, requested).None? <==> !isExpired && requested == r
  {
  }

  // Whatever token an init is made with: one that succeeds was for that run and valid, and is answered
  // with an access token for it.
  lemma InitAnswersWithAccess(db: Db, token: Option<Token>, isExpired: bool, requested: RunId, later: RunId)
    requires TakeInit(db, token, isExpired, requested).1.Success?
    ensures token == Some(InitToken(requested)) && !isExpired
    ensures var answer := TakeInit(db, token, isExpired, requested).1.value;
            && (Guard(Access, Some(answer), false, later).None? <==> later == requested)
            && Guard(Init, Some(answer), false, later) == Some(Unauthorized)
  {
  }

  // A post is refused exactly without a valid access token for the run, for a run that does not exist, and
  // for an update without an action or one that has been recorded before.
  lemma RefusedIff(db: Db, token: Option<Token>, isExpired: bool, requested: RunId, post: Post)
    ensures TakePost(db, token, isExpired, requested, post).1.Refused?
       <==> || isExpired || token.None? || token.value.kind != Access || token.value.runId != requested
            || requested >= |db.runs|
            || (post.Update? && (post.action.None? || RunUpdate(requested, post.action.value, post.status) in db.updates))
    ensures TakePost(db, token, isExpired, requested, post).1.Completing? ==> post.Update? && post.action == Some(Done)
  {
  }

  // A job may be started exactly when it is complete and each of its runs has ended.
  lemma MayStartIff(db: Db, job: JobId, isComplete: bool)
    ensures CheckStart(db, job, isComplete).None?
       <==> isComplete && forall i :: 0 <= i < |db.runs| && db.runs[i].jobId == job ==>
                            db.runs[i].status == RunStatus.Success || db.runs[i].status == RunStatus.Error
    ensures CheckStart(db, job, isComplete).Some? ==>
              CheckStart(db, job, isComplete).value == if isComplete then JobInProgress else JobConfigIncomplete
  {
    if HasActiveRun(db, job) {
      var i :| 0 <= i < |db.runs| && db.runs[i].jobId == job && IsActive(db.runs[i]);
      assert db.runs[i].status != RunStatus.Success && db.runs[i].status != RunStatus.Error;
    }
  }

  /* Whoever sends what */

  // The rows of one run.
  function UpdatesOf(db: Db, r: RunId): set<RunUpdate> {
    set u | u in db.updates && u.runId == r
  }

  function ErrorsOf(errors: seq<RunError>, r: RunId): seq<RunError> {
    if errors == [] then []
    else
      var last := errors[|errors| - 1];
      ErrorsOf(errors[..|errors| - 1], r) + if last.runId == r then [last] else []
  }

  ghost predicate SameRun(a: Db, b: Db, r: RunId) {
    && (r < |a.runs| <==> r < |b.runs|) && (r < |a.runs| ==> a.runs[r] == b.runs[r])
    && UpdatesOf(a, r) == UpdatesOf(b, r) && ErrorsOf(a.errors, r) == ErrorsOf(b.errors, r)
  }

  // Any request, with any token, whoever made it: every run but the one the token was issued for is
  // left as it was, also when the request completes its run, and without a valid token for the
  // requested run nothing changes at all.
  lemma RequestsStayWithinTheirRun(db: Db, token: Option<Token>, isExpired: bool, requested: RunId, post: Post, r: RunId)
    requires token.None? || token.value.runId != r
    ensures var (taken, answer) := TakePost(db, token, isExpired, requested, post);
            && SameRun(db, taken, r)
            && (answer.Completing? ==> SameRun(db, CompleteRun(taken, requested, answer.status), r))
            && (isExpired || token != Some(Token(requested, Access)) ==> taken == db && answer.Refused?)
    ensures SameRun(db, TakeInit(db, token, isExpired, requested).0, r)
    ensures isExpired || token != Some(Token(requested, Init)) ==> TakeInit(db, token, isExpired, requested).0 == db
  {
    var taken := TakePost(db, token, isExpired, requested, post).0;
    assert taken.errors != db.errors ==> taken.errors[..|taken.errors| - 1] == db.errors;
    assert UpdatesOf(taken, r) == UpdatesOf(db, r);
  }
}
