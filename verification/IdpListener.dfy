/**
  The LISTEN connection of the identity-provider service: scheduling, connecting, reconnecting after
  errors, and shutting down.

  The environment is the set of callbacks still to come: timers, answers of pool.connect(), answers of
  LISTEN and UNLISTEN, and error events of every client that ever got an error handler, which a
  released client may still emit.
 */
module IdpListener {
  import opened Wrappers

  // One acquisition of a pool client; the pool never hands the same acquisition out twice.
  type Client = nat

  datatype State = State(
    listenerClient: Option<Client>,
    connecting: bool,
    destroyed: bool,
    // callbacks to come
    timers: nat,
    connects: nat,
    listens: set<Client>,
    hearing: set<Client>,
    unlistening: bool,
    // the pool: how many clients it has handed out, and the calls of release() so far
    handed: nat,
    releases: seq<Client>)

  const INITIAL := State(None, false, false, 0, 0, {}, {}, false, 0, [])

  datatype Event =
    | Schedule(delayed: bool)   // a call of scheduleListener from outside
    | ClientError(c: Client)
    | TimerFired
    | Connected
    | ConnectFailed
    | Listened(c: Client)
    | ListenFailed(c: Client)
    | Destroy
    | Unlistened
    | UnlistenFailed

  predicate Enabled(s: State, e: Event) {
    match e
    case Schedule(_) => true
    case ClientError(c) => c in s.hearing
    case TimerFired => s.timers > 0
    case Connected => s.connects > 0
    case ConnectFailed => s.connects > 0
    case Listened(c) => c in s.listens
    case ListenFailed(c) => c in s.listens
    case Destroy => !s.destroyed
    case Unlistened => s.unlistening
    case UnlistenFailed => s.unlistening
  }

  /* The steps */

  function Release(s: State, c: Client): State {
    s.(releases := s.releases + [c])
  }

  function DropListener(s: State): State {
    if s.listenerClient.Some? then Release(s, s.listenerClient.value).(listenerClient := None) else s
  }

  function Scheduled(s: State, delayed: bool): State {
    if s.connecting || s.destroyed then s
    else
      var s1 := DropListener(s).(connecting := true);
      if delayed then s1.(timers := s1.timers + 1) else s1.(connects := s1.connects + 1)
  }

  function Failed(s: State): State {
    Scheduled(s.(connecting := false), true)
  }

  function Next(s: State, e: Event): State {
    if !Enabled(s, e) then s
    else
      match e
      case Schedule(delayed) => Scheduled(s, delayed)
      case ClientError(_) => Scheduled(s, true)
      case TimerFired =>
        var s1 := s.(timers := s.timers - 1);
        if s.destroyed then s1.(connecting := false) else s1.(connects := s1.connects + 1)
      case Connected =>
        var c, s1 := s.handed, s.(connects := s.connects - 1, handed := s.handed + 1);
        if s.destroyed then Release(s1, c) else s1.(listenerClient := Some(c), listens := s.listens + {c})
      case ConnectFailed => Failed(s.(connects := s.connects - 1))
      case Listened(c) => s.(listens := s.listens - {c}, hearing := s.hearing + {c}, connecting := false)
      case ListenFailed(c) => Failed(s.(listens := s.listens - {c}))
      case Destroy => s.(destroyed := true, unlistening := s.listenerClient.Some?)
      case Unlistened =>
        var s1 := s.(unlistening := false);
        if s.listenerClient.Some? then Release(s1, s.listenerClient.value) else s1
      case UnlistenFailed => s.(unlistening := false)
  }

  /* The service */

  class ListenerService {
    var listenerClient: Option<Client>
    var connecting: bool
    var destroyed: bool
    var timers: nat
    var connects: nat
    var listens: set<Client>
    var hearing: set<Client>
    var unlistening: bool
    var handed: nat
    var releases: seq<Client>

    constructor ()
      ensures View() == INITIAL
    {
      listenerClient, connecting, destroyed := None, false, false;
      timers, connects, listens, hearing, unlistening := 0, 0, {}, {}, false;
      handed, releases := 0, [];
    }

    function View(): State
      reads this
    {
      State(listenerClient, connecting, destroyed, timers, connects, listens, hearing, unlistening, handed, releases)
    }

    method ScheduleListener(delaySec: nat)
      modifies this
      ensures View() == Scheduled(old(View()), delaySec > 0)
    {
      if connecting || destroyed { return; }
      connecting := true;
      if listenerClient.Some? {
        releases := releases + [listenerClient.value];
        listenerClient := None;
      }
      if delaySec > 0 {
        timers := timers + 1;
      } else {
        Connect();
      }
    }

    // The connect closure, up to its call of pool.connect().
    method Connect()
      modifies this`connecting, this`connects
      ensures connecting == (old(connecting) && !destroyed) && connects == old(connects) + if destroyed then 0 else 1
    {
      if destroyed {
        connecting := false;
        return;
      }
      connects := connects + 1;
    }

    method OnTimer()
      requires Enabled(View(), TimerFired)
      modifies this
      ensures View() == Next(old(View()), TimerFired)
    {
      timers := timers - 1;
      Connect();
    }

    method OnConnected()
      requires Enabled(View(), Connected)
      modifies this
      ensures View() == Next(old(View()), Connected)
    {
      connects := connects - 1;
      var client := handed;
      handed := handed + 1;
      if destroyed {
        releases := releases + [client];
        return;
      }
      listenerClient := Some(client);
      listens := listens + {client};
    }

    method OnConnectFailed()
      requires Enabled(View(), ConnectFailed)
      modifies this
      ensures View() == Next(old(View()), ConnectFailed)
    {
      connects := connects - 1;
      connecting := false;
      if !destroyed { ScheduleListener(5); }
    }

    method OnListened(client: Client)
      requires Enabled(View(), Listened(client))
      modifies this
      ensures View() == Next(old(View()), Listened(client))
    {
      listens := listens - {client};
      hearing := hearing + {client};
      connecting := false;
    }

    method OnListenFailed(client: Client)
      requires Enabled(View(), ListenFailed(client))
      modifies this
      ensures View() == Next(old(View()), ListenFailed(client))
    {
      listens := listens - {client};
      connecting := false;
      if !destroyed { ScheduleListener(5); }
    }

    method OnClientError(client: Client)
      requires Enabled(View(), ClientError(client))
      modifies this
      ensures View() == Next(old(View()), ClientError(client))
    {
      ScheduleListener(5);
    }

    method OnModuleDestroy()
      requires Enabled(View(), Destroy)
      modifies this
      ensures View() == Next(old(View()), Destroy)
    {
      destroyed := true;
      unlistening := listenerClient.Some?;
    }

    // onModuleDestroy after its awaited UNLISTEN.
    method OnUnlistenAnswered(ok: bool)
      requires Enabled(View(), Unlistened)
      modifies this
      ensures View() == Next(old(View()), if ok then Unlistened else UnlistenFailed)
    {
      unlistening := false;
      if ok && listenerClient.Some? {
        releases := releases + [listenerClient.value];
      }
    }
  }

  /* Every run */

  function After(s: State, es: seq<Event>): State {
    if es == [] then s else Next(After(s, es[..|es| - 1]), es[|es| - 1])
  }

  // Connection attempts under way: waiting for a timer, for the pool, or for the answer to LISTEN.
  function Attempts(s: State): nat {
    s.timers + s.connects + |s.listens|
  }

  predicate IsAcquired(s: State, c: Client) {
    c < s.handed && c !in s.releases
  }

  ghost predicate AttemptsInv(s: State) {
    && Attempts(s) <= 1
    && (Attempts(s) == 1 ==> s.connecting)
    && (!s.destroyed && s.connecting ==> Attempts(s) == 1)
    && (forall c :: c in s.listens ==> s.listenerClient == Some(c))
    && (s.listenerClient.Some? && s.timers + s.connects > 0 ==> s.destroyed)
  }

  // The listening client is the only one that is not released, and none is released twice.
  ghost predicate ReleasesInv(s: State) {
    && NoDuplicates(s.releases)
    && (forall c :: c in s.releases ==> c < s.handed)
    && (forall c: Client :: IsAcquired(s, c) ==> s.listenerClient == Some(c))
    && (!s.destroyed || s.unlistening ==> forall c: Client :: s.listenerClient == Some(c) ==> IsAcquired(s, c))
  }

  ghost predicate ListenerInv(s: State) {
    && (forall c :: c in s.hearing ==> c < s.handed && c !in s.listens)
    && (s.listenerClient.Some? ==> s.listenerClient.value < s.handed)
    && (!s.destroyed ==> forall c: Client :: s.listenerClient == Some(c) ==> c in s.listens || c in s.hearing)
    && (s.unlistening ==> s.destroyed && s.listenerClient.Some?)
  }

  ghost predicate Inv(s: State) {
    AttemptsInv(s) && ReleasesInv(s) && ListenerInv(s)
  }

  lemma ReleaseKeepsDistinct(s: State, c: Client)
    requires NoDuplicates(s.releases) && c !in s.releases
    ensures NoDuplicates(Release(s, c).releases)
    ensures forall d: Client :: d in Release(s, c).releases <==> d in s.releases || d == c
  {
    assert forall i :: 0 <= i < |s.releases| ==> s.releases[i] in s.releases;
  }

  lemma NextKeepsReleases(s: State, e: Event)
    requires Inv(s) && Enabled(s, e)
    ensures ReleasesInv(Next(s, e))
  {
    if !s.destroyed || s.unlistening {
      if s.listenerClient.Some? {
        ReleaseKeepsDistinct(s, s.listenerClient.value);
      }
    } else {
      ReleaseKeepsDistinct(s, s.handed);
    }
    if s.unlistening && e.Connected? {
      ReleaseKeepsDistinct(s, s.handed);
    }
  }

  lemma NextKeepsAttempts(s: State, e: Event)
    requires AttemptsInv(s) && Enabled(s, e)
    ensures AttemptsInv(Next(s, e))
  {
  }

  lemma NextKeepsListener(s: State, e: Event)
    requires Inv(s) && Enabled(s, e)
    ensures ListenerInv(Next(s, e))
  {
  }

  lemma NextKeepsInv(s: State, e: Event)
    requires Inv(s)
    ensures Inv(Next(s, e))
  {
    if Enabled(s, e) {
      NextKeepsAttempts(s, e);
      NextKeepsReleases(s, e);
      NextKeepsListener(s, e);
    }
  }

  lemma {:induction false} AfterKeepsInv(es: seq<Event>)
    ensures Inv(After(INITIAL, es))
  {
    if es != [] {
      AfterKeepsInv(es[..|es| - 1]);
      NextKeepsInv(After(INITIAL, es[..|es| - 1]), es[|es| - 1]);
    }
  }

  // At most one connection attempt is under way and at most one client is held, in every run; no
  // client is released twice.
  lemma OneAttemptOneClient(es: seq<Event>)
    ensures var s := After(INITIAL, es);
            && Attempts(s) <= 1
            && NoDuplicates(s.releases)
            && forall c, d :: IsAcquired(s, c) && IsAcquired(s, d) ==> c == d
  {
    AfterKeepsInv(es);
  }

  // A listener whose errors are heard, so that it is replaced when it breaks.
  predicate IsListening(s: State) {
    s.listenerClient.Some? && IsAcquired(s, s.listenerClient.value) && s.listenerClient.value in s.hearing
  }

  predicate IsScheduled(es: seq<Event>) {
    exists i :: 0 <= i < |es| && es[i].Schedule?
  }

  // The service never gives up: from the first scheduling until shutdown, whatever fails, it is
  // listening or exactly one attempt is under way.
  lemma {:induction false} ListeningOrTrying(es: seq<Event>)
    requires IsScheduled(es) && !After(INITIAL, es).destroyed
    ensures IsListening(After(INITIAL, es)) <==> Attempts(After(INITIAL, es)) == 0
  {
    var front, e := es[..|es| - 1], es[|es| - 1];
    var s := After(INITIAL, front);
    AfterKeepsInv(front);
    if !e.Schedule? {
      var i :| 0 <= i < |es| && es[i].Schedule?;
      assert front[i].Schedule?;
      ListeningOrTrying(front);
    }
  }

  // It does not insist, either: the pool is asked for a client only when the listener is scheduled from
  // outside without delay or a timer fires, and whatever fails sets a timer first.
  lemma FailuresWait(es: seq<Event>, e: Event)
    ensures var s, t := After(INITIAL, es), Next(After(INITIAL, es), e);
            && (t.connects > s.connects ==> e == Schedule(false) || e == TimerFired)
            && (Enabled(s, e) && !s.destroyed
                && (e.ConnectFailed? || e.ListenFailed? || (e.ClientError? && !s.connecting)) ==>
                  t.timers == 1 && t.connects == 0 && t.listens == {} && t.connecting)
  {
    AfterKeepsInv(es);
    var s := After(INITIAL, es);
    if Enabled(s, e) && e.ListenFailed? {
      assert s.listens == {e.c} by {
        assert forall c :: c in s.listens ==> c == e.c;
      }
    }
    if s.listens != {} {
      var c :| c in s.listens;
      assert s.listens - {c} < s.listens;
    }
  }

  /* Shutting down */

  // Nothing more is under way, and no client is held that was not held before.
  ghost predicate NothingNew(s: State, t: State) {
    && t.destroyed
    && t.listenerClient == s.listenerClient
    && t.timers <= s.timers && t.connects <= s.connects && t.listens <= s.listens
    && (forall c :: IsAcquired(t, c) ==> IsAcquired(s, c))
  }

  lemma NothingNewInStep(s: State, e: Event)
    requires Inv(s) && s.destroyed
    ensures NothingNew(s, Next(s, e))
  {
  }

  // After shutdown, whatever callbacks are still to come, no attempt starts, no client is adopted, and
  // a client that the pool still hands out is released at once.
  lemma {:induction false} NothingStartsAfterShutdown(es: seq<Event>, later: seq<Event>)
    requires After(INITIAL, es).destroyed
    ensures NothingNew(After(INITIAL, es), After(INITIAL, es + later))
  {
    if later == [] {
      assert es + later == es;
    } else {
      var front := later[..|later| - 1];
      assert (es + later)[..|es + later| - 1] == es + front;
      NothingStartsAfterShutdown(es, front);
      AfterKeepsInv(es + front);
      NothingNewInStep(After(INITIAL, es + front), later[|later| - 1]);
    }
  }

  // Events as they happen: only callbacks that are due.
  predicate Legal(es: seq<Event>) {
    es == [] || (Legal(es[..|es| - 1]) && Enabled(After(INITIAL, es[..|es| - 1]), es[|es| - 1]))
  }

  ghost predicate HoldsClient(s: State) {
    exists c :: IsAcquired(s, c)
  }

  lemma ShutdownStep(s: State, e: Event)
    requires Inv(s) && Enabled(s, e) && Next(s, e).destroyed && !Next(s, e).unlistening
    ensures HoldsClient(Next(s, e)) <==>
              if s.destroyed && !s.unlistening then HoldsClient(s) else e.UnlistenFailed?
    ensures s.destroyed && !s.unlistening ==> !e.UnlistenFailed?
  {
    var t := Next(s, e);
    if c :| IsAcquired(s, c) {
      if e.UnlistenFailed? || (s.destroyed && !s.unlistening) { assert IsAcquired(t, c); }
    }
    if c :| IsAcquired(t, c) { assert IsAcquired(s, c); }
    if e.UnlistenFailed? { assert IsAcquired(t, s.listenerClient.value); }
  }

  // Once UNLISTEN has been answered after shutdown, a client is left unreleased exactly when
  // UNLISTEN failed.
  lemma {:induction false} ClientLeaksIff(es: seq<Event>)
    requires Legal(es) && After(INITIAL, es).destroyed && !After(INITIAL, es).unlistening
    ensures HoldsClient(After(INITIAL, es)) <==> UnlistenFailed in es
  {
    var front, e := es[..|es| - 1], es[|es| - 1];
    var s := After(INITIAL, front);
    assert es == front + [e];
    AfterKeepsInv(front);
    ShutdownStep(s, e);
    if s.destroyed && !s.unlistening {
      ClientLeaksIff(front);
    } else {
      NotYetUnlistened(front);
    }
  }

  lemma {:induction false} NotYetUnlistened(es: seq<Event>)
    requires Legal(es) && (!After(INITIAL, es).destroyed || After(INITIAL, es).unlistening)
    ensures UnlistenFailed !in es
  {
    if es != [] {
      assert es == es[..|es| - 1] + [es[|es| - 1]];
      AfterKeepsInv(es[..|es| - 1]);
      NotYetUnlistened(es[..|es| - 1]);
    }
  }

  lemma OneMore(es: seq<Event>, s: State, e: Event) returns (es': seq<Event>, s': State)
    requires Legal(es) && After(INITIAL, es) == s && Enabled(s, e)
    ensures es' == es + [e] && Legal(es') && s' == Next(s, e) && After(INITIAL, es') == s'
  {
    es', s' := es + [e], Next(s, e);
    assert es'[..|es|] == es;
  }

  // It happens: the listening client breaks while the service shuts down, so UNLISTEN fails.
  lemma ClientLeakHappens() returns (es: seq<Event>)
    ensures Legal(es) && |es| == 5 && es[3..] == [Destroy, UnlistenFailed]
    ensures After(INITIAL, es).destroyed && !After(INITIAL, es).unlistening && IsAcquired(After(INITIAL, es), 0)
  {
    var s;
    es, s := OneMore([], INITIAL, Schedule(false));
    es, s := OneMore(es, s, Connected);
    es, s := OneMore(es, s, Listened(0));
    es, s := OneMore(es, s, Destroy);
    es, s := OneMore(es, s, UnlistenFailed);
  }

  /* Late errors */

  // An error drops the current listener and starts an attempt exactly when no attempt is under way
  // and the service is up, whichever client the error came from: a late error of a client that was
  // replaced long ago costs a healthy connection.
  lemma LateErrorDropsListenerIff(es: seq<Event>, c: Client)
    requires IsListening(After(INITIAL, es)) && c in After(INITIAL, es).hearing
    ensures var s := After(INITIAL, es);
            (!IsListening(Next(s, ClientError(c))) && Attempts(Next(s, ClientError(c))) == 1) <==> !s.destroyed
  {
    AfterKeepsInv(es);
  }

  // It happens: client 0 breaks, client 1 replaces it and listens, client 0 reports another error.
  lemma LateErrorHappens() returns (es: seq<Event>)
    ensures Legal(es + [ClientError(0)]) && !After(INITIAL, es).destroyed
    ensures IsListening(After(INITIAL, es)) && After(INITIAL, es).listenerClient == Some(1)
    ensures After(INITIAL, es + [ClientError(0)]).releases == [0, 1]
  {
    var s, es', s';
    es, s := OneMore([], INITIAL, Schedule(false));
    es, s := OneMore(es, s, Connected);
    es, s := OneMore(es, s, Listened(0));
    es, s := OneMore(es, s, ClientError(0));
    assert s.releases == [0] && s.timers == 1 && s.listens == {} && s.hearing == {0};
    es, s := OneMore(es, s, TimerFired);
    es, s := OneMore(es, s, Connected);
    es, s := OneMore(es, s, Listened(1));
    es', s' := OneMore(es, s, ClientError(0));
  }
}
