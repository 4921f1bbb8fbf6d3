/**
  ODS configurations and their versioned connections.

  An update first reads the configuration, outside any transaction, and only then, in one, retires the
  connection it has read, creates a new one and makes that the active one.  Transactions are atomic;
  other requests may come between the read and the transaction.
 */
module OdsConfigs {
  import opened Wrappers

  type ConfigId = nat
  type ConnectionId = nat
  type Time = nat

  datatype AuthResult = AuthSuccess | AuthError
  datatype Credentials = Credentials(host: string, clientId: string, clientSecret: string)
  datatype Connection = Connection(
    odsConfigId: ConfigId,
    credentials: Credentials,
    lastUseOn: Time,
    lastUseResult: AuthResult,
    retiredOn: Option<Time>)
  {
    predicate Retired() { retiredOn.Some? }
  }

  // The tenant and the school year a configuration is for.
  datatype Owner = Owner(partnerId: string, tenantCode: string, schoolYearId: string)
  datatype Config = Config(owner: Owner, activeConnectionId: Option<ConnectionId>, retiredOn: Option<Time>) {
    predicate Retired() { retiredOn.Some? }
  }

  // Ids are handed out in order.
  datatype Db = Db(configs: seq<Config>, connections: seq<Connection>)

  // An update between its read and its transaction.
  datatype Pending = Pending(id: ConfigId, read: ConnectionId, credentials: Credentials)

  datatype State = State(db: Db, pending: seq<Option<Pending>>)

  const INITIAL := State(Db([], []), [])

  datatype Error = Conflict | NotFound | Incomplete

  datatype Event =
    | Create(owner: Owner, credentials: Credentials, result: AuthResult, now: Time)
    | Read(id: ConfigId, credentials: Credentials)
    | Commit(k: nat, result: AuthResult, now: Time)
    | UpdateStatus(id: ConfigId, result: AuthResult, now: Time)
    | Retire(id: ConfigId, now: Time)

  // The partial unique index on configurations that are not retired.
  predicate HasActive(db: Db, owner: Owner) {
    exists i :: 0 <= i < |db.configs| && db.configs[i].owner == owner && !db.configs[i].Retired()
  }

  // findOne, as far as the active connection's id is concerned
  function FindOne(db: Db, id: ConfigId): Result<ConnectionId, Error> {
    if id >= |db.configs| || db.configs[id].Retired() then Failure(NotFound)
    else if db.configs[id].activeConnectionId.None? then Failure(Incomplete)
    else Success(db.configs[id].activeConnectionId.value)
  }

  function RetireConnection(connections: seq<Connection>, c: ConnectionId, now: Time): seq<Connection> {
    if c < |connections| then connections[c := connections[c].(retiredOn := Some(now))] else connections
  }

  function CreateConfig(db: Db, owner: Owner, credentials: Credentials, result: AuthResult, now: Time): Result<Db, Error> {
    if HasActive(db, owner) then Failure(Conflict)
    else Success(Db(db.configs + [Config(owner, Some(|db.connections|), None)],
                    db.connections + [Connection(|db.configs|, credentials, now, result, None)]))
  }

  function Rotate(db: Db, p: Pending, result: AuthResult, now: Time): Db {
    if p.id >= |db.configs| then db
    else
      Db(db.configs[p.id := db.configs[p.id].(activeConnectionId := Some(|db.connections|))],
         RetireConnection(db.connections, p.read, now) + [Connection(p.id, p.credentials, now, result, None)])
  }

  function RecordUse(db: Db, id: ConfigId, result: AuthResult, now: Time): Db {
    if id < |db.configs| && db.configs[id].activeConnectionId.Some?
       && db.configs[id].activeConnectionId.value < |db.connections| then
      var c := db.configs[id].activeConnectionId.value;
      db.(connections := db.connections[c := db.connections[c].(lastUseResult := result, lastUseOn := now)])
    else db
  }

  function Next(s: State, e: Event): State {
    match e
    case Create(owner, credentials, result, now) =>
      var created := CreateConfig(s.db, owner, credentials, result, now);
      if created.Success? then s.(db := created.value) else s
    case Read(id, credentials) =>
      var found := FindOne(s.db, id);
      if found.Success? then s.(pending := s.pending + [Some(Pending(id, found.value, credentials))]) else s
    case Commit(k, result, now) =>
      if k < |s.pending| && s.pending[k].Some? then
        State(Rotate(s.db, s.pending[k].value, result, now), s.pending[k := None])
      else s
    case UpdateStatus(id, result, now) => s.(db := RecordUse(s.db, id, result, now))
    case Retire(id, now) =>
      if id < |s.db.configs| then s.(db := s.db.(configs := s.db.configs[id := s.db.configs[id].(retiredOn := Some(now))]))
      else s
  }

  class OdsConfigService {
    var configs: seq<Config>
    var connections: seq<Connection>
    // the suspended calls of Update
    var pending: seq<Option<Pending>>

    constructor ()
      ensures View() == INITIAL
    {
      configs, connections, pending := [], [], [];
    }

    function View(): State
      reads this
    {
      State(Db(configs, connections), pending)
    }

    method AnyActive(owner: Owner) returns (active: bool)
      ensures active == HasActive(Db(configs, connections), owner)
    {
      active := false;
      for i := 0 to |configs|
        invariant active <==> exists k :: 0 <= k < i && configs[k].owner == owner && !configs[k].Retired()
      {
        if configs[i].owner == owner && !configs[i].Retired() {
          active := true;
        }
      }
    }

    method CreateOne(owner: Owner, credentials: Credentials, result: AuthResult, now: Time) returns (e: Option<Error>)
      modifies this
      ensures View() == Next(old(View()), Create(owner, credentials, result, now))
      ensures e == if HasActive(old(View()).db, owner) then Some(Conflict) else None
    {
      var taken := AnyActive(owner);
      if taken {
        return Some(Conflict);
      }
      var id := |configs|;
      configs := configs + [Config(owner, None, None)];
      var connection := |connections|;
      connections := connections + [Connection(id, credentials, now, result, None)];
      configs := configs[id := configs[id].(activeConnectionId := Some(connection))];
      assert configs == old(configs) + [Config(owner, Some(connection), None)];
      return None;
    }

    // update(), up to its transaction
    method UpdateRead(id: ConfigId, credentials: Credentials) returns (e: Option<Error>)
      modifies this
      ensures View() == Next(old(View()), Read(id, credentials))
      ensures e == match FindOne(old(View()).db, id) case Success(_) => None case Failure(error) => Some(error)
    {
      if id >= |configs| || configs[id].Retired() {
        return Some(NotFound);
      }
      if configs[id].activeConnectionId.None? {
        return Some(Incomplete);
      }
      pending := pending + [Some(Pending(id, configs[id].activeConnectionId.value, credentials))];
      return None;
    }

    // the transaction of update()
    method UpdateCommit(k: nat, result: AuthResult, now: Time)
      requires k < |pending| && pending[k].Some? && pending[k].value.id < |configs|
      modifies this
      ensures View() == Next(old(View()), Commit(k, result, now))
    {
      var p := pending[k].value;
      if p.read < |connections| {
        connections := connections[p.read := connections[p.read].(retiredOn := Some(now))];
      }
      var connection := |connections|;
      connections := connections + [Connection(p.id, p.credentials, now, result, None)];
      configs := configs[p.id := configs[p.id].(activeConnectionId := Some(connection))];
      pending := pending[k := None];
    }

    method UpdateConnectionStatus(id: ConfigId, result: AuthResult, now: Time)
      modifies this
      ensures View() == Next(old(View()), UpdateStatus(id, result, now))
    {
      if id < |configs| && configs[id].activeConnectionId.Some? && configs[id].activeConnectionId.value < |connections| {
        var c := configs[id].activeConnectionId.value;
        connections := connections[c := connections[c].(lastUseResult := result, lastUseOn := now)];
      }
    }

    method RetireOne(id: ConfigId, now: Time)
      modifies this
      ensures View() == Next(old(View()), Retire(id, now))
    {
      if id < |configs| {
        configs := configs[id := configs[id].(retiredOn := Some(now))];
      }
    }
  }

  /* Every interleaving */

  function After(s: State, es: seq<Event>): State {
    if es == [] then s else Next(After(s, es[..|es| - 1]), es[|es| - 1])
  }

  predicate HasLiveConnection(db: Db, id: ConfigId) {
    id < |db.configs| && db.configs[id].activeConnectionId.Some?
    && (var c := db.configs[id].activeConnectionId.value;
        c < |db.connections| && db.connections[c].odsConfigId == id && !db.connections[c].Retired())
  }

  predicate IsSound(db: Db, p: Pending) {
    p.id < |db.configs| && p.read < |db.connections| && db.connections[p.read].odsConfigId == p.id
  }

  ghost predicate Inv(s: State) {
    && (forall id: ConfigId :: id < |s.db.configs| ==> HasLiveConnection(s.db, id))
    && (forall c :: 0 <= c < |s.db.connections| ==> s.db.connections[c].odsConfigId < |s.db.configs|)
    && (forall k :: 0 <= k < |s.pending| && s.pending[k].Some? ==> IsSound(s.db, s.pending[k].value))
    && (forall a: ConfigId, b: ConfigId :: AreRivals(s.db, a, b) ==> a == b)
  }

  // Configurations in use for the same tenant and school year.
  predicate AreRivals(db: Db, a: ConfigId, b: ConfigId) {
    && a < |db.configs| && b < |db.configs| && db.configs[a].owner == db.configs[b].owner
    && !db.configs[a].Retired() && !db.configs[b].Retired()
  }

  lemma NextKeepsInv(s: State, e: Event)
    requires Inv(s)
    ensures Inv(Next(s, e))
  {
    var t := Next(s, e);
    forall id: ConfigId | id < |t.db.configs| ensures HasLiveConnection(t.db, id) {
      if id < |s.db.configs| { assert HasLiveConnection(s.db, id); }
    }
    forall k | 0 <= k < |t.pending| && t.pending[k].Some? ensures IsSound(t.db, t.pending[k].value) {
      if k < |s.pending| {
        assert IsSound(s.db, s.pending[k].value);
      } else {
        assert HasLiveConnection(s.db, e.id);
      }
    }
    forall a: ConfigId, b: ConfigId | AreRivals(t.db, a, b) ensures a == b {
      if a < |s.db.configs| && b < |s.db.configs| { assert AreRivals(s.db, a, b); }
    }
  }

  lemma {:induction false} AfterKeepsInv(es: seq<Event>)
    ensures Inv(After(INITIAL, es))
  {
    if es != [] {
      AfterKeepsInv(es[..|es| - 1]);
      NextKeepsInv(After(INITIAL, es[..|es| - 1]), es[|es| - 1]);
    }
  }

  // Each configuration has an active connection that exists, is its own and is not retired, so that
  // findOne never meets an incomplete one; and a tenant has at most one in use per school year.
  lemma ActiveConnectionIsLive(es: seq<Event>)
    ensures var db := After(INITIAL, es).db;
            && (forall id: ConfigId :: id < |db.configs| ==> HasLiveConnection(db, id) && FindOne(db, id) != Failure(Incomplete))
            && (forall a: ConfigId, b: ConfigId :: AreRivals(db, a, b) ==> a == b)
  {
    AfterKeepsInv(es);
    var db := After(INITIAL, es).db;
    forall id: ConfigId | id < |db.configs| ensures FindOne(db, id) != Failure(Incomplete) {
      assert HasLiveConnection(db, id);
    }
  }

  // Credentials and ownership of a connection never change, and retirement is for good.
  ghost predicate Extends(before: Db, after: Db) {
    && |before.configs| <= |after.configs| && |before.connections| <= |after.connections|
    && (forall c :: 0 <= c < |before.connections| ==>
          && after.connections[c].odsConfigId == before.connections[c].odsConfigId
          && after.connections[c].credentials == before.connections[c].credentials
          && (before.connections[c].Retired() ==> after.connections[c].Retired()))
    && (forall id :: 0 <= id < |before.configs| ==>
          && after.configs[id].owner == before.configs[id].owner
          && (before.configs[id].Retired() ==> after.configs[id].Retired()))
  }

  lemma {:induction false} HistoryIsPreserved(s: State, es: seq<Event>)
    ensures Extends(s.db, After(s, es).db)
  {
    if es != [] {
      HistoryIsPreserved(s, es[..|es| - 1]);
      StepExtends(After(s, es[..|es| - 1]), es[|es| - 1]);
    }
  }

  lemma StepExtends(s: State, e: Event)
    ensures Extends(s.db, Next(s, e).db)
  {
  }

  /* Connections left behind */

  function LiveCount(connections: seq<Connection>, id: ConfigId): nat {
    if connections == [] then 0
    else
      var last := connections[|connections| - 1];
      LiveCount(connections[..|connections| - 1], id) + if last.odsConfigId == id && !last.Retired() then 1 else 0
  }

  predicate IsLive(c: Connection, id: ConfigId) {
    c.odsConfigId == id && !c.Retired()
  }

  lemma {:induction false} LiveCountUpdate(connections: seq<Connection>, c: ConnectionId, x: Connection, id: ConfigId)
    requires c < |connections|
    ensures LiveCount(connections[c := x], id) ==
            LiveCount(connections, id) - (if IsLive(connections[c], id) then 1 else 0) + (if IsLive(x, id) then 1 else 0)
  {
    var n := |connections| - 1;
    if c == n {
      assert connections[c := x][..n] == connections[..n];
    } else {
      assert connections[c := x][..n] == connections[..n][c := x];
      LiveCountUpdate(connections[..n], c, x, id);
    }
  }

  lemma LiveCountAppend(connections: seq<Connection>, x: Connection, id: ConfigId)
    ensures LiveCount(connections + [x], id) == LiveCount(connections, id) + if IsLive(x, id) then 1 else 0
  {
    assert (connections + [x])[..|connections|] == connections;
  }

  // A transaction that retires a connection which is retired already: another update has come between
  // its read and its commit.
  predicate IsStaleCommit(s: State, e: Event, id: ConfigId) {
    && e.Commit? && e.k < |s.pending| && s.pending[e.k].Some? && s.pending[e.k].value.id == id
    && s.pending[e.k].value.read < |s.db.connections| && s.db.connections[s.pending[e.k].value.read].Retired()
  }

  function StaleCommits(es: seq<Event>, id: ConfigId): nat {
    if es == [] then 0
    else
      StaleCommits(es[..|es| - 1], id)
      + if IsStaleCommit(After(INITIAL, es[..|es| - 1]), es[|es| - 1], id) then 1 else 0
  }

  lemma StepLiveCount(s: State, e: Event, id: ConfigId)
    requires Inv(s)
    ensures var t := Next(s, e);
            LiveCount(t.db.connections, id) - LiveCount(s.db.connections, id) ==
              if |s.db.configs| <= id < |t.db.configs| then 1
              else if IsStaleCommit(s, e, id) then 1
              else 0
  {
    match e
    case Create(owner, credentials, result, now) =>
      LiveCountAppend(s.db.connections, Connection(|s.db.configs|, credentials, now, result, None), id);
    case Commit(k, result, now) =>
      if k < |s.pending| && s.pending[k].Some? {
        var p := s.pending[k].value;
        assert IsSound(s.db, p);
        LiveCountUpdate(s.db.connections, p.read, s.db.connections[p.read].(retiredOn := Some(now)), id);
        LiveCountAppend(RetireConnection(s.db.connections, p.read, now), Connection(p.id, p.credentials, now, result, None), id);
      }
    case UpdateStatus(other, result, now) =>
      if other < |s.db.configs| {
        assert HasLiveConnection(s.db, other);
        var c := s.db.configs[other].activeConnectionId.value;
        LiveCountUpdate(s.db.connections, c, s.db.connections[c].(lastUseResult := result, lastUseOn := now), id);
      }
    case _ =>
  }

  lemma StaleCommitIsOfConfig(s: State, e: Event, id: ConfigId)
    requires Inv(s) && IsStaleCommit(s, e, id)
    ensures id < |s.db.configs|
  {
    assert IsSound(s.db, s.pending[e.k].value);
  }

  // A configuration has one live connection, and one more for every update that committed on a stale
  // read.
  lemma {:induction false} LiveConnectionsCount(es: seq<Event>, id: ConfigId)
    ensures var db := After(INITIAL, es).db;
            && LiveCount(db.connections, id) == (if id < |db.configs| then 1 + StaleCommits(es, id) else 0)
            && (id >= |db.configs| ==> StaleCommits(es, id) == 0)
  {
    if es != [] {
      var front, e := es[..|es| - 1], es[|es| - 1];
      var s := After(INITIAL, front);
      LiveConnectionsCount(front, id);
      AfterKeepsInv(front);
      StepLiveCount(s, e, id);
      HistoryIsPreserved(s, [e]);
      assert [e][..0] == [] && After(s, [e]) == Next(s, e);
      if IsStaleCommit(s, e, id) {
        StaleCommitIsOfConfig(s, e, id);
      }
    }
  }

  // It happens: two updates read the same connection, and both commit.
  function Overlapping(owner: Owner, credentials: Credentials): seq<Event> {
    [Create(owner, credentials, AuthSuccess, 0), Read(0, credentials), Read(0, credentials),
     Commit(0, AuthSuccess, 1), Commit(1, AuthSuccess, 2)]
  }

  lemma OneMore(es: seq<Event>, s: State, e: Event) returns (es': seq<Event>, s': State)
    requires After(INITIAL, es) == s
    ensures es' == es + [e] && s' == Next(s, e) && After(INITIAL, es') == s'
  {
    es', s' := es + [e], Next(s, e);
    assert es'[..|es|] == es;
  }

  lemma OverlappingUpdatesLeaveOneBehind(owner: Owner, credentials: Credentials)
    ensures var db := After(INITIAL, Overlapping(owner, credentials)).db;
            && db.configs[..] == [Config(owner, Some(2), None)]
            && |db.connections| == 3 && IsLive(db.connections[1], 0) && IsLive(db.connections[2], 0)
  {
    var es, s := OneMore([], INITIAL, Create(owner, credentials, AuthSuccess, 0));
    es, s := OneMore(es, s, Read(0, credentials));
    es, s := OneMore(es, s, Read(0, credentials));
    var p := Some(Pending(0, 0, credentials));
    assert s.pending == [p, p] && s.db.configs == [Config(owner, Some(0), None)];
    es, s := OneMore(es, s, Commit(0, AuthSuccess, 1));
    es, s := OneMore(es, s, Commit(1, AuthSuccess, 2));
    assert es == Overlapping(owner, credentials);
  }
}
